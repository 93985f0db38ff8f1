/**
 * The driver's collaborators: the I2C device handle and the millisecond clock.
 *
 * Both are modelled as oracles whose answers are fixed in advance: the bus
 * replays a script of read replies and of byte counts accepted by writes, and
 * the clock advances on every delay by the requested time plus a scripted lag.
 * Any behaviour of the real bus or clock is one of these scripts.
 */
module Platform {
  import opened Transfer

  /** The reply of a read once the script is exhausted: `read(2)` failed. */
  const NoReply: ReadReply := ReadReply(-1, [0, 0, 0, 0, 0, 0, 0, 0, 0, 0, 0, 0, 0, 0, 0, 0])

  class Bus {
    /** Replies to the successive read calls. */
    const script: seq<ReadReply>
    /** Byte counts returned by the successive write calls. */
    const accepts: seq<int>
    /** Read calls made so far. */
    var readCount: nat
    /** The words passed to each write call so far, in order. */
    var sent: seq<seq<bv16>>

    constructor (script: seq<ReadReply>, accepts: seq<int>)
      ensures this.script == script && this.accepts == accepts
      ensures readCount == 0 && sent == []
    {
      this.script := script;
      this.accepts := accepts;
      readCount := 0;
      sent := [];
    }

    /** The reply to the k-th read call. */
    function ReplyAt(k: nat): ReadReply
    {
      if k < |script| then script[k] else NoReply
    }

    /** The byte count the k-th write call returns. */
    function AcceptAt(k: nat): int
    {
      if k < |accepts| then accepts[k] else -1
    }

    function NextReply(): ReadReply
      reads this
    {
      ReplyAt(readCount)
    }

    function NextAccept(): int
      reads this
    {
      AcceptAt(|sent|)
    }

    /** `read(fd, buffer, 32)`. */
    method Read() returns (reply: ReadReply)
      modifies this`readCount
      ensures reply == old(NextReply())
      ensures readCount == old(readCount) + 1
    {
      reply := ReplyAt(readCount);
      readCount := readCount + 1;
    }

    /** `write(fd, buffer, 2 * |words|)`: records the words and returns the byte count accepted. */
    method Write(words: seq<bv16>) returns (count: int)
      modifies this`sent
      ensures count == old(NextAccept())
      ensures sent == old(sent) + [words]
    {
      count := AcceptAt(|sent|);
      sent := sent + [words];
    }
  }

  class Clock {
    /** The current reading of `millis()`. */
    var now: int
    /** Time that passes beyond each requested delay, in order. */
    const lag: seq<nat>
    /** Delays performed so far. */
    var delays: nat

    constructor (start: int, lag: seq<nat>)
      ensures now == start && this.lag == lag && delays == 0
    {
      now := start;
      this.lag := lag;
      delays := 0;
    }

    function LagAt(k: nat): nat
    {
      if k < |lag| then lag[k] else 0
    }

    /** `millis()`. */
    method Millis() returns (t: int)
      ensures t == now
    {
      t := now;
    }

    /** `delay(ms)`: at least `ms` milliseconds pass. */
    method Delay(ms: nat)
      modifies this`now, this`delays
      ensures now == old(now) + ms + old(LagAt(delays))
      ensures delays == old(delays) + 1
    {
      now := now + ms + LagAt(delays);
      delays := delays + 1;
    }
  }
}
