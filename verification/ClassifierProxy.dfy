/** The loopback proxy: exact reads, and the bounded bidirectional relay of one connection. */
module ClassifierProxy {
  import opened Wrappers

  const LIMIT: nat := 65536

  datatype Outcome =
    | Expired       // no byte moved for so many rounds
    | Quiescent     // nothing left to read or write
    | Refused       // a send accepted nothing
    | Failed        // a socket raised

  /** What the operating system answers to one socket call. */
  datatype Reply = WouldBlock | Raised | Done(count: nat)

  /** How many bytes a read may answer with: none only when none were asked for or none are left. */
  predicate Offer(n: int, size: int, left: int) {
    0 <= n <= size && n <= left && (size > 0 && left > 0 ==> n > 0)
  }

  lemma {:induction false} SomeOffer(size: nat, left: nat)
    ensures exists n :: Offer(n, size, left)
  {
    assert Offer(if size > 0 && left > 0 then 1 else 0, size, left);
  }

  /**
   One direction of the relay: the source's stream, the bytes waiting for the destination
   and the destination's write side.  `stream` is everything the source will ever send
   before it closes; how it is cut into reads is up to the operating system.
   */
  class Direction {
    const stream: seq<byte>
    var taken: nat           // how much of the stream was read
    var buffer: seq<byte>    // read and not yet sent
    var sent: seq<byte>      // accepted by the destination
    var readOpen: bool       // the source has not ended yet
    var pendingFin: bool     // it ended, and the destination still has to be told
    var shut: nat            // how often the destination was shut down for writing

    /**
     Nothing is lost, duplicated or reordered, the buffer is bounded, and the destination is
     shut down at most once: after its source ended and everything was delivered.
     */
    ghost predicate Valid()
      reads this
    {
      && taken <= |stream|
      && stream[..taken] == sent + buffer
      && |buffer| <= LIMIT
      && (!readOpen ==> taken == |stream|)
      && (pendingFin ==> !readOpen)
      && shut == (if readOpen || pendingFin then 0 else 1)
      && (shut == 1 ==> buffer == [])
    }

    /** Between two rounds, a shutdown waits only for the buffer. */
    ghost predicate Settled()
      reads this
    {
      Valid() && (pendingFin ==> buffer != [])
    }

    constructor (stream: seq<byte>)
      ensures Settled() && this.stream == stream
      ensures taken == 0 && buffer == [] && sent == [] && readOpen && shut == 0
    {
      this.stream, taken, buffer, sent := stream, 0, [], [];
      readOpen, pendingFin, shut := true, false, 0;
    }

    predicate WantsRead()
      reads this
    {
      readOpen && |buffer| < LIMIT
    }

    predicate WantsWrite()
      reads this
    {
      buffer != []
    }

    /** Bytes still to be moved: read once and sent once. */
    ghost function Bytes(): nat
      reads this
      requires Valid()
    {
      2 * (|stream| - taken) + |buffer|
    }

    /** The same, with the end of the stream still to be seen and told. */
    ghost function Work(): nat
      reads this
      requires Valid()
    {
      Bytes() + if readOpen then 2 else if pendingFin then 1 else 0
    }

    /** `recv`, always asked for at least one byte: an empty answer is the end of the stream. */
    method Receive(size: nat) returns (reply: Reply, data: seq<byte>)
      requires Valid() && size > 0
      modifies this`taken
      ensures reply.Done? ==>
                && old(taken) + |data| == taken <= |stream| && |data| <= size
                && stream[..taken] == stream[..old(taken)] + data
                && (data == [] ==> taken == |stream|)
      ensures !reply.Done? ==> taken == old(taken)
    {
      reply, data := WouldBlock, [];
      if * {
        return;
      } else if * {
        return Raised, [];
      }
      SomeOffer(size, |stream| - taken);
      var n :| Offer(n, size, |stream| - taken);
      data := stream[taken..taken + n];
      taken := taken + n;
      reply := Done(n);
    }

    /** `send`: the destination accepts some prefix, and is never offered anything once it is shut. */
    method Send(data: seq<byte>) returns (reply: Reply)
      requires shut == 0
      modifies this`sent
      ensures reply.Done? ==> reply.count <= |data| && sent == old(sent) + data[..reply.count]
      ensures !reply.Done? ==> sent == old(sent)
    {
      if * {
        return WouldBlock;
      } else if * {
        return Raised;
      }
      var n: int := *;
      n := if 0 <= n <= |data| then n else 0;
      sent := sent + data[..n];
      reply := Done(n);
    }

    /** Send what waits for the destination; `moved` says whether a byte was taken. */
    method Drain() returns (end: Option<Outcome>, moved: bool)
      requires Valid() && WantsWrite()
      modifies this`sent, this`buffer
      ensures Valid() && |buffer| <= old(|buffer|)
      ensures old(sent) <= sent && sent + buffer == old(sent + buffer)
      ensures moved <==> |sent| > old(|sent|)
      ensures if moved then Bytes() < old(Bytes()) && Work() < old(Work()) else Bytes() == old(Bytes()) && Work() == old(Work())
      ensures end.Some? ==> !moved && (end.value.Refused? || end.value.Failed?)
    {
      var offered := buffer;
      var reply := Send(offered);
      end, moved := None, false;
      match reply
      case WouldBlock =>
      case Raised => end := Some(Failed);
      case Done(count) =>
        assert offered == offered[..count] + offered[count..];
        buffer := offered[count..];
        moved := count > 0;
        end := if count == 0 then Some(Refused) else None;
    }

    /**
     Read as much as the buffer can still hold; an empty answer ends the direction.  `blocked` says
     that there was no answer at all.
     */
    method Fill() returns (end: Option<Outcome>, moved: bool, blocked: bool)
      requires Valid() && WantsRead()
      modifies this`taken, this`buffer, this`readOpen, this`pendingFin
      ensures Valid()
      ensures moved <==> taken > old(taken)
      ensures if moved then Bytes() < old(Bytes()) else Bytes() == old(Bytes())
      ensures if end.None? && !blocked then Work() < old(Work()) else Work() == old(Work())
      ensures end.None? && !moved && !blocked ==> !readOpen && taken == |stream|
      ensures blocked ==> !moved && end.None?
      ensures end.Some? ==> !moved && end.value.Failed?
    {
      var reply, data := Receive(LIMIT - |buffer|);
      end := if reply.Raised? then Some(Failed) else None;
      moved, blocked := false, reply.WouldBlock?;
      if reply.Done? && data == [] {
        readOpen, pendingFin := false, true;
      } else if reply.Done? {
        buffer := buffer + data;
        moved := true;
      }
    }

    /** Shut the destination down once everything before the end was sent. */
    method Finish() returns (end: Option<Outcome>)
      requires Valid()
      modifies this`shut, this`pendingFin
      ensures Valid()
      ensures end.None? ==> Settled()
      ensures end.Some? ==> end.value.Failed?
      ensures Bytes() == old(Bytes()) && Work() <= old(Work())
    {
      end := None;
      if pendingFin && buffer == [] {
        if * {
          return Some(Failed);
        }
        shut, pendingFin := shut + 1, false;
      }
    }

    /** Nothing to read and nothing to write: the direction is complete. */
    lemma {:induction false} Complete()
      requires Settled() && !WantsRead() && !WantsWrite()
      ensures sent == stream && shut == 1
    {
      assert stream[..taken] == stream;
    }
  }

  /** Which of the sockets it was asked about select() reports. */
  datatype Ready = Ready(readFirst: bool, writeFirst: bool, readSecond: bool, writeSecond: bool)

  /**
   One round over both directions, in either order: sends, then reads, then shutdowns.  `moved`
   says whether a byte moved, `blocked` whether every reported call would have blocked.
   */
  method Round(first: Direction, second: Direction, ready: Ready) returns (end: Option<Outcome>, moved: bool, blocked: bool)
    requires first != second && first.Settled() && second.Settled()
    modifies first, second
    ensures first.Valid() && second.Valid()
    ensures end.None? ==> first.Settled() && second.Settled()
    ensures end.Some? ==> end.value.Refused? || end.value.Failed?
    // A reported socket that does not block brings both streams closer to their ends.
    ensures moved ==> first.Bytes() + second.Bytes() < old(first.Bytes() + second.Bytes())
    ensures !moved ==> first.Bytes() + second.Bytes() == old(first.Bytes() + second.Bytes())
    ensures end.None? && !blocked ==> first.Work() + second.Work() < old(first.Work() + second.Work())
    ensures blocked ==> !moved
    ensures ((ready.writeFirst ==> !old(first.WantsWrite())) && (ready.writeSecond ==> !old(second.WantsWrite()))
             && (ready.readFirst ==> !old(first.WantsRead())) && (ready.readSecond ==> !old(second.WantsRead()))) ==> blocked
  {
    hide Direction.Valid, Direction.Bytes, Direction.Work;
    var readFirst, readSecond := ready.readFirst && first.WantsRead(), ready.readSecond && second.WantsRead();
    end, moved, blocked := None, false, true;
    if ready.writeFirst && first.WantsWrite() {
      end, moved := first.Drain();
      blocked := !moved;
      if end.Some? { return; }
    }
    if ready.writeSecond && second.WantsWrite() {
      var sent;
      end, sent := second.Drain();
      moved, blocked := moved || sent, blocked && !sent;
      if end.Some? { return; }
    }
    end, moved, blocked := ReadBoth(first, second, readFirst, readSecond, moved, blocked);
    if end.Some? { return; }
    end := first.Finish();
    if end.Some? { return; }
    end := second.Finish();
  }

  /** The reads of one round, after its sends. */
  method ReadBoth(first: Direction, second: Direction, readFirst: bool, readSecond: bool, moved0: bool, blocked0: bool)
    returns (end: Option<Outcome>, moved: bool, blocked: bool)
    requires first != second && first.Valid() && second.Valid() && (blocked0 ==> !moved0)
    requires (readFirst ==> first.WantsRead()) && (readSecond ==> second.WantsRead())
    modifies first`taken, first`buffer, first`readOpen, first`pendingFin
    modifies second`taken, second`buffer, second`readOpen, second`pendingFin
    ensures first.Valid() && second.Valid()
    ensures end.Some? ==> end.value.Failed?
    ensures moved == (moved0 || first.Bytes() + second.Bytes() < old(first.Bytes() + second.Bytes()))
    ensures first.Bytes() + second.Bytes() <= old(first.Bytes() + second.Bytes())
    ensures first.Work() + second.Work() <= old(first.Work() + second.Work())
    ensures end.None? && !blocked && blocked0 ==> first.Work() + second.Work() < old(first.Work() + second.Work())
    ensures (blocked ==> blocked0 && !moved) && (blocked0 && !readFirst && !readSecond ==> blocked)
  {
    hide Direction.Valid, Direction.Bytes, Direction.Work;
    end, moved, blocked := None, moved0, blocked0;
    if readFirst {
      var read, waited;
      end, read, waited := first.Fill();
      moved, blocked := moved || read, blocked && waited;
      if end.Some? { return end, moved, blocked && !moved; }
    }
    if readSecond {
      var read, waited;
      end, read, waited := second.Fill();
      moved, blocked := moved || read, blocked && waited;
    }
    blocked := blocked && !moved;
  }

  /** No byte moved in the last `patience` rounds, and in every such stretch before one did. */
  ghost predicate IdleSince(history: seq<nat>, patience: nat) {
    && patience < |history| && history[|history| - 1 - patience] == history[|history| - 1]
    && forall i | 0 <= i && i + patience < |history| - 1 :: history[i] > history[i + patience]
  }

  /**
   The relay, for any readiness and any partial reads and writes; so many rounds in a row without a
   byte stand for the idle deadline.  However it ends, each side received a prefix of what the other
   sent.  Ending because nothing is left means both streams were delivered completely and both
   sides were shut down exactly once.  It expires only when no byte has moved for as long as the
   deadline allows, with something left to do.  `history` is what was still to be moved, round by round.
   */
  method Relay(forth: Direction, back: Direction, patience: nat) returns (end: Outcome, ghost history: seq<nat>)
    requires forth != back && forth.Settled() && back.Settled()
    modifies forth, back
    ensures forth.Valid() && back.Valid()
    ensures forth.sent <= forth.stream && back.sent <= back.stream
    ensures end.Quiescent? ==> forth.sent == forth.stream && forth.shut == 1
    ensures end.Quiescent? ==> back.sent == back.stream && back.shut == 1
    ensures |history| > 0 && history[0] == old(forth.Bytes() + back.Bytes()) && history[|history| - 1] == forth.Bytes() + back.Bytes()
    ensures end.Expired? ==> IdleSince(history, patience)
    ensures end.Expired? ==> forth.WantsRead() || back.WantsRead() || forth.WantsWrite() || back.WantsWrite()
  {
    hide Direction.Bytes, Direction.Work;
    var idle := 0;
    history := [forth.Bytes() + back.Bytes()];
    while idle < patience && (forth.WantsRead() || back.WantsRead() || forth.WantsWrite() || back.WantsWrite())
      invariant forth.Settled() && back.Settled() && idle <= patience && idle < |history|
      invariant history[0] == old(forth.Bytes() + back.Bytes()) && history[|history| - 1] == forth.Bytes() + back.Bytes()
      invariant forall i, k | 0 <= i <= k < |history| :: history[i] >= history[k]
      invariant forall i | |history| - 1 - idle <= i < |history| :: history[i] == history[|history| - 1]
      invariant |history| > idle + 1 ==> history[|history| - 2 - idle] > history[|history| - 1]
      invariant forall i | 0 <= i && i + patience < |history| - 1 :: history[i] > history[i + patience]
      invariant patience > 0 ==> idle < patience || history[|history| - 1 - patience] == history[|history| - 1]
      decreases forth.Bytes() + back.Bytes(), patience - idle
    {
      var stop: Option<Outcome>, moved: bool, blocked: bool;
      var ready: Ready := *;
      if * {
        stop, moved, blocked := Round(forth, back, ready);
      } else {
        stop, moved, blocked := Round(back, forth, ready);
      }
      history := history + [forth.Bytes() + back.Bytes()];
      if stop.Some? {
        return stop.value, history;
      }
      idle := if moved then 0 else idle + 1;
    }
    if forth.WantsRead() || back.WantsRead() || forth.WantsWrite() || back.WantsWrite() {
      return Expired, history;
    }
    forth.Complete();
    back.Complete();
    end := Quiescent;
  }

  // ---------------------------------------------------------------- exact reads

  /** A blocking connection: some bytes while any are left, then nothing. */
  class Connection {
    const stream: seq<byte>
    var taken: nat

    ghost predicate Valid()
      reads this
    {
      taken <= |stream|
    }

    constructor (stream: seq<byte>)
      ensures Valid() && this.stream == stream && taken == 0
    {
      this.stream, taken := stream, 0;
    }

    method Receive(size: nat) returns (chunk: seq<byte>)
      requires Valid()
      modifies this`taken
      ensures Valid() && taken == old(taken) + |chunk| && |chunk| <= size
      ensures chunk == stream[old(taken)..taken]
      ensures size > 0 && chunk == [] ==> old(taken) == |stream|
    {
      SomeOffer(size, |stream| - taken);
      var n :| Offer(n, size, |stream| - taken);
      chunk := stream[taken..taken + n];
      taken := taken + n;
    }

    /** However the bytes arrive: exactly the next `size` of them, or an error iff the stream ends first. */
    method ReceiveExact(size: nat) returns (bytes: Option<seq<byte>>)
      requires Valid()
      modifies this`taken
      ensures Valid()
      ensures bytes.Some? <==> old(taken) + size <= |stream|
      ensures bytes.Some? ==> taken == old(taken) + size && bytes.value == stream[old(taken)..taken]
    {
      var chunks: seq<byte> := [];
      while |chunks| < size
        invariant Valid() && |chunks| <= size && taken == old(taken) + |chunks|
        invariant chunks == stream[old(taken)..taken]
        decreases size - |chunks|
      {
        var chunk := Receive(size - |chunks|);
        if chunk == [] {
          return None;
        }
        chunks := chunks + chunk;
      }
      bytes := Some(chunks);
    }
  }
}
