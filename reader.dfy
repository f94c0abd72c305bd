/** The per-reader side of the fan-out: a chanReader (reader.go) holds a
    bounded FIFO inbox of chunks that the pump fills and a staged remainder
    `buf` that Read hands out. Channels become a `seq` queue plus a `closed`
    flag; a receive that would block becomes a precondition. */
module Reader {

  /** A byte of a Go `[]byte`. */
  newtype byte = b: int | 0 <= b < 256

  function Min(a: int, b: int): int { if a <= b then a else b }

  /** The bytes of a queue of chunks, in queue order. */
  function Flatten(chunks: seq<seq<byte>>): seq<byte>
  {
    if chunks == [] then [] else chunks[0] + Flatten(chunks[1..])
  }

  lemma {:induction false} FlattenAppend(a: seq<seq<byte>>, b: seq<seq<byte>>)
    ensures Flatten(a + b) == Flatten(a) + Flatten(b)
  {
    if a == [] {
      assert a + b == b;
    } else {
      assert (a + b)[1..] == a[1..] + b;
      FlattenAppend(a[1..], b);
    }
  }

  /** Every chunk holds at least one byte (the pump only sends reads with n > 0). */
  predicate NonEmptyChunks(chunks: seq<seq<byte>>)
  {
    forall i :: 0 <= i < |chunks| ==> |chunks[i]| > 0
  }

  lemma FlattenEmpty(chunks: seq<seq<byte>>)
    requires NonEmptyChunks(chunks)
    ensures Flatten(chunks) == [] <==> chunks == []
  {
    if chunks != [] {
      assert |chunks[0]| > 0;
    }
  }

  /** What Read and the pump see of one reader: the queued chunks, whether
      the channel is closed, whether the pump evicted it, and the staged
      remainder. */
  datatype ReaderState = ReaderState(
    inbox: seq<seq<byte>>,
    closed: bool,
    hasTimedOut: bool,
    buf: seq<byte>)

  /** The bytes the reader has yet to hand out: the stage, then the queue. */
  function Pending(s: ReaderState): seq<byte>
  {
    s.buf + Flatten(s.inbox)
  }

  /** A Read on this state does not block: something is staged, something
      is queued, or the channel is closed. */
  predicate CanProceed(s: ReaderState)
  {
    |s.buf| > 0 || |s.inbox| > 0 || s.closed
  }

  /** With nothing staged, Read receives the head chunk (reader.go:28-35);
      a receive on a closed, drained channel yields an empty chunk. */
  function Stage(s: ReaderState): (t: ReaderState)
    ensures Pending(t) == Pending(s)
    ensures t.closed == s.closed && t.hasTimedOut == s.hasTimedOut
    // the head chunk, and only it, moves from the queue to the stage
    ensures |s.buf| == 0 && |s.inbox| > 0 ==> t.buf == s.inbox[0] && t.inbox == s.inbox[1..]
    // otherwise nothing changes
    ensures |s.buf| > 0 || |s.inbox| == 0 ==> t == s
  {
    if |s.buf| == 0 && |s.inbox| > 0 then s.(buf := s.inbox[0], inbox := s.inbox[1..]) else s
  }

  /** One Read call with a destination of `size` bytes: the new state, the
      bytes copied to the front of the destination, and whether it was EOF. */
  datatype ReadOutcome = ReadOutcome(next: ReaderState, data: seq<byte>, eof: bool)

  function ReadStep(s: ReaderState, size: nat): (r: ReadOutcome)
    requires CanProceed(s)
    // the bytes handed out, followed by what is still pending, are what was pending
    ensures r.data + Pending(r.next) == Pending(s)
    ensures |r.data| == Min(size, |Stage(s).buf|)
    ensures r.eof <==> |Stage(s).buf| == 0
    ensures !r.eof && size >= 1 ==> |r.data| >= 1
    ensures r.next.closed == s.closed && r.next.hasTimedOut == s.hasTimedOut
    ensures r.next.inbox == Stage(s).inbox
  {
    var t := Stage(s);
    if |t.buf| == 0 then
      ReadOutcome(t, [], true)
    else if size >= |t.buf| then
      assert t.buf + Pending(t.(buf := [])) == Pending(t);
      ReadOutcome(t.(buf := []), t.buf, false)
    else
      SplitStage(t.buf, Flatten(t.inbox), size);
      ReadOutcome(t.(buf := t.buf[size..]), t.buf[..size], false)
  }

  /** Handing out the first k staged bytes leaves the rest staged. */
  lemma SplitStage(buf: seq<byte>, rest: seq<byte>, k: nat)
    requires k <= |buf|
    ensures buf[..k] + (buf[k..] + rest) == buf + rest
  {
    assert buf[..k] + buf[k..] == buf;
  }

  /** The three outcomes of ReadStep, by what the staging step leaves. */
  lemma ReadStepCases(s: ReaderState, size: nat)
    requires CanProceed(s)
    ensures var t := Stage(s);
      ReadStep(s, size) ==
        if |t.buf| == 0 then ReadOutcome(t, [], true)
        else if size >= |t.buf| then ReadOutcome(t.(buf := []), t.buf, false)
        else ReadOutcome(t.(buf := t.buf[size..]), t.buf[..size], false)
  {
  }

  /** Read returns EOF exactly when the channel is closed and nothing is
      staged or queued; EOF leaves the reader as it was. */
  lemma ReadEofIffDrained(s: ReaderState, size: nat)
    requires CanProceed(s) && NonEmptyChunks(s.inbox)
    ensures ReadStep(s, size).eof <==> (s.closed && Pending(s) == [])
    ensures ReadStep(s, size).eof ==> ReadStep(s, size).next == s
  {
    FlattenEmpty(s.inbox);
    if |s.buf| == 0 && |s.inbox| > 0 {
      assert |s.inbox[0]| > 0;
    }
  }

  /** Read never puts an empty chunk into the queue. */
  lemma ReadKeepsChunksNonEmpty(s: ReaderState, size: nat)
    requires CanProceed(s) && NonEmptyChunks(s.inbox)
    ensures NonEmptyChunks(ReadStep(s, size).next.inbox)
  {
    if |s.buf| == 0 && |s.inbox| > 0 {
      assert forall i :: 0 <= i < |s.inbox| - 1 ==> s.inbox[1..][i] == s.inbox[i + 1];
    }
  }

  /** Handing out `data` keeps the accounting of a reader balanced. */
  lemma KeepsConservation(received: seq<byte>, data: seq<byte>, after: seq<byte>, before: seq<byte>, total: seq<byte>)
    requires received + before == total && data + after == before
    ensures (received + data) + after == total
  {
  }

  /** Go's copy(to, src) when src fits: the front of `to` becomes src. */
  method CopyInto(to: array<byte>, src: seq<byte>)
    requires |src| <= to.Length
    modifies to
    ensures to[..|src|] == src && to[|src|..] == old(to[|src|..])
  {
    forall i | 0 <= i < |src| {
      to[i] := src[i];
    }
  }

  /** The bookkeeping of one reader: its state, its channel's capacity, the
      chunks delivered to it, the bytes it has handed out, and whether its
      start trigger has fired. */
  datatype Ledger = Ledger(state: ReaderState, capacity: nat, delivered: seq<seq<byte>>, received: seq<byte>, started: bool)

  /** The queue stays within the channel's capacity, holds no empty chunk,
      and no byte is lost: handed-out bytes plus pending bytes are the
      delivered bytes. */
  predicate Balanced(l: Ledger)
  {
    |l.state.inbox| <= l.capacity &&
    NonEmptyChunks(l.state.inbox) &&
    l.received + Pending(l.state) == Flatten(l.delivered)
  }

  /** A reader's ledger after one Read of a `size`-byte destination: the
      state ReadStep leaves, and the handed-out bytes grown by the bytes read. */
  function ReadLedger(l: Ledger, size: nat): Ledger
    requires CanProceed(l.state)
  {
    var o := ReadStep(l.state, size);
    l.(state := o.next, received := l.received + o.data)
  }

  /** A Read keeps a reader balanced, and at EOF every delivered byte has
      been handed out. */
  lemma ReadKeepsBalance(l: Ledger, size: nat)
    requires Balanced(l) && CanProceed(l.state)
    ensures Balanced(ReadLedger(l, size))
    ensures ReadStep(l.state, size).eof ==> l.state.closed && l.received == Flatten(l.delivered)
  {
    var o := ReadStep(l.state, size);
    ReadKeepsChunksNonEmpty(l.state, size);
    ReadEofIffDrained(l.state, size);
    KeepsConservation(l.received, o.data, Pending(o.next), Pending(l.state), Flatten(l.delivered));
  }

  /** A chanReader. `once` records that the reader's sync.Once has fired
      (reader.go:26); `delivered` and `received` are the chunks the pump has
      put in the inbox and the bytes Read has handed out, for the proofs. */
  class ChanReader {
    var inbox: seq<seq<byte>>
    var capacity: nat
    var closed: bool
    var hasTimedOut: bool
    var buf: seq<byte>
    var once: bool
    ghost var delivered: seq<seq<byte>>
    ghost var received: seq<byte>

    function State(): ReaderState
      reads this`inbox, this`closed, this`hasTimedOut, this`buf
    {
      ReaderState(inbox, closed, hasTimedOut, buf)
    }

    ghost function Snapshot(): Ledger
      reads this`inbox, this`closed, this`hasTimedOut, this`buf, this`capacity, this`delivered, this`received, this`once
    {
      Ledger(State(), capacity, delivered, received, once)
    }

    ghost predicate Valid()
      reads this`inbox, this`closed, this`hasTimedOut, this`buf, this`capacity, this`delivered, this`received, this`once
    {
      Balanced(Snapshot())
    }

    /** newChanReader: an empty stage and an empty, open channel of the
        caster's backlog size. */
    constructor (capacity: nat)
      ensures Valid()
      ensures State() == ReaderState([], false, false, [])
      ensures this.capacity == capacity && !once
      ensures delivered == [] && received == []
    {
      inbox := [];
      this.capacity := capacity;
      closed := false;
      hasTimedOut := false;
      buf := [];
      once := false;
      delivered := [];
      received := [];
    }

    /** chanReader.Read after its start trigger (ReadCaster.StartRead). */
    method Read(to: array<byte>) returns (n: nat, eof: bool)
      requires Valid() && once && CanProceed(State())
      modifies this`buf, this`inbox, this`received, to
      ensures Valid()
      ensures n <= to.Length
      // the new state is ReadStep's, the bytes it hands out are the front of
      // `to`, and only `received` grows, by exactly those bytes
      ensures var out := ReadStep(old(State()), to.Length);
        Snapshot() == ReadLedger(old(Snapshot()), to.Length) && eof == out.eof && to[..n] == out.data
      ensures to[n..] == old(to[n..])
      ensures eof ==> closed && received == Flatten(delivered)
    {
      ghost var l := Snapshot();
      ghost var t := Stage(l.state);
      ReadStepCases(l.state, to.Length);
      ReadKeepsBalance(l, to.Length);
      StageHead();
      if |buf| == 0 {
        assert Snapshot() == ReadLedger(l, to.Length);
        return 0, true;
      }
      n := HandOut(to);
      eof := false;
      if n == |t.buf| {
        assert t.buf[..n] == t.buf;
      }
      assert Snapshot() == ReadLedger(l, to.Length);
    }

    /** reader.go:44-66: copy as much of the stage as fits into `to`, and
        keep the rest staged. */
    method HandOut(to: array<byte>) returns (n: nat)
      requires |buf| > 0
      modifies this`buf, this`received, to
      ensures n == Min(to.Length, |old(buf)|)
      ensures to[..n] == old(buf)[..n] && buf == old(buf)[n..]
      ensures to[n..] == old(to[n..])
      ensures received == old(received) + to[..n]
    {
      if to.Length >= |buf| {
        n := |buf|;
        CopyInto(to, buf);
        received := received + buf;
        buf := [];
        return;
      }
      n := to.Length;
      var head := buf[..n];
      CopyInto(to, head);
      received := received + head;
      buf := buf[n..];
    }

    /** reader.go:28-35: with nothing staged, take the head chunk of the
        queue (a receive on a closed, drained channel yields nothing). */
    method StageHead()
      modifies this`buf, this`inbox
      ensures State() == Stage(old(State()))
    {
      if |buf| == 0 && |inbox| > 0 {
        buf := inbox[0];
        inbox := inbox[1..];
      }
    }

    /** An accepted send of the pump (read_caster.go:166); sending on a
        closed channel would panic, and the queue must have room. */
    method Send(chunk: seq<byte>)
      requires Valid() && !closed && |inbox| < capacity && |chunk| > 0
      modifies this
      ensures Valid()
      ensures State() == old(State()).(inbox := old(inbox) + [chunk])
      ensures delivered == old(delivered) + [chunk]
      ensures capacity == old(capacity) && once == old(once) && received == old(received)
    {
      FlattenAppend(inbox, [chunk]);
      FlattenAppend(delivered, [chunk]);
      inbox := inbox + [chunk];
      delivered := delivered + [chunk];
    }

    /** close(reader.source); closing a closed channel would panic. */
    method Close()
      requires Valid() && !closed
      modifies this`closed
      ensures Valid()
      ensures State() == old(State()).(closed := true)
    {
      ghost var s := State();
      closed := true;
      assert State() == s.(closed := true) && Pending(State()) == Pending(s);
    }
  }
}
