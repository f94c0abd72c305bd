/** The broadcasting side (read_caster.go): configuration, the reader
    registry, the start latch, and the pump as one round at a time. The
    source io.Reader, the goroutine, the Progress channel's sends and the
    round's timer are abstracted: each round's source read and each reader's
    accept/evict outcome are inputs. */
module Caster {
  import opened Reader

  const DefaultBufferSize: int := 4096
  const DefaultBacklogSize: int := 10
  /** 1 * time.Second, as a time.Duration in nanoseconds. */
  const DefaultReaderTimeout: int := 1_000_000_000

  const TwoTo63: int := 0x8000_0000_0000_0000
  const TwoTo64: int := 0x1_0000_0000_0000_0000

  datatype Option<T> = None | Some(value: T)

  /** Go's 64-bit `int` arithmetic: the two's complement representative of x. */
  function Wrap64(x: int): (r: int)
    ensures -TwoTo63 <= r < TwoTo63
    ensures (x - r) % TwoTo64 == 0
    ensures -TwoTo63 <= x < TwoTo63 ==> r == x
  {
    var q := (x + TwoTo63) / TwoTo64;
    assert x - ((x + TwoTo63) % TwoTo64 - TwoTo63) == TwoTo64 * q;
    (x + TwoTo63) % TwoTo64 - TwoTo63
  }

  /** The sum of the byte counts of a sequence of source reads. */
  function Sum(s: seq<nat>): nat
  {
    if s == [] then 0 else Sum(s[..|s| - 1]) + s[|s| - 1]
  }

  /** The source read ends the stream (read_caster.go:148). */
  predicate IsTerminal(data: seq<byte>, err: bool)
  {
    err || |data| == 0
  }

  /** What one delivery round (read_caster.go:159-173) does to one reader,
      given whether its send was accepted before the round's timer fired. */
  function Deliver(s: ReaderState, chunk: seq<byte>, accepted: bool): (r: ReaderState)
    // an evicted reader is skipped
    ensures s.hasTimedOut ==> r == s
    // a live reader that accepts gets exactly the chunk at the end of its queue
    ensures !s.hasTimedOut && accepted ==> r.inbox == s.inbox + [chunk] && Pending(r) == Pending(s) + chunk
    // a live reader that does not accept is evicted and closed, keeping what it has
    ensures !s.hasTimedOut && !accepted ==> r.hasTimedOut && r.closed && r.inbox == s.inbox && Pending(r) == Pending(s)
    ensures r.buf == s.buf && |s.inbox| <= |r.inbox| && r.inbox[..|s.inbox|] == s.inbox
    ensures r.hasTimedOut <==> s.hasTimedOut || !accepted
    ensures r.closed <==> s.closed || (!s.hasTimedOut && !accepted)
  {
    if s.hasTimedOut then
      s
    else if accepted then
      FlattenAppend(s.inbox, [chunk]);
      assert (s.inbox + [chunk])[..|s.inbox|] == s.inbox;
      s.(inbox := s.inbox + [chunk])
    else
      s.(hasTimedOut := true, closed := true)
  }

  /** What the final round (read_caster.go:148-157) does to one reader:
      every reader not evicted is closed; queued bytes stay to be drained. */
  function Shutdown(s: ReaderState): (r: ReaderState)
    ensures r.closed <==> s.closed || !s.hasTimedOut
    ensures r.inbox == s.inbox && r.buf == s.buf && r.hasTimedOut == s.hasTimedOut
    ensures s.hasTimedOut ==> r == s
  {
    if s.hasTimedOut then s else s.(closed := true)
  }

  class ReadCaster {
    var readers: seq<ChanReader>
    /** c.once has fired: the pump has been launched. */
    var onceDone: bool
    var startedReading: bool
    var bufferSize: int
    var backlogSize: int
    var readerTimeout: int
    /** The pump's running total of bytes read from the source. */
    var totalBytesRead: int
    /** close(c.Progress) has run, which is also where the pump stops. */
    var progressClosed: bool
    /** The chunks of all delivery rounds so far, and the byte counts of all
        source reads, for the proofs. */
    ghost var chunks: seq<seq<byte>>
    ghost var readSizes: seq<nat>

    /** The configuration and the pump's counters: the buffer size is
        positive, the pump runs only once reading has started, nothing is
        read before it runs, and the total is the sum of all read sizes. */
    ghost predicate Counters()
      reads this`bufferSize, this`onceDone, this`startedReading, this`progressClosed,
            this`readSizes, this`chunks, this`totalBytesRead
    {
      bufferSize >= 1 &&
      (onceDone ==> startedReading) &&
      (progressClosed ==> onceDone) &&
      (!onceDone ==> readSizes == [] && chunks == []) &&
      totalBytesRead == Sum(readSizes)
    }

    /** The registry: distinct readers, each in the state the pump keeps,
        and none started before the caster's pump was launched. */
    ghost predicate Registry()
      reads this`readers, this`backlogSize, this`chunks, this`progressClosed, this`onceDone, readers
    {
      (forall i, j :: 0 <= i < j < |readers| ==> readers[i] != readers[j]) &&
      (forall i :: 0 <= i < |readers| ==> Kept(readers[i].Snapshot(), backlogSize, chunks, progressClosed)) &&
      (forall i :: 0 <= i < |readers| ==> readers[i].once ==> onceDone)
    }

    ghost predicate Valid()
      reads this, readers
    {
      Counters() && Registry()
    }

    /** The ReadCaster literal of NewSize once the size check has passed. */
    constructor (bufferSize: int, backlogSize: int)
      requires bufferSize >= 1
      ensures Valid()
      ensures this.bufferSize == bufferSize && this.backlogSize == backlogSize
      ensures readerTimeout == DefaultReaderTimeout
      ensures readers == [] && !startedReading && !onceDone
      ensures totalBytesRead == 0 && !progressClosed
    {
      readers := [];
      onceDone := false;
      startedReading := false;
      this.bufferSize := bufferSize;
      this.backlogSize := backlogSize;
      readerTimeout := DefaultReaderTimeout;
      totalBytesRead := 0;
      progressClosed := false;
      chunks := [];
      readSizes := [];
    }

    function BufferSize(): (r: int)
      reads this, readers
      requires Valid()
      ensures r >= 1
    {
      bufferSize
    }

    function BacklogSize(): (r: int)
      reads this, readers
      requires Valid()
      ensures forall i :: 0 <= i < |readers| ==> readers[i].capacity == r
    {
      backlogSize
    }

    function ReaderTimeout(): int
      reads this
    {
      readerTimeout
    }

    /** bufferSize * backlogSize * len(readers) in Go's 64-bit int. */
    function MaxMemoryUse(): (m: int)
      reads this
      ensures -TwoTo63 <= m < TwoTo63
      ensures (bufferSize * backlogSize * |readers| - m) % TwoTo64 == 0
      ensures -TwoTo63 <= bufferSize * backlogSize * |readers| < TwoTo63 ==>
                m == bufferSize * backlogSize * |readers|
    {
      Wrap64(bufferSize * backlogSize * |readers|)
    }

    /** NewReader: append one fresh reader with an empty channel of capacity
        backlogSize. Appending after the pump is launched would race with the
        goroutine ranging over c.readers, so it is excluded. */
    method NewReader() returns (r: ChanReader)
      requires Valid() && !onceDone && backlogSize >= 0
      modifies this
      ensures Valid() && fresh(r)
      ensures readers == old(readers) + [r]
      ensures r.State() == ReaderState([], false, false, []) && r.capacity == backlogSize && !r.once
      ensures bufferSize == old(bufferSize) && backlogSize == old(backlogSize)
      ensures readerTimeout == old(readerTimeout) && startedReading == old(startedReading)
      ensures !onceDone && !progressClosed && totalBytesRead == old(totalBytesRead)
    {
      ghost var rs := readers;
      r := new ChanReader(backlogSize);
      assert Kept(r.Snapshot(), backlogSize, chunks, progressClosed);
      readers := readers + [r];
      assert forall i :: 0 <= i < |rs| ==> readers[i] == rs[i];
      assert Registry() by {
        forall i | 0 <= i < |readers| ensures Kept(readers[i].Snapshot(), backlogSize, chunks, progressClosed) && (readers[i].once ==> onceDone) {
          if i < |rs| {
            assert readers[i] == rs[i];
          }
        }
      }
    }

    /** ensureCanChangeConfig: fails (panics in Go) once reading has started. */
    method EnsureCanChangeConfig() returns (ok: bool)
      ensures ok <==> !startedReading
    {
      ok := !startedReading;
    }

    /** SetReaderTimeout: rejected once reading has started; otherwise sets
        the timeout and nothing else. */
    method SetReaderTimeout(duration: int) returns (ok: bool)
      requires Valid()
      modifies this`readerTimeout
      ensures Valid()
      ensures ok <==> !startedReading
      ensures ReaderTimeout() == if ok then duration else old(readerTimeout)
    {
      ok := EnsureCanChangeConfig();
      if ok {
        readerTimeout := duration;
      }
    }

    /** beginReading: c.once sets startedReading and launches the pump on
        the first call only. */
    method BeginReading() returns (launched: bool)
      requires Valid()
      modifies this`onceDone, this`startedReading
      ensures Valid()
      ensures launched <==> !old(onceDone)
      ensures onceDone && startedReading
    {
      launched := !onceDone;
      if launched {
        onceDone := true;
        startedReading := true;
      }
    }

    /** The first statement of chanReader.Read (reader.go:26): the reader's
        own once triggers beginReading on its first Read only. */
    method StartRead(k: nat) returns (triggered: bool, launched: bool)
      requires Valid() && k < |readers|
      modifies this`onceDone, this`startedReading, readers[k]
      ensures Valid()
      ensures readers[k].State() == old(readers[k].State())
      ensures readers[k].delivered == old(readers[k].delivered) && readers[k].received == old(readers[k].received)
      ensures triggered <==> !old(readers[k].once)
      ensures launched <==> triggered && !old(onceDone)
      ensures readers[k].once && onceDone && startedReading
    {
      var r := readers[k];
      triggered := !r.once;
      launched := false;
      if triggered {
        launched := BeginReading();
        r.once := true;
        assert Kept(r.Snapshot(), backlogSize, chunks, progressClosed);
      }
    }

    /** One iteration of the pump loop (read_caster.go:136-175) on the
        source read `data`, `err` (n == |data|), where accepts[i] says
        whether readers[i] took the chunk before the round's timer fired. */
    method PumpStep(data: seq<byte>, err: bool, accepts: seq<bool>) returns (stopped: bool)
      requires Valid() && onceDone && !progressClosed
      requires |data| <= bufferSize && |accepts| == |readers|
      requires forall i :: 0 <= i < |readers| && accepts[i] && !readers[i].hasTimedOut ==>
                 |readers[i].inbox| < backlogSize
      modifies this`totalBytesRead, this`progressClosed, this`chunks, this`readSizes, readers
      ensures Valid()
      ensures stopped <==> IsTerminal(data, err)
      ensures progressClosed == stopped
      ensures totalBytesRead == old(totalBytesRead) + |data|
      ensures readSizes == old(readSizes) + [|data|]
      ensures chunks == if stopped then old(chunks) else old(chunks) + [data]
      // every reader's ledger, its start trigger and handed-out bytes included,
      // is that of the final round or of the delivery round
      ensures forall i :: 0 <= i < |readers| ==>
        readers[i].Snapshot() == if stopped then Closed(old(readers[i].Snapshot()))
                                 else Offered(old(readers[i].Snapshot()), data, accepts[i])
    {
      SumAppend(readSizes, |data|);
      totalBytesRead := totalBytesRead + |data|;
      readSizes := readSizes + [|data|];
      assert Counters() && Registry();
      stopped := err || |data| == 0;
      if stopped {
        CloseAll();
      } else {
        DeliverAll(data, accepts);
      }
    }

    /** read_caster.go:150-156: close every reader that was not evicted,
        close Progress and stop. */
    method CloseAll()
      requires Registry() && onceDone && !progressClosed
      modifies this`progressClosed, readers
      ensures Registry() && progressClosed
      ensures forall i :: 0 <= i < |readers| ==> readers[i].Snapshot() == Closed(old(readers[i].Snapshot()))
    {
      ghost var before := SnapshotsOf(readers);
      CloseLive(before);
      progressClosed := true;
      forall j | 0 <= j < |readers|
        ensures Kept(readers[j].Snapshot(), backlogSize, chunks, true) && (readers[j].once ==> onceDone)
      {
        ClosedKept(before[j], backlogSize, chunks);
      }
    }

    /** The loop of read_caster.go:150-154 over all registered readers. */
    method CloseLive(ghost before: seq<Ledger>)
      requires |before| == |readers|
      requires forall j, k :: 0 <= j < k < |readers| ==> readers[j] != readers[k]
      requires forall j :: 0 <= j < |readers| ==> readers[j].Snapshot() == before[j]
      requires forall j :: 0 <= j < |readers| ==> Balanced(before[j]) && before[j].state.closed == before[j].state.hasTimedOut
      modifies readers
      ensures forall j :: 0 <= j < |readers| ==> readers[j].Snapshot() == Closed(before[j])
    {
      var i := 0;
      while i < |readers|
        invariant 0 <= i <= |readers|
        invariant forall j :: 0 <= j < i ==> readers[j].Snapshot() == Closed(before[j])
        invariant forall j :: i <= j < |readers| ==> readers[j].Snapshot() == before[j]
      {
        var r := readers[i];
        assert forall j :: 0 <= j < |readers| && j != i ==> readers[j] != r;
        if !r.hasTimedOut {
          r.Close();
        }
        i := i + 1;
      }
    }

    /** read_caster.go:159-173: offer the chunk to every reader not evicted. */
    method DeliverAll(data: seq<byte>, accepts: seq<bool>)
      requires Registry() && onceDone && !progressClosed
      requires 0 < |data| && |accepts| == |readers|
      requires forall i :: 0 <= i < |readers| && accepts[i] && !readers[i].hasTimedOut ==>
                 |readers[i].inbox| < backlogSize
      modifies this`chunks, readers
      ensures chunks == old(chunks) + [data]
      ensures Registry()
      ensures forall i :: 0 <= i < |readers| ==>
        readers[i].Snapshot() == Offered(old(readers[i].Snapshot()), data, accepts[i])
    {
      ghost var before := SnapshotsOf(readers);
      ghost var prior := chunks;
      chunks := chunks + [data];
      OfferAll(data, accepts, before);
      forall j | 0 <= j < |readers|
        ensures Kept(readers[j].Snapshot(), backlogSize, chunks, false) && (readers[j].once ==> onceDone)
      {
        OfferedKept(before[j], backlogSize, prior, data, accepts[j]);
      }
    }

    /** The loop of read_caster.go:161-173 over all registered readers. */
    method OfferAll(data: seq<byte>, accepts: seq<bool>, ghost before: seq<Ledger>)
      requires 0 < |data| && |accepts| == |readers| == |before|
      requires forall j, k :: 0 <= j < k < |readers| ==> readers[j] != readers[k]
      requires forall j :: 0 <= j < |readers| ==> readers[j].Snapshot() == before[j]
      requires forall j :: 0 <= j < |readers| ==> Balanced(before[j]) && before[j].state.closed == before[j].state.hasTimedOut
      requires forall j :: 0 <= j < |readers| && accepts[j] && !before[j].state.hasTimedOut ==>
        |before[j].state.inbox| < before[j].capacity
      modifies readers
      ensures forall j :: 0 <= j < |readers| ==> readers[j].Snapshot() == Offered(before[j], data, accepts[j])
    {
      var i := 0;
      while i < |readers|
        invariant 0 <= i <= |readers|
        invariant forall j :: 0 <= j < i ==> readers[j].Snapshot() == Offered(before[j], data, accepts[j])
        invariant forall j :: i <= j < |readers| ==> readers[j].Snapshot() == before[j]
      {
        var r := readers[i];
        assert forall j :: 0 <= j < |readers| && j != i ==> readers[j] != r;
        Offer(r, data, accepts[i]);
        i := i + 1;
      }
    }

    /** One reader's part of a delivery round (read_caster.go:162-171): a
        live reader either takes the chunk or is evicted and closed; an
        evicted one is skipped. */
    method Offer(r: ChanReader, chunk: seq<byte>, accepted: bool)
      requires r.Valid() && r.closed == r.hasTimedOut && |chunk| > 0
      requires accepted && !r.hasTimedOut ==> |r.inbox| < r.capacity
      modifies r
      ensures r.Snapshot() == Offered(old(r.Snapshot()), chunk, accepted)
    {
      ghost var l := r.Snapshot();
      if !r.hasTimedOut {
        if accepted {
          r.Send(chunk);
          assert r.State() == Deliver(l.state, chunk, accepted);
        } else {
          r.hasTimedOut := true;
          assert Pending(r.State()) == Pending(l.state);
          r.Close();
          assert r.State() == Deliver(l.state, chunk, accepted);
        }
      }
    }
  }

  /** A reader's ledger after it is offered `chunk` in a delivery round:
      its state is Deliver's, the chunk is recorded as delivered exactly
      when it entered the queue, and nothing else changes. */
  function Offered(l: Ledger, chunk: seq<byte>, accepted: bool): (m: Ledger)
    ensures m.state == Deliver(l.state, chunk, accepted)
    ensures m.capacity == l.capacity && m.received == l.received && m.started == l.started
    ensures m.delivered == l.delivered + if !l.state.hasTimedOut && accepted then [chunk] else []
  {
    var d := if !l.state.hasTimedOut && accepted then [chunk] else [];
    assert l.delivered + [] == l.delivered;
    l.(state := Deliver(l.state, chunk, accepted), delivered := l.delivered + d)
  }

  /** A reader's ledger after the final round: its state is Shutdown's, and
      nothing else changes. */
  function Closed(l: Ledger): (m: Ledger)
    ensures m.state == Shutdown(l.state)
    ensures m.capacity == l.capacity && m.delivered == l.delivered
    ensures m.received == l.received && m.started == l.started
  {
    l.(state := Shutdown(l.state))
  }

  /** A delivery round keeps the pump's invariant for every reader: a live
      reader with room that takes the chunk is balanced again and has every
      round, a live reader that does not is evicted with a prefix, an
      evicted one keeps its prefix. */
  lemma OfferedKept(l: Ledger, backlogSize: int, prior: seq<seq<byte>>, chunk: seq<byte>, accepted: bool)
    requires Kept(l, backlogSize, prior, false) && |chunk| > 0
    requires accepted && !l.state.hasTimedOut ==> |l.state.inbox| < backlogSize
    ensures Kept(Offered(l, chunk, accepted), backlogSize, prior + [chunk], false)
  {
    var m := Offered(l, chunk, accepted);
    if !l.state.hasTimedOut && accepted {
      FlattenAppend(l.delivered, [chunk]);
      assert Flatten([chunk]) == chunk + Flatten([]);
      assert forall i :: 0 <= i < |m.state.inbox| ==> m.state.inbox[i] == (l.state.inbox + [chunk])[i];
    } else {
      assert m.state.inbox == l.state.inbox && Pending(m.state) == Pending(l.state);
      assert m.delivered == l.delivered && m.state.hasTimedOut;
      assert prior <= prior + [chunk];
    }
  }

  /** The final round keeps the invariant, and afterwards every channel is
      closed. */
  lemma ClosedKept(l: Ledger, backlogSize: int, chunks: seq<seq<byte>>)
    requires Kept(l, backlogSize, chunks, false)
    ensures Kept(Closed(l), backlogSize, chunks, true)
  {
  }

  /** What the pump keeps true of one registered reader: it is balanced, of
      the caster's backlog size; it has received a prefix of the rounds'
      chunks, and all of them unless evicted; while the pump runs its
      channel is closed exactly when it was evicted, and once the pump has
      stopped every channel is closed. */
  predicate Kept(l: Ledger, backlogSize: int, chunks: seq<seq<byte>>, stopped: bool)
  {
    Balanced(l) && l.capacity == backlogSize &&
    l.delivered <= chunks && (!l.state.hasTimedOut ==> l.delivered == chunks) &&
    (if stopped then l.state.closed else l.state.closed == l.state.hasTimedOut)
  }

  /** The ledgers of a sequence of readers. */
  ghost function SnapshotsOf(rs: seq<ChanReader>): (r: seq<Ledger>)
    reads rs
    ensures |r| == |rs| && forall j :: 0 <= j < |rs| ==> r[j] == rs[j].Snapshot()
  {
    if rs == [] then [] else SnapshotsOf(rs[..|rs| - 1]) + [rs[|rs| - 1].Snapshot()]
  }

  /** The accept/evict outcomes of one delivery round respect each reader's
      room: a live reader whose queue is full (its consumer stalled) cannot
      take the chunk. */
  predicate RespectsRoom(live: seq<bool>, room: seq<bool>, accepts: seq<bool>)
  {
    |live| == |room| == |accepts| &&
    forall i :: 0 <= i < |accepts| && live[i] && accepts[i] ==> room[i]
  }

  /** The outcomes read_caster.go:160-171 can produce: the round has one
      timer, and its channel yields one value, so once one live reader has
      been evicted every later live reader's send can only wait until it is
      accepted. */
  predicate SharedTimerAdmits(live: seq<bool>, accepts: seq<bool>)
  {
    |live| == |accepts| &&
    forall i, j :: 0 <= i < j < |accepts| && live[i] && live[j] && !accepts[i] ==> accepts[j]
  }

  /** As written, two live readers with full queues leave the round no
      outcome at all: the first is evicted when the timer fires, and the
      send to the second waits forever, so the pump hangs. */
  lemma SharedTimerStalls(live: seq<bool>, room: seq<bool>, i: nat, j: nat)
    requires |live| == |room| && i < j < |live|
    requires live[i] && live[j] && !room[i] && !room[j]
    ensures forall accepts :: !(SharedTimerAdmits(live, accepts) && RespectsRoom(live, room, accepts))
  {
  }

  /** The concrete case: backlog 1 and three readers, the first reading
      (its first Read launches the pump) and the other two never reading.
      Round 1 fills both idle queues; in round 2 neither idle reader has room. */
  lemma TwoIdleReadersHangThePump()
    ensures forall accepts :: !(SharedTimerAdmits([true, true, true], accepts) &&
                                RespectsRoom([true, true, true], [true, false, false], accepts))
  {
    SharedTimerStalls([true, true, true], [true, false, false], 1, 2);
  }

  /** Intended: a deadline per live reader. A send into a channel with room
      completes at once; otherwise each reader's own deadline decides, so the
      outcomes of different readers are independent. */
  predicate PerReaderTimerAdmits(live: seq<bool>, room: seq<bool>, accepts: seq<bool>)
  {
    |live| == |room| == |accepts| &&
    forall i :: 0 <= i < |accepts| && live[i] && room[i] ==> accepts[i]
  }

  /** With a deadline per reader, every round can finish whatever the
      readers do, and its outcome is determined: a live reader with room
      takes the chunk and a live reader without room is evicted. */
  lemma PerReaderTimerCompletes(live: seq<bool>, room: seq<bool>)
    requires |live| == |room|
    ensures exists accepts :: PerReaderTimerAdmits(live, room, accepts) && RespectsRoom(live, room, accepts)
    ensures forall accepts :: PerReaderTimerAdmits(live, room, accepts) && RespectsRoom(live, room, accepts) ==>
      forall i :: 0 <= i < |live| && live[i] ==> (accepts[i] <==> room[i])
  {
    assert PerReaderTimerAdmits(live, room, room) && RespectsRoom(live, room, room);
  }

  /** Which readers are live and which have room in their channel. */
  ghost function LiveOf(rs: seq<ChanReader>): (live: seq<bool>)
    reads rs
    ensures |live| == |rs| && forall i :: 0 <= i < |rs| ==> (live[i] <==> !rs[i].hasTimedOut)
  {
    if rs == [] then [] else LiveOf(rs[..|rs| - 1]) + [!rs[|rs| - 1].hasTimedOut]
  }

  ghost function RoomOf(rs: seq<ChanReader>, backlogSize: int): (room: seq<bool>)
    reads rs
    ensures |room| == |rs| && forall i :: 0 <= i < |rs| ==> (room[i] <==> |rs[i].inbox| < backlogSize)
  {
    if rs == [] then [] else RoomOf(rs[..|rs| - 1], backlogSize) + [|rs[|rs| - 1].inbox| < backlogSize]
  }

  /** Under per-reader deadlines every round of a running caster has an
      outcome, and every such outcome meets the precondition of PumpStep. */
  lemma PerReaderTimerFeedsPumpStep(c: ReadCaster)
    ensures exists accepts :: PerReaderTimerAdmits(LiveOf(c.readers), RoomOf(c.readers, c.backlogSize), accepts) &&
                              RespectsRoom(LiveOf(c.readers), RoomOf(c.readers, c.backlogSize), accepts)
    ensures forall accepts ::
      PerReaderTimerAdmits(LiveOf(c.readers), RoomOf(c.readers, c.backlogSize), accepts) &&
      RespectsRoom(LiveOf(c.readers), RoomOf(c.readers, c.backlogSize), accepts) ==>
        |accepts| == |c.readers| &&
        forall i :: 0 <= i < |c.readers| && accepts[i] && !c.readers[i].hasTimedOut ==>
          |c.readers[i].inbox| < c.backlogSize
  {
    var live, room := LiveOf(c.readers), RoomOf(c.readers, c.backlogSize);
    assert PerReaderTimerAdmits(live, room, room) && RespectsRoom(live, room, room);
  }

  lemma SumAppend(s: seq<nat>, x: nat)
    ensures Sum(s + [x]) == Sum(s) + x
  {
    assert (s + [x])[..|s|] == s;
  }

  /** NewSize: rejects a buffer size below one (a panic in Go); otherwise
      stores both sizes as given, the default timeout, no readers, not
      started. */
  method NewSize(bufferSize: int, backlogSize: int) returns (r: Option<ReadCaster>)
    ensures r.None? <==> bufferSize < 1
    ensures r.Some? ==> (fresh(r.value) && r.value.Valid() &&
      r.value.bufferSize == bufferSize && r.value.backlogSize == backlogSize &&
      r.value.readerTimeout == DefaultReaderTimeout && r.value.readers == [] &&
      !r.value.startedReading && !r.value.onceDone && !r.value.progressClosed &&
      r.value.totalBytesRead == 0)
  {
    if bufferSize < 1 {
      return None;
    }
    var c := new ReadCaster(bufferSize, backlogSize);
    r := Some(c);
  }

  /** New: NewSize with the default sizes. */
  method New() returns (c: ReadCaster)
    ensures fresh(c) && c.Valid()
    ensures c.bufferSize == DefaultBufferSize && c.backlogSize == DefaultBacklogSize
    ensures c.readerTimeout == DefaultReaderTimeout && c.readers == []
    ensures !c.startedReading && !c.onceDone && !c.progressClosed && c.totalBytesRead == 0
  {
    var r := NewSize(DefaultBufferSize, DefaultBacklogSize);
    c := r.value;
  }
}
