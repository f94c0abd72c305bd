/** What one reader observes over a whole run, as in end_to_end_test.go:
    pump rounds and Read calls interleaved in any order. The lemmas say that
    no byte is lost, duplicated or reordered, that EOF comes only after every
    delivered byte, and that reading with any positive sizes drains a closed
    reader completely. */
module EndToEnd {
  import opened Reader
  import opened Caster

  /** A delivery round offering `chunk` (accepted or not before the timer
      fired), the pump's final round, or one Read with a destination of
      `size` bytes. */
  datatype Event = Round(chunk: seq<byte>, accepted: bool) | Finish | Read(size: nat)

  /** The pump has not yet finished for this reader: its channel is closed
      only if it was evicted. */
  predicate Running(s: ReaderState)
  {
    s.closed ==> s.hasTimedOut
  }

  predicate Enabled(s: ReaderState, e: Event)
  {
    match e
    case Round(chunk, _) => Running(s) && |chunk| > 0
    case Finish => Running(s)
    case Read(_) => CanProceed(s)
  }

  /** The effect of one event: the new state, the bytes a Read handed out,
      the chunks that entered the queue, and whether a Read saw EOF. */
  datatype Step = Step(next: ReaderState, out: seq<byte>, accepted: seq<seq<byte>>, eof: bool)

  function Apply(s: ReaderState, e: Event): Step
    requires Enabled(s, e)
  {
    match e
    case Round(chunk, a) =>
      Step(Deliver(s, chunk, a), [], if !s.hasTimedOut && a then [chunk] else [], false)
    case Finish => Step(Shutdown(s), [], [], false)
    case Read(size) =>
      var o := ReadStep(s, size);
      Step(o.next, o.data, [], o.eof)
  }

  predicate Runs(s: ReaderState, events: seq<Event>)
    decreases |events|
  {
    events == [] || (Enabled(s, events[0]) && Runs(Apply(s, events[0]).next, events[1..]))
  }

  /** The final state, every byte handed out, and every chunk queued. */
  datatype Trace = Trace(final: ReaderState, out: seq<byte>, accepted: seq<seq<byte>>)

  function Run(s: ReaderState, events: seq<Event>): Trace
    requires Runs(s, events)
    decreases |events|
  {
    if events == [] then Trace(s, [], [])
    else
      var st := Apply(s, events[0]);
      var t := Run(st.next, events[1..]);
      Trace(t.final, st.out + t.out, st.accepted + t.accepted)
  }

  /** The chunks of all delivery rounds of a run. */
  function Rounds(events: seq<Event>): seq<seq<byte>>
  {
    if events == [] then []
    else (if events[0].Round? then [events[0].chunk] else []) + Rounds(events[1..])
  }

  /** Every delivery round of the run was accepted. */
  predicate AllAccepted(events: seq<Event>)
  {
    forall i :: 0 <= i < |events| && events[i].Round? ==> events[i].accepted
  }

  /** A new reader: nothing staged, an empty open channel. */
  function Fresh(): ReaderState
  {
    ReaderState([], false, false, [])
  }

  /** One event keeps the accounting: bytes handed out plus bytes pending are
      the bytes pending before plus the bytes queued. */
  lemma StepConserves(s: ReaderState, e: Event)
    requires Enabled(s, e)
    ensures Apply(s, e).out + Pending(Apply(s, e).next) == Pending(s) + Flatten(Apply(s, e).accepted)
  {
    match e
    case Round(chunk, a) =>
      assert Flatten([chunk]) == chunk + Flatten([]);
    case Finish =>
    case Read(size) =>
  }

  lemma StepKeepsChunksNonEmpty(s: ReaderState, e: Event)
    requires Enabled(s, e) && NonEmptyChunks(s.inbox)
    ensures NonEmptyChunks(Apply(s, e).next.inbox)
  {
    match e
    case Round(chunk, a) =>
    case Finish =>
    case Read(size) => ReadKeepsChunksNonEmpty(s, size);
  }

  /** Conservation over any interleaving of rounds and reads: the bytes
      handed out, followed by what is still pending, are what was pending
      followed by every chunk that entered the queue, in order. */
  lemma {:induction false} RunConserves(s: ReaderState, events: seq<Event>)
    requires Runs(s, events)
    ensures Run(s, events).out + Pending(Run(s, events).final) == Pending(s) + Flatten(Run(s, events).accepted)
    decreases |events|
  {
    if events != [] {
      var st := Apply(s, events[0]);
      var t := Run(st.next, events[1..]);
      assert Run(s, events) == Trace(t.final, st.out + t.out, st.accepted + t.accepted);
      StepConserves(s, events[0]);
      RunConserves(st.next, events[1..]);
      FlattenAppend(st.accepted, t.accepted);
      Chain(st.out, t.out, Pending(t.final), Pending(st.next), Pending(s),
            Flatten(st.accepted), Flatten(t.accepted));
    }
  }

  /** Joins the accounting of one step (a + q == s + x) with that of the
      rest of a run (b + p == q + y). */
  lemma Chain<T>(a: seq<T>, b: seq<T>, p: seq<T>, q: seq<T>, s: seq<T>, x: seq<T>, y: seq<T>)
    requires a + q == s + x && b + p == q + y
    ensures (a + b) + p == s + (x + y)
  {
    calc {
      (a + b) + p;
      a + (b + p);
      a + (q + y);
      (a + q) + y;
      (s + x) + y;
    }
  }

  /** No run puts an empty chunk in the queue. */
  lemma {:induction false} RunKeepsChunksNonEmpty(s: ReaderState, events: seq<Event>)
    requires Runs(s, events) && NonEmptyChunks(s.inbox)
    ensures NonEmptyChunks(Run(s, events).final.inbox)
    decreases |events|
  {
    if events != [] {
      StepKeepsChunksNonEmpty(s, events[0]);
      RunKeepsChunksNonEmpty(Apply(s, events[0]).next, events[1..]);
    }
  }

  /** A reader that accepts every round queues exactly the rounds' chunks,
      in order, and is never evicted. */
  lemma {:induction false} LiveReaderQueuesEveryRound(s: ReaderState, events: seq<Event>)
    requires Runs(s, events) && AllAccepted(events) && !s.hasTimedOut
    ensures Run(s, events).accepted == Rounds(events)
    ensures !Run(s, events).final.hasTimedOut
    decreases |events|
  {
    if events != [] {
      assert AllAccepted(events[1..]) by {
        forall i | 0 <= i < |events[1..]| && events[1..][i].Round?
          ensures events[1..][i].accepted
        {
          assert events[1..][i] == events[i + 1];
        }
      }
      assert events[0].Round? ==> events[0].accepted;
      LiveReaderQueuesEveryRound(Apply(s, events[0]).next, events[1..]);
    }
  }

  /** Reads with the given sizes on a reader whose channel is closed,
      stopping at the first EOF: the bytes read and whether EOF was seen. */
  datatype Drained = Drained(out: seq<byte>, eof: bool)

  function Drain(s: ReaderState, sizes: seq<nat>): Drained
    requires s.closed
    decreases |sizes|
  {
    if sizes == [] then Drained([], false)
    else
      var o := ReadStep(s, sizes[0]);
      if o.eof then Drained([], true)
      else
        var d := Drain(o.next, sizes[1..]);
        Drained(o.data + d.out, d.eof)
  }

  /** Any reads of positive sizes, at least one more than there are pending
      bytes, hand out exactly the pending bytes and then EOF; in particular
      byte-at-a-time reads. */
  lemma {:induction false} DrainCompletes(s: ReaderState, sizes: seq<nat>)
    requires s.closed && NonEmptyChunks(s.inbox)
    requires forall i :: 0 <= i < |sizes| ==> sizes[i] >= 1
    requires |sizes| > |Pending(s)|
    ensures Drain(s, sizes) == Drained(Pending(s), true)
    decreases |sizes|
  {
    var o := ReadStep(s, sizes[0]);
    ReadEofIffDrained(s, sizes[0]);
    if !o.eof {
      ReadKeepsChunksNonEmpty(s, sizes[0]);
      assert |o.data| >= 1;
      assert forall i :: 0 <= i < |sizes[1..]| ==> sizes[1..][i] == sizes[i + 1];
      DrainCompletes(o.next, sizes[1..]);
    }
  }

  /** An evicted reader keeps what it had already queued: it drains those
      bytes and then sees plain EOF, not a distinct error. */
  lemma EvictedReaderDrainsThenEof(s: ReaderState, chunk: seq<byte>, sizes: seq<nat>)
    requires Running(s) && !s.hasTimedOut && NonEmptyChunks(s.inbox)
    requires forall i :: 0 <= i < |sizes| ==> sizes[i] >= 1
    requires |sizes| > |Pending(s)|
    ensures Deliver(s, chunk, false).closed
    ensures Drain(Deliver(s, chunk, false), sizes) == Drained(Pending(s), true)
  {
    DrainCompletes(Deliver(s, chunk, false), sizes);
  }

  /** The end-to-end property: a new reader that accepts every round, read
      with any positive sizes while the rounds go on and then drained after
      the final round, hands out exactly the concatenated chunks of the
      rounds, and then EOF. */
  lemma EndToEndDelivery(events: seq<Event>, sizes: seq<nat>)
    requires Runs(Fresh(), events) && AllAccepted(events)
    requires Run(Fresh(), events).final.closed
    requires forall i :: 0 <= i < |sizes| ==> sizes[i] >= 1
    requires |sizes| > |Flatten(Rounds(events))|
    ensures Drain(Run(Fresh(), events).final, sizes).eof
    ensures Run(Fresh(), events).out + Drain(Run(Fresh(), events).final, sizes).out == Flatten(Rounds(events))
  {
    var t := Run(Fresh(), events);
    RunConserves(Fresh(), events);
    RunKeepsChunksNonEmpty(Fresh(), events);
    LiveReaderQueuesEveryRound(Fresh(), events);
    assert Pending(Fresh()) == [];
    assert t.out + Pending(t.final) == Flatten(Rounds(events));
    DrainCompletes(t.final, sizes);
  }

  /** The EOF of a Read in a run comes only after every queued byte was
      handed out: at that point the bytes read so far are all the chunks. */
  lemma {:induction false} EofOnlyAfterEverything(events: seq<Event>, size: nat)
    requires Runs(Fresh(), events) && CanProceed(Run(Fresh(), events).final)
    requires ReadStep(Run(Fresh(), events).final, size).eof
    ensures Run(Fresh(), events).out == Flatten(Run(Fresh(), events).accepted)
    ensures Run(Fresh(), events).final.closed
  {
    var t := Run(Fresh(), events);
    RunConserves(Fresh(), events);
    RunKeepsChunksNonEmpty(Fresh(), events);
    ReadEofIffDrained(t.final, size);
    assert Pending(Fresh()) == [];
    assert t.out + Pending(t.final) == t.out;
  }

  /** The same through the classes, for one round: a caster with one
      reader; its first Read launches the pump, the pump delivers [1, 2],
      the reader gets exactly those bytes, not EOF, and its next Read does
      not trigger the launch again. */
  method OneRoundThroughTheClasses() returns (got: seq<byte>, eof: bool, again: bool)
    ensures got == [1, 2] && !eof && !again
  {
    var c := New();
    var r := c.NewReader();
    var triggered, launched := c.StartRead(0);
    var stopped := c.PumpStep([1, 2], false, [true]);
    var to := new byte[4096];
    var n: nat;
    n, eof := r.Read(to);
    got := to[..n];
    again, launched := c.StartRead(0);
  }
}
