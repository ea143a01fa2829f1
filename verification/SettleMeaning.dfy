/** Coalescing preserves meaning: a consumer of the coalesced stream ends up knowing exactly
    what a consumer of the raw stream would know, stamps included.
 */
module SettleMeaning {
  import opened Events
  import opened Settle

  function Lookup(w: World, k: Key): Option<Epoch> {
    if k in w then Some(w[k]) else None
  }

  /** What one lifecycle event leaves at its own key. */
  function After(e: Event): Option<Epoch> {
    if e.kind.Removed? then None else Some(e.epoch)
  }

  lemma SameLookups(a: World, b: World)
    requires forall k :: Lookup(a, k) == Lookup(b, k)
    ensures a == b
  {
    forall k ensures k in a <==> k in b {
      assert Lookup(a, k) == Lookup(b, k);
    }
    forall k | k in a ensures a[k] == b[k] {
      assert Lookup(a, k) == Lookup(b, k);
    }
  }

  /** With one slot per key, the slot for a key is whichever slot carries it. */
  lemma {:induction false} SlotUnique(p: seq<Slot>, s: Sub, x: Slot)
    requires Sound(p, s) && x in p
    ensures Holds(p, x.event.key) && SlotFor(p, x.event.key) == x
  {
  }

  lemma ApplyLookup(w: World, e: Event, resync: Resync, k: Key)
    requires e.kind.IsLifecycle()
    ensures Lookup(Apply(w, e, resync), k) == if e.key == k then After(e) else Lookup(w, k)
  {
  }

  lemma EventsInit(p: seq<Slot>)
    requires p != []
    ensures EventsOf(p) == EventsOf(p[..|p| - 1]) + [p[|p| - 1].event]
    ensures p == p[..|p| - 1] + [p[|p| - 1]]
  {
  }

  /** Replaying the pending list touches exactly the held keys, each by its own slot. */
  lemma {:induction false} ReplaySlots(w: World, p: seq<Slot>, s: Sub, resync: Resync, k: Key)
    requires Sound(p, s)
    ensures Lookup(Replay(w, EventsOf(p), resync), k) ==
            if Holds(p, k) then After(SlotFor(p, k).event) else Lookup(w, k)
  {
    if p != [] {
      hide Sound, Replay, Holds, SlotFor, Apply, Lookup, EventsOf;
      var p0, last := p[..|p| - 1], p[|p| - 1];
      SoundInit(p, s);
      ReplaySlots(w, p0, s, resync, k);
      EventsInit(p);
      ReplaySnoc(w, EventsOf(p0), last.event, resync);
      ApplyLookup(Replay(w, EventsOf(p0), resync), last.event, resync, k);
      SnocSlot(p0, last, k);
    }
  }

  lemma WithoutSlot(p: seq<Slot>, s: Sub, key: Key, k: Key)
    requires Sound(p, s)
    ensures Holds(Without(p, key), k) <==> Holds(p, k) && k != key
    ensures Holds(Without(p, key), k) ==> SlotFor(Without(p, key), k) == SlotFor(p, k)
  {
    WithoutElements(p, key);
    WithoutSound(p, key, s);
    if Holds(p, k) && k != key {
      SlotUnique(Without(p, key), s, SlotFor(p, k));
    } else if Holds(Without(p, key), k) {
      SlotUnique(p, s, SlotFor(Without(p, key), k));
    }
  }

  lemma SiftSlot(p: seq<Slot>, s: Sub, now: Instant, due: bool, k: Key)
    requires Sound(p, s)
    ensures Holds(Sift(p, now, due), k) <==> Holds(p, k) && (SlotFor(p, k).emitAt <= now) == due
    ensures Holds(Sift(p, now, due), k) ==> SlotFor(Sift(p, now, due), k) == SlotFor(p, k)
  {
    SiftElements(p, now, due);
    SiftSound(p, now, due, s);
    var f := Sift(p, now, due);
    if Holds(f, k) {
      SlotUnique(p, s, SlotFor(f, k));
    } else if Holds(p, k) && (SlotFor(p, k).emitAt <= now) == due {
      SlotUnique(f, s, SlotFor(p, k));
    }
  }

  lemma SnocSlot(p: seq<Slot>, x: Slot, k: Key)
    ensures Holds(p + [x], k) <==> Holds(p, k) || x.event.key == k
    ensures x.event.key == k ==> SlotFor(p + [x], k) == x
    ensures x.event.key != k && Holds(p, k) ==> SlotFor(p + [x], k) == SlotFor(p, k)
  {
    assert (p + [x])[..|p|] == p;
    assert (p + [x])[|p|] == x;
    if Holds(p, k) {
      var i :| 0 <= i < |p| && p[i].event.key == k;
      assert (p + [x])[i].event.key == k;
    }
  }

  /** The stage is faithful in a state when flushing it now would tell a consumer exactly what
      the admitted stream tells it. */
  ghost predicate Faithful(st: State, w: World, resync: Resync) {
    Replay(w, st.Outstanding(), resync) == Replay(w, st.admitted, resync)
  }

  /** What a consumer knows once everything owed at once has been emitted. */
  function Told(st: State, w: World, resync: Resync): World {
    Replay(w, st.emitted + st.ready, resync)
  }

  /** Whether observing `e` annihilates the slot it meets. */
  predicate Cancels(p: seq<Slot>, e: Event) {
    Holds(p, e.key) && SlotFor(p, e.key).event.kind.Created? && e.kind.Removed?
  }

  /** The one collapse that can lose something: a removal cancelling a buffered creation at a key
      the consumer already knows. */
  ghost predicate BadCancel(st: State, op: Op, s: Sub, w: World, resync: Resync) {
    && op.Settling? && op.e.sub == s
    && Cancels(st.pending, op.e)
    && op.e.key in Told(st, w, resync)
  }

  lemma OutstandingReplay(st: State, w: World, resync: Resync)
    ensures Replay(w, st.Outstanding(), resync) == Replay(Told(st, w, resync), EventsOf(st.pending), resync)
    ensures WellFormed(w, st.Outstanding(), resync) <==>
            WellFormed(w, st.emitted + st.ready, resync) &&
            WellFormed(Told(st, w, resync), EventsOf(st.pending), resync)
  {
    ReplayConcat(w, st.emitted + st.ready, EventsOf(st.pending), resync);
  }

  lemma SlotIsLifecycle(p: seq<Slot>, s: Sub, key: Key)
    requires Sound(p, s) && Holds(p, key)
    ensures SlotFor(p, key).event.kind.IsLifecycle() && SlotFor(p, key).event.key == key
  {
    hide SlotFor;
    var x := SlotFor(p, key);
    var i :| 0 <= i < |p| && p[i] == x;
  }

  /** Observing a change leaves every other key's slot alone, and leaves its own key with the
      effect of that newest change unless the two cancel. */
  lemma ObserveSlot(p: seq<Slot>, e: Event, now: Instant, config: Config, s: Sub, k: Key)
    requires Sound(p, s) && e.sub == s && e.kind.IsLifecycle()
    ensures
      var p' := Observe(p, e, now, config);
      && (k != e.key ==> (Holds(p', k) <==> Holds(p, k)))
      && (k != e.key && Holds(p, k) ==> SlotFor(p', k) == SlotFor(p, k))
      && (Holds(p', e.key) <==> !Cancels(p, e))
      && (!Cancels(p, e) ==>
            var own := SlotFor(p', e.key).event;
            && After(own) == After(e)
            && own.kind == (if !Holds(p, e.key) then e.kind
                            else if SlotFor(p, e.key).event.kind.Created? then Created
                            else if e.kind.Removed? then Removed
                            else Modified))
  {
    hide Sound, Without, Deadline, SlotFor;
    var p' := Observe(p, e, now, config);
    if !Holds(p, e.key) {
      SnocSlot(p, p'[|p|], k);
      SnocSlot(p, p'[|p|], e.key);
    } else {
      var held := SlotFor(p, e.key);
      SlotIsLifecycle(p, s, e.key);
      var rest := Without(p, e.key);
      WithoutSlot(p, s, e.key, k);
      WithoutSlot(p, s, e.key, e.key);
      if Merge(held.event, e).Some? {
        SnocSlot(rest, p'[|rest|], k);
        SnocSlot(rest, p'[|rest|], e.key);
      } else {
        assert p' == rest;
      }
    }
  }

  /** One observed change, at one key. */
  lemma ObserveAt(told: World, p: seq<Slot>, e: Event, now: Instant, config: Config, s: Sub, resync: Resync, k: Key)
    requires Sound(p, s) && e.sub == s && e.kind.IsLifecycle()
    ensures
      var before := Replay(told, EventsOf(p), resync);
      var after := Replay(told, EventsOf(Observe(p, e, now, config)), resync);
      (Lookup(after, k) == Lookup(Apply(before, e, resync), k) <==> !(Cancels(p, e) && e.key in told && k == e.key))
  {
    ObserveSound(p, e, now, config, s);
    ObserveSlot(p, e, now, config, s, k);
    ReplaySlots(told, p, s, resync, k);
    ReplaySlots(told, Observe(p, e, now, config), s, resync, k);
  }

  /** A settling step keeps the stage faithful exactly when it is not a bad cancellation. */
  lemma ObserveFaithful(st: State, e: Event, now: Instant, config: Config, s: Sub, w: World, resync: Resync)
    requires Sound(st.pending, s) && e.sub == s && e.kind.IsLifecycle()
    requires Faithful(st, w, resync)
    ensures Faithful(Step(st, Settling(e, now, config), s), w, resync) <==>
            !BadCancel(st, Settling(e, now, config), s, w, resync)
  {
    var p, told := st.pending, Told(st, w, resync);
    var st' := Step(st, Settling(e, now, config), s);
    OutstandingReplay(st, w, resync);
    OutstandingReplay(st', w, resync);
    ReplaySnoc(w, st.admitted, e, resync);
    var after := Replay(told, EventsOf(Observe(p, e, now, config)), resync);
    var truth := Apply(Replay(told, EventsOf(p), resync), e, resync);
    forall k
      ensures Lookup(after, k) == Lookup(truth, k) <==> !(Cancels(p, e) && e.key in told && k == e.key)
    {
      ObserveAt(told, p, e, now, config, s, resync, k);
    }
    if Cancels(p, e) && e.key in told {
      assert Lookup(after, e.key) != Lookup(truth, e.key);
    } else {
      SameLookups(after, truth);
    }
  }

  /** Emitting the due part early does not change what the whole list says. */
  lemma SiftReplay(w: World, p: seq<Slot>, s: Sub, now: Instant, resync: Resync)
    requires Sound(p, s)
    ensures Replay(Replay(w, EventsOf(Sift(p, now, true)), resync), EventsOf(Sift(p, now, false)), resync)
         == Replay(w, EventsOf(p), resync)
  {
    var due, later := Sift(p, now, true), Sift(p, now, false);
    var mid := Replay(w, EventsOf(due), resync);
    SiftSound(p, now, true, s);
    SiftSound(p, now, false, s);
    forall k ensures Lookup(Replay(mid, EventsOf(later), resync), k) == Lookup(Replay(w, EventsOf(p), resync), k) {
      ReplaySlots(w, due, s, resync, k);
      ReplaySlots(mid, later, s, resync, k);
      ReplaySlots(w, p, s, resync, k);
      SiftSlot(p, s, now, true, k);
      SiftSlot(p, s, now, false, k);
    }
    SameLookups(Replay(mid, EventsOf(later), resync), Replay(w, EventsOf(p), resync));
  }

  /** Runs in which nothing of `s` is shed or dropped. */
  predicate Lossless(log: seq<Op>, s: Sub) {
    forall i :: 0 <= i < |log| ==> !(log[i].Shedding? && log[i].e.sub == s) && !(log[i].Drop? && log[i].sub == s)
  }

  lemma StepFaithful(st: State, op: Op, s: Sub, w: World, resync: Resync)
    requires Sound(st.pending, s) && Dispatched(op)
    requires op.Passing? && op.e.sub == s ==> st.pending == []
    requires !(op.Shedding? && op.e.sub == s) && !(op.Drop? && op.sub == s)
    requires Faithful(st, w, resync)
    ensures Faithful(Step(st, op, s), w, resync) <==> !BadCancel(st, op, s, w, resync)
  {
    hide Replay, Sound, Observe, Sift;
    var st' := Step(st, op, s);
    match op {
      case Settling(e, now, config) =>
        if e.sub == s { ObserveFaithful(st, e, now, config, s, w, resync); }
      case Passing(e, now) =>
        if e.sub == s {
          assert st'.Outstanding() == st.Outstanding() + [e];
          ReplaySnoc(w, st.Outstanding(), e, resync);
          ReplaySnoc(w, st.admitted, e, resync);
        }
      case Signal(e, now) =>
        if e.sub == s {
          assert st'.Outstanding() == st.Outstanding() + [e];
          ReplaySnoc(w, st.Outstanding(), e, resync);
          ReplaySnoc(w, st.admitted, e, resync);
        }
      case FlushOne(t, now) =>
        assert st'.Outstanding() == st.Outstanding();
      case Drain(now) =>
        var due := Sift(st.pending, now, true);
        OutstandingReplay(st, w, resync);
        OutstandingReplay(st', w, resync);
        assert st'.emitted + st'.ready == (st.emitted + st.ready) + EventsOf(due);
        ReplayConcat(w, st.emitted + st.ready, EventsOf(due), resync);
        SiftReplay(Told(st, w, resync), st.pending, s, now, resync);
      case FlushAll =>
        assert st'.Outstanding() == st.Outstanding();
      case _ =>
    }
  }

  ghost predicate FaithfulThroughout(log: seq<Op>, s: Sub, w: World, resync: Resync) {
    forall n :: 0 <= n <= |log| ==> Faithful(Run(log[..n], s), w, resync)
  }

  ghost predicate CancelsCleanly(log: seq<Op>, s: Sub, w: World, resync: Resync) {
    forall n :: 0 <= n < |log| ==> !BadCancel(Run(log[..n], s), log[n], s, w, resync)
  }

  /** What every step of a lossless run starts from. */
  lemma RunContext(log: seq<Op>, s: Sub, n: nat)
    requires AllDispatched(log) && NeverOvertakes(log, s) && n < |log|
    ensures Run(log[..n + 1], s) == Step(Run(log[..n], s), log[n], s)
    ensures Sound(Run(log[..n], s).pending, s)
    ensures log[n].Passing? && log[n].e.sub == s ==> Run(log[..n], s).pending == []
  {
    assert log[..n + 1] == log[..n] + [log[n]];
    RunSnoc(log[..n], log[n], s);
    RunSound(log[..n], s);
  }

  /** One step of a run without loss is faithful exactly when it is not a bad cancellation. */
  lemma RunStepFaithful(log: seq<Op>, s: Sub, n: nat, w: World, resync: Resync)
    requires AllDispatched(log) && NeverOvertakes(log, s) && Lossless(log, s) && n < |log|
    requires Faithful(Run(log[..n], s), w, resync)
    ensures Faithful(Run(log[..n + 1], s), w, resync) <==> !BadCancel(Run(log[..n], s), log[n], s, w, resync)
  {
    RunContext(log, s, n);
    StepFaithful(Run(log[..n], s), log[n], s, w, resync);
  }

  lemma {:induction false} CleanRunIsFaithful(log: seq<Op>, s: Sub, n: nat, w: World, resync: Resync)
    requires AllDispatched(log) && NeverOvertakes(log, s) && Lossless(log, s) && n <= |log|
    requires CancelsCleanly(log, s, w, resync)
    ensures Faithful(Run(log[..n], s), w, resync)
  {
    hide Run, Faithful, AllDispatched, NeverOvertakes, Lossless;
    if n > 0 {
      CleanRunIsFaithful(log, s, n - 1, w, resync);
      RunStepFaithful(log, s, n - 1, w, resync);
    } else {
      assert log[..0] == [];
      StartIsHonest(s, w, resync);
    }
  }

  /** Main result, exact: over every run without loss, the stage says at every moment what the
      raw stream says if and only if no removal ever cancels a creation at a key the consumer
      already knew. */
  lemma MeaningPreservedExactly(log: seq<Op>, s: Sub, w: World, resync: Resync)
    requires AllDispatched(log) && NeverOvertakes(log, s) && Lossless(log, s)
    ensures FaithfulThroughout(log, s, w, resync) <==> CancelsCleanly(log, s, w, resync)
  {
    if FaithfulThroughout(log, s, w, resync) {
      forall n | 0 <= n < |log| ensures !BadCancel(Run(log[..n], s), log[n], s, w, resync) {
        RunStepFaithful(log, s, n, w, resync);
      }
    }
    if CancelsCleanly(log, s, w, resync) {
      forall n | 0 <= n <= |log| ensures Faithful(Run(log[..n], s), w, resync) {
        CleanRunIsFaithful(log, s, n, w, resync);
      }
    }
  }

  /** A source that reports `Created` only where nothing was: it may still report a creation as
      `Modified`, and may report changes at keys never announced. */
  ghost predicate HonestCreates(log: seq<Op>, s: Sub, w: World, resync: Resync) {
    forall n :: 0 <= n < |log| && log[n].Settling? && log[n].e.sub == s && log[n].e.kind.Created? ==>
      log[n].e.key !in Replay(w, Run(log[..n], s).admitted, resync)
  }

  /** The keys whose pending slot is a creation are unknown to the consumer. */
  ghost predicate CreationsAreNews(st: State, w: World, resync: Resync) {
    forall k :: Holds(st.pending, k) && SlotFor(st.pending, k).event.kind.Created? ==> k !in Told(st, w, resync)
  }

  /** A drain tells the consumer nothing about the keys still pending. */
  lemma DrainTells(st: State, now: Instant, s: Sub, w: World, resync: Resync, k: Key)
    requires Sound(st.pending, s)
    requires Holds(Sift(st.pending, now, false), k)
    ensures Holds(st.pending, k)
    ensures SlotFor(Sift(st.pending, now, false), k) == SlotFor(st.pending, k)
    ensures Lookup(Told(Step(st, Drain(now), s), w, resync), k) == Lookup(Told(st, w, resync), k)
  {
    var due := Sift(st.pending, now, true);
    var st' := Step(st, Drain(now), s);
    assert st'.emitted + st'.ready == (st.emitted + st.ready) + EventsOf(due);
    ReplayConcat(w, st.emitted + st.ready, EventsOf(due), resync);
    SiftSlot(st.pending, s, now, false, k);
    SiftSlot(st.pending, s, now, true, k);
    SiftSound(st.pending, now, true, s);
    ReplaySlots(Told(st, w, resync), due, s, resync, k);
  }

  lemma DrainKeepsNews(st: State, now: Instant, s: Sub, w: World, resync: Resync)
    requires Sound(st.pending, s) && CreationsAreNews(st, w, resync)
    ensures CreationsAreNews(Step(st, Drain(now), s), w, resync)
  {
    var later := Sift(st.pending, now, false);
    forall k | Holds(later, k) && SlotFor(later, k).event.kind.Created?
      ensures k !in Told(Step(st, Drain(now), s), w, resync)
    {
      DrainTells(st, now, s, w, resync, k);
    }
  }

  lemma CreationsStayNews(st: State, op: Op, s: Sub, w: World, resync: Resync)
    requires Sound(st.pending, s) && Dispatched(op)
    requires op.Passing? && op.e.sub == s ==> st.pending == []
    requires Faithful(st, w, resync) && CreationsAreNews(st, w, resync)
    requires op.Settling? && op.e.sub == s && op.e.kind.Created? ==> op.e.key !in Replay(w, st.admitted, resync)
    ensures CreationsAreNews(Step(st, op, s), w, resync)
  {
    var st' := Step(st, op, s);
    var told := Told(st, w, resync);
    match op {
      case Settling(e, now, config) =>
        if e.sub == s {
          OutstandingReplay(st, w, resync);
          forall k | Holds(st'.pending, k) && SlotFor(st'.pending, k).event.kind.Created? ensures k !in told {
            ObserveSlot(st.pending, e, now, config, s, k);
            ReplaySlots(told, st.pending, s, resync, k);
          }
        }
      case Drain(now) => DrainKeepsNews(st, now, s, w, resync);
      case _ =>
    }
  }

  /** While buffered creations are news, no cancellation is bad. */
  lemma NewsCancelCleanly(st: State, op: Op, s: Sub, w: World, resync: Resync)
    requires CreationsAreNews(st, w, resync)
    ensures !BadCancel(st, op, s, w, resync)
  {
    hide Replay, SlotFor, Holds;
  }

  lemma HonestAt(log: seq<Op>, s: Sub, n: nat, w: World, resync: Resync)
    requires HonestCreates(log, s, w, resync) && n < |log|
    ensures log[n].Settling? && log[n].e.sub == s && log[n].e.kind.Created? ==>
              log[n].e.key !in Replay(w, Run(log[..n], s).admitted, resync)
  {
  }

  lemma StartIsHonest(s: Sub, w: World, resync: Resync)
    ensures Faithful(Run([], s), w, resync) && CreationsAreNews(Run([], s), w, resync)
  {
  }

  lemma {:induction false} HonestRun(log: seq<Op>, s: Sub, n: nat, w: World, resync: Resync)
    requires AllDispatched(log) && NeverOvertakes(log, s) && Lossless(log, s) && n <= |log|
    requires HonestCreates(log, s, w, resync)
    ensures Faithful(Run(log[..n], s), w, resync) && CreationsAreNews(Run(log[..n], s), w, resync)
  {
    hide Run, Step, Faithful, CreationsAreNews, NeverOvertakes, Replay, HonestCreates, BadCancel, Sound;
    if n > 0 {
      var st := Run(log[..n - 1], s);
      HonestRun(log, s, n - 1, w, resync);
      RunContext(log, s, n - 1);
      HonestAt(log, s, n - 1, w, resync);
      NewsCancelCleanly(st, log[n - 1], s, w, resync);
      RunStepFaithful(log, s, n - 1, w, resync);
      CreationsStayNews(st, log[n - 1], s, w, resync);
    } else {
      assert log[..0] == [];
      StartIsHonest(s, w, resync);
    }
  }

  /** Main result: an honest source's changes survive coalescing at every moment of every run
      without loss; a run that ends in a flush has emitted exactly that meaning. */
  lemma CoalescingPreservesMeaning(log: seq<Op>, s: Sub, w: World, resync: Resync)
    requires AllDispatched(log) && NeverOvertakes(log, s) && Lossless(log, s)
    requires HonestCreates(log, s, w, resync)
    ensures FaithfulThroughout(log, s, w, resync)
    ensures log != [] && log[|log| - 1].FlushAll? ==>
            Replay(w, Run(log, s).emitted, resync) == Replay(w, Run(log, s).admitted, resync)
  {
    forall n | 0 <= n <= |log| ensures Faithful(Run(log[..n], s), w, resync) {
      HonestRun(log, s, n, w, resync);
    }
    if log != [] && log[|log| - 1].FlushAll? {
      HonestRun(log, s, |log|, w, resync);
      assert log[..|log|] == log;
      FlushedOutstanding(log, s);
    }
  }

  lemma FlushedOutstanding(log: seq<Op>, s: Sub)
    requires log != [] && log[|log| - 1].FlushAll?
    ensures Run(log, s).Outstanding() == Run(log, s).emitted
  {
  }

  /** A creation and then the removal of the same key, and a flush. */
  function Transient(e: Event, r: Event, now: Instant, config: Config): seq<Op> {
    [Settling(e, now, config), Settling(r, now, config), FlushAll]
  }

  lemma RunStart(s: Sub)
    ensures Run([], s) == Start
  {
  }

  lemma ObserveTransient(e: Event, r: Event, now: Instant, config: Config)
    requires e.kind.Created? && r.kind.Removed? && r.key == e.key
    ensures
      var slot := Slot(now, Deadline(now, now, config), e);
      Observe([], e, now, config) == [slot] && Observe([slot], r, now, config) == []
  {
    var slot := Slot(now, Deadline(now, now, config), e);
    assert [slot][0].event.key == e.key && [slot][..0] == [];
    assert Without([slot], e.key) == [];
  }

  lemma TransientEmitsNothing(e: Event, r: Event, now: Instant, config: Config)
    requires e.kind.Created? && r.kind.Removed? && r.key == e.key && r.sub == e.sub
    ensures Run(Transient(e, r, now, config), e.sub).emitted == []
    ensures Run(Transient(e, r, now, config), e.sub).admitted == [e, r]
  {
    hide Run, Observe;
    var log := Transient(e, r, now, config);
    assert log == log[..2] + [log[2]] && log[..2] == log[..1] + [log[1]] && log[..1] == [] + [log[0]];
    ObserveTransient(e, r, now, config);
    RunStart(e.sub);
    RunSnoc([], log[0], e.sub);
    RunSnoc(log[..1], log[1], e.sub);
    RunSnoc(log[..2], log[2], e.sub);
  }

  /** Why honesty is needed: whenever a creation is reported at a key the consumer already has,
      and then the key's removal, the consumer is left believing the key is still there. */
  lemma DishonestCreateLosesARemoval(e: Event, r: Event, now: Instant, config: Config, w: World, resync: Resync)
    requires e.kind.Created? && e.key in w
    requires r.kind.Removed? && r.key == e.key && r.sub == e.sub
    ensures
      var log := Transient(e, r, now, config);
      var st := Run(log, e.sub);
      && AllDispatched(log) && NeverOvertakes(log, e.sub) && Lossless(log, e.sub)
      && e.key in Replay(w, st.emitted, resync)
      && e.key !in Replay(w, st.admitted, resync)
  {
    TransientEmitsNothing(e, r, now, config);
    ReplaySnoc(w, [e], r, resync);
    assert [e] + [r] == [e, r];
  }

  // ---------------------------------------------------------------- well-formed output

  /** Each pending slot fits what the consumer has been told. */
  ghost predicate PendingFits(st: State, w: World, resync: Resync) {
    forall k :: Holds(st.pending, k) ==> FitsWorld(Told(st, w, resync), SlotFor(st.pending, k).event)
  }

  /** Slots at distinct keys that each fit a world form a well-formed history from it. */
  lemma {:induction false} SlotsWellFormed(w: World, p: seq<Slot>, s: Sub, resync: Resync)
    requires Sound(p, s)
    requires forall k :: Holds(p, k) ==> FitsWorld(w, SlotFor(p, k).event)
    ensures WellFormed(w, EventsOf(p), resync)
  {
    if p != [] {
      var p0, last := p[..|p| - 1], p[|p| - 1];
      assert EventsOf(p)[..|p| - 1] == EventsOf(p0);
      assert p == p0 + [last];
      forall k | Holds(p0, k) ensures FitsWorld(w, SlotFor(p0, k).event) {
        SnocSlot(p0, last, k);
      }
      SlotsWellFormed(w, p0, s, resync);
      ReplaySlots(w, p0, s, resync, last.event.key);
      SnocSlot(p0, last, last.event.key);
      assert !Holds(p0, last.event.key);
    }
  }

  /** The state invariant of a well-formed run. */
  ghost predicate OutputFits(st: State, w: World, resync: Resync) {
    && WellFormed(w, st.emitted + st.ready, resync)
    && PendingFits(st, w, resync)
  }

  lemma ObservedKindFits(told: World, p: seq<Slot>, e: Event, own: Event)
    requires e.kind.IsLifecycle() && own.key == e.key && !Cancels(p, e)
    requires Holds(p, e.key) ==> SlotFor(p, e.key).event.kind.IsLifecycle() && FitsWorld(told, SlotFor(p, e.key).event)
    requires !Holds(p, e.key) ==> FitsWorld(told, e) && own.kind == e.kind
    requires Holds(p, e.key) ==>
               own.kind == if SlotFor(p, e.key).event.kind.Created? then Created
                           else if e.kind.Removed? then Removed else Modified
    ensures FitsWorld(told, own)
  {
  }

  lemma ObserveFits(st: State, e: Event, now: Instant, config: Config, s: Sub, w: World, resync: Resync)
    requires Sound(st.pending, s) && e.sub == s && e.kind.IsLifecycle()
    requires Faithful(st, w, resync) && OutputFits(st, w, resync)
    requires FitsWorld(Replay(w, st.admitted, resync), e)
    ensures OutputFits(Step(st, Settling(e, now, config), s), w, resync)
  {
    var st' := Step(st, Settling(e, now, config), s);
    var told := Told(st, w, resync);
    OutstandingReplay(st, w, resync);
    ReplaySlots(told, st.pending, s, resync, e.key);
    forall k | Holds(st'.pending, k) ensures FitsWorld(told, SlotFor(st'.pending, k).event) {
      ObserveSlot(st.pending, e, now, config, s, k);
      if k == e.key {
        ObservedKindFits(told, st.pending, e, SlotFor(st'.pending, k).event);
      }
    }
  }

  lemma DrainFits(st: State, now: Instant, s: Sub, w: World, resync: Resync)
    requires Sound(st.pending, s) && OutputFits(st, w, resync)
    ensures OutputFits(Step(st, Drain(now), s), w, resync)
  {
    var st' := Step(st, Drain(now), s);
    var told := Told(st, w, resync);
    var due, later := Sift(st.pending, now, true), Sift(st.pending, now, false);
    assert st'.emitted + st'.ready == (st.emitted + st.ready) + EventsOf(due);
    ReplayConcat(w, st.emitted + st.ready, EventsOf(due), resync);
    SiftSound(st.pending, now, true, s);
    forall k | Holds(due, k) ensures FitsWorld(told, SlotFor(due, k).event) {
      SiftSlot(st.pending, s, now, true, k);
    }
    SlotsWellFormed(told, due, s, resync);
    forall k | Holds(later, k) ensures FitsWorld(Told(st', w, resync), SlotFor(later, k).event) {
      DrainTells(st, now, s, w, resync, k);
      assert (SlotFor(later, k).event.key in told) == (SlotFor(later, k).event.key in Told(st', w, resync));
    }
  }

  /** Flushing the pending list, then at most one event that fits what was admitted. */
  lemma FlushedFits(st: State, st': State, extra: seq<Event>, s: Sub, w: World, resync: Resync)
    requires Sound(st.pending, s) && Faithful(st, w, resync) && OutputFits(st, w, resync)
    requires st'.pending == [] && st'.emitted + st'.ready == st.Outstanding() + extra
    requires |extra| <= 1
    requires |extra| == 1 ==> FitsWorld(Replay(w, st.admitted, resync), extra[0])
    ensures OutputFits(st', w, resync)
  {
    OutstandingReplay(st, w, resync);
    SlotsWellFormed(Told(st, w, resync), st.pending, s, resync);
    if |extra| == 1 {
      assert extra == [extra[0]];
      ReplaySnoc(w, st.Outstanding(), extra[0], resync);
    } else {
      assert st.Outstanding() + extra == st.Outstanding();
    }
  }

  lemma SameOutput(st: State, st': State, w: World, resync: Resync)
    requires st'.emitted == st.emitted && st'.ready == st.ready && st'.pending == st.pending
    ensures OutputFits(st', w, resync) <==> OutputFits(st, w, resync)
  {
    hide FitsWorld, WellFormed, Replay;
  }

  lemma StepFits(st: State, op: Op, s: Sub, w: World, resync: Resync)
    requires Sound(st.pending, s) && Dispatched(op)
    requires op.Passing? && op.e.sub == s ==> st.pending == []
    requires Faithful(st, w, resync) && OutputFits(st, w, resync)
    requires op.Admits(s) ==> FitsWorld(Replay(w, st.admitted, resync), op.e)
    ensures OutputFits(Step(st, op, s), w, resync) || (op.Drop? && op.sub == s)
  {
    hide Faithful, OutputFits, Sound, Observe, Sift, FitsWorld, Replay;
    var st' := Step(st, op, s);
    match op {
      case Settling(e, now, config) => if e.sub == s { ObserveFits(st, e, now, config, s, w, resync); }
      case Passing(e, now) =>
        if e.sub == s {
          assert st'.emitted + st'.ready == st.Outstanding() + [e];
          FlushedFits(st, st', [e], s, w, resync);
        }
      case Shedding(e, now) => SameOutput(st, st', w, resync);
      case Signal(e, now) =>
        if e.sub == s {
          assert st'.emitted + st'.ready == st.Outstanding() + [e];
          FlushedFits(st, st', [e], s, w, resync);
        }
      case FlushOne(t, now) =>
        if t == s {
          assert st'.emitted + st'.ready == st.Outstanding() + [];
          FlushedFits(st, st', [], s, w, resync);
        }
      case Drain(now) => DrainFits(st, now, s, w, resync);
      case FlushAll =>
        assert st'.emitted + st'.ready == st.Outstanding() + [];
        FlushedFits(st, st', [], s, w, resync);
      case Drop(t) =>
    }
  }

  /** Everything a well-formed history admits is honest, prefix by prefix. */
  lemma AdmissionFits(log: seq<Op>, s: Sub, n: nat, w: World, resync: Resync)
    requires n < |log| && log[n].Admits(s)
    requires WellFormed(w, Run(log[..n + 1], s).admitted, resync)
    ensures FitsWorld(Replay(w, Run(log[..n], s).admitted, resync), log[n].e)
    ensures WellFormed(w, Run(log[..n], s).admitted, resync)
  {
    hide Run, WellFormed, Replay, FitsWorld;
    RunAdmits(log, s, n);
    ReplaySnoc(w, Run(log[..n], s).admitted, log[n].e, resync);
  }

  /** The admissions of a prefix of a run are a prefix of its admissions. */
  lemma {:induction false} AdmittedPrefix(log: seq<Op>, s: Sub, n: nat)
    requires n <= |log|
    ensures Run(log[..n], s).admitted <= Run(log, s).admitted
    ensures n < |log| && log[n].Admits(s) ==>
              Run(log[..n], s).admitted + [log[n].e] <= Run(log, s).admitted
    decreases |log| - n
  {
    hide Run;
    if n == |log| {
      assert log[..n] == log;
    } else {
      AdmittedPrefix(log, s, n + 1);
      RunAdmits(log, s, n);
    }
  }

  lemma {:induction false} PrefixWellFormed(log: seq<Op>, s: Sub, n: nat, w: World, resync: Resync)
    requires n <= |log| && WellFormed(w, Run(log, s).admitted, resync)
    ensures WellFormed(w, Run(log[..n], s).admitted, resync)
    decreases |log| - n
  {
    hide Run, WellFormed;
    if n == |log| {
      assert log[..n] == log;
    } else {
      PrefixWellFormed(log, s, n + 1, w, resync);
      if log[n].Admits(s) {
        AdmissionFits(log, s, n, w, resync);
      } else {
        RunAdmits(log, s, n);
      }
    }
  }

  lemma StartFits(w: World, resync: Resync)
    ensures OutputFits(Start, w, resync)
  {
  }

  lemma {:induction false} FitsRun(log: seq<Op>, s: Sub, n: nat, w: World, resync: Resync)
    requires AllDispatched(log) && NeverOvertakes(log, s) && Lossless(log, s) && n <= |log|
    requires FaithfulThroughout(log, s, w, resync)
    requires forall i :: 0 <= i < |log| && log[i].Admits(s) ==>
               FitsWorld(Replay(w, Run(log[..i], s).admitted, resync), log[i].e)
    ensures OutputFits(Run(log[..n], s), w, resync)
  {
    hide Run, Step, Faithful, Replay, FitsWorld, NeverOvertakes;
    if n > 0 {
      hide OutputFits;
      FitsRun(log, s, n - 1, w, resync);
      RunContext(log, s, n - 1);
      StepFits(Run(log[..n - 1], s), log[n - 1], s, w, resync);
    } else {
      assert log[..0] == [];
      RunStart(s);
      StartFits(w, resync);
    }
  }

  /** Main result: a well-formed lifecycle history comes out as a well-formed lifecycle history,
      and it says the same thing, over every run without loss. */
  lemma OutputIsWellFormed(log: seq<Op>, s: Sub, w: World, resync: Resync)
    requires AllDispatched(log) && NeverOvertakes(log, s) && Lossless(log, s)
    requires WellFormed(w, Run(log, s).admitted, resync)
    ensures WellFormed(w, Run(log, s).Outstanding(), resync)
    ensures Replay(w, Run(log, s).Outstanding(), resync) == Replay(w, Run(log, s).admitted, resync)
  {
    forall n | 0 <= n < |log| && log[n].Admits(s)
      ensures FitsWorld(Replay(w, Run(log[..n], s).admitted, resync), log[n].e)
    {
      PrefixWellFormed(log, s, n + 1, w, resync);
      AdmissionFits(log, s, n, w, resync);
    }
    CoalescingPreservesMeaning(log, s, w, resync);
    FitsRun(log, s, |log|, w, resync);
    assert log[..|log|] == log;
    var st := Run(log, s);
    RunSound(log, s);
    OutstandingReplay(st, w, resync);
    SlotsWellFormed(Told(st, w, resync), st.pending, s, resync);
  }
}
