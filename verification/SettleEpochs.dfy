/** What coalescing keeps of the per-subscription epoch order, over whole runs.

    A signal (a move, a rescan, any non-lifecycle kind) is never followed by an older epoch, and
    each drain climbs. Across drains the epochs climb exactly when no deadline can be cut short
    by the hold cap.
 */
module SettleEpochs {
  import opened Events
  import opened Settle
  import opened SettleMeaning

  predicate Rising(es: seq<Event>) {
    forall i, j :: 0 <= i < j < |es| ==> es[i].epoch <= es[j].epoch
  }

  /** No event after a signal carries an older epoch than the signal. */
  predicate SignalsDominate(es: seq<Event>) {
    forall i, j :: 0 <= i < j < |es| && !es[i].kind.IsLifecycle() ==> es[i].epoch <= es[j].epoch
  }

  function High(es: seq<Event>): Epoch {
    if es == [] then 0 else es[|es| - 1].epoch
  }

  predicate AtMost(es: seq<Event>, bound: Epoch) {
    forall i :: 0 <= i < |es| ==> es[i].epoch <= bound
  }

  /** Every earlier admission of a climbing stream is at most its newest. */
  lemma HighBounds(es: seq<Event>, e: Event)
    requires Rising(es + [e])
    ensures Rising(es) && High(es) <= e.epoch
  {
    assert forall i :: 0 <= i < |es| ==> (es + [e])[i] == es[i];
    assert (es + [e])[|es|] == e;
  }

  lemma {:induction false} AdmittedPrefixRises(log: seq<Op>, s: Sub, n: nat)
    requires n <= |log| && Rising(Run(log, s).admitted)
    ensures Rising(Run(log[..n], s).admitted)
    ensures n < |log| && log[n].Admits(s) ==> High(Run(log[..n], s).admitted) <= log[n].e.epoch
    decreases |log| - n
  {
    hide Run, Rising;
    if n == |log| {
      assert log[..n] == log;
    } else {
      AdmittedPrefixRises(log, s, n + 1);
      RunAdmits(log, s, n);
      if log[n].Admits(s) {
        HighBounds(Run(log[..n], s).admitted, log[n].e);
      }
    }
  }

  // ---------------------------------------------------------------- dominance

  /** Everything held or sent is at most the newest admission. */
  ghost predicate Bounded(st: State) {
    && AtMost(st.emitted + st.ready, High(st.admitted))
    && AtMost(EventsOf(st.pending), High(st.admitted))
  }

  ghost predicate Dominated(st: State) {
    && Bounded(st)
    && SignalsDominate(st.emitted + st.ready)
    && (forall i, j :: 0 <= i < |st.emitted + st.ready| && 0 <= j < |st.pending| &&
                       !(st.emitted + st.ready)[i].kind.IsLifecycle() ==>
                       (st.emitted + st.ready)[i].epoch <= st.pending[j].event.epoch)
  }

  lemma ObserveEpochs(p: seq<Slot>, e: Event, now: Instant, config: Config)
    ensures forall x :: x in Observe(p, e, now, config) ==> x in p || x.event.epoch == e.epoch
  {
    WithoutElements(p, e.key);
  }

  lemma SettlingDominated(st: State, e: Event, now: Instant, config: Config, s: Sub)
    requires Dominated(st) && e.sub == s && High(st.admitted) <= e.epoch
    ensures Dominated(Step(st, Settling(e, now, config), s))
  {
    var st' := Step(st, Settling(e, now, config), s);
    ObserveEpochs(st.pending, e, now, config);
    forall j | 0 <= j < |st'.pending|
      ensures st'.pending[j].event.epoch <= e.epoch
      ensures forall i :: 0 <= i < |st.emitted + st.ready| && !(st.emitted + st.ready)[i].kind.IsLifecycle() ==>
                (st.emitted + st.ready)[i].epoch <= st'.pending[j].event.epoch
    {
      assert st'.pending[j] in st'.pending;
      if st'.pending[j] in st.pending {
        var i :| 0 <= i < |st.pending| && st.pending[i] == st'.pending[j];
        assert EventsOf(st.pending)[i].epoch <= High(st.admitted);
      }
    }
  }

  /** Moving some pending slots, and perhaps the newest admission, onto the stream. */
  lemma StreamExtends(st: State, st': State, moved: seq<Slot>, extra: seq<Event>, s: Sub)
    requires Dominated(st) && Sound(st.pending, s)
    requires forall x :: x in moved ==> x in st.pending
    requires forall x :: x in st'.pending ==> x in st.pending
    requires st'.emitted + st'.ready == st.emitted + st.ready + EventsOf(moved) + extra
    requires High(st.admitted) <= High(st'.admitted)
    requires |extra| <= 1 && (|extra| == 1 ==> extra[0].epoch == High(st'.admitted) && st'.pending == [])
    ensures Dominated(st')
  {
    var was, now := st.emitted + st.ready, st'.emitted + st'.ready;
    var mid := |was| + |moved|;
    forall x | x in st.pending
      ensures x.event.kind.IsLifecycle() && x.event.epoch <= High(st.admitted)
      ensures forall i :: 0 <= i < |was| && !was[i].kind.IsLifecycle() ==> was[i].epoch <= x.event.epoch
    {
      var m :| 0 <= m < |st.pending| && st.pending[m] == x;
      assert EventsOf(st.pending)[m].epoch <= High(st.admitted);
    }
    forall j | 0 <= j < |now|
      ensures j < |was| ==> now[j] == was[j]
      ensures |was| <= j < mid ==> now[j] == moved[j - |was|].event && moved[j - |was|] in st.pending
      ensures mid <= j ==> now[j] == extra[0]
    {
      assert |was| <= j < mid ==> moved[j - |was|] in moved;
    }
    forall j | 0 <= j < |st'.pending| ensures st'.pending[j] in st.pending {
      assert st'.pending[j] in st'.pending;
    }
  }

  /** What was only kept for a drop, or shed, changes nothing that was sent. */
  lemma QuietDominated(st: State, st': State)
    requires Dominated(st) && High(st.admitted) <= High(st'.admitted) && st'.emitted == st.emitted
    requires (st'.ready == st.ready && st'.pending == st.pending) || (st'.ready == [] && st'.pending == [])
    ensures Dominated(st')
  {
    assert forall i :: 0 <= i < |st.emitted| ==> (st.emitted + st.ready)[i] == st.emitted[i];
  }

  lemma StepDominated(st: State, op: Op, s: Sub)
    requires Dominated(st) && Sound(st.pending, s) && Dispatched(op)
    requires op.Admits(s) ==> High(st.admitted) <= op.e.epoch
    ensures Dominated(Step(st, op, s))
  {
    hide Dominated, Sound, Observe, Sift;
    var st' := Step(st, op, s);
    match op {
      case Settling(e, now, config) => if e.sub == s { SettlingDominated(st, e, now, config, s); }
      case Passing(e, now) => if e.sub == s { PassingDominated(st, e, now, s); }
      case Shedding(e, now) => QuietDominated(st, st');
      case Signal(e, now) => if e.sub == s { StreamExtends(st, st', st.pending, [e], s); }
      case FlushOne(t, now) => if t == s { StreamExtends(st, st', st.pending, [], s); }
      case Drain(now) =>
        SiftElements(st.pending, now, true);
        SiftElements(st.pending, now, false);
        StreamExtends(st, st', Sift(st.pending, now, true), [], s);
      case FlushAll => StreamExtends(st, st', st.pending, [], s);
      case Drop(t) => QuietDominated(st, st');
    }
  }

  lemma PassingDominated(st: State, e: Event, now: Instant, s: Sub)
    requires Dominated(st) && e.sub == s && High(st.admitted) <= e.epoch && e.kind.IsLifecycle()
    ensures Dominated(Step(st, Passing(e, now), s))
  {
    var st' := Step(st, Passing(e, now), s);
    assert st'.emitted + st'.ready == (st.emitted + st.ready) + [e];
  }

  lemma StartDominated(s: Sub)
    ensures Dominated(Run([], s))
  {
  }

  lemma {:induction false} RunDominated(log: seq<Op>, s: Sub, n: nat)
    requires AllDispatched(log) && Rising(Run(log, s).admitted) && n <= |log|
    ensures Dominated(Run(log[..n], s))
  {
    hide Run, Step, Rising;
    if n > 0 {
      hide Dominated;
      RunDominated(log, s, n - 1);
      AdmittedPrefixRises(log, s, n - 1);
      assert log[..n] == log[..n - 1] + [log[n - 1]];
      RunSnoc(log[..n - 1], log[n - 1], s);
      RunSound(log[..n - 1], s);
      StepDominated(Run(log[..n - 1], s), log[n - 1], s);
    } else {
      assert log[..0] == [];
      StartDominated(s);
    }
  }

  /** Main result: whatever the run (drops and sheds included), if a subscription's stamps climb on
      the way in, nothing emitted after a move or rescan is older than it, in any later drain. */
  lemma SignalsDominateWholeRun(log: seq<Op>, s: Sub)
    requires AllDispatched(log) && Rising(Run(log, s).admitted)
    ensures SignalsDominate(Run(log, s).emitted)
    ensures AtMost(Run(log, s).emitted, High(Run(log, s).admitted))
  {
    RunDominated(log, s, |log|);
    assert log[..|log|] == log;
    var st := Run(log, s);
    assert forall i :: 0 <= i < |st.emitted| ==> (st.emitted + st.ready)[i] == st.emitted[i];
  }

  // ---------------------------------------------------------------- one drain climbs

  lemma RisingInit(p: seq<Slot>)
    requires p != [] && Rising(EventsOf(p))
    ensures Rising(EventsOf(p[..|p| - 1]))
    ensures forall x :: x in p[..|p| - 1] ==> x.event.epoch <= p[|p| - 1].event.epoch
  {
  }

  lemma RisingSnoc(p: seq<Slot>, x: Slot)
    requires Rising(EventsOf(p)) && forall y :: y in p ==> y.event.epoch <= x.event.epoch
    ensures Rising(EventsOf(p + [x]))
  {
  }

  lemma {:induction false} WithoutRises(p: seq<Slot>, key: Key)
    requires Rising(EventsOf(p))
    ensures Rising(EventsOf(Without(p, key)))
  {
    if p != [] {
      var p0, last := p[..|p| - 1], p[|p| - 1];
      RisingInit(p);
      WithoutRises(p0, key);
      WithoutElements(p0, key);
      RisingSnoc(Without(p0, key), last);
      assert Without(p0, key) + [] == Without(p0, key);
      hide Rising;
    }
  }

  lemma {:induction false} SiftRises(p: seq<Slot>, now: Instant, due: bool)
    requires Rising(EventsOf(p))
    ensures Rising(EventsOf(Sift(p, now, due)))
  {
    if p != [] {
      var p0, last := p[..|p| - 1], p[|p| - 1];
      RisingInit(p);
      SiftRises(p0, now, due);
      SiftElements(p0, now, due);
      RisingSnoc(Sift(p0, now, due), last);
      assert Sift(p0, now, due) + [] == Sift(p0, now, due);
      hide Rising;
    }
  }

  /** Between steps, everything owed at once is at most everything pending, and both climb. */
  ghost predicate Layered(st: State) {
    Rising(st.ready + EventsOf(st.pending)) && AtMost(st.ready + EventsOf(st.pending), High(st.admitted))
  }

  lemma ObserveRises(p: seq<Slot>, e: Event, now: Instant, config: Config)
    requires Rising(EventsOf(p)) && AtMost(EventsOf(p), e.epoch)
    ensures Rising(EventsOf(Observe(p, e, now, config)))
    ensures AtMost(EventsOf(Observe(p, e, now, config)), e.epoch)
  {
    hide Observe, Without, Rising;
    WithoutRises(p, e.key);
    ObserveShape(p, e, now, config);
    var p', kept := Observe(p, e, now, config), Without(p, e.key);
    forall x | x in kept ensures x.event.epoch <= e.epoch {
      var j :| 0 <= j < |p| && p[j] == x;
      assert EventsOf(p)[j].epoch <= e.epoch;
    }
    if |p'| > |kept| {
      assert p' == kept + [p'[|kept|]];
      RisingSnoc(kept, p'[|kept|]);
    } else {
      assert p' == kept;
    }
    assert forall i :: 0 <= i < |kept| ==> p'[i] == kept[i] && kept[i] in kept;
  }

  lemma RisingConcat(a: seq<Event>, b: seq<Event>)
    ensures Rising(a + b) <==>
            Rising(a) && Rising(b) && forall i, j :: 0 <= i < |a| && 0 <= j < |b| ==> a[i].epoch <= b[j].epoch
    ensures forall m :: AtMost(a + b, m) <==> AtMost(a, m) && AtMost(b, m)
  {
    var c := a + b;
    assert forall i :: 0 <= i < |a| ==> c[i] == a[i];
    assert forall j :: 0 <= j < |b| ==> c[|a| + j] == b[j];
    assert forall k :: |a| <= k < |c| ==> c[k] == b[k - |a|];
  }

  /** Everything sent stays at or below every slot after one more observed change. */
  lemma ObserveAbove(sent: seq<Event>, p: seq<Slot>, e: Event, now: Instant, config: Config)
    requires forall i, j :: 0 <= i < |sent| && 0 <= j < |p| ==> sent[i].epoch <= p[j].event.epoch
    requires AtMost(sent, e.epoch)
    ensures
      var p' := Observe(p, e, now, config);
      forall i, j :: 0 <= i < |sent| && 0 <= j < |p'| ==> sent[i].epoch <= p'[j].event.epoch
  {
    var p' := Observe(p, e, now, config);
    ObserveEpochs(p, e, now, config);
    hide Observe;
    forall i, j | 0 <= i < |sent| && 0 <= j < |p'| ensures sent[i].epoch <= p'[j].event.epoch {
      assert p'[j] in p';
      if p'[j] in p {
        var m :| 0 <= m < |p| && p[m] == p'[j];
      }
    }
  }

  /** One more observed change keeps what was sent and what is pending climbing, in that order. */
  lemma ObserveBehind(sent: seq<Event>, p: seq<Slot>, e: Event, now: Instant, config: Config)
    requires Rising(sent + EventsOf(p)) && AtMost(sent + EventsOf(p), e.epoch)
    ensures
      var p' := Observe(p, e, now, config);
      Rising(sent + EventsOf(p')) && AtMost(sent + EventsOf(p'), e.epoch)
  {
    hide Observe, Rising, AtMost;
    RisingConcat(sent, EventsOf(p));
    RisingConcat(sent, EventsOf(Observe(p, e, now, config)));
    ObserveRises(p, e, now, config);
    assert forall j :: 0 <= j < |p| ==> EventsOf(p)[j] == p[j].event;
    ObserveAbove(sent, p, e, now, config);
  }

  lemma SettlingLayered(st: State, e: Event, now: Instant, config: Config, s: Sub)
    requires Layered(st) && e.sub == s && High(st.admitted) <= e.epoch
    ensures Layered(Step(st, Settling(e, now, config), s))
  {
    hide Observe, Rising;
    ObserveBehind(st.ready, st.pending, e, now, config);
  }

  lemma SiftBounded(p: seq<Slot>, now: Instant, bound: Epoch, due: bool)
    requires AtMost(EventsOf(p), bound)
    ensures AtMost(EventsOf(Sift(p, now, due)), bound)
  {
    hide Sift;
    SiftElements(p, now, due);
    var q := Sift(p, now, due);
    forall j | 0 <= j < |q| ensures q[j].event.epoch <= bound {
      assert q[j] in q;
      var m :| 0 <= m < |p| && p[m] == q[j];
      assert EventsOf(p)[m].epoch <= bound;
    }
  }

  /** Appending the newest admission, or raising the bound, or dropping what is pending. */
  lemma LayeredNext(st: State, st': State, extra: seq<Event>)
    requires Layered(st) && High(st.admitted) <= High(st'.admitted)
    requires st'.ready + EventsOf(st'.pending) == st.ready + EventsOf(st.pending) + extra
    requires forall i :: 0 <= i < |extra| ==> extra[i].epoch == High(st'.admitted)
    ensures Layered(st')
  {
    RisingConcat(st.ready + EventsOf(st.pending), extra);
  }

  lemma DrainLayered(st: State, now: Instant, s: Sub)
    requires Layered(st)
    ensures Layered(Step(st, Drain(now), s))
    ensures Rising(st.ready + EventsOf(Sift(st.pending, now, true)))
  {
    hide Rising, AtMost, Sift;
    var due, later := Sift(st.pending, now, true), Sift(st.pending, now, false);
    RisingConcat(st.ready, EventsOf(st.pending));
    RisingConcat(st.ready, EventsOf(due));
    SiftRises(st.pending, now, true);
    SiftRises(st.pending, now, false);
    SiftBounded(st.pending, now, High(st.admitted), false);
    SiftElements(st.pending, now, true);
    forall i, j | 0 <= i < |st.ready| && 0 <= j < |due| ensures st.ready[i].epoch <= EventsOf(due)[j].epoch {
      assert due[j] in due;
      var m :| 0 <= m < |st.pending| && st.pending[m] == due[j];
      assert EventsOf(st.pending)[m] == due[j].event;
    }
    assert Step(st, Drain(now), s).ready + EventsOf(later) == EventsOf(later);
  }

  lemma EmptyLayered(st: State)
    requires st.ready == [] && st.pending == []
    ensures Layered(st)
  {
  }

  lemma StepLayered(st: State, op: Op, s: Sub)
    requires Layered(st)
    requires op.Passing? && op.e.sub == s ==> st.pending == []
    requires op.Admits(s) ==> High(st.admitted) <= op.e.epoch
    ensures Layered(Step(st, op, s))
  {
    hide Observe, Sift, Rising, AtMost, Layered;
    var st' := Step(st, op, s);
    match op {
      case Settling(e, now, config) => if e.sub == s { SettlingLayered(st, e, now, config, s); }
      case Passing(e, now) =>
        if e.sub == s {
          assert st'.ready + EventsOf(st'.pending) == st.ready + EventsOf(st.pending) + [e];
          LayeredNext(st, st', [e]);
        }
      case Shedding(e, now) =>
        assert st'.ready + EventsOf(st'.pending) == st.ready + EventsOf(st.pending) + [];
        LayeredNext(st, st', []);
      case Signal(e, now) =>
        if e.sub == s {
          assert st'.ready + EventsOf(st'.pending) == st.ready + EventsOf(st.pending) + [e];
          LayeredNext(st, st', [e]);
        }
      case FlushOne(t, now) =>
        assert st'.ready + EventsOf(st'.pending) == st.ready + EventsOf(st.pending) + [];
        LayeredNext(st, st', []);
      case Drain(now) => DrainLayered(st, now, s);
      case FlushAll => EmptyLayered(st');
      case Drop(t) => if t == s { EmptyLayered(st'); }
    }
  }

  lemma {:induction false} RunLayered(log: seq<Op>, s: Sub, n: nat)
    requires AllDispatched(log) && NeverOvertakes(log, s) && Rising(Run(log, s).admitted) && n <= |log|
    ensures Layered(Run(log[..n], s))
  {
    hide Run, Step, Rising;
    if n > 0 {
      hide Layered;
      RunLayered(log, s, n - 1);
      AdmittedPrefixRises(log, s, n - 1);
      RunContext(log, s, n - 1);
      StepLayered(Run(log[..n - 1], s), log[n - 1], s);
    } else {
      assert log[..0] == [];
      RunStart(s);
      EmptyLayered(Start);
    }
  }

  lemma LayeredBatches(st: State, now: Instant, s: Sub)
    requires Layered(st)
    ensures Step(st, Drain(now), s).emitted == st.emitted + (st.ready + EventsOf(Sift(st.pending, now, true)))
    ensures Step(st, FlushAll, s).emitted == st.emitted + (st.ready + EventsOf(st.pending))
    ensures Rising(st.ready + EventsOf(st.pending))
  {
    hide Rising;
    assert st.emitted + st.ready + EventsOf(st.pending) == st.emitted + (st.ready + EventsOf(st.pending));
  }

  /** Main result: after any run, what one drain (or one flush) emits for a subscription climbs. */
  lemma EachDrainRises(log: seq<Op>, s: Sub, now: Instant)
    requires AllDispatched(log) && NeverOvertakes(log, s) && Rising(Run(log, s).admitted)
    ensures
      var st := Run(log, s);
      && Step(st, Drain(now), s).emitted == st.emitted + (st.ready + EventsOf(Sift(st.pending, now, true)))
      && Rising(st.ready + EventsOf(Sift(st.pending, now, true)))
      && Step(st, FlushAll, s).emitted == st.emitted + (st.ready + EventsOf(st.pending))
      && Rising(st.ready + EventsOf(st.pending))
  {
    hide Run, Step, Rising, Sift, Layered;
    RunLayered(log, s, |log|);
    assert log[..|log|] == log;
    DrainLayered(Run(log, s), now, s);
    LayeredBatches(Run(log, s), now, s);
  }
}
