/** The settle/debounce stage as one subscription sees it, in its simplest form: a list of
    pending slots in admission order and a queue of events owed at once. No index, no
    counters, no sequence numbers. The mutable `Coalescer` is proved to refine this machine;
    what coalescing means is proved about this machine over whole runs.
 */
module Settle {
  import opened Events

  datatype Config = Config(quietWindow: nat, maxHold: nat, maxBuffered: nat)

  /** One burst still settling. */
  datatype Slot = Slot(firstSeen: Instant, emitAt: Instant, event: Event)

  /** Settle to `now + quiet`, never past the hold cap. */
  function Deadline(firstSeen: Instant, now: Instant, config: Config): Instant {
    var settle := now + config.quietWindow;
    var cap := firstSeen + config.maxHold;
    if settle < cap then settle else cap
  }

  // ---------------------------------------------------------------- the collapse table

  datatype Collapse = KeepBuffered | ReplaceWithIncoming | BecomeModified | Annihilate

  function CollapseOf(buffered: Kind, incoming: Kind): Collapse {
    match (buffered, incoming)
    case (Created, Removed) => Annihilate
    case (Removed, Created) => BecomeModified
    case (Modified, Removed) => ReplaceWithIncoming
    case (Removed, Removed) => ReplaceWithIncoming
    case (Removed, Modified) => ReplaceWithIncoming
    case _ => KeepBuffered
  }

  /** The event a buffered entry becomes on meeting an incoming one, if it survives. */
  function Merge(buffered: Event, incoming: Event): Option<Event> {
    match CollapseOf(buffered.kind, incoming.kind)
    case KeepBuffered => Some(buffered.(epoch := incoming.epoch))
    case ReplaceWithIncoming => Some(incoming)
    case BecomeModified =>
      Some(Synthetic(incoming.sub, incoming.key, incoming.location, Modified, incoming.epoch)
           .(value := incoming.value))
    case Annihilate => None
  }

  // ---------------------------------------------------------------- the pending list

  function EventsOf(p: seq<Slot>): (es: seq<Event>)
    ensures |es| == |p|
    ensures forall i :: 0 <= i < |p| ==> es[i] == p[i].event
  {
    seq(|p|, i requires 0 <= i < |p| => p[i].event)
  }

  predicate Holds(p: seq<Slot>, key: Key) {
    exists i :: 0 <= i < |p| && p[i].event.key == key
  }

  function SlotFor(p: seq<Slot>, key: Key): (slot: Slot)
    requires Holds(p, key)
    ensures slot in p && slot.event.key == key
  {
    var last := p[|p| - 1];
    if last.event.key == key then last else SlotFor(p[..|p| - 1], key)
  }

  function Without(p: seq<Slot>, key: Key): seq<Slot> {
    if p == [] then []
    else
      var last := p[|p| - 1];
      Without(p[..|p| - 1], key) + if last.event.key == key then [] else [last]
  }

  /** The pending slots whose deadline has passed (`due`), or has not (`!due`), in order. */
  function Sift(p: seq<Slot>, now: Instant, due: bool): seq<Slot> {
    if p == [] then []
    else
      var last := p[|p| - 1];
      Sift(p[..|p| - 1], now, due) + if (last.emitAt <= now) == due then [last] else []
  }

  /** One lifecycle change under a settling policy: open a slot, or fold into the key's slot,
      which then moves to the end of the line. */
  function Observe(p: seq<Slot>, e: Event, now: Instant, config: Config): seq<Slot> {
    if !Holds(p, e.key) then p + [Slot(now, Deadline(now, now, config), e)]
    else
      var held := SlotFor(p, e.key);
      Without(p, e.key) +
      match Merge(held.event, e)
      case None => []
      case Some(merged) => [Slot(held.firstSeen, Deadline(held.firstSeen, now, config), merged)]
  }

  // ---------------------------------------------------------------- runs

  /** Everything that can happen to the stage. `Settling`, `Passing`, `Shedding` and `Signal` are
      the four outcomes of an admission. */
  datatype Op =
    | Settling(e: Event, now: Instant, config: Config)
    | Passing(e: Event, now: Instant)
    | Shedding(e: Event, now: Instant)
    | Signal(e: Event, now: Instant)
    | FlushOne(sub: Sub, now: Instant)
    | Drain(now: Instant)
    | FlushAll
    | Drop(sub: Sub)
  {
    predicate Admits(s: Sub) {
      (Settling? || Passing? || Shedding? || Signal?) && e.sub == s
    }
  }

  datatype State = State(pending: seq<Slot>, ready: seq<Event>, admitted: seq<Event>, emitted: seq<Event>)
  {
    /** Everything that has been emitted, in order, if the stage were flushed now. */
    function Outstanding(): seq<Event> {
      emitted + ready + EventsOf(pending)
    }
  }

  const Start := State([], [], [], [])

  function Step(st: State, op: Op, s: Sub): State {
    match op
    case Settling(e, now, config) =>
      if e.sub != s then st
      else st.(pending := Observe(st.pending, e, now, config), admitted := st.admitted + [e])
    case Passing(e, now) =>
      if e.sub != s then st
      else st.(ready := st.ready + [e], admitted := st.admitted + [e])
    case Shedding(e, now) =>
      if e.sub != s then st else st.(admitted := st.admitted + [e])
    case Signal(e, now) =>
      if e.sub != s then st
      else st.(pending := [], ready := st.ready + EventsOf(st.pending) + [e], admitted := st.admitted + [e])
    case FlushOne(t, now) =>
      if t != s then st else st.(pending := [], ready := st.ready + EventsOf(st.pending))
    case Drain(now) =>
      st.(pending := Sift(st.pending, now, false),
          ready := [],
          emitted := st.emitted + st.ready + EventsOf(Sift(st.pending, now, true)))
    case FlushAll =>
      st.(pending := [], ready := [], emitted := st.Outstanding())
    case Drop(t) =>
      if t != s then st else st.(pending := [], ready := [])
  }

  /** The state of subscription `s` after the whole log. */
  function Run(log: seq<Op>, s: Sub): State {
    if log == [] then Start else Step(Run(log[..|log| - 1], s), log[|log| - 1], s)
  }

  lemma RunSnoc(log: seq<Op>, op: Op, s: Sub)
    ensures Run(log + [op], s) == Step(Run(log, s), op, s)
  {
  }

  /** A run admits exactly what its admissions carry. */
  lemma RunAdmits(log: seq<Op>, s: Sub, n: nat)
    requires n < |log|
    ensures Run(log[..n + 1], s).admitted ==
            if log[n].Admits(s) then Run(log[..n], s).admitted + [log[n].e] else Run(log[..n], s).admitted
  {
    hide Run, Observe, Sift;
    assert log[..n + 1] == log[..n] + [log[n]];
    RunSnoc(log[..n], log[n], s);
  }

  /** The admission outcomes only carry the kinds the dispatch sends there. */
  predicate Dispatched(op: Op) {
    && (op.Settling? || op.Passing? || op.Shedding? ==> op.e.kind.IsLifecycle())
    && (op.Signal? ==> !op.e.kind.IsLifecycle())
  }

  predicate AllDispatched(log: seq<Op>) {
    forall i :: 0 <= i < |log| ==> Dispatched(log[i])
  }

  /** An event that passes straight through never overtakes a pending one of its subscription. The
      dispatch guarantees it: only a subscription without a settling policy passes, and such a
      subscription holds nothing. */
  predicate NeverOvertakes(log: seq<Op>, s: Sub) {
    forall n :: 0 <= n < |log| && log[n].Passing? && log[n].e.sub == s ==> Run(log[..n], s).pending == []
  }

  /** A slot is opened only below the cap of the policy it settles under; folding is exempt. */
  predicate KeepsCap(log: seq<Op>, s: Sub) {
    forall n :: 0 <= n < |log| && log[n].Settling? && log[n].e.sub == s && !Holds(Run(log[..n], s).pending, log[n].e.key) ==>
      |Run(log[..n], s).pending| < log[n].config.maxBuffered
  }

  /** A slot is opened only below the structural bound that all subscriptions share. */
  predicate KeepsRoom(log: seq<Op>, s: Sub, room: nat) {
    forall n :: 0 <= n < |log| && log[n].Settling? && log[n].e.sub == s && !Holds(Run(log[..n], s).pending, log[n].e.key) ==>
      |Run(log[..n], s).pending| < room
  }

  /** What the dispatch guarantees of every subscription. */
  predicate Lawful(log: seq<Op>, s: Sub, room: nat) {
    NeverOvertakes(log, s) && KeepsCap(log, s) && KeepsRoom(log, s, room)
  }

  /** Every settling change of `s` runs under the one policy `config`. */
  predicate SettledUnder(log: seq<Op>, s: Sub, config: Config) {
    forall i :: 0 <= i < |log| && log[i].Settling? && log[i].e.sub == s ==> log[i].config == config
  }

  /** Between steps: one slot per key, lifecycle kinds only, all for this subscription. */
  ghost predicate Sound(p: seq<Slot>, s: Sub) {
    && (forall i :: 0 <= i < |p| ==> p[i].event.kind.IsLifecycle() && p[i].event.sub == s)
    && (forall i, j :: 0 <= i < j < |p| ==> p[i].event.key != p[j].event.key)
  }

  // ---------------------------------------------------------------- facts about the list

  lemma WithoutNone(key: Key)
    ensures Without([], key) == []
  {
  }

  lemma SiftNone(now: Instant, due: bool)
    ensures Sift([], now, due) == []
  {
  }

  lemma WithoutSnoc(p: seq<Slot>, x: Slot, key: Key)
    ensures Without(p + [x], key) == Without(p, key) + if x.event.key == key then [] else [x]
  {
    assert (p + [x])[..|p|] == p;
  }

  lemma SiftSnoc(p: seq<Slot>, x: Slot, now: Instant, due: bool)
    ensures Sift(p + [x], now, due) == Sift(p, now, due) + if (x.emitAt <= now) == due then [x] else []
  {
    assert (p + [x])[..|p|] == p;
  }

  lemma HoldsInit(p: seq<Slot>, key: Key)
    requires p != []
    ensures Holds(p, key) <==> Holds(p[..|p| - 1], key) || p[|p| - 1].event.key == key
  {
    var p0 := p[..|p| - 1];
    assert forall i :: 0 <= i < |p0| ==> p0[i] == p[i];
    if Holds(p0, key) {
      var i :| 0 <= i < |p0| && p0[i].event.key == key;
      assert p[i].event.key == key;
    }
  }

  lemma {:induction false} WithoutElements(p: seq<Slot>, key: Key)
    ensures forall x :: x in Without(p, key) <==> x in p && x.event.key != key
    ensures !Holds(p, key) ==> Without(p, key) == p
  {
    if p != [] {
      var p0, last := p[..|p| - 1], p[|p| - 1];
      assert p == p0 + [last];
      WithoutElements(p0, key);
      if !Holds(p, key) {
        assert last.event.key != key;
        assert forall i :: 0 <= i < |p0| ==> p0[i] == p[i];
      }
    }
  }

  /** The instant the hold of `key` is measured from, if a change arrives `now`. */
  function Anchor(p: seq<Slot>, key: Key, now: Instant): Instant {
    if Holds(p, key) then SlotFor(p, key).firstSeen else now
  }

  /** Observing a change takes its key out of the line and puts at most one slot at the end, due at the
      deadline of its burst and stamped with the change's epoch. */
  lemma ObserveShape(p: seq<Slot>, e: Event, now: Instant, config: Config)
    ensures
      var p', kept := Observe(p, e, now, config), Without(p, e.key);
      && |kept| <= |p'| <= |kept| + 1 && p'[..|kept|] == kept
      && (forall x :: x in kept ==> x in p)
      && (|p'| > |kept| ==>
            var x := p'[|kept|];
            && x.firstSeen == Anchor(p, e.key, now) && x.emitAt == Deadline(x.firstSeen, now, config)
            && x.event.epoch == e.epoch)
  {
    WithoutElements(p, e.key);
  }

  lemma SoundSnoc(p: seq<Slot>, x: Slot, s: Sub)
    requires Sound(p, s) && x.event.kind.IsLifecycle() && x.event.sub == s
    requires forall y :: y in p ==> y.event.key != x.event.key
    ensures Sound(p + [x], s)
  {
    assert forall i :: 0 <= i < |p| ==> p[i] in p;
  }

  lemma SoundInit(p: seq<Slot>, s: Sub)
    requires Sound(p, s) && p != []
    ensures Sound(p[..|p| - 1], s) && p[|p| - 1].event.kind.IsLifecycle() && p[|p| - 1].event.sub == s
    ensures forall y :: y in p[..|p| - 1] ==> y.event.key != p[|p| - 1].event.key
  {
  }

  lemma {:induction false} WithoutSound(p: seq<Slot>, key: Key, s: Sub)
    requires Sound(p, s)
    ensures Sound(Without(p, key), s)
  {
    if p != [] {
      hide Sound;
      var p0, last := p[..|p| - 1], p[|p| - 1];
      SoundInit(p, s);
      WithoutSound(p0, key, s);
      WithoutElements(p0, key);
      SoundSnoc(Without(p0, key), last, s);
      assert Without(p0, key) + [] == Without(p0, key);
    }
  }

  lemma {:induction false} SiftElements(p: seq<Slot>, now: Instant, due: bool)
    ensures forall x :: x in Sift(p, now, due) <==> x in p && (x.emitAt <= now) == due
  {
    if p != [] {
      assert p == p[..|p| - 1] + [p[|p| - 1]];
      SiftElements(p[..|p| - 1], now, due);
    }
  }

  lemma {:induction false} SiftSound(p: seq<Slot>, now: Instant, due: bool, s: Sub)
    requires Sound(p, s)
    ensures Sound(Sift(p, now, due), s)
  {
    if p != [] {
      hide Sound;
      var p0, last := p[..|p| - 1], p[|p| - 1];
      SoundInit(p, s);
      SiftSound(p0, now, due, s);
      SiftElements(p0, now, due);
      SoundSnoc(Sift(p0, now, due), last, s);
      assert Sift(p0, now, due) + [] == Sift(p0, now, due);
    }
  }

  lemma SoundAt(p: seq<Slot>, s: Sub, x: Slot)
    requires Sound(p, s) && x in p
    ensures x.event.kind.IsLifecycle() && x.event.sub == s
  {
  }

  lemma ObserveSound(p: seq<Slot>, e: Event, now: Instant, config: Config, s: Sub)
    requires Sound(p, s) && e.kind.IsLifecycle() && e.sub == s
    ensures Sound(Observe(p, e, now, config), s)
  {
    hide Sound, Without, SlotFor;
    if !Holds(p, e.key) {
      forall y | y in p ensures y.event.key != e.key {
        var i :| 0 <= i < |p| && p[i] == y;
      }
      SoundSnoc(p, Slot(now, Deadline(now, now, config), e), s);
    } else {
      var held := SlotFor(p, e.key);
      SoundAt(p, s, held);
      WithoutSound(p, e.key, s);
      WithoutElements(p, e.key);
      match Merge(held.event, e)
      case None => assert Without(p, e.key) + [] == Without(p, e.key);
      case Some(merged) =>
        assert merged.key == e.key && merged.sub == s && merged.kind.IsLifecycle();
        SoundSnoc(Without(p, e.key), Slot(held.firstSeen, Deadline(held.firstSeen, now, config), merged), s);
    }
  }

  lemma {:induction false} RunSound(log: seq<Op>, s: Sub)
    requires AllDispatched(log)
    ensures Sound(Run(log, s).pending, s)
  {
    if log != [] {
      var log0, op := log[..|log| - 1], log[|log| - 1];
      RunSound(log0, s);
      var p := Run(log0, s).pending;
      match op {
        case Settling(e, now, config) => if e.sub == s { ObserveSound(p, e, now, config, s); }
        case Drain(now) => SiftSound(p, now, false, s);
        case _ =>
      }
    }
  }
}
