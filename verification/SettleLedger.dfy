/** The ledger of admissions: what became of every event that was ever admitted.

    An admission is named by its position in the log. Beside each pending slot, each event owed
    and each event emitted, the ledger keeps the group of admissions folded into it.
 */
module SettleLedger {
  import opened Events
  import opened Settle

  type Group = seq<nat>

  datatype Ledger = Ledger(
    held: seq<Group>,
    queue: seq<Group>,
    out: seq<Group>,
    cancelled: seq<Group>,
    shed: seq<Group>,
    dropped: seq<Group>)

  predicate Aligned(l: Ledger, st: State) {
    |l.held| == |st.pending| && |l.queue| == |st.ready| && |l.out| == |st.emitted|
  }

  // The list operations, applied to the groups beside the slots.

  function GroupFor(p: seq<Slot>, h: seq<Group>, key: Key): Group
    requires |p| == |h| && Holds(p, key)
  {
    if p[|p| - 1].event.key == key then h[|h| - 1] else GroupFor(p[..|p| - 1], h[..|h| - 1], key)
  }

  function WithoutGroup(p: seq<Slot>, h: seq<Group>, key: Key): (r: seq<Group>)
    requires |p| == |h|
    ensures |r| == |Without(p, key)|
  {
    if p == [] then []
    else
      WithoutGroup(p[..|p| - 1], h[..|h| - 1], key) + if p[|p| - 1].event.key == key then [] else [h[|h| - 1]]
  }

  function SiftGroups(p: seq<Slot>, h: seq<Group>, now: Instant, due: bool): (r: seq<Group>)
    requires |p| == |h|
    ensures |r| == |Sift(p, now, due)|
  {
    if p == [] then []
    else
      SiftGroups(p[..|p| - 1], h[..|h| - 1], now, due) +
      if (p[|p| - 1].emitAt <= now) == due then [h[|h| - 1]] else []
  }

  function Enter(l: Ledger, st: State, op: Op, s: Sub, id: nat): (l': Ledger)
    requires Aligned(l, st)
    ensures Aligned(l', Step(st, op, s))
  {
    match op
    case Settling(e, now, config) =>
      if e.sub != s then l
      else if !Holds(st.pending, e.key) then l.(held := l.held + [[id]])
      else
        var group := GroupFor(st.pending, l.held, e.key) + [id];
        var rest := WithoutGroup(st.pending, l.held, e.key);
        if Merge(SlotFor(st.pending, e.key).event, e).None?
        then l.(held := rest, cancelled := l.cancelled + [group])
        else l.(held := rest + [group])
    case Passing(e, now) => if e.sub != s then l else l.(queue := l.queue + [[id]])
    case Shedding(e, now) => if e.sub != s then l else l.(shed := l.shed + [[id]])
    case Signal(e, now) => if e.sub != s then l else l.(held := [], queue := l.queue + l.held + [[id]])
    case FlushOne(t, now) => if t != s then l else l.(held := [], queue := l.queue + l.held)
    case Drain(now) =>
      l.(held := SiftGroups(st.pending, l.held, now, false),
         queue := [],
         out := l.out + l.queue + SiftGroups(st.pending, l.held, now, true))
    case FlushAll => l.(held := [], queue := [], out := l.out + l.queue + l.held)
    case Drop(t) => if t != s then l else l.(held := [], queue := [], dropped := l.dropped + l.queue + l.held)
  }

  function Account(log: seq<Op>, s: Sub): (l: Ledger)
    ensures Aligned(l, Run(log, s))
  {
    if log == [] then Ledger([], [], [], [], [], [])
    else
      var log0 := log[..|log| - 1];
      Enter(Account(log0, s), Run(log0, s), log[|log| - 1], s, |log| - 1)
  }

  // ---------------------------------------------------------------- every admission, exactly once

  function Times(g: Group, id: nat): nat {
    if g == [] then 0 else Times(g[..|g| - 1], id) + if g[|g| - 1] == id then 1 else 0
  }

  lemma TimesSnoc(g: Group, x: nat, id: nat)
    ensures Times(g + [x], id) == Times(g, id) + if x == id then 1 else 0
  {
  }

  lemma {:induction false} TimesMember(g: Group, id: nat)
    requires Times(g, id) > 0
    ensures id in g
  {
    if g[|g| - 1] != id { TimesMember(g[..|g| - 1], id); }
  }

  /** How often `id` occurs in the groups. */
  function Count(groups: seq<Group>, id: nat): nat {
    if groups == [] then 0 else Count(groups[..|groups| - 1], id) + Times(groups[|groups| - 1], id)
  }

  lemma CountSnoc(groups: seq<Group>, g: Group, id: nat)
    ensures Count(groups + [g], id) == Count(groups, id) + Times(g, id)
  {
  }

  lemma CountOne(groups: seq<Group>, x: nat, id: nat)
    ensures Count(groups + [[x]], id) == Count(groups, id) + if x == id then 1 else 0
  {
    CountSnoc(groups, [x], id);
    assert [x][..0] == [];
  }

  lemma {:induction false} CountConcat(a: seq<Group>, b: seq<Group>, id: nat)
    ensures Count(a + b, id) == Count(a, id) + Count(b, id)
  {
    if b == [] {
      assert a + b == a;
    } else {
      var b0, g := b[..|b| - 1], b[|b| - 1];
      CountConcat(a, b0, id);
      assert a + b == (a + b0) + [g];
      CountSnoc(a + b0, g, id);
    }
  }

  lemma {:induction false} WithoutAbsent(p: seq<Slot>, h: seq<Group>, key: Key, id: nat)
    requires |p| == |h| && !Holds(p, key)
    ensures Count(WithoutGroup(p, h, key), id) == Count(h, id)
  {
    hide Without, Times;
    if p != [] {
      hide Holds;
      var p0, h0 := p[..|p| - 1], h[..|h| - 1];
      HoldsInit(p, key);
      WithoutAbsent(p0, h0, key, id);
      CountSnoc(WithoutGroup(p0, h0, key), h[|h| - 1], id);
    }
  }

  lemma {:induction false} WithoutCount(p: seq<Slot>, h: seq<Group>, key: Key, s: Sub, id: nat)
    requires |p| == |h| && Sound(p, s) && Holds(p, key)
    ensures Count(WithoutGroup(p, h, key), id) + Times(GroupFor(p, h, key), id) == Count(h, id)
  {
    hide Without, Times;
    var p0, h0 := p[..|p| - 1], h[..|h| - 1];
    if p[|p| - 1].event.key == key {
      assert !Holds(p0, key);
      WithoutAbsent(p0, h0, key, id);
      CountConcat(WithoutGroup(p0, h0, key), [], id);
    } else {
      HoldsInit(p, key);
      hide Holds;
      WithoutCount(p0, h0, key, s, id);
      CountSnoc(WithoutGroup(p0, h0, key), h[|h| - 1], id);
    }
  }

  lemma {:induction false} SiftCount(p: seq<Slot>, h: seq<Group>, now: Instant, id: nat)
    requires |p| == |h|
    ensures Count(SiftGroups(p, h, now, true), id) + Count(SiftGroups(p, h, now, false), id) == Count(h, id)
  {
    if p != [] {
      var p0, h0 := p[..|p| - 1], h[..|h| - 1];
      var due := p[|p| - 1].emitAt <= now;
      SiftCount(p0, h0, now, id);
      CountSnoc(SiftGroups(p0, h0, now, due), h[|h| - 1], id);
      assert SiftGroups(p, h, now, due) == SiftGroups(p0, h0, now, due) + [h[|h| - 1]];
      assert SiftGroups(p, h, now, !due) == SiftGroups(p0, h0, now, !due);
    }
  }

  /** How often `id` occurs in all six classes together. */
  function Tally(l: Ledger, id: nat): nat {
    Count(l.held, id) + Count(l.queue, id) + Count(l.out, id) +
    Count(l.cancelled, id) + Count(l.shed, id) + Count(l.dropped, id)
  }

  lemma SettlingTally(l: Ledger, st: State, e: Event, now: Instant, config: Config, s: Sub, id: nat, i: nat)
    requires Aligned(l, st) && Sound(st.pending, s) && e.sub == s
    ensures Tally(Enter(l, st, Settling(e, now, config), s, id), i) == Tally(l, i) + if i == id then 1 else 0
  {
    hide Count, Times, SlotFor, Without, GroupFor, WithoutGroup, Sound, Merge;
    if !Holds(st.pending, e.key) {
      CountOne(l.held, id, i);
    } else {
      var group := GroupFor(st.pending, l.held, e.key);
      WithoutCount(st.pending, l.held, e.key, s, i);
      TimesSnoc(group, id, i);
      CountSnoc(WithoutGroup(st.pending, l.held, e.key), group + [id], i);
      CountSnoc(l.cancelled, group + [id], i);
    }
  }

  lemma CountNone(id: nat)
    ensures Count([], id) == 0
  {
  }

  lemma EnterTally(l: Ledger, st: State, op: Op, s: Sub, id: nat, i: nat)
    requires Aligned(l, st) && Sound(st.pending, s)
    ensures Tally(Enter(l, st, op, s, id), i) == Tally(l, i) + if op.Admits(s) && i == id then 1 else 0
  {
    hide Count, Times, Sound, Sift, Observe, SiftGroups, GroupFor, WithoutGroup;
    match op {
      case Settling(e, now, config) =>
        if e.sub == s { SettlingTally(l, st, e, now, config, s, id, i); }
      case Passing(e, now) => CountOne(l.queue, id, i);
      case Shedding(e, now) => CountOne(l.shed, id, i);
      case Signal(e, now) =>
        CountConcat(l.queue, l.held, i);
        CountOne(l.queue + l.held, id, i);
      case FlushOne(t, now) => CountConcat(l.queue, l.held, i);
      case Drain(now) =>
        SiftCount(st.pending, l.held, now, i);
        CountConcat(l.out, l.queue, i);
        CountConcat(l.out + l.queue, SiftGroups(st.pending, l.held, now, true), i);
      case FlushAll =>
        CountConcat(l.out, l.queue, i);
        CountConcat(l.out + l.queue, l.held, i);
      case Drop(t) =>
        CountConcat(l.dropped, l.queue, i);
        CountConcat(l.dropped + l.queue, l.held, i);
    }
    CountNone(i);
  }

  lemma NothingTallied(id: nat)
    ensures Tally(Ledger([], [], [], [], [], []), id) == 0
  {
  }

  /** Main result: over every run, each admission of `s` is in exactly one group of exactly one
      class (pending, owed, emitted, cancelled, shed or dropped), and nothing else is. */
  lemma {:induction false} EveryAdmissionOnce(log: seq<Op>, s: Sub, id: nat)
    requires AllDispatched(log)
    ensures Tally(Account(log, s), id) == if id < |log| && log[id].Admits(s) then 1 else 0
  {
    hide Tally, Enter, Run;
    if log != [] {
      var log0, op := log[..|log| - 1], log[|log| - 1];
      EveryAdmissionOnce(log0, s, id);
      RunSound(log0, s);
      EnterTally(Account(log0, s), Run(log0, s), op, s, |log0|, id);
    } else {
      NothingTallied(id);
    }
  }

  // ---------------------------------------------------------------- what each group folded into

  /** The collapse table run over a group, oldest first. */
  function Fold(log: seq<Op>, g: Group): Option<Event>
    requires forall i :: 0 <= i < |g| ==> g[i] < |log| && (log[g[i]].Settling? || log[g[i]].Passing? || log[g[i]].Signal?)
  {
    if g == [] then None
    else if |g| == 1 then Some(log[g[0]].e)
    else
      match Fold(log, g[..|g| - 1])
      case None => None
      case Some(b) => Merge(b, log[g[|g| - 1]].e)
  }

  /** A group is a burst: admissions of `s` in log order; if there are several, all of them are
      settling changes to one key. */
  ghost predicate Burst(log: seq<Op>, g: Group, s: Sub) {
    && |g| > 0
    && (forall i :: 0 <= i < |g| ==> g[i] < |log| && log[g[i]].Admits(s) && !log[g[i]].Shedding?)
    && (forall i, j :: 0 <= i < j < |g| ==> g[i] < g[j])
    && (|g| > 1 ==> forall i :: 0 <= i < |g| ==> log[g[i]].Settling? && log[g[i]].e.key == log[g[0]].e.key)
  }

  ghost predicate Explains(log: seq<Op>, g: Group, e: Event, s: Sub) {
    Burst(log, g, s) && Fold(log, g) == Some(e)
  }

  /** `at` is the earlier of two instants: a quiet window after the newest change of a burst, and a maximum hold
      after its first; the windows are those of the newest change's policy. */
  predicate DueAt(at: Instant, first: Op, newest: Op)
    requires first.Settling? && newest.Settling?
  {
    var quiet, cap := newest.now + newest.config.quietWindow, first.now + newest.config.maxHold;
    at <= quiet && at <= cap && (at == quiet || at == cap)
  }

  /** A pending slot is its burst's fold; its hold is measured from the burst's first event and its quiet
      window from the newest. */
  ghost predicate Opened(log: seq<Op>, g: Group, x: Slot, s: Sub) {
    && Explains(log, g, x.event, s)
    && (forall i :: 0 <= i < |g| ==> log[g[i]].Settling? && log[g[i]].e.key == x.event.key)
    && x.firstSeen == log[g[0]].now
    && DueAt(x.emitAt, log[g[0]], log[g[|g| - 1]])
  }

  /** A cancelled group: a burst that had become a creation, and the removal that met it. */
  ghost predicate Annihilated(log: seq<Op>, g: Group, s: Sub) {
    && |g| > 1 && Burst(log, g, s) && Fold(log, g) == None
    && Fold(log, g[..|g| - 1]).Some? && Fold(log, g[..|g| - 1]).value.kind.Created?
    && log[g[|g| - 1]].e.kind.Removed?
  }

  /** A dropped group: a burst that still stood for one event. */
  ghost predicate Standing(log: seq<Op>, g: Group, s: Sub) {
    Burst(log, g, s) && Fold(log, g).Some?
  }

  ghost predicate Explained(log: seq<Op>, l: Ledger, st: State, s: Sub)
    requires Aligned(l, st)
  {
    && (forall i :: 0 <= i < |l.held| ==> Opened(log, l.held[i], st.pending[i], s))
    && (forall i :: 0 <= i < |l.queue| ==> Explains(log, l.queue[i], st.ready[i], s))
    && (forall i :: 0 <= i < |l.out| ==> Explains(log, l.out[i], st.emitted[i], s))
    && (forall i :: 0 <= i < |l.cancelled| ==> Annihilated(log, l.cancelled[i], s))
    && (forall i :: 0 <= i < |l.shed| ==> |l.shed[i]| == 1 && l.shed[i][0] < |log| && log[l.shed[i][0]].Shedding?)
    && (forall i :: 0 <= i < |l.dropped| ==> Standing(log, l.dropped[i], s))
  }

  /** Reading the log further back does not depend on what was appended. */
  lemma {:induction false} FoldStable(log: seq<Op>, op: Op, g: Group, s: Sub)
    requires Burst(log, g, s)
    ensures Burst(log + [op], g, s)
    ensures Fold(log + [op], g) == Fold(log, g)
  {
    assert forall i :: 0 <= i < |g| ==> (log + [op])[g[i]] == log[g[i]];
    if |g| > 1 {
      var g0 := g[..|g| - 1];
      assert Burst(log, g0, s);
      FoldStable(log, op, g0, s);
    }
  }

  lemma ExplainedStable(log: seq<Op>, op: Op, l: Ledger, st: State, s: Sub)
    requires Aligned(l, st) && Explained(log, l, st, s)
    ensures Explained(log + [op], l, st, s)
  {
    hide DueAt;
    forall i | 0 <= i < |l.held| ensures Opened(log + [op], l.held[i], st.pending[i], s) {
      FoldStable(log, op, l.held[i], s);
    }
    forall i | 0 <= i < |l.queue| ensures Explains(log + [op], l.queue[i], st.ready[i], s) {
      FoldStable(log, op, l.queue[i], s);
    }
    forall i | 0 <= i < |l.out| ensures Explains(log + [op], l.out[i], st.emitted[i], s) {
      FoldStable(log, op, l.out[i], s);
    }
    forall i | 0 <= i < |l.dropped| ensures Standing(log + [op], l.dropped[i], s) {
      FoldStable(log, op, l.dropped[i], s);
    }
    forall i | 0 <= i < |l.cancelled| ensures Annihilated(log + [op], l.cancelled[i], s) {
      var g := l.cancelled[i];
      FoldStable(log, op, g, s);
      assert Burst(log, g[..|g| - 1], s);
      FoldStable(log, op, g[..|g| - 1], s);
    }
  }

  /** Taking slots out of the list takes their own groups with them. */
  lemma {:induction false} WithoutPairs(log: seq<Op>, p: seq<Slot>, h: seq<Group>, key: Key, s: Sub)
    requires |p| == |h| && forall i :: 0 <= i < |p| ==> Opened(log, h[i], p[i], s)
    ensures forall i :: 0 <= i < |Without(p, key)| ==> Opened(log, WithoutGroup(p, h, key)[i], Without(p, key)[i], s)
    ensures Holds(p, key) ==> Opened(log, GroupFor(p, h, key), SlotFor(p, key), s)
  {
    if p != [] {
      WithoutPairs(log, p[..|p| - 1], h[..|h| - 1], key, s);
      assert forall i :: 0 <= i < |p| - 1 ==> p[..|p| - 1][i] == p[i];
    }
  }

  lemma {:induction false} SiftPairs(log: seq<Op>, p: seq<Slot>, h: seq<Group>, now: Instant, due: bool, s: Sub)
    requires |p| == |h| && forall i :: 0 <= i < |p| ==> Opened(log, h[i], p[i], s)
    ensures forall i :: 0 <= i < |Sift(p, now, due)| ==>
              Opened(log, SiftGroups(p, h, now, due)[i], Sift(p, now, due)[i], s)
  {
    if p != [] {
      SiftPairs(log, p[..|p| - 1], h[..|h| - 1], now, due, s);
    }
  }

  /** Growing a pending burst by the newest admission. */
  lemma GrowBurst(log: seq<Op>, g: Group, x: Slot, id: nat, s: Sub)
    requires Opened(log, g, x, s)
    requires id < |log| && log[id].Settling? && log[id].e.sub == s && log[id].e.key == x.event.key
    requires forall i :: 0 <= i < |g| ==> g[i] < id
    ensures Burst(log, g + [id], s)
    ensures Fold(log, g + [id]) == Merge(x.event, log[id].e)
    ensures (g + [id])[..|g|] == g && |g| > 0 && Fold(log, g) == Some(x.event)
    ensures forall i :: 0 <= i < |g| + 1 ==> log[(g + [id])[i]].Settling? && log[(g + [id])[i]].e.key == x.event.key
    ensures log[(g + [id])[0]].now == x.firstSeen
  {
  }

  /** The deadline a slot is filed under falls due when a burst from `first` to `newest` should. */
  lemma DeadlineIsDue(first: Op, newest: Op)
    requires first.Settling? && newest.Settling?
    ensures DueAt(Deadline(first.now, newest.now, newest.config), first, newest)
  {
  }

  /** The pending list and its groups after one settling change. */
  lemma SettlingOpened(log: seq<Op>, l: Ledger, st: State, e: Event, now: Instant, config: Config, s: Sub)
    requires Aligned(l, st) && e.sub == s && e.kind.IsLifecycle()
    requires forall i :: 0 <= i < |l.held| ==> Opened(log + [Settling(e, now, config)], l.held[i], st.pending[i], s)
    requires forall i, j :: 0 <= i < |l.held| && 0 <= j < |l.held[i]| ==> l.held[i][j] < |log|
    requires Holds(st.pending, e.key)
    ensures
      var op := Settling(e, now, config);
      var g := GroupFor(st.pending, l.held, e.key) + [|log|];
      var x := SlotFor(st.pending, e.key);
      var log' := log + [op];
      && (Merge(x.event, e).None? ==> Annihilated(log', g, s))
      && (Merge(x.event, e).Some? ==>
            Opened(log', g, Slot(x.firstSeen, Deadline(x.firstSeen, now, config), Merge(x.event, e).value), s))
  {
    hide Burst, Holds, SlotFor, GroupFor, Without, WithoutGroup, Deadline;
    var op := Settling(e, now, config);
    var log' := log + [op];
    var g, x := GroupFor(st.pending, l.held, e.key), SlotFor(st.pending, e.key);
    WithoutPairs(log', st.pending, l.held, e.key, s);
    GroupIsHeld(st.pending, l.held, e.key);
    assert log'[|log|] == op;
    GrowBurst(log', g, x, |log|, s);
    DeadlineIsDue(log'[g[0]], op);
    hide Fold;
    assert Merge(x.event, e).Some? ==> Merge(x.event, e).value.key == e.key;
  }

  lemma {:induction false} GroupIsHeld(p: seq<Slot>, h: seq<Group>, key: Key)
    requires |p| == |h| && Holds(p, key)
    ensures GroupFor(p, h, key) in h
  {
    if p[|p| - 1].event.key != key {
      GroupIsHeld(p[..|p| - 1], h[..|h| - 1], key);
    }
  }

  lemma FreshOpened(log: seq<Op>, op: Op, s: Sub)
    requires op.Settling? && op.e.sub == s
    ensures Opened(log + [op], [|log|], Slot(op.now, Deadline(op.now, op.now, op.config), op.e), s)
  {
  }

  lemma HeldBefore(log: seq<Op>, l: Ledger, st: State, s: Sub)
    requires Aligned(l, st) && Explained(log, l, st, s)
    ensures forall i, j :: 0 <= i < |l.held| && 0 <= j < |l.held[i]| ==> l.held[i][j] < |log|
  {
  }

  /** Only the pending list and its groups changed. */
  lemma HeldExplained(log: seq<Op>, l: Ledger, l': Ledger, st: State, st': State, s: Sub)
    requires Aligned(l, st) && Explained(log, l, st, s)
    requires l' == l.(held := l'.held, cancelled := l'.cancelled) && st' == st.(pending := st'.pending, admitted := st'.admitted)
    requires Aligned(l', st') && forall i :: 0 <= i < |l'.held| ==> Opened(log, l'.held[i], st'.pending[i], s)
    requires |l.cancelled| <= |l'.cancelled| <= |l.cancelled| + 1 && l'.cancelled[..|l.cancelled|] == l.cancelled
    requires |l'.cancelled| > |l.cancelled| ==> Annihilated(log, l'.cancelled[|l.cancelled|], s)
    ensures Explained(log, l', st', s)
  {
    hide Opened, Explains, Annihilated, Standing;
    forall i | 0 <= i < |l'.cancelled| ensures Annihilated(log, l'.cancelled[i], s) {
      if i < |l.cancelled| { assert l'.cancelled[i] == l.cancelled[i]; }
    }
  }

  lemma SettlingExplained(log: seq<Op>, l: Ledger, st: State, e: Event, now: Instant, config: Config, s: Sub)
    requires Aligned(l, st) && e.sub == s && e.kind.IsLifecycle()
    requires Explained(log, l, st, s)
    ensures
      var op := Settling(e, now, config);
      Explained(log + [op], Enter(l, st, op, s, |log|), Step(st, op, s), s)
  {
    hide Fold, Burst, Deadline, Explains, Annihilated, Opened, Standing;
    var op := Settling(e, now, config);
    var log', l', st' := log + [op], Enter(l, st, op, s, |log|), Step(st, op, s);
    ExplainedStable(log, op, l, st, s);
    if !Holds(st.pending, e.key) {
      FreshOpened(log, op, s);
    } else {
      HeldBefore(log, l, st, s);
      WithoutPairs(log', st.pending, l.held, e.key, s);
      SettlingOpened(log, l, st, e, now, config, s);
    }
    HeldExplained(log', l, l', st, st', s);
  }

  lemma DrainExplained(log: seq<Op>, l: Ledger, st: State, now: Instant, s: Sub)
    requires Aligned(l, st) && Explained(log, l, st, s)
    ensures forall id :: Explained(log, Enter(l, st, Drain(now), s, id), Step(st, Drain(now), s), s)
  {
    hide Explains, Annihilated, Sift, SiftGroups;
    SiftPairs(log, st.pending, l.held, now, true, s);
    SiftPairs(log, st.pending, l.held, now, false, s);
  }

  /** An admission on its own is its own burst. */
  lemma SingleBurst(log: seq<Op>, op: Op, s: Sub)
    requires op.Admits(s) && !op.Shedding?
    ensures Explains(log + [op], [|log|], op.e, s)
  {
  }

  /** Whatever is pending or owed stands for its event. */
  lemma OpenedStands(log: seq<Op>, l: Ledger, st: State, s: Sub)
    requires Aligned(l, st) && Explained(log, l, st, s)
    ensures forall i :: 0 <= i < |l.held| ==> Explains(log, l.held[i], st.pending[i].event, s) && Standing(log, l.held[i], s)
    ensures forall i :: 0 <= i < |l.queue| ==> Standing(log, l.queue[i], s)
  {
    hide Burst, Fold, Annihilated;
    forall i | 0 <= i < |l.held| ensures Explains(log, l.held[i], st.pending[i].event, s) {
      assert Opened(log, l.held[i], st.pending[i], s);
    }
    forall i | 0 <= i < |l.queue| ensures Standing(log, l.queue[i], s) {
      assert Explains(log, l.queue[i], st.ready[i], s);
    }
  }

  lemma QueueExplained(log: seq<Op>, l: Ledger, st: State, op: Op, s: Sub)
    requires Aligned(l, st) && Explained(log + [op], l, st, s)
    requires op.Passing? || op.Signal? || op.FlushOne?
    ensures Explained(log + [op], Enter(l, st, op, s, |log|), Step(st, op, s), s)
  {
    hide Explains, Annihilated, Opened;
    OpenedStands(log + [op], l, st, s);
    if op.Admits(s) { SingleBurst(log, op, s); }
  }

  lemma LeaveExplained(log: seq<Op>, l: Ledger, st: State, op: Op, s: Sub)
    requires Aligned(l, st) && Explained(log + [op], l, st, s)
    requires op.Shedding? || op.FlushAll? || op.Drop?
    ensures Explained(log + [op], Enter(l, st, op, s, |log|), Step(st, op, s), s)
  {
    hide Burst, Fold, Opened, Annihilated;
    OpenedStands(log + [op], l, st, s);
  }

  lemma EnterExplained(log: seq<Op>, l: Ledger, st: State, op: Op, s: Sub)
    requires Aligned(l, st) && Dispatched(op) && Explained(log, l, st, s)
    ensures Explained(log + [op], Enter(l, st, op, s, |log|), Step(st, op, s), s)
  {
    ExplainedStable(log, op, l, st, s);
    if op.Settling? {
      if op.e.sub == s { SettlingExplained(log, l, st, op.e, op.now, op.config, s); }
    } else if op.Drain? {
      hide Enter, Step, Explained;
      DrainExplained(log + [op], l, st, op.now, s);
    } else if op.Passing? || op.Signal? || op.FlushOne? {
      hide Enter, Step, Explained;
      QueueExplained(log, l, st, op, s);
    } else {
      hide Enter, Step, Explained;
      LeaveExplained(log, l, st, op, s);
    }
  }

  /** Main result: over every run, whatever is pending, owed or emitted is the collapse-table fold
      of its own group of admissions, oldest first; the groups are bursts at one key; a slot's hold
      is measured from its first admission; and the only groups that vanish are creations met by
      a removal. */
  lemma {:induction false} EverythingIsExplained(log: seq<Op>, s: Sub)
    requires AllDispatched(log)
    ensures Explained(log, Account(log, s), Run(log, s), s)
  {
    if log != [] {
      var log0, op := log[..|log| - 1], log[|log| - 1];
      EverythingIsExplained(log0, s);
      RunSound(log0, s);
      EnterExplained(log0, Account(log0, s), Run(log0, s), op, s);
      assert log0 + [op] == log;
    }
  }

  // ---------------------------------------------------------------- signals

  lemma {:induction false} CountMember(groups: seq<Group>, id: nat)
    requires Count(groups, id) > 0
    ensures exists i :: 0 <= i < |groups| && id in groups[i]
  {
    var last := groups[|groups| - 1];
    if Times(last, id) > 0 {
      TimesMember(last, id);
    } else {
      CountMember(groups[..|groups| - 1], id);
      var i :| 0 <= i < |groups| - 1 && id in groups[..|groups| - 1][i];
      assert id in groups[i];
    }
  }

  lemma CountAbsent(groups: seq<Group>, id: nat)
    requires forall i :: 0 <= i < |groups| ==> id !in groups[i]
    ensures Count(groups, id) == 0
  {
    if Count(groups, id) > 0 { CountMember(groups, id); }
  }

  lemma WholeGroup(log: seq<Op>, g: Group, e: Event, s: Sub, id: nat)
    requires Explains(log, g, e, s) && id in g && id < |log| && log[id].Signal?
    ensures g == [id] && e == log[id].e
  {
  }

  /** A signal is in no class but queued, emitted or dropped. */
  lemma SignalClasses(log: seq<Op>, l: Ledger, st: State, s: Sub, id: nat)
    requires id < |log| && log[id].Signal? && Aligned(l, st) && Explained(log, l, st, s)
    ensures Count(l.held, id) == 0 && Count(l.cancelled, id) == 0 && Count(l.shed, id) == 0
  {
    forall i | 0 <= i < |l.held| ensures id !in l.held[i] {
      assert Opened(log, l.held[i], st.pending[i], s);
    }
    forall i | 0 <= i < |l.cancelled| ensures id !in l.cancelled[i] {
      assert Annihilated(log, l.cancelled[i], s);
    }
    CountAbsent(l.held, id);
    CountAbsent(l.cancelled, id);
    CountAbsent(l.shed, id);
  }

  /** Main result: a move or rescan is never folded, cancelled or held back: it is queued or emitted
      whole, on its own and exactly once, unless its subscription was dropped. */
  lemma SignalsStayWhole(log: seq<Op>, s: Sub, id: nat)
    requires AllDispatched(log) && id < |log| && log[id].Signal? && log[id].e.sub == s
    ensures
      var l, st := Account(log, s), Run(log, s);
      && Count(l.out, id) + Count(l.queue, id) + Count(l.dropped, id) == 1
      && (Count(l.out, id) > 0 ==> exists i :: 0 <= i < |l.out| && l.out[i] == [id] && st.emitted[i] == log[id].e)
      && (Count(l.queue, id) > 0 ==> exists i :: 0 <= i < |l.queue| && l.queue[i] == [id] && st.ready[i] == log[id].e)
  {
    hide Run, Account, Count, Explains, Opened, Annihilated;
    var l, st := Account(log, s), Run(log, s);
    EveryAdmissionOnce(log, s, id);
    EverythingIsExplained(log, s);
    SignalClasses(log, l, st, s, id);
    if Count(l.out, id) > 0 {
      CountMember(l.out, id);
      var i :| 0 <= i < |l.out| && id in l.out[i];
      WholeGroup(log, l.out[i], st.emitted[i], s, id);
    }
    if Count(l.queue, id) > 0 {
      CountMember(l.queue, id);
      var i :| 0 <= i < |l.queue| && id in l.queue[i];
      WholeGroup(log, l.queue[i], st.ready[i], s, id);
    }
  }
}
