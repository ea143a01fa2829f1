/** The coalescer's tables as one value: what makes them consistent, when they show the state the
    simple machine has reached, and why each operation keeps both.
 */
module CoalescerTables {
  import opened Events
  import opened Settle
  import opened SettleMeaning
  import opened SettleEpochs
  import opened SettleOrder
  import opened Ordering
  import opened BufferView
  import Ledger = SettleLedger
  import Bursts = SettleBursts

  const DEFAULT_MAX_BUFFERED: nat := 1024

  function PolicyOf(policies: map<Sub, Option<Config>>, default: Option<Config>, s: Sub): Option<Config> {
    if s in policies then policies[s] else default
  }

  /** Every buffered entry keeps to its policy's hold. */
  ghost predicate WithinHold(b: Buffer, policies: map<Sub, Option<Config>>, default: Option<Config>) {
    forall k :: k in b ==>
      && PolicyOf(policies, default, k.sub).Some?
      && b[k].emitAt <= b[k].firstSeen + PolicyOf(policies, default, k.sub).value.maxHold
  }

  /** Every subscription that holds anything has a settling policy and keeps to its cap. */
  ghost predicate WithinCap(perSubLen: map<Sub, nat>, policies: map<Sub, Option<Config>>, default: Option<Config>) {
    forall s :: s in perSubLen ==>
      && PolicyOf(policies, default, s).Some?
      && perSubLen[s] <= PolicyOf(policies, default, s).value.maxBuffered
  }

  /** Taking entries out keeps every bound. */
  lemma StillWithin(b: Buffer, c: Buffer, policies: map<Sub, Option<Config>>, default: Option<Config>)
    requires WithinHold(b, policies, default)
    requires forall k :: k in c ==> k in b && c[k] == b[k]
    ensures WithinHold(c, policies, default) && |c| <= |b|
  {
    assert b.Keys == c.Keys + (b.Keys - c.Keys);
    assert |b| == |b.Keys| && |c| == |c.Keys|;
  }

  predicate TicketsClimb(ready: seq<Ticket>) {
    forall i, j :: 0 <= i < j < |ready| ==> ready[i].at <= ready[j].at
  }

  predicate TicketsBy(ready: seq<Ticket>, clock: Instant) {
    forall i :: 0 <= i < |ready| ==> ready[i].at <= clock
  }

  /** All the coalescer's mutable tables, as one value. */
  datatype Tables = Tables(
    policies: map<Sub, Option<Config>>,
    perSubLen: map<Sub, nat>,
    buffer: Buffer,
    deadlines: set<Due>,
    ready: seq<Ticket>,
    nextSeq: nat)

  function StructuralCapOf(default: Option<Config>): nat {
    if default.Some? then default.value.maxBuffered else DEFAULT_MAX_BUFFERED
  }

  /** The tables agree with each other and keep to the policies and caps. */
  ghost predicate Consistent(t: Tables, default: Option<Config>) {
    match t
    case Tables(policies, perSubLen, buffer, deadlines, ready, nextSeq) =>
      && Indexed(buffer, deadlines) && Counted(buffer, perSubLen) && Sequenced(buffer, nextSeq) && Keyed(buffer)
      && WithinHold(buffer, policies, default)
      && WithinCap(perSubLen, policies, default)
      && |buffer| <= StructuralCapOf(default)
      && TicketsClimb(ready)
  }

  /** Each subscription's share of the tables is where its run of the simple machine stands. */
  ghost predicate Shows(t: Tables, log: seq<Op>) {
    forall s :: Run(log, s).pending == Pending(t.buffer, s, t.nextSeq) && Run(log, s).ready == ReadyOf(t.ready, s)
  }

  ghost predicate Ok(t: Tables, default: Option<Config>, log: seq<Op>) {
    match t
    case Tables(policies, perSubLen, buffer, deadlines, ready, nextSeq) =>
      && Consistent(t, default)
      && TicketsBy(ready, Clock(log))
      && AllDispatched(log) && Clocked(log) && (forall s :: Lawful(log, s, StructuralCapOf(default)))
      && Shows(t, log)
  }

  // ---------------------------------------------------------------- why each operation keeps the tables right

  lemma OkConsistent(t: Tables, default: Option<Config>, log: seq<Op>)
    requires Ok(t, default, log)
    ensures Consistent(t, default) && TicketsBy(t.ready, Clock(log))
  {
  }

  lemma StartOk(default: Option<Config>)
    ensures Ok(Tables(map[], map[], map[], {}, [], 0), default, [])
  {
  }

  lemma SameShows(t: Tables, t': Tables, log: seq<Op>)
    requires Shows(t, log) && t'.buffer == t.buffer && t'.nextSeq == t.nextSeq && t'.ready == t.ready
    ensures Shows(t', log)
  {
    hide Run, Pending, ReadyOf;
  }

  lemma PolicyWithin(t: Tables, policies: map<Sub, Option<Config>>, default: Option<Config>, sub: Sub)
    requires Consistent(t, default) && sub !in t.perSubLen
    requires forall s :: s != sub ==> PolicyOf(policies, default, s) == PolicyOf(t.policies, default, s)
    ensures WithinHold(t.buffer, policies, default) && WithinCap(t.perSubLen, policies, default)
  {
    hide Indexed, Sequenced, Keyed, TicketsClimb;
  }

  lemma PolicyKeeps(t: Tables, policies: map<Sub, Option<Config>>, default: Option<Config>, log: seq<Op>, sub: Sub)
    requires Ok(t, default, log) && sub !in t.perSubLen
    requires forall s :: s != sub ==> PolicyOf(policies, default, s) == PolicyOf(t.policies, default, s)
    ensures Ok(t.(policies := policies), default, log)
  {
    hide Indexed, Sequenced, Keyed, Run, Pending, TicketsClimb, TicketsBy, Clocked, AllDispatched, Lawful, Shows;
    SameShows(t, t.(policies := policies), log);
    PolicyWithin(t, policies, default, sub);
  }

  function Stamp(es: seq<Event>, now: Instant): (ts: seq<Ticket>)
    ensures |ts| == |es|
  {
    seq(|es|, i requires 0 <= i < |es| => Ticket(now, es[i]))
  }

  /** `t'` is `t` with every entry of `sub` moved to the ready queue. */
  ghost predicate FlushedTo(t: Tables, t': Tables, default: Option<Config>, sub: Sub, now: Instant) {
    && Consistent(t', default) && TicketsBy(t'.ready, now)
    && t'.policies == t.policies && t'.nextSeq == t.nextSeq
    && (forall s :: Pending(t'.buffer, s, t.nextSeq) == if s == sub then [] else Pending(t.buffer, s, t.nextSeq))
    && (forall s :: ReadyOf(t'.ready, s) ==
                    ReadyOf(t.ready, s) + if s == sub then EventsOf(Pending(t.buffer, s, t.nextSeq)) else [])
  }

  lemma FlushedLines(b: Buffer, ps: seq<Pick>, r0: seq<Ticket>, r: seq<Ticket>, perSubLen: map<Sub, nat>, sub: Sub, n: nat)
    requires Sequenced(b, n) && Keyed(b) && Counted(b, perSubLen)
    requires Sorted(ps) && PicksOf(ps, Only(b, sub)) && |ps| == |KeysOf(b, sub)|
    requires forall x :: x in ps ==> x.slot in b
    requires TicketEvents(r) == TicketEvents(r0) + Take(b, ps)
    ensures
      var c := Rest(b, ps);
      && Sequenced(c, n) && Keyed(c) && Counted(c, perSubLen - {sub})
      && |ps| == (if sub in perSubLen then perSubLen[sub] else 0)
      && (forall s :: Pending(c, s, n) == if s == sub then [] else Pending(b, s, n))
      && (forall s :: ReadyOf(r, s) == ReadyOf(r0, s) + if s == sub then EventsOf(Pending(b, s, n)) else [])
  {
    var c := Rest(b, ps);
    RestOf(b, ps, Only(b, sub));
    PurgeCounts(b, c, sub, perSubLen);
    if sub !in perSubLen { assert KeysOf(b, sub) == {}; }
    LeftBehind(b, c, sub, sub, n);
    forall s ensures Pending(c, s, n) == if s == sub then [] else Pending(b, s, n) {
      LeftBehind(b, c, sub, s, n);
    }
    forall s ensures ReadyOf(r, s) == ReadyOf(r0, s) + if s == sub then EventsOf(Pending(b, s, n)) else [] {
      FlushedLine(b, ps, sub, s, n);
      OfSubConcat(TicketEvents(r0), Take(b, ps), s);
    }
  }

  lemma StampClimbs(ready: seq<Ticket>, es: seq<Event>, now: Instant)
    requires TicketsClimb(ready) && TicketsBy(ready, now)
    ensures TicketsClimb(ready + Stamp(es, now)) && TicketsBy(ready + Stamp(es, now), now)
    ensures TicketEvents(ready + Stamp(es, now)) == TicketEvents(ready) + es
  {
  }

  lemma DropWithinCap(perSubLen: map<Sub, nat>, sub: Sub, policies: map<Sub, Option<Config>>, default: Option<Config>)
    requires WithinCap(perSubLen, policies, default)
    ensures WithinCap(perSubLen - {sub}, policies, default)
  {
  }

  /** Taking every entry of one subscription out keeps the tables consistent. */
  lemma PurgedConsistent(t: Tables, t': Tables, ps: seq<Pick>, default: Option<Config>, sub: Sub)
    requires Consistent(t, default) && PicksOf(ps, Only(t.buffer, sub))
    requires t'.policies == t.policies && t'.nextSeq == t.nextSeq
    requires t'.buffer == Rest(t.buffer, ps) && t'.perSubLen == t.perSubLen - {sub}
    requires Indexed(t'.buffer, t'.deadlines) && TicketsClimb(t'.ready)
    ensures Consistent(t', default)
  {
    hide Indexed, Counted, WithinCap, Keyed, Sequenced, WithinHold, TicketsClimb;
    RestOf(t.buffer, ps, Only(t.buffer, sub));
    PurgeCounts(t.buffer, t'.buffer, sub, t.perSubLen);
    LeftBehind(t.buffer, t'.buffer, sub, sub, t.nextSeq);
    StillWithin(t.buffer, t'.buffer, t.policies, default);
    DropWithinCap(t.perSubLen, sub, t.policies, default);
  }

  lemma Flushed(t: Tables, t': Tables, ps: seq<Pick>, default: Option<Config>, sub: Sub, now: Instant)
    requires Consistent(t, default) && TicketsBy(t.ready, now)
    requires Sorted(ps) && PicksOf(ps, Only(t.buffer, sub)) && |ps| == |KeysOf(t.buffer, sub)|
    requires forall x :: x in ps ==> x.slot in t.buffer
    requires t' == t.(buffer := Rest(t.buffer, ps), deadlines := t'.deadlines, perSubLen := t.perSubLen - {sub},
                      ready := t.ready + Stamp(Take(t.buffer, ps), now))
    requires Indexed(t'.buffer, t'.deadlines)
    ensures FlushedTo(t, t', default, sub, now)
    ensures |ps| == if sub in t.perSubLen then t.perSubLen[sub] else 0
  {
    hide Indexed, Sequenced, Keyed, WithinHold, WithinCap, PicksOf, Only, Rest, Sorted, Counted, KeysOf, Take;
    CountExact(t, default, sub);
    StampClimbs(t.ready, Take(t.buffer, ps), now);
    FlushedLines(t.buffer, ps, t.ready, t'.ready, t.perSubLen, sub, t.nextSeq);
    PurgedConsistent(t, t', ps, default, sub);
  }

  lemma OnlyEntries(b: Buffer, sub: Sub, n: nat, ps: seq<Pick>)
    requires Sequenced(b, n) && PicksOf(ps, Only(b, sub))
    requires forall i, j :: 0 <= i < j < |ps| ==> ps[i].slot != ps[j].slot
    ensures forall i, j :: 0 <= i < j < |ps| ==> PickLess(ps[i], ps[j]) || PickLess(ps[j], ps[i])
    ensures forall x :: x in ps ==> x.slot in b
  {
  }

  lemma SortedEntries(b: Buffer, sub: Sub, ps: seq<Pick>)
    requires Sorted(ps) && PicksOf(ps, Only(b, sub))
    ensures forall i, j :: 0 <= i < j < |ps| ==> ps[i].slot != ps[j].slot
    ensures forall x :: x in ps ==> x.slot in b
  {
  }

  /** Entries collected from one buffer can be sorted by their sequence numbers. */
  lemma PicksComparable(ps: seq<Pick>, c: Buffer, n: nat)
    requires Sequenced(c, n) && PicksOf(ps, c)
    requires forall i, j :: 0 <= i < j < |ps| ==> ps[i].slot != ps[j].slot
    ensures forall i, j :: 0 <= i < j < |ps| ==> PickLess(ps[i], ps[j]) || PickLess(ps[j], ps[i])
  {
  }

  lemma FlushOneOk(t: Tables, t': Tables, default: Option<Config>, log: seq<Op>, sub: Sub, now: Instant)
    requires Ok(t, default, log) && Clock(log) <= now && FlushedTo(t, t', default, sub, now)
    ensures Ok(t', default, log + [FlushOne(sub, now)])
  {
    hide Consistent;
    var op := FlushOne(sub, now);
    Extend(log, op, StructuralCapOf(default));
    forall s
      ensures Run(log + [op], s).pending == Pending(t'.buffer, s, t'.nextSeq)
      ensures Run(log + [op], s).ready == ReadyOf(t'.ready, s)
    {
      RunSnoc(log, op, s);
    }
  }

  /** The picks of a list of slot keys, in its order. */
  function PickAll(b: Buffer, keys: seq<SlotKey>): (ps: seq<Pick>)
    requires forall i :: 0 <= i < |keys| ==> keys[i] in b
    ensures |ps| == |keys|
  {
    seq(|keys|, i requires 0 <= i < |keys| => Pick(keys[i].sub, b[keys[i]].seqNo, keys[i]))
  }

  lemma WalkBuffered(b: Buffer, walk: seq<SlotKey>)
    requires forall k :: k in walk <==> k in b
    ensures forall i :: 0 <= i < |walk| ==> walk[i] in b
  {
  }

  /** Where an ordered walk stands relative to one subscription's keys. */
  lemma ScanBounds(walk: seq<SlotKey>, from: nat, to: nat, sub: Sub)
    requires from <= to <= |walk| && SlotsAscend(walk)
    requires forall j :: 0 <= j < from ==> !SlotLeq(SlotKey(sub, []), walk[j])
    requires from < |walk| ==> SlotLeq(SlotKey(sub, []), walk[from])
    requires to < |walk| ==> walk[to].sub != sub
    ensures forall j :: 0 <= j < |walk| && walk[j].sub == sub ==> from <= j < to
    ensures forall i, j :: 0 <= i < j < |walk| ==> walk[i] != walk[j]
  {
    forall j | 0 <= j < |walk| && walk[j].sub == sub ensures from <= j < to {
      RangeStart(walk[j], sub);
      if j >= to {
        assert SlotLeq(walk[to], walk[j]) || to == j;
        assert SlotLeq(walk[from], walk[to]) || from == to;
        RangeStart(walk[from], sub);
      }
    }
  }

  lemma StretchNext(b: Buffer, walk: seq<SlotKey>, from: nat, i: nat)
    requires from <= i < |walk| && forall j :: 0 <= j < |walk| ==> walk[j] in b
    ensures PickAll(b, walk[from..i + 1]) == PickAll(b, walk[from..i]) + [Pick(walk[i].sub, b[walk[i]].seqNo, walk[i])]
  {
  }

  /** A stretch of a walk that holds every key of `sub` and no other lists exactly its entries. */
  lemma StretchPicks(b: Buffer, walk: seq<SlotKey>, from: nat, to: nat, sub: Sub)
    requires from <= to <= |walk| && (forall k :: k in walk <==> k in b)
    requires forall j :: 0 <= j < |walk| ==> walk[j] in b && (walk[j].sub == sub <==> from <= j < to)
    ensures PicksOf(PickAll(b, walk[from..to]), Only(b, sub))
  {
    var ps := PickAll(b, walk[from..to]);
    assert forall i :: 0 <= i < |ps| ==> ps[i] == Pick(sub, b[walk[from + i]].seqNo, walk[from + i]);
    forall k | k in Only(b, sub) ensures Pick(k.sub, b[k].seqNo, k) in ps {
      assert k in walk;
      var j :| 0 <= j < |walk| && walk[j] == k;
      assert ps[j - from] == Pick(k.sub, b[k].seqNo, k);
    }
  }

  lemma StretchSlots(b: Buffer, walk: seq<SlotKey>, from: nat, to: nat)
    requires from <= to <= |walk| && forall j :: 0 <= j < |walk| ==> walk[j] in b
    requires forall i, j :: 0 <= i < j < |walk| ==> walk[i] != walk[j]
    ensures
      var ps := PickAll(b, walk[from..to]);
      forall i, j :: 0 <= i < j < |ps| ==> ps[i].slot != ps[j].slot
  {
    var ps := PickAll(b, walk[from..to]);
    assert forall i :: 0 <= i < |ps| ==> ps[i].slot == walk[from + i];
  }

  /** A scan that starts at the first key at or after `(sub, [])` and stops at the first key of
      another subscription has met every entry of `sub` and nothing else. */
  lemma ScanExact(b: Buffer, walk: seq<SlotKey>, from: nat, to: nat, sub: Sub)
    requires from <= to <= |walk| && (forall k :: k in walk <==> k in b) && SlotsAscend(walk)
    requires forall j :: 0 <= j < from ==> !SlotLeq(SlotKey(sub, []), walk[j])
    requires from < |walk| ==> SlotLeq(SlotKey(sub, []), walk[from])
    requires forall j :: from <= j < to ==> walk[j].sub == sub
    requires to < |walk| ==> walk[to].sub != sub
    ensures forall i :: 0 <= i < to - from ==> walk[from..to][i] in b
    ensures
      var ps := PickAll(b, walk[from..to]);
      && PicksOf(ps, Only(b, sub))
      && (forall i, j :: 0 <= i < j < |ps| ==> ps[i].slot != ps[j].slot)
      && |ps| == |KeysOf(b, sub)|
  {
    hide SlotLeq, SlotsAscend, KeysOf, PicksOf, Only, PickAll;
    WalkBuffered(b, walk);
    ScanBounds(walk, from, to, sub);
    StretchPicks(b, walk, from, to, sub);
    StretchSlots(b, walk, from, to);
    EntriesCount(PickAll(b, walk[from..to]), b, sub);
  }

  /** Appending one ticket stamped `now` to a queue that is due by `now`. */
  lemma PushClimbs(ready: seq<Ticket>, e: Event, now: Instant)
    requires TicketsClimb(ready) && TicketsBy(ready, now)
    ensures TicketsClimb(ready + [Ticket(now, e)]) && TicketsBy(ready + [Ticket(now, e)], now)
    ensures forall s :: ReadyOf(ready + [Ticket(now, e)], s) == ReadyOf(ready, s) + if e.sub == s then [e] else []
  {
    forall s ensures ReadyOf(ready + [Ticket(now, e)], s) == ReadyOf(ready, s) + if e.sub == s then [e] else [] {
      ReadyOfSnoc(ready, Ticket(now, e), s);
    }
  }

  lemma SignalOk(t: Tables, t': Tables, default: Option<Config>, log: seq<Op>, e: Event, now: Instant)
    requires Ok(t, default, log) && Clock(log) <= now && !e.kind.IsLifecycle()
    requires |t'.ready| > 0 && t'.ready[|t'.ready| - 1] == Ticket(now, e)
    requires FlushedTo(t, t'.(ready := t'.ready[..|t'.ready| - 1]), default, e.sub, now)
    ensures Ok(t', default, log + [Signal(e, now)])
  {
    hide Consistent, TicketsBy, TicketsClimb, Run, Pending, ReadyOf, Lawful, AllDispatched, Clocked;
    var op, mid := Signal(e, now), t'.(ready := t'.ready[..|t'.ready| - 1]);
    assert t'.ready == mid.ready + [Ticket(now, e)];
    ConsistentClimbs(mid, default);
    PushClimbs(mid.ready, e, now);
    Requeued(mid, t'.ready, default);
    Extend(log, op, StructuralCapOf(default));
    forall s
      ensures Run(log + [op], s).pending == Pending(t'.buffer, s, t'.nextSeq)
      ensures Run(log + [op], s).ready == ReadyOf(t'.ready, s)
    {
      RunSnoc(log, op, s);
      assert ReadyOf(mid.ready, s) == ReadyOf(t.ready, s) + if s == e.sub then EventsOf(Pending(t.buffer, s, t.nextSeq)) else [];
    }
  }

  lemma PassingOk(t: Tables, default: Option<Config>, log: seq<Op>, e: Event, now: Instant)
    requires Ok(t, default, log) && Clock(log) <= now && e.kind.IsLifecycle()
    requires PolicyOf(t.policies, default, e.sub).None?
    ensures Ok(t.(ready := t.ready + [Ticket(now, e)]), default, log + [Passing(e, now)])
  {
    hide Consistent, TicketsBy, TicketsClimb, ReadyOf;
    var op, t' := Passing(e, now), t.(ready := t.ready + [Ticket(now, e)]);
    OkConsistent(t, default, log);
    UnsettledHoldsNothing(t, default, log, e.sub);
    ConsistentClimbs(t, default);
    TicketsLater(t.ready, Clock(log), now);
    PushClimbs(t.ready, e, now);
    Requeued(t, t'.ready, default);
    Extend(log, op, StructuralCapOf(default));
    forall s
      ensures Run(log + [op], s).pending == Pending(t'.buffer, s, t'.nextSeq)
      ensures Run(log + [op], s).ready == ReadyOf(t'.ready, s)
    {
      RunSnoc(log, op, s);
    }
  }

  lemma Requeued(t: Tables, ready: seq<Ticket>, default: Option<Config>)
    requires Consistent(t, default) && TicketsClimb(ready)
    ensures Consistent(t.(ready := ready), default)
  {
  }

  lemma CountExact(t: Tables, default: Option<Config>, sub: Sub)
    requires Consistent(t, default)
    ensures |KeysOf(t.buffer, sub)| == if sub in t.perSubLen then t.perSubLen[sub] else 0
  {
  }

  lemma FiledUnder(t: Tables, default: Option<Config>, key: SlotKey)
    requires Consistent(t, default) && key in t.buffer
    ensures Due(t.buffer[key].emitAt, key) in t.deadlines
  {
  }

  lemma SequencedNext(b: Buffer, n: nat)
    requires Sequenced(b, n)
    ensures Sequenced(b, n + 1)
  {
  }

  lemma SheddingOk(t: Tables, default: Option<Config>, log: seq<Op>, e: Event, now: Instant)
    requires Ok(t, default, log) && Clock(log) <= now && e.kind.IsLifecycle()
    ensures Ok(t.(nextSeq := t.nextSeq + 1), default, log + [Shedding(e, now)])
  {
    hide Run, Pending, ReadyOf, Indexed, Counted, Keyed, WithinHold, WithinCap, AllDispatched, Clocked, Lawful, TicketsBy,
         TicketsClimb;
    SequencedNext(t.buffer, t.nextSeq);
    hide Sequenced;
    var op, t' := Shedding(e, now), t.(nextSeq := t.nextSeq + 1);
    Extend(log, op, StructuralCapOf(default));
    assert TicketsBy(t'.ready, Clock(log + [op])) by { TicketsLater(t.ready, Clock(log), now); }
    forall s
      ensures Run(log + [op], s).pending == Pending(t'.buffer, s, t'.nextSeq)
      ensures Run(log + [op], s).ready == ReadyOf(t'.ready, s)
    {
      RunSnoc(log, op, s);
      PendingUnused(t.buffer, s, t.nextSeq);
    }
  }

  /** The change from one buffer to another is, for every subscription, one observed change. */
  ghost predicate Observed(b: Buffer, n: nat, b': Buffer, n': nat, e: Event, now: Instant, config: Config) {
    forall s :: Pending(b', s, n') ==
      if e.sub == s then Observe(Pending(b, s, n), e, now, config) else Pending(b, s, n)
  }

  /** A change at a key already buffered is always permitted. */
  lemma HeldPermitted(t: Tables, default: Option<Config>, log: seq<Op>, e: Event, now: Instant, config: Config)
    requires Ok(t, default, log) && SlotKey(e.sub, e.key) in t.buffer
    ensures Permitted(Run(log, e.sub), Settling(e, now, config), StructuralCapOf(default))
  {
    hide Run, Pending, Indexed, Counted, WithinHold, WithinCap;
    PendingHolds(t.buffer, SlotKey(e.sub, e.key), t.nextSeq);
  }

  lemma LineWithinBuffer(b: Buffer, s: Sub)
    ensures |KeysOf(b, s)| <= |b|
  {
    assert b.Keys == KeysOf(b, s) + (b.Keys - KeysOf(b, s));
    assert |b| == |b.Keys|;
  }

  /** A subscription's line is as long as its counter says. */
  lemma LineLength(t: Tables, default: Option<Config>, log: seq<Op>, s: Sub)
    requires Ok(t, default, log)
    ensures |Run(log, s).pending| == |KeysOf(t.buffer, s)| == (if s in t.perSubLen then t.perSubLen[s] else 0)
  {
    hide Run, Pending, Indexed, Keyed, WithinHold, WithinCap;
    CountExact(t, default, s);
    PendingSize(t.buffer, s, t.nextSeq, t.nextSeq);
    BelowAll(t.buffer, s, t.nextSeq);
  }

  /** Shared by the three ways a settling change can go: the run takes the step the tables took. */
  lemma SettlingShows(t: Tables, t': Tables, default: Option<Config>, log: seq<Op>, e: Event, now: Instant, config: Config)
    requires Ok(t, default, log) && Clock(log) <= now && e.kind.IsLifecycle()
    requires Consistent(t', default) && t'.ready == t.ready
    requires Observed(t.buffer, t.nextSeq, t'.buffer, t'.nextSeq, e, now, config)
    requires Permitted(Run(log, e.sub), Settling(e, now, config), StructuralCapOf(default))
    ensures Ok(t', default, log + [Settling(e, now, config)])
  {
    hide Consistent, Run, Pending, ReadyOf, Observe, AllDispatched, Clocked, Lawful, Permitted;
    var op := Settling(e, now, config);
    Extend(log, op, StructuralCapOf(default));
    forall s
      ensures Run(log + [op], s).pending == Pending(t'.buffer, s, t'.nextSeq)
      ensures Run(log + [op], s).ready == ReadyOf(t'.ready, s)
    {
      RunSnoc(log, op, s);
    }
  }

  /** The tables after a fresh entry. */
  function Opened(t: Tables, e: Event, now: Instant, config: Config): Tables {
    var key, entry := SlotKey(e.sub, e.key), Buffered(now, Deadline(now, now, config), t.nextSeq, e);
    t.(buffer := t.buffer[key := entry],
       deadlines := t.deadlines + {Due(entry.emitAt, key)},
       perSubLen := t.perSubLen[e.sub := (if e.sub in t.perSubLen then t.perSubLen[e.sub] else 0) + 1],
       nextSeq := t.nextSeq + 1)
  }

  lemma PutKeyed(b: Buffer, k: SlotKey, x: Buffered)
    requires Keyed(b) && x.event.sub == k.sub && x.event.key == k.path && x.event.kind.IsLifecycle()
    ensures Keyed(b[k := x])
  {
  }

  lemma PutWithinHold(b: Buffer, k: SlotKey, x: Buffered, policies: map<Sub, Option<Config>>, default: Option<Config>, config: Config)
    requires WithinHold(b, policies, default) && PolicyOf(policies, default, k.sub) == Some(config)
    requires x.emitAt <= x.firstSeen + config.maxHold
    ensures WithinHold(b[k := x], policies, default)
  {
  }

  lemma PutIndex(b: Buffer, k: SlotKey, x: Buffered, deadlines: set<Due>)
    requires Indexed(b, deadlines) && k !in b
    ensures Indexed(b[k := x], deadlines + {Due(x.emitAt, k)})
  {
  }

  lemma PutSize(b: Buffer, k: SlotKey, x: Buffered)
    ensures |b[k := x]| == |b| + if k in b then 0 else 1
  {
  }

  lemma PutSequenced(b: Buffer, k: SlotKey, x: Buffered, n: nat)
    requires Sequenced(b, n) && x.seqNo == n
    ensures Sequenced(b[k := x], n + 1)
  {
  }

  /** Every subscription's line after a fresh entry. */
  lemma FreshPending(b: Buffer, e: Event, now: Instant, config: Config, n: nat)
    requires Sequenced(b, n) && Keyed(b) && e.kind.IsLifecycle() && SlotKey(e.sub, e.key) !in b
    ensures
      var b' := b[SlotKey(e.sub, e.key) := Buffered(now, Deadline(now, now, config), n, e)];
      && Sequenced(b', n + 1)
      && Observed(b, n, b', n + 1, e, now, config)
  {
    var k, x := SlotKey(e.sub, e.key), Buffered(now, Deadline(now, now, config), n, e);
    PendingInsert(b, k, x, e.sub, n);
    forall s ensures Pending(b[k := x], s, n + 1) ==
        if e.sub == s then Observe(Pending(b, s, n), e, now, config) else Pending(b, s, n)
    {
      FreshRefines(b, e, now, config, n, s);
    }
  }

  lemma FreshConsistent(t: Tables, default: Option<Config>, e: Event, now: Instant, config: Config)
    requires Consistent(t, default) && e.kind.IsLifecycle()
    requires PolicyOf(t.policies, default, e.sub) == Some(config)
    requires SlotKey(e.sub, e.key) !in t.buffer
    requires |t.buffer| < StructuralCapOf(default)
    requires (if e.sub in t.perSubLen then t.perSubLen[e.sub] else 0) < config.maxBuffered
    ensures Consistent(Opened(t, e, now, config), default)
  {
    hide Indexed, Counted, Sequenced, Keyed, WithinHold, WithinCap, TicketsClimb;
    var t' := Opened(t, e, now, config);
    var key := SlotKey(e.sub, e.key);
    var entry := Buffered(now, Deadline(now, now, config), t.nextSeq, e);
    InsertCounts(t.buffer, key, entry, t.perSubLen);
    PutSequenced(t.buffer, key, entry, t.nextSeq);
    PutIndex(t.buffer, key, entry, t.deadlines);
    PutKeyed(t.buffer, key, entry);
    PutWithinHold(t.buffer, key, entry, t.policies, default, config);
    PutWithinCap(t.perSubLen, e.sub, t'.perSubLen[e.sub], t.policies, default, config);
    PutSize(t.buffer, key, entry);
  }

  lemma FreshObserved(t: Tables, default: Option<Config>, e: Event, now: Instant, config: Config)
    requires Consistent(t, default) && e.kind.IsLifecycle() && SlotKey(e.sub, e.key) !in t.buffer
    ensures Observed(t.buffer, t.nextSeq, Opened(t, e, now, config).buffer, t.nextSeq + 1, e, now, config)
  {
    FreshPending(t.buffer, e, now, config, t.nextSeq);
  }

  lemma FreshOk(t: Tables, default: Option<Config>, log: seq<Op>, e: Event, now: Instant, config: Config)
    requires Ok(t, default, log) && Clock(log) <= now && e.kind.IsLifecycle()
    requires PolicyOf(t.policies, default, e.sub) == Some(config)
    requires SlotKey(e.sub, e.key) !in t.buffer
    requires |t.buffer| < StructuralCapOf(default)
    requires (if e.sub in t.perSubLen then t.perSubLen[e.sub] else 0) < config.maxBuffered
    ensures Ok(Opened(t, e, now, config), default, log + [Settling(e, now, config)])
  {
    hide Consistent;
    LineLength(t, default, log, e.sub);
    LineWithinBuffer(t.buffer, e.sub);
    FreshConsistent(t, default, e, now, config);
    FreshObserved(t, default, e, now, config);
    SettlingShows(t, Opened(t, e, now, config), default, log, e, now, config);
  }

  /** The tables after an annihilation. */
  function Cancelled(t: Tables, e: Event): Tables
    requires SlotKey(e.sub, e.key) in t.buffer && e.sub in t.perSubLen
  {
    var key := SlotKey(e.sub, e.key);
    t.(buffer := t.buffer - {key},
       deadlines := t.deadlines - {Due(t.buffer[key].emitAt, key)},
       perSubLen := Decrement(t.perSubLen, e.sub),
       nextSeq := t.nextSeq + 1)
  }

  /** Every subscription's line after an annihilation. */
  lemma CancelPending(b: Buffer, e: Event, now: Instant, config: Config, n: nat)
    requires Sequenced(b, n) && Keyed(b) && e.kind.IsLifecycle() && SlotKey(e.sub, e.key) in b
    requires Merge(b[SlotKey(e.sub, e.key)].event, e).None?
    ensures
      var b' := b - {SlotKey(e.sub, e.key)};
      && Sequenced(b', n + 1) && Keyed(b')
      && Observed(b, n, b', n + 1, e, now, config)
  {
    forall s ensures Pending(b - {SlotKey(e.sub, e.key)}, s, n + 1) ==
        if e.sub == s then Observe(Pending(b, s, n), e, now, config) else Pending(b, s, n)
    {
      CancelRefines(b, e, now, config, n, s);
    }
  }

  lemma RemoveKeeps(b: Buffer, k: SlotKey, n: nat)
    requires Sequenced(b, n) && Keyed(b)
    ensures Sequenced(b - {k}, n + 1) && Keyed(b - {k})
  {
  }

  lemma DecWithinCap(perSubLen: map<Sub, nat>, sub: Sub, policies: map<Sub, Option<Config>>, default: Option<Config>)
    requires WithinCap(perSubLen, policies, default) && sub in perSubLen
    ensures WithinCap(Decrement(perSubLen, sub), policies, default)
  {
  }

  lemma PutWithinCap(perSubLen: map<Sub, nat>, sub: Sub, count: nat, policies: map<Sub, Option<Config>>, default: Option<Config>, config: Config)
    requires WithinCap(perSubLen, policies, default) && PolicyOf(policies, default, sub) == Some(config)
    requires count <= config.maxBuffered
    ensures WithinCap(perSubLen[sub := count], policies, default)
  {
  }

  lemma CountedAt(b: Buffer, k: SlotKey, perSubLen: map<Sub, nat>)
    requires Counted(b, perSubLen) && k in b
    ensures k.sub in perSubLen && perSubLen[k.sub] > 0
  {
    assert k in KeysOf(b, k.sub);
  }

  lemma CancelConsistent(t: Tables, default: Option<Config>, e: Event)
    requires Consistent(t, default) && SlotKey(e.sub, e.key) in t.buffer
    ensures e.sub in t.perSubLen && t.perSubLen[e.sub] > 0
    ensures Consistent(Cancelled(t, e), default)
  {
    hide Indexed, Counted, Sequenced, Keyed, WithinHold, WithinCap, TicketsClimb;
    var key := SlotKey(e.sub, e.key);
    CountedAt(t.buffer, key, t.perSubLen);
    RemoveCounts(t.buffer, key, t.perSubLen);
    RemoveIndex(t.buffer, key, t.deadlines);
    StillWithin(t.buffer, t.buffer - {key}, t.policies, default);
    RemoveKeeps(t.buffer, key, t.nextSeq);
    DecWithinCap(t.perSubLen, e.sub, t.policies, default);
  }

  lemma CancelOk(t: Tables, default: Option<Config>, log: seq<Op>, e: Event, now: Instant, config: Config)
    requires Ok(t, default, log) && Clock(log) <= now && e.kind.IsLifecycle()
    requires SlotKey(e.sub, e.key) in t.buffer
    requires Observed(t.buffer, t.nextSeq, t.buffer - {SlotKey(e.sub, e.key)}, t.nextSeq + 1, e, now, config)
    ensures e.sub in t.perSubLen && t.perSubLen[e.sub] > 0
    ensures Ok(Cancelled(t, e), default, log + [Settling(e, now, config)])
  {
    hide Consistent;
    HeldPermitted(t, default, log, e, now, config);
    CancelConsistent(t, default, e);
    SettlingShows(t, Cancelled(t, e), default, log, e, now, config);
  }

  /** The tables once `x` replaces the entry filed under `key`. */
  function Refiled(t: Tables, key: SlotKey, x: Buffered): Tables
    requires key in t.buffer
  {
    t.(buffer := t.buffer[key := x],
       deadlines := t.deadlines - {Due(t.buffer[key].emitAt, key)} + {Due(x.emitAt, key)},
       nextSeq := t.nextSeq + 1)
  }

  /** Every subscription's line after a surviving fold. */
  lemma FoldPending(b: Buffer, e: Event, now: Instant, config: Config, n: nat)
    requires Sequenced(b, n) && Keyed(b) && e.kind.IsLifecycle() && SlotKey(e.sub, e.key) in b
    requires Merge(b[SlotKey(e.sub, e.key)].event, e).Some?
    ensures
      var k := SlotKey(e.sub, e.key);
      var x := Buffered(b[k].firstSeen, Deadline(b[k].firstSeen, now, config), n, Merge(b[k].event, e).value);
      && x.event.sub == k.sub && x.event.key == k.path && x.event.kind.IsLifecycle()
      && Sequenced(b[k := x], n + 1)
      && Observed(b, n, b[k := x], n + 1, e, now, config)
  {
    var k := SlotKey(e.sub, e.key);
    var x := Buffered(b[k].firstSeen, Deadline(b[k].firstSeen, now, config), n, Merge(b[k].event, e).value);
    FoldRefines(b, e, now, config, n, e.sub);
    forall s ensures Pending(b[k := x], s, n + 1) ==
        if e.sub == s then Observe(Pending(b, s, n), e, now, config) else Pending(b, s, n)
    {
      FoldRefines(b, e, now, config, n, s);
    }
  }

  lemma FoldObserved(t: Tables, default: Option<Config>, e: Event, now: Instant, config: Config)
    requires Consistent(t, default) && e.kind.IsLifecycle() && SlotKey(e.sub, e.key) in t.buffer
    requires Merge(t.buffer[SlotKey(e.sub, e.key)].event, e).Some?
    ensures
      var k := SlotKey(e.sub, e.key);
      var was := t.buffer[k];
      var x := Buffered(was.firstSeen, Deadline(was.firstSeen, now, config), t.nextSeq, Merge(was.event, e).value);
      && x.event.sub == k.sub && x.event.key == k.path && x.event.kind.IsLifecycle()
      && Observed(t.buffer, t.nextSeq, t.buffer[k := x], t.nextSeq + 1, e, now, config)
  {
    FoldPending(t.buffer, e, now, config, t.nextSeq);
  }

  lemma CancelObserved(t: Tables, default: Option<Config>, e: Event, now: Instant, config: Config)
    requires Consistent(t, default) && e.kind.IsLifecycle() && SlotKey(e.sub, e.key) in t.buffer
    requires Merge(t.buffer[SlotKey(e.sub, e.key)].event, e).None?
    ensures Observed(t.buffer, t.nextSeq, t.buffer - {SlotKey(e.sub, e.key)}, t.nextSeq + 1, e, now, config)
  {
    CancelPending(t.buffer, e, now, config, t.nextSeq);
  }

  lemma FoldConsistent(t: Tables, default: Option<Config>, key: SlotKey, x: Buffered, config: Config)
    requires Consistent(t, default) && key in t.buffer
    requires PolicyOf(t.policies, default, key.sub) == Some(config)
    requires x.event.sub == key.sub && x.event.key == key.path && x.event.kind.IsLifecycle()
    requires x.emitAt <= x.firstSeen + config.maxHold && x.seqNo == t.nextSeq
    ensures Consistent(Refiled(t, key, x), default)
  {
    hide Indexed, Counted, Sequenced, Keyed, WithinHold, WithinCap, TicketsClimb;
    ReplaceCounts(t.buffer, key, x, t.perSubLen);
    RefileIndex(t.buffer, key, x, t.deadlines);
    PutSequenced(t.buffer, key, x, t.nextSeq);
    PutKeyed(t.buffer, key, x);
    PutWithinHold(t.buffer, key, x, t.policies, default, config);
    PutSize(t.buffer, key, x);
  }

  lemma FoldOk(t: Tables, default: Option<Config>, log: seq<Op>, e: Event, now: Instant, x: Buffered, config: Config)
    requires Ok(t, default, log) && Clock(log) <= now && e.kind.IsLifecycle()
    requires PolicyOf(t.policies, default, e.sub) == Some(config) && SlotKey(e.sub, e.key) in t.buffer
    requires x.event.sub == e.sub && x.event.key == e.key && x.event.kind.IsLifecycle()
    requires x.emitAt <= x.firstSeen + config.maxHold && x.seqNo == t.nextSeq
    requires Observed(t.buffer, t.nextSeq, t.buffer[SlotKey(e.sub, e.key) := x], t.nextSeq + 1, e, now, config)
    ensures Ok(Refiled(t, SlotKey(e.sub, e.key), x), default, log + [Settling(e, now, config)])
  {
    hide Consistent;
    HeldPermitted(t, default, log, e, now, config);
    FoldConsistent(t, default, SlotKey(e.sub, e.key), x, config);
    SettlingShows(t, Refiled(t, SlotKey(e.sub, e.key), x), default, log, e, now, config);
  }

  lemma ConsistentParts(t: Tables, default: Option<Config>)
    requires Consistent(t, default)
    ensures Indexed(t.buffer, t.deadlines) && Counted(t.buffer, t.perSubLen)
    ensures Sequenced(t.buffer, t.nextSeq) && Keyed(t.buffer)
  {
  }

  lemma TicketsLater(ready: seq<Ticket>, clock: Instant, now: Instant)
    requires TicketsBy(ready, clock) && clock <= now
    ensures TicketsBy(ready, now)
  {
  }

  function Slots(walk: seq<Due>): (r: seq<SlotKey>)
    ensures |r| == |walk|
    ensures forall i :: 0 <= i < |walk| ==> r[i] == walk[i].slot
  {
    seq(|walk|, i requires 0 <= i < |walk| => walk[i].slot)
  }

  lemma IndexNames(b: Buffer, deadlines: set<Due>, walk: seq<Due>)
    requires Indexed(b, deadlines) && forall d :: d in walk <==> d in deadlines
    ensures forall i :: 0 <= i < |walk| ==> walk[i].slot in b && b[walk[i].slot].emitAt == walk[i].at
  {
  }

  lemma DueIsBefore(walk: seq<Due>, n: nat, now: Instant, j: nat)
    requires DuesAscend(walk) && n <= |walk| && (n < |walk| ==> walk[n].at > now)
    requires j < |walk| && walk[j].at <= now
    ensures j < n
  {
  }

  lemma DuesDiffer(b: Buffer, deadlines: set<Due>, walk: seq<Due>, i: nat, j: nat)
    requires Indexed(b, deadlines) && (forall d :: d in walk <==> d in deadlines) && DuesAscend(walk)
    requires i < j < |walk|
    ensures walk[i].slot != walk[j].slot
  {
    assert walk[i] != walk[j] && walk[i] in walk && walk[j] in walk;
  }

  /** Collecting one more due entry. */
  lemma PickNext(b: Buffer, walk: seq<Due>, i: nat)
    requires i < |walk| && forall j :: 0 <= j < |walk| ==> walk[j].slot in b
    ensures PickAll(b, Slots(walk[..i + 1])) ==
            PickAll(b, Slots(walk[..i])) + [Pick(walk[i].slot.sub, b[walk[i].slot].seqNo, walk[i].slot)]
  {
  }

  /** A prefix of the index that holds everything due, and nothing else, lists exactly the due entries. */
  lemma DuePicks(b: Buffer, deadlines: set<Due>, walk: seq<Due>, n: nat, now: Instant)
    requires Indexed(b, deadlines) && (forall d :: d in walk <==> d in deadlines) && n <= |walk|
    requires forall j :: 0 <= j < |walk| ==> walk[j].slot in b && (walk[j].at <= now <==> j < n)
    ensures PicksOf(PickAll(b, Slots(walk[..n])), Part(b, now, true))
  {
    var ps := PickAll(b, Slots(walk[..n]));
    forall i | 0 <= i < n
      ensures ps[i] == Pick(walk[i].slot.sub, b[walk[i].slot].seqNo, walk[i].slot) && b[walk[i].slot].emitAt <= now
    {
      assert walk[i] in walk;
    }
    forall k | k in Part(b, now, true) ensures Pick(k.sub, b[k].seqNo, k) in ps {
      var d := Due(b[k].emitAt, k);
      assert d in walk;
      var j :| 0 <= j < |walk| && walk[j] == d;
      assert ps[j] == Pick(k.sub, b[k].seqNo, k);
    }
  }

  /** The walk stops at the first entry not yet due, and everything after it is later still. */
  lemma DuePrefix(b: Buffer, deadlines: set<Due>, walk: seq<Due>, n: nat, now: Instant)
    requires Indexed(b, deadlines) && (forall d :: d in walk <==> d in deadlines) && DuesAscend(walk)
    requires n <= |walk| && (forall j :: 0 <= j < n ==> walk[j].at <= now) && (n < |walk| ==> walk[n].at > now)
    ensures forall i :: 0 <= i < n ==> Slots(walk[..n])[i] in b
    ensures PicksOf(PickAll(b, Slots(walk[..n])), Part(b, now, true))
    ensures forall i, j :: 0 <= i < j < n ==> PickAll(b, Slots(walk[..n]))[i].slot != PickAll(b, Slots(walk[..n]))[j].slot
  {
    hide PicksOf, Part;
    IndexNames(b, deadlines, walk);
    forall j | 0 <= j < |walk| && walk[j].at <= now ensures j < n {
      DueIsBefore(walk, n, now, j);
    }
    DuePicks(b, deadlines, walk, n, now);
    forall i, j | 0 <= i < j < n
      ensures PickAll(b, Slots(walk[..n]))[i].slot != PickAll(b, Slots(walk[..n]))[j].slot
    {
      DuesDiffer(b, deadlines, walk, i, j);
    }
    hide Indexed, DuesAscend;
  }

  lemma RestNone(b: Buffer)
    ensures Rest(b, []) == b
  {
  }

  lemma RestValue(b: Buffer, ps: seq<Pick>, k: SlotKey)
    requires k in Rest(b, ps)
    ensures k in b && Rest(b, ps)[k] == b[k]
  {
  }

  lemma DueEntries(b: Buffer, now: Instant, n: nat, ps: seq<Pick>)
    requires Sequenced(b, n) && PicksOf(ps, Part(b, now, true))
    requires forall i, j :: 0 <= i < j < |ps| ==> ps[i].slot != ps[j].slot
    ensures forall i, j :: 0 <= i < j < |ps| ==> PickLess(ps[i], ps[j]) || PickLess(ps[j], ps[i])
  {
  }

  lemma SortedDue(b: Buffer, now: Instant, qs: seq<Pick>, ps: seq<Pick>)
    requires Sorted(ps) && PicksOf(qs, Part(b, now, true)) && forall x :: x in ps <==> x in qs
    ensures PicksOf(ps, Part(b, now, true))
    ensures forall i, j :: 0 <= i < j < |ps| ==> ps[i].slot != ps[j].slot
    ensures forall x :: x in ps ==> x.slot in b && x.sub == x.slot.sub
  {
  }

  /** What was appended to `out0` in two stretches. */
  lemma TwoStretches(out0: seq<Event>, a: seq<Event>, b: seq<Event>)
    ensures
      var out := out0 + a + b;
      out0 + a <= out && out[|out0|..] == a + b && out[|out0| + |a|..] == b
  {
  }

  lemma DrainOk(t: Tables, t': Tables, default: Option<Config>, log: seq<Op>, ps: seq<Pick>, now: Instant)
    requires Ok(t, default, log) && Clock(log) <= now
    requires Sorted(ps) && PicksOf(ps, Part(t.buffer, now, true))
    requires forall x :: x in ps ==> x.slot in t.buffer
    requires t' == t.(buffer := Rest(t.buffer, ps), deadlines := t'.deadlines, perSubLen := t'.perSubLen, ready := [])
    requires Indexed(t'.buffer, t'.deadlines) && Counted(t'.buffer, t'.perSubLen)
    ensures Ok(t', default, log + [Drain(now)])
    ensures t'.buffer == Part(t.buffer, now, false)
    ensures forall s :: Run(log + [Drain(now)], s).emitted ==
                        Run(log, s).emitted + OfSub(TicketEvents(t.ready) + Take(t.buffer, ps), s)
  {
    hide Consistent, Part, Rest, PicksOf, Indexed, Counted, Sorted, Run, Pending, OfSub, Take, Lawful;
    var op := Drain(now);
    OkConsistent(t, default, log);
    ConsistentParts(t, default);
    DrainConsistent(t, t', default, ps, now);
    Extend(log, op, StructuralCapOf(default));
    forall s
      ensures Run(log + [op], s).pending == Pending(t'.buffer, s, t'.nextSeq)
      ensures Run(log + [op], s).ready == ReadyOf(t'.ready, s)
      ensures Run(log + [op], s).emitted == Run(log, s).emitted + OfSub(TicketEvents(t.ready) + Take(t.buffer, ps), s)
    {
      DrainLine(t.buffer, t.ready, ps, log, s, t.nextSeq, now);
      assert TicketEvents(t'.ready) == [];
      OfSubNone(s);
    }
    DueLine(t.buffer, ps, 0, t.nextSeq, now);
  }

  /** One subscription's share of a drain. */
  lemma DrainLine(b: Buffer, ready: seq<Ticket>, ps: seq<Pick>, log: seq<Op>, s: Sub, n: nat, now: Instant)
    requires Sequenced(b, n) && Keyed(b) && Sorted(ps) && PicksOf(ps, Part(b, now, true))
    requires forall x :: x in ps ==> x.slot in b
    requires Run(log, s).pending == Pending(b, s, n) && Run(log, s).ready == ReadyOf(ready, s)
    ensures
      var st := Run(log + [Drain(now)], s);
      && st.pending == Pending(Rest(b, ps), s, n)
      && st.ready == []
      && st.emitted == Run(log, s).emitted + OfSub(TicketEvents(ready) + Take(b, ps), s)
  {
    hide Part, Rest, PicksOf, Sorted, Sequenced, Keyed, At, Run, Pending, OfSub, Take, Sift;
    RunSnoc(log, Drain(now), s);
    DueLine(b, ps, s, n, now);
    OfSubConcat(TicketEvents(ready), Take(b, ps), s);
  }

  lemma RestWithin(b: Buffer, ps: seq<Pick>)
    ensures forall k :: k in Rest(b, ps) ==> k in b && Rest(b, ps)[k] == b[k]
  {
  }

  lemma DrainConsistent(t: Tables, t': Tables, default: Option<Config>, ps: seq<Pick>, now: Instant)
    requires Consistent(t, default)
    requires Sorted(ps) && PicksOf(ps, Part(t.buffer, now, true))
    requires forall x :: x in ps ==> x.slot in t.buffer
    requires t' == t.(buffer := Rest(t.buffer, ps), deadlines := t'.deadlines, perSubLen := t'.perSubLen, ready := [])
    requires Indexed(t'.buffer, t'.deadlines) && Counted(t'.buffer, t'.perSubLen)
    ensures Consistent(t', default)
  {
    hide Part, PicksOf, Sorted, Rest, Indexed, Counted, Sequenced, Keyed, WithinHold, WithinCap;
    RestWithin(t.buffer, ps);
    ShrinkKeeps(t.buffer, t'.buffer, t.nextSeq);
    StillWithin(t.buffer, t'.buffer, t.policies, default);
    ShrinkWithinCap(t.buffer, t'.buffer, t.perSubLen, t'.perSubLen, t.policies, default);
  }

  lemma ShrinkKeeps(b: Buffer, c: Buffer, n: nat)
    requires Sequenced(b, n) && Keyed(b) && forall k :: k in c ==> k in b && c[k] == b[k]
    ensures Sequenced(c, n) && Keyed(c)
  {
  }

  lemma ShrinkWithinCap(b: Buffer, c: Buffer, perSubLen: map<Sub, nat>, perSubLen': map<Sub, nat>,
                        policies: map<Sub, Option<Config>>, default: Option<Config>)
    requires Counted(b, perSubLen) && Counted(c, perSubLen') && WithinCap(perSubLen, policies, default)
    requires forall k :: k in c ==> k in b
    ensures WithinCap(perSubLen', policies, default)
  {
    forall s | s in perSubLen' ensures s in perSubLen && perSubLen'[s] <= perSubLen[s] {
      assert KeysOf(b, s) == KeysOf(c, s) + (KeysOf(b, s) - KeysOf(c, s));
      var k :| k in KeysOf(c, s);
      assert k in b;
    }
  }

  // Emptying everything, and dropping one subscription.

  function Paths(slots: seq<SlotKey>): (keys: seq<Key>)
    ensures |keys| == |slots|
  {
    seq(|slots|, i requires 0 <= i < |slots| => slots[i].path)
  }

  /** `slots` lists every key of the buffer exactly once. */
  ghost predicate Lists(slots: seq<SlotKey>, b: Buffer) {
    && (forall k :: k in slots <==> k in b)
    && (forall i, j :: 0 <= i < j < |slots| ==> slots[i] != slots[j])
  }

  lemma DuesList(b: Buffer, deadlines: set<Due>, dues: seq<Due>)
    requires Indexed(b, deadlines) && DuesAscend(dues) && forall d :: d in dues <==> d in deadlines
    ensures Lists(Slots(dues), b)
  {
  }

  lemma SlotsList(b: Buffer, slots: seq<SlotKey>)
    requires SlotsAscend(slots) && forall k :: k in slots <==> k in b
    ensures Lists(slots, b)
  {
  }

  lemma AllPicks(b: Buffer, slots: seq<SlotKey>, n: nat)
    requires Lists(slots, b) && Sequenced(b, n)
    ensures forall i :: 0 <= i < |slots| ==> slots[i] in b
    ensures PicksOf(PickAll(b, slots), b)
    ensures
      var ps := PickAll(b, slots);
      forall i, j :: 0 <= i < j < |ps| ==> PickLess(ps[i], ps[j]) || PickLess(ps[j], ps[i])
  {
    WalkBuffered(b, slots);
    var ps := PickAll(b, slots);
    assert forall i :: 0 <= i < |ps| ==> ps[i] == Pick(slots[i].sub, b[slots[i]].seqNo, slots[i]);
    forall k | k in b ensures Pick(k.sub, b[k].seqNo, k) in ps {
      assert k in slots;
      var i :| 0 <= i < |slots| && slots[i] == k;
      assert ps[i] == Pick(k.sub, b[k].seqNo, k);
    }
    PicksComparable(ps, b, n);
  }

  lemma SortedWhole(b: Buffer, qs: seq<Pick>, ps: seq<Pick>)
    requires PicksOf(qs, b) && forall x :: x in ps <==> x in qs
    ensures PicksOf(ps, b)
    ensures forall x :: x in ps ==> x.slot in b && x.sub == x.slot.sub
  {
  }

  lemma FlushAllOk(t: Tables, t': Tables, default: Option<Config>, log: seq<Op>, ps: seq<Pick>)
    requires Ok(t, default, log) && Sorted(ps) && PicksOf(ps, t.buffer)
    requires t' == Tables(t.policies, map[], map[], {}, [], t.nextSeq)
    requires forall x :: x in ps ==> x.slot in t.buffer
    ensures Ok(t', default, log + [FlushAll])
    ensures forall s :: Run(log + [FlushAll], s).emitted ==
                        Run(log, s).emitted + OfSub(TicketEvents(t.ready) + Take(t.buffer, ps), s)
  {
    hide Consistent, Sequenced, Keyed, PicksOf, Sorted;
    EmptyConsistent(t', default);
    Extend(log, FlushAll, StructuralCapOf(default));
    OkConsistent(t, default, log);
    ConsistentParts(t, default);
    forall s
      ensures Run(log + [FlushAll], s).pending == Pending(t'.buffer, s, t'.nextSeq)
      ensures Run(log + [FlushAll], s).ready == ReadyOf(t'.ready, s)
      ensures Run(log + [FlushAll], s).emitted == Run(log, s).emitted + OfSub(TicketEvents(t.ready) + Take(t.buffer, ps), s)
    {
      FlushAllLine(t.buffer, t.ready, ps, log, s, t.nextSeq);
      PendingNone(t'.buffer, s, t'.nextSeq);
    }
  }

  /** One subscription's share of a full flush. */
  lemma FlushAllLine(b: Buffer, ready: seq<Ticket>, ps: seq<Pick>, log: seq<Op>, s: Sub, n: nat)
    requires Sequenced(b, n) && Keyed(b) && Sorted(ps) && PicksOf(ps, b)
    requires forall x :: x in ps ==> x.slot in b
    requires Run(log, s).pending == Pending(b, s, n) && Run(log, s).ready == ReadyOf(ready, s)
    ensures
      var st := Run(log + [FlushAll], s);
      && st.pending == [] && st.ready == []
      && st.emitted == Run(log, s).emitted + OfSub(TicketEvents(ready) + Take(b, ps), s)
  {
    hide Sequenced, Keyed, PicksOf, Sorted, Pending, OfSub;
    RunSnoc(log, FlushAll, s);
    WholeLine(b, ps, s, n);
    OfSubConcat(TicketEvents(ready), Take(b, ps), s);
  }

  lemma EmptyConsistent(t: Tables, default: Option<Config>)
    requires t == Tables(t.policies, map[], map[], {}, [], t.nextSeq)
    ensures Consistent(t, default)
  {
  }

  /** Three copies of each picked key, in order. */
  function ThreePaths(ps: seq<Pick>): (keys: seq<Key>)
    ensures |keys| == 3 * |ps|
  {
    if ps == [] then []
    else
      var path := ps[|ps| - 1].slot.path;
      ThreePaths(ps[..|ps| - 1]) + [path, path, path]
  }

  lemma ThreePathsNext(ps: seq<Pick>, i: nat)
    requires i < |ps|
    ensures ThreePaths(ps[..i + 1]) == ThreePaths(ps[..i]) + [ps[i].slot.path, ps[i].slot.path, ps[i].slot.path]
  {
    assert ps[..i + 1][..i] == ps[..i];
  }

  lemma ClimbsSnoc(ready: seq<Ticket>, x: Ticket)
    requires TicketsClimb(ready) && forall y :: y in ready ==> y.at <= x.at
    ensures TicketsClimb(ready + [x])
  {
  }

  lemma ClimbsInit(ready: seq<Ticket>)
    requires TicketsClimb(ready) && ready != []
    ensures TicketsClimb(ready[..|ready| - 1])
    ensures forall y :: y in ready[..|ready| - 1] ==> y.at <= ready[|ready| - 1].at
  {
  }

  lemma {:induction false} KeepOthersClimbs(ready: seq<Ticket>, sub: Sub, clock: Instant)
    requires TicketsClimb(ready) && TicketsBy(ready, clock)
    ensures TicketsClimb(KeepOthers(ready, sub)) && TicketsBy(KeepOthers(ready, sub), clock)
  {
    if ready != [] {
      hide TicketsClimb;
      var r0, last := ready[..|ready| - 1], ready[|ready| - 1];
      ClimbsInit(ready);
      KeepOthersClimbs(r0, sub, clock);
      KeepOthersElements(r0, sub);
      ClimbsSnoc(KeepOthers(r0, sub), last);
      assert KeepOthers(r0, sub) + [] == KeepOthers(r0, sub);
    }
  }

  lemma DropOk(t: Tables, t': Tables, default: Option<Config>, log: seq<Op>, ps: seq<Pick>, sub: Sub)
    requires Ok(t, default, log) && PicksOf(ps, Only(t.buffer, sub))
    requires t' == t.(buffer := Rest(t.buffer, ps), deadlines := t'.deadlines, perSubLen := t.perSubLen - {sub},
                      ready := KeepOthers(t.ready, sub))
    requires Indexed(t'.buffer, t'.deadlines)
    ensures Ok(t', default, log + [Drop(sub)])
    ensures forall k :: k in t'.buffer <==> k in t.buffer && k.sub != sub
    ensures forall k :: k in t'.buffer ==> t'.buffer[k] == t.buffer[k]
  {
    hide Consistent, Indexed, Counted, Sequenced, Keyed, TicketsClimb, TicketsBy, Only, PicksOf, Run, Pending, Lawful;
    var op := Drop(sub);
    OkConsistent(t, default, log);
    ConsistentParts(t, default);
    ConsistentClimbs(t, default);
    KeepOthersClimbs(t.ready, sub, Clock(log));
    PurgedConsistent(t, t', ps, default, sub);
    RestOthers(t.buffer, ps, sub);
    Extend(log, op, StructuralCapOf(default));
    forall s
      ensures Run(log + [op], s).pending == Pending(t'.buffer, s, t'.nextSeq)
      ensures Run(log + [op], s).ready == ReadyOf(t'.ready, s)
    {
      RunSnoc(log, op, s);
      LeftBehind(t.buffer, t'.buffer, sub, s, t.nextSeq);
      KeepOthersReady(t.ready, sub, s);
    }
  }

  lemma RestOthers(b: Buffer, ps: seq<Pick>, sub: Sub)
    requires PicksOf(ps, Only(b, sub))
    ensures forall k :: k in Rest(b, ps) <==> k in b && k.sub != sub
    ensures forall k :: k in Rest(b, ps) ==> Rest(b, ps)[k] == b[k]
  {
  }

  lemma ConsistentClimbs(t: Tables, default: Option<Config>)
    requires Consistent(t, default)
    ensures TicketsClimb(t.ready)
  {
  }

  lemma EntriesCount(entries: seq<Pick>, b: Buffer, sub: Sub)
    requires PicksOf(entries, Only(b, sub))
    requires forall i, j :: 0 <= i < j < |entries| ==> entries[i].slot != entries[j].slot
    ensures |entries| == |KeysOf(b, sub)|
  {
    SlotCount(entries);
    assert (set x | x in entries :: x.slot) == KeysOf(b, sub) by {
      forall k | k in KeysOf(b, sub) ensures k in set x | x in entries :: x.slot {
        var x := Pick(k.sub, b[k].seqNo, k);
        assert x in entries && x.slot == k;
      }
    }
  }

  lemma {:induction false} SlotCount(entries: seq<Pick>)
    requires forall i, j :: 0 <= i < j < |entries| ==> entries[i].slot != entries[j].slot
    ensures |set x | x in entries :: x.slot| == |entries|
  {
    var all := set x | x in entries :: x.slot;
    if entries == [] {
      assert all == {};
    } else {
      var init, last := entries[..|entries| - 1], entries[|entries| - 1];
      SlotCount(init);
      assert entries == init + [last];
      var part := set x | x in init :: x.slot;
      assert all == part + {last.slot};
      assert last.slot !in part;
    }
  }

  /** What the dispatch checks before it appends an operation: nothing pending is overtaken, and a slot is
      opened only below both caps. */
  predicate Permitted(st: State, op: Op, room: nat) {
    && (op.Passing? ==> st.pending == [])
    && (op.Settling? && !Holds(st.pending, op.e.key) ==> |st.pending| < op.config.maxBuffered && |st.pending| < room)
  }

  /** Appending one operation to a valid history. */
  lemma Extend(log: seq<Op>, op: Op, room: nat)
    requires AllDispatched(log) && Clocked(log) && Dispatched(op) && (forall s :: Lawful(log, s, room))
    requires Timed(op) ==> Clock(log) <= op.now
    requires op.Passing? || op.Settling? ==> Permitted(Run(log, op.e.sub), op, room)
    ensures AllDispatched(log + [op]) && Clocked(log + [op]) && (forall s :: Lawful(log + [op], s, room))
    ensures Clock(log + [op]) == if Timed(op) then op.now else Clock(log)
  {
    assert (log + [op])[..|log|] == log;
    forall i | 0 <= i < |log| && Timed(log[i]) ensures log[i].now <= Clock(log) {
      ClockDominates(log, i);
    }
    forall s ensures Lawful(log + [op], s, room) {
      LawfulNext(log, op, s, room);
    }
    hide Lawful, Run;
  }

  lemma LawfulNext(log: seq<Op>, op: Op, s: Sub, room: nat)
    requires Lawful(log, s, room) && (op.Passing? || op.Settling? ==> Permitted(Run(log, op.e.sub), op, room))
    ensures Lawful(log + [op], s, room)
  {
    hide Run, Holds;
    var log' := log + [op];
    assert log'[..|log|] == log;
    assert forall n :: 0 <= n < |log| ==> log'[n] == log[n] && log'[..n] == log[..n];
  }

  /** A subscription without a settling policy holds nothing. */
  lemma UnsettledHoldsNothing(t: Tables, default: Option<Config>, log: seq<Op>, s: Sub)
    requires Ok(t, default, log) && PolicyOf(t.policies, default, s).None?
    ensures Run(log, s).pending == []
  {
    PendingNone(t.buffer, s, t.nextSeq);
  }

  lemma {:induction false} ClockDominates(log: seq<Op>, i: nat)
    requires Clocked(log) && i < |log| && Timed(log[i])
    ensures log[i].now <= Clock(log)
  {
    if i < |log| - 1 && !Timed(log[|log| - 1]) {
      ClockDominates(log[..|log| - 1], i);
    }
  }

  // ---------------------------------------------------------------- what valid tables guarantee

  lemma BelowAll(b: Buffer, s: Sub, n: nat)
    requires Sequenced(b, n)
    ensures KeysBelow(b, s, n) == KeysOf(b, s)
  {
  }

  lemma IndexIsImage(b: Buffer, deadlines: set<Due>)
    requires Indexed(b, deadlines)
    ensures deadlines == set k | k in b :: Due(b[k].emitAt, k)
  {
    assert forall d :: d in deadlines ==> d == Due(b[d.slot].emitAt, d.slot);
  }

  /** In every reachable state the index is exactly the buffered deadlines, the counters are exactly
      the per-subscription sizes, and both memory bounds hold. */
  lemma TablesExact(t: Tables, default: Option<Config>, log: seq<Op>, s: Sub)
    requires Ok(t, default, log)
    ensures t.deadlines == set k | k in t.buffer :: Due(t.buffer[k].emitAt, k)
    ensures |Run(log, s).pending| == |KeysOf(t.buffer, s)| == (if s in t.perSubLen then t.perSubLen[s] else 0)
    ensures s in t.perSubLen <==> Run(log, s).pending != []
    ensures |t.buffer| <= StructuralCapOf(default)
    ensures s in t.perSubLen ==>
              && PolicyOf(t.policies, default, s).Some?
              && |Run(log, s).pending| <= PolicyOf(t.policies, default, s).value.maxBuffered
  {
    LineLength(t, default, log, s);
    IndexIsImage(t.buffer, t.deadlines);
    hide Run, Pending, KeysOf, Indexed, Sequenced, Keyed, WithinHold;
  }

  /** Whatever the tables still hold, together with what was emitted, tells a consumer exactly what
      the admitted stream tells it. */
  lemma TablesMeanTheStream(t: Tables, default: Option<Config>, log: seq<Op>, s: Sub, w: World, resync: Resync)
    requires Ok(t, default, log) && Lossless(log, s) && HonestCreates(log, s, w, resync)
    ensures Replay(w, Run(log, s).emitted + ReadyOf(t.ready, s) + EventsOf(Pending(t.buffer, s, t.nextSeq)), resync) ==
            Replay(w, Run(log, s).admitted, resync)
  {
    assert Lawful(log, s, StructuralCapOf(default));
    CoalescingPreservesMeaning(log, s, w, resync);
    assert log[..|log|] == log;
    assert Faithful(Run(log, s), w, resync);
  }

  /** Whatever has been done to the tables, if a subscription's stamps climb on the way in, nothing it
      was sent after a signal is older than the signal, and what the next drain takes from the tables
      climbs. */
  lemma TablesKeepEpochs(t: Tables, default: Option<Config>, log: seq<Op>, s: Sub, now: Instant)
    requires Ok(t, default, log) && Rising(Run(log, s).admitted)
    ensures SignalsDominate(Run(log, s).emitted)
    ensures Rising(ReadyOf(t.ready, s) + EventsOf(Pending(Part(t.buffer, now, true), s, t.nextSeq)))
  {
    hide Part, Run, SignalsDominate, Rising, Indexed, Counted, WithinHold, WithinCap;
    SignalsDominateWholeRun(log, s);
    assert Lawful(log, s, StructuralCapOf(default));
    EachDrainRises(log, s, now);
    PendingPart(t.buffer, s, t.nextSeq, t.nextSeq, now, true);
  }

  /** On every run of the class under one policy that never splits the line, everything a subscription is
      ever sent climbs. */
  lemma TablesRise(t: Tables, default: Option<Config>, log: seq<Op>, s: Sub, config: Config)
    requires Ok(t, default, log) && Rising(Run(log, s).admitted) && SettledUnder(log, s, config)
    requires config.quietWindow == 0 || config.maxHold == 0 || config.maxBuffered <= 1 || StructuralCapOf(default) <= 1
    ensures Rising(Run(log, s).emitted)
  {
    hide Run, Consistent, AllDispatched, Clocked, Rising, NeverOvertakes, KeepsCap, KeepsRoom;
    assert Lawful(log, s, StructuralCapOf(default));
    PolicyAlwaysRisesExactly(config, StructuralCapOf(default));
    assert Admissible(log, s, config, StructuralCapOf(default));
  }

  /** Every entry of the tables is a burst of its own admissions: it carries what they amount to, and is due when the
      newest of them has been quiet long enough or the first been held long enough, whichever is earlier. */
  lemma EntriesAreBursts(t: Tables, default: Option<Config>, log: seq<Op>, k: SlotKey)
    requires Ok(t, default, log) && k in t.buffer
    ensures
      var x, l := t.buffer[k], Ledger.Account(log, k.sub);
      exists i :: 0 <= i < |l.held|
        && Bursts.Amounts(log, l.held[i], x.event, k.sub)
        && Ledger.Opened(log, l.held[i], SlotOf(x), k.sub)
  {
    EntryIsPending(t, default, log, k);
    hide Ok, Run, Ledger.Account, Ledger.Opened, Bursts.Amounts;
    var p := Run(log, k.sub).pending;
    var i :| 0 <= i < |p| && p[i] == SlotOf(t.buffer[k]);
    Bursts.PendingBurst(log, k.sub, i);
  }

  lemma EntryIsPending(t: Tables, default: Option<Config>, log: seq<Op>, k: SlotKey)
    requires Ok(t, default, log) && k in t.buffer
    ensures SlotOf(t.buffer[k]) in Run(log, k.sub).pending && AllDispatched(log)
  {
    hide Run, Pending, Indexed, Counted, WithinHold, WithinCap;
    PendingMember(t.buffer, k, t.nextSeq, t.nextSeq);
  }
}
