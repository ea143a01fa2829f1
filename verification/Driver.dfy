/** The owner task's side of the settle stage: push one record's deliveries and drain, sleep until the
    next deadline or the next record, repeat.
 */
module Driver {
  import opened Events
  import opened Settle
  import opened SettleOrder
  import opened SettlePrompt
  import opened BufferView
  import opened CoalescerTables
  import opened Coalescing

  /** The deliveries of one source record, and when it is read. */
  datatype Record = Record(at: Instant, deliveries: seq<Event>)

  function Delivered(records: seq<Record>): seq<Event> {
    if records == [] then [] else Delivered(records[..|records| - 1]) + records[|records| - 1].deliveries
  }

  // ---------------------------------------------------------------- wake-ups on time

  /** `now` is at most `late` after every deadline of the line. */
  predicate NotLate(p: seq<Slot>, now: Instant, late: nat) {
    forall x :: x in p ==> now <= x.emitAt + late
  }

  ghost predicate NobodyLate(log: seq<Op>, now: Instant, late: nat) {
    forall s :: NotLate(Run(log, s).pending, now, late)
  }

  /** A drain at most `late` after any deadline then pending, except for what was overdue at `clock`. */
  ghost predicate WakesOnTime(log: seq<Op>, n: nat, clock: Instant, late: nat)
    requires n < |log|
  {
    log[n].Drain? ==>
      && clock <= log[n].now
      && (log[n].now == clock || NobodyLate(log[..n], log[n].now, late))
  }

  /** From `from` on, every drain of the log is on time. */
  ghost predicate OnTime(log: seq<Op>, from: nat, clock: Instant, late: nat) {
    forall n :: from <= n < |log| ==> WakesOnTime(log, n, clock, late)
  }

  /** Nothing buffered is overdue at `now` by more than the latency, unless the driver has only just begun. */
  ghost predicate Ahead(b: Buffer, now: Instant, clock: Instant, late: nat) {
    now == clock || forall k :: k in b ==> now <= b[k].emitAt + late
  }

  lemma OnTimeNext(log: seq<Op>, op: Op, from: nat, clock: Instant, late: nat)
    requires from <= |log| && OnTime(log, from, clock, late)
    requires op.Drain? ==> clock <= op.now && (op.now == clock || NobodyLate(log, op.now, late))
    ensures OnTime(log + [op], from, clock, late)
  {
    hide NobodyLate;
    var log' := log + [op];
    forall n | from <= n < |log'| ensures WakesOnTime(log', n, clock, late) {
      if n < |log| {
        assert WakesOnTime(log, n, clock, late) && log'[..n] == log[..n] && log'[n] == log[n];
      } else {
        assert log'[..n] == log;
      }
    }
  }

  /** Nothing buffered is overdue exactly when nothing pending is. */
  lemma AheadIsOnTime(t: Tables, default: Option<Config>, log: seq<Op>, now: Instant, late: nat)
    requires Ok(t, default, log)
    ensures (forall k :: k in t.buffer ==> now <= t.buffer[k].emitAt + late) <==> NobodyLate(log, now, late)
  {
    hide Run, Indexed, Counted, WithinHold, WithinCap;
    if forall k :: k in t.buffer ==> now <= t.buffer[k].emitAt + late {
      forall s ensures NotLate(Run(log, s).pending, now, late) {
        PendingOnly(t.buffer, s, t.nextSeq, t.nextSeq);
      }
    }
    if NobodyLate(log, now, late) {
      forall k | k in t.buffer ensures now <= t.buffer[k].emitAt + late {
        PendingMember(t.buffer, k, t.nextSeq, t.nextSeq);
        assert NotLate(Run(log, k.sub).pending, now, late);
      }
    }
  }

  /** A change observed now is not overdue, and makes nothing overdue. */
  lemma ObserveNotLate(p: seq<Slot>, e: Event, now: Instant, config: Config, late: nat)
    requires NotLate(p, now, late) && forall x :: x in p ==> x.emitAt <= x.firstSeen + config.maxHold
    ensures NotLate(Observe(p, e, now, config), now, late)
  {
    hide Observe, Without;
    ObserveShape(p, e, now, config);
    var p', kept := Observe(p, e, now, config), Without(p, e.key);
    forall x | x in p' ensures now <= x.emitAt + late {
      var i :| 0 <= i < |p'| && p'[i] == x;
      if i < |kept| {
        assert p'[i] == kept[i] && kept[i] in kept;
      }
    }
  }

  lemma PendingWithinHold(t: Tables, default: Option<Config>, log: seq<Op>, s: Sub, config: Config)
    requires Ok(t, default, log) && PolicyOf(t.policies, default, s) == Some(config)
    ensures forall x :: x in Run(log, s).pending ==> x.emitAt <= x.firstSeen + config.maxHold
  {
    PendingOnly(t.buffer, s, t.nextSeq, t.nextSeq);
  }

  /** The log of an admission at `now`: what it appends, and that it makes nothing overdue. */
  lemma AdmissionStaysAhead(t: Tables, t': Tables, default: Option<Config>, log: seq<Op>, op: Op, clock: Instant, late: nat)
    requires Ok(t, default, log) && Ok(t', default, log + [op])
    requires (op.Settling? || op.Passing? || op.Shedding? || op.Signal?) && Ahead(t.buffer, op.now, clock, late)
    requires op.Settling? ==> PolicyOf(t.policies, default, op.e.sub) == Some(op.config)
    ensures Ahead(t'.buffer, op.now, clock, late)
  {
    hide Ok, Run, Observe;
    AheadIsOnTime(t, default, log, op.now, late);
    AheadIsOnTime(t', default, log + [op], op.now, late);
    if NobodyLate(log, op.now, late) {
      forall s ensures NotLate(Run(log + [op], s).pending, op.now, late) {
        assert NotLate(Run(log, s).pending, op.now, late);
        RunSnoc(log, op, s);
        if op.Settling? && op.e.sub == s {
          PendingWithinHold(t, default, log, s, op.config);
          ObserveNotLate(Run(log, s).pending, op.e, op.now, op.config, late);
        }
      }
    }
  }

  // ---------------------------------------------------------------- prompt drains

  /** A subscription has been promptly drained, up to and including its last admission. */
  predicate Settled(log: seq<Op>, s: Sub) {
    Prompt(log, s) && !Undrained(log, s)
  }

  lemma PromptNext(log: seq<Op>, op: Op, s: Sub)
    requires Prompt(log, s) && (op.Admits(s) ==> !Undrained(log, s))
    ensures Prompt(log + [op], s)
    ensures Undrained(log + [op], s) <==> !op.Drain? && (op.Admits(s) || Undrained(log, s))
  {
    var log' := log + [op];
    assert log'[..|log|] == log;
    assert forall n :: 0 <= n < |log| ==> log'[n] == log[n] && log'[..n] == log[..n];
  }

  predicate Distinct(es: seq<Event>) {
    forall i, j :: 0 <= i < j < |es| ==> es[i].sub != es[j].sub
  }

  predicate Mentions(es: seq<Event>, s: Sub) {
    exists i :: 0 <= i < |es| && es[i].sub == s
  }

  /** Only the subscriptions admitted since `log0` are waiting for a drain. */
  ghost predicate Admitting(log0: seq<Op>, log: seq<Op>, es: seq<Event>) {
    forall s :: Settled(log0, s) ==> Prompt(log, s) && (Undrained(log, s) ==> Mentions(es, s))
  }

  ghost predicate StaySettled(log0: seq<Op>, log: seq<Op>) {
    forall s :: Settled(log0, s) ==> Settled(log, s)
  }

  lemma AdmittingNext(log0: seq<Op>, log: seq<Op>, op: Op, es: seq<Event>, n: nat)
    requires Distinct(es) && n < |es| && Admitting(log0, log, es[..n])
    requires (op.Settling? || op.Passing? || op.Shedding? || op.Signal?) && op.e == es[n]
    ensures Admitting(log0, log + [op], es[..n + 1])
  {
    hide Prompt, Undrained;
    forall s | Settled(log0, s)
      ensures Prompt(log + [op], s) && (Undrained(log + [op], s) ==> Mentions(es[..n + 1], s))
    {
      if op.Admits(s) {
        assert !Mentions(es[..n], s);
        assert es[..n + 1][n].sub == s;
      } else if Mentions(es[..n], s) {
        var i :| 0 <= i < n && es[..n][i].sub == s;
        assert es[..n + 1][i].sub == s;
      }
      PromptNext(log, op, s);
    }
  }

  lemma AdmittingDrained(log0: seq<Op>, log: seq<Op>, es: seq<Event>, now: Instant)
    requires Admitting(log0, log, es)
    ensures StaySettled(log0, log + [Drain(now)])
  {
    hide Prompt, Undrained;
    forall s | Settled(log0, s) ensures Settled(log + [Drain(now)], s) {
      PromptNext(log, Drain(now), s);
    }
  }

  lemma SettledNext(log0: seq<Op>, log: seq<Op>, op: Op)
    requires StaySettled(log0, log) && (op.Drain? || op.Drop?)
    ensures StaySettled(log0, log + [op])
  {
    hide Prompt, Undrained;
    forall s | Settled(log0, s) ensures Settled(log + [op], s) {
      PromptNext(log, op, s);
    }
  }

  // ---------------------------------------------------------------- what each operation adds

  /** Only a drain or a flush emits, and only an admission is admitted. */
  lemma NextAccounts(log: seq<Op>, op: Op, s: Sub)
    ensures !op.Drain? && !op.FlushAll? ==> Run(log + [op], s).emitted == Run(log, s).emitted
    ensures Run(log + [op], s).admitted == Run(log, s).admitted + if op.Admits(s) then [op.e] else []
  {
    hide Run;
    RunSnoc(log, op, s);
  }

  lemma ClockNext(log: seq<Op>, op: Op)
    ensures Clock(log + [op]) == if Timed(op) then op.now else Clock(log)
  {
    assert (log + [op])[..|log|] == log;
  }

  /** Everything that has happened since `log0`, one record at most admitted per subscription. */
  ghost predicate Since(log0: seq<Op>, log: seq<Op>, from: nat, clock: Instant, late: nat, emitted: seq<Event>, admitted: seq<Event>) {
    && log0 <= log && from <= |log0| && OnTime(log, from, clock, late)
    && (forall s :: Run(log, s).emitted == Run(log0, s).emitted + OfSub(emitted, s))
    && (forall s :: Run(log, s).admitted == Run(log0, s).admitted + OfSub(admitted, s))
  }

  lemma SinceNow(log: seq<Op>, from: nat, clock: Instant, late: nat)
    requires from <= |log| && OnTime(log, from, clock, late)
    ensures Since(log, log, from, clock, late, [], [])
  {
  }

  /** One more operation that emits nothing. */
  lemma SinceQuiet(log0: seq<Op>, log: seq<Op>, op: Op, from: nat, clock: Instant, late: nat, emitted: seq<Event>, admitted: seq<Event>)
    requires Since(log0, log, from, clock, late, emitted, admitted) && !op.Drain? && !op.FlushAll?
    ensures Since(log0, log + [op], from, clock, late, emitted,
                  admitted + if op.Settling? || op.Passing? || op.Shedding? || op.Signal? then [op.e] else [])
  {
    hide Run, OfSub, OnTime;
    OnTimeNext(log, op, from, clock, late);
    var more := if op.Settling? || op.Passing? || op.Shedding? || op.Signal? then [op.e] else [];
    forall s
      ensures Run(log + [op], s).emitted == Run(log0, s).emitted + OfSub(emitted, s)
      ensures Run(log + [op], s).admitted == Run(log0, s).admitted + OfSub(admitted + more, s)
    {
      NextAccounts(log, op, s);
      if more == [] {
        assert admitted + more == admitted;
      } else {
        OfSubSnoc(admitted, op.e, s);
      }
    }
  }

  /** One more drain, on time. */
  lemma SinceDrain(log0: seq<Op>, log: seq<Op>, now: Instant, from: nat, clock: Instant, late: nat,
                   emitted: seq<Event>, admitted: seq<Event>, batch: seq<Event>)
    requires Since(log0, log, from, clock, late, emitted, admitted)
    requires clock <= now && (now == clock || NobodyLate(log, now, late))
    requires forall s :: Run(log + [Drain(now)], s).emitted == Run(log, s).emitted + OfSub(batch, s)
    ensures Since(log0, log + [Drain(now)], from, clock, late, emitted + batch, admitted)
  {
    hide Run, OfSub, OnTime, NobodyLate;
    OnTimeNext(log, Drain(now), from, clock, late);
    forall s
      ensures Run(log + [Drain(now)], s).emitted == Run(log0, s).emitted + OfSub(emitted + batch, s)
      ensures Run(log + [Drain(now)], s).admitted == Run(log0, s).admitted + OfSub(admitted, s)
    {
      NextAccounts(log, Drain(now), s);
      OfSubConcat(emitted, batch, s);
    }
  }

  /** Whatever is still held when the driver drains is past its hold cap by no more than the driver's latency,
      unless it was overdue when the driver began. */
  lemma NeverHeldPastItsCap(log: seq<Op>, from: nat, clock: Instant, late: nat, s: Sub, config: Config, n: nat, x: Slot)
    requires Clocked(log) && SettledUnder(log, s, config) && OnTime(log, from, clock, late)
    requires from <= n < |log| && log[n].Drain? && x in Run(log[..n], s).pending
    ensures log[n].now == clock || log[n].now <= x.firstSeen + config.maxHold + late
  {
    RunHeld(log, s, config, n);
    assert WakesOnTime(log, n, clock, late);
    if log[n].now != clock {
      assert NotLate(Run(log[..n], s).pending, log[n].now, late);
    }
  }

  // ---------------------------------------------------------------- what one record adds to the log

  /** The admission of `e` at `now`, whichever of its four outcomes it had. */
  predicate IsAdmission(op: Op, e: Event, now: Instant) {
    (op.Settling? || op.Passing? || op.Shedding? || op.Signal?) && op.e == e && op.now == now
  }

  /** `log` is `log0` and one admission per event, in order. */
  predicate AdmitsEach(log0: seq<Op>, log: seq<Op>, events: seq<Event>, now: Instant) {
    && |log| == |log0| + |events| && log0 <= log
    && forall i :: 0 <= i < |events| ==> IsAdmission(log[|log0| + i], events[i], now)
  }

  /** The subscriptions whose change was shed, in the order in which that happened. */
  function ShedBy(ops: seq<Op>): seq<Sub> {
    if ops == [] then []
    else
      ShedBy(ops[..|ops| - 1]) + if ops[|ops| - 1].Shedding? then [ops[|ops| - 1].e.sub] else []
  }

  function Drops(subs: seq<Sub>): (ops: seq<Op>)
    ensures |ops| == |subs|
  {
    seq(|subs|, i requires 0 <= i < |subs| => Drop(subs[i]))
  }

  /** One record's stretch of the log: its admissions, one drain, and one drop for everything that was shed, all at
      one instant. */
  predicate PushedAt(log0: seq<Op>, log: seq<Op>, events: seq<Event>, now: Instant) {
    var m := |log0| + |events|;
    && m < |log| && AdmitsEach(log0, log[..m], events, now)
    && log[m] == Drain(now)
    && log[m + 1..] == Drops(ShedBy(log[|log0|..m]))
  }

  lemma ShedNext(log0: seq<Op>, log: seq<Op>, op: Op)
    requires log0 <= log
    ensures ShedBy((log + [op])[|log0|..]) == ShedBy(log[|log0|..]) + if op.Shedding? then [op.e.sub] else []
  {
    var ops := log[|log0|..];
    assert (log + [op])[|log0|..] == ops + [op];
    assert (ops + [op])[..|ops|] == ops;
  }

  lemma {:induction false} ShedMember(ops: seq<Op>, i: nat)
    requires i < |ops| && ops[i].Shedding?
    ensures ops[i].e.sub in ShedBy(ops)
  {
    if i < |ops| - 1 {
      ShedMember(ops[..|ops| - 1], i);
    }
  }

  lemma {:induction false} ShedOrigin(ops: seq<Op>, sub: Sub)
    requires sub in ShedBy(ops)
    ensures exists i :: 0 <= i < |ops| && ops[i].Shedding? && ops[i].e.sub == sub
  {
    var init, last := ops[..|ops| - 1], ops[|ops| - 1];
    if !(last.Shedding? && last.e.sub == sub) {
      ShedOrigin(init, sub);
      var i :| 0 <= i < |init| && init[i].Shedding? && init[i].e.sub == sub;
      assert ops[i] == init[i];
    }
  }

  /** The three parts of a record's stretch, position by position. */
  lemma StretchParts(log0: seq<Op>, log: seq<Op>, events: seq<Event>, now: Instant, n: nat)
    requires PushedAt(log0, log, events, now) && |log0| <= n < |log|
    ensures
      var m := |log0| + |events|;
      var subs := ShedBy(log[|log0|..m]);
      && (n < m ==> IsAdmission(log[n], events[n - |log0|], now) && log[n] == log[|log0|..m][n - |log0|])
      && (n == m ==> log[n].Drain?)
      && |log| == m + 1 + |subs| && (n > m ==> log[n] == Drop(subs[n - m - 1]))
  {
    hide ShedBy;
    var m := |log0| + |events|;
    if n < m {
      assert IsAdmission(log[..m][|log0| + (n - |log0|)], events[n - |log0|], now);
    } else if n > m {
      assert log[n] == log[m + 1..][n - m - 1];
    }
  }

  /** Whatever shed since `log0` was dropped afterwards, and nothing else was. */
  ghost predicate ShedAreDropped(log0: seq<Op>, log: seq<Op>) {
    forall n :: |log0| <= n < |log| ==>
      && (log[n].Shedding? ==> exists d :: n < d < |log| && log[d] == Drop(log[n].e.sub))
      && (log[n].Drop? ==> exists d :: |log0| <= d < n && log[d].Shedding? && log[d].e.sub == log[n].sub)
  }

  lemma ShedIsListed(log0: seq<Op>, log: seq<Op>, events: seq<Event>, now: Instant, n: nat)
    requires PushedAt(log0, log, events, now) && |log0| <= n < |log| && log[n].Shedding?
    ensures n < |log0| + |events| && log[n].e.sub in ShedBy(log[|log0|..|log0| + |events|])
  {
    StretchParts(log0, log, events, now, n);
    hide ShedBy, AdmitsEach;
    ShedMember(log[|log0|..|log0| + |events|], n - |log0|);
  }

  lemma PushedDropsWhatShed(log0: seq<Op>, log: seq<Op>, events: seq<Event>, now: Instant)
    requires PushedAt(log0, log, events, now)
    ensures ShedAreDropped(log0, log)
  {
    hide ShedBy, PushedAt;
    var m := |log0| + |events|;
    forall n | |log0| <= n < |log|
      ensures log[n].Shedding? ==> exists d :: n < d < |log| && log[d] == Drop(log[n].e.sub)
      ensures log[n].Drop? ==> exists d :: |log0| <= d < n && log[d].Shedding? && log[d].e.sub == log[n].sub
    {
      StretchParts(log0, log, events, now, n);
      var ops := log[|log0|..m];
      var subs := ShedBy(ops);
      if log[n].Shedding? {
        ShedIsListed(log0, log, events, now, n);
        var j :| 0 <= j < |subs| && subs[j] == log[n].e.sub;
        StretchParts(log0, log, events, now, m + 1 + j);
      } else if log[n].Drop? {
        ShedOrigin(ops, subs[n - m - 1]);
        var i :| 0 <= i < |ops| && ops[i].Shedding? && ops[i].e.sub == subs[n - m - 1];
        assert log[|log0| + i] == ops[i];
      }
    }
  }

  /** A subscription of which nothing is left. */
  ghost predicate HoldsNothing(c: Coalescer, s: Sub)
    reads c
  {
    s !in c.perSubLen && (forall k :: k in c.buffer ==> k.sub != s) && ReadyOf(c.ready, s) == []
  }

  // ---------------------------------------------------------------- the driver

  /** Admits the next delivery of a record. */
  method AdmitOne(c: Coalescer, events: seq<Event>, i: nat, now: Instant, ghost log0: seq<Op>,
                  ghost from: nat, ghost clock: Instant, ghost late: nat)
    returns (shed: Option<Sub>)
    requires i < |events| && c.Valid() && Clock(c.log) <= now && Ahead(c.buffer, now, clock, late)
    requires Since(log0, c.log, from, clock, late, [], events[..i])
    requires Distinct(events) ==> Admitting(log0, c.log, events[..i])
    modifies c
    ensures c.Valid() && Clock(c.log) <= now && Ahead(c.buffer, now, clock, late)
    ensures Since(log0, c.log, from, clock, late, [], events[..i + 1])
    ensures Distinct(events) ==> Admitting(log0, c.log, events[..i + 1])
    ensures |c.log| == |old(c.log)| + 1 && old(c.log) <= c.log
    ensures IsAdmission(c.log[|old(c.log)|], events[i], now)
    ensures shed == if c.log[|old(c.log)|].Shedding? then Some(events[i].sub) else None
  {
    hide Ok, Run, Since, OnTime, Admitting, Ahead;
    ghost var op, t, log := c.Outcome(events[i], now), c.Contents(), c.log;
    shed := c.Admit(events[i], now);
    assert events[..i] + [events[i]] == events[..i + 1];
    SinceQuiet(log0, log, op, from, clock, late, [], events[..i]);
    AdmissionStaysAhead(t, c.Contents(), c.default, log, op, clock, late);
    ClockNext(log, op);
    if Distinct(events) { AdmittingNext(log0, log, op, events, i); }
  }

  /** Admits one record's deliveries, noting the subscriptions that overflowed. */
  method AdmitAll(c: Coalescer, events: seq<Event>, now: Instant, ghost from: nat, ghost clock: Instant, ghost late: nat)
    returns (overflowed: seq<Sub>)
    requires c.Valid() && Clock(c.log) <= now
    requires from <= |c.log| && OnTime(c.log, from, clock, late) && Ahead(c.buffer, now, clock, late)
    modifies c
    ensures c.Valid() && Clock(c.log) <= now
    ensures Since(old(c.log), c.log, from, clock, late, [], events) && Ahead(c.buffer, now, clock, late)
    ensures Distinct(events) ==> Admitting(old(c.log), c.log, events)
    ensures AdmitsEach(old(c.log), c.log, events, now) && overflowed == ShedBy(c.log[|old(c.log)|..])
  {
    hide Ok, Run, Since, OnTime, Admitting, Ahead, ShedBy;
    NothingShed(c.log);
    SinceNow(c.log, from, clock, late);
    AdmittingNothing(c.log);
    overflowed := [];
    var i := 0;
    while i < |events|
      invariant i <= |events| && c.Valid() && Clock(c.log) <= now
      invariant Since(old(c.log), c.log, from, clock, late, [], events[..i]) && Ahead(c.buffer, now, clock, late)
      invariant Distinct(events) ==> Admitting(old(c.log), c.log, events[..i])
      invariant AdmitsEach(old(c.log), c.log, events[..i], now) && overflowed == ShedBy(c.log[|old(c.log)|..])
    {
      ghost var log := c.log;
      var shed := AdmitOne(c, events, i, now, old(c.log), from, clock, late);
      assert c.log == log + [c.log[|log|]];
      ShedNext(old(c.log), log, c.log[|log|]);
      if shed.Some? {
        overflowed := overflowed + [shed.value];
      }
      i := i + 1;
    }
    assert events[..i] == events;
  }

  lemma NothingShed(log: seq<Op>)
    ensures ShedBy(log[|log|..]) == []
  {
  }

  lemma AdmittingNothing(log: seq<Op>)
    ensures Admitting(log, log, []) && StaySettled(log, log)
  {
  }

  /** What is left once everything due at `now` is gone. */
  ghost predicate Drained(b: Buffer, ready: seq<Ticket>, now: Instant) {
    ready == [] && forall k :: k in b ==> now < b[k].emitAt
  }

  /** Drops one subscription that a cap shed. */
  method DropOne(c: Coalescer, sub: Sub, now: Instant, ghost log0: seq<Op>, ghost from: nat, ghost clock: Instant, ghost late: nat,
                 ghost out: seq<Event>, ghost events: seq<Event>)
    requires c.Valid() && Clock(c.log) == now && Drained(c.buffer, c.ready, now)
    requires Since(log0, c.log, from, clock, late, out, events)
    modifies c
    ensures c.Valid() && Clock(c.log) == now && Drained(c.buffer, c.ready, now)
    ensures Since(log0, c.log, from, clock, late, out, events)
    ensures old(StaySettled(log0, c.log)) ==> StaySettled(log0, c.log)
    ensures c.log == old(c.log) + [Drop(sub)]
    ensures forall k :: k in c.buffer ==> k in old(c.buffer) && k.sub != sub
  {
    hide Ok, Run, Since, StaySettled, HandsBack, OfSub;
    ghost var log := c.log;
    var _ := c.DropSubscription(sub);
    assert events + [] == events;
    SinceQuiet(log0, log, Drop(sub), from, clock, late, out, events);
    ClockNext(log, Drop(sub));
    if StaySettled(log0, log) { SettledNext(log0, log, Drop(sub)); }
  }

  /** Drops what a cap shed; a rescan is owed for it elsewhere. */
  method DropAll(c: Coalescer, subs: seq<Sub>, now: Instant, ghost log0: seq<Op>, ghost from: nat, ghost clock: Instant, ghost late: nat,
                 ghost out: seq<Event>, ghost events: seq<Event>)
    requires c.Valid() && Clock(c.log) == now && Drained(c.buffer, c.ready, now)
    requires Since(log0, c.log, from, clock, late, out, events)
    modifies c
    ensures c.Valid() && Clock(c.log) == now && Drained(c.buffer, c.ready, now)
    ensures Since(log0, c.log, from, clock, late, out, events)
    ensures old(StaySettled(log0, c.log)) ==> StaySettled(log0, c.log)
    ensures c.log == old(c.log) + Drops(subs)
    ensures forall s :: s in subs ==> HoldsNothing(c, s)
  {
    hide Ok, Run, Since, StaySettled, OfSub, Clock;
    var i := 0;
    while i < |subs|
      invariant i <= |subs| && c.Valid() && Clock(c.log) == now && Drained(c.buffer, c.ready, now)
      invariant Since(log0, c.log, from, clock, late, out, events)
      invariant old(StaySettled(log0, c.log)) ==> StaySettled(log0, c.log)
      invariant c.log == old(c.log) + Drops(subs[..i])
      invariant forall k :: k in c.buffer ==> k.sub !in subs[..i]
    {
      assert Drops(subs[..i + 1]) == Drops(subs[..i]) + [Drop(subs[i])];
      DropOne(c, subs[i], now, log0, from, clock, late, out, events);
      i := i + 1;
    }
    assert subs[..i] == subs;
    OfSubNoneReady();
    forall s | s in subs ensures HoldsNothing(c, s) {
      if s in c.perSubLen { CountedHolds(c.Contents(), c.default, c.log, s); }
    }
  }

  lemma CountedHolds(t: Tables, default: Option<Config>, log: seq<Op>, s: Sub)
    requires Ok(t, default, log) && s in t.perSubLen
    ensures exists k :: k in t.buffer && k.sub == s
  {
    assert |KeysOf(t.buffer, s)| > 0;
    var k :| k in KeysOf(t.buffer, s);
  }

  lemma OfSubNoneReady()
    ensures forall s :: ReadyOf([], s) == []
  {
  }

  /** Drains what is due at `now`. */
  method Tick(c: Coalescer, now: Instant, ghost log0: seq<Op>, ghost from: nat, ghost clock: Instant, ghost late: nat,
              ghost emitted: seq<Event>, ghost admitted: seq<Event>)
    returns (batch: seq<Event>)
    requires c.Valid() && Clock(c.log) <= now && clock <= now
    requires Since(log0, c.log, from, clock, late, emitted, admitted) && Ahead(c.buffer, now, clock, late)
    modifies c
    ensures c.Valid() && Clock(c.log) == now && Drained(c.buffer, c.ready, now)
    ensures c.log == old(c.log) + [Drain(now)] && c.buffer == Part(old(c.buffer), now, false)
    ensures Since(log0, c.log, from, clock, late, emitted + batch, admitted)
  {
    hide Ok, Run, Since, NobodyLate, Grouped;
    AheadIsOnTime(c.Contents(), c.default, c.log, now, late);
    ClockNext(c.log, Drain(now));
    batch := c.DrainReady(now, []);
    assert batch[0..] == batch;
    SinceDrain(log0, old(c.log), now, from, clock, late, emitted, admitted, batch);
  }

  /** Admits one record's deliveries, drains what is due, and drops what overflowed. */
  method PushAll(c: Coalescer, events: seq<Event>, now: Instant, ghost from: nat, ghost clock: Instant, ghost late: nat)
    returns (out: seq<Event>)
    requires c.Valid() && Clock(c.log) <= now && clock <= now
    requires from <= |c.log| && OnTime(c.log, from, clock, late) && Ahead(c.buffer, now, clock, late)
    modifies c
    ensures c.Valid() && Clock(c.log) == now && Drained(c.buffer, c.ready, now)
    ensures Since(old(c.log), c.log, from, clock, late, out, events)
    ensures Distinct(events) ==> StaySettled(old(c.log), c.log)
    ensures PushedAt(old(c.log), c.log, events, now)
    ensures ShedAreDropped(old(c.log), c.log)
    ensures forall n :: |old(c.log)| <= n < |c.log| && c.log[n].Shedding? ==> HoldsNothing(c, c.log[n].e.sub)
  {
    hide Ok, Run, Since, OnTime, Admitting, StaySettled, Ahead, Drained, Part, HoldsNothing, ShedBy, PushedAt, ShedAreDropped;
    var overflowed := AdmitAll(c, events, now, from, clock, late);
    if Distinct(events) { AdmittingDrained(old(c.log), c.log, events, now); }
    out := Tick(c, now, old(c.log), from, clock, late, [], events);
    assert [] + out == out;
    ghost var log := c.log;
    DropAll(c, overflowed, now, old(c.log), from, clock, late, out, events);
    PushedThen(old(c.log), log, c.log, events, now, overflowed);
    PushedDropsWhatShed(old(c.log), c.log, events, now);
    forall n | |old(c.log)| <= n < |c.log| && c.log[n].Shedding? ensures HoldsNothing(c, c.log[n].e.sub) {
      ShedIsListed(old(c.log), c.log, events, now, n);
    }
  }

  lemma PushedThen(log0: seq<Op>, log1: seq<Op>, log2: seq<Op>, events: seq<Event>, now: Instant, shed: seq<Sub>)
    requires |log1| == |log0| + |events| + 1 && AdmitsEach(log0, log1[..|log1| - 1], events, now)
    requires log1[|log1| - 1] == Drain(now) && log2 == log1 + Drops(shed)
    requires shed == ShedBy(log1[..|log1| - 1][|log0|..])
    ensures PushedAt(log0, log2, events, now) && log2[|log0|..|log0| + |events|] == log1[..|log1| - 1][|log0|..]
  {
    var m := |log1| - 1;
    assert log2[..m] == log1[..m] && log2[m + 1..] == Drops(shed);
    assert log2[|log0|..m] == log1[..m][|log0|..];
  }

  /** One stretch after another. */
  lemma SinceThen(log0: seq<Op>, log1: seq<Op>, log2: seq<Op>, from: nat, clock: Instant, late: nat,
                  out1: seq<Event>, out2: seq<Event>, in1: seq<Event>, in2: seq<Event>)
    requires Since(log0, log1, from, clock, late, out1, in1) && Since(log1, log2, from, clock, late, out2, in2)
    ensures Since(log0, log2, from, clock, late, out1 + out2, in1 + in2)
  {
    hide Run, OfSub, OnTime;
    forall s
      ensures Run(log2, s).emitted == Run(log0, s).emitted + OfSub(out1 + out2, s)
      ensures Run(log2, s).admitted == Run(log0, s).admitted + OfSub(in1 + in2, s)
    {
      OfSubConcat(out1, out2, s);
      OfSubConcat(in1, in2, s);
    }
  }

  /** Draining at a due deadline takes something out. */
  lemma PartShrinks(b: Buffer, now: Instant)
    ensures |Part(b, now, false)| <= |b|
    ensures (exists k :: k in b && b[k].emitAt <= now) ==> |Part(b, now, false)| < |b|
  {
    var c := Part(b, now, false);
    assert b.Keys == c.Keys + (b.Keys - c.Keys);
    assert |b| == |b.Keys| && |c| == |c.Keys|;
    if k :| k in b && b[k].emitAt <= now {
      assert k in b.Keys - c.Keys;
    }
  }

  predicate AllDistinct(records: seq<Record>) {
    forall i :: 0 <= i < |records| ==> Distinct(records[i].deliveries)
  }

  /** From position `n` the log takes in one record, all at one instant: when the record was there to be read, or as
      soon after as the driver, which began at `clock`, was done with what it did before. */
  predicate ReadAt(log: seq<Op>, n: nat, r: Record, clock: Instant) {
    var m := n + |r.deliveries|;
    && m < |log| && log[m].Drain? && AdmitsEach(log[..n], log[..m], r.deliveries, log[m].now)
    && r.at <= log[m].now && clock <= log[m].now && Clock(log[..n]) <= log[m].now
    && (log[m].now == r.at || log[m].now == clock || log[m].now == Clock(log[..n]))
  }

  /** From `lo` to `hi` the driver never sleeps past `at`: each drain is before it, or at the instant the driver had
      already reached. */
  predicate NeverOversleeps(log: seq<Op>, lo: nat, hi: nat, at: Instant, clock: Instant)
    requires hi <= |log|
  {
    forall d :: lo <= d < hi && log[d].Drain? ==>
      log[d].now < at || log[d].now == clock || log[d].now <= Clock(log[..d])
  }

  /** Where the driver is free again after the first `i` records. */
  function FreeFrom(from: nat, records: seq<Record>, marks: seq<nat>, i: nat): nat
    requires i <= |marks| <= |records|
  {
    if i == 0 then from else marks[i - 1] + |records[i - 1].deliveries| + 1
  }

  /** The log from `from` on takes in the first records one after the other, each from its own mark, and the driver
      does not sleep past any of them. */
  predicate ReadInTurn(log: seq<Op>, from: nat, records: seq<Record>, marks: seq<nat>, clock: Instant) {
    && |marks| <= |records|
    && (forall i :: 0 <= i < |marks| ==> TakenIn(log, from, records, marks, i, clock))
  }

  predicate TakenIn(log: seq<Op>, from: nat, records: seq<Record>, marks: seq<nat>, i: nat, clock: Instant)
    requires i < |marks| <= |records|
  {
    && ReadAt(log, marks[i], records[i], clock)
    && FreeFrom(from, records, marks, i) <= marks[i]
    && NeverOversleeps(log, FreeFrom(from, records, marks, i), marks[i], records[i].at, clock)
  }

  /** What was taken in stays taken in as log and marks grow. */
  lemma TakenStill(log: seq<Op>, log': seq<Op>, from: nat, records: seq<Record>, marks: seq<nat>, marks': seq<nat>, i: nat, clock: Instant)
    requires log <= log' && marks <= marks' && i < |marks| <= |marks'| <= |records|
    requires TakenIn(log, from, records, marks, i, clock)
    ensures TakenIn(log', from, records, marks', i, clock)
  {
    hide AdmitsEach, Clock;
    var n, m := marks[i], marks[i] + |records[i].deliveries|;
    assert marks'[..i + 1] == marks[..i + 1];
    assert marks'[i] == marks'[..i + 1][i] && (i > 0 ==> marks'[i - 1] == marks'[..i + 1][i - 1]);
    assert log'[..n] == log[..n] && log'[..m] == log[..m] && log'[m] == log[m];
    assert forall d :: 0 <= d < n ==> log'[d] == log[d] && log'[..d] == log[..d];
  }

  /** The records read so far, and no oversleeping since. */
  predicate OnTrack(log: seq<Op>, from: nat, records: seq<Record>, marks: seq<nat>, clock: Instant) {
    && ReadInTurn(log, from, records, marks, clock)
    && FreeFrom(from, records, marks, |marks|) <= |log|
    && (|marks| < |records| ==>
          NeverOversleeps(log, FreeFrom(from, records, marks, |marks|), |log|, records[|marks|].at, clock))
  }

  lemma TrackStart(log: seq<Op>, records: seq<Record>, clock: Instant)
    ensures OnTrack(log, |log|, records, [], clock)
  {
  }

  /** One drain before the next record is there, or at an instant already reached. */
  lemma TrackDrain(log: seq<Op>, from: nat, records: seq<Record>, marks: seq<nat>, clock: Instant, now: Instant)
    requires OnTrack(log, from, records, marks, clock)
    requires |marks| < |records| ==> now < records[|marks|].at || now == clock || now <= Clock(log)
    ensures OnTrack(log + [Drain(now)], from, records, marks, clock)
  {
    hide Clock, TakenIn;
    var log' := log + [Drain(now)];
    assert forall d :: 0 <= d <= |log| ==> log'[..d] == log[..d];
    assert log[..|log|] == log;
    forall i | 0 <= i < |marks| ensures TakenIn(log', from, records, marks, i, clock) {
      TakenStill(log, log', from, records, marks, marks, i, clock);
    }
  }

  /** The stretch that takes in a record reads it at its own instant. */
  lemma StretchReads(log0: seq<Op>, log: seq<Op>, r: Record, clock: Instant, now: Instant)
    requires PushedAt(log0, log, r.deliveries, now)
    requires r.at <= now && clock <= now && Clock(log0) <= now && (now == r.at || now == clock || now == Clock(log0))
    ensures log0 <= log && ReadAt(log, |log0|, r, clock) && |log0| + |r.deliveries| < |log|
  {
    hide Clock, ShedBy, Drops, AdmitsEach;
    var m := |log0| + |r.deliveries|;
    EachExtends(log0, log[..m], r.deliveries, now);
    PrefixOfPrefix(log0, log, m);
  }

  lemma EachExtends(log0: seq<Op>, log: seq<Op>, events: seq<Event>, now: Instant)
    requires AdmitsEach(log0, log, events, now)
    ensures log0 <= log
  {
  }

  lemma PrefixOfPrefix(log0: seq<Op>, log: seq<Op>, m: nat)
    requires m <= |log| && log0 <= log[..m]
    ensures log0 <= log && log[..|log0|] == log0
  {
    assert log[..|log0|] == log[..m][..|log0|];
  }

  /** It holds no drain but its own. */
  lemma StretchDrains(log0: seq<Op>, log: seq<Op>, events: seq<Event>, now: Instant, d: nat)
    requires PushedAt(log0, log, events, now) && |log0| + |events| < d < |log|
    ensures !log[d].Drain?
  {
    StretchParts(log0, log, events, now, d);
    hide PushedAt;
  }

  lemma TrackRead(log0: seq<Op>, log: seq<Op>, from: nat, records: seq<Record>, marks: seq<nat>, clock: Instant, now: Instant)
    requires OnTrack(log0, from, records, marks, clock) && |marks| < |records|
    requires PushedAt(log0, log, records[|marks|].deliveries, now)
    requires records[|marks|].at <= now && clock <= now && Clock(log0) <= now
    requires now == records[|marks|].at || now == clock || now == Clock(log0)
    ensures OnTrack(log, from, records, marks + [|log0|], clock)
  {
    hide Clock, PushedAt, ReadAt;
    var i, marks' := |marks|, marks + [|log0|];
    StretchReads(log0, log, records[i], clock, now);
    forall d | |log0| + |records[i].deliveries| < d < |log| ensures !log[d].Drain? {
      StretchDrains(log0, log, records[i].deliveries, now, d);
    }
    assert forall d :: 0 <= d < |log0| ==> log[d] == log0[d] && log[..d] == log0[..d];
    assert TakenIn(log, from, records, marks', i, clock);
    forall j | 0 <= j < |marks'| ensures TakenIn(log, from, records, marks', j, clock) {
      if j < i { TakenStill(log0, log, from, records, marks, marks', j, clock); }
    }
    hide TakenIn;
  }

  /** Where the driver stands: how far it has read, and what has come of it. */
  ghost predicate Driven(c: Coalescer, log0: seq<Op>, clock: Instant, late: nat, now: Instant, records: seq<Record>, marks: seq<nat>,
                         out: seq<Event>)
    requires |marks| <= |records|
    reads c
  {
    && c.Valid() && clock <= now && Clock(c.log) <= now
    && (now == clock || now == Clock(c.log))
    && OnTrack(c.log, |log0|, records, marks, clock)
    && Since(log0, c.log, |log0|, clock, late, out, Delivered(records[..|marks|]))
    && (now == clock || Drained(c.buffer, c.ready, now))
    && (AllDistinct(records[..|marks|]) ==> StaySettled(log0, c.log))
  }

  lemma SettledThen(log0: seq<Op>, log1: seq<Op>, log2: seq<Op>)
    requires StaySettled(log0, log1) && StaySettled(log1, log2)
    ensures StaySettled(log0, log2)
  {
  }

  lemma DeliveredNext(records: seq<Record>, i: nat)
    requires i < |records|
    ensures Delivered(records[..i + 1]) == Delivered(records[..i]) + records[i].deliveries
    ensures AllDistinct(records[..i + 1]) <==> AllDistinct(records[..i]) && Distinct(records[i].deliveries)
  {
    assert records[..i + 1][..i] == records[..i];
    assert records[..i + 1] == records[..i] + [records[i]];
  }

  /** Reads the next record and pushes what it delivers. */
  method ReadRecord(c: Coalescer, clock: Instant, ghost late: nat, was: Instant, now: Instant, records: seq<Record>, i: nat,
                    ghost log0: seq<Op>, ghost marks: seq<nat>, out0: seq<Event>) returns (out: seq<Event>)
    requires |marks| == i < |records| && Driven(c, log0, clock, late, was, records, marks, out0)
    requires now == if was < records[i].at then records[i].at else was
    requires now == was || forall k :: k in c.buffer ==> now <= c.buffer[k].emitAt + late
    modifies c
    ensures Driven(c, log0, clock, late, now, records, marks + [|old(c.log)|], out)
  {
    hide Ok, Run, OnTime, StaySettled, AllDistinct, Distinct, OnTrack, PushedAt, ShedAreDropped, HoldsNothing;
    ghost var log := c.log;
    DeliveredNext(records, i);
    var batch := PushAll(c, records[i].deliveries, now, |log0|, clock, late);
    TrackRead(log, c.log, |log0|, records, marks, clock, now);
    out := out0 + batch;
    assert Since(log0, c.log, |log0|, clock, late, out, Delivered(records[..i + 1])) by {
      SinceThen(log0, log, c.log, |log0|, clock, late, out0, batch, Delivered(records[..i]), records[i].deliveries);
    }
    hide Since;
    if AllDistinct(records[..i + 1]) { SettledThen(log0, log, c.log); }
  }

  /** Wakes at a deadline and drains. */
  method Wake(c: Coalescer, clock: Instant, ghost late: nat, was: Instant, now: Instant, ghost records: seq<Record>,
              ghost log0: seq<Op>, ghost marks: seq<nat>, out0: seq<Event>) returns (out: seq<Event>)
    requires |marks| <= |records| && Driven(c, log0, clock, late, was, records, marks, out0) && was <= now
    requires now == was || forall k :: k in c.buffer ==> now <= c.buffer[k].emitAt + late
    requires now == was || |marks| == |records| || now < records[|marks|].at
    modifies c
    ensures Driven(c, log0, clock, late, now, records, marks, out)
    ensures c.ready == [] && c.buffer == Part(old(c.buffer), now, false)
  {
    hide Ok, Run, Since, OnTime, StaySettled, AllDistinct, Part, OnTrack;
    ghost var log := c.log;
    var batch := Tick(c, now, log0, |log0|, clock, late, out0, Delivered(records[..|marks|]));
    out := out0 + batch;
    TrackDrain(log, |log0|, records, marks, clock, now);
    if AllDistinct(records[..|marks|]) { SettledNext(log0, log, Drain(now)); }
  }

  /** Sleeps until the next deadline or the next record, whichever is first, until there is neither; each
      sleep may overrun by its delay. A record may deliver nothing: that is any other wake-up of the owner. The
      loop ends with everything read and everything held handed out; each record is read when it is there or as soon
      after as the driver is free, and the driver sleeps past none; no drain comes more than the latency
      after a deadline still pending; and a subscription that is told at most one thing per record is promptly
      drained. */
  method Drive(c: Coalescer, clock: Instant, records: seq<Record>, delays: seq<nat>, late: nat)
    returns (out: seq<Event>, ghost marks: seq<nat>)
    requires c.Valid() && Clock(c.log) <= clock && forall n :: 0 <= n < |delays| ==> delays[n] <= late
    modifies c
    ensures c.Valid() && c.buffer == map[] && c.ready == []
    ensures Since(old(c.log), c.log, |old(c.log)|, clock, late, out, Delivered(records))
    ensures AllDistinct(records) ==> forall s :: Settled(old(c.log), s) ==> Settled(c.log, s)
    ensures |marks| == |records| && ReadInTurn(c.log, |old(c.log)|, records, marks, clock)
  {
    hide Ok, Run, Since, OnTime, Settled, AllDistinct, Part, ReadInTurn, NeverOversleeps;
    ghost var log0 := c.log;
    out, marks := [], [];
    SinceNow(log0, |log0|, clock, late);
    AdmittingNothing(log0);
    TrackStart(log0, records, clock);
    var now: Instant, i: nat, slept: nat := clock, 0, 0;
    var wake := c.NextDeadline();
    while i < |records| || wake.Some?
      invariant |marks| == i <= |records| && Driven(c, log0, clock, late, now, records, marks, out)
      invariant wake.None? <==> c.buffer == map[] && c.ready == []
      invariant wake.Some? ==> forall k :: k in c.buffer ==> wake.value <= c.buffer[k].emitAt
      invariant wake.Some? && c.ready == [] ==> exists k :: k in c.buffer && c.buffer[k].emitAt == wake.value
      decreases |records| - i, |c.buffer| + |c.ready|
    {
      var was := now;
      var delay := if slept < |delays| then delays[slept] else 0;
      slept := slept + 1;
      if i < |records| && (wake.None? || records[i].at <= wake.value + delay) {
        now := if was < records[i].at then records[i].at else was;
        ghost var mark := |c.log|;
        out := ReadRecord(c, clock, late, was, now, records, i, log0, marks, out);
        marks := marks + [mark];
        i := i + 1;
      } else {
        now := if was < wake.value + delay then wake.value + delay else was;
        PartShrinks(c.buffer, now);
        out := Wake(c, clock, late, was, now, records, log0, marks, out);
      }
      wake := c.NextDeadline();
    }
    assert records[..i] == records;
  }
}
