/** The settle/debounce coalescer as it runs: a buffer keyed by (subscription, path), a deadline
    index, per-subscription counters, a ready queue and an admission counter, all updated in
    place. `Valid` says the index and counters are exact and that every subscription's share of
    the tables is the state its run of the simple machine has reached.
 */
module Coalescing {
  import opened Events
  import opened Settle
  import opened SettleOrder
  import opened Ordering
  import opened BufferView
  import opened CoalescerTables
  import opened SalvageCounts

  datatype Debounce = Inherit | Off | Custom(config: Config)

  /** What a removal hands back to the caller instead of destroying it. */
  datatype Salvage = Salvage(keys: seq<Key>, events: seq<Event>)

  /** Everything dropped with a subscription: per buffered entry its event and three copies of its key,
      and every ready event. */
  ghost predicate HandsBack(b: Buffer, ready: seq<Ticket>, sub: Sub, salvage: Salvage) {
    exists ps: seq<Pick> ::
      && PicksOf(ps, Only(b, sub)) && |ps| == |KeysOf(b, sub)|
      && (forall x :: x in ps ==> x.slot in b)
      && salvage == Salvage(ThreePaths(ps), Take(b, ps) + ReadyOf(ready, sub))
  }

  lemma HandedBack(b: Buffer, ready: seq<Ticket>, sub: Sub, ps: seq<Pick>)
    requires PicksOf(ps, Only(b, sub)) && |ps| == |KeysOf(b, sub)| && forall x :: x in ps ==> x.slot in b
    ensures HandsBack(b, ready, sub, Salvage(ThreePaths(ps), Take(b, ps) + ReadyOf(ready, sub)))
  {
  }

  /** Whatever joined the ready queue did so behind what was there, and is due at `now`. */
  predicate JoinedAt(before: seq<Ticket>, after: seq<Ticket>, now: Instant) {
    before <= after && forall i :: |before| <= i < |after| ==> after[i].at == now
  }

  lemma JoinedNext(before: seq<Ticket>, after: seq<Ticket>, now: Instant, e: Event)
    ensures JoinedAt(before, before, now)
    ensures JoinedAt(before, after, now) ==> JoinedAt(before, after + [Ticket(now, e)], now)
  {
  }

  /** The keys hold two copies of every buffered key. */
  ghost predicate TwoCopies(keys: seq<Key>, b: Buffer) {
    exists x, y :: Lists(x, b) && Lists(y, b) && keys == Paths(x) + Paths(y)
  }

  lemma EarlierOfTwo(firstSeen: Instant, now: Instant, config: Config)
    ensures
      var at := Deadline(firstSeen, now, config);
      && at <= now + config.quietWindow && at <= firstSeen + config.maxHold
      && (at == now + config.quietWindow || at == firstSeen + config.maxHold)
  {
  }

  lemma MergeStamp(buffered: Event, e: Event)
    ensures Merge(buffered, e).Some? ==> Merge(buffered, e).value.epoch == e.epoch
  {
  }

  class Coalescer {
    const default: Option<Config>
    var policies: map<Sub, Option<Config>>
    var perSubLen: map<Sub, nat>
    var buffer: Buffer
    var deadlines: set<Due>
    var ready: seq<Ticket>
    var nextSeq: nat
    /** Everything that has happened, oldest first. */
    ghost var log: seq<Op>

    ghost function Contents(): Tables
      reads this
    {
      Tables(policies, perSubLen, buffer, deadlines, ready, nextSeq)
    }

    ghost predicate Valid()
      reads this
    {
      Ok(Contents(), default, log)
    }

    constructor (default: Option<Config>)
      ensures Valid()
      ensures this.default == default && Contents() == Tables(map[], map[], map[], {}, [], 0) && log == []
    {
      this.default := default;
      policies, perSubLen, buffer, deadlines, ready, nextSeq := map[], map[], map[], {}, [], 0;
      log := [];
      new;
      StartOk(default);
    }

    // -------------------------------------------------------------- policies and caps

    function EffectivePolicy(s: Sub): Option<Config>
      reads this
    {
      PolicyOf(policies, default, s)
    }

    function StructuralCap(): nat {
      StructuralCapOf(default)
    }

    /** Registers a subscription's posture; it must hold nothing buffered. */
    method SetPolicy(sub: Sub, policy: Debounce)
      requires Valid() && sub !in perSubLen
      modifies this`policies
      ensures Valid()
      ensures forall s :: s != sub ==> EffectivePolicy(s) == old(EffectivePolicy(s))
      ensures EffectivePolicy(sub) == match policy case Inherit => default case Off => None case Custom(c) => Some(c)
    {
      match policy {
        case Inherit => policies := policies - {sub};
        case Off => policies := policies[sub := None];
        case Custom(config) => policies := policies[sub := Some(config)];
      }
      PolicyKeeps(old(Contents()), policies, default, log, sub);
    }

    // -------------------------------------------------------------- small steps

    method BumpSeq() returns (seqNo: nat)
      modifies this`nextSeq
      ensures seqNo == old(nextSeq) && nextSeq == old(nextSeq) + 1
    {
      seqNo := nextSeq;
      nextSeq := nextSeq + 1;
    }

    /** The counter is always there to decrement, and never a stored zero. */
    method DecPerSub(sub: Sub)
      requires sub in perSubLen && perSubLen[sub] > 0
      modifies this`perSubLen
      ensures perSubLen == Decrement(old(perSubLen), sub)
    {
      var count := perSubLen[sub] - 1;
      if count == 0 {
        perSubLen := perSubLen - {sub};
      } else {
        perSubLen := perSubLen[sub := count];
      }
    }

    /** The ordered scan from `(sub, [])` returns exactly the entries of `sub`, each once. */
    method SubscriptionEntries(sub: Sub) returns (entries: seq<Pick>)
      ensures PicksOf(entries, Only(buffer, sub))
      ensures forall i, j :: 0 <= i < j < |entries| ==> entries[i].slot != entries[j].slot
      ensures |entries| == |KeysOf(buffer, sub)|
    {
      hide SlotLeq, SlotsAscend, PicksOf, Only, KeysOf;
      var walk := WalkSlots(buffer.Keys);
      var i := 0;
      while i < |walk| && !SlotLeq(SlotKey(sub, []), walk[i])
        invariant i <= |walk|
        invariant forall j :: 0 <= j < i ==> !SlotLeq(SlotKey(sub, []), walk[j])
      {
        i := i + 1;
      }
      ghost var from := i;
      entries := [];
      WalkBuffered(buffer, walk);
      while i < |walk| && walk[i].sub == sub
        invariant from <= i <= |walk|
        invariant forall j :: from <= j < i ==> walk[j].sub == sub
        invariant entries == PickAll(buffer, walk[from..i])
      {
        StretchNext(buffer, walk, from, i);
        entries := entries + [Pick(sub, buffer[walk[i]].seqNo, walk[i])];
        i := i + 1;
      }
      ScanExact(buffer, walk, from, i, sub);
    }

    // -------------------------------------------------------------- flushing one subscription

    /** Takes the listed entries out of the buffer and its index, in order, into the ready queue. */
    method MoveToReady(entries: seq<Pick>, now: Instant)
      requires Indexed(buffer, deadlines)
      requires forall x :: x in entries ==> x.slot in buffer
      requires forall i, j :: 0 <= i < j < |entries| ==> entries[i].slot != entries[j].slot
      modifies this`buffer, this`deadlines, this`ready
      ensures buffer == Rest(old(buffer), entries) && Indexed(buffer, deadlines)
      ensures ready == old(ready) + Stamp(Take(old(buffer), entries), now)
    {
      ghost var b0, r0 := buffer, ready;
      var i := 0;
      while i < |entries|
        invariant i <= |entries|
        invariant forall x :: x in entries[..i] ==> x.slot in b0
        invariant buffer == Rest(b0, entries[..i]) && Indexed(buffer, deadlines)
        invariant ready == r0 + Stamp(Take(b0, entries[..i]), now)
      {
        var key := entries[i].slot;
        TakeNext(b0, entries, i);
        RestNext(b0, entries, i);
        var entry := buffer[key];
        RemoveIndex(buffer, key, deadlines);
        buffer := buffer - {key};
        deadlines := deadlines - {Due(entry.emitAt, key)};
        ready := ready + [Ticket(now, entry.event)];
        i := i + 1;
      }
      assert entries[..i] == entries;
    }

    /** Flushes every entry of `sub`, in admission order; the recorded count was exact. */
    method FlushEntries(sub: Sub, now: Instant)
      requires Consistent(Contents(), default) && TicketsBy(ready, now)
      modifies this`buffer, this`deadlines, this`perSubLen, this`ready
      ensures FlushedTo(old(Contents()), Contents(), default, sub, now)
      ensures JoinedAt(old(ready), ready, now)
    {
      hide Indexed, Sequenced, Counted, WithinHold, WithinCap, Keyed, TicketsClimb, Only, FlushedTo, PicksOf, Rest, KeysOf,
           Take, Sorted;
      var entries := SubscriptionEntries(sub);
      OnlyEntries(buffer, sub, nextSeq, entries);
      ghost var collected := entries;
      entries := SortPicks(entries);
      SortedWhole(Only(buffer, sub), collected, entries);
      SortedEntries(buffer, sub, entries);
      MoveToReady(entries, now);
      ghost var counted := if sub in perSubLen then perSubLen[sub] else 0;
      perSubLen := perSubLen - {sub};
      Flushed(old(Contents()), Contents(), entries, default, sub, now);
      assert counted == |entries|;
    }

    method FlushSubscription(sub: Sub, now: Instant)
      requires Valid() && Clock(log) <= now
      modifies this`buffer, this`deadlines, this`perSubLen, this`ready, this`log
      ensures Valid()
      ensures log == old(log) + [FlushOne(sub, now)]
      ensures JoinedAt(old(ready), ready, now)
    {
      FlushEntries(sub, now);
      log := log + [FlushOne(sub, now)];
      FlushOneOk(old(Contents()), Contents(), default, old(log), sub, now);
    }

    // -------------------------------------------------------------- admission

    /** Whether admitting `e` would open an entry past the structural cap, which is the default policy's own or
        1024, or past its own policy's. */
    ghost predicate Overflows(e: Event)
      reads this
    {
      && e.kind.IsLifecycle()
      && EffectivePolicy(e.sub).Some?
      && SlotKey(e.sub, e.key) !in buffer
      && (|buffer| >= (match default case Some(d) => d.maxBuffered case None => 1024) ||
          |KeysOf(buffer, e.sub)| >= EffectivePolicy(e.sub).value.maxBuffered)
    }

    /** What the simple machine is told about an admission. */
    ghost function Outcome(e: Event, now: Instant): Op
      reads this
    {
      if !e.kind.IsLifecycle() then Signal(e, now)
      else if EffectivePolicy(e.sub).None? then Passing(e, now)
      else if Overflows(e) then Shedding(e, now)
      else Settling(e, now, EffectivePolicy(e.sub).value)
    }

    /** Admits one event. The subscription is returned, and is then owed a rescan, exactly when a
        cap is full; then nothing but the admission counter has moved. */
    method Admit(e: Event, now: Instant) returns (shed: Option<Sub>)
      requires Valid() && Clock(log) <= now
      modifies this
      ensures Valid()
      ensures log == old(log) + [old(Outcome(e, now))]
      ensures shed == if old(Overflows(e)) then Some(e.sub) else None
      ensures shed.Some? ==> Contents() == old(Contents()).(nextSeq := old(nextSeq) + 1)
      ensures policies == old(policies)
      ensures JoinedAt(old(ready), ready, now)
    {
      hide Ok, Consistent, JoinedAt;
      JoinedNext(ready, ready, now, e);
      OkConsistent(Contents(), default, log);
      if e.kind.Rescan? {
        // Everything held for this subscription is now suspect: flush it, then signal.
        FlushEntries(e.sub, now);
        JoinedNext(old(ready), ready, now, e);
        ready := ready + [Ticket(now, e)];
        SignalOk(old(Contents()), Contents(), default, log, e, now);
        log := log + [Signal(e, now)];
        shed := None;
      } else if e.kind.Moved? {
        // A move emits whole and at once, behind everything older of its subscription.
        FlushEntries(e.sub, now);
        JoinedNext(old(ready), ready, now, e);
        ready := ready + [Ticket(now, e)];
        SignalOk(old(Contents()), Contents(), default, log, e, now);
        log := log + [Signal(e, now)];
        shed := None;
      } else if e.kind.Created? || e.kind.Modified? || e.kind.Removed? {
        var policy := EffectivePolicy(e.sub);
        if policy.None? {
          ready := ready + [Ticket(now, e)];
          PassingOk(old(Contents()), default, log, e, now);
          log := log + [Passing(e, now)];
          shed := None;
        } else {
          shed := Coalesce(e, now, policy.value);
        }
      } else {
        // A kind the collapse table does not know is never folded.
        FlushEntries(e.sub, now);
        JoinedNext(old(ready), ready, now, e);
        ready := ready + [Ticket(now, e)];
        SignalOk(old(Contents()), Contents(), default, log, e, now);
        log := log + [Signal(e, now)];
        shed := None;
      }
    }

    /** Buffers a lifecycle event under its subscription's policy, folding it into the entry its
        key already has. */
    method Coalesce(e: Event, now: Instant, config: Config) returns (shed: Option<Sub>)
      requires Valid() && Clock(log) <= now
      requires e.kind.IsLifecycle() && EffectivePolicy(e.sub) == Some(config)
      modifies this`buffer, this`deadlines, this`perSubLen, this`nextSeq, this`log
      ensures Valid()
      ensures log == old(log) + [old(Outcome(e, now))]
      ensures shed == if old(Overflows(e)) then Some(e.sub) else None
      ensures shed.Some? ==> Contents() == old(Contents()).(nextSeq := old(nextSeq) + 1)
    {
      hide Ok, Consistent, KeysOf, Deadline;
      ghost var t := Contents();
      OkConsistent(t, default, log);
      var key := SlotKey(e.sub, e.key);
      var seqNo := BumpSeq();
      if key in buffer {
        Fold(e, now, config, seqNo, t);
        return None;
      }
      // Only a fresh entry grows the buffer, so both memory bounds live here.
      var held := if e.sub in perSubLen then perSubLen[e.sub] else 0;
      CountExact(t, default, e.sub);
      if |buffer| >= StructuralCap() || held >= config.maxBuffered {
        SheddingOk(t, default, log, e, now);
        log := log + [Shedding(e, now)];
        return Some(e.sub);
      }
      Open(e, now, config, seqNo, held, t);
      shed := None;
    }

    /** Opens an entry below both caps; `t` is the state before the number was drawn. */
    method Open(e: Event, now: Instant, config: Config, seqNo: nat, held: nat, ghost t: Tables)
      requires Ok(t, default, log) && Contents() == t.(nextSeq := seqNo + 1) && seqNo == t.nextSeq
      requires Clock(log) <= now && e.kind.IsLifecycle() && EffectivePolicy(e.sub) == Some(config)
      requires SlotKey(e.sub, e.key) !in buffer && |buffer| < StructuralCap() && held < config.maxBuffered
      requires held == if e.sub in perSubLen then perSubLen[e.sub] else 0
      modifies this`buffer, this`deadlines, this`perSubLen, this`log
      ensures Valid()
      ensures log == old(log) + [Settling(e, now, config)]
    {
      hide Ok, Consistent, Deadline;
      FreshOk(t, default, log, e, now, config);
      var key := SlotKey(e.sub, e.key);
      var entry := Buffered(now, Deadline(now, now, config), seqNo, e);
      deadlines := deadlines + {Due(entry.emitAt, key)};
      buffer := buffer[key := entry];
      perSubLen := perSubLen[e.sub := held + 1];
      log := log + [Settling(e, now, config)];
    }

    /** Folds `e` into the entry its key already has; `t` is the state before the number was drawn. */
    method Fold(e: Event, now: Instant, config: Config, seqNo: nat, ghost t: Tables)
      requires Ok(t, default, log) && Contents() == t.(nextSeq := seqNo + 1) && seqNo == t.nextSeq
      requires Clock(log) <= now && e.kind.IsLifecycle() && EffectivePolicy(e.sub) == Some(config)
      requires SlotKey(e.sub, e.key) in buffer
      modifies this`buffer, this`deadlines, this`perSubLen, this`log
      ensures Valid()
      ensures log == old(log) + [Settling(e, now, config)]
      ensures SlotKey(e.sub, e.key) in buffer ==>
                var was, x := old(buffer)[SlotKey(e.sub, e.key)], buffer[SlotKey(e.sub, e.key)];
                && x.firstSeen == was.firstSeen && x.seqNo == seqNo && x.event.epoch == e.epoch
                && x.emitAt <= now + config.quietWindow && x.emitAt <= was.firstSeen + config.maxHold
                && (x.emitAt == now + config.quietWindow || x.emitAt == was.firstSeen + config.maxHold)
    {
      hide Ok, Consistent, Merge, Observed, Deadline;
      OkConsistent(t, default, log);
      var key := SlotKey(e.sub, e.key);
      var wasDueAt, firstSeen := buffer[key].emitAt, buffer[key].firstSeen;
      // What the collapse table leaves of the two, if anything.
      var survivor := Merge(buffer[key].event, e);
      if survivor.None? {
        assert Observed(buffer, seqNo, buffer - {key}, seqNo + 1, e, now, config) by {
          CancelObserved(t, default, e, now, config);
        }
        CancelOk(t, default, log, e, now, config);
        buffer := buffer - {key};
        deadlines := deadlines - {Due(wasDueAt, key)};
        DecPerSub(key.sub);
      } else {
        var nowDueAt := Deadline(firstSeen, now, config);
        EarlierOfTwo(firstSeen, now, config);
        MergeStamp(buffer[key].event, e);
        var entry := Buffered(firstSeen, nowDueAt, seqNo, survivor.value);
        assert Observed(buffer, seqNo, buffer[key := entry], seqNo + 1, e, now, config) &&
               entry.event.sub == e.sub && entry.event.key == e.key && entry.event.kind.IsLifecycle() by {
          FoldObserved(t, default, e, now, config);
        }
        FoldOk(t, default, log, e, now, entry, config);
        buffer := buffer[key := entry];
        if nowDueAt != wasDueAt {
          deadlines := deadlines - {Due(wasDueAt, key)} + {Due(nowDueAt, key)};
        }
        FiledUnder(t, default, key);
        assert Contents() == Refiled(t, key, entry);
      }
      log := log + [Settling(e, now, config)];
    }

    // -------------------------------------------------------------- deadlines

    /** The earliest instant at which anything is due: the minimum over every buffered deadline and
        every ready ticket, from one probe of the index and one of the queue. */
    method NextDeadline() returns (at: Option<Instant>)
      requires Valid()
      ensures at.None? <==> buffer == map[] && ready == []
      ensures at.Some? ==>
                && (forall k :: k in buffer ==> at.value <= buffer[k].emitAt)
                && (forall i :: 0 <= i < |ready| ==> at.value <= ready[i].at)
                && ((exists k :: k in buffer && buffer[k].emitAt == at.value) || (|ready| > 0 && ready[0].at == at.value))
    {
      hide Counted, Sequenced, Keyed, WithinHold, WithinCap, Shows, AllDispatched, Clocked;
      at := None;
      if deadlines != {} {
        var first := FirstDue(deadlines);
        assert first.slot in buffer;
        at := Some(first.at);
      } else {
        assert forall k :: k !in buffer;
      }
      if |ready| > 0 && (at.None? || ready[0].at < at.value) {
        at := Some(ready[0].at);
      }
    }

    /** Everything in the ready queue is due by now; it leaves in FIFO order. */
    method PopReady(now: Instant, out0: seq<Event>) returns (out: seq<Event>)
      requires TicketsBy(ready, now)
      modifies this`ready
      ensures ready == [] && out == out0 + TicketEvents(old(ready))
    {
      out := out0;
      ghost var i := 0;
      ghost var r0 := ready;
      while |ready| > 0 && ready[0].at <= now
        invariant 0 <= i <= |r0| && ready == r0[i..]
        invariant out == out0 + TicketEvents(r0[..i])
      {
        assert TicketEvents(r0[..i + 1]) == TicketEvents(r0[..i]) + [r0[i].event];
        out := out + [ready[0].event];
        ready := ready[1..];
        i := i + 1;
      }
      assert r0[..i] == r0;
    }

    /** The index's due prefix names exactly the entries whose deadline has passed; they are sorted
        by subscription and admission. */
    method CollectDue(now: Instant) returns (due: seq<Pick>)
      requires Indexed(buffer, deadlines) && Sequenced(buffer, nextSeq)
      ensures Sorted(due) && PicksOf(due, Part(buffer, now, true))
      ensures forall i, j :: 0 <= i < j < |due| ==> due[i].slot != due[j].slot
      ensures forall x :: x in due ==> x.slot in buffer && x.sub == x.slot.sub
    {
      hide PicksOf, Part, Sequenced, Indexed, DuesAscend;
      var walk := WalkDues(deadlines);
      IndexNames(buffer, deadlines, walk);
      due := [];
      var i := 0;
      while i < |walk| && walk[i].at <= now
        invariant i <= |walk|
        invariant forall j :: 0 <= j < i ==> walk[j].at <= now
        invariant due == PickAll(buffer, Slots(walk[..i]))
      {
        PickNext(buffer, walk, i);
        var key := walk[i].slot;
        due := due + [Pick(key.sub, buffer[key].seqNo, key)];
        i := i + 1;
      }
      DuePrefix(buffer, deadlines, walk, i, now);
      DueEntries(buffer, now, nextSeq, due);
      ghost var collected := due;
      due := SortPicks(due);
      SortedDue(buffer, now, collected, due);
    }

    /** Takes the listed entries out of the buffer, its index and its counters, in order, to `out`. */
    method EmitEntries(due: seq<Pick>, out0: seq<Event>) returns (out: seq<Event>)
      requires Indexed(buffer, deadlines) && Counted(buffer, perSubLen)
      requires forall x :: x in due ==> x.slot in buffer
      requires forall i, j :: 0 <= i < j < |due| ==> due[i].slot != due[j].slot
      modifies this`buffer, this`deadlines, this`perSubLen
      ensures buffer == Rest(old(buffer), due) && Indexed(buffer, deadlines) && Counted(buffer, perSubLen)
      ensures out == out0 + Take(old(buffer), due)
    {
      hide Indexed, KeysOf, Rest;
      ghost var b0 := buffer;
      RestNone(b0);
      out := out0;
      var i := 0;
      while i < |due|
        invariant i <= |due|
        invariant forall x :: x in due[..i] ==> x.slot in b0
        invariant buffer == Rest(b0, due[..i]) && Indexed(buffer, deadlines) && Counted(buffer, perSubLen)
        invariant out == out0 + Take(b0, due[..i])
      {
        var key := due[i].slot;
        TakeNext(b0, due, i);
        RestNext(b0, due, i);
        RestValue(b0, due[..i], key);
        var entry := buffer[key];
        RemoveIndex(buffer, key, deadlines);
        RemoveCounts(buffer, key, perSubLen);
        assert key.sub in perSubLen && perSubLen[key.sub] > 0;
        buffer := buffer - {key};
        deadlines := deadlines - {Due(entry.emitAt, key)};
        DecPerSub(key.sub);
        out := out + [entry.event];
        i := i + 1;
      }
      assert due[..i] == due;
    }

    /** Appends everything due at `now` to `out0`: the ready queue, then exactly the entries whose
        deadline has passed, each subscription's in admission order. */
    method DrainReady(now: Instant, out0: seq<Event>) returns (out: seq<Event>)
      requires Valid() && Clock(log) <= now
      modifies this`buffer, this`deadlines, this`perSubLen, this`ready, this`log
      ensures Valid()
      ensures log == old(log) + [Drain(now)]
      ensures out0 + TicketEvents(old(ready)) <= out
      ensures forall s :: Run(log, s).emitted == old(Run(log, s).emitted) + OfSub(out[|out0|..], s)
      ensures ready == [] && buffer == Part(old(buffer), now, false)
      ensures Grouped(out[|out0| + |old(ready)|..])
    {
      hide Ok, Consistent, Indexed, Counted, Sequenced, Keyed, TicketsBy, PicksOf, Rest, Part, Run, OfSub, Sorted, Grouped, Take;
      OkConsistent(Contents(), default, log);
      ConsistentParts(Contents(), default);
      TicketsLater(ready, Clock(log), now);
      out := PopReady(now, out0);
      var due := CollectDue(now);
      ghost var b0 := buffer;
      out := EmitEntries(due, out);
      TakeGrouped(b0, due);
      DrainOk(old(Contents()), Contents(), default, log, due, now);
      log := log + [Drain(now)];
      TwoStretches(out0, TicketEvents(old(ready)), Take(b0, due));
    }

    /** Every entry, sorted by subscription and admission, and the two copies of every buffered key. */
    method CollectAll() returns (tail: seq<Pick>, keys: seq<Key>)
      requires Indexed(buffer, deadlines) && Sequenced(buffer, nextSeq)
      ensures Sorted(tail) && PicksOf(tail, buffer)
      ensures forall x :: x in tail ==> x.slot in buffer && x.sub == x.slot.sub
      ensures TwoCopies(keys, buffer) && forall path :: multiset(keys)[path] == 2 * |FiledAt(buffer, path)|
    {
      hide Indexed, Sequenced, PicksOf, Sorted, SlotsAscend, DuesAscend;
      var dues := WalkDues(deadlines);
      DuesList(buffer, deadlines, dues);
      var slots := WalkSlots(buffer.Keys);
      SlotsList(buffer, slots);
      keys := Paths(Slots(dues)) + Paths(slots);
      forall path ensures multiset(keys)[path] == 2 * |FiledAt(buffer, path)| {
        TwoCopiesCount(Slots(dues), slots, buffer, path);
      }
      var collected := PickAll(buffer, slots);
      AllPicks(buffer, slots, nextSeq);
      tail := SortPicks(collected);
      SortedWhole(buffer, collected, tail);
    }

    /** Appends every pending event to `out0` and leaves the coalescer empty. The keys handed back
        are the index's copy and the buffer's copy of every buffered key. */
    method FlushEverything(out0: seq<Event>) returns (out: seq<Event>, salvage: Salvage)
      requires Valid()
      modifies this`buffer, this`deadlines, this`perSubLen, this`ready, this`log
      ensures Valid()
      ensures log == old(log) + [FlushAll]
      ensures buffer == map[] && deadlines == {} && perSubLen == map[] && ready == []
      ensures out0 + TicketEvents(old(ready)) <= out
      ensures forall s :: Run(log, s).emitted == old(Run(log, s).emitted) + OfSub(out[|out0|..], s)
      ensures Grouped(out[|out0| + |old(ready)|..])
      ensures salvage.events == [] && TwoCopies(salvage.keys, old(buffer))
      ensures forall path :: multiset(salvage.keys)[path] == 2 * |FiledAt(old(buffer), path)|
    {
      hide Ok, Consistent, Indexed, Counted, Sequenced, Keyed, PicksOf, Run, OfSub, Sorted, Grouped, TwoCopies, Take;
      OkConsistent(Contents(), default, log);
      ConsistentParts(Contents(), default);
      out := out0 + TicketEvents(ready);
      var tail, keys := CollectAll();
      salvage := Salvage(keys, []);
      TakeGrouped(buffer, tail);
      out := out + Take(buffer, tail);
      ready, deadlines, buffer, perSubLen := [], {}, map[], map[];
      FlushAllOk(old(Contents()), Contents(), default, log, tail);
      log := log + [FlushAll];
      TwoStretches(out0, TicketEvents(old(ready)), Take(old(buffer), tail));
    }

    // -------------------------------------------------------------- dropping a subscription

    /** Takes the listed entries out of the buffer and its index and hands back, per entry, its
        event and the three copies of its key. */
    method DiscardEntries(entries: seq<Pick>) returns (salvage: Salvage)
      requires Indexed(buffer, deadlines)
      requires forall x :: x in entries ==> x.slot in buffer
      requires forall i, j :: 0 <= i < j < |entries| ==> entries[i].slot != entries[j].slot
      modifies this`buffer, this`deadlines
      ensures buffer == Rest(old(buffer), entries) && Indexed(buffer, deadlines)
      ensures salvage == Salvage(ThreePaths(entries), Take(old(buffer), entries))
    {
      hide Indexed, Rest;
      ghost var b0 := buffer;
      RestNone(b0);
      salvage := Salvage([], []);
      var i := 0;
      while i < |entries|
        invariant i <= |entries|
        invariant forall x :: x in entries[..i] ==> x.slot in b0
        invariant buffer == Rest(b0, entries[..i]) && Indexed(buffer, deadlines)
        invariant salvage == Salvage(ThreePaths(entries[..i]), Take(b0, entries[..i]))
      {
        var key := entries[i].slot;
        TakeNext(b0, entries, i);
        RestNext(b0, entries, i);
        RestValue(b0, entries[..i], key);
        ThreePathsNext(entries, i);
        var entry := buffer[key];
        RemoveIndex(buffer, key, deadlines);
        buffer := buffer - {key};
        deadlines := deadlines - {Due(entry.emitAt, key)};
        salvage := Salvage(salvage.keys + [key.path, key.path, key.path], salvage.events + [entry.event]);
        i := i + 1;
      }
      assert entries[..i] == entries;
    }

    /** Takes the subscription's tickets out of the ready queue, leaving the others in order. */
    method DiscardReady(sub: Sub) returns (dropped: seq<Event>)
      modifies this`ready
      ensures ready == KeepOthers(old(ready), sub) && dropped == ReadyOf(old(ready), sub)
    {
      var taken, kept := ready, [];
      ready, dropped := [], [];
      var i := 0;
      while i < |taken|
        invariant i <= |taken|
        invariant kept == KeepOthers(taken[..i], sub) && dropped == ReadyOf(taken[..i], sub)
      {
        assert taken[..i + 1] == taken[..i] + [taken[i]];
        assert taken[..i + 1][..i] == taken[..i];
        ReadyOfSnoc(taken[..i], taken[i], sub);
        if taken[i].event.sub == sub {
          dropped := dropped + [taken[i].event];
        } else {
          kept := kept + [taken[i]];
        }
        i := i + 1;
      }
      assert taken[..i] == taken;
      ready := kept;
    }

    /** Drops everything held for `sub`, keeping its policy. All of it is handed back: each buffered
        event with three copies of its key, and each ready event. */
    method DropSubscription(sub: Sub) returns (salvage: Salvage)
      requires Valid()
      modifies this`buffer, this`deadlines, this`perSubLen, this`ready, this`log
      ensures Valid()
      ensures log == old(log) + [Drop(sub)]
      ensures sub !in perSubLen
      ensures forall k :: k in buffer <==> k in old(buffer) && k.sub != sub
      ensures forall k :: k in buffer ==> buffer[k] == old(buffer)[k]
      ensures ready == KeepOthers(old(ready), sub)
      ensures HandsBack(old(buffer), old(ready), sub, salvage)
      ensures forall path :: multiset(salvage.keys)[path] == if SlotKey(sub, path) in old(buffer) then 3 else 0
    {
      hide Ok, Consistent, Indexed, Counted, Sequenced, Keyed, PicksOf, Only, KeysOf, Rest, HandsBack, Take, ThreePaths,
           ReadyOf, KeepOthers;
      OkConsistent(Contents(), default, log);
      ConsistentParts(Contents(), default);
      var entries := SubscriptionEntries(sub);
      OnlyEntries(buffer, sub, nextSeq, entries);
      salvage := DiscardEntries(entries);
      ghost var counted := if sub in perSubLen then perSubLen[sub] else 0;
      CountExact(old(Contents()), default, sub);
      assert counted == |entries|;
      perSubLen := perSubLen - {sub};
      var dropped := DiscardReady(sub);
      HandedBack(old(buffer), old(ready), sub, entries);
      forall path ensures multiset(salvage.keys)[path] == if SlotKey(sub, path) in old(buffer) then 3 else 0 {
        ThreeCopiesCount(entries, old(buffer), sub, path);
      }
      salvage := Salvage(salvage.keys, salvage.events + dropped);
      DropOk(old(Contents()), Contents(), default, log, entries, sub);
      log := log + [Drop(sub)];
    }

    /** Retires `sub` entirely: what it holds and its policy. */
    method ForgetSubscription(sub: Sub) returns (salvage: Salvage)
      requires Valid()
      modifies this
      ensures Valid()
      ensures log == old(log) + [Drop(sub)]
      ensures policies == old(policies) - {sub}
      ensures ready == KeepOthers(old(ready), sub)
      ensures forall k :: k in buffer <==> k in old(buffer) && k.sub != sub
      ensures forall k :: k in buffer ==> buffer[k] == old(buffer)[k]
      ensures HandsBack(old(buffer), old(ready), sub, salvage)
      ensures forall path :: multiset(salvage.keys)[path] == if SlotKey(sub, path) in old(buffer) then 3 else 0
    {
      hide Ok, HandsBack;
      salvage := DropSubscription(sub);
      PolicyKeeps(Contents(), policies - {sub}, default, log, sub);
      policies := policies - {sub};
    }
  }
}
