/** How the coalescer's tables represent the simple per-subscription lists: the buffer read in
    admission-sequence order, the deadline index and the per-subscription counters.
 */
module BufferView {
  import opened Events
  import opened Settle
  import opened SettleMeaning
  import opened Ordering

  datatype Buffered = Buffered(firstSeen: Instant, emitAt: Instant, seqNo: nat, event: Event)

  type Buffer = map<SlotKey, Buffered>

  /** An event owed at once, tagged with the instant it became ready. */
  datatype Ticket = Ticket(at: Instant, event: Event)

  function SlotOf(b: Buffered): Slot {
    Slot(b.firstSeen, b.emitAt, b.event)
  }

  // ---------------------------------------------------------------- the invariants of the tables

  /** Index and buffer name the same slots, each at the same instant. */
  ghost predicate Indexed(b: Buffer, deadlines: set<Due>) {
    && (forall d :: d in deadlines ==> d.slot in b && b[d.slot].emitAt == d.at)
    && (forall k :: k in b ==> Due(b[k].emitAt, k) in deadlines)
  }

  ghost function KeysOf(b: Buffer, s: Sub): set<SlotKey> {
    set k | k in b && k.sub == s
  }

  /** The counters are the true per-subscription sizes, absent at zero. */
  ghost predicate Counted(b: Buffer, perSubLen: map<Sub, nat>) {
    && (forall s :: s in perSubLen ==> perSubLen[s] == |KeysOf(b, s)| > 0)
    && (forall k :: k in b ==> k.sub in perSubLen)
  }

  /** Sequence numbers are distinct and already drawn. */
  ghost predicate Sequenced(b: Buffer, n: nat) {
    && (forall k :: k in b ==> b[k].seqNo < n)
    && (forall k, l :: k in b && l in b && b[k].seqNo == b[l].seqNo ==> k == l)
  }

  /** Each entry is filed under its own event's coordinates. */
  ghost predicate Keyed(b: Buffer) {
    forall k :: k in b ==> b[k].event.sub == k.sub && b[k].event.key == k.path && b[k].event.kind.IsLifecycle()
  }

  // ---------------------------------------------------------------- the list a buffer stands for

  /** The slot of `s` with sequence number `i`, if there is one. */
  ghost function At(b: Buffer, s: Sub, i: nat): seq<Slot> {
    if k :| k in b && k.sub == s && b[k].seqNo == i then [SlotOf(b[k])] else []
  }

  /** The slots of `s` with sequence numbers below `n`, in sequence order. */
  ghost function Pending(b: Buffer, s: Sub, n: nat): seq<Slot> {
    if n == 0 then [] else Pending(b, s, n - 1) + At(b, s, n - 1)
  }

  function TicketEvents(ready: seq<Ticket>): (es: seq<Event>)
    ensures |es| == |ready|
  {
    seq(|ready|, i requires 0 <= i < |ready| => ready[i].event)
  }

  /** What the ready queue owes one subscription. */
  function ReadyOf(ready: seq<Ticket>, s: Sub): seq<Event> {
    OfSub(TicketEvents(ready), s)
  }

  lemma AtKey(b: Buffer, n: nat, k: SlotKey)
    requires Sequenced(b, n) && k in b
    ensures At(b, k.sub, b[k].seqNo) == [SlotOf(b[k])]
  {
  }

  lemma NoneAt(b: Buffer, s: Sub, i: nat)
    requires forall k :: k in b && k.sub == s ==> b[k].seqNo != i
    ensures At(b, s, i) == []
  {
  }

  /** Buffers that agree on the entries of `s` below `n` stand for the same list. */
  lemma {:induction false} PendingAgrees(a: Buffer, b: Buffer, s: Sub, n: nat, m: nat, m': nat)
    requires Sequenced(a, m) && Sequenced(b, m')
    requires forall k :: k in a && k.sub == s && a[k].seqNo < n ==> k in b && b[k] == a[k]
    requires forall k :: k in b && k.sub == s && b[k].seqNo < n ==> k in a && b[k] == a[k]
    ensures Pending(a, s, n) == Pending(b, s, n)
  {
    hide At, Sequenced;
    if n > 0 {
      PendingAgrees(a, b, s, n - 1, m, m');
      if k :| k in a && k.sub == s && a[k].seqNo == n - 1 {
        AtKey(a, m, k);
        AtKey(b, m', k);
      } else {
        NoneAt(a, s, n - 1);
        NoneAt(b, s, n - 1);
      }
    }
  }

  /** Drawing a number no entry took changes nothing. */
  lemma PendingUnused(b: Buffer, s: Sub, n: nat)
    requires Sequenced(b, n)
    ensures Pending(b, s, n + 1) == Pending(b, s, n)
  {
  }

  /** A fresh entry under the newest number goes to the end of its own subscription's line. */
  lemma PendingInsert(b: Buffer, k: SlotKey, e: Buffered, s: Sub, n: nat)
    requires Sequenced(b, n) && k !in b && e.seqNo == n
    ensures Sequenced(b[k := e], n + 1)
    ensures Pending(b[k := e], s, n + 1) == Pending(b, s, n) + if k.sub == s then [SlotOf(e)] else []
  {
    PendingAgrees(b[k := e], b, s, n, n + 1, n);
    if k.sub == s {
      AtKey(b[k := e], n + 1, k);
    } else {
      assert At(b[k := e], s, n) == [];
    }
  }

  /** One sequence step of removing `k` from its own subscription's line. */
  lemma RemoveAt(b: Buffer, k: SlotKey, i: nat, m: nat)
    requires Sequenced(b, m) && Keyed(b)
    ensures At(b - {k}, k.sub, i) == Without(At(b, k.sub, i), k.path)
  {
  }

  lemma {:induction false} WithoutConcat(p: seq<Slot>, q: seq<Slot>, key: Key)
    ensures Without(p + q, key) == Without(p, key) + Without(q, key)
  {
    hide Without;
    if q == [] {
      assert p + q == p;
      WithoutNone(key);
    } else {
      var q0, x := q[..|q| - 1], q[|q| - 1];
      WithoutConcat(p, q0, key);
      assert p + q == (p + q0) + [x] && q == q0 + [x];
      WithoutSnoc(p + q0, x, key);
      WithoutSnoc(q0, x, key);
    }
  }

  lemma {:induction false} PendingRemoveOwn(b: Buffer, k: SlotKey, n: nat, m: nat)
    requires Sequenced(b, m) && Keyed(b)
    ensures Pending(b - {k}, k.sub, n) == Without(Pending(b, k.sub, n), k.path)
  {
    hide Sequenced, Keyed, At;
    if n > 0 {
      PendingRemoveOwn(b, k, n - 1, m);
      RemoveAt(b, k, n - 1, m);
      WithoutConcat(Pending(b, k.sub, n - 1), At(b, k.sub, n - 1), k.path);
    }
  }

  /** Removing an entry removes its key from its own subscription's line and no other. */
  lemma PendingRemove(b: Buffer, k: SlotKey, s: Sub, n: nat, m: nat)
    requires Sequenced(b, m) && Keyed(b)
    ensures Sequenced(b - {k}, m) && Keyed(b - {k})
    ensures Pending(b - {k}, s, n) == if k.sub == s then Without(Pending(b, s, n), k.path) else Pending(b, s, n)
  {
    if k.sub == s {
      PendingRemoveOwn(b, k, n, m);
    } else {
      PendingAgrees(b - {k}, b, s, n, m, m);
    }
  }

  lemma {:induction false} PendingMember(b: Buffer, k: SlotKey, n: nat, m: nat)
    requires Sequenced(b, m) && Keyed(b) && k in b && b[k].seqNo < n
    ensures SlotOf(b[k]) in Pending(b, k.sub, n)
  {
    if b[k].seqNo == n - 1 {
      AtKey(b, m, k);
    } else {
      PendingMember(b, k, n - 1, m);
    }
  }

  lemma {:induction false} PendingOnly(b: Buffer, s: Sub, n: nat, m: nat)
    requires Sequenced(b, m) && Keyed(b)
    ensures forall x :: x in Pending(b, s, n) ==>
              SlotKey(s, x.event.key) in b && SlotOf(b[SlotKey(s, x.event.key)]) == x &&
              b[SlotKey(s, x.event.key)].seqNo < n
  {
    hide At, Sequenced;
    if n > 0 {
      PendingOnly(b, s, n - 1, m);
      if k :| k in b && k.sub == s && b[k].seqNo == n - 1 {
        AtKey(b, m, k);
        assert SlotKey(s, b[k].event.key) == k;
      } else {
        NoneAt(b, s, n - 1);
      }
    }
  }

  lemma {:induction false} PendingSound(b: Buffer, s: Sub, n: nat, m: nat)
    requires Sequenced(b, m) && Keyed(b)
    ensures Sound(Pending(b, s, n), s)
  {
    hide At, Sequenced;
    if n > 0 {
      hide Sound;
      PendingSound(b, s, n - 1, m);
      PendingOnly(b, s, n - 1, m);
      if k :| k in b && k.sub == s && b[k].seqNo == n - 1 {
        AtKey(b, m, k);
        SoundSnoc(Pending(b, s, n - 1), SlotOf(b[k]), s);
      } else {
        NoneAt(b, s, n - 1);
      }
    }
  }

  /** The list holds a key exactly when the buffer does, with the same slot. */
  lemma PendingHolds(b: Buffer, k: SlotKey, n: nat)
    requires Sequenced(b, n) && Keyed(b)
    ensures Holds(Pending(b, k.sub, n), k.path) <==> k in b
    ensures k in b ==> Holds(Pending(b, k.sub, n), k.path) && SlotFor(Pending(b, k.sub, n), k.path) == SlotOf(b[k])
  {
    var p := Pending(b, k.sub, n);
    PendingOnly(b, k.sub, n, n);
    PendingSound(b, k.sub, n, n);
    if k in b {
      PendingMember(b, k, n, n);
      SlotUnique(p, k.sub, SlotOf(b[k]));
    } else {
      forall i | 0 <= i < |p| ensures p[i].event.key != k.path {
        assert p[i] in p;
      }
    }
  }

  /** The part of a buffer that is due, or not yet due. */
  ghost function Part(b: Buffer, now: Instant, due: bool): Buffer {
    map k | k in b && (b[k].emitAt <= now) == due :: b[k]
  }

  /** One sequence step of restricting a buffer to its due, or not yet due, part. */
  lemma PartAt(b: Buffer, s: Sub, i: nat, m: nat, now: Instant, due: bool)
    requires Sequenced(b, m)
    ensures At(Part(b, now, due), s, i) == Sift(At(b, s, i), now, due)
  {
  }

  lemma {:induction false} SiftConcat(p: seq<Slot>, q: seq<Slot>, now: Instant, due: bool)
    ensures Sift(p + q, now, due) == Sift(p, now, due) + Sift(q, now, due)
  {
    hide Sift;
    if q == [] {
      assert p + q == p;
      SiftNone(now, due);
    } else {
      var q0, x := q[..|q| - 1], q[|q| - 1];
      SiftConcat(p, q0, now, due);
      assert p + q == (p + q0) + [x] && q == q0 + [x];
      SiftSnoc(p + q0, x, now, due);
      SiftSnoc(q0, x, now, due);
    }
  }

  lemma PartWell(b: Buffer, m: nat, now: Instant, due: bool)
    requires Sequenced(b, m) && Keyed(b)
    ensures Sequenced(Part(b, now, due), m) && Keyed(Part(b, now, due))
  {
  }

  lemma {:induction false} PendingPart(b: Buffer, s: Sub, n: nat, m: nat, now: Instant, due: bool)
    requires Sequenced(b, m)
    ensures Pending(Part(b, now, due), s, n) == Sift(Pending(b, s, n), now, due)
  {
    hide Sequenced, Part, At;
    if n > 0 {
      PendingPart(b, s, n - 1, m, now, due);
      PartAt(b, s, n - 1, m, now, due);
      SiftConcat(Pending(b, s, n - 1), At(b, s, n - 1), now, due);
    }
  }

  lemma {:induction false} PendingNone(b: Buffer, s: Sub, n: nat)
    requires forall k :: k in b ==> k.sub != s
    ensures Pending(b, s, n) == []
  {
    if n > 0 {
      PendingNone(b, s, n - 1);
    }
  }

  // ---------------------------------------------------------------- sorting by sequence

  /** One collected entry: its sort key and its slot key. */
  datatype Pick = Pick(sub: Sub, seqNo: nat, slot: SlotKey)

  predicate PickLess(a: Pick, b: Pick) {
    a.sub < b.sub || (a.sub == b.sub && a.seqNo < b.seqNo)
  }

  ghost predicate Sorted(ps: seq<Pick>) {
    forall i, j :: 0 <= i < j < |ps| ==> PickLess(ps[i], ps[j])
  }

  /** The picks of a buffer: each names an entry, none is missing. */
  ghost predicate PicksOf(ps: seq<Pick>, b: Buffer) {
    && (forall x :: x in ps ==> x.slot in b && x == Pick(x.slot.sub, b[x.slot].seqNo, x.slot))
    && (forall k :: k in b ==> Pick(k.sub, b[k].seqNo, k) in ps)
  }

  function InsertPick(ps: seq<Pick>, x: Pick): (r: seq<Pick>)
    requires Sorted(ps) && forall y :: y in ps ==> PickLess(x, y) || PickLess(y, x)
    ensures Sorted(r) && forall y :: y in r <==> y == x || y in ps
    ensures |r| == |ps| + 1
  {
    if ps == [] then [x]
    else if PickLess(x, ps[0]) then
      assert forall y :: y in ps ==> y == ps[0] || PickLess(ps[0], y);
      [x] + ps
    else
      assert ps == [ps[0]] + ps[1..];
      assert ps[0] in ps;
      var rest := InsertPick(ps[1..], x);
      assert forall y :: y in rest ==> PickLess(ps[0], y);
      assert forall i :: 0 <= i < |rest| ==> rest[i] in rest;
      [ps[0]] + rest
  }

  /** Sorting collected entries by (subscription, sequence). */
  function SortPicks(ps: seq<Pick>): (r: seq<Pick>)
    requires forall i, j :: 0 <= i < j < |ps| ==> PickLess(ps[i], ps[j]) || PickLess(ps[j], ps[i])
    ensures Sorted(r) && forall y :: y in r <==> y in ps
    ensures |r| == |ps|
  {
    if ps == [] then []
    else
      assert ps == [ps[0]] + ps[1..];
      InsertPick(SortPicks(ps[1..]), ps[0])
  }

  /** The events of the picked entries. */
  function Take(b: Buffer, ps: seq<Pick>): (es: seq<Event>)
    requires forall x :: x in ps ==> x.slot in b
    ensures |es| == |ps|
  {
    seq(|ps|, i requires 0 <= i < |ps| => assert ps[i] in ps; b[ps[i].slot].event)
  }

  /** The newest entry of `s` stands at the end of its line. */
  lemma {:induction false} PendingNewest(b: Buffer, k: SlotKey, n: nat, m: nat)
    requires Sequenced(b, m) && k in b && b[k].seqNo < n
    requires forall l :: l in b && l.sub == k.sub ==> b[l].seqNo <= b[k].seqNo
    ensures Pending(b, k.sub, n) == Pending(b - {k}, k.sub, n) + [SlotOf(b[k])]
  {
    hide At;
    var c := b - {k};
    if b[k].seqNo == n - 1 {
      AtKey(b, m, k);
      NoneAt(c, k.sub, n - 1);
      PendingAgrees(b, c, k.sub, n - 1, m, m);
    } else {
      NoneAt(b, k.sub, n - 1);
      NoneAt(c, k.sub, n - 1);
      PendingNewest(b, k, n - 1, m);
    }
  }

  /** The last pick of a sorted enumeration: what remains enumerates what remains. */
  lemma LastPick(b: Buffer, ps: seq<Pick>)
    requires Sorted(ps) && PicksOf(ps, b) && ps != []
    ensures
      var x := ps[|ps| - 1];
      && x.slot in b
      && Sorted(ps[..|ps| - 1]) && PicksOf(ps[..|ps| - 1], b - {x.slot})
      && (forall l :: l in b && l.sub == x.slot.sub ==> b[l].seqNo <= b[x.slot].seqNo)
  {
  }

  lemma TakeInit(b: Buffer, ps: seq<Pick>)
    requires ps != [] && forall x :: x in ps ==> x.slot in b
    requires forall y :: y in ps[..|ps| - 1] ==> y.slot in b - {ps[|ps| - 1].slot}
    ensures ps[|ps| - 1] in ps
    ensures Take(b, ps) == Take(b - {ps[|ps| - 1].slot}, ps[..|ps| - 1]) + [b[ps[|ps| - 1].slot].event]
  {
  }

  lemma PicksIn(b: Buffer, ps: seq<Pick>)
    requires PicksOf(ps, b)
    ensures forall x :: x in ps ==> x.slot in b
    ensures ps == [] ==> b == map[]
  {
  }

  lemma EntryAt(b: Buffer, k: SlotKey, n: nat)
    requires Sequenced(b, n) && Keyed(b) && k in b
    ensures b[k].event.sub == k.sub && b[k].seqNo < n
  {
  }

  /** Emitting a whole buffer in (subscription, sequence) order gives each subscription its own
      line, in order. */
  lemma {:induction false} SortedTakeIsPending(b: Buffer, ps: seq<Pick>, s: Sub, n: nat)
    requires Sequenced(b, n) && Keyed(b) && Sorted(ps) && PicksOf(ps, b)
    ensures OfSub(Take(b, ps), s) == EventsOf(Pending(b, s, n))
    decreases |ps|
  {
    hide Sequenced, Keyed, Sorted, PicksOf, Pending, OfSub, Take;
    PicksIn(b, ps);
    if ps == [] {
      PendingNone(b, s, n);
      assert Take(b, ps) == [];
      OfSubNone(s);
    } else {
      var ps0, k := ps[..|ps| - 1], ps[|ps| - 1].slot;
      var c := b - {k};
      LastPick(b, ps);
      PicksIn(c, ps0);
      PendingRemove(b, k, s, n, n);
      SortedTakeIsPending(c, ps0, s, n);
      TakeInit(b, ps);
      EntryAt(b, k, n);
      OfSubSnoc(Take(c, ps0), b[k].event, s);
      if k.sub == s {
        PendingNewest(b, k, n, n);
        assert EventsOf(Pending(b, s, n)) == EventsOf(Pending(c, s, n)) + [b[k].event];
      }
    }
  }

  // ---------------------------------------------------------------- table maintenance

  lemma InsertCounts(b: Buffer, k: SlotKey, e: Buffered, perSubLen: map<Sub, nat>)
    requires Counted(b, perSubLen) && k !in b
    ensures Counted(b[k := e], perSubLen[k.sub := (if k.sub in perSubLen then perSubLen[k.sub] else 0) + 1])
    ensures |KeysOf(b[k := e], k.sub)| == |KeysOf(b, k.sub)| + 1
  {
    var c := b[k := e];
    assert KeysOf(c, k.sub) == KeysOf(b, k.sub) + {k};
    if k.sub !in perSubLen {
      assert KeysOf(b, k.sub) == {};
    }
    forall s | s != k.sub ensures KeysOf(c, s) == KeysOf(b, s) {
    }
  }

  lemma ReplaceCounts(b: Buffer, k: SlotKey, e: Buffered, perSubLen: map<Sub, nat>)
    requires Counted(b, perSubLen) && k in b
    ensures Counted(b[k := e], perSubLen)
    ensures forall s :: KeysOf(b[k := e], s) == KeysOf(b, s)
  {
    forall s ensures KeysOf(b[k := e], s) == KeysOf(b, s) {
    }
  }

  /** The counter map after one entry of `sub` is gone. */
  function Decrement(perSubLen: map<Sub, nat>, sub: Sub): map<Sub, nat>
    requires sub in perSubLen
  {
    if perSubLen[sub] <= 1 then perSubLen - {sub} else perSubLen[sub := perSubLen[sub] - 1]
  }

  lemma RemoveCounts(b: Buffer, k: SlotKey, perSubLen: map<Sub, nat>)
    requires Counted(b, perSubLen) && k in b
    ensures Counted(b - {k}, Decrement(perSubLen, k.sub))
    ensures |KeysOf(b - {k}, k.sub)| == |KeysOf(b, k.sub)| - 1
    ensures forall s :: s != k.sub ==> KeysOf(b - {k}, s) == KeysOf(b, s)
  {
    var c := b - {k};
    assert KeysOf(b, k.sub) == KeysOf(c, k.sub) + {k};
    forall s | s != k.sub ensures KeysOf(c, s) == KeysOf(b, s) {
    }
    if |KeysOf(c, k.sub)| == 0 {
      forall l | l in c ensures l.sub != k.sub {
        assert l in KeysOf(c, l.sub);
      }
    }
  }

  /** Removing every entry of one subscription reconciles its counter to zero at once. */
  lemma PurgeCounts(b: Buffer, c: Buffer, s: Sub, perSubLen: map<Sub, nat>)
    requires Counted(b, perSubLen)
    requires forall k :: k in c <==> k in b && k.sub != s
    ensures Counted(c, perSubLen - {s})
  {
    forall t | t != s ensures KeysOf(c, t) == KeysOf(b, t) {
    }
  }

  lemma RemoveIndex(b: Buffer, k: SlotKey, deadlines: set<Due>)
    requires Indexed(b, deadlines) && k in b
    ensures Indexed(b - {k}, deadlines - {Due(b[k].emitAt, k)})
  {
  }

  lemma RefileIndex(b: Buffer, k: SlotKey, e: Buffered, deadlines: set<Due>)
    requires Indexed(b, deadlines) && k in b
    ensures Indexed(b[k := e], deadlines - {Due(b[k].emitAt, k)} + {Due(e.emitAt, k)})
  {
  }

  ghost function KeysBelow(b: Buffer, s: Sub, n: nat): set<SlotKey> {
    set k | k in b && k.sub == s && b[k].seqNo < n
  }

  lemma BelowNext(b: Buffer, s: Sub, n: nat, m: nat)
    requires Sequenced(b, m)
    ensures |KeysBelow(b, s, n + 1)| ==
            |KeysBelow(b, s, n)| + if exists k :: k in b && k.sub == s && b[k].seqNo == n then 1 else 0
  {
    if k :| k in b && k.sub == s && b[k].seqNo == n {
      assert KeysBelow(b, s, n + 1) == KeysBelow(b, s, n) + {k};
    } else {
      assert KeysBelow(b, s, n + 1) == KeysBelow(b, s, n);
    }
  }

  lemma {:induction false} PendingSize(b: Buffer, s: Sub, n: nat, m: nat)
    requires Sequenced(b, m)
    ensures |Pending(b, s, n)| == |KeysBelow(b, s, n)|
  {
    hide At, Sequenced;
    if n > 0 {
      PendingSize(b, s, n - 1, m);
      BelowNext(b, s, n - 1, m);
      if k :| k in b && k.sub == s && b[k].seqNo == n - 1 {
        AtKey(b, m, k);
      } else {
        NoneAt(b, s, n - 1);
      }
      hide KeysBelow;
    }
  }

  // ---------------------------------------------------------------- one settling change refines Observe

  lemma FreshRefines(b: Buffer, e: Event, now: Instant, config: Config, n: nat, s: Sub)
    requires Sequenced(b, n) && Keyed(b) && e.kind.IsLifecycle() && SlotKey(e.sub, e.key) !in b
    ensures
      var b' := b[SlotKey(e.sub, e.key) := Buffered(now, Deadline(now, now, config), n, e)];
      Pending(b', s, n + 1) == if e.sub == s then Observe(Pending(b, s, n), e, now, config) else Pending(b, s, n)
  {
    var k := SlotKey(e.sub, e.key);
    PendingInsert(b, k, Buffered(now, Deadline(now, now, config), n, e), s, n);
    PendingHolds(b, k, n);
  }

  lemma FoldRefines(b: Buffer, e: Event, now: Instant, config: Config, n: nat, s: Sub)
    requires Sequenced(b, n) && Keyed(b) && e.kind.IsLifecycle() && SlotKey(e.sub, e.key) in b
    requires Merge(b[SlotKey(e.sub, e.key)].event, e).Some?
    ensures
      var k := SlotKey(e.sub, e.key);
      var x := Buffered(b[k].firstSeen, Deadline(b[k].firstSeen, now, config), n, Merge(b[k].event, e).value);
      && Sequenced(b[k := x], n + 1)
      && Pending(b[k := x], s, n + 1) ==
         if e.sub == s then Observe(Pending(b, s, n), e, now, config) else Pending(b, s, n)
  {
    hide Sequenced, Keyed, Pending;
    var k := SlotKey(e.sub, e.key);
    var x := Buffered(b[k].firstSeen, Deadline(b[k].firstSeen, now, config), n, Merge(b[k].event, e).value);
    PendingRemove(b, k, s, n, n);
    PendingInsert(b - {k}, k, x, s, n);
    assert (b - {k})[k := x] == b[k := x];
    PendingHolds(b, k, n);
  }

  lemma CancelRefines(b: Buffer, e: Event, now: Instant, config: Config, n: nat, s: Sub)
    requires Sequenced(b, n) && Keyed(b) && e.kind.IsLifecycle() && SlotKey(e.sub, e.key) in b
    requires Merge(b[SlotKey(e.sub, e.key)].event, e).None?
    ensures Pending(b - {SlotKey(e.sub, e.key)}, s, n + 1) ==
            if e.sub == s then Observe(Pending(b, s, n), e, now, config) else Pending(b, s, n)
  {
    var k := SlotKey(e.sub, e.key);
    PendingRemove(b, k, s, n, n);
    PendingUnused(b - {k}, s, n);
    PendingHolds(b, k, n);
    assert Without(Pending(b, e.sub, n), e.key) + [] == Without(Pending(b, e.sub, n), e.key);
  }

  // ---------------------------------------------------------------- taking entries out one by one

  predicate Named(ps: seq<Pick>, k: SlotKey) {
    exists i :: 0 <= i < |ps| && ps[i].slot == k
  }

  /** The buffer without the picked entries. */
  ghost function Rest(b: Buffer, ps: seq<Pick>): Buffer {
    map k | k in b && !Named(ps, k) :: b[k]
  }

  lemma RestNext(b: Buffer, ps: seq<Pick>, i: nat)
    requires i < |ps|
    requires forall x, y :: 0 <= x < y < |ps| ==> ps[x].slot != ps[y].slot
    requires ps[i].slot in b
    ensures ps[i].slot in Rest(b, ps[..i])
    ensures Rest(b, ps[..i + 1]) == Rest(b, ps[..i]) - {ps[i].slot}
  {
  }

  /** Picking every entry of `c` out of `b` leaves the entries outside `c`. */
  lemma RestOf(b: Buffer, ps: seq<Pick>, c: Buffer)
    requires PicksOf(ps, c)
    ensures forall k :: k in Rest(b, ps) <==> k in b && k !in c
  {
  }

  /** Only the entries of one subscription. */
  ghost function Only(b: Buffer, s: Sub): Buffer {
    map k | k in b && k.sub == s :: b[k]
  }

  /** Flushing one subscription in sequence order owes it its whole line, and owes others nothing. */
  lemma FlushedLine(b: Buffer, ps: seq<Pick>, sub: Sub, s: Sub, n: nat)
    requires Sequenced(b, n) && Keyed(b) && Sorted(ps) && PicksOf(ps, Only(b, sub))
    ensures forall x :: x in ps ==> x.slot in b
    ensures OfSub(Take(b, ps), s) == if s == sub then EventsOf(Pending(b, s, n)) else []
  {
    var only := Only(b, sub);
    assert Take(b, ps) == Take(only, ps);
    SortedTakeIsPending(only, ps, s, n);
    if s == sub {
      PendingAgrees(only, b, s, n, n, n);
    } else {
      PendingNone(only, s, n);
    }
  }

  /** What stays behind after one subscription is taken out. */
  lemma LeftBehind(b: Buffer, c: Buffer, sub: Sub, s: Sub, n: nat)
    requires Sequenced(b, n) && Keyed(b)
    requires forall k :: k in c <==> k in b && k.sub != sub
    requires forall k :: k in c ==> c[k] == b[k]
    ensures Sequenced(c, n) && Keyed(c)
    ensures Pending(c, s, n) == if s == sub then [] else Pending(b, s, n)
  {
    if s == sub {
      PendingNone(c, s, n);
    } else {
      PendingAgrees(c, b, s, n, n, n);
    }
  }

  lemma TakeNext(b: Buffer, ps: seq<Pick>, i: nat)
    requires i < |ps| && forall x :: x in ps ==> x.slot in b
    ensures ps[i] in ps && ps[i].slot in b
    ensures forall x :: x in ps[..i + 1] ==> x.slot in b
    ensures forall x :: x in ps[..i] ==> x.slot in b
    ensures Take(b, ps[..i + 1]) == Take(b, ps[..i]) + [b[ps[i].slot].event]
  {
  }

  // ---------------------------------------------------------------- a drain

  /** Emitting the due entries in (subscription, sequence) order gives each subscription exactly
      its due slots, in its own order; what is left is exactly what is not due. */
  lemma DueLine(b: Buffer, ps: seq<Pick>, s: Sub, n: nat, now: Instant)
    requires Sequenced(b, n) && Keyed(b) && Sorted(ps) && PicksOf(ps, Part(b, now, true))
    requires forall x :: x in ps ==> x.slot in b
    ensures OfSub(Take(b, ps), s) == EventsOf(Sift(Pending(b, s, n), now, true))
    ensures Rest(b, ps) == Part(b, now, false)
    ensures Pending(Rest(b, ps), s, n) == Sift(Pending(b, s, n), now, false)
  {
    var due := Part(b, now, true);
    RestOf(b, ps, due);
    assert Rest(b, ps) == Part(b, now, false);
    assert Take(b, ps) == Take(due, ps);
    PartWell(b, n, now, true);
    PartWell(b, n, now, false);
    PendingPart(b, s, n, n, now, true);
    PendingPart(b, s, n, n, now, false);
    SortedTakeIsPending(due, ps, s, n);
  }

  /** The same for the whole buffer. */
  lemma WholeLine(b: Buffer, ps: seq<Pick>, s: Sub, n: nat)
    requires Sequenced(b, n) && Keyed(b) && Sorted(ps) && PicksOf(ps, b)
    ensures OfSub(Take(b, ps), s) == EventsOf(Pending(b, s, n))
  {
    SortedTakeIsPending(b, ps, s, n);
  }

  predicate Grouped(es: seq<Event>) {
    forall i, j :: 0 <= i < j < |es| ==> es[i].sub <= es[j].sub
  }

  /** Sorted picks come out grouped by subscription. */
  lemma TakeGrouped(b: Buffer, ps: seq<Pick>)
    requires Keyed(b) && Sorted(ps) && forall x :: x in ps ==> x.slot in b && x.sub == x.slot.sub
    ensures Grouped(Take(b, ps))
  {
  }

  // ---------------------------------------------------------------- dropping one subscription's tickets

  function KeepOthers(ready: seq<Ticket>, sub: Sub): seq<Ticket> {
    if ready == [] then []
    else
      var last := ready[|ready| - 1];
      KeepOthers(ready[..|ready| - 1], sub) + if last.event.sub == sub then [] else [last]
  }

  lemma ReadyOfSnoc(ready: seq<Ticket>, t: Ticket, s: Sub)
    ensures ReadyOf(ready + [t], s) == ReadyOf(ready, s) + if t.event.sub == s then [t.event] else []
  {
    assert TicketEvents(ready + [t]) == TicketEvents(ready) + [t.event];
    OfSubSnoc(TicketEvents(ready), t.event, s);
  }

  lemma {:induction false} KeepOthersReady(ready: seq<Ticket>, sub: Sub, s: Sub)
    ensures ReadyOf(KeepOthers(ready, sub), s) == if s == sub then [] else ReadyOf(ready, s)
  {
    if ready != [] {
      var r0, last := ready[..|ready| - 1], ready[|ready| - 1];
      KeepOthersReady(r0, sub, s);
      ReadyOfSnoc(r0, last, s);
      ReadyOfSnoc(KeepOthers(r0, sub), last, s);
      assert ready == r0 + [last];
      assert KeepOthers(r0, sub) + [] == KeepOthers(r0, sub);
      hide ReadyOf;
    }
  }

  lemma {:induction false} KeepOthersElements(ready: seq<Ticket>, sub: Sub)
    ensures forall x :: x in KeepOthers(ready, sub) <==> x in ready && x.event.sub != sub
  {
    if ready != [] {
      assert ready == ready[..|ready| - 1] + [ready[|ready| - 1]];
      KeepOthersElements(ready[..|ready| - 1], sub);
    }
  }
}
