/** The ordered containers the coalescer iterates: slot keys in (subscription, path) order and
    deadline entries in (instant, slot key) order, with ascending iteration over either.
 */
module Ordering {
  import opened Events

  /** One coalescing slot per subscription and key. */
  datatype SlotKey = SlotKey(sub: Sub, path: Key)

  /** One entry of the deadline index. */
  datatype Due = Due(at: Instant, slot: SlotKey)

  ghost predicate TotalOrder<T(!new)>(leq: (T, T) -> bool) {
    && (forall x, y :: leq(x, y) || leq(y, x))
    && (forall x, y :: leq(x, y) && leq(y, x) ==> x == y)
    && (forall x, y, z :: leq(x, y) && leq(y, z) ==> leq(x, z))
  }

  predicate PathLeq(a: Key, b: Key) {
    if a == [] then true
    else if b == [] then false
    else if a[0] != b[0] then a[0] < b[0]
    else PathLeq(a[1..], b[1..])
  }

  predicate SlotLeq(a: SlotKey, b: SlotKey) {
    if a.sub != b.sub then a.sub < b.sub else PathLeq(a.path, b.path)
  }

  predicate DueLeq(a: Due, b: Due) {
    if a.at != b.at then a.at < b.at else SlotLeq(a.slot, b.slot)
  }

  lemma {:induction false} PathLeqTotal(a: Key, b: Key)
    ensures PathLeq(a, b) || PathLeq(b, a)
    ensures PathLeq(a, b) && PathLeq(b, a) ==> a == b
  {
    if a != [] && b != [] {
      PathLeqTotal(a[1..], b[1..]);
      assert a == [a[0]] + a[1..] && b == [b[0]] + b[1..];
    }
  }

  lemma {:induction false} PathLeqTransitive(a: Key, b: Key, c: Key)
    requires PathLeq(a, b) && PathLeq(b, c)
    ensures PathLeq(a, c)
  {
    if a != [] && b != [] && c != [] && a[0] == b[0] == c[0] {
      PathLeqTransitive(a[1..], b[1..], c[1..]);
    }
  }

  lemma SlotOrder()
    ensures TotalOrder(SlotLeq)
  {
    forall x: SlotKey, y: SlotKey
      ensures SlotLeq(x, y) || SlotLeq(y, x)
      ensures SlotLeq(x, y) && SlotLeq(y, x) ==> x == y
    {
      PathLeqTotal(x.path, y.path);
    }
    forall x: SlotKey, y: SlotKey, z: SlotKey | SlotLeq(x, y) && SlotLeq(y, z) ensures SlotLeq(x, z) {
      if x.sub == y.sub == z.sub { PathLeqTransitive(x.path, y.path, z.path); }
    }
  }

  lemma DueOrder()
    ensures TotalOrder(DueLeq)
  {
    SlotOrder();
    forall x: Due, y: Due
      ensures DueLeq(x, y) || DueLeq(y, x)
      ensures DueLeq(x, y) && DueLeq(y, x) ==> x == y
    {
      assert SlotLeq(x.slot, y.slot) || SlotLeq(y.slot, x.slot);
    }
    forall x: Due, y: Due, z: Due | DueLeq(x, y) && DueLeq(y, z) ensures DueLeq(x, z) {
      assert SlotLeq(x.slot, y.slot) && SlotLeq(y.slot, z.slot) ==> SlotLeq(x.slot, z.slot);
    }
  }

  lemma {:induction false} FindLeast<T(!new)>(S: set<T>, leq: (T, T) -> bool) returns (m: T)
    requires S != {} && TotalOrder(leq)
    ensures m in S && forall x :: x in S ==> leq(m, x)
    decreases S
  {
    var e :| e in S;
    m := e;
    assert leq(e, e);
    if S != {e} {
      var rest := S - {e};
      assert S == rest + {e};
      var least := FindLeast(rest, leq);
      m := if leq(least, e) then least else e;
      forall x | x in S ensures leq(m, x) {
        if x != e {
          assert leq(least, x);
          assert leq(least, e) || leq(e, least);
        }
      }
    }
  }

  lemma LeastExists<T(!new)>(S: set<T>, leq: (T, T) -> bool)
    requires S != {} && TotalOrder(leq)
    ensures exists m :: m in S && forall x :: x in S ==> leq(m, x)
  {
    var m := FindLeast(S, leq);
  }

  function Least<T(!new, ==)>(S: set<T>, leq: (T, T) -> bool): (m: T)
    requires S != {} && TotalOrder(leq)
    ensures m in S && forall x :: x in S ==> leq(m, x)
  {
    LeastExists(S, leq);
    var m :| m in S && forall x :: x in S ==> leq(m, x);
    m
  }

  ghost predicate Climbs<T(!new)>(r: seq<T>, leq: (T, T) -> bool) {
    forall i, j :: 0 <= i < j < |r| ==> leq(r[i], r[j]) && r[i] != r[j]
  }

  lemma NoClimb<T(!new)>(leq: (T, T) -> bool)
    ensures Climbs([], leq)
  {
  }

  lemma ClimbFrom<T(!new)>(m: T, rest: seq<T>, leq: (T, T) -> bool)
    requires Climbs(rest, leq) && forall x :: x in rest ==> leq(m, x) && x != m
    ensures Climbs([m] + rest, leq)
  {
    var r := [m] + rest;
    forall i, j | 0 <= i < j < |r| ensures leq(r[i], r[j]) && r[i] != r[j] {
      assert r[j] == rest[j - 1] && rest[j - 1] in rest;
      if i > 0 { assert r[i] == rest[i - 1]; }
    }
  }

  /** Ordered iteration. */
  function Ascending<T(!new, ==)>(S: set<T>, leq: (T, T) -> bool): (r: seq<T>)
    requires TotalOrder(leq)
    ensures (forall x :: x in r <==> x in S) && |r| == |S| && Climbs(r, leq)
  {
    hide TotalOrder, Climbs;
    if S == {} then
      NoClimb(leq);
      []
    else
      var m := Least(S, leq);
      var rest := Ascending(S - {m}, leq);
      ClimbFrom(m, rest, leq);
      assert S == {m} + (S - {m});
      [m] + rest
  }

  ghost predicate SlotsAscend(r: seq<SlotKey>) {
    forall i, j :: 0 <= i < j < |r| ==> SlotLeq(r[i], r[j]) && r[i] != r[j]
  }

  ghost predicate DuesAscend(r: seq<Due>) {
    forall i, j :: 0 <= i < j < |r| ==> r[i].at <= r[j].at && r[i] != r[j]
  }

  /** The earliest deadline entry. */
  method FirstDue(S: set<Due>) returns (d: Due)
    requires S != {}
    ensures d in S && forall x :: x in S ==> d.at <= x.at
  {
    DueOrder();
    d := Least(S, DueLeq);
    assert forall x :: x in S ==> DueLeq(d, x);
  }

  /** Slot keys in ascending order. */
  method WalkSlots(S: set<SlotKey>) returns (r: seq<SlotKey>)
    ensures |r| == |S| && (forall x :: x in r <==> x in S) && SlotsAscend(r)
  {
    SlotOrder();
    r := Ascending(S, SlotLeq);
  }

  /** Deadline entries in ascending order, earliest first. */
  method WalkDues(S: set<Due>) returns (r: seq<Due>)
    ensures |r| == |S| && (forall x :: x in r <==> x in S) && DuesAscend(r)
  {
    DueOrder();
    r := Ascending(S, DueLeq);
    assert forall i, j :: 0 <= i < j < |r| ==> DueLeq(r[i], r[j]);
  }

  /** `(sub, [])` is the least slot key of `sub`, so a scan from it that stops at the first key of
      another subscription meets exactly the keys of `sub`. */
  lemma RangeStart(k: SlotKey, s: Sub)
    ensures SlotLeq(SlotKey(s, []), k) <==> s <= k.sub
  {
  }
}
