/** What a lane receives once the call that registered it has returned. The registration is then on the
    control queue, and the select polls control first. So at most one more event, pulled by a select that had
    already polled control, can miss the lane; from then on the lane receives everything its subscription is
    sent, unless a stop was already ahead of it, in which case it never receives anything.
 */
module DemuxOrder {
  import opened Events
  import opened Demux
  import opened DemuxSafety
  import opened DemuxLoop

  /** The step in which a lane call returns: its registration is admitted to the control queue. */
  predicate Returns(st: State, a: Action) {
    a.AdmitCall? && a.gen in st.calling && a.gen in st.lanes && CanSendControl(st)
  }

  predicate IsStop(m: Control) {
    m.Shutdown?
  }

  /** A stop has been requested and not yet finished. */
  predicate Stopping(st: State) {
    st.task.owed.Some? || exists i :: 0 <= i < |st.control| && IsStop(st.control[i])
  }

  /** A task that gave up on control does so because nobody can send to it any more. */
  lemma {:induction false} ControlStaysOpen(restCap: nat, run: seq<Action>)
    ensures var st := Exec(restCap, run); st.task.controlOpen || st.controlClosed
  {
    if run != [] {
      ControlStaysOpen(restCap, run[..|run| - 1]);
      StaysOpen(Exec(restCap, run[..|run| - 1]), run[|run| - 1]);
      hide Step;
    }
  }

  lemma AroundCloses(st: State, a: Action)
    requires IsAround(a)
    ensures st.controlClosed ==> Step(st, a).controlClosed
  {
    hide Live, Deafen, CanSendControl;
  }

  lemma StaysOpen(st: State, a: Action)
    requires st.task.controlOpen || st.controlClosed
    ensures Step(st, a).task.controlOpen || Step(st, a).controlClosed
  {
    if IsAround(a) {
      AroundLeavesTask(st, a);
      AroundCloses(st, a);
      hide Step;
    } else {
      hide Around, Registered, Released, Aim, ReclaimLane, PushLane;
    }
  }

  // ---------------------------------------------------------------- behind a stop

  /** Nothing of lane `g` has been used, and nothing will be until its registration is taken. */
  ghost predicate Unused(table: map<Sub, Gen>, routed: seq<Placement>, pc: Pc, g: Gen) {
    && (forall s :: s in table ==> table[s] != g)
    && (forall i :: 0 <= i < |routed| && routed[i].InLane? ==> routed[i].gen != g)
    && (pc.AtLane? ==> pc.gen != g)
  }

  ghost predicate UnusedIn(st: State, g: Gen) {
    Unused(st.task.table, st.hist.routed, st.task.pc, g)
  }

  /** Every queued registration of `g` stands behind a stop. */
  ghost predicate Behind(control: seq<Control>, g: Gen) {
    forall j :: 0 <= j < |control| && control[j].Register? && control[j].gen == g ==>
      exists i :: 0 <= i < j && IsStop(control[i])
  }

  ghost predicate ShutOut(st: State, g: Gen) {
    && g < st.nextGen && g !in st.calling && UnusedIn(st, g)
    && (st.task.owed.Some? || st.task.pc.Done? || Behind(st.control, g))
  }

  lemma BehindAppend(control: seq<Control>, m: Control, g: Gen)
    requires Behind(control, g) && (m.Register? ==> m.gen != g)
    ensures Behind(control + [m], g)
  {
    var control' := control + [m];
    forall j | 0 <= j < |control'| && control'[j].Register? && control'[j].gen == g
      ensures exists i :: 0 <= i < j && IsStop(control'[i])
    {
      var i :| 0 <= i < j && IsStop(control[i]);
      assert IsStop(control'[i]);
    }
  }

  lemma BehindTail(control: seq<Control>, g: Gen)
    requires Behind(control, g) && control != []
    ensures !(control[0].Register? && control[0].gen == g)
    ensures control[0].Shutdown? || Behind(control[1..], g)
  {
    var tail := control[1..];
    if !control[0].Shutdown? {
      forall j | 0 <= j < |tail| && tail[j].Register? && tail[j].gen == g ensures exists i :: 0 <= i < j && IsStop(tail[i]) {
        assert control[j + 1] == tail[j];
        var i :| 0 <= i < j + 1 && IsStop(control[i]);
        assert tail[i - 1] == control[i];
      }
    }
  }

  lemma AroundShutsOut(st: State, a: Action, g: Gen)
    requires ShutOut(st, g) && IsAround(a)
    ensures ShutOut(Step(st, a), g)
  {
    AroundLeavesTask(st, a);
    AroundMessages(st, a);
    AroundCalls(st, a);
    hide Step, Around, Behind;
    var st' := Step(st, a);
    if Behind(st.control, g) {
      if |st'.control| > |st.control| {
        assert st'.control == st.control + [st'.control[|st.control|]];
        BehindAppend(st.control, st'.control[|st.control|], g);
      } else {
        assert st'.control == st.control;
      }
    }
  }

  /** Lane calls only come from new lanes. */
  lemma AroundCalls(st: State, a: Action)
    requires IsAround(a)
    ensures Step(st, a).nextGen >= st.nextGen
    ensures forall g :: g in Step(st, a).calling ==> g in st.calling || g == st.nextGen
  {
    hide Live, Deafen, CanSendControl;
  }

  /** A control message puts at most its own lane into the table. */
  lemma ControlEntries(st: State, m: Control)
    ensures
      var table := match m case Register(sub, gen) => Registered(st, sub, gen)
                           case Release(sub, gen) => Released(st.task.table, sub, gen)
                           case Shutdown => st.task.table;
      forall s :: s in table ==> (s in st.task.table && table[s] == st.task.table[s]) || (m.Register? && table[s] == m.gen)
  {
  }

  lemma UnusedRetabled(table: map<Sub, Gen>, table': map<Sub, Gen>, routed: seq<Placement>, pc: Pc, g: Gen, m: Control)
    requires Unused(table, routed, pc, g) && !(m.Register? && m.gen == g)
    requires forall s :: s in table' ==> (s in table && table'[s] == table[s]) || (m.Register? && table'[s] == m.gen)
    ensures Unused(table', routed, pc, g)
  {
  }

  lemma ControlShutsOut(st: State, g: Gen)
    requires ShutOut(st, g)
    ensures ShutOut(Step(st, TakeControl), g)
  {
    hide Behind, Step, Unused, Registered, Released;
    StepIs(st, TakeControl);
    if st.control != [] && !st.task.owed.Some? && !st.task.pc.Done? {
      BehindTail(st.control, g);
      ControlEntries(st, st.control[0]);
      UnusedRetabled(st.task.table, Step(st, TakeControl).task.table, st.hist.routed, st.task.pc, g, st.control[0]);
    }
  }

  lemma UnusedPlaced(table: map<Sub, Gen>, routed: seq<Placement>, pc: Pc, p: Placement, g: Gen)
    requires Unused(table, routed, pc, g) && (p.InLane? ==> p.gen != g)
    ensures Unused(table, routed + [p], Idle, g)
  {
  }

  lemma UnusedFewer(table: map<Sub, Gen>, routed: seq<Placement>, pc: Pc, e: Event, g: Gen)
    requires Unused(table, routed, pc, g)
    ensures Unused(table - {e.sub}, routed, AtRest(e), g)
  {
  }

  lemma SendLaneShutsOut(st: State, g: Gen)
    requires ShutOut(st, g)
    ensures ShutOut(Step(st, SendLane), g)
  {
    hide Behind, Step;
    SendLaneCases(st);
    var t, pc, routed := st.task.table, st.task.pc, st.hist.routed;
    if pc.AtLane? {
      assert pc.gen != g;
      hide Unused;
      UnusedPlaced(t, routed, pc, InLane(pc.e, pc.gen), g);
      UnusedFewer(t, routed, pc, pc.e, g);
    }
  }

  lemma SendRestShutsOut(st: State, g: Gen)
    requires ShutOut(st, g)
    ensures ShutOut(Step(st, SendRest), g)
  {
    hide Behind, Step, Unused;
    SendRestCases(st);
    var t, pc, routed := st.task.table, st.task.pc, st.hist.routed;
    if pc.AtRest? {
      UnusedPlaced(t, routed, pc, InRest(pc.e), g);
      UnusedPlaced(t, routed, pc, Discarded(pc.e), g);
    }
  }

  lemma TaskShutsOut(st: State, a: Action, g: Gen)
    requires ShutOut(st, g) && !IsAround(a) && !a.TakeControl? && !a.SendLane? && !a.SendRest?
    ensures ShutOut(Step(st, a), g)
  {
    hide Behind, Around, OnTakeControl;
    OtherTaskSteps(st, a);
  }

  lemma {:induction false} ShutOutThroughout(restCap: nat, run: seq<Action>, n: nat, g: Gen)
    requires n <= |run| && ShutOut(Exec(restCap, run[..n]), g)
    ensures ShutOut(Exec(restCap, run), g)
  {
    if n == |run| {
      assert run[..n] == run;
    } else {
      var run0, a := run[..|run| - 1], run[|run| - 1];
      assert run0[..n] == run[..n];
      ShutOutThroughout(restCap, run0, n, g);
      hide ShutOut, Step;
      if IsAround(a) {
        AroundShutsOut(Exec(restCap, run0), a, g);
      } else if a.TakeControl? {
        ControlShutsOut(Exec(restCap, run0), g);
      } else if a.SendLane? {
        SendLaneShutsOut(Exec(restCap, run0), g);
      } else if a.SendRest? {
        SendRestShutsOut(Exec(restCap, run0), g);
      } else {
        TaskShutsOut(Exec(restCap, run0), a, g);
      }
    }
  }

  /** The state in which a lane call returns: its registration is last on the queue, its lane unused. */
  lemma ReturnPosts(restCap: nat, run: seq<Action>, a: Action)
    requires Returns(Exec(restCap, run), a)
    ensures
      var st := Exec(restCap, run);
      var st' := Exec(restCap, run + [a]);
      && st'.control == st.control + [Register(st.lanes[a.gen].sub, a.gen)]
      && st' == st.(calling := st.calling - {a.gen}, control := st'.control)
      && a.gen < st.nextGen && UnusedIn(st', a.gen)
      && (forall i :: 0 <= i < |st.control| && st.control[i].Register? ==> st.control[i].gen != a.gen)
  {
    ExecNext(restCap, run, a);
    EveryRun(restCap, run);
    var st := Exec(restCap, run);
    hide Exec, FlowsIn, Sent, BoundedIn, RestRule, ClaimHeld, NoSplit;
    forall i | 0 <= i < |st.control| && st.control[i].Register? ensures st.control[i].gen != a.gen {
      assert Posted(st.control[i], st.task.table, st.lanes, st.calling);
    }
  }

  /** A call that returns behind a stop is shut out from then on. */
  lemma ReturnShutsOut(restCap: nat, run: seq<Action>, a: Action)
    requires Returns(Exec(restCap, run), a) && Stopping(Exec(restCap, run))
    ensures ShutOut(Exec(restCap, run + [a]), a.gen)
  {
    hide Exec, UnusedIn;
    ReturnPosts(restCap, run, a);
    var st, st' := Exec(restCap, run), Exec(restCap, run + [a]);
    if st.task.owed.None? {
      var i :| 0 <= i < |st.control| && IsStop(st.control[i]);
      assert IsStop(st'.control[i]);
    }
  }

  lemma ShutOutUnused(st: State, g: Gen)
    requires ShutOut(st, g)
    ensures Via(st.hist.routed, g) == []
  {
    NoneVia(st.hist.routed, g);
  }

  /** Main result, behind a stop: a lane whose call returns after a stop was requested never receives
      anything, on any run. */
  lemma LaneBehindAStopReceivesNothing(restCap: nat, run: seq<Action>, n: nat)
    requires n < |run| && Returns(Exec(restCap, run[..n]), run[n]) && Stopping(Exec(restCap, run[..n]))
    ensures Via(Exec(restCap, run).hist.routed, run[n].gen) == []
  {
    hide Exec, Stopping, ShutOut;
    assert run[..n + 1] == run[..n] + [run[n]];
    ReturnShutsOut(restCap, run[..n], run[n]);
    ShutOutThroughout(restCap, run, n + 1, run[n].gen);
    ShutOutUnused(Exec(restCap, run), run[n].gen);
  }

  lemma {:induction false} NoneVia(routed: seq<Placement>, g: Gen)
    requires forall i :: 0 <= i < |routed| && routed[i].InLane? ==> routed[i].gen != g
    ensures Via(routed, g) == []
  {
    if routed != [] { NoneVia(routed[..|routed| - 1], g); }
  }

  // ---------------------------------------------------------------- no stop ahead

  predicate NoneFor(control: seq<Control>, s: Sub) {
    forall i :: 0 <= i < |control| && control[i].Register? ==> control[i].sub != s
  }

  /** The registration waits at place `j` of the queue, with no stop before it and no other registration
      of `s` after it; nothing past the first `since` events has been pulled. */
  ghost predicate Waiting(st: State, s: Sub, g: Gen, since: nat, j: nat) {
    && j < |st.control| && st.control[j] == Register(s, g)
    && (forall i :: 0 <= i < j ==> !st.control[i].Shutdown?) && NoneFor(st.control[j + 1..], s)
    && st.task.owed.None? && !st.task.pc.Done? && st.task.controlOpen
    && |st.hist.pulled| <= since
  }

  /** From event number `since` on, everything of `s` went into lane `g`. */
  ghost predicate AllInLane(routed: seq<Placement>, s: Sub, g: Gen, since: nat) {
    forall i :: since <= i < |routed| && routed[i].e.sub == s ==> routed[i] == InLane(routed[i].e, g)
  }

  /** The lane has the claim and uses it, or the task is gone. */
  ghost predicate Claimed(st: State, s: Sub, g: Gen, since: nat) {
    && (st.task.pc.Done? || (s in st.task.table && st.task.table[s] == g))
    && NoneFor(st.control, s) && AllInLane(st.hist.routed, s, g, since)
    && (st.task.pc.AtLane? && st.task.pc.e.sub == s ==> st.task.pc.gen == g)
    && (st.task.pc.AtRest? ==> st.task.pc.e.sub != s)
  }

  /** The world around the task posts a registration only when a lane call returns. */
  lemma AroundRegisters(st: State, a: Action)
    requires IsAround(a)
    ensures
      var st' := Step(st, a);
      || st'.control == st.control
      || (exists m :: st'.control == st.control + [m] && (m.Register? ==> Returns(st, a) && m.sub == st.lanes[a.gen].sub))
  {
    hide Live, Deafen;
    var st' := Step(st, a);
    if st'.control != st.control {
      assert st'.control == st.control + [st'.control[|st.control|]];
    }
  }

  /** Somebody else's call, or anything but a call. */
  predicate NotReturningFor(st: State, a: Action, s: Sub) {
    Returns(st, a) ==> st.lanes[a.gen].sub != s
  }

  lemma NoneForAround(st: State, a: Action, s: Sub, from: nat)
    requires IsAround(a) && NotReturningFor(st, a, s) && from <= |st.control| && NoneFor(st.control[from..], s)
    ensures from <= |Step(st, a).control| && NoneFor(Step(st, a).control[from..], s)
    ensures |st.control| <= |Step(st, a).control| && Step(st, a).control[..|st.control|] == st.control
  {
    AroundRegisters(st, a);
    hide Step, Returns;
    var control := Step(st, a).control;
    if control != st.control {
      var m :| control == st.control + [m] && (m.Register? ==> Returns(st, a) && m.sub == st.lanes[a.gen].sub);
      assert control[from..] == st.control[from..] + [m];
    }
  }

  lemma AroundWaits(st: State, a: Action, s: Sub, g: Gen, since: nat, j: nat)
    requires Waiting(st, s, g, since, j) && IsAround(a) && NotReturningFor(st, a, s)
    ensures Waiting(Step(st, a), s, g, since, j)
  {
    NoneForAround(st, a, s, j + 1);
    AroundLeavesTask(st, a);
    hide Step, NoneFor;
    var control := Step(st, a).control;
    assert forall i :: 0 <= i < |st.control| ==> control[i] == control[..|st.control|][i];
  }

  lemma InstalledEntry(st: State, s: Sub, g: Gen)
    requires g in st.lanes && st.lanes[g].chan.live
    ensures s in Registered(st, s, g) && Registered(st, s, g)[s] == g
  {
  }

  lemma IdlePlaced(st: State)
    requires FlowsIn(st) && st.task.pc.Idle?
    ensures |st.hist.routed| == |st.hist.pulled|
  {
  }

  /** The queue after its head is taken, the registration not yet. */
  lemma WaitingTail(control: seq<Control>, s: Sub, g: Gen, j: nat)
    requires 0 < j < |control| && control[j] == Register(s, g) && NoneFor(control[j + 1..], s)
    requires forall i :: 0 <= i < j ==> !control[i].Shutdown?
    ensures
      var tail := control[1..];
      && tail[j - 1] == Register(s, g) && NoneFor(tail[j..], s) && (forall i :: 0 <= i < j - 1 ==> !tail[i].Shutdown?)
  {
    assert forall i :: 0 <= i < |control[1..]| ==> control[1..][i] == control[i + 1];
    assert control[1..][j..] == control[j + 1..];
  }

  /** The registration is taken, or moves up by one. */
  lemma ControlWaits(st: State, s: Sub, g: Gen, since: nat, j: nat)
    requires Waiting(st, s, g, since, j) && FlowsIn(st) && g in st.lanes && st.lanes[g].chan.live
    ensures
      var st' := Step(st, TakeControl);
      || Waiting(st', s, g, since, j)
      || (j > 0 && Waiting(st', s, g, since, j - 1))
      || Claimed(st', s, g, since)
  {
    hide Step, Registered, Released;
    StepIs(st, TakeControl);
    if st.task.pc.Idle? {
      if j == 0 {
        assert s in Registered(st, s, g) && Registered(st, s, g)[s] == g by { InstalledEntry(st, s, g); }
        assert |st.hist.routed| == |st.hist.pulled| by { IdlePlaced(st); }
      } else {
        assert !st.control[0].Shutdown?;
        WaitingTail(st.control, s, g, j);
      }
    }
    hide NoneFor, FlowsIn;
  }

  lemma SendsWait(st: State, a: Action, s: Sub, g: Gen, since: nat, j: nat)
    requires Waiting(st, s, g, since, j) && (a.SendLane? || a.SendRest?)
    ensures Waiting(Step(st, a), s, g, since, j)
  {
    hide Step, NoneFor;
    if a.SendLane? { SendLaneCases(st); } else { SendRestCases(st); }
  }

  /** A pull, if there is one now, takes an event before number `since`. */
  predicate PullsEarly(st: State, since: nat) {
    st.task.pc.Idle? && st.stream != [] ==> |st.hist.pulled| < since
  }

  /** While the registration waits only an early event is pulled; or the stream ends, with nothing left to
      place. */
  lemma OthersWait(st: State, a: Action, s: Sub, g: Gen, since: nat, j: nat)
    requires Waiting(st, s, g, since, j) && FlowsIn(st) && (a.Pull? ==> PullsEarly(st, since))
    requires !IsAround(a) && !a.TakeControl? && !a.SendLane? && !a.SendRest?
    ensures Waiting(Step(st, a), s, g, since, j) || Claimed(Step(st, a), s, g, since)
  {
    hide Around;
  }

  ghost predicate Served(st: State, s: Sub, g: Gen, since: nat) {
    (exists j :: Waiting(st, s, g, since, j)) || Claimed(st, s, g, since)
  }

  lemma WaitingServed(st: State, a: Action, s: Sub, g: Gen, since: nat, j: nat)
    requires Waiting(st, s, g, since, j) && FlowsIn(st) && (a.Pull? ==> PullsEarly(st, since))
    requires g in st.lanes && st.lanes[g].chan.live && NotReturningFor(st, a, s)
    ensures Served(Step(st, a), s, g, since)
  {
    hide Step, Waiting, Claimed, FlowsIn;
    if IsAround(a) {
      AroundWaits(st, a, s, g, since, j);
    } else if a.TakeControl? {
      ControlWaits(st, s, g, since, j);
    } else if a.SendLane? || a.SendRest? {
      SendsWait(st, a, s, g, since, j);
    } else {
      OthersWait(st, a, s, g, since, j);
    }
  }

  lemma AroundClaimed(st: State, a: Action, s: Sub, g: Gen, since: nat)
    requires Claimed(st, s, g, since) && IsAround(a) && NotReturningFor(st, a, s)
    ensures Claimed(Step(st, a), s, g, since)
  {
    assert st.control[0..] == st.control;
    NoneForAround(st, a, s, 0);
    AroundLeavesTask(st, a);
    hide Step, NoneFor, AllInLane;
    assert Step(st, a).control[0..] == Step(st, a).control;
  }

  lemma ControlClaimed(st: State, s: Sub, g: Gen, since: nat)
    requires Claimed(st, s, g, since) && Wired(st) && g in st.lanes && st.lanes[g].chan.live
    ensures Claimed(Step(st, TakeControl), s, g, since)
  {
    if st.control != [] && !st.task.pc.Done? { StepKeepsClaim(st, TakeControl, s); }
    hide Around, Wired, AllInLane, Registered, Released;
  }

  lemma SendsClaimed(st: State, a: Action, s: Sub, g: Gen, since: nat)
    requires Claimed(st, s, g, since) && g in st.lanes && st.lanes[g].chan.live && (a.SendLane? || a.SendRest?)
    ensures Claimed(Step(st, a), s, g, since)
  {
    hide Step, NoneFor;
    if a.SendLane? { SendLaneCases(st); } else { SendRestCases(st); }
  }

  lemma OthersClaimed(st: State, a: Action, s: Sub, g: Gen, since: nat)
    requires Claimed(st, s, g, since) && !IsAround(a) && !a.TakeControl? && !a.SendLane? && !a.SendRest?
    ensures Claimed(Step(st, a), s, g, since)
  {
    hide Around, AllInLane;
  }

  lemma ClaimedServed(st: State, a: Action, s: Sub, g: Gen, since: nat)
    requires Claimed(st, s, g, since) && Wired(st)
    requires g in st.lanes && st.lanes[g].chan.live && NotReturningFor(st, a, s)
    ensures Claimed(Step(st, a), s, g, since)
  {
    hide Step, Claimed, Wired;
    if IsAround(a) {
      AroundClaimed(st, a, s, g, since);
    } else if a.TakeControl? {
      ControlClaimed(st, s, g, since);
    } else if a.SendLane? || a.SendRest? {
      SendsClaimed(st, a, s, g, since);
    } else {
      OthersClaimed(st, a, s, g, since);
    }
  }

  /** A lane that is there and live was there and live before. */
  lemma LiveBefore(st: State, a: Action, g: Gen)
    requires Wired(st) && g < st.nextGen && g in Step(st, a).lanes && Step(st, a).lanes[g].chan.live
    ensures g in st.lanes && st.lanes[g].chan.live
  {
    if IsAround(a) {
      AroundAges(st, a);
      AroundLanes(st, a);
      hide Step, Wired;
    } else {
      TaskLanes(st, a, g);
      hide Step, Wired;
    }
  }

  lemma AroundLanes(st: State, a: Action)
    requires IsAround(a)
    ensures forall g :: g in Step(st, a).lanes ==> g in st.lanes || g == st.nextGen
  {
    hide Live, CanSendControl;
  }

  lemma TaskLanes(st: State, a: Action, g: Gen)
    requires !IsAround(a) && g in Step(st, a).lanes
    ensures g in st.lanes && st.lanes[g].chan.live == Step(st, a).lanes[g].chan.live
  {
    hide Step;
    if a.SendLane? {
      SendLaneCases(st);
    } else if a.SendRest? {
      SendRestCases(st);
    } else {
      OtherTaskSteps(st, a);
    }
  }

  /** Nobody registers another lane for `s` from step `n` on. */
  ghost predicate NoOtherCall(restCap: nat, run: seq<Action>, n: nat, s: Sub) {
    forall m :: n <= m < |run| ==> NotReturningFor(Exec(restCap, run[..m]), run[m], s)
  }

  /** A part of a run, and what holds of it. */
  lemma RunPrefix(restCap: nat, run: seq<Action>, n: nat, s: Sub, p: nat)
    requires n <= p <= |run| && Biased(restCap, run) && NoOtherCall(restCap, run, n, s)
    ensures Biased(restCap, run[..p]) && NoOtherCall(restCap, run[..p], n, s) && run[..p][..n] == run[..n]
  {
    hide NotReturningFor, Polled, Exec;
    forall m | 0 <= m < p ensures run[..p][m] == run[m] && run[..p][..m] == run[..m] {
    }
  }

  /** The last step of a run. */
  lemma LastStep(restCap: nat, run: seq<Action>, n: nat, s: Sub)
    requires n < |run| && Biased(restCap, run) && NoOtherCall(restCap, run, n, s)
    ensures
      var run0, a := run[..|run| - 1], run[|run| - 1];
      && NotReturningFor(Exec(restCap, run0), a, s) && (a.Pull? ==> Polled(restCap, run0))
      && Exec(restCap, run) == Step(Exec(restCap, run0), a)
  {
    hide NotReturningFor, Polled, Step;
  }

  /** What the others do leaves the task and what it has pulled alone. */
  lemma {:induction false} EnvLeavesTask(restCap: nat, run: seq<Action>, p: nat)
    requires p <= |run| && EnvOnly(run[p..])
    ensures Exec(restCap, run).task == Exec(restCap, run[..p]).task
    ensures Exec(restCap, run).hist.pulled == Exec(restCap, run[..p]).hist.pulled
  {
    if p == |run| {
      assert run[..p] == run;
    } else {
      var run0, a := run[..|run| - 1], run[|run| - 1];
      assert run0[..p] == run[..p] && run0[p..] == run[p..][..|run| - 1 - p] && run[p..][|run| - 1 - p] == a;
      EnvLeavesTask(restCap, run0, p);
      EnvStepLeavesTask(Exec(restCap, run0), a);
      hide Step;
    }
  }

  lemma EnvStepLeavesTask(st: State, a: Action)
    requires IsEnv(a)
    ensures Step(st, a).task == st.task && Step(st, a).hist.pulled == st.hist.pulled
  {
    if IsAround(a) {
      AroundLeavesTask(st, a);
      hide Step;
    } else {
      hide Around, OnTakeControl, OnSendLane, OnSendRest, OnBarrierNext;
    }
  }

  /** A lane live at the end of a run was live at every earlier moment since it was minted. */
  lemma {:induction false} LiveThroughout(restCap: nat, run: seq<Action>, p: nat, g: Gen)
    requires p <= |run| && g < Exec(restCap, run[..p]).nextGen
    requires g in Exec(restCap, run).lanes && Exec(restCap, run).lanes[g].chan.live
    ensures g in Exec(restCap, run[..p]).lanes && Exec(restCap, run[..p]).lanes[g].chan.live
  {
    hide Exec, Step, Wired;
    if p == |run| {
      assert run[..p] == run;
    } else {
      var run0, a := run[..|run| - 1], run[|run| - 1];
      assert run0[..p] == run[..p] && run == run0 + [a];
      ExecNext(restCap, run0, a);
      GensGrow(restCap, run0, p);
      assert Wired(Exec(restCap, run0)) by { EveryRun(restCap, run0); }
      LiveBefore(Exec(restCap, run0), a, g);
      LiveThroughout(restCap, run0, p, g);
    }
  }

  /** A claim held at some moment is held at every later one. */
  lemma {:induction false} ClaimedThroughout(restCap: nat, run: seq<Action>, n: nat, p: nat, s: Sub, g: Gen, since: nat)
    requires n <= p <= |run| && Biased(restCap, run) && NoOtherCall(restCap, run, n, s)
    requires Claimed(Exec(restCap, run[..p]), s, g, since) && g < Exec(restCap, run[..p]).nextGen
    requires g in Exec(restCap, run).lanes && Exec(restCap, run).lanes[g].chan.live
    ensures Claimed(Exec(restCap, run), s, g, since)
  {
    hide Exec, Step, Biased, NoOtherCall, Claimed, Wired, NotReturningFor, Polled;
    if p == |run| {
      assert run[..p] == run;
    } else {
      var run0, a := run[..|run| - 1], run[|run| - 1];
      assert run0[..p] == run[..p];
      RunPrefix(restCap, run, n, s, |run| - 1);
      LastStep(restCap, run, n, s);
      GensGrow(restCap, run0, p);
      LiveThroughout(restCap, run, |run| - 1, g);
      ClaimedThroughout(restCap, run0, n, p, s, g, since);
      assert Wired(Exec(restCap, run0)) by { EveryRun(restCap, run0); }
      ClaimedServed(Exec(restCap, run0), a, s, g, since);
    }
  }

  lemma ServedStep(st: State, a: Action, s: Sub, g: Gen, since: nat)
    requires Served(st, s, g, since) && FlowsIn(st) && Wired(st)
    requires (a.Pull? ==> PullsEarly(st, since) || Claimed(st, s, g, since)) && NotReturningFor(st, a, s)
    requires g in st.lanes && st.lanes[g].chan.live
    ensures Served(Step(st, a), s, g, since)
  {
    hide Step, Wired, FlowsIn, Waiting, Claimed, NotReturningFor, PullsEarly;
    if Claimed(st, s, g, since) {
      ClaimedServed(st, a, s, g, since);
    } else {
      var j :| Waiting(st, s, g, since, j);
      WaitingServed(st, a, s, g, since, j);
    }
  }

  /** A registration that waits is not overlooked by a poll of control. */
  lemma WaitingIsSeen(st: State, s: Sub, g: Gen, since: nat)
    requires Served(st, s, g, since) && ControlIdle(st)
    ensures Claimed(st, s, g, since)
  {
  }

  /** What the state in which the call returned allows: a select under way may still pull one event. */
  ghost predicate Slack(st: State, since: nat) {
    st.task.pc.Idle? ==> |st.hist.pulled| < since
  }

  /** A pull whose control poll came before the call returned takes an early event. */
  lemma StalePullIsEarly(restCap: nat, run: seq<Action>, n: nat, p: nat, since: nat)
    requires p <= n <= |run| && EnvOnly(run[p..]) && Slack(Exec(restCap, run[..n]), since)
    ensures PullsEarly(Exec(restCap, run), since)
  {
    hide Exec;
    assert forall m :: 0 <= m < |run| - n ==> run[n..][m] == run[p..][m + n - p];
    EnvLeavesTask(restCap, run, n);
  }

  lemma {:induction false} ServedThroughout(restCap: nat, run: seq<Action>, n: nat, s: Sub, g: Gen, since: nat)
    requires n <= |run| && Biased(restCap, run) && NoOtherCall(restCap, run, n, s)
    requires Served(Exec(restCap, run[..n]), s, g, since) && Slack(Exec(restCap, run[..n]), since)
    requires g < Exec(restCap, run[..n]).nextGen
    requires g in Exec(restCap, run).lanes && Exec(restCap, run).lanes[g].chan.live
    ensures Served(Exec(restCap, run), s, g, since)
    decreases |run|, 0
  {
    hide Exec, Step, Biased, NoOtherCall, Served, Wired, FlowsIn, NotReturningFor, Claimed, PullsEarly, Slack, EnvOnly, ControlIdle;
    if n == |run| {
      assert run[..n] == run;
    } else {
      var run0, a := run[..|run| - 1], run[|run| - 1];
      RunPrefix(restCap, run, n, s, |run| - 1);
      LastStep(restCap, run, n, s);
      assert FlowsIn(Exec(restCap, run0)) && Wired(Exec(restCap, run0)) by { EveryRun(restCap, run0); }
      GensGrow(restCap, run0, n);
      LiveThroughout(restCap, run, |run| - 1, g);
      ServedThroughout(restCap, run0, n, s, g, since);
      if a.Pull? {
        var p :| 0 <= p <= |run0| && PolledAt(restCap, run0, p);
        if p <= n {
          StalePullIsEarly(restCap, run0, n, p, since);
        } else {
          FreshPullIsClaimed(restCap, run0, n, p, s, g, since);
        }
      }
      ServedStep(Exec(restCap, run0), a, s, g, since);
    }
  }

  /** A pull whose control poll came after the call returned finds the registration taken. */
  lemma FreshPullIsClaimed(restCap: nat, run: seq<Action>, n: nat, p: nat, s: Sub, g: Gen, since: nat)
    requires n < p <= |run| && Biased(restCap, run) && NoOtherCall(restCap, run, n, s) && PolledAt(restCap, run, p)
    requires Served(Exec(restCap, run[..n]), s, g, since) && Slack(Exec(restCap, run[..n]), since)
    requires g < Exec(restCap, run[..n]).nextGen
    requires g in Exec(restCap, run).lanes && Exec(restCap, run).lanes[g].chan.live
    ensures Claimed(Exec(restCap, run), s, g, since)
    decreases |run|, 1
  {
    hide Exec, Biased, NoOtherCall, Served, Claimed, Slack, EnvOnly, ControlIdle;
    RunPrefix(restCap, run, n, s, p);
    GensGrow(restCap, run[..p], n);
    LiveThroughout(restCap, run, p, g);
    ServedThroughout(restCap, run[..p], n, s, g, since);
    WaitingIsSeen(Exec(restCap, run[..p]), s, g, since);
    ClaimedThroughout(restCap, run, n, p, s, g, since);
  }

  lemma {:induction false} GensGrow(restCap: nat, run: seq<Action>, n: nat)
    requires n <= |run|
    ensures Exec(restCap, run[..n]).nextGen <= Exec(restCap, run).nextGen
  {
    if n == |run| {
      assert run[..n] == run;
    } else {
      var run0, a := run[..|run| - 1], run[|run| - 1];
      assert run0[..n] == run[..n];
      GensGrow(restCap, run0, n);
      GenGrows(Exec(restCap, run0), a);
      hide Step;
    }
  }

  lemma GenGrows(st: State, a: Action)
    ensures st.nextGen <= Step(st, a).nextGen
  {
    if IsAround(a) { AroundCalls(st, a); hide Step; }
    hide Registered, Released, Aim, Around;
  }

  /** The number of the first event that cannot miss a lane whose call returns here: the next one, unless a
      select may already have polled control and be about to find the stream it sees empty no longer so. */
  function FirstSure(st: State): nat {
    |st.hist.produced| + if st.task.pc.Idle? && st.stream == [] then 1 else 0
  }

  /** Main result: a lane call that returns while no stop is ahead gets everything, but for at most one event.
      On every biased run on which the lane is still there and nobody else registers for its subscription,
      every event of that subscription that is surely seen after the call returned, and has been placed, was
      placed in that lane, stops taken later included. */
  lemma LaneReceivesWhatFollows(restCap: nat, run: seq<Action>, n: nat, i: nat)
    requires n < |run| && Biased(restCap, run) && Returns(Exec(restCap, run[..n]), run[n])
    requires !Stopping(Exec(restCap, run[..n]))
    requires NoOtherCall(restCap, run, n + 1, Exec(restCap, run[..n]).lanes[run[n].gen].sub)
    requires run[n].gen in Exec(restCap, run).lanes && Exec(restCap, run).lanes[run[n].gen].chan.live
    requires FirstSure(Exec(restCap, run[..n])) <= i < |Exec(restCap, run).hist.routed|
    ensures
      var s, st := Exec(restCap, run[..n]).lanes[run[n].gen].sub, Exec(restCap, run);
      && i < |st.hist.produced| && st.hist.routed[i].e == st.hist.produced[i]
      && (st.hist.produced[i].sub == s ==> st.hist.routed[i] == InLane(st.hist.produced[i], run[n].gen))
  {
    hide Exec, Wired, FlowsIn, Biased, NoOtherCall, Stopping, Served, Slack, FirstSure;
    var st0, g := Exec(restCap, run[..n]), run[n].gen;
    var s, since := st0.lanes[g].sub, FirstSure(st0);
    ReturnServed(restCap, run, n);
    ServedThroughout(restCap, run, n + 1, s, g, since);
    assert FlowsIn(Exec(restCap, run)) by { EveryRun(restCap, run); }
    ServedPlaces(Exec(restCap, run), s, g, since, i);
  }

  /** What a state that serves the lane says of one placement. */
  lemma ServedPlaces(st: State, s: Sub, g: Gen, since: nat, i: nat)
    requires Served(st, s, g, since) && FlowsIn(st) && since <= i < |st.hist.routed|
    ensures i < |st.hist.produced| && st.hist.routed[i].e == st.hist.produced[i]
    ensures st.hist.produced[i].sub == s ==> st.hist.routed[i] == InLane(st.hist.produced[i], g)
  {
    assert Placed(st.hist.routed)[i] == st.hist.routed[i].e;
  }

  lemma ReturnServed(restCap: nat, run: seq<Action>, n: nat)
    requires n < |run| && Returns(Exec(restCap, run[..n]), run[n]) && !Stopping(Exec(restCap, run[..n]))
    ensures
      var st0, st1 := Exec(restCap, run[..n]), Exec(restCap, run[..n + 1]);
      && Served(st1, st0.lanes[run[n].gen].sub, run[n].gen, FirstSure(st0)) && Slack(st1, FirstSure(st0))
      && run[n].gen < st1.nextGen
  {
    hide Exec, FlowsIn, UnusedIn, Stopping;
    var st0, st1 := Exec(restCap, run[..n]), Exec(restCap, run[..n + 1]);
    assert run[..n + 1] == run[..n] + [run[n]];
    ReturnPosts(restCap, run[..n], run[n]);
    assert FlowsIn(st0) by { EveryRun(restCap, run[..n]); }
    ControlStaysOpen(restCap, run[..n]);
    ReturnWaits(st0, st1, st0.lanes[run[n].gen].sub, run[n].gen);
  }

  lemma ReturnWaits(st0: State, st1: State, s: Sub, g: Gen)
    requires FlowsIn(st0) && CanSendControl(st0) && !Stopping(st0) && (st0.task.controlOpen || st0.controlClosed)
    requires st1 == st0.(calling := st0.calling - {g}, control := st0.control + [Register(s, g)])
    ensures Waiting(st1, s, g, FirstSure(st0), |st0.control|) && Slack(st1, FirstSure(st0))
  {
    forall i | 0 <= i < |st0.control| ensures !st1.control[i].Shutdown? {
      assert !IsStop(st0.control[i]);
    }
  }

  /** The calls and the event of the witness: a lane is called and registered, and an event of its subscription
      is produced and pulled, all after one poll of control. */
  function LateRegistration(s: Sub, cap: nat, g: Gen, e: Event): seq<Action> {
    [CallLane(s, cap), AdmitCall(g), Produce(e), Pull]
  }

  /** That run is biased, and this is where it leads. */
  lemma LateRun(restCap: nat, run: seq<Action>, s: Sub, cap: nat, g: Gen, e: Event)
    requires Biased(restCap, run) && ControlIdle(Exec(restCap, run))
    ensures
      var late, st := run + LateRegistration(s, cap, g, e), Exec(restCap, run);
      var st1 := Step(st, CallLane(s, cap));
      && Biased(restCap, late) && Exec(restCap, late) == Step(Step(Step(st1, AdmitCall(g)), Produce(e)), Pull)
      && |run| + 1 < |late| && late[|run| + 1] == AdmitCall(g) && Exec(restCap, late[..|run| + 1]) == st1
  {
    hide Exec, Biased, Polled, Step, EnvOnly, ControlIdle;
    var batch := [CallLane(s, cap), AdmitCall(g), Produce(e)];
    var run1 := run + [CallLane(s, cap)];
    var run2 := run1 + [AdmitCall(g)];
    var run3 := run2 + [Produce(e)];
    PolledNow(restCap, run);
    assert EnvOnly(batch) by { LateIsEnv(s, cap, g, e); }
    PolledBefore(restCap, run, batch);
    assert run + batch == run3;
    ExecNext(restCap, run, CallLane(s, cap));
    ExecNext(restCap, run1, AdmitCall(g));
    ExecNext(restCap, run2, Produce(e));
    ExecNext(restCap, run3, Pull);
    assert run + LateRegistration(s, cap, g, e) == run3 + [Pull];
    assert (run3 + [Pull])[..|run| + 1] == run1;
  }

  lemma LateIsEnv(s: Sub, cap: nat, g: Gen, e: Event)
    ensures EnvOnly([CallLane(s, cap), AdmitCall(g), Produce(e)])
  {
  }

  /** Why one event may miss: from every state in which a select has found control empty and the stream empty,
      there is a biased run on which a lane call returns, no stop is ahead, and the next event of its
      subscription is on its way past the lane. */
  lemma OneEventCanMiss(restCap: nat, run: seq<Action>, s: Sub, cap: nat, e: Event)
    requires Biased(restCap, run) && cap > 0 && e.sub == s
    requires
      var st := Exec(restCap, run);
      && st.task.pc.Idle? && st.task.owed.None? && st.control == [] && !st.controlClosed && st.stream == [] && !st.ended
    ensures
      var g, n := Exec(restCap, run).nextGen, |run| + 1;
      var late := run + LateRegistration(s, cap, g, e);
      var st := Exec(restCap, late);
      && Biased(restCap, late) && Returns(Exec(restCap, late[..n]), late[n]) && !Stopping(Exec(restCap, late[..n]))
      && late[n] == AdmitCall(g) && |Exec(restCap, late[..n]).hist.produced| + 1 == |st.hist.produced|
      && st.hist.produced[|st.hist.produced| - 1] == e && g in st.lanes && st.lanes[g].chan.live && st.lanes[g].sub == s
      && InFlight(st.task.pc) == [e] && (st.task.pc.AtLane? ==> st.task.pc.gen != g)
  {
    hide Exec, Biased, Polled, Wired, Step, Returns, Stopping, InFlight, LateRegistration;
    var g := Exec(restCap, run).nextGen;
    LateRun(restCap, run, s, cap, g, e);
    assert Wired(Exec(restCap, run)) by { EveryRun(restCap, run); }
    LateSteps(Exec(restCap, run), s, cap, e);
  }

  /** The four steps of the witness, from a state in which the select waits. */
  lemma LateSteps(st: State, s: Sub, cap: nat, e: Event)
    requires Wired(st) && cap > 0 && e.sub == s
    requires st.task.pc.Idle? && st.task.owed.None? && st.control == [] && !st.controlClosed && st.stream == [] && !st.ended
    ensures
      var g := st.nextGen;
      var st1 := Step(st, CallLane(s, cap));
      var st3 := Step(Step(st1, AdmitCall(g)), Produce(e));
      var st4 := Step(st3, Pull);
      && Returns(st1, AdmitCall(g)) && !Stopping(st1) && st1.hist == st.hist
      && st4.hist.produced == st.hist.produced + [e] && g in st4.lanes && st4.lanes[g].chan.live && st4.lanes[g].sub == s
      && InFlight(st4.task.pc) == [e] && (st4.task.pc.AtLane? ==> st4.task.pc.gen != g)
  {
    hide Live, OnTakeControl, OnSendLane, OnSendRest, OnBarrierNext;
  }
}
