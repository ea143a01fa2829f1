/** That a release releases: what one notice of a dropped lane does to the table, and what all of them together
    keep it free of.
 */
module DemuxReleases {
  import opened Events
  import opened Demux
  import opened DemuxSafety

  /** The task is about to take this message. */
  predicate TakesNext(st: State, m: Control) {
    st.task.pc.Idle? && st.task.owed.None? && st.task.controlOpen && st.control != [] && st.control[0] == m
  }

  /** Main result: on every run, once the task has taken a release no entry names the released generation, every
      other entry is what it was, and the gauge is the size of what is left. */
  lemma ReleaseReleases(restCap: nat, run: seq<Action>, sub: Sub, gen: Gen)
    requires TakesNext(Exec(restCap, run), Release(sub, gen))
    ensures
      var before, st' := Exec(restCap, run).task.table, Step(Exec(restCap, run), TakeControl);
      var after := st'.task.table;
      && (forall s :: s in after <==> s in before && before[s] != gen)
      && (forall s :: s in after ==> after[s] == before[s])
      && st'.task.tracked == |after| && st'.control == Exec(restCap, run).control[1..]
  {
    EveryRun(restCap, run);
    var st := Exec(restCap, run);
    hide Exec, FlowsIn, Sent, OneLaneAtATime, BoundedIn, RestRule;
    TakenControl(st.control, st.task.table, st.lanes, st.calling);
  }

  // ---------------------------------------------------------------- when every notice arrives

  /** This drop of a lane fails to notify the task: the notice is lost, or cannot be queued. */
  predicate LosesNotice(st: State, a: Action) {
    a.DropLane? && a.gen in st.lanes && a.gen !in st.calling && st.lanes[a.gen].chan.live &&
    (a.lost || |st.control| >= CONTROL_CAPACITY || st.controlClosed || st.task.pc.Done?)
  }

  predicate EveryNoticeArrives(restCap: nat, run: seq<Action>) {
    forall n :: 0 <= n < |run| ==> !LosesNotice(Exec(restCap, run[..n]), run[n])
  }

  predicate Noticed(control: seq<Control>, s: Sub, g: Gen) {
    exists i :: 0 <= i < |control| && control[i] == Release(s, g)
  }

  /** Every entry without a receiver has its notice waiting. */
  ghost predicate DeadAreNoticed(st: State) {
    forall s :: s in st.task.table ==>
      var g := st.task.table[s];
      g in st.lanes && (!st.lanes[g].chan.live ==> Noticed(st.control, s, g))
  }

  lemma NoticedLater(control: seq<Control>, more: seq<Control>, s: Sub, g: Gen)
    requires Noticed(control, s, g)
    ensures Noticed(control + more, s, g)
  {
    var i :| 0 <= i < |control| && control[i] == Release(s, g);
    assert (control + more)[i] == Release(s, g);
  }

  /** The world around the task leaves a live lane live, unless it drops it and says so. */
  lemma AroundNotices(st: State, a: Action, g: Gen)
    requires Wired(st) && IsAround(a) && !LosesNotice(st, a) && g in st.lanes && g !in st.calling
    ensures
      var st' := Step(st, a);
      && g in st'.lanes && st'.control[..|st.control|] == st.control <= st'.control
      && (st.lanes[g].chan.live && !st'.lanes[g].chan.live ==> st'.control == st.control + [Release(st.lanes[g].sub, g)])
  {
    hide Live, LanesWired, ControlWired, TableWired, AimHolds;
    assert st.control <= Step(st, a).control;
    FreshGenUnused(st);
  }

  lemma FreshGenUnused(st: State)
    requires Wired(st)
    ensures st.nextGen !in st.lanes
  {
  }

  lemma AroundDead(st: State, a: Action)
    requires Wired(st) && DeadAreNoticed(st) && IsAround(a) && !LosesNotice(st, a)
    ensures DeadAreNoticed(Step(st, a))
  {
    var st' := Step(st, a);
    AroundLeavesTask(st, a);
    hide Step, Noticed, LanesWired, ControlWired, AimHolds, LosesNotice;
    forall s | s in st'.task.table
      ensures
        var g := st'.task.table[s];
        g in st'.lanes && (!st'.lanes[g].chan.live ==> Noticed(st'.control, s, g))
    {
      var g := st.task.table[s];
      AroundNotices(st, a, g);
      var more := st'.control[|st.control|..];
      assert st'.control == st.control + more;
      if !st.lanes[g].chan.live {
        NoticedLater(st.control, more, s, g);
      } else if !st'.lanes[g].chan.live {
        JustNoticed(st.control, s, g);
      }
    }
  }

  lemma JustNoticed(control: seq<Control>, s: Sub, g: Gen)
    ensures Noticed(control + [Release(s, g)], s, g)
  {
    assert (control + [Release(s, g)])[|control|] == Release(s, g);
  }

  /** Taking one message leaves every notice but its own. */
  lemma NoticedStill(control: seq<Control>, s: Sub, g: Gen)
    requires Noticed(control, s, g) && control[0] != Release(s, g)
    ensures Noticed(control[1..], s, g)
  {
    var i :| 0 <= i < |control| && control[i] == Release(s, g);
    assert control[1..][i - 1] == Release(s, g);
  }

  lemma ControlDead(st: State)
    requires Wired(st) && DeadAreNoticed(st)
    ensures DeadAreNoticed(Step(st, TakeControl))
  {
    hide Step, Noticed, LanesWired, AimHolds, ControlWired, TableWired, Registered;
    StepIs(st, TakeControl);
    if st.task.pc.Idle? && st.task.owed.None? && st.task.controlOpen && st.control != [] {
      var st', m := Step(st, TakeControl), st.control[0];
      TakenControl(st.control, st.task.table, st.lanes, st.calling);
      if m.Register? {
        RegisteredEntries(st, m.sub, m.gen);
      }
      forall s | s in st'.task.table
        ensures
          var g := st'.task.table[s];
          g in st'.lanes && (!st'.lanes[g].chan.live ==> Noticed(st'.control, s, g))
      {
        if !m.Register? && !st.lanes[st.task.table[s]].chan.live {
          NoticedStill(st.control, s, st.task.table[s]);
        }
      }
    }
  }

  lemma SendDead(st: State)
    requires DeadAreNoticed(st)
    ensures DeadAreNoticed(Step(st, SendLane))
  {
    hide Step, Noticed;
    SendLaneCases(st);
  }

  /** What is neither a control message nor a lane send leaves lanes and queue alone, and the table as it was or empty. */
  lemma OtherDead(st: State, a: Action)
    requires DeadAreNoticed(st) && !IsAround(a) && !a.TakeControl? && !a.SendLane?
    ensures DeadAreNoticed(Step(st, a))
  {
    hide Step, Noticed;
    if a.SendRest? {
      SendRestCases(st);
    } else {
      OtherTaskSteps(st, a);
      TaskGauge(st, a);
      QueueKept(st, a);
    }
  }

  lemma QueueKept(st: State, a: Action)
    requires !IsAround(a) && !a.TakeControl? && !a.SendLane? && !a.SendRest?
    ensures Step(st, a).control == st.control || Step(st, a).task.table == map[]
  {
    hide Around, OnTakeControl, OnSendLane, OnSendRest, Aim;
  }

  lemma {:induction false} RunDead(restCap: nat, run: seq<Action>)
    requires EveryNoticeArrives(restCap, run)
    ensures DeadAreNoticed(Exec(restCap, run))
  {
    if run != [] {
      hide DeadAreNoticed, Step, LosesNotice, FlowsIn, Wired, Sent, OneLaneAtATime, BoundedIn, RestRule;
      var run0, a := run[..|run| - 1], run[|run| - 1];
      var st := Exec(restCap, run0);
      assert forall n :: 0 <= n < |run0| ==> run0[n] == run[n] && run0[..n] == run[..n];
      RunDead(restCap, run0);
      EveryRun(restCap, run0);
      if IsAround(a) {
        AroundDead(st, a);
      } else if a.TakeControl? {
        ControlDead(st);
      } else if a.SendLane? {
        SendDead(st);
      } else {
        OtherDead(st, a);
      }
    }
  }

  /** Main result: on every run on which no notice has been lost so far, whenever the control queue is empty every
      entry of the table names a lane whose receiver is still there; so the gauge counts live lanes only. */
  lemma TableHoldsOnlyLiveLanes(restCap: nat, run: seq<Action>)
    requires EveryNoticeArrives(restCap, run) && Exec(restCap, run).control == []
    ensures
      var st := Exec(restCap, run);
      && (forall s :: s in st.task.table ==>
            st.task.table[s] in st.lanes && st.lanes[st.task.table[s]].sub == s && st.lanes[st.task.table[s]].chan.live)
      && st.task.tracked == |st.task.table| <= |Live(st.lanes)|
  {
    RunDead(restCap, run);
    EveryRun(restCap, run);
    var st := Exec(restCap, run);
    hide Exec, EveryNoticeArrives, FlowsIn, Sent, OneLaneAtATime, RestRule, Live;
    forall s | s in st.task.table ensures st.lanes[st.task.table[s]].chan.live {
      assert !Noticed(st.control, s, st.task.table[s]);
    }
    LiveTableFits(st.task.table, st.lanes, st.calling);
  }
}
