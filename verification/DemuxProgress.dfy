/** What the parties can count on: where messages wait, when the task waits, and that whatever was sent can be received.
 */
module DemuxProgress {
  import opened Events
  import opened Demux
  import opened DemuxSafety

  function Times(a: Action, n: nat): (run: seq<Action>)
    ensures |run| == n
  {
    seq(n, i requires 0 <= i < n => a)
  }

  lemma TimesNext(run: seq<Action>, a: Action, n: nat)
    ensures run + Times(a, n + 1) == (run + Times(a, n)) + [a]
  {
  }

  lemma ExecOneMore(restCap: nat, run: seq<Action>, a: Action)
    ensures Exec(restCap, run + [a]) == Step(Exec(restCap, run), a)
  {
    hide Step;
    assert (run + [a])[..|run|] == run;
  }

  // ---------------------------------------------------------------- the control queue

  lemma StepQueue(st: State, a: Action)
    requires |st.control| <= 16
    ensures |Step(st, a).control| <= 16
  {
    if IsAround(a) {
      AroundMessages(st, a);
      if |st.control| == 16 { FullStaysFull(st, a); }
      hide Step;
    } else if a.SendLane? {
      hide Step;
      SendLaneCases(st);
    } else if a.SendRest? {
      hide Step;
      SendRestCases(st);
    } else {
      hide Around, Registered, Released, Aim, OnSendLane, OnSendRest;
    }
  }

  lemma FullStaysFull(st: State, a: Action)
    requires IsAround(a) && |st.control| >= 16
    ensures Step(st, a).control == st.control
  {
    hide Live, Deafen;
  }

  /** The control queue never holds more than sixteen messages. */
  lemma {:induction false} ControlQueueIsBounded(restCap: nat, run: seq<Action>)
    ensures |Exec(restCap, run).control| <= 16
  {
    hide Step;
    if run != [] {
      ControlQueueIsBounded(restCap, run[..|run| - 1]);
      StepQueue(Exec(restCap, run[..|run| - 1]), run[|run| - 1]);
    }
  }

  /** A request that finds room on an open queue of a task still there waits behind everything requested before; one
      that finds no room changes nothing. */
  lemma RequestWaitsItsTurn(st: State, a: Action)
    requires a.CallShutdown? || (a.AdmitCall? && a.gen in st.calling && a.gen in st.lanes)
    requires !st.controlClosed && !st.task.pc.Done?
    ensures |st.control| < 16 ==>
              Step(st, a).control == st.control + [if a.CallShutdown? then Shutdown else Register(st.lanes[a.gen].sub, a.gen)]
    ensures |st.control| >= 16 ==> Step(st, a) == st
  {
  }

  /** The task takes the messages of its queue in order, until it takes a stop. */
  lemma {:induction false} TakesInOrder(restCap: nat, run: seq<Action>, n: nat)
    requires n <= |Exec(restCap, run).control| && forall i :: 0 <= i < n ==> !Exec(restCap, run).control[i].Shutdown?
    requires Exec(restCap, run).task.pc.Idle? && Exec(restCap, run).task.owed.None? && Exec(restCap, run).task.controlOpen
    ensures
      var st, st' := Exec(restCap, run), Exec(restCap, run + Times(TakeControl, n));
      && st'.control == st.control[n..] && st'.stream == st.stream && st'.hist == st.hist
      && st'.task.pc.Idle? && st'.task.owed.None? && st'.task.controlOpen
  {
    hide Exec, Step, Registered, Released;
    if n == 0 {
      assert run + Times(TakeControl, 0) == run;
    } else {
      TakesInOrder(restCap, run, n - 1);
      TimesNext(run, TakeControl, n - 1);
      ExecOneMore(restCap, run + Times(TakeControl, n - 1), TakeControl);
      StepIs(Exec(restCap, run + Times(TakeControl, n - 1)), TakeControl);
    }
  }

  /** Main result: from every reachable state in which the task selects and no stop is waiting, a stop that finds room
      on an open queue is reached after exactly the messages ahead of it, and then owes exactly what the stream
      holds. */
  lemma StopIsReached(restCap: nat, run: seq<Action>)
    requires
      var st := Exec(restCap, run);
      && st.task.pc.Idle? && st.task.owed.None? && st.task.controlOpen && !st.controlClosed && |st.control| < 16
      && forall i :: 0 <= i < |st.control| ==> !st.control[i].Shutdown?
    ensures
      var st := Exec(restCap, run);
      var st' := Exec(restCap, run + [CallShutdown] + Times(TakeControl, |st.control| + 1));
      && st'.control == [] && st'.stream == st.stream
      && st'.task.owed == Some(|st.stream|) && st'.hist.cut == Some(|st.hist.produced|)
  {
    hide Exec, Step, Registered, Released;
    var st := Exec(restCap, run);
    var asked := run + [CallShutdown];
    ExecOneMore(restCap, run, CallShutdown);
    RequestWaitsItsTurn(st, CallShutdown);
    AroundLeavesTask(st, CallShutdown);
    var n := |st.control|;
    TakesInOrder(restCap, asked, n);
    TimesNext(asked, TakeControl, n);
    ExecOneMore(restCap, asked + Times(TakeControl, n), TakeControl);
    StepIs(Exec(restCap, asked + Times(TakeControl, n)), TakeControl);
  }

  // ---------------------------------------------------------------- when a delivery waits

  /** The channel the event in hand is waiting for is there and full. */
  predicate WaitsForRoom(st: State) {
    || (st.task.pc.AtLane? && st.task.pc.gen in st.lanes &&
        st.lanes[st.task.pc.gen].chan.live && |st.lanes[st.task.pc.gen].chan.buffer| >= st.lanes[st.task.pc.gen].chan.cap)
    || (st.task.pc.AtRest? && st.task.restOpen && st.rest.live && |st.rest.buffer| >= st.rest.cap)
  }

  /** How the send of an event in hand to its lane goes. */
  predicate LaneSendGoes(st: State, st': State) {
    st.task.pc.AtLane? ==>
      && st.task.pc.gen in st.lanes
      && (var e, g := st.task.pc.e, st.task.pc.gen;
          var c := st.lanes[g].chan;
          if !c.live then st'.task.pc == AtRest(e) && e.sub !in st'.task.table && st'.lanes == st.lanes
          else if |c.buffer| >= c.cap then st' == st
          else st'.task.pc.Idle? && g in st'.lanes && st'.lanes[g].chan.sent == c.sent + [e] && st'.rest == st.rest)
  }

  /** How the send of an event in hand to rest goes. */
  predicate RestSendGoes(st: State, st': State) {
    st.task.pc.AtRest? ==>
      var e, c := st.task.pc.e, st.rest;
      if !st.task.restOpen || !c.live
      then st'.task.pc.Idle? && st'.rest == c && !st'.task.restOpen && st'.hist.routed == st.hist.routed + [Discarded(e)]
      else if |c.buffer| >= c.cap then st' == st
      else st'.task.pc.Idle? && st'.rest.sent == c.sent + [e] && st'.lanes == st.lanes
  }

  lemma LaneStep(st: State)
    requires st.task.pc.AtLane? ==> st.task.pc.gen in st.lanes
    ensures LaneSendGoes(st, Step(st, SendLane)) && (!st.task.pc.AtLane? ==> Step(st, SendLane) == st)
  {
    hide Step;
    StepIs(st, SendLane);
  }

  lemma RestStep(st: State)
    ensures RestSendGoes(st, Step(st, SendRest)) && (!st.task.pc.AtRest? ==> Step(st, SendRest) == st)
  {
    hide Step;
    StepIs(st, SendRest);
  }

  lemma LaneInHandExists(restCap: nat, run: seq<Action>)
    ensures Exec(restCap, run).task.pc.AtLane? ==> Exec(restCap, run).task.pc.gen in Exec(restCap, run).lanes
  {
    EveryRun(restCap, run);
    hide Exec, FlowsIn, Sent, OneLaneAtATime, BoundedIn, RestRule, ControlWired, LanesWired;
  }

  /** Main result: on every run, an event in hand waits exactly while the channel it is for is there and full. With room
      in its lane it is sent there at once; with the lane's receiver gone the lane's claim goes and the same event goes
      on to rest; and at rest it is sent if there is room, or discarded if there is no receiver. */
  lemma DeliveryWaitsOnlyForRoom(restCap: nat, run: seq<Action>)
    ensures
      var st := Exec(restCap, run);
      var lane, rest := Step(st, SendLane), Step(st, SendRest);
      && (WaitsForRoom(st) ==> lane == st && rest == st)
      && LaneSendGoes(st, lane) && RestSendGoes(st, rest)
  {
    hide Exec, Step;
    var st := Exec(restCap, run);
    LaneInHandExists(restCap, run);
    LaneStep(st);
    RestStep(st);
  }

  // ---------------------------------------------------------------- receiving

  lemma LaneReceives(st: State, g: Gen)
    requires g in st.lanes && st.lanes[g].chan.live && st.lanes[g].chan.buffer != []
    ensures
      var st', c := Step(st, Receive(g)), st.lanes[g].chan;
      && g in st'.lanes && st'.lanes[g].chan.live && st'.lanes[g].chan.sent == c.sent
      && st'.lanes[g].chan.buffer == c.buffer[1..] && st'.lanes[g].chan.taken == c.taken + [c.buffer[0]]
  {
  }

  /** Main result: a lane's receiver that goes on receiving takes, in order, everything the lane was ever sent, whether
      or not the task is still there. */
  lemma {:induction false} LaneCatchesUp(restCap: nat, run: seq<Action>, g: Gen)
    requires g in Exec(restCap, run).lanes && Exec(restCap, run).lanes[g].chan.live
    ensures
      var c := Exec(restCap, run).lanes[g].chan;
      var st' := Exec(restCap, run + Times(Receive(g), |c.buffer|));
      g in st'.lanes && st'.lanes[g].chan.buffer == [] && st'.lanes[g].chan.taken == c.sent
    decreases |Exec(restCap, run).lanes[g].chan.buffer|
  {
    hide Exec, Step;
    var c := Exec(restCap, run).lanes[g].chan;
    if c.buffer == [] {
      assert run + Times(Receive(g), 0) == run;
      SentIsTaken(restCap, run, g);
    } else {
      ExecOneMore(restCap, run, Receive(g));
      LaneReceives(Exec(restCap, run), g);
      LaneCatchesUp(restCap, run + [Receive(g)], g);
      assert run + [Receive(g)] + Times(Receive(g), |c.buffer| - 1) == run + Times(Receive(g), |c.buffer|);
    }
  }

  lemma SentIsTaken(restCap: nat, run: seq<Action>, g: Gen)
    ensures g in Exec(restCap, run).lanes ==>
              var c := Exec(restCap, run).lanes[g].chan;
              c.sent == c.taken + c.buffer
    ensures Exec(restCap, run).rest.sent == Exec(restCap, run).rest.taken + Exec(restCap, run).rest.buffer
  {
    Conservation(restCap, run, 0);
    hide Exec;
  }

  /** The same of rest. */
  lemma {:induction false} RestCatchesUp(restCap: nat, run: seq<Action>)
    requires Exec(restCap, run).rest.live
    ensures
      var c := Exec(restCap, run).rest;
      var c' := Exec(restCap, run + Times(ReceiveRest, |c.buffer|)).rest;
      c'.buffer == [] && c'.taken == c.sent
    decreases |Exec(restCap, run).rest.buffer|
  {
    hide Exec, Step;
    var c := Exec(restCap, run).rest;
    if c.buffer == [] {
      assert run + Times(ReceiveRest, 0) == run;
      SentIsTaken(restCap, run, 0);
    } else {
      ExecOneMore(restCap, run, ReceiveRest);
      RestReceives(Exec(restCap, run));
      RestCatchesUp(restCap, run + [ReceiveRest]);
      assert run + [ReceiveRest] + Times(ReceiveRest, |c.buffer| - 1) == run + Times(ReceiveRest, |c.buffer|);
    }
  }

  lemma RestReceives(st: State)
    requires st.rest.live && st.rest.buffer != []
    ensures
      var c, c' := st.rest, Step(st, ReceiveRest).rest;
      c'.live && c'.sent == c.sent && c'.buffer == c.buffer[1..] && c'.taken == c.taken + [c.buffer[0]]
  {
  }

  // ---------------------------------------------------------------- endings

  /** A lane whose receiver is gone stays that way and is sent nothing more. */
  lemma StepSilent(st: State, a: Action, g: Gen)
    requires Wired(st) && g in st.lanes && !st.lanes[g].chan.live
    ensures
      var st' := Step(st, a);
      g in st'.lanes && !st'.lanes[g].chan.live && st'.lanes[g].chan.sent == st.lanes[g].chan.sent
  {
    hide ControlWired, TableWired, AimHolds;
    if IsAround(a) {
      FreshUnused(st);
      hide Live, LanesWired;
    } else if a.SendLane? {
      hide Step;
      SendLaneCases(st);
    } else if a.SendRest? {
      hide Step;
      SendRestCases(st);
    } else {
      hide Step;
      OtherTaskSteps(st, a);
    }
  }

  lemma FreshUnused(st: State)
    requires Wired(st)
    ensures st.nextGen !in st.lanes
  {
  }

  lemma {:induction false} StaysSilent(restCap: nat, run: seq<Action>, more: seq<Action>, g: Gen)
    requires g in Exec(restCap, run).lanes && !Exec(restCap, run).lanes[g].chan.live
    ensures
      var st' := Exec(restCap, run + more);
      && g in st'.lanes && !st'.lanes[g].chan.live
      && st'.lanes[g].chan.sent == Exec(restCap, run).lanes[g].chan.sent
  {
    hide Exec, Step, Inv, Wired;
    if more == [] {
      assert run + more == run;
    } else {
      var init, a := more[..|more| - 1], more[|more| - 1];
      StaysSilent(restCap, run, init, g);
      assert run + more == (run + init) + [a];
      ExecOneMore(restCap, run + init, a);
      ReachableIsWired(restCap, run + init);
      StepSilent(Exec(restCap, run + init), a, g);
    }
  }

  lemma ReachableIsWired(restCap: nat, run: seq<Action>)
    ensures Wired(Exec(restCap, run))
  {
    EveryRun(restCap, run);
    hide Exec, Wired;
  }

  /** Main result: a lane that was dropped, or whose call was given up, is sent nothing from then on, whatever happens. */
  lemma DroppedLaneIsSentNothing(restCap: nat, run: seq<Action>, a: Action, more: seq<Action>)
    requires a.DropLane? || a.CancelCall?
    requires a.gen in Exec(restCap, run).lanes && (a.DropLane? <==> a.gen !in Exec(restCap, run).calling)
    ensures
      var st' := Exec(restCap, run + [a] + more);
      a.gen in st'.lanes && !st'.lanes[a.gen].chan.live && st'.lanes[a.gen].chan.sent == Exec(restCap, run).lanes[a.gen].chan.sent
  {
    hide Exec, Step;
    ExecOneMore(restCap, run, a);
    DropDeafens(Exec(restCap, run), a);
    StaysSilent(restCap, run + [a], more, a.gen);
  }

  lemma DropDeafens(st: State, a: Action)
    requires (a.DropLane? || a.CancelCall?) && a.gen in st.lanes && (a.DropLane? <==> a.gen !in st.calling)
    ensures
      var st' := Step(st, a);
      a.gen in st'.lanes && !st'.lanes[a.gen].chan.live && st'.lanes[a.gen].chan.sent == st.lanes[a.gen].chan.sent
  {
  }

  lemma StepRestSilent(st: State, a: Action)
    requires !st.rest.live
    ensures !Step(st, a).rest.live && Step(st, a).rest.sent == st.rest.sent
  {
    if IsAround(a) {
      hide Live, Deafen, OnCallLane, OnAdmitCall, OnCancelCall, OnDropLane, OnReceive;
      AroundKeepsRest(st, a);
    } else if a.SendLane? {
      hide Step;
      SendLaneCases(st);
    } else if a.SendRest? {
      hide Step;
      StepIs(st, a);
    } else {
      hide Step;
      OtherTaskSteps(st, a);
    }
  }

  lemma AroundKeepsRest(st: State, a: Action)
    requires IsAround(a)
    ensures !a.ReceiveRest? && !a.DropRest? ==> Step(st, a).rest == st.rest
  {
    hide Live, Deafen;
  }

  /** Main result: once the rest receiver is dropped, rest is sent nothing, whatever happens: unclaimed events are
      discarded from then on. */
  lemma {:induction false} DroppedRestIsSentNothing(restCap: nat, run: seq<Action>, more: seq<Action>)
    ensures
      var st' := Exec(restCap, run + [DropRest] + more);
      !st'.rest.live && st'.rest.sent == Exec(restCap, run).rest.sent && ViaRest(st'.hist.routed) == ViaRest(Exec(restCap, run).hist.routed)
  {
    hide Exec, Step, ViaRest;
    if more == [] {
      assert run + [DropRest] + more == run + [DropRest];
      ExecOneMore(restCap, run, DropRest);
      RestDeafened(Exec(restCap, run));
    } else {
      var init, a := more[..|more| - 1], more[|more| - 1];
      DroppedRestIsSentNothing(restCap, run, init);
      assert run + [DropRest] + more == (run + [DropRest] + init) + [a];
      ExecOneMore(restCap, run + [DropRest] + init, a);
      StepRestSilent(Exec(restCap, run + [DropRest] + init), a);
    }
    RestWasSent(restCap, run);
    RestWasSent(restCap, run + [DropRest] + more);
  }

  lemma RestDeafened(st: State)
    ensures !Step(st, DropRest).rest.live && Step(st, DropRest).rest.sent == st.rest.sent
  {
  }

  lemma RestWasSent(restCap: nat, run: seq<Action>)
    ensures Exec(restCap, run).rest.sent == ViaRest(Exec(restCap, run).hist.routed)
  {
    Conservation(restCap, run, 0);
    hide Exec;
  }

  lemma TwoMore(restCap: nat, run: seq<Action>, a: Action, b: Action)
    ensures Exec(restCap, run + [a, b]) == Step(Step(Exec(restCap, run), a), b)
  {
    hide Exec, Step;
    ExecOneMore(restCap, run, a);
    ExecOneMore(restCap, run + [a], b);
    assert run + [a, b] == (run + [a]) + [b];
  }

  /** A task that selects leaves once the stream has ended and is empty, and every lane keeps what it was sent. */
  lemma EndOfStreamEndsTheTask(restCap: nat, run: seq<Action>)
    requires
      var st := Exec(restCap, run);
      st.task.pc.Idle? && st.task.owed.None? && st.stream == []
    ensures
      var st, st' := Exec(restCap, run), Exec(restCap, run + [EndStream, SeeEnd]);
      st'.task.pc.Done? && st'.task.table == map[] && st'.task.tracked == 0 && st'.lanes == st.lanes && st'.rest == st.rest
  {
    TwoMore(restCap, run, EndStream, SeeEnd);
    hide Exec;
  }

  /** Dropping the handle is not a stop: once the queue is empty the task stops selecting on it and changes nothing
      else. */
  lemma ClosedHandleIsNoStop(restCap: nat, run: seq<Action>)
    requires
      var st := Exec(restCap, run);
      st.task.pc.Idle? && st.task.owed.None? && st.task.controlOpen && st.control == []
    ensures
      var st, st' := Exec(restCap, run), Exec(restCap, run + [CloseControl, SeeControlClosed]);
      st'.task == st.task.(controlOpen := false) && st'.stream == st.stream && st'.lanes == st.lanes && st'.hist == st.hist
  {
    TwoMore(restCap, run, CloseControl, SeeControlClosed);
    hide Exec;
  }
}
