/** The routing loop in the form it runs: one task whose own variables are updated in place, written as
    the select, the delivery and the barrier of the source, with no program counter. At each await, between
    the select's two polls, and before each poll of the barrier, other parties may do anything: the loop
    takes the next batch of their actions from a script. Whatever the script, what the loop does is a run of the transition
    system, so everything proved of those runs holds of the loop.
 */
module DemuxLoop {
  import opened Events
  import opened Demux
  import opened DemuxSafety
  import opened DemuxReleases

  /** What the parties around the task do. */
  predicate IsEnv(a: Action) {
    IsAround(a) || a.Produce? || a.EndStream?
  }

  /** The part of a run that the task did not do itself. */
  function EnvOf(run: seq<Action>): seq<Action> {
    if run == [] then []
    else EnvOf(run[..|run| - 1]) + if IsEnv(run[|run| - 1]) then [run[|run| - 1]] else []
  }

  function Flat(script: seq<seq<Action>>): seq<Action> {
    if script == [] then [] else script[0] + Flat(script[1..])
  }

  predicate Scripted(script: seq<seq<Action>>) {
    forall i, j :: 0 <= i < |script| && 0 <= j < |script[i]| ==> IsEnv(script[i][j])
  }

  predicate EnvOnly(run: seq<Action>) {
    forall n :: 0 <= n < |run| ==> IsEnv(run[n])
  }

  predicate ControlIdle(st: State) {
    st.task.controlOpen ==> st.control == []
  }

  /** Since the task last did anything there was a moment at which no control message was waiting. */
  ghost predicate Polled(restCap: nat, run: seq<Action>) {
    exists p :: 0 <= p <= |run| && PolledAt(restCap, run, p)
  }

  ghost predicate PolledAt(restCap: nat, run: seq<Action>, p: nat)
    requires p <= |run|
  {
    EnvOnly(run[p..]) && ControlIdle(Exec(restCap, run[..p]))
  }

  /** The select is biased: it polls control, then the stream, and the others may act in between. So an event
      is pulled only if control was found empty at some moment since the task's last own step. */
  ghost predicate Biased(restCap: nat, run: seq<Action>) {
    forall n :: 0 <= n < |run| && run[n].Pull? ==> Polled(restCap, run[..n])
  }

  // ---------------------------------------------------------------- runs, one action longer

  lemma ExecNext(restCap: nat, run: seq<Action>, a: Action)
    ensures Exec(restCap, run + [a]) == Step(Exec(restCap, run), a)
    ensures EnvOf(run + [a]) == EnvOf(run) + if IsEnv(a) then [a] else []
    ensures Biased(restCap, run) && (a.Pull? ==> Polled(restCap, run)) ==> Biased(restCap, run + [a])
  {
    var run' := run + [a];
    assert run'[..|run|] == run;
    assert forall n :: 0 <= n < |run| ==> run'[n] == run[n] && run'[..n] == run[..n];
    hide Step, Polled;
  }

  /** Control is empty now. */
  lemma PolledNow(restCap: nat, run: seq<Action>)
    requires ControlIdle(Exec(restCap, run))
    ensures Polled(restCap, run)
  {
    assert run[..|run|] == run && run[|run|..] == [];
    assert PolledAt(restCap, run, |run|);
  }

  lemma EnvJoined(run: seq<Action>, batch: seq<Action>, p: nat)
    requires p <= |run| && EnvOnly(run[p..]) && EnvOnly(batch)
    ensures EnvOnly((run + batch)[p..])
  {
    hide IsEnv;
    assert (run + batch)[p..] == run[p..] + batch;
  }

  /** Control was empty, and the others have acted since. */
  lemma PolledBefore(restCap: nat, run: seq<Action>, batch: seq<Action>)
    requires Polled(restCap, run) && EnvOnly(batch)
    ensures Polled(restCap, run + batch)
  {
    hide Exec, ControlIdle;
    var p :| 0 <= p <= |run| && PolledAt(restCap, run, p);
    var run' := run + batch;
    assert run'[..p] == run[..p];
    assert EnvOnly(run'[p..]) by { EnvJoined(run, batch, p); }
    hide EnvOnly;
    assert PolledAt(restCap, run', p);
  }

  /** What the others do depends on the task only through whether it is still there. */
  lemma EnvIgnoresTask(st: State, a: Action, task: Task)
    requires IsEnv(a) && !st.task.pc.Done? && !task.pc.Done?
    ensures Step(st.(task := task), a) == Step(st, a).(task := task)
    ensures Step(st, a).task == st.task
  {
    hide Live, Deafen, OnCallLane, OnAdmitCall, OnCancelCall, OnDropLane, OnReceive, OnTakeControl, OnSendLane,
         OnSendRest, OnBarrierNext;
    if a.CallLane? || a.CancelCall? || a.Receive? {
      LanesIgnoreTask(st, a, task);
      hide Around;
    } else if a.AdmitCall? || a.DropLane? {
      PostsIgnoreTask(st, a, task);
      hide Around;
    }
  }

  lemma LanesIgnoreTask(st: State, a: Action, task: Task)
    requires a.CallLane? || a.CancelCall? || a.Receive?
    ensures Around(st.(task := task), a) == Around(st, a).(task := task) && Around(st, a).task == st.task
  {
    hide Live, Deafen;
  }

  lemma PostsIgnoreTask(st: State, a: Action, task: Task)
    requires (a.AdmitCall? || a.DropLane?) && !st.task.pc.Done? && !task.pc.Done?
    ensures Around(st.(task := task), a) == Around(st, a).(task := task) && Around(st, a).task == st.task
  {
    hide Deafen;
  }

  lemma FlatNext(script: seq<seq<Action>>, done: seq<Action>, plan: seq<Action>)
    requires script != [] && done + Flat(script) == plan
    ensures (done + script[0]) + Flat(script[1..]) == plan
  {
  }

  /** A registration or release changes the table, the gauge and the queue, and nothing else. */
  lemma ControlStep(st: State)
    requires st.task.pc.Idle? && st.task.owed.None? && st.task.controlOpen && st.control != [] && !st.control[0].Shutdown?
    ensures
      var m := st.control[0];
      var table := if m.Register? then Registered(st, m.sub, m.gen) else Released(st.task.table, m.sub, m.gen);
      Step(st, TakeControl) == st.(control := st.control[1..], task := st.task.(table := table, tracked := |table|))
  {
    hide Registered, Released, Step;
    StepIs(st, TakeControl);
  }

  /** `trace` is a biased run that leads to `st`, in which the others did what is planned except for what is
      still in `script`. */
  ghost predicate Tracks(restCap: nat, trace: seq<Action>, st: State, script: seq<seq<Action>>, plan: seq<Action>) {
    && Exec(restCap, trace) == st && Biased(restCap, trace)
    && EnvOf(trace) + Flat(script) == plan && Scripted(script)
  }

  /** One more step of the task. */
  lemma TracksNext(restCap: nat, trace: seq<Action>, st: State, script: seq<seq<Action>>, plan: seq<Action>, a: Action)
    requires Tracks(restCap, trace, st, script, plan) && !IsEnv(a) && (a.Pull? ==> Polled(restCap, trace))
    ensures Tracks(restCap, trace + [a], Step(st, a), script, plan)
  {
    hide Exec, Step, Biased, EnvOf, Flat, Scripted, Polled;
    ExecNext(restCap, trace, a);
  }

  /** The subscription's claim is this lane if it is still there, and there is none if it is not. */
  predicate Claimed(table: map<Sub, Gen>, lanes: map<Gen, Lane>, sub: Sub, gen: Gen) {
    && (sub in table <==> gen in lanes && lanes[gen].chan.live)
    && (sub in table ==> table[sub] == gen)
  }

  /** A claim of `s` stays exactly if its lane is still there. */
  predicate KeptIfLive(table: map<Sub, Gen>, table': map<Sub, Gen>, lanes: map<Gen, Lane>, s: Sub) {
    && (s in table' <==> s in table && table[s] in lanes && lanes[table[s]].chan.live)
    && (s in table' ==> table'[s] == table[s])
  }

  datatype Sending = Took | Closed | Parked

  class Router {
    // the task's own variables
    var table: map<Sub, Gen>
    var tracked: nat
    var restOpen: bool
    var controlOpen: bool
    // what is around it: the stream, the queues, the channels; the task part of it is not used
    var world: State
    // what the others are still going to do
    var script: seq<seq<Action>>
    ghost const restCap: nat
    ghost const plan: seq<Action>
    ghost var trace: seq<Action>

    ghost function Snapshot(pc: Pc, owed: Option<nat>): State
      reads this
    {
      world.(task := Task(table, tracked, restOpen, controlOpen, pc, owed))
    }

    /** The loop stands where the run so far leaves the transition system, at `pc`, owing `owed`. */
    ghost predicate At(pc: Pc, owed: Option<nat>)
      reads this
    {
      Tracks(restCap, trace, Snapshot(pc, owed), script, plan) && !world.task.pc.Done?
    }

    /** The script ran out while the loop was waiting somewhere. */
    ghost predicate Suspended()
      reads this
    {
      script == [] && exists pc: Pc, owed :: !pc.Done? && At(pc, owed)
    }

    /** The loop is over. */
    ghost predicate Left()
      reads this
    {
      Tracks(restCap, trace, Snapshot(Done, None), script, plan)
    }

    constructor (restCap: nat, script: seq<seq<Action>>)
      requires Scripted(script)
      ensures At(Idle, None) && this.restCap == restCap && plan == Flat(script)
    {
      table, tracked, restOpen, controlOpen := map[], 0, true, true;
      world := Init(restCap);
      this.script, this.restCap, plan, trace := script, restCap, Flat(script), [];
    }

    /** The others take their next batch of actions while the loop stays where it is. */
    method Interleave(ghost pc: Pc, ghost owed: Option<nat>)
      requires At(pc, owed) && script != [] && !pc.Done?
      modifies this`world, this`script, this`trace
      ensures At(pc, owed) && script == old(script)[1..]
      ensures trace == old(trace) + old(script)[0] && EnvOnly(old(script)[0])
    {
      hide Exec, Step, Biased, Flat, EnvOf;
      var batch := script[0];
      ghost var rest := script[1..];
      FlatNext(script, EnvOf(trace), plan);
      assert Scripted(rest);
      var i := 0;
      while i < |batch|
        invariant i <= |batch| && script == old(script) && !world.task.pc.Done?
        invariant Exec(restCap, trace) == Snapshot(pc, owed) && Biased(restCap, trace)
        invariant EnvOf(trace) == old(EnvOf(trace)) + batch[..i] && trace == old(trace) + batch[..i]
      {
        ExecNext(restCap, trace, batch[i]);
        EnvIgnoresTask(world, batch[i], Snapshot(pc, owed).task);
        assert old(EnvOf(trace)) + batch[..i + 1] == (old(EnvOf(trace)) + batch[..i]) + [batch[i]];
        world := Step(world, batch[i]);
        trace := trace + [batch[i]];
        i := i + 1;
      }
      assert batch[..i] == batch;
      script := script[1..];
    }

    // -------------------------------------------------------------- control

    /** Purges every entry whose receiver is gone, one entry at a time. */
    method Retain()
      modifies this`table
      ensures table == Sweep(old(table), world.lanes)
    {
      var unseen := table.Keys;
      while unseen != {}
        invariant unseen <= old(table).Keys
        invariant table == map s | s in old(table) && (s in unseen || s in Sweep(old(table), world.lanes)) :: old(table)[s]
      {
        var s :| s in unseen;
        if !(table[s] in world.lanes && world.lanes[table[s]].chan.live) {
          table := table - {s};
        }
        unseen := unseen - {s};
      }
    }

    /** A registration sweeps, displaces its predecessor, and installs the newcomer if it is still there. */
    method Install(sub: Sub, gen: Gen, ghost st: State)
      requires st.task.table == table && st.lanes == world.lanes
      modifies this`table
      ensures table == Registered(st, sub, gen)
    {
      Retain();
      table := table - {sub};
      if gen in world.lanes && world.lanes[gen].chan.live {
        table := table[sub := gen];
      }
    }

    /** What the transition system does with the message at the head of the queue. */
    lemma OutcomeOfControl()
      requires At(Idle, None) && controlOpen && world.control != []
      ensures
        var table', m := Step(Snapshot(Idle, None), TakeControl).task.table, world.control[0];
        && (m.Release? ==>
              && (forall s :: s in table' <==> s in table && table[s] != m.gen)
              && (forall s :: s in table' ==> table'[s] == table[s]))
        && (m.Register? ==>
              && Claimed(table', world.lanes, m.sub, m.gen)
              && (forall s :: s != m.sub ==> KeptIfLive(table, table', world.lanes, s)))
    {
      hide Exec, Step, Biased, EnvOf, Flat, Scripted;
      var m := world.control[0];
      if m.Release? {
        ReleaseReleases(restCap, trace, m.sub, m.gen);
      } else if m.Register? {
        RegistrationDisplaces(restCap, trace, m.sub, m.gen);
      }
    }

    /** One registration or release. A release removes only its own generation; the gauge follows. */
    method HandleControl()
      requires At(Idle, None) && controlOpen && world.control != [] && !world.control[0].Shutdown?
      modifies this`table, this`tracked, this`world, this`trace
      ensures At(Idle, None) && tracked == |table| && world.lanes == old(world.lanes)
      ensures old(world.control[0]).Release? ==>
                && (forall s :: s in table <==> s in old(table) && old(table)[s] != old(world.control[0]).gen)
                && (forall s :: s in table ==> table[s] == old(table)[s])
      ensures old(world.control[0]).Register? ==>
                && Claimed(table, world.lanes, old(world.control[0]).sub, old(world.control[0]).gen)
                && (forall s :: s != old(world.control[0]).sub ==> KeptIfLive(old(table), table, world.lanes, s))
    {
      hide Tracks, Step, Registered;
      ghost var st := Snapshot(Idle, None);
      OutcomeOfControl();
      TracksNext(restCap, trace, st, script, plan, TakeControl);
      ControlStep(st);
      match world.control[0] {
        case Register(sub, gen) =>
          Install(sub, gen, st);
        case Release(sub, gen) =>
          if sub in table && table[sub] == gen {
            table := table - {sub};
          }
      }
      tracked := |table|;
      world := world.(control := world.control[1..]);
      trace := trace + [TakeControl];
    }

    /** A stop is taken: the count of what is queued at this instant is what is still owed. */
    method TakeStop() returns (owed: nat)
      requires At(Idle, None) && controlOpen && world.control != [] && world.control[0].Shutdown?
      modifies this`world, this`trace
      ensures At(Idle, Some(owed))
    {
      hide Tracks, Step;
      TracksNext(restCap, trace, Snapshot(Idle, None), script, plan, TakeControl);
      StepIs(Snapshot(Idle, None), TakeControl);
      owed := |world.stream|;
      world := world.(control := world.control[1..], hist := world.hist.(cut := Some(|world.hist.produced|)));
      trace := trace + [TakeControl];
    }

    /** The handle and every lane are gone: stop selecting on control. */
    method StopSelecting()
      requires At(Idle, None) && controlOpen && world.control == [] && world.controlClosed
      modifies this`controlOpen, this`trace
      ensures At(Idle, None)
    {
      hide Tracks, Around;
      TracksNext(restCap, trace, Snapshot(Idle, None), script, plan, SeeControlClosed);
      controlOpen := false;
      trace := trace + [SeeControlClosed];
    }

    // -------------------------------------------------------------- one delivery

    /** The next event of the stream, taken by the select. */
    method Pull() returns (e: Event)
      requires At(Idle, None) && world.stream != [] && Polled(restCap, trace)
      modifies this`world, this`trace
      ensures At(Aim(table, e), None)
    {
      hide Tracks, Around, Polled;
      TracksNext(restCap, trace, Snapshot(Idle, None), script, plan, Action.Pull);
      e := world.stream[0];
      world := world.(stream := world.stream[1..], hist := world.hist.(pulled := world.hist.pulled + [e]));
      trace := trace + [Action.Pull];
    }

    /** The next event of the stream, taken by the barrier. */
    method PullOwed(owed: nat) returns (e: Event)
      requires At(Idle, Some(owed)) && owed > 0 && world.stream != []
      modifies this`world, this`trace
      ensures At(Aim(table, e), Some(owed - 1))
    {
      hide Tracks, Step;
      TracksNext(restCap, trace, Snapshot(Idle, Some(owed)), script, plan, BarrierNext);
      StepIs(Snapshot(Idle, Some(owed)), BarrierNext);
      e := world.stream[0];
      world := world.(stream := world.stream[1..], hist := world.hist.(pulled := world.hist.pulled + [e]));
      trace := trace + [BarrierNext];
    }

    /** A claim always names a lane that exists. */
    lemma LaneExists(e: Event, g: Gen, owed: Option<nat>)
      requires At(AtLane(e, g), owed)
      ensures g in world.lanes
    {
      EveryRun(restCap, trace);
      hide Exec, Biased, EnvOf, Flat, Scripted, FlowsIn, Sent, OneLaneAtATime, BoundedIn, RestRule, ControlWired, LanesWired;
    }

    /** The awaited lane send: parked while the lane is full, failed once its receiver is gone. */
    method SendLane(e: Event, g: Gen, ghost owed: Option<nat>) returns (r: Sending)
      requires At(AtLane(e, g), owed)
      modifies this`world, this`script, this`trace
      ensures r.Took? ==> At(Idle, owed)
      ensures r.Closed? ==> At(AtLane(e, g), owed) && g in world.lanes && !world.lanes[g].chan.live
      ensures r.Parked? ==> At(AtLane(e, g), owed) && script == []
      ensures |script| <= |old(script)|
    {
      hide Tracks, Step;
      while true
        invariant At(AtLane(e, g), owed) && |script| <= |old(script)|
        decreases |script|
      {
        if script == [] {
          return Parked;
        }
        Interleave(AtLane(e, g), owed);
        LaneExists(e, g, owed);
        var chan := world.lanes[g].chan;
        if !chan.live {
          return Closed;
        }
        if chan.HasRoom() {
          TracksNext(restCap, trace, Snapshot(AtLane(e, g), owed), script, plan, Action.SendLane);
          StepIs(Snapshot(AtLane(e, g), owed), Action.SendLane);
          world := world.(lanes := world.lanes[g := world.lanes[g].(chan := chan.Push(e))],
                          hist := world.hist.(routed := world.hist.routed + [InLane(e, g)]));
          trace := trace + [Action.SendLane];
          return Took;
        }
      }
    }

    /** The send failed and handed the event back: the slot is reclaimed on the spot. */
    method Reclaim(e: Event, g: Gen, ghost owed: Option<nat>)
      requires At(AtLane(e, g), owed) && g in world.lanes && !world.lanes[g].chan.live
      modifies this`table, this`tracked, this`trace
      ensures At(AtRest(e), owed)
    {
      hide Tracks, Step;
      TracksNext(restCap, trace, Snapshot(AtLane(e, g), owed), script, plan, Action.SendLane);
      StepIs(Snapshot(AtLane(e, g), owed), Action.SendLane);
      table := table - {e.sub};
      tracked := |table|;
      trace := trace + [Action.SendLane];
    }

    /** There is no rest receiver: the event is discarded, and so is every unclaimed one from now on. */
    method Discard(e: Event, ghost owed: Option<nat>)
      requires At(AtRest(e), owed) && (restOpen ==> !world.rest.live)
      modifies this`restOpen, this`world, this`trace
      ensures At(Idle, owed)
    {
      hide Tracks, Step;
      TracksNext(restCap, trace, Snapshot(AtRest(e), owed), script, plan, Action.SendRest);
      StepIs(Snapshot(AtRest(e), owed), Action.SendRest);
      restOpen := false;
      world := world.(hist := world.hist.(routed := world.hist.routed + [Discarded(e)]));
      trace := trace + [Action.SendRest];
    }

    /** An unclaimed event goes to rest; once the rest receiver is gone it is discarded. */
    method SendRest(e: Event, ghost owed: Option<nat>) returns (r: Sending)
      requires At(AtRest(e), owed)
      modifies this`restOpen, this`world, this`script, this`trace
      ensures if r.Parked? then At(AtRest(e), owed) && script == [] else At(Idle, owed)
      ensures |script| <= |old(script)|
    {
      hide Tracks, Step;
      while restOpen
        invariant At(AtRest(e), owed) && |script| <= |old(script)|
        decreases |script|
      {
        if script == [] {
          return Parked;
        }
        Interleave(AtRest(e), owed);
        if !world.rest.live {
          break;
        }
        if world.rest.HasRoom() {
          TracksNext(restCap, trace, Snapshot(AtRest(e), owed), script, plan, Action.SendRest);
          StepIs(Snapshot(AtRest(e), owed), Action.SendRest);
          world := world.(rest := world.rest.Push(e), hist := world.hist.(routed := world.hist.routed + [InRest(e)]));
          trace := trace + [Action.SendRest];
          return Took;
        }
      }
      Discard(e, owed);
      return Closed;
    }

    /** One delivery: into the subscription's lane if it has one, else to rest; a failed lane send goes on
        to rest with the very same event. */
    method Deliver(e: Event, ghost owed: Option<nat>) returns (finished: bool)
      requires At(Aim(table, e), owed)
      modifies this`table, this`tracked, this`restOpen, this`world, this`script, this`trace
      ensures if finished then At(Idle, owed) else Suspended()
      ensures |script| <= |old(script)|
    {
      hide Tracks;
      if e.sub in table {
        var g := table[e.sub];
        var r := SendLane(e, g, owed);
        if r.Took? {
          return true;
        }
        if r.Parked? {
          return false;
        }
        Reclaim(e, g, owed);
      }
      var r := SendRest(e, owed);
      finished := !r.Parked?;
    }

    // -------------------------------------------------------------- the loop

    /** Leaving drops every sender and zeroes the gauge. */
    method Leave(ghost owed: Option<nat>)
      requires At(Idle, owed)
      requires if owed.Some? then owed.value == 0 || world.stream == [] else world.stream == [] && world.ended
      modifies this`table, this`tracked, this`restOpen, this`world, this`trace
      ensures Left()
    {
      hide Tracks, Around;
      ghost var a := if owed.Some? then BarrierNext else SeeEnd;
      TracksNext(restCap, trace, Snapshot(Idle, owed), script, plan, a);
      table, tracked, restOpen := map[], 0, false;
      world := world.(control := []);
      trace := trace + [a];
    }

    /** The barrier: at most `owed` more deliveries, each polled without waiting, then out. */
    method DrainOwed(owed: nat) returns (left: bool)
      requires At(Idle, Some(owed))
      modifies this
      ensures if left then Left() else Suspended()
    {
      hide Tracks, Aim;
      var k: nat := owed;
      while k > 0
        invariant k <= owed && At(Idle, Some(k))
        decreases k
      {
        if script != [] {
          Interleave(Idle, Some(k));
        }
        if world.stream == [] {
          break;
        }
        var e := PullOwed(k);
        k := k - 1;
        var finished := Deliver(e, Some(k));
        if !finished {
          return false;
        }
      }
      Leave(Some(k));
      left := true;
    }

    /** Control was polled and had nothing; the stream is polled next, after whatever the others do meanwhile. */
    method PollStream()
      requires At(Idle, None) && (controlOpen ==> world.control == [])
      modifies this`world, this`script, this`trace
      ensures At(Idle, None) && Polled(restCap, trace) && |script| <= |old(script)|
    {
      hide Exec, Biased, EnvOf, Flat, Scripted, Polled, EnvOnly;
      PolledNow(restCap, trace);
      if script != [] {
        ghost var before, batch := trace, script[0];
        Interleave(Idle, None);
        PolledBefore(restCap, before, batch);
      }
    }

    /** The routing loop. It either leaves or is still waiting when the script runs out; either way what it
        has done is a biased run of the transition system, in which the others did exactly what the script
        says they did so far. */
    method Run() returns (left: bool)
      requires At(Idle, None)
      modifies this
      ensures if left then Left() else Suspended()
    {
      hide Tracks, Aim, Polled;
      while true
        invariant At(Idle, None)
        decreases |script|
      {
        if script == [] {
          return false;
        }
        Interleave(Idle, None);
        if controlOpen && world.control != [] {
          if world.control[0].Shutdown? {
            var owed := TakeStop();
            left := DrainOwed(owed);
            return;
          }
          HandleControl();
        } else if controlOpen && world.controlClosed {
          StopSelecting();
        } else {
          // Control had nothing. The others may act before the stream is polled.
          PollStream();
          if world.stream != [] {
            var e := Pull();
            var finished := Deliver(e, None);
            if !finished {
              return false;
            }
          } else if world.ended {
            Leave(None);
            return true;
          }
        }
      }
    }
  }
}
