/**
  Calls of ThreadPool::Run that wait for room when the workers have exited: Stop of
  qingyi/util/thread_pool_.cc does not notify not_full_, and nobody takes any more.
*/
module PoolLateRun {
  import opened Monitor
  import opened PoolMachine
  import opened PoolShutdown

  // ---------- A call that never returns ----------

  /** A call of Run that has not pushed, a full queue, and nobody left to take from it. */
  predicate Hopeless(s: State, t: Tid) {
    !s.running && AllExited(s) && IsFull(s) && t in s.jobs && s.jobs[t].Caller? && t in s.m.at && !Finishing(s.m.at[t])
  }

  lemma StepKeepsHopeless(s: State, a: Action, t: Tid)
    requires Inv(s) && Hopeless(s, t) && Enabled(s, a) && s.workers != {}
    ensures Hopeless(After(s, a), t)
  {
    assert Settled(s.m, s.jobs, s.workers, GateOf(s), t);
    NothingPushed(s, a);
    StayExited(s, a);
    if a.t == t {
      assert a.Step? && !a.move.Act? && !a.move.ActQuietly?;
      MoveTouches(s.m, t, a.move);
      hide Moved, Sound;
    } else {
      OthersStay(s, a, t);
      hide After, Enabled;
    }
  }

  /** With all workers gone and a full queue nobody gets to change it. */
  lemma NothingPushed(s: State, a: Action)
    requires Tidy(s) && Enabled(s, a) && !s.running && AllExited(s) && IsFull(s)
    ensures var later := After(s, a);
            later.queue == s.queue && later.max == s.max && later.workers == s.workers && !later.running
  {
    if a.Step? {
      assert Settled(s.m, s.jobs, s.workers, GateOf(s), a.t);
      hide Moved, Sound;
    }
  }

  lemma {:induction false} RunKeepsHopeless(s: State, run: seq<Action>, t: Tid)
    requires Inv(s) && Hopeless(s, t) && s.workers != {} && IsRun(s, run)
    ensures Hopeless(Final(s, run), t)
    decreases |run|
  {
    if run != [] {
      var before := run[..|run| - 1];
      RunKeepsInv(s, before);
      RunKeepsHopeless(s, before, t);
      SameBounds(s, before);
      StepKeepsHopeless(Final(s, before), run[|run| - 1], t);
    }
  }

  // ---------- A call that returns ----------

  lemma {:induction false} Prepended(s: State, a: Action, run: seq<Action>)
    requires Enabled(s, a) && IsRun(After(s, a), run)
    ensures IsRun(s, [a] + run) && Final(s, [a] + run) == Final(After(s, a), run)
    decreases |run|
  {
    var all := [a] + run;
    if run == [] {
      assert all == [a] && all[..0] == [] && IsRun(s, all[..0]);
    } else {
      var before := run[..|run| - 1];
      Prepended(s, a, before);
      assert all[..|all| - 1] == [a] + before && all[|all| - 1] == run[|run| - 1];
      hide After, Enabled;
    }
  }

  /** How far a thread in the block is from its end, when a wake-up comes first. */
  function Distance(place: Place): nat {
    if place.Sleeping? then 10 else PlaceRank(place)
  }

  /** The thread is in Run or Stop and can go on to the end, if the others let it. */
  predicate HasWay(s: State, t: Tid) {
    && t in s.jobs && (s.jobs[t].Caller? || s.jobs[t].Stopper?)
    && t in s.m.at && !s.m.at[t].Waiting? && (s.m.owner == 0 || s.m.owner == t)
    && (Finishing(s.m.at[t]) || !Blocked(s, s.jobs[t]))
  }

  lemma WayIsOpen(s: State, t: Tid)
    requires Tidy(s) && HasWay(s, t)
    ensures t in s.m.role && Enabled(s, Step(t, NextStep(s, t))) && !NextStep(s, t).BeginWait?
  {
    NextActionIsEnabled(s, t);
  }

  /** The next step of the call, and what it changes. */
  predicate GoesOn(s: State, later: State, t: Tid)
    requires t in s.jobs && t in s.m.at
  {
    var acts := s.m.at[t] == Inside(Ready);
    && HasWay(later, t) && Distance(later.m.at[t]) < Distance(s.m.at[t])
    && later.jobs == s.jobs && later.workers == s.workers && later.max == s.max && later.stopper == s.stopper
    && later.running == (s.running && !(s.jobs[t].Stopper? && acts))
    && later.queue == (if s.jobs[t].Caller? && acts then s.queue + [s.jobs[t].task] else s.queue)
    && (Finishing(later.m.at[t]) <==> Finishing(s.m.at[t]) || acts)
  }

  lemma WayGoesOn(s: State, t: Tid)
    requires Tidy(s) && HasWay(s, t) && t in s.m.role
    requires Enabled(s, Step(t, NextStep(s, t))) && !NextStep(s, t).BeginWait?
    requires !s.m.at[t].Unlocking?
    ensures GoesOn(s, After(s, Step(t, NextStep(s, t))), t)
  {
    var move := NextStep(s, t);
    assert Settled(s.m, s.jobs, s.workers, GateOf(s), t);
    MoveTouches(s.m, t, move);
    OwnerAfter(s.m, t, move);
    hide Moved, Sound, CanMove;
    if s.m.at[t] == Inside(Ready) {
      ActGoesOn(s, t);
    } else {
      PassageGoesOn(s, Moved(s.m, t, move), t, move);
    }
  }

  lemma PassageGoesOn(s: State, m: Mutex, t: Tid, move: Move)
    requires HasWay(s, t) && t in s.m.role && t in m.at && (m.owner == 0 || m.owner == t)
    requires Starts(s.m.at[t], move) && move == NextStep(s, t) && m.at[t] == Dest(s.m.at[t], s.m.role[t], move)
    requires !move.Act? && !move.ActQuietly? && !move.BeginWait? && !move.Unlock?
    ensures GoesOn(s, s.(m := m), t)
  {
  }

  lemma ActGoesOn(s: State, t: Tid)
    requires Tidy(s) && HasWay(s, t) && s.m.at[t] == Inside(Ready) && Enabled(s, Step(t, Act))
    requires Moved(s.m, t, Act).at.Keys == s.m.at.Keys && Moved(s.m, t, Act).at[t] == Inside(Signal)
    requires Moved(s.m, t, Act).owner == t
    ensures GoesOn(s, After(s, Step(t, Act)), t)
  {
    hide Moved, Sound, CanMove;
  }

  lemma OwnerAfter(m: Mutex, t: Tid, move: Move)
    requires Sound(m) && CanMove(m, t, move) && (m.owner == 0 || m.owner == t)
    ensures Moved(m, t, move).owner == 0 || Moved(m, t, move).owner == t
    ensures Owns(m.at[t]) && !move.Unlock? && !move.Sleep? ==> Moved(m, t, move).owner == t
  {
  }

  /** What the call of t does when it goes to its end. */
  predicate Served(s: State, later: State, t: Tid)
    requires t in s.jobs && t in s.m.at
  {
    && later.m.owner == 0 && later.workers == s.workers && later.max == s.max && later.stopper == s.stopper
    && later.running == (s.running && !s.jobs[t].Stopper?)
    && (if s.jobs[t].Caller? then later.jobs == s.jobs - {t} else later.jobs == s.jobs[t := Joining])
    && later.queue == if s.jobs[t].Caller? && !Finishing(s.m.at[t]) then s.queue + [s.jobs[t].task] else s.queue
  }

  lemma {:induction false} GoesToItsEnd(s: State, t: Tid) returns (run: seq<Action>)
    requires Inv(s) && HasWay(s, t)
    ensures IsRun(s, run) && Served(s, Final(s, run), t)
    ensures forall i :: 0 <= i < |run| ==> run[i].Step? && run[i].t == t
    decreases Distance(s.m.at[t])
  {
    WayIsOpen(s, t);
    var a := Step(t, NextStep(s, t));
    StepKeepsInv(s, a);
    if s.m.at[t].Unlocking? {
      run := [a];
      LastStep(s, t);
      assert run[..0] == [];
    } else {
      WayGoesOn(s, t);
      var rest := GoesToItsEnd(After(s, a), t);
      run := [a] + rest;
      Prepended(s, a, rest);
      hide After, Inv;
    }
  }

  lemma LastStep(s: State, t: Tid)
    requires Tidy(s) && HasWay(s, t) && s.m.at[t].Unlocking? && Enabled(s, Step(t, Unlock))
    ensures Served(s, After(s, Step(t, Unlock)), t)
  {
    assert Settled(s.m, s.jobs, s.workers, GateOf(s), t);
  }

  // ---------- Which calls return ----------

  ghost predicate CanReturn(s: State, t: Tid) {
    exists run :: IsRun(s, run) && t !in Final(s, run).jobs
  }

  /**
    When the workers of a stopped pool have all exited, some run lets a call of Run that has
    not pushed its task return exactly if the queue is not full.  A run that does not may
    leave it: another call may take the room, and a sleeper must wake without a notification.
  */
  lemma LateRunCanReturnExactly(s: State, t: Tid)
    requires Inv(s) && AllExited(s) && s.workers != {} && s.m.owner == 0
    requires t in s.jobs && s.jobs[t].Caller? && !Finishing(s.m.at[t])
    ensures CanReturn(s, t) <==> !IsFull(s)
  {
    var w :| w in s.workers;
    assert Settled(s.m, s.jobs, s.workers, GateOf(s), w);
    assert Settled(s.m, s.jobs, s.workers, GateOf(s), t);
    if IsFull(s) {
      forall run | IsRun(s, run)
        ensures t in Final(s, run).jobs
      {
        RunKeepsHopeless(s, run, t);
      }
    } else {
      var run := GoesToItsEnd(s, t);
    }
  }

  lemma {:induction false} Chained(s: State, run: seq<Action>, more: seq<Action>)
    requires IsRun(s, run) && IsRun(Final(s, run), more)
    ensures IsRun(s, run + more) && Final(s, run + more) == Final(Final(s, run), more)
    decreases |more|
  {
    if more == [] {
      assert run + more == run;
    } else {
      Chained(s, run, more[..|more| - 1]);
      assert (run + more)[..|run + more| - 1] == run + more[..|more| - 1];
    }
  }

  /** Stop has been called and has returned. */
  predicate Stopped(s: State) {
    s.stopper != 0 && AllExited(s) && forall t :: t in s.jobs ==> !s.jobs[t].Stopper? && !s.jobs[t].Joining?
  }

  lemma OneAction(s: State, a: Action)
    requires Enabled(s, a)
    ensures IsRun(s, [a]) && Final(s, [a]) == After(s, a)
  {
    assert [a][..0] == [];
  }

  /** One whole call of Run or Stop by a thread that arrives while nobody is in the block. */
  lemma WholeCall(s: State, a: Action) returns (run: seq<Action>)
    requires Inv(s) && (a.Run? || a.Stop?) && Enabled(s, a) && s.workers != {} && s.m.owner == 0
    requires a.Run? ==> !IsFull(s)
    ensures IsRun(s, run) && Inv(Final(s, run))
    ensures Served(After(s, a), Final(s, run), a.t)
  {
    StepKeepsInv(s, a);
    var rest := GoesToItsEnd(After(s, a), a.t);
    run := [a] + rest;
    Prepended(s, a, rest);
    RunKeepsInv(s, run);
  }

  /** The pool of the example, while nobody is in the block and one task is queued. */
  ghost predicate Example(s: State, jobs: map<Tid, Job>, running: bool, stopper: int) {
    && Inv(s) && s.m.owner == 0 && s.workers == {1} && s.max == 1 && s.queue == [Work(0)]
    && s.jobs == jobs && s.running == running && s.stopper == stopper
  }

  lemma ExampleQueues() returns (run: seq<Action>)
    ensures IsRun(Started({1}, 1), run) && Example(Final(Started({1}, 1), run), map[1 := Head], true, 0)
  {
    var s := Started({1}, 1);
    StartedInv({1}, 1);
    hide Inv;
    run := WholeCall(s, Run(2, Work(0)));
    assert s.jobs[2 := Caller(Work(0))] - {2} == map[1 := Head];
  }

  lemma ExampleStops(s: State) returns (run: seq<Action>)
    requires Example(s, map[1 := Head], true, 0)
    ensures IsRun(s, run) && Example(Final(s, run), map[1 := Head, 3 := Joining], false, 3)
  {
    hide Conserved, NobodyForgotten;
    run := WholeCall(s, Stop(3));
  }

  lemma ExampleEnds(s: State) returns (run: seq<Action>)
    requires Example(s, map[1 := Head, 3 := Joining], false, 3)
    ensures IsRun(s, run) && Example(Final(s, run), map[1 := Exited, 4 := Caller(Work(1))], false, 3)
    ensures Final(s, run).m.at[4] == Outside
  {
    var s1 := After(s, Loop(1));
    StepKeepsInv(s, Loop(1));
    OneAction(s, Loop(1));
    var s2 := After(s1, PoolMachine.Join(3));
    StepKeepsInv(s1, PoolMachine.Join(3));
    assert s2.jobs == map[1 := Exited];
    StepKeepsInv(s2, Run(4, Work(1)));
    hide Inv;
    OneAction(s2, Run(4, Work(1)));
    Prepended(s1, PoolMachine.Join(3), [Run(4, Work(1))]);
    run := [Loop(1)] + ([PoolMachine.Join(3)] + [Run(4, Work(1))]);
    Prepended(s, Loop(1), [PoolMachine.Join(3)] + [Run(4, Work(1))]);
  }

  /**
    A call of Run that never returns: a pool of one worker and room for one task, in which
    a task is queued, Stop is called and returns, and Run is called again.
  */
  lemma RunMayWaitForGood() returns (run: seq<Action>, t: Tid)
    ensures IsRun(Started({1}, 1), run)
    ensures var s := Final(Started({1}, 1), run);
            Stopped(s) && t in s.jobs && s.jobs[t].Caller? && !CanReturn(s, t)
  {
    var s := Started({1}, 1);
    hide *;
    var queued := ExampleQueues();
    var stopped := ExampleStops(Final(s, queued));
    Chained(s, queued, stopped);
    var ended := ExampleEnds(Final(s, queued + stopped));
    Chained(s, queued + stopped, ended);
    run, t := queued + stopped + ended, 4;
    ExampleIsHopeless(Final(s, run));
  }

  lemma ExampleIsHopeless(s: State)
    requires Example(s, map[1 := Exited, 4 := Caller(Work(1))], false, 3) && s.m.at[4] == Outside
    ensures Stopped(s) && !CanReturn(s, 4)
  {
    LateRunCanReturnExactly(s, 4);
  }
}
