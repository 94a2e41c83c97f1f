/**
  How many calls of ThreadPool::Run never return from a pool that is stopped: exactly those
  that outnumber the free slots and the tasks that the workers still take, whatever the
  interleaving.  Each worker takes one more at most.  Once the workers have exited no
  sleeping call returns unless it wakes without a notification.
*/
module PoolLostCalls {
  import opened Monitor
  import opened PoolMachine
  import opened PoolShutdown

  /** The calls of Run that have not pushed their tasks. */
  function Unpushed(s: State): set<Tid> {
    set t | t in s.jobs && s.jobs[t].Caller? && t in s.m.at && !Finishing(s.m.at[t])
  }

  /** Calls that have not pushed, queued tasks, and tasks that were taken: what has ever claimed a slot. */
  function Claims(s: State): nat {
    |Unpushed(s)| + |s.queue| + |s.log.taken|
  }

  predicate Pushes(s: State, a: Action) {
    a.Step? && a.move.Act? && a.t in s.jobs && s.jobs[a.t].Caller?
  }

  /** A call becomes a queued task, and that a taken one: together they stay as many. */
  lemma StepKeepsClaims(s: State, a: Action)
    requires Tidy(s) && Enabled(s, a) && !a.Run?
    ensures Claims(After(s, a)) == Claims(s)
  {
    OwnClaim(s, a);
    forall u | u in s.jobs && u != a.t
      ensures u in Unpushed(After(s, a)) <==> u in Unpushed(s)
    {
      hide After, Enabled, Tidy;
      OthersStay(s, a, u);
    }
    hide After, Enabled, Tidy, Pushes;
    OneClaim(s, After(s, a), a.t);
  }

  lemma OneClaim(s: State, later: State, t: Tid)
    requires later.jobs.Keys <= s.jobs.Keys + {t}
    requires forall u :: u in s.jobs && u != t ==> (u in Unpushed(later) <==> u in Unpushed(s))
    requires t in Unpushed(later) ==> t in Unpushed(s)
    ensures Unpushed(later) == if t in Unpushed(later) then Unpushed(s) else Unpushed(s) - {t}
  {
  }

  /** The thread that moves: it gives up its claim exactly when it pushes. */
  lemma OwnClaim(s: State, a: Action)
    requires Tidy(s) && Enabled(s, a) && !a.Run?
    ensures After(s, a).jobs.Keys <= s.jobs.Keys + {a.t}
    ensures a.t in Unpushed(After(s, a)) <==> a.t in Unpushed(s) && !Pushes(s, a)
    ensures Pushes(s, a) ==> a.t in Unpushed(s)
    ensures |After(s, a).queue| + |After(s, a).log.taken|
            == |s.queue| + |s.log.taken| + if Pushes(s, a) then 1 else 0
  {
    if !a.Stop? { assert Settled(s.m, s.jobs, s.workers, GateOf(s), a.t); }
    hide Sound, Moved;
    if a.Step? {
      if a.move.Act? || a.move.ActQuietly? {
        ActClaim(s, a.t, a.move);
      } else if a.move.Unlock? {
        EndClaim(s, a.t);
      } else {
        MoveTouches(s.m, a.t, a.move);
      }
    }
  }

  lemma ActClaim(s: State, t: Tid, move: Move)
    requires Tidy(s) && Enabled(s, Step(t, move)) && (move.Act? || move.ActQuietly?)
    ensures var later := After(s, Step(t, move));
            && later.jobs.Keys <= s.jobs.Keys && t !in Unpushed(later)
            && (t in Unpushed(s) <==> s.jobs[t].Caller?) && (s.jobs[t].Caller? ==> move.Act?)
            && |later.queue| + |later.log.taken| == |s.queue| + |s.log.taken| + if s.jobs[t].Caller? then 1 else 0
  {
    MoveTouches(s.m, t, move);
    hide Moved, Sound, AllSettled;
  }

  lemma EndClaim(s: State, t: Tid)
    requires Tidy(s) && Enabled(s, Step(t, Unlock))
    ensures var later := After(s, Step(t, Unlock));
            && later.jobs.Keys <= s.jobs.Keys && t !in Unpushed(later) && t !in Unpushed(s)
            && later.queue == s.queue && later.log.taken == s.log.taken
  {
    hide Moved, Sound, AllSettled;
  }

  predicate NoNewRuns(run: seq<Action>) {
    forall i :: 0 <= i < |run| ==> !run[i].Run?
  }

  lemma {:induction false} RunKeepsClaims(s: State, run: seq<Action>)
    requires Inv(s) && IsRun(s, run) && NoNewRuns(run)
    ensures Claims(Final(s, run)) == Claims(s)
    decreases |run|
  {
    if run != [] {
      var before, a := run[..|run| - 1], run[|run| - 1];
      RunKeepsClaims(s, before);
      RunKeepsInv(s, before);
      hide Claims, Enabled, After;
      StepKeepsClaims(Final(s, before), a);
    }
  }

  // ---------- How many tasks are still taken ----------

  /** The workers in Take. */
  function Takers(s: State): set<Tid> {
    set t | t in s.jobs && s.jobs[t].Taking?
  }

  /** When running_ is false nobody comes to Take any more, and who takes leaves it. */
  lemma StepUsesUpTakers(s: State, a: Action)
    requires Tidy(s) && Enabled(s, a) && !s.running
    ensures !After(s, a).running && |s.log.taken| <= |After(s, a).log.taken|
    ensures |After(s, a).log.taken| + |Takers(After(s, a))| <= |s.log.taken| + |Takers(s)|
  {
    NoNewSleeper(s, a);
    OwnTaking(s, a);
    forall u | u in s.jobs && u != a.t
      ensures u in Takers(After(s, a)) <==> u in Takers(s)
    {
      hide After, Enabled, Tidy;
      OthersStay(s, a, u);
    }
    hide After, Enabled, Tidy, Takes;
    OneTaker(s, After(s, a), a.t);
  }

  lemma OwnTaking(s: State, a: Action)
    requires Tidy(s) && Enabled(s, a) && !s.running
    ensures After(s, a).jobs.Keys <= s.jobs.Keys + {a.t}
    ensures a.t in Takers(After(s, a)) ==> a.t in Takers(s) && !Takes(s, a)
    ensures Takes(s, a) ==> a.t in Takers(s)
    ensures |After(s, a).log.taken| == |s.log.taken| + if Takes(s, a) then 1 else 0
  {
    TakenAfter(s, a);
    hide Moved, CanMove, Joined, Left, Sound;
  }

  lemma OneTaker(s: State, later: State, t: Tid)
    requires later.jobs.Keys <= s.jobs.Keys + {t}
    requires forall u :: u in s.jobs && u != t ==> (u in Takers(later) <==> u in Takers(s))
    requires t in Takers(later) ==> t in Takers(s)
    ensures Takers(later) == if t in Takers(later) then Takers(s) else Takers(s) - {t}
  {
  }

  /** After Stop has cleared running_ no more tasks are taken than workers are in Take. */
  lemma {:induction false} FewMoreTasks(s: State, run: seq<Action>)
    requires Inv(s) && !s.running && IsRun(s, run)
    ensures !Final(s, run).running && |s.log.taken| <= |Final(s, run).log.taken|
    ensures |Final(s, run).log.taken| + |Takers(Final(s, run))| <= |s.log.taken| + |Takers(s)|
    decreases |run|
  {
    if run != [] {
      var before := run[..|run| - 1];
      FewMoreTasks(s, before);
      RunKeepsInv(s, before);
      hide Takers, Enabled, After;
      StepUsesUpTakers(Final(s, before), run[|run| - 1]);
    }
  }

  // ---------- The calls that are lost ----------

  function Excess(claims: int, max: nat): nat {
    if max == 0 || claims <= max then 0 else claims - max
  }

  /**
    Wherever a pool that somebody stops comes to a stand, the calls that have not returned
    are exactly as many as the calls that had not pushed and the queued tasks, less the
    tasks taken since, outnumber the bound; new calls of Run aside, from any state on.
  */
  lemma LostCallsExactly(s: State, run: seq<Action>)
    requires Inv(s) && s.workers != {} && IsRun(s, run) && NoNewRuns(run)
    requires Stuck(Final(s, run)) && Final(s, run).stopper != 0
    ensures |Final(s, run).jobs.Keys - s.workers|
            == Excess(|Unpushed(s)| + |s.queue| - (|Final(s, run).log.taken| - |s.log.taken|), s.max)
  {
    hide *;
    var later := Final(s, run);
    RunKeepsInv(s, run);
    RunKeepsClaims(s, run);
    SameBounds(s, run);
    LostAtStand(later);
    ClaimsAre(s);
    ClaimsAre(later);
  }

  lemma ClaimsAre(s: State)
    ensures Claims(s) == |Unpushed(s)| + |s.queue| + |s.log.taken|
  {
  }

  lemma LostAtStand(s: State)
    requires Inv(s) && s.workers != {} && Stuck(s) && s.stopper != 0
    ensures |s.jobs.Keys - s.workers| == Excess(|Unpushed(s)| + |s.queue|, s.max)
  {
    StandsStill(s);
    hide Inv, Stuck, Unpushed;
    assert Unpushed(s) == {} <==> |Unpushed(s)| == 0;
  }

  lemma StandsStill(s: State)
    requires Inv(s) && s.workers != {} && Stuck(s) && s.stopper != 0
    ensures s.jobs.Keys - s.workers == Unpushed(s)
    ensures Unpushed(s) != {} ==> s.max > 0 && |s.queue| == s.max
    ensures s.max > 0 ==> |s.queue| <= s.max
  {
    StandsStillAfterStop(s);
    forall t
      ensures t in s.jobs.Keys - s.workers <==> t in Unpushed(s)
    {
      if t in s.jobs { assert Settled(s.m, s.jobs, s.workers, GateOf(s), t); }
    }
  }

  /** Once running_ is false, that is at most the excess, and less by no more than the workers in Take. */
  lemma LostCallsWithin(s: State, run: seq<Action>)
    requires Inv(s) && s.workers != {} && !s.running && IsRun(s, run) && NoNewRuns(run) && Stuck(Final(s, run))
    ensures Excess(|Unpushed(s)| + |s.queue| - |Takers(s)|, s.max)
            <= |Final(s, run).jobs.Keys - s.workers|
            <= Excess(|Unpushed(s)| + |s.queue|, s.max)
  {
    hide *;
    RunKeepsInv(s, run);
    FewMoreTasks(s, run);
    SomebodyStopped(Final(s, run));
    LostCallsExactly(s, run);
    ExcessGrows(s.max);
  }

  lemma SomebodyStopped(s: State)
    requires Inv(s) && !s.running
    ensures s.stopper != 0
  {
  }

  lemma ExcessGrows(max: nat)
    ensures forall a, b :: a <= b ==> Excess(a, max) <= Excess(b, max)
  {
  }

  /** The workers have all exited: nobody is left to take a task. */
  predicate Abandoned(s: State) {
    s.workers != {} && AllExited(s)
  }

  /** What is true of an abandoned pool: Stop has had its effect, and no thread is on its way to take. */
  lemma NobodyTakes(s: State)
    requires Tidy(s) && Abandoned(s)
    ensures !s.running && s.stopper != 0
    ensures forall t :: t in s.jobs ==>
              s.jobs[t].Exited? || s.jobs[t].Joining? || s.jobs[t].Caller? || s.jobs[t].Stopper?
  {
    var w :| w in s.workers;
    assert Settled(s.m, s.jobs, s.workers, GateOf(s), w);
    forall t | t in s.jobs
      ensures s.jobs[t].Exited? || s.jobs[t].Joining? || s.jobs[t].Caller? || s.jobs[t].Stopper?
    {
      assert Settled(s.m, s.jobs, s.workers, GateOf(s), t);
    }
  }

  /**
    When the workers have exited, every call of Run returns, wherever the pool comes to a
    stand, exactly if there is room for all of them.
  */
  lemma AllReturnExactly(s: State, run: seq<Action>)
    requires Inv(s) && Abandoned(s) && IsRun(s, run) && NoNewRuns(run) && Stuck(Final(s, run))
    ensures Final(s, run).jobs.Keys == s.workers <==> s.max == 0 || |Unpushed(s)| + |s.queue| <= s.max
  {
    hide *;
    NobodyIsInTake(s);
    LostCallsWithin(s, run);
    NoExcess(|Unpushed(s)| + |s.queue|, s.max);
    RunKeepsInv(s, run);
    SameBounds(s, run);
    WorkersStay(Final(s, run));
    var left := Final(s, run).jobs.Keys - s.workers;
    assert left == {} <==> |left| == 0;
    assert left == {} ==> Final(s, run).jobs.Keys == s.workers;
  }

  lemma NobodyIsInTake(s: State)
    requires Inv(s) && Abandoned(s)
    ensures s.workers != {} && !s.running && Takers(s) == {}
  {
    NobodyTakes(s);
  }

  lemma WorkersStay(s: State)
    requires Inv(s)
    ensures s.workers <= s.jobs.Keys
  {
  }

  lemma NoExcess(claims: nat, max: nat)
    ensures Excess(claims, max) == 0 <==> max == 0 || claims <= max
  {
  }

  // ---------- Sleepers ----------

  predicate AsleepFor(s: State, t: Tid, c: Cond) {
    t in s.jobs && s.jobs[t].Caller? && t in s.m.at && s.m.at[t] == Sleeping(c)
  }

  /** Nobody notifies not_full_ in an abandoned pool. */
  lemma StepLeavesSleeper(s: State, a: Action, t: Tid)
    requires Tidy(s) && Abandoned(s) && Enabled(s, a) && AsleepFor(s, t, NotFull) && a != Step(t, Wake)
    ensures AsleepFor(After(s, a), t, NotFull)
  {
    NobodyTakes(s);
    if a.t != t {
      OthersStay(s, a, t);
      if a.Step? { NotifiesOthers(s, a.t, a.move, t); }
    }
  }

  lemma NotifiesOthers(s: State, u: Tid, move: Move, t: Tid)
    requires Tidy(s) && Abandoned(s) && Enabled(s, Step(u, move)) && AsleepFor(s, t, NotFull) && u != t
    ensures t in Moved(s.m, u, move).at && Moved(s.m, u, move).at[t] == Sleeping(NotFull)
  {
    NobodyTakes(s);
    assert Settled(s.m, s.jobs, s.workers, GateOf(s), u);
  }

  /** A call that sleeps in an abandoned pool returns in no run in which it does not wake without a notification. */
  lemma {:induction false} SleeperNeverReturns(s: State, run: seq<Action>, t: Tid)
    requires Inv(s) && Abandoned(s) && AsleepFor(s, t, NotFull) && IsRun(s, run)
    requires forall i :: 0 <= i < |run| ==> run[i] != Step(t, Wake)
    ensures Abandoned(Final(s, run)) && AsleepFor(Final(s, run), t, NotFull)
    decreases |run|
  {
    if run != [] {
      var before := run[..|run| - 1];
      SleeperNeverReturns(s, before, t);
      RunKeepsInv(s, before);
      StayExited(Final(s, before), run[|run| - 1]);
      StepKeepsBounds(Final(s, before), run[|run| - 1]);
      StepLeavesSleeper(Final(s, before), run[|run| - 1], t);
    }
  }
}
