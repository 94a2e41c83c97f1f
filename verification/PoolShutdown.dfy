/**
  What Stop of qingyi/util/thread_pool_.cc achieves: whatever else happens the workers all
  exit and Stop returns, while a call of Run that waits for room may wait for good.
*/
module PoolShutdown {
  import opened Monitor
  import opened History
  import opened PoolMachine

  // ---------- After the notification of Stop ----------

  predicate Notified(s: State) {
    !s.running && Asleep(s.m, NotEmpty) == {}
  }

  lemma StopNotifies(s: State, t: Tid, who: set<Tid>)
    requires Inv(s) && Enabled(s, Step(t, Notify(who))) && s.jobs[t].Stopper?
    ensures Notified(After(s, Step(t, Notify(who))))
  {
    assert Settled(s.m, s.jobs, s.workers, GateOf(s), t);
    NoNewSleeper(s, Step(t, Notify(who)));
  }

  /** Once Stop has notified no worker sleeps on not_empty_ again, whatever the threads do. */
  lemma {:induction false} NobodySleepsAgain(s: State, run: seq<Action>)
    requires Inv(s) && Notified(s) && IsRun(s, run)
    ensures Notified(Final(s, run))
    decreases |run|
  {
    hide After, Enabled;
    if run != [] {
      var before := run[..|run| - 1];
      RunKeepsInv(s, before);
      NobodySleepsAgain(s, before);
      NoNewSleeper(Final(s, before), run[|run| - 1]);
    }
  }

  // ---------- How far a thread is from its end ----------

  /** The steps to the next sleep or to the end; a running worker goes round once for each task. */
  function Rank(place: Place, job: Job, running: bool): nat {
    match job
    case Exited => 0
    case Joining => 1
    case Head => if running then 20 else 1
    case Took(_) => (if running then 19 else 0) + (if place.Outside? then 2 else PlaceRank(place))
    case _ => PlaceRank(place)
  }

  function RankOf(s: State, t: Tid): nat {
    if t in s.jobs && t in s.m.at then Rank(s.m.at[t], s.jobs[t], s.running) else 0
  }

  /** A step that is neither a new call nor a wake-up without a notification. */
  predicate Internal(a: Action) {
    !a.Run? && !a.Stop? && !(a.Step? && a.move.Wake?)
  }

  /** The step takes a task out of the queue. */
  predicate Takes(s: State, a: Action) {
    a.Step? && (a.move.Act? || a.move.ActQuietly?) && a.t in s.jobs && s.jobs[a.t].Taking? && s.queue != []
  }

  /** A step brings its own thread nearer to its end, unless it takes a task from a running pool. */
  lemma OwnRankFalls(s: State, a: Action)
    requires Tidy(s) && Enabled(s, a) && Internal(a) && (s.running ==> !Takes(s, a))
    ensures RankOf(After(s, a), a.t) < RankOf(s, a.t)
  {
    assert Settled(s.m, s.jobs, s.workers, GateOf(s), a.t);
    if a.Step? {
      if a.move.Act? || a.move.ActQuietly? {
        ActLowersRank(s, a.t, a.move);
      } else if a.move.Unlock? {
        EndLowersRank(s, a.t);
      } else {
        MoveTouches(s.m, a.t, a.move);
        PassageLowersRank(s.m.at[a.t], s.jobs[a.t], s.running, a.move);
      }
    }
    hide Moved, Sound, Acted, CanMove, Rank;
  }

  lemma PassageLowersRank(place: Place, job: Job, running: bool, move: Move)
    requires Starts(place, move) && !move.Act? && !move.ActQuietly? && !move.Wake? && !move.Unlock?
    requires job.Taking? || job.Caller? || job.Stopper? || (job.Took? && Finishing(place))
    ensures Rank(Dest(place, RoleOf(job), move), job, running) < Rank(place, job, running)
  {
  }

  lemma EndLowersRank(s: State, t: Tid)
    requires Tidy(s) && Enabled(s, Step(t, Unlock))
    ensures RankOf(After(s, Step(t, Unlock)), t) < RankOf(s, t)
  {
    assert Settled(s.m, s.jobs, s.workers, GateOf(s), t);
    MoveTouches(s.m, t, Unlock);
    hide Moved, Sound;
  }

  lemma ActLowersRank(s: State, t: Tid, move: Move)
    requires Tidy(s) && Enabled(s, Step(t, move)) && (move.Act? || move.ActQuietly?)
    requires s.running ==> !Takes(s, Step(t, move))
    ensures RankOf(After(s, Step(t, move)), t) < RankOf(s, t)
  {
    assert Settled(s.m, s.jobs, s.workers, GateOf(s), t);
    MoveTouches(s.m, t, move);
    hide Moved, Sound;
  }

  /** A step leaves the other threads where they are, unless it notifies or clears running_. */
  lemma OtherRanksStay(s: State, a: Action, u: Tid)
    requires Tidy(s) && Enabled(s, a) && u != a.t && u in s.jobs && After(s, a).running == s.running
    requires a.Step? && a.move.Notify? ==> !s.m.at[u].Sleeping?
    ensures RankOf(After(s, a), u) == RankOf(s, u)
  {
    OthersStay(s, a, u);
    hide After, Enabled, Sound;
  }

  // ---------- Every worker comes to its end ----------

  function StepsOf(run: seq<Action>, t: Tid): nat {
    if run == [] then 0 else StepsOf(run[..|run| - 1], t) + (if run[|run| - 1].t == t then 1 else 0)
  }

  /** After the notification a worker has at most nine steps to go, in any interleaving with anything else. */
  lemma {:induction false} WorkerStepsRunOut(s: State, run: seq<Action>, w: Tid)
    requires Inv(s) && Notified(s) && w in s.workers && IsRun(s, run)
    ensures StepsOf(run, w) + RankOf(Final(s, run), w) <= RankOf(s, w) <= 9
    decreases |run|
  {
    assert Settled(s.m, s.jobs, s.workers, GateOf(s), w);
    if run != [] {
      var before, a := run[..|run| - 1], run[|run| - 1];
      WorkerStepsRunOut(s, before, w);
      RunKeepsInv(s, before);
      NobodySleepsAgain(s, before);
      SameBounds(s, before);
      WorkerStepFalls(Final(s, before), a, w);
    }
  }

  lemma WorkerStepFalls(s: State, a: Action, w: Tid)
    requires Inv(s) && Notified(s) && w in s.workers && Enabled(s, a)
    ensures RankOf(After(s, a), w) + (if a.t == w then 1 else 0) <= RankOf(s, w)
  {
    assert Settled(s.m, s.jobs, s.workers, GateOf(s), w);
    assert InRole(s.m.at[w], s.m.role[w]) && w !in Asleep(s.m, NotEmpty);
    NoNewSleeper(s, a);
    if a.t == w {
      OwnRankFalls(s, a);
    } else {
      OtherRanksStay(s, a, w);
    }
  }

  /** A worker that is in Take may still take one task. */
  function MayTake(s: State, w: Tid): nat {
    if w in s.jobs && s.jobs[w].Taking? then 1 else 0
  }

  /** After the notification a worker takes at most one more task. */
  lemma {:induction false} OneMoreTask(s: State, run: seq<Action>, w: Tid)
    requires Inv(s) && Notified(s) && w in s.workers && IsRun(s, run)
    ensures |Of(Final(s, run).log.taken, w)| + MayTake(Final(s, run), w) <= |Of(s.log.taken, w)| + MayTake(s, w)
    decreases |run|
  {
    if run != [] {
      var before, a := run[..|run| - 1], run[|run| - 1];
      OneMoreTask(s, before, w);
      RunKeepsInv(s, before);
      NobodySleepsAgain(s, before);
      SameBounds(s, before);
      WorkerTakesOne(Final(s, before), a, w);
    }
  }

  lemma WorkerTakesOne(s: State, a: Action, w: Tid)
    requires Inv(s) && Notified(s) && w in s.workers && Enabled(s, a)
    ensures |Of(After(s, a).log.taken, w)| + MayTake(After(s, a), w) <= |Of(s.log.taken, w)| + MayTake(s, w)
  {
    hide Of, Values, Conserved;
    TakenAfter(s, a);
    if Takes(s, a) { Appended(s.log.taken, a.t, s.queue[0]); }
    if a.t != w { OthersStay(s, a, w); } else { OwnJobAfter(s, a); }
    hide After, Enabled, Takes;
  }

  lemma TakenAfter(s: State, a: Action)
    requires Enabled(s, a)
    ensures After(s, a).log.taken == if Takes(s, a) then s.log.taken + [(a.t, s.queue[0])] else s.log.taken
  {
    hide Moved, CanMove, Joined, Left;
  }

  lemma OwnJobAfter(s: State, a: Action)
    requires Tidy(s) && Enabled(s, a) && !s.running && a.t in s.jobs
    ensures MayTake(After(s, a), a.t) + (if Takes(s, a) then 1 else 0) <= MayTake(s, a.t)
  {
    hide Moved, CanMove, Joined, Left, Sound;
  }

  // ---------- Where the pool comes to a stand ----------

  /** Nothing can happen but new calls and wake-ups without a notification. */
  ghost predicate Stuck(s: State) {
    forall a :: Internal(a) ==> !Enabled(s, a)
  }

  /** The step that a thread takes next, unless it sleeps, has exited or waits for others. */
  function NextAction(s: State, t: Tid): Action
    requires t in s.jobs && t in s.m.at && t in s.m.role
  {
    match s.jobs[t]
    case Head => Loop(t)
    case Exited => Join(t)
    case Joining => Join(t)
    case Took(_) => if s.m.at[t].Outside? then Execute(t) else Step(t, NextStep(s, t))
    case _ => Step(t, NextStep(s, t))
  }

  function NextStep(s: State, t: Tid): Move
    requires t in s.jobs && t in s.m.at && t in s.m.role
  {
    NextMove(s.m, t, Blocked(s, s.jobs[t]), s.jobs[t].Taking? && (s.queue == [] || s.max == 0))
  }

  lemma NextActionIsEnabled(s: State, t: Tid)
    requires Tidy(s) && t in s.jobs && !s.jobs[t].Exited? && (s.jobs[t].Joining? ==> AllExited(s))
    requires s.m.owner == 0 || s.m.owner == t
    ensures Enabled(s, NextAction(s, t))
    ensures Internal(NextAction(s, t)) <==> !s.m.at[t].Sleeping?
  {
    assert Settled(s.m, s.jobs, s.workers, GateOf(s), t);
    NextMoveIsEnabled(s.m, t, Blocked(s, s.jobs[t]), s.jobs[t].Taking? && (s.queue == [] || s.max == 0));
  }

  lemma StuckThreads(s: State)
    requires Tidy(s) && Stuck(s)
    ensures s.m.owner == 0
    ensures forall t :: t in s.jobs ==>
              s.jobs[t].Exited? || (s.jobs[t].Joining? && !AllExited(s))
              || (s.m.at[t] == Sleeping(RoleOf(s.jobs[t]).waits) && (s.jobs[t].Taking? || s.jobs[t].Caller?))
  {
    if s.m.owner != 0 {
      assert Settled(s.m, s.jobs, s.workers, GateOf(s), s.m.owner);
      NextActionIsEnabled(s, s.m.owner);
    }
    forall t | t in s.jobs && !s.jobs[t].Exited? && (s.jobs[t].Joining? ==> AllExited(s))
      ensures s.m.at[t] == Sleeping(RoleOf(s.jobs[t]).waits) && (s.jobs[t].Taking? || s.jobs[t].Caller?)
    {
      assert Settled(s.m, s.jobs, s.workers, GateOf(s), t);
      assert InRole(s.m.at[t], s.m.role[t]);
      NextActionIsEnabled(s, t);
    }
  }

  lemma StuckMeansNoSupply(s: State, c: Cond)
    requires Inv(s) && Stuck(s) && (c == NotEmpty || c == NotFull) && Asleep(s.m, c) != {}
    ensures Supply(s, c) <= 0
  {
    StuckThreads(s);
    FreeMutexCredits(s.m, c);
    assert forall t :: t in s.jobs ==> !s.m.at[t].Woken? by {
      forall t | t in s.jobs ensures !s.m.at[t].Woken? {
        assert Settled(s.m, s.jobs, s.workers, GateOf(s), t);
      }
    }
    assert Credits(s.m, c) == {};
  }

  /**
    Where a pool that nobody stops comes to a stand every call of Run has returned and
    every task that it queued has been taken and run.
  */
  lemma StandsStillWithoutStop(s: State)
    requires Inv(s) && Stuck(s) && s.stopper == 0 && s.workers != {}
    ensures s.running && s.jobs.Keys == s.workers && s.queue == []
    ensures Values(s.log.queued) == Values(s.log.taken)
    ensures forall t: Tid :: Of(Works(s.log.taken), t) == Of(s.log.ran, t)
  {
    StuckThreads(s);
    var w :| w in s.workers;
    assert Settled(s.m, s.jobs, s.workers, GateOf(s), w);
    assert w in Asleep(s.m, NotEmpty);
    StuckMeansNoSupply(s, NotEmpty);
    forall t | t in s.jobs
      ensures t in s.workers && s.jobs[t].Taking?
    {
      assert Settled(s.m, s.jobs, s.workers, GateOf(s), t);
      if s.jobs[t].Caller? {
        assert t in Asleep(s.m, NotFull);
        StuckMeansNoSupply(s, NotFull);
      }
    }
  }

  /**
    Where a pool that somebody stops comes to a stand all workers have exited and Stop has
    returned; a call of Run is left only if the queue is full.
  */
  lemma StandsStillAfterStop(s: State)
    requires Inv(s) && Stuck(s) && s.stopper != 0
    ensures !s.running && AllExited(s)
    ensures forall t :: t in s.jobs && t !in s.workers ==> s.jobs[t].Caller? && s.m.at[t] == Sleeping(NotFull)
    ensures s.jobs.Keys != s.workers ==> s.max > 0 && |s.queue| == s.max
  {
    StuckThreads(s);
    assert !s.running && Asleep(s.m, NotEmpty) == {};
    forall w | w in s.workers
      ensures s.jobs[w].Exited?
    {
      assert Settled(s.m, s.jobs, s.workers, GateOf(s), w);
      assert w !in Asleep(s.m, NotEmpty);
    }
    forall t | t in s.jobs && t !in s.workers
      ensures s.jobs[t].Caller? && s.m.at[t] == Sleeping(NotFull) && s.max > 0 && |s.queue| == s.max
    {
      assert Settled(s.m, s.jobs, s.workers, GateOf(s), t);
      assert t in Asleep(s.m, NotFull);
      StuckMeansNoSupply(s, NotFull);
    }
  }

  // ---------- No endless run ----------

  /** The calls of Run and Stop that have not pushed or cleared running_ yet. */
  function Unacted(s: State): set<Tid> {
    set t | t in s.jobs && (s.jobs[t].Caller? || s.jobs[t].Stopper?) && t in s.m.at && !Finishing(s.m.at[t])
  }

  function Ranks(s: State): map<Tid, nat> {
    map t | t in s.jobs :: RankOf(s, t)
  }

  /** Fewer calls that have not acted, else fewer tasks, else fewer notifications due, else lower ranks. */
  ghost predicate Nearer(later: State, s: State) {
    var (calls, laterCalls) := (Unacted(s), Unacted(later));
    var (due, laterDue) := (Notifying(s.m), Notifying(later.m));
    || |laterCalls| < |calls|
    || (laterCalls == calls && |later.queue| < |s.queue|)
    || (laterCalls == calls && later.queue == s.queue && |laterDue| < |due|)
    || (laterCalls == calls && later.queue == s.queue && laterDue == due && Sum(Ranks(later)) < Sum(Ranks(s)))
  }

  /** The thread in Run or Stop acts. */
  predicate CallActs(s: State, a: Action) {
    a.Step? && (a.move.Act? || a.move.ActQuietly?) && a.t in s.jobs && !s.jobs[a.t].Taking?
  }

  lemma StepsRunOut(s: State, a: Action)
    requires Tidy(s) && Enabled(s, a) && Internal(a) && Tidy(After(s, a))
    ensures Nearer(After(s, a), s)
  {
    UnactedAfter(s, a);
    if !CallActs(s, a) {
      QueueAfter(s, a);
      if !Takes(s, a) {
        DueAfter(s, a);
        if !(a.Step? && a.move.Notify?) { RanksFall(s, a); }
      }
    }
    hide After, Enabled, Tidy, CallActs, Takes, Internal;
  }

  lemma UnactedAfter(s: State, a: Action)
    requires Tidy(s) && Enabled(s, a) && Internal(a) && Tidy(After(s, a))
    ensures Unacted(After(s, a)) == if CallActs(s, a) then Unacted(s) - {a.t} else Unacted(s)
    ensures CallActs(s, a) ==> a.t in Unacted(s)
  {
    OwnActing(s, a);
    forall u | u in s.jobs && u != a.t
      ensures u in Unacted(After(s, a)) <==> u in Unacted(s)
    {
      hide After, Enabled, Sound, AllSettled;
      OthersStay(s, a, u);
    }
    hide After, Enabled, Sound, AllSettled, CallActs, Internal;
    OneActs(s, After(s, a), a.t);
  }

  lemma OneActs(s: State, later: State, t: Tid)
    requires s.jobs.Keys == s.m.at.Keys && later.jobs.Keys == later.m.at.Keys && later.jobs.Keys <= s.jobs.Keys
    requires forall u :: u in s.jobs && u != t ==> (u in Unacted(later) <==> u in Unacted(s))
    requires t in Unacted(later) ==> t in Unacted(s)
    ensures Unacted(later) == if t in Unacted(later) then Unacted(s) else Unacted(s) - {t}
  {
    assert Unacted(later) <= s.jobs.Keys;
  }

  lemma OwnActing(s: State, a: Action)
    requires Tidy(s) && Enabled(s, a) && Internal(a) && Tidy(After(s, a))
    ensures After(s, a).jobs.Keys <= s.jobs.Keys
    ensures a.t in Unacted(After(s, a)) <==> a.t in Unacted(s) && !CallActs(s, a)
    ensures CallActs(s, a) ==> a.t in Unacted(s)
  {
    assert Settled(s.m, s.jobs, s.workers, GateOf(s), a.t);
    hide Sound, CanMove;
    if a.Step? {
      if a.move.Act? || a.move.ActQuietly? {
        OwnAct(s, a.t, a.move);
      } else if a.move.Unlock? {
        OwnEnd(s, a.t);
      } else {
        MoveTouches(s.m, a.t, a.move);
        hide Moved;
      }
    }
  }

  lemma OwnAct(s: State, t: Tid, move: Move)
    requires Tidy(s) && Enabled(s, Step(t, move)) && (move.Act? || move.ActQuietly?)
    requires Tidy(After(s, Step(t, move)))
    ensures After(s, Step(t, move)).jobs.Keys <= s.jobs.Keys
    ensures t !in Unacted(After(s, Step(t, move)))
    ensures t in Unacted(s) <==> CallActs(s, Step(t, move))
  {
    assert Settled(s.m, s.jobs, s.workers, GateOf(s), t);
    MoveTouches(s.m, t, move);
    hide Moved, Sound;
  }

  lemma OwnEnd(s: State, t: Tid)
    requires Tidy(s) && Enabled(s, Step(t, Unlock)) && Tidy(After(s, Step(t, Unlock)))
    ensures After(s, Step(t, Unlock)).jobs.Keys <= s.jobs.Keys
    ensures t !in Unacted(After(s, Step(t, Unlock))) && t !in Unacted(s)
  {
    assert Settled(s.m, s.jobs, s.workers, GateOf(s), t);
    hide Moved, Sound;
  }

  lemma QueueAfter(s: State, a: Action)
    requires Tidy(s) && Enabled(s, a) && Internal(a) && !CallActs(s, a)
    ensures if Takes(s, a) then |After(s, a).queue| < |s.queue| else After(s, a).queue == s.queue
    ensures After(s, a).running == s.running
  {
    hide Moved, Sound, CanMove;
  }

  lemma DueAfter(s: State, a: Action)
    requires Tidy(s) && Enabled(s, a) && Internal(a) && Tidy(After(s, a)) && !CallActs(s, a) && !Takes(s, a)
    ensures Notifying(After(s, a).m) == if a.Step? && a.move.Notify? then Notifying(s.m) - {a.t} else Notifying(s.m)
    ensures a.Step? && a.move.Notify? ==> a.t in Notifying(s.m)
  {
    if a.Step? { NotifyingAfter(s.m, a.t, a.move); }
    hide Moved, Sound, CanMove;
  }

  lemma RanksFall(s: State, a: Action)
    requires Tidy(s) && Enabled(s, a) && Internal(a) && Tidy(After(s, a)) && !CallActs(s, a) && !Takes(s, a)
    requires !(a.Step? && a.move.Notify?)
    ensures Sum(Ranks(After(s, a))) < Sum(Ranks(s))
  {
    OwnActing(s, a);
    OwnRankFalls(s, a);
    QueueAfter(s, a);
    forall u | u in s.jobs && u != a.t
      ensures u in After(s, a).jobs && RankOf(After(s, a), u) == RankOf(s, u)
    {
      hide After, Enabled;
      OthersStay(s, a, u);
      OtherRanksStay(s, a, u);
    }
    hide After, Enabled, Sound, AllSettled, RankOf;
    OneRankFalls(s, After(s, a), a.t);
  }

  lemma OneRankFalls(s: State, later: State, t: Tid)
    requires t in s.jobs && later.jobs.Keys <= s.jobs.Keys && RankOf(later, t) < RankOf(s, t)
    requires forall u :: u in s.jobs && u != t ==> u in later.jobs && RankOf(later, u) == RankOf(s, u)
    ensures Sum(Ranks(later)) < Sum(Ranks(s))
  {
    hide RankOf;
    if t in later.jobs {
      SumChanges(Ranks(s), Ranks(later), t);
    } else {
      SumWithout(Ranks(s), t);
      assert Ranks(later) == Ranks(s) - {t};
    }
  }

  ghost predicate IsInternalStep(s: State, later: State) {
    exists a :: Internal(a) && Enabled(s, a) && later == After(s, a)
  }

  /**
    With no new calls and no wake-ups without a notification the pool comes to a stand, if
    every task that is run comes to its end.
  */
  lemma NoEndlessRun(run: nat -> State)
    requires Inv(run(0))
    ensures exists i: nat :: !IsInternalStep(run(i), run(i + 1))
  {
    if forall i: nat :: IsInternalStep(run(i), run(i + 1)) {
      Descend(run, 0);
    }
  }

  lemma Descend(run: nat -> State, i: nat)
    requires Inv(run(i))
    requires forall j: nat :: IsInternalStep(run(j), run(j + 1))
    ensures false
    decreases |Unacted(run(i))|, |run(i).queue|, |Notifying(run(i).m)|, Sum(Ranks(run(i)))
  {
    hide IsInternalStep, Inv, Unacted, Notifying, Sum, Ranks;
    assert IsInternalStep(run(i), run(i + 1));
    InternalStepRunsOut(run(i), run(i + 1));
    Descend(run, i + 1);
  }

  lemma InternalStepRunsOut(s: State, later: State)
    requires Inv(s) && IsInternalStep(s, later)
    ensures Inv(later) && Nearer(later, s)
  {
    var a :| Internal(a) && Enabled(s, a) && later == After(s, a);
    hide After, Enabled, Nearer, Internal, Tidy, NobodyForgotten, Conserved;
    StepKeepsInv(s, a);
    StepsRunOut(s, a);
  }
}
