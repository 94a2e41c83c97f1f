/**
  ThreadPool of qingyi/util/thread_pool_.cc as the code that its threads run.  The class has
  the fields of the source; between any two steps of a thread the others take theirs, as a
  schedule says.  Every call is an interleaving of the machine in PoolMachine.
*/
module PoolCode {
  import opened Monitor
  import opened History
  import opened PoolMachine

  // ---------- What the steps of others leave to a thread ----------

  predicate SameRecord(log: Log, later: Log, t: Tid) {
    && Of(later.queued, t) == Of(log.queued, t) && Of(later.taken, t) == Of(log.taken, t)
    && Of(later.ran, t) == Of(log.ran, t) && Of(later.inline, t) == Of(log.inline, t)
  }

  /** The thread is where it was, or woken, with the same job; inside the block it finds the pool as it left it. */
  ghost predicate Undisturbed(s: State, later: State, t: Tid)
    requires t in s.jobs && t in s.m.at
  {
    && t in later.jobs && later.jobs[t] == s.jobs[t] && later.max == s.max && later.workers == s.workers
    && t in later.m.at && (later.m.at[t] == s.m.at[t] || Roused(s.m.at[t], later.m.at[t]))
    && SameRecord(s.log, later.log, t)
    && (s.m.owner == t ==> later.m.owner == t && later.queue == s.queue && later.running == s.running)
    && (later.running ==> s.running)
  }

  lemma RivalLeaves(s: State, a: Action, t: Tid)
    requires Inv(s) && Enabled(s, a) && t in s.jobs && a.t != t
    ensures Undisturbed(s, After(s, a), t)
  {
    OthersStay(s, a, t);
    RivalLeavesRecord(s, a, t);
    RivalLeavesPool(s, a, t);
    StepKeepsBounds(s, a);
    hide After, Enabled, Inv, SameRecord;
  }

  lemma RivalLeavesPool(s: State, a: Action, t: Tid)
    requires Inv(s) && Enabled(s, a) && t in s.jobs && a.t != t
    ensures var later := After(s, a);
            && (s.m.owner == t ==> later.m.owner == t && later.queue == s.queue && later.running == s.running)
            && (later.running ==> s.running)
  {
    if a.Step? { Bystander(s.m, a.t, a.move, t); }
    hide Sound, NobodyForgotten, Conserved;
  }

  lemma RivalLeavesRecord(s: State, a: Action, t: Tid)
    requires Enabled(s, a) && a.t != t
    ensures SameRecord(s.log, After(s, a).log, t)
  {
    hide SameRecord, Moved, CanMove, Joined, Left, Acted;
    SameLog(s.log, t);
    match a
    case Run(u, task) => OneEntry(s.log, u, task, t);
    case Execute(u) => OneEntry(s.log, u, s.jobs[u].task, t);
    case Step(u, move) => ActLeavesRecord(s, u, t);
    case _ =>
  }

  lemma SameLog(log: Log, t: Tid)
    ensures SameRecord(log, log, t)
  {
  }

  lemma ActLeavesRecord(s: State, u: Tid, t: Tid)
    requires u in s.jobs && u != t
    ensures SameRecord(s.log, Acted(s, u).log, t)
  {
    hide SameRecord;
    SameLog(s.log, t);
    match s.jobs[u]
    case Caller(task) => OneEntry(s.log, u, task, t);
    case Stopper =>
    case _ => if s.queue != [] { OneEntry(s.log, u, s.queue[0], t); }
  }

  lemma OneEntry(log: Log, u: Tid, task: Task, t: Tid)
    requires u != t
    ensures SameRecord(log, log.(queued := log.queued + [(u, task)]), t)
    ensures SameRecord(log, log.(taken := log.taken + [(u, task)]), t)
    ensures SameRecord(log, log.(ran := log.ran + [(u, task)]), t)
    ensures SameRecord(log, log.(inline := log.inline + [(u, task)]), t)
  {
    hide Of;
    Appended(log.queued, u, task);
    Appended(log.taken, u, task);
    Appended(log.ran, u, task);
    Appended(log.inline, u, task);
  }

  lemma UndisturbedTwice(s: State, mid: State, later: State, t: Tid)
    requires t in s.jobs && t in s.m.at && Undisturbed(s, mid, t) && Undisturbed(mid, later, t)
    ensures Undisturbed(s, later, t)
  {
    hide Of;
  }

  // ---------- The way of a thread ----------

  /** What the other threads try to do, turn by turn. */
  type Schedule = seq<seq<Action>>

  /** The steps of a thread and the turns of the others, so far. */
  type Turns = seq<Turn<Action>>

  /** A state and the turns that led to it. */
  datatype Mark = Mark(s: State, trace: Turns)

  /** Some steps later the thread has the same job, and no more on record. */
  ghost predicate Waits(start: Mark, now: Mark, t: Tid) {
    var (s, later) := (start.s, now.s);
    && t in s.jobs && t in later.jobs && later.jobs[t] == s.jobs[t]
    && t in later.m.at && t in later.m.role && later.m.role[t] == RoleOf(later.jobs[t])
    && SameRecord(s.log, later.log, t)
    && (later.running ==> s.running)
    && Follows(start.trace, now.trace)
  }

  lemma WaitsOn(start: Mark, mid: Mark, now: Mark, t: Tid)
    requires Waits(start, mid, t) && Waits(mid, now, t)
    ensures Waits(start, now, t)
  {
    hide Of;
  }

  lemma StillWaits(start: Mark, now: Mark, t: Tid)
    requires Waits(start, now, t)
    ensures Waits(now, now, t)
  {
  }

  /** A passage of t through the monitor, and then steps of the others. */
  ghost predicate Passes(before: Mark, now: Mark, t: Tid, dest: Place) {
    && Waits(before, now, t)
    && (now.s.m.at[t] == dest || Roused(dest, now.s.m.at[t]))
    && (!dest.Sleeping? ==> now.s.m.owner == t)
    && (!dest.Sleeping? && before.s.m.owner == t ==> now.s.queue == before.s.queue && now.s.running == before.s.running)
  }

  lemma PassesOn(before: Mark, mid: State, now: Mark, t: Tid, move: Move)
    requires var s := before.s;
             Inv(s) && t in s.jobs && Enabled(s, Step(t, move)) && mid == s.(m := Moved(s.m, t, move))
    requires !move.Wake? && !move.Unlock? && Undisturbed(mid, now.s, t) && Inv(now.s) && before.trace <= now.trace
    ensures Passes(before, now, t, Dest(before.s.m.at[t], before.s.m.role[t], move))
  {
    hide Of;
    MoveTouches(before.s.m, t, move);
    assert Settled(now.s.m, now.s.jobs, now.s.workers, GateOf(now.s), t);
    hide NobodyForgotten, Conserved;
  }

  /** What is on record of t has grown by these tasks. */
  predicate Grew(log: Log, later: Log, t: Tid, queued: seq<Task>, taken: seq<Task>, ran: seq<Task>) {
    && Of(later.queued, t) == Of(log.queued, t) + queued && Of(later.taken, t) == Of(log.taken, t) + taken
    && Of(later.ran, t) == Of(log.ran, t) + ran && Of(later.inline, t) == Of(log.inline, t)
  }

  /** The task that Take takes out of this queue, if any. */
  function Front(queue: seq<Task>): seq<Task> {
    if queue == [] then [] else [queue[0]]
  }

  /** The action of t, and then steps of the others. */
  ghost predicate Acts(before: Mark, now: Mark, t: Tid, move: Move) {
    && t in before.s.jobs && Waits(now, now, t) && now.s.m.owner == t
    && now.s.m.at[t] == (if move.Act? then Inside(Signal) else Inside(Exit))
    && Follows(before.trace, now.trace) && (now.s.running ==> before.s.running)
    && match before.s.jobs[t]
       case Caller(task) => now.s.jobs[t] == Caller(task) && Grew(before.s.log, now.s.log, t, [task], [], [])
       case Stopper => now.s.jobs[t] == Stopper && !now.s.running && Grew(before.s.log, now.s.log, t, [], [], [])
       case _ =>
         var front := Front(before.s.queue);
         && now.s.jobs[t] == Took(if front == [] then Null else front[0])
         && Grew(before.s.log, now.s.log, t, [], front, [])
  }

  /** The action of t alone. */
  predicate ActedAlone(s: State, mid: State, t: Tid, move: Move) {
    && t in s.jobs && t in mid.m.at && t in mid.jobs
    && mid.m.at[t] == (if move.Act? then Inside(Signal) else Inside(Exit)) && mid.m.owner == t
    && match s.jobs[t]
       case Caller(task) =>
         mid.jobs[t] == Caller(task) && mid.running == s.running && Grew(s.log, mid.log, t, [task], [], [])
       case Stopper => mid.jobs[t] == Stopper && !mid.running && Grew(s.log, mid.log, t, [], [], [])
       case _ =>
         var front := Front(s.queue);
         && mid.jobs[t] == Took(if front == [] then Null else front[0])
         && Grew(s.log, mid.log, t, [], front, [])
         && mid.running == s.running
  }

  lemma ActAlone(s: State, t: Tid, move: Move)
    requires Tidy(s) && Enabled(s, Step(t, move)) && (move.Act? || move.ActQuietly?)
    ensures ActedAlone(s, After(s, Step(t, move)), t, move)
  {
    MoveTouches(s.m, t, move);
    ActGrows(s, t);
    hide AllSettled, Grew;
  }

  lemma ActsOn(before: Mark, mid: State, now: Mark, t: Tid, move: Move)
    requires ActedAlone(before.s, mid, t, move) && Undisturbed(mid, now.s, t) && before.trace <= now.trace
    requires Waits(now, now, t)
    ensures Acts(before, now, t, move)
  {
    hide Of;
  }

  /** A thread that has a job has its role. */
  lemma Present(now: Mark, t: Tid)
    requires Inv(now.s) && t in now.s.jobs
    ensures Waits(now, now, t)
  {
    assert Settled(now.s.m, now.s.jobs, now.s.workers, GateOf(now.s), t);
  }

  lemma ActGrows(s: State, t: Tid)
    requires t in s.jobs
    ensures match s.jobs[t]
            case Caller(task) => Grew(s.log, Acted(s, t).log, t, [task], [], [])
            case Stopper => Grew(s.log, Acted(s, t).log, t, [], [], [])
            case _ => Grew(s.log, Acted(s, t).log, t, [], Front(s.queue), [])
  {
    hide Of;
    if s.jobs[t].Caller? { Appended(s.log.queued, t, s.jobs[t].task); }
    if s.queue != [] { Appended(s.log.taken, t, s.queue[0]); }
  }

  /** The thread has left the block: Run has returned, Stop goes on to the joins, Take has returned. */
  ghost predicate Leaving(start: Mark, now: Mark, t: Tid) {
    && t in start.s.jobs && SameRecord(start.s.log, now.s.log, t) && Follows(start.trace, now.trace)
    && (now.s.running ==> start.s.running)
    && match start.s.jobs[t]
       case Caller(_) => t !in now.s.jobs
       case Stopper => At(now.s, t, Joining)
       case job => At(now.s, t, job)
  }

  /** The thread has acted and left the block: it has queued and taken these tasks, and its job is what comes next. */
  ghost predicate Done(before: Mark, now: Mark, t: Tid, queued: seq<Task>, taken: seq<Task>) {
    && t in before.s.jobs && Grew(before.s.log, now.s.log, t, queued, taken, []) && Follows(before.trace, now.trace)
    && match before.s.jobs[t]
       case Caller(_) => t !in now.s.jobs
       case Stopper => At(now.s, t, Joining)
       case _ => At(now.s, t, Took(if taken == [] then Null else taken[0]))
  }

  lemma DoneFrom(before: Mark, ready: Mark, acted: Mark, now: Mark, t: Tid, queued: seq<Task>, taken: seq<Task>)
    requires Waits(before, ready, t) && Waits(acted, acted, t) && Leaving(acted, now, t)
    requires Grew(ready.s.log, acted.s.log, t, queued, taken, []) && Follows(ready.trace, acted.trace)
    requires match before.s.jobs[t]
             case Caller(_) => acted.s.jobs[t].Caller?
             case Stopper => acted.s.jobs[t].Stopper?
             case _ => acted.s.jobs[t] == Took(if taken == [] then Null else taken[0])
    ensures Done(before, now, t, queued, taken)
  {
    hide Of;
  }

  lemma DoneLater(start: Mark, before: Mark, now: Mark, t: Tid, queued: seq<Task>, taken: seq<Task>)
    requires Waits(start, before, t) && Done(before, now, t, queued, taken)
    ensures Done(start, now, t, queued, taken)
  {
    hide Of;
  }

  lemma StaysAt(s: State, now: Mark, t: Tid, job: Job)
    requires At(s, t, job) && Undisturbed(s, now.s, t) && Inv(now.s)
    ensures At(now.s, t, job)
  {
    Present(now, t);
  }

  lemma JoinReturns(now: Mark, t: Tid)
    requires Inv(now.s) && At(now.s, t, Joining) && AllExited(now.s)
    ensures Enabled(now.s, Action.Join(t))
    ensures var later := After(now.s, Action.Join(t));
            AllExited(later) && t !in later.jobs && later.running == now.s.running
    ensures Follows(now.trace, now.trace + [Own(Action.Join(t))])
  {
    StayExited(now.s, Action.Join(t));
  }

  lemma FrontIsOne(queue: seq<Task>)
    ensures |Front(queue)| <= 1 && (Front(queue) == [] <==> queue == [])
  {
  }

  lemma NothingLeft(s: State, w: Tid)
    requires Inv(s) && w in s.jobs && !s.jobs[w].Took?
    ensures Of(Works(s.log.taken), w) == Of(s.log.ran, w)
  {
  }

  /** A step of t outside the block, and then steps of the others. */
  ghost predicate Goes(before: Mark, now: Mark, t: Tid, a: Action) {
    && t in before.s.jobs && Follows(before.trace, now.trace) && (now.s.running ==> before.s.running)
    && match before.s.jobs[t]
       case Head => At(now.s, t, if before.s.running then Taking else Exited) && SameRecord(before.s.log, now.s.log, t)
       case Took(task) =>
         At(now.s, t, Head) && Grew(before.s.log, now.s.log, t, [], [], if task.Work? then [task] else [])
       case _ => false
  }

  /** The step of t alone. */
  predicate GoneAlone(s: State, mid: State, t: Tid) {
    && t in s.jobs && t in mid.jobs && t in mid.m.at && mid.m.at[t] == Outside
    && mid.queue == s.queue && mid.running == s.running
    && match s.jobs[t]
       case Head => mid.jobs[t] == (if s.running then Taking else Exited) && SameRecord(s.log, mid.log, t)
       case Took(task) => mid.jobs[t] == Head && Grew(s.log, mid.log, t, [], [], if task.Work? then [task] else [])
       case _ => false
  }

  lemma GoAlone(s: State, a: Action)
    requires Inv(s) && Enabled(s, a) && (a.Loop? || a.Execute?)
    ensures GoneAlone(s, After(s, a), a.t)
  {
    hide Of, Sound, NobodyForgotten, Conserved, Grew;
    assert Settled(s.m, s.jobs, s.workers, GateOf(s), a.t);
    if a.Execute? { ExecutionGrows(s.log, a.t, s.jobs[a.t].task); }
  }

  lemma ExecutionGrows(log: Log, t: Tid, task: Task)
    ensures Grew(log, log.(ran := log.ran + [(t, task)]), t, [], [], [task])
    ensures Grew(log, log, t, [], [], [])
  {
    hide Of;
    Appended(log.ran, t, task);
  }

  lemma GoesOn(before: Mark, mid: State, now: Mark, t: Tid, a: Action)
    requires GoneAlone(before.s, mid, t) && Undisturbed(mid, now.s, t) && before.trace <= now.trace && Inv(now.s)
    ensures Goes(before, now, t, a)
  {
    Present(now, t);
    hide Of, Inv;
  }

  /** The thread has this job and is outside the block. */
  predicate At(s: State, t: Tid, job: Job) {
    && t in s.jobs && s.jobs[t] == job && t in s.m.at && s.m.at[t] == Outside
    && t in s.m.role && s.m.role[t] == RoleOf(job)
  }

  lemma LeavesBlock(start: Mark, mid: Mark, t: Tid)
    requires Waits(start, mid, t) && Enabled(mid.s, Step(t, Unlock))
    ensures Leaving(start, Mark(After(mid.s, Step(t, Unlock)), mid.trace + [Own(Step(t, Unlock))]), t)
  {
    hide Of;
  }

  lemma Leaves(before: Mark, now: Mark, t: Tid)
    requires var s := before.s; Inv(s) && t in s.jobs && Undisturbed(s, now.s, t)
    requires Inv(now.s) && before.trace <= now.trace
    ensures Waits(before, now, t)
    ensures before.s.m.at[t].Outside? ==> now.s.m.at[t].Outside?
    ensures before.s.m.at[t].Sleeping? || before.s.m.at[t].Woken? ==> now.s.m.at[t].Sleeping? || now.s.m.at[t].Woken?
    ensures now.s.running ==> before.s.running
  {
    hide Of;
    assert Settled(now.s.m, now.s.jobs, now.s.workers, GateOf(now.s), t);
  }

  /** What the other threads make of their turn: each takes its step if it can when it comes to it. */
  function TheirTurn(s: State, t: Tid, batch: seq<Action>): State {
    if batch == [] then s
    else
      var before, a := TheirTurn(s, t, batch[..|batch| - 1]), batch[|batch| - 1];
      if a.t != t && Enabled(before, a) then After(before, a) else before
  }

  lemma {:induction false} TurnLeaves(s: State, t: Tid, batch: seq<Action>)
    requires Inv(s) && t in s.jobs
    ensures Inv(TheirTurn(s, t, batch)) && Undisturbed(s, TheirTurn(s, t, batch), t)
    ensures TheirTurn(s, t, batch).max == s.max && TheirTurn(s, t, batch).workers == s.workers
    decreases |batch|
  {
    if batch != [] {
      var before, a := TheirTurn(s, t, batch[..|batch| - 1]), batch[|batch| - 1];
      TurnLeaves(s, t, batch[..|batch| - 1]);
      if a.t != t && Enabled(before, a) {
        StepKeepsInv(before, a);
        RivalLeaves(before, a, t);
        StepKeepsBounds(before, a);
        UndisturbedTwice(s, before, After(before, a), t);
      }
    }
  }

  function AfterTurn(s: State, turn: Turn<Action>): State
    requires turn.Own? ==> Enabled(s, turn.a)
  {
    match turn
    case Own(a) => After(s, a)
    case Rivals(t, batch) => TheirTurn(s, t, batch)
  }

  predicate AreTurns(s: State, turns: Turns)
    decreases |turns|, 0
  {
    turns == []
    || (AreTurns(s, turns[..|turns| - 1])
        && (turns[|turns| - 1].Own? ==> Enabled(Replay(s, turns[..|turns| - 1]), turns[|turns| - 1].a)))
  }

  /** The state at the end of the turns. */
  function Replay(s: State, turns: Turns): State
    requires AreTurns(s, turns)
    decreases |turns|, 1
  {
    if turns == [] then s
    else AfterTurn(Replay(s, turns[..|turns| - 1]), turns[|turns| - 1])
  }

  lemma OneMoreTurn(s: State, turns: Turns, turn: Turn<Action>)
    requires AreTurns(s, turns) && (turn.Own? ==> Enabled(Replay(s, turns), turn.a))
    ensures AreTurns(s, turns + [turn])
    ensures Replay(s, turns + [turn]) == AfterTurn(Replay(s, turns), turn)
  {
    hide AfterTurn, Enabled;
    var all := turns + [turn];
    assert all[..|all| - 1] == turns && all[|all| - 1] == turn;
  }

  /** The turns lead from the pool that Start has left to this state, those of the others as the schedule says. */
  ghost predicate Reached(workers: set<Tid>, max: nat, s: State, schedule: Schedule, left: nat, trace: Turns) {
    var start := Started(workers, max);
    Inv(s) && AreTurns(start, trace) && s == Replay(start, trace) && Played(schedule, left, trace)
  }

  lemma Extended(workers: set<Tid>, max: nat, s: State, schedule: Schedule, left: nat, trace: Turns, a: Action)
    requires Reached(workers, max, s, schedule, left, trace) && Enabled(s, a)
    ensures Reached(workers, max, After(s, a), schedule, left, trace + [Own(a)])
    ensures After(s, a).max == s.max && After(s, a).workers == s.workers
  {
    StepKeepsInv(s, a);
    StepKeepsBounds(s, a);
    PlaysOwn(schedule, left, trace, a);
    hide After, Enabled, Inv, Played, AreTurns, Replay;
    OneMoreTurn(Started(workers, max), trace, Own(a));
  }

  lemma RivalsPlay(workers: set<Tid>, max: nat, s: State, schedule: Schedule, left: nat, trace: Turns, t: Tid)
    requires Reached(workers, max, s, schedule, left, trace) && 0 < left <= |schedule| && t in s.jobs
    ensures var batch := schedule[|schedule| - left];
            Reached(workers, max, TheirTurn(s, t, batch), schedule, left - 1, trace + [Rivals(t, batch)])
            && t in s.jobs && t in s.m.at && Undisturbed(s, TheirTurn(s, t, batch), t)
            && TheirTurn(s, t, batch).max == s.max && TheirTurn(s, t, batch).workers == s.workers
  {
    var batch := schedule[|schedule| - left];
    hide After, Enabled, Inv, Played, AreTurns, Replay, TheirTurn, Undisturbed;
    TurnLeaves(s, t, batch);
    PlaysRivals(schedule, left, trace, t);
    OneMoreTurn(Started(workers, max), trace, Rivals(t, batch));
  }

  lemma BeforeTurn(workers: set<Tid>, max: nat, s: State, schedule: Schedule, left: nat, trace: Turns, t: Tid)
    requires Reached(workers, max, s, schedule, left, trace) && t in s.jobs
    ensures left <= |schedule| && t in s.m.at && Undisturbed(s, s, t)
  {
  }

  /** Whatever the schedule, the turns are a run of the machine. */
  lemma {:induction false} TurnsAreRun(s: State, turns: Turns) returns (run: seq<Action>)
    requires AreTurns(s, turns)
    ensures IsRun(s, run) && Final(s, run) == Replay(s, turns)
    decreases |turns|
  {
    if turns == [] { return []; }
    run := TurnsAreRun(s, turns[..|turns| - 1]);
    match turns[|turns| - 1]
    case Own(a) =>
      LongerRun(s, run, a);
      run := run + [a];
    case Rivals(t, batch) => run := TheirTurnIsRun(s, run, t, batch);
  }

  lemma LongerRun(s: State, run: seq<Action>, a: Action)
    requires IsRun(s, run) && Enabled(Final(s, run), a)
    ensures IsRun(s, run + [a]) && Final(s, run + [a]) == After(Final(s, run), a)
  {
    var longer := run + [a];
    assert longer[..|longer| - 1] == run && longer[|longer| - 1] == a;
    hide Enabled, After;
  }

  lemma {:induction false} TheirTurnIsRun(s: State, run: seq<Action>, t: Tid, batch: seq<Action>)
    returns (longer: seq<Action>)
    requires IsRun(s, run)
    ensures IsRun(s, longer) && Final(s, longer) == TheirTurn(Final(s, run), t, batch)
    decreases |batch|
  {
    longer := run;
    if batch != [] {
      var a := batch[|batch| - 1];
      longer := TheirTurnIsRun(s, run, t, batch[..|batch| - 1]);
      if a.t != t && Enabled(Final(s, longer), a) {
        LongerRun(s, longer, a);
        longer := longer + [a];
      }
    }
  }

  /** The step was taken in its turn exactly if it is another thread's and could be taken after those before it. */
  ghost predicate TookTurn(s: State, t: Tid, batch: seq<Action>, taken: seq<bool>, i: nat)
    requires |taken| == |batch| && i < |batch|
  {
    var before := Picked(batch[..i], taken[..i]);
    IsRun(s, before) && (taken[i] <==> batch[i].t != t && Enabled(Final(s, before), batch[i]))
  }

  /** A turn is a run of steps out of its batch, and no step is left out that could be taken when it came to it. */
  lemma {:induction false} TurnTakesAll(s: State, t: Tid, batch: seq<Action>) returns (taken: seq<bool>)
    ensures |taken| == |batch| && forall i :: 0 <= i < |batch| ==> TookTurn(s, t, batch, taken, i)
    ensures IsRun(s, Picked(batch, taken)) && Final(s, Picked(batch, taken)) == TheirTurn(s, t, batch)
    decreases |batch|
  {
    if batch == [] { return []; }
    var last := |batch| - 1;
    var first := TurnTakesAll(s, t, batch[..last]);
    var before := Picked(batch[..last], first);
    var takes := batch[last].t != t && Enabled(Final(s, before), batch[last]);
    taken := first + [takes];
    PickedOn(batch, first, takes);
    if takes { LongerRun(s, before, batch[last]); }
    hide Enabled, After, Picked, IsRun, Final;
    assert before + [] == before;
    TookEarlier(s, t, batch, first, takes);
  }

  lemma TookEarlier(s: State, t: Tid, batch: seq<Action>, first: seq<bool>, takes: bool)
    requires |first| + 1 == |batch|
    requires forall i :: 0 <= i < |first| ==> TookTurn(s, t, batch[..|first|], first, i)
    requires var before := Picked(batch[..|first|], first);
             IsRun(s, before)
             && (takes <==> batch[|first|].t != t && Enabled(Final(s, before), batch[|first|]))
    ensures forall i :: 0 <= i < |batch| ==> TookTurn(s, t, batch, first + [takes], i)
  {
    hide Picked, IsRun, Final, Enabled;
    var taken := first + [takes];
    forall i | 0 <= i < |batch|
      ensures TookTurn(s, t, batch, taken, i)
    {
      if i < |first| {
        assert TookTurn(s, t, batch[..|first|], first, i);
        assert batch[..|first|][..i] == batch[..i] && first[..i] == taken[..i];
      } else {
        assert taken[..i] == first;
      }
    }
  }

  /** A batch that the other threads can run to its end they do run to its end. */
  lemma {:induction false} TurnOfRun(s: State, t: Tid, batch: seq<Action>)
    requires IsRun(s, batch) && forall i :: 0 <= i < |batch| ==> batch[i].t != t
    ensures TheirTurn(s, t, batch) == Final(s, batch)
    decreases |batch|
  {
    hide Enabled, After;
    if batch != [] { TurnOfRun(s, t, batch[..|batch| - 1]); }
  }

  lemma Excluded(s: State, t: Tid)
    requires Inv(s) && t in s.m.at && (s.m.at[t].Sleeping? || s.m.owner != 0)
    requires s.m.at[t].Sleeping? || s.m.at[t].Woken? || s.m.at[t].Outside?
    ensures HeldUp(s.m, t)
  {
  }

  /** What an action makes of the pool. */
  lemma ActIs(s: State, t: Tid, move: Move)
    requires Enabled(s, Step(t, move)) && (move.Act? || move.ActQuietly?)
    ensures CanMove(s.m, t, move)
    ensures var m := Moved(s.m, t, move);
            After(s, Step(t, move)) == match s.jobs[t]
              case Caller(task) =>
                State(m, s.jobs, s.queue + [task], s.running, s.max, s.workers, s.stopper,
                      s.log.(queued := s.log.queued + [(t, task)]))
              case Stopper => State(m, s.jobs, s.queue, false, s.max, s.workers, s.stopper, s.log)
              case _ =>
                if s.queue == [] then
                  State(m, s.jobs[t := Took(Null)], s.queue, s.running, s.max, s.workers, s.stopper, s.log)
                else
                  State(m, s.jobs[t := Took(s.queue[0])], s.queue[1..], s.running, s.max, s.workers, s.stopper,
                        s.log.(taken := s.log.taken + [(t, s.queue[0])]))
  {
    hide Moved, CanMove;
  }

  class ThreadPool {
    var mutex: Mutex         // mutex_ with not_empty_ and not_full_
    var queue: seq<Task>     // queue_
    var running: bool        // running_
    const maxQueueSize: nat  // max_queue_size_
    const threads: set<Tid>  // threads_
    var jobs: map<Tid, Job>
    var stopper: int
    var log: Log
    const schedule: Schedule
    var left: nat            // how much of the schedule is to come
    ghost var trace: Turns

    function Now(): State
      reads this
    {
      State(mutex, jobs, queue, running, maxQueueSize, threads, stopper, log)
    }

    ghost function Here(): Mark
      reads this
    {
      Mark(Now(), trace)
    }

    /** The turns in trace have led to this state of the pool, and the schedule was played but for what is left. */
    ghost predicate Valid()
      reads this
    {
      Reached(threads, maxQueueSize, Now(), schedule, left, trace)
    }

    /** The pool when Start has returned, with these workers. */
    constructor (threads: set<Tid>, maxQueueSize: nat, schedule: Schedule)
      ensures Valid() && this.threads == threads && this.maxQueueSize == maxQueueSize && trace == [] && running
      ensures this.schedule == schedule && left == |schedule|
    {
      this.threads, this.maxQueueSize, this.schedule := threads, maxQueueSize, schedule;
      left := |schedule|;
      var s := Started(threads, maxQueueSize);
      mutex, jobs, queue, running, stopper, log := s.m, s.jobs, s.queue, s.running, s.stopper, s.log;
      trace := [];
      new;
      StartedInv(threads, maxQueueSize);
    }

    /** One step of any thread. */
    method Happens(a: Action)
      requires Valid() && Enabled(Now(), a)
      modifies this`mutex, this`jobs, this`queue, this`running, this`stopper, this`log, this`trace
      ensures Valid() && Now() == After(old(Now()), a) && trace == old(trace) + [Own(a)]
    {
      hide Reached, After, Enabled;
      Extended(threads, maxQueueSize, Now(), schedule, left, trace, a);
      var s := After(Now(), a);
      mutex, jobs, queue, running, stopper, log := s.m, s.jobs, s.queue, s.running, s.stopper, s.log;
      trace := trace + [Own(a)];
      assert Now() == s;
    }

    lemma ValidMeansInv()
      requires Valid()
      ensures Inv(Now())
    {
    }

    /** The other threads go on, as the schedule says. */
    method Others(t: Tid)
      requires Valid() && t in jobs
      modifies this
      ensures Valid() && left <= old(left) && Undisturbed(old(Now()), Now(), t)
      ensures if old(left) == 0 then left == 0 && Now() == old(Now()) && trace == old(trace)
              else left == old(left) - 1 && Now() == TheirTurn(old(Now()), t, schedule[|schedule| - left - 1])
                   && trace == old(trace) + [Rivals(t, schedule[|schedule| - left - 1])]
    {
      hide Reached, After, Enabled, TheirTurn, Undisturbed;
      BeforeTurn(threads, maxQueueSize, Now(), schedule, left, trace, t);
      if left == 0 { return; }
      var batch := schedule[|schedule| - left];
      var s := TheirTurn(Now(), t, batch);
      RivalsPlay(threads, maxQueueSize, Now(), schedule, left, trace, t);
      mutex, jobs, queue, running, stopper, log := s.m, s.jobs, s.queue, s.running, s.stopper, s.log;
      trace, left := trace + [Rivals(t, batch)], left - 1;
      assert Now() == s;
    }

    /** The others go on while t is outside the block. */
    method Rest(t: Tid, job: Job)
      requires Valid() && At(Now(), t, job)
      modifies this
      ensures Valid() && left <= old(left) && At(Now(), t, job) && Follows(old(trace), trace)
      ensures running ==> old(running)
      ensures old(left) > 0 ==> left < old(left)
      ensures left < old(left) || (queue == old(queue) && running == old(running))
    {
      if left > 0 {
        ghost var s := Now();
        Others(t);
        StaysAt(s, Here(), t, job);
      }
    }

    // ---------- Mutex and Condition, as thread t goes through them ----------

    /** One passage of t through the monitor; after it the others go on. */
    method Pass(t: Tid, move: Move, ghost start: Mark)
      requires Valid() && Waits(start, Here(), t)
      requires Enabled(Now(), Step(t, move)) && !move.Wake? && !move.Act? && !move.ActQuietly? && !move.Unlock?
      modifies this
      ensures Valid() && left <= old(left) && Waits(start, Here(), t)
      ensures Passes(old(Here()), Here(), t, old(Dest(mutex.at[t], mutex.role[t], move)))
      ensures left < old(left)
              || (mutex.at[t] == old(Dest(mutex.at[t], mutex.role[t], move))
                  && queue == old(queue) && running == old(running))
      ensures Follows(old(trace) + [Own(Step(t, move))], trace)
    {
      ghost var before := Here();
      hide Reached, Inv, Moved, TheirTurn, Undisturbed, SameRecord;
      ValidMeansInv();
      Shift(t, move);
      ghost var mid := Now();
      Others(t);
      ValidMeansInv();
      PassesOn(before, mid, Here(), t, move);
      WaitsOn(start, before, Here(), t);
    }

    method Shift(t: Tid, move: Move)
      requires Valid() && t in jobs
      requires Enabled(Now(), Step(t, move)) && !move.Wake? && !move.Act? && !move.ActQuietly? && !move.Unlock?
      modifies this`mutex, this`trace
      ensures Valid() && trace == old(trace) + [Own(Step(t, move))] && mutex == old(Moved(mutex, t, move))
      ensures t in mutex.at && mutex.at[t] == old(Dest(mutex.at[t], mutex.role[t], move))
    {
      MoveTouches(mutex, t, move);
      Extended(threads, maxQueueSize, Now(), schedule, left, trace, Step(t, move));
      mutex := Moved(mutex, t, move);
      trace := trace + [Own(Step(t, move))];
      assert Now() == After(old(Now()), Step(t, move));
    }

    /** The others go on while t waits. */
    method Idle(t: Tid, ghost start: Mark)
      requires Valid() && Waits(start, Here(), t) && left > 0
      modifies this
      ensures Valid() && left < old(left) && Waits(start, Here(), t)
      ensures old(mutex.at[t].Outside?) ==> mutex.at[t].Outside?
      ensures old(mutex.at[t].Sleeping? || mutex.at[t].Woken?) ==> mutex.at[t].Sleeping? || mutex.at[t].Woken?
      ensures running ==> old(running)
    {
      ghost var before := Here();
      Others(t);
      Leaves(before, Here(), t);
      WaitsOn(start, before, Here(), t);
    }

    /** Lock of mutex_; it fails if the schedule ends before the mutex is free. */
    method Lock(t: Tid, ghost start: Mark) returns (ok: bool)
      requires Valid() && Waits(start, Here(), t) && mutex.at[t] == Outside
      requires jobs[t].Taking? || jobs[t].Caller? || jobs[t].Stopper?
      modifies this
      ensures Valid() && left <= old(left) && Waits(start, Here(), t)
      ensures ok ==> mutex.owner == t && mutex.at[t] == Inside(Check)
      ensures !ok ==> left == 0 && HeldUp(mutex, t)
      ensures left < old(left) || (queue == old(queue) && running == old(running))
    {
      hide Inv, AreTurns, Replay, Played, SameRecord, Follows;
      if left > 0 { Idle(t, start); }
      while mutex.owner != 0
        invariant Valid() && left <= old(left) && Waits(start, Here(), t)
        invariant mutex.at[t] == Outside
        invariant left < old(left) || (queue == old(queue) && running == old(running))
        decreases left
      {
        if left == 0 {
          Excluded(Now(), t);
          return false;
        }
        Idle(t, start);
      }
      Pass(t, Acquire, start);
      Pass(t, Assign, start);
      ok := true;
    }

    /** Wait of the condition of t; it fails if the schedule ends before t is woken and the mutex is free. */
    method Wait(t: Tid, ghost start: Mark) returns (ok: bool)
      requires Valid() && Waits(start, Here(), t)
      requires mutex.owner == t && mutex.at[t] == Inside(Check) && Blocked(Now(), jobs[t])
      modifies this
      ensures Valid() && left <= old(left) && Waits(start, Here(), t)
      ensures ok ==> left < old(left) && mutex.owner == t && mutex.at[t] == Inside(Check)
      ensures !ok ==> left == 0 && HeldUp(mutex, t)
    {
      hide *;
      FallAsleep(t, start);
      ok := AwaitMutex(t, start);
      if ok { ComeBack(t, start); }
    }

    /** UnAssignHolder by the UnGuard, and the release of the mutex in pthread_cond_wait. */
    method FallAsleep(t: Tid, ghost start: Mark)
      requires Valid() && Waits(start, Here(), t)
      requires mutex.owner == t && mutex.at[t] == Inside(Check) && Blocked(Now(), jobs[t])
      modifies this
      ensures Valid() && left <= old(left) && Waits(start, Here(), t)
      ensures mutex.at[t].Sleeping? || mutex.at[t].Woken?
      ensures left < old(left) || mutex.at[t].Sleeping?
    {
      hide Inv, AreTurns, Replay, Played, SameRecord, Follows;
      Pass(t, BeginWait, start);
      Pass(t, Sleep, start);
    }

    /** In pthread_cond_wait, up to the moment when t is woken and the mutex is free. */
    method AwaitMutex(t: Tid, ghost start: Mark) returns (ok: bool)
      requires Valid() && Waits(start, Here(), t) && (mutex.at[t].Sleeping? || mutex.at[t].Woken?)
      modifies this
      ensures Valid() && left <= old(left) && Waits(start, Here(), t)
      ensures mutex.at[t].Sleeping? || mutex.at[t].Woken?
      ensures left < old(left) || mutex.at[t] == old(mutex.at[t])
      ensures if ok then mutex.at[t].Woken? && mutex.owner == 0 else left == 0 && HeldUp(mutex, t)
    {
      hide Inv, AreTurns, Replay, Played, SameRecord, Follows;
      while !mutex.at[t].Woken? || mutex.owner != 0
        invariant Valid() && Waits(start, Here(), t) && (mutex.at[t].Sleeping? || mutex.at[t].Woken?)
        invariant left < old(left) || (left == old(left) && mutex.at[t] == old(mutex.at[t]))
        decreases left
      {
        if left == 0 {
          Excluded(Now(), t);
          return false;
        }
        Idle(t, start);
      }
      ok := true;
    }

    /** The mutex taken again in pthread_cond_wait, and AssignHolder by the UnGuard. */
    method ComeBack(t: Tid, ghost start: Mark)
      requires Valid() && Waits(start, Here(), t) && mutex.at[t].Woken? && mutex.owner == 0
      modifies this
      ensures Valid() && left <= old(left) && Waits(start, Here(), t)
      ensures mutex.owner == t && mutex.at[t] == Inside(Check)
    {
      hide Inv, AreTurns, Replay, Played, SameRecord, Follows;
      Pass(t, Relock, start);
      Pass(t, Reassign, start);
    }

    /** Those that pthread_cond_signal wakes: at least one, if any sleeps. */
    method Signalled(c: Cond) returns (who: set<Tid>)
      ensures MayWake(mutex, c, who)
    {
      who := Asleep(mutex, c);
    }

    /** Notify of the condition of t: one sleeper at least, if any sleeps; NotifyAll in Stop. */
    method Signal(t: Tid, ghost start: Mark) returns (who: set<Tid>)
      requires Valid() && Waits(start, Here(), t) && mutex.owner == t && mutex.at[t] == Inside(Point.Signal)
      modifies this
      ensures Valid() && left <= old(left) && Waits(start, Here(), t)
      ensures mutex.owner == t && mutex.at[t] == Inside(Exit)
      ensures MayWake(old(mutex), old(mutex.role[t].signals), who)
      ensures Follows(old(trace) + [Own(Step(t, Notify(who)))], trace)
      ensures old(jobs[t].Stopper?) ==> who == Asleep(old(mutex), NotEmpty)
      ensures left < old(left) || (queue == old(queue) && running == old(running))
    {
      hide Inv, AreTurns, Replay, Played, SameRecord, Follows, Asleep;
      if jobs[t].Stopper? {
        who := Asleep(mutex, NotEmpty);
      } else {
        who := Signalled(mutex.role[t].signals);
      }
      Pass(t, Notify(who), start);
    }

    /** UnLock of mutex_, at the end of the guarded block. */
    method UnLock(t: Tid, ghost start: Mark)
      requires Valid() && Waits(start, Here(), t) && mutex.owner == t && mutex.at[t] == Inside(Exit)
      modifies this
      ensures Valid() && left <= old(left) && Leaving(start, Here(), t)
      ensures left < old(left) || (queue == old(queue) && running == old(running))
    {
      hide Inv, AreTurns, Replay, Played, SameRecord, Follows, Leaving;
      Pass(t, Unassign, start);
      LeavesBlock(start, Here(), t);
      Happens(Step(t, Unlock));
    }

    // ---------- The actions ----------

    /** A thread arrives with a call of Run or Stop. */
    method Enter(t: Tid, a: Action)
      requires Valid() && t !in jobs && a.t == t && ((a.Run? && threads != {}) || (a.Stop? && stopper == 0))
      modifies this`mutex, this`jobs, this`stopper, this`trace
      ensures Valid() && trace == old(trace) + [Own(a)]
      ensures Waits(Here(), Here(), t) && At(Now(), t, if a.Run? then Caller(a.task) else Stopper)
    {
      ghost var s := Now();
      Extended(threads, maxQueueSize, Now(), schedule, left, trace, a);
      var job := if a.Run? then Caller(a.task) else Stopper;
      mutex, jobs := Joined(mutex, t, RoleOf(job)), jobs[t := job];
      if a.Stop? { stopper := t; }
      trace := trace + [Own(a)];
      assert Now() == After(s, a);
    }

    /** queue_.push_back(std::move(t)) */
    method Push(t: Tid, task: Task)
      requires Valid() && t in jobs && jobs[t] == Caller(task) && Enabled(Now(), Step(t, Act))
      modifies this`mutex, this`queue, this`log, this`trace
      ensures Valid() && trace == old(trace) + [Own(Step(t, Act))] && Now() == After(old(Now()), Step(t, Act))
    {
      hide After, Enabled, Reached, Moved, Acted;
      Extended(threads, maxQueueSize, Now(), schedule, left, trace, Step(t, Act));
      ActIs(Now(), t, Act);
      queue, log := queue + [task], log.(queued := log.queued + [(t, task)]);
      mutex := Moved(mutex, t, Act);
      trace := trace + [Own(Step(t, Act))];
    }

    /** running_ = false */
    method Close(t: Tid)
      requires Valid() && t in jobs && jobs[t].Stopper? && Enabled(Now(), Step(t, Act))
      modifies this`mutex, this`running, this`trace
      ensures Valid() && trace == old(trace) + [Own(Step(t, Act))] && Now() == After(old(Now()), Step(t, Act))
    {
      Extended(threads, maxQueueSize, Now(), schedule, left, trace, Step(t, Act));
      running := false;
      mutex := Moved(mutex, t, Act);
      trace := trace + [Own(Step(t, Act))];
      assert Now() == After(old(Now()), Step(t, Act));
    }

    /** task = queue_.front() and queue_.pop_front() */
    method PopFront(t: Tid, move: Move) returns (task: Task)
      requires Valid() && t in jobs && jobs[t].Taking? && Enabled(Now(), Step(t, move))
      requires (move.Act? || move.ActQuietly?) && queue != []
      modifies this`mutex, this`queue, this`jobs, this`log, this`trace
      ensures Valid() && trace == old(trace) + [Own(Step(t, move))] && Now() == After(old(Now()), Step(t, move))
      ensures task == old(queue[0]) && queue == old(queue)[1..] && running == old(running)
    {
      hide After, Enabled, Reached, Moved, Acted;
      Extended(threads, maxQueueSize, Now(), schedule, left, trace, Step(t, move));
      ActIs(Now(), t, move);
      task := queue[0];
      queue, jobs, log := queue[1..], jobs[t := Took(task)], log.(taken := log.taken + [(t, task)]);
      mutex := Moved(mutex, t, move);
      trace := trace + [Own(Step(t, move))];
    }

    /** Take finds the queue empty. */
    method PopNothing(t: Tid)
      requires Valid() && t in jobs && jobs[t].Taking? && Enabled(Now(), Step(t, ActQuietly)) && queue == []
      modifies this`mutex, this`jobs, this`trace
      ensures Valid() && trace == old(trace) + [Own(Step(t, ActQuietly))]
      ensures Now() == After(old(Now()), Step(t, ActQuietly))
    {
      hide After, Enabled, Reached, Moved, Acted;
      Extended(threads, maxQueueSize, Now(), schedule, left, trace, Step(t, ActQuietly));
      ActIs(Now(), t, ActQuietly);
      jobs := jobs[t := Took(Null)];
      mutex := Moved(mutex, t, ActQuietly);
      trace := trace + [Own(Step(t, ActQuietly))];
    }

    /** The others go on after the action of t. */
    method Settle(t: Tid, move: Move, ghost before: Mark)
      requires Valid() && Inv(before.s) && t in before.s.jobs && Enabled(before.s, Step(t, move))
      requires move.Act? || move.ActQuietly?
      requires Now() == After(before.s, Step(t, move)) && trace == before.trace + [Own(Step(t, move))]
      modifies this
      ensures Valid() && left <= old(left) && Acts(before, Here(), t, move)
      ensures left < old(left) || (queue == old(queue) && running == old(running))
    {
      ghost var mid := Now();
      ActAlone(before.s, t, move);
      hide After, Enabled, Inv, Reached, Acts, Grew;
      Others(t);
      ValidMeansInv();
      Present(Here(), t);
      ActsOn(before, mid, Here(), t, move);
    }

    // ---------- Run ----------

    /** IsFull, with its mutex_.AssertLocked(). */
    method Full(t: Tid) returns (full: bool)
      requires Valid() && t in jobs && t in mutex.at && jobs[t].Caller?
      requires mutex.at[t] == Inside(Check) || mutex.at[t] == Inside(Ready)
      ensures full == IsFull(Now())
      ensures mutex.at[t] == Inside(Ready) ==> !full
    {
      AssertionsHold(Now(), t);
      assert IsLockedBy(mutex, t);
      full := maxQueueSize > 0 && |queue| >= maxQueueSize;
    }

    /** The loop of Run has ended: the assertion, push_back, Notify, and the return. */
    method PushAndReturn(t: Tid, task: Task)
      requires Valid() && Waits(Here(), Here(), t) && jobs[t] == Caller(task)
      requires mutex.owner == t && mutex.at[t] == Inside(Check) && !IsFull(Now())
      modifies this
      ensures Valid() && left <= old(left) && Done(old(Here()), Here(), t, [task], [])
    {
      hide Reached, Inv, Moved, Acted, After, Grew, SameRecord;
      ghost var before := Here();
      Pass(t, Move.Pass, before);
      var full := Full(t);
      assert !full;
      ghost var ready := Here();
      ValidMeansInv();
      Push(t, task);
      Settle(t, Act, ready);
      ghost var acted := Here();
      Leave(t, true);
      hide *;
      DoneFrom(before, ready, acted, Here(), t, [task], []);
    }

    /** Notify, if there is to be one, and UnLock. */
    method Leave(t: Tid, notify: bool)
      requires Valid() && Waits(Here(), Here(), t) && mutex.owner == t
      requires mutex.at[t] == if notify then Inside(Point.Signal) else Inside(Exit)
      modifies this
      ensures Valid() && left <= old(left) && Leaving(old(Here()), Here(), t)
      ensures left < old(left) || (queue == old(queue) && running == old(running))
    {
      ghost var acted := Here();
      hide Inv, AreTurns, Replay, Played, SameRecord, Follows, Leaving;
      if notify { var who := Signal(t, acted); }
      UnLock(t, acted);
    }

    method RunBody(t: Tid, task: Task) returns (done: bool)
      requires Valid() && Waits(Here(), Here(), t) && jobs[t] == Caller(task) && mutex.at[t] == Outside
      modifies this
      ensures Valid() && left <= old(left)
      ensures if done then Done(old(Here()), Here(), t, [task], []) else Waits(old(Here()), Here(), t)
      ensures !done ==> left == 0 && HeldUp(mutex, t)
    {
      ghost var start := Here();
      hide Inv, AreTurns, Replay, Played, Done, SameRecord, Follows;
      done := Lock(t, start);
      if !done { return; }
      var full := Full(t);
      while full
        invariant Valid() && left <= old(left) && Waits(start, Here(), t)
        invariant mutex.owner == t && mutex.at[t] == Inside(Check) && full == IsFull(Now())
        decreases left
      {
        done := Wait(t, start);
        if !done { return; }
        full := Full(t);
      }
      ghost var before := Here();
      StillWaits(start, before, t);
      PushAndReturn(t, task);
      DoneLater(start, before, Here(), t, [task], []);
      done := true;
    }

    /**
      Run.  When it returns the task is the one that t has queued, or, without workers, has
      run; when the schedule ends before that, t still waits and has queued nothing.
    */
    method Run(t: Tid, task: Task) returns (done: bool)
      requires Valid() && t !in jobs
      modifies this
      ensures Valid() && left <= old(left) && old(trace) < trace
      ensures Of(log.queued, t) == old(Of(log.queued, t)) + if done && threads != {} then [task] else []
      ensures Of(log.inline, t) == old(Of(log.inline, t)) + if threads == {} && task.Work? then [task] else []
      ensures if done then t !in jobs else t in jobs && jobs[t] == Caller(task)
      ensures !done ==> left == 0 && HeldUp(mutex, t)
    {
      hide Inv, AreTurns, Replay, Played, Started, Of, Moved;
      if threads == {} {
        Inline(t, task);
        done := true;
      } else {
        Enter(t, Action.Run(t, task));
        done := RunBody(t, task);
      }
    }

    method Inline(t: Tid, task: Task)
      requires Valid() && t !in jobs && threads == {}
      modifies this`log, this`trace
      ensures Valid() && old(trace) < trace
      ensures log.queued == old(log.queued)
      ensures Of(log.inline, t) == old(Of(log.inline, t)) + if task.Work? then [task] else []
    {
      Extended(threads, maxQueueSize, Now(), schedule, left, trace, Action.Run(t, task));
      if task.Work? {
        Appended(log.inline, t, task);
        log := log.(inline := log.inline + [(t, task)]);
      }
      trace := trace + [Own(Action.Run(t, task))];
      assert Now() == After(old(Now()), Action.Run(t, task));
    }

    // ---------- Stop ----------

    /** running_ = false in the block; after it the others go on. */
    method CloseInBlock(t: Tid, ghost start: Mark)
      requires Valid() && Waits(start, Here(), t) && jobs[t].Stopper?
      requires mutex.owner == t && mutex.at[t] == Inside(Check)
      modifies this
      ensures Valid() && left <= old(left) && Waits(Here(), Here(), t) && jobs[t].Stopper? && !running
      ensures mutex.owner == t && mutex.at[t] == Inside(Point.Signal) && Follows(start.trace, trace)
    {
      hide Reached, Inv, Moved, Acted, After, Grew, SameRecord;
      Pass(t, Move.Pass, start);
      ghost var ready := Here();
      ValidMeansInv();
      Close(t);
      Settle(t, Act, ready);
    }

    /** running_ = false and NotifyAll under the lock. */
    method StopBody(t: Tid) returns (done: bool)
      requires Valid() && Waits(Here(), Here(), t) && jobs[t].Stopper? && mutex.at[t] == Outside
      modifies this
      ensures Valid() && left <= old(left) && Follows(old(trace), trace)
      ensures if done then !running && At(Now(), t, Joining) else t in jobs && jobs[t].Stopper?
      ensures !done ==> left == 0 && HeldUp(mutex, t)
    {
      ghost var start := Here();
      hide Inv, AreTurns, Replay, Played, SameRecord;
      done := Lock(t, start);
      if !done { return; }
      CloseInBlock(t, start);
      Leave(t, true);
    }

    /** A step of t outside the block; after it the others go on. */
    method Go(t: Tid, a: Action)
      requires Valid() && a.t == t && (a.Loop? || a.Execute?) && Enabled(Now(), a)
      modifies this
      ensures Valid() && left <= old(left) && (old(left) > 0 ==> left < old(left))
      ensures Goes(old(Here()), Here(), t, a)
      ensures left < old(left) || (queue == old(queue) && running == old(running))
    {
      ghost var before := Here();
      hide Reached, Inv, After, Enabled, Of, Grew, SameRecord, Undisturbed;
      ValidMeansInv();
      Happens(a);
      GoAlone(before.s, a);
      ghost var mid := Now();
      Others(t);
      ValidMeansInv();
      GoesOn(before, mid, Here(), t, a);
    }

    /**
      Stop.  When it returns the pool does not run and all its workers have exited; when the
      schedule ends before that, t still waits for the mutex or for the workers.
    */
    method Stop(t: Tid) returns (done: bool)
      requires Valid() && t !in jobs && stopper == 0
      modifies this
      ensures Valid() && left <= old(left) && old(trace) < trace
      ensures if done then !running && AllExited(Now()) && t !in jobs
              else left == 0 && t in jobs && (HeldUp(mutex, t) || (jobs[t].Joining? && !AllExited(Now())))
    {
      hide Inv, AreTurns, Replay, Played, Started, Moved, SameRecord;
      Enter(t, Action.Stop(t));
      done := StopBody(t);
      if !done { return; }
      done := Joins(t);
    }

    /** for (auto& thread : threads_) thread->Join() */
    method Joins(t: Tid) returns (done: bool)
      requires Valid() && At(Now(), t, Joining)
      modifies this
      ensures Valid() && left <= old(left) && Follows(old(trace), trace) && (running ==> old(running))
      ensures if done then AllExited(Now()) && t !in jobs
              else left == 0 && At(Now(), t, Joining) && !AllExited(Now())
    {
      hide Inv, AreTurns, Replay, Played, Started, AllExited;
      Rest(t, Joining);
      while !AllExited(Now())
        invariant Valid() && left <= old(left) && Follows(old(trace), trace)
        invariant (running ==> old(running)) && At(Now(), t, Joining)
        decreases left
      {
        if left == 0 { return false; }
        Rest(t, Joining);
      }
      JoinReturns(Here(), t);
      Happens(Action.Join(t));
      done := true;
    }

    // ---------- The workers ----------

    /** The first task, if there is one, in the block; after it the others go on. */
    method PopInBlock(w: Tid) returns (task: Task, move: Move)
      requires Valid() && Waits(Here(), Here(), w) && jobs[w].Taking?
      requires mutex.owner == w && mutex.at[w] == Inside(Ready)
      modifies this
      ensures Valid() && left <= old(left)
      ensures (move.Act? || move.ActQuietly?) && Acts(old(Here()), Here(), w, move)
      ensures task == if old(queue) == [] then Null else old(queue[0])
      ensures left < old(left) || (queue == old(queue)[|Front(old(queue))|..] && running == old(running))
    {
      hide Reached, Inv, Moved, Acted, After, Grew, SameRecord;
      ValidMeansInv();
      ghost var ready := Here();
      move := if queue != [] && maxQueueSize > 0 then Act else ActQuietly;
      task := Null;
      if queue != [] {
        task := PopFront(w, move);
      } else {
        PopNothing(w);
      }
      Settle(w, move, ready);
    }

    /** The loop of Take has ended: the first task, if there is one, Notify of a bounded pool, and the return. */
    method PopAndReturn(w: Tid) returns (task: Task, ghost taken: seq<Task>)
      requires Valid() && Waits(Here(), Here(), w) && jobs[w].Taking?
      requires mutex.owner == w && mutex.at[w] == Inside(Check) && (queue != [] || !running)
      modifies this
      ensures Valid() && left <= old(left)
      ensures taken == Front(old(queue)) && task == (if taken == [] then Null else taken[0])
      ensures Done(old(Here()), Here(), w, [], taken) && (running ==> old(running))
      ensures left < old(left) || (queue == old(queue)[|taken|..] && running == old(running))
    {
      hide Inv, AreTurns, Replay, Played, Grew, SameRecord, Follows;
      ghost var before := Here();
      Pass(w, Move.Pass, before);
      ghost var ready := Here();
      taken := Front(queue);
      StillWaits(before, ready, w);
      var move;
      task, move := PopInBlock(w);
      ghost var acted := Here();
      Leave(w, move.Act?);
      DoneFrom(before, ready, acted, Here(), w, [], taken);
    }

    /**
      Take.  When it returns the worker has taken the task, or the pool does not run and
      there was none; when the schedule ends before that, it still waits.
    */
    method Take(w: Tid) returns (ok: bool, task: Task, ghost taken: seq<Task>)
      requires Valid() && At(Now(), w, Taking) && Waits(Here(), Here(), w)
      modifies this
      ensures Valid() && left <= old(left) && |taken| <= 1 && (running ==> old(running))
      ensures ok ==> task == (if taken == [] then Null else taken[0]) && (taken == [] ==> !running)
      ensures if ok then Done(old(Here()), Here(), w, [], taken) else Waits(old(Here()), Here(), w)
      ensures !ok ==> left == 0 && HeldUp(mutex, w)
      ensures ok ==> left < old(left) || |queue| < old(|queue|) || !running
    {
      ghost var start := Here();
      hide Inv, AreTurns, Replay, Played, Done, SameRecord, Follows, Front;
      task, taken := Null, [];
      ok := Lock(w, start);
      if !ok { return; }
      while queue == [] && running
        invariant Valid() && Waits(start, Here(), w) && left <= old(left)
        invariant mutex.owner == w && mutex.at[w] == Inside(Check)
        invariant left < old(left) || queue == old(queue)
        decreases left
      {
        ok := Wait(w, start);
        if !ok { return; }
      }
      ghost var before := Here();
      StillWaits(start, before, w);
      task, taken := PopAndReturn(w);
      FrontIsOne(before.s.queue);
      DoneLater(start, before, Here(), w, [], taken);
    }

    /**
      RunInThread.  A worker ends only when the pool does not run any more, and has then run
      every task that it took; when the schedule ends before that, it is held up in Take,
      and has run every task that it took.
    */
    method RunInThread(w: Tid) returns (ok: bool)
      requires Valid() && At(Now(), w, Head)
      modifies this
      ensures Valid() && left <= old(left) && Follows(old(trace), trace)
      ensures w in jobs && if ok then jobs[w].Exited? && !running else jobs[w].Taking?
      ensures !ok ==> left == 0 && HeldUp(mutex, w)
      ensures Of(Works(log.taken), w) == Of(log.ran, w)
    {
      hide Inv, Reached, SameRecord, Of, Works, Grew;
      ok := true;
      Rest(w, Head);
      while running
        invariant ok && Valid() && left <= old(left) && Follows(old(trace), trace) && At(Now(), w, Head)
        decreases left, running, |queue|
      {
        ok := Round(w);
        if !ok { break; }
      }
      if ok { Go(w, Loop(w)); }
      ValidMeansInv();
      NothingLeft(Now(), w);
    }

    /** One round of the loop: Take, and the task. */
    method Round(w: Tid) returns (ok: bool)
      requires Valid() && At(Now(), w, Head) && running
      modifies this
      ensures Valid() && left <= old(left) && Follows(old(trace), trace)
      ensures if ok then At(Now(), w, Head) else w in jobs && jobs[w].Taking? && left == 0 && HeldUp(mutex, w)
      ensures ok ==> left < old(left) || !running || |queue| < |old(queue)|
    {
      hide Inv, Reached, SameRecord, Of, Works, Grew;
      Go(w, Loop(w));
      ValidMeansInv();
      Present(Here(), w);
      var task; ghost var taken;
      ok, task, taken := Take(w);
      if !ok { return; }
      Rest(w, Took(task));
      Go(w, Execute(w));
    }
  }
}
