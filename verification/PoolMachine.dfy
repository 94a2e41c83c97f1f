/**
  ThreadPool of qingyi/util/thread_pool_.cc as a state machine: the workers of Start, any
  number of threads that call Run, and one that calls Stop, in any interleaving.
*/
module PoolMachine {
  import opened Monitor
  import opened History

  /** An empty std::function is Null. */
  datatype Task = Null | Work(id: nat)

  datatype Job =
    | Head               // a worker before `while (running_)`
    | Taking             // a worker in Take
    | Took(task: Task)   // a worker with the task that it has taken, in Take and after it
    | Exited             // a worker whose thread function has returned
    | Caller(task: Task) // a thread in Run
    | Stopper            // the thread in the guarded block of Stop
    | Joining            // the thread in the joins of Stop

  datatype State = State(
    m: Mutex, jobs: map<Tid, Job>, queue: seq<Task>, running: bool,
    max: nat,             // max_queue_size_
    workers: set<Tid>,    // threads_
    stopper: int,         // the thread that has called Stop, or 0
    log: Log)

  /** Who queued, took and ran what, and who ran what in Run itself, in the order of these steps. */
  datatype Log = Log(queued: seq<(Tid, Task)>, taken: seq<(Tid, Task)>, ran: seq<(Tid, Task)>, inline: seq<(Tid, Task)>)

  datatype Action =
    | Run(t: Tid, task: Task)  // a thread calls Run
    | Stop(t: Tid)             // a thread calls Stop
    | Loop(t: Tid)             // a worker reads running_ before it takes
    | Execute(t: Tid)          // a worker runs its task to the end, if there is one
    | Join(t: Tid)             // the joins of Stop return
    | Step(t: Tid, move: Move)

  /** The pool when Start has returned. */
  function Started(workers: set<Tid>, max: nat): State {
    State(Mutex(0, 0, map t | t in workers :: Outside, map t | t in workers :: Role(NotEmpty, NotFull)),
          map t | t in workers :: Head, [], true, max, workers, 0, Log([], [], [], []))
  }

  // ---------- Steps ----------

  function RoleOf(job: Job): Role {
    match job
    case Caller(_) => Role(NotFull, NotEmpty)
    case Stopper => Role(Never, NotEmpty)
    case Joining => Role(Never, NotEmpty)
    case _ => Role(NotEmpty, NotFull)
  }

  predicate IsFull(s: State) {
    s.max > 0 && |s.queue| >= s.max
  }

  /** What the wait loops of Run and of Take look at. */
  datatype Gate = Gate(full: bool, empty: bool, running: bool)

  function GateOf(s: State): Gate {
    Gate(IsFull(s), s.queue == [], s.running)
  }

  /** The condition of the wait loop. */
  predicate Holds(gate: Gate, job: Job) {
    match job
    case Caller(_) => gate.full
    case Taking => gate.empty && gate.running
    case _ => false
  }

  predicate Blocked(s: State, job: Job) {
    Holds(GateOf(s), job)
  }

  predicate Enabled(s: State, a: Action) {
    match a
    case Run(t, task) => t !in s.m.at && t !in s.jobs
    case Stop(t) => t !in s.m.at && t !in s.jobs && s.stopper == 0
    case Loop(t) => t in s.jobs && s.jobs[t].Head?
    case Execute(t) => t in s.jobs && s.jobs[t].Took? && t in s.m.at && s.m.at[t].Outside?
    case Join(t) => t in s.jobs && s.jobs[t].Joining? && AllExited(s)
    case Step(t, move) => CanMove(s.m, t, move) && t in s.jobs && Guard(s, s.jobs[t], move)
  }

  predicate AllExited(s: State) {
    forall w :: w in s.workers ==> w in s.jobs && s.jobs[w].Exited?
  }

  /** What the code of the job asks for; a Stop notifies all, a Take only of a bounded queue. */
  predicate Guard(s: State, job: Job, move: Move) {
    match move
    case Acquire => job.Taking? || job.Caller? || job.Stopper?
    case Pass => !Blocked(s, job)
    case BeginWait => Blocked(s, job)
    case Act => job.Caller? || job.Stopper? || (job.Taking? && s.queue != [] && s.max > 0)
    case ActQuietly => job.Taking? && (s.queue == [] || s.max == 0)
    case Notify(who) => job.Stopper? ==> who == Asleep(s.m, NotEmpty)
    case _ => true
  }

  function After(s: State, a: Action): State
    requires Enabled(s, a)
  {
    match a
    case Run(t, task) => if s.workers == {} then RanInline(s, t, task) else Arrived(s, t, Caller(task))
    case Stop(t) => Arrived(s, t, Stopper).(stopper := t)
    case Loop(t) => s.(jobs := s.jobs[t := if s.running then Taking else Exited])
    case Execute(t) => Executed(s, t)
    case Join(t) => Departed(s, t)
    case Step(t, move) =>
      var m := Moved(s.m, t, move);
      if move.Act? || move.ActQuietly? then Acted(s, t).(m := m)
      else if move.Unlock? then Ended(s.(m := m), t)
      else s.(m := m)
  }

  function Arrived(s: State, t: Tid, job: Job): State {
    s.(m := Joined(s.m, t, RoleOf(job)), jobs := s.jobs[t := job])
  }

  function Departed(s: State, t: Tid): State {
    s.(m := Left(s.m, t), jobs := s.jobs - {t})
  }

  /** Without workers Run calls the task; an empty std::function throws and changes nothing. */
  function RanInline(s: State, t: Tid, task: Task): State {
    if task.Work? then s.(log := s.log.(inline := s.log.inline + [(t, task)])) else s
  }

  /** Run returns, Stop goes on to the joins, Take returns to the worker. */
  function Ended(s: State, t: Tid): State
    requires t in s.jobs
  {
    match s.jobs[t]
    case Caller(_) => Departed(s, t)
    case Stopper => s.(jobs := s.jobs[t := Joining])
    case _ => s
  }

  function Executed(s: State, t: Tid): State
    requires t in s.jobs && s.jobs[t].Took?
  {
    var task := s.jobs[t].task;
    s.(jobs := s.jobs[t := Head], log := if task.Work? then s.log.(ran := s.log.ran + [(t, task)]) else s.log)
  }

  /** push_back in Run; front and pop_front in Take, of a queue that is not empty; running_ = false in Stop. */
  function Acted(s: State, t: Tid): State
    requires t in s.jobs
  {
    match s.jobs[t]
    case Caller(task) => Pushed(s, t, task)
    case Stopper => s.(running := false)
    case _ => Popped(s, t)
  }

  function Pushed(s: State, t: Tid, task: Task): State {
    s.(queue := s.queue + [task], log := s.log.(queued := s.log.queued + [(t, task)]))
  }

  function Popped(s: State, t: Tid): State {
    if s.queue == [] then s.(jobs := s.jobs[t := Took(Null)])
    else
      var task := s.queue[0];
      s.(queue := s.queue[1..], jobs := s.jobs[t := Took(task)], log := s.log.(taken := s.log.taken + [(t, task)]))
  }

  // ---------- The invariant: who is where ----------

  predicate IsWorker(job: Job) {
    job.Head? || job.Taking? || job.Took? || job.Exited?
  }

  /** What is true of a job at its place in the code. */
  predicate Fits(place: Place, job: Job, blocked: bool, running: bool) {
    && (job.Head? || job.Exited? || job.Joining? ==> place.Outside?)
    && (job.Exited? || job.Joining? ==> !running)
    && (job.Took? ==> place.Outside? || Finishing(place))
    && (job.Taking? ==> !Finishing(place))
    && (job.Stopper? ==> !place.Waiting? && !place.Sleeping? && !place.Woken? && !place.Back?)
    && (job.Stopper? && Finishing(place) ==> !running)
    && (place == Inside(Ready) ==> !blocked)
    && (place.Waiting? ==> blocked)
  }

  predicate Settled(m: Mutex, jobs: map<Tid, Job>, workers: set<Tid>, gate: Gate, t: Tid)
    requires t in jobs && t in m.at && t in m.role
  {
    && m.role[t] == RoleOf(jobs[t])
    && (t in workers <==> IsWorker(jobs[t]))
    && Fits(m.at[t], jobs[t], Holds(gate, jobs[t]), gate.running)
  }

  predicate AllSettled(m: Mutex, jobs: map<Tid, Job>, workers: set<Tid>, gate: Gate) {
    && jobs.Keys == m.at.Keys && jobs.Keys == m.role.Keys
    && (forall t {:trigger Settled(m, jobs, workers, gate, t)} :: t in jobs ==> Settled(m, jobs, workers, gate, t))
  }

  predicate Tidy(s: State) {
    && Sound(s.m)
    && AllSettled(s.m, s.jobs, s.workers, GateOf(s))
    && s.workers <= s.jobs.Keys
    && (s.max > 0 ==> |s.queue| <= s.max)
    && (s.running && s.stopper != 0 ==> s.stopper in s.jobs && s.jobs[s.stopper].Stopper?)
    && (s.stopper == 0 ==> s.running && NoStopper(s.jobs))
  }

  predicate NoStopper(jobs: map<Tid, Job>) {
    forall t :: t in jobs ==> !jobs[t].Stopper?
  }

  lemma StepKeepsTidy(s: State, a: Action)
    requires Tidy(s) && Enabled(s, a)
    ensures Tidy(After(s, a))
  {
    match a
    case Run(t, task) => if s.workers != {} { ArrivalKeepsTidy(s, t, Caller(task)); }
    case Stop(t) => ArrivalKeepsTidy(s, t, Stopper);
    case Step(t, move) => MoveKeepsTidy(s, t, move);
    case _ => OutsideKeepsTidy(s, a);
  }

  lemma ArrivalKeepsTidy(s: State, t: Tid, job: Job)
    requires Tidy(s) && t !in s.jobs && (job.Caller? || job.Stopper?)
    requires job.Stopper? ==> s.stopper == 0
    ensures Tidy(Arrived(s, t, job).(stopper := if job.Stopper? then t else s.stopper))
  {
    JoinKeepsSound(s.m, t, RoleOf(job));
    hide Sound;
    OneSettles(s.m, Joined(s.m, t, RoleOf(job)), s.jobs, s.jobs[t := job], s.workers, GateOf(s), GateOf(s), t);
  }

  lemma DepartureKeepsTidy(s: State, t: Tid)
    requires Tidy(s) && t in s.jobs && s.m.at[t].Outside? && (s.jobs[t].Caller? || s.jobs[t].Joining?)
    ensures Tidy(Departed(s, t))
  {
    LeaveKeepsSound(s.m, t);
    assert Settled(s.m, s.jobs, s.workers, GateOf(s), t);
    hide Sound;
    OneSettles(s.m, Left(s.m, t), s.jobs, s.jobs - {t}, s.workers, GateOf(s), GateOf(s), t);
  }

  /** A thread outside the block goes on to another job. */
  lemma RelabelKeepsTidy(s: State, t: Tid, job: Job)
    requires Tidy(s) && t in s.jobs && s.m.at[t].Outside?
    requires RoleOf(job) == RoleOf(s.jobs[t]) && (IsWorker(job) <==> IsWorker(s.jobs[t]))
    requires s.jobs[t].Stopper? || job.Exited? || job.Joining? ==> !s.running
    requires !job.Stopper?
    ensures Tidy(s.(jobs := s.jobs[t := job]))
  {
    assert Settled(s.m, s.jobs, s.workers, GateOf(s), t);
    hide Sound;
    OneSettles(s.m, s.m, s.jobs, s.jobs[t := job], s.workers, GateOf(s), GateOf(s), t);
  }

  lemma OutsideKeepsTidy(s: State, a: Action)
    requires Tidy(s) && Enabled(s, a) && (a.Loop? || a.Execute? || a.Join?)
    ensures Tidy(After(s, a))
  {
    assert Settled(s.m, s.jobs, s.workers, GateOf(s), a.t);
    hide Sound;
    match a
    case Loop(t) => RelabelKeepsTidy(s, t, if s.running then Taking else Exited);
    case Execute(t) => RelabelKeepsTidy(s, t, Head);
    case Join(t) => DepartureKeepsTidy(s, t);
  }

  lemma MoveKeepsTidy(s: State, t: Tid, move: Move)
    requires Tidy(s) && Enabled(s, Step(t, move))
    ensures Tidy(After(s, Step(t, move)))
  {
    MoveKeepsSound(s.m, t, move);
    MoveTouches(s.m, t, move);
    hide Moved, Sound;
    if move.Act? || move.ActQuietly? {
      ActKeepsTidy(s, t, move);
    } else {
      PassageKeepsTidy(s, t, move);
      assert Settled(s.m, s.jobs, s.workers, GateOf(s), t);
      if move.Unlock? && s.jobs[t].Caller? {
        DepartureKeepsTidy(s.(m := Moved(s.m, t, move)), t);
      } else if move.Unlock? && s.jobs[t].Stopper? {
        RelabelKeepsTidy(s.(m := Moved(s.m, t, move)), t, Joining);
      }
    }
  }

  lemma PassageKeepsTidy(s: State, t: Tid, move: Move)
    requires Tidy(s) && Enabled(s, Step(t, move)) && !move.Act? && !move.ActQuietly?
    requires Sound(Moved(s.m, t, move))
    ensures Tidy(s.(m := Moved(s.m, t, move)))
  {
    MoveTouches(s.m, t, move);
    hide Moved, Sound;
    assert Settled(s.m, s.jobs, s.workers, GateOf(s), t);
    assert InRole(s.m.at[t], s.m.role[t]);
    PassageFits(s.m.at[t], s.jobs[t], Blocked(s, s.jobs[t]), s.running, move);
    OneSettles(s.m, Moved(s.m, t, move), s.jobs, s.jobs, s.workers, GateOf(s), GateOf(s), t);
  }

  lemma PassageFits(place: Place, job: Job, blocked: bool, running: bool, move: Move)
    requires Starts(place, move) && !move.Act? && !move.ActQuietly?
    requires Fits(place, job, blocked, running)
    requires move.Acquire? ==> job.Taking? || job.Caller? || job.Stopper?
    requires move.Pass? ==> !blocked
    requires move.BeginWait? ==> blocked && !job.Stopper?
    ensures Fits(Dest(place, RoleOf(job), move), job, blocked, running)
  {
  }

  lemma ActKeepsTidy(s: State, t: Tid, move: Move)
    requires Tidy(s) && Enabled(s, Step(t, move)) && (move.Act? || move.ActQuietly?)
    requires Sound(Moved(s.m, t, move))
    ensures Tidy(Acted(s, t).(m := Moved(s.m, t, move)))
  {
    match s.jobs[t]
    case Caller(_) => PushKeepsTidy(s, t);
    case Stopper => CloseKeepsTidy(s, t);
    case _ => PopKeepsTidy(s, t, move);
  }

  lemma PushKeepsTidy(s: State, t: Tid)
    requires Tidy(s) && Enabled(s, Step(t, Act)) && s.jobs[t].Caller? && Sound(Moved(s.m, t, Act))
    ensures Tidy(Pushed(s, t, s.jobs[t].task).(m := Moved(s.m, t, Act)))
  {
    assert Settled(s.m, s.jobs, s.workers, GateOf(s), t);
    MoveTouches(s.m, t, Act);
    hide Moved, Sound;
    OwnerChanges(s, t, Act, Pushed(s, t, s.jobs[t].task).(m := Moved(s.m, t, Act)));
  }

  lemma CloseKeepsTidy(s: State, t: Tid)
    requires Tidy(s) && Enabled(s, Step(t, Act)) && s.jobs[t].Stopper? && Sound(Moved(s.m, t, Act))
    ensures Tidy(s.(running := false, m := Moved(s.m, t, Act)))
  {
    assert Settled(s.m, s.jobs, s.workers, GateOf(s), t);
    MoveTouches(s.m, t, Act);
    hide Moved, Sound;
    OwnerChanges(s, t, Act, s.(running := false, m := Moved(s.m, t, Act)));
  }

  lemma PopKeepsTidy(s: State, t: Tid, move: Move)
    requires Tidy(s) && Enabled(s, Step(t, move)) && (move.Act? || move.ActQuietly?) && s.jobs[t].Taking?
    requires Sound(Moved(s.m, t, move))
    ensures Tidy(Popped(s, t).(m := Moved(s.m, t, move)))
  {
    assert Settled(s.m, s.jobs, s.workers, GateOf(s), t);
    MoveTouches(s.m, t, move);
    hide Moved, Sound;
    OwnerChanges(s, t, move, Popped(s, t).(m := Moved(s.m, t, move)));
  }

  /** The thread in the block may change its job and what the loops look at. */
  lemma OwnerChanges(s: State, t: Tid, move: Move, later: State)
    requires Tidy(s) && CanMove(s.m, t, move) && (move.Act? || move.ActQuietly?)
    requires later.m == Moved(s.m, t, move) && Sound(later.m)
    requires later.workers == s.workers && later.max == s.max && later.stopper == s.stopper
    requires s.max > 0 ==> |later.queue| <= s.max
    requires t in later.jobs && later.jobs == s.jobs[t := later.jobs[t]] && s.jobs[t].Stopper? == later.jobs[t].Stopper?
    requires (later.running ==> s.running) && (s.stopper == 0 ==> later.running)
    requires RoleOf(later.jobs[t]) == RoleOf(s.jobs[t]) && (IsWorker(later.jobs[t]) <==> IsWorker(s.jobs[t]))
    requires Fits(later.m.at[t], later.jobs[t], Blocked(later, later.jobs[t]), later.running)
    ensures Tidy(later)
  {
    assert Settled(s.m, s.jobs, s.workers, GateOf(s), t);
    MoveTouches(s.m, t, move);
    OwnerAlone(later.m, t);
    hide Moved, Sound, CanMove;
    OneSettles(s.m, later.m, s.jobs, later.jobs, s.workers, GateOf(s), GateOf(later), t);
  }

  /**
    When one thread changes its job or its place, the others stay settled, even when what
    the loops look at changes: none of the others is in the block, and Stop is for good.
  */
  lemma OneSettles(m: Mutex, later: Mutex, jobs: map<Tid, Job>, laterJobs: map<Tid, Job>, workers: set<Tid>,
                   gate: Gate, laterGate: Gate, t: Tid)
    requires AllSettled(m, jobs, workers, gate)
    requires laterJobs.Keys == later.at.Keys && laterJobs.Keys == later.role.Keys && laterJobs.Keys - {t} <= jobs.Keys
    requires forall u :: u in laterJobs && u != t ==>
      laterJobs[u] == jobs[u] && later.role[u] == m.role[u] && (later.at[u] == m.at[u] || Roused(m.at[u], later.at[u]))
    requires t in laterJobs ==> Settled(later, laterJobs, workers, laterGate, t)
    requires gate == laterGate
             || ((laterGate.running ==> gate.running) && forall u :: u in later.at && u != t ==> !Owns(later.at[u]))
    ensures AllSettled(later, laterJobs, workers, laterGate)
  {
    forall u | u in laterJobs
      ensures Settled(later, laterJobs, workers, laterGate, u)
    {
      if u != t { assert Settled(m, jobs, workers, gate, u); }
    }
  }

  /** A step changes the job of its own thread only, and wakes sleepers at most. */
  lemma OthersStay(s: State, a: Action, u: Tid)
    requires Tidy(s) && Enabled(s, a) && u != a.t && u in s.jobs
    ensures var later := After(s, a);
            && u in later.jobs && later.jobs[u] == s.jobs[u] && u in later.m.at
            && (later.m.at[u] == s.m.at[u] || (a.Step? && a.move.Notify? && Roused(s.m.at[u], later.m.at[u])))
  {
    if a.Step? {
      MoveTouches(s.m, a.t, a.move);
      OthersKeepJobs(s, a.t, a.move, u);
    }
    hide Moved, Sound, CanMove, Acted, Guard;
  }

  lemma OthersKeepJobs(s: State, t: Tid, move: Move, u: Tid)
    requires Enabled(s, Step(t, move)) && u != t && u in s.jobs && u in s.m.at && u in Moved(s.m, t, move).at
    ensures var later := After(s, Step(t, move));
            && u in later.jobs && later.jobs[u] == s.jobs[u]
            && u in later.m.at && later.m.at[u] == Moved(s.m, t, move).at[u]
  {
    hide Moved, CanMove, Guard;
  }

  // ---------- The invariant: nobody is forgotten ----------

  /** The units that c waits for: tasks, or free slots of a bounded queue. */
  function Supply(s: State, c: Cond): int {
    if c == NotEmpty then |s.queue| else if c == NotFull && s.max > 0 then s.max - |s.queue| else 0
  }

  /** While a worker or a caller sleeps, the tasks or free slots are covered; nobody sleeps through Stop. */
  predicate NobodyForgotten(s: State)
    requires s.m.at.Keys == s.m.role.Keys
  {
    && Covered(s.m, NotEmpty, Supply(s, NotEmpty))
    && Covered(s.m, NotFull, Supply(s, NotFull))
    && (!s.running && Asleep(s.m, NotEmpty) != {} ==> Notifier(s))
    && (s.max == 0 ==> Asleep(s.m, NotFull) == {})
  }

  /** Stop has cleared running_ and is about to notify. */
  predicate Notifier(s: State) {
    s.m.owner in s.jobs && s.jobs[s.m.owner].Stopper? && s.m.owner in s.m.at && s.m.at[s.m.owner] == Inside(Signal)
  }

  lemma StepKeepsNobodyForgotten(s: State, a: Action)
    requires Tidy(s) && Enabled(s, a) && NobodyForgotten(s)
    ensures After(s, a).m.at.Keys == After(s, a).m.role.Keys
    ensures NobodyForgotten(After(s, a))
  {
    StepKeepsTidy(s, a);
    StepKeepsCovered(s, a, NotEmpty);
    StepKeepsCovered(s, a, NotFull);
    StepKeepsNotifier(s, a);
    if s.max == 0 { UnboundedNeverWaits(s, a); }
    StepKeepsBounds(s, a);
  }

  /** Nobody waits for room in an unbounded pool. */
  lemma UnboundedNeverWaits(s: State, a: Action)
    requires Tidy(s) && Enabled(s, a) && s.max == 0 && Asleep(s.m, NotFull) == {}
    ensures Asleep(After(s, a).m, NotFull) == {}
  {
    if a.Step? {
      assert Settled(s.m, s.jobs, s.workers, GateOf(s), a.t);
      assert InRole(s.m.at[a.t], s.m.role[a.t]);
      SleepersAfter(s.m, a.t, a.move, NotFull);
      hide Moved, Sound;
    }
  }

  lemma StepKeepsCovered(s: State, a: Action, c: Cond)
    requires Tidy(s) && Enabled(s, a) && Covered(s.m, c, Supply(s, c)) && (c == NotEmpty || c == NotFull)
    requires Tidy(After(s, a))
    ensures Covered(After(s, a).m, c, Supply(After(s, a), c))
  {
    match a
    case Run(t, task) => if s.workers != {} { JoinKeepsCovered(s.m, t, RoleOf(Caller(task)), c, Supply(s, c)); }
    case Stop(t) => JoinKeepsCovered(s.m, t, RoleOf(Stopper), c, Supply(s, c));
    case Loop(t) =>
    case Execute(t) =>
    case Join(t) =>
      assert Settled(s.m, s.jobs, s.workers, GateOf(s), t);
      LeaveKeepsCovered(s.m, t, c, Supply(s, c));
    case Step(t, move) => MoveKeepsSupplyCovered(s, t, move, c);
  }

  lemma MoveKeepsSupplyCovered(s: State, t: Tid, move: Move, c: Cond)
    requires Tidy(s) && Enabled(s, Step(t, move)) && Covered(s.m, c, Supply(s, c)) && (c == NotEmpty || c == NotFull)
    requires Tidy(After(s, Step(t, move)))
    ensures Covered(After(s, Step(t, move)).m, c, Supply(After(s, Step(t, move)), c))
  {
    SupplyChanges(s, t, move, c);
    MoveKeepsCovered(s.m, t, move, c, Supply(s, c));
    MutexAfter(s, t, move);
    MoveTouches(s.m, t, move);
    hide After, Moved, Sound, AllSettled, CanMove, Guard, Supply;
    if move.Unlock? && s.jobs[t].Caller? {
      LeaveKeepsCovered(Moved(s.m, t, move), t, c, Supply(s, c));
    }
  }

  lemma MutexAfter(s: State, t: Tid, move: Move)
    requires Enabled(s, Step(t, move))
    ensures After(s, Step(t, move)).m
            == if move.Unlock? && s.jobs[t].Caller? then Left(Moved(s.m, t, move), t) else Moved(s.m, t, move)
  {
    hide Moved, CanMove, Guard;
  }

  /** No more units than the monitor is told of, and a wait for c begins only when there are none. */
  lemma SupplyChanges(s: State, t: Tid, move: Move, c: Cond)
    requires Tidy(s) && Enabled(s, Step(t, move)) && (c == NotEmpty || c == NotFull)
    ensures var later := Supply(After(s, Step(t, move)), c);
            later <= Supply(s, c) + Change(s.m.role[t], move, c) || later <= 0
    ensures (move.BeginWait? && s.m.role[t].waits == c) || (move.Sleep? && s.m.at[t].cond == c) ==> Supply(s, c) <= 0
  {
    assert Settled(s.m, s.jobs, s.workers, GateOf(s), t);
    assert InRole(s.m.at[t], s.m.role[t]);
    hide Moved, Sound;
  }

  /** Once running_ is false no worker goes to sleep. */
  lemma NoNewSleeper(s: State, a: Action)
    requires Tidy(s) && Enabled(s, a) && !s.running
    ensures !After(s, a).running
    ensures Asleep(After(s, a).m, NotEmpty) <= Asleep(s.m, NotEmpty)
    ensures a.Step? && a.move.Notify? && s.jobs[a.t].Stopper? ==> Asleep(After(s, a).m, NotEmpty) == {}
  {
    if a.Step? {
      assert Settled(s.m, s.jobs, s.workers, GateOf(s), a.t);
      assert InRole(s.m.at[a.t], s.m.role[a.t]);
      SleepersAfter(s.m, a.t, a.move, NotEmpty);
      hide Moved, Sound;
    }
  }

  lemma StepKeepsNotifier(s: State, a: Action)
    requires Tidy(s) && Enabled(s, a) && NobodyForgotten(s) && Tidy(After(s, a))
    ensures !After(s, a).running && Asleep(After(s, a).m, NotEmpty) != {} ==> Notifier(After(s, a))
  {
    var later := After(s, a);
    hide Moved, Sound, AllSettled, Covered;
    if !later.running && Asleep(later.m, NotEmpty) != {} {
      if s.running {
        CloserNotifies(s, a);
      } else {
        NoNewSleeper(s, a);
        NotifierStays(s, a);
      }
    }
  }

  lemma CloserNotifies(s: State, a: Action)
    requires Tidy(s) && Enabled(s, a) && s.running && !After(s, a).running
    ensures Notifier(After(s, a))
  {
    assert a.Step? && s.jobs[a.t].Stopper?;
    hide Sound, AllSettled;
  }

  /** While the notifier has the mutex nobody else moves in the block. */
  lemma NotifierStays(s: State, a: Action)
    requires Tidy(s) && Enabled(s, a) && Notifier(s)
    requires !(a.Step? && a.move.Notify? && s.jobs[a.t].Stopper?)
    ensures Notifier(After(s, a))
  {
    match a
    case Step(t, move) =>
      assert t != s.m.owner ==> move.Wake? by {
        assert Settled(s.m, s.jobs, s.workers, GateOf(s), t);
        if t != s.m.owner { Bystander(s.m, t, move, s.m.owner); }
      }
    case Join(t) => assert t != s.m.owner;
    case _ =>
  }

  // ---------- The invariant: conservation of tasks ----------

  /** The entries whose task can be run. */
  function Works(h: seq<(Tid, Task)>): seq<(Tid, Task)> {
    if h == [] then [] else
      var before := Works(h[..|h| - 1]);
      if h[|h| - 1].1.Work? then before + [h[|h| - 1]] else before
  }

  lemma WorksAppended(h: seq<(Tid, Task)>, t: Tid, task: Task)
    ensures Works(h + [(t, task)]) == if task.Work? then Works(h) + [(t, task)] else Works(h)
  {
    assert (h + [(t, task)])[..|h|] == h;
  }

  /** The task that a worker has taken and not run yet. */
  function InHand(jobs: map<Tid, Job>, t: Tid): seq<Task> {
    if t in jobs && jobs[t].Took? && jobs[t].task.Work? then [jobs[t].task] else []
  }

  /** What was queued was taken in that order or is still queued; each worker runs what it has taken, in order. */
  ghost predicate Conserved(s: State) {
    InOrder(s.log, s.queue) && Handed(s.log, s.jobs)
  }

  predicate InOrder(log: Log, queue: seq<Task>) {
    Values(log.queued) == Values(log.taken) + queue
  }

  ghost predicate Handed(log: Log, jobs: map<Tid, Job>) {
    forall t: Tid :: Of(Works(log.taken), t) == Of(log.ran, t) + InHand(jobs, t)
  }

  lemma StepKeepsConserved(s: State, a: Action)
    requires Tidy(s) && Enabled(s, a) && Conserved(s)
    ensures Conserved(After(s, a))
  {
    hide Sound, Moved, CanMove, AllSettled;
    match a
    case Execute(t) => ExecuteConserves(s, t);
    case Step(t, move) =>
      if move.Act? || move.ActQuietly? {
        ActConserves(s, t);
      } else if move.Unlock? {
        EndConserves(s, t);
      }
    case Loop(t) => SameInHand(s.log, s.jobs, After(s, a).jobs, t);
    case Run(t, task) => if s.workers != {} { SameInHand(s.log, s.jobs, s.jobs[t := Caller(task)], t); }
    case Stop(t) => SameInHand(s.log, s.jobs, s.jobs[t := Stopper], t);
    case Join(t) => SameInHand(s.log, s.jobs, s.jobs - {t}, t);
  }

  lemma SameInHand(log: Log, jobs: map<Tid, Job>, later: map<Tid, Job>, t: Tid)
    requires Handed(log, jobs) && InHand(jobs, t) == InHand(later, t)
    requires later - {t} == jobs - {t}
    ensures Handed(log, later)
  {
    forall u: Tid
      ensures Of(Works(log.taken), u) == Of(log.ran, u) + InHand(later, u)
    {
      if u != t {
        assert (u in later <==> u in later - {t}) && (u in jobs <==> u in jobs - {t});
        assert u in jobs ==> later[u] == (later - {t})[u] == (jobs - {t})[u];
      }
    }
  }

  lemma EndConserves(s: State, t: Tid)
    requires Conserved(s) && t in s.jobs
    ensures Conserved(Ended(s, t))
  {
    if s.jobs[t].Caller? {
      SameInHand(s.log, s.jobs, s.jobs - {t}, t);
    } else if s.jobs[t].Stopper? {
      SameInHand(s.log, s.jobs, s.jobs[t := Joining], t);
    }
  }

  lemma ExecuteConserves(s: State, t: Tid)
    requires Conserved(s) && t in s.jobs && s.jobs[t].Took?
    ensures Conserved(Executed(s, t))
  {
    hide Of, Values, Works;
    if s.jobs[t].task.Work? {
      Appended(s.log.ran, t, s.jobs[t].task);
    }
  }

  lemma ActConserves(s: State, t: Tid)
    requires Conserved(s) && t in s.jobs && (s.jobs[t].Caller? || s.jobs[t].Stopper? || s.jobs[t].Taking?)
    ensures Conserved(Acted(s, t))
  {
    if s.jobs[t].Caller? {
      Appended(s.log.queued, t, s.jobs[t].task);
    } else if s.jobs[t].Taking? {
      if s.queue == [] { SameInHand(s.log, s.jobs, s.jobs[t := Took(Null)], t); } else { PopConserves(s, t); }
    }
  }

  lemma PopConserves(s: State, t: Tid)
    requires Conserved(s) && t in s.jobs && s.jobs[t].Taking? && s.queue != []
    ensures Conserved(Popped(s, t))
  {
    hide Of, Values, Works;
    var task := s.queue[0];
    Appended(s.log.taken, t, task);
    forall u: Tid
      ensures Of(Works(s.log.taken + [(t, task)]), u) == Of(s.log.ran, u) + InHand(s.jobs[t := Took(task)], u)
    {
      PopHands(s.log, s.jobs, t, task, u);
    }
  }

  lemma PopHands(log: Log, jobs: map<Tid, Job>, t: Tid, task: Task, u: Tid)
    requires Handed(log, jobs) && InHand(jobs, t) == []
    ensures Of(Works(log.taken + [(t, task)]), u) == Of(log.ran, u) + InHand(jobs[t := Took(task)], u)
  {
    hide Of, Works;
    WorksAppended(log.taken, t, task);
    Appended(Works(log.taken), t, task);
  }

  // ---------- Runs ----------

  ghost predicate Inv(s: State) {
    Tidy(s) && NobodyForgotten(s) && Conserved(s)
  }

  lemma StepKeepsInv(s: State, a: Action)
    requires Inv(s) && Enabled(s, a)
    ensures Inv(After(s, a))
  {
    StepKeepsTidy(s, a);
    StepKeepsNobodyForgotten(s, a);
    StepKeepsConserved(s, a);
  }

  /** The jobs do not restrict the scheduler, but that Stop notifies all; a thread may call Run at any time. */
  lemma SchedulerStaysFree(s: State, t: Tid, who: set<Tid>)
    requires Tidy(s) && t in s.jobs
    ensures s.m.at[t].Sleeping? ==> Enabled(s, Step(t, Wake))
    ensures s.m.owner == 0 && s.m.at[t].Outside? && (s.jobs[t].Taking? || s.jobs[t].Caller? || s.jobs[t].Stopper?) ==>
              Enabled(s, Step(t, Acquire))
    ensures s.m.owner == 0 && s.m.at[t].Woken? ==> Enabled(s, Step(t, Relock))
    ensures Enabled(s, Step(t, Notify(who)))
            <==> CanMove(s.m, t, Notify(who)) && (s.jobs[t].Stopper? ==> who == Asleep(s.m, NotEmpty))
    ensures forall u: Tid, task: Task :: u !in s.jobs ==> Enabled(s, Action.Run(u, task))
    ensures forall u: Tid :: u !in s.jobs && s.stopper == 0 ==> Enabled(s, Action.Stop(u))
  {
  }

  predicate IsRun(s: State, run: seq<Action>)
    decreases |run|, 0
  {
    run == [] || (IsRun(s, run[..|run| - 1]) && Enabled(Final(s, run[..|run| - 1]), run[|run| - 1]))
  }

  /** The state at the end of a run. */
  function Final(s: State, run: seq<Action>): State
    requires IsRun(s, run)
    decreases |run|, 1
  {
    if run == [] then s else After(Final(s, run[..|run| - 1]), run[|run| - 1])
  }

  lemma {:induction false} RunKeepsInv(s: State, run: seq<Action>)
    requires Inv(s) && IsRun(s, run)
    ensures Inv(Final(s, run))
    decreases |run|
  {
    hide Inv, Enabled, After;
    if run != [] {
      var before := run[..|run| - 1];
      RunKeepsInv(s, before);
      StepKeepsInv(Final(s, before), run[|run| - 1]);
    }
  }

  lemma StartedInv(workers: set<Tid>, max: nat)
    ensures Inv(Started(workers, max))
  {
    var s := Started(workers, max);
    assert Asleep(s.m, NotEmpty) == {} && Asleep(s.m, NotFull) == {};
    forall t | t in s.jobs
      ensures Settled(s.m, s.jobs, s.workers, GateOf(s), t)
    {
    }
  }

  lemma EveryRunKeepsInv(workers: set<Tid>, max: nat, run: seq<Action>)
    requires IsRun(Started(workers, max), run)
    ensures Inv(Final(Started(workers, max), run))
  {
    StartedInv(workers, max);
    RunKeepsInv(Started(workers, max), run);
  }

  /** mutex_.AssertLocked() in IsFull, at both of its calls, and assert(!IsFull()). */
  lemma AssertionsHold(s: State, t: Tid)
    requires Inv(s) && t in s.jobs && s.jobs[t].Caller?
    requires s.m.at[t] == Inside(Check) || s.m.at[t] == Inside(Ready)
    ensures IsLockedBy(s.m, t)
    ensures s.m.at[t] == Inside(Ready) ==> !IsFull(s)
  {
    assert Settled(s.m, s.jobs, s.workers, GateOf(s), t);
  }

  /** The queue of a bounded pool never exceeds its bound. */
  lemma QueueIsBounded(workers: set<Tid>, max: nat, run: seq<Action>)
    requires IsRun(Started(workers, max), run) && max > 0
    ensures |Final(Started(workers, max), run).queue| <= max
  {
    EveryRunKeepsInv(workers, max, run);
    SameBounds(Started(workers, max), run);
  }

  lemma StepKeepsBounds(s: State, a: Action)
    requires Enabled(s, a)
    ensures After(s, a).max == s.max && After(s, a).workers == s.workers
  {
    hide Moved, CanMove, Guard, Joined, Left;
  }

  lemma StayExited(s: State, a: Action)
    requires Tidy(s) && Enabled(s, a) && AllExited(s)
    ensures AllExited(After(s, a))
  {
    StepKeepsBounds(s, a);
    forall w | w in s.workers
      ensures w in After(s, a).jobs && After(s, a).jobs[w].Exited?
    {
      assert Settled(s.m, s.jobs, s.workers, GateOf(s), w);
      if a.t != w { OthersStay(s, a, w); }
    }
  }

  lemma {:induction false} SameBounds(s: State, run: seq<Action>)
    requires IsRun(s, run)
    ensures Final(s, run).max == s.max && Final(s, run).workers == s.workers
    decreases |run|
  {
    if run != [] {
      SameBounds(s, run[..|run| - 1]);
      StepKeepsBounds(Final(s, run[..|run| - 1]), run[|run| - 1]);
    }
  }

  /**
    Between the guarded blocks, when a worker sleeps every queued task has a woken worker
    of its own, and when a caller sleeps every free slot has a woken caller.
  */
  lemma NoLostWakeup(s: State)
    requires Inv(s) && s.m.owner == 0
    ensures Asleep(s.m, NotEmpty) != {} ==>
              s.running && |s.queue| <= |set t | t in s.m.at && s.m.at[t] == Woken(NotEmpty)|
    ensures s.max > 0 && Asleep(s.m, NotFull) != {} ==>
              s.max - |s.queue| <= |set t | t in s.m.at && s.m.at[t] == Woken(NotFull)|
  {
    FreeMutexCredits(s.m, NotEmpty);
    FreeMutexCredits(s.m, NotFull);
  }

  /**
    Once all workers have exited, the tasks that Run has queued are those that the workers
    ran, each as often as it was queued, and those in the queue.
  */
  lemma TasksRunOrQueued(s: State, task: Task)
    requires Inv(s) && AllExited(s) && task.Work?
    ensures multiset(Values(s.log.queued))[task] == multiset(Values(s.log.ran))[task] + multiset(s.queue)[task]
    ensures forall t: Tid :: Of(Works(s.log.taken), t) == Of(s.log.ran, t)
  {
    forall t: Tid
      ensures Of(Works(s.log.taken), t) == Of(s.log.ran, t)
    {
      if t in s.jobs { assert Settled(s.m, s.jobs, s.workers, GateOf(s), t); }
    }
    SameByThread(Works(s.log.taken), s.log.ran);
    WorksKeep(s.log.taken, task);
  }

  lemma {:induction false} WorksKeep(h: seq<(Tid, Task)>, task: Task)
    requires task.Work?
    ensures multiset(Values(Works(h)))[task] == multiset(Values(h))[task]
  {
    if h != [] {
      var before, last := h[..|h| - 1], h[|h| - 1];
      WorksKeep(before, task);
      if last.1.Work? { Appended(Works(before), last.0, last.1); }
    }
  }
}
