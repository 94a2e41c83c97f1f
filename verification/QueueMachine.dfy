/**
  BoundedBlockingQueue of qingyi/util/bounded_blocking_queue_.h as a state machine: any
  number of threads call Put and Take, in any interleaving of the steps of the monitor.
*/
module QueueMachine {
  import opened Monitor
  import opened History

  datatype Call<T> =
    | Put(x: T)
    | Take
    | Took(x: T)  // Take, after it has taken x out of the queue

  /** The histories say which thread put, took and returned what, in the order of these steps. */
  datatype State<T> = State(
    m: Mutex, calls: map<Tid, Call<T>>, items: seq<T>, capacity: nat,
    put: seq<(Tid, T)>, taken: seq<(Tid, T)>, returned: seq<(Tid, T)>)

  datatype Action<T> = Begin(t: Tid, call: Call<T>) | Step(t: Tid, move: Move)

  function Initial<T>(capacity: nat): State<T> {
    State(FREE, map[], [], capacity, [], [], [])
  }

  // ---------- Steps ----------

  function RoleOf<T>(call: Call<T>): Role {
    if call.Put? then Role(NotFull, NotEmpty) else Role(NotEmpty, NotFull)
  }

  /** The condition of the wait loop: full() in Put, empty() in Take. */
  predicate Blocked<T>(s: State<T>, call: Call<T>) {
    if call.Put? then |s.items| == s.capacity else |s.items| == 0
  }

  /** circular_buffer::push_back overwrites the oldest element of a full buffer. */
  function PushBack<T>(items: seq<T>, capacity: nat, x: T): seq<T> {
    if capacity == 0 then items
    else if |items| == capacity then items[1..] + [x]
    else items + [x]
  }

  /** What is left of a full buffer are its newest elements. */
  lemma NewestAreKept<T>(items: seq<T>, capacity: nat, x: T)
    requires |items| <= capacity
    ensures var all := items + [x];
            PushBack(items, capacity, x) == if |all| <= capacity then all else all[|all| - capacity..]
  {
  }

  predicate Enabled<T>(s: State<T>, a: Action<T>) {
    match a
    case Begin(t, call) => t !in s.m.at && t !in s.calls && !call.Took?
    case Step(t, move) => CanMove(s.m, t, move) && t in s.calls && Guard(s, s.calls[t], move)
  }

  predicate Guard<T>(s: State<T>, call: Call<T>, move: Move) {
    && (move.Pass? ==> !Blocked(s, call))
    && (move.BeginWait? ==> Blocked(s, call))
    && (move.Act? ==> call.Put? || s.items != [])
    && !move.ActQuietly?
  }

  function After<T>(s: State<T>, a: Action<T>): State<T>
    requires Enabled(s, a)
  {
    match a
    case Begin(t, call) => s.(m := Joined(s.m, t, RoleOf(call)), calls := s.calls[t := call])
    case Step(t, move) =>
      var m := Moved(s.m, t, move);
      if move.Act? then Acted(s, t).(m := m)
      else if move.Unlock? then Ended(s, t).(m := Left(m, t))
      else s.(m := m)
  }

  /** push_back in Put; front and pop_front in Take. */
  function Acted<T>(s: State<T>, t: Tid): State<T>
    requires t in s.calls && (s.calls[t].Put? || s.items != [])
  {
    match s.calls[t]
    case Put(x) => s.(items := PushBack(s.items, s.capacity, x), put := s.put + [(t, x)])
    case _ =>
      var x := s.items[0];
      s.(items := s.items[1..], calls := s.calls[t := Took(x)], taken := s.taken + [(t, x)])
  }

  /** The guard releases the mutex and the call returns. */
  function Ended<T>(s: State<T>, t: Tid): State<T>
    requires t in s.calls
  {
    var rest := s.(calls := s.calls - {t});
    if s.calls[t].Took? then rest.(returned := s.returned + [(t, s.calls[t].x)]) else rest
  }

  // ---------- The invariant ----------

  /** What is true of a call at its place in the method. */
  predicate Fits<T>(s: State<T>, place: Place, call: Call<T>) {
    && (call.Took? ==> Finishing(place))
    && (call.Take? ==> !Finishing(place))
    && (place == Inside(Ready) ==> !Blocked(s, call))
    && (place.Waiting? ==> Blocked(s, call))
  }

  predicate Tidy<T>(s: State<T>) {
    && Sound(s.m)
    && s.calls.Keys == s.m.at.Keys
    && |s.items| <= s.capacity
    && (forall t {:trigger Settled(s, t)} :: t in s.calls ==> Settled(s, t))
  }

  predicate Settled<T>(s: State<T>, t: Tid)
    requires t in s.calls && t in s.m.at && t in s.m.role
  {
    s.m.role[t] == RoleOf(s.calls[t]) && Fits(s, s.m.at[t], s.calls[t])
  }

  /** The units that c waits for: elements, or free slots. */
  function Supply<T>(s: State<T>, c: Cond): int {
    if c == NotEmpty then |s.items| else if c == NotFull then s.capacity - |s.items| else 0
  }

  /** No element and no free slot is forgotten while somebody sleeps for one. */
  predicate NobodyForgotten<T>(s: State<T>)
    requires s.m.at.Keys == s.m.role.Keys
  {
    Covered(s.m, NotEmpty, Supply(s, NotEmpty)) && Covered(s.m, NotFull, Supply(s, NotFull))
  }

  ghost predicate FirstInFirstOut<T>(s: State<T>) {
    Values(s.put) == Values(s.taken) + s.items
  }

  function InHand<T>(s: State<T>, t: Tid): seq<T> {
    if t in s.calls && s.calls[t].Took? then [s.calls[t].x] else []
  }

  ghost predicate Delivered<T>(s: State<T>) {
    forall t: Tid :: Of(s.taken, t) == Of(s.returned, t) + InHand(s, t)
  }

  lemma StepKeepsTidy<T>(s: State<T>, a: Action<T>)
    requires Tidy(s) && Enabled(s, a)
    ensures Tidy(After(s, a))
  {
    match a
    case Begin(t, call) => BeginKeepsTidy(s, t, call);
    case Step(t, move) => MoveKeepsTidy(s, t, move);
  }

  lemma BeginKeepsTidy<T>(s: State<T>, t: Tid, call: Call<T>)
    requires Tidy(s) && Enabled(s, Begin(t, call))
    ensures Tidy(After(s, Begin(t, call)))
  {
    JoinKeepsSound(s.m, t, RoleOf(call));
    hide Sound;
    forall u | u in s.calls && u != t
      ensures Settled(After(s, Begin(t, call)), u)
    {
      assert Settled(s, u);
    }
  }

  lemma MoveKeepsTidy<T>(s: State<T>, t: Tid, move: Move)
    requires Tidy(s) && Enabled(s, Step(t, move))
    ensures Tidy(After(s, Step(t, move)))
  {
    MoveKeepsSound(s.m, t, move);
    if move.Unlock? { LeaveKeepsSound(Moved(s.m, t, move), t); }
    var later := After(s, Step(t, move));
    forall u | u in later.calls
      ensures u in later.m.at && u in later.m.role && Settled(later, u)
    {
      if u == t { MoverSettled(s, t, move); } else { BystanderSettled(s, t, move, u); }
    }
    assert Settled(s, t);
    hide Moved, Sound, CanMove;
  }

  lemma MoverSettled<T>(s: State<T>, t: Tid, move: Move)
    requires Tidy(s) && Enabled(s, Step(t, move)) && !move.Unlock?
    ensures var later := After(s, Step(t, move));
            t in later.calls && t in later.m.at && t in later.m.role && Settled(later, t)
  {
    assert Settled(s, t);
    MoveTouches(s.m, t, move);
    hide Moved, Sound;
  }

  lemma BystanderSettled<T>(s: State<T>, t: Tid, move: Move, u: Tid)
    requires Tidy(s) && Enabled(s, Step(t, move)) && u in s.calls && u != t
    ensures var later := After(s, Step(t, move));
            u in later.calls && u in later.m.at && u in later.m.role && Settled(later, u)
  {
    assert Settled(s, u);
    MoveTouches(s.m, t, move);
    Bystander(s.m, t, move, u);
    hide Moved, Sound;
  }

  lemma StepKeepsNobodyForgotten<T>(s: State<T>, a: Action<T>)
    requires Tidy(s) && Enabled(s, a) && NobodyForgotten(s)
    ensures After(s, a).m.at.Keys == After(s, a).m.role.Keys
    ensures NobodyForgotten(After(s, a))
  {
    StepKeepsCovered(s, a, NotEmpty);
    StepKeepsCovered(s, a, NotFull);
  }

  lemma StepKeepsCovered<T>(s: State<T>, a: Action<T>, c: Cond)
    requires Tidy(s) && Enabled(s, a) && Covered(s.m, c, Supply(s, c)) && (c == NotEmpty || c == NotFull)
    ensures After(s, a).m.at.Keys == After(s, a).m.role.Keys
    ensures Covered(After(s, a).m, c, Supply(After(s, a), c))
  {
    match a
    case Begin(t, call) =>
      JoinKeepsCovered(s.m, t, RoleOf(call), c, Supply(s, c));
    case Step(t, move) =>
      SupplyChanges(s, t, move, c);
      MoveKeepsCovered(s.m, t, move, c, Supply(s, c));
      hide Covered;
      if move.Unlock? {
        LeaveKeepsCovered(Moved(s.m, t, move), t, c, Supply(s, c));
      }
  }

  /** The units change as the monitor is told, and a wait for c begins only when there are none. */
  lemma SupplyChanges<T>(s: State<T>, t: Tid, move: Move, c: Cond)
    requires Tidy(s) && Enabled(s, Step(t, move)) && (c == NotEmpty || c == NotFull)
    ensures Supply(After(s, Step(t, move)), c) == Supply(s, c) + Change(s.m.role[t], move, c)
    ensures (move.BeginWait? && s.m.role[t].waits == c) || (move.Sleep? && s.m.at[t].cond == c) ==> Supply(s, c) == 0
  {
    assert Settled(s, t);
    assert InRole(s.m.at[t], s.m.role[t]);
    hide Moved, Sound;
  }

  lemma StepKeepsOrder<T>(s: State<T>, a: Action<T>)
    requires Tidy(s) && Enabled(s, a) && FirstInFirstOut(s) && Delivered(s)
    ensures FirstInFirstOut(After(s, a)) && Delivered(After(s, a))
  {
    hide Moved, Sound, Covered, Left, Joined;
    if a.Step? { assert Settled(s, a.t); }
    if a.Step? && a.move.Act? {
      ActKeepsOrder(s, a.t);
    } else if a.Step? && a.move.Unlock? {
      EndKeepsOrder(s, a.t);
    }
  }

  lemma ActKeepsOrder<T>(s: State<T>, t: Tid)
    requires t in s.calls && (if s.calls[t].Put? then |s.items| < s.capacity else s.calls[t].Take? && s.items != [])
    requires FirstInFirstOut(s) && Delivered(s)
    ensures FirstInFirstOut(Acted(s, t)) && Delivered(Acted(s, t))
  {
    hide Of, Values;
    if s.calls[t].Put? {
      Appended(s.put, t, s.calls[t].x);
    } else {
      Appended(s.taken, t, s.items[0]);
    }
  }

  lemma EndKeepsOrder<T>(s: State<T>, t: Tid)
    requires t in s.calls && FirstInFirstOut(s) && Delivered(s)
    ensures FirstInFirstOut(Ended(s, t)) && Delivered(Ended(s, t))
  {
    hide Of, Values;
    if s.calls[t].Took? {
      Appended(s.returned, t, s.calls[t].x);
    }
  }

  ghost predicate Inv<T>(s: State<T>) {
    Tidy(s) && NobodyForgotten(s) && FirstInFirstOut(s) && Delivered(s)
  }

  lemma StepKeepsInv<T>(s: State<T>, a: Action<T>)
    requires Inv(s) && Enabled(s, a)
    ensures Inv(After(s, a))
  {
    StepKeepsTidy(s, a);
    StepKeepsNobodyForgotten(s, a);
    StepKeepsOrder(s, a);
  }

  /** The calls do not restrict the scheduler, and a thread may call at any time. */
  lemma SchedulerStaysFree<T>(s: State<T>, t: Tid, who: set<Tid>)
    requires Tidy(s) && t in s.calls
    ensures s.m.at[t].Sleeping? ==> Enabled(s, Step(t, Wake))
    ensures s.m.owner == 0 && s.m.at[t].Outside? ==> Enabled(s, Step(t, Acquire))
    ensures s.m.owner == 0 && s.m.at[t].Woken? ==> Enabled(s, Step(t, Relock))
    ensures Enabled(s, Step(t, Notify(who))) <==> CanMove(s.m, t, Notify(who))
    ensures forall u: Tid, call: Call<T> :: u !in s.calls && !call.Took? ==> Enabled(s, Begin(u, call))
  {
  }

  // ---------- Runs ----------

  predicate IsRun<T>(s: State<T>, run: seq<Action<T>>)
    decreases |run|, 0
  {
    run == [] || (IsRun(s, run[..|run| - 1]) && Enabled(Final(s, run[..|run| - 1]), run[|run| - 1]))
  }

  /** The state at the end of a run. */
  function Final<T>(s: State<T>, run: seq<Action<T>>): State<T>
    requires IsRun(s, run)
    decreases |run|, 1
  {
    if run == [] then s else After(Final(s, run[..|run| - 1]), run[|run| - 1])
  }

  lemma {:induction false} RunKeepsInv<T>(s: State<T>, run: seq<Action<T>>)
    requires Inv(s) && IsRun(s, run)
    ensures Inv(Final(s, run))
    decreases |run|
  {
    hide Inv, Enabled, After;
    if run != [] {
      var before := run[..|run| - 1];
      RunKeepsInv(s, before);
      StepKeepsInv(Final(s, before), run[|run| - 1]);
    }
  }

  lemma EveryRunKeepsInv<T>(capacity: nat, run: seq<Action<T>>)
    requires IsRun(Initial(capacity), run)
    ensures Inv(Final(Initial(capacity), run))
  {
    assert Asleep(FREE, NotEmpty) == {} && Asleep(FREE, NotFull) == {};
    RunKeepsInv(Initial(capacity), run);
  }

  /** assert(!queue_.full()), assert(!queue_.empty()): the buffer never overwrites, Take never reads an empty one. */
  lemma AssertionsHold<T>(s: State<T>, t: Tid)
    requires Inv(s) && t in s.calls && s.m.at[t] == Inside(Ready)
    ensures IsLockedBy(s.m, t)
    ensures if s.calls[t].Put? then |s.items| < s.capacity else s.items != []
    ensures Enabled(s, Step(t, Act))
  {
    assert Settled(s, t);
  }

  /**
    No lost wake-up: between the guarded blocks, when a taker sleeps every element has a
    woken taker of its own, and when a putter sleeps every free slot has a woken putter.
  */
  lemma NoLostWakeup<T>(s: State<T>)
    requires Inv(s) && s.m.owner == 0
    ensures Asleep(s.m, NotEmpty) != {} ==> |s.items| <= |set t | t in s.m.at && s.m.at[t] == Woken(NotEmpty)|
    ensures Asleep(s.m, NotFull) != {} ==>
              s.capacity - |s.items| <= |set t | t in s.m.at && s.m.at[t] == Woken(NotFull)|
  {
    FreeMutexCredits(s.m, NotEmpty);
    FreeMutexCredits(s.m, NotFull);
  }

  /** No deadlock: when takers and putters sleep at the same time, at least capacity threads are awake for them. */
  lemma NoDeadlock<T>(s: State<T>)
    requires Inv(s) && Asleep(s.m, NotEmpty) != {} && Asleep(s.m, NotFull) != {}
    ensures |Credits(s.m, NotEmpty)| + |Credits(s.m, NotFull)| >= s.capacity
  {
  }

  // ---------- Progress ----------

  /** The step that a thread takes next. */
  function NextStep<T>(s: State<T>, t: Tid): Move
    requires t in s.calls && t in s.m.at && t in s.m.role
  {
    NextMove(s.m, t, Blocked(s, s.calls[t]), false)
  }

  lemma NextStepIsEnabled<T>(s: State<T>, t: Tid)
    requires Tidy(s) && t in s.calls && (s.m.owner == 0 || s.m.owner == t)
    ensures Enabled(s, Step(t, NextStep(s, t)))
    ensures NextStep(s, t).Wake? <==> s.m.at[t].Sleeping?
  {
    assert Settled(s, t);
    NextMoveIsEnabled(s.m, t, Blocked(s, s.calls[t]), false);
  }

  /** Nothing can happen but new calls and wake-ups without a notification. */
  ghost predicate Stuck<T>(s: State<T>) {
    forall t: Tid, move: Move :: !move.Wake? ==> !Enabled(s, Step(t, move))
  }

  /** The queue stands still exactly when every call sleeps. */
  lemma StuckMeansAsleep<T>(s: State<T>)
    requires Inv(s)
    ensures Stuck(s) <==> forall t :: t in s.calls ==> s.m.at[t].Sleeping?
  {
    if Stuck(s) {
      if s.m.owner != 0 {
        NextStepIsEnabled(s, s.m.owner);
      }
      forall t | t in s.calls
        ensures s.m.at[t].Sleeping?
      {
        NextStepIsEnabled(s, t);
      }
    }
  }

  /**
    When the queue stands still, takers sleep only if it is empty and putters only if it
    is full: with room for one element never both.
  */
  lemma StuckMeansNothingToDo<T>(s: State<T>)
    requires Inv(s) && Stuck(s)
    ensures s.m.owner == 0
    ensures forall t :: t in s.calls ==> Blocked(s, s.calls[t])
    ensures s.capacity > 0 ==> forall t, u :: t in s.calls && u in s.calls ==> s.calls[t].Put? == s.calls[u].Put?
  {
    StuckMeansAsleep(s);
    NobodyCounts(s.m, NotEmpty);
    NobodyCounts(s.m, NotFull);
    forall t | t in s.calls
      ensures Blocked(s, s.calls[t])
    {
      assert Settled(s, t);
      assert InRole(s.m.at[t], s.m.role[t]);
      assert t in Asleep(s.m, RoleOf(s.calls[t]).waits);
    }
  }

  // ---------- No endless run ----------

  /** The calls that have not pushed or popped yet. */
  function Unacted<T>(s: State<T>): set<Tid> {
    set t | t in s.calls && t in s.m.at && !Finishing(s.m.at[t])
  }

  /** Every step but a new call and a wake-up without a notification brings the calls nearer to their ends. */
  lemma StepsRunOut<T>(s: State<T>, t: Tid, move: Move)
    requires Tidy(s) && Enabled(s, Step(t, move)) && !move.Wake?
    ensures Tidy(After(s, Step(t, move)))
    ensures Nearer(After(s, Step(t, move)), s)
  {
    StepKeepsTidy(s, Step(t, move));
    UnactedAfter(s, t, move);
    NotifyingAfter(s.m, t, move);
    hide Moved, Sound, CanMove;
    if move.Unlock? {
      EndLowersRanks(s.m, t);
    } else if !move.Act? && !move.Notify? {
      MoveLowersRanks(s.m, t, move);
    }
  }

  /** Fewer calls that have not acted, else fewer that have not notified, else lower ranks. */
  ghost predicate Nearer<T>(later: State<T>, s: State<T>) {
    || |Unacted(later)| < |Unacted(s)|
    || (Unacted(later) == Unacted(s) && |Notifying(later.m)| < |Notifying(s.m)|)
    || (Unacted(later) == Unacted(s) && Notifying(later.m) == Notifying(s.m)
        && Sum(PlaceRanks(later.m)) < Sum(PlaceRanks(s.m)))
  }

  lemma UnactedAfter<T>(s: State<T>, t: Tid, move: Move)
    requires Tidy(s) && Enabled(s, Step(t, move)) && Tidy(After(s, Step(t, move)))
    ensures Unacted(After(s, Step(t, move))) == if move.Act? then Unacted(s) - {t} else Unacted(s)
    ensures move.Act? ==> t in Unacted(s)
  {
    OwnActing(s, t, move);
    OthersStay(s, t, move);
    hide After, Enabled, Tidy;
    OneActs(s, After(s, Step(t, move)), t);
  }

  lemma OwnActing<T>(s: State<T>, t: Tid, move: Move)
    requires Tidy(s) && Enabled(s, Step(t, move)) && Tidy(After(s, Step(t, move)))
    ensures var later := After(s, Step(t, move));
            && s.m.at.Keys == s.calls.Keys && later.m.at.Keys == later.calls.Keys && t in s.calls
            && (t in Unacted(later) <==> t in Unacted(s) && !move.Act?)
            && (move.Act? ==> t in Unacted(s))
  {
    MoveTouches(s.m, t, move);
    hide Moved, Sound, Settled;
  }

  lemma OthersStay<T>(s: State<T>, t: Tid, move: Move)
    requires Tidy(s) && Enabled(s, Step(t, move)) && Tidy(After(s, Step(t, move)))
    ensures var later := After(s, Step(t, move));
            && later.calls.Keys - {t} == s.calls.Keys - {t}
            && forall u :: u in s.calls && u != t ==>
                 later.m.at[u] == s.m.at[u] || (s.m.at[u].Sleeping? && later.m.at[u].Woken?)
  {
    MoveTouches(s.m, t, move);
    hide Moved, Sound, Settled, CanMove;
  }

  lemma OneActs<T>(s: State<T>, later: State<T>, t: Tid)
    requires s.m.at.Keys == s.calls.Keys && later.m.at.Keys == later.calls.Keys && t in s.calls
    requires later.calls.Keys - {t} == s.calls.Keys - {t}
    requires forall u :: u in s.calls && u in later.calls && u != t ==>
               later.m.at[u] == s.m.at[u] || (s.m.at[u].Sleeping? && later.m.at[u].Woken?)
    requires t in Unacted(later) ==> t in Unacted(s)
    ensures Unacted(later) == if t in Unacted(later) then Unacted(s) else Unacted(s) - {t}
  {
    forall u
      ensures u in Unacted(later) <==> u in Unacted(s) && (u == t ==> t in Unacted(later))
    {
      assert u != t ==> (u in later.calls <==> u in later.calls.Keys - {t});
      assert u != t ==> (u in s.calls <==> u in s.calls.Keys - {t});
    }
    hide Unacted;
  }

  ghost predicate IsInternalStep<T>(s: State<T>, later: State<T>) {
    exists t: Tid, move: Move :: !move.Wake? && Enabled(s, Step(t, move)) && later == After(s, Step(t, move))
  }

  /** With no new calls and no wake-ups without a notification the queue comes to a stand. */
  lemma NoEndlessRun<T>(run: nat -> State<T>)
    requires Inv(run(0))
    ensures exists i: nat :: !IsInternalStep(run(i), run(i + 1))
  {
    if forall i: nat :: IsInternalStep(run(i), run(i + 1)) {
      Descend(run, 0);
    }
  }

  lemma Descend<T>(run: nat -> State<T>, i: nat)
    requires Inv(run(i))
    requires forall j: nat :: IsInternalStep(run(j), run(j + 1))
    ensures false
    decreases |Unacted(run(i))|, |Notifying(run(i).m)|, Sum(PlaceRanks(run(i).m))
  {
    hide IsInternalStep, Inv, Unacted, Notifying, Sum, PlaceRanks;
    assert IsInternalStep(run(i), run(i + 1));
    InternalStepRunsOut(run(i), run(i + 1));
    Descend(run, i + 1);
  }

  lemma InternalStepRunsOut<T>(s: State<T>, later: State<T>)
    requires Inv(s) && IsInternalStep(s, later)
    ensures Inv(later) && Nearer(later, s)
  {
    var t: Tid, move: Move :| !move.Wake? && Enabled(s, Step(t, move)) && later == After(s, Step(t, move));
    hide After, Enabled, Nearer, Unacted, NobodyForgotten, FirstInFirstOut, Delivered, Sound;
    StepsRunOut(s, t, move);
    StepKeepsInv(s, Step(t, move));
  }
}
