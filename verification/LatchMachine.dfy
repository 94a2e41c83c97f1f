/**
  CountDownLatch of qingyi/util/countdown_latch_.cc as a state machine: any number of
  threads call Wait and CountDown, in any interleaving of the steps of the monitor.
*/
module LatchMachine {
  import opened Monitor

  datatype Call = Waiter | Counter

  /** The latch was made with count n; downs counts the decrements. */
  datatype State = State(m: Mutex, calls: map<Tid, Call>, count: int, n: int, downs: nat)

  datatype Action = Begin(t: Tid, call: Call) | Step(t: Tid, move: Move)

  function Initial(n: int): State {
    State(FREE, map[], n, n, 0)
  }

  // ---------- Steps ----------

  function RoleOf(call: Call): Role {
    if call.Waiter? then Role(CountedDown, Never) else Role(Never, CountedDown)
  }

  predicate Blocked(s: State, call: Call) {
    call.Waiter? && s.count > 0
  }

  /** Only the CountDown that reaches zero notifies. */
  predicate Quiet(s: State, call: Call) {
    call.Waiter? || s.count - 1 != 0
  }

  predicate Enabled(s: State, a: Action) {
    match a
    case Begin(t, call) => t !in s.m.at && t !in s.calls
    case Step(t, move) => CanMove(s.m, t, move) && t in s.calls && Guard(s, s.calls[t], move)
  }

  predicate Guard(s: State, call: Call, move: Move) {
    && (move.Pass? ==> !Blocked(s, call))
    && (move.BeginWait? ==> Blocked(s, call))
    && (move.Act? ==> !Quiet(s, call))
    && (move.ActQuietly? ==> Quiet(s, call))
    && (move.Notify? ==> move.who == Asleep(s.m, CountedDown))
  }

  function After(s: State, a: Action): State
    requires Enabled(s, a)
  {
    match a
    case Begin(t, call) => s.(m := Joined(s.m, t, RoleOf(call)), calls := s.calls[t := call])
    case Step(t, move) =>
      var m := Moved(s.m, t, move);
      if (move.Act? || move.ActQuietly?) && s.calls[t].Counter? then
        s.(m := m, count := s.count - 1, downs := s.downs + 1)
      else if move.Unlock? then s.(m := Left(m, t), calls := s.calls - {t})
      else s.(m := m)
  }

  // ---------- The invariant ----------

  predicate Fits(place: Place, call: Call, count: int) {
    && (call.Waiter? && (place == Inside(Ready) || Finishing(place)) ==> count <= 0)
    && (call.Waiter? ==> place != Inside(Signal))
    && (call.Counter? ==> !place.Waiting? && !place.Sleeping? && !place.Woken? && !place.Back?)
    && (place.Waiting? ==> count > 0)
    && (place == Inside(Signal) ==> count == 0)
  }

  predicate Settled(s: State, t: Tid)
    requires t in s.calls && t in s.m.at && t in s.m.role
  {
    s.m.role[t] == RoleOf(s.calls[t]) && Fits(s.m.at[t], s.calls[t], s.count)
  }

  predicate Tidy(s: State) {
    && Sound(s.m)
    && s.calls.Keys == s.m.at.Keys
    && s.count == s.n - s.downs
    && (forall t {:trigger Settled(s, t)} :: t in s.calls ==> Settled(s, t))
  }

  /** At zero nobody sleeps, but for the moment before the CountDown that reached it notifies. */
  predicate NobodyForgotten(s: State) {
    s.count <= 0 && Asleep(s.m, CountedDown) != {} ==> s.m.owner in s.m.at && s.m.at[s.m.owner] == Inside(Signal)
  }

  ghost predicate Inv(s: State) {
    Tidy(s) && NobodyForgotten(s)
  }

  lemma StepKeepsTidy(s: State, a: Action)
    requires Tidy(s) && Enabled(s, a)
    ensures Tidy(After(s, a))
  {
    var later := After(s, a);
    match a {
      case Begin(t, call) => JoinKeepsSound(s.m, t, RoleOf(call));
      case Step(t, move) =>
        MoveKeepsSound(s.m, t, move);
        if move.Unlock? { LeaveKeepsSound(Moved(s.m, t, move), t); }
    }
    forall u | u in later.calls
      ensures u in later.m.at && u in later.m.role && Settled(later, u)
    {
      if u != a.t { OtherSettled(s, a, u); } else { OwnSettled(s, a); }
    }
    hide Moved, Sound, CanMove;
  }

  lemma OtherSettled(s: State, a: Action, u: Tid)
    requires Tidy(s) && Enabled(s, a) && u in s.calls && u != a.t
    ensures var later := After(s, a);
            u in later.calls && u in later.m.at && u in later.m.role && Settled(later, u)
  {
    assert Settled(s, u);
    if a.Step? {
      MoveTouches(s.m, a.t, a.move);
      Bystander(s.m, a.t, a.move, u);
    }
    hide Moved, Sound;
  }

  lemma OwnSettled(s: State, a: Action)
    requires Tidy(s) && Enabled(s, a) && a.t in After(s, a).calls
    ensures var later := After(s, a);
            a.t in later.m.at && a.t in later.m.role && Settled(later, a.t)
  {
    if a.Step? {
      assert Settled(s, a.t);
      MoveTouches(s.m, a.t, a.move);
    }
    hide Moved, Sound;
  }

  lemma StepKeepsInv(s: State, a: Action)
    requires Inv(s) && Enabled(s, a)
    ensures Inv(After(s, a))
  {
    StepKeepsTidy(s, a);
    if a.Step? {
      assert Settled(s, a.t) && InRole(s.m.at[a.t], s.m.role[a.t]);
      SleepersAfter(s.m, a.t, a.move, CountedDown);
      if Asleep(s.m, CountedDown) != {} && s.count <= 0 && a.t != s.m.owner {
        Bystander(s.m, a.t, a.move, s.m.owner);
      }
    }
  }

  /** The calls do not restrict the scheduler, but that CountDown notifies all; a thread may call at any time. */
  lemma SchedulerStaysFree(s: State, t: Tid, who: set<Tid>)
    requires Tidy(s) && t in s.calls
    ensures s.m.at[t].Sleeping? ==> Enabled(s, Step(t, Wake))
    ensures s.m.owner == 0 && s.m.at[t].Outside? ==> Enabled(s, Step(t, Acquire))
    ensures s.m.owner == 0 && s.m.at[t].Woken? ==> Enabled(s, Step(t, Relock))
    ensures Enabled(s, Step(t, Notify(who)))
            <==> CanMove(s.m, t, Notify(who)) && who == Asleep(s.m, CountedDown)
    ensures forall u: Tid, call: Call :: u !in s.calls ==> Enabled(s, Begin(u, call))
  {
  }

  // ---------- Runs ----------

  predicate IsRun(s: State, run: seq<Action>)
    decreases |run|, 0
  {
    run == [] || (IsRun(s, run[..|run| - 1]) && Enabled(Final(s, run[..|run| - 1]), run[|run| - 1]))
  }

  function Final(s: State, run: seq<Action>): State
    requires IsRun(s, run)
    decreases |run|, 1
  {
    if run == [] then s else After(Final(s, run[..|run| - 1]), run[|run| - 1])
  }

  lemma InitialInv(n: int)
    ensures Inv(Initial(n))
  {
    assert Asleep(FREE, CountedDown) == {};
  }

  lemma {:induction false} EveryRunKeepsInv(n: int, run: seq<Action>)
    requires IsRun(Initial(n), run)
    ensures Inv(Final(Initial(n), run)) && Final(Initial(n), run).n == n
    decreases |run|
  {
    hide Inv, Enabled, After;
    InitialInv(n);
    if run != [] {
      var before, a := run[..|run| - 1], run[|run| - 1];
      EveryRunKeepsInv(n, before);
      StepKeepsInv(Final(Initial(n), before), a);
      StepKeepsStart(Final(Initial(n), before), a);
    }
  }

  lemma StepKeepsStart(s: State, a: Action)
    requires Enabled(s, a)
    ensures After(s, a).n == s.n
  {
    hide Moved, CanMove, Guard;
  }

  /** Once the count is down to zero nobody sleeps between the guarded blocks. */
  lemma NobodySleepsAtZero(s: State)
    requires Inv(s) && s.count <= 0 && s.m.owner == 0
    ensures Asleep(s.m, CountedDown) == {}
  {
  }

  /** Wait returns only after n calls of CountDown have decremented the count. */
  lemma WaitReturnsAfterCountDowns(n: int, run: seq<Action>, t: Tid)
    requires IsRun(Initial(n), run)
    requires var s := Final(Initial(n), run); Enabled(s, Step(t, Unlock)) && s.calls[t].Waiter?
    ensures Final(Initial(n), run).downs >= n
  {
    EveryRunKeepsInv(n, run);
    assert Settled(Final(Initial(n), run), t);
  }

  // ---------- Progress ----------

  ghost predicate Stuck(s: State) {
    forall t: Tid, move: Move :: !move.Wake? ==> !Enabled(s, Step(t, move))
  }

  /** Only waiters stay, and only while CountDown has been called too few times. */
  lemma StuckMeansTooFewCountDowns(s: State)
    requires Inv(s) && Stuck(s)
    ensures s.m.owner == 0
    ensures forall t :: t in s.calls ==> s.calls[t].Waiter? && s.m.at[t].Sleeping?
    ensures s.calls != map[] ==> s.downs < s.n
  {
    if s.m.owner != 0 { NextStepIsEnabled(s, s.m.owner); }
    forall t | t in s.calls
      ensures s.calls[t].Waiter? && s.m.at[t] == Sleeping(CountedDown)
    {
      assert Settled(s, t) && InRole(s.m.at[t], s.m.role[t]);
      NextStepIsEnabled(s, t);
    }
    if t :| t in s.calls {
      assert t in Asleep(s.m, CountedDown);
    }
  }

  function NextStep(s: State, t: Tid): Move
    requires t in s.calls && t in s.m.at && t in s.m.role
  {
    NextMove(s.m, t, Blocked(s, s.calls[t]), Quiet(s, s.calls[t]))
  }

  lemma NextStepIsEnabled(s: State, t: Tid)
    requires Tidy(s) && t in s.calls && (s.m.owner == 0 || s.m.owner == t)
    ensures Enabled(s, Step(t, NextStep(s, t)))
    ensures NextStep(s, t).Wake? <==> s.m.at[t].Sleeping?
  {
    assert Settled(s, t);
    NextMoveIsEnabled(s.m, t, Blocked(s, s.calls[t]), Quiet(s, s.calls[t]));
  }

  /** The notification is still to come. */
  predicate Pending(s: State) {
    s.count > 0 || (s.m.owner in s.m.at && s.m.at[s.m.owner] == Inside(Signal))
  }

  /** Every step but a new call and a wake-up without a notification brings the calls nearer to their ends. */
  lemma StepsRunOut(s: State, t: Tid, move: Move)
    requires Inv(s) && Enabled(s, Step(t, move)) && !move.Wake?
    ensures Inv(After(s, Step(t, move)))
    ensures var later := After(s, Step(t, move));
            && (Pending(later) ==> Pending(s))
            && ((Pending(s) && !Pending(later)) || Sum(PlaceRanks(later.m)) < Sum(PlaceRanks(s.m)))
  {
    StepKeepsInv(s, Step(t, move));
    assert Settled(s, t);
    PendingAfter(s, t, move);
    if move.Unlock? {
      EndLowersRanks(s.m, t);
    } else if !move.Notify? {
      MoveLowersRanks(s.m, t, move);
    }
    hide Moved, Sound, CanMove, After;
  }

  lemma PendingAfter(s: State, t: Tid, move: Move)
    requires Tidy(s) && Enabled(s, Step(t, move))
    ensures Pending(After(s, Step(t, move))) ==> Pending(s)
    ensures move.Notify? ==> Pending(s) && !Pending(After(s, Step(t, move)))
  {
    assert Settled(s, t);
    var later := After(s, Step(t, move));
    if later.m.owner != 0 && later.m.owner != t {
      MoveTouches(s.m, t, move);
      Bystander(s.m, t, move, later.m.owner);
    }
  }
}
