/**
  The start handshake of qingyi/util/thread_.cc: Thread::Start creates a thread and waits on
  a latch of one until ThreadData::RunInThread has stored the id of the new thread.
*/
module ThreadStart {
  import opened Monitor
  import Latch = LatchMachine

  /** The thread that calls Start. */
  datatype Parent = Idle | Created | InWait | Waited | Returned

  /** The thread that Start creates. */
  datatype Child = Unborn | Born | Stored | InCountDown | Running

  /** The ids of the two threads, and the fields latch_, started_ and tid_. */
  datatype State = State(me: Tid, kid: Tid, latch: Latch.State, started: bool, tid: int, parent: Parent, child: Child)

  datatype Action =
    | Start(created: bool)      // Start up to and with pthread_create
    | CallWait                  // Start: latch_.Wait()
    | CheckTid                  // Start: assert(tid_ > 0), and the return
    | Store                     // RunInThread: *tid_ = Tid()
    | CallCountDown             // RunInThread: latch_->CountDown()
    | Step(t: Tid, move: Move)  // a step of one of the two in the latch

  function Initial(me: Tid, kid: Tid): State {
    State(me, kid, Latch.Initial(1), false, 0, Idle, Unborn)
  }

  predicate Enabled(s: State, a: Action) {
    match a
    case Start(_) => s.parent.Idle? && !s.started
    case CallWait => s.parent.Created? && Latch.Enabled(s.latch, Latch.Begin(s.me, Latch.Waiter))
    case CheckTid => s.parent.Waited? && s.tid > 0
    case Store => s.child.Born?
    case CallCountDown => s.child.Stored? && Latch.Enabled(s.latch, Latch.Begin(s.kid, Latch.Counter))
    case Step(t, move) => Latch.Enabled(s.latch, Latch.Step(t, move))
  }

  function After(s: State, a: Action): State
    requires Enabled(s, a)
  {
    match a
    case Start(created) => if created then s.(started := true, parent := Created, child := Born) else s
    case CallWait => s.(latch := Latch.After(s.latch, Latch.Begin(s.me, Latch.Waiter)), parent := InWait)
    case CheckTid => s.(parent := Returned)
    case Store => s.(tid := s.kid, child := Stored)
    case CallCountDown => s.(latch := Latch.After(s.latch, Latch.Begin(s.kid, Latch.Counter)), child := InCountDown)
    case Step(t, move) =>
      var later := s.(latch := Latch.After(s.latch, Latch.Step(t, move)));
      if !move.Unlock? then later else if t == s.me then later.(parent := Waited) else later.(child := Running)
  }

  // ---------- The invariant ----------

  predicate Tidy(s: State) {
    && s.me != s.kid
    && s.latch.n == 1
    && s.latch.calls == (if s.parent.InWait? then map[s.me := Latch.Waiter] else map[])
                        + (if s.child.InCountDown? then map[s.kid := Latch.Counter] else map[])
    && (s.started <==> !s.parent.Idle?)
    && (s.child.Unborn? <==> s.parent.Idle?)
    && s.tid == (if s.child.Unborn? || s.child.Born? then 0 else s.kid)
  }

  predicate Counted(s: State) {
    s.child.Running? || (s.child.InCountDown? && s.kid in s.latch.m.at && Finishing(s.latch.m.at[s.kid]))
  }

  ghost predicate Inv(s: State) {
    && Latch.Inv(s.latch)
    && Tidy(s)
    && s.latch.downs == (if Counted(s) then 1 else 0)
    && (s.parent.Waited? || s.parent.Returned? ==> s.latch.downs == 1)
  }

  lemma StepKeepsInv(s: State, a: Action)
    requires Inv(s) && Enabled(s, a)
    ensures Inv(After(s, a))
  {
    match a
    case CallWait => WaitKeepsInv(s);
    case CallCountDown => CountDownKeepsInv(s);
    case Step(t, move) => MoveKeepsInv(s, t, move);
    case _ => hide Latch.Inv, Latch.After, Latch.Enabled;
  }

  lemma WaitKeepsInv(s: State)
    requires Inv(s) && Enabled(s, CallWait)
    ensures Inv(After(s, CallWait))
  {
    Latch.StepKeepsInv(s.latch, Latch.Begin(s.me, Latch.Waiter));
    hide Latch.NobodyForgotten, Sound;
  }

  lemma CountDownKeepsInv(s: State)
    requires Inv(s) && Enabled(s, CallCountDown)
    ensures Inv(After(s, CallCountDown))
  {
    Latch.StepKeepsInv(s.latch, Latch.Begin(s.kid, Latch.Counter));
    hide Latch.NobodyForgotten, Sound;
  }

  lemma MoveKeepsInv(s: State, t: Tid, move: Move)
    requires Inv(s) && Enabled(s, Step(t, move))
    ensures Inv(After(s, Step(t, move)))
  {
    Latch.StepKeepsInv(s.latch, Latch.Step(t, move));
    hide Latch.NobodyForgotten, Latch.Tidy;
    if t == s.me {
      WaiterKeepsCount(s, move);
    } else {
      CounterKeepsCount(s, move);
    }
    CallsAfter(s, t, move);
    hide Latch.After, Counted;
  }

  lemma CallsAfter(s: State, t: Tid, move: Move)
    requires Tidy(s) && Enabled(s, Step(t, move))
    ensures Tidy(After(s, Step(t, move)))
    ensures t == s.me || t == s.kid
    ensures t == s.me ==> s.parent.InWait?
  {
    hide Moved, Sound, CanMove;
  }

  lemma WaiterKeepsCount(s: State, move: Move)
    requires Inv(s) && Enabled(s, Step(s.me, move))
    ensures var later := After(s, Step(s.me, move));
            && later.latch.downs == s.latch.downs && (Counted(later) <==> Counted(s))
            && (move.Unlock? ==> s.latch.downs == 1)
  {
    assert Latch.Settled(s.latch, s.me);
    MoveTouches(s.latch.m, s.me, move);
    hide Moved, Sound, CanMove, Latch.NobodyForgotten;
  }

  lemma CounterKeepsCount(s: State, move: Move)
    requires Inv(s) && Enabled(s, Step(s.kid, move))
    ensures var later := After(s, Step(s.kid, move));
            later.latch.downs == (if Counted(later) then 1 else 0) && later.latch.downs >= s.latch.downs
  {
    assert Latch.Settled(s.latch, s.kid);
    MoveTouches(s.latch.m, s.kid, move);
    hide Moved, Sound, CanMove, Latch.NobodyForgotten;
  }

  // ---------- Runs ----------

  predicate IsRun(s: State, run: seq<Action>)
    decreases |run|, 0
  {
    run == [] || (IsRun(s, run[..|run| - 1]) && Enabled(Final(s, run[..|run| - 1]), run[|run| - 1]))
  }

  function Final(s: State, run: seq<Action>): State
    requires IsRun(s, run)
    decreases |run|, 1
  {
    if run == [] then s else After(Final(s, run[..|run| - 1]), run[|run| - 1])
  }

  lemma InitialInv(me: Tid, kid: Tid)
    requires me != kid
    ensures Inv(Initial(me, kid))
  {
    assert Asleep(FREE, CountedDown) == {};
  }

  lemma {:induction false} EveryRunKeepsInv(me: Tid, kid: Tid, run: seq<Action>)
    requires me != kid && IsRun(Initial(me, kid), run)
    ensures Inv(Final(Initial(me, kid), run))
    ensures Final(Initial(me, kid), run).kid == kid
    decreases |run|
  {
    hide Inv, Enabled, After;
    InitialInv(me, kid);
    if run != [] {
      var before, a := run[..|run| - 1], run[|run| - 1];
      EveryRunKeepsInv(me, kid, before);
      StepKeepsInv(Final(Initial(me, kid), before), a);
      StepKeepsIds(Final(Initial(me, kid), before), a);
    }
  }

  lemma StepKeepsIds(s: State, a: Action)
    requires Enabled(s, a)
    ensures After(s, a).me == s.me && After(s, a).kid == s.kid
  {
    hide Latch.Enabled, Latch.After;
  }

  /** When Start comes to assert(tid_ > 0), and when it returns, the new thread has stored its id. */
  lemma StartReturnsWithTid(me: Tid, kid: Tid, run: seq<Action>)
    requires me != kid && IsRun(Initial(me, kid), run)
    ensures var s := Final(Initial(me, kid), run);
            && (s.parent.Waited? || s.parent.Returned? ==> s.started && s.tid == kid)
            && (s.parent.Waited? ==> Enabled(s, CheckTid))
            && (s.started <==> !s.parent.Idle?)
  {
    EveryRunKeepsInv(me, kid, run);
    TidIsStored(Final(Initial(me, kid), run));
    hide Final, IsRun, Inv;
  }

  lemma TidIsStored(s: State)
    requires Inv(s)
    ensures s.parent.Waited? || s.parent.Returned? ==> s.started && s.tid == s.kid
    ensures s.parent.Waited? ==> Enabled(s, CheckTid)
    ensures s.started <==> !s.parent.Idle?
  {
  }

  // ---------- Progress ----------

  /** A step that is neither a new call of Start nor a wake-up without a notification. */
  predicate Internal(a: Action) {
    !a.Start? && !(a.Step? && a.move.Wake?)
  }

  ghost predicate Stuck(s: State) {
    forall a :: Internal(a) ==> !Enabled(s, a)
  }

  /** The handshake comes to a stand only when Start has returned and the thread function runs. */
  lemma StuckMeansStarted(s: State)
    requires Inv(s) && Stuck(s) && s.started
    ensures s.parent.Returned? && s.child.Running? && s.tid == s.kid
  {
    assert s.child.InCountDown? <==> s.kid in s.latch.calls;
    assert s.parent.InWait? <==> s.me in s.latch.calls;
    assert Latch.Stuck(s.latch) by {
      forall t: Tid, move: Move | !move.Wake?
        ensures !Latch.Enabled(s.latch, Latch.Step(t, move))
      {
        assert !Enabled(s, Step(t, move));
      }
    }
    Latch.StuckMeansTooFewCountDowns(s.latch);
    assert !Enabled(s, Store) && !Enabled(s, CallCountDown);
    assert s.child.Running?;
    assert !Enabled(s, CallWait) && !Enabled(s, CheckTid);
  }

  /** Steps of the two threads outside the latch that are still to come. */
  function StepsOutside(s: State): nat {
    (match s.parent case Idle => 4 case Created => 3 case InWait => 2 case Waited => 1 case Returned => 0)
    + (match s.child case Unborn => 4 case Born => 3 case Stored => 2 case InCountDown => 1 case Running => 0)
  }

  ghost predicate Nearer(later: State, s: State) {
    || StepsOutside(later) < StepsOutside(s)
    || (StepsOutside(later) == StepsOutside(s)
        && (Latch.Pending(later.latch) ==> Latch.Pending(s.latch))
        && ((Latch.Pending(s.latch) && !Latch.Pending(later.latch))
            || Sum(PlaceRanks(later.latch.m)) < Sum(PlaceRanks(s.latch.m))))
  }

  lemma StepsRunOut(s: State, a: Action)
    requires Inv(s) && Enabled(s, a) && Internal(a)
    ensures Inv(After(s, a))
    ensures Nearer(After(s, a), s)
  {
    StepKeepsInv(s, a);
    if a.Step? {
      CallsAfter(s, a.t, a.move);
      Latch.StepsRunOut(s.latch, a.t, a.move);
    }
  }

  ghost predicate IsInternalStep(s: State, later: State) {
    exists a :: Internal(a) && Enabled(s, a) && later == After(s, a)
  }

  /** Start cannot go on for ever: with StuckMeansStarted, it returns. */
  lemma NoEndlessRun(run: nat -> State)
    requires Inv(run(0))
    ensures exists i: nat :: !IsInternalStep(run(i), run(i + 1))
  {
    if forall i: nat :: IsInternalStep(run(i), run(i + 1)) {
      Descend(run, 0);
    }
  }

  lemma Descend(run: nat -> State, i: nat)
    requires Inv(run(i))
    requires forall j: nat :: IsInternalStep(run(j), run(j + 1))
    ensures false
    decreases StepsOutside(run(i)), Latch.Pending(run(i).latch), Sum(PlaceRanks(run(i).latch.m))
  {
    hide IsInternalStep, Inv, Sum, PlaceRanks, Latch.Pending, StepsOutside;
    assert IsInternalStep(run(i), run(i + 1));
    InternalStepRunsOut(run(i), run(i + 1));
    Descend(run, i + 1);
  }

  lemma InternalStepRunsOut(s: State, later: State)
    requires Inv(s) && IsInternalStep(s, later)
    ensures Inv(later) && Nearer(later, s)
  {
    var a :| Internal(a) && Enabled(s, a) && later == After(s, a);
    hide After, Enabled, Internal, Inv;
    StepsRunOut(s, a);
  }
}
