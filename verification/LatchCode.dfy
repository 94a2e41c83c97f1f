/**
  CountDownLatch of qingyi/util/countdown_latch_.cc as the code that a thread runs.  Between
  any two steps of a thread the others take theirs, as a schedule says.  Every call is an
  interleaving of the machine in LatchMachine.
*/
module LatchCode {
  import opened Monitor
  import opened History
  import opened LatchMachine

  /** What the other threads try to do, turn by turn. */
  type Schedule = seq<seq<Action>>

  /** The steps of a thread and the turns of the others, so far. */
  type Turns = seq<Turn<Action>>

  /** A state and the turns that led to it. */
  datatype Mark = Mark(s: State, trace: Turns)

  /** The thread is where it was, or woken, with the same call; inside the block it finds the count as it left it. */
  ghost predicate Undisturbed(s: State, later: State, t: Tid)
    requires t in s.calls && t in s.m.at
  {
    && t in later.calls && later.calls[t] == s.calls[t]
    && t in later.m.at && (later.m.at[t] == s.m.at[t] || Roused(s.m.at[t], later.m.at[t]))
    && later.n == s.n && later.count <= s.count
    && (s.m.owner == t ==> later.m.owner == t && later.count == s.count)
  }

  lemma RivalLeaves(s: State, a: Action, t: Tid)
    requires Inv(s) && Enabled(s, a) && t in s.calls && a.t != t
    ensures Undisturbed(s, After(s, a), t)
  {
    if a.Step? {
      MoveTouches(s.m, a.t, a.move);
      Bystander(s.m, a.t, a.move, t);
    }
    hide Moved, Sound;
  }

  /** Some steps later the thread has the same call, and the count is no higher. */
  ghost predicate Waits(start: Mark, now: Mark, t: Tid) {
    var (s, later) := (start.s, now.s);
    && t in s.calls && t in later.calls && later.calls[t] == s.calls[t]
    && t in later.m.at && t in later.m.role && later.m.role[t] == RoleOf(later.calls[t])
    && later.n == s.n && later.count <= s.count && Follows(start.trace, now.trace)
  }

  lemma WaitsOn(start: Mark, mid: Mark, now: Mark, t: Tid)
    requires Waits(start, mid, t) && Waits(mid, now, t)
    ensures Waits(start, now, t)
  {
  }

  lemma StillWaits(start: Mark, now: Mark, t: Tid)
    requires Waits(start, now, t)
    ensures Waits(now, now, t)
  {
  }

  /** A passage of t through the monitor, and then steps of the others. */
  ghost predicate Passes(before: Mark, now: Mark, t: Tid, dest: Place) {
    && Waits(before, now, t)
    && (now.s.m.at[t] == dest || Roused(dest, now.s.m.at[t]))
    && (!dest.Sleeping? ==> now.s.m.owner == t)
    && (!dest.Sleeping? && before.s.m.owner == t ==> now.s.count == before.s.count)
  }

  lemma PassesOn(before: Mark, mid: State, now: Mark, t: Tid, move: Move)
    requires var s := before.s;
             Inv(s) && t in s.calls && Enabled(s, Step(t, move)) && mid == s.(m := Moved(s.m, t, move))
    requires !move.Wake? && !move.Unlock? && Undisturbed(mid, now.s, t) && Inv(now.s) && before.trace <= now.trace
    ensures Passes(before, now, t, Dest(before.s.m.at[t], before.s.m.role[t], move))
  {
    MoveTouches(before.s.m, t, move);
    assert Settled(now.s, t);
  }

  lemma Acts(before: Mark, mid: State, now: Mark, t: Tid)
    requires t in before.s.calls && t in mid.calls && mid.calls[t] == before.s.calls[t] && mid.n == before.s.n
    requires mid.count == before.s.count - (if before.s.calls[t].Counter? then 1 else 0)
    requires t in mid.m.at && mid.m.owner == t && (mid.m.at[t] == Inside(Signal) || mid.m.at[t] == Inside(Exit))
    requires Undisturbed(mid, now.s, t) && Inv(now.s) && before.trace <= now.trace
    ensures Waits(before, now, t) && now.s.m.owner == t && now.s.m.at[t] == mid.m.at[t]
    ensures before.s.calls[t].Counter? ==> now.s.count <= before.s.count - 1
  {
    assert Settled(now.s, t);
  }

  lemma Leaves(before: Mark, now: Mark, t: Tid)
    requires Inv(before.s) && t in before.s.calls && Undisturbed(before.s, now.s, t)
    requires Inv(now.s) && before.trace <= now.trace
    ensures Waits(before, now, t)
    ensures before.s.m.at[t].Outside? ==> now.s.m.at[t].Outside?
    ensures before.s.m.at[t].Sleeping? || before.s.m.at[t].Woken? ==> now.s.m.at[t].Sleeping? || now.s.m.at[t].Woken?
  {
    assert Settled(now.s, t);
  }

  /** What the other threads make of their turn: each takes its step if it can when it comes to it. */
  function TheirTurn(s: State, t: Tid, batch: seq<Action>): State {
    if batch == [] then s
    else
      var before, a := TheirTurn(s, t, batch[..|batch| - 1]), batch[|batch| - 1];
      if a.t != t && Enabled(before, a) then After(before, a) else before
  }

  lemma {:induction false} TurnLeaves(s: State, t: Tid, batch: seq<Action>)
    requires Inv(s) && t in s.calls
    ensures Inv(TheirTurn(s, t, batch)) && Undisturbed(s, TheirTurn(s, t, batch), t)
    ensures TheirTurn(s, t, batch).n == s.n
    decreases |batch|
  {
    if batch != [] {
      var before, a := TheirTurn(s, t, batch[..|batch| - 1]), batch[|batch| - 1];
      TurnLeaves(s, t, batch[..|batch| - 1]);
      if a.t != t && Enabled(before, a) {
        StepKeepsInv(before, a);
        RivalLeaves(before, a, t);
      }
    }
  }

  function AfterTurn(s: State, turn: Turn<Action>): State
    requires turn.Own? ==> Enabled(s, turn.a)
  {
    match turn
    case Own(a) => After(s, a)
    case Rivals(t, batch) => TheirTurn(s, t, batch)
  }

  predicate AreTurns(s: State, turns: Turns)
    decreases |turns|, 0
  {
    turns == []
    || (AreTurns(s, turns[..|turns| - 1])
        && (turns[|turns| - 1].Own? ==> Enabled(Replay(s, turns[..|turns| - 1]), turns[|turns| - 1].a)))
  }

  /** The state at the end of the turns. */
  function Replay(s: State, turns: Turns): State
    requires AreTurns(s, turns)
    decreases |turns|, 1
  {
    if turns == [] then s
    else AfterTurn(Replay(s, turns[..|turns| - 1]), turns[|turns| - 1])
  }

  lemma OneMoreTurn(s: State, turns: Turns, turn: Turn<Action>)
    requires AreTurns(s, turns) && (turn.Own? ==> Enabled(Replay(s, turns), turn.a))
    ensures AreTurns(s, turns + [turn])
    ensures Replay(s, turns + [turn]) == AfterTurn(Replay(s, turns), turn)
  {
    hide AfterTurn, Enabled;
    var all := turns + [turn];
    assert all[..|all| - 1] == turns && all[|all| - 1] == turn;
  }

  /** The turns lead from a latch made with n to this state, and the others have had theirs as the schedule says. */
  ghost predicate Reached(n: int, s: State, schedule: Schedule, left: nat, trace: Turns) {
    var start := Initial(n);
    Inv(s) && AreTurns(start, trace) && s == Replay(start, trace) && Played(schedule, left, trace)
  }

  lemma Extended(n: int, s: State, schedule: Schedule, left: nat, trace: Turns, a: Action)
    requires Reached(n, s, schedule, left, trace) && Enabled(s, a)
    ensures Reached(n, After(s, a), schedule, left, trace + [Own(a)])
    ensures After(s, a).n == s.n
  {
    StepKeepsInv(s, a);
    assert After(s, a).n == s.n;
    PlaysOwn(schedule, left, trace, a);
    hide After, Enabled, Inv, Played, AreTurns, Replay;
    OneMoreTurn(Initial(n), trace, Own(a));
  }

  lemma RivalsPlay(n: int, s: State, schedule: Schedule, left: nat, trace: Turns, t: Tid)
    requires Reached(n, s, schedule, left, trace) && 0 < left <= |schedule| && t in s.calls
    ensures var batch := schedule[|schedule| - left];
            Reached(n, TheirTurn(s, t, batch), schedule, left - 1, trace + [Rivals(t, batch)])
            && t in s.calls && t in s.m.at && Undisturbed(s, TheirTurn(s, t, batch), t)
            && TheirTurn(s, t, batch).n == s.n
  {
    var batch := schedule[|schedule| - left];
    hide After, Enabled, Inv, Played, AreTurns, Replay, TheirTurn, Undisturbed;
    TurnLeaves(s, t, batch);
    PlaysRivals(schedule, left, trace, t);
    OneMoreTurn(Initial(n), trace, Rivals(t, batch));
  }

  lemma BeforeTurn(n: int, s: State, schedule: Schedule, left: nat, trace: Turns, t: Tid)
    requires Reached(n, s, schedule, left, trace) && t in s.calls
    ensures left <= |schedule| && t in s.m.at && Undisturbed(s, s, t)
  {
  }

  /** Whatever the schedule, the turns are a run of the machine. */
  lemma {:induction false} TurnsAreRun(s: State, turns: Turns) returns (run: seq<Action>)
    requires AreTurns(s, turns)
    ensures IsRun(s, run) && Final(s, run) == Replay(s, turns)
    decreases |turns|
  {
    if turns == [] { return []; }
    run := TurnsAreRun(s, turns[..|turns| - 1]);
    match turns[|turns| - 1]
    case Own(a) =>
      LongerRun(s, run, a);
      run := run + [a];
    case Rivals(t, batch) => run := TheirTurnIsRun(s, run, t, batch);
  }

  lemma LongerRun(s: State, run: seq<Action>, a: Action)
    requires IsRun(s, run) && Enabled(Final(s, run), a)
    ensures IsRun(s, run + [a]) && Final(s, run + [a]) == After(Final(s, run), a)
  {
    var longer := run + [a];
    assert longer[..|longer| - 1] == run && longer[|longer| - 1] == a;
    hide Enabled, After;
  }

  lemma {:induction false} TheirTurnIsRun(s: State, run: seq<Action>, t: Tid, batch: seq<Action>)
    returns (longer: seq<Action>)
    requires IsRun(s, run)
    ensures IsRun(s, longer) && Final(s, longer) == TheirTurn(Final(s, run), t, batch)
    decreases |batch|
  {
    longer := run;
    if batch != [] {
      var a := batch[|batch| - 1];
      longer := TheirTurnIsRun(s, run, t, batch[..|batch| - 1]);
      if a.t != t && Enabled(Final(s, longer), a) {
        LongerRun(s, longer, a);
        longer := longer + [a];
      }
    }
  }

  /** The step was taken in its turn exactly if it is another thread's and could be taken after those before it. */
  ghost predicate TookTurn(s: State, t: Tid, batch: seq<Action>, taken: seq<bool>, i: nat)
    requires |taken| == |batch| && i < |batch|
  {
    var before := Picked(batch[..i], taken[..i]);
    IsRun(s, before) && (taken[i] <==> batch[i].t != t && Enabled(Final(s, before), batch[i]))
  }

  /** A turn is a run of steps out of its batch, and no step is left out that could be taken when it came to it. */
  lemma {:induction false} TurnTakesAll(s: State, t: Tid, batch: seq<Action>) returns (taken: seq<bool>)
    ensures |taken| == |batch| && forall i :: 0 <= i < |batch| ==> TookTurn(s, t, batch, taken, i)
    ensures IsRun(s, Picked(batch, taken)) && Final(s, Picked(batch, taken)) == TheirTurn(s, t, batch)
    decreases |batch|
  {
    if batch == [] { return []; }
    var last := |batch| - 1;
    var first := TurnTakesAll(s, t, batch[..last]);
    var before := Picked(batch[..last], first);
    var takes := batch[last].t != t && Enabled(Final(s, before), batch[last]);
    taken := first + [takes];
    PickedOn(batch, first, takes);
    if takes { LongerRun(s, before, batch[last]); }
    hide Enabled, After, Picked, IsRun, Final;
    assert before + [] == before;
    TookEarlier(s, t, batch, first, takes);
  }

  lemma TookEarlier(s: State, t: Tid, batch: seq<Action>, first: seq<bool>, takes: bool)
    requires |first| + 1 == |batch|
    requires forall i :: 0 <= i < |first| ==> TookTurn(s, t, batch[..|first|], first, i)
    requires var before := Picked(batch[..|first|], first);
             IsRun(s, before)
             && (takes <==> batch[|first|].t != t && Enabled(Final(s, before), batch[|first|]))
    ensures forall i :: 0 <= i < |batch| ==> TookTurn(s, t, batch, first + [takes], i)
  {
    hide Picked, IsRun, Final, Enabled;
    var taken := first + [takes];
    forall i | 0 <= i < |batch|
      ensures TookTurn(s, t, batch, taken, i)
    {
      if i < |first| {
        assert TookTurn(s, t, batch[..|first|], first, i);
        assert batch[..|first|][..i] == batch[..i] && first[..i] == taken[..i];
      } else {
        assert taken[..i] == first;
      }
    }
  }

  /** A batch that the other threads can run to its end they do run to its end. */
  lemma {:induction false} TurnOfRun(s: State, t: Tid, batch: seq<Action>)
    requires IsRun(s, batch) && forall i :: 0 <= i < |batch| ==> batch[i].t != t
    ensures TheirTurn(s, t, batch) == Final(s, batch)
    decreases |batch|
  {
    hide Enabled, After;
    if batch != [] { TurnOfRun(s, t, batch[..|batch| - 1]); }
  }

  lemma Excluded(s: State, t: Tid)
    requires Inv(s) && t in s.m.at && (s.m.at[t].Sleeping? || s.m.owner != 0)
    requires s.m.at[t].Sleeping? || s.m.at[t].Woken? || s.m.at[t].Outside?
    ensures HeldUp(s.m, t)
  {
  }

  class CountDownLatch {
    var mutex: Mutex   // mutex_ with condition_
    var count: int     // count_
    const n: int       // what count_ was made with
    var downs: nat
    var calls: map<Tid, Call>
    const schedule: Schedule
    var left: nat      // how much of the schedule is to come
    ghost var trace: Turns

    function Now(): State
      reads this
    {
      State(mutex, calls, count, n, downs)
    }

    ghost function Here(): Mark
      reads this
    {
      Mark(Now(), trace)
    }

    /** The turns in trace have led to this state of the latch, and the schedule was played but for what is left. */
    ghost predicate Valid()
      reads this
    {
      Reached(n, Now(), schedule, left, trace)
    }

    constructor (n: int, schedule: Schedule)
      ensures Valid() && this.n == n && count == n && trace == [] && calls == map[]
      ensures this.schedule == schedule && left == |schedule|
    {
      this.n, this.schedule, left := n, schedule, |schedule|;
      mutex, calls, count, downs, trace := FREE, map[], n, 0, [];
      new;
      EveryRunKeepsInv(n, []);
    }

    /** One step of any thread. */
    method Happens(a: Action)
      requires Valid() && Enabled(Now(), a)
      modifies this`mutex, this`calls, this`count, this`downs, this`trace
      ensures Valid() && Now() == After(old(Now()), a) && trace == old(trace) + [Own(a)]
    {
      hide Reached, After, Enabled;
      Extended(n, Now(), schedule, left, trace, a);
      var s := After(Now(), a);
      mutex, calls, count, downs := s.m, s.calls, s.count, s.downs;
      trace := trace + [Own(a)];
      assert Now() == s;
    }

    lemma ValidMeansInv()
      requires Valid()
      ensures Inv(Now())
    {
    }

    /** The other threads go on, as the schedule says. */
    method Others(t: Tid)
      requires Valid() && t in calls
      modifies this
      ensures Valid() && left <= old(left) && Undisturbed(old(Now()), Now(), t)
      ensures if old(left) == 0 then left == 0 && Now() == old(Now()) && trace == old(trace)
              else left == old(left) - 1 && Now() == TheirTurn(old(Now()), t, schedule[|schedule| - left - 1])
                   && trace == old(trace) + [Rivals(t, schedule[|schedule| - left - 1])]
    {
      hide Reached, After, Enabled, TheirTurn, Undisturbed;
      BeforeTurn(n, Now(), schedule, left, trace, t);
      if left == 0 { return; }
      var batch := schedule[|schedule| - left];
      var s := TheirTurn(Now(), t, batch);
      RivalsPlay(n, Now(), schedule, left, trace, t);
      mutex, calls, count, downs := s.m, s.calls, s.count, s.downs;
      trace, left := trace + [Rivals(t, batch)], left - 1;
      assert Now() == s;
    }

    // ---------- Mutex and Condition, as thread t goes through them ----------

    /** One passage of t through the monitor; after it the others go on. */
    method Pass(t: Tid, move: Move, ghost start: Mark)
      requires Valid() && Waits(start, Here(), t)
      requires Enabled(Now(), Step(t, move)) && !move.Wake? && !move.Act? && !move.ActQuietly? && !move.Unlock?
      modifies this
      ensures Valid() && left <= old(left) && Waits(start, Here(), t)
      ensures Passes(old(Here()), Here(), t, old(Dest(mutex.at[t], mutex.role[t], move)))
      ensures left < old(left)
              || (mutex.at[t] == old(Dest(mutex.at[t], mutex.role[t], move)) && count == old(count))
      ensures Follows(old(trace) + [Own(Step(t, move))], trace)
    {
      ghost var before := Here();
      ValidMeansInv();
      MoveTouches(mutex, t, move);
      hide Reached, Inv, Moved, TheirTurn, Undisturbed;
      Extended(n, Now(), schedule, left, trace, Step(t, move));
      mutex := Moved(mutex, t, move);
      trace := trace + [Own(Step(t, move))];
      ghost var mid := Now();
      assert mid == After(before.s, Step(t, move));
      hide After, Enabled;
      Others(t);
      ValidMeansInv();
      PassesOn(before, mid, Here(), t, move);
      WaitsOn(start, before, Here(), t);
    }

    /** The others go on while t waits. */
    method Idle(t: Tid, ghost start: Mark)
      requires Valid() && Waits(start, Here(), t) && left > 0
      modifies this
      ensures Valid() && left < old(left) && Waits(start, Here(), t)
      ensures old(mutex.at[t].Outside?) ==> mutex.at[t].Outside?
      ensures old(mutex.at[t].Sleeping? || mutex.at[t].Woken?) ==> mutex.at[t].Sleeping? || mutex.at[t].Woken?
    {
      ghost var before := Here();
      Others(t);
      Leaves(before, Here(), t);
      WaitsOn(start, before, Here(), t);
    }

    /** Lock of mutex_; it fails if the schedule ends before the mutex is free. */
    method Lock(t: Tid, ghost start: Mark) returns (ok: bool)
      requires Valid() && Waits(start, Here(), t) && mutex.at[t] == Outside
      modifies this
      ensures Valid() && left <= old(left) && Waits(start, Here(), t)
      ensures ok ==> mutex.owner == t && mutex.at[t] == Inside(Check)
      ensures !ok ==> left == 0 && HeldUp(mutex, t)
    {
      hide Inv, AreTurns, Replay, Played, Follows;
      if left > 0 { Idle(t, start); }
      while mutex.owner != 0
        invariant Valid() && left <= old(left) && Waits(start, Here(), t)
        invariant mutex.at[t] == Outside
        decreases left
      {
        if left == 0 {
          Excluded(Now(), t);
          return false;
        }
        Idle(t, start);
      }
      Pass(t, Acquire, start);
      Pass(t, Assign, start);
      ok := true;
    }

    /** condition_.Wait(); it fails if the schedule ends before t is woken and the mutex is free. */
    method AwaitCondition(t: Tid, ghost start: Mark) returns (ok: bool)
      requires Valid() && Waits(start, Here(), t) && calls[t].Waiter?
      requires mutex.owner == t && mutex.at[t] == Inside(Check) && count > 0
      modifies this
      ensures Valid() && left <= old(left) && Waits(start, Here(), t)
      ensures ok ==> left < old(left) && mutex.owner == t && mutex.at[t] == Inside(Check)
      ensures !ok ==> left == 0 && HeldUp(mutex, t)
    {
      hide *;
      FallAsleep(t, start);
      ok := AwaitMutex(t, start);
      if ok { ComeBack(t, start); }
    }

    /** UnAssignHolder by the UnGuard, and the release of the mutex in pthread_cond_wait. */
    method FallAsleep(t: Tid, ghost start: Mark)
      requires Valid() && Waits(start, Here(), t) && calls[t].Waiter?
      requires mutex.owner == t && mutex.at[t] == Inside(Check) && count > 0
      modifies this
      ensures Valid() && left <= old(left) && Waits(start, Here(), t)
      ensures mutex.at[t].Sleeping? || mutex.at[t].Woken?
      ensures left < old(left) || mutex.at[t].Sleeping?
    {
      hide Inv, AreTurns, Replay, Played, Follows;
      Pass(t, BeginWait, start);
      Pass(t, Sleep, start);
    }

    /** The mutex taken again in pthread_cond_wait, and AssignHolder by the UnGuard. */
    method ComeBack(t: Tid, ghost start: Mark)
      requires Valid() && Waits(start, Here(), t) && mutex.at[t].Woken? && mutex.owner == 0
      modifies this
      ensures Valid() && left <= old(left) && Waits(start, Here(), t)
      ensures mutex.owner == t && mutex.at[t] == Inside(Check)
    {
      hide Inv, AreTurns, Replay, Played, Follows;
      Pass(t, Relock, start);
      Pass(t, Reassign, start);
    }

    /** In pthread_cond_wait, up to the moment when t is woken and the mutex is free. */
    method AwaitMutex(t: Tid, ghost start: Mark) returns (ok: bool)
      requires Valid() && Waits(start, Here(), t) && (mutex.at[t].Sleeping? || mutex.at[t].Woken?)
      modifies this
      ensures Valid() && left <= old(left) && Waits(start, Here(), t)
      ensures mutex.at[t].Sleeping? || mutex.at[t].Woken?
      ensures left < old(left) || mutex.at[t] == old(mutex.at[t])
      ensures if ok then mutex.at[t].Woken? && mutex.owner == 0 else left == 0 && HeldUp(mutex, t)
    {
      hide Inv, AreTurns, Replay, Played, Follows;
      while !mutex.at[t].Woken? || mutex.owner != 0
        invariant Valid() && Waits(start, Here(), t) && (mutex.at[t].Sleeping? || mutex.at[t].Woken?)
        invariant left < old(left) || (left == old(left) && mutex.at[t] == old(mutex.at[t]))
        decreases left
      {
        if left == 0 {
          Excluded(Now(), t);
          return false;
        }
        Idle(t, start);
      }
      ok := true;
    }

    /** The end of the block after its action: NotifyAll, if there is to be one, UnLock, and the return. */
    method Leave(t: Tid, ghost start: Mark)
      requires Valid() && Waits(start, Here(), t) && mutex.owner == t
      requires (mutex.at[t] == Inside(Signal) && calls[t].Counter?) || mutex.at[t] == Inside(Exit)
      modifies this
      ensures Valid() && left <= old(left) && t !in calls && count <= old(count) && Follows(start.trace, trace)
    {
      hide Inv, AreTurns, Replay, Played, Follows, Asleep;
      if mutex.at[t] == Inside(Signal) {
        Pass(t, Notify(Asleep(mutex, CountedDown)), start);
      }
      Pass(t, Unassign, start);
      FollowsNext(start.trace, trace, Own(Step(t, Unlock)));
      Happens(Step(t, Unlock));
    }

    /** --count_ in CountDown, nothing in Wait; after it the others go on. */
    method Decrement(t: Tid, ghost start: Mark)
      requires Valid() && Waits(start, Here(), t) && mutex.owner == t && mutex.at[t] == Inside(Ready)
      modifies this
      ensures Valid() && left <= old(left) && Waits(start, Here(), t) && mutex.owner == t
      ensures (mutex.at[t] == Inside(Signal) && calls[t].Counter?) || mutex.at[t] == Inside(Exit)
      ensures count <= old(count) - (if old(calls[t].Counter?) then 1 else 0)
    {
      ghost var before := Here();
      var move := if Quiet(Now(), calls[t]) then ActQuietly else Act;
      Shift(t, move);
      ghost var mid := Now();
      hide Moved, After, Enabled, Inv, Reached, Undisturbed;
      Others(t);
      ValidMeansInv();
      Acts(before, mid, Here(), t);
      WaitsOn(start, before, Here(), t);
    }

    method Shift(t: Tid, move: Move)
      requires Valid() && t in calls && Enabled(Now(), Step(t, move)) && (move.Act? || move.ActQuietly?)
      modifies this`mutex, this`count, this`downs, this`trace
      ensures Valid() && trace == old(trace) + [Own(Step(t, move))] && t in mutex.at
      ensures count == old(count) - (if calls[t].Counter? then 1 else 0)
      ensures mutex.owner == t && mutex.at[t] == (if move.Act? then Inside(Signal) else Inside(Exit))
    {
      Extended(n, Now(), schedule, left, trace, Step(t, move));
      MoveTouches(mutex, t, move);
      if calls[t].Counter? { count, downs := count - 1, downs + 1; }
      mutex := Moved(mutex, t, move);
      trace := trace + [Own(Step(t, move))];
      assert Now() == After(old(Now()), Step(t, move));
    }

    // ---------- The operations ----------

    /** A thread arrives with a call. */
    method Enter(t: Tid, call: Call)
      requires Valid() && t !in calls
      modifies this`mutex, this`calls, this`trace
      ensures Valid() && trace == old(trace) + [Own(Begin(t, call))]
      ensures Waits(Here(), Here(), t) && calls[t] == call && mutex.at[t] == Outside
    {
      Extended(n, Now(), schedule, left, trace, Begin(t, call));
      mutex, calls := Joined(mutex, t, RoleOf(call)), calls[t := call];
      trace := trace + [Own(Begin(t, call))];
      assert Now() == After(old(Now()), Begin(t, call));
    }

    method WaitBody(t: Tid) returns (done: bool)
      requires Valid() && Waits(Here(), Here(), t) && calls[t].Waiter? && mutex.at[t] == Outside
      modifies this
      ensures Valid() && left <= old(left) && Follows(old(trace), trace)
      ensures if done then t !in calls && count <= 0 else t in calls
      ensures !done ==> left == 0 && HeldUp(mutex, t)
    {
      hide Inv, AreTurns, Replay, Played, Follows;
      ghost var start := Here();
      done := Lock(t, start);
      if !done { return; }
      while count > 0
        invariant Valid() && left <= old(left) && Waits(start, Here(), t)
        invariant mutex.owner == t && mutex.at[t] == Inside(Check)
        decreases left
      {
        done := AwaitCondition(t, start);
        if !done { return; }
      }
      Pass(t, Move.Pass, start);
      Decrement(t, start);
      Leave(t, start);
      done := true;
    }

    /**
      Wait.  It returns only when the count is down to zero or below, after as many calls of
      CountDown; when the schedule ends before that, t still waits.
    */
    method Wait(t: Tid) returns (done: bool)
      requires Valid() && t !in calls
      modifies this
      ensures Valid() && left <= old(left) && old(trace) < trace
      ensures if done then t !in calls && count <= 0 && downs >= n else t in calls
      ensures !done ==> left == 0 && HeldUp(mutex, t)
    {
      Enter(t, Waiter);
      done := WaitBody(t);
    }

    /**
      CountDown.  When it returns the count is lower by one at least, and nobody sleeps if it
      is zero or below and nobody is in the block.
    */
    method CountDown(t: Tid) returns (done: bool)
      requires Valid() && t !in calls
      modifies this
      ensures Valid() && left <= old(left) && old(trace) < trace
      ensures if done then t !in calls && count < old(count) else t in calls && count <= old(count)
      ensures !done ==> left == 0 && HeldUp(mutex, t)
      ensures done && count <= 0 && mutex.owner == 0 ==> Asleep(mutex, CountedDown) == {}
    {
      Enter(t, Counter);
      done := CountDownBody(t);
    }

    method CountDownBody(t: Tid) returns (done: bool)
      requires Valid() && Waits(Here(), Here(), t) && calls[t].Counter? && mutex.at[t] == Outside
      modifies this
      ensures Valid() && left <= old(left) && Follows(old(trace), trace)
      ensures if done then t !in calls && count < old(count) else t in calls && count <= old(count)
      ensures !done ==> left == 0 && HeldUp(mutex, t)
    {
      hide Inv, AreTurns, Replay, Played, Follows;
      ghost var start := Here();
      done := Lock(t, start);
      if !done { return; }
      Pass(t, Move.Pass, start);
      Decrement(t, start);
      Leave(t, start);
      done := true;
    }
  }
}
