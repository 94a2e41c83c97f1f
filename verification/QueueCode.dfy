/**
  BoundedBlockingQueue of qingyi/util/bounded_blocking_queue_.h as the code that a thread
  runs.  The class has the fields of the source; between any two of its steps the other
  threads take theirs, as a schedule says.  Every call is an interleaving of the machine in
  QueueMachine, so that what holds in every run of the machine holds of the code.
*/
module QueueCode {
  import opened Monitor
  import opened History
  import opened QueueMachine

  // ---------- What the steps of others leave to a thread ----------

  /** What the histories say of a thread. */
  predicate SameRecord<T(==)>(s: State<T>, later: State<T>, t: Tid) {
    && Of(later.put, t) == Of(s.put, t) && Of(later.taken, t) == Of(s.taken, t)
    && Of(later.returned, t) == Of(s.returned, t)
  }

  /** The thread is where it was, or woken, with the same call; inside the block it finds the queue as it left it. */
  ghost predicate Undisturbed<T>(s: State<T>, later: State<T>, t: Tid)
    requires t in s.calls && t in s.m.at
  {
    && t in later.calls && later.calls[t] == s.calls[t] && later.capacity == s.capacity
    && t in later.m.at && (later.m.at[t] == s.m.at[t] || Roused(s.m.at[t], later.m.at[t]))
    && SameRecord(s, later, t)
    && (s.m.owner == t ==> later.m.owner == t && later.items == s.items)
  }

  lemma RivalLeaves<T>(s: State<T>, a: Action<T>, t: Tid)
    requires Inv(s) && Enabled(s, a) && t in s.calls && a.t != t
    ensures Undisturbed(s, After(s, a), t)
  {
    RivalLeavesRecord(s, a, t);
    RivalLeavesPlace(s, a, t);
    hide After, Enabled, Inv, SameRecord;
  }

  lemma RivalLeavesPlace<T>(s: State<T>, a: Action<T>, t: Tid)
    requires Inv(s) && Enabled(s, a) && t in s.calls && a.t != t
    ensures var later := After(s, a);
            && t in later.calls && later.calls[t] == s.calls[t] && later.capacity == s.capacity
            && t in later.m.at && (later.m.at[t] == s.m.at[t] || Roused(s.m.at[t], later.m.at[t]))
            && (s.m.owner == t ==> later.m.owner == t && later.items == s.items)
  {
    if a.Step? {
      MoveTouches(s.m, a.t, a.move);
      Bystander(s.m, a.t, a.move, t);
    }
    hide Moved, Sound;
  }

  lemma RivalLeavesRecord<T>(s: State<T>, a: Action<T>, t: Tid)
    requires Enabled(s, a) && a.t != t
    ensures SameRecord(s, After(s, a), t)
  {
    hide Of, Moved, CanMove;
    if a.Step? && a.move.Act? {
      if s.calls[a.t].Put? { Appended(s.put, a.t, s.calls[a.t].x); } else { Appended(s.taken, a.t, s.items[0]); }
    }
    if a.Step? && a.move.Unlock? && s.calls[a.t].Took? { Appended(s.returned, a.t, s.calls[a.t].x); }
  }

  lemma UndisturbedTwice<T>(s: State<T>, mid: State<T>, later: State<T>, t: Tid)
    requires t in s.calls && t in s.m.at && Undisturbed(s, mid, t) && Undisturbed(mid, later, t)
    ensures Undisturbed(s, later, t)
  {
    hide Of;
  }

  /** What the other threads try to do, turn by turn. */
  type Schedule<T> = seq<seq<Action<T>>>

  /** The steps of a thread and the turns of the others, so far. */
  type Turns<T> = seq<Turn<Action<T>>>

  /** A state and the turns that led to it. */
  datatype Mark<T> = Mark(s: State<T>, trace: Turns<T>)

  /** Some steps later the thread is in the same call, and has put, taken and returned nothing. */
  ghost predicate Waits<T>(start: Mark<T>, now: Mark<T>, t: Tid) {
    var (s, later) := (start.s, now.s);
    && t in s.calls && t in later.calls && later.calls[t] == s.calls[t]
    && t in later.m.at && t in later.m.role && later.m.role[t] == RoleOf(later.calls[t])
    && SameRecord(s, later, t)
    && Follows(start.trace, now.trace)
  }

  lemma WaitsOn<T>(start: Mark<T>, mid: Mark<T>, now: Mark<T>, t: Tid)
    requires Waits(start, mid, t) && Waits(mid, now, t)
    ensures Waits(start, now, t)
  {
  }

  /** A passage of t through the monitor, and then steps of the others. */
  ghost predicate Passes<T>(before: Mark<T>, now: Mark<T>, t: Tid, dest: Place) {
    && Waits(before, now, t)
    && (now.s.m.at[t] == dest || Roused(dest, now.s.m.at[t]))
    && (!dest.Sleeping? ==> now.s.m.owner == t)
    && (!dest.Sleeping? && before.s.m.owner == t ==> now.s.items == before.s.items)
  }

  lemma PassesOn<T>(before: Mark<T>, mid: State<T>, now: Mark<T>, t: Tid, move: Move)
    requires var s := before.s;
             Inv(s) && t in s.calls && Enabled(s, Step(t, move)) && mid == s.(m := Moved(s.m, t, move))
    requires !move.Wake? && !move.Unlock? && Undisturbed(mid, now.s, t) && Inv(now.s) && before.trace <= now.trace
    ensures Passes(before, now, t, Dest(before.s.m.at[t], before.s.m.role[t], move))
  {
    hide Of;
    MoveTouches(before.s.m, t, move);
    assert Settled(now.s, t);
  }

  /** The action of t, and then steps of the others: t has put one element, or has one in hand. */
  ghost predicate Acts<T>(before: Mark<T>, now: Mark<T>, t: Tid, given: seq<T>) {
    var (s, later) := (before.s, now.s);
    && Waits(now, now, t) && later.m.owner == t && later.m.at[t] == Inside(Signal)
    && Follows(before.trace, now.trace)
    && Of(later.put, t) == Of(s.put, t) + given
    && Of(later.taken, t) == Of(s.taken, t) + InHand(later, t)
    && Of(later.returned, t) == Of(s.returned, t)
  }

  /** The action of t alone. */
  ghost predicate ActedAlone<T>(s: State<T>, mid: State<T>, t: Tid) {
    && t in s.calls && t in mid.calls && t in mid.m.at && mid.m.owner == t && mid.m.at[t] == Inside(Signal)
    && Of(mid.returned, t) == Of(s.returned, t)
    && match s.calls[t]
       case Put(x) =>
         mid.calls[t] == Call.Put(x) && Of(mid.put, t) == Of(s.put, t) + [x] && Of(mid.taken, t) == Of(s.taken, t)
       case _ =>
         && s.items != [] && mid.calls[t] == Took(s.items[0])
         && Of(mid.put, t) == Of(s.put, t) && Of(mid.taken, t) == Of(s.taken, t) + [s.items[0]]
  }

  lemma ActAlone<T>(s: State<T>, t: Tid)
    requires Inv(s) && t in s.calls && Enabled(s, Step(t, Act))
    ensures ActedAlone(s, After(s, Step(t, Act)), t)
  {
    hide Of;
    MoveTouches(s.m, t, Act);
    assert Settled(s, t);
    if s.calls[t].Put? { Appended(s.put, t, s.calls[t].x); } else { Appended(s.taken, t, s.items[0]); }
    hide Moved, Sound;
  }

  /** A thread that has a call has its role. */
  lemma Present<T>(now: Mark<T>, t: Tid)
    requires Inv(now.s) && t in now.s.calls
    ensures Waits(now, now, t)
  {
    assert Settled(now.s, t);
  }

  lemma ActsOn<T>(before: Mark<T>, mid: State<T>, now: Mark<T>, t: Tid)
    requires ActedAlone(before.s, mid, t) && Undisturbed(mid, now.s, t) && before.trace <= now.trace
    requires Waits(now, now, t)
    ensures before.s.calls[t].Put? ==> Acts(before, now, t, [before.s.calls[t].x]) && InHand(now.s, t) == []
    ensures !before.s.calls[t].Put? ==>
              before.s.items != [] && Acts(before, now, t, []) && InHand(now.s, t) == [before.s.items[0]]
  {
    hide Of;
  }

  /** The call of t has returned. */
  ghost predicate Returns<T>(start: Mark<T>, now: Mark<T>, t: Tid) {
    var (s, later) := (start.s, now.s);
    && t !in later.calls && Of(later.put, t) == Of(s.put, t) && Of(later.taken, t) == Of(s.taken, t)
    && Of(later.returned, t) == Of(s.returned, t) + InHand(s, t)
    && Follows(start.trace, now.trace)
  }

  /** The action of t, and the return of its call: t has put and got these elements. */
  ghost predicate Ends<T>(before: Mark<T>, now: Mark<T>, t: Tid, given: seq<T>, got: seq<T>) {
    var (s, later) := (before.s, now.s);
    && t !in later.calls && Follows(before.trace, now.trace)
    && Of(later.put, t) == Of(s.put, t) + given
    && Of(later.taken, t) == Of(s.taken, t) + got
    && Of(later.returned, t) == Of(s.returned, t) + got
  }

  lemma StillWaits<T>(start: Mark<T>, now: Mark<T>, t: Tid)
    requires Waits(start, now, t)
    ensures Waits(now, now, t)
  {
  }

  lemma EndsFrom<T>(start: Mark<T>, before: Mark<T>, now: Mark<T>, t: Tid, given: seq<T>, got: seq<T>)
    requires Waits(start, before, t) && Ends(before, now, t, given, got)
    ensures Ends(start, now, t, given, got)
  {
  }

  lemma ReturnsOn<T>(start: Mark<T>, mid: Mark<T>, t: Tid)
    requires Waits(start, mid, t) && Enabled(mid.s, Step(t, Unlock))
    ensures Returns(start, Mark(After(mid.s, Step(t, Unlock)), mid.trace + [Own(Step(t, Unlock))]), t)
  {
    hide Of;
    if mid.s.calls[t].Took? { Appended(mid.s.returned, t, mid.s.calls[t].x); }
  }

  lemma Leaves<T>(before: Mark<T>, now: Mark<T>, t: Tid)
    requires var s := before.s; Inv(s) && t in s.calls && Undisturbed(s, now.s, t)
    requires Inv(now.s) && before.trace <= now.trace
    ensures Waits(before, now, t)
    ensures before.s.m.at[t].Outside? ==> now.s.m.at[t].Outside?
    ensures before.s.m.at[t].Sleeping? || before.s.m.at[t].Woken? ==> now.s.m.at[t].Sleeping? || now.s.m.at[t].Woken?
  {
    hide Of;
    assert Settled(now.s, t);
  }

  /** What the other threads make of their turn: each takes its step if it can when it comes to it. */
  function TheirTurn<T>(s: State<T>, t: Tid, batch: seq<Action<T>>): State<T> {
    if batch == [] then s
    else
      var before, a := TheirTurn(s, t, batch[..|batch| - 1]), batch[|batch| - 1];
      if a.t != t && Enabled(before, a) then After(before, a) else before
  }

  lemma {:induction false} TurnLeaves<T>(s: State<T>, t: Tid, batch: seq<Action<T>>)
    requires Inv(s) && t in s.calls
    ensures Inv(TheirTurn(s, t, batch)) && Undisturbed(s, TheirTurn(s, t, batch), t)
    ensures TheirTurn(s, t, batch).capacity == s.capacity
    decreases |batch|
  {
    if batch != [] {
      var before, a := TheirTurn(s, t, batch[..|batch| - 1]), batch[|batch| - 1];
      TurnLeaves(s, t, batch[..|batch| - 1]);
      if a.t != t && Enabled(before, a) {
        StepKeepsInv(before, a);
        RivalLeaves(before, a, t);
        UndisturbedTwice(s, before, After(before, a), t);
      }
    }
  }

  function AfterTurn<T>(s: State<T>, turn: Turn<Action<T>>): State<T>
    requires turn.Own? ==> Enabled(s, turn.a)
  {
    match turn
    case Own(a) => After(s, a)
    case Rivals(t, batch) => TheirTurn(s, t, batch)
  }

  predicate AreTurns<T>(s: State<T>, turns: Turns<T>)
    decreases |turns|, 0
  {
    turns == []
    || (AreTurns(s, turns[..|turns| - 1])
        && (turns[|turns| - 1].Own? ==> Enabled(Replay(s, turns[..|turns| - 1]), turns[|turns| - 1].a)))
  }

  /** The state at the end of the turns. */
  function Replay<T>(s: State<T>, turns: Turns<T>): State<T>
    requires AreTurns(s, turns)
    decreases |turns|, 1
  {
    if turns == [] then s
    else AfterTurn(Replay(s, turns[..|turns| - 1]), turns[|turns| - 1])
  }

  lemma OneMoreTurn<T>(s: State<T>, turns: Turns<T>, turn: Turn<Action<T>>)
    requires AreTurns(s, turns) && (turn.Own? ==> Enabled(Replay(s, turns), turn.a))
    ensures AreTurns(s, turns + [turn])
    ensures Replay(s, turns + [turn]) == AfterTurn(Replay(s, turns), turn)
  {
    hide AfterTurn, Enabled;
    var all := turns + [turn];
    assert all[..|all| - 1] == turns && all[|all| - 1] == turn;
  }

  /** The turns lead from an empty queue to this state, and the others have had theirs as the schedule says. */
  ghost predicate Reached<T>(capacity: nat, s: State<T>, schedule: Schedule<T>, left: nat, trace: Turns<T>) {
    var start := Initial(capacity);
    Inv(s) && AreTurns(start, trace) && s == Replay(start, trace) && Played(schedule, left, trace)
  }

  lemma Extended<T>(capacity: nat, s: State<T>, schedule: Schedule<T>, left: nat, trace: Turns<T>, a: Action<T>)
    requires Reached(capacity, s, schedule, left, trace) && Enabled(s, a)
    ensures Reached(capacity, After(s, a), schedule, left, trace + [Own(a)])
    ensures After(s, a).capacity == s.capacity
  {
    StepKeepsInv(s, a);
    assert After(s, a).capacity == s.capacity;
    PlaysOwn(schedule, left, trace, a);
    hide After, Enabled, Inv, Played, AreTurns, Replay;
    OneMoreTurn(Initial(capacity), trace, Own(a));
  }

  lemma RivalsPlay<T>(capacity: nat, s: State<T>, schedule: Schedule<T>, left: nat, trace: Turns<T>, t: Tid)
    requires Reached(capacity, s, schedule, left, trace) && 0 < left <= |schedule| && t in s.calls
    ensures var batch := schedule[|schedule| - left];
            Reached(capacity, TheirTurn(s, t, batch), schedule, left - 1, trace + [Rivals(t, batch)])
            && t in s.calls && t in s.m.at && Undisturbed(s, TheirTurn(s, t, batch), t)
            && TheirTurn(s, t, batch).capacity == s.capacity
  {
    var batch := schedule[|schedule| - left];
    hide After, Enabled, Inv, Played, AreTurns, Replay, TheirTurn, Undisturbed;
    TurnLeaves(s, t, batch);
    PlaysRivals(schedule, left, trace, t);
    OneMoreTurn(Initial(capacity), trace, Rivals(t, batch));
  }

  lemma BeforeTurn<T>(capacity: nat, s: State<T>, schedule: Schedule<T>, left: nat, trace: Turns<T>, t: Tid)
    requires Reached(capacity, s, schedule, left, trace) && t in s.calls
    ensures left <= |schedule| && t in s.m.at && Undisturbed(s, s, t)
  {
  }

  /** Whatever the schedule, the turns are a run of the machine. */
  lemma {:induction false} TurnsAreRun<T>(s: State<T>, turns: Turns<T>) returns (run: seq<Action<T>>)
    requires AreTurns(s, turns)
    ensures IsRun(s, run) && Final(s, run) == Replay(s, turns)
    decreases |turns|
  {
    if turns == [] { return []; }
    run := TurnsAreRun(s, turns[..|turns| - 1]);
    match turns[|turns| - 1]
    case Own(a) =>
      LongerRun(s, run, a);
      run := run + [a];
    case Rivals(t, batch) => run := TheirTurnIsRun(s, run, t, batch);
  }

  lemma LongerRun<T>(s: State<T>, run: seq<Action<T>>, a: Action<T>)
    requires IsRun(s, run) && Enabled(Final(s, run), a)
    ensures IsRun(s, run + [a]) && Final(s, run + [a]) == After(Final(s, run), a)
  {
    var longer := run + [a];
    assert longer[..|longer| - 1] == run && longer[|longer| - 1] == a;
    hide Enabled, After;
  }

  lemma {:induction false} TheirTurnIsRun<T>(s: State<T>, run: seq<Action<T>>, t: Tid, batch: seq<Action<T>>)
    returns (longer: seq<Action<T>>)
    requires IsRun(s, run)
    ensures IsRun(s, longer) && Final(s, longer) == TheirTurn(Final(s, run), t, batch)
    decreases |batch|
  {
    longer := run;
    if batch != [] {
      var a := batch[|batch| - 1];
      longer := TheirTurnIsRun(s, run, t, batch[..|batch| - 1]);
      if a.t != t && Enabled(Final(s, longer), a) {
        LongerRun(s, longer, a);
        longer := longer + [a];
      }
    }
  }

  /** The step was taken in its turn exactly if it is another thread's and could be taken after those before it. */
  ghost predicate TookTurn<T>(s: State<T>, t: Tid, batch: seq<Action<T>>, taken: seq<bool>, i: nat)
    requires |taken| == |batch| && i < |batch|
  {
    var before := Picked(batch[..i], taken[..i]);
    IsRun(s, before) && (taken[i] <==> batch[i].t != t && Enabled(Final(s, before), batch[i]))
  }

  /** A turn is a run of steps out of its batch, and no step is left out that could be taken when it came to it. */
  lemma {:induction false} TurnTakesAll<T>(s: State<T>, t: Tid, batch: seq<Action<T>>) returns (taken: seq<bool>)
    ensures |taken| == |batch| && forall i :: 0 <= i < |batch| ==> TookTurn(s, t, batch, taken, i)
    ensures IsRun(s, Picked(batch, taken)) && Final(s, Picked(batch, taken)) == TheirTurn(s, t, batch)
    decreases |batch|
  {
    if batch == [] { return []; }
    var last := |batch| - 1;
    var first := TurnTakesAll(s, t, batch[..last]);
    var before := Picked(batch[..last], first);
    var takes := batch[last].t != t && Enabled(Final(s, before), batch[last]);
    taken := first + [takes];
    PickedOn(batch, first, takes);
    if takes { LongerRun(s, before, batch[last]); }
    hide Enabled, After, Picked, IsRun, Final;
    assert before + [] == before;
    TookEarlier(s, t, batch, first, takes);
  }

  lemma TookEarlier<T>(s: State<T>, t: Tid, batch: seq<Action<T>>, first: seq<bool>, takes: bool)
    requires |first| + 1 == |batch|
    requires forall i :: 0 <= i < |first| ==> TookTurn(s, t, batch[..|first|], first, i)
    requires var before := Picked(batch[..|first|], first);
             IsRun(s, before)
             && (takes <==> batch[|first|].t != t && Enabled(Final(s, before), batch[|first|]))
    ensures forall i :: 0 <= i < |batch| ==> TookTurn(s, t, batch, first + [takes], i)
  {
    hide Picked, IsRun, Final, Enabled;
    var taken := first + [takes];
    forall i | 0 <= i < |batch|
      ensures TookTurn(s, t, batch, taken, i)
    {
      if i < |first| {
        assert TookTurn(s, t, batch[..|first|], first, i);
        assert batch[..|first|][..i] == batch[..i] && first[..i] == taken[..i];
      } else {
        assert taken[..i] == first;
      }
    }
  }

  /** A batch that the other threads can run to its end they do run to its end. */
  lemma {:induction false} TurnOfRun<T>(s: State<T>, t: Tid, batch: seq<Action<T>>)
    requires IsRun(s, batch) && forall i :: 0 <= i < |batch| ==> batch[i].t != t
    ensures TheirTurn(s, t, batch) == Final(s, batch)
    decreases |batch|
  {
    hide Enabled, After;
    if batch != [] { TurnOfRun(s, t, batch[..|batch| - 1]); }
  }

  lemma Excluded<T>(s: State<T>, t: Tid)
    requires Inv(s) && t in s.m.at && (s.m.at[t].Sleeping? || s.m.owner != 0)
    requires s.m.at[t].Sleeping? || s.m.at[t].Woken? || s.m.at[t].Outside?
    ensures HeldUp(s.m, t)
  {
  }

  /** What push_back and pop_front make of the queue. */
  lemma ActIs<T>(s: State<T>, t: Tid)
    requires Enabled(s, Step(t, Act))
    ensures t in s.calls && (!s.calls[t].Put? ==> s.items != [])
    ensures CanMove(s.m, t, Act)
    ensures var m := Moved(s.m, t, Act);
            After(s, Step(t, Act)) ==
              if s.calls[t].Put? then
                State(m, s.calls, PushBack(s.items, s.capacity, s.calls[t].x), s.capacity,
                      s.put + [(t, s.calls[t].x)], s.taken, s.returned)
              else
                State(m, s.calls[t := Took(s.items[0])], s.items[1..], s.capacity,
                      s.put, s.taken + [(t, s.items[0])], s.returned)
  {
    hide Moved, CanMove;
  }

  class BoundedBlockingQueue<T> {
    var mutex: Mutex       // mutex_ with not_full_ and not_empty_
    var queue: seq<T>      // queue_
    const maxSize: nat     // queue_.capacity()
    var calls: map<Tid, Call<T>>
    var put: seq<(Tid, T)>
    var taken: seq<(Tid, T)>
    var returned: seq<(Tid, T)>
    const schedule: Schedule<T>
    var left: nat          // how much of the schedule is to come
    ghost var trace: Turns<T>

    function Now(): State<T>
      reads this
    {
      State(mutex, calls, queue, maxSize, put, taken, returned)
    }

    /** The turns in trace have led to this state of the queue, and the schedule was played but for what is left. */
    ghost predicate Valid()
      reads this
    {
      Reached(maxSize, Now(), schedule, left, trace)
    }

    constructor (maxSize: nat, schedule: Schedule<T>)
      ensures Valid() && this.maxSize == maxSize && this.schedule == schedule && left == |schedule|
      ensures trace == [] && calls == map[]
    {
      this.maxSize := maxSize;
      this.schedule, left := schedule, |schedule|;
      mutex, queue, calls := FREE, [], map[];
      put, taken, returned, trace := [], [], [], [];
      new;
      EveryRunKeepsInv<T>(maxSize, []);
    }

    /** One step of any thread. */
    method Happens(a: Action<T>)
      requires Valid() && Enabled(Now(), a)
      modifies this`mutex, this`queue, this`calls, this`put, this`taken, this`returned, this`trace
      ensures Valid() && Now() == After(old(Now()), a) && trace == old(trace) + [Own(a)]
    {
      hide Reached, After, Enabled;
      Extended(maxSize, Now(), schedule, left, trace, a);
      var s := After(Now(), a);
      mutex, queue, calls, put, taken, returned := s.m, s.items, s.calls, s.put, s.taken, s.returned;
      trace := trace + [Own(a)];
      assert Now() == s;
    }

    lemma ValidMeansInv()
      requires Valid()
      ensures Inv(Now())
    {
    }

    /** The other threads go on, as the schedule says. */
    method Others(t: Tid)
      requires Valid() && t in calls
      modifies this
      ensures Valid() && left <= old(left) && Undisturbed(old(Now()), Now(), t)
      ensures if old(left) == 0 then left == 0 && Now() == old(Now()) && trace == old(trace)
              else left == old(left) - 1 && Now() == TheirTurn(old(Now()), t, schedule[|schedule| - left - 1])
                   && trace == old(trace) + [Rivals(t, schedule[|schedule| - left - 1])]
    {
      hide Reached, After, Enabled, TheirTurn, Undisturbed;
      BeforeTurn(maxSize, Now(), schedule, left, trace, t);
      if left == 0 { return; }
      var batch := schedule[|schedule| - left];
      var s := TheirTurn(Now(), t, batch);
      RivalsPlay(maxSize, Now(), schedule, left, trace, t);
      mutex, queue, calls, put, taken, returned := s.m, s.items, s.calls, s.put, s.taken, s.returned;
      trace, left := trace + [Rivals(t, batch)], left - 1;
      assert Now() == s;
    }

    ghost function Here(): Mark<T>
      reads this
    {
      Mark(Now(), trace)
    }

    // ---------- Mutex and Condition, as thread t goes through them ----------

    /** One passage of t through the monitor; after it the others go on. */
    method Pass(t: Tid, move: Move, ghost start: Mark<T>)
      requires Valid() && Waits(start, Here(), t)
      requires Enabled(Now(), Step(t, move)) && !move.Wake? && !move.Act? && !move.Unlock?
      modifies this
      ensures Valid() && left <= old(left) && Waits(start, Here(), t)
      ensures Passes(old(Here()), Here(), t, old(Dest(mutex.at[t], mutex.role[t], move)))
      ensures left < old(left)
              || (mutex.at[t] == old(Dest(mutex.at[t], mutex.role[t], move)) && queue == old(queue))
      ensures Follows(old(trace) + [Own(Step(t, move))], trace)
    {
      ghost var before := Here();
      hide Reached, Inv, Moved, TheirTurn, Undisturbed, SameRecord;
      ValidMeansInv();
      Shift(t, move);
      ghost var mid := Now();
      Others(t);
      ValidMeansInv();
      PassesOn(before, mid, Here(), t, move);
      WaitsOn(start, before, Here(), t);
    }

    method Shift(t: Tid, move: Move)
      requires Valid() && t in calls && Enabled(Now(), Step(t, move)) && !move.Wake? && !move.Act? && !move.Unlock?
      modifies this`mutex, this`trace
      ensures Valid() && trace == old(trace) + [Own(Step(t, move))] && mutex == old(Moved(mutex, t, move))
      ensures t in mutex.at && mutex.at[t] == old(Dest(mutex.at[t], mutex.role[t], move))
    {
      MoveTouches(mutex, t, move);
      Extended(maxSize, Now(), schedule, left, trace, Step(t, move));
      mutex := Moved(mutex, t, move);
      trace := trace + [Own(Step(t, move))];
      assert Now() == After(old(Now()), Step(t, move));
    }

    /** The others go on while t waits for the mutex. */
    method Idle(t: Tid, ghost start: Mark<T>)
      requires Valid() && Waits(start, Here(), t) && left > 0
      modifies this
      ensures Valid() && left < old(left) && Waits(start, Here(), t)
      ensures old(mutex.at[t].Outside?) ==> mutex.at[t].Outside?
      ensures old(mutex.at[t].Sleeping? || mutex.at[t].Woken?) ==> mutex.at[t].Sleeping? || mutex.at[t].Woken?
    {
      ghost var before := Here();
      Others(t);
      Leaves(before, Here(), t);
      WaitsOn(start, before, Here(), t);
    }

    /** Lock of mutex_; it fails if the schedule ends before the mutex is free. */
    method Lock(t: Tid, ghost start: Mark<T>) returns (ok: bool)
      requires Valid() && Waits(start, Here(), t) && mutex.at[t] == Outside
      modifies this
      ensures Valid() && left <= old(left) && Waits(start, Here(), t)
      ensures ok ==> mutex.owner == t && mutex.at[t] == Inside(Check)
      ensures !ok ==> left == 0 && HeldUp(mutex, t)
    {
      hide Inv, AreTurns, Replay, Played, SameRecord, Follows;
      if left > 0 { Idle(t, start); }
      while mutex.owner != 0
        invariant Valid() && left <= old(left) && Waits(start, Here(), t)
        invariant mutex.at[t] == Outside
        decreases left
      {
        if left == 0 {
          Excluded(Now(), t);
          return false;
        }
        Idle(t, start);
      }
      Pass(t, Acquire, start);
      Pass(t, Assign, start);
      ok := true;
    }

    /** Wait of the condition of t; it fails if the schedule ends before t is woken and the mutex is free. */
    method Wait(t: Tid, ghost start: Mark<T>) returns (ok: bool)
      requires Valid() && Waits(start, Here(), t)
      requires mutex.owner == t && mutex.at[t] == Inside(Check) && Blocked(Now(), calls[t])
      modifies this
      ensures Valid() && left <= old(left) && Waits(start, Here(), t)
      ensures ok ==> left < old(left) && mutex.owner == t && mutex.at[t] == Inside(Check)
      ensures !ok ==> left == 0 && HeldUp(mutex, t)
    {
      hide *;
      FallAsleep(t, start);
      ok := AwaitMutex(t, start);
      if ok { ComeBack(t, start); }
    }

    /** UnAssignHolder by the UnGuard, and the release of the mutex in pthread_cond_wait. */
    method FallAsleep(t: Tid, ghost start: Mark<T>)
      requires Valid() && Waits(start, Here(), t)
      requires mutex.owner == t && mutex.at[t] == Inside(Check) && Blocked(Now(), calls[t])
      modifies this
      ensures Valid() && left <= old(left) && Waits(start, Here(), t)
      ensures mutex.at[t].Sleeping? || mutex.at[t].Woken?
      ensures left < old(left) || mutex.at[t].Sleeping?
    {
      hide Inv, AreTurns, Replay, Played, SameRecord, Follows;
      Pass(t, BeginWait, start);
      Pass(t, Sleep, start);
    }

    /** The mutex taken again in pthread_cond_wait, and AssignHolder by the UnGuard. */
    method ComeBack(t: Tid, ghost start: Mark<T>)
      requires Valid() && Waits(start, Here(), t) && mutex.at[t].Woken? && mutex.owner == 0
      modifies this
      ensures Valid() && left <= old(left) && Waits(start, Here(), t)
      ensures mutex.owner == t && mutex.at[t] == Inside(Check)
    {
      hide Inv, AreTurns, Replay, Played, SameRecord, Follows;
      Pass(t, Relock, start);
      Pass(t, Reassign, start);
    }

    /** In pthread_cond_wait, up to the moment when t is woken and the mutex is free. */
    method AwaitMutex(t: Tid, ghost start: Mark<T>) returns (ok: bool)
      requires Valid() && Waits(start, Here(), t) && (mutex.at[t].Sleeping? || mutex.at[t].Woken?)
      modifies this
      ensures Valid() && left <= old(left) && Waits(start, Here(), t)
      ensures mutex.at[t].Sleeping? || mutex.at[t].Woken?
      ensures left < old(left) || mutex.at[t] == old(mutex.at[t])
      ensures if ok then mutex.at[t].Woken? && mutex.owner == 0 else left == 0 && HeldUp(mutex, t)
    {
      hide Inv, AreTurns, Replay, Played, SameRecord, Follows;
      while !mutex.at[t].Woken? || mutex.owner != 0
        invariant Valid() && Waits(start, Here(), t) && (mutex.at[t].Sleeping? || mutex.at[t].Woken?)
        invariant left < old(left) || (left == old(left) && mutex.at[t] == old(mutex.at[t]))
        decreases left
      {
        if left == 0 {
          Excluded(Now(), t);
          return false;
        }
        Idle(t, start);
      }
      ok := true;
    }

    /** Those that pthread_cond_signal wakes: at least one, if any sleeps. */
    method Signalled(c: Cond) returns (who: set<Tid>)
      ensures MayWake(mutex, c, who)
    {
      who := Asleep(mutex, c);
    }

    /** Notify of the condition of t: one sleeper at least, if any sleeps. */
    method Signal(t: Tid, ghost start: Mark<T>) returns (who: set<Tid>)
      requires Valid() && Waits(start, Here(), t) && mutex.owner == t && mutex.at[t] == Inside(Point.Signal)
      modifies this
      ensures Valid() && left <= old(left) && Waits(start, Here(), t)
      ensures mutex.owner == t && mutex.at[t] == Inside(Exit)
      ensures MayWake(old(mutex), old(mutex.role[t].signals), who)
      ensures Follows(old(trace) + [Own(Step(t, Notify(who)))], trace)
    {
      hide Inv, AreTurns, Replay, Played, SameRecord, Follows, Asleep, MayWake;
      who := Signalled(mutex.role[t].signals);
      Pass(t, Notify(who), start);
    }

    /** UnLock of mutex_, at the end of the guarded block; the call returns. */
    method UnLock(t: Tid, ghost start: Mark<T>)
      requires Valid() && Waits(start, Here(), t) && mutex.owner == t && mutex.at[t] == Inside(Exit)
      modifies this
      ensures Valid() && left <= old(left) && Returns(start, Here(), t)
    {
      hide Inv, AreTurns, Replay, Played, SameRecord, Follows, Returns;
      Pass(t, Unassign, start);
      ReturnsOn(start, Here(), t);
      Happens(Step(t, Unlock));
    }

    // ---------- The operations ----------

    /** A thread arrives with a call. */
    method Enter(t: Tid, call: Call<T>)
      requires Valid() && t !in calls && !call.Took?
      modifies this`mutex, this`calls, this`trace
      ensures Valid() && old(trace) < trace
      ensures Waits(Here(), Here(), t) && calls[t] == call && mutex.at[t] == Outside
    {
      ghost var s := Now();
      Extended(maxSize, Now(), schedule, left, trace, Begin(t, call));
      mutex, calls := Joined(mutex, t, RoleOf(call)), calls[t := call];
      trace := trace + [Own(Begin(t, call))];
      assert Now() == After(s, Begin(t, call));
    }

    /** queue_.push_back(x) */
    method Push(t: Tid, x: T)
      requires Valid() && t in calls && calls[t] == Call.Put(x) && Enabled(Now(), Step(t, Act))
      modifies this`mutex, this`queue, this`put, this`trace
      ensures Valid() && trace == old(trace) + [Own(Step(t, Act))] && Now() == After(old(Now()), Step(t, Act))
    {
      hide After, Enabled, Reached, Moved, PushBack;
      Extended(maxSize, Now(), schedule, left, trace, Step(t, Act));
      ActIs(Now(), t);
      queue, put := PushBack(queue, maxSize, x), put + [(t, x)];
      mutex := Moved(mutex, t, Act);
      trace := trace + [Own(Step(t, Act))];
    }

    /** T front(std::move(queue_.front())), and queue_.pop_front() */
    method Pop(t: Tid) returns (front: T)
      requires Valid() && t in calls && calls[t].Take? && Enabled(Now(), Step(t, Act))
      modifies this`mutex, this`queue, this`calls, this`taken, this`trace
      ensures Valid() && trace == old(trace) + [Own(Step(t, Act))] && Now() == After(old(Now()), Step(t, Act))
      ensures front == old(queue[0])
    {
      hide After, Enabled, Reached, Moved;
      Extended(maxSize, Now(), schedule, left, trace, Step(t, Act));
      ActIs(Now(), t);
      front := queue[0];
      queue, calls, taken := queue[1..], calls[t := Took(front)], taken + [(t, front)];
      mutex := Moved(mutex, t, Act);
      trace := trace + [Own(Step(t, Act))];
    }

    /** The others go on after the action of t. */
    method Settle(t: Tid, ghost before: Mark<T>)
      requires Valid() && Inv(before.s) && t in before.s.calls && Enabled(before.s, Step(t, Act))
      requires Now() == After(before.s, Step(t, Act)) && trace == before.trace + [Own(Step(t, Act))]
      modifies this
      ensures Valid() && left <= old(left)
      ensures before.s.calls[t].Put? ==> Acts(before, Here(), t, [before.s.calls[t].x]) && InHand(Now(), t) == []
      ensures !before.s.calls[t].Put? ==>
                before.s.items != [] && Acts(before, Here(), t, []) && InHand(Now(), t) == [before.s.items[0]]
    {
      ghost var mid := Now();
      ActAlone(before.s, t);
      hide After, Enabled, Inv, Reached, Acts;
      Others(t);
      ValidMeansInv();
      Present(Here(), t);
      ActsOn(before, mid, Here(), t);
    }

    /** The end of the block: Notify, and the return. */
    method Finish(t: Tid, ghost before: Mark<T>, ghost given: seq<T>)
      requires Valid() && Acts(before, Here(), t, given)
      modifies this
      ensures Valid() && left <= old(left) && Ends(before, Here(), t, given, old(InHand(Now(), t)))
    {
      ghost var acted := Here();
      var who := Signal(t, acted);
      UnLock(t, acted);
      hide Inv, AreTurns, Replay, Played, Of;
    }

    /** The loop of Put has ended: the assertion, push_back, Notify, and the return. */
    method PushAndReturn(t: Tid, x: T)
      requires Valid() && Waits(Here(), Here(), t) && calls[t] == Call.Put(x)
      requires mutex.owner == t && mutex.at[t] == Inside(Check) && |queue| != maxSize
      modifies this
      ensures Valid() && left <= old(left) && Ends(old(Here()), Here(), t, [x], [])
    {
      ghost var before := Here();
      Pass(t, Move.Pass, before);
      ghost var ready := Here();
      AssertionsHold(ready.s, t);
      assert |queue| < maxSize;
      Push(t, x);
      Settle(t, ready);
      Finish(t, ready, [x]);
      hide *;
      EndsFrom(before, ready, Here(), t, [x], []);
    }

    /** The loop of Take has ended: the assertion, front and pop_front, Notify, and the return. */
    method PopAndReturn(t: Tid) returns (front: T)
      requires Valid() && Waits(Here(), Here(), t) && calls[t].Take?
      requires mutex.owner == t && mutex.at[t] == Inside(Check) && |queue| != 0
      modifies this
      ensures Valid() && left <= old(left) && front == old(queue[0]) && Ends(old(Here()), Here(), t, [], [front])
    {
      ghost var before := Here();
      Pass(t, Move.Pass, before);
      ghost var ready := Here();
      AssertionsHold(ready.s, t);
      assert queue != [];
      front := Pop(t);
      Settle(t, ready);
      Finish(t, ready, []);
      hide *;
      EndsFrom(before, ready, Here(), t, [], [front]);
    }

    method PutBody(t: Tid, x: T) returns (done: bool)
      requires Valid() && Waits(Here(), Here(), t) && calls[t] == Call.Put(x) && mutex.at[t] == Outside
      modifies this
      ensures Valid() && left <= old(left)
      ensures if done then Ends(old(Here()), Here(), t, [x], []) else Waits(old(Here()), Here(), t)
      ensures !done ==> left == 0 && HeldUp(mutex, t)
    {
      ghost var start := Here();
      hide Inv, AreTurns, Replay, Played, Ends, SameRecord, Follows;
      done := Lock(t, start);
      if !done { return; }
      while |queue| == maxSize
        invariant Valid() && left <= old(left) && Waits(start, Here(), t)
        invariant mutex.owner == t && mutex.at[t] == Inside(Check)
        decreases left
      {
        done := Wait(t, start);
        if !done { return; }
      }
      ghost var before := Here();
      StillWaits(start, before, t);
      PushAndReturn(t, x);
      EndsFrom(start, before, Here(), t, [x], []);
      done := true;
    }

    method TakeBody(t: Tid) returns (done: bool, got: seq<T>)
      requires Valid() && Waits(Here(), Here(), t) && calls[t].Take? && mutex.at[t] == Outside
      modifies this
      ensures Valid() && left <= old(left) && |got| == (if done then 1 else 0)
      ensures if done then Ends(old(Here()), Here(), t, [], got) else Waits(old(Here()), Here(), t)
      ensures !done ==> left == 0 && HeldUp(mutex, t)
    {
      ghost var start := Here();
      hide Inv, AreTurns, Replay, Played, Ends, SameRecord, Follows;
      got := [];
      done := Lock(t, start);
      if !done { return; }
      while |queue| == 0
        invariant Valid() && left <= old(left) && Waits(start, Here(), t)
        invariant mutex.owner == t && mutex.at[t] == Inside(Check)
        decreases left
      {
        done := Wait(t, start);
        if !done { return; }
      }
      ghost var before := Here();
      StillWaits(start, before, t);
      var front := PopAndReturn(t);
      got := [front];
      EndsFrom(start, before, Here(), t, [], got);
      done := true;
    }

    /**
      Put.  When it returns x is the one element that t has added to what was put; when the
      schedule ends before that, t still waits and has put nothing.
    */
    method Put(t: Tid, x: T) returns (done: bool)
      requires Valid() && t !in calls
      modifies this
      ensures Valid() && left <= old(left) && old(trace) < trace
      ensures Of(put, t) == old(Of(put, t)) + if done then [x] else []
      ensures Of(taken, t) == old(Of(taken, t)) && Of(returned, t) == old(Of(returned, t))
      ensures if done then t !in calls else t in calls && calls[t] == Call.Put(x)
      ensures !done ==> left == 0 && HeldUp(mutex, t)
    {
      hide Reached, Of;
      Enter(t, Call.Put(x));
      done := PutBody(t, x);
    }

    /**
      Take.  When it returns, what it returns is the one element that t has taken since the
      call; when the schedule ends before that, t still waits and has taken nothing.
    */
    method Take(t: Tid) returns (done: bool, got: seq<T>)
      requires Valid() && t !in calls
      modifies this
      ensures Valid() && left <= old(left) && old(trace) < trace
      ensures Of(put, t) == old(Of(put, t)) && |got| == (if done then 1 else 0)
      ensures Of(taken, t) == old(Of(taken, t)) + got && Of(returned, t) == old(Of(returned, t)) + got
      ensures if done then t !in calls else t in calls && calls[t].Take?
      ensures !done ==> left == 0 && HeldUp(mutex, t)
    {
      hide Reached, Of;
      Enter(t, Call.Take);
      done, got := TakeBody(t);
    }
  }
}
