/**
  Mutex and Condition of qingyi/util/mutex_.h and condition_.h as a machine whose steps
  are those of any number of threads in any interleaving.

  A mutex has an owner, which the system keeps, and a holder, which the class keeps in a
  field of its own and changes in separate steps.  A thread inside the guarded block of
  a method checks a condition, waits for it in a loop, acts, notifies and leaves; what
  the check and the action are is left to the module that uses the monitor.  Waiting
  threads may wake without a notification, and any thread may take the mutex first.
*/
module Monitor {

  /** Thread ids are distinct and positive; 0 is no thread. */
  type Tid = t: int | t > 0 witness 1

  datatype Cond = NotEmpty | NotFull | CountedDown | Never

  /** Points in a guarded block: the loop condition, the action, the notification, the end. */
  datatype Point = Check | Ready | Signal | Exit

  datatype Place =
    | Outside
    | Locked                // pthread_mutex_lock has returned in Lock, the holder is not set yet
    | Inside(point: Point)
    | Waiting(cond: Cond)   // Wait has cleared the holder, pthread_cond_wait is not called yet
    | Sleeping(cond: Cond)
    | Woken(cond: Cond)     // competes for the mutex in pthread_cond_wait
    | Back(cond: Cond)      // pthread_cond_wait has returned, the holder is not set yet
    | Unlocking             // UnLock has cleared the holder, the mutex is not released yet

  /** The condition that a thread waits for in its block, and the one it notifies. */
  datatype Role = Role(waits: Cond, signals: Cond)

  datatype Mutex = Mutex(owner: int, holder: int, at: map<Tid, Place>, role: map<Tid, Role>)

  const FREE := Mutex(0, 0, map[], map[])

  // ---------- Steps ----------

  datatype Move =
    | Acquire               // Lock: pthread_mutex_lock
    | Assign                // Lock: AssignHolder
    | Pass                  // the loop condition fails, the loop ends
    | BeginWait             // the loop condition holds: Wait clears the holder
    | Sleep                 // pthread_cond_wait releases the mutex and sleeps
    | Wake                  // pthread_cond_wait wakes up without a notification
    | Relock                // pthread_cond_wait takes the mutex again
    | Reassign              // Wait sets the holder and returns
    | Act                   // the action, to be followed by a notification
    | ActQuietly            // the action, without a notification
    | Notify(who: set<Tid>) // the notification wakes these threads
    | Unassign              // UnLock: UnAssignHolder
    | Unlock                // UnLock: pthread_mutex_unlock

  predicate Owns(place: Place) {
    place.Locked? || place.Inside? || place.Waiting? || place.Back? || place.Unlocking?
  }

  function Asleep(m: Mutex, c: Cond): set<Tid> {
    set t | t in m.at && m.at[t] == Sleeping(c)
  }

  /** A notification wakes at least one thread if any sleeps. */
  predicate MayWake(m: Mutex, c: Cond, who: set<Tid>) {
    who <= Asleep(m, c) && (who == {} ==> Asleep(m, c) == {})
  }

  /** Where a step starts. */
  predicate Starts(place: Place, move: Move) {
    match move
    case Acquire => place.Outside?
    case Assign => place.Locked?
    case Pass => place == Inside(Check)
    case BeginWait => place == Inside(Check)
    case Sleep => place.Waiting?
    case Wake => place.Sleeping?
    case Relock => place.Woken?
    case Reassign => place.Back?
    case Act => place == Inside(Ready)
    case ActQuietly => place == Inside(Ready)
    case Notify(_) => place == Inside(Signal)
    case Unassign => place == Inside(Exit)
    case Unlock => place.Unlocking?
  }

  predicate CanMove(m: Mutex, t: Tid, move: Move) {
    && t in m.at && t in m.role
    && Starts(m.at[t], move)
    && (move.Acquire? || move.Relock? ==> m.owner == 0)
    && (move.Notify? ==> MayWake(m, m.role[t].signals, move.who))
  }

  /** The sleepers in who are woken. */
  function Awakened(at: map<Tid, Place>, who: set<Tid>): map<Tid, Place> {
    map t | t in at :: if t in who && at[t].Sleeping? then Woken(at[t].cond) else at[t]
  }

  function Moved(m: Mutex, t: Tid, move: Move): Mutex
    requires CanMove(m, t, move)
  {
    match move
    case Acquire => m.(owner := t, at := m.at[t := Locked])
    case Assign => m.(holder := t, at := m.at[t := Inside(Check)])
    case Pass => m.(at := m.at[t := Inside(Ready)])
    case BeginWait => m.(holder := 0, at := m.at[t := Waiting(m.role[t].waits)])
    case Sleep => m.(owner := 0, at := m.at[t := Sleeping(m.at[t].cond)])
    case Wake => m.(at := m.at[t := Woken(m.at[t].cond)])
    case Relock => m.(owner := t, at := m.at[t := Back(m.at[t].cond)])
    case Reassign => m.(holder := t, at := m.at[t := Inside(Check)])
    case Act => m.(at := m.at[t := Inside(Signal)])
    case ActQuietly => m.(at := m.at[t := Inside(Exit)])
    case Notify(who) => m.(at := Awakened(m.at, who)[t := Inside(Exit)])
    case Unassign => m.(holder := 0, at := m.at[t := Unlocking])
    case Unlock => m.(owner := 0, at := m.at[t := Outside])
  }

  /** A thread arrives, before the block. */
  function Joined(m: Mutex, t: Tid, role: Role): Mutex {
    m.(at := m.at[t := Outside], role := m.role[t := role])
  }

  /** A thread that is not in the block leaves. */
  function Left(m: Mutex, t: Tid): Mutex {
    m.(at := m.at - {t}, role := m.role - {t})
  }

  /** Past the action of the block. */
  predicate Finishing(place: Place) {
    place == Inside(Signal) || place == Inside(Exit) || place.Unlocking?
  }

  // ---------- Mutual exclusion and the holder ----------

  predicate Sound(m: Mutex) {
    && m.at.Keys == m.role.Keys
    && (m.owner != 0 ==> m.owner in m.at)
    && (forall t :: t in m.at ==> (Owns(m.at[t]) <==> m.owner == t))
    && (forall t :: t in m.at ==> InRole(m.at[t], m.role[t]))
    && m.holder == (if m.owner in m.at && m.at[m.owner].Inside? then m.owner else 0)
  }

  /** A thread waits only for the condition of its role. */
  predicate InRole(place: Place, role: Role) {
    place.Waiting? || place.Sleeping? || place.Woken? || place.Back? ==> place.cond == role.waits
  }

  /** Every step keeps the mutex sound, for any interleaving and any user of the monitor. */
  lemma MoveKeepsSound(m: Mutex, t: Tid, move: Move)
    requires Sound(m) && CanMove(m, t, move)
    ensures Sound(Moved(m, t, move))
  {
    if move.Notify? {
      NotifyKeepsSound(m, t, move.who);
    } else {
      hide Awakened, MayWake;
    }
  }

  lemma NotifyKeepsSound(m: Mutex, t: Tid, who: set<Tid>)
    requires Sound(m) && CanMove(m, t, Notify(who))
    ensures Sound(Moved(m, t, Notify(who)))
  {
  }

  /** Where a step takes its thread. */
  function Dest(place: Place, role: Role, move: Move): Place {
    match move
    case Acquire => Locked
    case Assign => Inside(Check)
    case Pass => Inside(Ready)
    case BeginWait => Waiting(role.waits)
    case Sleep => Sleeping(role.waits)
    case Wake => Woken(role.waits)
    case Relock => Back(role.waits)
    case Reassign => Inside(Check)
    case Act => Inside(Signal)
    case ActQuietly => Inside(Exit)
    case Notify(_) => Inside(Exit)
    case Unassign => Unlocking
    case Unlock => Outside
  }

  /** A step moves its own thread, and wakes sleepers at most. */
  lemma MoveTouches(m: Mutex, t: Tid, move: Move)
    requires Sound(m) && CanMove(m, t, move)
    ensures var later := Moved(m, t, move);
            && later.at.Keys == m.at.Keys && later.role == m.role
            && later.at[t] == Dest(m.at[t], m.role[t], move)
            && forall u :: u in m.at && u != t ==>
                 later.at[u] == m.at[u] || (move.Notify? && Roused(m.at[u], later.at[u]))
  {
  }

  /** What a thread that has the mutex is at when another thread moves: nothing inside the block. */
  lemma Bystander(m: Mutex, t: Tid, move: Move, u: Tid)
    requires Sound(m) && CanMove(m, t, move) && u in m.at && u != t
    ensures Owns(m.at[u]) ==> move.Wake?
    ensures Owns(Moved(m, t, move).at[u]) ==> Moved(m, t, move).at[u] == m.at[u]
  {
  }

  /**
    Who goes next is not fixed: any sleeper may wake, anybody may take the free mutex, and a
    notification wakes any sleepers of its condition, one of them at least if there is one.
  */
  lemma SchedulerIsFree(m: Mutex, t: Tid, who: set<Tid>)
    requires Sound(m) && t in m.at
    ensures m.at[t].Sleeping? ==> CanMove(m, t, Wake)
    ensures m.owner == 0 && m.at[t].Outside? ==> CanMove(m, t, Acquire)
    ensures m.owner == 0 && m.at[t].Woken? ==> CanMove(m, t, Relock)
    ensures m.at[t] == Inside(Signal) ==>
              (CanMove(m, t, Notify(who)) <==>
               (forall u :: u in who ==> u in m.at && m.at[u] == Sleeping(m.role[t].signals))
               && (who == {} ==> forall u :: u in m.at ==> m.at[u] != Sleeping(m.role[t].signals)))
  {
    var sleepers := Asleep(m, m.role[t].signals);
    assert forall u :: u in m.at && m.at[u] == Sleeping(m.role[t].signals) ==> u in sleepers;
  }

  /** Exactly the notified threads are woken. */
  lemma NotifiedAreWoken(m: Mutex, t: Tid, who: set<Tid>, u: Tid)
    requires Sound(m) && CanMove(m, t, Notify(who)) && u in m.at && u != t
    ensures Moved(m, t, Notify(who)).at[u] == if u in who then Woken(m.role[t].signals) else m.at[u]
  {
  }

  /** The thread cannot go on by itself: it sleeps, or it needs the mutex and another thread has it. */
  predicate HeldUp(m: Mutex, t: Tid) {
    t in m.at && (m.at[t].Sleeping? || ((m.at[t].Outside? || m.at[t].Woken?) && m.owner != 0 && m.owner != t))
  }

  /** A thread is held up exactly when it can take no step but to wake without a notification. */
  lemma HeldUpExactly(m: Mutex, t: Tid)
    requires Sound(m) && t in m.at
    ensures HeldUp(m, t) <==> forall move: Move :: CanMove(m, t, move) ==> move.Wake?
  {
    if !HeldUp(m, t) {
      var move := NextMove(m, t, false, false);
      NextMoveIsEnabled(m, t, false, false);
      assert CanMove(m, t, move) && !move.Wake?;
    }
  }

  lemma OwnerAlone(m: Mutex, t: Tid)
    requires Sound(m) && m.owner == t
    ensures forall u :: u in m.at && u != t ==> !Owns(m.at[u])
  {
  }

  predicate Roused(place: Place, later: Place) {
    place.Sleeping? && later.Woken? && later.cond == place.cond
  }

  lemma JoinKeepsSound(m: Mutex, t: Tid, role: Role)
    requires Sound(m) && t !in m.at
    ensures Sound(Joined(m, t, role))
  {
  }

  lemma LeaveKeepsSound(m: Mutex, t: Tid)
    requires Sound(m) && t in m.at && m.at[t].Outside?
    ensures Sound(Left(m, t))
  {
  }

  /** IsLockedByThisThread, which AssertLocked asserts. */
  predicate IsLockedBy(m: Mutex, t: Tid) {
    m.holder == t
  }

  /**
    The holder names the owner, or nobody in the windows between taking the mutex and
    setting the holder and between clearing the holder and giving the mutex back.
    AssertLocked succeeds for exactly the thread inside the guarded block.
  */
  lemma HolderIsOwner(m: Mutex, t: Tid)
    requires Sound(m)
    ensures m.holder != 0 ==> m.holder == m.owner
    ensures m.owner != m.holder <==> m.owner != 0 && !m.at[m.owner].Inside?
    ensures IsLockedBy(m, t) <==> t in m.at && m.at[t].Inside?
  {
  }

  datatype Event = Arrive(t: Tid, role: Role) | Go(t: Tid, move: Move) | Depart(t: Tid)

  predicate Legal(m: Mutex, e: Event) {
    match e
    case Arrive(t, _) => t !in m.at
    case Go(t, move) => CanMove(m, t, move)
    case Depart(t) => t in m.at && m.at[t].Outside?
  }

  function Next(m: Mutex, e: Event): Mutex
    requires Legal(m, e)
  {
    match e
    case Arrive(t, role) => Joined(m, t, role)
    case Go(t, move) => Moved(m, t, move)
    case Depart(t) => Left(m, t)
  }

  predicate IsInterleaving(m: Mutex, run: seq<Event>)
    decreases |run|
  {
    run == [] || (Legal(m, run[0]) && IsInterleaving(Next(m, run[0]), run[1..]))
  }

  function EndOf(m: Mutex, run: seq<Event>): Mutex
    requires IsInterleaving(m, run)
    decreases |run|
  {
    if run == [] then m else EndOf(Next(m, run[0]), run[1..])
  }

  lemma {:induction false} RunKeepsSound(m: Mutex, run: seq<Event>)
    requires Sound(m) && IsInterleaving(m, run)
    ensures Sound(EndOf(m, run))
    decreases |run|
  {
    if run != [] {
      match run[0] {
        case Arrive(t, role) => JoinKeepsSound(m, t, role);
        case Go(t, move) => MoveKeepsSound(m, t, move);
        case Depart(t) => LeaveKeepsSound(m, t);
      }
      RunKeepsSound(Next(m, run[0]), run[1..]);
    }
  }

  /** In every interleaving AssertLocked succeeds for exactly the owner of the mutex inside its block. */
  lemma HolderInEveryRun(run: seq<Event>, t: Tid)
    requires IsInterleaving(FREE, run)
    ensures var m := EndOf(FREE, run);
            && (m.holder != 0 ==> m.holder == m.owner)
            && (IsLockedBy(m, t) <==> t in m.at && m.at[t].Inside?)
            && (IsLockedBy(m, t) ==> m.owner == t)
  {
    RunKeepsSound(FREE, run);
    HolderIsOwner(EndOf(FREE, run), t);
  }

  // ---------- Sleepers and those who will look again ----------

  /**
    Threads that stand for one unit of what c waits for: those that will check again,
    those that are about to take a unit, and those that made one and still notify.
  */
  predicate Counts(place: Place, role: Role, c: Cond) {
    match place
    case Woken(cond) => cond == c
    case Back(cond) => cond == c
    case Inside(point) => ((point.Check? || point.Ready?) && role.waits == c) || (point.Signal? && role.signals == c)
    case _ => false
  }

  function Weight(place: Place, role: Role, c: Cond): int {
    if Counts(place, role, c) then 1 else 0
  }

  function Credits(m: Mutex, c: Cond): set<Tid>
    requires m.at.Keys == m.role.Keys
  {
    set t | t in m.at && Counts(m.at[t], m.role[t], c)
  }

  /** While a thread sleeps on c, at most so many units are there as threads that stand for one. */
  predicate Covered(m: Mutex, c: Cond, supply: int)
    requires m.at.Keys == m.role.Keys
  {
    Asleep(m, c) != {} ==> supply <= |Credits(m, c)|
  }

  /** By how much the action of a thread changes the units that c waits for. */
  function Change(role: Role, move: Move, c: Cond): int {
    (if move.Act? && role.signals == c then 1 else 0)
    - (if (move.Act? || move.ActQuietly?) && role.waits == c then 1 else 0)
  }

  lemma CreditsAfter(m: Mutex, t: Tid, place: Place, c: Cond)
    requires m.at.Keys == m.role.Keys && t in m.at
    ensures var later := m.(at := m.at[t := place]);
            later.at.Keys == later.role.Keys
            && Credits(later, c) == if Counts(place, m.role[t], c) then Credits(m, c) + {t} else Credits(m, c) - {t}
  {
  }

  /** Only Sleep makes a sleeper; a notification takes away those that it wakes. */
  lemma SleepersAfter(m: Mutex, t: Tid, move: Move, c: Cond)
    requires Sound(m) && CanMove(m, t, move)
    ensures Asleep(Moved(m, t, move), c)
            <= Asleep(m, c) + (if move.Sleep? && m.at[t].cond == c then {t} else {})
               - (if move.Notify? then move.who else {})
  {
  }

  lemma AsleepAfter(m: Mutex, t: Tid, place: Place, c: Cond)
    requires t in m.at
    ensures Asleep(m.(at := m.at[t := place]), c)
            == if place == Sleeping(c) then Asleep(m, c) + {t} else Asleep(m, c) - {t}
  {
  }

  /** Woken sleepers of d become threads that stand for one unit of d. */
  lemma AwakenedCredits(m: Mutex, d: Cond, who: set<Tid>, c: Cond)
    requires m.at.Keys == m.role.Keys && who <= Asleep(m, d)
    ensures var later := m.(at := Awakened(m.at, who));
            later.at.Keys == later.role.Keys
            && Credits(later, c) == (if c == d then Credits(m, c) + who else Credits(m, c))
            && Asleep(later, c) == Asleep(m, c) - who
            && Credits(m, c) !! who
  {
  }

  /**
    The step of one thread keeps the sleepers on c covered, whatever the other threads do:
    a wait begins only when nothing is there, and a notification hands its unit on.
  */
  lemma MoveKeepsCovered(m: Mutex, t: Tid, move: Move, c: Cond, supply: int)
    requires Sound(m) && CanMove(m, t, move) && Covered(m, c, supply)
    requires move.BeginWait? && m.role[t].waits == c ==> supply <= 0
    requires move.Sleep? && m.at[t].cond == c ==> supply <= 0
    ensures Sound(Moved(m, t, move))
    ensures Covered(Moved(m, t, move), c, supply + Change(m.role[t], move, c))
  {
    MoveKeepsSound(m, t, move);
    var later := Moved(m, t, move);
    if move.Notify? {
      NotifyKeepsCovered(m, t, move.who, c, supply);
    } else {
      var place := later.at[t];
      assert later.at == m.at[t := place];
      PlaceKeepsCovered(m, t, place, c, supply, Change(m.role[t], move, c));
      SamePlaces(m.(at := m.at[t := place]), later, c);
    }
  }

  lemma SamePlaces(m: Mutex, later: Mutex, c: Cond)
    requires m.at == later.at && m.role == later.role && m.at.Keys == m.role.Keys
    ensures Asleep(m, c) == Asleep(later, c) && Credits(m, c) == Credits(later, c)
  {
  }

  /** One thread changes its place: its unit must go with it, unless nothing is left to wait for. */
  lemma PlaceKeepsCovered(m: Mutex, t: Tid, place: Place, c: Cond, supply: int, change: int)
    requires m.at.Keys == m.role.Keys && t in m.at && Covered(m, c, supply)
    requires place == Sleeping(c) ==> supply + change <= 0
    requires supply + change <= 0 || change <= Weight(place, m.role[t], c) - Weight(m.at[t], m.role[t], c)
    ensures m.at[t := place].Keys == m.role.Keys
    ensures Covered(m.(at := m.at[t := place]), c, supply + change)
  {
    CreditsAfter(m, t, place, c);
    AsleepAfter(m, t, place, c);
    assert t in Credits(m, c) <==> Counts(m.at[t], m.role[t], c);
  }

  lemma NotifyKeepsCovered(m: Mutex, t: Tid, who: set<Tid>, c: Cond, supply: int)
    requires Sound(m) && CanMove(m, t, Notify(who)) && Covered(m, c, supply)
    requires Moved(m, t, Notify(who)).at.Keys == m.role.Keys
    ensures Covered(Moved(m, t, Notify(who)), c, supply)
  {
    NotifyCredits(m, t, who, c);
    HandedOn(Credits(m, c), t, who);
  }

  lemma NotifyCredits(m: Mutex, t: Tid, who: set<Tid>, c: Cond)
    requires Sound(m) && CanMove(m, t, Notify(who))
    ensures var later := Moved(m, t, Notify(who));
            later.at.Keys == m.role.Keys
            && Asleep(later, c) == Asleep(m, c) - who
            && Credits(later, c) == (if c == m.role[t].signals then Credits(m, c) - {t} + who else Credits(m, c))
            && Credits(m, c) !! who
  {
    AwakenedCredits(m, m.role[t].signals, who, c);
    NotifierLeaves(m.(at := Awakened(m.at, who)), t, c);
    assert t !in who;
    hide Awakened, Sound, MayWake;
  }

  lemma NotifierLeaves(m: Mutex, t: Tid, c: Cond)
    requires m.at.Keys == m.role.Keys && t in m.at && m.at[t] == Inside(Signal)
    ensures var later := m.(at := m.at[t := Inside(Exit)]);
            later.at.Keys == m.role.Keys
            && Asleep(later, c) == Asleep(m, c)
            && Credits(later, c) == if c == m.role[t].signals then Credits(m, c) - {t} else Credits(m, c)
  {
    CreditsAfter(m, t, Inside(Exit), c);
    AsleepAfter(m, t, Inside(Exit), c);
  }

  /** One that leaves a set for at least one newcomer does not make it smaller. */
  lemma HandedOn(credits: set<Tid>, t: Tid, who: set<Tid>)
    requires credits !! who
    ensures who != {} ==> |credits| <= |credits - {t} + who|
  {
    if who != {} {
      var one :| one in who;
      assert who == {one} + (who - {one});
    }
  }

  /** A thread that arrives or leaves outside the block changes nothing for the others. */
  lemma JoinKeepsCovered(m: Mutex, t: Tid, role: Role, c: Cond, supply: int)
    requires Sound(m) && t !in m.at && Covered(m, c, supply)
    ensures Joined(m, t, role).at.Keys == Joined(m, t, role).role.Keys
    ensures Covered(Joined(m, t, role), c, supply)
  {
    assert Asleep(Joined(m, t, role), c) == Asleep(m, c);
    assert Credits(Joined(m, t, role), c) == Credits(m, c);
  }

  lemma LeaveKeepsCovered(m: Mutex, t: Tid, c: Cond, supply: int)
    requires Sound(m) && t in m.at && m.at[t].Outside? && Covered(m, c, supply)
    ensures Left(m, t).at.Keys == Left(m, t).role.Keys
    ensures Covered(Left(m, t), c, supply)
  {
    assert Asleep(Left(m, t), c) == Asleep(m, c);
    assert Credits(Left(m, t), c) == Credits(m, c);
  }

  /** While nobody owns the mutex only woken threads stand for a unit. */
  lemma FreeMutexCredits(m: Mutex, c: Cond)
    requires Sound(m) && m.owner == 0
    ensures Credits(m, c) == set t | t in m.at && m.at[t] == Woken(c)
  {
  }

  lemma NobodyCounts(m: Mutex, c: Cond)
    requires Sound(m) && forall t :: t in m.at ==> m.at[t].Sleeping?
    ensures Credits(m, c) == {}
  {
  }

  // ---------- Steps left ----------

  /** The step that a thread takes next; a sleeper can only wake up. */
  function NextMove(m: Mutex, t: Tid, blocked: bool, quiet: bool): Move
    requires t in m.at && t in m.role
  {
    match m.at[t]
    case Outside => Acquire
    case Locked => Assign
    case Inside(Check) => if blocked then BeginWait else Pass
    case Inside(Ready) => if quiet then ActQuietly else Act
    case Inside(Signal) => Notify(Asleep(m, m.role[t].signals))
    case Inside(Exit) => Unassign
    case Unlocking => Unlock
    case Waiting(_) => Sleep
    case Sleeping(_) => Wake
    case Woken(_) => Relock
    case Back(_) => Reassign
  }

  /** Nobody but the owner of the mutex is kept from going on by the monitor. */
  lemma NextMoveIsEnabled(m: Mutex, t: Tid, blocked: bool, quiet: bool)
    requires Sound(m) && t in m.at && (m.owner == 0 || m.owner == t)
    ensures CanMove(m, t, NextMove(m, t, blocked, quiet))
  {
  }

  /** How far a place is from the next sleep or from the end of the block. */
  function PlaceRank(place: Place): nat {
    match place
    case Outside => 9
    case Locked => 8
    case Inside(Check) => 7
    case Inside(Ready) => 6
    case Inside(Signal) => 5
    case Inside(Exit) => 4
    case Unlocking => 3
    case Waiting(_) => 2
    case Sleeping(_) => 1
    case Woken(_) => 9
    case Back(_) => 8
  }

  /** The threads that have acted and not notified yet. */
  function Notifying(m: Mutex): set<Tid> {
    set t | t in m.at && m.at[t] == Inside(Signal)
  }

  lemma NotifyingAfter(m: Mutex, t: Tid, move: Move)
    requires Sound(m) && CanMove(m, t, move)
    ensures Notifying(Moved(m, t, move))
            == if move.Act? then Notifying(m) + {t} else if move.Notify? then Notifying(m) - {t} else Notifying(m)
    ensures move.Notify? ==> t in Notifying(m)
  {
  }

  ghost function Sum(r: map<Tid, nat>): nat {
    if r == map[] then 0 else
      var t :| t in r; r[t] + Sum(r - {t})
  }

  lemma {:induction false} SumWithout(r: map<Tid, nat>, t: Tid)
    requires t in r
    ensures Sum(r) == r[t] + Sum(r - {t})
  {
    var u :| u in r && Sum(r) == r[u] + Sum(r - {u});
    if u != t {
      SumWithout(r - {u}, t);
      SumWithout(r - {t}, u);
      assert r - {u} - {t} == r - {t} - {u};
    }
  }

  /** The sum changes as one thread's share does, when the others keep theirs. */
  lemma SumChanges(r: map<Tid, nat>, later: map<Tid, nat>, t: Tid)
    requires r.Keys == later.Keys && t in r
    requires forall u :: u in r && u != t ==> later[u] == r[u]
    ensures Sum(later) + r[t] == Sum(r) + later[t]
  {
    SumWithout(r, t);
    SumWithout(later, t);
    assert r - {t} == later - {t};
  }

  function PlaceRanks(m: Mutex): map<Tid, nat> {
    map t | t in m.at :: PlaceRank(m.at[t])
  }

  /** Every step but a wake-up and a notification lowers the ranks, and so does the end of a call. */
  lemma MoveLowersRanks(m: Mutex, t: Tid, move: Move)
    requires Sound(m) && CanMove(m, t, move) && !move.Wake? && !move.Notify? && !move.Unlock?
    ensures Sum(PlaceRanks(Moved(m, t, move))) < Sum(PlaceRanks(m))
  {
    MoveTouches(m, t, move);
    hide Moved, Sound;
    SumChanges(PlaceRanks(m), PlaceRanks(Moved(m, t, move)), t);
  }

  lemma EndLowersRanks(m: Mutex, t: Tid)
    requires CanMove(m, t, Unlock)
    ensures Sum(PlaceRanks(Left(Moved(m, t, Unlock), t))) < Sum(PlaceRanks(m))
    ensures Notifying(Left(Moved(m, t, Unlock), t)) == Notifying(m)
  {
    SumWithout(PlaceRanks(m), t);
    assert PlaceRanks(Left(Moved(m, t, Unlock), t)) == PlaceRanks(m) - {t};
  }
}
