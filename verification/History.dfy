/**
  Histories of what threads did, in the order in which they did it.
*/
module History {
  import opened Monitor

  /** Nothing of the past changes. */
  ghost predicate Follows<A>(trace: seq<A>, later: seq<A>) {
    trace <= later
  }

  lemma FollowsNext<A>(trace: seq<A>, later: seq<A>, a: A)
    requires Follows(trace, later)
    ensures Follows(trace, later + [a])
  {
  }

  /** A step of the thread that is in a call, or a turn of the other threads between two steps of t. */
  datatype Turn<A> = Own(a: A) | Rivals(t: Tid, batch: seq<A>)

  /** The turns of the other threads, in order. */
  function RivalTurns<A>(turns: seq<Turn<A>>): seq<seq<A>> {
    if turns == [] then []
    else
      var last := turns[|turns| - 1];
      RivalTurns(turns[..|turns| - 1]) + if last.Rivals? then [last.batch] else []
  }

  lemma RivalTurnsOn<A>(turns: seq<Turn<A>>, turn: Turn<A>)
    ensures RivalTurns(turns + [turn]) == RivalTurns(turns) + if turn.Rivals? then [turn.batch] else []
  {
    assert (turns + [turn])[..|turns|] == turns;
  }

  /** Those elements of s that are taken, in order. */
  function Picked<A>(s: seq<A>, taken: seq<bool>): (r: seq<A>)
    requires |taken| == |s|
  {
    if s == [] then []
    else
      var last := |s| - 1;
      Picked(s[..last], taken[..last]) + if taken[last] then [s[last]] else []
  }

  lemma PickedOn<A>(s: seq<A>, taken: seq<bool>, takes: bool)
    requires |taken| + 1 == |s|
    ensures Picked(s, taken + [takes]) == Picked(s[..|s| - 1], taken) + if takes then [s[|s| - 1]] else []
  {
    assert (taken + [takes])[..|taken|] == taken;
  }

  /** All of the schedule but what is left has had its turn. */
  ghost predicate Played<A>(schedule: seq<seq<A>>, left: nat, turns: seq<Turn<A>>) {
    left <= |schedule| && RivalTurns(turns) == schedule[..|schedule| - left]
  }

  lemma PlaysOwn<A>(schedule: seq<seq<A>>, left: nat, turns: seq<Turn<A>>, a: A)
    requires Played(schedule, left, turns)
    ensures Played(schedule, left, turns + [Own(a)])
  {
    RivalTurnsOn(turns, Own(a));
  }

  lemma PlaysRivals<A>(schedule: seq<seq<A>>, left: nat, turns: seq<Turn<A>>, t: Tid)
    requires Played(schedule, left, turns) && left > 0
    ensures Played(schedule, left - 1, turns + [Rivals(t, schedule[|schedule| - left])])
  {
    RivalTurnsOn(turns, Rivals(t, schedule[|schedule| - left]));
  }

  /** What was done, in order. */
  function Values<T>(h: seq<(Tid, T)>): seq<T> {
    if h == [] then [] else Values(h[..|h| - 1]) + [h[|h| - 1].1]
  }

  /** What one thread did, in order. */
  function Of<T>(h: seq<(Tid, T)>, t: Tid): seq<T> {
    if h == [] then [] else
      var before := Of(h[..|h| - 1], t);
      var last := h[|h| - 1];
      if last.0 == t then before + [last.1] else before
  }

  lemma Appended<T>(h: seq<(Tid, T)>, u: Tid, x: T)
    ensures Values(h + [(u, x)]) == Values(h) + [x]
    ensures forall t :: Of(h + [(u, x)], t) == if t == u then Of(h, t) + [x] else Of(h, t)
  {
    assert (h + [(u, x)])[..|h|] == h;
  }

  /** The same without the last thing that t did. */
  function WithoutLast<T>(h: seq<(Tid, T)>, t: Tid): seq<(Tid, T)> {
    if h == [] then []
    else if h[|h| - 1].0 == t then h[..|h| - 1]
    else WithoutLast(h[..|h| - 1], t) + [h[|h| - 1]]
  }

  lemma {:induction false} LastOf<T>(h: seq<(Tid, T)>, t: Tid)
    requires Of(h, t) != []
    ensures var own := Of(h, t); var rest := WithoutLast(h, t);
            && Of(rest, t) == own[..|own| - 1]
            && (forall u: Tid :: u != t ==> Of(rest, u) == Of(h, u))
            && multiset(Values(h)) == multiset(Values(rest)) + multiset{own[|own| - 1]}
  {
    var before, last := h[..|h| - 1], h[|h| - 1];
    if last.0 != t {
      LastOf(before, t);
      Appended(WithoutLast(before, t), last.0, last.1);
    }
  }

  lemma SomebodyDid<T>(h: seq<(Tid, T)>)
    ensures h != [] ==> Of(h, h[|h| - 1].0) != []
  {
  }

  /** When every thread did the same in the same order, the same was done altogether. */
  lemma {:induction false} SameByThread<T>(a: seq<(Tid, T)>, b: seq<(Tid, T)>)
    requires forall t: Tid :: Of(a, t) == Of(b, t)
    ensures multiset(Values(a)) == multiset(Values(b))
  {
    if a == [] {
      SomebodyDid(b);
    } else {
      var before, last := a[..|a| - 1], a[|a| - 1];
      assert a == before + [last];
      Appended(before, last.0, last.1);
      LastOf(b, last.0);
      SameByThread(before, WithoutLast(b, last.0));
    }
  }
}
