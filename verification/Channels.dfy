/**
  The life of one channel as its poller sees it: the operations of class Channel of
  qingyi/net/channel_.h, and what the assertions of PollPoller let through.

  The classes in Poller.dfy are proved to step through this model.
*/
module Channels {

  /** The bits of events_, as many as the short in a pollfd holds. */
  type Events = bv16

  const POLLIN: Events := 1
  const POLLPRI: Events := 2
  const POLLOUT: Events := 4

  const NONE_EVENT: Events := 0
  const READ_EVENT: Events := POLLIN | POLLPRI
  const WRITE_EVENT: Events := POLLOUT

  /** What a poller keeps for a channel: its events at the last update, and whether the entry is switched off. */
  datatype Registration = Registration(events: Events, disabled: bool)

  datatype Entry = Absent | Present(registration: Registration)

  /** A channel: its events, whether it never had an index, and its entry in the poller. */
  datatype Life = Life(events: Events, unindexed: bool, entry: Entry)

  const NEWBORN := Life(NONE_EVENT, true, Absent)

  datatype Op = EnableReading | DisableReading | EnableWriting | DisableWriting | DisableAll | Remove

  function With(events: Events, mask: Events): Events {
    events | mask
  }

  function Without(events: Events, mask: Events): Events {
    events & !mask
  }

  function NewEvents(events: Events, op: Op): Events {
    match op
    case EnableReading => With(events, READ_EVENT)
    case DisableReading => Without(events, READ_EVENT)
    case EnableWriting => With(events, WRITE_EVENT)
    case DisableWriting => Without(events, WRITE_EVENT)
    case DisableAll => NONE_EVENT
    case Remove => events
  }

  /** Whether the operation ends in a call of UpdateChannel. */
  predicate Updates(op: Op) {
    !op.DisableAll? && !op.Remove?
  }

  /** Whether the assertions in Channel and PollPoller let the operation through. */
  predicate Accepted(life: Life, op: Op) {
    if Updates(op) then life.unindexed == life.entry.Absent?
    else op.Remove? ==> life.events == NONE_EVENT && life.entry == Present(Registration(life.events, true))
  }

  function Step(life: Life, op: Op): Life {
    var events := NewEvents(life.events, op);
    if Updates(op) then
      Life(events, false, Present(Registration(events, !life.unindexed && events == NONE_EVENT)))
    else if op.DisableAll? then life.(events := events)
    else life.(entry := Absent)
  }

  function Live(life: Life, ops: seq<Op>): Life {
    if ops == [] then life else Step(Live(life, ops[..|ops| - 1]), ops[|ops| - 1])
  }

  predicate NeverRemoved(ops: seq<Op>) {
    forall i :: 0 <= i < |ops| ==> !ops[i].Remove?
  }

  // ---------- The bits of the events ----------

  /** EnableReading sets the bits 1 and 2 and leaves the others. */
  lemma EnableReadingSets(events: Events)
    ensures NewEvents(events, EnableReading) & 3 == 3
    ensures NewEvents(events, EnableReading) & !3 == events & !3
  {
  }

  lemma DisableReadingClears(events: Events)
    ensures NewEvents(events, DisableReading) & 3 == 0
    ensures NewEvents(events, DisableReading) & !3 == events & !3
  {
  }

  /** EnableWriting sets the bit 4 and leaves the others. */
  lemma EnableWritingSets(events: Events)
    ensures NewEvents(events, EnableWriting) & 4 == 4
    ensures NewEvents(events, EnableWriting) & !4 == events & !4
  {
  }

  lemma DisableWritingClears(events: Events)
    ensures NewEvents(events, DisableWriting) & 4 == 0
    ensures NewEvents(events, DisableWriting) & !4 == events & !4
  {
  }

  datatype Direction = Read | Write

  predicate Enables(op: Op, d: Direction) {
    if d.Read? then op.EnableReading? else op.EnableWriting?
  }

  predicate Disables(op: Op, d: Direction) {
    op.DisableAll? || if d.Read? then op.DisableReading? else op.DisableWriting?
  }

  /** Call i enabled the direction, and no later one disabled it. */
  predicate EnabledAt(ops: seq<Op>, d: Direction, i: int) {
    0 <= i < |ops| && Enables(ops[i], d) && forall j :: i < j < |ops| ==> !Disables(ops[j], d)
  }

  ghost predicate Wanted(ops: seq<Op>, d: Direction) {
    exists i :: EnabledAt(ops, d, i)
  }

  lemma WantedAfter(ops: seq<Op>, d: Direction)
    requires ops != []
    ensures var before, op := ops[..|ops| - 1], ops[|ops| - 1];
            Wanted(ops, d) <==> Enables(op, d) || (Wanted(before, d) && !Disables(op, d))
  {
    var last := |ops| - 1;
    var before, op := ops[..last], ops[last];
    if Enables(op, d) {
      assert EnabledAt(ops, d, last);
    } else if Wanted(before, d) && !Disables(op, d) {
      var i :| EnabledAt(before, d, i);
      assert EnabledAt(ops, d, i);
    } else if Wanted(ops, d) {
      var i :| EnabledAt(ops, d, i);
      assert EnabledAt(before, d, i);
    }
  }

  /**
    After any calls the events are the bits 1 and 2 if the last call that enabled or disabled
    reading enabled it, and the bit 4 likewise for writing; no other bit is ever set.
  */
  lemma {:induction false} EventsFromHistory(ops: seq<Op>)
    ensures Live(NEWBORN, ops).events
            == (if Wanted(ops, Read) then 3 else 0) | (if Wanted(ops, Write) then 4 else 0)
  {
    if ops != [] {
      EventsFromHistory(ops[..|ops| - 1]);
      WantedAfter(ops, Read);
      WantedAfter(ops, Write);
      hide Wanted;
    }
  }

  // ---------- The history of a channel ----------

  function UpdateCount(ops: seq<Op>): nat {
    if ops == [] then 0
    else UpdateCount(ops[..|ops| - 1]) + if Updates(ops[|ops| - 1]) then 1 else 0
  }

  function EventsAfter(ops: seq<Op>): Events {
    if ops == [] then NONE_EVENT else NewEvents(EventsAfter(ops[..|ops| - 1]), ops[|ops| - 1])
  }

  /** The events of the channel when it last called UpdateChannel. */
  function EventsAtLastUpdate(ops: seq<Op>): Events {
    if ops == [] then NONE_EVENT
    else if Updates(ops[|ops| - 1]) then EventsAfter(ops)
    else EventsAtLastUpdate(ops[..|ops| - 1])
  }

  /** The state of a channel that was not removed, from its history. */
  lemma {:induction false} LifeFromHistory(ops: seq<Op>)
    requires NeverRemoved(ops)
    ensures Live(NEWBORN, ops)
            == Life(EventsAfter(ops), UpdateCount(ops) == 0,
                    if UpdateCount(ops) == 0 then Absent
                    else Present(Registration(EventsAtLastUpdate(ops),
                                              UpdateCount(ops) >= 2 && EventsAtLastUpdate(ops) == NONE_EVENT)))
  {
    if ops != [] {
      LifeFromHistory(ops[..|ops| - 1]);
    }
  }

  /** Until it is removed, a channel can be updated at any time. */
  lemma UpdatesAreAccepted(ops: seq<Op>, op: Op)
    requires NeverRemoved(ops) && !op.Remove?
    ensures Accepted(Live(NEWBORN, ops), op)
  {
    LifeFromHistory(ops);
  }

  /**
    Remove passes every assertion exactly when the channel was updated at least twice
    and its last update left it without events.
  */
  lemma RemoveAcceptedExactly(ops: seq<Op>)
    requires NeverRemoved(ops)
    ensures Accepted(Live(NEWBORN, ops), Remove)
            <==> UpdateCount(ops) >= 2 && EventsAtLastUpdate(ops) == NONE_EVENT
  {
    LifeFromHistory(ops);
  }

  /** A run that starts with an Enable call and uses only Enable and Disable calls of one direction each. */
  predicate Disciplined(ops: seq<Op>) {
    ops != [] && (ops[0].EnableReading? || ops[0].EnableWriting?) && forall i :: 0 <= i < |ops| ==> Updates(ops[i])
  }

  lemma {:induction false} DisciplinedHistory(ops: seq<Op>)
    requires Disciplined(ops)
    ensures UpdateCount(ops) == |ops| && EventsAtLastUpdate(ops) == EventsAfter(ops)
    ensures |ops| == 1 ==> EventsAfter(ops) != NONE_EVENT
  {
    if |ops| > 1 {
      DisciplinedHistory(ops[..|ops| - 1]);
    } else {
      assert ops[..0] == [];
      EnableGivesEvents();
    }
  }

  lemma EnableGivesEvents()
    ensures With(NONE_EVENT, READ_EVENT) != NONE_EVENT && With(NONE_EVENT, WRITE_EVENT) != NONE_EVENT
  {
  }

  /**
    In a disciplined run the poller always has the channel's own events, the entry is
    switched off exactly when there are none, and exactly then the channel can be removed.
  */
  lemma DisciplinedRun(ops: seq<Op>)
    requires Disciplined(ops)
    ensures var life := Live(NEWBORN, ops);
            life.entry == Present(Registration(life.events, life.events == NONE_EVENT))
            && (Accepted(life, Remove) <==> life.events == NONE_EVENT)
  {
    LifeFromHistory(ops);
    DisciplinedHistory(ops);
  }

  /** A removed channel keeps its index: no update or removal of it is ever accepted again. */
  lemma NeverAddedAgain(ops: seq<Op>, later: seq<Op>, op: Op)
    requires NeverRemoved(ops) && Accepted(Live(NEWBORN, ops), Remove)
    requires forall i :: 0 <= i < |later| ==> later[i].DisableAll?
    requires Updates(op) || op.Remove?
    ensures !Accepted(Live(Step(Live(NEWBORN, ops), Remove), later), op)
  {
    LifeFromHistory(ops);
    StaysRemoved(Step(Live(NEWBORN, ops), Remove), later);
  }

  lemma {:induction false} StaysRemoved(life: Life, ops: seq<Op>)
    requires forall i :: 0 <= i < |ops| ==> ops[i].DisableAll?
    ensures Live(life, ops).unindexed == life.unindexed && Live(life, ops).entry == life.entry
  {
    if ops != [] {
      StaysRemoved(life, ops[..|ops| - 1]);
    }
  }

  /** DisableAll does not tell the poller, and a first update without events is not switched off. */
  lemma UndisciplinedRemovals()
    ensures !Accepted(Live(NEWBORN, [EnableReading, DisableAll]), Remove)
    ensures Live(NEWBORN, [EnableReading, DisableAll]).events == NONE_EVENT
    ensures !Accepted(Live(NEWBORN, [DisableReading]), Remove)
    ensures Accepted(Live(NEWBORN, [EnableReading, DisableAll, DisableWriting]), Remove)
  {
    var a, b, c := [EnableReading, DisableAll], [DisableReading], [EnableReading, DisableAll, DisableWriting];
    assert a[..1] == [EnableReading] && a[..1][..0] == [] && b[..0] == [] && c[..2] == a;
    EnableGivesEvents();
  }
}
