/**
  Whole runs of the channels of one poller: any calls of any channels, in any order, with
  any results of poll() between them.  What one channel does leaves the lives of the others
  alone, so each lives as its own calls say.
*/
module PollerRuns {
  import opened Channels
  import opened Poller

  /** What the system call poll() stores and returns. */
  datatype Answer = Answer(revents: seq<int>, numEvents: int)

  datatype Call = Call(channel: Channel, op: Op) | Poll(answer: seq<PollFd> -> Answer)

  /** The calls of one channel. */
  function OpsOf(calls: seq<Call>, channel: Channel): seq<Op> {
    if calls == [] then []
    else OpsOf(calls[..|calls| - 1], channel) + OpOf(calls[|calls| - 1], channel)
  }

  function OpOf(call: Call, channel: Channel): seq<Op> {
    if call.Call? && call.channel == channel then [call.op] else []
  }

  /** The life of a channel that has made its calls among these. */
  function LifeIn(calls: seq<Call>, channel: Channel): Life {
    Live(NEWBORN, OpsOf(calls, channel))
  }

  /** The call passes the assertions that its own channel's life decides; poll() keeps to POSIX. */
  ghost predicate Allowed(before: seq<Call>, call: Call, all: set<Channel>) {
    match call
    case Call(channel, op) => channel in all && Accepted(LifeIn(before, channel), op)
    case Poll(answer) => forall p :: PollContract(p, answer(p).revents, answer(p).numEvents)
  }

  ghost predicate IsRun(calls: seq<Call>, all: set<Channel>) {
    forall i :: 0 <= i < |calls| ==> Allowed(calls[..i], calls[i], all)
  }

  lemma OneMoreCall(before: seq<Call>, call: Call, channel: Channel)
    ensures LifeIn(before + [call], channel)
            == if call.Call? && call.channel == channel then Step(LifeIn(before, channel), call.op)
               else LifeIn(before, channel)
  {
    assert (before + [call])[..|before|] == before;
    var ops := OpsOf(before, channel);
    if call.Call? && call.channel == channel {
      assert (ops + [call.op])[..|ops|] == ops;
    } else {
      assert ops + [] == ops;
    }
  }

  /** Channels of this poller with descriptors of their own, and no others are registered. */
  ghost predicate Share(loop: PollPoller, all: set<Channel>)
    reads loop, loop.members`index, all
  {
    && loop.Valid() && loop.members <= all
    && (forall channel :: channel in all ==> channel.loop == loop)
    && (forall channel, other :: channel in all && other in all && channel.fd == other.fd ==> channel == other)
  }

  /** Every channel is where its own calls have led it. */
  ghost predicate LiveAs(loop: PollPoller, all: set<Channel>, calls: seq<Call>)
    reads loop, all
  {
    forall channel :: channel in all && channel.loop == loop ==> channel.AsLife() == LifeIn(calls, channel)
  }

  /** Exactly the channels with an entry are registered. */
  ghost predicate RegisteredAs(loop: PollPoller, all: set<Channel>, calls: seq<Call>)
    reads loop
  {
    forall channel :: channel in all ==> (channel in loop.members <==> LifeIn(calls, channel).entry.Present?)
  }

  /** The assertions of the poller on a call are those that the life of the channel decides. */
  lemma DemandsOfLife(loop: PollPoller, all: set<Channel>, channel: Channel)
    requires Share(loop, all) && channel in all
    ensures forall op :: Updates(op) ==> (Accepted(channel.AsLife(), op) <==> loop.CanUpdate(channel))
    ensures Accepted(channel.AsLife(), Op.Remove) <==> loop.CanRemove(channel)
  {
  }

  /** One call of a channel. */
  method Do(loop: PollPoller, all: set<Channel>, channel: Channel, op: Op)
    requires Share(loop, all) && channel in all && Accepted(channel.AsLife(), op)
    modifies loop, all
    ensures Share(loop, all) && channel.AsLife() == Step(old(channel.AsLife()), op)
    ensures forall other :: other in all && other != channel ==> other.AsLife() == old(other.AsLife())
  {
    match op
    case DisableAll => channel.DisableAll();
    case Remove => DoRemove(loop, all, channel);
    case _ => DoUpdate(loop, all, channel, op);
  }

  method DoRemove(loop: PollPoller, all: set<Channel>, channel: Channel)
    requires Share(loop, all) && channel in all && Accepted(channel.AsLife(), Op.Remove)
    modifies loop, all
    ensures Share(loop, all) && channel.AsLife() == Step(old(channel.AsLife()), Op.Remove)
    ensures forall other :: other in all && other != channel ==> other.AsLife() == old(other.AsLife())
  {
    loop.MembersHaveIndices();
    hide Poller.PollPoller.Valid;
    channel.Remove();
  }

  method DoUpdate(loop: PollPoller, all: set<Channel>, channel: Channel, op: Op)
    requires Share(loop, all) && channel in all && Updates(op) && Accepted(channel.AsLife(), op)
    modifies loop, all
    ensures Share(loop, all) && channel.AsLife() == Step(old(channel.AsLife()), op)
    ensures forall other :: other in all && other != channel ==> other.AsLife() == old(other.AsLife())
  {
    Enact(channel, op);
  }

  method Enact(channel: Channel, op: Op)
    requires channel.loop.Valid() && Updates(op) && channel.loop.CanUpdate(channel)
    modifies channel`events, channel`index, channel`addedToLoop, channel.loop
    ensures channel.loop.Valid() && channel.AsLife() == Step(old(channel.AsLife()), op)
    ensures channel.loop.channels == old(channel.loop.channels)[channel.fd := channel]
    ensures channel.loop.members == old(channel.loop.members) + {channel}
    ensures channel.loop.book.registry
            == old(channel.loop.book.registry)[channel.fd := channel.AsLife().entry.registration]
  {
    match op
    case EnableReading => channel.EnableReading();
    case DisableReading => channel.DisableReading();
    case EnableWriting => channel.EnableWriting();
    case DisableWriting => channel.DisableWriting();
  }

  /** A call of poll(), with any answer that POSIX allows. */
  method DoPoll(loop: PollPoller, all: set<Channel>, answer: Answer) returns (active: seq<Channel>)
    requires Share(loop, all) && PollContract(loop.pollfds, answer.revents, answer.numEvents)
    modifies loop, all
    ensures Share(loop, all) && loop.members == old(loop.members)
    ensures if answer.numEvents >= 0 then loop.ListsReady(active) else active == []
    ensures forall channel :: channel in active ==> channel in all && IsListening(channel.AsLife())
    ensures forall channel :: channel in all ==> channel.AsLife() == old(channel.AsLife())
  {
    active := loop.Poll(answer.revents, answer.numEvents, []);
    ReportedAreListening(loop, active);
  }

  /** The channel has an entry that is not switched off. */
  predicate IsListening(life: Life) {
    life.entry.Present? && !life.entry.registration.disabled
  }

  lemma ReportedAreListening(loop: PollPoller, active: seq<Channel>)
    requires loop.Valid() && loop.NoneDisabledReady() && (active != [] ==> loop.ListsReady(active))
    requires forall channel :: channel in loop.members ==> channel.loop == loop
    ensures forall channel :: channel in active ==> channel in loop.members && IsListening(channel.AsLife())
  {
    forall channel | channel in active
      ensures channel in loop.members && IsListening(channel.AsLife())
    {
      var k :| 0 <= k < |active| && active[k] == channel;
      assert loop.Has(active[k]) && loop.HasEntryWithEvents(active[k].fd);
      EntryAt(loop.pollfds, loop.book.indices, loop.book.registry, channel.fd);
    }
  }

  /** A poller and channels as their constructors leave them can start a run. */
  lemma NewbornsShare(loop: PollPoller, all: set<Channel>)
    requires loop.Valid() && loop.members == {}
    requires forall channel :: channel in all ==>
               channel.loop == loop && channel.index == -1 && channel.events == NONE_EVENT
    requires forall channel, other :: channel in all && other in all && channel.fd == other.fd ==> channel == other
    ensures Share(loop, all) && LiveAs(loop, all, [])
  {
    forall channel | channel in all
      ensures channel.AsLife() == NEWBORN
    {
      assert !loop.Has(channel);
    }
  }

  /** The next call of a run. */
  method Next(loop: PollPoller, all: set<Channel>, before: seq<Call>, call: Call)
    requires Share(loop, all) && LiveAs(loop, all, before) && Allowed(before, call, all)
    modifies loop, all
    ensures Share(loop, all) && LiveAs(loop, all, before + [call])
  {
    forall channel: Channel
      ensures LifeIn(before + [call], channel)
              == if call.Call? && call.channel == channel then Step(LifeIn(before, channel), call.op)
                 else LifeIn(before, channel)
    {
      OneMoreCall(before, call, channel);
    }
    hide LifeIn;
    match call
    case Call(channel, op) => Do(loop, all, channel, op);
    case Poll(answer) => var active := DoPoll(loop, all, answer(loop.pollfds));
  }

  lemma LastIsAllowed(calls: seq<Call>, all: set<Channel>)
    requires IsRun(calls, all) && calls != []
    ensures var before, call := calls[..|calls| - 1], calls[|calls| - 1];
            IsRun(before, all) && Allowed(before, call, all) && calls == before + [call]
  {
    var before := calls[..|calls| - 1];
    hide Allowed;
    forall i | 0 <= i < |before|
      ensures Allowed(before[..i], before[i], all)
    {
      assert before[..i] == calls[..i];
    }
  }

  lemma Registered(loop: PollPoller, all: set<Channel>, calls: seq<Call>)
    requires Share(loop, all) && LiveAs(loop, all, calls)
    ensures RegisteredAs(loop, all, calls)
  {
    hide LifeIn;
  }

  /**
    Every run of calls that pass the assertions of their own channels' lives passes all
    assertions of the poller, and keeps its structures in agreement; every channel ends
    where its own calls lead it, and exactly those with an entry are registered.
  */
  method Run(loop: PollPoller, all: set<Channel>, calls: seq<Call>)
    requires Share(loop, all) && LiveAs(loop, all, []) && IsRun(calls, all)
    modifies loop, all
    ensures Share(loop, all) && LiveAs(loop, all, calls) && RegisteredAs(loop, all, calls)
  {
    hide *;
    if calls == [] {
      Registered(loop, all, calls);
      return;
    }
    var before, call := calls[..|calls| - 1], calls[|calls| - 1];
    LastIsAllowed(calls, all);
    Run(loop, all, before);
    Next(loop, all, before, call);
    Registered(loop, all, calls);
  }
}
