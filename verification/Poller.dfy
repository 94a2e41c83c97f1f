/**
  PollPoller of qingyi/net/poller/poll_poller_.cc with the channels it serves.  Three
  mutable structures agree: the map from descriptors to channels, the dense vector that
  is passed to poll(), and the index that every channel keeps of its place in the vector.

  A disabled entry holds -fd-1 in place of the descriptor, which poll() skips.
  An assertion of the source is a precondition here when it concerns the caller, and an
  assert statement when it concerns the poller's own structures.
*/
module Poller {
  import opened Channels

  datatype PollFd = PollFd(fd: int, events: Events, revents: int)

  /** The form of a descriptor that poll() skips. */
  function Disabled(fd: int): int {
    -fd - 1
  }

  /** The descriptor that an entry stands for, disabled or not. */
  function Descriptor(fd: int): nat {
    if fd < 0 then Disabled(fd) else fd
  }

  // ---------- The agreement of the three structures, on values ----------

  /** The entry of a registered channel is its descriptor, or the disabled form of it, with the events it asked for. */
  predicate EntryAgrees(entry: PollFd, fd: int, registration: Registration) {
    entry.fd == (if registration.disabled then Disabled(fd) else fd) && entry.events == registration.events
  }

  /** Indices into the vector and its entries are inverse, and every entry is what its channel asked for. */
  ghost predicate Agree(pollfds: seq<PollFd>, indices: map<int, int>, registry: map<int, Registration>) {
    && |indices| == |pollfds|
    && registry.Keys == indices.Keys
    && (forall fd {:trigger IndexAgrees(pollfds, indices, registry, fd)} ::
          fd in indices ==> IndexAgrees(pollfds, indices, registry, fd))
    && (forall i {:trigger PlaceAgrees(pollfds, indices, i)} :: 0 <= i < |pollfds| ==> PlaceAgrees(pollfds, indices, i))
  }

  ghost predicate IndexAgrees(pollfds: seq<PollFd>, indices: map<int, int>, registry: map<int, Registration>, fd: int) {
    && fd >= 0 && fd in indices && 0 <= indices[fd] < |pollfds|
    && fd in registry && EntryAgrees(pollfds[indices[fd]], fd, registry[fd])
  }

  ghost predicate PlaceAgrees(pollfds: seq<PollFd>, indices: map<int, int>, i: int) {
    0 <= i < |pollfds| && Descriptor(pollfds[i].fd) in indices && indices[Descriptor(pollfds[i].fd)] == i
  }

  lemma IndicesAreDistinct(pollfds: seq<PollFd>, indices: map<int, int>, registry: map<int, Registration>,
                           fd: int, other: int)
    requires Agree(pollfds, indices, registry) && fd in indices && other in indices
    ensures indices[fd] == indices[other] ==> fd == other
  {
    assert IndexAgrees(pollfds, indices, registry, fd) && IndexAgrees(pollfds, indices, registry, other);
  }

  lemma EntryAt(pollfds: seq<PollFd>, indices: map<int, int>, registry: map<int, Registration>, fd: int)
    requires Agree(pollfds, indices, registry) && fd in indices
    ensures fd in registry && 0 <= indices[fd] < |pollfds| && EntryAgrees(pollfds[indices[fd]], fd, registry[fd])
  {
    assert IndexAgrees(pollfds, indices, registry, fd);
  }

  /** The vector after the first update of a channel. */
  function Added(pollfds: seq<PollFd>, fd: int, events: Events): seq<PollFd> {
    pollfds + [PollFd(fd, events, 0)]
  }

  /** The vector after a later update of the channel with index idx. */
  function Rewritten(pollfds: seq<PollFd>, idx: nat, fd: int, events: Events): seq<PollFd>
    requires idx < |pollfds|
  {
    pollfds[idx := PollFd(if events == NONE_EVENT then Disabled(fd) else fd, events, 0)]
  }

  /** What poll() is given for the channel: its events, and -fd-1 in place of fd if a later update leaves it none. */
  lemma EntryIsWritten(pollfds: seq<PollFd>, idx: nat, fd: int, events: Events)
    requires fd >= 0
    ensures Added(pollfds, fd, events) == pollfds + [PollFd(fd, events, 0)]
    ensures idx < |pollfds| ==>
              var later := Rewritten(pollfds, idx, fd, events);
              && |later| == |pollfds| && (forall i :: 0 <= i < |pollfds| && i != idx ==> later[i] == pollfds[i])
              && later[idx] == PollFd(if events == 0 then -fd - 1 else fd, events, 0)
    ensures Disabled(fd) == -fd - 1 < 0 && Descriptor(-fd - 1) == fd == Descriptor(fd)
  {
  }

  lemma AddKeepsAgreement(pollfds: seq<PollFd>, indices: map<int, int>, registry: map<int, Registration>,
                          fd: nat, events: Events)
    requires Agree(pollfds, indices, registry) && fd !in indices
    ensures Agree(Added(pollfds, fd, events), indices[fd := |pollfds|], registry[fd := Registration(events, false)])
  {
    var p, n, r := Added(pollfds, fd, events), indices[fd := |pollfds|], registry[fd := Registration(events, false)];
    forall other | other in n
      ensures IndexAgrees(p, n, r, other)
    {
      assert other != fd ==> IndexAgrees(pollfds, indices, registry, other);
    }
    forall i | 0 <= i < |p|
      ensures PlaceAgrees(p, n, i)
    {
      assert i < |pollfds| ==> PlaceAgrees(pollfds, indices, i);
    }
  }

  lemma UpdateKeepsAgreement(pollfds: seq<PollFd>, indices: map<int, int>, registry: map<int, Registration>,
                             fd: int, events: Events)
    requires Agree(pollfds, indices, registry) && fd in indices
    ensures 0 <= indices[fd] < |pollfds|
    ensures Agree(Rewritten(pollfds, indices[fd], fd, events), indices,
                  registry[fd := Registration(events, events == NONE_EVENT)])
  {
    EntryAt(pollfds, indices, registry, fd);
    var p, r := Rewritten(pollfds, indices[fd], fd, events), registry[fd := Registration(events, events == NONE_EVENT)];
    forall other | other in indices
      ensures IndexAgrees(p, indices, r, other)
    {
      IndicesAreDistinct(pollfds, indices, registry, fd, other);
      assert IndexAgrees(pollfds, indices, registry, other);
    }
    forall i | 0 <= i < |p|
      ensures PlaceAgrees(p, indices, i)
    {
      assert PlaceAgrees(pollfds, indices, i) && IndexAgrees(pollfds, indices, registry, fd);
    }
  }

  /** The vector without entry idx, the last entry moved into its place. */
  function Removed(pollfds: seq<PollFd>, idx: nat): seq<PollFd>
    requires idx < |pollfds|
  {
    pollfds[idx := pollfds[|pollfds| - 1]][..|pollfds| - 1]
  }

  /** The indices without those of fd, the index of the last entry's descriptor repaired. */
  ghost function Repaired(pollfds: seq<PollFd>, indices: map<int, int>, fd: int): map<int, int>
    requires pollfds != [] && fd in indices
  {
    if indices[fd] == |pollfds| - 1 then indices - {fd}
    else (indices - {fd})[Descriptor(pollfds[|pollfds| - 1].fd) := indices[fd]]
  }

  lemma LastEntry(pollfds: seq<PollFd>, indices: map<int, int>, registry: map<int, Registration>, fd: int)
    requires Agree(pollfds, indices, registry) && fd in indices && pollfds != []
    ensures 0 <= indices[fd] < |pollfds|
    ensures var moved := Descriptor(pollfds[|pollfds| - 1].fd);
            moved in indices && indices[moved] == |pollfds| - 1 && (moved == fd <==> indices[fd] == |pollfds| - 1)
  {
    assert PlaceAgrees(pollfds, indices, |pollfds| - 1);
    IndicesAreDistinct(pollfds, indices, registry, fd, Descriptor(pollfds[|pollfds| - 1].fd));
    EntryAt(pollfds, indices, registry, fd);
  }

  /** Swapping an entry with the last one, repairing the index of the moved descriptor, and dropping the last entry. */
  lemma RemoveKeepsAgreement(pollfds: seq<PollFd>, indices: map<int, int>, registry: map<int, Registration>, fd: int)
    requires pollfds != [] && Agree(pollfds, indices, registry) && fd in indices
    ensures 0 <= indices[fd] < |pollfds|
    ensures Agree(Removed(pollfds, indices[fd]), Repaired(pollfds, indices, fd), registry - {fd})
  {
    LastEntry(pollfds, indices, registry, fd);
    var p, n, r := Removed(pollfds, indices[fd]), Repaired(pollfds, indices, fd), registry - {fd};
    var last := |pollfds| - 1;
    var moved := Descriptor(pollfds[last].fd);
    assert n.Keys == indices.Keys - {fd};
    forall other | other in n
      ensures IndexAgrees(p, n, r, other)
    {
      IndicesAreDistinct(pollfds, indices, registry, fd, other);
      IndicesAreDistinct(pollfds, indices, registry, moved, other);
      assert IndexAgrees(pollfds, indices, registry, other);
    }
    forall i | 0 <= i < |p|
      ensures PlaceAgrees(p, n, i)
    {
      assert PlaceAgrees(pollfds, indices, i) && PlaceAgrees(pollfds, indices, last);
      IndicesAreDistinct(pollfds, indices, registry, fd, Descriptor(pollfds[i].fd));
    }
  }

  /** std::swap of an entry with the last one; popping then leaves the vector without the entry. */
  function Swapped(pollfds: seq<PollFd>, idx: nat): (r: seq<PollFd>)
    requires idx < |pollfds|
    ensures |r| == |pollfds| && r[idx] == pollfds[|pollfds| - 1] && r[|pollfds| - 1] == pollfds[idx]
    ensures r[..|pollfds| - 1] == Removed(pollfds, idx)
  {
    pollfds[idx := pollfds[|pollfds| - 1]][|pollfds| - 1 := pollfds[idx]]
  }

  // ---------- Entries that poll() reports ready ----------

  /** The descriptors of the entries with events, in the order of the vector. */
  function Ready(pollfds: seq<PollFd>): seq<int> {
    if pollfds == [] then []
    else
      var last := |pollfds| - 1;
      Ready(pollfds[..last]) + if pollfds[last].revents > 0 then [pollfds[last].fd] else []
  }

  function Prefix(fds: seq<int>, n: nat): seq<int> {
    if n < |fds| then fds[..n] else fds
  }

  lemma {:induction false} ReadyOfPrefix(pollfds: seq<PollFd>, i: nat)
    requires i <= |pollfds|
    ensures Ready(pollfds[..i]) <= Ready(pollfds)
  {
    if i == |pollfds| {
      assert pollfds[..i] == pollfds;
    } else {
      ReadyOfPrefix(pollfds[..|pollfds| - 1], i);
      assert pollfds[..|pollfds| - 1][..i] == pollfds[..i];
    }
  }

  lemma ReadyStep(pollfds: seq<PollFd>, i: nat)
    requires i < |pollfds|
    ensures Ready(pollfds[..i + 1]) == Ready(pollfds[..i]) + if pollfds[i].revents > 0 then [pollfds[i].fd] else []
  {
    assert pollfds[..i + 1][..i] == pollfds[..i];
  }

  /** A walk that stops at the end, or when n ready entries were found, has found the first n. */
  lemma ReadyUpTo(pollfds: seq<PollFd>, i: nat, n: nat)
    requires i <= |pollfds| && |Ready(pollfds[..i])| <= n && (i == |pollfds| || |Ready(pollfds[..i])| == n)
    ensures Ready(pollfds[..i]) == Prefix(Ready(pollfds), n)
  {
    ReadyOfPrefix(pollfds, i);
    assert pollfds[..|pollfds|] == pollfds;
  }

  function WithRevents(pollfds: seq<PollFd>, revents: seq<int>): (r: seq<PollFd>)
    requires |revents| == |pollfds|
    ensures |r| == |pollfds| && forall i :: 0 <= i < |r| ==> r[i] == pollfds[i].(revents := revents[i])
  {
    if pollfds == [] then []
    else
      var last := |pollfds| - 1;
      WithRevents(pollfds[..last], revents[..last]) + [pollfds[last].(revents := revents[last])]
  }

  function CountPositive(revents: seq<int>): nat {
    if revents == [] then 0
    else CountPositive(revents[..|revents| - 1]) + if revents[|revents| - 1] > 0 then 1 else 0
  }

  /**
    What POSIX promises of poll(): a negative descriptor is ignored and gets no events,
    and a return value that is no error counts the entries with events.
  */
  predicate PollContract(pollfds: seq<PollFd>, revents: seq<int>, numEvents: int) {
    && |revents| == |pollfds|
    && (forall i :: 0 <= i < |pollfds| ==> revents[i] >= 0 && (pollfds[i].fd < 0 ==> revents[i] == 0))
    && (numEvents >= 0 ==> numEvents == CountPositive(revents))
  }

  lemma {:induction false} ReadyIsCounted(pollfds: seq<PollFd>, revents: seq<int>)
    requires |revents| == |pollfds|
    ensures |Ready(WithRevents(pollfds, revents))| == CountPositive(revents)
  {
    if pollfds != [] {
      var last := |pollfds| - 1;
      ReadyIsCounted(pollfds[..last], revents[..last]);
      assert WithRevents(pollfds, revents)[..last] == WithRevents(pollfds[..last], revents[..last]);
    }
  }

  lemma ReventsKeepAgreement(pollfds: seq<PollFd>, indices: map<int, int>, registry: map<int, Registration>,
                             revents: seq<int>)
    requires Agree(pollfds, indices, registry) && |revents| == |pollfds|
    ensures Agree(WithRevents(pollfds, revents), indices, registry)
  {
    var p := WithRevents(pollfds, revents);
    forall fd | fd in indices
      ensures IndexAgrees(p, indices, registry, fd)
    {
      assert IndexAgrees(pollfds, indices, registry, fd);
    }
    forall i | 0 <= i < |p|
      ensures PlaceAgrees(p, indices, i)
    {
      assert PlaceAgrees(pollfds, indices, i);
    }
  }

  /** The descriptor is registered, and its entry is among the first n and has events. */
  predicate HasEvents(pollfds: seq<PollFd>, indices: map<int, int>, fd: int, n: nat) {
    fd in indices && 0 <= indices[fd] < n <= |pollfds| && pollfds[indices[fd]].revents > 0
  }

  lemma {:induction false} OnlyReadyAreListed(pollfds: seq<PollFd>, indices: map<int, int>,
                                             registry: map<int, Registration>, n: nat, fd: int)
    requires Agree(pollfds, indices, registry) && n <= |pollfds| && fd in Ready(pollfds[..n])
    requires forall i :: 0 <= i < |pollfds| && pollfds[i].revents > 0 ==> pollfds[i].fd >= 0
    ensures HasEvents(pollfds, indices, fd, n)
  {
    if n > 0 {
      ReadyStep(pollfds, n - 1);
      if fd in Ready(pollfds[..n - 1]) {
        OnlyReadyAreListed(pollfds, indices, registry, n - 1, fd);
      } else {
        assert PlaceAgrees(pollfds, indices, n - 1);
      }
    }
  }

  lemma {:induction false} ReadyAreListed(pollfds: seq<PollFd>, n: nat, i: nat)
    requires i < n <= |pollfds| && pollfds[i].revents > 0
    ensures pollfds[i].fd in Ready(pollfds[..n])
  {
    ReadyStep(pollfds, n - 1);
    if i < n - 1 { ReadyAreListed(pollfds, n - 1, i); }
  }

  predicate AreInOrder(indices: map<int, int>, fd: int, later: int) {
    fd in indices && later in indices && indices[fd] < indices[later]
  }

  /** The list is in the order of the vector. */
  lemma {:induction false} ReadyIsInOrder(pollfds: seq<PollFd>, indices: map<int, int>,
                                          registry: map<int, Registration>, n: nat, j: nat, k: nat)
    requires Agree(pollfds, indices, registry) && n <= |pollfds| && j < k < |Ready(pollfds[..n])|
    requires forall i :: 0 <= i < |pollfds| && pollfds[i].revents > 0 ==> pollfds[i].fd >= 0
    ensures AreInOrder(indices, Ready(pollfds[..n])[j], Ready(pollfds[..n])[k])
  {
    ReadyStep(pollfds, n - 1);
    var before := Ready(pollfds[..n - 1]);
    if k < |before| {
      ReadyIsInOrder(pollfds, indices, registry, n - 1, j, k);
    } else {
      OnlyReadyAreListed(pollfds, indices, registry, n - 1, before[j]);
      assert PlaceAgrees(pollfds, indices, n - 1);
    }
  }

  /** The list has exactly the registered channels whose entries have events, each once, in the order of the vector. */
  lemma ReadyIsExact(pollfds: seq<PollFd>, indices: map<int, int>, registry: map<int, Registration>)
    requires Agree(pollfds, indices, registry)
    requires forall i :: 0 <= i < |pollfds| && pollfds[i].revents > 0 ==> pollfds[i].fd >= 0
    ensures forall fd {:trigger HasEvents(pollfds, indices, fd, |pollfds|)} ::
              fd in Ready(pollfds) ==> HasEvents(pollfds, indices, fd, |pollfds|)
    ensures forall i :: 0 <= i < |pollfds| && pollfds[i].revents > 0 ==> pollfds[i].fd in Ready(pollfds)
    ensures forall j, k :: 0 <= j < k < |Ready(pollfds)| ==> AreInOrder(indices, Ready(pollfds)[j], Ready(pollfds)[k])
  {
    var n := |pollfds|;
    assert pollfds[..n] == pollfds;
    hide Ready, Agree, HasEvents, AreInOrder;
    forall fd | fd in Ready(pollfds)
      ensures HasEvents(pollfds, indices, fd, n)
    {
      OnlyReadyAreListed(pollfds, indices, registry, n, fd);
    }
    forall i | 0 <= i < n && pollfds[i].revents > 0
      ensures pollfds[i].fd in Ready(pollfds)
    {
      ReadyAreListed(pollfds, n, i);
    }
    forall j, k | 0 <= j < k < |Ready(pollfds)|
      ensures AreInOrder(indices, Ready(pollfds)[j], Ready(pollfds)[k])
    {
      ReadyIsInOrder(pollfds, indices, registry, n, j, k);
    }
  }

  // ---------- The classes ----------

  class Channel {
    const loop: PollPoller
    const fd: nat
    var events: Events
    var revents: int
    var index: int
    var addedToLoop: bool

    constructor (loop: PollPoller, fd: nat)
      ensures this.loop == loop && this.fd == fd && index == -1 && events == NONE_EVENT && revents == 0 && !addedToLoop
    {
      this.loop := loop;
      this.fd := fd;
      events := NONE_EVENT;
      revents := 0;
      index := -1;
      addedToLoop := false;
    }

    predicate IsNoneEvent()
      reads this
    {
      events == NONE_EVENT
    }

    /** The channel and its entry, as the model of a channel's life has them. */
    ghost function AsLife(): Life
      reads this, loop
    {
      Life(events, index < 0,
           if fd in loop.channels && loop.channels[fd] == this && fd in loop.book.registry
           then Present(loop.book.registry[fd]) else Absent)
    }

    /** The channel was as before until op changed its events. */
    method Update(ghost before: Life, ghost op: Op)
      requires loop.Valid() && loop.CanUpdate(this)
      requires Updates(op) && AsLife() == before.(events := NewEvents(before.events, op))
      modifies this`index, this`addedToLoop, loop
      ensures loop.Valid() && addedToLoop
      ensures AsLife() == Step(before, op)
      ensures loop.channels == old(loop.channels)[fd := this] && loop.members == old(loop.members) + {this}
      ensures loop.book.registry == old(loop.book.registry)[fd := AsLife().entry.registration]
    {
      addedToLoop := true;
      loop.UpdateChannel(this);
    }

    method EnableReading()
      requires loop.Valid() && loop.CanUpdate(this)
      modifies this`events, this`index, this`addedToLoop, loop
      ensures loop.Valid() && AsLife() == Step(old(AsLife()), Op.EnableReading)
      ensures loop.channels == old(loop.channels)[fd := this] && loop.members == old(loop.members) + {this}
      ensures loop.book.registry == old(loop.book.registry)[fd := AsLife().entry.registration]
    {
      events := With(events, READ_EVENT);
      Update(old(AsLife()), Op.EnableReading);
    }

    method DisableReading()
      requires loop.Valid() && loop.CanUpdate(this)
      modifies this`events, this`index, this`addedToLoop, loop
      ensures loop.Valid() && AsLife() == Step(old(AsLife()), Op.DisableReading)
      ensures loop.channels == old(loop.channels)[fd := this] && loop.members == old(loop.members) + {this}
      ensures loop.book.registry == old(loop.book.registry)[fd := AsLife().entry.registration]
    {
      events := Without(events, READ_EVENT);
      Update(old(AsLife()), Op.DisableReading);
    }

    method EnableWriting()
      requires loop.Valid() && loop.CanUpdate(this)
      modifies this`events, this`index, this`addedToLoop, loop
      ensures loop.Valid() && AsLife() == Step(old(AsLife()), Op.EnableWriting)
      ensures loop.channels == old(loop.channels)[fd := this] && loop.members == old(loop.members) + {this}
      ensures loop.book.registry == old(loop.book.registry)[fd := AsLife().entry.registration]
    {
      events := With(events, WRITE_EVENT);
      Update(old(AsLife()), Op.EnableWriting);
    }

    method DisableWriting()
      requires loop.Valid() && loop.CanUpdate(this)
      modifies this`events, this`index, this`addedToLoop, loop
      ensures loop.Valid() && AsLife() == Step(old(AsLife()), Op.DisableWriting)
      ensures loop.channels == old(loop.channels)[fd := this] && loop.members == old(loop.members) + {this}
      ensures loop.book.registry == old(loop.book.registry)[fd := AsLife().entry.registration]
    {
      events := Without(events, WRITE_EVENT);
      Update(old(AsLife()), Op.DisableWriting);
    }

    /** As written in the source, this does not tell the poller. */
    method DisableAll()
      modifies this`events
      ensures AsLife() == Step(old(AsLife()), Op.DisableAll)
      ensures loop.Valid() == old(loop.Valid())
    {
      events := NONE_EVENT;
    }

    method Remove()
      requires loop.Valid() && Accepted(AsLife(), Op.Remove)
      modifies this`addedToLoop, loop, loop.members`index
      ensures loop.Valid() && !loop.Has(this) && !addedToLoop
      ensures AsLife() == Step(old(AsLife()), Op.Remove)
      ensures loop.channels == old(loop.channels) - {fd} && loop.members == old(loop.members) - {this}
      ensures loop.book.registry == old(loop.book.registry) - {fd}
      ensures forall other: Channel :: other in old(loop.members) ==>
                other.index == if other in old(loop.Heirs(this)) then old(index) else old(other.index)
    {
      assert IsNoneEvent();
      addedToLoop := false;
      loop.RemoveChannel(this);
    }
  }

  /**
    What the poller's proof keeps beside its structures: what each registered channel
    asked for when it last called UpdateChannel, its index, and the channel.
  */
  datatype Book = Book(registry: map<int, Registration>, indices: map<int, int>)

  class PollPoller {
    var channels: map<int, Channel>
    var pollfds: seq<PollFd>
    ghost var book: Book
    ghost var members: set<Channel>

    constructor ()
      ensures Valid() && channels == map[] && pollfds == [] && book.registry == map[] && members == {}
    {
      channels, pollfds, book, members := map[], [], Book(map[], map[]), {};
    }

    ghost predicate Valid()
      reads this, members`index
    {
      Held() && Agree(pollfds, book.indices, book.registry)
    }

    /** The map is keyed by the channels' own descriptors, and the channels hold their indices. */
    ghost predicate Held()
      reads `channels, `book, `members, members`index
    {
      && channels.Keys == book.indices.Keys
      && (forall fd {:trigger channels[fd]} :: fd in channels ==>
            channels[fd] in members && channels[fd].fd == fd && channels[fd].index == book.indices[fd])
      && (forall channel {:trigger channel in members} :: channel in members ==> Has(channel))
    }

    /** HasChannel. */
    predicate Has(channel: Channel)
      reads `channels
    {
      channel.fd in channels && channels[channel.fd] == channel
    }

    lemma MembersHaveIndices()
      requires Valid()
      ensures forall channel: Channel :: channel in members ==> 0 <= channel.index < |pollfds|
    {
      forall channel: Channel | channel in members
        ensures 0 <= channel.index < |pollfds|
      {
        EntryAt(pollfds, book.indices, book.registry, channel.fd);
      }
    }

    /** The assertions of UpdateChannel that depend on the caller. */
    predicate CanUpdate(channel: Channel)
      reads this, channel
    {
      if channel.index < 0 then channel.fd !in channels else Has(channel)
    }

    method UpdateChannel(channel: Channel)
      requires Valid() && CanUpdate(channel)
      modifies this, channel`index
      ensures Valid()
      ensures channels == old(channels)[channel.fd := channel] && members == old(members) + {channel}
      ensures book.registry == old(book.registry)[channel.fd :=
                Registration(channel.events, old(channel.index) >= 0 && channel.IsNoneEvent())]
      ensures old(channel.index) < 0 ==>
                pollfds == Added(old(pollfds), channel.fd, channel.events) && channel.index == |old(pollfds)|
      ensures old(channel.index) >= 0 ==>
                channel.index == old(channel.index) < |old(pollfds)|
                && pollfds == Rewritten(old(pollfds), channel.index, channel.fd, channel.events)
    {
      if channel.index < 0 {
        AddEntry(channel);
      } else {
        RewriteEntry(channel);
      }
    }

    /** The first update of a channel: it gets the next index. */
    method AddEntry(channel: Channel)
      requires Valid() && channel.index < 0 && channel.fd !in channels
      modifies this, channel`index
      ensures Valid() && channel.index == |old(pollfds)|
      ensures channels == old(channels)[channel.fd := channel] && members == old(members) + {channel}
      ensures book.registry == old(book.registry)[channel.fd := Registration(channel.events, false)]
      ensures pollfds == Added(old(pollfds), channel.fd, channel.events)
    {
      AddKeepsAgreement(pollfds, book.indices, book.registry, channel.fd, channel.events);
      hide Agree;
      var pfd := PollFd(channel.fd, channel.events, 0);
      pollfds := pollfds + [pfd];
      Enlist(channel, |pollfds| - 1);
    }

    /** The channel learns its index, and the map has it. */
    method Enlist(channel: Channel, idx: nat)
      requires Held() && channel.fd !in channels
      modifies this`channels, this`book, this`members, channel`index
      ensures Held() && channel.index == idx
      ensures channels == old(channels)[channel.fd := channel] && members == old(members) + {channel}
      ensures book == Book(old(book.registry)[channel.fd := Registration(channel.events, false)],
                           old(book.indices)[channel.fd := idx])
    {
      channel.index := idx;
      channels, members := channels[channel.fd := channel], members + {channel};
      book := Book(book.registry[channel.fd := Registration(channel.events, false)], book.indices[channel.fd := idx]);
    }

    /** A later update: the entry of the channel is written again, disabled if there are no events. */
    method RewriteEntry(channel: Channel)
      requires Valid() && channel.index >= 0 && Has(channel)
      modifies this`pollfds, this`book
      ensures Valid() && channel.index < |old(pollfds)|
      ensures book.registry == old(book.registry)[channel.fd := Registration(channel.events, channel.IsNoneEvent())]
      ensures pollfds == Rewritten(old(pollfds), channel.index, channel.fd, channel.events)
    {
      ghost var b, was := book, pollfds;
      var idx := channel.index;
      EntryAt(pollfds, b.indices, b.registry, channel.fd);
      assert 0 <= idx < |pollfds|;
      var pfd := pollfds[idx];
      assert pfd.fd == channel.fd || pfd.fd == Disabled(channel.fd);
      pfd := PollFd(channel.fd, channel.events, 0);
      if channel.IsNoneEvent() {
        pfd := pfd.(fd := Disabled(channel.fd));
      }
      pollfds := pollfds[idx := pfd];
      book := b.(registry := b.registry[channel.fd := Registration(channel.events, channel.IsNoneEvent())]);
      UpdateKeepsAgreement(was, b.indices, b.registry, channel.fd, channel.events);
    }

    /** The assertions of RemoveChannel that depend on the caller. */
    ghost predicate CanRemove(channel: Channel)
      reads this, channel
    {
      Has(channel) && channel.events == NONE_EVENT
      && channel.fd in book.registry && book.registry[channel.fd] == Registration(channel.events, true)
    }

    /** They are the assertions on the entry of the channel. */
    lemma CanRemoveByEntry(channel: Channel)
      requires Valid() && Has(channel)
      ensures 0 <= channel.index < |pollfds|
      ensures CanRemove(channel)
              <==> channel.IsNoneEvent() && pollfds[channel.index].fd == Disabled(channel.fd)
                   && pollfds[channel.index].events == channel.events
    {
      EntryAt(pollfds, book.indices, book.registry, channel.fd);
    }

    /** The member that has the last entry, if that is not the channel: its entry moves to the place of the channel. */
    ghost function Heirs(channel: Channel): set<Channel>
      reads this, channel, members`index
    {
      set other | other in members && other != channel && other.index == |pollfds| - 1
    }

    method RemoveChannel(channel: Channel)
      requires Valid() && CanRemove(channel)
      modifies this, members`index
      ensures Valid()
      ensures channels == old(channels) - {channel.fd} && members == old(members) - {channel}
      ensures book.registry == old(book.registry) - {channel.fd}
      ensures old(pollfds) != [] && 0 <= old(channel.index) < |old(pollfds)|
      ensures pollfds == Removed(old(pollfds), old(channel.index))
      ensures forall other: Channel :: other in old(members) ==>
                other.index == if other in old(Heirs(channel)) then old(channel.index) else old(other.index)
    {
      RemovalAgrees(channel);
      HeirIsLast(channel);
      hide Agree, CanRemove, Held, Heirs;
      ghost var heirs := Heirs(channel);
      var idx := channel.index;
      assert 0 <= idx < |pollfds|;
      assert pollfds[idx].fd == Disabled(channel.fd) && pollfds[idx].events == channel.events;
      TakeOut(channel, heirs);
    }

    /** The channel leaves the map and its entry the vector. */
    method TakeOut(channel: Channel, ghost heirs: set<Channel>)
      requires Held() && Has(channel) && 0 <= channel.index < |pollfds| && channel.fd in book.indices
      requires channel.index == book.indices[channel.fd]
      requires var moved := Descriptor(pollfds[|pollfds| - 1].fd);
               moved in channels && (moved == channel.fd <==> channel.index == |pollfds| - 1)
               && heirs == if channel.index == |pollfds| - 1 then {} else {channels[moved]}
      modifies this, members`index
      ensures Held() && channels == old(channels) - {channel.fd} && members == old(members) - {channel}
      ensures pollfds == Removed(old(pollfds), old(channel.index))
      ensures book == Book(old(book.registry) - {channel.fd}, Repaired(old(pollfds), old(book.indices), channel.fd))
      ensures forall other: Channel :: other in old(members) ==>
                other.index == if other in heirs then old(channel.index) else old(other.index)
    {
      hide Held;
      var idx := channel.index;
      Erase(channel);
      DropEntry(idx, heirs);
    }

    lemma HeirIsLast(channel: Channel)
      requires Valid() && Has(channel) && pollfds != []
      ensures var moved := Descriptor(pollfds[|pollfds| - 1].fd);
              moved in channels && Heirs(channel) == if channel.index == |pollfds| - 1 then {} else {channels[moved]}
    {
      LastEntry(pollfds, book.indices, book.registry, channel.fd);
      var moved := Descriptor(pollfds[|pollfds| - 1].fd);
      hide Agree;
      forall other | other in members
        ensures other.index == |pollfds| - 1 <==> other == channels[moved]
      {
        IndicesAreDistinct(pollfds, book.indices, book.registry, other.fd, moved);
      }
    }

    /** The assertions on the entry hold, and the three structures will agree without it. */
    lemma RemovalAgrees(channel: Channel)
      requires Valid() && CanRemove(channel)
      ensures Held() && channel.fd in book.indices && channel.index == book.indices[channel.fd]
      ensures 0 <= channel.index < |pollfds|
      ensures pollfds[channel.index].fd == Disabled(channel.fd) && pollfds[channel.index].events == channel.events
      ensures var moved := Descriptor(pollfds[|pollfds| - 1].fd);
              moved in channels && (moved == channel.fd <==> channel.index == |pollfds| - 1)
      ensures Agree(Removed(pollfds, channel.index), Repaired(pollfds, book.indices, channel.fd),
                    book.registry - {channel.fd})
    {
      EntryAt(pollfds, book.indices, book.registry, channel.fd);
      LastEntry(pollfds, book.indices, book.registry, channel.fd);
      RemoveKeepsAgreement(pollfds, book.indices, book.registry, channel.fd);
    }

    /** The entry goes; if it is not the last one, that moves to its place and its channel learns the index. */
    method DropEntry(idx: nat, ghost heirs: set<Channel>)
      requires Held() && idx < |pollfds|
      requires idx < |pollfds| - 1 ==> Descriptor(pollfds[|pollfds| - 1].fd) in channels
      requires heirs == if idx == |pollfds| - 1 then {} else {channels[Descriptor(pollfds[|pollfds| - 1].fd)]}
      modifies this`pollfds, this`book, members`index
      ensures Held() && pollfds == Removed(old(pollfds), idx)
      ensures forall other: Channel :: other in members ==>
                other.index == if other in heirs then idx else old(other.index)
      ensures book == if idx == |old(pollfds)| - 1 then old(book)
                      else old(book).(indices := old(book).indices[Descriptor(old(pollfds[|pollfds| - 1].fd)) := idx])
    {
      var last := |pollfds| - 1;
      if idx == last {
        pollfds := pollfds[..last];
      } else {
        pollfds := Swapped(pollfds, idx);
        var fd := pollfds[idx].fd;
        if fd < 0 {
          fd := Disabled(fd);
        }
        SetIndex(fd, idx);
        pollfds := pollfds[..last];
      }
    }

    method Erase(channel: Channel)
      requires Held() && Has(channel)
      modifies this`channels, this`book, this`members
      ensures Held() && channel !in members
      ensures channels == old(channels) - {channel.fd} && members == old(members) - {channel}
      ensures book == Book(old(book.registry) - {channel.fd}, old(book.indices) - {channel.fd})
    {
      book, members := Book(book.registry - {channel.fd}, book.indices - {channel.fd}), members - {channel};
      channels := channels - {channel.fd};
    }

    method SetIndex(fd: int, idx: int)
      requires Held() && fd in channels
      modifies this`book, members`index
      ensures Held() && channels[fd].index == idx
      ensures forall other: Channel :: other in members && other != channels[fd] ==> other.index == old(other.index)
      ensures book == old(book).(indices := old(book).indices[fd := idx])
    {
      assert forall other :: other in channels && other != fd ==> channels[other] != channels[fd];
      channels[fd].index := idx;
      book := book.(indices := book.indices[fd := idx]);
    }

    /** What was found in the first entries: the channels of the descriptors, with the revents of their entries. */
    ghost predicate Found(fds: seq<int>, found: seq<Channel>)
      requires Held() && |book.indices| == |pollfds|
      reads this, members, found
    {
      && |found| == |fds|
      && (forall k {:trigger found[k]} :: 0 <= k < |fds| ==>
            fds[k] in channels && found[k] == channels[fds[k]]
            && 0 <= found[k].index < |pollfds| && found[k].revents == pollfds[found[k].index].revents)
    }

    /** poll() reports no events for a disabled entry. */
    ghost predicate NoneDisabledReady()
      reads `pollfds
    {
      forall i :: 0 <= i < |pollfds| && pollfds[i].revents > 0 ==> pollfds[i].fd >= 0
    }

    /** The listed channels are those registered whose entries have events, each once, in the order of the vector. */
    ghost predicate ListsReady(listed: seq<Channel>)
      requires Held()
      reads this, members
    {
      && (forall k {:trigger listed[k]} :: 0 <= k < |listed| ==> Has(listed[k]) && HasEntryWithEvents(listed[k].fd))
      && (forall fd {:trigger HasEntryWithEvents(fd)} :: HasEntryWithEvents(fd) ==> channels[fd] in listed)
      && (forall j, k :: 0 <= j < k < |listed| ==> listed[j].index < listed[k].index)
    }

    ghost predicate HasEntryWithEvents(fd: int)
      requires Held()
      reads this, members
    {
      fd in channels && 0 <= channels[fd].index < |pollfds| && pollfds[channels[fd].index].revents > 0
    }

    lemma ReadyLists(listed: seq<Channel>)
      requires Valid() && NoneDisabledReady() && Found(Ready(pollfds), listed)
      ensures ListsReady(listed)
    {
      var fds := Ready(pollfds);
      ReadyIsExact(pollfds, book.indices, book.registry);
      forall k | 0 <= k < |listed|
        ensures Has(listed[k]) && HasEntryWithEvents(listed[k].fd)
      {
        assert fds[k] in fds && HasEvents(pollfds, book.indices, fds[k], |pollfds|);
      }
      forall fd | HasEntryWithEvents(fd)
        ensures channels[fd] in listed
      {
        EntryAt(pollfds, book.indices, book.registry, fd);
        assert pollfds[book.indices[fd]].fd == fd;
        var k :| 0 <= k < |fds| && fds[k] == fd;
        assert listed[k] == channels[fd];
      }
      forall j, k | 0 <= j < k < |listed|
        ensures listed[j].index < listed[k].index
      {
        assert AreInOrder(book.indices, fds[j], fds[k]);
        assert listed[j] == channels[fds[j]] && listed[k] == channels[fds[k]];
      }
    }

    /** Look up the channel of a ready entry and store the events in it. */
    method Activate(i: nat, ghost fds: seq<int>, ghost found: seq<Channel>) returns (channel: Channel)
      requires Valid() && i < |pollfds| && pollfds[i].fd >= 0 && Found(fds, found)
      modifies members`revents
      ensures channel in members && Found(fds + [pollfds[i].fd], found + [channel])
      ensures forall other :: other in members && other != channel ==> other.revents == old(other.revents)
    {
      assert PlaceAgrees(pollfds, book.indices, i);
      assert pollfds[i].fd in channels;
      channel := channels[pollfds[i].fd];
      assert channel.index == i;
      forall k | 0 <= k < |fds|
        ensures fds[k] in channels && found[k] == channels[fds[k]]
      {
        var other := found[k];
        assert other in found;
      }
      channel.revents := pollfds[i].revents;
    }

    method FillActiveChannels(numEvents: nat, activeChannels: seq<Channel>) returns (filled: seq<Channel>)
      requires Valid() && NoneDisabledReady()
      modifies members`revents
      ensures Valid() && activeChannels <= filled
      ensures Found(Prefix(Ready(pollfds), numEvents), filled[|activeChannels|..])
      ensures forall channel :: channel in members && channel !in filled[|activeChannels|..] ==>
                channel.revents == old(channel.revents)
    {
      var left := numEvents;
      ghost var fds: seq<int>, found: seq<Channel> := [], [];
      filled := activeChannels;
      var i := 0;
      while i < |pollfds| && left > 0
        invariant 0 <= i <= |pollfds|
        invariant fds == Ready(pollfds[..i]) && left == numEvents - |fds|
        invariant filled == activeChannels + found && Found(fds, found)
        invariant forall channel :: channel in members && channel !in found ==> channel.revents == old(channel.revents)
      {
        ReadyStep(pollfds, i);
        if pollfds[i].revents > 0 {
          left := left - 1;
          var channel := Activate(i, fds, found);
          fds, filled, found := fds + [pollfds[i].fd], filled + [channel], found + [channel];
        }
        i := i + 1;
      }
      ReadyUpTo(pollfds, i, numEvents);
      assert filled[|activeChannels|..] == found;
    }

    /** Poll, given what the system call poll() stores and returns. */
    method Poll(revents: seq<int>, numEvents: int, activeChannels: seq<Channel>) returns (filled: seq<Channel>)
      requires Valid() && PollContract(pollfds, revents, numEvents)
      modifies this`pollfds, members`revents
      ensures Valid() && pollfds == WithRevents(old(pollfds), revents) && NoneDisabledReady()
      ensures activeChannels <= filled
      ensures Found(if numEvents > 0 then Ready(pollfds) else [], filled[|activeChannels|..])
      ensures if numEvents >= 0 then ListsReady(filled[|activeChannels|..]) else filled == activeChannels
      ensures forall channel :: channel in members && channel !in filled[|activeChannels|..] ==>
                channel.revents == old(channel.revents)
    {
      ReventsKeepAgreement(pollfds, book.indices, book.registry, revents);
      ReadyIsCounted(pollfds, revents);
      pollfds := WithRevents(pollfds, revents);
      filled := activeChannels;
      if numEvents > 0 {
        filled := FillActiveChannels(numEvents, activeChannels);
      }
      if numEvents >= 0 { ReadyLists(filled[|activeChannels|..]); }
    }
  }
}
