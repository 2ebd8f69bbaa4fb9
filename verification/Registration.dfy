/** Which channel is registered where: `Mymuduo/EPollPoller.cc` and the interest
    operations of `Mymuduo/Channel.h`, as functions on values.

    `T` names a channel. The kernel's interest set is a map from descriptors to masks;
    `epoll_ctl` answers EEXIST and ENOENT as POSIX systems do. */
module Registration {

  /** The bits of an epoll mask that this library looks at. */
  datatype Flag = In | Pri | Out | Err | Hup

  type Mask = set<Flag>

  const NONE_EVENT: Mask := {}
  const READ_EVENT: Mask := {In, Pri}
  const WRITE_EVENT: Mask := {Out}

  datatype Index = KNew | KAdded | KDeleted

  /** The registration fields of a channel. */
  datatype Chan = Chan(fd: int, index: Index, events: Mask)

  datatype Poller<T(==)> = Poller(channels: map<int, T>, kernel: map<int, Mask>) {
    predicate Maps(fd: int, t: T) {
      fd in channels && channels[fd] == t
    }
  }

  datatype Ctl = CtlAdd | CtlMod | CtlDel

  /** `epoll_ctl`: adding a present descriptor or touching an absent one fails. */
  function EpollCtl(kernel: map<int, Mask>, op: Ctl, fd: int, mask: Mask): (r: (map<int, Mask>, bool)) {
    match op
    case CtlAdd => if fd in kernel then (kernel, false) else (kernel[fd := mask], true)
    case CtlMod => if fd in kernel then (kernel[fd := mask], true) else (kernel, false)
    case CtlDel => if fd in kernel then (kernel - {fd}, true) else (kernel, false)
  }

  datatype Outcome<T(==)> = Outcome(poller: Poller<T>, index: Index, ok: bool)

  /** `index == KNew || KDeleted` in the source is read as
      `index == KNew || index == KDeleted`. */
  function UpdateChannel<T>(p: Poller<T>, t: T, ch: Chan): Outcome<T> {
    match ch.index
    case KNew =>
      var (kernel, ok) := EpollCtl(p.kernel, CtlAdd, ch.fd, ch.events);
      Outcome(Poller(p.channels[ch.fd := t], kernel), KAdded, ok)
    case KDeleted =>
      var (kernel, ok) := EpollCtl(p.kernel, CtlAdd, ch.fd, ch.events);
      Outcome(Poller(p.channels, kernel), KAdded, ok)
    case KAdded =>
      if ch.events == NONE_EVENT then
        var (kernel, ok) := EpollCtl(p.kernel, CtlDel, ch.fd, ch.events);
        Outcome(Poller(p.channels, kernel), KDeleted, ok)
      else
        var (kernel, ok) := EpollCtl(p.kernel, CtlMod, ch.fd, ch.events);
        Outcome(Poller(p.channels, kernel), KAdded, ok)
  }

  /** The entry is erased by descriptor, whoever it belongs to. */
  function RemoveChannel<T>(p: Poller<T>, ch: Chan): Outcome<T> {
    var channels := p.channels - {ch.fd};
    if ch.index == KAdded then
      var (kernel, ok) := EpollCtl(p.kernel, CtlDel, ch.fd, ch.events);
      Outcome(Poller(channels, kernel), KNew, ok)
    else
      Outcome(Poller(channels, p.kernel), KNew, true)
  }

  function HasChannel<T>(p: Poller<T>, t: T, fd: int): bool {
    fd in p.channels && p.channels[fd] == t
  }

  /** `index_` agrees with the channel map and with the kernel's interest set. */
  ghost predicate IndexOk<T>(p: Poller<T>, t: T, ch: Chan) {
    match ch.index
    case KNew => !p.Maps(ch.fd, t)
    case KAdded => p.Maps(ch.fd, t) && ch.fd in p.kernel && p.kernel[ch.fd] == ch.events
    case KDeleted => p.Maps(ch.fd, t) && ch.fd !in p.kernel && ch.events == NONE_EVENT
  }

  /** The registration invariant over any number of channels. */
  ghost predicate Consistent<T>(p: Poller<T>, table: map<T, Chan>) {
    && (forall t :: t in table ==> IndexOk(p, t, table[t]))
    && (forall fd :: fd in p.channels ==> p.channels[fd] in table && table[p.channels[fd]].fd == fd)
    && p.kernel.Keys <= p.channels.Keys
  }

  /** No other channel occupies this descriptor. */
  predicate Free<T(==)>(p: Poller<T>, t: T, fd: int) {
    fd in p.channels ==> p.channels[fd] == t
  }

  /** Updating or removing `t` leaves every other channel where it was. */
  ghost predicate OthersKept<T>(p: Poller<T>, q: Poller<T>, fd: int) {
    && (forall f :: f != fd ==> (f in p.channels <==> f in q.channels))
    && (forall f :: f != fd && f in p.channels ==> p.channels[f] == q.channels[f])
    && (forall f :: f != fd ==> (f in p.kernel <==> f in q.kernel))
    && (forall f :: f != fd && f in p.kernel ==> p.kernel[f] == q.kernel[f])
  }

  /** An interest change keeps the invariant and issues a legal `epoll_ctl`. */
  lemma UpdateKeeps<T>(p: Poller<T>, table: map<T, Chan>, t: T, events: Mask)
    requires Consistent(p, table) && t in table && Free(p, t, table[t].fd)
    ensures var ch := table[t].(events := events);
            var o := UpdateChannel(p, t, ch);
            && o.ok
            && Consistent(o.poller, table[t := ch.(index := o.index)])
            && OthersKept(p, o.poller, ch.fd)
            && o.index != KNew
  {
    var ch := table[t].(events := events);
    var o := UpdateChannel(p, t, ch);
    var after := table[t := ch.(index := o.index)];
    assert IndexOk(p, t, table[t]);
    assert OthersKept(p, o.poller, ch.fd);
    forall u | u in after ensures IndexOk(o.poller, u, after[u]) {
      if u != t {
        assert IndexOk(p, u, table[u]);
      }
    }
  }

  /** Removal keeps the invariant, is legal, and leaves no trace of the channel. */
  lemma RemoveKeeps<T>(p: Poller<T>, table: map<T, Chan>, t: T)
    requires Consistent(p, table) && t in table && Free(p, t, table[t].fd)
    ensures var ch := table[t];
            var o := RemoveChannel(p, ch);
            && o.ok
            && Consistent(o.poller, table[t := ch.(index := KNew)])
            && OthersKept(p, o.poller, ch.fd)
            && ch.fd !in o.poller.channels && ch.fd !in o.poller.kernel
  {
    var ch := table[t];
    var o := RemoveChannel(p, ch);
    var after := table[t := ch.(index := KNew)];
    assert IndexOk(p, t, table[t]);
    forall u | u in after ensures IndexOk(o.poller, u, after[u]) {
      if u != t {
        assert IndexOk(p, u, table[u]);
      }
    }
  }

  /** `hasChannel` is the same as having an index other than `KNew`. */
  lemma HasChannelIffIndexed<T>(p: Poller<T>, table: map<T, Chan>, t: T)
    requires Consistent(p, table) && t in table
    ensures HasChannel(p, t, table[t].fd) <==> table[t].index != KNew
  {
    assert IndexOk(p, t, table[t]);
  }

  ghost predicate DistinctFds<T>(table: map<T, Chan>) {
    forall t, u :: t in table && u in table && t != u ==> table[t].fd != table[u].fd
  }

  /** What each index means, in both directions, when descriptors are distinct. */
  lemma IndexMeaning<T>(p: Poller<T>, table: map<T, Chan>, t: T)
    requires Consistent(p, table) && DistinctFds(table) && t in table
    ensures var ch := table[t];
            && (ch.index == KNew <==> ch.fd !in p.channels && ch.fd !in p.kernel)
            && (ch.index == KAdded <==> ch.fd in p.channels && ch.fd in p.kernel)
            && (ch.index == KDeleted <==> ch.fd in p.channels && ch.fd !in p.kernel)
            && (ch.index == KAdded ==> p.kernel[ch.fd] == ch.events)
            && (ch.index == KDeleted ==> ch.events == NONE_EVENT)
  {
    assert IndexOk(p, t, table[t]);
  }

  /** Removal takes away another channel's entry exactly when that channel holds the
      descriptor: the map is keyed by descriptor alone. */
  lemma EraseHitsAnotherIff<T>(p: Poller<T>, t: T, ch: Chan)
    ensures (exists fd, u :: u != t && p.Maps(fd, u) && !RemoveChannel(p, ch).poller.Maps(fd, u))
            <==> !Free(p, t, ch.fd)
  {
    if !Free(p, t, ch.fd) {
      var u := p.channels[ch.fd];
      assert p.Maps(ch.fd, u) && !RemoveChannel(p, ch).poller.Maps(ch.fd, u);
    }
  }

  /** `disableAll` leaves the descriptor out of the kernel's set exactly when it was
      registered: on a channel already taken out it adds it again, with an empty mask. */
  lemma DisableAllUnregistersIff<T>(p: Poller<T>, table: map<T, Chan>, t: T)
    requires Consistent(p, table) && t in table && Free(p, t, table[t].fd)
    ensures var o := UpdateChannel(p, t, table[t].(events := NONE_EVENT));
            table[t].fd !in o.poller.kernel <==> table[t].index == KAdded
  {
    assert IndexOk(p, t, table[t]);
  }

  datatype ChannelOp<T> =
    | EnableReading(t: T)
    | DisableReading(t: T)
    | EnableWriting(t: T)
    | DisableWriting(t: T)
    | DisableAll(t: T)
    | Remove(t: T)

  function NewEvents<T>(op: ChannelOp<T>, events: Mask): Mask {
    match op
    case EnableReading(_) => events + READ_EVENT
    case DisableReading(_) => events - READ_EVENT
    case EnableWriting(_) => events + WRITE_EVENT
    case DisableWriting(_) => events - WRITE_EVENT
    case DisableAll(_) => NONE_EVENT
    case Remove(_) => events
  }

  lemma NewEventsMean<T>(op: ChannelOp<T>, events: Mask)
    ensures op.EnableReading? ==> NewEvents(op, events) == events + {In, Pri}
    ensures op.DisableReading? ==> NewEvents(op, events) == events - {In, Pri}
    ensures op.EnableWriting? ==> NewEvents(op, events) == events + {Out}
    ensures op.DisableWriting? ==> NewEvents(op, events) == events - {Out}
    ensures op.DisableAll? ==> NewEvents(op, events) == {}
  {}

  /** A poller with all the channels that were ever used with it. */
  datatype World<T(==)> = World(poller: Poller<T>, table: map<T, Chan>)

  /** One operation, and whether its `epoll_ctl` succeeded. */
  ghost function Apply<T>(w: World<T>, op: ChannelOp<T>): (World<T>, bool)
    requires op.t in w.table
  {
    var ch := w.table[op.t].(events := NewEvents(op, w.table[op.t].events));
    var o := if op.Remove? then RemoveChannel(w.poller, ch) else UpdateChannel(w.poller, op.t, ch);
    (World(o.poller, w.table[op.t := ch.(index := o.index)]), o.ok)
  }

  ghost predicate Run<T>(w: World<T>, ops: seq<ChannelOp<T>>, end: World<T>, failures: nat)
    decreases ops
  {
    if ops == [] then end == w && failures == 0
    else
      && ops[0].t in w.table
      && var (next, ok) := Apply(w, ops[0]);
         if ok then Run(next, ops[1..], end, failures)
         else failures > 0 && Run(next, ops[1..], end, failures - 1)
  }

  /** After any sequence of operations on any number of channels the registration is
      consistent and no `epoll_ctl` has failed. */
  lemma {:induction false} RunsAreLegal<T>(w: World<T>, ops: seq<ChannelOp<T>>, end: World<T>, failures: nat)
    requires Consistent(w.poller, w.table) && DistinctFds(w.table)
    requires Run(w, ops, end, failures)
    ensures failures == 0
    ensures Consistent(end.poller, end.table) && DistinctFds(end.table)
    decreases ops
  {
    if ops != [] {
      var t := ops[0].t;
      assert IndexOk(w.poller, t, w.table[t]);
      if ops[0].Remove? {
        RemoveKeeps(w.poller, w.table, t);
      } else {
        UpdateKeeps(w.poller, w.table, t, NewEvents(ops[0], w.table[t].events));
      }
      var (next, ok) := Apply(w, ops[0]);
      RunsAreLegal(next, ops[1..], end, failures);
    }
  }

  datatype Callback = CloseCallback | ErrorCallback | ReadCallback | WriteCallback

  /** `handleEventWithGuard`: which callbacks run, in order. `revents_ * EPOLLERR` in the
      source is read as `revents_ & EPOLLERR`. */
  function Dispatch(revents: Mask): seq<Callback> {
    (if Hup in revents && In !in revents then [CloseCallback] else [])
    + (if Err in revents then [ErrorCallback] else [])
    + (if In in revents || Pri in revents then [ReadCallback] else [])
    + (if Out in revents then [WriteCallback] else [])
  }

  /** The place of a callback in a dispatch. */
  function Turn(cb: Callback): nat {
    match cb
    case CloseCallback => 0
    case ErrorCallback => 1
    case ReadCallback => 2
    case WriteCallback => 3
  }

  /** What a dispatch does with each bit of any mask: the callbacks that run, each at most
      once, close before error before read before write. */
  lemma DispatchMeaning(revents: Mask)
    ensures WriteCallback in Dispatch(revents) <==> Out in revents
    ensures ReadCallback in Dispatch(revents) <==> In in revents || Pri in revents
    ensures ErrorCallback in Dispatch(revents) <==> Err in revents
    ensures CloseCallback in Dispatch(revents) <==> Hup in revents && In !in revents
    ensures forall i, j :: 0 <= i < j < |Dispatch(revents)| ==> Turn(Dispatch(revents)[i]) < Turn(Dispatch(revents)[j])
  {
    assert |Dispatch(revents)| <= 4;
  }

  /** What the interest operations mean bit by bit. */
  lemma InterestMeaning(events: Mask)
    ensures In in events + READ_EVENT && Pri in events + READ_EVENT && (Out in events + READ_EVENT <==> Out in events)
    ensures In !in events - READ_EVENT && Pri !in events - READ_EVENT && (Out in events - READ_EVENT <==> Out in events)
    ensures Out in events + WRITE_EVENT && (In in events + WRITE_EVENT <==> In in events)
            && (Pri in events + WRITE_EVENT <==> Pri in events)
    ensures Out !in events - WRITE_EVENT && (In in events - WRITE_EVENT <==> In in events)
            && (Pri in events - WRITE_EVENT <==> Pri in events)
    ensures forall f :: f !in NONE_EVENT
  {}

  /** Both callbacks that can close a connection run in one dispatch exactly when a hang-up
      arrives with priority data and nothing else to read. */
  lemma TwoClosersIff(revents: Mask)
    ensures CloseCallback in Dispatch(revents) && ReadCallback in Dispatch(revents)
            <==> Hup in revents && In !in revents && Pri in revents
  {}
}
