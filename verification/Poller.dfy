/** The classes `Channel` and `EPollPoller`, proved against `Registration`.

    A channel reaches its poller through its loop; the loop's two forwarding methods are
    folded into the channel's. */
module EventPoller {
  import opened Registration

  class Channel {
    const fd: int
    const poller: EPollPoller
    var events: Mask
    var revents: Mask
    var index: Index
    var tied: bool

    constructor (poller: EPollPoller, fd: int)
      ensures this.poller == poller && this.fd == fd
      ensures View() == Chan(fd, KNew, NONE_EVENT) && revents == NONE_EVENT && !tied
    {
      this.poller := poller;
      this.fd := fd;
      events := NONE_EVENT;
      revents := NONE_EVENT;
      index := KNew;
      tied := false;
    }

    ghost function View(): Chan
      reads this
    {
      Chan(fd, index, events)
    }

    /** The channel is one of its poller's, and no other channel sits on its descriptor. */
    ghost predicate Ready()
      reads this, poller, poller.watched
    {
      poller.Valid() && this in poller.watched && Free(poller.View(), this, fd)
    }

    predicate IsNoneEvent()
      reads this
      ensures IsNoneEvent() <==> forall f :: f !in events
    {
      events == NONE_EVENT
    }

    predicate IsWriting()
      reads this
      ensures IsWriting() <==> Out in events
    {
      var both := events * WRITE_EVENT;
      assert Out in events <==> Out in both;
      events * WRITE_EVENT != NONE_EVENT
    }

    method Tie()
      modifies this`tied
      ensures tied
    {
      tied := true;
    }

    method EnableReading()
      requires Ready()
      modifies this`events, this`index, poller`channels, poller`kernel
      ensures Updated(old(View()), old(poller.View()), old(events) + READ_EVENT)
      ensures In in events && Pri in events && (Out in events <==> Out in old(events))
    {
      ChangeEvents(events + READ_EVENT);
    }

    method DisableReading()
      requires Ready()
      modifies this`events, this`index, poller`channels, poller`kernel
      ensures Updated(old(View()), old(poller.View()), old(events) - READ_EVENT)
      ensures In !in events && Pri !in events && (Out in events <==> Out in old(events))
    {
      ChangeEvents(events - READ_EVENT);
    }

    method EnableWriting()
      requires Ready()
      modifies this`events, this`index, poller`channels, poller`kernel
      ensures Updated(old(View()), old(poller.View()), old(events) + WRITE_EVENT)
      ensures Out in events && events - {Out} == old(events) - {Out}
    {
      ChangeEvents(events + WRITE_EVENT);
    }

    method DisableWriting()
      requires Ready()
      modifies this`events, this`index, poller`channels, poller`kernel
      ensures Updated(old(View()), old(poller.View()), old(events) - WRITE_EVENT)
      ensures Out !in events && events == old(events) - {Out}
    {
      ChangeEvents(events - WRITE_EVENT);
    }

    method DisableAll()
      requires Ready()
      modifies this`events, this`index, poller`channels, poller`kernel
      ensures Updated(old(View()), old(poller.View()), NONE_EVENT) && IsNoneEvent()
    {
      ChangeEvents(NONE_EVENT);
    }

    /** Everything an interest change does: the poller and the index follow
        `UpdateChannel`, the `epoll_ctl` was legal and the poller is consistent again. */
    ghost predicate Updated(was: Chan, p: Poller<Channel>, mask: Mask)
      reads this, poller, poller.watched
    {
      && Outcome(poller.View(), index, true) == UpdateChannel(p, this, was.(events := mask))
      && events == mask && index != KNew
      && Ready()
    }

    /** The assignment to `events_` and the `update()` that follows it. */
    method ChangeEvents(mask: Mask)
      requires Ready()
      modifies this`events, this`index, poller`channels, poller`kernel
      ensures Updated(old(View()), old(poller.View()), mask)
    {
      ghost var table, p := poller.Table(), poller.View();
      events := mask;
      var ok := poller.UpdateChannel(this);
      UpdateKeeps(p, table, this, mask);
      assert poller.Table() == table[this := View()];
    }

    method Remove()
      requires Ready()
      modifies this`index, poller`channels, poller`kernel
      ensures Outcome(poller.View(), index, true) == RemoveChannel(old(poller.View()), old(View()))
      ensures index == KNew && fd !in poller.channels && fd !in poller.kernel
      ensures Ready()
    {
      ghost var table, p := poller.Table(), poller.View();
      var ok := poller.RemoveChannel(this);
      RemoveKeeps(p, table, this);
      assert poller.Table() == table[this := View()];
    }

    /** The callbacks run for the reported events, in order: none when the channel is tied
        and its owner is gone. */
    method HandleEvent(ownerAlive: bool) returns (calls: seq<Callback>)
      ensures calls == if tied && !ownerAlive then [] else Dispatch(revents)
      ensures !tied || ownerAlive ==> (WriteCallback in calls <==> Out in revents)
                                      && (ReadCallback in calls <==> In in revents || Pri in revents)
                                      && (ErrorCallback in calls <==> Err in revents)
                                      && (CloseCallback in calls <==> Hup in revents && In !in revents)
    {
      calls := [];
      DispatchMeaning(revents);
      if tied {
        if ownerAlive {
          calls := HandleEventWithGuard();
        }
      } else {
        calls := HandleEventWithGuard();
      }
    }

    method HandleEventWithGuard() returns (calls: seq<Callback>)
      ensures calls == Dispatch(revents)
      ensures WriteCallback in calls <==> Out in revents
      ensures ReadCallback in calls <==> In in revents || Pri in revents
      ensures ErrorCallback in calls <==> Err in revents
      ensures CloseCallback in calls <==> Hup in revents && In !in revents
    {
      calls := [];
      if Hup in revents && In !in revents {
        calls := calls + [CloseCallback];
      }
      if Err in revents {
        calls := calls + [ErrorCallback];
      }
      ghost var both := revents * READ_EVENT;
      assert In in revents ==> In in both;
      assert Pri in revents ==> Pri in both;
      if revents * READ_EVENT != NONE_EVENT {
        calls := calls + [ReadCallback];
      }
      if Out in revents {
        calls := calls + [WriteCallback];
      }
      assert calls == Dispatch(revents);
      DispatchMeaning(revents);
    }
  }

  class EPollPoller {
    var channels: map<int, Channel>
    var kernel: map<int, Mask>
    /** Every channel made for this poller's loop. */
    ghost var watched: set<Channel>

    ghost function View(): Poller<Channel>
      reads this
    {
      Poller(channels, kernel)
    }

    ghost function Table(): map<Channel, Chan>
      reads this, watched
    {
      map c | c in watched :: c.View()
    }

    ghost predicate Valid()
      reads this, watched
    {
      && Consistent(View(), Table())
      && forall c :: c in watched ==> c.poller == this
    }

    constructor ()
      ensures Valid() && watched == {} && channels == map[] && kernel == map[]
    {
      channels := map[];
      kernel := map[];
      watched := {};
    }

    /** A new channel joins unregistered, whatever its descriptor. */
    ghost method Watch(c: Channel)
      requires Valid() && c !in watched && c.poller == this && c.index == KNew
      modifies this`watched
      ensures Valid() && watched == old(watched) + {c}
    {
      watched := watched + {c};
      forall d | d in watched ensures IndexOk(View(), d, Table()[d]) {
        if d != c {
          assert IndexOk(View(), d, old(Table())[d]);
        }
      }
    }

    method EpollControl(op: Ctl, c: Channel) returns (ok: bool)
      modifies this`kernel
      ensures (kernel, ok) == EpollCtl(old(kernel), op, c.fd, c.events)
      ensures ok <==> (op.CtlAdd? <==> c.fd !in old(kernel))
      ensures !ok ==> kernel == old(kernel)
      ensures forall fd :: fd != c.fd ==> (fd in kernel <==> fd in old(kernel))
      ensures forall fd :: fd != c.fd && fd in kernel ==> kernel[fd] == old(kernel)[fd]
    {
      var (k, r) := EpollCtl(kernel, op, c.fd, c.events);
      kernel, ok := k, r;
    }

    method UpdateChannel(c: Channel) returns (ok: bool)
      modifies this`channels, this`kernel, c`index
      ensures Outcome(View(), c.index, ok) == Registration.UpdateChannel(old(View()), c, old(c.View()))
    {
      var index := c.index;
      if index == KNew || index == KDeleted {
        if index == KNew {
          channels := channels[c.fd := c];
        }
        c.index := KAdded;
        ok := EpollControl(CtlAdd, c);
      } else {
        if c.IsNoneEvent() {
          ok := EpollControl(CtlDel, c);
          c.index := KDeleted;
        } else {
          ok := EpollControl(CtlMod, c);
        }
      }
    }

    method RemoveChannel(c: Channel) returns (ok: bool)
      modifies this`channels, this`kernel, c`index
      ensures Outcome(View(), c.index, ok) == Registration.RemoveChannel(old(View()), old(c.View()))
    {
      ok := true;
      channels := channels - {c.fd};
      if c.index == KAdded {
        ok := EpollControl(CtlDel, c);
      }
      c.index := KNew;
    }

    predicate HasChannel(c: Channel)
      reads this, c
    {
      c.fd in channels && channels[c.fd] == c
    }

    /** Every reported channel becomes active, in the kernel's order, and carries the events
        reported for it (the last report, were there several). */
    method FillActiveChannels(reports: seq<(Channel, Mask)>) returns (active: seq<Channel>)
      modifies (set k | 0 <= k < |reports| :: reports[k].0)`revents
      ensures |active| == |reports|
      ensures forall k :: 0 <= k < |reports| ==> active[k] == reports[k].0
      ensures forall k :: 0 <= k < |reports| && LastReport(reports, |reports|, k) ==> reports[k].0.revents == reports[k].1
    {
      active := [];
      for i := 0 to |reports|
        invariant |active| == i
        invariant forall k :: 0 <= k < i ==> active[k] == reports[k].0
        invariant forall k :: 0 <= k < i && LastReport(reports, i, k) ==> reports[k].0.revents == reports[k].1
      {
        var c := reports[i].0;
        c.revents := reports[i].1;
        active := active + [c];
        assert forall k :: 0 <= k < i && LastReport(reports, i + 1, k) ==>
            LastReport(reports, i, k) && reports[i].0 != reports[k].0;
      }
    }

    /** Entry `k` is the last of the first `n` reports about its channel. */
    static ghost predicate LastReport(reports: seq<(Channel, Mask)>, n: nat, k: nat)
      requires k < n <= |reports|
    {
      forall j :: k < j < n ==> reports[j].0 != reports[k].0
    }
  }

  /** A channel made for the poller's loop can be used when no other is on its descriptor. */
  method NewChannel(poller: EPollPoller, fd: int) returns (c: Channel)
    requires poller.Valid() && fd !in poller.channels
    modifies poller`watched
    ensures fresh(c) && c.poller == poller && c.View() == Chan(fd, KNew, NONE_EVENT) && c.Ready()
    ensures poller.watched == old(poller.watched) + {c}
  {
    c := new Channel(poller, fd);
    poller.Watch(c);
  }
}
