/** What holds in the runs in which every registered channel keeps an owner. */
module ReactorSafety {
  import opened Registration
  import opened ByteBuffer
  import opened Reactor
  import opened ReactorInvariant
  import opened ReactorMoves
  import opened ReactorSteps
  import opened ReactorRemovals
  import opened ReactorOwnership
  import opened ReactorRuns
  import C = Connection

  /** No step of the run registers a removed channel again by a late send. */
  ghost predicate TimelyRun(s: System, acts: seq<Action>)
    requires ValidRun(s, acts)
    decreases |acts|
  {
    acts == [] ||
    (&& TimelyRun(s, acts[..|acts| - 1])
     && Timely(End(s, acts[..|acts| - 1]), acts[|acts| - 1]))
  }

  lemma {:induction false} ReachableOwned(s: System, acts: seq<Action>)
    requires Initial(s) && ValidRun(s, acts) && TimelyRun(s, acts)
    ensures Owned(End(s, acts))
    decreases |acts|
  {
    if acts == [] {
      InitialOwned(s);
    } else {
      ReachableOwned(s, acts[..|acts| - 1]);
      StepOwned(End(s, acts[..|acts| - 1]), acts[|acts| - 1]);
    }
  }

  // Ownership.

  /** The entry of loop `l`'s poller under `fd` belongs to a connection that is owned, sits on
      that loop and that descriptor, and shares the descriptor with no other live one. */
  ghost predicate EntryOwned(e: System, l: nat, fd: int)
    requires l < |e.pollers| && fd in e.pollers[l].channels
  {
    var c := e.pollers[l].channels[fd];
    && c in e.conns && Alive(e, c) && e.conns[c].fd == fd && e.conns[c].loop == l
    && forall d :: d in e.conns && d != c && Alive(e, d) ==> e.conns[d].fd != fd
  }

  /** Every channel found in any poller's map belongs to an owned connection, so a descriptor
      is closed only after its channel was removed. */
  lemma Ownership(s: System, acts: seq<Action>, l: nat, fd: int)
    requires Initial(s) && ValidRun(s, acts) && TimelyRun(s, acts)
    requires l < |End(s, acts).pollers| && fd in End(s, acts).pollers[l].channels
    ensures EntryOwned(End(s, acts), l, fd)
  {
    ReachableOwned(s, acts);
    MappedIsAlive(End(s, acts), l, fd);
  }

  lemma MappedIsAlive(e: System, l: nat, fd: int)
    requires Owned(e) && l < |e.pollers| && fd in e.pollers[l].channels
    ensures EntryOwned(e, l, fd)
  {
    var p, t, c := e.pollers[l], Table(e.conns, l), e.pollers[l].channels[fd];
    assert Consistent(p, t);
    assert c in t && t[c].fd == fd;
    assert IndexOk(p, c, t[c]);
    RegisteredIsAlive(e, c);
  }

  /** Removing a channel never takes away another channel's entry, although the map is keyed
      by descriptor and erased by descriptor. */
  lemma RemovalIsExact(s: System, acts: seq<Action>, l: nat, read: ReadAnswer, wr: WriteResult, fd: int, d: ConnId)
    requires Initial(s) && ValidRun(s, acts) && TimelyRun(s, acts)
    requires Detaches(End(s, acts), l, read, wr, fd, d)
    ensures StaysMapped(DoRunOp(End(s, acts), l, read, wr), l, fd, d)
  {
    var e := End(s, acts);
    ReachableOwned(s, acts);
    assert LoopOk(e.conns, l, e.loops[l]);
    assert HoldsOn(e.loops[l], e.loops[l].frame.c);
    DetachDone(e, l, read, wr);
    DetachIsExact(e, DoRunOp(e, l, read, wr), e.loops[l].frame.c, fd, d);
  }

  /** Loop `l` is about to remove the channel of a connection, and the entry under `fd` is
      another one's. */
  ghost predicate Detaches(e: System, l: nat, read: ReadAnswer, wr: WriteResult, fd: int, d: ConnId) {
    && Enabled(e, RunOp(l, read, wr)) && e.loops[l].frame.ops[0] == DoDetach
    && StaysMapped(e, l, fd, d) && d != e.loops[l].frame.c
  }

  ghost predicate StaysMapped(e: System, l: nat, fd: int, d: ConnId) {
    l < |e.pollers| && e.pollers[l].Maps(fd, d)
  }

  lemma DetachIsExact(e: System, e': System, c: ConnId, fd: int, d: ConnId)
    requires Owned(e) && OneDone(e, e', c, C.Detach) && Alive(e, c)
    requires StaysMapped(e, e.conns[c].loop, fd, d) && d != c
    ensures StaysMapped(e', e.conns[c].loop, fd, d)
  {
    LiveIsFree(e, c);
    OthersStayMapped(e.pollers[e.conns[c].loop], c, e.conns[c], fd, d);
  }

  lemma OthersStayMapped(p: Poller<ConnId>, c: ConnId, k: C.Conn, fd: int, d: ConnId)
    requires Free(p, c, k.fd) && p.Maps(fd, d) && d != c
    ensures C.PollerAfter(p, c, k, C.Apply(k, C.Detach)).Maps(fd, d)
  {}

  /** Every channel the loop is about to handle is still alive: the pointers of one poll stay
      valid throughout its dispatch phase. */
  lemma ActiveChannelsAlive(s: System, acts: seq<Action>, l: nat, k: nat)
    requires Initial(s) && ValidRun(s, acts) && TimelyRun(s, acts)
    requires l < |End(s, acts).loops| && k < |End(s, acts).loops[l].active|
    ensures var e := End(s, acts); Alive(e, e.loops[l].active[k].c)
  {
    var e := End(s, acts);
    ReachableOwned(s, acts);
    assert LoopOk(e.conns, l, e.loops[l]);
    RegisteredIsAlive(e, e.loops[l].active[k].c);
  }

  // Registration and output.

  /** The index of the channel agrees with its loop's poller and with the kernel. While the
      connection is up, or half-closing with its channel not yet removed, it is polled, and the
      kernel's mask asks for writability exactly when output is pending. */
  ghost predicate Unstuck(e: System, c: ConnId)
    requires c in e.conns
  {
    var k := e.conns[c];
    && k.loop < |e.pollers|
    && IndexOk(e.pollers[k.loop], c, k.View())
    && (k.state == C.kConnected || (k.state == C.kDisconnecting && k.index != KNew) ==>
          && k.index == KAdded
          && k.fd in e.pollers[k.loop].kernel
          && In in e.pollers[k.loop].kernel[k.fd] && Pri in e.pollers[k.loop].kernel[k.fd]
          && (Out in e.pollers[k.loop].kernel[k.fd] <==> k.out != []))
    && (k.index == KAdded ==> k.state == C.kConnected || k.state == C.kDisconnecting)
  }

  lemma NothingStuck(s: System, acts: seq<Action>, c: ConnId)
    requires Initial(s) && ValidRun(s, acts) && TimelyRun(s, acts) && c in End(s, acts).conns
    ensures Unstuck(End(s, acts), c)
  {
    var e := End(s, acts);
    ReachableOwned(s, acts);
    var k := e.conns[c];
    assert ConnOk(e, c);
    assert Consistent(e.pollers[k.loop], Table(e.conns, k.loop));
    assert IndexOk(e.pollers[k.loop], c, Table(e.conns, k.loop)[c]);
  }

  /** The step operates on `c`, a connection it establishes at once included. */
  ghost predicate Operates(e: System, a: Action, c: ConnId)
    requires Enabled(e, a)
  {
    (c in e.conns && OpsOn(e, a, c) != []) || (a.Accept? && c == e.nextId && |e.loops| == 1)
  }

  /** The `epoll_ctl` a step issues for `c` succeeds: the one of its first operation, if it
      issues one; a second operation is a `shutdownInLoop`, which issues none. */
  ghost predicate CtlOk(e: System, a: Action, c: ConnId)
    requires Enabled(e, a) && Operates(e, a, c)
  {
    if c in e.conns && OpsOn(e, a, c) != [] then
      && Located(e, c)
      && var k, op := e.conns[c], OpsOn(e, a, c)[0];
         && C.Possible(k, op)
         && CtlLegal(e.pollers[k.loop], c, k, C.Apply(k, op))
         && (|OpsOn(e, a, c)| == 1 || OpsOn(e, a, c) == [op, C.ShutdownRun])
    else
      && |e.pollers| > 0
      && var k := NewConn(a.fd, 0, a.mark, a.wc, a.hw);
         CtlLegal(e.pollers[0], c, k, C.Apply(k, C.Establish))
  }

  lemma FirstCtlLegal(e: System, a: Action, c: ConnId)
    requires Owned(e) && Enabled(e, a) && Operates(e, a, c)
    ensures CtlOk(e, a, c)
  {
    if c in e.conns && OpsOn(e, a, c) != [] {
      OpsInOrder(e, a, c);
      LiveIsFree(e, c);
      AtMostTwo(e, a, c);
      ConnDoReg(e, c, OpsOn(e, a, c)[0]);
    } else {
      DirectReg(e, a);
    }
  }

  /** Every `epoll_ctl` any run issues succeeds: none adds a descriptor the kernel has, changes
      or deletes one it has not. */
  lemma EpollCtlLegal(s: System, acts: seq<Action>, a: Action, c: ConnId)
    requires Initial(s) && ValidRun(s, acts) && TimelyRun(s, acts)
    requires Enabled(End(s, acts), a) && Operates(End(s, acts), a, c)
    ensures CtlOk(End(s, acts), a, c)
  {
    ReachableOwned(s, acts);
    FirstCtlLegal(End(s, acts), a, c);
  }

  /** All loops are between two handlers and nothing is queued. */
  ghost predicate AtRest(s: System) {
    forall l :: 0 <= l < |s.loops| ==>
      s.loops[l].frame.NoFrame? && s.loops[l].pos == |s.loops[l].batch| && s.loops[l].pending == []
  }

  /** At rest the server's map holds exactly the connections whose channel is registered:
      nothing leaks into either side. Those are up or half-closing, and polled. */
  lemma RegistryIsExact(s: System, acts: seq<Action>, c: ConnId)
    requires Initial(s) && ValidRun(s, acts) && TimelyRun(s, acts) && AtRest(End(s, acts))
    requires c in End(s, acts).conns
    ensures var e := End(s, acts);
            && (c in e.connections <==> e.conns[c].index != KNew)
            && (c in e.connections ==>
                  && e.conns[c].index == KAdded
                  && (e.conns[c].state == C.kConnected || e.conns[c].state == C.kDisconnecting))
  {
    var e := End(s, acts);
    ReachableOwned(s, acts);
    assert ConnOk(e, c) && Account(e, c);
    assert Rest(e.loops[0]) == [] && Rest(e.loops[e.conns[c].loop]) == [];
  }
}
