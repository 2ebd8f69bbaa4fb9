/** Ownership of registered channels, and what rests on it: agreement with the kernel, and
    descriptors no two live connections share. One kind of step can break it. */
module ReactorOwnership {
  import opened Registration
  import opened ByteBuffer
  import opened Reactor
  import opened ReactorInvariant
  import opened ReactorMoves
  import opened ReactorSteps
  import opened ReactorRemovals
  import C = Connection

  /** Who will take the channel out of the poller: the server's entry, a destruction under
      way, or, after a close, the removal on its way through the main loop. */
  ghost predicate Ticket(s: System, c: ConnId)
    requires Placed(s) && c in s.conns
  {
    Due(s, c) > 0 || Removing(s, c)
  }

  /** Every registered channel is going to be removed. */
  ghost predicate Secured(s: System) {
    Placed(s) && forall c :: c in s.conns && s.conns[c].index != KNew ==> Ticket(s, c)
  }

  ghost function Table(conns: Conns, l: nat): map<ConnId, Chan> {
    map c | c in conns && conns[c].loop == l :: conns[c].View()
  }

  ghost predicate RegOk(conns: Conns, pollers: seq<Poller<ConnId>>) {
    forall l :: 0 <= l < |pollers| ==> Consistent(pollers[l], Table(conns, l))
  }

  /** No two live connections share a descriptor. */
  ghost predicate FdsOk(s: System) {
    forall c, d :: c in s.conns && d in s.conns && c != d && Alive(s, c) && Alive(s, d) ==>
      s.conns[c].fd != s.conns[d].fd
  }

  ghost predicate Owned(s: System) {
    Inv(s) && Accounted(s) && Secured(s) && RegOk(s.conns, s.pollers) && FdsOk(s)
  }

  /** The one kind of step ownership needs an assumption about: a send queued earlier
      must not register its removed channel again. */
  ghost predicate Timely(s: System, a: Action) {
    a.RunTask? && a.l < |s.loops| && s.loops[a.l].pos < |s.loops[a.l].batch| ==>
      var f := s.loops[a.l].batch[s.loops[a.l].pos];
      f.SendTask? && f.c in s.conns ==> !C.ReRegisters(s.conns[f.c], f.data, a.wr)
  }

  // What a registered channel owes its poller.

  /** Ownership: a connection that has yet to be removed is owned. */
  lemma RegisteredIsAlive(s: System, c: ConnId)
    requires Placed(s) && c in s.conns && Ticket(s, c)
    ensures Alive(s, c)
  {
    var l := s.conns[c].loop;
    if c !in s.connections {
      if RemoveInLoop(c) in Rest(s.loops[0]) {
        RestHolds(s.loops[0], RemoveInLoop(c), c);
        assert HoldsOn(s.loops[0], c);
      } else {
        if Destroyed(c) in Rest(s.loops[l]) {
          RestHolds(s.loops[l], Destroyed(c), c);
        }
        assert HoldsOn(s.loops[l], c);
      }
    }
  }

  lemma RestHolds(lp: Loop, f: Task, c: ConnId)
    requires lp.pos <= |lp.batch| && f in Rest(lp) && Owns(f, c)
    ensures HoldsOn(lp, c)
  {
    if f in lp.batch[lp.pos..] {
      assert f in lp.batch;
    } else {
      assert f in lp.pending;
    }
  }

  /** A live connection's descriptor is not occupied by another channel of its poller. */
  lemma LiveIsFree(s: System, c: ConnId)
    requires Owned(s) && c in s.conns && Alive(s, c)
    ensures var k := s.conns[c]; Free(s.pollers[k.loop], c, k.fd)
  {
    var k := s.conns[c];
    var p, t := s.pollers[k.loop], Table(s.conns, k.loop);
    if k.fd in p.channels && p.channels[k.fd] != c {
      var d := p.channels[k.fd];
      assert Consistent(p, t);
      assert d in t && t[d].fd == k.fd;
      assert IndexOk(p, d, t[d]);
      RegisteredIsAlive(s, d);
    }
  }

  // The pollers.

  /** The `epoll_ctl` an operation leads to succeeds. */
  ghost predicate CtlLegal(p: Poller<ConnId>, c: ConnId, was: C.Conn, e: C.Effect) {
    match e.request
    case NoRequest => true
    case Update => UpdateChannel(p, c, Chan(was.fd, was.index, e.conn.events)).ok
    case Unregister => RemoveChannel(p, was.View()).ok
  }

  lemma ConnDoReg(s: System, c: ConnId, op: C.Op)
    requires Placed(s) && c in s.conns && C.Possible(s.conns[c], op) && RegOk(s.conns, s.pollers)
    requires Free(s.pollers[s.conns[c].loop], c, s.conns[c].fd)
    ensures var s' := ConnDo(s, c, op); RegOk(s'.conns, s'.pollers)
    ensures CtlLegal(s.pollers[s.conns[c].loop], c, s.conns[c], C.Apply(s.conns[c], op))
  {
    var k, e := s.conns[c], C.Apply(s.conns[c], op);
    C.RequestIsFaithful(k, op);
    RegAfter(s.conns, s.pollers, c, e);
  }

  /** The acting channel's poller after the operation. */
  lemma OwnPollerAfter(p: Poller<ConnId>, t: map<ConnId, Chan>, c: ConnId, k: C.Conn, e: C.Effect)
    requires Consistent(p, t) && c in t && t[c] == k.View() && Free(p, c, k.fd) && C.Faithful(k, e)
    ensures Consistent(C.PollerAfter(p, c, k, e), t[c := e.conn.View()]) && CtlLegal(p, c, k, e)
  {
    match e.request
    case NoRequest => assert t[c := e.conn.View()] == t;
    case Update =>
      UpdateKeeps(p, t, c, e.conn.events);
      C.NextIndexIsUpdate(p, c, k.View().(events := e.conn.events));
    case Unregister => RemoveKeeps(p, t, c);
  }

  lemma RegAfter(conns: Conns, pollers: seq<Poller<ConnId>>, c: ConnId, e: C.Effect)
    requires c in conns && conns[c].loop < |pollers| && RegOk(conns, pollers)
    requires Free(pollers[conns[c].loop], c, conns[c].fd)
    requires C.Faithful(conns[c], e)
    ensures var l := conns[c].loop;
            && RegOk(conns[c := e.conn], pollers[l := C.PollerAfter(pollers[l], c, conns[c], e)])
            && CtlLegal(pollers[l], c, conns[c], e)
  {
    var k, l := conns[c], conns[c].loop;
    var t, conns' := Table(conns, l), conns[c := e.conn];
    OwnPollerAfter(pollers[l], t, c, k, e);
    var q: Poller<ConnId> := C.PollerAfter(pollers[l], c, k, e);
    forall m | 0 <= m < |pollers| ensures Consistent(pollers[l := q][m], Table(conns', m)) {
      if m == l {
        assert Table(conns', l) == t[c := e.conn.View()];
      } else {
        assert Table(conns', m) == Table(conns, m);
      }
    }
  }

  /** An operation of an owned connection keeps the pollers in agreement. */
  lemma OpReg(s: System, s': System, c: ConnId, op: C.Op)
    requires Owned(s) && OneDone(s, s', c, op) && Alive(s, c)
    ensures RegOk(s'.conns, s'.pollers)
  {
    LiveIsFree(s, c);
    ConnDoReg(s, c, op);
  }

  lemma RunOpReg(s: System, l: nat, read: ReadAnswer, wr: WriteResult)
    requires Owned(s) && Enabled(s, RunOp(l, read, wr))
    ensures var s' := DoRunOp(s, l, read, wr); RegOk(s'.conns, s'.pollers)
  {
    var c, s' := s.loops[l].frame.c, DoRunOp(s, l, read, wr);
    assert HoldsOn(s.loops[l], c);
    var op := s.loops[l].frame.ops[0];
    if op == DoDetach {
      DetachDone(s, l, read, wr);
      OpReg(s, s', c, C.Detach);
    } else if op == Handle(CloseCallback) {
      CloseDone(s, l, read, wr);
      OpReg(s, s', c, C.Close);
    } else if op == Handle(WriteCallback) {
      WriteDone(s, l, read, wr);
      OpReg(s, s', c, C.WriteReady(wr));
    } else {
      NoneDone(s, l, read, wr);
    }
  }

  lemma RunTaskReg(s: System, l: nat, wr: WriteResult)
    requires Owned(s) && Enabled(s, RunTask(l, wr))
    ensures var s' := DoRunTask(s, l, wr); RegOk(s'.conns, s'.pollers)
  {
    var f, s' := s.loops[l].batch[s.loops[l].pos], DoRunTask(s, l, wr);
    if !f.UserTask? && OpsOn(s, RunTask(l, wr), f.c) != [] {
      FunctorInOrder(s, l, wr, f.c);
      OpReg(s, s', f.c, OpsOn(s, RunTask(l, wr), f.c)[0]);
    }
  }

  lemma UserReg(s: System, a: Action)
    requires Owned(s) && Enabled(s, a) && a.UserSend?
    ensures RegOk(Do(s, a).conns, Do(s, a).pollers)
  {
    if OpsOn(s, a, a.c) != [] {
      OpReg(s, Do(s, a), a.c, C.Send(a.data, a.wr));
    }
  }

  lemma DestroyServerReg(s: System, c: ConnId)
    requires Owned(s) && Enabled(s, DestroyServer(c))
    ensures var s' := Do(s, DestroyServer(c)); RegOk(s'.conns, s'.pollers)
  {
    if s.conns[c].loop == 0 {
      OpReg(s, Do(s, DestroyServer(c)), c, C.Destroy);
    }
  }

  /** Half-closing does not concern the pollers. */
  lemma ShutdownReg(s: System, a: Action)
    requires Owned(s) && Enabled(s, a) && a.UserShutdown?
    ensures RegOk(Do(s, a).conns, Do(s, a).pollers)
  {
    ShutdownViews(s, a);
    SameViews(s.conns, Do(s, a).conns, s.pollers);
  }

  lemma ShutdownViews(s: System, a: Action)
    requires Placed(s) && Enabled(s, a) && a.UserShutdown?
    ensures Do(s, a).conns.Keys == s.conns.Keys && Do(s, a).pollers == s.pollers
    ensures forall d :: d in s.conns ==>
              Do(s, a).conns[d].View() == s.conns[d].View() && Do(s, a).conns[d].loop == s.conns[d].loop
  {}

  lemma SameViews(conns: Conns, conns': Conns, pollers: seq<Poller<ConnId>>)
    requires RegOk(conns, pollers) && conns'.Keys == conns.Keys
    requires forall d :: d in conns ==> conns'[d].View() == conns[d].View() && conns'[d].loop == conns[d].loop
    ensures RegOk(conns', pollers)
  {
    forall m | 0 <= m < |pollers| ensures Consistent(pollers[m], Table(conns', m)) {
      assert Table(conns', m) == Table(conns, m);
    }
  }

  /** An unregistered channel joins a consistent poller. */
  lemma StrangerConsistent(p: Poller<ConnId>, t: map<ConnId, Chan>, c: ConnId, ch: Chan)
    requires Consistent(p, t) && c !in t && ch.index == KNew
    ensures Consistent(p, t[c := ch])
  {
    var joined := t[c := ch];
    forall u | u in joined ensures IndexOk(p, u, joined[u]) {
      if u != c {
        assert IndexOk(p, u, t[u]);
      }
    }
  }

  lemma NewRegOk(s: System, c: ConnId, k: C.Conn)
    requires Owned(s) && c == s.nextId && k.index == KNew && k.loop < |s.loops|
    ensures RegOk(s.conns[c := k], s.pollers)
  {
    assert forall d :: d in s.conns ==> d != c;
    JoinedTables(s.conns, s.pollers, c, k);
  }

  lemma JoinedTables(conns: Conns, pollers: seq<Poller<ConnId>>, c: ConnId, k: C.Conn)
    requires RegOk(conns, pollers) && c !in conns && k.index == KNew
    ensures RegOk(conns[c := k], pollers)
  {
    forall m | 0 <= m < |pollers| ensures Consistent(pollers[m], Table(conns[c := k], m)) {
      var t := Table(conns, m);
      if m == k.loop {
        assert Table(conns[c := k], m) == t[c := k.View()];
        StrangerConsistent(pollers[m], t, c, k.View());
      } else {
        assert Table(conns[c := k], m) == t;
      }
    }
  }

  lemma NewFdIsFree(s: System, c: ConnId, fd: int, l: nat)
    requires Owned(s) && c == s.nextId && l < |s.loops|
    requires forall d :: d in s.conns && Alive(s, d) ==> s.conns[d].fd != fd
    ensures Free(s.pollers[l], c, fd)
  {
    var p, t := s.pollers[l], Table(s.conns, l);
    if fd in p.channels {
      var d := p.channels[fd];
      assert Consistent(p, t);
      assert d in t && t[d].fd == fd && IndexOk(p, d, t[d]);
      RegisteredIsAlive(s, d);
    }
  }

  /** A connection established at once issues a legal `epoll_ctl`. */
  lemma DirectReg(s: System, a: Action)
    requires Owned(s) && a.Accept? && Enabled(s, a) && |s.loops| == 1
    ensures RegOk(Do(s, a).conns, Do(s, a).pollers)
    ensures var k := NewConn(a.fd, 0, a.mark, a.wc, a.hw);
            CtlLegal(s.pollers[0], s.nextId, k, C.Apply(k, C.Establish))
  {
    var s1, c := Unestablished(s, a), s.nextId;
    NewRegOk(s, c, s1.conns[c]);
    NewFdIsFree(s, c, a.fd, 0);
    ConnDoReg(s1, c, C.Establish);
    DirectShape(s, a);
  }

  lemma AcceptReg(s: System, a: Action)
    requires Owned(s) && a.Accept? && Enabled(s, a)
    ensures RegOk(Do(s, a).conns, Do(s, a).pollers)
  {
    PlaceFits(|s.loops| - 1, s.nextId);
    if |s.loops| == 1 {
      DirectReg(s, a);
    } else {
      NewRegOk(s, s.nextId, Do(s, a).conns[s.nextId]);
    }
  }

  lemma StepReg(s: System, a: Action)
    requires Owned(s) && Enabled(s, a)
    ensures RegOk(Do(s, a).conns, Do(s, a).pollers)
  {
    match a
    case Accept(_, _, _, _) => AcceptReg(s, a);
    case RunOp(l, read, wr) => RunOpReg(s, l, read, wr);
    case RunTask(l, wr) => RunTaskReg(s, l, wr);
    case UserSend(_, _, _, _) => UserReg(s, a);
    case UserShutdown(_, _) => ShutdownReg(s, a);
    case DestroyServer(c) => DestroyServerReg(s, c);
    case _ =>
  }

  // Ownership only arises from ownership.

  /** No loop gets a reference to `c` it did not have. */
  ghost predicate NoNewHold(s: System, s': System, c: ConnId) {
    && |s'.loops| == |s.loops|
    && forall l :: 0 <= l < |s.loops| && HoldsOn(s'.loops[l], c) ==> HoldsOn(s.loops[l], c)
  }

  /** Nothing in the move refers to `c` that its loop did not hold already. */
  ghost predicate HoldMove(s: System, mv: Move, c: ConnId)
    requires mv.l < |s.loops|
  {
    && (forall f :: f in mv.fs ==> !Owns(f, c))
    && (mv.fr.Frame? && mv.fr.c == c ==> HoldsOn(s.loops[mv.l], c))
  }

  lemma MoveHolds(s: System, s': System, mv: Move, c: ConnId)
    requires MovesBy(s, s', mv) && HoldMove(s, mv, c)
    ensures NoNewHold(s, s', c)
  {
    forall l | 0 <= l < |s.loops| && HoldsOn(s'.loops[l], c) ensures HoldsOn(s.loops[l], c) {
      assert Moves(s, s', mv, l);
    }
  }

  lemma PostsOwn(k: C.Conn, d: ConnId, op: C.Op, c: ConnId)
    requires C.Possible(k, op) && c != d
    ensures forall f :: f in Posts(k, d, op) ==> !Owns(f, c)
  {
    PostsAreNotices(k, d, op);
  }

  lemma HandlerHolds(s: System, l: nat, read: ReadAnswer, wr: WriteResult, c: ConnId)
    requires Enabled(s, RunOp(l, read, wr)) && !Alive(s, c)
    ensures HoldMove(s, HandlerMove(s, l, read, wr), c)
  {
    var d, op := s.loops[l].frame.c, s.loops[l].frame.ops[0];
    assert HoldsOn(s.loops[l], d);
    if op in {DoDetach, Handle(CloseCallback), Handle(WriteCallback)} {
      PostsOwn(s.conns[d], d, HandlerOp(op, wr), c);
    }
  }

  lemma HeadHolds(s: System, l: nat, wr: WriteResult, c: ConnId)
    requires Enabled(s, RunTask(l, wr)) && !Alive(s, c)
    ensures var f := s.loops[l].batch[s.loops[l].pos]; f.UserTask? || f.c != c
  {
    var f := s.loops[l].batch[s.loops[l].pos];
    if !f.UserTask? && !f.SendTask? && !f.ShutdownTask? {
      assert Owns(f, f.c);
      assert HoldsOn(s.loops[l], f.c);
    }
  }

  lemma FunctorHolds(s: System, l: nat, wr: WriteResult, c: ConnId)
    requires Enabled(s, RunTask(l, wr)) && !Alive(s, c)
    ensures HoldMove(s, FunctorMove(s, l, wr), c)
  {
    HeadHolds(s, l, wr, c);
    match s.loops[l].batch[s.loops[l].pos]
    case Established(d) => PostsOwn(s.conns[d], d, C.Establish, c);
    case Destroyed(d) => PostsOwn(s.conns[d], d, C.Destroy, c);
    case SendTask(d, data) => PostsOwn(s.conns[d], d, C.Send(data, wr), c);
    case ShutdownTask(d) => PostsOwn(s.conns[d], d, C.ShutdownRun, c);
    case _ =>
  }

  lemma UserHolds(s: System, a: Action, c: ConnId)
    requires Placed(s) && InflightOk(s) && Enabled(s, a) && !Alive(s, c)
    requires a.UserSend? || a.UserShutdown? || a.UserQueue? || a.Deliver? || a.Hold? || a.Drop?
    ensures MoveOf(s, a).l < |s.loops| && HoldMove(s, MoveOf(s, a), c)
  {
    if a.UserSend? {
      PostsOwn(s.conns[a.c], a.c, C.Send(a.data, a.wr), c);
    }
    if a.Deliver? {
      assert s.inflight[a.i] in s.inflight;
    }
  }

  lemma TurnHolds(s: System, a: Action, c: ConnId)
    requires Placed(s) && Enabled(s, a) && !Alive(s, c) && (a.Poll? || a.BeginEvent? || a.EndFrame? || a.Resume?)
    ensures MoveOf(s, a).l < |s.loops| && HoldMove(s, MoveOf(s, a), c)
  {}

  lemma MainHolds(s: System, a: Action, c: ConnId)
    requires Placed(s) && Enabled(s, a) && !Alive(s, c) && c != s.nextId && (a.Accept? || a.DestroyServer?)
    ensures MoveOf(s, a).l < |s.loops| && HoldMove(s, MoveOf(s, a), c)
  {
    if a.DestroyServer? {
      PostsOwn(s.conns[a.c], a.c, C.Destroy, c);
    }
  }

  lemma StepHolds(s: System, a: Action, c: ConnId)
    requires Inv(s) && Enabled(s, a) && !Alive(s, c) && c != s.nextId && !a.SwapPending? && !a.EndBatch?
    requires MovesBy(s, Do(s, a), MoveOf(s, a))
    ensures HoldMove(s, MoveOf(s, a), c)
  {
    if a.RunOp? {
      HandlerHolds(s, a.l, a.read, a.wr, c);
    } else if a.RunTask? {
      FunctorHolds(s, a.l, a.wr, c);
    } else if a.Accept? || a.DestroyServer? {
      MainHolds(s, a, c);
    } else if a.Poll? || a.BeginEvent? || a.EndFrame? || a.Resume? {
      TurnHolds(s, a, c);
    } else {
      UserHolds(s, a, c);
    }
  }

  lemma PhaseHolds(s: System, a: Action, c: ConnId)
    requires Placed(s) && Enabled(s, a) && (a.SwapPending? || a.EndBatch?)
    ensures NoNewHold(s, Do(s, a), c)
  {}

  lemma NothingRevived(s: System, a: Action, c: ConnId)
    requires Inv(s) && Enabled(s, a) && !Alive(s, c) && c != s.nextId
    ensures NoNewHold(s, Do(s, a), c)
  {
    if a.SwapPending? || a.EndBatch? {
      PhaseHolds(s, a, c);
    } else {
      StepMoves(s, a);
      StepHolds(s, a, c);
      MoveHolds(s, Do(s, a), MoveOf(s, a), c);
    }
  }

  lemma StepEntries(s: System, a: Action, c: ConnId)
    requires |s.loops| == |s.pollers| && Enabled(s, a) && !Alive(s, c) && !(a.Accept? && c == s.nextId)
    ensures c !in Do(s, a).connections && c !in Do(s, a).held
  {}

  /** Every new reference is copied from an existing one. */
  lemma DeadStaysDead(s: System, a: Action, c: ConnId)
    requires Inv(s) && Enabled(s, a) && c in s.conns && !Alive(s, c)
    ensures !Alive(Do(s, a), c)
  {
    var s' := Do(s, a);
    NothingRevived(s, a, c);
    StepEntries(s, a, c);
    forall l | 0 <= l < |s'.loops| ensures !HoldsOn(s'.loops[l], c) {
      assert !HoldsOn(s.loops[l], c);
    }
  }

  /** No step revives a connection. */
  lemma OwnersShrink(s: System, a: Action, c: ConnId)
    requires Inv(s) && Enabled(s, a) && c in s.conns && Alive(Do(s, a), c)
    ensures Alive(s, c)
  {
    if !Alive(s, c) {
      DeadStaysDead(s, a, c);
    }
  }

  /** No two live connections share a descriptor, whatever is accepted or closed. */
  lemma StepFds(s: System, a: Action)
    requires Inv(s) && FdsOk(s) && Enabled(s, a)
    ensures FdsOk(Do(s, a))
  {
    var s' := Do(s, a);
    forall c, d | c in s'.conns && d in s'.conns && c != d && Alive(s', c) && Alive(s', d)
      ensures s'.conns[c].fd != s'.conns[d].fd
    {
      LiveFd(s, a, c);
      LiveFd(s, a, d);
    }
  }

  lemma LiveFd(s: System, a: Action, c: ConnId)
    requires Inv(s) && Enabled(s, a) && c in Do(s, a).conns && Alive(Do(s, a), c)
    ensures c in s.conns ==> Alive(s, c) && Do(s, a).conns[c].fd == s.conns[c].fd
    ensures c !in s.conns ==> a.Accept? && c == s.nextId && Do(s, a).conns[c].fd == a.fd
  {
    if c in s.conns {
      OwnersShrink(s, a, c);
      PlaceKept(s, a, c);
    } else {
      OnlyAcceptAdds(s, a, c);
      NewFd(s, a);
    }
  }

  lemma NewFd(s: System, a: Action)
    requires Inv(s) && a.Accept? && Enabled(s, a) && s.nextId in Do(s, a).conns
    ensures Do(s, a).conns[s.nextId].fd == a.fd
  {
    if |s.loops| == 1 {
      DirectShape(s, a);
    }
  }

  // The removal of a registered channel stays due.

  /** A step that does not hand over keeps what is due for a connection that stays as it is,
      registered or not. */
  lemma CalmTicket(s: System, a: Action, c: ConnId)
    requires Inv(s) && Enabled(s, a) && Timely(s, a) && c in s.conns && !HandsOver(s, a, c)
    requires s.conns[c].index != KNew ==> Ticket(s, c)
    requires Placed(Do(s, a)) && forall op :: op in OpsOn(s, a, c) ==> C.IsTraffic(op)
    ensures c in Do(s, a).conns && (Do(s, a).conns[c].index != KNew ==> Ticket(Do(s, a), c))
  {
    DueKept(s, a, c);
    CalmIndex(s, a, c);
  }

  lemma CalmIndex(s: System, a: Action, c: ConnId)
    requires Inv(s) && Enabled(s, a) && Timely(s, a) && c in s.conns
    requires forall op :: op in OpsOn(s, a, c) ==> C.IsTraffic(op)
    ensures c in Do(s, a).conns && (s.conns[c].index == KNew ==> Do(s, a).conns[c].index == KNew)
  {
    StepPerforms(s, a, c);
    if OpsOn(s, a, c) != [] {
      assert ConnOk(s, c);
      OpsInOrder(s, a, c);
      WritesAttached(s, a, c);
      AtMostTwo(s, a, c);
      C.TrafficIsCalm(s.conns[c], OpsOn(s, a, c)[0]);
    }
  }

  lemma WritesAttached(s: System, a: Action, c: ConnId)
    requires Inv(s) && Enabled(s, a) && Timely(s, a) && c in s.conns && OpsOn(s, a, c) != []
    ensures OpsOn(s, a, c)[0].WriteReady? ==> C.Attached(s.conns[c])
    ensures var op := OpsOn(s, a, c)[0]; op.Send? ==> !C.ReRegisters(s.conns[c], op.data, op.wr)
  {
    if a.RunOp? {
      assert LoopOk(s.conns, a.l, s.loops[a.l]);
      assert s.loops[a.l].frame.ops[0] in s.loops[a.l].frame.ops;
    }
  }

  lemma HandOverTicket(s: System, a: Action, c: ConnId)
    requires Inv(s) && Enabled(s, a) && c in s.conns && HandsOver(s, a, c) && Account(s, c)
    requires Placed(Do(s, a))
    ensures c in Do(s, a).conns && (Do(s, a).conns[c].index != KNew ==> Ticket(Do(s, a), c))
  {
    match a
    case RunOp(l, read, wr) =>
      if s.loops[l].frame.ops[0] == PostRemove {
        CallbackAccount(s, l, read, wr);
      } else {
        DetachAccount(s, l, read, wr);
      }
    case RunTask(l, wr) => RemovedAccount(s, l, wr);
    case DestroyServer(_) => DestroyServerDue(s, c);
  }

  lemma CloseTicket(s: System, l: nat, read: ReadAnswer, wr: WriteResult)
    requires Inv(s) && Enabled(s, RunOp(l, read, wr)) && s.loops[l].frame.ops[0] == Handle(CloseCallback)
    requires Placed(DoRunOp(s, l, read, wr))
    ensures var s', c := DoRunOp(s, l, read, wr), s.loops[l].frame.c; c in s'.conns && Ticket(s', c)
  {
    var s', c := DoRunOp(s, l, read, wr), s.loops[l].frame.c;
    assert LoopOk(s.conns, l, s.loops[l]);
    CloseDone(s, l, read, wr);
    assert s'.loops[l].frame.ops[1] == PostRemove;
    assert Closing(s'.loops[l], c);
  }

  lemma FunctorTicket(s: System, l: nat, wr: WriteResult, c: ConnId)
    requires Inv(s) && Enabled(s, RunTask(l, wr)) && c in s.conns && Account(s, c)
    requires s.loops[l].batch[s.loops[l].pos] == Established(c) || s.loops[l].batch[s.loops[l].pos] == Destroyed(c)
    requires Placed(DoRunTask(s, l, wr))
    ensures c in DoRunTask(s, l, wr).conns && Ticket(DoRunTask(s, l, wr), c)
  {
    var f := s.loops[l].batch[s.loops[l].pos];
    DueKept(s, RunTask(l, wr), c);
    FunctorInOrder(s, l, wr, c);
    RestPopped(s.loops[l]);
    assert LoopOk(s.conns, l, s.loops[l]) && TaskOk(s.conns, l, f);
    assert multiset(Rest(s.loops[l]))[f] > 0;
  }

  lemma StepTicket(s: System, a: Action, c: ConnId)
    requires Inv(s) && Enabled(s, a) && Timely(s, a) && c in s.conns && Account(s, c)
    requires s.conns[c].index != KNew ==> Ticket(s, c)
    requires Placed(Do(s, a))
    ensures c in Do(s, a).conns && (Do(s, a).conns[c].index != KNew ==> Ticket(Do(s, a), c))
  {
    if HandsOver(s, a, c) {
      HandOverTicket(s, a, c);
    } else if Shuts(s, a, c) {
      CloseTicket(s, a.l, a.read, a.wr);
    } else if Starts(s, a, c) {
      FunctorTicket(s, a.l, a.wr, c);
    } else {
      ElseTraffic(s, a, c);
      CalmTicket(s, a, c);
    }
  }

  lemma StepSecured(s: System, a: Action)
    requires Inv(s) && Accounted(s) && Secured(s) && Enabled(s, a) && Timely(s, a)
    requires Inv(Do(s, a)) && Accounted(Do(s, a))
    ensures Secured(Do(s, a))
  {
    var s' := Do(s, a);
    forall c | c in s'.conns && s'.conns[c].index != KNew ensures Ticket(s', c) {
      if c in s.conns {
        StepTicket(s, a, c);
      } else {
        OnlyAcceptAdds(s, a, c);
        NewEntry(s, a);
      }
    }
  }

  /** Every timely step of any thread keeps ownership. */
  lemma StepOwned(s: System, a: Action)
    requires Owned(s) && Enabled(s, a) && Timely(s, a)
    ensures Owned(Do(s, a))
  {
    StepKeeps(s, a);
    StepAccounted(s, a);
    StepSecured(s, a);
    StepReg(s, a);
    StepFds(s, a);
  }

  lemma InitialOwned(s: System)
    requires Initial(s)
    ensures Owned(s)
  {
    InitialHolds(s);
    forall l | 0 <= l < |s.pollers| ensures Consistent(s.pollers[l], Table(s.conns, l)) {}
  }
}
