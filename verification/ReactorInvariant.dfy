/** The invariant of the whole machine that needs no assumption, and the lemmas that carry it
    over one step. Who owns a registered channel is the subject of `ReactorOwnership`. */
module ReactorInvariant {
  import opened Registration
  import opened ByteBuffer
  import opened Reactor
  import C = Connection

  type Conns = map<ConnId, C.Conn>

  /** The functors a loop has still to run. */
  function Rest(lp: Loop): seq<Task>
    requires lp.pos <= |lp.batch|
  {
    lp.batch[lp.pos..] + lp.pending
  }

  // One loop.

  predicate Known(conns: Conns, f: Task) {
    f.UserTask? || f.c in conns
  }

  ghost predicate LoopShape(conns: Conns, lp: Loop) {
    && lp.pos <= |lp.batch|
    && (!lp.phase.Calling? ==> lp.batch == [])
    && (!lp.phase.Dispatching? ==> lp.active == [])
    && (lp.frame.UserFrame? ==> lp.phase.Calling?)
    && (forall f :: f in lp.batch ==> Known(conns, f))
    && (forall f :: f in lp.pending ==> Known(conns, f))
  }

  /** The functor waits on the right loop, and its connection has got far enough for it. */
  ghost predicate TaskOk(conns: Conns, l: nat, f: Task) {
    f.UserTask? ||
    (&& f.c in conns
     && var k := conns[f.c];
        match f
        case Established(_) => k.loop == l && k.state == C.kConnecting
        case Destroyed(_) => k.loop == l
        case RemoveInLoop(_) => l == 0 && k.state == C.kDisconnected
        case Notify(_, _) => k.loop == l && k.state != C.kConnecting
        case SendTask(_, _) => k.loop == l && k.state != C.kConnecting
        case ShutdownTask(_) => k.loop == l && C.Rank(k.state) >= 2)
  }

  ghost predicate QueueOk(conns: Conns, l: nat, lp: Loop)
    requires lp.pos <= |lp.batch|
  {
    forall f :: f in Rest(lp) ==> TaskOk(conns, l, f)
  }

  /** `connectEstablished` comes before anything else queued for its connection. */
  ghost predicate OrderOk(q: seq<Task>) {
    q == [] ||
    (&& OrderOk(q[..|q| - 1])
     && var f := q[|q| - 1]; f.Established? ==> forall g :: g in q[..|q| - 1] ==> !About(g, f.c))
  }

  /** Every reported channel still to be handled is registered. */
  ghost predicate ActiveOk(conns: Conns, l: nat, active: seq<Ready>) {
    && (forall k :: 0 <= k < |active| ==>
          && active[k].c in conns
          && conns[active[k].c].loop == l && conns[active[k].c].index == KAdded
          && QuietHangup(active[k].revents))
    && (forall j, k :: 0 <= j < k < |active| ==> active[j].c != active[k].c)
  }

  predicate Closer(op: FrameOp) {
    op == Handle(CloseCallback) || op == Handle(ReadCallback)
  }

  ghost predicate OpsOk(k: C.Conn, phase: Phase, ops: seq<FrameOp>) {
    && (forall i :: 0 <= i < |ops| && Closer(ops[i]) ==> k.index == KAdded && phase.Dispatching?)
    && (forall i, j :: 0 <= i < j < |ops| ==> !(Closer(ops[i]) && Closer(ops[j])))
    && (PostRemove in ops ==> k.state == C.kDisconnected)
    && (DoDetach in ops ==> C.Rank(k.state) >= 2 && forall op :: op in ops ==> op == UserCallback || op == DoDetach)
    && (Handle(WriteCallback) in ops ==> C.Attached(k) && phase.Dispatching?)
  }

  /** A running handler is on its connection's loop, after `connectEstablished`; it closes
      the connection at most once, and only while the channel is registered. */
  ghost predicate FrameOk(conns: Conns, l: nat, lp: Loop) {
    lp.frame.Frame? ==>
      var c := lp.frame.c;
      && c in conns && conns[c].loop == l && conns[c].state != C.kConnecting
      && OpsOk(conns[c], lp.phase, lp.frame.ops)
      && forall k :: 0 <= k < |lp.active| ==> lp.active[k].c != c
  }

  ghost predicate LoopOk(conns: Conns, l: nat, lp: Loop) {
    && LoopShape(conns, lp)
    && QueueOk(conns, l, lp)
    && OrderOk(Rest(lp))
    && ActiveOk(conns, l, lp.active)
    && FrameOk(conns, l, lp)
  }

  ghost predicate Placed(s: System) {
    && |s.loops| == |s.pollers| > 0
    && (forall l :: 0 <= l < |s.loops| ==> s.loops[l].pos <= |s.loops[l].batch|)
    && (forall c :: c in s.conns ==> s.conns[c].loop < |s.loops| && c < s.nextId)
  }

  ghost predicate ConnOk(s: System, c: ConnId)
    requires Placed(s) && c in s.conns
  {
    var k := s.conns[c];
    && C.Coherent(k)
    && (k.state == C.kConnecting ==> k.loop != 0 && Established(c) in Rest(s.loops[k.loop]))
  }

  /** A poller's map leads to a connection on its loop and its descriptor, and what the kernel
      polls under it is registered. */
  ghost predicate MapsOk(conns: Conns, pollers: seq<Poller<ConnId>>) {
    forall l, fd :: 0 <= l < |pollers| && fd in pollers[l].channels ==> EntryOk(conns, pollers[l], l, fd)
  }

  ghost predicate EntryOk(conns: Conns, p: Poller<ConnId>, l: nat, fd: int)
    requires fd in p.channels
  {
    var c := p.channels[fd];
    && c in conns && conns[c].fd == fd && conns[c].loop == l
    && (fd in p.kernel ==> conns[c].index == KAdded)
  }

  ghost predicate InflightOk(s: System) {
    forall f :: f in s.inflight ==>
      && (f.SendTask? || f.ShutdownTask?)
      && f.c in s.conns && TaskOk(s.conns, s.conns[f.c].loop, f)
  }

  ghost predicate Inv(s: System) {
    && Placed(s)
    && s.connections <= s.conns.Keys && s.held <= s.conns.Keys
    && (forall l :: 0 <= l < |s.loops| ==> LoopOk(s.conns, l, s.loops[l]))
    && (forall c :: c in s.conns ==> ConnOk(s, c))
    && MapsOk(s.conns, s.pollers)
    && InflightOk(s)
  }

  // Connections the step does not concern.

  /** Nothing still to run for a connection other than `x` is lost. */
  ghost predicate KeepsBut(lp: Loop, lp': Loop, x: ConnId)
    requires lp.pos <= |lp.batch| && lp'.pos <= |lp'.batch|
  {
    forall f :: f in Rest(lp) && !About(f, x) ==> f in Rest(lp')
  }

  lemma OtherConnOk(s: System, s': System, x: ConnId, d: ConnId)
    requires Placed(s) && Placed(s') && |s'.loops| == |s.loops|
    requires d in s.conns && d in s'.conns && d != x && s'.conns[d] == s.conns[d]
    requires forall l :: 0 <= l < |s.loops| ==> KeepsBut(s.loops[l], s'.loops[l], x)
    requires ConnOk(s, d)
    ensures ConnOk(s', d)
  {
    assert KeepsBut(s.loops[s.conns[d].loop], s'.loops[s.conns[d].loop], x);
    assert !About(Established(d), x);
  }

  // Loops the step changes only by appending, or only through a connection.

  /** What the state of `c` may become without disturbing loop `l`. */
  ghost predicate Undisturbing(conns: Conns, l: nat, c: ConnId, k: C.Conn) {
    && c in conns
    && k.loop == conns[c].loop
    && C.Rank(conns[c].state) <= C.Rank(k.state)
    && (conns[c].loop == l ==> C.Gentle(conns[c], k))
  }

  lemma LoopGentle(conns: Conns, l: nat, lp: Loop, c: ConnId, k: C.Conn)
    requires LoopOk(conns, l, lp) && Undisturbing(conns, l, c, k)
    ensures LoopOk(conns[c := k], l, lp)
  {
    QueueGentle(conns, l, lp, c, k);
    FrameGentle(conns, l, lp, c, k);
    forall i | 0 <= i < |lp.active|
      ensures conns[c := k][lp.active[i].c].loop == l && conns[c := k][lp.active[i].c].index == KAdded
    {
      assert conns[lp.active[i].c].loop == l;
    }
  }

  lemma QueueGentle(conns: Conns, l: nat, lp: Loop, c: ConnId, k: C.Conn)
    requires lp.pos <= |lp.batch| && QueueOk(conns, l, lp) && Undisturbing(conns, l, c, k)
    ensures QueueOk(conns[c := k], l, lp)
  {
    forall f | f in Rest(lp) ensures TaskOk(conns[c := k], l, f) {
      assert TaskOk(conns, l, f);
    }
  }

  lemma FrameGentle(conns: Conns, l: nat, lp: Loop, c: ConnId, k: C.Conn)
    requires FrameOk(conns, l, lp) && Undisturbing(conns, l, c, k)
    ensures FrameOk(conns[c := k], l, lp)
  {}

  lemma LoopAppend(conns: Conns, l: nat, lp: Loop, fs: seq<Task>)
    requires LoopOk(conns, l, lp)
    requires forall f :: f in fs ==> TaskOk(conns, l, f) && !f.Established?
    ensures LoopOk(conns, l, lp.(pending := lp.pending + fs))
  {
    OrderAppend(Rest(lp), fs);
    LoopGrown(conns, l, lp, fs);
  }

  lemma LoopGrown(conns: Conns, l: nat, lp: Loop, fs: seq<Task>)
    requires LoopOk(conns, l, lp) && OrderOk(Rest(lp) + fs)
    requires forall f :: f in fs ==> TaskOk(conns, l, f)
    ensures LoopOk(conns, l, lp.(pending := lp.pending + fs))
    ensures Rest(lp.(pending := lp.pending + fs)) == Rest(lp) + fs
  {
    var lp' := lp.(pending := lp.pending + fs);
    RestGrown(lp, fs);
    QueueAppend(conns, l, lp, fs);
    ShapeAppend(conns, l, lp, fs);
    FrameAppend(conns, l, lp, fs);
  }

  lemma RestGrown(lp: Loop, fs: seq<Task>)
    requires lp.pos <= |lp.batch|
    ensures Rest(lp.(pending := lp.pending + fs)) == Rest(lp) + fs
  {}

  lemma QueueAppend(conns: Conns, l: nat, lp: Loop, fs: seq<Task>)
    requires lp.pos <= |lp.batch| && QueueOk(conns, l, lp) && forall f :: f in fs ==> TaskOk(conns, l, f)
    ensures QueueOk(conns, l, lp.(pending := lp.pending + fs))
  {
    RestGrown(lp, fs);
    forall f | f in Rest(lp) + fs ensures TaskOk(conns, l, f) {
      if f !in fs {
        assert f in Rest(lp);
      }
    }
  }

  lemma FrameAppend(conns: Conns, l: nat, lp: Loop, fs: seq<Task>)
    requires FrameOk(conns, l, lp)
    ensures FrameOk(conns, l, lp.(pending := lp.pending + fs))
  {}

  lemma OrderSnoc(q: seq<Task>, f: Task)
    requires OrderOk(q) && (f.Established? ==> forall g :: g in q ==> !About(g, f.c))
    ensures OrderOk(q + [f])
  {
    assert (q + [f])[..|q|] == q;
  }

  lemma {:induction false} OrderAppend(q: seq<Task>, fs: seq<Task>)
    requires OrderOk(q) && forall f :: f in fs ==> !f.Established?
    ensures OrderOk(q + fs)
    decreases |fs|
  {
    if fs == [] {
      assert q + fs == q;
    } else {
      var last := |fs| - 1;
      OrderAppend(q, fs[..last]);
      OrderSnoc(q + fs[..last], fs[last]);
      assert q + fs == q + fs[..last] + [fs[last]];
    }
  }

  lemma {:induction false} OrderTail(q: seq<Task>)
    requires OrderOk(q) && q != []
    ensures OrderOk(q[1..])
    decreases |q|
  {
    if |q| > 1 {
      var before := q[..|q| - 1];
      OrderTail(before);
      assert q[1..] == before[1..] + [q[|q| - 1]];
      assert forall g :: g in before[1..] ==> g in before;
      OrderSnoc(before[1..], q[|q| - 1]);
    }
  }

  lemma ShapeAppend(conns: Conns, l: nat, lp: Loop, fs: seq<Task>)
    requires LoopShape(conns, lp) && forall f :: f in fs ==> TaskOk(conns, l, f)
    ensures LoopShape(conns, lp.(pending := lp.pending + fs))
  {
    forall f | f in lp.pending + fs ensures Known(conns, f) {
      if f in fs {
        assert TaskOk(conns, l, f);
      }
    }
  }

  // An operation of one connection.

  /** What the poller does keeps its map in order, whoever sits on the descriptor. */
  lemma MapsAfter(conns: Conns, pollers: seq<Poller<ConnId>>, c: ConnId, e: C.Effect)
    requires c in conns && conns[c].loop < |pollers| && MapsOk(conns, pollers)
    requires C.Faithful(conns[c], e) && (e.request == C.Update ==> conns[c].index != KDeleted)
    ensures var l := conns[c].loop;
            MapsOk(conns[c := e.conn], pollers[l := C.PollerAfter(pollers[l], c, conns[c], e)])
  {
    var k, l := conns[c], conns[c].loop;
    var q: Poller<ConnId> := C.PollerAfter(pollers[l], c, k, e);
    EntriesAfter(conns, pollers[l], c, e);
    var conns', pollers' := conns[c := e.conn], pollers[l := q];
    forall m, fd | 0 <= m < |pollers'| && fd in pollers'[m].channels ensures EntryOk(conns', pollers'[m], m, fd) {
      if m != l {
        assert EntryOk(conns, pollers[m], m, fd);
      }
    }
  }

  lemma EntriesAfter(conns: Conns, p: Poller<ConnId>, c: ConnId, e: C.Effect)
    requires c in conns && C.Faithful(conns[c], e) && (e.request == C.Update ==> conns[c].index != KDeleted)
    requires forall fd :: fd in p.channels ==> EntryOk(conns, p, conns[c].loop, fd)
    ensures var q := C.PollerAfter(p, c, conns[c], e);
            forall fd :: fd in q.channels ==> EntryOk(conns[c := e.conn], q, conns[c].loop, fd)
  {
    var q: Poller<ConnId> := C.PollerAfter(p, c, conns[c], e);
    forall fd | fd in q.channels ensures EntryOk(conns[c := e.conn], q, conns[c].loop, fd) {
      if fd in p.channels {
        assert EntryOk(conns, p, conns[c].loop, fd);
      }
    }
  }

  lemma ConnDoMaps(s: System, c: ConnId, op: C.Op)
    requires Placed(s) && c in s.conns && C.Coherent(s.conns[c]) && C.Enabled(s.conns[c], op)
    requires MapsOk(s.conns, s.pollers)
    ensures var s' := ConnDo(s, c, op); MapsOk(s'.conns, s'.pollers)
  {
    var k, e := s.conns[c], C.Apply(s.conns[c], op);
    C.RequestIsFaithful(k, op);
    if e.request == C.Update {
      C.UpdateIsFresh(k, op);
    }
    MapsAfter(s.conns, s.pollers, c, e);
  }

  lemma TasksAreNotices(c: ConnId, posts: seq<C.Notice>)
    ensures forall f :: f in Tasks(c, posts) ==> f.Notify? && f.c == c
  {}

  lemma AppendKeeps(s: System, l: nat, fs: seq<Task>)
    requires Inv(s) && l < |s.loops|
    requires forall f :: f in fs ==> TaskOk(s.conns, l, f) && !f.Established?
    ensures Inv(Append(s, l, fs))
  {
    var s' := Append(s, l, fs);
    LoopAppend(s.conns, l, s.loops[l], fs);
    assert Rest(s'.loops[l]) == Rest(s.loops[l]) + fs;
    forall d | d in s'.conns ensures ConnOk(s', d) {
      OtherConnOk(s, s', d + 1, d);
    }
  }

  lemma InflightKept(s: System, s': System, c: ConnId)
    requires InflightOk(s) && s'.inflight == s.inflight && c in s.conns
    requires c in s'.conns && s'.conns == s.conns[c := s'.conns[c]]
    requires s'.conns[c].loop == s.conns[c].loop && C.Rank(s.conns[c].state) <= C.Rank(s'.conns[c].state)
    ensures InflightOk(s')
  {
    forall f | f in s'.inflight ensures f.c in s'.conns && TaskOk(s'.conns, s'.conns[f.c].loop, f) {
      assert TaskOk(s.conns, s.conns[f.c].loop, f);
    }
  }

  lemma GentleUpdate(s: System, c: ConnId, k: C.Conn, pollers: seq<Poller<ConnId>>)
    requires Inv(s) && c in s.conns && C.Gentle(s.conns[c], k) && C.Coherent(k)
    requires |pollers| == |s.pollers| && MapsOk(s.conns[c := k], pollers)
    ensures Inv(s.(conns := s.conns[c := k], pollers := pollers))
  {
    var s' := s.(conns := s.conns[c := k], pollers := pollers);
    assert ConnOk(s, c);
    forall l | 0 <= l < |s'.loops| ensures LoopOk(s'.conns, l, s'.loops[l]) {
      LoopGentle(s.conns, l, s.loops[l], c, k);
    }
    forall d | d in s'.conns ensures ConnOk(s', d) {
      assert ConnOk(s, d);
    }
    InflightKept(s, s', c);
  }

  /** Sending, draining and half-closing. */
  lemma TrafficKeeps(s: System, c: ConnId, op: C.Op)
    requires Inv(s) && c in s.conns && C.IsTraffic(op) && C.Enabled(s.conns[c], op)
    ensures Inv(ConnDo(s, c, op))
    ensures C.Gentle(s.conns[c], ConnDo(s, c, op).conns[c])
  {
    var k, e := s.conns[c], C.Apply(s.conns[c], op);
    assert ConnOk(s, c);
    C.TrafficIsGentle(k, op);
    C.OpKeeps(k, op);
    ConnDoMaps(s, c, op);
    if e.posts != [] {
      PostsInTime(k, op);
    }
    EffectKeeps(s, c, e);
  }

  /** An effect that is gentle, and queues callbacks only when it may. */
  lemma EffectKeeps(s: System, c: ConnId, e: C.Effect)
    requires Inv(s) && c in s.conns && C.Gentle(s.conns[c], e.conn) && C.Coherent(e.conn)
    requires e.posts != [] ==> e.conn.state != C.kConnecting
    requires var l := s.conns[c].loop;
             MapsOk(s.conns[c := e.conn], s.pollers[l := C.PollerAfter(s.pollers[l], c, s.conns[c], e)])
    ensures var l := s.conns[c].loop;
            var pollers := s.pollers[l := C.PollerAfter(s.pollers[l], c, s.conns[c], e)];
            Inv(Append(s.(conns := s.conns[c := e.conn], pollers := pollers), l, Tasks(c, e.posts)))
  {
    var l := s.conns[c].loop;
    var pollers := s.pollers[l := C.PollerAfter(s.pollers[l], c, s.conns[c], e)];
    GentleUpdate(s, c, e.conn, pollers);
    TasksAreNotices(c, e.posts);
    AppendKeeps(s.(conns := s.conns[c := e.conn], pollers := pollers), l, Tasks(c, e.posts));
  }

  lemma PostsInTime(k: C.Conn, op: C.Op)
    requires C.Coherent(k) && C.IsTraffic(op) && C.Enabled(k, op) && C.Apply(k, op).posts != []
    ensures C.Apply(k, op).conn.state != C.kConnecting
  {}

  // Control steps of one loop: the connections stay as they are.

  /** Replacing loop `l` by `lp`, which keeps everything still to run. */
  lemma LoopReplaced(s: System, l: nat, lp: Loop)
    requires Inv(s) && l < |s.loops| && LoopOk(s.conns, l, lp)
    requires forall d :: d in s.conns ==> KeepsBut(s.loops[l], lp, d + 1)
    ensures Inv(SetLoop(s, l, lp))
  {
    var s' := SetLoop(s, l, lp);
    forall d | d in s'.conns ensures ConnOk(s', d) {
      OtherConnOk(s, s', d + 1, d);
    }
  }

  lemma FrameKeeps(s: System, l: nat, fr: Frame)
    requires Inv(s) && l < |s.loops|
    requires FrameOk(s.conns, l, s.loops[l].(frame := fr)) && (fr.UserFrame? ==> s.loops[l].phase.Calling?)
    ensures Inv(SetFrame(s, l, fr))
  {
    var lp := s.loops[l].(frame := fr);
    assert LoopOk(s.conns, l, s.loops[l]);
    assert Rest(lp) == Rest(s.loops[l]);
    LoopReplaced(s, l, lp);
  }

  lemma PollKeeps(s: System, l: nat, ready: seq<Ready>)
    requires Inv(s) && Enabled(s, Poll(l, ready))
    ensures Inv(Do(s, Poll(l, ready)))
  {
    var lp := s.loops[l].(phase := Dispatching, active := ready);
    assert LoopOk(s.conns, l, s.loops[l]);
    assert Rest(lp) == Rest(s.loops[l]);
    forall k | 0 <= k < |ready| ensures s.conns[ready[k].c].index == KAdded {
      assert EntryOk(s.conns, s.pollers[l], l, s.conns[ready[k].c].fd);
    }
    LoopReplaced(s, l, lp);
  }

  lemma SwapKeeps(s: System, l: nat)
    requires Inv(s) && Enabled(s, SwapPending(l))
    ensures Inv(Do(s, SwapPending(l)))
  {
    var was := s.loops[l];
    var lp := was.(phase := Calling, batch := was.pending, pos := 0, pending := []);
    assert LoopOk(s.conns, l, was);
    assert Rest(was) == was.pending;
    assert Rest(lp) == was.pending;
    LoopReplaced(s, l, lp);
  }

  lemma EndBatchKeeps(s: System, l: nat)
    requires Inv(s) && Enabled(s, EndBatch(l))
    ensures Inv(Do(s, EndBatch(l)))
  {
    var was := s.loops[l];
    var lp := was.(phase := Idle, batch := [], pos := 0);
    assert LoopOk(s.conns, l, was);
    assert Rest(was) == was.pending;
    assert Rest(lp) == was.pending;
    LoopReplaced(s, l, lp);
  }

  lemma DispatchOps(k: C.Conn, revents: Mask)
    requires k.index == KAdded && QuietHangup(revents)
    ensures OpsOk(k, Dispatching, Handlers(Dispatch(revents)))
  {
    var calls, ops := Dispatch(revents), Handlers(Dispatch(revents));
    TwoClosersIff(revents);
  }

  lemma BeginKeeps(s: System, l: nat)
    requires Inv(s) && Enabled(s, BeginEvent(l))
    ensures Inv(Do(s, BeginEvent(l)))
  {
    var was := s.loops[l];
    var r := was.active[0];
    assert LoopOk(s.conns, l, was) && ConnOk(s, r.c);
    DispatchOps(s.conns[r.c], r.revents);
    var lp := Do(s, BeginEvent(l)).loops[l];
    assert Rest(lp) == Rest(was);
    LoopReplaced(s, l, lp);
  }

  // Steps that change a connection's registration, on its own loop.

  /** `s'` is `s` after loop `l` worked on its connection `c` alone. */
  ghost predicate ActedOn(s: System, s': System, l: nat, c: ConnId) {
    && l < |s.loops| && c in s.conns && c in s'.conns && s.conns[c].loop == l
    && s'.conns == s.conns[c := s'.conns[c]]
    && s'.conns[c].loop == l && s'.conns[c].fd == s.conns[c].fd
    && C.Rank(s.conns[c].state) <= C.Rank(s'.conns[c].state)
    && |s'.loops| == |s.loops| && s'.loops == s.loops[l := s'.loops[l]]
    && |s'.pollers| == |s.pollers|
    && s'.held == s.held && s'.inflight == s.inflight && s'.nextId == s.nextId
    && s'.connections <= s.connections <= s'.connections + {c}
  }

  lemma ActKeeps(s: System, s': System, l: nat, c: ConnId)
    requires Inv(s) && ActedOn(s, s', l, c)
    requires MapsOk(s'.conns, s'.pollers)
    requires LoopOk(s'.conns, l, s'.loops[l])
    requires KeepsBut(s.loops[l], s'.loops[l], c)
    requires Placed(s') && ConnOk(s', c)
    ensures Inv(s')
  {
    forall m | 0 <= m < |s'.loops| ensures LoopOk(s'.conns, m, s'.loops[m]) {
      if m != l {
        LoopGentle(s.conns, m, s.loops[m], c, s'.conns[c]);
      }
    }
    forall d | d in s'.conns ensures ConnOk(s', d) {
      if d != c {
        OtherConnOk(s, s', c, d);
      }
    }
    InflightKept(s, s', c);
  }

  /** Tasks stay in order of their connection when it moves on. */
  lemma TasksKept(conns: Conns, l: nat, fs: seq<Task>, c: ConnId, k: C.Conn)
    requires c in conns && k.loop == conns[c].loop && C.Rank(conns[c].state) <= C.Rank(k.state)
    requires forall f :: f in fs ==> TaskOk(conns, l, f)
    requires k.state == C.kConnecting || Established(c) !in fs
    ensures forall f :: f in fs ==> TaskOk(conns[c := k], l, f)
  {
    forall f | f in fs ensures TaskOk(conns[c := k], l, f) {
      assert TaskOk(conns, l, f);
    }
  }

  lemma NoPostsAppended(s: System, c: ConnId, op: C.Op)
    requires Located(s, c) && C.Possible(s.conns[c], op) && C.Apply(s.conns[c], op).posts == []
    ensures ConnDo(s, c, op).loops == s.loops
  {
    var l := s.conns[c].loop;
    assert Tasks(c, []) == [];
    assert s.loops[l].pending + [] == s.loops[l].pending;
  }

  /** The loop of `c` after it moved on, when only its frame has changed. */
  lemma ActedLoopOk(s: System, l: nat, c: ConnId, k: C.Conn, fr: Frame)
    requires Inv(s) && l < |s.loops| && c in s.conns && s.conns[c].loop == l
    requires s.conns[c].state != C.kConnecting && k.loop == l && C.Rank(s.conns[c].state) <= C.Rank(k.state)
    requires FrameOk(s.conns[c := k], l, s.loops[l].(frame := fr)) && !fr.UserFrame?
    requires forall i :: 0 <= i < |s.loops[l].active| ==> s.loops[l].active[i].c != c
    ensures LoopOk(s.conns[c := k], l, s.loops[l].(frame := fr))
  {
    assert LoopOk(s.conns, l, s.loops[l]);
    NoEstablished(s, l, c);
    FrameReplaced(s.conns, l, s.loops[l], c, k, fr);
  }

  lemma FrameReplaced(conns: Conns, l: nat, lp: Loop, c: ConnId, k: C.Conn, fr: Frame)
    requires LoopOk(conns, l, lp) && c in conns && conns[c].loop == l
    requires k.loop == l && C.Rank(conns[c].state) <= C.Rank(k.state) && Established(c) !in Rest(lp)
    requires FrameOk(conns[c := k], l, lp.(frame := fr)) && !fr.UserFrame?
    requires forall i :: 0 <= i < |lp.active| ==> lp.active[i].c != c
    ensures LoopOk(conns[c := k], l, lp.(frame := fr))
  {
    assert Rest(lp.(frame := fr)) == Rest(lp);
    TasksKept(conns, l, Rest(lp), c, k);
    ShapeKept(conns, lp, c, k, fr);
    ActiveKept(conns, l, lp.active, c, k);
  }

  lemma ShapeKept(conns: Conns, lp: Loop, c: ConnId, k: C.Conn, fr: Frame)
    requires LoopShape(conns, lp) && !fr.UserFrame?
    ensures LoopShape(conns[c := k], lp.(frame := fr))
  {
    assert forall f :: Known(conns, f) ==> Known(conns[c := k], f);
  }

  lemma ActiveKept(conns: Conns, l: nat, active: seq<Ready>, c: ConnId, k: C.Conn)
    requires ActiveOk(conns, l, active)
    requires forall i :: 0 <= i < |active| ==> active[i].c != c
    ensures ActiveOk(conns[c := k], l, active)
  {}

  lemma CloseFrame(k: C.Conn, k': C.Conn, phase: Phase, ops: seq<FrameOp>)
    requires OpsOk(k, phase, ops) && ops != [] && ops[0] == Handle(CloseCallback)
    requires k'.state == C.kDisconnected
    ensures OpsOk(k', phase, [UserCallback, PostRemove] + ops[1..])
    ensures PostRemove in [UserCallback, PostRemove] + ops[1..]
  {
    var ops' := [UserCallback, PostRemove] + ops[1..];
    assert ops'[1] == PostRemove;
    assert ops[0] in ops && Closer(ops[0]);
    assert forall op :: op in ops[1..] ==> op in ops;
    forall i | 0 <= i < |ops'| ensures !Closer(ops'[i]) {
      if i >= 2 {
        assert ops'[i] == ops[i - 1];
      }
    }
  }

  /** `handleClose` up to the user's callback. */
  lemma CloseKeeps(s: System, l: nat, read: ReadAnswer, wr: WriteResult)
    requires Inv(s) && Enabled(s, RunOp(l, read, wr)) && s.loops[l].frame.ops[0] == Handle(CloseCallback)
    ensures Inv(DoRunOp(s, l, read, wr))
    ensures s.conns[s.loops[l].frame.c].index == KAdded
  {
    var s' := DoRunOp(s, l, read, wr);
    var was, lp := s.loops[l], s'.loops[l];
    var c, ops := was.frame.c, was.frame.ops;
    assert LoopOk(s.conns, l, was) && ConnOk(s, c);
    assert Closer(ops[0]);
    NonTraffic(s, c, C.Close);
    CloseFrame(s.conns[c], s'.conns[c], was.phase, ops);
    ActedLoopOk(s, l, c, s'.conns[c], lp.frame);
    assert Rest(lp) == Rest(was);
    ActKeeps(s, s', l, c);
  }

  /** What an operation other than traffic does to the pollers, the loops and the
      connection. */
  lemma NonTraffic(s: System, c: ConnId, op: C.Op)
    requires Inv(s) && c in s.conns && C.Enabled(s.conns[c], op) && !C.IsTraffic(op)
    ensures var s' := ConnDo(s, c, op);
            && s'.loops == s.loops && MapsOk(s'.conns, s'.pollers) && |s'.pollers| == |s.pollers|
            && C.Coherent(s'.conns[c])
            && s'.conns[c].loop == s.conns[c].loop && s'.conns[c].fd == s.conns[c].fd
            && C.Rank(s.conns[c].state) <= C.Rank(s'.conns[c].state)
  {
    assert ConnOk(s, c);
    ConnDoMaps(s, c, op);
    C.OpKeeps(s.conns[c], op);
    C.OpMovesForward(s.conns[c], op);
    NoPostsAppended(s, c, op);
  }

  lemma NoEstablished(s: System, l: nat, c: ConnId)
    requires Inv(s) && l < |s.loops| && c in s.conns && s.conns[c].state != C.kConnecting
    ensures Established(c) !in Rest(s.loops[l])
  {
    assert LoopOk(s.conns, l, s.loops[l]);
    assert Established(c) in Rest(s.loops[l]) ==> TaskOk(s.conns, l, Established(c));
  }

  // The other pieces of a handler.

  lemma OpsTail(k: C.Conn, phase: Phase, ops: seq<FrameOp>)
    requires OpsOk(k, phase, ops) && ops != []
    ensures OpsOk(k, phase, ops[1..])
  {
    assert forall op :: op in ops[1..] ==> op in ops;
  }

  /** A read may turn into the close it asked for, into the message callback, or nothing. */
  lemma ReadOps(k: C.Conn, phase: Phase, ops: seq<FrameOp>)
    requires OpsOk(k, phase, ops) && ops != [] && ops[0] == Handle(ReadCallback)
    ensures OpsOk(k, phase, [UserCallback] + ops[1..])
    ensures OpsOk(k, phase, [Handle(CloseCallback)] + ops[1..])
  {
    assert ops[0] in ops && Closer(ops[0]);
    assert forall op :: op in ops[1..] ==> op in ops;
    var a, b := [UserCallback] + ops[1..], [Handle(CloseCallback)] + ops[1..];
    forall i | 0 < i < |ops| ensures !Closer(a[i]) && !Closer(b[i]) {
      assert a[i] == ops[i] && b[i] == ops[i];
    }
  }

  lemma LightOpKeeps(s: System, l: nat, read: ReadAnswer, wr: WriteResult)
    requires Inv(s) && Enabled(s, RunOp(l, read, wr))
    requires s.loops[l].frame.ops[0] in {UserCallback, Handle(ErrorCallback), Handle(ReadCallback)}
    ensures Inv(DoRunOp(s, l, read, wr))
  {
    var was, c, ops := s.loops[l], s.loops[l].frame.c, s.loops[l].frame.ops;
    assert LoopOk(s.conns, l, was);
    OpsTail(s.conns[c], was.phase, ops);
    if ops[0] == Handle(ReadCallback) {
      ReadOps(s.conns[c], was.phase, ops);
    }
    FrameKeeps(s, l, DoRunOp(s, l, read, wr).loops[l].frame);
  }

  /** Dropping the first piece of the frame. */
  lemma NextOpKeeps(s: System, l: nat)
    requires Inv(s) && l < |s.loops| && s.loops[l].frame.Frame? && s.loops[l].frame.ops != []
    ensures Inv(SetFrame(s, l, Frame(s.loops[l].frame.c, s.loops[l].frame.ops[1..])))
  {
    var was, c, ops := s.loops[l], s.loops[l].frame.c, s.loops[l].frame.ops;
    assert LoopOk(s.conns, l, was);
    OpsTail(s.conns[c], was.phase, ops);
    FrameKeeps(s, l, Frame(c, ops[1..]));
  }

  lemma WriteOpKeeps(s: System, l: nat, read: ReadAnswer, wr: WriteResult)
    requires Inv(s) && Enabled(s, RunOp(l, read, wr)) && s.loops[l].frame.ops[0] == Handle(WriteCallback)
    ensures Inv(DoRunOp(s, l, read, wr))
  {
    var c, s1 := s.loops[l].frame.c, ConnDo(s, s.loops[l].frame.c, C.WriteReady(wr));
    assert LoopOk(s.conns, l, s.loops[l]);
    TrafficKeeps(s, c, C.WriteReady(wr));
    assert s1.loops[l].frame == s.loops[l].frame;
    NextOpKeeps(s1, l);
  }

  lemma DetachFrame(k: C.Conn, k': C.Conn, phase: Phase, ops: seq<FrameOp>)
    requires OpsOk(k, phase, ops) && ops != [] && ops[0] == DoDetach && k'.state == k.state
    ensures OpsOk(k', phase, ops[1..])
  {
    assert forall i :: 0 <= i < |ops| ==> ops[i] in ops;
    assert forall op :: op in ops[1..] ==> op in ops;
  }

  /** `channel_->remove()`. */
  lemma DetachKeeps(s: System, l: nat, read: ReadAnswer, wr: WriteResult)
    requires Inv(s) && Enabled(s, RunOp(l, read, wr)) && s.loops[l].frame.ops[0] == DoDetach
    ensures Inv(DoRunOp(s, l, read, wr))
    ensures C.Rank(s.conns[s.loops[l].frame.c].state) >= 2
  {
    var s' := DoRunOp(s, l, read, wr);
    var was, lp := s.loops[l], s'.loops[l];
    var c, ops := was.frame.c, was.frame.ops;
    assert LoopOk(s.conns, l, was);
    NonTraffic(s, c, C.Detach);
    OpsTail(s.conns[c], was.phase, ops);
    DetachFrame(s.conns[c], s'.conns[c], was.phase, ops);
    ActedLoopOk(s, l, c, s'.conns[c], lp.frame);
    assert Rest(lp) == Rest(was);
    ActKeeps(s, s', l, c);
  }

  // The removal travels.

  /** `removeConnectionInLoop` keeps the invariant for any connection. */
  lemma ForgetKeeps(s: System, c: ConnId)
    requires Inv(s) && c in s.conns
    ensures Inv(Forget(s, c)) && Destroyed(c) in Rest(Forget(s, c).loops[s.conns[c].loop])
  {
    var l := s.conns[c].loop;
    var s1 := Append(s, l, [Destroyed(c)]);
    AppendKeeps(s, l, [Destroyed(c)]);
    assert Rest(s1.loops[l]) == Rest(s.loops[l]) + [Destroyed(c)];
    var s2 := s1.(connections := s1.connections - {c});
    assert forall d :: d in s1.conns && ConnOk(s1, d) ==> ConnOk(s2, d);
    assert Forget(s, c) == s2;
  }

  /** `closeCallback_`: the removal is sent to the main loop, or done there. */
  lemma PostRemoveKeeps(s: System, l: nat, read: ReadAnswer, wr: WriteResult)
    requires Inv(s) && Enabled(s, RunOp(l, read, wr)) && s.loops[l].frame.ops[0] == PostRemove
    ensures Inv(DoRunOp(s, l, read, wr))
  {
    var c, ops := s.loops[l].frame.c, s.loops[l].frame.ops;
    assert LoopOk(s.conns, l, s.loops[l]);
    assert PostRemove in ops;
    NextOpKeeps(s, l);
    var s1 := SetFrame(s, l, Frame(c, ops[1..]));
    if l == 0 {
      ForgetKeeps(s1, c);
    } else {
      AppendKeeps(s1, 0, [RemoveInLoop(c)]);
    }
  }

  lemma RunOpKeeps(s: System, l: nat, read: ReadAnswer, wr: WriteResult)
    requires Inv(s) && Enabled(s, RunOp(l, read, wr))
    ensures Inv(DoRunOp(s, l, read, wr))
  {
    match s.loops[l].frame.ops[0]
    case UserCallback => LightOpKeeps(s, l, read, wr);
    case PostRemove => PostRemoveKeeps(s, l, read, wr);
    case DoDetach => DetachKeeps(s, l, read, wr);
    case Handle(cb) =>
      match cb
      case ErrorCallback => LightOpKeeps(s, l, read, wr);
      case ReadCallback => LightOpKeeps(s, l, read, wr);
      case CloseCallback => CloseKeeps(s, l, read, wr);
      case WriteCallback => WriteOpKeeps(s, l, read, wr);
  }

  // The functors of a batch.

  function Popped(lp: Loop): Loop {
    lp.(pos := lp.pos + 1)
  }

  lemma RestPopped(lp: Loop)
    requires lp.pos < |lp.batch|
    ensures Rest(lp)[0] == lp.batch[lp.pos]
    ensures Rest(Popped(lp)) == Rest(lp)[1..]
    ensures forall f :: f in Rest(lp) && f != lp.batch[lp.pos] ==> f in Rest(Popped(lp))
    ensures forall f :: f in Rest(Popped(lp)) ==> f in Rest(lp)
  {
    assert lp.batch[lp.pos..] == [lp.batch[lp.pos]] + lp.batch[lp.pos + 1..];
    assert Rest(lp) == [lp.batch[lp.pos]] + Rest(Popped(lp));
  }

  lemma PoppedLoopOk(conns: Conns, l: nat, lp: Loop)
    requires LoopOk(conns, l, lp) && lp.pos < |lp.batch|
    ensures LoopOk(conns, l, Popped(lp))
  {
    RestPopped(lp);
    OrderTail(Rest(lp));
  }

  /** Taking any functor but `connectEstablished`. */
  lemma PopKeeps(s: System, l: nat)
    requires Inv(s) && l < |s.loops| && s.loops[l].pos < |s.loops[l].batch|
    requires !s.loops[l].batch[s.loops[l].pos].Established?
    ensures Inv(SetLoop(s, l, Popped(s.loops[l])))
  {
    var was, lp := s.loops[l], Popped(s.loops[l]);
    var s' := SetLoop(s, l, lp);
    RestPopped(was);
    assert LoopOk(s.conns, l, was);
    PoppedLoopOk(s.conns, l, was);
    forall d | d in s'.conns ensures ConnOk(s', d) {
      assert ConnOk(s, d);
    }
  }

  /** The head of a queue about a connection that is still connecting is its
      `connectEstablished`. */
  lemma HeadComesFirst(s: System, l: nat, c: ConnId)
    requires Inv(s) && l < |s.loops| && c in s.conns && s.conns[c].loop == l
    requires s.loops[l].pos < |s.loops[l].batch|
    requires About(s.loops[l].batch[s.loops[l].pos], c) && !s.loops[l].batch[s.loops[l].pos].Established?
    ensures s.conns[c].state != C.kConnecting
  {
    RestPopped(s.loops[l]);
    assert LoopOk(s.conns, l, s.loops[l]) && ConnOk(s, c);
    EstablishedIsFirst(Rest(s.loops[l]), c);
  }

  lemma {:induction false} EstablishedIsFirst(q: seq<Task>, c: ConnId)
    requires OrderOk(q) && q != [] && About(q[0], c)
    ensures Established(c) in q ==> q[0] == Established(c)
    ensures Established(c) !in q[1..]
    decreases |q|
  {
    if |q| > 1 {
      var before := q[..|q| - 1];
      EstablishedIsFirst(before, c);
      assert before[0] in before;
      assert q == before + [q[|q| - 1]] && q[1..] == before[1..] + [q[|q| - 1]];
    }
  }

  /** `connectDestroyed` up to the removal, in place of a functor of the batch. */
  lemma DestroyTaskKeeps(s: System, l: nat, wr: WriteResult)
    requires Inv(s) && Enabled(s, RunTask(l, wr)) && s.loops[l].batch[s.loops[l].pos].Destroyed?
    ensures Inv(DoRunTask(s, l, wr))
  {
    var c := s.loops[l].batch[s.loops[l].pos].c;
    var was := s.loops[l];
    RestPopped(was);
    assert LoopOk(s.conns, l, was) && ConnOk(s, c);
    assert TaskOk(s.conns, l, Destroyed(c));
    HeadComesFirst(s, l, c);
    StartDestroyKeeps(s, SetLoop(s, l, Popped(was)), l, c);
  }

  /** `s1` is `s` with the head of `l`'s batch taken, or the server's entry for `c` dropped. */
  ghost predicate ReadyToStart(s: System, s1: System, l: nat, c: ConnId) {
    && l < |s.loops| && c in s.conns && s.conns[c].loop == l
    && !s.loops[l].frame.Frame? && s.loops[l].active == []
    && |s1.loops| == |s.loops| && s1.loops == s.loops[l := s1.loops[l]]
    && s1 == s.(connections := s1.connections, loops := s1.loops)
    && (|| s1.loops[l] == s.loops[l]
        || (&& s.loops[l].pos < |s.loops[l].batch| && About(s.loops[l].batch[s.loops[l].pos], c)
            && s1.loops[l] == Popped(s.loops[l])))
    && s1.connections <= s.connections <= s1.connections + {c}
  }

  lemma StartLoop(s: System, s1: System, l: nat, c: ConnId)
    requires Inv(s) && ReadyToStart(s, s1, l, c)
    ensures LoopOk(s.conns, l, s1.loops[l]) && KeepsBut(s.loops[l], s1.loops[l], c)
    ensures forall f :: f in Rest(s1.loops[l]) ==> f in Rest(s.loops[l])
  {
    assert LoopOk(s.conns, l, s.loops[l]);
    if s1.loops[l] != s.loops[l] {
      RestPopped(s.loops[l]);
      PoppedLoopOk(s.conns, l, s.loops[l]);
    }
  }

  /** Running `op` and leaving `ops` to do, from `s1`. */
  function Started(s1: System, l: nat, c: ConnId, op: C.Op, ops: seq<FrameOp>): System
    requires Located(s1, c) && C.Possible(s1.conns[c], op) && l < |s1.loops|
  {
    SetFrame(ConnDo(s1, c, op), l, Frame(c, ops))
  }

  lemma StartedShape(s: System, s1: System, l: nat, c: ConnId, op: C.Op, ops: seq<FrameOp>)
    requires Inv(s) && ReadyToStart(s, s1, l, c) && C.Enabled(s.conns[c], op) && !C.IsTraffic(op)
    ensures var s' := Started(s1, l, c, op, ops);
            && s'.conns == s.conns[c := C.Apply(s.conns[c], op).conn]
            && s'.loops == s.loops[l := s1.loops[l].(frame := Frame(c, ops))]
            && ActedOn(s, s', l, c) && Placed(s') && s'.connections == s1.connections
            && MapsOk(s'.conns, s'.pollers) && C.Coherent(s'.conns[c])
  {
    NonTraffic(s, c, op);
    StartedLoops(s, s1, l, c, op, ops);
  }

  lemma StartedLoops(s: System, s1: System, l: nat, c: ConnId, op: C.Op, ops: seq<FrameOp>)
    requires Placed(s) && ReadyToStart(s, s1, l, c) && C.Enabled(s.conns[c], op) && !C.IsTraffic(op)
    ensures var s', d := Started(s1, l, c, op, ops), ConnDo(s, c, op);
            && s'.loops == s.loops[l := s1.loops[l].(frame := Frame(c, ops))]
            && s' == s1.(conns := d.conns, pollers := d.pollers, loops := s'.loops)
  {
    NoPostsAppended(s1, c, op);
  }

  lemma StartKeeps(s: System, s1: System, l: nat, c: ConnId, op: C.Op, ops: seq<FrameOp>)
    requires Inv(s) && ReadyToStart(s, s1, l, c) && C.Enabled(s.conns[c], op) && !C.IsTraffic(op)
    requires Established(c) !in Rest(s1.loops[l])
    requires var k := C.Apply(s.conns[c], op).conn;
             k.state != C.kConnecting && OpsOk(k, s.loops[l].phase, ops)
    ensures Inv(Started(s1, l, c, op, ops))
  {
    var s' := Started(s1, l, c, op, ops);
    var lp, lp1 := s'.loops[l], s1.loops[l];
    StartedShape(s, s1, l, c, op, ops);
    StartLoop(s, s1, l, c);
    NewFrameLoopOk(s.conns, l, lp1, c, s'.conns[c], ops);
    assert Rest(lp) == Rest(lp1);
    ActKeeps(s, s', l, c);
  }

  lemma StartDestroyKeeps(s: System, s1: System, l: nat, c: ConnId)
    requires Inv(s) && ReadyToStart(s, s1, l, c) && s.conns[c].state != C.kConnecting
    ensures Inv(StartDestroy(s1, l, c))
  {
    var ops := (if s.conns[c].state == C.kConnected then [UserCallback] else []) + [DoDetach];
    NoEstablished(s, l, c);
    StartLoop(s, s1, l, c);
    var k := C.Apply(s.conns[c], C.Destroy).conn;
    DestroyFrame(s.conns[c], k, s.loops[l].phase, ops);
    StartKeeps(s, s1, l, c, C.Destroy, ops);
  }

  /** Loop `l` starts a handler for its connection `c`, which has moved on to `k`. */
  lemma NewFrameLoopOk(conns: Conns, l: nat, lp: Loop, c: ConnId, k: C.Conn, ops: seq<FrameOp>)
    requires LoopOk(conns, l, lp) && lp.active == []
    requires c in conns && conns[c].loop == k.loop == l && C.Rank(conns[c].state) <= C.Rank(k.state)
    requires k.state != C.kConnecting && OpsOk(k, lp.phase, ops) && Established(c) !in Rest(lp)
    ensures LoopOk(conns[c := k], l, lp.(frame := Frame(c, ops)))
  {
    TasksKept(conns, l, Rest(lp), c, k);
    assert Rest(lp.(frame := Frame(c, ops))) == Rest(lp);
  }

  lemma DestroyFrame(k: C.Conn, k': C.Conn, phase: Phase, ops: seq<FrameOp>)
    requires C.Rank(k'.state) >= 2
    requires ops == (if k.state == C.kConnected then [UserCallback] else []) + [DoDetach]
    ensures OpsOk(k', phase, ops) && DoDetach in ops
  {
    assert ops[|ops| - 1] == DoDetach;
  }

  /** `connectEstablished`. */
  lemma EstablishTaskKeeps(s: System, l: nat, wr: WriteResult)
    requires Inv(s) && Enabled(s, RunTask(l, wr)) && s.loops[l].batch[s.loops[l].pos].Established?
    ensures Inv(DoRunTask(s, l, wr))
    ensures s.conns[s.loops[l].batch[s.loops[l].pos].c].state == C.kConnecting
  {
    EstablishReady(s, l, wr);
    EstablishStarts(s, l, wr);
    StartKeeps(s, SetLoop(s, l, Popped(s.loops[l])), l, s.loops[l].batch[s.loops[l].pos].c, C.Establish, [UserCallback]);
  }

  lemma EstablishStarts(s: System, l: nat, wr: WriteResult)
    requires Enabled(s, RunTask(l, wr)) && s.loops[l].batch[s.loops[l].pos].Established?
    ensures DoRunTask(s, l, wr) == Started(SetLoop(s, l, Popped(s.loops[l])), l, s.loops[l].batch[s.loops[l].pos].c,
                                           C.Establish, [UserCallback])
  {}

  lemma EstablishReady(s: System, l: nat, wr: WriteResult)
    requires Inv(s) && Enabled(s, RunTask(l, wr)) && s.loops[l].batch[s.loops[l].pos].Established?
    ensures var c := s.loops[l].batch[s.loops[l].pos].c;
            && ReadyToStart(s, SetLoop(s, l, Popped(s.loops[l])), l, c)
            && s.conns[c].state == C.kConnecting
            && Established(c) !in Rest(Popped(s.loops[l]))
  {
    var was, c := s.loops[l], s.loops[l].batch[s.loops[l].pos].c;
    RestPopped(was);
    assert LoopOk(s.conns, l, was);
    assert TaskOk(s.conns, l, Established(c));
    EstablishedIsFirst(Rest(was), c);
  }

  lemma RemoveTaskKeeps(s: System, l: nat, wr: WriteResult)
    requires Inv(s) && Enabled(s, RunTask(l, wr)) && s.loops[l].batch[s.loops[l].pos].RemoveInLoop?
    ensures Inv(DoRunTask(s, l, wr))
    ensures l == 0
  {
    var c := s.loops[l].batch[s.loops[l].pos].c;
    RestPopped(s.loops[l]);
    assert LoopOk(s.conns, l, s.loops[l]);
    assert TaskOk(s.conns, l, RemoveInLoop(c));
    PopKeeps(s, l);
    ForgetKeeps(SetLoop(s, l, Popped(s.loops[l])), c);
  }

  /** A user functor, or a user callback, of which the loop has just taken the functor. */
  lemma CallbackTaskKeeps(s: System, l: nat, wr: WriteResult)
    requires Inv(s) && Enabled(s, RunTask(l, wr))
    requires s.loops[l].batch[s.loops[l].pos].UserTask? || s.loops[l].batch[s.loops[l].pos].Notify?
    ensures Inv(DoRunTask(s, l, wr))
  {
    var was, f := s.loops[l], s.loops[l].batch[s.loops[l].pos];
    RestPopped(was);
    assert LoopOk(s.conns, l, was) && TaskOk(s.conns, l, f);
    PopKeeps(s, l);
    var s1 := SetLoop(s, l, Popped(was));
    FrameKeeps(s1, l, if f.Notify? then Frame(f.c, [UserCallback]) else UserFrame);
  }

  /** The two functors that bind a raw `this`. */
  lemma RawTaskKeeps(s: System, l: nat, wr: WriteResult)
    requires Inv(s) && Enabled(s, RunTask(l, wr))
    requires s.loops[l].batch[s.loops[l].pos].SendTask? || s.loops[l].batch[s.loops[l].pos].ShutdownTask?
    ensures Inv(DoRunTask(s, l, wr))
  {
    var was, f := s.loops[l], s.loops[l].batch[s.loops[l].pos];
    RestPopped(was);
    assert LoopOk(s.conns, l, was) && TaskOk(s.conns, l, f);
    PopKeeps(s, l);
    var s1 := SetLoop(s, l, Popped(was));
    if f.SendTask? {
      TrafficKeeps(s1, f.c, C.Send(f.data, wr));
    } else {
      TrafficKeeps(s1, f.c, C.ShutdownRun);
    }
  }

  lemma RunTaskKeeps(s: System, l: nat, wr: WriteResult)
    requires Inv(s) && Enabled(s, RunTask(l, wr))
    ensures Inv(DoRunTask(s, l, wr))
  {
    match s.loops[l].batch[s.loops[l].pos]
    case Established(_) => EstablishTaskKeeps(s, l, wr);
    case Destroyed(_) => DestroyTaskKeeps(s, l, wr);
    case RemoveInLoop(_) => RemoveTaskKeeps(s, l, wr);
    case SendTask(_, _) => RawTaskKeeps(s, l, wr);
    case ShutdownTask(_) => RawTaskKeeps(s, l, wr);
    case _ => CallbackTaskKeeps(s, l, wr);
  }

  // New connections.

  /** The machine with one connection more, on loop `l`. */
  ghost predicate Joined(s: System, s': System, l: nat, c: ConnId) {
    && c == s.nextId && l < |s.loops| && c in s'.conns
    && s'.conns == s.conns[c := s'.conns[c]] && s'.conns[c].loop == l
    && s'.connections == s.connections + {c} && s'.nextId == c + 1
    && |s'.loops| == |s.loops| && s'.loops == s.loops[l := s'.loops[l]]
    && |s'.pollers| == |s.pollers| && s'.held == s.held && s'.inflight == s.inflight
  }

  lemma StrangersUntouched(s: System, l: nat, lp: Loop, k: C.Conn)
    requires Inv(s) && LoopOk(s.conns, l, lp)
    ensures LoopOk(s.conns[s.nextId := k], l, lp)
  {
    var conns' := s.conns[s.nextId := k];
    assert forall c :: c in s.conns ==> c != s.nextId;
    forall f | f in Rest(lp) ensures TaskOk(conns', l, f) {
      assert TaskOk(s.conns, l, f);
    }
  }

  lemma JoinKeeps(s: System, s': System, l: nat, c: ConnId)
    requires Inv(s) && Joined(s, s', l, c) && Placed(s') && MapsOk(s'.conns, s'.pollers)
    requires LoopOk(s'.conns, l, s'.loops[l]) && KeepsBut(s.loops[l], s'.loops[l], c)
    requires ConnOk(s', c)
    ensures Inv(s')
  {
    assert forall d :: d in s.conns ==> d != c;
    forall m | 0 <= m < |s'.loops| ensures LoopOk(s'.conns, m, s'.loops[m]) {
      if m != l {
        StrangersUntouched(s, m, s.loops[m], s'.conns[c]);
      }
    }
    forall d | d in s'.conns ensures ConnOk(s', d) {
      if d != c {
        OtherConnOk(s, s', c, d);
      }
    }
    forall f | f in s'.inflight ensures f.c in s'.conns && TaskOk(s'.conns, s'.conns[f.c].loop, f) {
      assert TaskOk(s.conns, s.conns[f.c].loop, f);
    }
  }

  lemma NewMapsOk(s: System, c: ConnId, k: C.Conn)
    requires Inv(s) && c == s.nextId
    ensures MapsOk(s.conns[c := k], s.pollers)
  {
    assert forall d :: d in s.conns ==> d != c;
    forall l, fd | 0 <= l < |s.pollers| && fd in s.pollers[l].channels
      ensures EntryOk(s.conns[c := k], s.pollers[l], l, fd)
    {
      assert EntryOk(s.conns, s.pollers[l], l, fd);
    }
  }

  lemma PlaceFits(threads: nat, k: nat)
    ensures Place(threads, k) <= threads
    ensures Place(threads, k) == 0 <==> threads == 0
  {}

  /** The machine with the new connection in its map and nowhere else. */
  function Entered(s: System, k: C.Conn): System {
    s.(conns := s.conns[s.nextId := k], connections := s.connections + {s.nextId}, nextId := s.nextId + 1)
  }

  lemma QueuedShape(s: System, a: Action)
    requires Placed(s) && a.Accept? && Enabled(s, a) && |s.loops| > 1
    ensures var l := Place(|s.loops| - 1, s.nextId);
            && 0 < l < |s.loops|
            && Do(s, a) == Append(Entered(s, NewConn(a.fd, l, a.mark, a.wc, a.hw)), l, [Established(s.nextId)])
  {
    PlaceFits(|s.loops| - 1, s.nextId);
  }

  /** A connection handed to an IO loop through its queue. */
  lemma AcceptQueuedKeeps(s: System, a: Action)
    requires Inv(s) && a.Accept? && Enabled(s, a) && |s.loops| > 1
    ensures Inv(Do(s, a))
  {
    QueuedShape(s, a);
    var l := Place(|s.loops| - 1, s.nextId);
    EnteredKeeps(s, l, NewConn(a.fd, l, a.mark, a.wc, a.hw));
  }

  lemma EnteredKeeps(s: System, l: nat, k: C.Conn)
    requires Inv(s) && 0 < l < |s.loops| && C.Fresh(k) && k.loop == l
    ensures Inv(Append(Entered(s, k), l, [Established(s.nextId)]))
  {
    var s', c := Append(Entered(s, k), l, [Established(s.nextId)]), s.nextId;
    assert LoopOk(s.conns, l, s.loops[l]);
    StrangersUntouched(s, l, s.loops[l], k);
    NewMapsOk(s, c, k);
    NoneAbout(s, l, c);
    EstablishedLast(s.conns[c := k], l, s.loops[l], c);
    C.FreshIsCoherent(k);
    assert Established(c) in [Established(c)];
    JoinKeeps(s, s', l, c);
  }

  lemma EstablishedLast(conns: Conns, l: nat, lp: Loop, c: ConnId)
    requires LoopOk(conns, l, lp) && c in conns && conns[c].loop == l && conns[c].state == C.kConnecting
    requires forall f :: f in Rest(lp) ==> !About(f, c)
    ensures var lp' := lp.(pending := lp.pending + [Established(c)]);
            LoopOk(conns, l, lp') && Rest(lp') == Rest(lp) + [Established(c)]
  {
    OrderSnoc(Rest(lp), Established(c));
    LoopGrown(conns, l, lp, [Established(c)]);
  }

  lemma NoneAbout(s: System, l: nat, c: ConnId)
    requires Inv(s) && l < |s.loops| && c == s.nextId
    ensures forall f :: f in Rest(s.loops[l]) ==> !About(f, c)
  {
    forall f | f in Rest(s.loops[l]) ensures !About(f, c) {
      assert LoopOk(s.conns, l, s.loops[l]);
      assert TaskOk(s.conns, l, f);
    }
  }

  /** The state in which the main loop is about to establish its own new connection. */
  function Unestablished(s: System, a: Action): System
    requires a.Accept?
  {
    s.(conns := s.conns[s.nextId := NewConn(a.fd, 0, a.mark, a.wc, a.hw)],
       connections := s.connections + {s.nextId}, nextId := s.nextId + 1)
  }

  lemma DirectMaps(s: System, a: Action)
    requires Inv(s) && a.Accept? && Enabled(s, a) && |s.loops| == 1
    ensures var s', c := ConnDo(Unestablished(s, a), s.nextId, C.Establish), s.nextId;
            && MapsOk(s'.conns, s'.pollers) && s'.loops == s.loops && |s'.pollers| == |s.pollers|
            && C.Coherent(s'.conns[c])
  {
    var s1, c := Unestablished(s, a), s.nextId;
    NewMapsOk(s, c, s1.conns[c]);
    C.FreshIsCoherent(s1.conns[c]);
    C.OpKeeps(s1.conns[c], C.Establish);
    ConnDoMaps(s1, c, C.Establish);
    NoPostsAppended(s1, c, C.Establish);
  }

  lemma DirectShape(s: System, a: Action)
    requires Inv(s) && a.Accept? && Enabled(s, a) && |s.loops| == 1
    ensures var s', c := Do(s, a), s.nextId;
            var k0 := NewConn(a.fd, 0, a.mark, a.wc, a.hw);
            && s' == SetFrame(ConnDo(Unestablished(s, a), c, C.Establish), 0, Frame(c, [UserCallback]))
            && Joined(s, s', 0, c) && Placed(s') && MapsOk(s'.conns, s'.pollers)
            && s'.conns[c] == C.Apply(k0, C.Establish).conn && C.Coherent(s'.conns[c])
            && s'.loops[0] == s.loops[0].(frame := Frame(c, [UserCallback]))
  {
    DirectMaps(s, a);
  }

  /** Without IO loops the main loop runs `connectEstablished` at once. */
  lemma AcceptDirectKeeps(s: System, a: Action)
    requires Inv(s) && a.Accept? && Enabled(s, a) && |s.loops| == 1
    ensures Inv(Do(s, a))
  {
    var s', c := Do(s, a), s.nextId;
    DirectShape(s, a);
    var was, lp := s.loops[0], s'.loops[0];
    assert Rest(lp) == Rest(was);
    assert LoopOk(s.conns, 0, was);
    StrangersUntouched(s, 0, was, s'.conns[c]);
    JoinKeeps(s, s', 0, c);
  }

  // The server's destructor, and user code.

  lemma DestroyServerKeeps(s: System, c: ConnId)
    requires Inv(s) && Enabled(s, DestroyServer(c))
    ensures Inv(Do(s, DestroyServer(c)))
  {
    assert ConnOk(s, c);
    if s.conns[c].loop == 0 {
      var s1 := s.(connections := s.connections - {c});
      assert LoopOk(s.conns, 0, s.loops[0]);
      assert s.loops == s.loops[0 := s.loops[0]];
      StartDestroyKeeps(s, s1, 0, c);
    } else {
      ForgetKeeps(s, c);
    }
  }

  lemma UserSendKeeps(s: System, a: Action)
    requires Inv(s) && a.UserSend? && Enabled(s, a)
    ensures Inv(Do(s, a))
  {
    assert ConnOk(s, a.c);
    if s.conns[a.c].state == C.kConnected {
      if a.t == OnLoop(s.conns[a.c].loop) {
        TrafficKeeps(s, a.c, C.Send(a.data, a.wr));
      } else {
        InflightGrows(s, SendTask(a.c, a.data));
      }
    }
  }

  lemma InflightGrows(s: System, f: Task)
    requires Inv(s) && (f.SendTask? || f.ShutdownTask?) && f.c in s.conns
    requires TaskOk(s.conns, s.conns[f.c].loop, f)
    ensures Inv(s.(inflight := s.inflight + [f]))
  {
    var s' := s.(inflight := s.inflight + [f]);
    assert forall d :: d in s.conns && ConnOk(s, d) ==> ConnOk(s', d);
  }

  lemma UserShutdownKeeps(s: System, a: Action)
    requires Inv(s) && a.UserShutdown? && Enabled(s, a)
    ensures Inv(Do(s, a))
  {
    assert ConnOk(s, a.c);
    if s.conns[a.c].state == C.kConnected {
      var s1 := ConnDo(s, a.c, C.ShutdownFlag);
      TrafficKeeps(s, a.c, C.ShutdownFlag);
      if a.t == OnLoop(s.conns[a.c].loop) {
        TrafficKeeps(s1, a.c, C.ShutdownRun);
      } else {
        InflightGrows(s1, ShutdownTask(a.c));
      }
    }
  }

  lemma DeliverKeeps(s: System, i: nat)
    requires Inv(s) && Enabled(s, Deliver(i))
    ensures Inv(Do(s, Deliver(i)))
  {
    var f := s.inflight[i];
    var s1 := s.(inflight := s.inflight[..i] + s.inflight[i + 1..]);
    assert forall g :: g in s1.inflight ==> g in s.inflight;
    assert f in s.inflight;
    assert forall d :: d in s.conns && ConnOk(s, d) ==> ConnOk(s1, d);
    AppendKeeps(s1, s.conns[f.c].loop, [f]);
  }

  lemma ReferenceKeeps(s: System, held: set<ConnId>)
    requires Inv(s) && held <= s.conns.Keys
    ensures Inv(s.(held := held))
  {
    var s' := s.(held := held);
    assert forall d :: d in s.conns && ConnOk(s, d) ==> ConnOk(s', d);
  }

  /** Every step of any thread keeps the invariant. */
  lemma StepKeeps(s: System, a: Action)
    requires Inv(s) && Enabled(s, a)
    ensures Inv(Do(s, a))
  {
    match a
    case Accept(_, _, _, _) => if |s.loops| == 1 { AcceptDirectKeeps(s, a); } else { AcceptQueuedKeeps(s, a); }
    case Poll(l, ready) => PollKeeps(s, l, ready);
    case BeginEvent(l) => BeginKeeps(s, l);
    case RunOp(l, read, wr) => RunOpKeeps(s, l, read, wr);
    case EndFrame(l) => FrameKeeps(s, l, NoFrame);
    case SwapPending(l) => SwapKeeps(s, l);
    case RunTask(l, wr) => RunTaskKeeps(s, l, wr);
    case EndBatch(l) => EndBatchKeeps(s, l);
    case Resume(l) => FrameKeeps(s, l, UserFrame);
    case UserSend(_, _, _, _) => UserSendKeeps(s, a);
    case UserShutdown(_, _) => UserShutdownKeeps(s, a);
    case UserQueue(_, l) => AppendKeeps(s, l, [UserTask]);
    case Deliver(i) => DeliverKeeps(s, i);
    case Hold(c) => ReferenceKeeps(s, s.held + {c});
    case Drop(c) => ReferenceKeeps(s, s.held - {c});
    case DestroyServer(c) => DestroyServerKeeps(s, c);
  }

  lemma InitialHolds(s: System)
    requires Initial(s)
    ensures Inv(s)
  {
    forall l | 0 <= l < |s.loops| ensures LoopOk(s.conns, l, s.loops[l]) {
      assert Rest(s.loops[l]) == [];
    }
  }
}
