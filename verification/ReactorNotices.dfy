/** The write-complete and high-water callbacks in the whole machine: each that a connection
    posts is queued on its loop once, in order, and run as the user's callback. */
module ReactorNotices {
  import opened Registration
  import opened ByteBuffer
  import opened Reactor
  import opened ReactorInvariant
  import opened ReactorMoves
  import opened ReactorSteps
  import opened ReactorRemovals
  import opened ReactorRuns
  import opened ReactorDelivery
  import C = Connection

  predicate NoticeOf(f: Task, c: ConnId) {
    f.Notify? && f.c == c
  }

  /** The callbacks of `c` in a queue. */
  function NoticesIn(q: seq<Task>, c: ConnId): seq<C.Notice> {
    if q == [] then []
    else NoticesIn(q[..|q| - 1], c) + if NoticeOf(q[|q| - 1], c) then [q[|q| - 1].notice] else []
  }

  lemma {:induction false} NoticesAdd(p: seq<Task>, q: seq<Task>, c: ConnId)
    ensures NoticesIn(p + q, c) == NoticesIn(p, c) + NoticesIn(q, c)
    decreases |q|
  {
    if q == [] {
      assert p + q == p;
    } else {
      NoticesAdd(p, q[..|q| - 1], c);
      assert (p + q)[..|p + q| - 1] == p + q[..|q| - 1];
    }
  }

  lemma {:induction false} NoNotices(q: seq<Task>, c: ConnId)
    requires forall f :: f in q ==> !NoticeOf(f, c)
    ensures NoticesIn(q, c) == []
    decreases |q|
  {
    if q != [] {
      assert q[|q| - 1] in q;
      NoNotices(q[..|q| - 1], c);
    }
  }

  lemma {:induction false} NoticesOfTasks(c: ConnId, posts: seq<C.Notice>)
    ensures NoticesIn(Tasks(c, posts), c) == posts
    decreases |posts|
  {
    if posts != [] {
      NoticesOfTasks(c, posts[..|posts| - 1]);
      assert Tasks(c, posts)[..|posts| - 1] == Tasks(c, posts[..|posts| - 1]);
    }
  }

  lemma NoticesOfPosts(k: C.Conn, d: ConnId, op: C.Op, c: ConnId)
    requires C.Possible(k, op)
    ensures NoticesIn(Posts(k, d, op), c) == if d == c then C.Apply(k, op).posts else []
  {
    NoticesOfTasks(d, C.Apply(k, op).posts);
    if d != c {
      PostsAreNotices(k, d, op);
      NoNotices(Posts(k, d, op), c);
    }
  }

  lemma PostedByOne(k: C.Conn, op: C.Op)
    requires C.Enabled(k, op)
    ensures C.ValidRun(k, [op]) && C.Posted(k, [op]) == C.Apply(k, op).posts
  {
    OneOp(k, op);
    assert [op][..0] == [];
  }

  /** What the operations of a step post. */
  ghost function PostedBy(s: System, a: Action, c: ConnId): seq<C.Notice>
    requires Enabled(s, a) && c in s.conns && C.ValidRun(s.conns[c], OpsOn(s, a, c))
  {
    C.Posted(s.conns[c], OpsOn(s, a, c))
  }

  lemma HandlerNotices(s: System, l: nat, read: ReadAnswer, wr: WriteResult, c: ConnId)
    requires Inv(s) && Enabled(s, RunOp(l, read, wr)) && c in s.conns
    requires C.ValidRun(s.conns[c], OpsOn(s, RunOp(l, read, wr), c))
    ensures NoticesIn(Added(s, RunOp(l, read, wr), s.conns[c].loop), c) == PostedBy(s, RunOp(l, read, wr), c)
  {
    var op := s.loops[l].frame.ops[0];
    if op in {DoDetach, Handle(CloseCallback), Handle(WriteCallback)} {
      PieceNotices(s, l, read, wr, c);
    } else {
      NoNotices(HandlerMove(s, l, read, wr).fs, c);
    }
  }

  /** What the piece queues and performs, as far as `c` goes. */
  lemma HandlerPosts(s: System, l: nat, read: ReadAnswer, wr: WriteResult, c: ConnId)
    requires Placed(s) && Enabled(s, RunOp(l, read, wr)) && c in s.conns
    requires s.loops[l].frame.ops[0] in {DoDetach, Handle(CloseCallback), Handle(WriteCallback)}
    ensures var d, op := s.loops[l].frame.c, HandlerOp(s.loops[l].frame.ops[0], wr);
            && C.Possible(s.conns[d], op)
            && OpsOn(s, RunOp(l, read, wr), c) == (if c == d then [op] else [])
            && Added(s, RunOp(l, read, wr), s.conns[c].loop)
               == if s.conns[c].loop == s.conns[d].loop then Posts(s.conns[d], d, op) else []
  {}

  /** The callbacks of one operation of `d`, queued on its loop, among those of `c`. */
  lemma OperationPosts(kd: C.Conn, d: ConnId, op: C.Op, kc: C.Conn, c: ConnId, ops: seq<C.Op>, fs: seq<Task>)
    requires C.Possible(kd, op) && C.ValidRun(kc, ops) && ops == (if c == d then [op] else [])
    requires fs == Posts(kd, d, op) || (c != d && fs == [])
    requires c == d ==> kc == kd && C.Enabled(kc, op)
    ensures NoticesIn(fs, c) == C.Posted(kc, ops)
  {
    NoticesOfPosts(kd, d, op, c);
    if c == d {
      PostedByOne(kc, op);
    }
  }

  /** The pieces of a handler that perform an operation of their connection. */
  lemma PieceNotices(s: System, l: nat, read: ReadAnswer, wr: WriteResult, c: ConnId)
    requires Inv(s) && Enabled(s, RunOp(l, read, wr)) && c in s.conns
    requires C.ValidRun(s.conns[c], OpsOn(s, RunOp(l, read, wr), c))
    requires s.loops[l].frame.ops[0] in {DoDetach, Handle(CloseCallback), Handle(WriteCallback)}
    ensures NoticesIn(Added(s, RunOp(l, read, wr), s.conns[c].loop), c) == PostedBy(s, RunOp(l, read, wr), c)
  {
    var d, op := s.loops[l].frame.c, HandlerOp(s.loops[l].frame.ops[0], wr);
    HandlerPosts(s, l, read, wr, c);
    if c == d {
      HandlerInOrder(s, l, read, wr, c);
    }
    OperationPosts(s.conns[d], d, op, s.conns[c], c, OpsOn(s, RunOp(l, read, wr), c),
                   Added(s, RunOp(l, read, wr), s.conns[c].loop));
  }

  lemma FunctorNotices(s: System, l: nat, wr: WriteResult, c: ConnId)
    requires Inv(s) && Enabled(s, RunTask(l, wr)) && c in s.conns
    requires C.ValidRun(s.conns[c], OpsOn(s, RunTask(l, wr), c))
    ensures NoticesIn(Added(s, RunTask(l, wr), s.conns[c].loop), c) == PostedBy(s, RunTask(l, wr), c)
  {
    var f := s.loops[l].batch[s.loops[l].pos];
    if f.UserTask? || f.Notify? || f.RemoveInLoop? {
      NoNotices(FunctorMove(s, l, wr).fs, c);
    } else {
      OperationNotices(s, l, wr, c);
    }
  }

  /** The functors that perform an operation of their connection. */
  lemma OperationNotices(s: System, l: nat, wr: WriteResult, c: ConnId)
    requires Inv(s) && Enabled(s, RunTask(l, wr)) && c in s.conns
    requires C.ValidRun(s.conns[c], OpsOn(s, RunTask(l, wr), c))
    requires var f := s.loops[l].batch[s.loops[l].pos]; !f.UserTask? && !f.Notify? && !f.RemoveInLoop?
    ensures NoticesIn(Added(s, RunTask(l, wr), s.conns[c].loop), c) == PostedBy(s, RunTask(l, wr), c)
  {
    var d := s.loops[l].batch[s.loops[l].pos].c;
    FunctorPosts(s, l, wr, c);
    if c == d {
      FunctorInOrder(s, l, wr, c);
    }
    OperationPosts(s.conns[d], d, OpsOn(s, RunTask(l, wr), d)[0], s.conns[c], c, OpsOn(s, RunTask(l, wr), c),
                   Added(s, RunTask(l, wr), s.conns[c].loop));
  }

  lemma FunctorPosts(s: System, l: nat, wr: WriteResult, c: ConnId)
    requires Placed(s) && Enabled(s, RunTask(l, wr)) && c in s.conns
    requires var f := s.loops[l].batch[s.loops[l].pos]; !f.UserTask? && !f.Notify? && !f.RemoveInLoop?
    ensures var d := s.loops[l].batch[s.loops[l].pos].c;
            var op := OpsOn(s, RunTask(l, wr), d);
            && |op| == 1 && C.Possible(s.conns[d], op[0])
            && OpsOn(s, RunTask(l, wr), c) == (if c == d then [op[0]] else [])
            && Added(s, RunTask(l, wr), s.conns[c].loop)
               == if s.conns[c].loop == s.conns[d].loop then Posts(s.conns[d], d, op[0]) else []
  {}

  /** What the send queues and performs, as far as `c` goes. */
  lemma SendPosts(s: System, a: Action, c: ConnId)
    requires Placed(s) && Enabled(s, a) && a.UserSend? && c in s.conns
    ensures var k, op := s.conns[a.c], C.Send(a.data, a.wr);
            var now := k.state == C.kConnected && a.t == OnLoop(k.loop);
            && C.Possible(k, op)
            && OpsOn(s, a, c) == (if c == a.c && now then [op] else [])
            && Added(s, a, s.conns[c].loop) == if now && s.conns[c].loop == k.loop then Posts(k, a.c, op) else []
  {}

  lemma SendNotices(s: System, a: Action, c: ConnId)
    requires Inv(s) && Enabled(s, a) && a.UserSend? && c in s.conns
    requires C.ValidRun(s.conns[c], OpsOn(s, a, c))
    ensures NoticesIn(Added(s, a, s.conns[c].loop), c) == PostedBy(s, a, c)
  {
    var k := s.conns[a.c];
    SendPosts(s, a, c);
    if k.state == C.kConnected && a.t == OnLoop(k.loop) {
      OperationPosts(k, a.c, C.Send(a.data, a.wr), s.conns[c], c, OpsOn(s, a, c), Added(s, a, s.conns[c].loop));
    }
  }

  lemma ShutdownNotices(s: System, a: Action, c: ConnId)
    requires Inv(s) && Enabled(s, a) && a.UserShutdown? && c in s.conns
    requires C.ValidRun(s.conns[c], OpsOn(s, a, c))
    ensures NoticesIn(Added(s, a, s.conns[c].loop), c) == PostedBy(s, a, c)
  {
    if OpsOn(s, a, c) != [] {
      FlagPosts(s, a, c);
    }
  }

  lemma FlagPosts(s: System, a: Action, c: ConnId)
    requires Inv(s) && Enabled(s, a) && a.UserShutdown? && c in s.conns && OpsOn(s, a, c) != []
    requires C.ValidRun(s.conns[c], OpsOn(s, a, c))
    ensures PostedBy(s, a, c) == []
  {
    if |OpsOn(s, a, c)| == 2 {
      ShutdownPosts(s.conns[c]);
    } else {
      PostedByOne(s.conns[c], C.ShutdownFlag);
    }
  }

  lemma DestroyServerNotices(s: System, d: ConnId, c: ConnId)
    requires Inv(s) && Enabled(s, DestroyServer(d)) && c in s.conns
    requires C.ValidRun(s.conns[c], OpsOn(s, DestroyServer(d), c))
    ensures NoticesIn(Added(s, DestroyServer(d), s.conns[c].loop), c) == PostedBy(s, DestroyServer(d), c)
  {
    if s.conns[d].loop == 0 {
      NoticesOfPosts(s.conns[d], d, C.Destroy, c);
      if d == c {
        OpsInOrder(s, DestroyServer(d), c);
        PostedByOne(s.conns[c], C.Destroy);
      }
    } else {
      NoNotices([Destroyed(d)], c);
    }
  }

  lemma OtherNotices(s: System, a: Action, c: ConnId)
    requires Inv(s) && Enabled(s, a) && c in s.conns
    requires !a.RunOp? && !a.RunTask? && !a.UserSend? && !a.UserShutdown? && !a.DestroyServer?
    ensures NoticesIn(Added(s, a, s.conns[c].loop), c) == [] && OpsOn(s, a, c) == []
  {
    if a.Deliver? {
      assert s.inflight[a.i] in s.inflight;
    }
    NoNotices(Added(s, a, s.conns[c].loop), c);
  }

  /** What the operations of a step post is queued on the connection's loop, and nothing else
      of the kind. */
  lemma StepNotices(s: System, a: Action, c: ConnId)
    requires Inv(s) && Enabled(s, a) && c in s.conns && C.ValidRun(s.conns[c], OpsOn(s, a, c))
    ensures NoticesIn(Added(s, a, s.conns[c].loop), c) == PostedBy(s, a, c)
  {
    if a.RunOp? {
      HandlerNotices(s, a.l, a.read, a.wr, c);
    } else if a.RunTask? {
      FunctorNotices(s, a.l, a.wr, c);
    } else if a.UserSend? {
      SendNotices(s, a, c);
    } else if a.UserShutdown? {
      ShutdownNotices(s, a, c);
    } else if a.DestroyServer? {
      DestroyServerNotices(s, a.c, c);
    } else {
      OtherNotices(s, a, c);
    }
  }

  // Over runs.

  lemma StrangersPostNothing(s: System, a: Action, l: nat, c: ConnId)
    requires Inv(s) && Enabled(s, a) && l < |s.loops| && c !in s.conns
    ensures NoticesIn(Added(s, a, l), c) == []
  {
    if a.UserQueue? || a.Deliver? || a.Accept? {
      if a.Deliver? {
        assert s.inflight[a.i] in s.inflight;
      }
    } else if a.RunOp? {
      StrangerToHandler(s, a.l, a.read, a.wr, c);
    } else if a.RunTask? {
      StrangerToFunctor(s, a.l, a.wr, c);
    } else if a.UserSend? {
      PostsAreNotices(s.conns[a.c], a.c, C.Send(a.data, a.wr));
    } else if a.DestroyServer? {
      PostsAreNotices(s.conns[a.c], a.c, C.Destroy);
    }
    NoNotices(Added(s, a, l), c);
  }

  lemma StrangerToHandler(s: System, l: nat, read: ReadAnswer, wr: WriteResult, c: ConnId)
    requires Enabled(s, RunOp(l, read, wr)) && c !in s.conns
    ensures forall f :: f in HandlerMove(s, l, read, wr).fs ==> !NoticeOf(f, c)
  {
    var d, op := s.loops[l].frame.c, s.loops[l].frame.ops[0];
    if op in {DoDetach, Handle(CloseCallback), Handle(WriteCallback)} {
      PostsAreNotices(s.conns[d], d, HandlerOp(op, wr));
    }
  }

  lemma StrangerToFunctor(s: System, l: nat, wr: WriteResult, c: ConnId)
    requires Enabled(s, RunTask(l, wr)) && c !in s.conns
    ensures forall f :: f in FunctorMove(s, l, wr).fs ==> !NoticeOf(f, c)
  {
    match s.loops[l].batch[s.loops[l].pos]
    case Established(d) => PostsAreNotices(s.conns[d], d, C.Establish);
    case Destroyed(d) => PostsAreNotices(s.conns[d], d, C.Destroy);
    case SendTask(d, data) => PostsAreNotices(s.conns[d], d, C.Send(data, wr));
    case ShutdownTask(d) => PostsAreNotices(s.conns[d], d, C.ShutdownRun);
    case _ =>
  }

  lemma {:induction false} NonePostedBefore(s: System, acts: seq<Action>, l: nat, c: ConnId)
    requires Initial(s) && ValidRun(s, acts) && l < |s.loops| && c !in End(s, acts).conns
    ensures NoticesIn(EverQueued(s, acts, l), c) == []
    decreases |acts|
  {
    if acts == [] {
      assert EverQueued(s, [], l) == [];
    } else {
      var before, a := acts[..|acts| - 1], acts[|acts| - 1];
      var e := End(s, before);
      ReachableInv(s, before);
      LoopsStay(s, before);
      if c in e.conns {
        PlaceKept(e, a, c);
      }
      NonePostedBefore(s, before, l, c);
      QueuedIs(s, acts, l);
      StrangersPostNothing(e, a, l, c);
      NoticesAdd(EverQueued(s, before, l), Added(e, a, l), c);
    }
  }

  /** The newcomer has posted nothing: it is fresh, or just established. */
  lemma BornQuiet(k: C.Conn, ops: seq<C.Op>)
    requires C.ValidRun(k, ops) && (ops == [] || ops == [C.Establish])
    ensures C.Posted(k, ops) == []
  {
    if ops != [] {
      assert [C.Establish][..0] == [];
    }
  }

  /** Every callback a connection posts is queued on its loop, in the order of posting and once
      each, and so run there in its turn: the callbacks of the connection among all the functors
      the loop ran or has still to run are exactly those of its own run. */
  lemma {:induction false} NoticesDelivered(s: System, acts: seq<Action>, c: ConnId) returns (k: C.Conn, ops: seq<C.Op>)
    requires Initial(s) && ValidRun(s, acts) && c in End(s, acts).conns
    ensures Leads(End(s, acts), c, k, ops)
    ensures NoticesIn(EverQueued(s, acts, End(s, acts).conns[c].loop), c) == C.Posted(k, ops)
    decreases |acts|
  {
    var before, a := acts[..|acts| - 1], acts[|acts| - 1];
    var e := End(s, before);
    ReachableInv(s, before);
    LoopsStay(s, before);
    if c in e.conns {
      k, ops := NoticesDelivered(s, before, c);
      LeadsOn(e, a, c, k, ops);
      StepProjects(e, a, c);
      PostsGrow(s, acts, c, k, ops);
      ops := ops + OpsOn(e, a, c);
    } else {
      OnlyAcceptAdds(e, a, c);
      StepSameLoops(e, a);
      k, ops := Born(e, a);
      NewcomerPosts(s, acts, c);
      BornQuiet(k, ops);
    }
  }

  lemma PostsGrow(s: System, acts: seq<Action>, c: ConnId, k: C.Conn, ops: seq<C.Op>)
    requires Initial(s) && ValidRun(s, acts) && acts != []
    requires var e := End(s, acts[..|acts| - 1]);
             && Inv(e) && |e.loops| == |s.loops| && c in e.conns
             && C.ValidRun(k, ops) && C.After(k, ops) == e.conns[c]
             && C.ValidRun(e.conns[c], OpsOn(e, acts[|acts| - 1], c))
             && NoticesIn(EverQueued(s, acts[..|acts| - 1], e.conns[c].loop), c) == C.Posted(k, ops)
    ensures var e := End(s, acts[..|acts| - 1]);
            && C.ValidRun(k, ops + OpsOn(e, acts[|acts| - 1], c))
            && c in End(s, acts).conns
            && NoticesIn(EverQueued(s, acts, End(s, acts).conns[c].loop), c)
               == C.Posted(k, ops + OpsOn(e, acts[|acts| - 1], c))
  {
    var before, a := acts[..|acts| - 1], acts[|acts| - 1];
    var e := End(s, before);
    var l := e.conns[c].loop;
    PlaceKept(e, a, c);
    QueuedIs(s, acts, l);
    NoticesAdd(EverQueued(s, before, l), Added(e, a, l), c);
    StepNotices(e, a, c);
    if OpsOn(e, a, c) != [] {
      AtMostTwo(e, a, c);
    }
    PostsFew(k, ops, e.conns[c], OpsOn(e, a, c));
  }

  lemma PostsFew(k: C.Conn, ops: seq<C.Op>, d: C.Conn, more: seq<C.Op>)
    requires C.ValidRun(k, ops) && C.After(k, ops) == d && C.ValidRun(d, more)
    requires |more| <= 1 || more == [C.ShutdownFlag, C.ShutdownRun]
    ensures C.ValidRun(k, ops + more) && C.Posted(k, ops + more) == C.Posted(k, ops) + C.Posted(d, more)
  {
    if more == [] {
      C.PostsNone(k, ops, d, C.Posted(k, ops));
    } else if |more| == 1 {
      assert more == [more[0]];
      FirstIsEnabled(d, more);
      PostedByOne(d, more[0]);
      C.PostsSnoc(k, ops, d, C.Posted(k, ops), more[0], C.Apply(d, more[0]).conn, C.Apply(d, more[0]).posts);
    } else {
      FlagAdds(k, ops, d);
      RunAdds(k, ops + [C.ShutdownFlag], C.Apply(d, C.ShutdownFlag).conn, C.Posted(k, ops));
      ShutdownPosts(d);
      assert ops + more == ops + [C.ShutdownFlag] + [C.ShutdownRun];
    }
  }

  lemma FlagAdds(k: C.Conn, ops: seq<C.Op>, d: C.Conn)
    requires C.ValidRun(k, ops) && C.After(k, ops) == d && C.ValidRun(d, [C.ShutdownFlag, C.ShutdownRun])
    ensures C.Posts(k, ops + [C.ShutdownFlag], C.Apply(d, C.ShutdownFlag).conn, C.Posted(k, ops))
    ensures C.Enabled(C.Apply(d, C.ShutdownFlag).conn, C.ShutdownRun)
  {
    ShutdownPosts(d);
    C.PostsSnoc(k, ops, d, C.Posted(k, ops), C.ShutdownFlag, C.Apply(d, C.ShutdownFlag).conn, []);
    assert C.Posted(k, ops) + [] == C.Posted(k, ops);
  }

  lemma RunAdds(k: C.Conn, ops: seq<C.Op>, d: C.Conn, posts: seq<C.Notice>)
    requires C.Posts(k, ops, d, posts) && C.Enabled(d, C.ShutdownRun)
    ensures C.ValidRun(k, ops + [C.ShutdownRun]) && C.Posted(k, ops + [C.ShutdownRun]) == posts
  {
    C.PostsSnoc(k, ops, d, posts, C.ShutdownRun, C.Apply(d, C.ShutdownRun).conn, []);
    assert posts + [] == posts;
  }

  lemma FirstIsEnabled(d: C.Conn, more: seq<C.Op>)
    requires |more| == 1 && C.ValidRun(d, more)
    ensures C.Enabled(d, more[0])
  {
    assert more[..0] == [];
  }

  lemma ShutdownPosts(d: C.Conn)
    requires C.ValidRun(d, [C.ShutdownFlag, C.ShutdownRun])
    ensures C.Enabled(d, C.ShutdownFlag)
    ensures C.Posted(d, [C.ShutdownFlag, C.ShutdownRun]) == []
  {
    var two := [C.ShutdownFlag, C.ShutdownRun];
    assert two[..1] == [C.ShutdownFlag];
    FirstIsEnabled(d, [C.ShutdownFlag]);
    PostedByOne(d, C.ShutdownFlag);
  }

  lemma NewcomerPosts(s: System, acts: seq<Action>, c: ConnId)
    requires Initial(s) && ValidRun(s, acts) && acts != []
    requires var e := End(s, acts[..|acts| - 1]);
             Inv(e) && |e.loops| == |s.loops| && c !in e.conns && acts[|acts| - 1].Accept? && c == e.nextId
    ensures c in End(s, acts).conns && NoticesIn(EverQueued(s, acts, End(s, acts).conns[c].loop), c) == []
  {
    var before, a := acts[..|acts| - 1], acts[|acts| - 1];
    var e := End(s, before);
    NewEntry(e, a);
    var l := End(s, acts).conns[c].loop;
    PlaceFits(|e.loops| - 1, c);
    NonePostedBefore(s, before, l, c);
    QueuedIs(s, acts, l);
    StrangersPostNothing(e, a, l, c);
    NoticesAdd(EverQueued(s, before, l), Added(e, a, l), c);
  }
}
