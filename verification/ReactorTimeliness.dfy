/** Which runs keep every registered channel owned, and what keeps a server inside them. */
module ReactorTimeliness {
  import opened Registration
  import opened ByteBuffer
  import opened Reactor
  import opened ReactorInvariant
  import opened ReactorMoves
  import opened ReactorSteps
  import opened ReactorRemovals
  import opened ReactorOwnership
  import opened ReactorRuns
  import opened ReactorSafety
  import C = Connection

  ghost predicate SecuredThroughout(s: System, acts: seq<Action>)
    requires ValidRun(s, acts)
    decreases |acts|
  {
    Secured(End(s, acts)) && (acts == [] || SecuredThroughout(s, acts[..|acts| - 1]))
  }

  /** An untimely send leaves a registered channel that nobody is going to remove. */
  lemma UntimelyBreaks(s: System, a: Action)
    requires Inv(s) && Accounted(s) && Enabled(s, a) && !Timely(s, a)
    ensures !Secured(Do(s, a))
  {
    var f := s.loops[a.l].batch[s.loops[a.l].pos];
    assert Account(s, f.c);
    StepKeeps(s, a);
    DueKept(s, a, f.c);
    LateSendRegisters(s, a.l, a.wr);
    NotRemoving(Do(s, a), f.c);
  }

  lemma LateSendRegisters(s: System, l: nat, wr: WriteResult)
    requires Inv(s) && Enabled(s, RunTask(l, wr)) && !Timely(s, RunTask(l, wr))
    ensures var s', f := DoRunTask(s, l, wr), s.loops[l].batch[s.loops[l].pos];
            && f.c in s'.conns && s'.conns[f.c].index != KNew && s'.conns[f.c].state == C.kDisconnecting
  {
    var f := s.loops[l].batch[s.loops[l].pos];
    assert ConnOk(s, f.c);
    RunTaskPerforms(s, l, wr, f.c);
    C.LateSendReRegistersIff(s.conns[f.c], f.data, wr);
  }

  lemma NotRemoving(s: System, c: ConnId)
    requires Inv(s) && c in s.conns && s.conns[c].state != C.kDisconnected
    ensures !Removing(s, c)
  {
    assert LoopOk(s.conns, 0, s.loops[0]) && LoopOk(s.conns, s.conns[c].loop, s.loops[s.conns[c].loop]);
    assert RemoveInLoop(c) in Rest(s.loops[0]) ==> TaskOk(s.conns, 0, RemoveInLoop(c));
  }

  /** In every reachable state a send that meets the guard finds no removal due any more. */
  lemma GuardMeansNoTicket(s: System, c: ConnId, data: seq<Byte>, wr: WriteResult)
    requires Inv(s) && Accounted(s) && c in s.conns && C.ReRegisters(s.conns[c], data, wr)
    ensures !Ticket(s, c)
  {
    assert Account(s, c);
    NotRemoving(s, c);
  }

  /** A step keeps the removal of every registered channel due exactly when it is timely. */
  lemma TimelyIsExact(s: System, a: Action)
    requires Inv(s) && Accounted(s) && Secured(s) && Enabled(s, a)
    ensures Secured(Do(s, a)) <==> Timely(s, a)
  {
    if Timely(s, a) {
      StepKeeps(s, a);
      StepAccounted(s, a);
      StepSecured(s, a);
    } else {
      UntimelyBreaks(s, a);
    }
  }

  /** Every registered channel has its removal due throughout a run exactly when the run is
      timely. */
  lemma {:induction false} TimelyIffSecured(s: System, acts: seq<Action>)
    requires Initial(s) && ValidRun(s, acts)
    ensures TimelyRun(s, acts) <==> SecuredThroughout(s, acts)
    decreases |acts|
  {
    if acts == [] {
      InitialOwned(s);
    } else {
      var before := acts[..|acts| - 1];
      TimelyIffSecured(s, before);
      if SecuredThroughout(s, before) {
        ReachableInv(s, before);
        SecuredLast(s, before);
        TimelyIsExact(End(s, before), acts[|acts| - 1]);
      }
    }
  }

  lemma SecuredLast(s: System, acts: seq<Action>)
    requires ValidRun(s, acts) && SecuredThroughout(s, acts)
    ensures Secured(End(s, acts))
  {}

  /** No loop has anything left to do, and no user holds a reference. */
  ghost predicate Drained(s: System) {
    && (forall l :: 0 <= l < |s.loops| ==>
          s.loops[l].frame.NoFrame? && s.loops[l].batch == [] && s.loops[l].pending == [])
    && s.held == {}
  }

  /** Once everything has come to rest, every registered channel is owned exactly if its
      removal is due: a channel whose removal was lost has lost its owner. */
  lemma OwnedAtRestIff(s: System, acts: seq<Action>)
    requires Initial(s) && ValidRun(s, acts) && Drained(End(s, acts))
    ensures var e := End(s, acts);
            (forall c :: c in e.conns && e.conns[c].index != KNew ==> Alive(e, c)) <==> Secured(e)
  {
    var e := End(s, acts);
    ReachableInv(s, acts);
    forall c | c in e.conns ensures Alive(e, c) <==> Ticket(e, c) {
      DrainedOwner(e, c);
    }
  }

  lemma DrainedLoop(lp: Loop, c: ConnId)
    requires lp.frame.NoFrame? && lp.batch == [] && lp.pending == [] && lp.pos <= |lp.batch|
    ensures !HoldsOn(lp, c) && Rest(lp) == [] && Going(lp, c) == 0 && !Closing(lp, c)
  {}

  lemma DrainedOwner(e: System, c: ConnId)
    requires Placed(e) && Drained(e) && c in e.conns
    ensures Alive(e, c) <==> Ticket(e, c)
  {
    DrainedLoop(e.loops[e.conns[c].loop], c);
    DrainedLoop(e.loops[0], c);
    DrainedRefs(e, c);
  }

  lemma DrainedRefs(e: System, c: ConnId)
    requires Placed(e) && Drained(e)
    ensures Alive(e, c) <==> c in e.connections
  {
    forall m | 0 <= m < |e.loops| ensures !HoldsOn(e.loops[m], c) {
      DrainedLoop(e.loops[m], c);
    }
  }

  /** The guard, without the kernel's answer: a queued send can be run safely whatever the
      kernel answers exactly when its connection is not half-closing with the channel removed,
      nothing buffered and the write half open, or the message is empty. */
  lemma SafeWhateverAnsweredIff(s: System, l: nat, wr: WriteResult)
    requires Inv(s) && Accounted(s) && Secured(s) && Enabled(s, RunTask(l, wr))
    requires s.loops[l].batch[s.loops[l].pos].SendTask?
    ensures var f := s.loops[l].batch[s.loops[l].pos];
            (forall w :: Enabled(s, RunTask(l, w)) ==> Secured(Do(s, RunTask(l, w))))
            <==> !C.Exposed(s.conns[f.c], f.data)
  {
    var f := s.loops[l].batch[s.loops[l].pos];
    C.ExposedIff(s.conns[f.c], f.data);
    forall w | Enabled(s, RunTask(l, w))
      ensures Secured(Do(s, RunTask(l, w))) <==> !C.ReRegisters(s.conns[f.c], f.data, w)
    {
      TimelyIsExact(s, RunTask(l, w));
    }
    if C.Exposed(s.conns[f.c], f.data) {
      var w :| C.Answers(s.conns[f.c], |f.data|, w) && C.ReRegisters(s.conns[f.c], f.data, w);
      assert Enabled(s, RunTask(l, w));
    }
  }

  // A server that is not destroyed.

  /** No step destroys the server. */
  predicate Serving(acts: seq<Action>) {
    forall a :: a in acts ==> !a.DestroyServer?
  }

  /** Every connection is in the server's map, or down. */
  ghost predicate Listed(s: System) {
    forall c :: c in s.conns ==> c in s.connections || s.conns[c].state == C.kDisconnected
  }

  lemma StepListed(s: System, a: Action)
    requires Inv(s) && Listed(s) && Enabled(s, a) && !a.DestroyServer?
    ensures Listed(Do(s, a))
  {
    var s' := Do(s, a);
    forall c | c in s'.conns ensures c in s'.connections || s'.conns[c].state == C.kDisconnected {
      if c !in s.conns {
        OnlyAcceptAdds(s, a, c);
        NewEntry(s, a);
      } else {
        EntryStays(s, a, c);
      }
    }
  }

  lemma EntryStays(s: System, a: Action, c: ConnId)
    requires Inv(s) && Listed(s) && Enabled(s, a) && !a.DestroyServer? && c in s.conns
    ensures c in Do(s, a).conns && (c in Do(s, a).connections || Do(s, a).conns[c].state == C.kDisconnected)
  {
    PlaceKept(s, a, c);
    StepKeeps(s, a);
    if HandsOver(s, a, c) {
      HandOverStays(s, a, c);
    } else {
      EntriesKept(s, a, c);
    }
  }

  lemma HandOverStays(s: System, a: Action, c: ConnId)
    requires Inv(s) && Enabled(s, a) && !a.DestroyServer? && c in s.conns && HandsOver(s, a, c)
    requires Placed(Do(s, a))
    ensures (c in s.connections ==> c in Do(s, a).connections) || s.conns[c].state == C.kDisconnected
  {
    match a
    case RunOp(l, read, wr) =>
      if s.loops[l].frame.ops[0] == PostRemove {
        CallbackAccount(s, l, read, wr);
      } else {
        DetachLoops(s, l, read, wr);
      }
    case RunTask(l, wr) => RemovedAccount(s, l, wr);
  }

  lemma {:induction false} ServingListed(s: System, acts: seq<Action>)
    requires Initial(s) && ValidRun(s, acts) && Serving(acts)
    ensures Listed(End(s, acts))
    decreases |acts|
  {
    if acts != [] {
      var before := acts[..|acts| - 1];
      ServingListed(s, before);
      ReachableInv(s, before);
      StepListed(End(s, before), acts[|acts| - 1]);
    }
  }

  /** As long as the server lives, no send can come too late: every theorem about timely runs
      holds without assumption. */
  lemma {:induction false} ServingIsTimely(s: System, acts: seq<Action>)
    requires Initial(s) && ValidRun(s, acts) && Serving(acts)
    ensures TimelyRun(s, acts)
    decreases |acts|
  {
    if acts != [] {
      var before, a := acts[..|acts| - 1], acts[|acts| - 1];
      ServingIsTimely(s, before);
      ServingListed(s, before);
      ReachableInv(s, before);
      ListedIsTimely(End(s, before), a);
    }
  }

  lemma ListedIsTimely(s: System, a: Action)
    requires Inv(s) && Accounted(s) && Listed(s) && Enabled(s, a)
    ensures Timely(s, a)
  {
    assert forall c :: c in s.conns ==> Account(s, c);
  }

  /** Ownership on a server that is not destroyed. */
  lemma ServingOwnership(s: System, acts: seq<Action>, l: nat, fd: int)
    requires Initial(s) && ValidRun(s, acts) && Serving(acts)
    requires l < |End(s, acts).pollers| && fd in End(s, acts).pollers[l].channels
    ensures EntryOwned(End(s, acts), l, fd)
  {
    ServingIsTimely(s, acts);
    Ownership(s, acts, l, fd);
  }

  /** On a server that is not destroyed nothing gets stuck, and every `epoll_ctl` succeeds. */
  lemma ServingUnstuck(s: System, acts: seq<Action>, a: Action, c: ConnId)
    requires Initial(s) && ValidRun(s, acts) && Serving(acts)
    ensures c in End(s, acts).conns ==> Unstuck(End(s, acts), c)
    ensures Enabled(End(s, acts), a) && Operates(End(s, acts), a, c) ==> CtlOk(End(s, acts), a, c)
  {
    ServingIsTimely(s, acts);
    if c in End(s, acts).conns {
      NothingStuck(s, acts, c);
    }
    if Enabled(End(s, acts), a) && Operates(End(s, acts), a, c) {
      EpollCtlLegal(s, acts, a, c);
    }
  }

  /** On a server that is not destroyed the pointers of a poll stay valid, and a removal takes
      away its own entry only. */
  lemma ServingDispatch(s: System, acts: seq<Action>, l: nat, k: nat, read: ReadAnswer, wr: WriteResult, fd: int, d: ConnId)
    requires Initial(s) && ValidRun(s, acts) && Serving(acts) && l < |End(s, acts).loops|
    ensures var e := End(s, acts); k < |e.loops[l].active| ==> Alive(e, e.loops[l].active[k].c)
    ensures Detaches(End(s, acts), l, read, wr, fd, d) ==>
              StaysMapped(DoRunOp(End(s, acts), l, read, wr), l, fd, d)
  {
    ServingIsTimely(s, acts);
    if k < |End(s, acts).loops[l].active| {
      ActiveChannelsAlive(s, acts, l, k);
    }
    if Detaches(End(s, acts), l, read, wr, fd, d) {
      RemovalIsExact(s, acts, l, read, wr, fd, d);
    }
  }

  /** On a server that is not destroyed, at rest, the map and the pollers hold the same
      connections. */
  lemma ServingRegistry(s: System, acts: seq<Action>, c: ConnId)
    requires Initial(s) && ValidRun(s, acts) && Serving(acts) && AtRest(End(s, acts)) && c in End(s, acts).conns
    ensures c in End(s, acts).connections <==> End(s, acts).conns[c].index != KNew
  {
    ServingIsTimely(s, acts);
    RegistryIsExact(s, acts, c);
  }
}
