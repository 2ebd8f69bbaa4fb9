/** The class `TcpServer`: the map of connections, and what it puts on which loop.

    A connection is known here by its number `c`; its `nextConnId_` is `c + 1`. `queues` are
    the pending functors of the loops, the main loop's first. All methods but
    `RemoveConnection` run on the main loop's thread. */
module TcpServerClass {
  import opened Reactor
  import opened ThreadPool
  import opened ServerNames
  import C = Connection

  /** The functors the destructor leaves on loop `l`, visiting connections in this order. */
  function DestroyTasks(order: seq<ConnId>, loopOf: map<ConnId, nat>, l: nat): seq<Task> {
    if order == [] then []
    else
      var c := order[|order| - 1];
      DestroyTasks(order[..|order| - 1], loopOf, l)
      + if c in loopOf && loopOf[c] == l && l != 0 then [Destroyed(c)] else []
  }

  /** The connection numbers in the map. */
  function Known(m: map<string, ConnId>): set<ConnId> {
    set k | k in m :: m[k]
  }

  /** Taking out the one entry of `c` takes out `c`. */
  lemma EntryRemoved(m: map<string, ConnId>, name: string, c: ConnId)
    requires forall k :: k in m ==> (k == name <==> m[k] == c)
    ensures Known(m - {name}) == Known(m) - {c}
  {
    var n := m - {name};
    forall d: ConnId | d in Known(m) && d != c ensures d in Known(n) {
      var k :| k in m && m[k] == d;
      assert k in n;
    }
  }

  lemma EntryAdded(m: map<string, ConnId>, name: string, c: ConnId)
    requires name !in m
    ensures Known(m[name := c]) == Known(m) + {c}
  {
    var n := m[name := c];
    assert name in n && n[name] == c;
    forall d | d in Known(m) ensures d in Known(n) {
      var k :| k in m && m[k] == d;
      assert k in n;
    }
  }

  /** The server's part of the machine: its map, its queues, and the loops of its
      connections. */
  ghost predicate StandsFor(s: System, entries: set<ConnId>, queues: seq<seq<Task>>, loopOf: map<ConnId, nat>, next: nat)
  {
    && s.connections == entries
    && |s.loops| == |queues| && (forall l :: 0 <= l < |queues| ==> s.loops[l].pending == queues[l])
    && s.conns.Keys == loopOf.Keys && (forall c :: c in loopOf ==> s.conns[c].loop == loopOf[c])
    && s.nextId + 1 == next
  }

  /** Wherever the server stands before the machine's `newConnection`, it stands so after it. */
  ghost predicate Accepts(entries: set<ConnId>, queues: seq<seq<Task>>, loopOf: map<ConnId, nat>, next: nat,
                          entries': set<ConnId>, queues': seq<seq<Task>>, loopOf': map<ConnId, nat>, next': nat)
  {
    forall s: System, a: Reactor.Action ::
      StandsFor(s, entries, queues, loopOf, next) && |s.loops| == |s.pollers| && a.Accept? && Reactor.Enabled(s, a) ==>
        StandsFor(DoAccept(s, a), entries', queues', loopOf', next')
  }

  class TcpServer {
    const name: string
    const address: Address
    const threadPool: EventLoopThreadPool
    var nextConnId: nat
    var connections: map<string, ConnId>
    /** `name()` and `getLoop()` of every connection ever made. */
    var names: map<ConnId, string>
    var loopOf: map<ConnId, nat>
    var queues: seq<seq<Task>>

    function NameOf(c: ConnId): string {
      ConnName(name, IpPort(address), c + 1)
    }

    /** Every connection has its own name, and its loop is the round robin's. */
    ghost predicate NamesOk()
      reads this
    {
      && (forall c: ConnId :: c in names <==> c + 1 < nextConnId)
      && (forall c {:trigger NameOf(c)} :: c in names ==> names[c] == NameOf(c))
      && (forall c, d :: c in names && d in names && names[c] == names[d] ==> c == d)
    }

    ghost predicate LoopsOk()
      reads this, threadPool
    {
      && |queues| == |threadPool.loops| + 1
      && loopOf.Keys == names.Keys
      && (forall c :: c in loopOf ==> loopOf[c] == Place(|threadPool.loops|, c) < |queues|)
    }

    ghost predicate EntriesOk()
      reads this
    {
      forall k :: k in connections ==> connections[k] in names && k == names[connections[k]]
    }

    ghost predicate Valid()
      reads this, threadPool
    {
      && threadPool.Valid() && address.Ok()
      && nextConnId == threadPool.calls + 1 <= INT_LIMIT
      && NamesOk() && LoopsOk() && EntriesOk()
    }

    /** The server as it stands in the whole machine. */
    ghost predicate Stands(s: System)
      reads this
    {
      StandsFor(s, Known(connections), queues, loopOf, nextConnId)
    }

    constructor (name: string, address: Address, threadPool: EventLoopThreadPool)
      requires address.Ok() && threadPool.Valid() && threadPool.calls == 0
      ensures Valid() && connections == map[] && nextConnId == 1
      ensures this.threadPool == threadPool && queues == seq(|threadPool.loops| + 1, _ => [])
    {
      this.name := name;
      this.address := address;
      this.threadPool := threadPool;
      nextConnId := 1;
      connections := map[];
      names := map[];
      loopOf := map[];
      queues := seq(|threadPool.loops| + 1, _ => []);
    }

    method Queue(l: nat, f: Task)
      requires l < |queues|
      modifies this`queues
      ensures queues == old(queues)[l := old(queues)[l] + [f]]
    {
      queues := queues[l := queues[l] + [f]];
    }

    lemma OwnName(c: ConnId, d: ConnId)
      requires address.Ok() && c + 1 < INT_LIMIT && d + 1 < INT_LIMIT
      ensures NameOf(c) == NameOf(d) <==> c == d
    {
      var ipPort, i, j := IpPort(address), c + 1, d + 1;
      NamesDiffer(name, address, i, j);
      assert NameOf(c) == ConnName(name, ipPort, i) && NameOf(d) == ConnName(name, ipPort, j);
    }

    /** A number not used before gives a name not used before. */
    lemma FreshName(c: ConnId)
      requires NamesOk() && address.Ok() && c + 1 == nextConnId < INT_LIMIT
      ensures forall d :: d in names ==> names[d] != NameOf(c)
    {
      forall d | d in names ensures names[d] != NameOf(c) {
        OwnName(c, d);
      }
    }

    /** The next connection: a name never used before, the loop the round robin picks, and
        `connectEstablished` queued there, or run at once when that is the main loop. */
    method NewConnection() returns (c: ConnId, ioLoop: nat, ranNow: bool)
      requires Valid() && nextConnId < INT_LIMIT
      modifies this`nextConnId, this`connections, this`names, this`loopOf, this`queues
      modifies threadPool`next, threadPool`calls
      ensures Valid()
      ensures c + 1 == old(nextConnId) && nextConnId == old(nextConnId) + 1
      ensures names == old(names)[c := NameOf(c)] && c !in old(names)
      ensures names[c] !in old(connections) && connections == old(connections)[names[c] := c]
      ensures Known(connections) == Known(old(connections)) + {c}
      ensures ioLoop == Place(|threadPool.loops|, c) && loopOf == old(loopOf)[c := ioLoop]
      ensures ranNow <==> ioLoop == 0
      ensures ioLoop < |old(queues)|
      ensures queues == if ranNow then old(queues)
                        else old(queues)[ioLoop := old(queues)[ioLoop] + [Established(c)]]
      ensures Accepts(old(Known(connections)), old(queues), old(loopOf), old(nextConnId),
                      Known(connections), queues, loopOf, nextConnId)
    {
      c, ioLoop, ranNow := Admit();
      AcceptsOn(old(Known(connections)), old(queues), old(loopOf), old(nextConnId), ioLoop);
    }

    method Admit() returns (c: ConnId, ioLoop: nat, ranNow: bool)
      requires Valid() && nextConnId < INT_LIMIT
      modifies this`nextConnId, this`connections, this`names, this`loopOf, this`queues
      modifies threadPool`next, threadPool`calls
      ensures Valid()
      ensures c + 1 == old(nextConnId) && nextConnId == old(nextConnId) + 1
      ensures names == old(names)[c := NameOf(c)] && c !in old(names)
      ensures names[c] !in old(connections) && connections == old(connections)[names[c] := c]
      ensures Known(connections) == Known(old(connections)) + {c}
      ensures ioLoop == Place(|threadPool.loops|, c) && loopOf == old(loopOf)[c := ioLoop]
      ensures ranNow <==> ioLoop == 0
      ensures ioLoop < |old(queues)|
      ensures queues == if ranNow then old(queues)
                        else old(queues)[ioLoop := old(queues)[ioLoop] + [Established(c)]]
    {
      ioLoop := threadPool.GetNextLoop();
      c := nextConnId - 1;
      FreshName(c);
      Register(c, ioLoop);
      ranNow := ioLoop == 0;
      if !ranNow {
        Queue(ioLoop, Established(c));
      }
    }

    /** The name, the entry and the loop of a new connection. */
    method Register(c: ConnId, ioLoop: nat)
      requires NamesOk() && LoopsOk() && EntriesOk() && c + 1 == nextConnId
      requires forall d :: d in names ==> names[d] != NameOf(c)
      requires ioLoop == Place(|threadPool.loops|, c)
      modifies this`nextConnId, this`connections, this`names, this`loopOf
      ensures NamesOk() && LoopsOk() && EntriesOk() && ioLoop < |queues|
      ensures nextConnId == old(nextConnId) + 1
      ensures names == old(names)[c := NameOf(c)] && c !in old(names)
      ensures names[c] !in old(connections) && connections == old(connections)[names[c] := c]
      ensures Known(connections) == Known(old(connections)) + {c}
      ensures loopOf == old(loopOf)[c := ioLoop]
    {
      var connName := NameOf(c);
      Name(c, connName);
      Enter(c, connName);
      loopOf := loopOf[c := ioLoop];
    }

    method Name(c: ConnId, connName: string)
      requires NamesOk() && EntriesOk() && c + 1 == nextConnId && connName == NameOf(c)
      requires forall d :: d in names ==> names[d] != connName
      modifies this`nextConnId, this`names
      ensures NamesOk() && EntriesOk() && nextConnId == old(nextConnId) + 1
      ensures names == old(names)[c := connName] && c !in old(names)
      ensures connName !in connections
    {
      nextConnId := nextConnId + 1;
      names := names[c := connName];
    }

    method Enter(c: ConnId, connName: string)
      requires EntriesOk() && c in names && names[c] == connName && connName !in connections
      modifies this`connections
      ensures EntriesOk() && connections == old(connections)[connName := c]
      ensures Known(connections) == Known(old(connections)) + {c}
    {
      EntryAdded(connections, connName, c);
      connections := connections[connName := c];
    }

    /** The server forgets `c` and no other connection, and `c`'s own loop is told to destroy
        it. */
    ghost predicate Removed(was: map<string, ConnId>, q: seq<seq<Task>>, c: ConnId)
      requires c in loopOf && loopOf[c] < |q|
      reads this
    {
      && Known(connections) == Known(was) - {c}
      && queues == q[loopOf[c] := q[loopOf[c]] + [Destroyed(c)]]
    }

    /** From the connection's own loop: at once on the main loop, through its queue from any
        other. */
    method RemoveConnection(c: ConnId, onMainLoop: bool)
      requires Valid() && c in names
      modifies this`connections, this`queues
      ensures Valid()
      ensures onMainLoop ==> Removed(old(connections), old(queues), c)
      ensures !onMainLoop ==> connections == old(connections)
                              && queues == old(queues)[0 := old(queues)[0] + [RemoveInLoop(c)]]
      ensures forall s: System :: old(Stands(s)) && Reactor.Located(s, c) ==>
                Stands(if onMainLoop then Reactor.Forget(s, c) else Reactor.Append(s, 0, [RemoveInLoop(c)]))
    {
      if onMainLoop {
        RemoveConnectionInLoop(c);
      } else {
        Queue(0, RemoveInLoop(c));
      }
    }

    /** Whatever the rest of the machine, this is its step `Forget`. */
    method RemoveConnectionInLoop(c: ConnId)
      requires Valid() && c in names
      modifies this`connections, this`queues
      ensures Valid()
      ensures Removed(old(connections), old(queues), c)
      ensures forall s: System :: old(Stands(s)) && Reactor.Located(s, c) ==> Stands(Reactor.Forget(s, c))
    {
      EntryRemoved(connections, names[c], c);
      connections := connections - {names[c]};
      var ioLoop := loopOf[c];
      Queue(ioLoop, Destroyed(c));
    }

    /** The connections of `order` have been told to destroy themselves, once each. */
    ghost predicate Told(order: seq<ConnId>, was: map<string, ConnId>, q: seq<seq<Task>>)
      reads this
    {
      && (forall c :: c in order <==> c in Known(was) && c !in Known(connections))
      && (forall i, j :: 0 <= i < j < |order| ==> order[i] != order[j])
      && Known(connections) <= Known(was)
      && |queues| == |q|
      && (forall l :: 0 <= l < |queues| ==> queues[l] == q[l] + DestroyTasks(order, loopOf, l))
    }

    /** The destructor: every connection still known is destroyed once, on its own loop; those
        of the main loop at once, in the given order. */
    method Destroy() returns (order: seq<ConnId>)
      requires Valid()
      modifies this`connections, this`queues
      ensures connections == map[]
      ensures Told(order, old(connections), old(queues))
      ensures forall c :: c in order <==> c in Known(old(connections))
    {
      order := [];
      while connections != map[]
        invariant Valid() && Told(order, old(connections), old(queues))
        decreases connections.Keys
      {
        order := TakeNext(order, old(connections), old(queues));
      }
    }

    method TakeNext(order: seq<ConnId>, ghost was: map<string, ConnId>, ghost q: seq<seq<Task>>)
      returns (longer: seq<ConnId>)
      requires Valid() && connections != map[] && Told(order, was, q)
      modifies this`connections, this`queues
      ensures Valid() && Told(longer, was, q)
      ensures connections.Keys < old(connections).Keys
    {
      var c := TakeOne();
      longer := order + [c];
      LastTask(order, c, loopOf);
      OneMore(order, c, Known(was), old(Known(connections)), Known(connections));
    }

    method TakeOne() returns (c: ConnId)
      requires Valid() && connections != map[]
      modifies this`connections, this`queues
      ensures Valid() && c in Known(old(connections)) && c in loopOf
      ensures Known(connections) == Known(old(connections)) - {c}
      ensures connections.Keys < old(connections).Keys
      ensures |queues| == |old(queues)|
      ensures forall l :: 0 <= l < |queues| ==>
                queues[l] == old(queues)[l] + if loopOf[c] == l && l != 0 then [Destroyed(c)] else []
    {
      var k :| k in connections;
      c := connections[k];
      EntryRemoved(connections, k, c);
      connections := connections - {k};
      QueueDestroy(c);
    }

    /** The main loop's own connections are destroyed at once. */
    method QueueDestroy(c: ConnId)
      requires c in loopOf && loopOf[c] < |queues|
      modifies this`queues
      ensures |queues| == |old(queues)|
      ensures forall l :: 0 <= l < |queues| ==>
                queues[l] == old(queues)[l] + if loopOf[c] == l && l != 0 then [Destroyed(c)] else []
    {
      var ioLoop := loopOf[c];
      if ioLoop != 0 {
        Queue(ioLoop, Destroyed(c));
      }
    }
  }

  /** One connection more has been told. */
  lemma OneMore(order: seq<ConnId>, c: ConnId, was: set<ConnId>, before: set<ConnId>, after: set<ConnId>)
    requires before <= was && c in before && after == before - {c}
    requires forall d :: d in order <==> d in was && d !in before
    requires forall i, j :: 0 <= i < j < |order| ==> order[i] != order[j]
    ensures forall d :: d in order + [c] <==> d in was && d !in after
    ensures forall i, j :: 0 <= i < j < |order + [c]| ==> (order + [c])[i] != (order + [c])[j]
  {
    forall i, j | 0 <= i < j < |order + [c]| ensures (order + [c])[i] != (order + [c])[j] {
      assert order[i] in order;
    }
  }

  lemma LastTask(order: seq<ConnId>, c: ConnId, loopOf: map<ConnId, nat>)
    requires c in loopOf
    ensures forall l: nat :: DestroyTasks(order + [c], loopOf, l)
              == DestroyTasks(order, loopOf, l) + if loopOf[c] == l && l != 0 then [Destroyed(c)] else []
  {
    assert (order + [c])[..|order|] == order;
  }

  /** What the machine's `newConnection` does to the server's part of it. */
  lemma AcceptQueues(s: System, a: Reactor.Action)
    requires |s.loops| == |s.pollers| && a.Accept? && Reactor.Enabled(s, a)
    ensures var s', c, l := DoAccept(s, a), s.nextId, Place(|s.loops| - 1, s.nextId);
            && l < |s.loops| && s'.connections == s.connections + {c} && s'.nextId == c + 1
            && |s'.loops| == |s.loops|
            && (forall m :: 0 <= m < |s.loops| && (m != l || l == 0) ==> s'.loops[m].pending == s.loops[m].pending)
            && (l != 0 ==> s'.loops[l].pending == s.loops[l].pending + [Established(c)])
  {
    var c := s.nextId;
    if Place(|s.loops| - 1, c) == 0 {
      assert C.Apply(NewConn(a.fd, 0, a.mark, a.wc, a.hw), C.Establish).posts == [];
      assert Tasks(c, []) == [];
    }
  }

  lemma AcceptConns(s: System, a: Reactor.Action)
    requires |s.loops| == |s.pollers| && a.Accept? && Reactor.Enabled(s, a)
    ensures var s', c := DoAccept(s, a), s.nextId;
            && s'.conns.Keys == s.conns.Keys + {c} && s'.conns[c].loop == Place(|s.loops| - 1, c)
            && forall d :: d in s.conns && d != c ==> s'.conns[d].loop == s.conns[d].loop
  {}

  lemma AcceptStands(s: System, a: Reactor.Action, entries: set<ConnId>, queues: seq<seq<Task>>,
                     loopOf: map<ConnId, nat>, next: nat, l: nat)
    requires StandsFor(s, entries, queues, loopOf, next)
    requires |s.loops| == |s.pollers| && a.Accept? && Reactor.Enabled(s, a)
    requires l == Place(|queues| - 1, next - 1) && l < |queues|
    ensures var queued := if l == 0 then queues else queues[l := queues[l] + [Established(next - 1)]];
            StandsFor(DoAccept(s, a), entries + {next - 1}, queued, loopOf[next - 1 := l], next + 1)
  {
    AcceptQueues(s, a);
    AcceptConns(s, a);
    StandsAfter(s, DoAccept(s, a), entries, queues, loopOf, next, l);
  }

  lemma AcceptsOn(entries: set<ConnId>, queues: seq<seq<Task>>, loopOf: map<ConnId, nat>, next: nat, l: nat)
    requires next > 0 && 0 < |queues| && l == Place(|queues| - 1, next - 1) && l < |queues|
    ensures Accepts(entries, queues, loopOf, next, entries + {next - 1},
                    if l == 0 then queues else queues[l := queues[l] + [Established(next - 1)]],
                    loopOf[next - 1 := l], next + 1)
  {
    forall s: System, a: Reactor.Action
      | StandsFor(s, entries, queues, loopOf, next) && |s.loops| == |s.pollers| && a.Accept? && Reactor.Enabled(s, a)
      ensures StandsFor(DoAccept(s, a), entries + {next - 1},
                        if l == 0 then queues else queues[l := queues[l] + [Established(next - 1)]],
                        loopOf[next - 1 := l], next + 1)
    {
      AcceptStands(s, a, entries, queues, loopOf, next, l);
    }
  }

  lemma StandsAfter(s: System, s': System, entries: set<ConnId>, queues: seq<seq<Task>>, loopOf: map<ConnId, nat>,
                    next: nat, l: nat)
    requires StandsFor(s, entries, queues, loopOf, next) && l < |queues|
    requires s'.connections == s.connections + {s.nextId} && s'.nextId == s.nextId + 1 && |s'.loops| == |s.loops|
    requires forall m :: 0 <= m < |s.loops| && (m != l || l == 0) ==> s'.loops[m].pending == s.loops[m].pending
    requires l != 0 ==> s'.loops[l].pending == s.loops[l].pending + [Established(s.nextId)]
    requires s'.conns.Keys == s.conns.Keys + {s.nextId} && s'.conns[s.nextId].loop == l
    requires forall d :: d in s.conns && d != s.nextId ==> s'.conns[d].loop == s.conns[d].loop
    ensures var queued := if l == 0 then queues else queues[l := queues[l] + [Established(next - 1)]];
            StandsFor(s', entries + {next - 1}, queued, loopOf[next - 1 := l], next + 1)
  {}
}
