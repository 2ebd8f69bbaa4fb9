/** The class `EventLoop` against the protocol: what its methods promise about one turn is
    where a run of `LoopProtocol` leads, one in which the other threads queue while the loop
    thread is inside handlers and functors. */
module LoopRefinement {
  import opened LoopProtocol
  import opened TaskLoop

  ghost predicate Reaches<F>(s: State<F>, run: seq<LoopProtocol.Action<F>>, e: State<F>) {
    ValidRun(s, run) && End(s, run) == e
  }

  lemma {:induction false} Then<F>(s: State<F>, a: seq<LoopProtocol.Action<F>>, m: State<F>, b: seq<LoopProtocol.Action<F>>, e: State<F>)
    requires Reaches(s, a, m) && Reaches(m, b, e)
    ensures Reaches(s, a + b, e)
    decreases a
  {
    if a == [] {
      assert a + b == b;
    } else {
      Then(Do(s, a[0]), a[1..], m, b, e);
      assert (a + b)[1..] == a[1..] + b;
    }
  }

  lemma One<F>(s: State<F>, a: LoopProtocol.Action<F>)
    requires Enabled(s, a)
    ensures Reaches(s, [a], Do(s, a))
  {
    assert End(Do(s, a), []) == Do(s, a);
  }

  lemma Two<F>(s: State<F>, a: LoopProtocol.Action<F>, b: LoopProtocol.Action<F>)
    requires Enabled(s, a) && Enabled(Do(s, a), b)
    ensures Reaches(s, [a, b], Do(Do(s, a), b))
  {
    One(s, a);
    One(Do(s, a), b);
    Then(s, [a], Do(s, a), [b], Do(Do(s, a), b));
  }

  /** No thread is between its append and its wake-up. */
  predicate Settled<F>(s: State<F>) {
    s.owing == {} && !s.selfOwes
  }

  /** One functor queued, wake-up included. */
  lemma QueueRun<F>(s: State<F>, arrival: Arrival<F>) returns (run: seq<LoopProtocol.Action<F>>)
    requires InCallback(s) && Settled(s) && (s.pc.Running? <==> s.calling)
    ensures Reaches(s, run, s.(pending := s.pending + [arrival.f], queued := s.queued + [arrival.f],
                               counter := s.counter + if arrival.inLoopThread && !s.calling then 0 else 1))
  {
    if !arrival.inLoopThread {
      run := [ForeignAppend(0, arrival.f), ForeignWake(0)];
      Two(s, run[0], run[1]);
      assert Do(Do(s, run[0]), run[1]).owing == {};
    } else if s.calling {
      run := [LoopAppend(arrival.f), LoopWake];
      Two(s, run[0], run[1]);
    } else {
      run := [LoopAppend(arrival.f)];
      One(s, run[0]);
    }
  }

  /** `s` with these functors queued. */
  function Queued<F>(s: State<F>, arrivals: seq<Arrival<F>>): State<F> {
    s.(pending := s.pending + Functors(arrivals), queued := s.queued + Functors(arrivals),
       counter := s.counter + Wakes(arrivals, s.calling))
  }

  lemma {:induction false} QueueAllRun<F>(s: State<F>, arrivals: seq<Arrival<F>>)
    returns (run: seq<LoopProtocol.Action<F>>)
    requires InCallback(s) && Settled(s) && (s.pc.Running? <==> s.calling)
    ensures Reaches(s, run, Queued(s, arrivals))
    decreases |arrivals|
  {
    if arrivals == [] {
      run := [];
      assert Queued(s, []) == s;
    } else {
      var last := |arrivals| - 1;
      var first := QueueAllRun(s, arrivals[..last]);
      var m := Queued(s, arrivals[..last]);
      var more := QueueRun(m, arrivals[last]);
      assert Functors(arrivals) == Functors(arrivals[..last]) + [arrivals[last].f];
      assert m.pending + [arrivals[last].f] == s.pending + Functors(arrivals);
      assert m.queued + [arrivals[last].f] == s.queued + Functors(arrivals);
      Then(s, first, m, more, Queued(s, arrivals));
      run := first + more;
    }
  }

  /** The functor phase after `n` functors, from the state right after the swap. */
  function Phase<F>(s: State<F>, during: nat -> seq<Arrival<F>>, n: nat): State<F>
    requires n <= |s.batch|
  {
    var arrived := ArrivalsDuring(during, n);
    s.(pos := n, executed := s.executed + s.batch[..n], pending := s.pending + arrived,
       queued := s.queued + arrived, counter := s.counter + |arrived|)
  }

  lemma {:induction false} PhaseRun<F>(s: State<F>, during: nat -> seq<Arrival<F>>, n: nat)
    returns (run: seq<LoopProtocol.Action<F>>)
    requires s.pc.Running? && s.calling && Settled(s) && s.pos == 0 && n <= |s.batch|
    ensures Reaches(s, run, Phase(s, during, n))
  {
    if n == 0 {
      run := [];
      assert Phase(s, during, 0) == s;
    } else {
      var before := PhaseRun(s, during, n - 1);
      var m := Phase(s, during, n - 1);
      One(m, RunNext);
      Then(s, before, m, [RunNext], Do(m, RunNext));
      var more := QueueAllRun(Do(m, RunNext), during(n - 1));
      OneMore(s, during, n);
      Then(s, before + [RunNext], Do(m, RunNext), more, Phase(s, during, n));
      run := before + [RunNext] + more;
    }
  }

  lemma OneMore<F>(s: State<F>, during: nat -> seq<Arrival<F>>, n: nat)
    requires s.pc.Running? && s.calling && Settled(s) && s.pos == 0 && 0 < n <= |s.batch|
    ensures Enabled(Phase(s, during, n - 1), RunNext)
    ensures Queued(Do(Phase(s, during, n - 1), RunNext), during(n - 1)) == Phase(s, during, n)
  {
    AllWake(during(n - 1));
    assert s.batch[..n] == s.batch[..n - 1] + [s.batch[n - 1]];
    var arrived, more := ArrivalsDuring(during, n - 1), Functors(during(n - 1));
    assert s.pending + arrived + more == s.pending + (arrived + more);
    assert s.queued + arrived + more == s.queued + (arrived + more);
    assert s.executed + s.batch[..n - 1] + [s.batch[n - 1]] == s.executed + s.batch[..n];
  }

  /** Between two turns, about to poll. */
  function Between<F>(pending: seq<F>, counter: nat, quit: bool, executed: seq<F>, queued: seq<F>): State<F> {
    State(AtPoll, pending, [], 0, false, counter, {}, false, quit, executed, queued)
  }

  /** What `EventLoop.RunTurn` promises of the fields after a turn. */
  function AfterTurn<F>(s: State<F>, turn: Turn<F>): State<F> {
    var left := ArrivalsDuring(turn.during, |s.pending| + |turn.before|);
    State(LoopHead, left, [], 0, false, Wakes(turn.before, false) + |left|, {}, false, s.quit || turn.quits,
          s.executed + s.pending + Functors(turn.before), s.queued + Functors(turn.before) + left)
  }

  /** The poll, and the read of the eventfd when it is reported. */
  lemma PollRun<F>(s: State<F>) returns (run: seq<LoopProtocol.Action<F>>)
    requires s.pc.AtPoll?
    ensures Reaches(s, run, s.(pc := LoopProtocol.Dispatching(false), counter := 0))
  {
    if s.counter > 0 {
      run := [LoopProtocol.Poll(true), ReadWakeFd];
      Two(s, run[0], run[1]);
    } else {
      run := [LoopProtocol.Poll(false)];
      One(s, run[0]);
    }
  }

  /** From the handlers' end to the loop's head. */
  lemma FunctorsRun<F>(s: State<F>, during: nat -> seq<Arrival<F>>) returns (run: seq<LoopProtocol.Action<F>>)
    requires s.pc == LoopProtocol.Dispatching(false) && Settled(s) && !s.calling && s.batch == [] && s.pos == 0
    ensures var left := ArrivalsDuring(during, |s.pending|);
            Reaches(s, run, s.(pc := LoopHead, pending := left, executed := s.executed + s.pending,
                               queued := s.queued + left, counter := s.counter + |left|))
  {
    var w := Do(Do(s, EnterFunctors), Swap);
    Two(s, EnterFunctors, Swap);
    var phase := PhaseRun(w, during, |s.pending|);
    var e := Phase(w, during, |s.pending|);
    Then(s, [EnterFunctors, Swap], w, phase, e);
    One(e, Leave);
    Then(s, [EnterFunctors, Swap] + phase, e, [Leave], Do(e, Leave));
    run := [EnterFunctors, Swap] + phase + [Leave];
    assert s.pending[..|s.pending|] == s.pending;
    assert [] + ArrivalsDuring(during, |s.pending|) == ArrivalsDuring(during, |s.pending|);
  }

  lemma QuitRun<F>(s: State<F>, quits: bool) returns (run: seq<LoopProtocol.Action<F>>)
    ensures Reaches(s, run, s.(quit := s.quit || quits))
  {
    if quits {
      run := [LoopProtocol.Quit];
      One(s, LoopProtocol.Quit);
    } else {
      run := [];
    }
  }

  /** One turn of the class is a run of the protocol: there are steps of it that lead from the
      fields before to the fields after, as `EventLoop.RunTurn` states them. */
  lemma TurnIsRun<F>(s: State<F>, turn: Turn<F>) returns (run: seq<LoopProtocol.Action<F>>)
    requires s == Between(s.pending, s.counter, s.quit, s.executed, s.queued)
    ensures Reaches(s, run, AfterTurn(s, turn))
    ensures Appended(run) == Functors(turn.before) + Left(turn, |s.pending|)
  {
    var a := PollRun(s);
    var s1 := s.(pc := LoopProtocol.Dispatching(false), counter := 0);
    var b := QueueAllRun(s1, turn.before);
    var s2 := Queued(s1, turn.before);
    Then(s, a, s1, b, s2);
    var c := FunctorsRun(s2, turn.during);
    var left := ArrivalsDuring(turn.during, |s2.pending|);
    var s3 := s2.(pc := LoopHead, pending := left, executed := s2.executed + s2.pending,
                  queued := s2.queued + left, counter := s2.counter + |left|);
    Then(s, a + b, s2, c, s3);
    var d := QuitRun(s3, turn.quits);
    Then(s, a + b + c, s3, d, s3.(quit := s3.quit || turn.quits));
    Associative(s.executed, s.pending, Functors(turn.before));
    run := a + b + c + d;
    QueuedIsAppended(s, run);
    Associative(s.queued, Functors(turn.before), Left(turn, |s.pending|));
    CancelLeft(s.queued, Appended(run), Functors(turn.before) + Left(turn, |s.pending|));
  }

  lemma CancelLeft<T>(p: seq<T>, a: seq<T>, b: seq<T>)
    requires p + a == p + b
    ensures a == b
  {
    assert a == (p + a)[|p|..] && b == (p + b)[|p|..];
  }

  /** The state at the head of the loop after some turns. */
  function AfterTurns<F>(s: State<F>, turns: seq<Turn<F>>): State<F> {
    if turns == [] then s
    else AfterTurn(AfterTurns(s, turns[..|turns| - 1]).(pc := AtPoll), turns[|turns| - 1])
  }

  /** At the head of the loop, nothing under way. */
  ghost predicate AtHead<F>(s: State<F>) {
    s == Between(s.pending, s.counter, s.quit, s.executed, s.queued).(pc := LoopHead)
  }

  /** Turns of the class, none of which but the last quits, are a run of the protocol: each one
      polls, the functors appended are those that arrive, and where the run leads is what
      `EventLoop.Loop` promises of the fields. */
  lemma {:induction false} TurnsAreRun<F>(s: State<F>, turns: seq<Turn<F>>) returns (run: seq<LoopProtocol.Action<F>>)
    requires AtHead(s) && !s.quit && forall i :: 0 <= i < |turns| - 1 ==> !turns[i].quits
    ensures Reaches(s, run, AfterTurns(s, turns)) && AtHead(AfterTurns(s, turns))
    ensures Appended(run) == Arrived(turns, s.pending)
    ensures var e := AfterTurns(s, turns);
            && e.queued == s.queued + Arrived(turns, s.pending)
            && e.pending == PendingAfter(turns, s.pending)
            && (e.quit <==> turns != [] && turns[|turns| - 1].quits)
            && (turns != [] ==> e.counter == Wakes(turns[|turns| - 1].before, false) + |e.pending|)
    ensures Conserved(s) ==> Conserved(AfterTurns(s, turns))
    decreases |turns|
  {
    if turns == [] {
      run := [];
      assert s.queued + [] == s.queued;
    } else {
      var before, turn := turns[..|turns| - 1], turns[|turns| - 1];
      var first := TurnsAreRun(s, before);
      var m := AfterTurns(s, before);
      var p := m.(pc := AtPoll);
      One(m, TestQuit);
      Then(s, first, m, [TestQuit], p);
      var more := TurnIsRun(p, turn);
      Then(s, first + [TestQuit], p, more, AfterTurns(s, turns));
      run := first + [TestQuit] + more;
      TurnsAppend(s, run, turns);
      if Conserved(s) {
        BatchIsConserved(s, run);
      }
    }
  }

  lemma TurnsAppend<F>(s: State<F>, run: seq<LoopProtocol.Action<F>>, turns: seq<Turn<F>>)
    requires turns != [] && Reaches(s, run, AfterTurns(s, turns))
    requires var m := AfterTurns(s, turns[..|turns| - 1]);
             && m.queued == s.queued + Arrived(turns[..|turns| - 1], s.pending)
             && m.pending == PendingAfter(turns[..|turns| - 1], s.pending)
    ensures Appended(run) == Arrived(turns, s.pending)
    ensures AfterTurns(s, turns).queued == s.queued + Arrived(turns, s.pending)
  {
    var before, turn := turns[..|turns| - 1], turns[|turns| - 1];
    var m := AfterTurns(s, before);
    var left := Left(turn, |m.pending|);
    Associative(s.queued, Arrived(before, s.pending), Functors(turn.before) + left);
    Associative(m.queued, Functors(turn.before), left);
    QueuedIsAppended(s, run);
    CancelLeft(s.queued, Appended(run), Arrived(turns, s.pending));
  }

  /** All of `loop()`: it leaves after exactly these turns. */
  lemma LoopIsRun<F>(s: State<F>, turns: seq<Turn<F>>) returns (run: seq<LoopProtocol.Action<F>>)
    requires s == Between(s.pending, s.counter, s.quit, s.executed, s.queued).(pc := BeforeLoop)
    requires turns != [] && turns[|turns| - 1].quits && forall i :: 0 <= i < |turns| - 1 ==> !turns[i].quits
    ensures Reaches(s, run, AfterTurns(s.(pc := LoopHead, quit := false), turns).(pc := Exited))
    ensures Appended(run) == Arrived(turns, s.pending)
  {
    var h := s.(pc := LoopHead, quit := false);
    One(s, Start);
    var turning := TurnsAreRun(h, turns);
    var e := AfterTurns(h, turns);
    Then(s, [Start], h, turning, e);
    One(e, TestQuit);
    Then(s, [Start] + turning, e, [TestQuit], e.(pc := Exited));
    run := [Start] + turning + [TestQuit];
    QueuedIsAppended(s, run);
    CancelLeft(s.queued, Appended(run), Arrived(turns, s.pending));
  }
}
