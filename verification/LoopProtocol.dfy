/** The task hand-off of `Mymuduo/EventLoop.cc` as a protocol between one loop thread and
    any number of others, one atomic step at a time.

    The append under the mutex and the write to the eventfd are separate steps. A thread
    that has appended and not yet written is in `owing` (`selfOwes` for the loop thread). */
module LoopProtocol {
  import opened Slices

  datatype Pc =
    | BeforeLoop    // the loop exists, loop() has not been called
    | LoopHead      // about to test quit_
    | AtPoll        // about to block in epoll_wait
    | Dispatching(wakeReported: bool)
    | Entering      // callingPendingFunctors_ is set, the swap is still to come
    | Running       // the swapped batch is being run
    | Exited

  datatype State<F> = State(
    pc: Pc,
    pending: seq<F>,
    batch: seq<F>,
    pos: nat,
    calling: bool,
    counter: nat,
    owing: set<nat>,
    selfOwes: bool,
    quit: bool,
    executed: seq<F>,
    queued: seq<F>)

  datatype Action<F> =
    | Start
    | TestQuit
    | Poll(wake: bool)
    | ReadWakeFd
    | EnterFunctors
    | Swap
    | RunNext
    | Leave
    | LoopAppend(f: F)
    | LoopWake
    | ForeignAppend(thread: nat, f: F)
    | ForeignWake(thread: nat)
    | Quit

  ghost predicate Initial<F>(s: State<F>) {
    s == State(BeforeLoop, [], [], 0, false, 0, {}, false, false, [], [])
  }

  /** The loop thread can queue from its own callbacks: event handlers and functors. */
  predicate InCallback<F>(s: State<F>) {
    s.pc.Dispatching? || (s.pc.Running? && s.pos > 0)
  }

  predicate Enabled<F>(s: State<F>, a: Action<F>) {
    match a
    case Start => s.pc.BeforeLoop?
    case TestQuit => s.pc.LoopHead?
    case Poll(wake) => s.pc.AtPoll? && (wake ==> s.counter > 0)
    case ReadWakeFd => s.pc.Dispatching? && s.pc.wakeReported
    case EnterFunctors => s.pc.Dispatching? && !s.pc.wakeReported
    case Swap => s.pc.Entering?
    case RunNext => s.pc.Running? && s.pos < |s.batch| && !s.selfOwes
    case Leave => s.pc.Running? && s.pos == |s.batch| && !s.selfOwes
    case LoopAppend(_) => (s.pc.BeforeLoop? || InCallback(s)) && !s.selfOwes
    case LoopWake => s.selfOwes
    case ForeignAppend(t, _) => t !in s.owing
    case ForeignWake(t) => t in s.owing
    case Quit => true
  }

  function Do<F>(s: State<F>, a: Action<F>): State<F>
    requires Enabled(s, a)
  {
    match a
    case Start => s.(pc := LoopHead, quit := false)
    case TestQuit => s.(pc := if s.quit then Exited else AtPoll)
    case Poll(wake) => s.(pc := Dispatching(wake))
    case ReadWakeFd => s.(pc := Dispatching(false), counter := 0)
    case EnterFunctors => s.(pc := Entering, calling := true)
    case Swap => s.(pc := Running, batch := s.pending, pos := 0, pending := [])
    case RunNext => s.(executed := s.executed + [s.batch[s.pos]], pos := s.pos + 1)
    case Leave => s.(pc := LoopHead, calling := false, batch := [], pos := 0)
    case LoopAppend(f) =>
      s.(pending := s.pending + [f], queued := s.queued + [f], selfOwes := s.calling)
    case LoopWake => s.(counter := s.counter + 1, selfOwes := false)
    case ForeignAppend(t, f) =>
      s.(pending := s.pending + [f], queued := s.queued + [f], owing := s.owing + {t})
    case ForeignWake(t) => s.(counter := s.counter + 1, owing := s.owing - {t})
    case Quit => s.(quit := true)
  }

  ghost predicate ValidRun<F>(s: State<F>, run: seq<Action<F>>)
    decreases run
  {
    run == [] || (Enabled(s, run[0]) && ValidRun(Do(s, run[0]), run[1..]))
  }

  ghost function End<F>(s: State<F>, run: seq<Action<F>>): State<F>
    requires ValidRun(s, run)
    decreases run
  {
    if run == [] then s else End(Do(s, run[0]), run[1..])
  }

  ghost predicate ControlOk<F>(s: State<F>) {
    && s.pos <= |s.batch|
    && (s.calling <==> s.pc.Entering? || s.pc.Running?)
    && (s.selfOwes ==> s.pc.Running?)
    && (!s.pc.Running? ==> s.batch == [])
  }

  /** Everything queued is executed, still in the batch, or pending; in append order. */
  ghost predicate Conserved<F>(s: State<F>)
    requires s.pos <= |s.batch|
  {
    s.executed + s.batch[s.pos..] + s.pending == s.queued
  }

  /** A wake-up is stored in the eventfd or owed by some thread. */
  predicate Armed<F>(s: State<F>) {
    s.counter > 0 || s.owing != {} || s.selfOwes
  }

  /** From the swap until the next poll, work that will not be swapped before the loop
      blocks is always announced. */
  ghost predicate WakeOk<F>(s: State<F>) {
    s.pc.Running? || s.pc.LoopHead? || s.pc.AtPoll? || s.pc.BeforeLoop? ==>
      s.pending != [] ==> Armed(s)
  }

  ghost predicate Inv<F>(s: State<F>) {
    ControlOk(s) && Conserved(s) && WakeOk(s)
  }

  /** The assumption under which no wake-up is lost: the loop thread queues functors on its
      own loop only from inside loop(). */
  predicate Timely<F>(s: State<F>, a: Action<F>) {
    a.LoopAppend? ==> !s.pc.BeforeLoop?
  }

  ghost predicate TimelyRun<F>(s: State<F>, run: seq<Action<F>>)
    requires ValidRun(s, run)
    decreases run
  {
    run == [] || (Timely(s, run[0]) && TimelyRun(Do(s, run[0]), run[1..]))
  }

  lemma StepConserves<F>(s: State<F>, a: Action<F>)
    requires ControlOk(s) && Conserved(s) && Enabled(s, a)
    ensures ControlOk(Do(s, a)) && Conserved(Do(s, a))
  {
    match a
    case RunNext =>
      assert s.batch[s.pos..] == [s.batch[s.pos]] + s.batch[s.pos + 1..];
    case _ =>
  }

  lemma StepKeeps<F>(s: State<F>, a: Action<F>)
    requires Inv(s) && Enabled(s, a) && Timely(s, a)
    ensures Inv(Do(s, a))
  {
    StepConserves(s, a);
  }

  /** The functors a run queues, whoever does, in order. */
  function Appended<F>(run: seq<Action<F>>): seq<F> {
    if run == [] then []
    else
      (match run[0]
       case LoopAppend(f) => [f]
       case ForeignAppend(_, f) => [f]
       case _ => [])
      + Appended(run[1..])
  }

  lemma {:induction false} QueuedIsAppended<F>(s: State<F>, run: seq<Action<F>>)
    requires ValidRun(s, run)
    ensures End(s, run).queued == s.queued + Appended(run)
    decreases run
  {
    if run != [] {
      var next := Do(s, run[0]);
      var first := if run[0].LoopAppend? || run[0].ForeignAppend? then [run[0].f] else [];
      QueuedIsAppended(next, run[1..]);
      assert next.queued == s.queued + first;
      assert Appended(run) == first + Appended(run[1..]);
    }
  }

  lemma {:induction false} BatchIsConserved<F>(s: State<F>, run: seq<Action<F>>)
    requires ControlOk(s) && Conserved(s) && ValidRun(s, run)
    ensures ControlOk(End(s, run)) && Conserved(End(s, run)) && s.executed <= End(s, run).executed
    decreases run
  {
    if run != [] {
      StepConserves(s, run[0]);
      BatchIsConserved(Do(s, run[0]), run[1..]);
    }
  }

  /** Functor conservation and order, in every interleaving: what was executed, the rest of the
      batch and what is pending are exactly the functors the run queued, in the order it did;
      none is lost, duplicated or reordered. No assumption about who queues when. */
  lemma FunctorsConserved<F>(s: State<F>, run: seq<Action<F>>)
    requires ControlOk(s) && Conserved(s) && ValidRun(s, run)
    ensures var e := End(s, run);
            && e.pos <= |e.batch|
            && e.executed + e.batch[e.pos..] + e.pending == e.queued
            && s.queued <= e.queued && s.executed <= e.executed
            && e.queued == s.queued + Appended(run)
  {
    QueuedIsAppended(s, run);
    BatchIsConserved(s, run);
  }

  lemma {:induction false} RunKeeps<F>(s: State<F>, run: seq<Action<F>>)
    requires Inv(s) && ValidRun(s, run) && TimelyRun(s, run)
    ensures Inv(End(s, run))
    decreases run
  {
    if run != [] {
      StepKeeps(s, run[0]);
      RunKeeps(Do(s, run[0]), run[1..]);
    }
  }

  /** No lost wake-up: whenever the loop is about to block with functors pending, the
      eventfd is readable or a foreign thread is between its append and its write. */
  lemma NoLostWakeup<F>(s: State<F>, run: seq<Action<F>>)
    requires Initial(s) && ValidRun(s, run) && TimelyRun(s, run)
    ensures var e := End(s, run);
            e.pc.AtPoll? && e.pending != [] ==> e.counter > 0 || e.owing != {}
  {
    RunKeeps(s, run);
  }

  /** Without the assumption the loop can block on pending work, and it does exactly when
      no foreign thread has announced or will announce anything. */
  lemma EarlyQueueStallsIff<F>(s: State<F>, f: F)
    requires Inv(s) && s.pc.BeforeLoop?
    ensures var run := [LoopAppend(f), Start, TestQuit];
            && ValidRun(s, run)
            && var e := End(s, run);
               && e.pc.AtPoll? && e.pending != []
               && (!Armed(e) <==> s.counter == 0 && s.owing == {})
  {
    var run := [LoopAppend(f), Start, TestQuit];
    var s1 := Do(s, run[0]);
    var s2 := Do(s1, run[1]);
    assert run[1..] == [Start, TestQuit] && run[1..][1..] == [TestQuit];
    assert ValidRun(s2, [TestQuit]) && ValidRun(s1, run[1..]);
    assert End(s2, [TestQuit]) == Do(s2, TestQuit);
    assert End(s1, run[1..]) == End(s2, [TestQuit]);
  }

  ghost function Executions<F>(run: seq<Action<F>>): nat
    decreases run
  {
    if run == [] then 0 else (if run[0].RunNext? then 1 else 0) + Executions(run[1..])
  }

  /** While the functor phase lasts its batch does not change, whatever is queued meanwhile:
      it executes the batch in order and at most as many functors as were swapped in. */
  lemma {:induction false} PhaseRunsTheBatch<F>(s: State<F>, run: seq<Action<F>>)
    requires s.pc.Running? && s.pos <= |s.batch| && ValidRun(s, run) && Leave !in run
    ensures var e := End(s, run);
            && e.pc.Running? && e.batch == s.batch && s.pos <= e.pos <= |s.batch|
            && e.executed == s.executed + s.batch[s.pos..e.pos]
            && Executions(run) == e.pos - s.pos
    decreases run
  {
    if run != [] {
      var next := Do(s, run[0]);
      PhaseStep(s, run[0]);
      PhaseRunsTheBatch(next, run[1..]);
      var e := End(next, run[1..]);
      SliceSplits(s.batch, s.pos, next.pos, e.pos);
    } else {
      assert s.batch[s.pos..s.pos] == [];
    }
  }

  lemma PhaseStep<F>(s: State<F>, a: Action<F>)
    requires s.pc.Running? && s.pos <= |s.batch| && Enabled(s, a) && a != Leave
    ensures var n := Do(s, a);
            && n.pc.Running? && n.batch == s.batch
            && n.pos == s.pos + (if a.RunNext? then 1 else 0) <= |s.batch|
            && n.executed == s.executed + s.batch[s.pos..n.pos]
  {}

  /** One whole `doPendingFunctors`: exactly the functors present at the swap are executed,
      and everything queued meanwhile is pending, in order and announced, when it ends. */
  lemma PhaseIsExact<F>(s: State<F>, run: seq<Action<F>>)
    requires Inv(s) && s.pc.Entering? && Leave !in run
    requires ValidRun(Do(s, Swap), run) && Enabled(End(Do(s, Swap), run), Leave)
    ensures var e := Do(End(Do(s, Swap), run), Leave);
            && e.executed == s.executed + s.pending
            && e.queued == s.queued + e.pending
            && (e.pending != [] ==> e.counter > 0 || e.owing != {})
            && Executions(run) == |s.pending|
  {
    var w := Do(s, Swap);
    PhaseRunsTheBatch(w, run);
    StepKeeps(s, Swap);
    RunningIsTimely(w, run);
    RunKeeps(w, run);
    var e := End(w, run);
    StepKeeps(e, Leave);
    assert s.pending[0..|s.pending|] == s.pending;
  }

  lemma {:induction false} RunningIsTimely<F>(s: State<F>, run: seq<Action<F>>)
    requires s.pc.Running? && s.pos <= |s.batch| && ValidRun(s, run) && Leave !in run
    ensures TimelyRun(s, run)
    decreases run
  {
    if run != [] {
      RunningIsTimely(Do(s, run[0]), run[1..]);
    }
  }

  ghost function Polls<F>(run: seq<Action<F>>): nat
    decreases run
  {
    if run == [] then 0 else (if run[0].Poll? then 1 else 0) + Polls(run[1..])
  }

  /** `quit` takes effect: once it is seen to be set, the loop polls at most once more, and not
      at all when it has yet to come back to the test; the test itself leaves the loop. */
  lemma {:induction false} QuitStopsPolling<F>(s: State<F>, run: seq<Action<F>>)
    requires s.quit && !s.pc.BeforeLoop? && ValidRun(s, run)
    ensures End(s, run).quit
    ensures Polls(run) <= if s.pc.AtPoll? then 1 else 0
    ensures s.pc.LoopHead? && TestQuit in run ==> End(s, run).pc.Exited?
    decreases run
  {
    if run != [] {
      var next := Do(s, run[0]);
      QuitStopsPolling(next, run[1..]);
      ExitedStays(next, run[1..]);
    }
  }

  lemma {:induction false} ExitedStays<F>(s: State<F>, run: seq<Action<F>>)
    requires ValidRun(s, run)
    ensures s.pc.Exited? ==> End(s, run).pc.Exited? && Polls(run) == 0
    decreases run
  {
    if run != [] {
      ExitedStays(Do(s, run[0]), run[1..]);
    }
  }
}
