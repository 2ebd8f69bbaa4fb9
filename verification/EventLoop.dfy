/** The class `EventLoop`, as one thread executes its methods; what the other threads do
    meanwhile is an input.

    `F` is the type of functors. `counter` is the eventfd. `executed` and `queued` record
    the functors run from the queue and those put into it. */
module TaskLoop {

  /** A functor queued while a functor or handler runs, by the loop thread or another. */
  datatype Arrival<F> = Arrival(f: F, inLoopThread: bool)

  function Functors<F>(arrivals: seq<Arrival<F>>): (r: seq<F>)
    ensures |r| == |arrivals|
    ensures forall i :: 0 <= i < |r| ==> r[i] == arrivals[i].f
  {
    seq(|arrivals|, i requires 0 <= i < |arrivals| => arrivals[i].f)
  }

  /** What arrives while the first `n` functors of a batch run. */
  function ArrivalsDuring<F>(during: nat -> seq<Arrival<F>>, n: nat): seq<F> {
    if n == 0 then [] else ArrivalsDuring(during, n - 1) + Functors(during(n - 1))
  }

  /** How many wake-ups the arrivals write: all but those of the loop thread outside its
      functor phase. */
  function Wakes<F>(arrivals: seq<Arrival<F>>, calling: bool): nat {
    if arrivals == [] then 0
    else Wakes(arrivals[..|arrivals| - 1], calling)
         + if arrivals[|arrivals| - 1].inLoopThread && !calling then 0 else 1
  }

  lemma {:induction false} AllWake<F>(arrivals: seq<Arrival<F>>)
    ensures Wakes(arrivals, true) == |arrivals|
  {
    if arrivals != [] {
      AllWake(arrivals[..|arrivals| - 1]);
    }
  }

  lemma Associative<T>(a: seq<T>, b: seq<T>, c: seq<T>)
    ensures a + b + c == a + (b + c)
  {}

  /** One turn of the loop: what is queued while handlers run, what is queued while each
      functor runs, and whether quit() is called. */
  datatype Turn<F> = Turn(before: seq<Arrival<F>>, during: nat -> seq<Arrival<F>>, quits: bool)

  /** What a turn leaves pending: all that arrives while its functors run, of which there are as
      many as were pending and as arrived before. */
  function Left<F>(turn: Turn<F>, pending: nat): seq<F> {
    ArrivalsDuring(turn.during, pending + |turn.before|)
  }

  /** What some turns leave pending. */
  function PendingAfter<F>(turns: seq<Turn<F>>, pending: seq<F>): seq<F> {
    if turns == [] then pending
    else Left(turns[|turns| - 1], |PendingAfter(turns[..|turns| - 1], pending)|)
  }

  /** Everything that arrives in some turns: for each the arrivals before its functors, then
      those during each functor it runs. */
  function Arrived<F>(turns: seq<Turn<F>>, pending: seq<F>): seq<F> {
    if turns == [] then []
    else
      var before := turns[..|turns| - 1];
      Arrived(before, pending)
      + (Functors(turns[|turns| - 1].before) + Left(turns[|turns| - 1], |PendingAfter(before, pending)|))
  }

  /** Everything that arrives up to the last turn's functors. */
  function ArrivedBefore<F>(turns: seq<Turn<F>>, pending: seq<F>): seq<F>
    requires turns != []
  {
    Arrived(turns[..|turns| - 1], pending) + Functors(turns[|turns| - 1].before)
  }

  lemma ArrivedSplits<F>(turns: seq<Turn<F>>, pending: seq<F>)
    requires turns != []
    ensures Arrived(turns, pending) == ArrivedBefore(turns, pending) + PendingAfter(turns, pending)
  {}

  lemma OneTurnMore<F>(turns: seq<Turn<F>>, k: nat, pending: seq<F>, queued: seq<F>)
    requires k < |turns|
    ensures var left := Left(turns[k], |PendingAfter(turns[..k], pending)|);
            && PendingAfter(turns[..k + 1], pending) == left
            && queued + Arrived(turns[..k + 1], pending)
               == queued + Arrived(turns[..k], pending) + Functors(turns[k].before) + left
  {
    assert turns[..k + 1][..k] == turns[..k];
  }

  lemma CancelRight<T>(a: seq<T>, b: seq<T>, c: seq<T>)
    requires a + c == b + c
    ensures a == b
  {
    assert |a| == |b|;
    assert forall i :: 0 <= i < |a| ==> a[i] == (a + c)[i] && b[i] == (b + c)[i];
  }

  class EventLoop<F> {
    var pending: seq<F>
    var calling: bool
    var looping: bool
    var quit: bool
    var counter: nat
    ghost var executed: seq<F>
    ghost var queued: seq<F>

    constructor ()
      ensures pending == [] && !calling && !looping && !quit && counter == 0
      ensures executed == [] && queued == []
    {
      pending := [];
      calling, looping, quit := false, false, false;
      counter := 0;
      executed, queued := [], [];
    }

    /** Everything queued was executed or is pending, in order. */
    ghost predicate Conserved()
      reads this
    {
      executed + pending == queued
    }

    method Quit()
      modifies this`quit
      ensures quit
    {
      quit := true;
    }

    method Wakeup()
      modifies this`counter
      ensures counter == old(counter) + 1
    {
      counter := counter + 1;
    }

    /** Reading an eventfd returns its count and resets it. */
    method HandleRead()
      modifies this`counter
      ensures counter == 0
    {
      counter := 0;
    }

    /** Appends at the end, and writes the eventfd unless the loop thread itself queues
        outside its functor phase. */
    method QueueInLoop(f: F, inLoopThread: bool)
      modifies this`pending, this`queued, this`counter
      ensures pending == old(pending) + [f] && queued == old(queued) + [f]
      ensures counter == old(counter) + if inLoopThread && !calling then 0 else 1
    {
      pending := pending + [f];
      queued := queued + [f];
      if !inLoopThread || calling {
        Wakeup();
      }
    }

    /** Runs the functor at once on the loop's thread (the result says so), queues it with a
        wake-up from any other. */
    method RunInLoop(f: F, inLoopThread: bool) returns (ranNow: bool)
      modifies this`pending, this`queued, this`counter
      ensures ranNow == inLoopThread
      ensures ranNow ==> pending == old(pending) && queued == old(queued) && counter == old(counter)
      ensures !ranNow ==> pending == old(pending) + [f] && queued == old(queued) + [f]
                          && counter == old(counter) + 1
    {
      ranNow := inLoopThread;
      if !inLoopThread {
        QueueInLoop(f, false);
      }
    }

    method QueueAll(arrivals: seq<Arrival<F>>)
      modifies this`pending, this`queued, this`counter
      ensures pending == old(pending) + Functors(arrivals)
      ensures queued == old(queued) + Functors(arrivals)
      ensures counter == old(counter) + Wakes(arrivals, calling)
    {
      var all := Functors(arrivals);
      for i := 0 to |arrivals|
        invariant pending == old(pending) + all[..i]
        invariant queued == old(queued) + all[..i]
        invariant counter == old(counter) + Wakes(arrivals[..i], calling)
      {
        assert arrivals[..i + 1][..i] == arrivals[..i];
        QueueInLoop(arrivals[i].f, arrivals[i].inLoopThread);
      }
      assert all[..|arrivals|] == all && arrivals[..|arrivals|] == arrivals;
    }

    /** Runs exactly the functors present at the swap, even when each queues more; those are
        all pending afterwards, and each of them has written the eventfd. */
    method DoPendingFunctors(during: nat -> seq<Arrival<F>>)
      requires !calling
      modifies this`pending, this`calling, this`counter, this`executed, this`queued
      ensures !calling
      ensures executed == old(executed) + old(pending)
      ensures pending == ArrivalsDuring(during, |old(pending)|)
      ensures queued == old(queued) + pending
      ensures counter == old(counter) + |pending|
    {
      calling := true;
      var functors := pending;
      pending := [];
      for i := 0 to |functors|
        invariant calling
        invariant executed == old(executed) + functors[..i]
        invariant pending == ArrivalsDuring(during, i)
        invariant queued == old(queued) + pending
        invariant counter == old(counter) + |pending|
      {
        executed := executed + [functors[i]];
        assert functors[..i + 1] == functors[..i] + [functors[i]];
        AllWake(during(i));
        QueueAll(during(i));
      }
      assert functors[..|functors|] == functors;
      calling := false;
    }

    /** The body of the loop: the eventfd, when reported, is drained before the swap. */
    method RunTurn(turn: Turn<F>)
      requires !calling && Conserved()
      modifies this`pending, this`calling, this`counter, this`executed, this`queued, this`quit
      ensures !calling && Conserved()
      ensures executed == old(executed) + old(pending) + Functors(turn.before)
      ensures pending == ArrivalsDuring(turn.during, |old(pending)| + |turn.before|)
      ensures queued == old(queued) + Functors(turn.before) + pending
      ensures counter == Wakes(turn.before, false) + |pending|
      ensures quit == (old(quit) || turn.quits)
    {
      if counter > 0 {
        HandleRead();
      }
      QueueAll(turn.before);
      Associative(old(executed), old(pending), Functors(turn.before));
      DoPendingFunctors(turn.during);
      if turn.quits {
        Quit();
      }
    }

    /** `loop()` for the turns it takes until quit() is seen. Everything that arrives in these
        turns is queued in its order; all of it is executed but what arrives while the last
        turn's functors run, and that is pending and keeps the eventfd readable. */
    method Loop(turns: seq<Turn<F>>) returns (taken: nat)
      requires !calling && Conserved() && (pending != [] ==> counter > 0)
      requires turns != [] && turns[|turns| - 1].quits
      modifies this
      ensures !looping && !calling && quit && Conserved()
      ensures pending != [] ==> counter > 0
      ensures 0 < taken <= |turns| && turns[taken - 1].quits
      ensures forall i :: 0 <= i < taken - 1 ==> !turns[i].quits
      ensures queued == old(queued) + Arrived(turns[..taken], old(pending))
      ensures pending == PendingAfter(turns[..taken], old(pending))
      ensures executed == old(queued) + ArrivedBefore(turns[..taken], old(pending))
      ensures counter == Wakes(turns[taken - 1].before, false) + |pending|
      ensures old(queued) <= executed
    {
      looping := true;
      quit := false;
      taken := 0;
      while !quit
        invariant 0 <= taken <= |turns| && !calling
        invariant AfterTurns(turns[..taken], old(pending), old(queued))
        invariant quit <==> taken > 0 && turns[taken - 1].quits
        invariant forall i :: 0 <= i < taken - 1 ==> !turns[i].quits
        decreases |turns| - taken
      {
        TakeTurn(turns, taken, old(pending), old(queued));
        taken := taken + 1;
      }
      looping := false;
      ExecutedAll(turns[..taken], old(pending), old(queued));
    }

    /** Where some turns lead that began with `was` pending and `before` queued so far. */
    ghost predicate AfterTurns(turns: seq<Turn<F>>, was: seq<F>, before: seq<F>)
      reads this
    {
      && Conserved() && (pending != [] ==> counter > 0)
      && queued == before + Arrived(turns, was)
      && pending == PendingAfter(turns, was)
      && (turns != [] ==> counter == Wakes(turns[|turns| - 1].before, false) + |pending|)
    }

    method TakeTurn(turns: seq<Turn<F>>, k: nat, ghost was: seq<F>, ghost before: seq<F>)
      requires k < |turns| && !calling && AfterTurns(turns[..k], was, before)
      modifies this`pending, this`calling, this`counter, this`executed, this`queued, this`quit
      ensures !calling && AfterTurns(turns[..k + 1], was, before)
      ensures quit == (old(quit) || turns[k].quits)
    {
      OneTurnMore(turns, k, was, before);
      RunTurn(turns[k]);
    }

    lemma ExecutedAll(turns: seq<Turn<F>>, was: seq<F>, before: seq<F>)
      requires turns != [] && AfterTurns(turns, was, before)
      ensures before <= executed
      ensures executed == before + ArrivedBefore(turns, was)
    {
      ArrivedSplits(turns, was);
      Associative(before, ArrivedBefore(turns, was), pending);
      CancelRight(executed, before + ArrivedBefore(turns, was), pending);
    }
  }
}
