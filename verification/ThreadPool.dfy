/** `Mymuduo/EventLoopThreadPool.cc`: the IO loops and the round robin over them. */
module ThreadPool {
  import opened Reactor

  /** Of the first `k` connections, how many were placed on loop `l`. */
  function Load(threads: nat, k: nat, l: nat): nat {
    if k == 0 then 0
    else Load(threads, k - 1, l) + if Place(threads, k - 1) == l then 1 else 0
  }

  lemma NextDivision(k: nat, n: nat)
    requires n > 0
    ensures if k % n == n - 1 then (k + 1) / n == k / n + 1 && (k + 1) % n == 0
            else (k + 1) / n == k / n && (k + 1) % n == k % n + 1
  {
    var q, r := k / n, k % n;
    assert k == q * n + r;
    if r == n - 1 {
      assert k + 1 == (q + 1) * n;
      DivisionIsUnique(k + 1, n, q + 1, 0);
    } else {
      DivisionIsUnique(k + 1, n, q, r + 1);
    }
  }

  lemma DivisionIsUnique(k: nat, n: nat, q: nat, r: nat)
    requires n > 0 && k == q * n + r && r < n
    ensures k / n == q && k % n == r
  {
    var d := k / n - q;
    assert d * n == r - k % n;
    Scaled(d, n);
  }

  lemma Scaled(d: int, n: nat)
    requires n > 0
    ensures d >= 1 ==> d * n >= n
    ensures d <= -1 ==> d * n <= 0 - n
  {}

  lemma {:induction false} LoadIs(threads: nat, k: nat, l: nat)
    requires 1 <= l <= threads
    ensures Load(threads, k, l) == k / threads + if l - 1 < k % threads then 1 else 0
  {
    if k == 0 {
      DivisionIsUnique(0, threads, 0, 0);
    } else {
      LoadIs(threads, k - 1, l);
      NextDivision(k - 1, threads);
    }
  }

  /** Fair placement: after any number of connections the loads of two IO loops differ by at
      most one, and without IO loops everything is on the main loop. */
  lemma LoadsAreEven(threads: nat, k: nat, l: nat, m: nat)
    ensures 1 <= l <= threads && 1 <= m <= threads ==>
              -1 <= Load(threads, k, l) - Load(threads, k, m) <= 1
    ensures threads == 0 ==> Load(threads, k, 0) == k
  {
    if 1 <= l <= threads && 1 <= m <= threads {
      LoadIs(threads, k, l);
      LoadIs(threads, k, m);
    }
    if threads == 0 {
      AllOnMain(k);
    }
  }

  lemma AllOnMain(k: nat)
    ensures Load(0, k, 0) == k
  {}

  /** The base loop has number 0, the pool's loops 1, 2, and so on. */
  class EventLoopThreadPool {
    var started: bool
    var numThreads: nat
    var next: nat
    var loops: seq<nat>
    /** Calls of `getNextLoop` since the start. */
    ghost var calls: nat

    ghost predicate Valid()
      reads this
    {
      && (forall i :: 0 <= i < |loops| ==> loops[i] == i + 1)
      && (if loops == [] then next == 0 else next == calls % |loops|)
    }

    constructor ()
      ensures Valid() && !started && loops == [] && calls == 0 && numThreads == 0
    {
      started, numThreads, next, loops, calls := false, 0, 0, [], 0;
    }

    method SetThreadNum(n: nat)
      modifies this`numThreads
      ensures numThreads == n
    {
      numThreads := n;
    }

    method Start()
      requires Valid() && loops == [] && calls == 0
      modifies this`started, this`loops, this`next
      ensures Valid() && started && |loops| == numThreads
    {
      started := true;
      for i := 0 to numThreads
        invariant started && next == 0 && numThreads == old(numThreads)
        invariant |loops| == i && forall k :: 0 <= k < i ==> loops[k] == k + 1
      {
        loops := loops + [i + 1];
      }
      if numThreads > 0 {
        DivisionIsUnique(0, numThreads, 0, 0);
      }
    }

    /** The k-th call, from 0, picks `loops_[k mod n]`. */
    method GetNextLoop() returns (loop: nat)
      requires Valid()
      modifies this`next, this`calls
      ensures Valid() && calls == old(calls) + 1
      ensures loop == Place(|loops|, old(calls))
      ensures loop == if loops == [] then 0 else loops[old(calls) % |loops|]
    {
      loop := 0;
      if loops != [] {
        loop := loops[next];
        next := next + 1;
        if next >= |loops| {
          next := 0;
        }
        NextDivision(calls, |loops|);
      }
      calls := calls + 1;
    }
  }
}
