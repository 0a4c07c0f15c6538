/** The pool uses what it is allowed: a run in which as many messages are processed at once as threads may run. */
module PoolExample {
  import opened PoolState
  import opened PoolTheorems

  lemma {:induction false} RunThenRun(p: Pool, first: seq<Action>, more: seq<Action>)
    requires ValidRun(p, first) && ValidRun(Exec(p, first), more)
    ensures ValidRun(p, first + more) && Exec(p, first + more) == Exec(Exec(p, first), more)
    decreases |first|
  {
    hide Do, CanDo;
    if first == [] {
      assert first + more == more;
    } else {
      RunThenRun(Do(p, first[0]), first[1..], more);
      assert (first + more)[1..] == first[1..] + more;
    }
  }

  lemma OneMore(p: Pool, run: seq<Action>, a: Action, q: Pool)
    requires ValidRun(p, run) && CanDo(Exec(p, run), a) && Do(Exec(p, run), a) == q
    ensures ValidRun(p, run + [a]) && Exec(p, run + [a]) == q
  {
    var u := Exec(p, run);
    hide Do, CanDo;
    assert [a][1..] == [] && ValidRun(q, []);
    assert ValidRun(u, [a]) && Exec(u, [a]) == q;
    RunThenRun(p, run, [a]);
  }

  /** n ungrouped messages, the first k of them being processed. */
  function Messages(n: nat, k: nat): (q: seq<MsgEntry>)
    ensures |q| == n && forall i :: 0 <= i < n ==> q[i] == MsgEntry(i, 0, DONT_CARE, i < k)
  {
    seq(n, i requires 0 <= i < n => MsgEntry(i, 0, DONT_CARE, i < k))
  }

  /** n threads, the first k of them busy with a message each. */
  function Threads(n: nat, k: nat): (ws: seq<Worker>)
    ensures |ws| == n
    ensures forall w :: 0 <= w < n ==> ws[w] == if w < k then Worker(true, false, true, DONT_CARE, Message(w)) else FreshWorker
  {
    seq(n, w requires 0 <= w < n => if w < k then Worker(true, false, true, DONT_CARE, Message(w)) else FreshWorker)
  }

  function Stage(max: nat, messages: nat, threads: nat, busy: nat): Pool {
    Pool(Messages(messages, busy), Threads(threads, busy), messages, {}, 1, max)
  }

  lemma {:induction false} AllActive(ws: seq<Worker>)
    requires forall w :: 0 <= w < |ws| ==> ws[w].active
    ensures NumActive(ws) == |ws| && FirstInactive(ws) == |ws|
  {
    if ws != [] {
      var n := |ws| - 1;
      AllActive(ws[..n]);
    }
  }

  lemma OneMessageMore(max: nat, n: nat)
    ensures Send(Stage(max, n, 0, 0), 0, DONT_CARE) == Stage(max, n + 1, 0, 0)
  {
    var q, e := Messages(n, 0), MsgEntry(n, 0, DONT_CARE, false);
    assert InsertPos(q, 0) == n;
    assert Insert(q, e) == q + [e] == Messages(n + 1, 0);
  }

  lemma StartAppends(n: nat)
    ensures Start(Threads(n, 0)) == Threads(n + 1, 0) && NumActive(Threads(n, 0)) == n
  {
    AllActive(Threads(n, 0));
  }

  /** With as many messages as threads allowed, each call starts one thread, the first one up to two. */
  lemma MoreThreads(max: nat, n: nat) returns (m: nat)
    requires n < max
    ensures n < m <= max && AddThreads(Stage(max, max, n, 0)) == Stage(max, max, m, 0)
  {
    var p := Stage(max, max, n, 0);
    StartAppends(n);
    StartAppends(1);
    if n == 0 {
      assert StartUpTo(Threads(0, 0), 1) == StartUpTo(Threads(1, 0), 1) == Threads(1, 0);
      m := if max == 1 then 1 else 2;
    } else {
      assert StartUpTo(Threads(n, 0), 1) == Threads(n, 0);
      m := n + 1;
    }
    assert p.queue[0].grouping == DONT_CARE && InGroup(Threads(n, 0), DONT_CARE) && InGroup(Threads(1, 0), DONT_CARE);
  }

  lemma {:induction false} WaitingAt(q: seq<MsgEntry>, k: nat)
    requires k < |q| && !q[k].processing && forall i :: 0 <= i < k ==> q[i].processing
    ensures FirstWaiting(q) == k
  {
    if k > 0 {
      WaitingAt(q[1..], k - 1);
    }
  }

  lemma NextTakes(max: nat, k: nat)
    requires k < max
    ensures CanTake(Stage(max, max, max, k), k) && Take(Stage(max, max, max, k), k) == Stage(max, max, max, k + 1)
  {
    var p := Stage(max, max, max, k);
    WaitingAt(p.queue, k);
    assert InGroup(p.workers, DONT_CARE);
    var r := Take(p, k);
    assert r.queue == Messages(max, k + 1) && r.workers == Threads(max, k + 1);
  }

  lemma SendAll(max: nat) returns (run: seq<Action>)
    ensures ValidRun(Empty(1, max), run) && Exec(Empty(1, max), run) == Stage(max, max, 0, 0)
  {
    run := [];
    assert Empty(1, max) == Stage(max, 0, 0, 0) && ValidRun(Empty(1, max), []) && Exec(Empty(1, max), []) == Empty(1, max);
    hide ValidRun, Exec, Send;
    for n := 0 to max
      invariant ValidRun(Empty(1, max), run) && Exec(Empty(1, max), run) == Stage(max, n, 0, 0)
    {
      OneMessageMore(max, n);
      OneMore(Empty(1, max), run, DoSend(0, DONT_CARE), Stage(max, n + 1, 0, 0));
      run := run + [DoSend(0, DONT_CARE)];
    }
  }

  lemma StartAll(max: nat, first: seq<Action>) returns (run: seq<Action>)
    requires ValidRun(Empty(1, max), first) && Exec(Empty(1, max), first) == Stage(max, max, 0, 0)
    ensures ValidRun(Empty(1, max), run) && Exec(Empty(1, max), run) == Stage(max, max, max, 0)
  {
    hide ValidRun, Exec, AddThreads;
    run := first;
    var n := 0;
    while n < max
      invariant n <= max && ValidRun(Empty(1, max), run) && Exec(Empty(1, max), run) == Stage(max, max, n, 0)
    {
      var m := MoreThreads(max, n);
      OneMore(Empty(1, max), run, DoAddThreads, Stage(max, max, m, 0));
      run := run + [DoAddThreads];
      n := m;
    }
  }

  ghost predicate AllBusy(p: Pool, max: nat) {
    && |p.workers| == max
    && (forall w :: 0 <= w < max ==> p.workers[w].active && p.workers[w].hold.Message?)
    && (forall v, w :: 0 <= v < w < max ==> p.workers[v].hold != p.workers[w].hold)
  }

  /** For every maximum there is a run after which that many threads process a message each. */
  lemma AllThreadsWork(max: nat) returns (run: seq<Action>)
    ensures ValidRun(Empty(1, max), run) && AllBusy(Exec(Empty(1, max), run), max)
  {
    run := SendAll(max);
    run := StartAll(max, run);
    hide ValidRun, Exec, Take;
    for k := 0 to max
      invariant ValidRun(Empty(1, max), run) && Exec(Empty(1, max), run) == Stage(max, max, max, k)
    {
      NextTakes(max, k);
      OneMore(Empty(1, max), run, DoTake(k), Stage(max, max, max, k + 1));
      run := run + [DoTake(k)];
    }
  }
}
