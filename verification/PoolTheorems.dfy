/** What the pool guarantees over whole runs. */
module PoolTheorems {
  import opened PoolState
  import opened PoolInvariants

  ghost predicate ValidRun(p: Pool, run: seq<Action>)
    decreases |run|
  {
    run == [] || (CanDo(p, run[0]) && ValidRun(Do(p, run[0]), run[1..]))
  }

  ghost function Exec(p: Pool, run: seq<Action>): Pool
    requires ValidRun(p, run)
    decreases |run|
  {
    if run == [] then p else Exec(Do(p, run[0]), run[1..])
  }

  function Empty(minThreads: nat, maxThreads: nat): Pool {
    Pool([], [], 0, {}, minThreads, maxThreads)
  }

  lemma {:induction false} RunKeeps(p: Pool, run: seq<Action>)
    requires PoolOk(p) && ValidRun(p, run)
    ensures PoolOk(Exec(p, run))
    decreases |run|
  {
    if run != [] {
      StepKeeps(p, run[0]);
      RunKeeps(Do(p, run[0]), run[1..]);
    }
  }

  // ---------------------------------------------------------------- conservation of messages

  ghost predicate Waiting(p: Pool, id: nat) {
    exists i :: 0 <= i < |p.queue| && p.queue[i].id == id && !p.queue[i].processing
  }

  ghost predicate Processed(p: Pool, id: nat) {
    exists i :: 0 <= i < |p.queue| && p.queue[i].id == id && p.queue[i].processing
  }

  ghost predicate HeldBy(p: Pool, id: nat, w: nat) {
    w < |p.workers| && p.workers[w].hold == Message(id)
  }

  /**
   In every reachable state an accepted message is waiting, being processed or finished, in
   exactly one of the three ways, and it is being processed exactly when one worker, and only
   one, holds it.
   */
  lemma ExactlyOnePlace(minThreads: nat, maxThreads: nat, run: seq<Action>, id: nat)
    requires ValidRun(Empty(minThreads, maxThreads), run)
    ensures var p := Exec(Empty(minThreads, maxThreads), run);
      && (id < p.nextId <==> Waiting(p, id) || Processed(p, id) || id in p.finished)
      && !(Waiting(p, id) && Processed(p, id))
      && !(Waiting(p, id) && id in p.finished)
      && !(Processed(p, id) && id in p.finished)
      && (Processed(p, id) <==> exists w :: HeldBy(p, id, w))
      && (forall v, w :: HeldBy(p, id, v) && HeldBy(p, id, w) ==> v == w)
  {
    RunKeeps(Empty(minThreads, maxThreads), run);
    var p := Exec(Empty(minThreads, maxThreads), run);
    OnePlace(p, id);
  }

  lemma OnePlace(p: Pool, id: nat)
    requires PoolOk(p)
    ensures id < p.nextId <==> Waiting(p, id) || Processed(p, id) || id in p.finished
    ensures !(Waiting(p, id) && Processed(p, id))
    ensures !(Waiting(p, id) && id in p.finished)
    ensures !(Processed(p, id) && id in p.finished)
    ensures Processed(p, id) <==> exists w :: HeldBy(p, id, w)
    ensures forall v, w :: HeldBy(p, id, v) && HeldBy(p, id, w) ==> v == w
  {
    assert id in Ids(p.queue) <==> Waiting(p, id) || Processed(p, id);
    assert Processed(p, id) <==> id in ProcessingIds(p.queue);
    if Processed(p, id) {
      assert id in HeldIds(p.workers);
      var w :| 0 <= w < |p.workers| && p.workers[w].hold.Message? && p.workers[w].hold.id == id;
      assert HeldBy(p, id, w);
    }
    if exists w: nat :: HeldBy(p, id, w) {
      var w: nat :| HeldBy(p, id, w);
      assert p.workers[w].hold.id in HeldIds(p.workers);
    }
  }

  // ---------------------------------------------------------------- order

  /** Priority and grouping of an entry never change while it is queued. */
  ghost predicate SameEntries(q: seq<MsgEntry>, r: seq<MsgEntry>) {
    forall i, j :: 0 <= i < |q| && 0 <= j < |r| && q[i].id == r[j].id
      ==> q[i].priority == r[j].priority && q[i].grouping == r[j].grouping
  }

  /** Nothing that left the queue comes back: ids that are new in r were never in q's past. */
  ghost predicate NoReturn(p: Pool, p': Pool) {
    p.nextId <= p'.nextId && forall id :: id in Ids(p'.queue) && id < p.nextId ==> id in Ids(p.queue)
  }

  lemma SendSameEntries(p: Pool, priority: nat, grouping: nat)
    requires PoolOk(p)
    ensures SameEntries(p.queue, Send(p, priority, grouping).queue) && NoReturn(p, Send(p, priority, grouping))
  {
    hide HoldInv, GroupInv, Ordered;
    var k := InsertPos(p.queue, priority);
    var e := MsgEntry(p.nextId, priority, grouping, false);
    var q := Insert(p.queue, e);
    IdsOfInsert(p.queue, e);
    forall i, j | 0 <= i < |p.queue| && 0 <= j < |q| && p.queue[i].id == q[j].id
      ensures p.queue[i].priority == q[j].priority && p.queue[i].grouping == q[j].grouping
    {
      assert q[j] == if j < k then p.queue[j] else if j == k then e else p.queue[j - 1];
      assert p.queue[i].id in Ids(p.queue);
    }
  }

  lemma FlagSameEntries(q: seq<MsgEntry>, k: nat, b: bool)
    requires k < |q| && DistinctIds(q)
    ensures SameEntries(q, q[k := q[k].(processing := b)])
  {
  }

  lemma EraseSameEntries(q: seq<MsgEntry>, k: nat)
    requires k < |q| && DistinctIds(q)
    ensures SameEntries(q, q[..k] + q[k + 1..])
  {
    var r := q[..k] + q[k + 1..];
    assert forall i :: 0 <= i < |r| ==> r[i] == q[if i < k then i else i + 1];
  }

  lemma KeepsQueue(p: Pool)
    ensures AddThreads(p).queue == p.queue && AddThreads(p).nextId == p.nextId
  {
  }

  lemma StepSameEntries(p: Pool, s: Action)
    requires PoolOk(p) && CanDo(p, s)
    ensures SameEntries(p.queue, Do(p, s).queue) && NoReturn(p, Do(p, s))
  {
    hide HoldInv, GroupInv, Ordered, AddThreads, Insert, HeldIds;
    match s
    case DoSend(pr, g) => SendSameEntries(p, pr, g);
    case DoAddThreads => KeepsQueue(p);
    case DoTake(w) =>
      var k := FirstWaiting(p.queue);
      if k < |p.queue| {
        IdsOfFlag(p.queue, k, true);
        FlagSameEntries(p.queue, k, true);
      }
    case DoFinish(w, ok) =>
      var k := Find(p.queue, p.workers[w].hold.id);
      if k < |p.queue| {
        IdsOfErase(p.queue, k);
        IdsOfFlag(p.queue, k, false);
        EraseSameEntries(p.queue, k);
        FlagSameEntries(p.queue, k, false);
      }
    case _ =>
  }

  lemma {:induction false} RunSameEntries(p: Pool, run: seq<Action>)
    requires PoolOk(p) && ValidRun(p, run)
    ensures SameEntries(p.queue, Exec(p, run).queue) && NoReturn(p, Exec(p, run))
    decreases |run|
  {
    if run != [] {
      var m := Do(p, run[0]);
      StepKeeps(p, run[0]);
      StepSameEntries(p, run[0]);
      RunSameEntries(m, run[1..]);
      var r := Exec(m, run[1..]);
      forall i, j | 0 <= i < |p.queue| && 0 <= j < |r.queue| && p.queue[i].id == r.queue[j].id
        ensures p.queue[i].priority == r.queue[j].priority && p.queue[i].grouping == r.queue[j].grouping
      {
        assert r.queue[j].id in Ids(r.queue);
        assert p.queue[i].id in Ids(p.queue);
        assert r.queue[j].id in Ids(m.queue);
        var l :| 0 <= l < |m.queue| && m.queue[l].id == p.queue[i].id;
      }
    }
  }

  /**
   The queue never reorders: two messages that are queued before and after any run stand in the
   same relative order, so a message whose processing failed is back in its old place.
   */
  lemma OrderIsStable(p: Pool, run: seq<Action>, i: nat, j: nat, i': nat, j': nat)
    requires PoolOk(p) && ValidRun(p, run)
    requires i < j < |p.queue| && i' < |Exec(p, run).queue| && j' < |Exec(p, run).queue|
    requires Exec(p, run).queue[i'].id == p.queue[i].id && Exec(p, run).queue[j'].id == p.queue[j].id
    ensures i' < j'
  {
    RunKeeps(p, run);
    RunSameEntries(p, run);
    SameOrder(p.queue, Exec(p, run).queue, i, j, i', j');
  }

  lemma SameOrder(q: seq<MsgEntry>, r: seq<MsgEntry>, i: nat, j: nat, i': nat, j': nat)
    requires Ordered(q) && Ordered(r) && DistinctIds(q) && SameEntries(q, r)
    requires i < j < |q| && i' < |r| && j' < |r| && r[i'].id == q[i].id && r[j'].id == q[j].id
    ensures i' < j'
  {
    assert Before(q[i], q[j]);
    assert Before(r[i'], r[j']) && !Before(r[j'], r[i']);
  }

  /** A worker takes the most urgent waiting message, and a failed one returns to its place. */
  lemma TakeThenPutBack(p: Pool, w: nat)
    requires PoolOk(p) && CanTake(p, w)
    requires Take(p, w).queue != p.queue
    ensures var k := FirstWaiting(p.queue);
      && k < |p.queue| && Take(p, w).workers[w].hold == Message(p.queue[k].id)
      && (forall j :: 0 <= j < |p.queue| && j != k && !p.queue[j].processing ==> Before(p.queue[k], p.queue[j]))
    ensures CanFinish(Take(p, w), w) && Finish(Take(p, w), w, false).queue == p.queue
  {
    var k := FirstWaiting(p.queue);
    var p' := Take(p, w);
    TakeKeeps(p, w);
    HeldIsQueued(p', w);
    assert Find(p'.queue, p.queue[k].id) == k by {
      assert forall j :: 0 <= j < |p.queue| ==> p'.queue[j].id == p.queue[j].id;
    }
    assert p.queue[k := p.queue[k].(processing := true)][k := p.queue[k]] == p.queue;
  }

  // ---------------------------------------------------------------- groups

  /**
   In every reachable state two workers in use belong together: both ungrouped, or in the same
   group below the "alone" base; whoever works at or above that base is the only one in use.
   */
  lemma InUseWorkersAreCompatible(minThreads: nat, maxThreads: nat, run: seq<Action>, v: nat, w: nat)
    requires ValidRun(Empty(minThreads, maxThreads), run)
    requires var p := Exec(Empty(minThreads, maxThreads), run);
      v < |p.workers| && w < |p.workers| && v != w && p.workers[v].inUse && p.workers[w].inUse
    ensures var p := Exec(Empty(minThreads, maxThreads), run);
      && p.workers[v].grouping == p.workers[w].grouping < ALONE_BASE
  {
    RunKeeps(Empty(minThreads, maxThreads), run);
  }

  // ---------------------------------------------------------------- number of threads

  /**
   AddThreads called below the limit respects it exactly when the configured minimum does:
   the unsigned difference test starts one thread more once the minimum has overshot.
   */
  lemma AddThreadsWithinLimit(p: Pool)
    requires NumActive(p.workers) < p.maxThreads
    ensures NumActive(AddThreads(p).workers) <= p.maxThreads <==> p.minThreads <= p.maxThreads
  {
    hide StartUpTo, Start, InGroup, NumActive;
    StartAddsOne(StartUpTo(p.workers, p.minThreads));
  }

  /** Threads that have just been started are not in use. */
  lemma StartLeavesUse(p: Pool, grouping: nat)
    requires HoldInv(p)
    ensures InGroup(Start(p.workers), grouping) <==> InGroup(p.workers, grouping)
  {
    var ws := p.workers;
    var k := FirstInactive(ws);
    assert forall w :: 0 <= w < |ws| && w != k ==> Start(ws)[w] == ws[w];
  }

  lemma {:induction false} StartUpToLeavesUse(p: Pool, min: nat, grouping: nat)
    requires PoolOk(p)
    ensures InGroup(StartUpTo(p.workers, min), grouping) <==> InGroup(p.workers, grouping)
    decreases min - NumActive(p.workers)
  {
    hide InGroup, Start, NumActive, HoldInv, QueueInv;
    StartAddsOne(p.workers);
    if NumActive(p.workers) < min {
      StartLeavesUse(p, grouping);
      StartKeeps(p);
      StartUpToLeavesUse(p.(workers := Start(p.workers)), min, grouping);
    }
  }

  /** Another thread would help: fewer threads than messages, and the front one fits to those in use. */
  predicate MoreWouldHelp(p: Pool, active: nat) {
    |p.queue| > active && InGroup(p.workers, p.queue[0].grouping)
  }

  /**
   Below the maximum the minimum is made up, and one thread more is started exactly if it would help;
   at the maximum nothing happens.
   */
  lemma ThreadsAreAdded(p: Pool)
    requires PoolOk(p)
    ensures var n := NumActive(p.workers);
      var base := if n < p.minThreads then p.minThreads else n;
      NumActive(AddThreads(p).workers) ==
        if n >= p.maxThreads then n
        else if base != p.maxThreads && MoreWouldHelp(p, base) then base + 1
        else base
  {
    hide StartUpTo, Start, InGroup, NumActive, PoolOk;
    var ws := StartUpTo(p.workers, p.minThreads);
    StartAddsOne(ws);
    if p.queue != [] {
      StartUpToLeavesUse(p, p.minThreads, p.queue[0].grouping);
    }
  }

  /** A pool that has its minimum and room for more grows by one exactly if one more thread would help. */
  lemma GrowsByNeed(p: Pool)
    requires PoolOk(p) && p.minThreads <= NumActive(p.workers) < p.maxThreads
    ensures NumActive(AddThreads(p).workers) == NumActive(p.workers) + (if MoreWouldHelp(p, NumActive(p.workers)) then 1 else 0)
  {
    ThreadsAreAdded(p);
  }

  /** Without any threads allowed, the test at the head of AddThreads starts none. */
  predicate Bounded(minThreads: nat, maxThreads: nat) { minThreads <= maxThreads || maxThreads == 0 }

  lemma StepWithinLimit(p: Pool, s: Action)
    requires LimitInv(p) && Bounded(p.minThreads, p.maxThreads) && CanDo(p, s)
    ensures LimitInv(Do(p, s))
  {
    match s
    case DoAddThreads => if NumActive(p.workers) < p.maxThreads { AddThreadsWithinLimit(p); }
    case DoTake(w) => NumActiveUpdate(p.workers, w, Take(p, w).workers[w]);
    case DoFinish(w, ok) => NumActiveUpdate(p.workers, w, p.workers[w].(hold := Nothing));
    case DoIdle(w) => NumActiveUpdate(p.workers, w, p.workers[w].(inUse := false));
    case DoKill(w) => NumActiveUpdate(p.workers, w, p.workers[w].(exiting := true));
    case DoExit(w) => NumActiveUpdate(p.workers, w, p.workers[w].(active := false, inUse := false));
    case _ =>
  }

  lemma {:induction false} LiveThreadsNeverExceedLimit(p: Pool, run: seq<Action>)
    requires LimitInv(p) && Bounded(p.minThreads, p.maxThreads) && ValidRun(p, run)
    ensures NumActive(Exec(p, run).workers) <= p.maxThreads
    decreases |run|
  {
    if run != [] {
      StepWithinLimit(p, run[0]);
      LiveThreadsNeverExceedLimit(Do(p, run[0]), run[1..]);
    }
  }

  ghost predicate WithinLimit(minThreads: nat, maxThreads: nat, run: seq<Action>) {
    ValidRun(Empty(minThreads, maxThreads), run) ==>
      NumActive(Exec(Empty(minThreads, maxThreads), run).workers) <= maxThreads
  }

  /**
   The maximum is kept by every run exactly if it is not below the minimum, or is 0: otherwise the
   first call that adds threads starts as many as the minimum says.
   */
  lemma LimitIsKeptExactly(minThreads: nat, maxThreads: nat)
    ensures (forall run :: WithinLimit(minThreads, maxThreads, run)) <==> Bounded(minThreads, maxThreads)
    ensures minThreads > maxThreads > 0 ==>
      ValidRun(Empty(minThreads, maxThreads), [DoAddThreads]) &&
      NumActive(Exec(Empty(minThreads, maxThreads), [DoAddThreads]).workers) == minThreads
  {
    var p := Empty(minThreads, maxThreads);
    if Bounded(minThreads, maxThreads) {
      forall run ensures WithinLimit(minThreads, maxThreads, run) {
        if ValidRun(p, run) {
          LiveThreadsNeverExceedLimit(p, run);
        }
      }
    } else {
      var run := [DoAddThreads];
      assert run[1..] == [] && CanDo(p, run[0]) && ValidRun(Do(p, run[0]), []);
      assert Exec(p, run) == AddThreads(p);
      assert !WithinLimit(minThreads, maxThreads, run);
    }
  }

  lemma HeldPrefix(ws: seq<Worker>, n: nat)
    requires |ws| == n + 1
    ensures HeldIds(ws) == HeldIds(ws[..n]) + (if ws[n].hold.Message? then {ws[n].hold.id} else {})
  {
    assert forall w :: 0 <= w < n ==> ws[..n][w] == ws[w];
  }

  lemma {:induction false} HeldCount(ws: seq<Worker>)
    requires forall w :: 0 <= w < |ws| && ws[w].hold.Message? ==> ws[w].active
    ensures |HeldIds(ws)| <= NumActive(ws)
  {
    if ws != [] {
      var n := |ws| - 1;
      HeldCount(ws[..n]);
      HeldPrefix(ws, n);
      hide HeldIds;
      var here := if ws[n].hold.Message? then {ws[n].hold.id} else {};
      assert |HeldIds(ws[..n]) + here| <= |HeldIds(ws[..n])| + |here|;
    }
  }

  lemma {:induction false} IdCount(q: seq<MsgEntry>)
    requires DistinctIds(q)
    ensures |Ids(q)| == |q|
  {
    if q != [] {
      var n := |q| - 1;
      IdCount(q[..n]);
      assert Ids(q) == Ids(q[..n]) + {q[n].id};
    }
  }

  /** When every queued message is being processed, there are no more of them than live threads. */
  lemma AllProcessingFitsThreads(p: Pool)
    requires PoolOk(p)
    requires forall i :: 0 <= i < |p.queue| ==> p.queue[i].processing
    ensures |p.queue| <= NumActive(p.workers)
  {
    IdCount(p.queue);
    assert Ids(p.queue) == ProcessingIds(p.queue);
    HeldCount(p.workers);
  }
}
