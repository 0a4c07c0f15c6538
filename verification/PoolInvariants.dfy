/** Every critical section of the pool keeps the invariant, so every run does. */
module PoolInvariants {
  import opened PoolState

  // ---------------------------------------------------------------- sets of identities

  lemma IdsOfInsert(q: seq<MsgEntry>, e: MsgEntry)
    ensures Ids(Insert(q, e)) == Ids(q) + {e.id}
    ensures !e.processing ==> ProcessingIds(Insert(q, e)) == ProcessingIds(q)
  {
    var k := InsertPos(q, e.priority);
    var r := Insert(q, e);
    assert r[k] == e;
    assert forall i :: 0 <= i < k ==> r[i] == q[i];
    assert forall i :: k <= i < |q| ==> r[i + 1] == q[i];
  }

  lemma IdsOfErase(q: seq<MsgEntry>, k: nat)
    requires k < |q| && DistinctIds(q)
    ensures Ids(q[..k] + q[k + 1..]) == Ids(q) - {q[k].id}
    ensures ProcessingIds(q[..k] + q[k + 1..]) == ProcessingIds(q) - {q[k].id}
  {
    var r := q[..k] + q[k + 1..];
    assert forall i :: 0 <= i < k ==> r[i] == q[i];
    assert forall i :: k < i < |q| ==> r[i - 1] == q[i];
    assert forall i :: 0 <= i < |r| ==> r[i] == q[if i < k then i else i + 1];
  }

  lemma IdsOfFlag(q: seq<MsgEntry>, k: nat, b: bool)
    requires k < |q| && DistinctIds(q)
    ensures var r := q[k := q[k].(processing := b)];
      Ids(r) == Ids(q) &&
      ProcessingIds(r) == if b then ProcessingIds(q) + {q[k].id} else ProcessingIds(q) - {q[k].id}
  {
    var r := q[k := q[k].(processing := b)];
    assert r[k].id == q[k].id;
    assert forall i :: 0 <= i < |q| ==> r[i].id == q[i].id;
    assert forall i :: 0 <= i < |q| && i != k ==> r[i] == q[i];
  }

  lemma HeldAfter(ws: seq<Worker>, w: nat, x: Worker)
    requires w < |ws|
    requires forall v, u :: (0 <= v < u < |ws| && ws[v].hold.Message? && ws[u].hold.Message?)
               ==> ws[v].hold.id != ws[u].hold.id
    requires x.hold == ws[w].hold || x.hold.Nothing? || ws[w].hold.Nothing?
    ensures HeldIds(ws[w := x]) ==
      HeldIds(ws) - (if ws[w].hold.Message? then {ws[w].hold.id} else {})
                  + (if x.hold.Message? then {x.hold.id} else {})
  {
    var ws' := ws[w := x];
    assert ws'[w] == x;
    assert forall v :: 0 <= v < |ws| && v != w ==> ws'[v] == ws[v];
  }

  // ---------------------------------------------------------------- one step

  lemma SendKeeps(p: Pool, priority: nat, grouping: nat)
    requires PoolOk(p)
    ensures PoolOk(Send(p, priority, grouping))
  {
    var e := MsgEntry(p.nextId, priority, grouping, false);
    var p' := Send(p, priority, grouping);
    forall i | 0 <= i < |p.queue| ensures p.queue[i].id < e.id {
      assert p.queue[i].id in Ids(p.queue);
    }
    InsertKeepsOrder(p.queue, e);
    IdsOfInsert(p.queue, e);
    forall w, i | 0 <= w < |p'.workers| && 0 <= i < |p'.queue| && p'.workers[w].hold == Message(p'.queue[i].id)
      ensures p'.workers[w].grouping == p'.queue[i].grouping
    {
      assert p.workers[w].hold.id in HeldIds(p.workers);
      var k := InsertPos(p.queue, priority);
      assert p'.queue[i] == if i < k then p.queue[i] else if i == k then e else p.queue[i - 1];
    }
  }

  lemma StartKeeps(p: Pool)
    requires PoolOk(p)
    ensures PoolOk(p.(workers := Start(p.workers)))
  {
    var k := FirstInactive(p.workers);
    var ws := p.workers;
    var ws' := Start(ws);
    if k < |ws| {
      HeldAfter(ws, k, FreshWorker.(grouping := ws[k].grouping));
    } else {
      assert forall v :: 0 <= v < |ws| ==> ws'[v] == ws[v];
      assert ws'[|ws|] == FreshWorker;
    }
  }

  lemma StartUpToKeeps(p: Pool, min: nat)
    requires PoolOk(p)
    ensures PoolOk(p.(workers := StartUpTo(p.workers, min)))
    decreases min - NumActive(p.workers)
  {
    if NumActive(p.workers) < min {
      StartKeeps(p);
      StartAddsOne(p.workers);
      StartUpToKeeps(p.(workers := Start(p.workers)), min);
    }
  }

  lemma AddThreadsKeeps(p: Pool)
    requires PoolOk(p)
    ensures PoolOk(AddThreads(p))
  {
    StartUpToKeeps(p, p.minThreads);
    StartKeeps(p.(workers := StartUpTo(p.workers, p.minThreads)));
  }

  lemma TakeKeeps(p: Pool, w: nat)
    requires PoolOk(p) && CanTake(p, w)
    ensures PoolOk(Take(p, w))
  {
    var k := FirstWaiting(p.queue);
    if k < |p.queue| {
      var e := p.queue[k];
      var p' := Take(p, w);
      HeldAfter(p.workers, w, p'.workers[w]);
      if InGroup(p.workers, e.grouping) {
        IdsOfFlag(p.queue, k, true);
        NotHeld(p, k);
        assert forall i :: 0 <= i < |p.queue| ==> p'.queue[i].id == p.queue[i].id && p'.queue[i].grouping == p.queue[i].grouping;
      }
    }
  }

  /** An entry without the processing flag is held by nobody. */
  lemma NotHeld(p: Pool, k: nat)
    requires PoolOk(p) && k < |p.queue| && !p.queue[k].processing
    ensures p.queue[k].id !in HeldIds(p.workers)
    ensures forall w :: 0 <= w < |p.workers| ==> p.workers[w].hold != Message(p.queue[k].id)
  {
    assert forall i :: 0 <= i < |p.queue| && i != k ==> p.queue[i].id != p.queue[k].id;
    assert forall w :: 0 <= w < |p.workers| && p.workers[w].hold.Message? ==> p.workers[w].hold.id in HeldIds(p.workers);
  }

  /** What a worker holds is still in the queue, flagged. */
  lemma HeldIsQueued(p: Pool, w: nat)
    requires PoolOk(p) && w < |p.workers| && p.workers[w].hold.Message?
    ensures var k := Find(p.queue, p.workers[w].hold.id);
      k < |p.queue| && p.queue[k].id == p.workers[w].hold.id && p.queue[k].processing
  {
    assert p.workers[w].hold.id in HeldIds(p.workers);
    var i :| 0 <= i < |p.queue| && p.queue[i].processing && p.queue[i].id == p.workers[w].hold.id;
  }

  lemma EraseKeeps(p: Pool, w: nat)
    requires PoolOk(p) && CanFinish(p, w)
    ensures PoolOk(Finish(p, w, true))
  {
    HeldIsQueued(p, w);
    var k := Find(p.queue, p.workers[w].hold.id);
    var p' := Finish(p, w, true);
    HeldAfter(p.workers, w, p'.workers[w]);
    IdsOfErase(p.queue, k);
    assert forall i :: 0 <= i < |p'.queue| ==> p'.queue[i] == p.queue[if i < k then i else i + 1];
    assert QueueInv(p') by {
      hide HoldInv, GroupInv, HeldIds, ProcessingIds;
      assert Ordered(p'.queue) && DistinctIds(p'.queue);
    }
  }

  lemma UnflagKeeps(p: Pool, w: nat)
    requires PoolOk(p) && CanFinish(p, w)
    ensures PoolOk(Finish(p, w, false))
  {
    HeldIsQueued(p, w);
    var k := Find(p.queue, p.workers[w].hold.id);
    var p' := Finish(p, w, false);
    HeldAfter(p.workers, w, p'.workers[w]);
    IdsOfFlag(p.queue, k, false);
    assert forall i :: 0 <= i < |p.queue| ==> p'.queue[i] == p.queue[i].(processing := p'.queue[i].processing);
    assert QueueInv(p') by {
      hide HoldInv, GroupInv, HeldIds, ProcessingIds;
      assert Ordered(p'.queue) && DistinctIds(p'.queue);
    }
  }

  lemma FinishKeeps(p: Pool, w: nat, ok: bool)
    requires PoolOk(p) && CanFinish(p, w)
    ensures PoolOk(Finish(p, w, ok))
  {
    if ok { EraseKeeps(p, w); } else { UnflagKeeps(p, w); }
  }

  lemma WorkerFlagsKeep(p: Pool, w: nat, x: Worker)
    requires PoolOk(p) && w < |p.workers|
    requires x.hold == p.workers[w].hold == Nothing
    requires !x.inUse
    ensures PoolOk(p.(workers := p.workers[w := x]))
  {
    HeldAfter(p.workers, w, x);
  }

  lemma StepKeeps(p: Pool, s: Action)
    requires PoolOk(p) && CanDo(p, s)
    ensures PoolOk(Do(p, s))
  {
    match s
    case DoSend(pr, g) => SendKeeps(p, pr, g);
    case DoAddThreads => AddThreadsKeeps(p);
    case DoTake(w) => TakeKeeps(p, w);
    case DoFinish(w, ok) => FinishKeeps(p, w, ok);
    case DoIdle(w) => WorkerFlagsKeep(p, w, p.workers[w].(inUse := false));
    case DoKill(w) => WorkerFlagsKeep(p, w, p.workers[w].(exiting := true));
    case DoExit(w) => WorkerFlagsKeep(p, w, p.workers[w].(active := false, inUse := false));
  }
}
