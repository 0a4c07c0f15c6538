/**
 CThreadPool and CThreadWork of ECSUtil/ThreadPool.h as a class. Every method is one critical
 section of the original, with its loops over the two lists, and does to the abstract state
 exactly what the function of the same name in PoolState does.
 */
module ThreadPool {
  import opened PoolState
  import opened PoolInvariants
  import PoolTheorems

  class ThreadPool {
    var queue: seq<MsgEntry>
    var workers: seq<Worker>
    var nextId: nat
    var minThreads: nat
    var maxThreads: nat
    ghost var finished: set<nat>

    ghost function Abs(): Pool
      reads this
    {
      Pool(queue, workers, nextId, finished, minThreads, maxThreads)
    }

    ghost predicate Valid()
      reads this
    {
      PoolOk(Abs())
    }

    constructor (minThreads: nat, maxThreads: nat)
      ensures Valid()
      ensures Abs() == Pool([], [], 0, {}, minThreads, maxThreads)
    {
      queue, workers, nextId, finished := [], [], 0, {};
      this.minThreads, this.maxThreads := minThreads, maxThreads;
    }

    /** The test that decides whether a message may run beside the workers in use. */
    method IfInGroup(grouping: nat) returns (ok: bool)
      ensures ok == InGroup(workers, grouping)
    {
      for w := 0 to |workers|
        invariant forall v :: 0 <= v < w && workers[v].inUse ==> Compatible(grouping, workers[v].grouping)
      {
        if workers[w].inUse {
          if grouping != DONT_CARE || workers[w].grouping != DONT_CARE {
            if grouping >= ALONE_BASE || workers[w].grouping >= ALONE_BASE {
              return false;
            }
            if workers[w].grouping != grouping {
              return false;
            }
          }
        }
      }
      return true;
    }

    method GetNumThreads() returns (n: nat)
      ensures n == NumActive(workers)
    {
      n := 0;
      for w := 0 to |workers|
        invariant n == NumActive(workers[..w])
      {
        assert workers[..w + 1][..w] == workers[..w];
        if workers[w].active {
          n := n + 1;
        }
      }
      assert workers[..|workers|] == workers;
    }

    /** SendMessageToPool without a queue limit: UpdatePerf walks the list from its end. */
    method SendMessageToPool(priority: nat, grouping: nat) returns (id: nat)
      requires Valid()
      modifies this
      ensures Valid()
      ensures Abs() == Send(old(Abs()), priority, grouping) && id == old(nextId)
    {
      SendKeeps(Abs(), priority, grouping);
      id := nextId;
      var k := |queue|;
      while k > 0 && queue[k - 1].priority < priority
        invariant 0 <= k <= |queue|
        invariant forall j :: k <= j < |queue| ==> queue[j].priority < priority
      {
        k := k - 1;
      }
      assert k == InsertPos(queue, priority);
      queue := queue[..k] + [MsgEntry(id, priority, grouping, false)] + queue[k..];
      nextId := nextId + 1;
      assert Abs() == Send(old(Abs()), priority, grouping);
    }

    method StartNewThread()
      requires Valid()
      modifies this`workers
      ensures Valid()
      ensures workers == Start(old(workers))
    {
      StartKeeps(Abs());
      for k := 0 to |workers|
        invariant workers == old(workers)
        invariant FirstInactive(workers) == k + FirstInactive(workers[k..])
      {
        if !workers[k].active {
          workers := workers[k := Worker(true, false, false, workers[k].grouping, Nothing)];
          return;
        }
      }
      workers := workers + [FreshWorker];
    }

    method AddThreads()
      requires Valid()
      modifies this`workers
      ensures Valid()
      ensures Abs() == PoolState.AddThreads(old(Abs()))
      ensures minThreads <= old(NumActive(workers)) < maxThreads ==>
        NumActive(workers) == old(NumActive(workers)) + (if PoolTheorems.MoreWouldHelp(old(Abs()), old(NumActive(workers))) then 1 else 0)
    {
      PoolTheorems.ThreadsAreAdded(Abs());
      var n := GetNumThreads();
      if n < maxThreads {
        while n < minThreads
          invariant Valid() && n == NumActive(workers)
          invariant StartUpTo(workers, minThreads) == StartUpTo(old(workers), minThreads)
        {
          StartAddsOne(workers);
          StartNewThread();
          n := GetNumThreads();
        }
        if maxThreads != n && |queue| > n {
          var ok := IfInGroup(queue[0].grouping);
          if ok {
            StartNewThread();
          }
        }
      }
    }

    /** DoWork looks for the first message that nobody processes and claims it for worker w. */
    method TakeMessage(w: nat) returns (taken: Hold)
      requires Valid() && CanTake(Abs(), w)
      modifies this`queue, this`workers
      ensures Valid()
      ensures Abs() == Take(old(Abs()), w) && taken == workers[w].hold
    {
      TakeKeeps(Abs(), w);
      var k := 0;
      while k < |queue| && queue[k].processing
        invariant k <= |queue| && FirstWaiting(queue) == k + FirstWaiting(queue[k..])
      {
        k := k + 1;
      }
      if k == |queue| {
        return Nothing;
      }
      var e := queue[k];
      workers := workers[w := workers[w].(grouping := e.grouping)];
      var ok := IfInGroup(e.grouping);
      OwnGroupingDoesNotMatter(old(workers), w, e.grouping);
      if !ok {
        return Nothing;
      }
      queue := queue[k := e.(processing := true)];
      workers := workers[w := workers[w].(inUse := true, hold := Message(e.id))];
      assert Abs() == Take(old(Abs()), w);
      return Message(e.id);
    }

    /** The group test ignores the asking worker, which is not in use yet. */
    static lemma OwnGroupingDoesNotMatter(ws: seq<Worker>, w: nat, grouping: nat)
      requires w < |ws| && !ws[w].inUse
      ensures InGroup(ws[w := ws[w].(grouping := grouping)], grouping) == InGroup(ws, grouping)
    {
      var ws' := ws[w := ws[w].(grouping := grouping)];
      assert forall v :: 0 <= v < |ws| ==> ws'[v].inUse == ws[v].inUse;
      assert forall v :: 0 <= v < |ws| && v != w ==> ws'[v] == ws[v];
      if !InGroup(ws, grouping) {
        var v :| 0 <= v < |ws| && ws[v].inUse && !Compatible(grouping, ws[v].grouping);
        assert ws'[v] == ws[v];
      }
    }

    /** The search for the worker's own entry. */
    method FindMessage(id: nat) returns (k: nat)
      ensures k == Find(queue, id)
    {
      k := 0;
      assert queue[0..] == queue;
      while k < |queue| && queue[k].id != id
        invariant k <= |queue| && Find(queue, id) == k + Find(queue[k..], id)
      {
        k := k + 1;
      }
    }

    /** DoProcess has returned: erase the message, or leave it waiting where it is. */
    method FinishMessage(w: nat, ok: bool)
      requires Valid() && CanFinish(Abs(), w)
      modifies this`queue, this`workers, this`finished
      ensures Valid()
      ensures Abs() == Finish(old(Abs()), w, ok)
    {
      hide QueueInv, HoldInv, GroupInv;
      FinishKeeps(Abs(), w, ok);
      HeldIsQueued(Abs(), w);
      var id := workers[w].hold.id;
      workers := workers[w := workers[w].(hold := Nothing)];
      var k := FindMessage(id);
      if ok {
        queue := queue[..k] + queue[k + 1..];
        finished := finished + {id};
      } else {
        queue := queue[k := queue[k].(processing := false)];
      }
    }

    method SetIdle(w: nat)
      requires Valid() && CanIdle(Abs(), w)
      modifies this`workers
      ensures Valid()
      ensures Abs() == Idle(old(Abs()), w)
    {
      WorkerFlagsKeep(Abs(), w, workers[w].(inUse := false));
      workers := workers[w := workers[w].(inUse := false)];
    }

    /** The end of one round of DoWork: leave when the pool has more threads than allowed. */
    method KillIfTooMany(w: nat) returns (leave: bool)
      requires Valid() && CanTake(Abs(), w)
      modifies this`workers
      ensures Valid()
      ensures leave == (NumActive(old(workers)) > maxThreads)
      ensures Abs() == if leave then Kill(old(Abs()), w) else old(Abs())
    {
      WorkerFlagsKeep(Abs(), w, workers[w].(exiting := true));
      var n := GetNumThreads();
      leave := n > maxThreads;
      if leave {
        workers := workers[w := workers[w].(exiting := true)];
      }
    }

    method ExitInstance(w: nat)
      requires Valid() && CanExit(Abs(), w)
      modifies this`workers
      ensures Valid()
      ensures Abs() == Exit(old(Abs()), w)
    {
      WorkerFlagsKeep(Abs(), w, workers[w].(active := false, inUse := false));
      workers := workers[w := workers[w].(active := false, inUse := false)];
    }
  }
}
