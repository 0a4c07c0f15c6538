/**
 CRWLock with its CRWLockAcquire objects (ECSUtil/CRWLock.cpp) as a class. The loops run over the
 instance list under the list lock; each method does to the abstract state exactly what the
 function of LockState does, for which the exclusion properties are proved.
 */
module RWLock {
  import opened LockState

  class RWLock {
    var instances: seq<Acquire>
    var os: OsLock
    var clock: nat
    ghost var log: seq<(nat, OsCall)>

    ghost function Abs(): Lock
      reads this
    {
      Lock(instances, os, clock, log)
    }

    constructor ()
      ensures Abs() == Unused
    {
      instances, os, clock, log := [], Shared(0), 0, [];
    }

    /** The constructor of an acquire object enters it into the instance list. */
    method Register(thread: nat, write: bool) returns (k: nat)
      modifies this
      ensures Abs() == Create(old(Abs()), thread, write) && k == |old(instances)|
    {
      k := |instances|;
      instances := instances + [Acquire(thread, false, write, false, 0)];
    }

    /** The scan in Unlock: how many other acquires of the thread are locked. */
    method CountOtherLocks(k: nat) returns (count: nat)
      requires k < |instances|
      ensures count > 0 <==> Nested(Abs(), k)
    {
      count := 0;
      for j := 0 to |instances|
        invariant count > 0 <==> exists i :: 0 <= i < j && i != k && instances[i].thread == instances[k].thread && instances[i].locked
      {
        if j != k && instances[j].thread == instances[k].thread && instances[j].locked {
          count := count + 1;
        }
      }
    }

    method Unlock(k: nat)
      requires k < |instances|
      modifies this
      ensures Abs() == LockState.Unlock(old(Abs()), k)
    {
      var a := instances[k];
      if a.locked {
        var others := CountOtherLocks(k);
        if others > 0 {
          instances := instances[k := a.(locked := false)];
          return;
        }
        os := Release(os, a.write);
        log := log + [(a.thread, if a.write then GiveExclusive else GiveShared)];
        instances := instances[k := a.(locked := false)];
      }
    }

    /** The scan in Lock: does the thread have the lock already, and in write mode? */
    method ScanThread(k: nat) returns (threadLocked: bool, writeLocked: bool)
      requires k < |instances|
      ensures threadLocked <==> Nested(Abs(), k)
      ensures writeLocked <==> NestedInWrite(Abs(), k)
    {
      threadLocked, writeLocked := false, false;
      for j := 0 to |instances|
        invariant threadLocked <==> exists i :: 0 <= i < j && i != k && instances[i].thread == instances[k].thread && instances[i].locked
        invariant writeLocked <==> exists i :: 0 <= i < j && i != k && instances[i].thread == instances[k].thread && instances[i].locked && instances[i].write
      {
        if j != k && instances[j].thread == instances[k].thread && instances[j].locked {
          threadLocked := true;
          if instances[j].write {
            writeLocked := true;
          }
        }
      }
    }

    /** Lock up to the operating-system call; `done` when no such call is needed. */
    method BeginLock(k: nat, write: bool) returns (done: bool)
      requires k < |instances|
      modifies this
      ensures Abs() == Request(old(Abs()), k, write)
      ensures done <==> instances[k].locked
      ensures |instances| == |old(instances)| && instances[k].write == write && (!done ==> instances[k].waiting)
      ensures !Nested(old(Abs()), k) ==> !done
    {
      Unlock(k);
      ghost var u := Abs();
      assert u.instances[k] == old(instances[k]).(locked := false);
      var threadLocked, writeLocked := ScanThread(k);
      var a := instances[k];
      if threadLocked && (writeLocked || !write) {
        instances := instances[k := a.(write := write, locked := true, stamp := clock)];
        clock := clock + 1;
        return true;
      }
      instances := instances[k := a.(write := write, waiting := true)];
      return false;
    }

    /** The operating-system call returns. */
    method FinishLock(k: nat)
      requires Grantable(Abs(), k)
      modifies this
      ensures Abs() == Grant(old(Abs()), k)
    {
      var a := instances[k];
      os := if a.write then Exclusive else Shared(os.count + 1);
      log := log + [(a.thread, if a.write then TakeExclusive else TakeShared)];
      instances := instances[k := a.(locked := true, waiting := false, stamp := clock)];
      clock := clock + 1;
    }

    /** The destructor of an acquire object. */
    method Unregister(k: nat)
      requires k < |instances|
      modifies this
      ensures Abs() == Destroy(old(Abs()), k)
    {
      Unlock(k);
      instances := instances[..k] + instances[k + 1..];
    }
  }
}
