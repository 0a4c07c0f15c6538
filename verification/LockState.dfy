/**
 The re-entrant reader/writer lock of ECSUtil/CRWLock.cpp as a state machine over all threads.
 The operating-system lock below it is neither re-entrant nor aware of its owners: releasing it
 in a mode in which it is not held leaves it corrupt.
 */
module LockState {

  datatype OsLock = Shared(count: nat) | Exclusive | Corrupt

  datatype OsCall = TakeShared | TakeExclusive | GiveShared | GiveExclusive

  /**
   A CRWLockAcquire that is registered with the lock. `stamp` numbers the moments at which
   acquires became locked, `waiting` marks a thread blocked in the operating-system call.
   */
  datatype Acquire = Acquire(thread: nat, locked: bool, write: bool, waiting: bool, stamp: nat)

  /** `log` lists the operating-system calls with the thread that made them. */
  datatype Lock = Lock(instances: seq<Acquire>, os: OsLock, clock: nat, log: seq<(nat, OsCall)>)

  const Unused := Lock([], Shared(0), 0, [])

  /** Another acquire of the same thread is locked. */
  predicate Nested(s: Lock, k: nat)
    requires k < |s.instances|
  {
    exists j :: 0 <= j < |s.instances| && j != k
      && s.instances[j].thread == s.instances[k].thread && s.instances[j].locked
  }

  predicate NestedInWrite(s: Lock, k: nat)
    requires k < |s.instances|
  {
    exists j :: 0 <= j < |s.instances| && j != k
      && s.instances[j].thread == s.instances[k].thread && s.instances[j].locked && s.instances[j].write
  }

  function Release(os: OsLock, write: bool): OsLock {
    if write then (if os.Exclusive? then Shared(0) else Corrupt)
    else (if os.Shared? && os.count > 0 then Shared(os.count - 1) else Corrupt)
  }

  // ---------------------------------------------------------------- steps

  function Create(s: Lock, thread: nat, write: bool): Lock {
    s.(instances := s.instances + [Acquire(thread, false, write, false, 0)])
  }

  /** Unlock: only the thread's last locked acquire releases the operating-system lock. */
  function Unlock(s: Lock, k: nat): Lock
    requires k < |s.instances|
  {
    var a := s.instances[k];
    var off := s.(instances := s.instances[k := a.(locked := false)]);
    if !a.locked then s
    else if Nested(s, k) then off
    else off.(os := Release(s.os, a.write), log := s.log + [(a.thread, if a.write then GiveExclusive else GiveShared)])
  }

  /** The first half of Lock: drop an old lock, then see what the thread already has. */
  function Request(s: Lock, k: nat, write: bool): Lock
    requires k < |s.instances|
  {
    var u := Unlock(s, k);
    var a := u.instances[k];
    if Nested(u, k) && (NestedInWrite(u, k) || !write) then
      u.(instances := u.instances[k := a.(write := write, locked := true, stamp := u.clock)], clock := u.clock + 1)
    else
      u.(instances := u.instances[k := a.(write := write, waiting := true)])
  }

  /** The operating system may let this waiting acquire in. */
  predicate Grantable(s: Lock, k: nat) {
    && k < |s.instances| && s.instances[k].waiting
    && (if s.instances[k].write then s.os == Shared(0) else s.os.Shared?)
  }

  /** The second half of Lock: the operating-system call returns. */
  function Grant(s: Lock, k: nat): Lock
    requires Grantable(s, k)
  {
    var a := s.instances[k];
    Lock(s.instances[k := a.(locked := true, waiting := false, stamp := s.clock)],
         if a.write then Exclusive else Shared(s.os.count + 1), s.clock + 1,
         s.log + [(a.thread, if a.write then TakeExclusive else TakeShared)])
  }

  /** The destructor: unlock and leave the instance list. */
  function Destroy(s: Lock, k: nat): Lock
    requires k < |s.instances|
  {
    var u := Unlock(s, k);
    u.(instances := u.instances[..k] + u.instances[k + 1..])
  }

  datatype Step =
    | DoCreate(thread: nat, write: bool)
    | DoRequest(k: nat, write: bool)
    | DoGrant(k: nat)
    | DoUnlock(k: nat)
    | DoDestroy(k: nat)

  /** The thread is not blocked inside Lock. */
  ghost predicate Running(s: Lock, thread: nat) {
    forall j :: 0 <= j < |s.instances| && s.instances[j].thread == thread ==> !s.instances[j].waiting
  }

  /** Unlocking k now is last-in-first-out within its thread. */
  ghost predicate Innermost(s: Lock, k: nat)
    requires k < |s.instances|
  {
    s.instances[k].locked ==>
      forall j :: (0 <= j < |s.instances| && j != k && s.instances[j].thread == s.instances[k].thread && s.instances[j].locked)
        ==> s.instances[j].stamp < s.instances[k].stamp
  }

  /** A step that a disciplined program can make. Asking for an upgrade is not excluded. */
  ghost predicate Enabled(s: Lock, step: Step) {
    match step
    case DoCreate(t, _) => Running(s, t)
    case DoGrant(k) => Grantable(s, k)
    case DoRequest(k, _) => k < |s.instances| && Running(s, s.instances[k].thread) && Innermost(s, k)
    case DoUnlock(k) => k < |s.instances| && Running(s, s.instances[k].thread) && Innermost(s, k)
    case DoDestroy(k) => k < |s.instances| && Running(s, s.instances[k].thread) && Innermost(s, k)
  }

  ghost function Apply(s: Lock, step: Step): Lock
    requires Enabled(s, step)
  {
    match step
    case DoCreate(t, w) => Create(s, t, w)
    case DoRequest(k, w) => Request(s, k, w)
    case DoGrant(k) => Grant(s, k)
    case DoUnlock(k) => Unlock(s, k)
    case DoDestroy(k) => Destroy(s, k)
  }

  ghost predicate ValidRun(s: Lock, run: seq<Step>)
    decreases |run|
  {
    run == [] || (Enabled(s, run[0]) && ValidRun(Apply(s, run[0]), run[1..]))
  }

  ghost function Exec(s: Lock, run: seq<Step>): Lock
    requires ValidRun(s, run)
    decreases |run|
  {
    if run == [] then s else Exec(Apply(s, run[0]), run[1..])
  }
}
