/** Mutual exclusion of the re-entrant lock under the last-in-first-out discipline. */
module LockTheorems {
  import opened LockState

  /** The threads that have at least one locked acquire. */
  ghost function Holders(q: seq<Acquire>): set<nat> {
    set j | 0 <= j < |q| && q[j].locked :: q[j].thread
  }

  ghost predicate Outermost(q: seq<Acquire>, k: nat) {
    && k < |q| && q[k].locked
    && forall j :: 0 <= j < |q| && q[j].locked && q[j].thread == q[k].thread ==> q[k].stamp <= q[j].stamp
  }

  /** What the log says about one thread: free, or holding in a mode, or confused. */
  datatype Possession = Free | Has(write: bool) | Confused

  ghost function Possess(log: seq<(nat, OsCall)>, t: nat): Possession {
    if log == [] then Free
    else
      var before := Possess(log[..|log| - 1], t);
      var (who, call) := log[|log| - 1];
      if who != t then before
      else match call
        case TakeShared => if before.Free? then Has(false) else Confused
        case TakeExclusive => if before.Free? then Has(true) else Confused
        case GiveShared => if before == Has(false) then Free else Confused
        case GiveExclusive => if before == Has(true) then Free else Confused
  }

  lemma PossessAppend(log: seq<(nat, OsCall)>, t: nat, call: OsCall, u: nat)
    ensures u != t ==> Possess(log + [(t, call)], u) == Possess(log, u)
    ensures Possess(log, t) == Free && call == TakeShared ==> Possess(log + [(t, call)], t) == Has(false)
    ensures Possess(log, t) == Free && call == TakeExclusive ==> Possess(log + [(t, call)], t) == Has(true)
    ensures Possess(log, t) == Has(false) && call == GiveShared ==> Possess(log + [(t, call)], t) == Free
    ensures Possess(log, t) == Has(true) && call == GiveExclusive ==> Possess(log + [(t, call)], t) == Free
  {
    assert (log + [(t, call)])[..|log|] == log;
  }

  ghost predicate StampsOk(s: Lock) {
    && (forall k :: 0 <= k < |s.instances| && s.instances[k].locked ==> s.instances[k].stamp < s.clock && !s.instances[k].waiting)
    && (forall j, k :: (0 <= j < k < |s.instances| && s.instances[j].locked && s.instances[k].locked)
          ==> s.instances[j].stamp != s.instances[k].stamp)
  }

  /** A thread waits once at a time; if for a shared lock, then it has none yet. */
  ghost predicate WaitersOk(s: Lock) {
    && (forall k :: 0 <= k < |s.instances| && s.instances[k].waiting && !s.instances[k].write
          ==> s.instances[k].thread !in Holders(s.instances))
    && (forall j, k :: 0 <= j < k < |s.instances| && s.instances[j].waiting && s.instances[k].waiting
          ==> s.instances[j].thread != s.instances[k].thread)
  }

  ghost predicate OsOk(s: Lock) {
    match s.os
    case Shared(n) => n == |Holders(s.instances)|
      && forall k :: 0 <= k < |s.instances| && s.instances[k].locked ==> !s.instances[k].write
    case Exclusive => |Holders(s.instances)| == 1
      && forall k: nat :: Outermost(s.instances, k) ==> s.instances[k].write
    case Corrupt => false
  }

  ghost predicate LogOk(s: Lock) {
    forall t: nat :: Possess(s.log, t) == Expected(s, t)
  }

  /** What the log must say about a thread. */
  ghost function Expected(s: Lock, t: nat): Possession {
    if t in Holders(s.instances) then Has(s.os.Exclusive?) else Free
  }

  ghost predicate Inv(s: Lock) {
    StampsOk(s) && WaitersOk(s) && OsOk(s) && LogOk(s)
  }

  // ---------------------------------------------------------------- steps

  /** The holders after one acquire changed. */
  lemma HoldersAfter(q: seq<Acquire>, k: nat, a: Acquire)
    requires k < |q| && a.thread == q[k].thread
    ensures a.locked ==> Holders(q[k := a]) == Holders(q) + {a.thread}
    ensures !a.locked && Nested(Lock(q, Shared(0), 0, []), k) ==> Holders(q[k := a]) == Holders(q)
    ensures !a.locked && !Nested(Lock(q, Shared(0), 0, []), k) ==> Holders(q[k := a]) == Holders(q) - {a.thread}
  {
    var r := q[k := a];
    assert forall j :: 0 <= j < |q| && j != k ==> r[j] == q[j];
    forall t | t in Holders(q) && t != a.thread ensures t in Holders(r) {
      var j :| 0 <= j < |q| && q[j].locked && q[j].thread == t;
      assert r[j].locked && r[j].thread == t;
    }
    forall t | t in Holders(r) && t != a.thread ensures t in Holders(q) {
      var j :| 0 <= j < |r| && r[j].locked && r[j].thread == t;
      assert q[j].locked && q[j].thread == t;
    }
    if a.locked { assert r[k].locked; }
    if Nested(Lock(q, Shared(0), 0, []), k) {
      var j :| 0 <= j < |q| && j != k && q[j].thread == a.thread && q[j].locked;
      assert r[j].locked && q[j].locked;
    }
  }

  /** An unlocked acquire of a thread that holds nothing else is not counted. */
  lemma NestedMeansHolder(s: Lock, k: nat)
    requires k < |s.instances| && !s.instances[k].locked
    ensures Nested(s, k) <==> s.instances[k].thread in Holders(s.instances)
  {
  }

  lemma AppendKeeps(s: Lock, a: Acquire)
    requires Inv(s) && !a.locked && !a.waiting
    ensures Inv(s.(instances := s.instances + [a]))
  {
    hide LogOk, Holders, Outermost;
    var s' := s.(instances := s.instances + [a]);
    AppendHolders(s.instances, a);
    assert OsOk(s') by {
      forall k: nat | Outermost(s'.instances, k) ensures k < |s.instances| && Outermost(s.instances, k) {
        AppendOutermost(s.instances, a, k);
      }
    }
    SameLog(s, s');
  }

  lemma AppendHolders(q: seq<Acquire>, a: Acquire)
    requires !a.locked
    ensures Holders(q + [a]) == Holders(q)
  {
    var r := q + [a];
    assert forall j :: 0 <= j < |q| ==> r[j] == q[j];
    forall t | t in Holders(q) ensures t in Holders(r) {
      var j :| 0 <= j < |q| && q[j].locked && q[j].thread == t;
      assert r[j].locked;
    }
  }

  lemma AppendOutermost(q: seq<Acquire>, a: Acquire, k: nat)
    requires !a.locked && Outermost(q + [a], k)
    ensures k < |q| && Outermost(q, k)
  {
    assert forall j :: 0 <= j < |q| ==> q[j] == (q + [a])[j];
  }

  lemma SameLog(s: Lock, s': Lock)
    requires LogOk(s) && s'.log == s.log && Holders(s'.instances) == Holders(s.instances) && s'.os == s.os
    ensures LogOk(s')
  {
    hide Holders, Possess;
    forall t: nat ensures Possess(s'.log, t) == Expected(s', t) {
      assert Possess(s.log, t) == Expected(s, t);
    }
  }

  /** One more call, which turns what the log must say about its thread into the new truth. */
  lemma LogCall(s: Lock, s': Lock, t: nat, call: OsCall)
    requires LogOk(s) && s'.log == s.log + [(t, call)]
    requires forall u: nat :: u != t ==> Expected(s', u) == Expected(s, u)
    requires match call
      case TakeShared => Expected(s, t) == Free && Expected(s', t) == Has(false)
      case TakeExclusive => Expected(s, t) == Free && Expected(s', t) == Has(true)
      case GiveShared => Expected(s, t) == Has(false) && Expected(s', t) == Free
      case GiveExclusive => Expected(s, t) == Has(true) && Expected(s', t) == Free
    ensures LogOk(s')
  {
    hide Expected, Possess;
    forall u: nat ensures Possess(s'.log, u) == Expected(s', u) {
      PossessAppend(s.log, t, call, u);
      assert Possess(s.log, u) == Expected(s, u) && Possess(s.log, t) == Expected(s, t);
    }
  }

  lemma UnlockKeeps(s: Lock, k: nat)
    requires Inv(s) && k < |s.instances| && Innermost(s, k)
    ensures Inv(Unlock(s, k)) && !Unlock(s, k).instances[k].locked
  {
    if s.instances[k].locked {
      hide LogOk, Outermost;
      HoldersAfter(s.instances, k, s.instances[k].(locked := false));
      assert Nested(Lock(s.instances, Shared(0), 0, []), k) <==> Nested(s, k);
      if Nested(s, k) { UnlockInner(s, k); } else { UnlockLast(s, k); }
    }
  }

  lemma UnlockInner(s: Lock, k: nat)
    requires Inv(s) && k < |s.instances| && Innermost(s, k) && s.instances[k].locked && Nested(s, k)
    requires Holders(s.instances[k := s.instances[k].(locked := false)]) == Holders(s.instances)
    ensures Inv(Unlock(s, k))
  {
    hide LogOk, Holders, Outermost, Innermost;
    var s' := Unlock(s, k);
    assert OsOk(s') by {
      forall j: nat | Outermost(s'.instances, j) ensures j < |s.instances| && Outermost(s.instances, j) { StillOutermost(s, k, s', j); }
    }
    SameLog(s, s');
  }

  /** Unlocking the innermost of several acquires does not change which one is outermost. */
  lemma StillOutermost(s: Lock, k: nat, s': Lock, j: nat)
    requires k < |s.instances| && Innermost(s, k) && s.instances[k].locked
    requires s'.instances == s.instances[k := s.instances[k].(locked := false)] && Outermost(s'.instances, j)
    ensures j < |s.instances| && Outermost(s.instances, j)
  {
    forall i | 0 <= i < |s.instances| && s.instances[i].locked && s.instances[i].thread == s.instances[j].thread
      ensures s.instances[j].stamp <= s.instances[i].stamp
    {
      assert i != k ==> s'.instances[i] == s.instances[i];
    }
  }

  lemma UnlockLast(s: Lock, k: nat)
    requires Inv(s) && k < |s.instances| && s.instances[k].locked && !Nested(s, k)
    requires Holders(s.instances[k := s.instances[k].(locked := false)]) == Holders(s.instances) - {s.instances[k].thread}
    ensures Inv(Unlock(s, k))
  {
    hide LogOk;
    var s' := Unlock(s, k);
    var a := s.instances[k];
    assert a.thread in Holders(s.instances);
    assert Outermost(s.instances, k);
    assert s.os.Exclusive? <==> a.write;
    if s.os.Exclusive? {
      assert Holders(s'.instances) == {};
      assert forall j :: 0 <= j < |s'.instances| && s'.instances[j].locked ==> s'.instances[j].thread in Holders(s'.instances);
      forall u: nat | u != a.thread ensures Expected(s', u) == Expected(s, u) {
        assert Holders(s.instances) - {a.thread} == {};
      }
    }
    LogCall(s, s', a.thread, if a.write then GiveExclusive else GiveShared);
  }

  lemma RequestKeeps(s: Lock, k: nat, write: bool)
    requires Inv(s) && Enabled(s, DoRequest(k, write))
    ensures Inv(Request(s, k, write))
  {
    hide Inv;
    UnlockKeeps(s, k);
    var u := Unlock(s, k);
    if Nested(u, k) && (NestedInWrite(u, k) || !write) {
      NestedRequestKeeps(u, k, write);
    } else {
      assert Running(u, u.instances[k].thread) by {
        assert forall j :: 0 <= j < |s.instances| ==>
          u.instances[j].waiting == s.instances[j].waiting && u.instances[j].thread == s.instances[j].thread;
      }
      WaitKeeps(u, k, write);
    }
  }

  lemma NestedRequestKeeps(u: Lock, k: nat, write: bool)
    requires Inv(u) && k < |u.instances| && !u.instances[k].locked && !u.instances[k].waiting
    requires Nested(u, k) && (NestedInWrite(u, k) || !write)
    ensures Inv(u.(instances := u.instances[k := u.instances[k].(write := write, locked := true, stamp := u.clock)], clock := u.clock + 1))
  {
    hide LogOk, Holders, Outermost;
    var a := u.instances[k].(write := write, locked := true, stamp := u.clock);
    var s' := u.(instances := u.instances[k := a], clock := u.clock + 1);
    HoldersAfter(u.instances, k, a);
    NestedMeansHolder(u, k);
    assert Holders(u.instances) + {a.thread} == Holders(u.instances);
    SameLog(u, s');
    forall j: nat | Outermost(s'.instances, j) ensures j < |u.instances| && j != k && Outermost(u.instances, j) { NewestIsNotOutermost(u, s', k, j); }
  }

  /** The newest acquire of a thread that already holds the lock is not its outermost one. */
  lemma NewestIsNotOutermost(u: Lock, s': Lock, k: nat, j: nat)
    requires StampsOk(u) && k < |u.instances| && Nested(u, k) && |s'.instances| == |u.instances|
    requires s'.instances == u.instances[k := s'.instances[k]]
    requires s'.instances[k].locked && s'.instances[k].stamp == u.clock && s'.instances[k].thread == u.instances[k].thread
    requires !u.instances[k].locked && Outermost(s'.instances, j)
    ensures j < |u.instances| && j != k && Outermost(u.instances, j)
  {
    var n :| 0 <= n < |u.instances| && n != k && u.instances[n].thread == u.instances[k].thread && u.instances[n].locked;
    assert s'.instances[n] == u.instances[n];
    forall i | 0 <= i < |u.instances| && u.instances[i].locked && u.instances[i].thread == s'.instances[j].thread
      ensures s'.instances[j].stamp <= u.instances[i].stamp { assert s'.instances[i] == u.instances[i]; }
  }

  lemma WaitKeeps(u: Lock, k: nat, write: bool)
    requires Inv(u) && k < |u.instances| && !u.instances[k].locked && (Nested(u, k) ==> write) && Running(u, u.instances[k].thread)
    ensures Inv(u.(instances := u.instances[k := u.instances[k].(write := write, waiting := true)]))
  {
    hide LogOk, Holders, Outermost;
    var a := u.instances[k].(write := write, waiting := true);
    var s' := u.(instances := u.instances[k := a]);
    assert Nested(Lock(u.instances, Shared(0), 0, []), k) <==> Nested(u, k);
    HoldersAfter(u.instances, k, a);
    NestedMeansHolder(u, k);
    assert Holders(s'.instances) == Holders(u.instances);
    SameLog(u, s');
    forall j: nat | Outermost(s'.instances, j) ensures j < |u.instances| && j != k && Outermost(u.instances, j) {
      UnlockedIsNotOutermost(u.instances, k, a, j);
    }
  }

  lemma UnlockedIsNotOutermost(q: seq<Acquire>, k: nat, a: Acquire, j: nat)
    requires k < |q| && !q[k].locked && !a.locked && Outermost(q[k := a], j)
    ensures j < |q| && j != k && Outermost(q, j)
  {
    forall i | 0 <= i < |q| && q[i].locked && q[i].thread == q[j].thread ensures q[j].stamp <= q[i].stamp {
      assert q[k := a][i] == q[i];
    }
  }

  lemma GrantKeeps(s: Lock, k: nat)
    requires Inv(s) && Grantable(s, k)
    ensures Inv(Grant(s, k))
  {
    hide LogOk, Outermost, Holders;
    var s' := Grant(s, k);
    var a := s.instances[k];
    HoldersAfter(s.instances, k, s'.instances[k]);
    assert a.thread !in Holders(s.instances);
    assert StampsOk(s') && WaitersOk(s');
    if a.write {
      assert Holders(s'.instances) == {a.thread};
      forall j: nat | Outermost(s'.instances, j) ensures j == k { OnlyOutermost(s.instances, k, s'.instances[k], j); }
    }
    LogCall(s, s', a.thread, if a.write then TakeExclusive else TakeShared);
  }

  lemma OnlyOutermost(q: seq<Acquire>, k: nat, a: Acquire, j: nat)
    requires k < |q| && Holders(q) == {} && Outermost(q[k := a], j)
    ensures j == k
  {
    assert forall i :: 0 <= i < |q| && q[i].locked ==> q[i].thread in Holders(q);
  }

  lemma RemoveKeeps(s: Lock, k: nat)
    requires Inv(s) && k < |s.instances| && !s.instances[k].locked
    ensures Inv(s.(instances := s.instances[..k] + s.instances[k + 1..]))
  {
    hide LogOk, Holders, Outermost;
    var q := s.instances;
    var r := q[..k] + q[k + 1..];
    var s' := s.(instances := r);
    RemovedHolders(q, k);
    assert StampsOk(s') by { RemovedStamps(s, k); }
    assert WaitersOk(s') && OsOk(s') by {
      assert forall j :: 0 <= j < |r| ==> r[j] == q[if j < k then j else j + 1];
      forall j: nat | Outermost(r, j) ensures j < |r| && (s.os.Exclusive? ==> r[j].write) {
        RemoveOutermost(q, k, r, j);
      }
    }
    SameLog(s, s');
  }

  lemma RemovedHolders(q: seq<Acquire>, k: nat)
    requires k < |q| && !q[k].locked
    ensures Holders(q[..k] + q[k + 1..]) == Holders(q)
  {
    var r := q[..k] + q[k + 1..];
    forall t | t in Holders(q) ensures t in Holders(r) {
      var j :| 0 <= j < |q| && q[j].locked && q[j].thread == t;
      assert r[if j < k then j else j - 1] == q[j];
    }
    forall t | t in Holders(r) ensures t in Holders(q) {
      var j :| 0 <= j < |r| && r[j].locked && r[j].thread == t;
      assert r[j] == q[if j < k then j else j + 1];
    }
  }

  lemma RemovedStamps(s: Lock, k: nat)
    requires StampsOk(s) && k < |s.instances|
    ensures StampsOk(s.(instances := s.instances[..k] + s.instances[k + 1..]))
  {
    var r := s.instances[..k] + s.instances[k + 1..];
    assert forall j :: 0 <= j < |r| ==> r[j] == s.instances[if j < k then j else j + 1];
  }

  lemma RemoveOutermost(q: seq<Acquire>, k: nat, r: seq<Acquire>, j: nat)
    requires k < |q| && !q[k].locked && r == q[..k] + q[k + 1..] && Outermost(r, j)
    ensures j < |r| && Outermost(q, if j < k then j else j + 1)
  {
    forall i | 0 <= i < |q| && q[i].locked && q[i].thread == r[j].thread ensures r[j].stamp <= q[i].stamp {
      assert q[i] == r[if i < k then i else i - 1];
    }
  }

  lemma StepKeeps(s: Lock, step: Step)
    requires Inv(s) && Enabled(s, step)
    ensures Inv(Apply(s, step))
  {
    match step
    case DoCreate(t, w) => AppendKeeps(s, Acquire(t, false, w, false, 0));
    case DoRequest(k, w) => RequestKeeps(s, k, w);
    case DoGrant(k) => GrantKeeps(s, k);
    case DoUnlock(k) => UnlockKeeps(s, k);
    case DoDestroy(k) => UnlockKeeps(s, k); RemoveKeeps(Unlock(s, k), k);
  }

  lemma {:induction false} RunKeeps(s: Lock, run: seq<Step>)
    requires Inv(s) && ValidRun(s, run)
    ensures Inv(Exec(s, run))
    decreases |run|
  {
    hide Inv, Apply, Enabled;
    if run != [] {
      StepKeeps(s, run[0]);
      RunKeeps(Apply(s, run[0]), run[1..]);
    }
  }

  lemma Reached(run: seq<Step>)
    requires ValidRun(Unused, run)
    ensures Inv(Exec(Unused, run))
  {
    RunKeeps(Unused, run);
  }

  // ---------------------------------------------------------------- results

  lemma Exclusion(s: Lock, j: nat, k: nat)
    requires OsOk(s) && j < |s.instances| && k < |s.instances|
    requires s.instances[j].locked && s.instances[j].write && s.instances[k].locked
    ensures s.instances[j].thread == s.instances[k].thread
  {
    var h := Holders(s.instances);
    assert s.instances[j].thread in h && s.instances[k].thread in h;
    assert |h - {s.instances[j].thread}| == 0;
  }

  /** Whenever some thread has a locked write acquire, no other thread has a locked acquire. */
  lemma MutualExclusion(run: seq<Step>, j: nat, k: nat)
    requires ValidRun(Unused, run)
    requires j < |Exec(Unused, run).instances| && k < |Exec(Unused, run).instances|
    requires var q := Exec(Unused, run).instances; q[j].locked && q[j].write && q[k].locked
    ensures Exec(Unused, run).instances[j].thread == Exec(Unused, run).instances[k].thread
  {
    hide Apply, Enabled, ValidRun, Exec, StampsOk, OsOk, LogOk, WaitersOk;
    Reached(run);
    Exclusion(Exec(Unused, run), j, k);
  }

  /**
   The operating-system lock is never corrupt: each thread's calls alternate between taking and
   giving back, in the same mode, and it possesses the lock exactly while it has a locked acquire.
   */
  lemma ReleasedOncePerOutermost(run: seq<Step>, t: nat)
    requires ValidRun(Unused, run)
    ensures var s := Exec(Unused, run);
      && !s.os.Corrupt?
      && Possess(s.log, t) == (if t in Holders(s.instances) then Has(s.os.Exclusive?) else Free)
  {
    hide Apply, Enabled, ValidRun, Exec;
    Reached(run);
  }

  /**
   A nested request is answered at once exactly when it is not an upgrade; an upgrade waits, and
   as long as its thread keeps the lock the operating system cannot let it in.
   */
  lemma NestedRequests(run: seq<Step>, k: nat, write: bool)
    requires ValidRun(Unused, run)
    requires var s := Exec(Unused, run); Enabled(s, DoRequest(k, write)) && !s.instances[k].locked && Nested(s, k)
    ensures var s := Exec(Unused, run); var s' := Request(s, k, write);
      && (s'.instances[k].locked <==> !write || s.os.Exclusive?)
      && (s'.instances[k].locked ==> s'.os == s.os && s'.log == s.log)
      && (!s'.instances[k].locked ==> s'.instances[k].waiting && !Grantable(s', k))
  {
    hide Apply, ValidRun, Exec;
    Reached(run);
    var s := Exec(Unused, run);
    var j :| 0 <= j < |s.instances| && j != k && s.instances[j].thread == s.instances[k].thread && s.instances[j].locked;
    assert s.instances[j].thread in Holders(s.instances);
    if s.os.Exclusive? {
      var m := OutermostOf(s, j);
      assert m != k && s.instances[m].write;
    } else {
      assert Request(s, k, write).os.count > 0;
    }
  }

  /** An acquire remembers the mode it asked for; without another lock of its thread it waits for the operating system. */
  lemma RequestRemembersMode(run: seq<Step>, k: nat, write: bool)
    requires ValidRun(Unused, run) && Enabled(Exec(Unused, run), DoRequest(k, write))
    ensures var s := Exec(Unused, run); var a := Request(s, k, write).instances[k];
      a.write == write && a.thread == s.instances[k].thread && (!Nested(s, k) ==> a.waiting && !a.locked)
  {
  }

  /**
   In every reachable state a waiting reader can be let in exactly while no thread writes, however many
   read; a waiting writer exactly while no thread has the lock.
   */
  lemma GrantableExactly(run: seq<Step>, k: nat)
    requires ValidRun(Unused, run) && k < |Exec(Unused, run).instances| && Exec(Unused, run).instances[k].waiting
    ensures var s := Exec(Unused, run); var q := s.instances;
      Grantable(s, k) <==> forall j :: 0 <= j < |q| && q[j].locked ==> !q[j].write && !q[k].write
  {
    hide Apply, Enabled, ValidRun, Exec;
    Reached(run);
    var s := Exec(Unused, run);
    hide Outermost, StampsOk, WaitersOk, LogOk;
    assert forall j :: 0 <= j < |s.instances| && s.instances[j].locked ==> s.instances[j].thread in Holders(s.instances);
    if s.os.Exclusive? {
      assert Holders(s.instances) != {};
      var t :| t in Holders(s.instances);
      var j: nat :| j < |s.instances| && s.instances[j].locked && s.instances[j].thread == t;
      var m := OutermostOf(s, j);
      OutermostIsLocked(s.instances, m);
      assert s.instances[m].write;
    } else if s.instances[k].write && s.os.count > 0 {
      assert Holders(s.instances) != {};
      var t :| t in Holders(s.instances);
      var j: nat :| j < |s.instances| && s.instances[j].locked && s.instances[j].thread == t;
    } else if s.instances[k].write {
      assert Holders(s.instances) == {};
    }
  }

  lemma OutermostIsLocked(q: seq<Acquire>, k: nat)
    requires Outermost(q, k)
    ensures k < |q| && q[k].locked
  {
  }

  /** Who is let in possesses the lock in the mode it asked for, as the calls of the operating system tell. */
  lemma GrantedInItsMode(run: seq<Step>, k: nat)
    requires ValidRun(Unused, run) && Grantable(Exec(Unused, run), k)
    ensures var s := Exec(Unused, run); var s' := Grant(s, k);
      && s'.instances[k] == s.instances[k].(locked := true, waiting := false, stamp := s.clock)
      && Possess(s'.log, s.instances[k].thread) == Has(s.instances[k].write)
  {
    hide Apply, Enabled, ValidRun, Exec;
    Reached(run);
    var s := Exec(Unused, run);
    GrantKeeps(s, k);
    assert LogOk(Grant(s, k)) && Grant(s, k).instances[k].locked;
    assert s.instances[k].thread in Holders(Grant(s, k).instances);
  }

  lemma OutermostOf(s: Lock, j: nat) returns (m: nat)
    requires j < |s.instances| && s.instances[j].locked
    ensures Outermost(s.instances, m) && s.instances[m].thread == s.instances[j].thread
    decreases s.instances[j].stamp
  {
    if i: nat :| i < |s.instances| && s.instances[i].locked && s.instances[i].thread == s.instances[j].thread && s.instances[i].stamp < s.instances[j].stamp {
      m := OutermostOf(s, i);
    } else {
      m := j;
    }
  }

  /** A thread that holds the lock can never be granted a pending upgrade. */
  lemma UpgradeDeadlocks(run: seq<Step>, k: nat)
    requires ValidRun(Unused, run) && k < |Exec(Unused, run).instances|
    requires Exec(Unused, run).instances[k].waiting && Exec(Unused, run).instances[k].thread in Holders(Exec(Unused, run).instances)
    ensures !Grantable(Exec(Unused, run), k)
  {
    hide Apply, Enabled, ValidRun, Exec;
    Reached(run);
  }

  /**
   Why the discipline matters: when a thread unlocks the outer of two nested acquires first, the
   operating-system lock survives exactly if both were taken in the same mode.
   */
  lemma OuterFirst(s: Lock, outer: nat, inner: nat)
    requires Inv(s) && outer < |s.instances| && inner < |s.instances| && outer != inner
    requires s.instances[outer].thread == s.instances[inner].thread
    requires s.instances[outer].locked && s.instances[inner].locked && s.instances[outer].stamp < s.instances[inner].stamp
    requires forall j :: 0 <= j < |s.instances| && j != outer && j != inner && s.instances[j].locked ==> s.instances[j].thread != s.instances[inner].thread
    ensures !Unlock(Unlock(s, outer), inner).os.Corrupt? <==> s.instances[outer].write == s.instances[inner].write
  {
    assert Nested(s, outer);
    var u := Unlock(s, outer);
    assert u.instances[inner] == s.instances[inner] && !Nested(u, inner);
    assert Outermost(s.instances, outer);
    assert s.instances[inner].thread in Holders(s.instances);
  }
}
