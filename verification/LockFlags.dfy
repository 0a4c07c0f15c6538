/**
 The lock flags of ECSUtil/CRWLock.cpp apart from the possession of the lock. A thread sets its flag
 after the operating system has let it in and clears it after it has given the lock back, so between
 the two the flag lags behind. `lock` records possession; the scans of the original read the flags.
 */
module LockFlags {
  import opened LockState
  import LockTheorems

  datatype Flagged = Flagged(lock: Lock, flags: seq<bool>)

  datatype FineStep = Step(step: LockState.Step) | Settle(k: nat)

  /** The thread is not between an operating-system call and its flag. */
  ghost predicate Settled(f: Flagged, thread: nat)
    requires |f.flags| == |f.lock.instances|
  {
    forall j :: 0 <= j < |f.flags| && f.lock.instances[j].thread == thread ==> f.flags[j] == f.lock.instances[j].locked
  }

  /** What the scan of Unlock and Lock finds: another acquire of the thread with its flag set. */
  predicate SeesOther(f: Flagged, k: nat)
    requires k < |f.flags| == |f.lock.instances|
  {
    exists j :: 0 <= j < |f.flags| && j != k && f.lock.instances[j].thread == f.lock.instances[k].thread && f.flags[j]
  }

  predicate SeesWriter(f: Flagged, k: nat)
    requires k < |f.flags| == |f.lock.instances|
  {
    exists j :: 0 <= j < |f.flags| && j != k
      && f.lock.instances[j].thread == f.lock.instances[k].thread && f.flags[j] && f.lock.instances[j].write
  }

  /** A scan that a settled thread makes finds exactly what the thread possesses. */
  lemma ScansSeeTheTruth(f: Flagged, k: nat)
    requires k < |f.flags| == |f.lock.instances| && Settled(f, f.lock.instances[k].thread)
    ensures SeesOther(f, k) <==> Nested(f.lock, k)
    ensures SeesWriter(f, k) <==> NestedInWrite(f.lock, k)
    ensures f.flags[k] == f.lock.instances[k].locked
  {
  }

  /** A locked acquire is unlocked before it is requested again or destroyed. */
  ghost predicate CanStep(f: Flagged, s: FineStep) {
    && |f.flags| == |f.lock.instances|
    && match s
       case Settle(k) => k < |f.flags| && f.flags[k] != f.lock.instances[k].locked
       case Step(DoCreate(t, w)) => Enabled(f.lock, DoCreate(t, w)) && Settled(f, t)
       case Step(DoGrant(k)) => Enabled(f.lock, DoGrant(k))
       case Step(DoUnlock(k)) => Enabled(f.lock, DoUnlock(k)) && Settled(f, f.lock.instances[k].thread)
       case Step(DoRequest(k, w)) =>
         Enabled(f.lock, DoRequest(k, w)) && Settled(f, f.lock.instances[k].thread) && !f.lock.instances[k].locked
       case Step(DoDestroy(k)) =>
         Enabled(f.lock, DoDestroy(k)) && Settled(f, f.lock.instances[k].thread) && !f.lock.instances[k].locked
  }

  /** Calls of the operating system leave the flag as it is; an inner acquire just changes its flag. */
  ghost function Take(f: Flagged, s: FineStep): (r: Flagged)
    requires CanStep(f, s)
  {
    match s
    case Settle(k) => f.(flags := f.flags[k := f.lock.instances[k].locked])
    case Step(c) =>
      var lock := Apply(f.lock, c);
      match c
      case DoCreate(_, _) => Flagged(lock, f.flags + [false])
      case DoGrant(_) => Flagged(lock, f.flags)
      case DoUnlock(k) => Flagged(lock, if SeesOther(f, k) then f.flags[k := false] else f.flags)
      case DoRequest(k, w) => Flagged(lock, f.flags[k := SeesOther(f, k) && (SeesWriter(f, k) || !w)])
      case DoDestroy(k) => Flagged(lock, f.flags[..k] + f.flags[k + 1..])
  }

  ghost predicate ValidFine(f: Flagged, run: seq<FineStep>)
    decreases |run|
  {
    run == [] || (CanStep(f, run[0]) && ValidFine(Take(f, run[0]), run[1..]))
  }

  ghost function ExecFine(f: Flagged, run: seq<FineStep>): Flagged
    requires ValidFine(f, run)
    decreases |run|
  {
    if run == [] then f else ExecFine(Take(f, run[0]), run[1..])
  }

  /** The run as far as possession is concerned. */
  function Coarse(run: seq<FineStep>): seq<LockState.Step> {
    if run == [] then []
    else (if run[0].Step? then [run[0].step] else []) + Coarse(run[1..])
  }

  /** The flags add nothing to and take nothing from the runs of the lock. */
  lemma {:induction false} RunRefines(f: Flagged, run: seq<FineStep>)
    requires ValidFine(f, run)
    ensures ValidRun(f.lock, Coarse(run)) && Exec(f.lock, Coarse(run)) == ExecFine(f, run).lock
    decreases |run|
  {
    hide Apply, Enabled, Settled;
    if run != [] {
      RunRefines(Take(f, run[0]), run[1..]);
      if run[0].Step? {
        assert Coarse(run)[0] == run[0].step && Coarse(run)[1..] == Coarse(run[1..]);
      } else {
        assert Coarse(run) == Coarse(run[1..]);
      }
    }
  }

  const Quiet := Flagged(Unused, [])

  /**
   A thread that possesses the lock for writing excludes all others, however the flags lag behind. So
   if the flags of two threads are set, one of them by a writer, one of the two has given the lock back.
   */
  lemma FlagsOverlapOnlyInPassing(run: seq<FineStep>, j: nat, k: nat)
    requires ValidFine(Quiet, run)
    requires var q := ExecFine(Quiet, run).lock.instances;
      j < |q| && k < |q| && q[j].thread != q[k].thread && q[j].write
    ensures var q := ExecFine(Quiet, run).lock.instances; !(q[j].locked && q[k].locked)
  {
    hide ValidFine, ExecFine;
    RunRefines(Quiet, run);
    var q := ExecFine(Quiet, run).lock.instances;
    if q[j].locked && q[k].locked {
      LockTheorems.MutualExclusion(Coarse(run), j, k);
    }
  }

  // ---------------------------------------------------------------- they do overlap

  lemma {:induction false} FineThenFine(f: Flagged, first: seq<FineStep>, more: seq<FineStep>)
    requires ValidFine(f, first) && ValidFine(ExecFine(f, first), more)
    ensures ValidFine(f, first + more) && ExecFine(f, first + more) == ExecFine(ExecFine(f, first), more)
    decreases |first|
  {
    hide Take, CanStep;
    if first == [] {
      assert first + more == more;
    } else {
      FineThenFine(Take(f, first[0]), first[1..], more);
      assert (first + more)[1..] == first[1..] + more;
    }
  }

  lemma OneMore(f: Flagged, run: seq<FineStep>, s: FineStep, t: Flagged)
    requires ValidFine(f, run) && CanStep(ExecFine(f, run), s) && Take(ExecFine(f, run), s) == t
    ensures ValidFine(f, run + [s]) && ExecFine(f, run + [s]) == t
  {
    var u := ExecFine(f, run);
    hide Take, CanStep;
    assert [s][1..] == [] && ValidFine(t, []);
    assert ValidFine(u, [s]) && ExecFine(u, [s]) == t;
    FineThenFine(f, run, [s]);
  }

  const Took := [(0, TakeExclusive)]
  const Gave := [(0, TakeExclusive), (0, GiveExclusive)]

  function Writer(thread: nat, locked: bool, waiting: bool, stamp: nat): Acquire {
    Acquire(thread, locked, true, waiting, stamp)
  }

  const FirstIn := Flagged(Lock([Writer(0, true, false, 0)], Exclusive, 1, Took), [true])

  lemma FirstGoesIn() returns (run: seq<FineStep>)
    ensures ValidFine(Quiet, run) && ExecFine(Quiet, run) == FirstIn
  {
    assert ValidFine(Quiet, []) && ExecFine(Quiet, []) == Quiet;
    hide ValidFine, ExecFine;
    OneMore(Quiet, [], Step(DoCreate(0, true)), Flagged(Lock([Writer(0, false, false, 0)], Shared(0), 0, []), [false]));
    run := [] + [Step(DoCreate(0, true))];
    OneMore(Quiet, run, Step(DoRequest(0, true)), Flagged(Lock([Writer(0, false, true, 0)], Shared(0), 0, []), [false]));
    run := run + [Step(DoRequest(0, true))];
    OneMore(Quiet, run, Step(DoGrant(0)), Flagged(FirstIn.lock, [false]));
    run := run + [Step(DoGrant(0))];
    OneMore(Quiet, run, Settle(0), FirstIn);
    run := run + [Settle(0)];
  }

  const Released := [Writer(0, false, false, 0)]

  /** Two writers of different threads have their flags set, one of which possesses the lock. */
  ghost predicate BothFlagged(f: Flagged) {
    && f.flags == [true, true] && |f.lock.instances| == 2
    && f.lock.instances[0] == Writer(0, false, false, 0) && f.lock.instances[1] == Writer(1, true, false, 1)
  }

  /** The flags of two writers can be set at the same time. */
  lemma FlagsOverlap() returns (run: seq<FineStep>)
    ensures ValidFine(Quiet, run) && BothFlagged(ExecFine(Quiet, run))
  {
    hide ValidFine, ExecFine;
    run := FirstGoesIn();
    OneMore(Quiet, run, Step(DoUnlock(0)), Flagged(Lock(Released, Shared(0), 1, Gave), [true]));
    run := run + [Step(DoUnlock(0))];
    OneMore(Quiet, run, Step(DoCreate(1, true)),
            Flagged(Lock(Released + [Writer(1, false, false, 0)], Shared(0), 1, Gave), [true, false]));
    run := run + [Step(DoCreate(1, true))];
    OneMore(Quiet, run, Step(DoRequest(1, true)),
            Flagged(Lock(Released + [Writer(1, false, true, 0)], Shared(0), 1, Gave), [true, false]));
    run := run + [Step(DoRequest(1, true))];
    var both := Flagged(Lock(Released + [Writer(1, true, false, 1)], Exclusive, 2, Gave + [(1, TakeExclusive)]), [true, false]);
    OneMore(Quiet, run, Step(DoGrant(1)), both);
    run := run + [Step(DoGrant(1))];
    OneMore(Quiet, run, Settle(1), both.(flags := [true, true]));
    run := run + [Settle(1)];
  }
}
