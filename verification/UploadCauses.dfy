/**
 An upload fails only for a reason: a failed read, a requested abort, a refused completion, or a part
 that failed on every one of its tries. As long as none of these happens every failed request is
 tried again.
 */
module UploadCauses {
  import opened Bytes
  import opened PartPlan
  import opened UploadState
  import opened UploadInvariants
  import UploadSteps
  import opened UploadTheorems
  import PoolState

  // ---------------------------------------------------------------- causes of a failure

  ghost predicate Failed(s: Upload) { s.orch.Failing? || s.orch == Ended(false) }

  /** The steps that turn an upload into a failure. */
  predicate GivesUp(step: Step) {
    step.Throw? || step.PurgeGiveUp? || (step.CompleteCall? && !step.ok)
  }

  lemma StepFails(s: Upload, step: Step)
    requires Enabled(s, step)
    ensures Failed(Apply(s, step)) <==> Failed(s) || GivesUp(step)
  {
    hide PoolState.Take, PoolState.Finish, PoolState.Do, PoolState.CanDo, PoolState.CanTake, PoolState.CanFinish;
    hide MoreToFill, MoreToRefill, ReadSize, InFile, Unclaimed;
  }

  /** A run fails if and only if one of its steps gives up. */
  lemma {:induction false} FailsByGivingUp(s: Upload, run: seq<Step>)
    requires ValidRun(s, run)
    ensures Failed(Exec(s, run)) <==> Failed(s) || exists k :: 0 <= k < |run| && GivesUp(run[k])
    decreases |run|
  {
    hide Apply, Enabled, GivesUp, Failed;
    if run != [] {
      StepFails(s, run[0]);
      FailsByGivingUp(Apply(s, run[0]), run[1..]);
      forall k | 0 <= k < |run| && GivesUp(run[k]) ensures k == 0 || GivesUp(run[1..][k - 1]) {}
      forall k | 0 <= k < |run[1..]| && GivesUp(run[1..][k]) ensures GivesUp(run[k + 1]) {}
    }
  }

  // ---------------------------------------------------------------- failed requests

  /** A request for part i ends with an error. */
  ghost predicate PartFails(s: Upload, step: Step, i: nat) {
    step.Return? && step.err && step.id in s.msgs && s.msgs[step.id].part == i
  }

  /** How many requests for part i have ended with an error. */
  ghost function Failures(s: Upload, run: seq<Step>, i: nat): nat
    requires ValidRun(s, run)
    decreases |run|
  {
    if run == [] then 0
    else (if PartFails(s, run[0], i) then 1 else 0) + Failures(Apply(s, run[0]), run[1..], i)
  }

  /** The latest request for part i has ended with an error that has not been answered by a retry. */
  ghost predicate LastFailed(s: Upload, i: nat) {
    && i < |s.parts| && s.parts[i].inProcess && s.parts[i].owner in s.msgs
    && var m := s.msgs[s.parts[i].owner];
       m.part == i && m.error && (m.phase.Returned? || m.phase.Reported?)
  }

  ghost function Fails(s: Upload, i: nat): nat
    requires i < |s.parts|
  {
    s.parts[i].retry + if LastFailed(s, i) then 1 else 0
  }

  lemma RetryAnswers(s: Upload, i: nat)
    requires Inv(s) && Enabled(s, PurgeRetry) && i < |s.parts|
    ensures i < |Apply(s, PurgeRetry).parts| && Fails(Apply(s, PurgeRetry), i) == Fails(s, i)
  {
    hide PoolInv, BudgetInv, CallsInv, ConfigOk, PartOk, SenderOk, PartsInv, OrchInv, Linked;
    UploadSteps.ListedMessage(s, s.orch.at);
    assert MsgFits(s, s.pending[s.orch.at]);
  }

  lemma ReturnCounts(s: Upload, id: nat, err: bool, i: nat)
    requires Inv(s) && Enabled(s, Return(id, err)) && i < |s.parts|
    ensures i < |Apply(s, Return(id, err)).parts|
    ensures Fails(Apply(s, Return(id, err)), i) == Fails(s, i) + if PartFails(s, Return(id, err), i) then 1 else 0
  {
    hide PoolInv, BudgetInv, CallsInv, ConfigOk, PartOk, SenderOk, PartsInv, OrchInv, Linked;
    assert MsgFits(s, id);
  }

  lemma ClaimIsNew(s: Upload, i: nat)
    requires Inv(s) && Enabled(s, ScanClaim) && i < |s.parts|
    ensures i < |Apply(s, ScanClaim).parts| && Fails(Apply(s, ScanClaim), i) == Fails(s, i)
  {
    hide BudgetInv, CallsInv, ConfigOk, PartOk, SenderOk, PartsInv, OrchInv, Linked, PoolState.PoolOk;
    assert s.pool.nextId !in s.msgs;
  }

  lemma WorkerStarts(s: Upload, w: nat, i: nat)
    requires Inv(s) && Enabled(s, Claim(w)) && i < |s.parts|
    ensures i < |Apply(s, Claim(w)).parts| && Fails(Apply(s, Claim(w)), i) == Fails(s, i)
  {
    hide PoolState.Take, PoolState.CanTake, MsgsInv, PartsInv, OrchInv, ConfigOk, BudgetInv, CallsInv, PoolInv;
    UploadSteps.ClaimPool(s, Apply(s, Claim(w)), w);
  }

  /** Neither the standing of part i nor that of its latest message has changed. */
  ghost predicate SameStanding(s: Upload, t: Upload, i: nat)
    requires i < |s.parts|
  {
    && |t.parts| == |s.parts| && t.parts[i].retry == s.parts[i].retry
    && t.parts[i].inProcess == s.parts[i].inProcess && t.parts[i].owner == s.parts[i].owner
    && s.msgs.Keys == t.msgs.Keys
    && forall id :: id in s.msgs ==>
         && t.msgs[id].part == s.msgs[id].part && t.msgs[id].error == s.msgs[id].error
         && (t.msgs[id].phase.Returned? || t.msgs[id].phase.Reported? <==> s.msgs[id].phase.Returned? || s.msgs[id].phase.Reported?)
  }

  lemma SameCount(s: Upload, t: Upload, i: nat)
    requires i < |s.parts| && SameStanding(s, t, i)
    ensures Fails(t, i) == Fails(s, i)
  {
  }

  lemma OrchestratorKeepsStanding(s: Upload, step: Step, i: nat)
    requires Inv(s) && Enabled(s, step) && i < |s.parts|
    requires step.FillRead? || step.FillDone? || step.PurgeDone? || step.RefillPush?
    ensures SameStanding(s, Apply(s, step), i)
  {
    hide PoolInv, BudgetInv, CallsInv, ConfigOk, PartsInv, MsgsInv, MoreToFill, MoreToRefill, ReadSize, InFile, PoolState.Send;
  }

  lemma WorkerKeepsStanding(s: Upload, step: Step, i: nat)
    requires Enabled(s, step) && i < |s.parts|
    requires step.Load? || step.Write? || step.Pop? || step.Resend? || step.Report?
    ensures SameStanding(s, Apply(s, step), i)
  {
    hide Part.Stream;
  }

  /** Every other step moves the uploading thread or the pool only. */
  lemma MoveKeepsStanding(s: Upload, step: Step, i: nat)
    requires Enabled(s, step) && i < |s.parts|
    requires step.ScanSkip? || step.ScanBreak? || step.ScanEnd? || step.Wake? || step.PurgeGiveUp? || step.PurgeNext?
      || step.PurgeEnd? || step.RefillRead? || step.Throw? || step.CompleteCall? || step.AbortCall? || step.Drop? || step.PoolStep?
    ensures SameStanding(s, Apply(s, step), i)
  {
    hide PoolState.Finish, PoolState.Do, PoolState.CanDo, PoolState.CanFinish, MoreToFill, MoreToRefill, ReadSize, InFile, Unclaimed;
    assert Apply(s, step).parts == s.parts && Apply(s, step).msgs == s.msgs;
  }

  /** Every step keeps count: a failed request adds one, a retry answers one. */
  lemma StepCounts(s: Upload, step: Step, i: nat)
    requires Inv(s) && Enabled(s, step) && i < |s.parts|
    ensures i < |Apply(s, step).parts|
    ensures Fails(Apply(s, step), i) == Fails(s, i) + if PartFails(s, step, i) then 1 else 0
  {
    hide Inv, Apply, Enabled, Fails, SameStanding;
    SameShape(s, step);
    if step.PurgeRetry? {
      RetryAnswers(s, i);
    } else if step.Return? {
      ReturnCounts(s, step.id, step.err, i);
    } else if step.ScanClaim? {
      ClaimIsNew(s, i);
    } else if step.Claim? {
      WorkerStarts(s, step.w, i);
    } else {
      if step.FillRead? || step.FillDone? || step.PurgeDone? || step.RefillPush? {
        OrchestratorKeepsStanding(s, step, i);
      } else if step.Load? || step.Write? || step.Pop? || step.Resend? || step.Report? {
        WorkerKeepsStanding(s, step, i);
      } else {
        MoveKeepsStanding(s, step, i);
      }
      SameCount(s, Apply(s, step), i);
    }
  }

  lemma {:induction false} RunCounts(s: Upload, run: seq<Step>, i: nat)
    requires Inv(s) && ValidRun(s, run) && i < |s.parts|
    ensures i < |Exec(s, run).parts| && Fails(Exec(s, run), i) == Fails(s, i) + Failures(s, run, i)
    decreases |run|
  {
    hide Inv, Apply, Enabled, Fails, PartFails;
    if run != [] {
      UploadSteps.StepKeepsInv(s, run[0]);
      StepCounts(s, run[0], i);
      RunCounts(Apply(s, run[0]), run[1..], i);
    }
  }

  lemma GivingUp(s: Upload)
    requires Enabled(s, PurgeGiveUp)
    ensures s.orch.Purge? && AtMessage(s) && MsgAt(s).complete && MsgAt(s).error && PartAt(s).retry >= s.cfg.maxRetries
  {
  }

  /** Who gives up on a part has seen it fail once more than it may be tried again. */
  lemma GiveUpHasFailed(s: Upload) returns (i: nat)
    requires Inv(s) && Enabled(s, PurgeGiveUp)
    ensures i < |s.parts| && Fails(s, i) > s.cfg.maxRetries
  {
    GivingUp(s);
    hide PoolInv, BudgetInv, CallsInv, ConfigOk, PartsInv, OrchInv, MsgsInv, Body, Enabled;
    i := MsgAt(s).part;
    UploadSteps.ListedMessage(s, s.orch.at);
  }

  lemma {:induction false} GivenUpPart(s: Upload, run: seq<Step>, k: nat) returns (i: nat)
    requires Inv(s) && ValidRun(s, run) && k < |run| && run[k] == PurgeGiveUp
    ensures i < |s.parts| && Fails(s, i) + Failures(s, run, i) > s.cfg.maxRetries
    decreases |run|
  {
    hide Inv, Apply, Enabled, Fails, PartFails;
    if k == 0 {
      i := GiveUpHasFailed(s);
    } else {
      UploadSteps.StepKeepsInv(s, run[0]);
      SameShape(s, run[0]);
      i := GivenUpPart(Apply(s, run[0]), run[1..], k - 1);
      StepCounts(s, run[0], i);
    }
  }

  lemma SameShape(s: Upload, step: Step)
    requires Enabled(s, step)
    ensures Apply(s, step).cfg == s.cfg && |Apply(s, step).parts| == |s.parts|
  {
    hide PoolState.Take, PoolState.Finish, PoolState.Do, PoolState.CanDo, PoolState.CanTake, PoolState.CanFinish;
    hide MoreToFill, MoreToRefill, ReadSize, InFile, Unclaimed;
  }

  lemma NothingFailedYet(cfg: Config, i: nat)
    requires i < |cfg.plan|
    ensures i < |Initial(cfg).parts| && Fails(Initial(cfg), i) == 0
  {
  }

  /** A part whose requests have failed more often than it may be tried again. */
  ghost predicate WornOut(cfg: Config, run: seq<Step>, i: nat)
    requires ValidRun(Initial(cfg), run)
  {
    i < |cfg.plan| && Failures(Initial(cfg), run, i) > cfg.maxRetries
  }

  /** Such a part has used all its tries, and failed on each: the latest one was not answered by another. */
  lemma WornOutMeans(cfg: Config, run: seq<Step>, i: nat)
    requires ConfigOk(cfg) && ValidRun(Initial(cfg), run) && WornOut(cfg, run, i)
    ensures Failures(Initial(cfg), run, i) == cfg.maxRetries + 1 == Attempts(Initial(cfg), run, i)
    ensures LastFailed(Exec(Initial(cfg), run), i)
  {
    hide PoolInv, OrchInv, BudgetInv, CallsInv, ConfigOk, MsgsInv, Apply, Enabled;
    InitialInv(cfg);
    NothingFailedYet(cfg, i);
    Reached(cfg, run);
    RunCounts(Initial(cfg), run, i);
    BegunByRun(Initial(cfg), run, i);
    assert PartOk(cfg, Exec(Initial(cfg), run).parts[i]);
  }

  /**
   A run that has failed has a reason in its history: the uploading thread gave up by itself, the server
   refused the completion, or a part has failed on all its tries.
   */
  lemma FailureHasACause(cfg: Config, run: seq<Step>)
    requires ConfigOk(cfg) && ValidRun(Initial(cfg), run) && Failed(Exec(Initial(cfg), run))
    ensures (exists k :: 0 <= k < |run| && (run[k].Throw? || run[k] == CompleteCall(false))) || (exists i :: WornOut(cfg, run, i))
  {
    hide Inv, Apply, Enabled, ValidRun, Exec, ConfigOk, Failures;
    InitialInv(cfg);
    FailsByGivingUp(Initial(cfg), run);
    assert !Failed(Initial(cfg));
    var k :| 0 <= k < |run| && GivesUp(run[k]);
    if run[k] == PurgeGiveUp {
      var i := GivenUpPart(Initial(cfg), run, k);
      NothingFailedYet(cfg, i);
      assert WornOut(cfg, run, i);
    }
  }

  // ---------------------------------------------------------------- the environment

  datatype Read = Nothing | Got(n: nat)

  /**
   What the file system, the caller and the server answer: a read and a look at the abort request are
   named by the number of steps made before.
   */
  datatype World = World(initiates: bool, files: nat -> Read, aborts: nat -> bool, completes: bool)

  function Wakes(run: seq<Step>): nat {
    if run == [] then 0 else Wakes(run[..|run| - 1]) + (if run[|run| - 1].Wake? then 1 else 0)
  }

  /** The step is what the answers at this moment ask for; `wakes` counts the wake-ups before. */
  predicate Backed(w: World, patience: nat, k: nat, wakes: nat, step: Step) {
    match step
    case FillRead(_) => w.files(k).Got?
    case RefillRead(_) => w.files(k).Got?
    case ScanClaim => !w.aborts(k)
    case Wake => !w.aborts(k) && wakes < patience
    case CompleteCall(ok) => ok == w.completes
    case Throw(cause) =>
      (match cause
       case ReadFailed => w.files(k).Nothing?
       case AbortRequested => w.aborts(k)
       case PatienceSpent => wakes >= patience)
    case _ => true
  }

  ghost predicate Told(w: World, patience: nat, run: seq<Step>) {
    forall k: nat :: k < |run| ==> Backed(w, patience, k, Wakes(run[..k]), run[k])
  }

  lemma OneMoreTold(w: World, patience: nat, run: seq<Step>, step: Step)
    requires Told(w, patience, run) && Backed(w, patience, |run|, Wakes(run), step)
    ensures Told(w, patience, run + [step]) && Wakes(run + [step]) == Wakes(run) + if step.Wake? then 1 else 0
  {
    hide Backed;
    var more := run + [step];
    assert more[..|run|] == run;
    forall k: nat | k < |more| ensures Backed(w, patience, k, Wakes(more[..k]), more[k]) {
      if k < |run| {
        assert more[..k] == run[..k];
      }
    }
  }

  /** A read has failed, somebody has asked to abort, and where. */
  ghost predicate ReadHasFailed(w: World, run: seq<Step>) {
    exists k: nat :: k < |run| && run[k] == Throw(ReadFailed) && w.files(k).Nothing?
  }

  ghost predicate AbortWasRequested(w: World, run: seq<Step>) {
    exists k: nat :: k < |run| && run[k] == Throw(AbortRequested) && w.aborts(k)
  }

  ghost predicate Reason(w: World, patience: nat, cfg: Config, run: seq<Step>)
    requires ValidRun(Initial(cfg), run)
  {
    || ReadHasFailed(w, run) || AbortWasRequested(w, run) || Wakes(run) >= patience || !w.completes
    || exists i :: WornOut(cfg, run, i)
  }

  lemma {:induction false} WakesGrow(run: seq<Step>, k: nat)
    requires k <= |run|
    ensures Wakes(run[..k]) <= Wakes(run)
  {
    if k < |run| {
      assert run[..|run| - 1][..k] == run[..k];
      WakesGrow(run[..|run| - 1], k);
    } else {
      assert run[..k] == run;
    }
  }

  lemma CauseWasGiven(w: World, patience: nat, run: seq<Step>, k: nat)
    requires Told(w, patience, run) && k < |run| && (run[k].Throw? || run[k] == CompleteCall(false))
    ensures ReadHasFailed(w, run) || AbortWasRequested(w, run) || Wakes(run) >= patience || !w.completes
  {
    hide Wakes;
    assert Backed(w, patience, k, Wakes(run[..k]), run[k]);
    WakesGrow(run, k);
  }

  /** What fails in a given environment has one of the five reasons. */
  lemma FailureHasAReason(w: World, patience: nat, cfg: Config, run: seq<Step>)
    requires ConfigOk(cfg) && ValidRun(Initial(cfg), run) && Told(w, patience, run) && Failed(Exec(Initial(cfg), run))
    ensures Reason(w, patience, cfg, run)
  {
    hide ValidRun, Exec, Failed, WornOut, Told, ConfigOk, ReadHasFailed, AbortWasRequested, Wakes;
    FailureHasACause(cfg, run);
    if k: nat :| k < |run| && (run[k].Throw? || run[k] == CompleteCall(false)) {
      CauseWasGiven(w, patience, run, k);
    }
  }

  /** Whoever has not failed has had no failed read, no request to abort, and a completion if it ended. */
  lemma SuccessHasNoCause(w: World, patience: nat, cfg: Config, run: seq<Step>)
    requires ValidRun(Initial(cfg), run) && Told(w, patience, run) && !Failed(Exec(Initial(cfg), run))
    ensures !ReadHasFailed(w, run) && !AbortWasRequested(w, run) && forall k :: 0 <= k < |run| ==> !GivesUp(run[k])
  {
    hide ValidRun, Exec, Backed;
    FailsByGivingUp(Initial(cfg), run);
  }
}
