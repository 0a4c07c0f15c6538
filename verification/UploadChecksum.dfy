/**
 The checksum that goes with a part: the first pass over the part hashes what it reads, also beyond
 what fits into the queue, so that every request carries the hash of exactly its slice.
 */
module UploadChecksum {
  import opened Bytes
  import opened PoolState
  import opened UploadState
  import opened UploadInvariants
  import UploadSteps
  import opened UploadTheorems
  import opened UploadLoops

  /** The message has left the first pass and is still pending. */
  predicate Fed(s: Upload, id: nat) {
    id in s.msgs && id in s.pending && !s.msgs[id].phase.Filling? && s.msgs[id].part < |s.parts|
  }

  ghost predicate HashInv(s: Upload) {
    s.cfg.checksum ==>
      && (s.orch.Fill? ==> s.orch.part < |s.parts| && s.parts[s.orch.part].hashed == Body(s.cfg, s.parts[s.orch.part], s.orch.offset))
      && (forall id :: Fed(s, id) ==> WholeHash(s.cfg, s.parts[s.msgs[id].part]))
  }

  ghost predicate WholeHash(cfg: Config, p: Part) {
    p.hashed == Body(cfg, p, p.slice.size)
  }

  /** A message is not newly fed. */
  ghost predicate StillFed(s: Upload, t: Upload, id: nat) {
    Fed(t, id) ==> Fed(s, id) && t.msgs[id].part == s.msgs[id].part
  }

  /** Nothing about hashes changes. */
  lemma SameHashes(s: Upload, t: Upload)
    requires HashInv(s) && t.cfg == s.cfg && |t.parts| == |s.parts|
    requires forall i :: 0 <= i < |s.parts| ==> t.parts[i].hashed == s.parts[i].hashed && t.parts[i].slice == s.parts[i].slice
    requires forall id :: StillFed(s, t, id)
    requires t.orch.Fill? ==> t.orch == s.orch
    ensures HashInv(t)
  {
    forall id | t.cfg.checksum && Fed(t, id) ensures WholeHash(t.cfg, t.parts[t.msgs[id].part]) {
      assert StillFed(s, t, id) && WholeHash(s.cfg, s.parts[s.msgs[id].part]);
    }
  }

  /** A pending message's part belongs to it, and to no other pending message. */
  lemma PartOfFed(s: Upload, id: nat, i: nat)
    requires MsgsInv(s) && Fed(s, id) && i < |s.parts| && (Unclaimed(s.parts[i]) || s.parts[i].owner != id)
    ensures s.msgs[id].part != i
  {
    hide PartOk, SenderOk;
    assert MsgFits(s, id);
  }

  lemma ClaimHashes(s: Upload)
    requires Inv(s) && HashInv(s) && Enabled(s, ScanClaim)
    ensures HashInv(Apply(s, ScanClaim))
  {
    hide PoolInv, OrchInv, BudgetInv, CallsInv, ConfigOk, PartOk, MsgFits, Linked;
    var t := Apply(s, ScanClaim);
    forall id | t.cfg.checksum && Fed(t, id) ensures WholeHash(t.cfg, t.parts[t.msgs[id].part]) {
      assert id != s.pool.nextId && Fed(s, id);
      PartOfFed(s, id, s.orch.next);
      assert WholeHash(s.cfg, s.parts[s.msgs[id].part]);
    }
  }

  /** What a read of the first pass changes. */
  lemma FillReadEffect(s: Upload, n: nat)
    requires Inv(s) && s.cfg.checksum && Enabled(s, FillRead(n))
    ensures s.orch.part < |s.parts| && s.orch.offset + n <= s.parts[s.orch.part].slice.size && InFile(s.cfg, s.parts[s.orch.part])
    ensures var t, i := Apply(s, FillRead(n)), s.orch.part; var p := s.parts[i];
      && t == s.(parts := t.parts, orch := t.orch) && t.parts == s.parts[i := t.parts[i]] && t.parts[i].slice == p.slice
      && t.parts[i].hashed == p.hashed + s.cfg.file[p.slice.base + s.orch.offset..p.slice.base + s.orch.offset + n]
      && t.orch.Fill? && t.orch.part == i && t.orch.offset == s.orch.offset + n
  {
    hide Inv, PoolOk;
    hide AtMessage, MoreToRefill, Unclaimed, CanTake, CanFinish, CanDo, Take, Send, Finish, Do, IsSending;
    FillFacts(s);
  }

  lemma BodyExtends(cfg: Config, p: Part, at: nat, n: nat)
    requires InFile(cfg, p) && at + n <= p.slice.size
    ensures Body(cfg, p, at) + cfg.file[p.slice.base + at..p.slice.base + at + n] == Body(cfg, p, at + n)
  {
  }

  /** Other parts are not touched by the first pass over part i. */
  lemma OtherHashes(s: Upload, t: Upload, i: nat)
    requires Inv(s) && HashInv(s) && s.cfg.checksum && i < |s.parts| && t.cfg == s.cfg
    requires |t.parts| == |s.parts| && t.parts == s.parts[i := t.parts[i]] && t.msgs == s.msgs && t.pending == s.pending
    requires s.parts[i].owner in s.msgs && s.msgs[s.parts[i].owner].phase.Filling?
    ensures forall id :: Fed(t, id) ==> WholeHash(t.cfg, t.parts[t.msgs[id].part])
  {
    hide PoolInv, OrchInv, BudgetInv, CallsInv, ConfigOk, PartsInv, MsgsInv, Body;
    forall id | Fed(t, id) ensures WholeHash(t.cfg, t.parts[t.msgs[id].part]) {
      assert Fed(s, id) && id != s.parts[i].owner;
      PartOfFed(s, id, i);
      assert WholeHash(s.cfg, s.parts[s.msgs[id].part]);
    }
  }

  lemma IsFilling(s: Upload, n: nat)
    requires Enabled(s, FillRead(n))
    ensures s.orch.Fill? && Apply(s, FillRead(n)).cfg == s.cfg
  {
  }

  lemma FillReadHashes(s: Upload, n: nat)
    requires Inv(s) && HashInv(s) && Enabled(s, FillRead(n))
    ensures HashInv(Apply(s, FillRead(n)))
  {
    hide Inv, Enabled, Apply, Fed, Body;
    IsFilling(s, n);
    if s.cfg.checksum {
      FillingOwner(s);
      FillReadEffect(s, n);
      BodyExtends(s.cfg, s.parts[s.orch.part], s.orch.offset, n);
      OtherHashes(s, Apply(s, FillRead(n)), s.orch.part);
      SameBody(s.cfg, s.parts[s.orch.part], Apply(s, FillRead(n)).parts[s.orch.part], s.orch.offset + n);
    }
  }

  lemma SameBody(cfg: Config, p: Part, q: Part, n: nat)
    requires p.slice == q.slice
    ensures Body(cfg, p, n) == Body(cfg, q, n)
  {
  }

  lemma FillingOwner(s: Upload)
    requires Inv(s) && s.orch.Fill?
    ensures s.orch.part < |s.parts| && s.orch.id in s.msgs && s.msgs[s.orch.id].phase.Filling?
    ensures s.parts[s.orch.part].owner == s.orch.id && s.msgs[s.orch.id].part == s.orch.part
  {
    hide PoolInv, BudgetInv, CallsInv, ConfigOk, PartsInv, MsgsInv, Unclaimed;
  }

  lemma FillDoneEffect(s: Upload)
    requires Inv(s) && s.cfg.checksum && Enabled(s, FillDone)
    ensures s.orch.part < |s.parts| && s.orch.offset == s.parts[s.orch.part].slice.size && s.orch.id in s.msgs
    ensures var t := Apply(s, FillDone); t.cfg == s.cfg && t.parts == s.parts && t.pending == s.pending && t.orch.Scan?
    ensures Apply(s, FillDone).msgs == s.msgs[s.orch.id := s.msgs[s.orch.id].(phase := Queued)]
  {
    hide Inv, PoolOk;
    hide AtMessage, MoreToRefill, Unclaimed, CanTake, CanFinish, CanDo, Take, Send, Finish, Do, IsSending;
    FillFacts(s);
  }

  lemma AtTheEnd(s: Upload)
    requires Enabled(s, FillDone)
    ensures s.orch.Fill?
  {
  }

  lemma FillDoneHashes(s: Upload)
    requires Inv(s) && HashInv(s) && Enabled(s, FillDone)
    ensures HashInv(Apply(s, FillDone))
  {
    if s.cfg.checksum {
      hide PoolInv, OrchInv, BudgetInv, CallsInv, ConfigOk, PartsInv, MsgsInv, Enabled, Apply, Body;
      AtTheEnd(s);
      FillingOwner(s);
      FillDoneEffect(s);
      var t := Apply(s, FillDone);
      forall id | Fed(t, id) ensures WholeHash(t.cfg, t.parts[t.msgs[id].part]) {
        if id != s.orch.id {
          assert Fed(s, id);
          assert WholeHash(s.cfg, s.parts[s.msgs[id].part]);
        }
      }
    }
  }

  /** What a retry changes, as far as hashes and pending messages go. */
  lemma PurgeRetryEffect(s: Upload)
    requires Enabled(s, PurgeRetry)
    ensures AtMessage(s) && s.pending[s.orch.at] in s.msgs
    ensures var t, id := Apply(s, PurgeRetry), s.pending[s.orch.at];
      && t.cfg == s.cfg && t.pending == Removed(s.pending, s.orch.at) && !t.orch.Fill?
      && t.msgs == s.msgs[id := s.msgs[id].(complete := false)]
      && |t.parts| == |s.parts| && forall i :: 0 <= i < |s.parts| && i != MsgAt(s).part ==> t.parts[i] == s.parts[i]
  {
    hide MoreToFill, MoreToRefill, Unclaimed, CanTake, CanFinish, CanDo, Take, Send, Finish, Do, IsSending, MayThrow, ClaimIsDue;
  }

  lemma PurgeRetryHashes(s: Upload)
    requires Inv(s) && HashInv(s) && Enabled(s, PurgeRetry)
    ensures HashInv(Apply(s, PurgeRetry))
  {
    hide PoolInv, OrchInv, BudgetInv, CallsInv, ConfigOk, PartsInv, MsgsInv, Enabled, Apply, Body;
    PurgeRetryEffect(s);
    OwnerAt(s);
    var t, gone := Apply(s, PurgeRetry), s.pending[s.orch.at];
    forall id | t.cfg.checksum && Fed(t, id) ensures WholeHash(t.cfg, t.parts[t.msgs[id].part]) {
      assert id != gone && Fed(s, id);
      PartOfFed(s, id, MsgAt(s).part);
      assert WholeHash(s.cfg, s.parts[s.msgs[id].part]);
    }
  }

  lemma OwnerAt(s: Upload)
    requires MsgsInv(s) && AtMessage(s)
    ensures PartAt(s).owner == s.pending[s.orch.at]
    ensures s.pending[s.orch.at] !in Removed(s.pending, s.orch.at)
  {
    hide PartOk, SenderOk;
    assert MsgFits(s, s.pending[s.orch.at]);
    var r, k := Removed(s.pending, s.orch.at), s.orch.at;
    forall j | 0 <= j < |r| ensures r[j] != s.pending[k] {
      assert r[j] == s.pending[if j < k then j else j + 1];
    }
  }

  lemma PurgeDoneHashes(s: Upload)
    requires Inv(s) && HashInv(s) && Enabled(s, PurgeDone)
    ensures HashInv(Apply(s, PurgeDone))
  {
    hide Inv, HashInv;
    hide MoreToFill, MoreToRefill, Unclaimed, CanTake, CanFinish, CanDo, Take, Send, Finish, Do, IsSending;
    var t := Apply(s, PurgeDone);
    SameHashes(s, t);
  }

  lemma RefillPushHashes(s: Upload)
    requires Inv(s) && HashInv(s) && Enabled(s, RefillPush)
    ensures HashInv(Apply(s, RefillPush))
  {
    hide Inv, HashInv;
    hide MoreToFill, MoreToRefill, Unclaimed, CanTake, CanFinish, CanDo, Take, Send, Finish, Do, IsSending;
    var t := Apply(s, RefillPush);
    SameHashes(s, t);
  }

  /** The other steps of the uploading thread only move it. */
  lemma MoveHashes(s: Upload, step: Step)
    requires HashInv(s) && Enabled(s, step) && Orchestral(step) && !step.PurgeDone? && !step.RefillPush?
    requires !step.ScanClaim? && !step.FillRead? && !step.FillDone? && !step.PurgeRetry?
    ensures HashInv(Apply(s, step))
  {
    var t := Apply(s, step);
    assert t == s.(orch := t.orch, calls := t.calls) && !t.orch.Fill?;
    hide Apply, Enabled, HashInv;
    SameHashes(s, t);
  }

  /** A message in the first pass is not in the pool, so no worker can take it out of that phase. */
  lemma ClaimLeavesFilling(s: Upload, w: nat, id: nat)
    requires Inv(s) && Enabled(s, Claim(w))
    ensures StillFed(s, Apply(s, Claim(w)), id)
  {
    hide Inv, MoreToFill, MoreToRefill, Unclaimed, AtMessage, IsSending, CanTake, CanFinish, CanDo, Take, Send, Finish, Do;
    TakenIsFed(s, w);
    var t := Apply(s, Claim(w));
    assert t.pending == s.pending && t.parts == s.parts;
  }

  lemma WorkerLeavesFilling(s: Upload, step: Step, id: nat)
    requires Inv(s) && Enabled(s, step) && !Orchestral(step)
    ensures StillFed(s, Apply(s, step), id)
  {
    hide Inv, MoreToFill, MoreToRefill, Unclaimed, AtMessage, CanFinish, CanDo, CanTake, Take, Send, Finish, Do;
    if step.Claim? {
      ClaimLeavesFilling(s, step.w, id);
    } else {
      var t := Apply(s, step);
      assert t.pending == s.pending && |t.parts| == |s.parts|;
    }
  }

  lemma WorkerHashes(s: Upload, step: Step)
    requires Inv(s) && HashInv(s) && Enabled(s, step) && !Orchestral(step)
    ensures HashInv(Apply(s, step))
  {
    hide Inv, HashInv, Apply, Enabled, StillFed;
    var t := Apply(s, step);
    OtherStep(s, step);
    assert forall i :: 0 <= i < |s.parts| ==> SamePart(s.parts[i], t.parts[i]);
    forall id: nat ensures StillFed(s, t, id) {
      WorkerLeavesFilling(s, step, id);
    }
    SameHashes(s, t);
  }

  lemma TakenIsFed(s: Upload, w: nat)
    requires Inv(s) && CanTake(s.pool, w)
    ensures var h := Take(s.pool, w).workers[w].hold; h.Message? && h.id in s.msgs ==> !s.msgs[h.id].phase.Filling?
  {
    hide PoolOk, PartsInv, MsgsInv, OrchInv, BudgetInv, CallsInv, ConfigOk;
    var k := FirstWaiting(s.pool.queue);
    if k < |s.pool.queue| {
      assert s.pool.queue[k] in s.pool.queue;
    }
  }

  lemma StepHashes(s: Upload, step: Step)
    requires Inv(s) && HashInv(s) && Enabled(s, step)
    ensures HashInv(Apply(s, step))
  {
    hide Inv, HashInv, Enabled, Apply;
    if !Orchestral(step) {
      WorkerHashes(s, step);
    } else {
      match step
      case ScanClaim => ClaimHashes(s);
      case FillRead(n) => FillReadHashes(s, n);
      case FillDone => FillDoneHashes(s);
      case PurgeRetry => PurgeRetryHashes(s);
      case PurgeDone => PurgeDoneHashes(s);
      case RefillPush => RefillPushHashes(s);
      case _ => MoveHashes(s, step);
    }
  }

  lemma {:induction false} RunHashes(s: Upload, run: seq<Step>)
    requires Inv(s) && HashInv(s) && ValidRun(s, run)
    ensures HashInv(Exec(s, run))
    decreases |run|
  {
    hide Inv, HashInv, Enabled, Apply;
    if run != [] {
      StepHashes(s, run[0]);
      UploadSteps.StepKeepsInv(s, run[0]);
      RunHashes(Apply(s, run[0]), run[1..]);
    }
  }

  lemma HashOfFed(s: Upload, id: nat)
    requires PartsInv(s) && HashInv(s) && s.cfg.checksum && Fed(s, id)
    ensures var p := s.parts[s.msgs[id].part];
      && p.slice.base + p.slice.size <= |s.cfg.file|
      && p.hashed == s.cfg.file[p.slice.base..p.slice.base + p.slice.size]
  {
    hide Flat;
    assert PartOk(s.cfg, s.parts[s.msgs[id].part]) && WholeHash(s.cfg, s.parts[s.msgs[id].part]);
  }

  /** With checksums on, every request under way carries the hash of exactly its slice of the file. */
  lemma ChecksumIsOfTheSlice(cfg: Config, run: seq<Step>, id: nat)
    requires ConfigOk(cfg) && cfg.checksum && ValidRun(Initial(cfg), run) && IsSending(Exec(Initial(cfg), run), id)
    ensures var p := PartOf(Exec(Initial(cfg), run), id);
      && p.slice.base + p.slice.size <= |cfg.file|
      && p.hashed == cfg.file[p.slice.base..p.slice.base + p.slice.size]
  {
    hide Exec, ValidRun, PoolInv, OrchInv, BudgetInv, CallsInv, ConfigOk, PartsInv, MsgsInv;
    InitialInv(cfg);
    Reached(cfg, run);
    RunHashes(Initial(cfg), run);
    var s := Exec(Initial(cfg), run);
    UploadSteps.SendingMessage(s, id);
    HashOfFed(s, id);
  }
}
