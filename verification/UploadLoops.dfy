/**
 DoS3MultiPartUpload (ECSUtil/FileSupport.cpp) as the nested loops of the original. Each action on
 the shared lists is one step of the state machine of UploadState; between two actions the worker
 threads and the pool may take any number of steps. So whatever the loops do is a run of the state
 machine, and the results about all runs hold for them.
 */
module UploadLoops {
  import opened Bytes
  import opened PartPlan
  import opened UploadState
  import opened UploadInvariants
  import UploadSteps
  import opened UploadTheorems
  import opened UploadCauses
  import PoolState

  /** A step of the uploading thread itself. */
  predicate Orchestral(step: Step) {
    match step
    case ScanSkip => true
    case ScanBreak => true
    case ScanClaim => true
    case ScanEnd => true
    case FillRead(_) => true
    case FillDone => true
    case Wake => true
    case PurgeRetry => true
    case PurgeGiveUp => true
    case PurgeDone => true
    case PurgeNext => true
    case PurgeEnd => true
    case RefillRead(_) => true
    case RefillPush => true
    case Throw(_) => true
    case CompleteCall(_) => true
    case AbortCall => true
    case _ => false
  }

  /** What the other threads leave alone while the uploading thread stands still. */
  ghost predicate Rely(s: Upload, t: Upload) {
    && t.cfg == s.cfg && t.orch == s.orch && t.pending == s.pending && t.calls == s.calls
    && |t.parts| == |s.parts| && t.msgs.Keys == s.msgs.Keys
    && (forall i :: 0 <= i < |s.parts| ==> SamePart(s.parts[i], t.parts[i]))
    && (forall id :: id in s.msgs ==> t.msgs[id].part == s.msgs[id].part)
    && (s.orch.Purge? || s.orch.Refill? ==> forall id :: id in s.msgs ==> t.msgs[id].complete == s.msgs[id].complete)
  }

  predicate SamePart(p: Part, q: Part) {
    q == p.(popped := q.popped, uploaded := q.uploaded)
  }

  lemma OtherStep(s: Upload, step: Step)
    requires Enabled(s, step) && !Orchestral(step)
    ensures Rely(s, Apply(s, step)) && Apply(s, step).orch == s.orch && Apply(s, step).pending == s.pending
  {
    hide PoolState.Take, PoolState.Finish, PoolState.Do, PoolState.CanDo, PoolState.CanTake;
  }

  lemma RelyTwice(s: Upload, t: Upload, u: Upload)
    requires Rely(s, t) && Rely(t, u)
    ensures Rely(s, u)
  {
    forall i | 0 <= i < |s.parts| ensures SamePart(s.parts[i], u.parts[i]) {
      assert SamePart(s.parts[i], t.parts[i]) && SamePart(t.parts[i], u.parts[i]);
    }
  }

  lemma {:induction false} OneMoreStep(s: Upload, run: seq<Step>, step: Step)
    requires ValidRun(s, run) && Enabled(Exec(s, run), step)
    ensures ValidRun(s, run + [step]) && Exec(s, run + [step]) == Apply(Exec(s, run), step)
    decreases |run|
  {
    hide Enabled, Apply;
    if run == [] {
      assert run + [step] == [step] && [step][1..] == [];
      assert ValidRun(Apply(s, step), []);
    } else {
      OneMoreStep(Apply(s, run[0]), run[1..], step);
      assert (run + [step])[1..] == run[1..] + [step];
    }
  }

  // ---------------------------------------------------------------- what is possible where

  lemma PlanFacts(s: Upload)
    requires Inv(s)
    ensures |s.parts| == |s.cfg.plan|
    ensures forall i :: 0 <= i < |s.parts| ==> s.parts[i].slice == s.cfg.plan[i] && InFile(s.cfg, s.parts[i])
  {
    hide MsgsInv, PoolInv, BudgetInv, CallsInv, ConfigOk, OrchInv, Flat;
    forall i | 0 <= i < |s.parts| ensures InFile(s.cfg, s.parts[i]) { assert PartOk(s.cfg, s.parts[i]); }
  }

  lemma FillFacts(s: Upload)
    requires Inv(s) && s.orch.Fill?
    ensures s.orch.part < |s.parts| == |s.cfg.plan| && s.parts[s.orch.part].slice == s.cfg.plan[s.orch.part]
    ensures s.orch.offset <= s.cfg.plan[s.orch.part].size && InFile(s.cfg, s.parts[s.orch.part]) && s.orch.id in s.msgs
  {
    PlanFacts(s);
    hide MsgsInv, PoolInv, BudgetInv, CallsInv, ConfigOk, Flat, PartsInv;
  }

  /** A read in the first pass: what it needs, and how it moves the uploading thread. */
  lemma FillReads(s: Upload, n: nat)
    requires Inv(s) && s.orch.Fill? && s.orch.part < |s.parts| && MoreToFill(s)
    requires 1 <= n <= Min(s.cfg.bufSize, s.parts[s.orch.part].slice.size - s.orch.offset)
    ensures Enabled(s, FillRead(n)) && Apply(s, FillRead(n)).orch.Fill?
    ensures var t := Apply(s, FillRead(n)).orch; t.part == s.orch.part && t.offset == s.orch.offset + n
  {
    hide Inv, Pushed, MoreToRefill, IsSending, Unclaimed, Removed, Rewound, AtMessage;
    hide PoolState.CanDo, PoolState.CanTake, PoolState.CanFinish, PoolState.Take, PoolState.Send, PoolState.Finish, PoolState.Do;
    FillFacts(s);
  }

  lemma FillEnds(s: Upload)
    requires Inv(s) && s.orch.Fill? && s.orch.part < |s.parts| && !MoreToFill(s)
    ensures Enabled(s, FillDone) && Apply(s, FillDone).orch == Scan(s.orch.part + 1, false)
  {
    hide Inv, Pushed, MoreToRefill, IsSending, Unclaimed, Removed, Rewound, AtMessage;
    hide PoolState.CanDo, PoolState.CanTake, PoolState.CanFinish, PoolState.Take, PoolState.Send, PoolState.Finish, PoolState.Do;
    FillFacts(s);
  }

  /** The three ways past a part of the list. */
  lemma Scans(s: Upload)
    requires Inv(s) && s.orch.Scan? && s.orch.next < |s.parts|
    ensures !Unclaimed(s.parts[s.orch.next]) ==>
              (Enabled(s, ScanSkip) && Apply(s, ScanSkip).orch == Scan(s.orch.next + 1, s.orch.allDone && s.parts[s.orch.next].complete))
    ensures Unclaimed(s.parts[s.orch.next]) && |s.pool.queue| >= s.cfg.maxThreads + QUEUE_SLACK ==>
              (Enabled(s, ScanBreak) && Apply(s, ScanBreak).orch == Wait)
    ensures Unclaimed(s.parts[s.orch.next]) && |s.pool.queue| < s.cfg.maxThreads + QUEUE_SLACK ==>
              (Enabled(s, ScanClaim) && Apply(s, ScanClaim).orch == Fill(s.orch.next, s.pool.nextId, 0, 0))
  {
    hide Inv;
  }

  lemma ScanFacts(s: Upload)
    requires Inv(s) && s.orch.Scan?
    ensures s.orch.next <= |s.parts| == |s.cfg.plan|
  {
    PlanFacts(s);
    hide MsgsInv, PoolInv, BudgetInv, CallsInv, ConfigOk, PartsInv, Unclaimed;
  }

  /** The part and the message that the purge pass looks at. */
  lemma PurgeFacts(s: Upload)
    requires Inv(s) && (s.orch.Purge? || s.orch.Refill?)
    ensures s.orch.at <= |s.pending|
    ensures s.orch.at < |s.pending| ==> AtMessage(s)
    ensures s.orch.at < |s.pending| ==> InFile(s.cfg, PartAt(s)) && PartAt(s).popped <= |PartAt(s).pushed|
    ensures s.orch.Refill? ==> s.orch.at < |s.pending| && !MsgAt(s).complete && s.orch.chunk != []
  {
    hide PoolInv, BudgetInv, CallsInv, ConfigOk, Linked, Flat;
    if s.orch.at < |s.pending| {
      UploadSteps.ListedMessage(s, s.orch.at);
      assert PartOk(s.cfg, PartAt(s));
    }
  }

  ghost function Unread(s: Upload): int
    requires AtMessage(s)
  {
    PartAt(s).slice.size - PartAt(s).cursor
  }

  lemma RelyAt(s: Upload, t: Upload)
    requires Rely(s, t) && AtMessage(s)
    ensures t.orch == s.orch && t.pending == s.pending && AtMessage(t)
    ensures MsgAt(t).complete == MsgAt(s).complete && Unread(t) == Unread(s)
  {
    assert SamePart(PartAt(s), t.parts[MsgAt(s).part]);
  }

  lemma RefillReads(s: Upload, n: nat)
    requires Inv(s) && s.orch.Purge? && AtMessage(s) && !MsgAt(s).complete && MoreToRefill(s.cfg, PartAt(s))
    requires 1 <= n <= Min(s.cfg.bufSize, PartAt(s).slice.size - PartAt(s).cursor)
    ensures Enabled(s, RefillRead(n))
    ensures var t := Apply(s, RefillRead(n)); t == s.(orch := t.orch) && t.orch.Refill? && t.orch.at == s.orch.at && t.orch.deleted == s.orch.deleted
  {
    hide Inv, MoreToRefill, IsSending, MoreToFill, Unclaimed, Removed, Rewound, Pushed;
    hide PoolState.CanDo, PoolState.CanTake, PoolState.CanFinish, PoolState.Take, PoolState.Send, PoolState.Finish, PoolState.Do;
    PurgeFacts(s);
  }

  lemma SameUnread(s: Upload, t: Upload)
    requires AtMessage(s) && t == s.(orch := t.orch) && (t.orch.Purge? || t.orch.Refill?) && t.orch.at == s.orch.at
    ensures AtMessage(t) && Unread(t) == Unread(s) && MsgAt(t) == MsgAt(s)
  {
  }

  lemma RefillPushes(s: Upload)
    requires Inv(s) && s.orch.Refill?
    ensures AtMessage(s) && !MsgAt(s).complete && Enabled(s, RefillPush)
    ensures var t := Apply(s, RefillPush); t.orch == Purge(s.orch.at, s.orch.deleted) && t.pending == s.pending && t.msgs == s.msgs
    ensures var t := Apply(s, RefillPush); AtMessage(t) && Unread(t) < Unread(s)
  {
    hide Inv, MoreToRefill, IsSending, MoreToFill, Unclaimed, Removed, Rewound, ReadSize;
    hide PoolState.CanDo, PoolState.CanTake, PoolState.CanFinish, PoolState.Take, PoolState.Send, PoolState.Finish, PoolState.Do;
    PurgeFacts(s);
  }

  lemma SameMessage(s: Upload, t: Upload)
    requires AtMessage(s) && AtMessage(t) && t.msgs == s.msgs && t.pending == s.pending && t.orch.at == s.orch.at
    ensures MsgAt(t) == MsgAt(s)
  {
  }

  /** The four ways past a message of the pending list. */
  lemma Purges(s: Upload)
    requires Inv(s) && s.orch.Purge? && AtMessage(s)
    ensures !MsgAt(s).complete && !MoreToRefill(s.cfg, PartAt(s)) ==>
              (Enabled(s, PurgeNext) && var t := Apply(s, PurgeNext); t.orch == Purge(s.orch.at + 1, s.orch.deleted) && t.pending == s.pending)
    ensures MsgAt(s).complete && !MsgAt(s).error ==>
              (Enabled(s, PurgeDone) && var t := Apply(s, PurgeDone); t.orch == Purge(s.orch.at, true) && |t.pending| == |s.pending| - 1)
    ensures MsgAt(s).complete && MsgAt(s).error && PartAt(s).retry < s.cfg.maxRetries ==>
              (Enabled(s, PurgeRetry) && var t := Apply(s, PurgeRetry); t.orch == Purge(s.orch.at, true) && |t.pending| == |s.pending| - 1)
    ensures MsgAt(s).complete && MsgAt(s).error && PartAt(s).retry >= s.cfg.maxRetries ==>
              (Enabled(s, PurgeGiveUp) && Apply(s, PurgeGiveUp).orch == Failing)
  {
    hide Inv;
  }

  /**
   At a failed request that may be tried again the uploading thread has no other way than to retry: its
   part can be handed out again, and the pass will end with a new look at the part list.
   */
  lemma FailedRequestIsRetried(s: Upload, step: Step)
    requires Inv(s) && s.orch.Purge? && AtMessage(s) && Orchestral(step) && Enabled(s, step)
    requires MsgAt(s).complete && MsgAt(s).error && PartAt(s).retry < s.cfg.maxRetries
    ensures step == PurgeRetry
    ensures Apply(s, step).orch == Purge(s.orch.at, true) && MsgAt(s).part < |Apply(s, step).parts|
    ensures var p := Apply(s, step).parts[MsgAt(s).part]; Unclaimed(p) && p.retry == PartAt(s).retry + 1
  {
    hide Inv, PoolState.CanDo, PoolState.CanTake, PoolState.CanFinish, PoolState.Take, PoolState.Finish, PoolState.Do;
  }

  /** The uploading thread is where it was and may go on reading. */
  lemma RelyFill(s: Upload, t: Upload)
    requires Rely(s, t) && s.orch.Fill? && s.orch.part < |s.parts| && MoreToFill(s)
    ensures t.orch == s.orch && |t.parts| == |s.parts| && MoreToFill(t)
  {
    assert SamePart(s.parts[s.orch.part], t.parts[s.orch.part]);
  }

  lemma ScanEnds(s: Upload)
    requires s.orch.Scan? && s.orch.next == |s.parts|
    ensures Enabled(s, ScanEnd) && Apply(s, ScanEnd).orch == if s.orch.allDone then Finishing else Wait
  {
  }

  lemma UnreadIsPositive(s: Upload)
    requires AtMessage(s) && MoreToRefill(s.cfg, PartAt(s))
    ensures Unread(s) > 0
  {
  }

  lemma PurgeEnds(s: Upload)
    requires s.orch.Purge? && s.orch.at == |s.pending|
    ensures Enabled(s, PurgeEnd) && Apply(s, PurgeEnd).orch == if s.orch.deleted then Scan(0, true) else Wait
  {
  }

  lemma WaitEnds(s: Upload)
    requires s.orch.Wait?
    ensures Enabled(s, Wake) && Apply(s, Wake).orch == Purge(0, false)
  {
  }

  lemma CallEnds(s: Upload, ok: bool)
    ensures s.orch.Finishing? ==> Enabled(s, CompleteCall(ok)) && Apply(s, CompleteCall(ok)).orch == if ok then Ended(true) else Failing
    ensures s.orch.Failing? ==> Enabled(s, AbortCall) && Apply(s, AbortCall).orch == Ended(false)
  {
  }

  class Uploader {
    const cfg: Config
    const world: World
    const patience: nat
    var s: Upload
    var time: nat
    var wakes: nat
    ghost var history: seq<Step>

    constructor (cfg: Config, world: World, patience: nat)
      requires ConfigOk(cfg)
      ensures this.cfg == cfg && this.world == world && this.patience == patience
      ensures Valid() && s.orch == Scan(0, true) && wakes == 0
    {
      this.cfg, this.world, this.patience := cfg, world, patience;
      s, time := Initial(cfg), 0;
      history, wakes := [], 0;
    }

    ghost predicate Valid()
      reads this
    {
      && ConfigOk(cfg) && ValidRun(Initial(cfg), history) && Exec(Initial(cfg), history) == s
      && time == |history| && wakes == Wakes(history) && Told(world, patience, history)
    }

    lemma Facts()
      requires Valid()
      ensures Inv(s) && s.cfg == cfg && cfg.bufSize > 0
    {
      Reached(cfg, history);
    }

    /** One action. */
    method Act(step: Step)
      requires Valid() && Enabled(s, step) && Backed(world, patience, time, wakes, step)
      modifies this
      ensures Valid() && s == Apply(old(s), step)
      ensures wakes == old(wakes) + if step.Wake? then 1 else 0
    {
      hide Backed, Wakes, Told;
      OneMoreStep(Initial(cfg), history, step);
      OneMoreTold(world, patience, history, step);
      s, time := Apply(s, step), time + 1;
      history, wakes := history + [step], wakes + (if step.Wake? then 1 else 0);
    }

    /** The worker threads and the pool run for a while. */
    method Others()
      requires Valid()
      modifies this
      ensures Valid() && Rely(old(s), s) && s.orch == old(s.orch) && s.pending == old(s.pending) && wakes == old(wakes)
    {
      hide Told, Wakes, Rely, Apply, Enabled, ValidRun, Exec, Orchestral;
      RelySelf(s);
      var rounds: int := *;
      while rounds > 0
        invariant Valid() && Rely(old(s), s) && s.orch == old(s.orch) && s.pending == old(s.pending) && wakes == old(wakes)
      {
        rounds := rounds - 1;
        var step: Step := *;
        if !Orchestral(step) && Enabled(s, step) {
          ghost var before := s;
          OtherStep(s, step);
          OthersNeedNoAnswer(step);
          Act(step);
          RelyTwice(old(s), before, s);
        }
      }
    }

    lemma RelySelf(s: Upload)
      ensures Rely(s, s)
    {
    }

    lemma OthersNeedNoAnswer(step: Step)
      requires !Orchestral(step)
      ensures Backed(world, patience, time, wakes, step) && !step.Wake?
    {
    }

    method TestAbort() returns (aborted: bool)
      ensures aborted <==> world.aborts(time)
    {
      aborted := world.aborts(time);
    }

    /** A read that succeeds delivers at least one byte and no more than asked for. */
    method ReadFile(size: nat) returns (ok: bool, n: nat)
      requires size > 0
      ensures ok <==> world.files(time).Got?
      ensures ok ==> 1 <= n <= size
    {
      match world.files(time)
      case Nothing => ok, n := false, 0;
      case Got(m) => ok, n := true, if 1 <= m <= size then m else size;
    }

    /** Give up, for a cause that the environment has given. */
    method Fail(cause: Cause)
      requires Valid() && MayThrow(s, cause) && Backed(world, patience, time, wakes, Throw(cause))
      modifies this
      ensures Valid() && s.orch.Failing? && wakes == old(wakes)
    {
      hide ValidRun, Exec;
      Act(Throw(cause));
    }

    /** The first pass over a part that was handed out: read it, queue what fits. */
    method FillPart()
      requires Valid() && s.orch.Fill?
      modifies this
      ensures Valid() && (s.orch == Scan(old(s.orch.part) + 1, false) || s.orch.Failing?) && wakes == old(wakes)
    {
      hide Inv, Valid, Apply, Enabled, Rely;
      Facts();
      FillFacts(s);
      ghost var part := s.orch.part;
      while MoreToFill(s)
        invariant Valid() && wakes == old(wakes) && Inv(s) && s.cfg == cfg && s.orch.Fill? && s.orch.part == part < |s.parts|
        invariant part < |cfg.plan| && s.parts[part].slice == cfg.plan[part] && s.orch.offset <= cfg.plan[part].size
        decreases cfg.plan[part].size - s.orch.offset
      {
        ghost var before := s;
        Others();
        RelyFill(before, s);
        Facts();
        FillFacts(s);
        var left := s.parts[s.orch.part].slice.size - s.orch.offset;
        var ok, n := ReadFile(Min(cfg.bufSize, left));
        if !ok {
          Fail(ReadFailed);
          return;
        }
        FillReads(s, n);
        Act(FillRead(n));
        Facts();
        FillFacts(s);
      }
      FillEnds(s);
      Act(FillDone);
    }

    /** The pass over the part list: hand out what is neither done nor under way, up to a limit. */
    method ScanParts()
      requires Valid() && s.orch == Scan(0, true)
      modifies this
      ensures Valid() && (s.orch.Wait? || s.orch.Finishing? || s.orch.Failing?) && wakes == old(wakes)
    {
      hide Inv, Valid, Apply, Enabled, Unclaimed;
      Facts();
      ScanFacts(s);
      var i, listEmpty := 0, true;
      while i < |cfg.plan|
        invariant Valid() && wakes == old(wakes) && i <= |cfg.plan| && s.orch == Scan(i, listEmpty)
      {
        Others();
        Facts();
        ScanFacts(s);
        Scans(s);
        if !Unclaimed(s.parts[i]) {
          listEmpty := listEmpty && s.parts[i].complete;
          Act(ScanSkip);
          i := i + 1;
          continue;
        }
        listEmpty := false;
        if |s.pool.queue| >= cfg.maxThreads + QUEUE_SLACK {
          Act(ScanBreak);
          return;
        }
        var aborted := TestAbort();
        if aborted {
          Fail(AbortRequested);
          return;
        }
        Act(ScanClaim);
        FillPart();
        if s.orch.Failing? {
          return;
        }
        i := i + 1;
      }
      Facts();
      ScanFacts(s);
      ScanEnds(s);
      Act(ScanEnd);
    }

    /** More data for the queue of a part under way. */
    method RefillPart()
      requires Valid() && s.orch.Purge? && AtMessage(s) && !MsgAt(s).complete
      modifies this
      ensures Valid() && wakes == old(wakes)
      ensures !s.orch.Failing? ==> s.orch == old(s.orch) && s.pending == old(s.pending) && AtMessage(s)
      ensures !s.orch.Failing? ==> !MsgAt(s).complete && !MoreToRefill(cfg, PartAt(s)) && s.cfg == cfg
    {
      hide Inv, Valid, Apply, Enabled, Rely, MoreToRefill, AtMessage;
      Facts();
      while MoreToRefill(cfg, PartAt(s))
        invariant Valid() && wakes == old(wakes) && s.cfg == cfg && s.orch == old(s.orch) && s.pending == old(s.pending)
        invariant AtMessage(s) && !MsgAt(s).complete
        decreases Unread(s)
      {
        Facts();
        UnreadIsPositive(s);
        var ok, n := ReadFile(Min(cfg.bufSize, PartAt(s).slice.size - PartAt(s).cursor));
        if !ok {
          Fail(ReadFailed);
          return;
        }
        RefillReads(s, n);
        ghost var started := s;
        Act(RefillRead(n));
        SameUnread(started, s);
        ghost var before := s;
        Others();
        RelyAt(before, s);
        Facts();
        RefillPushes(s);
        ghost var chunked := s;
        Act(RefillPush);
        SameMessage(chunked, s);
        Facts();
      }
    }

    /** The pass over the pending list. */
    method PurgePass()
      requires Valid() && s.orch == Purge(0, false)
      modifies this
      ensures Valid() && (s.orch.Wait? || s.orch == Scan(0, true) || s.orch.Failing?) && wakes == old(wakes)
    {
      hide Inv, Valid, Apply, Enabled, Rely, MoreToRefill, AtMessage;
      Facts();
      PurgeFacts(s);
      while s.orch.at < |s.pending|
        invariant Valid() && wakes == old(wakes) && s.orch.Purge? && s.orch.at <= |s.pending|
        decreases |s.pending| - s.orch.at
      {
        Others();
        Facts();
        PurgeFacts(s);
        if MsgAt(s).complete {
          Purges(s);
          if MsgAt(s).error {
            if PartAt(s).retry >= cfg.maxRetries {
              Act(PurgeGiveUp);
              return;
            }
            Act(PurgeRetry);
          } else {
            Act(PurgeDone);
          }
        } else {
          RefillPart();
          if s.orch.Failing? {
            return;
          }
          Facts();
          Purges(s);
          Act(PurgeNext);
        }
        Facts();
        PurgeFacts(s);
      }
      PurgeEnds(s);
      Act(PurgeEnd);
    }

    /**
     The whole loop and the calls that end it. `patience` is how often the thread wakes up before
     somebody aborts the upload. A failed end has a reason.
     */
    method Run() returns (ok: bool)
      requires Valid() && s.orch == Scan(0, true) && wakes == 0
      modifies this
      ensures Valid() && s.orch == Ended(ok) && (ok ==> world.completes)
      ensures !ok ==> Reason(world, patience, cfg, history)
    {
      hide Inv, Valid, Apply, Enabled, Rely, Reason, ClaimIsDue, ReadIsDue;
      var left := patience;
      while !s.orch.Finishing? && !s.orch.Failing?
        invariant Valid() && left == patience - wakes
        invariant s.orch == Scan(0, true) || s.orch.Wait? || s.orch.Finishing? || s.orch.Failing?
        decreases left, s.orch.Scan?, s.orch.Wait?
      {
        if s.orch.Scan? {
          ScanParts();
        } else {
          Others();
          var aborted := TestAbort();
          if aborted {
            Fail(AbortRequested);
          } else if left == 0 {
            Fail(PatienceSpent);
          } else {
            left := left - 1;
            WaitEnds(s);
            Act(Wake);
            PurgePass();
          }
        }
      }
      if s.orch.Finishing? {
        Others();
        CallEnds(s, world.completes);
        Act(CompleteCall(world.completes));
        if world.completes {
          return true;
        }
      }
      CallEnds(s, false);
      Act(AbortCall);
      FailedEnd();
      return false;
    }

    lemma FailedEnd()
      requires Valid() && s.orch == Ended(false)
      ensures ValidRun(Initial(cfg), history) && Reason(world, patience, cfg, history)
    {
      FailureHasAReason(world, patience, cfg, history);
    }
  }

  datatype Result = NotTried | InvalidParameter | NotStarted | Finished(ok: bool)

  /** The steps that an upload has taken, and its arguments with the plan of its parts. */
  datatype Account = Account(cfg: Config, run: seq<Step>)

  /** The account of an upload in this environment that has ended. */
  ghost predicate IsAccount(w: World, patience: nat, a: Account, ok: bool) {
    && ConfigOk(a.cfg) && ValidRun(Initial(a.cfg), a.run) && Exec(Initial(a.cfg), a.run).orch == Ended(ok)
    && Told(w, patience, a.run)
  }

  /**
   DoS3MultiPartUpload. `calls` are the requests to the server and `stored` is the object it holds
   afterwards. A success means that the object is the file. A failure has a reason: while all reads
   succeed, nobody aborts, the server completes and no part fails on all its tries, it is a success.
   */
  method DoS3MultiPartUpload(file: seq<byte>, bufSize: nat, partMB: nat, maxThreads: nat, checksum: bool,
                             maxQueueSize: nat, maxRetries: nat, world: World, patience: nat)
    returns (r: Result, calls: seq<Call>, stored: seq<byte>, ghost account: Account)
    requires bufSize > 0 && 0 < partMB < DWORD_RANGE
    ensures r.NotTried? <==>
      (|file| < (partMB * MB) % DWORD_RANGE || PartLength(|file|, partMB) < MIN_PART || |file| <= PartLength(|file|, partMB))
    ensures r.InvalidParameter? <==> !r.NotTried? && maxThreads == 0
    ensures r.NotStarted? <==> !r.NotTried? && maxThreads > 0 && !world.initiates
    ensures !r.Finished? ==> calls == []
    ensures r.Finished? ==>
      calls == (if r.ok then [Initiated, Completed] else [Initiated, Aborted]) || (!r.ok && calls == [Initiated, CompleteFailed, Aborted])
    ensures stored == if r.Finished? && r.ok then file else []
    ensures r.Finished? ==> IsAccount(world, patience, account, r.ok) && account.cfg.file == file && account.cfg.maxRetries == maxRetries
    ensures r == Finished(false) ==> Reason(world, patience, account.cfg, account.run)
    ensures r == Finished(true) ==> world.completes && !ReadHasFailed(world, account.run) && !AbortWasRequested(world, account.run)
  {
    calls, stored := [], [];
    var queueMax := if maxQueueSize == 0 then 10 else maxQueueSize;
    var plan := PlanUpload(|file|, partMB);
    account := Account(Config(file, [], bufSize, queueMax, maxThreads, maxRetries, checksum), []);
    if plan.TooSmall? {
      return NotTried, calls, stored, account;
    }
    if maxThreads == 0 {
      return InvalidParameter, calls, stored, account;
    }
    if !world.initiates {
      return NotStarted, calls, stored, account;
    }
    var u := new Uploader(Config(file, plan.parts, bufSize, queueMax, maxThreads, maxRetries, checksum), world, patience);
    var ok := u.Run();
    hide ValidRun, Exec, Tiles, Reason, Told, ReadHasFailed, AbortWasRequested, Wakes;
    EndOfTheRun(u.cfg, u.history);
    account := Account(u.cfg, u.history);
    calls := u.s.calls;
    if ok {
      SuccessHasNoCause(world, patience, u.cfg, u.history);
      stored := Assembled(u.s.parts);
    }
    return Finished(ok), calls, stored, account;
  }
}
