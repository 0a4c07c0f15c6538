/**
 The uploader is never stuck: while it waits, its next pass over the pending messages will find
 something to do, or a worker or the pool can go on, in every reachable state. The one exception is a
 request that had to be sent again for authentication, whose body has already been consumed.
 */
module UploadProgress {
  import opened Bytes
  import opened PoolState
  import opened UploadState
  import opened UploadInvariants
  import UploadSteps
  import UploadTheorems

  // ---------------------------------------------------------------- what else every step keeps

  ghost predicate PlainQueue(q: seq<MsgEntry>) {
    forall i :: 0 <= i < |q| ==> q[i].grouping == DONT_CARE
  }

  /** Workers in use process the uploader's messages; a worker that ends has none. */
  ghost predicate PlainWorkers(ws: seq<Worker>) {
    forall w :: 0 <= w < |ws| ==>
      && (ws[w].inUse ==> ws[w].grouping == DONT_CARE)
      && (ws[w].exiting ==> !ws[w].inUse && ws[w].hold.Nothing?)
  }

  /** Only messages that have been reported leave the queue. */
  ghost predicate FinishedReported(finished: set<nat>, msgs: map<nat, Msg>) {
    forall id :: id in finished && id in msgs ==> msgs[id].phase.Reported?
  }

  ghost predicate Plain(s: Upload) {
    PlainQueue(s.pool.queue) && PlainWorkers(s.pool.workers) && FinishedReported(s.pool.finished, s.msgs)
  }

  lemma PlainSend(p: Pool)
    requires PlainQueue(p.queue)
    ensures PlainQueue(Send(p, 0, DONT_CARE).queue)
  {
    var e := MsgEntry(p.nextId, 0, DONT_CARE, false);
    assert InsertPos(p.queue, 0) == |p.queue|;
    assert Insert(p.queue, e) == p.queue + [e];
  }

  lemma PlainTake(p: Pool, w: nat)
    requires CanTake(p, w) && PlainQueue(p.queue) && PlainWorkers(p.workers)
    ensures var r := Take(p, w); PlainQueue(r.queue) && PlainWorkers(r.workers) && r.finished == p.finished
  {
  }

  lemma PlainFinish(p: Pool, w: nat)
    requires CanFinish(p, w) && PlainQueue(p.queue) && PlainWorkers(p.workers)
    ensures var r := Finish(p, w, true);
      PlainQueue(r.queue) && PlainWorkers(r.workers) && r.finished <= p.finished + {p.workers[w].hold.id}
  {
  }

  lemma {:induction false} PlainStartUpTo(ws: seq<Worker>, min: nat)
    requires PlainWorkers(ws)
    ensures PlainWorkers(StartUpTo(ws, min))
    decreases min - NumActive(ws)
  {
    StartAddsOne(ws);
    if NumActive(ws) < min {
      PlainStartUpTo(Start(ws), min);
    }
  }

  lemma PlainPoolStep(p: Pool, a: PoolState.Action)
    requires CanDo(p, a) && (a.DoAddThreads? || a.DoIdle? || a.DoKill? || a.DoExit?)
    requires PlainQueue(p.queue) && PlainWorkers(p.workers)
    ensures var r := Do(p, a); PlainQueue(r.queue) && PlainWorkers(r.workers) && r.finished == p.finished
  {
    if a.DoAddThreads? {
      PlainStartUpTo(p.workers, p.minThreads);
    }
  }

  /** A message moves on that has not been reported, so it is still in the queue. */
  lemma MessageMoves(s: Upload, id: nat, m: Msg)
    requires FinishedReported(s.pool.finished, s.msgs)
    requires if id in s.msgs then m.phase.Reported? || !s.msgs[id].phase.Reported? else id !in s.pool.finished
    requires id in s.msgs && s.msgs[id].phase.Reported? ==> m.phase.Reported?
    ensures FinishedReported(s.pool.finished, s.msgs[id := m])
  {
  }

  lemma NewIsNotFinished(s: Upload)
    requires QueueInv(s.pool)
    ensures s.pool.nextId !in s.pool.finished
  {
  }

  lemma FilledIsNew(s: Upload)
    requires OrchInv(s) && s.orch.Fill?
    ensures s.orch.id == s.pool.nextId
  {
  }

  lemma StepKeepsPlain(s: Upload, step: Step)
    requires Inv(s) && Plain(s) && Enabled(s, step)
    ensures Plain(Apply(s, step))
  {
    hide PlainQueue, PlainWorkers, PartsInv, MsgsInv, OrchInv, CallsInv, BudgetInv, ConfigOk, HoldInv, GroupInv, LimitInv;
    hide Take, Finish, Do, Insert;
    match step
    case ScanClaim => NewIsNotFinished(s); MessageMoves(s, s.pool.nextId, Apply(s, step).msgs[s.pool.nextId]);
    case FillDone => NewIsNotFinished(s); FilledIsNew(s); PlainSend(s.pool);
    case Claim(w) => PlainTake(s.pool, w); ClaimedIsQueued(s, w);
    case Drop(w) => PlainFinish(s.pool, w);
    case PoolStep(a) => PlainPoolStep(s.pool, a);
    case _ =>
  }

  /** A message that a worker takes is in the queue, so it has not been finished. */
  lemma ClaimedIsQueued(s: Upload, w: nat)
    requires QueueInv(s.pool) && CanTake(s.pool, w)
    ensures var hold := Take(s.pool, w).workers[w].hold; hold.Message? ==> hold.id !in s.pool.finished
  {
    var k := FirstWaiting(s.pool.queue);
    if k < |s.pool.queue| {
      assert s.pool.queue[k].id in Ids(s.pool.queue);
    }
  }

  lemma {:induction false} RunKeepsPlain(s: Upload, run: seq<Step>)
    requires Inv(s) && Plain(s) && ValidRun(s, run)
    ensures Inv(Exec(s, run)) && Plain(Exec(s, run))
    decreases |run|
  {
    hide Inv, Plain, Apply, Enabled;
    if run != [] {
      UploadSteps.StepKeepsInv(s, run[0]);
      StepKeepsPlain(s, run[0]);
      RunKeepsPlain(Apply(s, run[0]), run[1..]);
    }
  }

  // ---------------------------------------------------------------- progress

  /** What the workers and the pool do of themselves; no failure is among them. */
  ghost predicate OwnWork(step: Step) {
    || step.Claim? || step.Load? || (step.Write? && step.n > 0) || step.Pop? || (step.Return? && !step.err)
    || step.Report? || step.Drop?
    || (step.PoolStep? && (step.action.DoAddThreads? || step.action.DoIdle? || step.action.DoExit?))
  }

  ghost predicate CanWork(s: Upload, step: Step) {
    OwnWork(step) && Enabled(s, step) && Apply(s, step) != s
  }

  /** The next pass over the pending messages handles this one, or queues more of its part. */
  ghost predicate PassHelps(s: Upload, id: nat) {
    && id in s.pending && id in s.msgs && s.msgs[id].part < |s.parts|
    && (s.msgs[id].complete || MoreToRefill(s.cfg, s.parts[s.msgs[id].part]))
  }

  /** A request sent again for authentication, which finds its stream drained. */
  ghost predicate SentAgain(s: Upload, id: nat) {
    id in s.pending && id in s.msgs && s.msgs[id].phase.Sending? && s.msgs[id].phase.sender.round > 0
  }

  ghost predicate GoesOn(s: Upload) {
    (exists id :: PassHelps(s, id)) || (exists step :: CanWork(s, step))
  }

  lemma SenderWorks(s: Upload, id: nat)
    requires IsSending(s, id)
    requires var sd := s.msgs[id].phase.sender; sd.sentLast || (PartOf(s, id).Stream() != [] && (sd.loaded ==> sd.sent <= |PartOf(s, id).Stream()[0].data|))
    ensures GoesOn(s)
  {
    var sd, stream := s.msgs[id].phase.sender, PartOf(s, id).Stream();
    if sd.sentLast {
      assert Apply(s, Return(id, false)).msgs[id].phase.Returned?;
      assert CanWork(s, Return(id, false));
    } else if !sd.loaded {
      assert Apply(s, Load(id)).msgs[id].phase.sender.loaded;
      assert CanWork(s, Load(id));
    } else if sd.sent < |stream[0].data| {
      var write := Write(id, |stream[0].data| - sd.sent);
      assert Apply(s, write).msgs[id].phase.sender.sent == |stream[0].data|;
      assert CanWork(s, write);
    } else {
      assert !Apply(s, Pop(id)).msgs[id].phase.sender.loaded;
      assert CanWork(s, Pop(id));
    }
  }

  lemma ReportWorks(s: Upload, id: nat)
    requires id in s.msgs && s.msgs[id].phase.Returned? && s.orch.Wait?
    ensures GoesOn(s)
  {
    assert Apply(s, Report(id)).msgs[id].phase.Reported?;
    assert CanWork(s, Report(id));
  }

  lemma DropWorks(s: Upload, w: nat)
    requires CanFinish(s.pool, w) && s.pool.workers[w].hold.id in s.msgs && s.msgs[s.pool.workers[w].hold.id].phase.Reported?
    ensures GoesOn(s)
  {
    FinishFrees(s.pool, w);
    hide Finish;
    assert CanWork(s, Drop(w));
  }

  lemma PoolWorks(s: Upload, a: PoolState.Action)
    requires CanDo(s.pool, a) && (a.DoAddThreads? || a.DoIdle? || a.DoExit?) && Do(s.pool, a) != s.pool
    ensures GoesOn(s)
  {
    hide Do;
    assert CanWork(s, PoolStep(a));
  }

  lemma ClaimWorks(s: Upload, w: nat)
    requires CanTake(s.pool, w) && Take(s.pool, w).workers[w].hold.Message?
    ensures GoesOn(s)
  {
    hide Take;
    assert Apply(s, Claim(w)).pool == Take(s.pool, w) != s.pool;
    assert CanWork(s, Claim(w));
  }

  /** A request under way: it can write, or it is starved and its part can be refilled. */
  lemma SendingGoesOn(s: Upload, id: nat)
    requires PartsInv(s) && MsgsInv(s) && id in s.msgs && s.msgs[id].phase.Sending? && s.cfg.queueMax > 0
    ensures GoesOn(s) || SentAgain(s, id)
  {
    hide CanWork;
    assert MsgFits(s, id);
    var m := s.msgs[id];
    var p, sd := s.parts[m.part], m.phase.sender;
    assert PartOk(s.cfg, p) && SenderOk(s.cfg, sd, p) && IsSending(s, id) && id in s.pending;
    if sd.sentLast || p.Stream() != [] {
      SenderWorks(s, id);
    } else if sd.round == 0 {
      StarvedCanBeRefilled(s.cfg, sd, p);
      assert PassHelps(s, id);
    }
  }

  lemma StarvedCanBeRefilled(cfg: Config, sd: Sender, p: Part)
    requires PartOk(cfg, p) && SenderOk(cfg, sd, p) && cfg.queueMax > 0
    requires sd.round == 0 && !sd.sentLast && p.Stream() == []
    ensures MoreToRefill(cfg, p)
  {
    if p.popped == 0 {
      assert p.pushed == [] && Flat(p.pushed) == [];
      assert |Body(cfg, p, p.cursor)| == p.cursor;
    }
  }

  /** A worker that is not free to take a message can go on. */
  lemma WorkerGoesOn(s: Upload, w: nat)
    requires Inv(s) && Plain(s) && s.orch.Wait?
    requires w < |s.pool.workers| && s.pool.workers[w].active && !CanTake(s.pool, w)
    ensures GoesOn(s) || exists id :: SentAgain(s, id)
  {
    hide GoesOn, SentAgain;
    var x := s.pool.workers[w];
    if x.exiting {
      assert !Do(s.pool, DoExit(w)).workers[w].active;
      PoolWorks(s, DoExit(w));
    } else if x.hold.Nothing? {
      assert !Do(s.pool, DoIdle(w)).workers[w].inUse;
      PoolWorks(s, DoIdle(w));
    } else {
      HeldGoesOn(s, w);
    }
  }

  lemma HeldGoesOn(s: Upload, w: nat)
    requires Inv(s) && s.orch.Wait? && w < |s.pool.workers| && s.pool.workers[w].active && s.pool.workers[w].hold.Message?
    ensures GoesOn(s) || exists id :: SentAgain(s, id)
  {
    hide CallsInv, BudgetInv, QueueInv, GroupInv, LimitInv, MsgOk, PartOk, GoesOn, SentAgain, PartsInv, MsgsInv;
    var id := s.pool.workers[w].hold.id;
    assert id in HeldIds(s.pool.workers);
    var i :| 0 <= i < |s.pool.queue| && s.pool.queue[i].processing && s.pool.queue[i].id == id;
    assert s.pool.queue[i] in s.pool.queue && EntryOk(s.pool.queue[i], s.msgs[id]);
    var phase := s.msgs[id].phase;
    if phase.Sending? {
      SendingGoesOn(s, id);
    } else if phase.Returned? {
      ReportWorks(s, id);
    } else {
      DropWorks(s, w);
    }
  }

  lemma FinishFrees(p: Pool, w: nat)
    requires CanFinish(p, w)
    ensures Finish(p, w, true).workers[w].hold.Nothing? && Finish(p, w, true) != p
  {
  }

  /** A queued message: a free worker takes it, or a worker can go on, or a thread is started. */
  lemma QueuedGoesOn(s: Upload, id: nat)
    requires Inv(s) && Plain(s) && s.orch.Wait? && id in s.msgs && s.msgs[id].phase.Queued?
    ensures GoesOn(s) || exists id :: SentAgain(s, id)
  {
    hide CallsInv, BudgetInv, OrchInv, PartsInv, MsgsInv, PoolOk, LimitInv, PlainQueue, PlainWorkers, AddThreads, GoesOn, SentAgain;
    if NumActive(s.pool.workers) == 0 {
      FirstThread(s.pool);
      PoolWorks(s, DoAddThreads);
    } else {
      var w := ActiveWorker(s.pool.workers);
      if CanTake(s.pool, w) {
        WaitingInQueue(s, id);
        TakesIt(s.pool, w);
        ClaimWorks(s, w);
      } else {
        WorkerGoesOn(s, w);
      }
    }
  }

  lemma {:induction false} ActiveWorker(ws: seq<Worker>) returns (w: nat)
    requires NumActive(ws) > 0
    ensures w < |ws| && ws[w].active
  {
    var n := |ws| - 1;
    if ws[n].active { w := n; } else { w := ActiveWorker(ws[..n]); }
  }

  lemma WaitingInQueue(s: Upload, id: nat)
    requires PoolInv(s) && Plain(s) && s.orch.Wait? && id in s.msgs && s.msgs[id].phase.Queued?
    ensures FirstWaiting(s.pool.queue) < |s.pool.queue|
  {
    assert id in Ids(s.pool.queue);
    var i :| 0 <= i < |s.pool.queue| && s.pool.queue[i].id == id;
    assert s.pool.queue[i] in s.pool.queue && EntryOk(s.pool.queue[i], s.msgs[id]);
  }

  lemma TakesIt(p: Pool, w: nat)
    requires CanTake(p, w) && FirstWaiting(p.queue) < |p.queue| && PlainQueue(p.queue) && PlainWorkers(p.workers)
    ensures Take(p, w).workers[w].hold.Message?
  {
  }

  lemma FirstThread(p: Pool)
    requires NumActive(p.workers) == 0 && p.minThreads == 1 <= p.maxThreads
    ensures NumActive(AddThreads(p).workers) > 0 && AddThreads(p) != p
  {
    StartAddsOne(StartUpTo(p.workers, p.minThreads));
  }

  /** In Wait no message is being filled. */
  lemma NotFilling(s: Upload, id: nat)
    requires PoolInv(s) && Plain(s) && s.orch.Wait? && id in s.msgs
    ensures !s.msgs[id].phase.Filling?
  {
    assert id < s.pool.nextId;
    if id in Ids(s.pool.queue) {
      var i :| 0 <= i < |s.pool.queue| && s.pool.queue[i].id == id;
      assert s.pool.queue[i] in s.pool.queue && EntryOk(s.pool.queue[i], s.msgs[id]);
    }
  }

  lemma PendingGoesOn(s: Upload, id: nat)
    requires Inv(s) && Plain(s) && s.orch.Wait? && id in s.pending && id in s.msgs
    ensures GoesOn(s) || exists id :: SentAgain(s, id)
  {
    hide CallsInv, BudgetInv, PoolOk, LimitInv, PartOk, SenderOk, Body, Plain;
    NotFilling(s, id);
    assert MsgFits(s, id);
    match s.msgs[id].phase
    case Queued => QueuedGoesOn(s, id);
    case Sending(_) => SendingGoesOn(s, id);
    case Returned => ReportWorks(s, id);
    case Reported => assert PassHelps(s, id);
  }

  /**
   In every reachable waiting state the next pass over the pending messages finds a finished message
   or a part to refill, or a worker or the pool can make a step of its own that changes something,
   unless some request was sent again for authentication.
   */
  lemma NeverStuck(cfg: Config, run: seq<Step>)
    requires ConfigOk(cfg) && ValidRun(Initial(cfg), run) && Exec(Initial(cfg), run).orch.Wait?
    ensures var s := Exec(Initial(cfg), run); GoesOn(s) || exists id :: SentAgain(s, id)
  {
    hide Inv, ValidRun, Exec, Apply, Enabled, GoesOn, SentAgain;
    UploadTheorems.InitialInv(cfg);
    assert Plain(Initial(cfg));
    RunKeepsPlain(Initial(cfg), run);
    var s := Exec(Initial(cfg), run);
    SomePending(s);
    PendingGoesOn(s, s.pending[0]);
  }

  lemma SomePending(s: Upload)
    requires Inv(s) && s.orch.Wait?
    ensures s.pending != [] && s.pending[0] in s.msgs
  {
  }

  /** Of a message that is sent again the stream is read out: no step but a failing return is left. */
  lemma OnlyAnErrorIsLeft(s: Upload, id: nat, step: Step)
    requires SentAgain(s, id) && s.msgs[id].part < |s.parts|
    requires SenderOk(s.cfg, s.msgs[id].phase.sender, s.parts[s.msgs[id].part])
    requires Enabled(s, step) && (step.Load? || step.Write? || step.Pop? || step.Resend? || step.Return?)
    ensures step.id == id ==> step == Return(id, true)
  {
    hide Flat, MayThrow;
  }

  /** The exception is real: such a request can only end with an error, since nothing will feed it. */
  lemma SentAgainCanOnlyFail(cfg: Config, run: seq<Step>, id: nat, step: Step)
    requires ConfigOk(cfg) && ValidRun(Initial(cfg), run) && SentAgain(Exec(Initial(cfg), run), id)
    requires Enabled(Exec(Initial(cfg), run), step)
    requires step.Load? || step.Write? || step.Pop? || step.Resend? || step.Return?
    ensures step.id == id ==> step == Return(id, true)
    ensures var s := Exec(Initial(cfg), run); s.msgs[id].part < |s.parts| && !MoreToRefill(cfg, s.parts[s.msgs[id].part])
  {
    hide ValidRun, Exec, Apply, Enabled, Flat, Body, PoolInv, OrchInv, BudgetInv, CallsInv;
    UploadTheorems.Reached(cfg, run);
    var s := Exec(Initial(cfg), run);
    assert MsgFits(s, id);
    assert PartOk(cfg, s.parts[s.msgs[id].part]);
    OnlyAnErrorIsLeft(s, id, step);
  }
}
