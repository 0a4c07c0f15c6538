/** The guarantees about uploads are not empty: a small upload that succeeds, step by step. */
module UploadExample {
  import opened Bytes
  import opened PoolState
  import opened PartPlan
  import opened UploadState
  import opened UploadInvariants
  import opened UploadLoops
  import UploadTheorems
  import opened UploadProgress

  /** One byte, one part, one thread. */
  const OneByte := Config([7], [Slice(1, 0, 1)], 1, 1, 1, 0, false)

  function ThePart(popped: nat, complete: bool, uploaded: seq<byte>): Part {
    Part(Slice(1, 0, 1), 1, true, complete, 0, 0, [Entry([7], true)], popped, uploaded, [])
  }

  function ThePool(workers: seq<Worker>): Pool {
    Pool([MsgEntry(0, 0, 0, workers != [])], workers, 1, {}, 1, 1)
  }

  const TheWorker := Worker(true, false, true, DONT_CARE, Message(0))

  const Handed := Upload(OneByte, [ThePart(0, false, [])], map[0 := Msg(0, Queued, false, false)], [0],
                         ThePool([]), Wait, [Initiated], 0)

  const Claimed := Handed.(pool := ThePool([TheWorker]), msgs := map[0 := Msg(0, Sending(FreshSender), false, false)])

  const Sent := Claimed.(parts := [ThePart(1, false, [7])], msgs := map[0 := Msg(0, Reported, true, false)])

  const Done := Sent.(parts := [ThePart(1, true, [7])], pending := [], orch := Ended(true),
                      calls := [Initiated, Completed], purges := 1)

  lemma HandOut() returns (run: seq<Step>)
    ensures ValidRun(Initial(OneByte), run) && Exec(Initial(OneByte), run) == Handed
  {
    hide ValidRun, Exec;
    var s := Initial(OneByte);
    Begin(s);
    run := [];
    OneMoreStep(s, run, ScanClaim);
    run := run + [ScanClaim];
    assert Exec(s, run).orch == Fill(0, 0, 0, 0);
    OneMoreStep(s, run, FillRead(1));
    run := run + [FillRead(1)];
    assert Exec(s, run).orch == Fill(0, 0, 1, 1);
    OneMoreStep(s, run, FillDone);
    run := run + [FillDone];
    OneMoreStep(s, run, ScanEnd);
    run := run + [ScanEnd];
    assert Exec(s, run) == Handed by {
      var t := Exec(s, run);
      assert OneByte.file[0..1] == [7];
      assert t.parts[0].pushed == [Entry([7], true)];
      assert t.parts == Handed.parts;
      assert t.pool.queue == Handed.pool.queue;
      assert t.msgs == Handed.msgs;
    }
  }

  lemma TakeIt(s: Upload, first: seq<Step>) returns (run: seq<Step>)
    requires ValidRun(s, first) && Exec(s, first) == Handed
    ensures ValidRun(s, run) && Exec(s, run) == Claimed
  {
    hide ValidRun, Exec, AddThreads, Take, CanTake;
    OneMoreStep(s, first, PoolStep(DoAddThreads));
    run := first + [PoolStep(DoAddThreads)];
    OneThread();
    OneWorkerTakes();
    assert Exec(s, run) == Handed.(pool := ThePool([]).(workers := [FreshWorker]));
    OneMoreStep(s, run, Claim(0));
    run := run + [Claim(0)];
    assert Exec(s, run).msgs == Claimed.msgs;
  }

  lemma OneWorkerTakes()
    ensures var p := ThePool([]).(workers := [FreshWorker]); CanTake(p, 0) && Take(p, 0) == ThePool([TheWorker])
  {
    var p := ThePool([]).(workers := [FreshWorker]);
    assert FirstWaiting(p.queue) == 0 && InGroup(p.workers, 0);
    assert Take(p, 0).workers == [TheWorker] && Take(p, 0).queue == ThePool([TheWorker]).queue;
  }

  lemma CountOne()
    ensures NumActive([]) == 0 && NumActive([FreshWorker]) == 1 && Start([]) == [FreshWorker]
  {
    assert [FreshWorker][..0] == [];
  }

  lemma StartOne()
    ensures StartUpTo([], 1) == [FreshWorker] && NumActive([]) == 0 && NumActive([FreshWorker]) == 1
  {
    hide NumActive, Start;
    CountOne();
    assert StartUpTo([FreshWorker], 1) == [FreshWorker];
    assert StartUpTo([], 1) == StartUpTo(Start([]), 1);
  }

  lemma OneThread()
    ensures AddThreads(ThePool([])) == ThePool([]).(workers := [FreshWorker])
  {
    hide StartUpTo, Start, NumActive, InGroup;
    StartOne();
  }

  const Written := Claimed.(msgs := map[0 := Msg(0, Sending(Sender([7], 1, true, false, 0)), false, false)])

  lemma WriteIt(s: Upload, first: seq<Step>) returns (run: seq<Step>)
    requires ValidRun(s, first) && Exec(s, first) == Claimed
    ensures ValidRun(s, run) && Exec(s, run) == Written
  {
    hide ValidRun, Exec, Take, AddThreads, MoreToFill, AtMessage, MoreToRefill, Unclaimed, CanDo, Do;
    OneMoreStep(s, first, Load(0));
    run := first + [Load(0)];
    OneMoreStep(s, run, Write(0, 1));
    run := run + [Write(0, 1)];
    assert Exec(s, run).msgs[0].phase.sender.wire == [7];
    assert Exec(s, run).msgs == Written.msgs;
  }

  lemma SendIt(s: Upload, first: seq<Step>) returns (run: seq<Step>)
    requires ValidRun(s, first) && Exec(s, first) == Written
    ensures ValidRun(s, run) && Exec(s, run) == Sent
  {
    hide ValidRun, Exec, Take, AddThreads, MoreToFill, AtMessage, MoreToRefill, Unclaimed, CanDo, Do;
    OneMoreStep(s, first, Pop(0));
    run := first + [Pop(0)];
    OneMoreStep(s, run, Return(0, false));
    run := run + [Return(0, false)];
    OneMoreStep(s, run, Report(0));
    run := run + [Report(0)];
    assert Exec(s, run).parts == Sent.parts && Exec(s, run).msgs == Sent.msgs;
  }

  lemma FinishIt(s: Upload, first: seq<Step>) returns (run: seq<Step>)
    requires ValidRun(s, first) && Exec(s, first) == Sent
    ensures ValidRun(s, run) && Exec(s, run) == Done
  {
    hide ValidRun, Exec, Take, AddThreads, MoreToFill, IsSending, CanDo, Do;
    OneMoreStep(s, first, Wake);
    run := first + [Wake];
    OneMoreStep(s, run, PurgeDone);
    run := run + [PurgeDone];
    assert Exec(s, run).pending == [] && Exec(s, run).parts == Done.parts;
    OneMoreStep(s, run, PurgeEnd);
    run := run + [PurgeEnd];
    OneMoreStep(s, run, ScanSkip);
    run := run + [ScanSkip];
    OneMoreStep(s, run, ScanEnd);
    run := run + [ScanEnd];
    OneMoreStep(s, run, CompleteCall(true));
    run := run + [CompleteCall(true)];
    assert Exec(s, run).calls == Done.calls;
  }

  const Drained := Claimed.(parts := [ThePart(1, false, [])],
                            msgs := map[0 := Msg(0, Sending(FreshSender.(round := 1)), false, false)])

  lemma SendAgain(s: Upload, first: seq<Step>) returns (run: seq<Step>)
    requires ValidRun(s, first) && Exec(s, first) == Written
    ensures ValidRun(s, run) && Exec(s, run) == Drained
  {
    hide ValidRun, Exec, Take, AddThreads, MoreToFill, AtMessage, MoreToRefill, Unclaimed, CanDo, Do;
    OneMoreStep(s, first, Pop(0));
    run := first + [Pop(0)];
    OneMoreStep(s, run, Resend(0));
    run := run + [Resend(0)];
    assert Exec(s, run).parts == Drained.parts && Exec(s, run).msgs == Drained.msgs;
  }

  lemma OneThreadIsAll()
    ensures AddThreads(ThePool([TheWorker])) == ThePool([TheWorker])
  {
    assert [TheWorker][..0] == [] && NumActive([TheWorker]) == 1;
  }

  lemma NoMessageWork(step: Step)
    requires OwnWork(step) && !step.PoolStep? && !step.Claim?
    ensures !Enabled(Drained, step)
  {
    hide CanDo, Do, Apply, AddThreads, Take, Finish;
    assert forall id :: IsSending(Drained, id) ==> id == 0;
    assert Drained.parts[0].Stream() == [];
  }

  lemma NoPoolWork(step: Step)
    requires OwnWork(step) && (step.PoolStep? || step.Claim?) && Enabled(Drained, step)
    ensures Apply(Drained, step) == Drained
  {
    OneThreadIsAll();
    hide AddThreads, Take, Finish;
    var p := ThePool([TheWorker]);
    assert forall w: nat :: !CanTake(p, w) && !CanIdle(p, w) && !CanExit(p, w);
  }

  lemma DrainedIsStuck()
    ensures !GoesOn(Drained) && SentAgain(Drained, 0)
  {
    forall step ensures !CanWork(Drained, step) {
      hide Apply, Enabled;
      if OwnWork(step) && Enabled(Drained, step) {
        if step.PoolStep? || step.Claim? { NoPoolWork(step); } else { NoMessageWork(step); }
      }
    }
  }

  /** The upload waits for a request that was sent again, and nothing can go on. */
  ghost predicate Stuck(s: Upload) { s.orch.Wait? && SentAgain(s, 0) && !GoesOn(s) }

  /**
   The exception to "never stuck" happens: a server that asks for authentication after it has read the
   whole body leaves a state in which nothing goes on until the request gives up.
   */
  lemma SentAgainWaits() returns (run: seq<Step>)
    ensures ValidRun(Initial(OneByte), run) && Stuck(Exec(Initial(OneByte), run))
  {
    hide ValidRun, Exec, GoesOn, SentAgain;
    var s := Initial(OneByte);
    run := HandOut();
    run := TakeIt(s, run);
    run := WriteIt(s, run);
    run := SendAgain(s, run);
    DrainedIsStuck();
  }

  /** A run from the initial state to a successful end. */
  lemma SuccessIsPossible()
    ensures ConfigOk(OneByte)
    ensures exists run :: ValidRun(Initial(OneByte), run) && Exec(Initial(OneByte), run).orch == Ended(true)
  {
    assert Tiles(OneByte.plan, |OneByte.file|, 1);
    var s := Initial(OneByte);
    var run := HandOut();
    run := TakeIt(s, run);
    run := WriteIt(s, run);
    run := SendIt(s, run);
    run := FinishIt(s, run);
  }

  lemma Begin(s: Upload)
    ensures ValidRun(s, []) && Exec(s, []) == s
  {
  }
}
