/**
 The race that the count has to survive does happen: two threads, each with a handle on the same
 block, both see a count of 2, both copy the block, and only the second decrement reaches 0.
 */
module SharingExample {
  import opened Bytes
  import opened SharingState
  import opened SharingTheorems

  lemma {:induction false} RunThenRun(s: Heap, first: seq<Step>, more: seq<Step>)
    requires ValidRun(s, first) && ValidRun(Exec(s, first), more)
    ensures ValidRun(s, first + more) && Exec(s, first + more) == Exec(Exec(s, first), more)
    decreases |first|
  {
    hide Apply, Enabled;
    if first == [] {
      assert first + more == more;
    } else {
      RunThenRun(Apply(s, first[0]), first[1..], more);
      assert (first + more)[1..] == first[1..] + more;
    }
  }

  lemma OneMore(s: Heap, run: seq<Step>, step: Step, t: Heap)
    requires ValidRun(s, run) && Enabled(Exec(s, run), step) && Apply(Exec(s, run), step) == t
    ensures ValidRun(s, run + [step]) && Exec(s, run + [step]) == t
  {
    var u := Exec(s, run);
    hide Apply, Enabled;
    assert [step][1..] == [] && ValidRun(t, []);
    assert ValidRun(u, [step]) && Exec(u, [step]) == t;
    RunThenRun(s, run, [step]);
  }

  /** Handle 0 belongs to thread 0, handle 1 to the given thread. */
  function Two(blocks: seq<Block>, p: Pc, thread: nat, q: Pc): Heap {
    Heap(blocks, [Handle(0, p), Handle(thread, q)])
  }

  function Shared(refs: int): Block { Block(refs, [7], false) }

  const Single := Two([], Idle(Null), 0, Idle(Null))

  /** One block with the value 7, shared by a handle of each of two threads. */
  const BothHold := Two([Shared(2)], Idle(To(0)), 1, Idle(To(0)))

  const Blank := Block(1, [0], false)

  const BothCopy := Two([Shared(2), Blank, Blank], Copying(0, 1, 0), 1, Copying(0, 2, 0))

  const BothLeave := Two([Shared(2), Shared(1), Shared(1)], Leaving(0, To(1)), 1, Leaving(0, To(2)))

  const LastFrees := Two([Shared(0), Shared(1), Shared(1)], Sole(1), 1, Freeing(0, To(2)))

  const Parted := Two([Block(0, [7], true), Shared(1), Shared(1)], Idle(To(1)), 1, Idle(To(2)))

  lemma FirstWrites() returns (run: seq<Step>)
    ensures ValidRun(Single, run) && Exec(Single, run) == Two([Shared(1)], Idle(To(0)), 0, Idle(Null))
  {
    assert ValidRun(Single, []) && Exec(Single, []) == Single;
    hide ValidRun, Exec;
    assert Zeros(1) == [0] && [0 as byte][0 := 7] == [7];
    OneMore(Single, [], Allocate(0, 1), Two([Blank], Sole(0), 0, Idle(Null)));
    run := [] + [Allocate(0, 1)];
    OneMore(Single, run, Write(0, 0, 7), Two([Shared(1)], Sole(0), 0, Idle(Null)));
    run := run + [Write(0, 0, 7)];
    OneMore(Single, run, Return(0), Two([Shared(1)], Idle(To(0)), 0, Idle(Null)));
    run := run + [Return(0)];
  }

  lemma ShareAndHandOver() returns (run: seq<Step>)
    ensures ValidRun(Single, run) && Exec(Single, run) == BothHold
  {
    hide ValidRun, Exec;
    run := FirstWrites();
    OneMore(Single, run, ReadLock(1, 0), Two([Shared(1)], Idle(To(0)), 0, Joining(0, 0)));
    run := run + [ReadLock(1, 0)];
    OneMore(Single, run, Increment(1), Two([Shared(2)], Idle(To(0)), 0, Idle(To(0))));
    run := run + [Increment(1)];
    OneMore(Single, run, HandOver(1, 1), BothHold);
    run := run + [HandOver(1, 1)];
  }

  lemma BothReadTwo(first: seq<Step>) returns (run: seq<Step>)
    requires ValidRun(Single, first) && Exec(Single, first) == BothHold
    ensures first <= run && ValidRun(Single, run) && Exec(Single, run) == BothCopy
  {
    hide ValidRun, Exec;
    assert Zeros(1) == [0];
    OneMore(Single, first, ReadCount(0, 1, false), Two([Shared(2), Blank], Copying(0, 1, 0), 1, Idle(To(0))));
    run := first + [ReadCount(0, 1, false)];
    OneMore(Single, run, ReadCount(1, 1, false), BothCopy);
    run := run + [ReadCount(1, 1, false)];
  }

  lemma BothFillTheirCopy(first: seq<Step>) returns (run: seq<Step>)
    requires ValidRun(Single, first) && Exec(Single, first) == BothCopy
    ensures first <= run && ValidRun(Single, run) && Exec(Single, run) == BothLeave
  {
    hide ValidRun, Exec;
    assert [0 as byte][0 := 7] == [7];
    OneMore(Single, first, CopyByte(1), Two([Shared(2), Blank, Shared(1)], Copying(0, 1, 0), 1, Copying(0, 2, 1)));
    run := first + [CopyByte(1)];
    OneMore(Single, run, CopyByte(0), Two([Shared(2), Shared(1), Shared(1)], Copying(0, 1, 1), 1, Copying(0, 2, 1)));
    run := run + [CopyByte(0)];
    OneMore(Single, run, CopyDone(0), Two([Shared(2), Shared(1), Shared(1)], Leaving(0, To(1)), 1, Copying(0, 2, 1)));
    run := run + [CopyDone(0)];
    OneMore(Single, run, CopyDone(1), BothLeave);
    run := run + [CopyDone(1)];
  }

  lemma BothGiveUp(first: seq<Step>) returns (run: seq<Step>)
    requires ValidRun(Single, first) && Exec(Single, first) == BothLeave
    ensures first <= run && ValidRun(Single, run) && Exec(Single, run) == LastFrees
  {
    hide ValidRun, Exec;
    OneMore(Single, first, Decrement(0), Two([Shared(1), Shared(1), Shared(1)], Sole(1), 1, Leaving(0, To(2))));
    run := first + [Decrement(0)];
    OneMore(Single, run, Decrement(1), LastFrees);
    run := run + [Decrement(1)];
  }

  lemma FreeAndRest(first: seq<Step>) returns (run: seq<Step>)
    requires ValidRun(Single, first) && Exec(Single, first) == LastFrees
    ensures first <= run && ValidRun(Single, run) && Exec(Single, run) == Parted
  {
    hide ValidRun, Exec;
    var freed := [Block(0, [7], true), Shared(1), Shared(1)];
    OneMore(Single, first, Free(1), Two(freed, Sole(1), 1, Sole(2)));
    run := first + [Free(1)];
    OneMore(Single, run, Return(0), Two(freed, Idle(To(1)), 1, Sole(2)));
    run := run + [Return(0)];
    OneMore(Single, run, Return(1), Parted);
    run := run + [Return(1)];
  }

  /** Two handles of different threads are copying the same block, which nobody else uses. */
  ghost predicate BothAreCopying(s: Heap) {
    && |s.handles| == 2 && s.handles[0].thread != s.handles[1].thread
    && s.handles[0].pc.Copying? && s.handles[1].pc.Copying?
    && s.handles[0].pc.b == s.handles[1].pc.b && Users(s, s.handles[0].pc.b) == {0, 1}
  }

  ghost predicate SecondMustFree(s: Heap) {
    |s.handles| == 2 && s.handles[1].pc.Freeing?
  }

  /** The stages of a run from an empty heap: both copy, one is left to release, all is done. */
  ghost predicate IsTheRace(copying: seq<Step>, freeing: seq<Step>, run: seq<Step>) {
    && Start(Single) && copying <= freeing <= run
    && ValidRun(Single, copying) && ValidRun(Single, freeing) && ValidRun(Single, run)
    && BothAreCopying(Exec(Single, copying)) && SecondMustFree(Exec(Single, freeing))
    && View(Exec(Single, run), 0) == View(Exec(Single, run), 1) == [7]
    && Frees(Single, run, 0) == 1 && IsFreed(Exec(Single, run), 0)
  }

  /**
   A run from an empty heap in which two threads copy the same block at the same time, the second
   decrement finds 0, the block is released by exactly one release and both keep the value.
   */
  lemma TheRaceHappens() returns (copying: seq<Step>, freeing: seq<Step>, run: seq<Step>)
    ensures IsTheRace(copying, freeing, run)
  {
    hide ValidRun, Exec, Frees;
    run := ShareAndHandOver();
    copying := BothReadTwo(run);
    run := BothFillTheirCopy(copying);
    freeing := BothGiveUp(run);
    run := FreeAndRest(freeing);
    ReleasedExactlyOnce(Single, run, 0);
  }
}
