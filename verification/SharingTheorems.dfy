/**
 What the count protocol guarantees in every interleaving: no block is used after it was released or
 released twice, none is leaked, and each handle behaves like a value of its own.
 */
module SharingTheorems {
  import opened Bytes
  import opened SharingState

  /** The blocks whose count includes this handle. */
  function Claims(pc: Pc): set<nat> {
    match pc
    case Idle(p) => Target(p)
    case Sole(b) => {b}
    case Copying(b, copy, _) => {b, copy}
    case Leaving(b, into) => {b} + Target(into)
    case Freeing(_, into) => Target(into)
    case Joining(_, _) => {}
    case CopyFrom(_, _, copy, _) => {copy}
  }

  function Target(p: Ptr): set<nat> { if p.To? then {p.b} else {} }

  /** The new block of an operation, which nobody else can know. */
  function Private(pc: Pc): set<nat> {
    match pc
    case Sole(b) => {b}
    case Copying(_, copy, _) => {copy}
    case Leaving(_, into) => Target(into)
    case Freeing(_, into) => Target(into)
    case CopyFrom(_, _, copy, _) => {copy}
    case _ => {}
  }

  ghost function Users(s: Heap, b: nat): set<nat> {
    set x | 0 <= x < |s.handles| && b in Claims(s.handles[x].pc)
  }

  ghost predicate Releases(s: Heap, x: nat, b: nat) {
    x < |s.handles| && s.handles[x].pc.Freeing? && s.handles[x].pc.b == b
  }

  ghost predicate BlockOk(s: Heap, b: nat)
    requires b < |s.blocks|
  {
    var v := s.blocks[b];
    var n := |Users(s, b)|;
    && (v.freed ==> n == 0 && forall x :: !Releases(s, x, b))
    && (!v.freed && n == 0 ==> exists x :: Releases(s, x, b))
    && (n > 0 ==> (forall x :: !Releases(s, x, b)) && (v.refs == n || (v.refs == LOCKED && n == 1)))
    && (forall x, y :: Releases(s, x, b) && Releases(s, y, b) ==> x == y)
  }

  ghost predicate PcOk(s: Heap, x: nat)
    requires x < |s.handles|
  {
    var pc := s.handles[x].pc;
    && (forall b :: b in Claims(pc) ==> b < |s.blocks|)
    && (forall b :: b in Private(pc) ==> Users(s, b) == {x} && (!pc.Sole? ==> s.blocks[b].refs == 1))
    && (pc.Copying? || pc.Leaving? ==> s.blocks[pc.b].refs != LOCKED && pc.b !in Private(pc))
    && (pc.Freeing? ==> pc.b < |s.blocks|)
    && (pc.Copying? || pc.CopyFrom? ==> pc.b < |s.blocks| && Filled(s.blocks[pc.b].data, s.blocks[pc.copy].data, pc.k))
    && (pc.Joining? || pc.CopyFrom? ==>
        && pc.h < |s.handles| && pc.h != x && s.handles[pc.h] == Handle(s.handles[x].thread, Idle(To(pc.b)))
        && pc.b < |s.blocks| && (s.blocks[pc.b].refs == LOCKED <==> pc.CopyFrom?))
    && (pc.CopyFrom? ==> |s.blocks[pc.copy].data| == |s.blocks[pc.b].data|)
  }

  /** The first k bytes have arrived, the rest is still zero. */
  ghost predicate Filled(from: seq<byte>, to: seq<byte>, k: nat) {
    k <= Min(|from|, |to|) && to == from[..k] + Zeros(|to| - k)
  }

  ghost predicate OneOperation(s: Heap) {
    forall x, y :: 0 <= x < y < |s.handles| && s.handles[x].thread == s.handles[y].thread
      ==> s.handles[x].pc.Idle? || s.handles[y].pc.Idle?
  }

  ghost predicate Inv(s: Heap) {
    && (forall b :: 0 <= b < |s.blocks| ==> BlockOk(s, b))
    && (forall x :: 0 <= x < |s.handles| ==> PcOk(s, x))
    && OneOperation(s)
  }

  // ---------------------------------------------------------------- frame lemmas

  /** Only handle `x` has moved, and blocks have at most been added. */
  ghost predicate Moved(s: Heap, s': Heap, x: nat) {
    && x < |s.handles| == |s'.handles| && |s.blocks| <= |s'.blocks|
    && s'.handles == s.handles[x := s.handles[x].(pc := s'.handles[x].pc)]
  }

  /** Somebody who can vouch for block b: the moving handle itself, or a handle at rest. */
  ghost predicate Vouched(s: Heap, x: nat, b: nat) {
    exists z :: 0 <= z < |s.handles| && (z == x || s.handles[z].pc.Idle?) && b in Claims(s.handles[z].pc)
  }

  ghost predicate Calm(s: Heap, s': Heap, x: nat, b: nat)
    requires b < |s.blocks| <= |s'.blocks|
  {
    && s'.blocks[b].data == s.blocks[b].data
    && (s'.blocks[b].refs == s.blocks[b].refs ||
        (s'.blocks[b].refs >= 1 && s.blocks[b].refs >= 1 && Vouched(s, x, b)))
  }

  ghost predicate ClaimedByOther(s: Heap, x: nat, b: nat) {
    exists y :: 0 <= y < |s.handles| && y != x && b in Claims(s.handles[y].pc)
  }

  lemma UsersShift(s: Heap, s': Heap, x: nat, b: nat)
    requires Moved(s, s', x)
    ensures Users(s', b) - {x} == Users(s, b) - {x}
    ensures |Users(s', b)| - (if b in Claims(s'.handles[x].pc) then 1 else 0)
         == |Users(s, b)| - (if b in Claims(s.handles[x].pc) then 1 else 0)
  {
    hide Claims;
    var now, before := Users(s', b), Users(s, b);
    assert now - {x} == before - {x};
    assert |now - {x}| == |now| - (if x in now then 1 else 0);
    assert |before - {x}| == |before| - (if x in before then 1 else 0);
  }

  lemma PrivateKept(s: Heap, s': Heap, x: nat, y: nat, b: nat)
    requires Moved(s, s', x) && b < |s.blocks| && y < |s.handles| && y != x && !s.handles[y].pc.Idle?
    requires Users(s, b) == {y} && Calm(s, s', x, b)
    requires b in Claims(s'.handles[x].pc) ==> Vouched(s, x, b)
    ensures Users(s', b) == {y} && s'.blocks[b].refs == s.blocks[b].refs
  {
    hide Claims;
    forall z | 0 <= z < |s.handles| && b in Claims(s.handles[z].pc) ensures z == y {
      assert z in Users(s, b);
    }
    UsersShift(s, s', x, b);
    assert x !in Users(s', b) && x !in Users(s, b);
    assert Users(s', b) == Users(s', b) - {x};
  }

  lemma OtherPcOk(s: Heap, s': Heap, x: nat, y: nat)
    requires Inv(s) && Runs(s, x) && Moved(s, s', x) && y < |s.handles| && y != x
    requires forall b :: 0 <= b < |s.blocks| && ClaimedByOther(s, x, b) ==> Calm(s, s', x, b)
    requires forall b :: b in Claims(s'.handles[x].pc) && b < |s.blocks| ==> Vouched(s, x, b)
    ensures PcOk(s', y)
  {
    var pc := s.handles[y].pc;
    assert PcOk(s, y) && s'.handles[y] == s.handles[y];
    hide BlockOk, OneOperation, Inv;
    forall b | b in Claims(pc) ensures b < |s.blocks| && Calm(s, s', x, b) {
      assert ClaimedByOther(s, x, b);
    }
    forall b | b in Private(pc) ensures Users(s', b) == {y} && s'.blocks[b].refs == s.blocks[b].refs {
      assert b in Claims(pc);
      PrivateKept(s, s', x, y, b);
    }
    if pc.Joining? || pc.CopyFrom? {
      assert pc.b in Claims(s.handles[pc.h].pc) && pc.h != x;
      assert ClaimedByOther(s, x, pc.b);
      assert Calm(s, s', x, pc.b) && s'.handles[pc.h] == s.handles[pc.h];
    }
    assert forall b :: b in Claims(pc) ==> b < |s'.blocks|;
    assert pc.Copying? || pc.Leaving? ==> s'.blocks[pc.b].refs != LOCKED && pc.b !in Private(pc);
    assert pc.Copying? || pc.CopyFrom? ==> pc.b < |s'.blocks| && Filled(s'.blocks[pc.b].data, s'.blocks[pc.copy].data, pc.k);
    assert pc.Joining? || pc.CopyFrom? ==> (s'.blocks[pc.b].refs == LOCKED <==> pc.CopyFrom?);
    assert forall b :: b in Private(pc) ==> Users(s', b) == {y} && (!pc.Sole? ==> s'.blocks[b].refs == 1);
  }

  lemma Keeps(s: Heap, s': Heap, x: nat)
    requires Inv(s) && Runs(s, x) && Moved(s, s', x)
    requires forall b :: 0 <= b < |s.blocks| && ClaimedByOther(s, x, b) ==> Calm(s, s', x, b)
    requires forall b :: b in Claims(s'.handles[x].pc) && b < |s.blocks| ==> Vouched(s, x, b)
    requires forall b :: 0 <= b < |s'.blocks| ==> BlockOk(s', b)
    requires PcOk(s', x)
    ensures Inv(s')
  {
    forall y | 0 <= y < |s'.handles| ensures PcOk(s', y) {
      if y != x {
        OtherPcOk(s, s', x, y);
      }
    }
  }

  /** A block is fine if neither it nor the moving handle's relation to it has changed. */
  lemma SameBlockOk(s: Heap, s': Heap, x: nat, b: nat)
    requires Moved(s, s', x) && b < |s.blocks| && BlockOk(s, b)
    requires s'.blocks[b].refs == s.blocks[b].refs && s'.blocks[b].freed == s.blocks[b].freed
    requires b in Claims(s.handles[x].pc) <==> b in Claims(s'.handles[x].pc)
    requires Releases(s, x, b) <==> Releases(s', x, b)
    ensures BlockOk(s', b)
  {
    UsersShift(s, s', x, b);
    forall y: nat ensures Releases(s', y, b) <==> Releases(s, y, b) {}
  }

  /** A block in use whose count follows its users. */
  lemma UsedBlockOk(s: Heap, s': Heap, x: nat, b: nat)
    requires Moved(s, s', x) && b < |s.blocks| && BlockOk(s, b) && Users(s, b) != {}
    requires s'.blocks[b].freed == s.blocks[b].freed && !Releases(s', x, b) && Users(s', b) != {}
    requires s'.blocks[b].refs == |Users(s', b)| || (s'.blocks[b].refs == LOCKED && |Users(s', b)| == 1)
    ensures BlockOk(s', b)
  {
    hide Claims, Users;
    assert |Users(s, b)| > 0;
    forall y: nat ensures !Releases(s', y, b) {
      assert y != x && Releases(s', y, b) ==> Releases(s, y, b);
    }
  }

  /** A block whose last user is about to release it. */
  lemma DyingBlockOk(s: Heap, s': Heap, x: nat, b: nat)
    requires Moved(s, s', x) && b < |s.blocks| && BlockOk(s, b) && Users(s, b) != {}
    requires s'.blocks[b].freed == s.blocks[b].freed && Releases(s', x, b) && Users(s', b) == {}
    ensures BlockOk(s', b)
  {
    hide Claims, Users;
    assert |Users(s, b)| > 0;
    forall y: nat ensures Releases(s', y, b) <==> y == x {
      assert y != x && Releases(s', y, b) ==> Releases(s, y, b);
    }
  }

  /** A new block that only the moving handle knows. */
  lemma FreshBlockOk(s: Heap, s': Heap, x: nat)
    requires Inv(s) && Moved(s, s', x) && |s'.blocks| == |s.blocks| + 1
    requires s'.blocks[|s.blocks|].refs == 1 && !s'.blocks[|s.blocks|].freed
    requires |s.blocks| in Claims(s'.handles[x].pc) && !s'.handles[x].pc.Freeing?
    ensures BlockOk(s', |s.blocks|) && Users(s', |s.blocks|) == {x}
  {
    var b := |s.blocks|;
    forall y | y in Users(s', b) ensures y == x {
      assert PcOk(s, y);
    }
    forall y: nat ensures !Releases(s', y, b) {
      if y < |s.handles| && y != x {
        assert PcOk(s, y);
      }
    }
    assert Users(s', b) == {x};
  }

  /** Who reads a count of at most 1, or the mark of a locked block, is alone. */
  lemma Alone(s: Heap, x: nat, b: nat)
    requires b < |s.blocks| && BlockOk(s, b) && x in Users(s, b) && s.blocks[b].refs <= 1
    ensures Users(s, b) == {x}
  {
    assert |Users(s, b)| > 0;
    assert |Users(s, b) - {x}| == 0;
  }

  lemma AllocateKeeps(s: Heap, step: Step)
    requires Inv(s) && step.Allocate? && Enabled(s, step)
    ensures Inv(Apply(s, step))
  {
    var s', x := Apply(s, step), step.x;
    FreshBlockOk(s, s', x);
    forall b | 0 <= b < |s.blocks| ensures BlockOk(s', b) {
      SameBlockOk(s, s', x, b);
    }
    Keeps(s, s', x);
  }

  lemma ReadSharedKeeps(s: Heap, step: Step)
    requires Inv(s) && step.ReadCount? && Enabled(s, step) && s.blocks[s.handles[step.x].pc.p.b].refs > 1
    ensures Inv(Apply(s, step))
  {
    var s', x, b0 := Apply(s, step), step.x, s.handles[step.x].pc.p.b;
    assert PcOk(s, x) && b0 in Claims(s.handles[x].pc);
    if !step.empty {
      FreshBlockOk(s, s', x);
    }
    forall b | 0 <= b < |s.blocks| ensures BlockOk(s', b) {
      SameBlockOk(s, s', x, b);
    }
    Keeps(s, s', x);
  }

  lemma ReadSoleKeeps(s: Heap, step: Step)
    requires Inv(s) && step.ReadCount? && Enabled(s, step) && s.blocks[s.handles[step.x].pc.p.b].refs <= 1
    ensures Inv(Apply(s, step))
  {
    var s', x, b0 := Apply(s, step), step.x, s.handles[step.x].pc.p.b;
    assert b0 in Claims(s.handles[x].pc) && x in Users(s, b0);
    Alone(s, x, b0);
    UsersShift(s, s', x, b0);
    forall b | 0 <= b < |s.blocks| ensures BlockOk(s', b) {
      if b != b0 || !step.empty {
        SameBlockOk(s, s', x, b);
      } else {
        DyingBlockOk(s, s', x, b);
      }
    }
    assert !step.empty ==> Users(s', b0) == {x};
    Keeps(s, s', x);
  }

  lemma CopyByteKeeps(s: Heap, step: Step)
    requires Inv(s) && step.CopyByte? && Enabled(s, step)
    ensures Inv(Apply(s, step))
  {
    var s', x, pc := Apply(s, step), step.x, s.handles[step.x].pc;
    assert PcOk(s, x) && pc.copy in Private(pc);
    forall y | 0 <= y < |s.handles| && pc.copy in Claims(s.handles[y].pc) ensures y == x {
      assert y in Users(s, pc.copy);
    }
    forall b | 0 <= b < |s.blocks| ensures BlockOk(s', b) {
      SameBlockOk(s, s', x, b);
    }
    UsersShift(s, s', x, pc.copy);
    assert Users(s', pc.copy) == {x};
    Keeps(s, s', x);
  }

  lemma CopyDoneKeeps(s: Heap, step: Step)
    requires Inv(s) && step.CopyDone? && Enabled(s, step)
    ensures Inv(Apply(s, step))
  {
    var s', x, pc := Apply(s, step), step.x, s.handles[step.x].pc;
    assert PcOk(s, x) && pc.copy in Private(pc);
    forall b | 0 <= b < |s.blocks| ensures BlockOk(s', b) {
      SameBlockOk(s, s', x, b);
    }
    UsersShift(s, s', x, pc.copy);
    assert Users(s', pc.copy) == {x};
    Keeps(s, s', x);
  }

  lemma DecrementBlocks(s: Heap, step: Step, b: nat)
    requires Inv(s) && step.Decrement? && Enabled(s, step) && b < |s.blocks|
    ensures BlockOk(Apply(s, step), b)
    ensures b == s.handles[step.x].pc.b && ClaimedByOther(s, step.x, b) ==>
      s.blocks[b].refs >= 1 && Apply(s, step).blocks[b].refs >= 1
  {
    var s', x, pc := Apply(s, step), step.x, s.handles[step.x].pc;
    assert PcOk(s, x) && BlockOk(s, pc.b) && x in Users(s, pc.b);
    assert pc.b !in Claims(s'.handles[x].pc);
    if b != pc.b {
      SameBlockOk(s, s', x, b);
    } else {
      UsersShift(s, s', x, b);
      assert |Users(s, b)| > 0 && s'.blocks[b].refs == |Users(s', b)|;
      assert Users(s, b) != {};
      if ClaimedByOther(s, x, b) {
        var y :| 0 <= y < |s.handles| && y != x && b in Claims(s.handles[y].pc);
        assert y in Users(s', b);
        assert |Users(s', b)| > 0;
      }
      if s'.blocks[b].refs > 0 {
        assert Users(s', b) != {};
        UsedBlockOk(s, s', x, b);
      } else {
        assert Users(s', b) == {};
        DyingBlockOk(s, s', x, b);
      }
    }
  }

  lemma DecrementKeeps(s: Heap, step: Step)
    requires Inv(s) && step.Decrement? && Enabled(s, step)
    ensures Inv(Apply(s, step))
  {
    var s', x, pc := Apply(s, step), step.x, s.handles[step.x].pc;
    assert PcOk(s, x);
    forall b | 0 <= b < |s.blocks| ensures BlockOk(s', b) {
      DecrementBlocks(s, step, b);
    }
    forall b | 0 <= b < |s.blocks| && ClaimedByOther(s, x, b) ensures Calm(s, s', x, b) {
      DecrementBlocks(s, step, b);
    }
    hide BlockOk;
    assert PcOk(s', x) by {
      forall b | b in Private(pc) ensures Users(s', b) == {x} {
        UsersShift(s, s', x, b);
        assert b in Claims(s'.handles[x].pc) && x in Users(s', b);
      }
    }
    Keeps(s, s', x);
  }

  lemma FreeKeeps(s: Heap, step: Step)
    requires Inv(s) && step.Free? && Enabled(s, step)
    ensures Inv(Apply(s, step))
  {
    var s', x, pc := Apply(s, step), step.x, s.handles[step.x].pc;
    assert PcOk(s, x) && Releases(s, x, pc.b) && BlockOk(s, pc.b);
    UsersShift(s, s', x, pc.b);
    assert |Users(s, pc.b)| == 0;
    assert x !in Users(s, pc.b);
    forall b | 0 <= b < |s.blocks| ensures BlockOk(s', b) {
      if b != pc.b {
        SameBlockOk(s, s', x, b);
      } else {
        forall y: nat ensures !Releases(s', y, b) {
          assert y != x && Releases(s', y, b) ==> Releases(s, y, b);
        }
      }
    }
    forall b | b in Private(pc) ensures Users(s', b) == {x} {
      UsersShift(s, s', x, b);
    }
    forall y | 0 <= y < |s.handles| ensures pc.b !in Claims(s.handles[y].pc) {
      assert y !in Users(s, pc.b);
    }
    Keeps(s, s', x);
  }

  /** The steps that change a block in place. */
  lemma InPlaceKeeps(s: Heap, step: Step)
    requires Inv(s) && (step.Write? || step.Resize? || step.SetLock?) && Enabled(s, step)
    ensures Inv(Apply(s, step))
  {
    var s', x, pc := Apply(s, step), step.x, s.handles[step.x].pc;
    assert PcOk(s, x) && pc.b in Private(pc);
    UsersShift(s, s', x, pc.b);
    assert Users(s', pc.b) == {x};
    forall y | 0 <= y < |s.handles| && pc.b in Claims(s.handles[y].pc) ensures y == x {
      assert y in Users(s, pc.b);
    }
    forall b | 0 <= b < |s.blocks| ensures BlockOk(s', b) {
      if b != pc.b {
        SameBlockOk(s, s', x, b);
      } else {
        UsedBlockOk(s, s', x, b);
      }
    }
    Keeps(s, s', x);
  }

  lemma ReturnKeeps(s: Heap, step: Step)
    requires Inv(s) && step.Return? && Enabled(s, step)
    ensures Inv(Apply(s, step))
  {
    var s', x := Apply(s, step), step.x;
    assert PcOk(s, x);
    forall b | 0 <= b < |s.blocks| ensures BlockOk(s', b) {
      SameBlockOk(s, s', x, b);
    }
    Keeps(s, s', x);
  }

  lemma ReadLockKeeps(s: Heap, step: Step)
    requires Inv(s) && step.ReadLock? && Enabled(s, step)
    ensures Inv(Apply(s, step))
  {
    var s', x, b0 := Apply(s, step), step.x, s.handles[step.h].pc.p.b;
    assert PcOk(s, step.h) && PcOk(s, x) && b0 in Claims(s.handles[step.h].pc);
    if s.blocks[b0].refs == LOCKED {
      FreshBlockOk(s, s', x);
    }
    forall b | 0 <= b < |s.blocks| ensures BlockOk(s', b) {
      SameBlockOk(s, s', x, b);
    }
    Keeps(s, s', x);
  }

  lemma IncrementKeeps(s: Heap, step: Step)
    requires Inv(s) && step.Increment? && Enabled(s, step)
    ensures Inv(Apply(s, step))
  {
    var s', x, pc := Apply(s, step), step.x, s.handles[step.x].pc;
    assert PcOk(s, x) && pc.b in Claims(s.handles[pc.h].pc) && pc.h in Users(s, pc.b);
    assert Vouched(s, x, pc.b);
    UsersShift(s, s', x, pc.b);
    assert |Users(s, pc.b)| > 0 && x in Users(s', pc.b);
    assert BlockOk(s, pc.b) && s.blocks[pc.b].refs >= 1;
    forall b | 0 <= b < |s.blocks| && ClaimedByOther(s, x, b) ensures Calm(s, s', x, b) {}
    forall b | 0 <= b < |s.blocks| ensures BlockOk(s', b) {
      if b != pc.b {
        SameBlockOk(s, s', x, b);
      } else {
        UsedBlockOk(s, s', x, b);
      }
    }
    Keeps(s, s', x);
  }

  /** A handle at rest changes its thread; no operation reads through it at that moment. */
  lemma HandOverKeeps(s: Heap, step: Step)
    requires Inv(s) && step.HandOver? && Enabled(s, step)
    ensures Inv(Apply(s, step))
  {
    var s', x := Apply(s, step), step.x;
    forall b | 0 <= b < |s.blocks| ensures Users(s', b) == Users(s, b) {}
    forall b | 0 <= b < |s.blocks| ensures BlockOk(s', b) {
      assert BlockOk(s, b);
      forall y: nat ensures Releases(s', y, b) <==> Releases(s, y, b) {}
    }
    hide BlockOk;
    forall y | 0 <= y < |s'.handles| ensures PcOk(s', y) {
      var pc := s.handles[y].pc;
      assert PcOk(s, y);
      if pc.Joining? || pc.CopyFrom? {
        assert y != x && pc.h != x && s'.handles[pc.h] == s.handles[pc.h];
      }
    }
  }

  lemma StepKeeps(s: Heap, step: Step)
    requires Inv(s) && Enabled(s, step)
    ensures Inv(Apply(s, step))
  {
    match step
    case Read(_) =>
    case Allocate(_, _) => AllocateKeeps(s, step);
    case ReadCount(_, _, _) =>
      if s.blocks[s.handles[step.x].pc.p.b].refs > 1 { ReadSharedKeeps(s, step); } else { ReadSoleKeeps(s, step); }
    case CopyByte(_) => CopyByteKeeps(s, step);
    case CopyDone(_) => CopyDoneKeeps(s, step);
    case Decrement(_) => DecrementKeeps(s, step);
    case Free(_) => FreeKeeps(s, step);
    case Write(_, _, _) => InPlaceKeeps(s, step);
    case Resize(_, _) => InPlaceKeeps(s, step);
    case SetLock(_, _) => InPlaceKeeps(s, step);
    case Return(_) => ReturnKeeps(s, step);
    case ReadLock(_, _) => ReadLockKeeps(s, step);
    case Increment(_) => IncrementKeeps(s, step);
    case HandOver(_, _) => HandOverKeeps(s, step);
  }

  lemma {:induction false} RunKeeps(s: Heap, run: seq<Step>)
    requires Inv(s) && ValidRun(s, run)
    ensures Inv(Exec(s, run))
    decreases |run|
  {
    hide Inv, Apply, Enabled;
    if run != [] {
      StepKeeps(s, run[0]);
      RunKeeps(Apply(s, run[0]), run[1..]);
    }
  }

  lemma Reached(s: Heap, run: seq<Step>)
    requires Start(s) && ValidRun(s, run)
    ensures Inv(Exec(s, run))
  {
    assert Inv(s);
    RunKeeps(s, run);
  }

  // ---------------------------------------------------------------- results

  lemma TouchesLive(s: Heap, step: Step, b: nat)
    requires Inv(s) && Enabled(s, step) && b in Touched(s, step)
    ensures b < |s.blocks| && !s.blocks[b].freed
  {
    var x, pc := step.x, s.handles[step.x].pc;
    assert PcOk(s, x);
    if step.ReadLock? {
      assert step.h in Users(s, b);
    } else if pc.Joining? || (pc.CopyFrom? && b == pc.b) {
      assert pc.h in Users(s, b);
    } else if pc.Freeing? {
      assert Releases(s, x, b);
    } else {
      assert x in Users(s, b);
    }
    assert BlockOk(s, b);
  }

  /**
   In every interleaving a step only reads, writes, counts or releases memory that has not been
   released: no use after release and, since releasing is such a step, no second release.
   */
  lemma NoUseAfterFree(s: Heap, run: seq<Step>, step: Step, b: nat)
    requires Start(s) && ValidRun(s, run) && Enabled(Exec(s, run), step) && b in Touched(Exec(s, run), step)
    ensures b < |Exec(s, run).blocks| && !Exec(s, run).blocks[b].freed
  {
    Reached(s, run);
    TouchesLive(Exec(s, run), step, b);
  }

  ghost predicate FreesBlock(s: Heap, step: Step, b: nat)
    requires Enabled(s, step)
  {
    step.Free? && s.handles[step.x].pc.b == b
  }

  ghost function Frees(s: Heap, run: seq<Step>, b: nat): nat
    requires ValidRun(s, run)
    decreases |run|
  {
    if run == [] then 0
    else (if FreesBlock(s, run[0], b) then 1 else 0) + Frees(Apply(s, run[0]), run[1..], b)
  }

  ghost predicate IsFreed(s: Heap, b: nat) { b < |s.blocks| && s.blocks[b].freed }

  lemma {:induction false} CountFrees(s: Heap, run: seq<Step>, b: nat)
    requires Inv(s) && ValidRun(s, run)
    ensures Frees(s, run, b) + (if IsFreed(s, b) then 1 else 0) == if IsFreed(Exec(s, run), b) then 1 else 0
    decreases |run|
  {
    if run != [] {
      var step := run[0];
      if FreesBlock(s, step, b) {
        TouchesLive(s, step, b);
      }
      StepFrees(s, step, b);
      StepKeeps(s, step);
      hide Inv, Apply, Enabled;
      CountFrees(Apply(s, step), run[1..], b);
    }
  }

  lemma StepFrees(s: Heap, step: Step, b: nat)
    requires Enabled(s, step)
    ensures IsFreed(Apply(s, step), b) <==> IsFreed(s, b) || FreesBlock(s, step, b)
  {
  }

  /**
   When no operation is under way, exactly the blocks that no handle points to have been released,
   each by exactly one release of the run, and the count of every other block is the number of its
   handles, or the mark of a locked block with exactly one.
   */
  lemma ReleasedExactlyOnce(s: Heap, run: seq<Step>, b: nat)
    requires Start(s) && ValidRun(s, run) && b < |Exec(s, run).blocks|
    requires forall x :: 0 <= x < |Exec(s, run).handles| ==> Exec(s, run).handles[x].pc.Idle?
    ensures var t := Exec(s, run);
      var owners := set x | 0 <= x < |t.handles| && t.handles[x].pc == Idle(To(b));
      && (t.blocks[b].freed <==> owners == {})
      && Frees(s, run, b) == (if owners == {} then 1 else 0)
      && (owners != {} ==> t.blocks[b].refs == |owners| || (t.blocks[b].refs == LOCKED && |owners| == 1))
  {
    Reached(s, run);
    assert Inv(s);
    CountFrees(s, run, b);
    var t := Exec(s, run);
    var owners := set x | 0 <= x < |t.handles| && t.handles[x].pc == Idle(To(b));
    assert owners == Users(t, b);
    assert BlockOk(t, b);
    assert forall x: nat :: !Releases(t, x, b);
  }

  /** Of all that leave a block, whatever their threads, exactly the last one has to release it. */
  lemma LastLeaverFrees(s: Heap, run: seq<Step>, step: Step)
    requires Start(s) && ValidRun(s, run) && Enabled(Exec(s, run), step) && step.Decrement?
    ensures var t := Exec(s, run);
      (Apply(t, step).handles[step.x].pc.Freeing? <==>
       forall y :: 0 <= y < |t.handles| && y != step.x ==> t.handles[step.x].pc.b !in Claims(t.handles[y].pc))
  {
    Reached(s, run);
    var t, x := Exec(s, run), step.x;
    var b := t.handles[x].pc.b;
    assert PcOk(t, x) && x in Users(t, b) && BlockOk(t, b);
    hide Inv, PcOk, BlockOk, Runs, ValidRun, Exec;
    assert |Users(t, b)| == |Users(t, b) - {x}| + 1;
    if y :| 0 <= y < |t.handles| && y != x && b in Claims(t.handles[y].pc) {
      assert y in Users(t, b) - {x};
    } else {
      assert Users(t, b) - {x} == {};
    }
  }

  lemma ViewsOf(s: Heap, step: Step, y: nat)
    requires Inv(s) && Enabled(s, step) && y < |s.handles| && y != step.x
    ensures View(Apply(s, step), y) == View(s, y)
  {
    var x := step.x;
    assert PcOk(s, x) && PcOk(s, y);
    assert Seen(s.handles[y].pc).To? ==> Seen(s.handles[y].pc).b in Claims(s.handles[y].pc);
    if step.CopyByte? {
      assert s.handles[x].pc.copy in Private(s.handles[x].pc);
      assert y !in Users(s, s.handles[x].pc.copy);
    } else if step.Write? || step.Resize? {
      assert s.handles[x].pc.b in Private(s.handles[x].pc);
      assert y !in Users(s, s.handles[x].pc.b);
    }
  }

  /** A block is changed in place only while no other handle refers to it. */
  lemma InPlaceOnlyAlone(s: Heap, run: seq<Step>, step: Step, y: nat)
    requires Start(s) && ValidRun(s, run) && Enabled(Exec(s, run), step)
    requires step.Write? || step.Resize? || step.SetLock?
    requires y < |Exec(s, run).handles| && y != step.x
    ensures var t := Exec(s, run); t.handles[step.x].pc.b !in Claims(t.handles[y].pc)
  {
    Reached(s, run);
    var t := Exec(s, run);
    var b := t.handles[step.x].pc.b;
    assert PcOk(t, step.x) && b in Private(t.handles[step.x].pc);
    assert y !in Users(t, b);
  }

  lemma {:induction false} RunLeavesView(s: Heap, run: seq<Step>, y: nat)
    requires Inv(s) && ValidRun(s, run) && y < |s.handles|
    requires forall i :: 0 <= i < |run| ==> run[i].x != y
    ensures |Exec(s, run).handles| == |s.handles| && View(Exec(s, run), y) == View(s, y)
    decreases |run|
  {
    if run != [] {
      ViewsOf(s, run[0], y);
      StepKeeps(s, run[0]);
      RunLeavesView(Apply(s, run[0]), run[1..], y);
    }
  }

  /** Whatever other threads and handles do, a handle keeps its value while it does not move itself. */
  lemma ValuesAreIndependent(s: Heap, first: seq<Step>, more: seq<Step>, y: nat)
    requires Start(s) && ValidRun(s, first) && ValidRun(Exec(s, first), more) && y < |Exec(s, first).handles|
    requires forall i :: 0 <= i < |more| ==> more[i].x != y
    ensures |Exec(Exec(s, first), more).handles| == |Exec(s, first).handles|
    ensures View(Exec(Exec(s, first), more), y) == View(Exec(s, first), y)
  {
    Reached(s, first);
    RunLeavesView(Exec(s, first), more, y);
  }

  /** What a handle's own steps do to its value. */
  ghost predicate Meaning(s: Heap, step: Step)
    requires Enabled(s, step)
  {
    var s', x, pc := Apply(s, step), step.x, s.handles[step.x].pc;
    match step
    case Write(_, i, v) => i < |View(s, x)| && View(s', x) == View(s, x)[i := v]
    case Resize(_, all) => View(s', x) == all
    case ReadCount(_, _, empty) => View(s', x) == if empty then [] else View(s, x)
    case CopyDone(_) =>
      if pc.Copying? then View(s', x) == Fit(View(s, x), |s.blocks[pc.copy].data|)
      else View(s', x) == View(s, pc.h)
    case Increment(_) => View(s', x) == View(s, pc.h)
    case Allocate(_, n) => View(s', x) == Zeros(n)
    case _ => View(s', x) == View(s, x)
  }

  lemma CopyMeans(s: Heap, step: Step)
    requires Inv(s) && Enabled(s, step) && (step.CopyByte? || step.CopyDone?)
    ensures Meaning(s, step)
  {
    var x, pc := step.x, s.handles[step.x].pc;
    assert PcOk(s, x) && pc.copy in Private(pc) && pc.b != pc.copy;
    assert pc.CopyFrom? ==> View(s, pc.h) == s.blocks[pc.b].data;
    hide BlockOk, OneOperation, Inv, Runs, Users, PcOk;
  }

  lemma StepMeans(s: Heap, step: Step)
    requires Inv(s) && Enabled(s, step)
    ensures Meaning(s, step)
  {
    if step.CopyByte? || step.CopyDone? {
      CopyMeans(s, step);
    } else {
      assert PcOk(s, step.x);
      hide BlockOk, OneOperation, Inv, Runs, Users, Filled;
    }
  }

  /**
   A copy, although made byte by byte between the steps of other threads, ends with the whole old
   value at the new size; sharing, and copying from a locked block, end with the source's value;
   and counting, releasing and locking do not change it.
   */
  lemma StepMeaning(s: Heap, run: seq<Step>, step: Step)
    requires Start(s) && ValidRun(s, run) && Enabled(Exec(s, run), step)
    ensures Meaning(Exec(s, run), step)
  {
    Reached(s, run);
    StepMeans(Exec(s, run), step);
  }
}
