/**
 The count protocol of ECSUtil/cbuffer.cpp under concurrency. Each handle belongs to one thread at a
 time and is handed over to another only at rest, as the entries of a stream queue are; handles of
 different threads may share a block. Each thread runs one operation at a time, but the read of the
 count, the bytewise copy, the interlocked decrement, the interlocked increment and the release of
 the memory are separate steps, and steps of different threads interleave freely.
 */
module SharingState {
  import opened Bytes

  const LOCKED: int := -1

  datatype Ptr = Null | To(b: nat)

  /** A heap allocation; `freed` once it has gone back to the heap. */
  datatype Block = Block(refs: int, data: seq<byte>, freed: bool)

  /**
   Where the operation on a handle stands. `Sole` is the part of Grow behind the test of the count,
   in which the block is changed in place; `copy` is the new allocation that is being filled.
   */
  datatype Pc =
    | Idle(p: Ptr)
    | Sole(b: nat)
    | Copying(b: nat, copy: nat, k: nat)
    | Leaving(b: nat, into: Ptr)
    | Freeing(b: nat, into: Ptr)
    | Joining(h: nat, b: nat)
    | CopyFrom(h: nat, b: nat, copy: nat, k: nat)

  datatype Handle = Handle(thread: nat, pc: Pc)

  datatype Heap = Heap(blocks: seq<Block>, handles: seq<Handle>)

  /** The first n bytes, filled up with zeros. */
  function Fit(v: seq<byte>, n: nat): seq<byte> {
    v[..Min(|v|, n)] + Zeros(n - Min(|v|, n))
  }

  ghost predicate SamePrefix(a: seq<byte>, b: seq<byte>) {
    var n := Min(|a|, |b|); a[..n] == b[..n]
  }

  datatype Step =
    | Read(x: nat)                         // GetAt
    | Allocate(x: nat, n: nat)             // Grow of an empty handle
    | ReadCount(x: nat, n: nat, empty: bool) // the test of the count in Grow
    | CopyByte(x: nat)                     // one byte of memcpy
    | CopyDone(x: nat)
    | Decrement(x: nat)                    // InterlockedDecrement and its test
    | Free(x: nat)                         // HeapFree
    | Write(x: nat, i: nat, v: byte)       // a byte stored in place
    | Resize(x: nat, all: seq<byte>)       // HeapReAlloc, or a new size within the allocation
    | SetLock(x: nat, locked: bool)        // Lock and Unlock
    | Return(x: nat)                       // Grow is over
    | ReadLock(x: nat, h: nat)             // assignment: is the source locked?
    | Increment(x: nat)                    // InterlockedIncrement and the pointer copy
    | HandOver(x: nat, t: nat)             // from now on thread t uses the handle

  /** Only `x` may be in the middle of an operation on its thread. */
  ghost predicate Runs(s: Heap, x: nat) {
    x < |s.handles|
    && forall y :: 0 <= y < |s.handles| && y != x && s.handles[y].thread == s.handles[x].thread ==> s.handles[y].pc.Idle?
  }

  predicate Valid(s: Heap, b: nat) { b < |s.blocks| }

  ghost predicate Enabled(s: Heap, step: Step) {
    Runs(s, step.x) &&
    var pc := s.handles[step.x].pc;
    match step
    case Read(_) => pc.Idle? && pc.p.To? && Valid(s, pc.p.b)
    case Allocate(_, n) => pc == Idle(Null) && n > 0
    case ReadCount(_, _, _) => pc.Idle? && pc.p.To? && Valid(s, pc.p.b)
    case CopyByte(_) =>
      && (pc.Copying? || pc.CopyFrom?) && Valid(s, pc.b) && Valid(s, pc.copy)
      && pc.k < Min(|s.blocks[pc.b].data|, |s.blocks[pc.copy].data|)
    case CopyDone(_) =>
      && (pc.Copying? || pc.CopyFrom?) && Valid(s, pc.b) && Valid(s, pc.copy)
      && pc.k == Min(|s.blocks[pc.b].data|, |s.blocks[pc.copy].data|)
    case Decrement(_) => pc.Leaving? && Valid(s, pc.b)
    case Free(_) => pc.Freeing? && Valid(s, pc.b)
    case Write(_, i, _) => pc.Sole? && Valid(s, pc.b) && i < |s.blocks[pc.b].data|
    case Resize(_, v) => pc.Sole? && Valid(s, pc.b) && SamePrefix(s.blocks[pc.b].data, v)
    case SetLock(_, _) => pc.Sole? && Valid(s, pc.b)
    case Return(_) => pc.Sole?
    case ReadLock(x, h) =>
      && pc == Idle(Null) && h < |s.handles| && h != x && s.handles[h].thread == s.handles[x].thread
      && s.handles[h].pc.Idle? && s.handles[h].pc.p.To? && Valid(s, s.handles[h].pc.p.b)
    case Increment(_) => pc.Joining? && Valid(s, pc.b)
    case HandOver(_, _) => pc.Idle?
  }

  function SetPc(s: Heap, x: nat, pc: Pc): Heap
    requires x < |s.handles|
  {
    s.(handles := s.handles[x := s.handles[x].(pc := pc)])
  }

  function SetBlock(s: Heap, b: nat, v: Block): Heap
    requires Valid(s, b)
  {
    s.(blocks := s.blocks[b := v])
  }

  function AddBlock(s: Heap, n: nat): Heap {
    s.(blocks := s.blocks + [Block(1, Zeros(n), false)])
  }

  function Apply(s: Heap, step: Step): Heap
    requires Enabled(s, step)
  {
    var x := step.x;
    var pc := s.handles[x].pc;
    match step
    case Read(_) => s
    case Allocate(_, n) => SetPc(AddBlock(s, n), x, Sole(|s.blocks|))
    case ReadCount(_, n, empty) =>
      var b := pc.p.b;
      if s.blocks[b].refs > 1 then
        if empty then SetPc(s, x, Leaving(b, Null))
        else SetPc(AddBlock(s, n), x, Copying(b, |s.blocks|, 0))
      else if empty then SetPc(s, x, Freeing(b, Null))
      else SetPc(s, x, Sole(b))
    case CopyByte(_) =>
      var c := s.blocks[pc.copy];
      SetPc(SetBlock(s, pc.copy, c.(data := c.data[pc.k := s.blocks[pc.b].data[pc.k]])), x, pc.(k := pc.k + 1))
    case CopyDone(_) =>
      if pc.Copying? then SetPc(s, x, Leaving(pc.b, To(pc.copy))) else SetPc(s, x, Sole(pc.copy))
    case Decrement(_) =>
      var r := s.blocks[pc.b].refs - 1;
      SetPc(SetBlock(s, pc.b, s.blocks[pc.b].(refs := r)), x,
        if r <= 0 then Freeing(pc.b, pc.into) else After(pc.into))
    case Free(_) => SetPc(SetBlock(s, pc.b, s.blocks[pc.b].(freed := true)), x, After(pc.into))
    case Write(_, i, v) => SetBlock(s, pc.b, s.blocks[pc.b].(data := s.blocks[pc.b].data[i := v]))
    case Resize(_, v) => SetBlock(s, pc.b, s.blocks[pc.b].(data := v))
    case SetLock(_, locked) => SetBlock(s, pc.b, s.blocks[pc.b].(refs := if locked then LOCKED else 1))
    case Return(_) => SetPc(s, x, Idle(To(pc.b)))
    case ReadLock(_, h) =>
      var b := s.handles[h].pc.p.b;
      if s.blocks[b].refs == LOCKED
      then SetPc(AddBlock(s, |s.blocks[b].data|), x, CopyFrom(h, b, |s.blocks|, 0))
      else SetPc(s, x, Joining(h, b))
    case Increment(_) => SetPc(SetBlock(s, pc.b, s.blocks[pc.b].(refs := s.blocks[pc.b].refs + 1)), x, Idle(To(pc.b)))
    case HandOver(_, t) => s.(handles := s.handles[x := s.handles[x].(thread := t)])
  }

  /** Grow continues on the new block, which is the handle's own. */
  function After(into: Ptr): Pc {
    match into
    case Null => Idle(Null)
    case To(b) => Sole(b)
  }

  ghost predicate ValidRun(s: Heap, run: seq<Step>)
    decreases |run|
  {
    run == [] || (Enabled(s, run[0]) && ValidRun(Apply(s, run[0]), run[1..]))
  }

  ghost function Exec(s: Heap, run: seq<Step>): Heap
    requires ValidRun(s, run)
    decreases |run|
  {
    if run == [] then s else Exec(Apply(s, run[0]), run[1..])
  }

  /** No block yet; any number of handles on any threads. */
  ghost predicate Start(s: Heap) {
    s.blocks == [] && forall x :: 0 <= x < |s.handles| ==> s.handles[x].pc == Idle(Null)
  }

  /** The blocks a step reads, writes, counts or releases. */
  ghost function Touched(s: Heap, step: Step): set<nat>
    requires Enabled(s, step)
  {
    var pc := s.handles[step.x].pc;
    match step
    case Allocate(_, _) => {}
    case Read(_) => {pc.p.b}
    case ReadCount(_, _, _) => {pc.p.b}
    case CopyByte(_) => {pc.b, pc.copy}
    case CopyDone(_) => {}
    case Return(_) => {}
    case HandOver(_, _) => {}
    case ReadLock(_, h) => {s.handles[h].pc.p.b}
    case _ => {pc.b}
  }

  /** The block whose bytes are the value of a handle. */
  function Seen(pc: Pc): Ptr {
    match pc
    case Idle(p) => p
    case Sole(b) => To(b)
    case Copying(b, _, _) => To(b)
    case Leaving(_, into) => into
    case Freeing(_, into) => into
    case Joining(_, _) => Null
    case CopyFrom(_, _, _, _) => Null
  }

  function DataAt(s: Heap, p: Ptr): seq<byte> {
    if p.To? && p.b < |s.blocks| then s.blocks[p.b].data else []
  }

  /** The value of a handle. */
  function View(s: Heap, x: nat): seq<byte> {
    if x < |s.handles| then DataAt(s, Seen(s.handles[x].pc)) else []
  }
}
