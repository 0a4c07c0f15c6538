/**
 The reference-counted copy-on-write buffer of ECSUtil/cbuffer.cpp. Several CBuffer handles may
 point to one block; the count in the block says how many, or -1 for a locked block, which is
 never shared. The world is the set of all live handles: every operation on one handle keeps the
 count protocol and leaves the contents of every other handle alone.
 */
module Buffer {
  import opened Bytes

  const SLACK: nat := 100
  const HEADER: nat := 16
  const DWORD_RANGE: nat := 0x1_0000_0000
  const LOCKED: int := -1

  /** Sizes for which header and slack do not wrap around in 32 bits. */
  predicate Fits(n: nat) { n + HEADER + SLACK < DWORD_RANGE }

  /** CBufferData and the bytes behind it; the allocated size is the length of `mem`. */
  class Block {
    var mem: seq<byte>
    var size: nat
    var refs: int

    constructor (n: nat)
      ensures mem == Zeros(n) && size == n && refs == 1
    {
      mem, size, refs := Zeros(n), n, 1;
    }
  }

  /** HeapReAlloc: keep the common prefix, zero what is new. */
  function Resized(mem: seq<byte>, n: nat): seq<byte> {
    if |mem| <= n then mem + Zeros(n - |mem|) else mem[..n]
  }

  // ---------------------------------------------------------------- comparison

  /** A difference of two 32-bit sizes read as a signed number. */
  function Signed32(x: int): int {
    var r := x % DWORD_RANGE;
    if r < 0x8000_0000 then r else r - DWORD_RANGE
  }

  /** The sign of the first difference. */
  function Memcmp(a: seq<byte>, b: seq<byte>): int
    requires |a| == |b|
  {
    if a == [] then 0
    else if a[0] != b[0] then (if a[0] < b[0] then -1 else 1)
    else Memcmp(a[1..], b[1..])
  }

  /** What Compare answers for two buffers with these contents. */
  function Order(a: seq<byte>, b: seq<byte>): int
    requires |a| < DWORD_RANGE && |b| < DWORD_RANGE
  {
    var diff := Signed32(|a| - |b|);
    if diff == 0 && |a| != 0 then Memcmp(a, b) else diff
  }

  lemma {:induction false} MemcmpIsTotal(a: seq<byte>, b: seq<byte>)
    requires |a| == |b|
    ensures Memcmp(a, b) == 0 <==> a == b
    ensures Memcmp(b, a) == -Memcmp(a, b)
  {
    if a != [] && a[0] == b[0] {
      MemcmpIsTotal(a[1..], b[1..]);
      assert a == [a[0]] + a[1..] && b == [b[0]] + b[1..];
    }
  }

  lemma {:induction false} MemcmpIsTransitive(a: seq<byte>, b: seq<byte>, c: seq<byte>)
    requires |a| == |b| == |c| && Memcmp(a, b) <= 0 && Memcmp(b, c) <= 0
    ensures Memcmp(a, c) <= 0
  {
    if a != [] && a[0] == b[0] == c[0] {
      MemcmpIsTransitive(a[1..], b[1..], c[1..]);
    }
  }

  /** operator == holds exactly for equal contents, whatever the sizes. */
  lemma EqualExactly(a: seq<byte>, b: seq<byte>)
    requires |a| < DWORD_RANGE && |b| < DWORD_RANGE
    ensures Order(a, b) == 0 <==> a == b
  {
    if |a| == |b| {
      MemcmpIsTotal(a, b);
    }
  }

  /** The longer buffer is the greater one exactly when the sizes differ by less than 2 GB. */
  lemma LongerIsGreater(a: seq<byte>, b: seq<byte>)
    requires |b| < |a| < DWORD_RANGE
    ensures Order(a, b) > 0 <==> |a| - |b| < 0x8000_0000
  {
  }

  /** Exactly one of `<`, `==`, `>` holds unless the sizes differ by exactly 2 GB. */
  lemma Antisymmetric(a: seq<byte>, b: seq<byte>)
    requires |a| < DWORD_RANGE && |b| < DWORD_RANGE
    ensures (Order(a, b) < 0 <==> Order(b, a) > 0) <==> |a| - |b| != 0x8000_0000 && |b| - |a| != 0x8000_0000
  {
    if |a| == |b| {
      MemcmpIsTotal(a, b);
    }
  }

  /** Among buffers of at most n bytes "not greater" is transitive. */
  ghost predicate TransitiveUpTo(n: nat)
    requires n < DWORD_RANGE
  {
    forall a: seq<byte>, b: seq<byte>, c: seq<byte> ::
      (|a| <= n && |b| <= n && |c| <= n && Order(a, b) <= 0 && Order(b, c) <= 0) ==> Order(a, c) <= 0
  }

  lemma TransitiveBelow(a: seq<byte>, b: seq<byte>, c: seq<byte>)
    requires |a| < 0x8000_0000 && |b| < 0x8000_0000 && |c| < 0x8000_0000
    requires Order(a, b) <= 0 && Order(b, c) <= 0
    ensures Order(a, c) <= 0
  {
    if |a| == |b| == |c| {
      MemcmpIsTransitive(a, b, c);
    }
  }

  /** The order is transitive exactly up to the last size below 2 GB. */
  lemma TransitiveExactly(n: nat)
    requires n < DWORD_RANGE
    ensures TransitiveUpTo(n) <==> n < 0x8000_0000
  {
    if n < 0x8000_0000 {
      forall a: seq<byte>, b: seq<byte>, c: seq<byte>
        | |a| <= n && |b| <= n && |c| <= n && Order(a, b) <= 0 && Order(b, c) <= 0
        ensures Order(a, c) <= 0
      {
        TransitiveBelow(a, b, c);
      }
    } else {
      // 2 GB is less than nothing, nothing is less than one byte, but 2 GB is not less than one byte
      var a, b, c := Zeros(0x8000_0000), Zeros(0), Zeros(1);
      assert Order(a, b) < 0 && Order(b, c) < 0 && Order(a, c) > 0;
    }
  }

  /** Three sizes of which each is "less" than the next. */
  lemma OrderCycles(a: seq<byte>, b: seq<byte>, c: seq<byte>)
    requires |a| == 0 && |b| == 0x6000_0000 && |c| == 0xC000_0000
    ensures Order(a, b) < 0 && Order(b, c) < 0 && Order(c, a) < 0
  {
  }

  // ---------------------------------------------------------------- handles and blocks

  ghost function Blocks(w: set<CBuffer>): set<Block>
    reads w
  {
    set h | h in w && h.data != null :: h.data
  }

  /** The handles that point to a block. */
  ghost function Sharers(w: set<CBuffer>, b: Block): set<CBuffer>
    reads w
  {
    set h | h in w && h.data == b
  }

  ghost predicate BlockOk(w: set<CBuffer>, b: Block)
    reads w, b
  {
    && b.size <= |b.mem| < DWORD_RANGE && |Sharers(w, b)| == if b.refs == LOCKED then 1 else b.refs
  }

  ghost predicate World(w: set<CBuffer>)
    reads w, Blocks(w)
  {
    forall h :: h in w && h.data != null ==> BlockOk(w, h.data)
  }

  /** A set with one element is the singleton of any of its elements. */
  lemma OnlyElement<T>(s: set<T>, x: T)
    requires x in s && |s| == 1
    ensures s == {x}
  {
    assert |s - {x}| == 0;
  }

  /** A count of 1, or a locked block, means that nobody else points to the block. */
  lemma CountMeansSharers(w: set<CBuffer>, x: CBuffer)
    requires World(w) && x in w && x.data != null
    ensures BlockOk(w, x.data) && (x.data.refs == LOCKED || x.data.refs >= 1)
    ensures x.data.refs <= 1 <==> Sharers(w, x.data) == {x}
  {
    assert x in Sharers(w, x.data);
    assert |Sharers(w, x.data)| > 0;
    if x.data.refs <= 1 {
      OnlyElement(Sharers(w, x.data), x);
    }
  }

  /** One handle has left a shared block. */
  twostate predicate Left(b: Block)
    reads b
  {
    b.refs == old(b.refs) - 1 && b.mem == old(b.mem) && b.size == old(b.size)
  }

  twostate predicate Same(b: Block)
    reads b
  {
    b.refs == old(b.refs) && b.mem == old(b.mem) && b.size == old(b.size)
  }

  /** A block that a handle keeps for itself. */
  predicate Sole(b: Block)
    reads b
  {
    b.size <= |b.mem| < DWORD_RANGE && (b.refs == 1 || b.refs == LOCKED)
  }

  lemma Alone(w: set<CBuffer>, x: CBuffer)
    requires x in w && x.data != null
    requires forall h :: h in w && h != x ==> h.data != x.data
    ensures Sharers(w, x.data) == {x}
  {
  }

  /** Two sets that differ at most in one element. */
  lemma Shift<T>(now: set<T>, before: set<T>, x: T)
    requires forall g :: g != x ==> (g in now <==> g in before)
    ensures |now| - (if x in now then 1 else 0) == |before| - (if x in before then 1 else 0)
  {
    assert now - {x} == before - {x};
    assert |now - {x}| == |now| - (if x in now then 1 else 0);
    assert |before - {x}| == |before| - (if x in before then 1 else 0);
  }

  lemma Pair<T>(s: set<T>, x: T, y: T)
    requires x in s && y in s && x != y
    ensures |s| >= 2
  {
    assert |s - {x} - {y}| == |s| - 2;
  }

  class CBuffer {
    var data: Block?

    /** The bytes a reader sees. */
    ghost function Contents(): seq<byte>
      reads this, data
    {
      if data == null || data.size > |data.mem| then [] else data.mem[..data.size]
    }

    ghost predicate Locked()
      reads this, data
    {
      data != null && data.refs == LOCKED
    }

    /** Every other handle still points where it pointed and reads what it read. */
    twostate predicate Untouched(w: set<CBuffer>)
      reads w, Blocks(w)
    {
      forall h :: h in w && h != this ==> h.data == old(h.data) && h.Contents() == old(h.Contents())
    }

    /**
     The count protocol: when this handle stays on a block of its own, or leaves a shared block
     taking its count along and enters a new one, the counts stay right and no other handle
     notices.
     */
    twostate lemma Settle(w: set<CBuffer>)
      requires this in w && old(World(w))
      requires data != null ==> Sole(data) && (fresh(data) || data == old(data))
      requires data != null && data == old(data) ==> old(data.refs) <= 1
      requires data != old(data) && old(data) != null && old(data.refs) > 1 ==> Left(old(data))
      requires forall h :: h in w && h != this ==> h.data == old(h.data)
      requires forall h :: h in w && h != this && h.data != null && h.data != old(data) ==> Same(h.data)
      ensures World(w)
      ensures data != null ==> Sharers(w, data) == {this}
      ensures forall h :: h in w && h != this ==> h.Contents() == old(h.Contents())
    {
      forall h | h in w && h != this && h.data != null
        ensures h.data != data && BlockOk(w, h.data) && h.Contents() == old(h.Contents())
      {
        var b := h.data;
        var now, before := Sharers(w, b), old(Sharers(w, b));
        Shift(now, before, this);
        assert h in before && old(BlockOk(w, b));
        if b == old(data) {
          Pair(before, this, h);
        }
      }
      if data != null {
        Alone(w, this);
      }
    }

    /** The same for an empty handle that enters a block of another handle. */
    twostate lemma Joined(w: set<CBuffer>)
      requires this in w && old(World(w)) && old(data) == null && data != null
      requires exists h :: h in w && h != this && old(h.data) == data
      requires var b := data; b.refs == old(b.refs) + 1 && old(b.refs) >= 1 && b.mem == old(b.mem) && b.size == old(b.size)
      requires forall h :: h in w && h != this ==> h.data == old(h.data)
      requires forall h :: h in w && h != this && h.data != null && h.data != data ==> Same(h.data)
      ensures World(w) && Untouched(w)
    {
      forall h | h in w && h.data != null ensures BlockOk(w, h.data) && (h != this ==> h.Contents() == old(h.Contents())) {
        var b := h.data;
        var now, before := Sharers(w, b), old(Sharers(w, b));
        Shift(now, before, this);
        assert old(BlockOk(w, b));
      }
    }

    constructor ()
      ensures data == null
    {
      data := null;
    }

    /** The copy constructor: the new handle joins the world. */
    constructor Copy(ghost w: set<CBuffer>, b: CBuffer)
      requires World(w) && b in w && (b.data != null ==> Fits(b.data.size))
      modifies b.data
      ensures World(w + {this}) && Contents() == old(b.Contents()) && !Locked()
      ensures forall h :: h in w ==> h.data == old(h.data) && h.Contents() == old(h.Contents())
    {
      data := null;
      new;
      ghost var all := w + {this};
      forall h | h in all && h.data != null ensures BlockOk(all, h.data) {
        assert Sharers(all, h.data) == Sharers(w, h.data);
      }
      CopyInto(all, b);
    }

    method CopyInto(ghost w: set<CBuffer>, b: CBuffer)
      requires World(w) && this in w && b in w && b != this && data == null && (b.data != null ==> Fits(b.data.size))
      modifies this, b.data
      ensures World(w) && Untouched(w) && Contents() == b.Contents() && !Locked()
    {
      if b.data == null || b.data.size == 0 {
        return;
      }
      CountMeansSharers(w, b);
      if b.data.refs == LOCKED {
        Load(w, b.data.mem[..b.data.size]);
        return;
      }
      Share(w, b);
    }

    method GetBufSize() returns (n: nat)
      ensures n == if data == null then 0 else data.size
    {
      n := if data == null then 0 else data.size;
    }

    method Compare(ghost w: set<CBuffer>, b: CBuffer) returns (diff: int)
      requires World(w) && this in w && b in w
      ensures diff == Order(Contents(), b.Contents())
    {
      if data != null {
        CountMeansSharers(w, this);
      }
      if b.data != null {
        CountMeansSharers(w, b);
      }
      var size := GetBufSize();
      var other := b.GetBufSize();
      diff := Signed32(size as int - other);
      if diff == 0 && size != 0 {
        diff := Memcmp(data.mem[..size], b.data.mem[..size]);
      }
    }

    /**
     Make this handle the only one of a block of the given size, keeping what fits of its
     contents. `force` reallocates even when the block is large enough; `empty` gives it up.
     */
    method Grow(ghost w: set<CBuffer>, n: nat, force: bool, empty: bool)
      requires World(w) && this in w && Fits(n) && (force ==> data == null || n == data.size)
      modifies this, data
      ensures World(w)
      ensures data == null <==> empty || (n == 0 && (old(data) == null || (force && old(data.refs) <= 1)))
      ensures data != null ==> Sharers(w, data) == {this} && data.size == n == |Contents()|
      ensures data == null || data == old(data) || fresh(data)
      ensures Locked() <==> old(Locked()) && data != null
      ensures !empty ==> n == |Contents()| && (var k := Min(n, |old(Contents())|); Contents()[..k] == old(Contents())[..k])
      ensures Untouched(w)
    {
      if data != null {
        CountMeansSharers(w, this);
      }
      if data != null && data.refs > 1 {
        var info := data;
        if !empty {
          data := new Block(n);
          data.mem := info.mem[..Min(info.size, n)] + data.mem[Min(info.size, n)..];
        } else {
          data := null;
        }
        info.refs := info.refs - 1;
      } else if empty {
        data := null;
      } else if data == null {
        if n > 0 {
          data := new Block(n);
        }
      } else if !force && n <= |data.mem| {
        data.size := n;
      } else if n == 0 {
        data := null;
      } else {
        data.mem := Resized(data.mem, n + SLACK);
        data.size := n;
      }
      Settle(w);
    }

    /** Give the block up; also what the destructor does. */
    method Empty(ghost w: set<CBuffer>)
      requires World(w) && this in w
      modifies this, data
      ensures World(w) && data == null && Untouched(w)
    {
      Grow(w, 0, false, true);
    }

    method SetBufSize(ghost w: set<CBuffer>, n: nat)
      requires World(w) && this in w && Fits(n)
      modifies this, data
      ensures World(w) && Untouched(w) && (Locked() <==> old(Locked()))
      ensures |Contents()| == n
      ensures var k := Min(n, |old(Contents())|); Contents()[..k] == old(Contents())[..k]
    {
      Grow(w, n, false, false);
    }

    /** The writable pointer: afterwards nobody else refers to the block. */
    method GetData(ghost w: set<CBuffer>) returns (b: Block?)
      requires World(w) && this in w && (data != null ==> Fits(data.size))
      modifies this, data
      ensures World(w) && Untouched(w) && (Locked() <==> old(Locked()))
      ensures b == data && (b == null <==> old(data) == null) && Contents() == old(Contents())
      ensures b != null ==> Sharers(w, b) == {this} && (b == old(data) || fresh(b))
    {
      if data == null {
        return null;
      }
      CountMeansSharers(w, this);
      Grow(w, data.size, false, false);
      return data;
    }

    /** Store bytes into a block of one's own. */
    method Store(ghost w: set<CBuffer>, at: nat, bytes: seq<byte>)
      requires World(w) && this in w && data != null && Sharers(w, data) == {this}
      requires at + |bytes| <= data.size
      modifies data
      ensures World(w) && Untouched(w) && (Locked() <==> old(Locked())) && data.size == old(data.size)
      ensures Contents() == old(Contents())[..at] + bytes + old(Contents())[at + |bytes|..]
    {
      CountMeansSharers(w, this);
      data.mem := data.mem[..at] + bytes + data.mem[at + |bytes|..];
      Settle(w);
    }

    method SetAt(ghost w: set<CBuffer>, index: nat, value: byte)
      requires World(w) && this in w && Fits(index + 1) && (data != null ==> Fits(data.size))
      modifies this, data
      ensures World(w) && Untouched(w) && (Locked() <==> old(Locked()))
      ensures |Contents()| == (if index < |old(Contents())| then |old(Contents())| else index + 1)
      ensures Contents()[index] == value
      ensures forall i :: 0 <= i < |old(Contents())| && i != index ==> Contents()[i] == old(Contents())[i]
    {
      if data != null {
        CountMeansSharers(w, this);
      }
      var size := GetBufSize();
      Grow(w, if index >= size then index + 1 else size, false, false);
      ghost var grown := Contents();
      assert grown[..size] == old(Contents());
      Store(w, index, [value]);
      assert forall i :: 0 <= i < size && i != index ==> Contents()[i] == grown[i] == grown[..size][i];
    }

    method Load(ghost w: set<CBuffer>, src: seq<byte>)
      requires World(w) && this in w && Fits(|src|)
      modifies this, data
      ensures World(w) && Untouched(w) && (Locked() <==> old(Locked()))
      ensures Contents() == src
    {
      Grow(w, |src|, false, false);
      if |src| > 0 {
        Store(w, 0, src);
      }
    }

    method Append(ghost w: set<CBuffer>, src: seq<byte>)
      requires World(w) && this in w && Fits(|Contents()| + |src|)
      modifies this, data
      ensures World(w) && Untouched(w) && (Locked() <==> old(Locked()))
      ensures Contents() == old(Contents()) + src
    {
      if data != null {
        CountMeansSharers(w, this);
      }
      var size := GetBufSize();
      Grow(w, |src| + size, false, false);
      assert Contents()[..size] == old(Contents());
      var now := GetBufSize();
      if now > 0 {
        Store(w, size, src);
      }
    }

    method FreeExtra(ghost w: set<CBuffer>)
      requires World(w) && this in w && (data != null ==> Fits(data.size))
      modifies this, data
      ensures World(w) && Untouched(w) && Contents() == old(Contents())
    {
      if data != null {
        CountMeansSharers(w, this);
      }
      var size := GetBufSize();
      Grow(w, size, true, false);
    }

    /** operator +=; a buffer is never appended to itself. */
    method AppendBuffer(ghost w: set<CBuffer>, b: CBuffer)
      requires World(w) && this in w && b in w && b != this && Fits(|Contents()| + |b.Contents()|)
      modifies this, data
      ensures World(w) && Untouched(w) && (Locked() <==> old(Locked()))
      ensures Contents() == old(Contents()) + old(b.Contents())
    {
      if b.data != null {
        CountMeansSharers(w, b);
      }
      var more := b.GetBufSize();
      if more > 0 {
        Append(w, b.data.mem[..more]);
      }
    }

    /** Enter the block of another handle. */
    method Share(ghost w: set<CBuffer>, b: CBuffer)
      requires World(w) && this in w && b in w && b != this && data == null
      requires b.data != null && b.data.refs != LOCKED
      modifies this, b.data
      ensures World(w) && Untouched(w) && data == b.data && !Locked()
      ensures Contents() == b.Contents()
    {
      CountMeansSharers(w, b);
      b.data.refs := b.data.refs + 1;
      data := b.data;
      Joined(w);
    }

    /** operator =: share the block, or copy the bytes when either side is locked. */
    method Assign(ghost w: set<CBuffer>, b: CBuffer)
      requires World(w) && this in w && b in w && (b.data != null ==> Fits(b.data.size))
      modifies this, data, b.data
      ensures World(w) && Untouched(w)
      ensures Contents() == old(b.Contents())
      ensures Locked() ==> old(Locked())
      ensures old(Locked()) && |Contents()| > 0 ==> Locked()
    {
      if b == this {
        return;
      }
      if b.data != null {
        CountMeansSharers(w, b);
      }
      if b.data == null || b.data.size == 0 {
        Empty(w);
        return;
      }
      if b.data.refs == LOCKED || (data != null && data.refs == LOCKED) {
        Load(w, b.data.mem[..b.data.size]);
        return;
      }
      if data != b.data {
        Empty(w);
        Share(w, b);
      }
    }

    /** Bar the block from being shared; an empty handle cannot be locked. */
    method Lock(ghost w: set<CBuffer>)
      requires World(w) && this in w && (data != null ==> Fits(data.size))
      modifies this, data
      ensures World(w) && Untouched(w) && Contents() == old(Contents())
      ensures Locked() <==> old(data) != null
    {
      var b := GetData(w);
      label Own:
      if b != null {
        CountMeansSharers(w, this);
        b.refs := LOCKED;
        Settle@Own(w);
      }
    }

    method Unlock(ghost w: set<CBuffer>)
      requires World(w) && this in w
      modifies data
      ensures World(w) && Untouched(w) && Contents() == old(Contents()) && !Locked()
    {
      if data != null && data.refs == LOCKED {
        CountMeansSharers(w, this);
        data.refs := 1;
        Settle(w);
      }
    }
  }
}
