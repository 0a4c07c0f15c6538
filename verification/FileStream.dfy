/**
 The two sequential passes over a file in ECSUtil/FileSupport.cpp: the checksum of a part or of the
 whole file, and the producer loop of S3Write, which feeds the stream of a single request. How much a
 read delivers is unknown; at the end of the file a read fails with an error of its own.
 */
module FileStream {
  import opened Bytes

  /** STREAM_DATA_ENTRY. */
  datatype Entry = Entry(data: seq<byte>, offset: nat, last: bool)

  datatype Read = Got(n: nat) | EndOfFile | Failed

  datatype Outcome = Complete | Aborted | ReadError

  /** What the disk does with a read: it fails, or delivers about n bytes. */
  datatype Disk = Broken | Delivers(n: nat)

  /** What reads and looks at the abort request bring, each by its number. */
  datatype World = World(disk: nat -> Disk, aborts: nat -> bool)

  /**
   ReadFile at an offset: something between one byte and what was asked for, or no success. A read of
   nothing behind the end of the file is an error of another kind than the end of the file.
   */
  method ReadFile(d: Disk, file: seq<byte>, offset: nat, size: nat) returns (r: Read)
    ensures r.Failed? <==> d.Broken? || (size == 0 && offset > |file|)
    ensures r.Got? ==> r.n <= size && offset + r.n <= |file| && (size > 0 ==> r.n > 0)
    ensures r.EndOfFile? ==> offset >= |file| && size > 0
  {
    if d.Broken? {
      return Failed;
    }
    if size == 0 && offset <= |file| {
      return Got(0);
    }
    if offset >= |file| {
      return if size > 0 then EndOfFile else Failed;
    }
    var most := Min(size, |file| - offset);
    return Got(if 1 <= d.n <= most then d.n else most);
  }

  /** The last of some reads has failed, and only that. */
  ghost predicate LastReadFailed(w: World, readings: nat) {
    readings > 0 && w.disk(readings - 1).Broken? && forall k: nat :: k < readings - 1 ==> !w.disk(k).Broken?
  }

  /** The last look has seen the request to abort, and only that. */
  ghost predicate LastLookAborted(w: World, looks: nat) {
    looks > 0 && w.aborts(looks - 1) && forall k: nat :: k < looks - 1 ==> !w.aborts(k)
  }

  /** Nothing has failed and nobody has asked to abort. */
  ghost predicate Undisturbed(w: World, readings: nat, looks: nat) {
    (forall k: nat :: k < readings ==> !w.disk(k).Broken?) && (forall k: nat :: k < looks ==> !w.aborts(k))
  }

  /** The part of the file that a checksum covers: everything, or a slice as far as the file reaches. */
  function Covered(file: seq<byte>, offset: nat, length: nat): seq<byte> {
    if offset == 0 && length == 0 then file
    else if offset >= |file| then []
    else file[offset..Min(offset + length, |file|)]
  }

  lemma PrefixOfSlice<T>(s: seq<T>, from: nat, mid: nat, to: nat)
    requires from <= mid <= to <= |s|
    ensures s[from..mid] <= s[from..to]
  {
    assert forall i :: 0 <= i < mid - from ==> s[from..mid][i] == s[from..to][i];
  }

  lemma HashedSoFar(file: seq<byte>, offset: nat, length: nat, at: nat)
    requires offset <= at <= |file| && (offset != 0 || length != 0 ==> at <= offset + length)
    ensures file[offset..at] <= Covered(file, offset, length)
    ensures at == |file| || (at == offset + length && (offset != 0 || length != 0)) ==> file[offset..at] == Covered(file, offset, length)
  {
    if offset != 0 || length != 0 {
      var end := Min(offset + length, |file|);
      if offset < |file| {
        PrefixOfSlice(file, offset, at, end);
      }
    } else {
      assert file[0..at] == file[..at];
      assert file[..|file|] == file;
    }
  }

  lemma NothingBehindTheEnd(file: seq<byte>, offset: nat, length: nat)
    ensures offset > |file| ==> Covered(file, offset, length) == []
  {
  }

  /**
   CalcUploadChecksum: `hashed` is what went into the hash. It is complete unless a read fails, or
   somebody asks to abort, or nothing is to be read behind the end of the file.
   */
  method CalcUploadChecksum(w: World, file: seq<byte>, offset: nat, length: nat, bufSize: nat)
    returns (o: Outcome, hashed: seq<byte>, readings: nat, looks: nat)
    requires bufSize > 0
    ensures o.Complete? ==> hashed == Covered(file, offset, length) && Undisturbed(w, readings, looks)
    ensures o.ReadError? ==> LastReadFailed(w, readings) || (length == 0 && offset > |file|)
    ensures o.Aborted? ==> LastLookAborted(w, looks)
    ensures hashed <= Covered(file, offset, length)
  {
    hide Covered;
    NothingBehindTheEnd(file, offset, length);
    hashed, readings, looks := [], 0, 0;
    var at, left := offset, length;
    var part := offset != 0 || length != 0;
    while true
      invariant offset <= at && (hashed != [] ==> at <= |file|)
      invariant if offset <= |file| then at <= |file| && hashed == file[offset..at] else hashed == [] && at == offset
      invariant part ==> at + left == offset + length && (left > 0 || (length == 0 && at == offset))
      invariant Undisturbed(w, readings, looks)
      decreases |file| - at
    {
      if offset <= |file| {
        HashedSoFar(file, offset, length, at);
      }
      var size := bufSize;
      if part && size > left {
        size := left;
      }
      var r := ReadFile(w.disk(readings), file, at, size);
      readings := readings + 1;
      if r.Failed? {
        return ReadError, hashed, readings, looks;
      }
      if r.EndOfFile? {
        break;
      }
      hashed := hashed + file[at..at + r.n];
      at := at + r.n;
      if offset <= |file| {
        HashedSoFar(file, offset, length, at);
      }
      if part {
        left := left - r.n;
        if left == 0 {
          break;
        }
      }
      looks := looks + 1;
      if w.aborts(looks - 1) {
        return Aborted, hashed, readings, looks;
      }
    }
    o := Complete;
  }

  function Flat(es: seq<Entry>): seq<byte> {
    if es == [] then [] else Flat(es[..|es| - 1]) + es[|es| - 1].data
  }

  lemma FlatAppend(es: seq<Entry>, e: Entry)
    ensures Flat(es + [e]) == Flat(es) + e.data
  {
    assert (es + [e])[..|es|] == es;
  }

  /** Each entry carries the position of its data. */
  ghost predicate InPlace(es: seq<Entry>) {
    forall i :: 0 <= i < |es| ==> es[i].offset == |Flat(es[..i])|
  }

  /**
   The producer loop of S3Write: `queued` are the entries in the order of the pushes. A complete pass
   has queued the file, and only the final entry, which is empty, is marked last; an incomplete one has
   queued the beginning of the file and marked nothing. It is complete unless a read fails or somebody
   asks to abort.
   */
  method S3Write(w: World, file: seq<byte>, bufSize: nat) returns (o: Outcome, queued: seq<Entry>, readings: nat, looks: nat)
    requires bufSize > 0
    ensures o.Complete? ==> Flat(queued) == file && queued != [] && queued[|queued| - 1].data == []
    ensures o.Complete? ==> Undisturbed(w, readings, looks)
    ensures o.ReadError? ==> LastReadFailed(w, readings)
    ensures o.Aborted? ==> LastLookAborted(w, looks)
    ensures Flat(queued) <= file && InPlace(queued)
    ensures forall i :: 0 <= i < |queued| ==> (queued[i].last <==> o.Complete? && i == |queued| - 1)
    ensures forall i :: 0 <= i < |queued| && !queued[i].last ==> 0 < |queued[i].data| <= bufSize
  {
    hide Flat, InPlace;
    queued, readings, looks := [], 0, 0;
    NothingQueued();
    var offset := 0;
    while true
      invariant offset <= |file| && Flat(queued) == file[..offset] && InPlace(queued)
      invariant forall i :: 0 <= i < |queued| ==> !queued[i].last && 0 < |queued[i].data| <= bufSize
      invariant Undisturbed(w, readings, looks)
      decreases |file| - offset
    {
      looks := looks + 1;
      if w.aborts(looks - 1) {
        return Aborted, queued, readings, looks;
      }
      var r := ReadFile(w.disk(readings), file, offset, bufSize);
      readings := readings + 1;
      if r.Failed? {
        return ReadError, queued, readings, looks;
      }
      var n := if r.Got? then r.n else 0;
      var e := Entry(file[offset..offset + n], offset, r.EndOfFile?);
      FlatAppend(queued, e);
      PlaceAppend(queued, e);
      queued := queued + [e];
      offset := offset + n;
      if r.EndOfFile? {
        return Complete, queued, readings, looks;
      }
    }
  }

  lemma NothingQueued()
    ensures Flat([]) == [] && InPlace([])
  {
  }

  lemma PlaceAppend(es: seq<Entry>, e: Entry)
    requires InPlace(es) && e.offset == |Flat(es)|
    ensures InPlace(es + [e])
  {
    var q := es + [e];
    forall i | 0 <= i < |q| ensures q[i].offset == |Flat(q[..i])| {
      assert q[..i] == es[..i];
      assert es[..|es|] == es;
    }
  }
}
