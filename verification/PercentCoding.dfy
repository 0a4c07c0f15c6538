/**
 Percent encoding and decoding of ECSUtil/UriUtils.cpp, in the sense of section 2.1 of RFC 3986:
 a byte that may not appear as itself is written as '%' and two hexadecimal digits.
 */
module PercentCoding {

  import opened Bytes

  /** TCHAR in a Unicode build. */
  newtype wide = x: int | 0 <= x < 0x1_0000

  const PERCENT: byte := 0x25

  /** The two tables of strUriEncode, and the characters that UriEncodeS3 leaves alone. */
  datatype Table = Safe | AllSafe | S3(encodeSlash: bool)

  predicate Letter(c: byte) { 0x41 <= c <= 0x5A || 0x61 <= c <= 0x7A }
  predicate Digit(c: byte) { 0x30 <= c <= 0x39 }

  predicate IsSafe(t: Table, c: byte) {
    Letter(c) || Digit(c) ||
    match t
    case Safe => c in {0x21, 0x24, 0x26, 0x27, 0x28, 0x29, 0x2A, 0x2C, 0x2D, 0x2E, 0x2F, 0x3A, 0x3B, 0x3D, 0x3F, 0x40, 0x5F, 0x7E}
    case AllSafe => c == 0x2F
    case S3(encodeSlash) => c in {0x5F, 0x2D, 0x7E, 0x2E} || (c == 0x2F && !encodeSlash)
  }

  /** DEC2HEX: an upper-case digit. */
  function ToHex(n: byte): (c: byte)
    requires n < 16
    ensures FromHex(c) == n as int
  {
    if n < 10 then 0x30 + n else 0x41 + (n - 10)
  }

  /** HEX2DEC: digits of either case, -1 for anything else. */
  function FromHex(c: byte): (n: int)
    ensures -1 <= n < 16
  {
    if Digit(c) then c as int - 0x30
    else if 0x41 <= c <= 0x46 then c as int - 0x41 + 10
    else if 0x61 <= c <= 0x66 then c as int - 0x61 + 10
    else -1
  }

  function Escape(c: byte): seq<byte> { [PERCENT, ToHex(c / 16), ToHex(c % 16)] }

  function Code(t: Table, c: byte): seq<byte> { if IsSafe(t, c) then [c] else Escape(c) }

  function Encode(t: Table, s: seq<byte>): (r: seq<byte>)
    ensures |s| <= |r| <= 3 * |s|
  {
    if s == [] then []
    else Code(t, s[0]) + Encode(t, s[1..])
  }

  /** A percent sign with two hexadecimal digits behind it. */
  predicate Triple(s: seq<byte>, i: nat) {
    i + 2 < |s| && s[i] == PERCENT && FromHex(s[i + 1]) != -1 && FromHex(s[i + 2]) != -1
  }

  function Unescape(hi: byte, lo: byte): byte
    requires FromHex(hi) != -1 && FromHex(lo) != -1
  {
    (FromHex(hi) * 16 + FromHex(lo)) as byte
  }

  function Decode(s: seq<byte>): (r: seq<byte>)
    ensures |r| <= |s|
  {
    if s == [] then []
    else if Triple(s, 0) then [Unescape(s[1], s[2])] + Decode(s[3..])
    else [s[0]] + Decode(s[1..])
  }

  // ---------------------------------------------------------------- the loops

  /** One more byte encoded, behind what has been written so far. */
  lemma EncodeStep(t: Table, src: seq<byte>, i: nat, done: seq<byte>)
    requires i < |src|
    ensures done + Encode(t, src[i..]) == (done + Code(t, src[i])) + Encode(t, src[i + 1..])
  {
    hide IsSafe, Escape;
    assert src[i..][0] == src[i] && src[i..][1..] == src[i + 1..];
  }

  lemma EncodeEnds(t: Table, src: seq<byte>, done: seq<byte>)
    ensures done + Encode(t, src[|src|..]) == done && [] + Encode(t, src[0..]) == Encode(t, src)
  {
    assert src[0..] == src && src[|src|..] == [];
  }

  /** strUriEncode, into a buffer of three times the length. */
  method UriEncode(t: Table, src: seq<byte>) returns (r: seq<byte>)
    ensures r == Encode(t, src)
  {
    hide Encode, IsSafe, ToHex;
    var buf := new byte[|src| * 3];
    var end, i := 0, 0;
    EncodeEnds(t, src, []);
    assert buf[..end] == [];
    while i < |src|
      invariant i <= |src| && end <= 3 * i
      invariant buf[..end] + Encode(t, src[i..]) == Encode(t, src)
    {
      var c := src[i];
      ghost var done := buf[..end];
      EncodeStep(t, src, i, done);
      if IsSafe(t, c) {
        buf[end] := c;
        end := end + 1;
        assert buf[..end] == done + [c];
      } else {
        buf[end] := PERCENT;
        buf[end + 1] := ToHex(c / 16);
        buf[end + 2] := ToHex(c % 16);
        end := end + 3;
        assert buf[..end] == done + Escape(c);
      }
      i := i + 1;
    }
    r := buf[..end];
    EncodeEnds(t, src, r);
  }

  lemma DecodeStep(src: seq<byte>, i: nat, done: seq<byte>)
    requires i < |src|
    ensures if Triple(src, i) then done + Decode(src[i..]) == (done + [Unescape(src[i + 1], src[i + 2])]) + Decode(src[i + 3..])
            else done + Decode(src[i..]) == (done + [src[i]]) + Decode(src[i + 1..])
  {
    hide FromHex;
    var rest := src[i..];
    assert Triple(rest, 0) <==> Triple(src, i);
    assert rest[1..] == src[i + 1..] && (|rest| >= 3 ==> rest[3..] == src[i + 3..]);
  }

  lemma DecodeEnds(src: seq<byte>, done: seq<byte>)
    ensures done + Decode(src[|src|..]) == done && [] + Decode(src[0..]) == Decode(src)
  {
    assert src[0..] == src && src[|src|..] == [];
  }

  /** strUriDecode: the last two bytes cannot start a triple and are copied by the second loop. */
  method UriDecode(src: seq<byte>) returns (r: seq<byte>)
    ensures r == Decode(src)
  {
    hide Decode, FromHex;
    var buf := new byte[|src|];
    var end, i := 0, 0;
    DecodeEnds(src, []);
    assert buf[..end] == [];
    while i < |src| - 2
      invariant i <= |src| && end <= i
      invariant buf[..end] + Decode(src[i..]) == Decode(src)
    {
      ghost var done := buf[..end];
      DecodeStep(src, i, done);
      if src[i] == PERCENT {
        var hi := FromHex(src[i + 1]);
        var lo := FromHex(src[i + 2]);
        if hi != -1 && lo != -1 {
          buf[end] := Unescape(src[i + 1], src[i + 2]);
          end := end + 1;
          assert buf[..end] == done + [buf[end - 1]];
          i := i + 3;
          continue;
        }
      }
      buf[end] := src[i];
      end := end + 1;
      assert buf[..end] == done + [src[i]];
      i := i + 1;
    }
    while i < |src|
      invariant |src| - 2 <= i <= |src| && end <= i
      invariant buf[..end] + Decode(src[i..]) == Decode(src)
    {
      ghost var done := buf[..end];
      DecodeStep(src, i, done);
      buf[end] := src[i];
      end := end + 1;
      assert buf[..end] == done + [src[i]];
      i := i + 1;
    }
    r := buf[..end];
    DecodeEnds(src, r);
  }

  // ---------------------------------------------------------------- results

  lemma {:induction false} DecodeAppends(head: seq<byte>, rest: seq<byte>, c: byte)
    requires (head == [c] && c != PERCENT) || head == Escape(c)
    ensures Decode(head + rest) == [c] + Decode(rest)
  {
    var s := head + rest;
    if head == Escape(c) {
      assert Triple(s, 0) && s[3..] == rest;
    } else {
      assert s[1..] == rest;
    }
  }

  /** Decoding undoes encoding, for every byte string and every table. */
  lemma {:induction false} RoundTrip(t: Table, s: seq<byte>)
    ensures Decode(Encode(t, s)) == s
  {
    if s != [] {
      RoundTrip(t, s[1..]);
      DecodeAppends(Code(t, s[0]), Encode(t, s[1..]), s[0]);
      assert s == [s[0]] + s[1..];
    }
  }

  predicate UpperHex(c: byte) { Digit(c) || 0x41 <= c <= 0x46 }

  /** Safe bytes as themselves, everything else as '%' and two upper-case digits, nothing in between. */
  predicate Canonical(t: Table, e: seq<byte>) {
    e == [] ||
    (IsSafe(t, e[0]) && Canonical(t, e[1..])) ||
    (Triple(e, 0) && UpperHex(e[1]) && UpperHex(e[2]) && !IsSafe(t, Unescape(e[1], e[2])) && Canonical(t, e[3..]))
  }

  lemma {:induction false} EncodedIsCanonical(t: Table, s: seq<byte>)
    ensures Canonical(t, Encode(t, s))
  {
    if s != [] {
      EncodedIsCanonical(t, s[1..]);
      var e := Encode(t, s);
      if IsSafe(t, s[0]) {
        assert e[1..] == Encode(t, s[1..]);
      } else {
        assert e[..3] == Escape(s[0]) && e[3..] == Encode(t, s[1..]);
        assert Triple(e, 0) && Unescape(e[1], e[2]) == s[0];
      }
    }
  }

  lemma UpperHexIsBack(hi: byte, lo: byte)
    requires UpperHex(hi) && UpperHex(lo)
    ensures Escape(Unescape(hi, lo)) == [PERCENT, hi, lo]
  {
    var c := Unescape(hi, lo);
    assert c as int / 16 == FromHex(hi) && c as int % 16 == FromHex(lo);
  }

  lemma {:induction false} CanonicalIsEncoded(t: Table, e: seq<byte>)
    requires Canonical(t, e)
    ensures Encode(t, Decode(e)) == e
  {
    if e != [] {
      hide IsSafe, FromHex, Escape;
      if IsSafe(t, e[0]) {
        PercentIsUnsafe(t);
        CanonicalIsEncoded(t, e[1..]);
        assert e == [e[0]] + e[1..];
        assert Decode(e) == [e[0]] + Decode(e[1..]);
      } else {
        CanonicalIsEncoded(t, e[3..]);
        var c := Unescape(e[1], e[2]);
        assert Decode(e) == [c] + Decode(e[3..]);
        UpperHexIsBack(e[1], e[2]);
        assert e == [PERCENT, e[1], e[2]] + e[3..];
      }
    }
  }

  lemma PercentIsUnsafe(t: Table)
    ensures !IsSafe(t, PERCENT)
  {
  }

  /** A string is the encoding of something exactly when it is canonical, and then of one string only. */
  lemma EncodingsAreCanonical(t: Table, e: seq<byte>)
    ensures Canonical(t, e) <==> exists s :: Encode(t, s) == e
    ensures forall s, s' :: Encode(t, s) == e && Encode(t, s') == e ==> s == s'
  {
    if Canonical(t, e) {
      CanonicalIsEncoded(t, e);
    }
    forall s | Encode(t, s) == e ensures Canonical(t, e) && s == Decode(e) {
      EncodedIsCanonical(t, s);
      RoundTrip(t, s);
    }
  }

  /** Decoding changes a string exactly when it contains a percent sign with two hexadecimal digits. */
  lemma {:induction false} DecodeIsIdentity(s: seq<byte>)
    ensures Decode(s) == s <==> forall i: nat :: !Triple(s, i)
  {
    if s != [] {
      if Triple(s, 0) {
        assert |Decode(s)| < |s|;
      } else {
        DecodeIsIdentity(s[1..]);
        assert s == [s[0]] + s[1..];
        assert forall i: nat :: Triple(s[1..], i) <==> Triple(s, i + 1);
        assert Decode(s)[1..] == Decode(s[1..]);
        if forall i: nat :: !Triple(s[1..], i) {
          assert forall i: nat :: i > 0 ==> !Triple(s, i) by {
            forall i: nat | i > 0 ensures !Triple(s, i) {
              assert !Triple(s[1..], i - 1);
            }
          }
        }
      }
    }
  }

  // ---------------------------------------------------------------- wide characters

  /** The cast of a wide character to char. */
  function Low(s: seq<wide>): (r: seq<byte>)
    ensures |r| == |s| && forall i :: 0 <= i < |s| ==> r[i] as int == s[i] as int % 256
  {
    seq(|s|, i requires 0 <= i < |s| => (s[i] as int % 256) as byte)
  }

  function Widen(s: seq<byte>): (r: seq<wide>)
    ensures |r| == |s| && forall i :: 0 <= i < |s| ==> r[i] as int == s[i] as int
  {
    seq(|s|, i requires 0 <= i < |s| => s[i] as wide)
  }

  /** UriEncodeS3 looks at the whole character but escapes only its low byte. */
  function CodeWide(encodeSlash: bool, ch: wide): seq<byte> {
    if ch < 256 then Code(S3(encodeSlash), ch as byte) else Escape((ch as int % 256) as byte)
  }

  function EncodeS3(encodeSlash: bool, s: seq<wide>): seq<byte> {
    if s == [] then [] else CodeWide(encodeSlash, s[0]) + EncodeS3(encodeSlash, s[1..])
  }

  /** The tests of the loop, and the only two shapes of its output. */
  lemma CodeWideCases(encodeSlash: bool, ch: wide)
    ensures var plain := 0x41 <= ch <= 0x5A || 0x61 <= ch <= 0x7A || 0x30 <= ch <= 0x39 || ch in {0x5F, 0x2D, 0x7E, 0x2E} || (ch == 0x2F && !encodeSlash);
      var low := (ch as int % 256) as byte;
      && CodeWide(encodeSlash, ch) == (if plain then [low] else Escape(low))
      && (plain ==> ch < 256 && low != PERCENT)
  {
    hide Escape;
  }

  lemma EncodeS3Step(encodeSlash: bool, s: seq<wide>, i: nat, done: seq<byte>)
    requires i < |s|
    ensures done + EncodeS3(encodeSlash, s[i..]) == (done + CodeWide(encodeSlash, s[i])) + EncodeS3(encodeSlash, s[i + 1..])
  {
    hide CodeWide;
    assert s[i..][0] == s[i] && s[i..][1..] == s[i + 1..];
  }

  lemma EncodeS3Ends(encodeSlash: bool, s: seq<wide>, done: seq<byte>)
    ensures done + EncodeS3(encodeSlash, s[|s|..]) == done && [] + EncodeS3(encodeSlash, s[0..]) == EncodeS3(encodeSlash, s)
  {
    assert s[0..] == s && s[|s|..] == [];
  }

  method UriEncodeS3(source: seq<wide>, encodeSlash: bool) returns (r: seq<byte>)
    ensures r == EncodeS3(encodeSlash, source)
  {
    hide EncodeS3, CodeWide, Escape;
    r := [];
    var i := 0;
    EncodeS3Ends(encodeSlash, source, []);
    while i < |source|
      invariant i <= |source|
      invariant r + EncodeS3(encodeSlash, source[i..]) == EncodeS3(encodeSlash, source)
    {
      var ch := source[i];
      CodeWideCases(encodeSlash, ch);
      EncodeS3Step(encodeSlash, source, i, r);
      if 0x41 <= ch <= 0x5A || 0x61 <= ch <= 0x7A || 0x30 <= ch <= 0x39 || ch == 0x5F || ch == 0x2D || ch == 0x7E || ch == 0x2E {
        r := r + [ch as byte];
      } else if ch == 0x2F && !encodeSlash {
        r := r + [ch as byte];
      } else {
        r := r + Escape((ch as int % 256) as byte);
      }
      i := i + 1;
    }
    EncodeS3Ends(encodeSlash, source, r);
  }

  lemma {:induction false} DecodeS3(encodeSlash: bool, s: seq<wide>)
    ensures Decode(EncodeS3(encodeSlash, s)) == Low(s)
  {
    if s != [] {
      hide CodeWide, Escape, Decode;
      DecodeS3(encodeSlash, s[1..]);
      var c := (s[0] as int % 256) as byte;
      CodeWideCases(encodeSlash, s[0]);
      DecodeAppends(CodeWide(encodeSlash, s[0]), EncodeS3(encodeSlash, s[1..]), c);
      assert Low(s) == [c] + Low(s[1..]);
    }
  }

  /** The S3 encoder can be undone exactly when every character fits into a byte. */
  lemma S3RoundTrip(encodeSlash: bool, s: seq<wide>)
    ensures Widen(Decode(EncodeS3(encodeSlash, s))) == s <==> forall i :: 0 <= i < |s| ==> s[i] < 256
  {
    hide Decode, EncodeS3;
    DecodeS3(encodeSlash, s);
    var back := Widen(Low(s));
    forall i | 0 <= i < |s| ensures back[i] == s[i] <==> s[i] < 256 {
      assert back[i] as int == s[i] as int % 256;
    }
  }
}
