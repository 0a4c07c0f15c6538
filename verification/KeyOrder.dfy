/** Object keys in the order of CString::Compare, and what list::sort and list::unique make of them. */
module KeyOrder {

  type Key = string

  predicate Less(a: Key, b: Key) {
    b != [] && (a == [] || a[0] < b[0] || (a[0] == b[0] && Less(a[1..], b[1..])))
  }

  predicate Extends(child: Key, parent: Key) {
    |child| > |parent| && child[..|parent|] == parent
  }

  lemma {:induction false} ExtensionIsGreater(child: Key, parent: Key)
    requires Extends(child, parent)
    ensures Less(parent, child)
  {
    if parent != [] {
      assert child[0] == parent[0] by { assert child[..|parent|][0] == parent[0]; }
      assert child[1..][..|parent[1..]|] == child[..|parent|][1..];
      ExtensionIsGreater(child[1..], parent[1..]);
    }
  }

  lemma {:induction false} LessIsTotal(a: Key, b: Key)
    ensures a == b || Less(a, b) || Less(b, a)
    ensures !(Less(a, b) && Less(b, a)) && !Less(a, a)
  {
    if a != [] && b != [] && a[0] == b[0] {
      LessIsTotal(a[1..], b[1..]);
      assert a == [a[0]] + a[1..] && b == [b[0]] + b[1..];
    }
    if a != [] {
      LessIsIrreflexive(a);
    }
  }

  lemma {:induction false} LessIsIrreflexive(a: Key)
    ensures !Less(a, a)
  {
    if a != [] {
      LessIsIrreflexive(a[1..]);
    }
  }

  lemma {:induction false} LessIsTransitive(a: Key, b: Key, c: Key)
    requires Less(a, b) && Less(b, c)
    ensures Less(a, c)
  {
    if a != [] && a[0] == b[0] == c[0] {
      LessIsTransitive(a[1..], b[1..], c[1..]);
    }
  }

  function Insert(k: Key, s: seq<Key>): seq<Key> {
    if s == [] || Less(k, s[0]) then [k] + s else [s[0]] + Insert(k, s[1..])
  }

  function Sort(s: seq<Key>): seq<Key> {
    if s == [] then [] else Insert(s[0], Sort(s[1..]))
  }

  /** Remove the repetitions of each run of equal keys. */
  function Unique(s: seq<Key>): seq<Key> {
    if |s| < 2 then s
    else if s[0] == s[1] then Unique(s[1..])
    else [s[0]] + Unique(s[1..])
  }

  ghost predicate Ordered(s: seq<Key>) {
    forall i, j :: 0 <= i < j < |s| ==> !Less(s[j], s[i])
  }

  ghost predicate Ascending(s: seq<Key>) {
    forall i, j :: 0 <= i < j < |s| ==> Less(s[i], s[j])
  }

  ghost function Keys(s: seq<Key>): set<Key> { set k | k in s }

  lemma KeysOfCons(k: Key, t: seq<Key>)
    ensures Keys([k] + t) == {k} + Keys(t)
  {
    assert forall x :: x in [k] + t <==> x == k || x in t;
  }

  lemma OrderedCons(k: Key, t: seq<Key>)
    requires Ordered(t) && forall x :: x in t ==> !Less(x, k)
    ensures Ordered([k] + t)
  {
    var s := [k] + t;
    forall i, j | 0 <= i < j < |s| ensures !Less(s[j], s[i]) {
      assert s[j] == t[j - 1];
      if i > 0 { assert s[i] == t[i - 1]; }
    }
  }

  lemma AscendingCons(k: Key, t: seq<Key>)
    requires Ascending(t) && forall x :: x in t ==> Less(k, x)
    ensures Ascending([k] + t)
  {
    var s := [k] + t;
    forall i, j | 0 <= i < j < |s| ensures Less(s[i], s[j]) {
      assert s[j] == t[j - 1];
      if i > 0 { assert s[i] == t[i - 1]; }
    }
  }

  lemma {:induction false} InsertKeeps(k: Key, s: seq<Key>)
    requires Ordered(s)
    ensures Ordered(Insert(k, s)) && Keys(Insert(k, s)) == {k} + Keys(s) && |Insert(k, s)| == |s| + 1
  {
    if s == [] || Less(k, s[0]) {
      forall j | 0 <= j < |s| ensures !Less(s[j], k) {
        LessIsIrreflexive(s[0]);
        if Less(s[j], k) { LessIsTransitive(s[j], k, s[0]); }
      }
      KeysOfCons(k, s);
      OrderedCons(k, s);
    } else {
      InsertKeeps(k, s[1..]);
      var t := Insert(k, s[1..]);
      KeysOfCons(s[0], s[1..]);
      assert s == [s[0]] + s[1..];
      forall x | x in t ensures !Less(x, s[0]) {
        assert x in Keys(t);
      }
      KeysOfCons(s[0], t);
      OrderedCons(s[0], t);
    }
  }

  lemma {:induction false} SortSorts(s: seq<Key>)
    ensures Ordered(Sort(s)) && Keys(Sort(s)) == Keys(s) && |Sort(s)| == |s|
  {
    if s != [] {
      SortSorts(s[1..]);
      InsertKeeps(s[0], Sort(s[1..]));
      KeysOfCons(s[0], s[1..]);
      assert s == [s[0]] + s[1..];
    }
  }

  lemma {:induction false} UniqueOfOrdered(s: seq<Key>)
    requires Ordered(s)
    ensures Ascending(Unique(s)) && Keys(Unique(s)) == Keys(s) && |Unique(s)| <= |s|
    ensures s != [] ==> Unique(s) != [] && Unique(s)[0] == s[0]
  {
    if |s| >= 2 {
      UniqueOfOrdered(s[1..]);
      KeysOfCons(s[0], s[1..]);
      assert s == [s[0]] + s[1..];
      if s[0] != s[1] {
        var t := Unique(s[1..]);
        LessIsTotal(s[0], s[1]);
        forall x | x in t ensures Less(s[0], x) {
          var j :| 0 <= j < |t| && t[j] == x;
          if j > 0 {
            LessIsTransitive(s[0], t[0], t[j]);
          }
        }
        KeysOfCons(s[0], t);
        AscendingCons(s[0], t);
      }
    }
  }
}
