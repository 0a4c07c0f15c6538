/**
 The strings that a request signature covers (signRequestS3v2 and CheckQuery in
 ECSUtil/ECSConnection.cpp; Amazon S3 REST Authentication, AWS Signature Version 2): the
 CanonicalizedResource element with the signed query parameters, and the values of extension headers.
 */
module Canonical {
  import opened KeyOrder

  /** The query parameters that a signature covers. */
  predicate Signed(name: Key) {
    name in
    { "acl", "lifecycle", "searchmetadata", "location", "logging", "notification", "partnumber", "policy",
      "requestpayment", "torrent", "uploadid", "uploads", "versionid", "versioning", "versions", "website",
      "response-content-type", "response-content-language", "response-expires", "response-cache-control",
      "response-content-disposition", "response-content-encoding", "delete", "endpoint", "query" }
  }

  // ---------------------------------------------------------------- parameter names

  predicate Blank(c: char) { c == ' ' || '\t' <= c <= '\r' }

  function LowerChar(c: char): char { if 'A' <= c <= 'Z' then c - 'A' + 'a' else c }

  function Lower(s: string): string
  {
    if s == [] then [] else [LowerChar(s[0])] + Lower(s[1..])
  }

  function TrimLeft(s: string): (r: string)
    ensures |r| <= |s| && r == s[|s| - |r|..] && (r != [] ==> !Blank(r[0]))
  {
    if s != [] && Blank(s[0]) then TrimLeft(s[1..]) else s
  }

  function TrimRight(s: string): (r: string)
    ensures |r| <= |s| && r == s[..|r|] && (r != [] ==> !Blank(r[|r| - 1]))
  {
    if s != [] && Blank(s[|s| - 1]) then TrimRight(s[..|s| - 1]) else s
  }

  /** Position of the first such character, or -1. */
  function Find(s: string, c: char): (i: int)
    ensures -1 <= i < |s|
    ensures i == -1 <==> c !in s
    ensures i >= 0 ==> s[i] == c && c !in s[..i]
  {
    if s == [] then -1
    else if s[0] == c then 0
    else
      var i := Find(s[1..], c);
      assert i >= 0 ==> s[..i + 1] == [s[0]] + s[1..][..i];
      if i < 0 then -1 else i + 1
  }

  /** The name of a parameter: what stands before '=', in lower case and trimmed. */
  function Name(query: string): string {
    var i := Find(query, '=');
    TrimRight(TrimLeft(Lower(if i < 0 then query else query[..i])))
  }

  ghost predicate AllBlank(s: string) { forall i :: 0 <= i < |s| ==> Blank(s[i]) }

  lemma {:induction false} LowerAppend(a: string, b: string)
    ensures Lower(a + b) == Lower(a) + Lower(b)
  {
    if a == [] {
      assert a + b == b;
    } else {
      assert (a + b)[1..] == a[1..] + b;
      LowerAppend(a[1..], b);
    }
  }

  lemma {:induction false} LowerOfBlank(s: string)
    requires AllBlank(s)
    ensures Lower(s) == s
  {
    if s != [] {
      LowerOfBlank(s[1..]);
      assert s == [s[0]] + s[1..];
    }
  }

  lemma {:induction false} LowerEnds(s: string)
    requires s != []
    ensures |Lower(s)| == |s| && Lower(s)[0] == LowerChar(s[0]) && Lower(s)[|s| - 1] == LowerChar(s[|s| - 1])
  {
    if |s| > 1 {
      LowerEnds(s[1..]);
    }
  }

  lemma {:induction false} TrimLeftDrops(b: string, s: string)
    requires AllBlank(b) && s != [] && !Blank(s[0])
    ensures TrimLeft(b + s) == s
  {
    if b == [] {
      assert b + s == s;
    } else {
      assert (b + s)[1..] == b[1..] + s;
      TrimLeftDrops(b[1..], s);
    }
  }

  lemma {:induction false} TrimRightDrops(s: string, b: string)
    requires AllBlank(b) && s != [] && !Blank(s[|s| - 1])
    ensures TrimRight(s + b) == s
  {
    if b == [] {
      assert s + b == s;
    } else {
      var n := |b| - 1;
      assert (s + b)[..|s + b| - 1] == s + b[..n];
      TrimRightDrops(s, b[..n]);
    }
  }

  lemma FindIsFirst(s: string, c: char, i: nat)
    requires i < |s| && s[i] == c && c !in s[..i]
    ensures Find(s, c) == i
  {
    var j := Find(s, c);
    assert forall k :: 0 <= k < i ==> s[..i][k] == s[k] && s[k] in s[..i];
    assert forall k :: 0 <= k < j ==> s[..j][k] == s[k] && s[k] in s[..j];
  }

  lemma LowerOfThree(before: string, name: string, after: string)
    requires AllBlank(before) && AllBlank(after)
    ensures Lower(before + name + after) == before + (Lower(name) + after)
  {
    hide Lower, AllBlank;
    LowerAppend(before + name, after);
    LowerAppend(before, name);
    LowerOfBlank(before);
    LowerOfBlank(after);
    var low := Lower(name);
    assert (before + low) + after == before + (low + after);
  }

  lemma LowerWithBlanks(before: string, name: string, after: string)
    requires AllBlank(before) && AllBlank(after) && name != [] && !Blank(name[0]) && !Blank(name[|name| - 1])
    ensures TrimRight(TrimLeft(Lower(before + name + after))) == Lower(name)
  {
    hide Lower, TrimLeft, TrimRight, AllBlank;
    var low := Lower(name);
    LowerEnds(name);
    assert !Blank(low[0]) && !Blank(low[|low| - 1]);
    LowerOfThree(before, name, after);
    TrimLeftDrops(before, low + after);
    TrimRightDrops(low, after);
  }

  lemma NoEquals(before: string, name: string, after: string)
    requires AllBlank(before) && AllBlank(after) && '=' !in name
    ensures '=' !in before + name + after
  {
    assert forall c :: c in before + name + after ==> c in before || c in name || c in after;
  }

  /** Neither the case of a name nor blanks around it matter, nor what stands behind the '='. */
  lemma NameIsPlain(before: string, name: string, after: string, value: string)
    requires AllBlank(before) && AllBlank(after) && name != [] && !Blank(name[0]) && !Blank(name[|name| - 1]) && '=' !in name
    ensures Name(before + name + after) == Lower(name)
    ensures Name(before + name + after + "=" + value) == Lower(name)
  {
    hide Lower, TrimLeft, TrimRight, Find;
    var s := before + name + after;
    NoEquals(before, name, after);
    LowerWithBlanks(before, name, after);
    var q := s + "=" + value;
    assert q[..|s|] == s && q[|s|] == '=';
    FindIsFirst(q, '=', |s|);
  }

  // ---------------------------------------------------------------- tokens

  predicate Delim(c: char) { c == '?' || c == '&' }

  ghost predicate IsToken(q: string) { q != [] && forall i :: 0 <= i < |q| ==> !Delim(q[i]) }

  function TokenEnd(s: string): (n: nat)
    ensures n <= |s| && (forall i :: 0 <= i < n ==> !Delim(s[i])) && (n < |s| ==> Delim(s[n]))
  {
    if s == [] || Delim(s[0]) then 0 else 1 + TokenEnd(s[1..])
  }

  /** What repeated calls of Tokenize deliver. */
  function Tokens(s: string): (ts: seq<string>)
    ensures forall t :: t in ts ==> IsToken(t)
    decreases |s|
  {
    if s == [] then []
    else if Delim(s[0]) then Tokens(s[1..])
    else
      var n := TokenEnd(s);
      [s[..n]] + Tokens(s[n..])
  }

  function Join(ts: seq<string>, first: bool): string {
    if ts == [] then "" else (if first then "?" else "&") + ts[0] + Join(ts[1..], false)
  }

  lemma TokensOfHead(q: string, rest: string)
    requires IsToken(q) && (rest != "" ==> Delim(rest[0]))
    ensures Tokens(q + rest) == [q] + Tokens(rest)
  {
    var s := q + rest;
    assert forall i :: 0 <= i < |q| ==> s[i] == q[i];
    assert rest != "" ==> s[|q|] == rest[0];
    assert TokenEnd(s) == |q|;
    assert s[..|q|] == q && s[|q|..] == rest;
  }

  lemma {:induction false} TokensOfJoin(ts: seq<string>, first: bool)
    requires forall t :: t in ts ==> IsToken(t)
    ensures Tokens(Join(ts, first)) == ts
    decreases |ts|
  {
    if ts != [] {
      TokensOfJoin(ts[1..], false);
      var rest := Join(ts[1..], false);
      TokensOfHead(ts[0], rest);
      var c := if first then "?" else "&";
      assert Join(ts, first) == c + (ts[0] + rest);
      assert (c + (ts[0] + rest))[1..] == ts[0] + rest;
    }
  }

  // ---------------------------------------------------------------- the map of signed parameters

  /** CheckQuery on each token in turn; `insert` keeps the first of equal names. */
  function Build(ts: seq<string>): map<Key, string>
  {
    if ts == [] then map[]
    else
      var m := Build(ts[1..]);
      if Signed(Name(ts[0])) then m[Name(ts[0]) := ts[0]] else m
  }

  ghost predicate IsLeast(k: Key, s: set<Key>) {
    k in s && forall x :: x in s && x != k ==> Less(k, x)
  }

  lemma LeastWithOne(s: set<Key>, k: Key, y: Key)
    requires IsLeast(k, s) && y !in s
    ensures IsLeast(if Less(y, k) then y else k, s + {y})
  {
    LessIsTotal(k, y);
    if Less(y, k) {
      forall x | x in s && x != k ensures Less(y, x) {
        LessIsTransitive(y, k, x);
      }
    }
  }

  lemma {:induction false} LeastExists(s: set<Key>)
    requires s != {}
    ensures exists k :: IsLeast(k, s)
  {
    hide Less;
    var y :| y in s;
    var rest := s - {y};
    assert s == rest + {y};
    if rest == {} {
      assert IsLeast(y, s);
    } else {
      LeastExists(rest);
      var k :| IsLeast(k, rest);
      LeastWithOne(rest, k, y);
    }
  }

  ghost function Least(s: set<Key>): (k: Key)
    requires s != {}
    ensures IsLeast(k, s)
  {
    LeastExists(s);
    var k :| IsLeast(k, s);
    k
  }

  lemma LeastIsUnique(s: set<Key>, k: Key)
    requires IsLeast(k, s)
    ensures k == Least(s)
  {
    LessIsTotal(k, Least(s));
  }

  /** The values in the order of their keys, as an iteration over the map meets them. */
  ghost function InOrder(m: map<Key, string>): seq<string>
    decreases |m|
  {
    if m == map[] then []
    else
      var k := Least(m.Keys);
      assert |m - {k}| < |m| by { assert (m - {k}).Keys == m.Keys - {k}; }
      [m[k]] + InOrder(m - {k})
  }

  /** The CanonicalizedResource element. */
  ghost function Resource(path: string, ts: seq<string>): string {
    path + Join(InOrder(Build(ts)), true)
  }

  ghost function Canon(resource: string): string {
    var i := Find(resource, '?');
    if i < 0 then resource else Resource(resource[..i], Tokens(resource[i..]))
  }

  // ---------------------------------------------------------------- the method

  method CheckQuery(query: string, queryMap: map<Key, string>) returns (m: map<Key, string>)
    ensures m == if Signed(Name(query)) && Name(query) !in queryMap then queryMap[Name(query) := query] else queryMap
  {
    hide Signed;
    var equal := Find(query, '=');
    var token := if equal < 0 then query else query[..equal];
    token := Lower(token);
    token := TrimLeft(token);
    token := TrimRight(token);
    m := queryMap;
    if Signed(token) && token !in m {
      m := m[token := query];
    }
  }

  lemma SkipDelim(s: string, i: nat)
    requires i < |s| && Delim(s[i])
    ensures Tokens(s[i..]) == Tokens(s[i + 1..])
  {
    assert s[i..][1..] == s[i + 1..];
  }

  lemma TokenAt(s: string, start: nat, next: nat)
    requires start <= next <= |s| && (forall i :: start <= i < next ==> !Delim(s[i])) && (next < |s| ==> Delim(s[next]))
    requires start == next ==> start == |s|
    ensures Tokens(s[start..]) == if start == next then [] else [s[start..next]] + Tokens(s[next..])
  {
    if start < next {
      assert s[start..] == s[start..next] + s[next..];
      TokensOfHead(s[start..next], s[next..]);
    }
  }

  /** Tokenize: skip delimiters, then take everything up to the next one. */
  method Tokenize(s: string, pos: nat) returns (token: string, next: nat)
    requires pos <= |s|
    ensures pos <= next <= |s|
    ensures token == "" <==> Tokens(s[pos..]) == []
    ensures token != "" ==> next > pos && Tokens(s[pos..]) == [token] + Tokens(s[next..])
  {
    hide Tokens;
    var start := pos;
    while start < |s| && Delim(s[start])
      invariant pos <= start <= |s| && Tokens(s[start..]) == Tokens(s[pos..])
    {
      SkipDelim(s, start);
      start := start + 1;
    }
    next := start;
    while next < |s| && !Delim(s[next])
      invariant start <= next <= |s| && forall i :: start <= i < next ==> !Delim(s[i])
      invariant start < |s| && next == start ==> !Delim(s[start])
    {
      next := next + 1;
    }
    TokenAt(s, start, next);
    token := s[start..next];
  }

  lemma {:induction false} BuildLast(ts: seq<string>, t: string)
    ensures Build(ts + [t]) == if Signed(Name(t)) && Name(t) !in Build(ts) then Build(ts)[Name(t) := t] else Build(ts)
  {
    hide Signed, Name;
    if ts != [] {
      BuildLast(ts[1..], t);
      assert (ts + [t])[1..] == ts[1..] + [t];
    }
  }

  /** The least key of a map: where an iteration over it stands next. */
  method NextKey(keys: set<Key>) returns (k: Key)
    requires keys != {}
    ensures k == Least(keys)
  {
    hide Less;
    k :| k in keys;
    var seen, todo := {k}, keys - {k};
    assert IsLeast(k, seen) && seen + todo == keys;
    hide IsLeast, Least;
    while todo != {}
      invariant seen + todo == keys && seen !! todo && IsLeast(k, seen)
      decreases |todo|
    {
      var x :| x in todo;
      LeastWithOne(seen, k, x);
      if Less(x, k) {
        k := x;
      }
      seen, todo := seen + {x}, todo - {x};
    }
    assert seen == keys;
    LeastIsUnique(keys, k);
  }

  /** The loop over the query string. */
  method ReadQuery(queryString: string) returns (queryMap: map<Key, string>)
    ensures queryMap == Build(Tokens(queryString))
  {
    hide Signed, Name, Tokens;
    var pos := 0;
    queryMap := map[];
    ghost var done: seq<string> := [];
    assert queryString[0..] == queryString && done + Tokens(queryString) == Tokens(queryString);
    while true
      invariant pos <= |queryString| && queryMap == Build(done)
      invariant done + Tokens(queryString[pos..]) == Tokens(queryString)
      decreases |queryString| - pos
    {
      var query, next := Tokenize(queryString, pos);
      if query == "" {
        break;
      }
      queryMap := CheckQuery(query, queryMap);
      BuildLast(done, query);
      assert done + ([query] + Tokens(queryString[next..])) == (done + [query]) + Tokens(queryString[next..]);
      done := done + [query];
      pos := next;
    }
    assert done + [] == done;
  }

  /** The loop over the map. */
  method WriteQuery(path: string, m: map<Key, string>) returns (r: string)
    ensures r == path + Join(InOrder(m), true)
  {
    var queryMap, first := m, true;
    r := path;
    while queryMap != map[]
      invariant r + Join(InOrder(queryMap), first) == path + Join(InOrder(m), true)
      decreases |queryMap|
    {
      var k := NextKey(queryMap.Keys);
      WriteStep(r, queryMap, k, first);
      r := r + (if first then "?" else "&");
      r := r + queryMap[k];
      assert (queryMap - {k}).Keys == queryMap.Keys - {k};
      queryMap := queryMap - {k};
      first := false;
    }
    assert r + "" == r;
  }

  lemma WriteStep(r: string, m: map<Key, string>, k: Key, first: bool)
    requires m != map[] && k == Least(m.Keys)
    ensures r + Join(InOrder(m), first) == ((r + (if first then "?" else "&")) + m[k]) + Join(InOrder(m - {k}), false)
  {
    var rest := InOrder(m - {k});
    assert InOrder(m) == [m[k]] + rest;
    assert ([m[k]] + rest)[1..] == rest;
  }

  method CanonicalizedResource(resource: string) returns (r: string)
    ensures r == Canon(resource)
  {
    r := resource;
    var question := Find(r, '?');
    if question >= 0 {
      var queryMap := ReadQuery(r[question..]);
      r := WriteQuery(r[..question], queryMap);
    }
  }

  // ---------------------------------------------------------------- results

  /** No two different parameters share a signed name. */
  ghost predicate Consistent(ts: seq<string>) {
    forall i, j :: 0 <= i < j < |ts| && Signed(Name(ts[i])) && Name(ts[i]) == Name(ts[j]) ==> ts[i] == ts[j]
  }

  /** The first parameter with this name. */
  lemma {:induction false} BuildIsFirst(ts: seq<string>, k: Key)
    ensures k in Build(ts) <==> Signed(k) && exists i :: 0 <= i < |ts| && Name(ts[i]) == k
    ensures k in Build(ts) ==> exists i :: 0 <= i < |ts| && Name(ts[i]) == k && Build(ts)[k] == ts[i]
    ensures ts != [] && Signed(k) && Name(ts[0]) == k ==> k in Build(ts) && Build(ts)[k] == ts[0]
  {
    hide Signed, Name;
    if ts != [] {
      BuildIsFirst(ts[1..], k);
      assert forall i :: 1 <= i < |ts| ==> ts[i] == ts[1..][i - 1];
      if k in Build(ts[1..]) {
        var i :| 0 <= i < |ts[1..]| && Name(ts[1..][i]) == k && Build(ts[1..])[k] == ts[1..][i];
        assert ts[i + 1] == ts[1..][i];
      }
    }
  }

  /** With consistent parameters the map holds every signed parameter under its name. */
  lemma BuildHolds(ts: seq<string>, t: string)
    requires Consistent(ts) && t in ts && Signed(Name(t))
    ensures Name(t) in Build(ts) && Build(ts)[Name(t)] == t
  {
    hide Signed, Name;
    BuildIsFirst(ts, Name(t));
    var j :| 0 <= j < |ts| && ts[j] == t;
    var i :| 0 <= i < |ts| && Name(ts[i]) == Name(t) && Build(ts)[Name(t)] == ts[i];
    assert i < j || j < i || i == j;
  }

  lemma SameElements(a: seq<string>, b: seq<string>, t: string)
    requires multiset(a) == multiset(b)
    ensures t in a <==> t in b
  {
    assert t in a <==> t in multiset(a);
    assert t in b <==> t in multiset(b);
  }

  lemma BuildPermuted(a: seq<string>, b: seq<string>)
    requires multiset(a) == multiset(b) && Consistent(a)
    ensures Build(a) == Build(b)
  {
    hide Signed, Name;
    forall k ensures (k in Build(a) <==> k in Build(b)) && (k in Build(b) ==> k in Build(a) && Build(a)[k] == Build(b)[k]) {
      BuildIsFirst(a, k);
      BuildIsFirst(b, k);
      if k in Build(b) {
        var i :| 0 <= i < |b| && Name(b[i]) == k && Build(b)[k] == b[i];
        SameElements(a, b, b[i]);
        BuildHolds(a, b[i]);
      }
      if k in Build(a) {
        var i :| 0 <= i < |a| && Name(a[i]) == k && Build(a)[k] == a[i];
        SameElements(a, b, a[i]);
      }
    }
  }

  /** Bring one parameter to the front. */
  function ToFront(ts: seq<string>, i: nat): (r: seq<string>)
    requires i < |ts|
    ensures multiset(r) == multiset(ts) && r[0] == ts[i]
  {
    assert ts == ts[..i] + [ts[i]] + ts[i + 1..];
    [ts[i]] + ts[..i] + ts[i + 1..]
  }

  /**
   The canonical resource does not depend on the order of the parameters exactly when no two
   different parameters share a signed name.
   */
  lemma OrderDoesNotMatter(path: string, ts: seq<string>)
    requires forall t :: t in ts ==> IsToken(t)
    ensures (forall p :: multiset(p) == multiset(ts) ==> Resource(path, p) == Resource(path, ts)) <==> Consistent(ts)
  {
    hide Signed, Name, Tokens, Join, InOrder, IsToken;
    if Consistent(ts) {
      forall p | multiset(p) == multiset(ts) ensures Resource(path, p) == Resource(path, ts) {
        BuildPermuted(ts, p);
      }
    } else {
      var i, j :| 0 <= i < j < |ts| && Signed(Name(ts[i])) && Name(ts[i]) == Name(ts[j]) && ts[i] != ts[j];
      var p, q, k := ToFront(ts, i), ToFront(ts, j), Name(ts[i]);
      BuildIsFirst(p, k);
      BuildIsFirst(q, k);
      AllTokens(ts, p);
      AllTokens(ts, q);
      if Resource(path, p) == Resource(path, q) {
        ResourceDetermines(path, p, q);
      }
    }
  }

  lemma AllTokens(a: seq<string>, b: seq<string>)
    requires multiset(a) == multiset(b) && forall t :: t in a ==> IsToken(t)
    ensures forall t :: t in b ==> IsToken(t)
  {
    forall t | t in b ensures IsToken(t) {
      SameElements(a, b, t);
    }
  }

  /** Parameters that are not signed do not matter. */
  lemma {:induction false} UnsignedDoesNotMatter(a: seq<string>, t: string, b: seq<string>)
    requires !Signed(Name(t))
    ensures Build(a + [t] + b) == Build(a + b)
  {
    hide Signed, Name;
    if a == [] {
      assert a + [t] + b == [t] + b && a + b == b && ([t] + b)[1..] == b;
    } else {
      UnsignedDoesNotMatter(a[1..], t, b);
      assert (a + [t] + b)[1..] == a[1..] + [t] + b && (a + b)[1..] == a[1..] + b;
    }
  }

  ghost predicate NamedByKey(m: map<Key, string>) {
    forall k :: k in m ==> Signed(k) && Name(m[k]) == k && IsToken(m[k])
  }

  lemma BuildIsNamed(ts: seq<string>)
    requires forall t :: t in ts ==> IsToken(t)
    ensures NamedByKey(Build(ts))
  {
    hide Signed, Name, IsToken;
    forall k | k in Build(ts) ensures Signed(k) && Name(Build(ts)[k]) == k && IsToken(Build(ts)[k]) {
      BuildIsFirst(ts, k);
    }
  }

  /** Reading back the written map. */
  lemma {:induction false} BuildInOrder(m: map<Key, string>)
    requires NamedByKey(m)
    ensures Build(InOrder(m)) == m && forall t :: t in InOrder(m) ==> IsToken(t)
    decreases |m|
  {
    hide Signed, Name, IsToken;
    if m != map[] {
      var k := Least(m.Keys);
      assert (m - {k}).Keys == m.Keys - {k};
      BuildInOrder(m - {k});
      var rest := InOrder(m - {k});
      assert InOrder(m) == [m[k]] + rest && ([m[k]] + rest)[1..] == rest;
      assert m == (m - {k})[k := m[k]];
    }
  }

  /** Different maps give different resources. */
  lemma ResourceDetermines(path: string, p: seq<string>, q: seq<string>)
    requires (forall t :: t in p ==> IsToken(t)) && (forall t :: t in q ==> IsToken(t))
    requires Resource(path, p) == Resource(path, q)
    ensures Build(p) == Build(q)
  {
    hide Signed, Name, IsToken, Tokens, Join, InOrder, Build;
    BuildIsNamed(p);
    BuildIsNamed(q);
    BuildInOrder(Build(p));
    BuildInOrder(Build(q));
    TokensOfJoin(InOrder(Build(p)), true);
    TokensOfJoin(InOrder(Build(q)), true);
    var a, b := Join(InOrder(Build(p)), true), Join(InOrder(Build(q)), true);
    assert (path + a)[|path|..] == a && (path + b)[|path|..] == b;
  }

  /** A resource written from a list of parameters is read as that list. */
  lemma CanonOfList(path: string, ts: seq<string>)
    requires '?' !in path && forall t :: t in ts ==> IsToken(t)
    ensures Canon(path + Join(ts, true)) == Resource(path, ts)
  {
    hide Signed, Name, Tokens, InOrder;
    var s := path + Join(ts, true);
    if ts == [] {
      assert s == path;
      assert Build(ts) == map[] && InOrder(map[]) == [] by { NothingSigned(); }
      assert Resource(path, ts) == path + "";
    } else {
      var i := Find(s, '?');
      assert s[|path|] == '?';
      assert forall j :: 0 <= j < |path| ==> s[j] == path[j];
      assert i == |path|;
      assert s[..i] == path && s[i..] == Join(ts, true);
      TokensOfJoin(ts, true);
    }
  }

  lemma NothingSigned()
    ensures Build([]) == map[] && InOrder(map[]) == []
  {
  }

  /** Canonicalizing twice is canonicalizing once, for every resource string. */
  lemma CanonIsIdempotent(resource: string)
    ensures Canon(Canon(resource)) == Canon(resource)
  {
    hide Signed, Name, Tokens, InOrder, Join, Build;
    var i := Find(resource, '?');
    if i >= 0 {
      var path, m := resource[..i], Build(Tokens(resource[i..]));
      BuildIsNamed(Tokens(resource[i..]));
      BuildInOrder(m);
      CanonOfList(path, InOrder(m));
    }
  }

  // ---------------------------------------------------------------- header values

  predicate DoubleAt(s: string, i: int) { 0 <= i < |s| - 1 && s[i] == ' ' && s[i + 1] == ' ' }

  ghost predicate NoDoubleBlank(s: string) { forall i :: !DoubleAt(s, i) }

  lemma SliceHasNoDouble(s: string, a: nat, b: nat)
    requires NoDoubleBlank(s) && a <= b <= |s|
    ensures NoDoubleBlank(s[a..b])
  {
    forall i ensures !DoubleAt(s[a..b], i) {
      assert !DoubleAt(s, a + i);
    }
  }

  /** Every run of blanks as one blank. */
  function Collapse(s: string): string {
    if |s| < 2 then s
    else if s[0] == ' ' && s[1] == ' ' then Collapse(s[1..])
    else [s[0]] + Collapse(s[1..])
  }

  /** Position of the first double blank, or -1. */
  function FindDouble(s: string): (i: int)
    ensures i == -1 || DoubleAt(s, i)
    ensures i == -1 <==> NoDoubleBlank(s)
  {
    if |s| < 2 then -1
    else if DoubleAt(s, 0) then 0
    else
      var i := FindDouble(s[1..]);
      assert forall j :: DoubleAt(s, j) && j > 0 ==> DoubleAt(s[1..], j - 1);
      assert DoubleAt(s[1..], i) ==> DoubleAt(s, i + 1);
      if i < 0 then -1 else i + 1
  }

  lemma {:induction false} CollapseAfterDelete(s: string, i: nat)
    requires DoubleAt(s, i)
    ensures Collapse(s[..i] + s[i + 1..]) == Collapse(s)
  {
    var r := s[..i] + s[i + 1..];
    if i == 0 {
      assert r == s[1..];
    } else {
      CollapseAfterDelete(s[1..], i - 1);
      assert r[1..] == s[1..][..i - 1] + s[1..][i..];
      assert r[0] == s[0];
      assert i == 1 ==> r[1] == ' ' && s[1] == ' ';
      assert i > 1 ==> r[1] == s[1];
    }
  }

  lemma {:induction false} CollapseIsIdentity(s: string)
    requires NoDoubleBlank(s)
    ensures Collapse(s) == s
  {
    if |s| >= 2 {
      assert !DoubleAt(s, 0);
      SliceHasNoDouble(s, 1, |s|);
      assert s[1..|s|] == s[1..];
      CollapseIsIdentity(s[1..]);
      assert s == [s[0]] + s[1..];
    }
  }

  lemma {:induction false} CollapseIsClean(s: string)
    ensures NoDoubleBlank(Collapse(s)) && (s != [] ==> Collapse(s) != [] && Collapse(s)[0] == s[0])
  {
    if |s| >= 2 {
      CollapseIsClean(s[1..]);
      var rest := Collapse(s[1..]);
      if !(s[0] == ' ' && s[1] == ' ') {
        var r := [s[0]] + rest;
        forall i ensures !DoubleAt(r, i) {
          assert !DoubleAt(rest, i - 1);
        }
      }
    }
  }

  /** What other characters there are, in order. */
  function Others(s: string): string {
    if s == [] then [] else (if s[0] == ' ' then [] else [s[0]]) + Others(s[1..])
  }

  lemma {:induction false} CollapseKeepsOthers(s: string)
    ensures Others(Collapse(s)) == Others(s)
  {
    if |s| >= 2 {
      CollapseKeepsOthers(s[1..]);
      var rest := Collapse(s[1..]);
      assert ([s[0]] + rest)[1..] == rest;
    }
  }

  /** The loop over an extension header's value: it ends, and only blanks at double blanks have gone. */
  method HeaderValue(contents: string) returns (r: string)
    ensures r == TrimLeft(TrimRight(Collapse(contents)))
    ensures NoDoubleBlank(r) && (r != [] ==> !Blank(r[0]) && !Blank(r[|r| - 1]))
  {
    hide Collapse, FindDouble, TrimLeft, TrimRight;
    r := contents;
    var blank := FindDouble(r);
    while blank >= 0
      invariant Collapse(r) == Collapse(contents) && blank == FindDouble(r)
      decreases |r|
    {
      CollapseAfterDelete(r, blank);
      r := r[..blank] + r[blank + 1..];
      blank := FindDouble(r);
    }
    CollapseIsIdentity(r);
    ghost var clean := r;
    r := TrimRight(r);
    SliceHasNoDouble(clean, 0, |r|);
    assert clean[0..|r|] == r;
    ghost var right := r;
    r := TrimLeft(r);
    SliceHasNoDouble(right, |right| - |r|, |right|);
    assert right[|right| - |r|..|right|] == r;
    assert r != [] ==> r[|r| - 1] == right[|right| - 1];
  }
}
