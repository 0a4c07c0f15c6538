/**
 What a recursive delete sends, as a function of the keys it discovers, and in which order: when a
 folder is deleted only after everything that was discovered beneath it.
 */
module DeleteOrder {
  import opened KeyOrder
  import opened DeleteHistory

  // ---------------------------------------------------------------- the requests

  /** The pending list, the requests so far and the history. */
  datatype Story = Story(events: seq<Event>, pending: seq<Key>, batches: seq<seq<Key>>)

  const Blank := Story([], [], [])

  function BatchSize(all: seq<Key>): nat {
    if |all| < MAX_BATCH then |all| else MAX_BATCH
  }

  /** The greatest keys, the greatest first. */
  function Greatest(all: seq<Key>): seq<Key> {
    seq(BatchSize(all), i requires 0 <= i < BatchSize(all) => all[|all| - 1 - i])
  }

  /** One request with the greatest of the pending keys, each once. */
  function Flush(s: Story): Story {
    if s.pending == [] then s
    else
      var all := Unique(Sort(s.pending));
      Story(s.events + Sends(Greatest(all)), all[..|all| - BatchSize(all)], s.batches + [Greatest(all)])
  }

  /** One key more, and a request when the list has become too long. */
  function Enter(s: Story, key: Key): Story {
    var t := Story(s.events + [Pushed(key)], s.pending + [key], s.batches);
    if |t.pending| > MAX_BATCH then Flush(t) else t
  }

  function EnterAll(s: Story, keys: seq<Key>): Story {
    if keys == [] then s else Enter(EnterAll(s, keys[..|keys| - 1]), keys[|keys| - 1])
  }

  /** The complete delete of the discovered keys. */
  function Whole(keys: seq<Key>): Story { Flush(EnterAll(Blank, keys)) }

  /** Also while an operation is under way, or after it failed. */
  ghost predicate Safe(s: Story) {
    ChildrenFirst(s.events) && PushedFirst(s.events) && Concat(s.batches) == SentKeys(s.events)
  }

  ghost predicate StoryOk(s: Story) {
    HistoryOk(s.events, Keys(s.pending)) && Concat(s.batches) == SentKeys(s.events)
  }

  lemma OneMoreBatch(batches: seq<seq<Key>>, batch: seq<Key>)
    ensures Concat(batches + [batch]) == Concat(batches) + batch
  {
    assert (batches + [batch])[..|batches|] == batches;
  }

  lemma GreatestIsTaken(all: seq<Key>)
    ensures TakenFrom(all, all[..|all| - BatchSize(all)], Greatest(all))
  {
  }

  lemma FlushKeeps(s: Story)
    requires StoryOk(s)
    ensures StoryOk(Flush(s)) && PushedKeys(Flush(s).events) == PushedKeys(s.events)
    ensures |Flush(s).pending| <= if |s.pending| <= MAX_BATCH then 0 else |s.pending| - MAX_BATCH
    ensures Keys(Flush(s).pending) <= Keys(s.pending)
  {
    hide HistoryOk, TakenFrom, Ordered, Ascending, Sort, Unique, Top, PushedKeys, SentKeys, Sends, Concat;
    if s.pending != [] {
      SortSorts(s.pending);
      UniqueOfOrdered(Sort(s.pending));
      var all := Unique(Sort(s.pending));
      GreatestIsTaken(all);
      TakenIsTop(all, all[..|all| - BatchSize(all)], Greatest(all));
      AddBatch(s.events, Keys(all), Greatest(all));
      OneMoreBatch(s.batches, Greatest(all));
    }
  }

  lemma PushKeeps(s: Story, key: Key)
    requires StoryOk(s)
    ensures var t := Story(s.events + [Pushed(key)], s.pending + [key], s.batches);
      StoryOk(t) && PushedKeys(t.events) == PushedKeys(s.events) + [key]
  {
    hide HistoryOk, PushedKeys, SentKeys, Concat;
    AddPush(s.events, Keys(s.pending), key);
    assert Keys(s.pending + [key]) == Keys(s.pending) + {key};
  }

  lemma EnterKeeps(s: Story, key: Key)
    requires StoryOk(s) && |s.pending| <= MAX_BATCH
    ensures StoryOk(Enter(s, key)) && |Enter(s, key).pending| <= MAX_BATCH
    ensures PushedKeys(Enter(s, key).events) == PushedKeys(s.events) + [key]
  {
    hide StoryOk, Flush, PushedKeys;
    PushKeeps(s, key);
    FlushKeeps(Story(s.events + [Pushed(key)], s.pending + [key], s.batches));
  }

  lemma {:induction false} EnterAllKeeps(s: Story, keys: seq<Key>)
    requires StoryOk(s) && |s.pending| <= MAX_BATCH
    ensures StoryOk(EnterAll(s, keys)) && |EnterAll(s, keys).pending| <= MAX_BATCH
    ensures PushedKeys(EnterAll(s, keys).events) == PushedKeys(s.events) + keys
  {
    hide StoryOk, Enter, PushedKeys;
    if keys != [] {
      EnterAllKeeps(s, keys[..|keys| - 1]);
      EnterKeeps(EnterAll(s, keys[..|keys| - 1]), keys[|keys| - 1]);
      assert keys == keys[..|keys| - 1] + [keys[|keys| - 1]];
    }
  }

  lemma {:induction false} EnterTogether(s: Story, a: seq<Key>, b: seq<Key>)
    ensures EnterAll(s, a + b) == EnterAll(EnterAll(s, a), b)
  {
    hide Enter;
    if b == [] {
      assert a + b == a;
    } else {
      EnterTogether(s, a, b[..|b| - 1]);
      assert (a + b)[..|a + b| - 1] == a + b[..|b| - 1];
    }
  }

  /** A complete delete accounts for every key, and what was sent is what was discovered. */
  lemma WholeKeeps(keys: seq<Key>)
    ensures StoryOk(Whole(keys)) && Whole(keys).pending == [] && PushedKeys(Whole(keys).events) == keys
    ensures Keys(Concat(Whole(keys).batches)) == Keys(keys)
  {
    assert StoryOk(Blank) && PushedKeys(Blank.events) == [] && [] + keys == keys;
    hide StoryOk, PushedKeys, Flush, EnterAll;
    EnterAllKeeps(Blank, keys);
    FlushKeeps(EnterAll(Blank, keys));
    assert Keys([]) == {};
    OkIsSafe(Whole(keys));
    AllSent(Whole(keys).events);
  }

  lemma OkIsSafe(s: Story)
    requires StoryOk(s)
    ensures Safe(s) && HistoryOk(s.events, Keys(s.pending))
  {
  }

  // ---------------------------------------------------------------- the number of requests

  ghost predicate Distinct(s: seq<Key>) {
    forall i, j :: 0 <= i < j < |s| ==> s[i] != s[j]
  }

  lemma {:induction false} DistinctKeys(s: seq<Key>)
    requires Distinct(s)
    ensures |Keys(s)| == |s|
  {
    if s != [] {
      var n := |s| - 1;
      DistinctKeys(s[..n]);
      assert s == s[..n] + [s[n]];
      assert Keys(s) == Keys(s[..n]) + {s[n]} && s[n] !in Keys(s[..n]);
    } else {
      assert Keys(s) == {};
    }
  }

  /** Sorting and removing repetitions drops nothing from a list without repetitions. */
  lemma UniqueDropsNothing(q: seq<Key>)
    requires Distinct(q)
    ensures |Unique(Sort(q))| == |q| && Distinct(Unique(Sort(q))) && Keys(Unique(Sort(q))) == Keys(q)
  {
    SortSorts(q);
    UniqueOfOrdered(Sort(q));
    var all := Unique(Sort(q));
    forall i, j | 0 <= i < j < |all| ensures all[i] != all[j] {
      LessIsIrreflexive(all[i]);
    }
    hide Sort, Unique, Ordered, Ascending, Less;
    DistinctKeys(all);
    DistinctKeys(q);
  }

  ghost predicate Counted(s: Story, keys: seq<Key>) {
    && Distinct(s.pending) && Keys(s.pending) <= Keys(keys)
    && |s.pending| + 1000 * |s.batches| == |keys|
    && (if keys == [] then s.pending == [] else 1 <= |s.pending| <= 1000)
  }

  lemma EnterCounts(s: Story, keys: seq<Key>, key: Key)
    requires Counted(s, keys) && key !in keys
    ensures Counted(Enter(s, key), keys + [key])
  {
    var q := s.pending + [key];
    assert key !in Keys(s.pending);
    assert Keys(q) == Keys(s.pending) + {key} && Keys(keys + [key]) == Keys(keys) + {key};
    assert Distinct(q);
    if |q| > MAX_BATCH {
      UniqueDropsNothing(q);
      hide Sort, Unique;
      var all := Unique(Sort(q));
      var rest := all[..|all| - BatchSize(all)];
      assert Distinct(rest) && Keys(rest) <= Keys(all);
    }
  }

  lemma {:induction false} EnterAllCounts(keys: seq<Key>)
    requires Distinct(keys)
    ensures Counted(EnterAll(Blank, keys), keys)
  {
    hide Enter;
    if keys != [] {
      var n := |keys| - 1;
      EnterAllCounts(keys[..n]);
      EnterCounts(EnterAll(Blank, keys[..n]), keys[..n], keys[n]);
      assert keys == keys[..n] + [keys[n]];
    }
  }

  /** Different keys are deleted with as few requests as the limit of 1000 keys for each allows. */
  lemma RequestsAreFew(keys: seq<Key>)
    requires Distinct(keys)
    ensures |Whole(keys).batches| == (|keys| + 999) / 1000
  {
    EnterAllCounts(keys);
    hide EnterAll, Sort, Unique;
  }

  // ---------------------------------------------------------------- order

  /** Every f comes after a k. */
  ghost predicate EachAfter(s: seq<Key>, k: Key, f: Key) {
    forall a: nat :: a < |s| && s[a] == f ==> k in s[..a]
  }

  /** There is an f, and the last one comes after a k. */
  ghost predicate LastAfter(s: seq<Key>, k: Key, f: Key) {
    exists a: nat :: a < |s| && s[a] == f && f !in s[a + 1..] && k in s[..a]
  }

  lemma {:induction false} Split(x: seq<Event>, y: seq<Event>)
    ensures PushedKeys(x + y) == PushedKeys(x) + PushedKeys(y)
    ensures SentKeys(x + y) == SentKeys(x) + SentKeys(y)
  {
    if y == [] {
      assert x + y == x;
    } else {
      Split(x, y[..|y| - 1]);
      assert (x + y)[..|x + y| - 1] == x + y[..|y| - 1] && (x + y)[|x + y| - 1] == y[|y| - 1];
    }
  }

  lemma SplitAt(e: seq<Event>, i: nat)
    requires i < |e|
    ensures PushedKeys(e) == PushedKeys(e[..i]) + (if e[i].Pushed? then [e[i].key] else []) + PushedKeys(e[i + 1..])
    ensures SentKeys(e) == SentKeys(e[..i]) + (if e[i].Sent? then [e[i].key] else []) + SentKeys(e[i + 1..])
  {
    var last := e[..i + 1];
    assert e == last + e[i + 1..] && last[..|last| - 1] == e[..i] && last[|last| - 1] == e[i];
    assert PushedKeys(last) == PushedKeys(e[..i]) + (if e[i].Pushed? then [e[i].key] else []);
    assert SentKeys(last) == SentKeys(e[..i]) + (if e[i].Sent? then [e[i].key] else []);
    Split(last, e[i + 1..]);
  }

  /** The event behind a sent key. */
  lemma {:induction false} SentAt(e: seq<Event>, a: nat) returns (i: nat)
    requires a < |SentKeys(e)|
    ensures i < |e| && e[i] == Sent(SentKeys(e)[a]) && SentKeys(e[..i]) == SentKeys(e)[..a]
  {
    var front := e[..|e| - 1];
    if a < |SentKeys(front)| {
      i := SentAt(front, a);
      assert front[..i] == e[..i];
    } else {
      i := |e| - 1;
    }
  }

  lemma {:induction false} PushedAt(e: seq<Event>, a: nat) returns (i: nat)
    requires a < |PushedKeys(e)|
    ensures i < |e| && e[i] == Pushed(PushedKeys(e)[a]) && PushedKeys(e[..i]) == PushedKeys(e)[..a]
  {
    var front := e[..|e| - 1];
    if a < |PushedKeys(front)| {
      i := PushedAt(front, a);
      assert front[..i] == e[..i];
    } else {
      i := |e| - 1;
    }
  }

  /** The folder is only sent at times when the key has been discovered. */
  ghost predicate KnownBefore(e: seq<Event>, k: Key, f: Key) {
    forall i: nat :: i < |e| && e[i] == Sent(f) ==> Pushed(k) in e[..i]
  }

  lemma SentBefore(e: seq<Event>, i: nat, k: Key)
    requires ChildrenFirst(e) && i < |e| && e[i].Sent? && Extends(k, e[i].key) && Pushed(k) in e[..i]
    ensures k in SentKeys(e[..i])
  {
    var j :| 0 <= j < i && e[..i][j] == Pushed(k);
    assert e[j] == Pushed(k) && SentBetween(e, j, i, k);
    var m :| j < m < i && m < |e| && e[m] == Sent(k);
    assert e[..i][m] == Sent(k);
    KeysOfEvents(e[..i], k);
  }

  /**
   Each time a folder is sent, a key beneath it has been sent before, if and only if the key had been
   discovered by then.
   */
  lemma SentAfterWhatWasKnown(s: Story, k: Key, f: Key)
    requires Safe(s) && Extends(k, f)
    ensures EachAfter(Concat(s.batches), k, f) <==> KnownBefore(s.events, k, f)
  {
    hide PushedKeys, SentKeys, ChildrenFirst;
    var e := s.events;
    if KnownBefore(e, k, f) {
      forall a: nat | a < |SentKeys(e)| && SentKeys(e)[a] == f ensures k in SentKeys(e)[..a] {
        var i := SentAt(e, a);
        SentBefore(e, i, k);
      }
    }
    if EachAfter(SentKeys(e), k, f) {
      forall i: nat | i < |e| && e[i] == Sent(f) ensures Pushed(k) in e[..i] {
        SplitAt(e, i);
        var a := |SentKeys(e[..i])|;
        assert SentKeys(e)[a] == f && SentKeys(e)[..a] == SentKeys(e[..i]);
        KeysOfEvents(e[..i], k);
        var m :| 0 <= m < i && e[..i][m] == Sent(k);
        assert e[m] == Sent(k) && Pushed(k) in e[..m];
        assert forall x :: x in e[..m] ==> x in e[..i];
      }
    }
  }

  /** What is discovered after its contents is sent after its contents, in every batching. */
  lemma OrderIsKept(s: Story, k: Key, f: Key)
    requires Safe(s) && Extends(k, f) && EachAfter(PushedKeys(s.events), k, f)
    ensures EachAfter(Concat(s.batches), k, f)
  {
    hide PushedKeys, SentKeys, ChildrenFirst;
    var e := s.events;
    forall i: nat | i < |e| && e[i] == Sent(f) ensures Pushed(k) in e[..i] {
      assert Pushed(f) in e[..i];
      var j :| 0 <= j < i && e[..i][j] == Pushed(f);
      assert e[j] == Pushed(f);
      SplitAt(e, j);
      var a := |PushedKeys(e[..j])|;
      assert PushedKeys(e)[a] == f && PushedKeys(e)[..a] == PushedKeys(e[..j]);
      KeysOfEvents(e[..j], k);
      assert forall x :: x in e[..j] ==> x in e[..i];
    }
    SentAfterWhatWasKnown(s, k, f);
  }

  /** After a complete delete the last request for a folder comes after the contents of any visit. */
  lemma LastOrderIsKept(s: Story, p: nat, k: Key, f: Key)
    requires StoryOk(s) && s.pending == [] && Extends(k, f)
    requires p < |PushedKeys(s.events)| && PushedKeys(s.events)[p] == f && k in PushedKeys(s.events)[..p]
    ensures LastAfter(Concat(s.batches), k, f)
  {
    hide PushedKeys, SentKeys, ChildrenFirst, PushedFirst;
    var e := s.events;
    assert Keys([]) == {};
    var i := PushedAt(e, p);
    assert SentBetween(e, i, |e|, f);
    var n :| i < n < |e| && e[n] == Sent(f);
    var m := LastEvent(e, n);
    SplitAt(e, m);
    KeysOfEvents(e[m + 1..], f);
    var a := |SentKeys(e[..m])|;
    assert SentKeys(e)[a] == f && SentKeys(e)[a + 1..] == SentKeys(e[m + 1..]);
    KeysOfEvents(e[..i], k);
    assert forall x :: x in e[..i] ==> x in e[..m];
    SentBefore(e, m, k);
    assert SentKeys(e)[..a] == SentKeys(e[..m]);
  }

  lemma LastEvent(e: seq<Event>, n: nat) returns (m: nat)
    requires n < |e|
    ensures n <= m < |e| && e[m] == e[n] && e[n] !in e[m + 1..]
  {
    m := |e| - 1;
    while e[m] != e[n]
      invariant n <= m < |e| && e[n] !in e[m + 1..]
      decreases m
    {
      assert e[m..] == [e[m]] + e[m + 1..];
      m := m - 1;
    }
  }

  // ---------------------------------------------------------------- folders and what is beneath them

  /** Somewhere in the recursion the folder `f` is listed with this result. */
  ghost predicate Visited(prefix: string, entries: seq<Entry>, f: Key, shown: Listing)
    decreases entries
  {
    entries != [] &&
    var e := entries[0];
    var key := KeyOf(prefix, e);
    || (IsFolder(key) && key == f && e.listing == shown)
    || (IsFolder(key) && e.listing.Listed? && Visited(key, e.listing.entries, f, shown))
    || Visited(prefix, entries[1..], f, shown)
  }

  /** The listing of some folder fails. */
  ghost predicate SomeListingFails(prefix: string, entries: seq<Entry>) {
    exists f :: Visited(prefix, entries, f, Failed)
  }

  lemma NoListingFails(prefix: string)
    ensures !SomeListingFails(prefix, [])
  {
  }

  lemma ListingFailsAt(prefix: string, entries: seq<Entry>, i: nat)
    requires i < |entries|
    ensures var e := entries[i]; var key := KeyOf(prefix, e);
      SomeListingFails(prefix, entries[i..]) <==>
        || (IsFolder(key) && (e.listing.Failed? || (e.listing.Listed? && SomeListingFails(key, e.listing.entries))))
        || SomeListingFails(prefix, entries[i + 1..])
  {
    var e := entries[i];
    var key := KeyOf(prefix, e);
    assert entries[i..][0] == e && entries[i..][1..] == entries[i + 1..];
    if IsFolder(key) && e.listing.Failed? {
      assert Visited(prefix, entries[i..], key, Failed);
    }
    if IsFolder(key) && e.listing.Listed? && SomeListingFails(key, e.listing.entries) {
      var f :| Visited(key, e.listing.entries, f, Failed);
      assert Visited(prefix, entries[i..], f, Failed);
    }
    if SomeListingFails(prefix, entries[i..]) {
      var f :| Visited(prefix, entries[i..], f, Failed);
      assert IsFolder(key) && e.listing.Listed? && Visited(key, e.listing.entries, f, Failed) ==> SomeListingFails(key, e.listing.entries);
      assert Visited(prefix, entries[i + 1..], f, Failed) ==> SomeListingFails(prefix, entries[i + 1..]);
    }
    if SomeListingFails(prefix, entries[i + 1..]) {
      var f :| Visited(prefix, entries[i + 1..], f, Failed);
      assert Visited(prefix, entries[i..], f, Failed);
    }
  }

  /** The key is beneath the folder whenever the folder is listed. */
  ghost predicate AlwaysBeneath(prefix: string, entries: seq<Entry>, k: Key, f: Key) {
    IsFolder(f) && forall shown :: Visited(prefix, entries, f, shown) ==> shown.Listed? && k in Pushes(f, shown.entries)
  }

  lemma AfterTogether(x: seq<Key>, y: seq<Key>, k: Key, f: Key)
    requires EachAfter(x, k, f) && EachAfter(y, k, f)
    ensures EachAfter(x + y, k, f)
  {
    forall a: nat | a < |x + y| && (x + y)[a] == f ensures k in (x + y)[..a] {
      if a < |x| {
        assert x[a] == f && (x + y)[..a] == x[..a];
      } else {
        assert y[a - |x|] == f && (x + y)[..a] == x + y[..a - |x|];
      }
    }
  }

  lemma AfterOneMore(x: seq<Key>, z: Key, k: Key, f: Key)
    requires EachAfter(x, k, f) && (z == f ==> k in x)
    ensures EachAfter(x + [z], k, f)
  {
    forall a: nat | a < |x + [z]| && (x + [z])[a] == f ensures k in (x + [z])[..a] {
      if a < |x| {
        assert x[a] == f && (x + [z])[..a] == x[..a];
      } else {
        assert (x + [z])[..a] == x;
      }
    }
  }

  lemma {:induction false} DiscoveredAfter(prefix: string, entries: seq<Entry>, k: Key, f: Key)
    requires AlwaysBeneath(prefix, entries, k, f)
    ensures EachAfter(Pushes(prefix, entries), k, f)
    decreases entries
  {
    if entries != [] {
      var e := entries[0];
      var key := KeyOf(prefix, e);
      var below := if IsFolder(key) && e.listing.Listed? then Pushes(key, e.listing.entries) else [];
      if IsFolder(key) && e.listing.Listed? {
        DiscoveredAfter(key, e.listing.entries, k, f);
      }
      DiscoveredAfter(prefix, entries[1..], k, f);
      assert key == f ==> Visited(prefix, entries, f, e.listing);
      AfterOneMore(below, key, k, f);
      AfterTogether(below + [key], Pushes(prefix, entries[1..]), k, f);
    }
  }

  /** Position p holds f, with a k before it. */
  ghost predicate At(s: seq<Key>, p: nat, k: Key, f: Key) {
    p < |s| && s[p] == f && k in s[..p]
  }

  lemma AtLeft(x: seq<Key>, y: seq<Key>, p: nat, k: Key, f: Key)
    requires At(x, p, k, f)
    ensures At(x + y, p, k, f)
  {
    assert (x + y)[..p] == x[..p];
  }

  lemma AtRight(x: seq<Key>, y: seq<Key>, p: nat, k: Key, f: Key)
    requires At(y, p, k, f)
    ensures At(x + y, |x| + p, k, f)
  {
    assert (x + y)[..|x| + p] == x + y[..p];
  }

  lemma AtEnd(x: seq<Key>, k: Key, f: Key)
    requires k in x
    ensures At(x + [f], |x|, k, f)
  {
    assert (x + [f])[..|x|] == x;
  }

  /** The place at which a visited folder is pushed: after all that the visit leads to. */
  lemma {:induction false} VisitAt(prefix: string, entries: seq<Entry>, f: Key, shown: Listing, k: Key) returns (p: nat)
    requires Visited(prefix, entries, f, shown) && shown.Listed? && k in Pushes(f, shown.entries)
    ensures At(Pushes(prefix, entries), p, k, f)
    decreases entries
  {
    var e := entries[0];
    var key := KeyOf(prefix, e);
    var below := if IsFolder(key) && e.listing.Listed? then Pushes(key, e.listing.entries) else [];
    var rest := Pushes(prefix, entries[1..]);
    assert Pushes(prefix, entries) == (below + [key]) + rest;
    hide Pushes, KeyOf, At;
    if IsFolder(key) && key == f && e.listing == shown {
      p := |below|;
      AtEnd(below, k, f);
      AtLeft(below + [key], rest, p, k, f);
    } else if IsFolder(key) && e.listing.Listed? && Visited(key, e.listing.entries, f, shown) {
      p := VisitAt(key, e.listing.entries, f, shown, k);
      AtLeft(below, [key], p, k, f);
      AtLeft(below + [key], rest, p, k, f);
    } else {
      var q := VisitAt(prefix, entries[1..], f, shown, k);
      p := |below + [key]| + q;
      AtRight(below + [key], rest, q, k, f);
    }
  }

  /** No request for a folder precedes the one for a key that all its listings lead to. */
  ghost predicate ContentsFirst(entries: seq<Entry>, sent: seq<Key>) {
    forall k, f :: Extends(k, f) && AlwaysBeneath("", entries, k, f) ==> EachAfter(sent, k, f)
  }

  /** The last request for a folder comes after those for all that any listing of it has led to. */
  ghost predicate FoldersLast(entries: seq<Entry>, sent: seq<Key>) {
    forall k, f, shown: Listing :: Visited("", entries, f, shown) && shown.Listed? && k in Pushes(f, shown.entries) && k != f
      ==> LastAfter(sent, k, f)
  }

  /** Also after a failure, when only some of the keys have been discovered. */
  lemma ContentsGoFirst(entries: seq<Entry>, s: Story)
    requires Safe(s) && PushedKeys(s.events) <= Pushes("", entries)
    ensures ContentsFirst(entries, Concat(s.batches))
  {
    hide Safe, PushedKeys, Pushes, AlwaysBeneath, Concat;
    forall k, f | Extends(k, f) && AlwaysBeneath("", entries, k, f) ensures EachAfter(Concat(s.batches), k, f) {
      DiscoveredAfter("", entries, k, f);
      var some, all := PushedKeys(s.events), Pushes("", entries);
      forall a: nat | a < |some| && some[a] == f ensures k in some[..a] {
        assert all[a] == f && some[..a] == all[..a];
      }
      OrderIsKept(s, k, f);
    }
  }

  lemma FoldersGoLast(entries: seq<Entry>)
    ensures FoldersLast(entries, Concat(Whole(Pushes("", entries)).batches))
  {
    hide Whole, PushedKeys, Pushes, StoryOk, Visited, Concat;
    var s := Whole(Pushes("", entries));
    WholeKeeps(Pushes("", entries));
    forall k, f, shown: Listing | Visited("", entries, f, shown) && shown.Listed? && k in Pushes(f, shown.entries) && k != f
      ensures LastAfter(Concat(s.batches), k, f)
    {
      BeneathTheFolder(f, shown.entries, k);
      var p := VisitAt("", entries, f, shown, k);
      LastOrderIsKept(s, p, k, f);
    }
  }

  // ---------------------------------------------------------------- a folder listed twice

  lemma {:induction false} FewStay(keys: seq<Key>)
    requires |keys| <= MAX_BATCH
    ensures EnterAll(Blank, keys).pending == keys && EnterAll(Blank, keys).batches == []
  {
    hide Flush;
    if keys != [] {
      FewStay(keys[..|keys| - 1]);
      assert keys == keys[..|keys| - 1] + [keys[|keys| - 1]];
    }
  }

  lemma FlushAdds(s: Story)
    ensures Concat(s.batches) <= Concat(Flush(s).batches)
  {
    if s.pending != [] {
      OneMoreBatch(s.batches, Greatest(Unique(Sort(s.pending))));
    }
  }

  lemma {:induction false} EnterAllAdds(s: Story, keys: seq<Key>)
    ensures Concat(s.batches) <= Concat(EnterAll(s, keys).batches)
  {
    hide Flush, Concat;
    if keys != [] {
      var front := EnterAll(s, keys[..|keys| - 1]);
      EnterAllAdds(s, keys[..|keys| - 1]);
      FlushAdds(Story(front.events + [Pushed(keys[|keys| - 1])], front.pending + [keys[|keys| - 1]], front.batches));
    }
  }

  lemma NothingSent()
    ensures Concat([]) == []
  {
  }

  lemma LastIsGreatest(all: seq<Key>, top: Key)
    requires Ascending(all) && top in all && forall x :: x in all ==> !Less(top, x)
    ensures all[|all| - 1] == top
  {
  }

  /** A request begins with the greatest of the pending keys. */
  lemma GreatestFirst(s: Story, top: Key)
    requires s.batches == [] && top in s.pending && forall x :: x in s.pending ==> !Less(top, x)
    ensures Concat(Flush(s).batches) != [] && Concat(Flush(s).batches)[0] == top
  {
    hide Sort, Unique, Ordered, Less, Ascending, Sends, Concat;
    SortSorts(s.pending);
    UniqueOfOrdered(Sort(s.pending));
    var all := Unique(Sort(s.pending));
    forall x | x in all ensures x in s.pending {
      assert x in Keys(all);
    }
    assert top in Keys(all);
    LastIsGreatest(all, top);
    OneMoreBatch([], Greatest(all));
    assert Flush(s).batches == [] + [Greatest(all)];
    NothingSent();
    assert Concat(Flush(s).batches) == [] + Greatest(all) == Greatest(all);
  }

  /** The first request starts with the greatest of the first 1001 keys. */
  lemma FirstRequest(first: seq<Key>, more: seq<Key>, top: Key)
    requires |first| == MAX_BATCH + 1 && top in first && forall x :: x in first ==> !Less(top, x)
    ensures var sent := Concat(Whole(first + more).batches); sent != [] && sent[0] == top
  {
    var front := EnterAll(Blank, first[..MAX_BATCH]);
    FewStay(first[..MAX_BATCH]);
    assert first == first[..MAX_BATCH] + [first[MAX_BATCH]];
    GreatestFirst(Story(front.events + [Pushed(first[MAX_BATCH])], first, []), top);
    EnterTogether(Blank, first, more);
    EnterAllAdds(EnterAll(Blank, first), more);
    FlushAdds(EnterAll(Blank, first + more));
  }

  const Folder: Entry := Entry("/b/f", true, Listed([]))
  const Other: Entry := Entry("/b/a", false, NotFound)
  const Child: Entry := Entry("c", false, NotFound)

  const Again: Entry := Entry("/b/f", true, Listed([Child]))

  function Repeat<T>(n: nat, x: T): (r: seq<T>)
    ensures |r| == n && forall y :: y in r ==> y == x
  {
    if n == 0 then [] else [x] + Repeat(n - 1, x)
  }

  /** The folder, empty when it is listed first; other keys; the folder, with a file in it by then. */
  function Twice(): seq<Entry> {
    [Folder] + (Repeat(MAX_BATCH, Other) + [Again])
  }

  lemma OneEntryFirst(e: Entry, rest: seq<Entry>)
    ensures var key := KeyOf("", e);
      Pushes("", [e] + rest) == ((if IsFolder(key) && e.listing.Listed? then Pushes(key, e.listing.entries) else []) + [key]) + Pushes("", rest)
    ensures forall f, shown: Listing :: Visited("", rest, f, shown) ==> Visited("", [e] + rest, f, shown)
  {
    assert ([e] + rest)[1..] == rest;
  }

  lemma {:induction false} AfterOthers(n: nat, rest: seq<Entry>)
    ensures Pushes("", Repeat(n, Other) + rest) == Repeat(n, "/b/a") + Pushes("", rest)
    ensures forall f, shown: Listing :: Visited("", rest, f, shown) ==> Visited("", Repeat(n, Other) + rest, f, shown)
  {
    hide Pushes, Visited;
    if n == 0 {
      assert Repeat(n, Other) + rest == rest;
      assert Repeat(n, "/b/a") + Pushes("", rest) == Pushes("", rest);
    } else {
      OneEntryFirst(Other, Repeat(n - 1, Other) + rest);
      AfterOthers(n - 1, rest);
      assert KeyOf("", Other) == "/b/a";
      assert Repeat(n, Other) + rest == [Other] + (Repeat(n - 1, Other) + rest);
      assert Repeat(n, "/b/a") + Pushes("", rest) == ([] + ["/b/a"]) + (Repeat(n - 1, "/b/a") + Pushes("", rest));
    }
  }

  lemma ThePushes()
    ensures Pushes("/b/f\\", [Child]) == ["/b/f\\c"]
    ensures Pushes("", [Again]) == ["/b/f\\c", "/b/f\\"]
    ensures Visited("", [Again], "/b/f\\", Listed([Child]))
  {
    assert KeyOf("", Again) == "/b/f\\" && KeyOf("/b/f\\", Child) == "/b/f\\c";
    assert [Child][1..] == [] && [Again][1..] == [];
  }

  lemma TwicePushes()
    ensures Pushes("", Twice()) == (["/b/f\\"] + Repeat(MAX_BATCH, "/b/a")) + ["/b/f\\c", "/b/f\\"]
    ensures Visited("", Twice(), "/b/f\\", Listed([Child]))
  {
    hide Pushes, Visited, Repeat;
    ThePushes();
    AfterOthers(MAX_BATCH, [Again]);
    NothingToPush("/b/f\\");
    assert KeyOf("", Folder) == "/b/f\\";
    OneEntryFirst(Folder, Repeat(MAX_BATCH, Other) + [Again]);
    Regroup(["/b/f\\"], Repeat(MAX_BATCH, "/b/a"), ["/b/f\\c", "/b/f\\"]);
    assert [] + ["/b/f\\"] == ["/b/f\\"];
  }

  /**
   The condition of the order is needed: a folder that is given twice, and has got a file between its
   two listings, is sent first, when the file has not been discovered yet.
   */
  lemma FolderBeforeItsNewFile()
    ensures var sent := Concat(Whole(Pushes("", Twice())).batches);
      && Visited("", Twice(), "/b/f\\", Listed([Child])) && "/b/f\\c" in Pushes("/b/f\\", [Child])
      && !EachAfter(sent, "/b/f\\c", "/b/f\\") && LastAfter(sent, "/b/f\\c", "/b/f\\")
  {
    hide Pushes, Whole, Twice, Repeat, Visited, LastAfter, Concat;
    ThePushes();
    TwicePushes();
    var top, other := "/b/f\\", "/b/a";
    assert !Less(top, top) by { LessIsIrreflexive(top); }
    assert !Less(top, other) by { assert top[1..][1..][1..][0] == 'f' && other[1..][1..][1..][0] == 'a'; }
    FirstRequest([top] + Repeat(MAX_BATCH, other), ["/b/f\\c", top], top);
    FoldersGoLast(Twice());
  }
}
