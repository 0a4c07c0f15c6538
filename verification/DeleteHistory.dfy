/**
 The history of a recursive delete (DeleteS3, DeleteS3Internal and DeleteS3Send in
 ECSUtil/ECSConnection.cpp): keys are discovered by listing folders, pushed onto a pending list and
 sent in batches. What a listing shows is unknown, except that recursion into it ends.
 */
module DeleteHistory {
  import opened KeyOrder

  const MAX_BATCH: nat := 1000

  /** A directory entry and what a listing of it would show. Top-level entries carry whole keys. */
  datatype Entry = Entry(name: string, dir: bool, listing: Listing)
  datatype Listing = Listed(entries: seq<Entry>) | NotFound | Failed

  datatype Outcome = Ok | InvalidData | ListingFailed | SendFailed

  /** The history: a key enters the pending list, a key is sent for deletion. */
  datatype Event = Pushed(key: Key) | Sent(key: Key)

  function KeyOf(prefix: string, e: Entry): Key {
    prefix + e.name + (if e.dir then "\\" else "")
  }

  predicate IsFolder(key: Key) { key != [] && key[|key| - 1] == '\\' }

  /** The keys that a complete run pushes, in order: what is beneath a folder, then the folder. */
  function Pushes(prefix: string, entries: seq<Entry>): seq<Key>
    decreases entries
  {
    if entries == [] then []
    else
      var e := entries[0];
      var key := KeyOf(prefix, e);
      ((if IsFolder(key) && e.listing.Listed? then Pushes(key, e.listing.entries) else []) + [key])
      + Pushes(prefix, entries[1..])
  }

  // ---------------------------------------------------------------- histories

  function PushedKeys(events: seq<Event>): seq<Key> {
    if events == [] then []
    else PushedKeys(events[..|events| - 1]) + (if events[|events| - 1].Pushed? then [events[|events| - 1].key] else [])
  }

  function SentKeys(events: seq<Event>): seq<Key> {
    if events == [] then []
    else SentKeys(events[..|events| - 1]) + (if events[|events| - 1].Sent? then [events[|events| - 1].key] else [])
  }

  function Concat(batches: seq<seq<Key>>): seq<Key> {
    if batches == [] then [] else Concat(batches[..|batches| - 1]) + batches[|batches| - 1]
  }

  ghost predicate SentBetween(events: seq<Event>, j: nat, i: nat, key: Key) {
    exists m :: j < m < i && m < |events| && events[m] == Sent(key)
  }

  /** No key is sent while a key beneath it, pushed earlier, is still waiting. */
  ghost predicate ChildrenFirst(events: seq<Event>) {
    forall i: nat, j: nat :: j < i < |events| && events[i].Sent? && events[j].Pushed? && Extends(events[j].key, events[i].key)
      ==> SentBetween(events, j, i, events[j].key)
  }

  /** A key is sent only after it was pushed. */
  ghost predicate PushedFirst(events: seq<Event>) {
    forall i: nat :: i < |events| && events[i].Sent? ==> Pushed(events[i].key) in events[..i]
  }

  /** Every push is pending or has been sent since. */
  ghost predicate Accounted(events: seq<Event>, pending: set<Key>) {
    forall j: nat :: j < |events| && events[j].Pushed? ==>
      events[j].key in pending || SentBetween(events, j, |events|, events[j].key)
  }

  /** What is sent or pending was pushed. */
  ghost predicate Grounded(events: seq<Event>, pending: set<Key>) {
    && (forall k :: k in pending ==> k in PushedKeys(events))
    && (forall k :: k in SentKeys(events) ==> k in PushedKeys(events))
  }

  ghost predicate HistoryOk(events: seq<Event>, pending: set<Key>) {
    ChildrenFirst(events) && PushedFirst(events) && Accounted(events, pending) && Grounded(events, pending)
  }

  lemma AddPush(events: seq<Event>, pending: set<Key>, k: Key)
    requires HistoryOk(events, pending)
    ensures HistoryOk(events + [Pushed(k)], pending + {k})
    ensures PushedKeys(events + [Pushed(k)]) == PushedKeys(events) + [k]
    ensures SentKeys(events + [Pushed(k)]) == SentKeys(events)
  {
    var e := events + [Pushed(k)];
    assert e[..|e| - 1] == events;
    forall j: nat | j < |events| && events[j].Pushed? && SentBetween(events, j, |events|, events[j].key)
      ensures SentBetween(e, j, |e|, events[j].key)
    {
      var m :| j < m < |events| && events[m] == Sent(events[j].key);
      assert e[m] == Sent(events[j].key);
    }
    Extend(events, Pushed(k));
    ExtendPushed(events, Pushed(k));
  }

  lemma ExtendPushed(events: seq<Event>, x: Event)
    requires PushedFirst(events) && (x.Sent? ==> Pushed(x.key) in events)
    ensures PushedFirst(events + [x])
  {
    var e := events + [x];
    forall i: nat | i < |e| && e[i].Sent? ensures Pushed(e[i].key) in e[..i] {
      assert e[..i] == events[..i];
    }
    assert events[..|events|] == events;
  }

  /** What an event appended does not change. */
  lemma Extend(events: seq<Event>, x: Event)
    requires ChildrenFirst(events)
    requires x.Sent? ==> forall j: nat :: j < |events| && events[j].Pushed? && Extends(events[j].key, x.key) ==> SentBetween(events, j, |events|, events[j].key)
    ensures ChildrenFirst(events + [x])
  {
    var e := events + [x];
    forall i: nat, j: nat | j < i < |e| && e[i].Sent? && e[j].Pushed? && Extends(e[j].key, e[i].key)
      ensures SentBetween(e, j, i, e[j].key)
    {
      assert SentBetween(events, j, i, events[j].key);
      var m :| j < m < i && m < |events| && events[m] == Sent(e[j].key);
      assert e[m] == Sent(e[j].key);
    }
  }

  /** Sending a key settles its own pushes and leaves the other ones as they were. */
  lemma StillAccounted(events: seq<Event>, pending: set<Key>, k: Key)
    requires Accounted(events, pending)
    ensures Accounted(events + [Sent(k)], pending - {k})
  {
    var e := events + [Sent(k)];
    forall j: nat | j < |e| && e[j].Pushed? ensures e[j].key in pending - {k} || SentBetween(e, j, |e|, e[j].key) {
      if e[j].key == k {
        assert e[|events|] == Sent(k);
      } else if SentBetween(events, j, |events|, e[j].key) {
        var m :| j < m < |events| && events[m] == Sent(e[j].key);
        assert e[m] == Sent(e[j].key);
      }
    }
  }

  lemma OneMoreSent(events: seq<Event>, k: Key)
    ensures PushedKeys(events + [Sent(k)]) == PushedKeys(events)
    ensures SentKeys(events + [Sent(k)]) == SentKeys(events) + [k]
  {
    var e := events + [Sent(k)];
    assert e[..|e| - 1] == events;
  }

  /** Sending the greatest pending key. */
  lemma AddSend(events: seq<Event>, pending: set<Key>, k: Key)
    requires HistoryOk(events, pending) && k in pending
    requires forall x :: x in pending ==> !Less(k, x)
    ensures HistoryOk(events + [Sent(k)], pending - {k})
    ensures PushedKeys(events + [Sent(k)]) == PushedKeys(events)
    ensures SentKeys(events + [Sent(k)]) == SentKeys(events) + [k]
  {
    hide PushedKeys, SentKeys, SentBetween, PushedFirst, ChildrenFirst;
    OneMoreSent(events, k);
    forall j: nat | j < |events| && events[j].Pushed? && Extends(events[j].key, k)
      ensures SentBetween(events, j, |events|, events[j].key)
    {
      ExtensionIsGreater(events[j].key, k);
    }
    Extend(events, Sent(k));
    KeysOfEvents(events, k);
    ExtendPushed(events, Sent(k));
    StillAccounted(events, pending, k);
  }

  function Sends(batch: seq<Key>): seq<Event> {
    if batch == [] then [] else Sends(batch[..|batch| - 1]) + [Sent(batch[|batch| - 1])]
  }

  ghost predicate Descending(s: seq<Key>) {
    forall i, j :: 0 <= i < j < |s| ==> Less(s[j], s[i])
  }

  /** Every key of the batch is pending, and greater than all that stay behind. */
  ghost predicate Top(pending: set<Key>, batch: seq<Key>) {
    && Descending(batch)
    && (forall k :: k in batch ==> k in pending)
    && forall k, x :: k in batch && x in pending && x !in batch ==> Less(x, k)
  }

  /** The last key of a batch is the greatest of what is left when the others are gone. */
  lemma TopOfFront(pending: set<Key>, front: seq<Key>, k: Key)
    requires Top(pending, front + [k])
    ensures Top(pending, front) && k in pending - Keys(front)
    ensures forall x :: x in pending - Keys(front) ==> !Less(k, x)
    ensures pending - Keys(front + [k]) == pending - Keys(front) - {k}
  {
    var batch := front + [k];
    assert batch[|front|] == k;
    assert forall a :: a in batch <==> a in front || a == k;
    LessIsIrreflexive(k);
    forall i | 0 <= i < |front| ensures Less(k, front[i]) {
      assert batch[i] == front[i];
    }
    assert Descending(front) by {
      forall i, j | 0 <= i < j < |front| ensures Less(front[j], front[i]) {
        assert batch[i] == front[i] && batch[j] == front[j];
      }
    }
    forall x | x in pending - Keys(front) ensures !Less(k, x) {
      LessIsTotal(k, x);
      assert x != k ==> x !in batch;
    }
  }

  /** A whole batch, taken from the top of the pending keys. */
  lemma {:induction false} AddBatch(events: seq<Event>, pending: set<Key>, batch: seq<Key>)
    requires HistoryOk(events, pending) && Top(pending, batch)
    ensures HistoryOk(events + Sends(batch), pending - Keys(batch))
    ensures PushedKeys(events + Sends(batch)) == PushedKeys(events)
    ensures SentKeys(events + Sends(batch)) == SentKeys(events) + batch
  {
    hide HistoryOk, Top, PushedKeys, SentKeys;
    if batch == [] {
      assert events + Sends(batch) == events && pending - Keys(batch) == pending;
    } else {
      var n := |batch| - 1;
      var front, k := batch[..n], batch[n];
      assert batch == front + [k];
      TopOfFront(pending, front, k);
      AddBatch(events, pending, front);
      AddSend(events + Sends(front), pending - Keys(front), k);
      assert events + Sends(batch) == events + Sends(front) + [Sent(k)];
      assert SentKeys(events) + front + [k] == SentKeys(events) + batch;
    }
  }

  lemma {:induction false} KeysOfEvents(events: seq<Event>, k: Key)
    ensures k in PushedKeys(events) <==> Pushed(k) in events
    ensures k in SentKeys(events) <==> Sent(k) in events
  {
    if events != [] {
      KeysOfEvents(events[..|events| - 1], k);
      assert events == events[..|events| - 1] + [events[|events| - 1]];
    }
  }

  /** When nothing is pending, what was sent is what was pushed. */
  lemma AllSent(events: seq<Event>)
    requires HistoryOk(events, {})
    ensures Keys(SentKeys(events)) == Keys(PushedKeys(events))
  {
    forall k ensures k in SentKeys(events) <==> k in PushedKeys(events) {
      KeysOfEvents(events, k);
      if Pushed(k) in events {
        var j :| 0 <= j < |events| && events[j] == Pushed(k);
        assert SentBetween(events, j, |events|, k);
      }
    }
  }

  /** The contents of the pending list as it is sent from its end. */
  ghost predicate TakenFrom(all: seq<Key>, rest: seq<Key>, batch: seq<Key>) {
    && |rest| + |batch| == |all| && rest == all[..|rest|]
    && forall i :: 0 <= i < |batch| ==> batch[i] == all[|all| - 1 - i]
  }

  lemma TakenIsTop(all: seq<Key>, rest: seq<Key>, batch: seq<Key>)
    requires Ascending(all) && TakenFrom(all, rest, batch)
    ensures Keys(rest) == Keys(all) - Keys(batch) && Top(Keys(all), batch)
  {
    forall x | x in all ensures x in rest <==> x !in batch {
      var j :| 0 <= j < |all| && all[j] == x;
      if j < |rest| {
        assert rest[j] == x;
        forall i | 0 <= i < |batch| ensures batch[i] != x {
          LessIsIrreflexive(x);
        }
      } else {
        assert batch[|all| - 1 - j] == x;
        forall i | 0 <= i < |rest| ensures rest[i] != x {
          LessIsIrreflexive(x);
        }
      }
    }
    forall k, x | k in batch && x in all && x !in batch ensures Less(x, k) {
      var i :| 0 <= i < |rest| && rest[i] == x;
      var j :| 0 <= j < |batch| && batch[j] == k;
      assert all[i] == x;
    }
  }

  lemma NothingToPush(prefix: string)
    ensures Pushes(prefix, []) == []
  {
  }

  lemma PushesStep(prefix: string, entries: seq<Entry>, i: nat)
    requires i < |entries|
    ensures var e := entries[i]; var key := KeyOf(prefix, e);
      Pushes(prefix, entries[i..]) ==
      ((if IsFolder(key) && e.listing.Listed? then Pushes(key, e.listing.entries) else []) + [key]) + Pushes(prefix, entries[i + 1..])
  {
    assert entries[i..][0] == entries[i] && entries[i..][1..] == entries[i + 1..];
  }

  /** Everything that a listing leads to lies beneath its folder. */
  lemma {:induction false} BeneathTheFolder(prefix: string, entries: seq<Entry>, k: Key)
    requires k in Pushes(prefix, entries)
    ensures k == prefix || Extends(k, prefix)
    decreases entries
  {
    var e := entries[0];
    var key := KeyOf(prefix, e);
    assert prefix <= key;
    if IsFolder(key) && e.listing.Listed? && k in Pushes(key, e.listing.entries) {
      BeneathTheFolder(key, e.listing.entries, k);
      assert key <= k;
      assert k[..|prefix|] == k[..|key|][..|prefix|];
    } else if k in Pushes(prefix, entries[1..]) {
      BeneathTheFolder(prefix, entries[1..], k);
    }
  }

  lemma Regroup<T>(a: seq<T>, b: seq<T>, c: seq<T>)
    ensures a + (b + c) == (a + b) + c
  {
  }
}
