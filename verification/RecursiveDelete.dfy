/**
 Recursive deletion of folders (DeleteS3, DeleteS3Internal and DeleteS3Send in
 ECSUtil/ECSConnection.cpp).
 */
module RecursiveDelete {
  import opened KeyOrder
  import opened DeleteHistory
  import opened DeleteOrder

  // ---------------------------------------------------------------- buckets

  /** Position of the first '/' at or after `from`, or -1. */
  function FindSlash(key: Key, from: nat): (i: int)
    ensures i == -1 || (from <= i < |key| && key[i] == '/')
    decreases |key| - from
  {
    if from >= |key| then -1 else if key[from] == '/' then from else FindSlash(key, from + 1)
  }

  /** The key lies in this bucket: it starts with "/bucket/". */
  predicate InBucket(key: Key, bucket: string) {
    "/" + bucket + "/" <= key
  }

  predicate NoSlash(bucket: string) { bucket != "" && '/' !in bucket }

  lemma {:induction false} SlashAfterBucket(key: Key, bucket: string, from: nat)
    requires InBucket(key, bucket) && NoSlash(bucket) && 1 <= from <= 1 + |bucket|
    ensures FindSlash(key, from) == 1 + |bucket| && key[1..1 + |bucket|] == bucket
    decreases |key| - from
  {
    var head := "/" + bucket + "/";
    assert key[..|head|] == head && key[1..1 + |bucket|] == head[1..1 + |bucket|] == bucket;
    if from < 1 + |bucket| {
      assert key[from] == bucket[from - 1];
      SlashAfterBucket(key, bucket, from + 1);
    } else {
      assert key[from] == head[from];
    }
  }

  /** All keys lie in one bucket, except that a key may name no bucket at all. */
  ghost predicate OneBucket(batch: seq<Key>) {
    exists bucket :: AllNear(batch, bucket)
  }

  ghost predicate AllNear(batch: seq<Key>, bucket: string) {
    forall k :: k in batch ==> InBucket(k, bucket) || InBucket(k, "")
  }

  /** All keys lie in the bucket `home`. */
  ghost predicate AtHome(keys: seq<Key>, home: string) {
    NoSlash(home) && forall k :: k in keys ==> InBucket(k, home)
  }

  // ---------------------------------------------------------------- the operation

  ghost predicate BatchOk(batch: seq<Key>) {
    1 <= |batch| <= MAX_BATCH && Descending(batch) && OneBucket(batch)
  }

  lemma OneMoreTaken(all: seq<Key>, rest: seq<Key>, batch: seq<Key>)
    requires TakenFrom(all, rest, batch) && rest != []
    ensures TakenFrom(all, rest[..|rest| - 1], batch + [rest[|rest| - 1]])
  {
  }

  lemma StaysAtHome(all: seq<Key>, rest: seq<Key>, home: string)
    requires Keys(rest) <= Keys(all)
    ensures AtHome(all, home) ==> AtHome(rest, home)
  {
    assert forall k :: k in rest ==> k in Keys(rest);
  }

  lemma PartsAtHome(done: seq<Key>, below: seq<Key>, key: Key, rest: seq<Key>, home: string)
    ensures AtHome(done + ((below + [key]) + rest), home) ==> AtHome(below, home) && InBucket(key, home)
  {
    assert forall k :: k in below ==> k in done + ((below + [key]) + rest);
    assert key in done + ((below + [key]) + rest);
  }

  lemma SameKeysAtHome(before: seq<Key>, after: seq<Key>, home: string)
    requires Keys(before) == Keys(after)
    ensures AtHome(before, home) <==> AtHome(after, home)
  {
    assert forall k :: k in Keys(before) <==> k in before;
    assert forall k :: k in Keys(after) <==> k in after;
  }

  lemma TakenAreGreatest(all: seq<Key>, rest: seq<Key>, batch: seq<Key>)
    requires TakenFrom(all, rest, batch) && |batch| == BatchSize(all)
    ensures batch == Greatest(all) && rest == all[..|all| - BatchSize(all)]
  {
  }

  lemma EnterNone(s: Story)
    ensures EnterAll(s, []) == s
  {
  }

  lemma OneEntryMore(s: Story, done: seq<Key>, below: seq<Key>, key: Key)
    ensures Enter(EnterAll(EnterAll(s, done), below), key) == EnterAll(s, done + (below + [key]))
    ensures below == [] ==> EnterAll(EnterAll(s, done), below) == EnterAll(s, done)
  {
    EnterTogether(s, done, below + [key]);
    assert (below + [key])[..|below|] == below;
  }

  lemma PrefixOf(x: seq<Key>, pushed: seq<Key>, done: seq<Key>, next: seq<Key>, rest: seq<Key>)
    requires x <= (pushed + done) + next
    ensures x <= pushed + (done + (next + rest)) && x <= pushed + ((done + next) + rest)
  {
  }

  class Deleter {
    /** Whether the server accepts the n-th request. */
    const network: nat -> bool
    var pending: seq<Key>
    var batches: seq<seq<Key>>
    ghost var events: seq<Event>

    constructor (network: nat -> bool)
      ensures State() == Blank && this.network == network
    {
      this.network := network;
      pending, batches, events := [], [], [];
    }

    ghost function State(): Story
      reads this
    {
      Story(events, pending, batches)
    }

    ghost predicate Valid()
      reads this
    {
      StoryOk(State()) && BatchesOk()
    }

    ghost predicate BatchesOk()
      reads this
    {
      (forall b :: b in batches ==> BatchOk(b)) && (forall k: nat :: k < |batches| ==> network(k))
    }

    /** Take a batch off the end of the list; false for a key outside the bucket of the batch. */
    method TakeBatch(ghost home: string) returns (ok: bool, batch: seq<Key>)
      requires pending != []
      modifies `pending
      ensures ok ==> TakenFrom(old(pending), pending, batch) && OneBucket(batch)
      ensures ok ==> |batch| == if |old(pending)| < MAX_BATCH then |old(pending)| else MAX_BATCH
      ensures AtHome(old(pending), home) ==> ok
    {
      batch := [];
      var bucket := "";
      ghost var all := pending;
      while pending != []
        invariant TakenFrom(all, pending, batch) && |batch| < MAX_BATCH
        invariant AllNear(batch, bucket)
        invariant AtHome(all, home) ==> bucket == "" || bucket == home
        decreases |pending|
      {
        var k := pending[|pending| - 1];
        assert k in all;
        if AtHome(all, home) {
          SlashAfterBucket(k, home, 1);
        }
        if bucket == "" {
          var i := FindSlash(k, 1);
          if i < 0 {
            return false, batch;
          }
          bucket := k[1..i];
        }
        if !InBucket(k, bucket) {
          return false, batch;
        }
        OneMoreTaken(all, pending, batch);
        batch := batch + [k];
        pending := pending[..|pending| - 1];
        assert AllNear(batch, bucket);
        if |batch| >= MAX_BATCH {
          break;
        }
      }
      assert AllNear(batch, bucket);
      ok := true;
    }

    /** DeleteS3Send: one request with the greatest keys, at most MAX_BATCH of them. */
    method Send(ghost home: string) returns (o: Outcome)
      requires Valid()
      modifies this
      ensures o.Ok? ==> Valid() && State() == Flush(old(State())) && PushedKeys(events) == old(PushedKeys(events))
      ensures o.Ok? ==> |pending| <= if |old(pending)| <= MAX_BATCH then 0 else |old(pending)| - MAX_BATCH
      ensures !o.Ok? ==> events == old(events) && batches == old(batches)
      ensures o.SendFailed? ==> !network(|batches|)
      ensures AtHome(old(pending), home) ==> !o.InvalidData? && (o.Ok? ==> AtHome(pending, home))
      ensures !o.ListingFailed?
    {
      hide StoryOk, TakenFrom, Ascending, Ordered, Sort, Unique, AtHome, OneBucket, PushedKeys, Sends;
      ghost var before := State();
      FlushKeeps(before);
      StaysAtHome(pending, Flush(before).pending, home);
      if pending == [] {
        return Ok;
      }
      SortSorts(pending);
      UniqueOfOrdered(Sort(pending));
      SameKeysAtHome(pending, Unique(Sort(pending)), home);
      pending := Unique(Sort(pending));
      ghost var all := pending;
      var ok, batch := TakeBatch(home);
      if !ok {
        return InvalidData;
      }
      if !network(|batches|) {
        return SendFailed;
      }
      TakenAreGreatest(all, pending, batch);
      events := events + Sends(batch);
      batches := batches + [batch];
      return Ok;
    }

    /** push_back, and a request when the list has become too long. */
    method Push(key: Key, ghost home: string) returns (o: Outcome)
      requires Valid() && |pending| <= MAX_BATCH
      modifies this
      ensures o.Ok? ==> Valid() && |pending| <= MAX_BATCH && State() == Enter(old(State()), key)
      ensures o.Ok? ==> PushedKeys(events) == old(PushedKeys(events)) + [key]
      ensures !o.Ok? ==> Safe(State()) && BatchesOk() && PushedKeys(events) == old(PushedKeys(events)) + [key]
      ensures !o.ListingFailed? && (o.SendFailed? ==> !network(|batches|))
      ensures AtHome(old(pending), home) && InBucket(key, home) ==> !o.InvalidData? && (o.Ok? ==> AtHome(pending, home))
    {
      PushKeeps(State(), key);
      hide StoryOk, PushedKeys, Flush;
      events := events + [Pushed(key)];
      pending := pending + [key];
      OkIsSafe(State());
      o := Ok;
      if |pending| > MAX_BATCH {
        o := Send(home);
      }
    }

    /** DeleteS3Internal: first what is beneath a folder, then the folder itself. */
    method DeleteInternal(prefix: string, entries: seq<Entry>, ghost home: string) returns (o: Outcome)
      requires Valid() && |pending| <= MAX_BATCH
      modifies this
      ensures o.Ok? ==> Valid() && |pending| <= MAX_BATCH && State() == EnterAll(old(State()), Pushes(prefix, entries))
      ensures o.Ok? ==> PushedKeys(events) == old(PushedKeys(events)) + Pushes(prefix, entries)
      ensures !o.Ok? ==> Safe(State()) && BatchesOk() && PushedKeys(events) <= old(PushedKeys(events)) + Pushes(prefix, entries)
      ensures AtHome(old(pending), home) && AtHome(Pushes(prefix, entries), home) ==> !o.InvalidData? && (o.Ok? ==> AtHome(pending, home))
      ensures (o.ListingFailed? ==> SomeListingFails(prefix, entries)) && (o.Ok? ==> !SomeListingFails(prefix, entries))
      ensures o.SendFailed? ==> !network(|batches|)
      decreases entries
    {
      hide Deleter.BatchesOk, SomeListingFails, StoryOk, Safe, BatchOk, KeyOf, PushedKeys, Pushes, AtHome, InBucket, IsFolder, EnterAll, Enter;
      NothingToPush(prefix);
      ghost var first := State();
      ghost var clean := AtHome(pending, home) && AtHome(Pushes(prefix, entries), home);
      ghost var done: seq<Key>, pushed := [], PushedKeys(events);
      EnterNone(first);
      assert entries[0..] == entries;
      o := Ok;
      var i := 0;
      while i < |entries|
        invariant i <= |entries| && o.Ok? && Valid() && |pending| <= MAX_BATCH
        invariant done + Pushes(prefix, entries[i..]) == Pushes(prefix, entries)
        invariant State() == EnterAll(first, done) && PushedKeys(events) == pushed + done
        invariant clean ==> AtHome(pending, home)
        invariant SomeListingFails(prefix, entries) <==> SomeListingFails(prefix, entries[i..])
      {
        ListingFailsAt(prefix, entries, i);
        var e := entries[i];
        var key := KeyOf(prefix, e);
        ghost var below := if IsFolder(key) && e.listing.Listed? then Pushes(key, e.listing.entries) else [];
        ghost var rest := Pushes(prefix, entries[i + 1..]);
        PushesStep(prefix, entries, i);
        Regroup(done, below + [key], rest);
        PartsAtHome(done, below, key, rest, home);
        OneEntryMore(first, done, below, key);
        if IsFolder(key) {
          if e.listing.Failed? {
            OkIsSafe(State());
            return ListingFailed;
          }
          if e.listing.Listed? {
            o := DeleteInternal(key, e.listing.entries, home);
            if !o.Ok? {
              PrefixOf(PushedKeys(events), pushed, done, below, [key] + rest);
              return;
            }
          }
        }
        Regroup(pushed, done, below);
        o := Push(key, home);
        if !o.Ok? {
          PrefixOf(PushedKeys(events), pushed, done, below + [key], rest);
          return;
        }
        Regroup(pushed + done, below, [key]);
        Regroup(pushed, done, below + [key]);
        done := done + (below + [key]);
        i := i + 1;
      }
      assert entries[i..] == [] && done + [] == done;
      NoListingFails(prefix);
    }

    /**
     DeleteS3. The order of the requests, which also holds for those sent before a failure: contents
     first for every key that all listings of the folder lead to, and after a complete delete the
     last request for a folder after all that any listing of it has led to. Within one bucket it fails
     exactly when a listing that it makes fails or the server refuses a request.
     */
    method Delete(entries: seq<Entry>, ghost home: string) returns (o: Outcome)
      requires events == [] && batches == []
      modifies this
      ensures o.Ok? ==> pending == [] && PushedKeys(events) == Pushes("", entries) && ChildrenFirst(events)
      ensures o.Ok? ==> Keys(Concat(batches)) == Keys(Pushes("", entries))
      ensures o.Ok? ==> batches == Whole(Pushes("", entries)).batches && FoldersLast(entries, Concat(batches))
      ensures ContentsFirst(entries, Concat(batches)) && Concat(batches) == SentKeys(events)
      ensures forall b :: b in batches ==> BatchOk(b)
      ensures AtHome(Pushes("", entries), home) ==> !o.InvalidData?
      ensures o.ListingFailed? ==> SomeListingFails("", entries)
      ensures o.SendFailed? ==> !network(|batches|)
      ensures o.Ok? ==> !SomeListingFails("", entries) && forall k: nat :: k < |batches| ==> network(k)
    {
      pending := [];
      assert [] + Pushes("", entries) == Pushes("", entries);
      o := DeleteInternal("", entries, home);
      if o.Ok? {
        OkIsSafe(State());
        o := Send(home);
        if o.Ok? {
          OkIsSafe(State());
        }
      }
      hide StoryOk, PushedKeys, SentKeys, Whole;
      ContentsGoFirst(entries, State());
      WholeKeeps(Pushes("", entries));
      FoldersGoLast(entries);
    }
  }
}
