/** What the multipart uploader guarantees in every run, whatever the environment does. */
module UploadTheorems {
  import opened Bytes
  import opened PartPlan
  import opened UploadState
  import opened UploadInvariants
  import UploadSteps
  import PoolState
  import PoolTheorems

  // ---------------------------------------------------------------- every reachable state

  lemma {:induction false} FreshTries(cfg: Config, parts: seq<Part>)
    requires forall i :: 0 <= i < |parts| ==> !parts[i].complete && parts[i].retry == 0
    ensures TriesLeft(cfg, parts) == |parts| * (cfg.maxRetries + 1)
  {
    if parts != [] {
      var n := |parts| - 1;
      FreshTries(cfg, parts[..n]);
      assert |parts| * (cfg.maxRetries + 1) == n * (cfg.maxRetries + 1) + (cfg.maxRetries + 1);
    }
  }

  lemma SlicesInFile(plan: seq<Slice>, total: nat, len: nat, i: nat)
    requires Tiles(plan, total, len) && i < |plan|
    ensures plan[i].base + plan[i].size <= total
    decreases |plan| - i
  {
    if i < |plan| - 1 { SlicesInFile(plan, total, len, i + 1); }
  }

  lemma InitialInv(cfg: Config)
    requires ConfigOk(cfg)
    ensures Inv(Initial(cfg))
  {
    hide PoolState.PoolOk, TriesLeft, PartOk, PoolState.NumActive;
    var s := Initial(cfg);
    var len :| Tiles(cfg.plan, |cfg.file|, len);
    FreshTries(cfg, s.parts);
    EmptyPool(cfg.maxThreads);
    forall i | 0 <= i < |s.parts| ensures PartOk(cfg, s.parts[i]) {
      SlicesInFile(cfg.plan, |cfg.file|, len, i);
      FreshPart(cfg, s.parts[i]);
    }
  }

  lemma EmptyPool(maxThreads: nat)
    ensures var p := PoolState.Pool([], [], 0, {}, 1, maxThreads);
      PoolState.PoolOk(p) && PoolState.NumActive(p.workers) == 0
  {
  }

  lemma FreshPart(cfg: Config, p: Part)
    requires p == Part(p.slice, 0, false, false, 0, 0, [], 0, [], []) && InFile(cfg, p) && p.slice.size > 0
    ensures PartOk(cfg, p)
  {
  }

  lemma {:induction false} RunKeeps(s: Upload, run: seq<Step>)
    requires Inv(s) && ValidRun(s, run)
    ensures Inv(Exec(s, run))
    decreases |run|
  {
    hide Inv, Apply;
    if run != [] {
      UploadSteps.StepKeepsInv(s, run[0]);
      RunKeeps(Apply(s, run[0]), run[1..]);
    }
  }

  lemma Reached(cfg: Config, run: seq<Step>)
    requires ConfigOk(cfg) && ValidRun(Initial(cfg), run)
    ensures Inv(Exec(Initial(cfg), run)) && Exec(Initial(cfg), run).cfg == cfg
  {
    hide Inv, Apply;
    InitialInv(cfg);
    RunKeeps(Initial(cfg), run);
    SameConfig(Initial(cfg), run);
  }

  lemma {:induction false} SameConfig(s: Upload, run: seq<Step>)
    requires ValidRun(s, run)
    ensures Exec(s, run).cfg == s.cfg
    decreases |run|
  {
    if run != [] {
      assert Apply(s, run[0]).cfg == s.cfg;
      SameConfig(Apply(s, run[0]), run[1..]);
    }
  }

  // ---------------------------------------------------------------- the bytes on the wire

  /**
   Whatever interleaving of reads, pushes, pops, partial writes and retries happened: the bytes a
   request has written are the first bytes of its slice of the file, and once the sender has
   removed the entry marked last they are the whole slice, of the length announced in the header.
   */
  lemma WireIsTheSlice(cfg: Config, run: seq<Step>, id: nat)
    requires ConfigOk(cfg) && ValidRun(Initial(cfg), run)
    requires IsSending(Exec(Initial(cfg), run), id)
    ensures var s := Exec(Initial(cfg), run);
      var p, sd := PartOf(s, id), s.msgs[id].phase.sender;
      && p.slice.base + p.slice.size <= |cfg.file|
      && sd.wire <= cfg.file[p.slice.base..p.slice.base + p.slice.size]
      && (sd.sentLast ==> sd.wire == cfg.file[p.slice.base..p.slice.base + p.slice.size] && |sd.wire| == p.slice.size)
  {
    hide PoolInv, OrchInv, BudgetInv, CallsInv, ConfigOk;
    Reached(cfg, run);
    var s := Exec(Initial(cfg), run);
    UploadSteps.SendingMessage(s, id);
    WirePrefix(cfg, s.msgs[id].phase.sender, PartOf(s, id));
  }

  lemma WirePrefix(cfg: Config, sd: Sender, p: Part)
    requires PartOk(cfg, p) && SenderOk(cfg, sd, p)
    ensures sd.wire <= Body(cfg, p, p.slice.size)
    ensures sd.sentLast ==> sd.wire == Body(cfg, p, p.slice.size)
  {
    hide Flat;
    if sd.sentLast {
      UploadSteps.SentLastMeansAll(cfg, sd, p);
    } else if sd.round == 0 {
      FlatPrefix(p.pushed, p.popped);
      if sd.loaded {
        FlatNext(p.pushed, p.popped);
        FlatPrefix(p.pushed, p.popped + 1);
      }
      assert Body(cfg, p, p.cursor) <= Body(cfg, p, p.slice.size);
    }
  }

  ghost function CountLast(es: seq<Entry>): nat {
    if es == [] then 0 else CountLast(es[..|es| - 1]) + if es[|es| - 1].last then 1 else 0
  }

  lemma {:induction false} NoLast(es: seq<Entry>)
    requires forall k :: 0 <= k < |es| ==> !es[k].last
    ensures CountLast(es) == 0
  {
    if es != [] { NoLast(es[..|es| - 1]); }
  }

  /**
   The entries queued in one attempt are the file's bytes from the part's start, in order, and
   exactly one of them is marked last once the part is fully fed, none before. The queue never
   holds more entries than configured.
   */
  lemma AttemptFeedsTheSlice(cfg: Config, run: seq<Step>, i: nat)
    requires ConfigOk(cfg) && ValidRun(Initial(cfg), run) && i < |Exec(Initial(cfg), run).parts|
    ensures var p := Exec(Initial(cfg), run).parts[i];
      && p.cursor <= p.slice.size && p.slice.base + p.slice.size <= |cfg.file|
      && Flat(p.pushed) == cfg.file[p.slice.base..p.slice.base + p.cursor]
      && CountLast(p.pushed) == (if p.cursor == p.slice.size then 1 else 0)
      && p.popped <= |p.pushed| && |p.Stream()| <= cfg.queueMax
  {
    hide PoolInv, OrchInv, BudgetInv, CallsInv, ConfigOk, MsgsInv;
    Reached(cfg, run);
    var p := Exec(Initial(cfg), run).parts[i];
    assert PartOk(cfg, p);
    if p.pushed != [] {
      NoLast(p.pushed[..|p.pushed| - 1]);
    }
  }

  // ---------------------------------------------------------------- pending list and pool

  /** The uploader never waits for nothing, and never has more threads than allowed. */
  lemma NeverWaitsForNothing(cfg: Config, run: seq<Step>)
    requires ConfigOk(cfg) && ValidRun(Initial(cfg), run)
    ensures var s := Exec(Initial(cfg), run);
      (s.orch.Wait? ==> s.pending != []) && PoolState.NumActive(s.pool.workers) <= cfg.maxThreads
  {
    hide PartsInv, MsgsInv, BudgetInv, CallsInv, ConfigOk, PoolState.PoolOk;
    Reached(cfg, run);
  }

  /** The messages that are still in the pool queue although the pending list has dropped them. */
  ghost function Leftover(s: Upload): set<nat> {
    set k | 0 <= k < |s.pool.queue| && s.pool.queue[k].id !in s.pending :: s.pool.queue[k].id
  }

  lemma LeftoverIsHeld(s: Upload, k: nat)
    requires MsgsInv(s) && PoolInv(s) && k < |s.pool.queue| && s.pool.queue[k].id !in s.pending
    ensures s.pool.queue[k].processing && s.pool.queue[k].id in PoolState.HeldIds(s.pool.workers)
  {
    var e := s.pool.queue[k];
    assert e in s.pool.queue && MsgFits(s, e.id);
    assert e.id in PoolState.ProcessingIds(s.pool.queue);
  }

  lemma LeftoverFits(s: Upload)
    requires MsgsInv(s) && PoolInv(s)
    ensures Leftover(s) <= PoolState.HeldIds(s.pool.workers) && |Leftover(s)| <= s.cfg.maxThreads
  {
    forall id | id in Leftover(s) ensures id in PoolState.HeldIds(s.pool.workers) {
      var k :| 0 <= k < |s.pool.queue| && s.pool.queue[k].id !in s.pending && s.pool.queue[k].id == id;
      LeftoverIsHeld(s, k);
    }
    hide MsgsInv, Leftover, PoolState.HeldIds, PoolState.QueueInv, PoolState.GroupInv;
    PoolTheorems.HeldCount(s.pool.workers);
    SubsetIsSmaller(Leftover(s), PoolState.HeldIds(s.pool.workers));
  }

  ghost predicate HeldByLive(p: PoolState.Pool, id: nat, w: nat) {
    PoolTheorems.HeldBy(p, id, w) && p.workers[w].active
  }

  lemma HeldByOne(p: PoolState.Pool, id: nat)
    requires PoolState.HoldInv(p) && id in PoolState.HeldIds(p.workers)
    ensures exists w :: HeldByLive(p, id, w)
    ensures forall v: nat, w: nat :: HeldByLive(p, id, v) && HeldByLive(p, id, w) ==> v == w
  {
    var w :| 0 <= w < |p.workers| && p.workers[w].hold.Message? && p.workers[w].hold.id == id;
    assert HeldByLive(p, id, w);
  }

  /**
   A message that was purged from the pending list while the pool still queues it is held by exactly
   one live worker; so there are never more of them than threads are allowed.
   */
  lemma PurgedMessagesAreHeld(cfg: Config, run: seq<Step>, id: nat)
    requires ConfigOk(cfg) && ValidRun(Initial(cfg), run) && id in Leftover(Exec(Initial(cfg), run))
    ensures |Leftover(Exec(Initial(cfg), run))| <= cfg.maxThreads
    ensures exists w :: HeldByLive(Exec(Initial(cfg), run).pool, id, w)
    ensures forall v: nat, w: nat :: HeldByLive(Exec(Initial(cfg), run).pool, id, v) && HeldByLive(Exec(Initial(cfg), run).pool, id, w) ==> v == w
  {
    hide Exec, ValidRun, Leftover, PartsInv, OrchInv, BudgetInv, CallsInv, ConfigOk, MsgsInv, PoolState.HeldIds, PoolState.HoldInv, HeldByLive;
    Reached(cfg, run);
    LeftoverFits(Exec(Initial(cfg), run));
    HeldByOne(Exec(Initial(cfg), run).pool, id);
  }

  lemma SubsetIsSmaller<T>(a: set<T>, b: set<T>)
    requires a <= b
    ensures |a| <= |b|
  {
    assert b == a + (b - a);
  }

  /** A part is in process and not complete exactly when one pending message, and only one, is for it. */
  lemma OnePendingMessagePerPart(cfg: Config, run: seq<Step>, i: nat)
    requires ConfigOk(cfg) && ValidRun(Initial(cfg), run) && i < |Exec(Initial(cfg), run).parts|
    ensures var s := Exec(Initial(cfg), run);
      && (forall k :: 0 <= k < |s.pending| ==> s.pending[k] in s.msgs)
      && (s.parts[i].inProcess && !s.parts[i].complete <==>
            exists k :: 0 <= k < |s.pending| && s.msgs[s.pending[k]].part == i)
      && (forall j, k :: 0 <= j < k < |s.pending| ==> !(s.msgs[s.pending[j]].part == i == s.msgs[s.pending[k]].part))
  {
    hide PoolInv, OrchInv, BudgetInv, CallsInv, ConfigOk, PartOk, SenderOk;
    Reached(cfg, run);
    var s := Exec(Initial(cfg), run);
    assert Linked(s, i);
    forall k | 0 <= k < |s.pending| ensures s.pending[k] in s.msgs && s.msgs[s.pending[k]].part < |s.parts|
      && s.parts[s.msgs[s.pending[k]].part].owner == s.pending[k]
      && s.parts[s.msgs[s.pending[k]].part].inProcess && !s.parts[s.msgs[s.pending[k]].part].complete
    {
      assert MsgFits(s, s.pending[k]);
    }
  }

  // ---------------------------------------------------------------- retries and the end

  /** How often the run handed part i to the pool. */
  ghost function Attempts(s: Upload, run: seq<Step>, i: nat): nat
    requires ValidRun(s, run)
    decreases |run|
  {
    if run == [] then 0
    else Attempts(Apply(s, run[0]), run[1..], i) + if run[0].ScanClaim? && s.orch.next == i then 1 else 0
  }

  /** Attempts that ended in a retry, and the one under way or done. */
  ghost function Begun(p: Part): nat {
    p.retry + if p.inProcess then 1 else 0
  }

  lemma BegunByStep(s: Upload, step: Step, i: nat)
    requires Inv(s) && Enabled(s, step) && i < |s.parts|
    ensures |Apply(s, step).parts| == |s.parts|
    ensures Begun(Apply(s, step).parts[i]) == Begun(s.parts[i]) + if step.ScanClaim? && s.orch.next == i then 1 else 0
  {
    hide PoolInv, BudgetInv, CallsInv, ConfigOk, PartOk, SenderOk, PartsInv, OrchInv, MsgsInv, MoreToFill, MoreToRefill, ReadSize;
    hide MayThrow, Flat, Body;
    if step.PurgeRetry? { UploadSteps.ListedMessage(s, s.orch.at); }
  }

  lemma {:induction false} BegunByRun(s: Upload, run: seq<Step>, i: nat)
    requires Inv(s) && ValidRun(s, run) && i < |s.parts|
    ensures |Exec(s, run).parts| == |s.parts|
    ensures Begun(Exec(s, run).parts[i]) == Begun(s.parts[i]) + Attempts(s, run, i)
    decreases |run|
  {
    hide Inv, Apply, Enabled;
    if run != [] {
      UploadSteps.StepKeepsInv(s, run[0]);
      BegunByStep(s, run[0], i);
      BegunByRun(Apply(s, run[0]), run[1..], i);
    }
  }

  /** No part is tried more often than the configured number of retries allows. */
  lemma AttemptsAreBounded(cfg: Config, run: seq<Step>, i: nat)
    requires ConfigOk(cfg) && ValidRun(Initial(cfg), run) && i < |cfg.plan|
    ensures Attempts(Initial(cfg), run, i) <= cfg.maxRetries + 1
  {
    hide PoolInv, OrchInv, BudgetInv, CallsInv, ConfigOk, MsgsInv, Apply, Enabled;
    InitialInv(cfg);
    Reached(cfg, run);
    BegunByRun(Initial(cfg), run, i);
    assert PartOk(cfg, Exec(Initial(cfg), run).parts[i]);
  }

  /** Every finished message uses up a try, so their number is bounded over the whole run. */
  lemma PurgesAreBounded(cfg: Config, run: seq<Step>)
    requires ConfigOk(cfg) && ValidRun(Initial(cfg), run)
    ensures Exec(Initial(cfg), run).purges <= |cfg.plan| * (cfg.maxRetries + 1)
  {
    hide PoolInv, OrchInv, CallsInv, ConfigOk, MsgsInv, Apply, Enabled;
    Reached(cfg, run);
    var s := Exec(Initial(cfg), run);
    TriesAreNatural(cfg, s.parts);
  }

  lemma {:induction false} TriesAreNatural(cfg: Config, parts: seq<Part>)
    requires forall i :: 0 <= i < |parts| ==> parts[i].retry <= cfg.maxRetries
    ensures TriesLeft(cfg, parts) >= 0
  {
    if parts != [] { TriesAreNatural(cfg, parts[..|parts| - 1]); }
  }

  lemma PurgeUsesATry(s: Upload, step: Step)
    requires Inv(s) && Enabled(s, step) && (step.PurgeRetry? || step.PurgeDone?)
    ensures TriesLeft(s.cfg, Apply(s, step).parts) < TriesLeft(s.cfg, s.parts)
    ensures Apply(s, step).purges == s.purges + 1
  {
    if step.PurgeRetry? { UploadSteps.PurgeRetryKeeps(s); } else { UploadSteps.PurgeDoneKeeps(s); }
  }

  /** The object the server puts together: the accepted request bodies in part order. */
  function Assembled(parts: seq<Part>): seq<byte> {
    if parts == [] then [] else Assembled(parts[..|parts| - 1]) + parts[|parts| - 1].uploaded
  }

  ghost predicate Accepted(cfg: Config, p: Part) {
    InFile(cfg, p) && p.uploaded == cfg.file[p.slice.base..p.slice.base + p.slice.size]
  }

  lemma {:induction false} AssembledPrefix(cfg: Config, parts: seq<Part>, len: nat, k: nat)
    requires Tiles(cfg.plan, |cfg.file|, len) && |parts| == |cfg.plan| && k < |parts|
    requires forall i :: 0 <= i < |parts| ==> parts[i].slice == cfg.plan[i] && Accepted(cfg, parts[i])
    ensures cfg.plan[k].base + cfg.plan[k].size <= |cfg.file|
    ensures Assembled(parts[..k + 1]) == cfg.file[..cfg.plan[k].base + cfg.plan[k].size]
  {
    hide PartOk, Flat, Body;
    var p := parts[k];
    assert Accepted(cfg, p);
    assert Assembled(parts[..k]) == cfg.file[..p.slice.base] by {
      hide Accepted;
      if k > 0 { AssembledPrefix(cfg, parts, len, k - 1); }
    }
    hide Tiles;
    OneMorePart(parts, k);
    Joined(cfg.file, p.slice.base, p.slice.size);
  }

  lemma OneMorePart(parts: seq<Part>, k: nat)
    requires k < |parts|
    ensures Assembled(parts[..k + 1]) == Assembled(parts[..k]) + parts[k].uploaded
  {
    assert parts[..k + 1][..k] == parts[..k];
  }

  lemma Joined(file: seq<byte>, base: nat, size: nat)
    requires base + size <= |file|
    ensures file[..base] + file[base..base + size] == file[..base + size]
  {
  }

  lemma CompleteIsAccepted(cfg: Config, p: Part)
    requires PartOk(cfg, p) && p.complete
    ensures Accepted(cfg, p)
  {
    hide Flat;
    assert Body(cfg, p, p.slice.size) == cfg.file[p.slice.base..p.slice.base + p.slice.size];
  }

  lemma AllPartsMakeTheFile(cfg: Config, s: Upload, len: nat)
    requires s.cfg == cfg && PartsInv(s) && AllComplete(s) && Tiles(cfg.plan, |cfg.file|, len)
    ensures Assembled(s.parts) == cfg.file
  {
    hide PartOk, Accepted;
    forall i | 0 <= i < |s.parts| ensures Accepted(cfg, s.parts[i]) { CompleteIsAccepted(cfg, s.parts[i]); }
    var last := |s.parts| - 1;
    AssembledPrefix(cfg, s.parts, len, last);
    assert s.parts[..last + 1] == s.parts && cfg.file[..|cfg.file|] == cfg.file;
  }

  /**
   A run that reports success has called "complete" exactly once, after every part was accepted,
   and the parts the server joins are the file. A run that reports failure has called "abort"
   exactly once, as its last call, and no completion succeeded.
   */
  lemma EndOfTheRun(cfg: Config, run: seq<Step>)
    requires ConfigOk(cfg) && ValidRun(Initial(cfg), run) && Exec(Initial(cfg), run).orch.Ended?
    ensures var s := Exec(Initial(cfg), run);
      if s.orch.ok then
        s.calls == [Initiated, Completed] && AllComplete(s) && Assembled(s.parts) == cfg.file
      else
        s.calls == [Initiated, Aborted] || s.calls == [Initiated, CompleteFailed, Aborted]
  {
    hide PoolInv, MsgsInv, BudgetInv, Apply, Enabled, PartsInv, Assembled, Exec, ValidRun;
    Reached(cfg, run);
    var s := Exec(Initial(cfg), run);
    if s.orch.ok {
      var len :| Tiles(cfg.plan, |cfg.file|, len);
      AllPartsMakeTheFile(cfg, s, len);
    }
  }
}
