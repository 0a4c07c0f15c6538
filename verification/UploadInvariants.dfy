/**
 The invariant of the multipart uploader; UploadSteps.dfy proves that every step keeps it. The
 predicates about one part and one message take values, not states, so a step only has to be examined
 for the part and the message it touches.
 */
module UploadInvariants {
  import opened Bytes
  import opened PoolState
  import opened PoolInvariants
  import PoolTheorems
  import opened PartPlan
  import opened UploadState

  /** The bytes of a list of stream entries. */
  ghost function Flat(es: seq<Entry>): seq<byte> {
    if es == [] then [] else Flat(es[..|es| - 1]) + es[|es| - 1].data
  }

  lemma FlatAppend(es: seq<Entry>, e: Entry)
    ensures Flat(es + [e]) == Flat(es) + e.data
  {
    assert (es + [e])[..|es|] == es;
  }

  lemma {:induction false} FlatPrefix(es: seq<Entry>, k: nat)
    requires k <= |es|
    ensures Flat(es[..k]) <= Flat(es)
  {
    if k == |es| {
      assert es[..k] == es;
    } else {
      FlatPrefix(es[..|es| - 1], k);
      assert es[..|es| - 1][..k] == es[..k];
    }
  }

  lemma FlatNext(es: seq<Entry>, k: nat)
    requires k < |es|
    ensures Flat(es[..k + 1]) == Flat(es[..k]) + es[k].data
  {
    assert es[..k + 1] == es[..k] + [es[k]];
    FlatAppend(es[..k], es[k]);
  }

  /** The bytes [base, base + n) of the file, for a part that lies inside it. */
  ghost function Body(cfg: Config, p: Part, n: nat): seq<byte> {
    if InFile(cfg, p) && n <= p.slice.size then cfg.file[p.slice.base..p.slice.base + n] else []
  }

  // ---------------------------------------------------------------- predicates

  ghost predicate ConfigOk(cfg: Config) {
    && cfg.bufSize > 0 && cfg.queueMax > 0 && cfg.maxThreads > 0
    && (exists len :: Tiles(cfg.plan, |cfg.file|, len))
  }

  /** One part: what was read, what was queued, and where the end marker is. */
  ghost predicate PartOk(cfg: Config, p: Part) {
    && InFile(cfg, p) && p.slice.size > 0
    && p.cursor <= p.slice.size && p.popped <= |p.pushed| && p.retry <= cfg.maxRetries
    && |p.pushed| - p.popped <= cfg.queueMax
    && Flat(p.pushed) == Body(cfg, p, p.cursor)
    && (forall k :: 0 <= k < |p.pushed| ==>
          |p.pushed[k].data| > 0 && (p.pushed[k].last <==> k == |p.pushed| - 1 && p.cursor == p.slice.size))
    && (!p.inProcess ==> p.cursor == 0 && !p.complete)
    && (p.complete ==> p.uploaded == Body(cfg, p, p.slice.size))
  }

  /** What the sender has written, against what was queued for it. */
  ghost predicate SenderOk(cfg: Config, sd: Sender, p: Part) {
    && p.popped <= |p.pushed|
    && (sd.loaded ==> !sd.sentLast && p.popped < |p.pushed| && sd.sent <= |p.pushed[p.popped].data|)
    && (sd.round == 0 ==>
          && sd.wire == Flat(p.pushed[..p.popped]) + (if sd.loaded then p.pushed[p.popped].data[..sd.sent] else [])
          && (sd.sentLast <==> p.popped > 0 && p.pushed[p.popped - 1].last))
    && (sd.round > 0 ==> sd.wire == [] && !sd.sentLast && p.popped == |p.pushed| && p.cursor == p.slice.size)
  }

  /** One message and its part; `listed` says whether it is in the pending list. */
  ghost predicate MsgOk(cfg: Config, id: nat, m: Msg, p: Part, listed: bool) {
    && (!m.phase.Reported? ==> listed && !m.complete)
    && (listed ==> p.owner == id && p.inProcess && !p.complete)
    && (listed && m.phase.Reported? ==> m.complete)
    && (m.phase.Filling? || m.phase.Queued? ==> p.popped == 0)
    && (m.phase.Sending? ==> SenderOk(cfg, m.phase.sender, p))
    && (listed && (m.phase.Returned? || m.phase.Reported?) && !m.error ==> p.uploaded == Body(cfg, p, p.slice.size))
  }

  ghost predicate PartsInv(s: Upload) {
    && |s.parts| == |s.cfg.plan|
    && (forall i :: 0 <= i < |s.parts| ==> s.parts[i].slice == s.cfg.plan[i] && PartOk(s.cfg, s.parts[i]))
  }

  /** A part in process has its message in the pending list. */
  ghost predicate Linked(s: Upload, i: nat)
    requires i < |s.parts|
  {
    s.parts[i].inProcess && !s.parts[i].complete ==>
      s.parts[i].owner in s.pending && s.parts[i].owner in s.msgs && s.msgs[s.parts[i].owner].part == i
  }

  ghost predicate MsgFits(s: Upload, id: nat)
    requires id in s.msgs
  {
    s.msgs[id].part < |s.parts| && MsgOk(s.cfg, id, s.msgs[id], s.parts[s.msgs[id].part], id in s.pending)
  }

  ghost predicate MsgsInv(s: Upload) {
    && (forall id :: id in s.msgs ==> MsgFits(s, id))
    && (forall i :: 0 <= i < |s.parts| ==> Linked(s, i))
    && (forall k :: 0 <= k < |s.pending| ==> s.pending[k] in s.msgs)
    && (forall j, k :: 0 <= j < k < |s.pending| ==> s.pending[j] != s.pending[k])
  }

  /** A queue entry nobody processes is a message nobody has worked on, and conversely. */
  ghost predicate EntryOk(e: MsgEntry, m: Msg) {
    !m.phase.Filling? && (e.processing <==> !m.phase.Queued?)
  }

  /** Ids are handed out in order; a message that is being filled is not in the pool yet. */
  ghost predicate PoolInv(s: Upload) {
    && PoolOk(s.pool) && LimitInv(s.pool)
    && s.pool.minThreads == 1 <= s.pool.maxThreads == s.cfg.maxThreads
    && (forall id :: id in s.msgs ==> id <= s.pool.nextId)
    && (s.pool.nextId in s.msgs ==>
          s.msgs[s.pool.nextId].phase.Filling? && (s.orch.Fill? || s.orch.Failing? || s.orch.Ended?))
    && (forall e :: e in s.pool.queue ==> e.id in s.msgs && EntryOk(e, s.msgs[e.id]))
  }

  ghost predicate AllComplete(s: Upload) {
    forall i :: 0 <= i < |s.parts| ==> s.parts[i].complete
  }

  /** What the orchestrator knows at each of its places. */
  ghost predicate OrchInv(s: Upload) {
    match s.orch
    case Scan(next, allDone) =>
      && next <= |s.parts|
      && (forall j :: 0 <= j < next ==> !Unclaimed(s.parts[j]) && (allDone ==> s.parts[j].complete))
      && (!allDone ==> s.pending != [])
    case Fill(i, id, offset, records) =>
      && i < |s.parts| && s.parts[i].owner == id == s.pool.nextId
      && id in s.msgs && id in s.pending && s.msgs[id] == Msg(i, Filling, false, false)
      && s.parts[i].cursor <= offset <= s.parts[i].slice.size && records == |s.parts[i].pushed|
      && (records < s.cfg.queueMax ==> s.parts[i].cursor == offset)
      && (forall j :: 0 <= j <= i ==> !Unclaimed(s.parts[j]))
    case Wait => s.pending != []
    case Purge(at, deleted) => at <= |s.pending| && (!deleted ==> s.pending != [])
    case Refill(at, deleted, chunk) =>
      && at < |s.pending| && s.pending[at] in s.msgs && s.msgs[s.pending[at]].part < |s.parts|
      && !s.msgs[s.pending[at]].complete && 0 < |chunk|
      && var p := s.parts[s.msgs[s.pending[at]].part];
         && p.cursor + |chunk| <= p.slice.size && |p.pushed| - p.popped < s.cfg.queueMax
         && InFile(s.cfg, p) && chunk == s.cfg.file[p.slice.base + p.cursor..p.slice.base + p.cursor + |chunk|]
    case Finishing => AllComplete(s)
    case Failing => true
    case Ended(ok) => ok ==> AllComplete(s)
  }

  /** The calls to the server: one start, at most one completion, one abort after a failure. */
  ghost predicate CallsInv(s: Upload) {
    match s.orch
    case Failing => s.calls == [Initiated] || s.calls == [Initiated, CompleteFailed]
    case Ended(ok) =>
      if ok then s.calls == [Initiated, Completed]
      else s.calls == [Initiated, Aborted] || s.calls == [Initiated, CompleteFailed, Aborted]
    case _ => s.calls == [Initiated]
  }

  /** How many more attempts the unfinished parts may make. */
  ghost function TriesLeft(cfg: Config, parts: seq<Part>): int {
    if parts == [] then 0
    else
      var p := parts[|parts| - 1];
      TriesLeft(cfg, parts[..|parts| - 1]) + if p.complete then 0 else cfg.maxRetries + 1 - p.retry
  }

  ghost predicate BudgetInv(s: Upload) {
    s.purges + TriesLeft(s.cfg, s.parts) <= |s.parts| * (s.cfg.maxRetries + 1)
  }

  ghost predicate Inv(s: Upload) {
    && ConfigOk(s.cfg) && PartsInv(s) && MsgsInv(s) && PoolInv(s) && OrchInv(s)
    && CallsInv(s) && BudgetInv(s)
  }
}
