/**
 Each step of the uploader keeps the invariant of UploadInvariants. The proofs hide the
 definitions they do not need; what a step leaves alone is settled once, in the frame lemmas.
 */
module UploadSteps {
  import opened Bytes
  import opened PoolState
  import opened PoolInvariants
  import PoolTheorems
  import opened PartPlan
  import opened UploadState
  import opened UploadInvariants

  // ---------------------------------------------------------------- frames

  /** Changing one listed message and its part, when both are well-formed afterwards. */
  lemma TouchKeeps(s: Upload, id: nat, m: Msg, p: Part)
    requires PartsInv(s) && MsgsInv(s) && id in s.msgs && id in s.pending
    requires m.part == s.msgs[id].part < |s.parts|
    requires var q := s.parts[m.part];
      p.slice == q.slice && p.owner == q.owner && p.inProcess == q.inProcess && p.complete == q.complete
    requires PartOk(s.cfg, p) && MsgOk(s.cfg, id, m, p, true)
    ensures PartsInv(s.(parts := s.parts[m.part := p], msgs := s.msgs[id := m]))
    ensures MsgsInv(s.(parts := s.parts[m.part := p], msgs := s.msgs[id := m]))
  {
    hide PartOk, SenderOk, Body;
    var s' := s.(parts := s.parts[m.part := p], msgs := s.msgs[id := m]);
    assert MsgFits(s, id);
    forall j | j in s'.msgs ensures MsgFits(s', j) { assert MsgFits(s, j) || j == id; }
    forall i | 0 <= i < |s'.parts| ensures Linked(s', i) { assert Linked(s, i); }
  }

  /** The pool does not notice a change that keeps a message on its side of the queue. */
  lemma PoolTouch(s: Upload, s': Upload, id: nat, m: Msg)
    requires PoolInv(s) && id in s.msgs && s'.pool == s.pool && s'.cfg == s.cfg && s'.msgs == s.msgs[id := m]
    requires m.phase.Filling? == s.msgs[id].phase.Filling? && m.phase.Queued? == s.msgs[id].phase.Queued?
    requires s.pool.nextId in s.msgs ==> s'.orch.Fill? || s'.orch.Failing? || s'.orch.Ended?
    ensures PoolInv(s')
  {
    hide PoolOk;
    forall e | e in s'.pool.queue ensures e.id in s'.msgs && EntryOk(e, s'.msgs[e.id]) {
      assert EntryOk(e, s.msgs[e.id]);
    }
  }

  lemma {:induction false} TriesUpdate(cfg: Config, parts: seq<Part>, i: nat, p: Part)
    requires i < |parts|
    ensures TriesLeft(cfg, parts[i := p]) == TriesLeft(cfg, parts)
      - (if parts[i].complete then 0 else cfg.maxRetries + 1 - parts[i].retry)
      + (if p.complete then 0 else cfg.maxRetries + 1 - p.retry)
  {
    var n := |parts| - 1;
    if i == n {
      assert parts[i := p][..n] == parts[..n];
    } else {
      assert parts[i := p][..n] == parts[..n][i := p];
      TriesUpdate(cfg, parts[..n], i, p);
    }
  }

  /** A step of the orchestrator that only moves it and logs a call. */
  lemma OnlyOrch(s: Upload, s': Upload)
    requires Inv(s) && s' == s.(orch := s'.orch, calls := s'.calls)
    requires OrchInv(s') && CallsInv(s')
    requires s.pool.nextId in s.msgs ==> s'.orch.Fill? || s'.orch.Failing? || s'.orch.Ended?
    ensures Inv(s')
  {
    hide PoolOk, PartOk, MsgOk, OrchInv, CallsInv, ConfigOk;
    assert MsgsInv(s') by {
      forall j | j in s'.msgs ensures MsgFits(s', j) { assert MsgFits(s, j); }
      forall i | 0 <= i < |s'.parts| ensures Linked(s', i) { assert Linked(s, i); }
    }
  }

  /** A step that changes one listed message and its part, and moves the orchestrator. */
  lemma Touch(s: Upload, s': Upload, id: nat, m: Msg, p: Part)
    requires Inv(s) && id in s.msgs && id in s.pending && m.part == s.msgs[id].part < |s.parts|
    requires s' == s.(parts := s.parts[m.part := p], msgs := s.msgs[id := m], orch := s'.orch)
    requires var q := s.parts[m.part];
      p.slice == q.slice && p.owner == q.owner && p.inProcess == q.inProcess && p.complete == q.complete && p.retry == q.retry
    requires PartOk(s.cfg, p) && MsgOk(s.cfg, id, m, p, true)
    requires m.phase.Filling? == s.msgs[id].phase.Filling? && m.phase.Queued? == s.msgs[id].phase.Queued?
    requires s.pool.nextId in s.msgs ==> s'.orch.Fill? || s'.orch.Failing? || s'.orch.Ended?
    requires OrchInv(s') && CallsInv(s')
    ensures Inv(s')
  {
    hide PoolOk, PartOk, MsgOk, OrchInv, CallsInv, ConfigOk, MsgsInv;
    TouchKeeps(s, id, m, p);
    var t := s.(parts := s.parts[m.part := p], msgs := s.msgs[id := m]);
    PoolTouch(s, s', id, m);
    TriesUpdate(s.cfg, s.parts, m.part, p);
    assert MsgsInv(s') by { SameMsgs(t, s'); }
  }

  lemma SameMsgs(t: Upload, s': Upload)
    requires MsgsInv(t) && s'.parts == t.parts && s'.msgs == t.msgs && s'.pending == t.pending && s'.cfg == t.cfg
    ensures MsgsInv(s')
  {
    hide MsgOk;
    forall j | j in s'.msgs ensures MsgFits(s', j) { assert MsgFits(t, j); }
    forall i | 0 <= i < |s'.parts| ensures Linked(s', i) { assert Linked(t, i); }
  }

  /** Changes a worker makes to its own message and part. */
  lemma WorkerTouch(s: Upload, s': Upload, id: nat, m: Msg, p: Part)
    requires Inv(s) && id in s.msgs && m.part == s.msgs[id].part < |s.parts|
    requires s' == s.(parts := s.parts[m.part := p], msgs := s.msgs[id := m])
    requires s.msgs[id].phase.Sending? || (s.msgs[id].phase.Returned? && !s.orch.Purge? && !s.orch.Refill?)
    requires m.phase.Sending? || m.phase.Returned? || m.phase.Reported?
    requires m.complete == s.msgs[id].complete || (!s.orch.Purge? && !s.orch.Refill?)
    requires var q := s.parts[m.part]; p == q.(popped := p.popped, uploaded := p.uploaded) && p.popped >= q.popped
    requires PartOk(s.cfg, p) && MsgOk(s.cfg, id, m, p, true)
    ensures Inv(s')
  {
    hide PoolOk, PartOk, ConfigOk, SenderOk, OrchInv, Body, TriesLeft;
    assert MsgFits(s, id);
    WorkerOrch(s, s', id, m, p);
    Touch(s, s', id, m, p);
  }

  lemma WorkerOrch(s: Upload, s': Upload, id: nat, m: Msg, p: Part)
    requires MsgsInv(s) && OrchInv(s) && id in s.msgs && id in s.pending && m.part == s.msgs[id].part < |s.parts|
    requires s' == s.(parts := s.parts[m.part := p], msgs := s.msgs[id := m])
    requires !s.msgs[id].phase.Filling?
    requires m.complete == s.msgs[id].complete || (!s.orch.Purge? && !s.orch.Refill?)
    requires var q := s.parts[m.part]; p == q.(popped := p.popped, uploaded := p.uploaded) && p.popped >= q.popped
    ensures OrchInv(s')
  {
    hide PartOk, SenderOk, Body;
    assert MsgFits(s, id);
    if s.orch.Fill? {
      assert MsgFits(s, s.orch.id);
    }
  }

  // ---------------------------------------------------------------- what a push and a pop do

  lemma FlatEmpty()
    ensures Flat([]) == []
  {
  }

  lemma PushOk(cfg: Config, p: Part, data: seq<byte>, last: bool)
    requires PartOk(cfg, p) && p.inProcess && 0 < |data| && p.cursor + |data| <= p.slice.size
    requires data == cfg.file[p.slice.base + p.cursor..p.slice.base + p.cursor + |data|]
    requires |p.pushed| - p.popped < cfg.queueMax
    requires last <==> p.cursor + |data| == p.slice.size
    ensures PartOk(cfg, Pushed(p, data, last))
  {
    hide Flat, Body;
    FlatAppend(p.pushed, Entry(data, last));
    BodyAppend(cfg, p, data);
    SameSliceSameBody(cfg, p, Pushed(p, data, last));
  }

  lemma BodyAppend(cfg: Config, p: Part, data: seq<byte>)
    requires InFile(cfg, p) && p.cursor + |data| <= p.slice.size
    requires data == cfg.file[p.slice.base + p.cursor..p.slice.base + p.cursor + |data|]
    ensures Body(cfg, p, p.cursor) + data == Body(cfg, p, p.cursor + |data|)
  {
  }

  lemma SameSliceSameBody(cfg: Config, p: Part, q: Part)
    requires p.slice == q.slice
    ensures forall n: nat :: Body(cfg, q, n) == Body(cfg, p, n)
  {
  }

  lemma PushKeepsSender(cfg: Config, sd: Sender, p: Part, data: seq<byte>, last: bool)
    requires SenderOk(cfg, sd, p) && p.cursor < p.slice.size && PartOk(cfg, p)
    ensures SenderOk(cfg, sd, Pushed(p, data, last))
  {
    assert Pushed(p, data, last).pushed[..p.popped] == p.pushed[..p.popped];
  }

  /** Nothing is missing once the entry marked last is gone. */
  lemma SentLastMeansAll(cfg: Config, sd: Sender, p: Part)
    requires PartOk(cfg, p) && SenderOk(cfg, sd, p) && sd.sentLast
    ensures sd.round == 0 && !sd.loaded && p.popped == |p.pushed| && p.cursor == p.slice.size
    ensures sd.wire == Body(cfg, p, p.slice.size)
  {
    assert p.pushed[..p.popped] == p.pushed;
  }

  // ---------------------------------------------------------------- scanning

  lemma ScanKeeps(s: Upload, step: Step)
    requires Inv(s) && Enabled(s, step) && (step.ScanSkip? || step.ScanBreak? || step.ScanEnd?)
    ensures Inv(Apply(s, step))
  {
    hide PoolOk, PartOk, ConfigOk, MsgFits, TriesLeft;
    if step.ScanSkip? {
      assert Linked(s, s.orch.next);
    } else if step.ScanBreak? {
      SomethingIsPending(s);
    }
    OnlyOrch(s, Apply(s, step));
  }

  /**
   A queue that reached the cut-off cannot consist of purged messages only: each of those is
   still held by a live worker, and there are fewer workers than that.
   */
  lemma SomethingIsPending(s: Upload)
    requires MsgsInv(s) && PoolInv(s) && |s.pool.queue| > s.cfg.maxThreads
    ensures s.pending != []
  {
    hide PoolOk, SenderOk, Body;
    if s.pending == [] {
      forall k | 0 <= k < |s.pool.queue| ensures s.pool.queue[k].processing {
        var e := s.pool.queue[k];
        assert e in s.pool.queue && EntryOk(e, s.msgs[e.id]);
        assert MsgFits(s, e.id);
      }
      PoolTheorems.AllProcessingFitsThreads(s.pool);
      assert false;
    }
  }

  lemma ClaimMsgs(s: Upload, s': Upload, i: nat, id: nat, p: Part)
    requires PartsInv(s) && MsgsInv(s) && id !in s.msgs && i < |s.parts|
    requires s'.parts == s.parts[i := p] && s'.msgs == s.msgs[id := Msg(i, Filling, false, false)]
    requires s'.pending == s.pending + [id] && s'.cfg == s.cfg
    requires Unclaimed(s.parts[i]) && p.owner == id && p.inProcess && !p.complete && p.popped == 0
    ensures MsgsInv(s')
  {
    hide PartOk, SenderOk, Body;
    forall j | j in s'.msgs ensures MsgFits(s', j) {
      if j != id { assert MsgFits(s, j); }
    }
    forall k | 0 <= k < |s'.parts| ensures Linked(s', k) { assert Linked(s, k); }
  }

  lemma ClaimKeeps(s: Upload)
    requires Inv(s) && Enabled(s, ScanClaim)
    ensures Inv(Apply(s, ScanClaim))
  {
    hide PoolOk, Flat, ConfigOk, MsgOk, MsgsInv, TriesLeft;
    var s' := Apply(s, ScanClaim);
    var i, id := s.orch.next, s.pool.nextId;
    var p := s'.parts[i];
    assert PartOk(s.cfg, s.parts[i]);
    FlatEmpty();
    assert PartOk(s.cfg, p);
    ClaimMsgs(s, s', i, id, p);
    TriesUpdate(s.cfg, s.parts, i, p);
  }

  // ---------------------------------------------------------------- filling

  lemma FillPushKeeps(s: Upload, s': Upload, p: Part, offset: nat)
    requires Inv(s) && s.orch.Fill? && s.orch.part < |s.parts| && PartOk(s.cfg, p)
    requires var q := s.parts[s.orch.part];
      && p == q.(pushed := p.pushed, cursor := p.cursor, hashed := p.hashed)
      && p.cursor <= offset <= p.slice.size && (|p.pushed| < s.cfg.queueMax ==> p.cursor == offset)
    requires s' == s.(parts := s.parts[s.orch.part := p], orch := s.orch.(offset := offset, records := |p.pushed|))
    ensures Inv(s')
  {
    hide PoolOk, Flat, ConfigOk, SenderOk, PartOk, TriesLeft, Body;
    var id := s.orch.id;
    assert MsgFits(s, id);
    assert s.msgs[id := s.msgs[id]] == s.msgs;
    Touch(s, s', id, s.msgs[id], p);
  }

  /** The part after a read of the first pass. */
  lemma FillReadOk(s: Upload, n: nat)
    requires Inv(s) && s.orch.Fill? && s.orch.part < |s.parts| && MoreToFill(s) && s.orch.records < s.cfg.queueMax
    requires InFile(s.cfg, s.parts[s.orch.part]) && ReadSize(s.cfg, n, s.parts[s.orch.part].slice.size - s.orch.offset)
    ensures var Fill(i, id, offset, records) := s.orch; var p := s.parts[i];
      var data := s.cfg.file[p.slice.base + offset..p.slice.base + offset + n];
      forall h :: PartOk(s.cfg, Pushed(p.(hashed := h), data, p.slice.size - offset == n))
    ensures s.parts[s.orch.part].cursor == s.orch.offset && |s.parts[s.orch.part].pushed| == s.orch.records
  {
    hide PoolOk, Flat, ConfigOk, MsgsInv, TriesLeft, PoolInv, Body;
    var Fill(i, id, offset, records) := s.orch;
    var p := s.parts[i];
    assert PartOk(s.cfg, p);
    assert p.popped == 0 && p.inProcess by { FillingPart(s); }
    var data, last := s.cfg.file[p.slice.base + offset..p.slice.base + offset + n], p.slice.size - offset == n;
    PushOk(s.cfg, p, data, last);
    forall h ensures PartOk(s.cfg, Pushed(p.(hashed := h), data, last)) {
      HashIsNoMatter(s.cfg, Pushed(p, data, last), h);
    }
  }

  lemma HashIsNoMatter(cfg: Config, p: Part, h: seq<byte>)
    requires PartOk(cfg, p)
    ensures PartOk(cfg, p.(hashed := h))
  {
    hide Flat;
  }

  lemma FillReadKeeps(s: Upload, n: nat)
    requires Inv(s) && Enabled(s, FillRead(n))
    ensures Inv(Apply(s, FillRead(n)))
  {
    hide PoolOk, Flat, ConfigOk, MsgsInv, TriesLeft, PoolInv, PartOk;
    hide AtMessage, MoreToRefill, Unclaimed, CanTake, CanFinish, CanDo, Take, Send, Finish, Do, IsSending;
    var Fill(i, id, offset, records) := s.orch;
    var p := s.parts[i];
    assert PartOk(s.cfg, p);
    var s' := Apply(s, FillRead(n));
    if records < s.cfg.queueMax {
      FillReadOk(s, n);
    } else {
      HashIsNoMatter(s.cfg, p, s'.parts[i].hashed);
    }
    FillPushKeeps(s, s', s'.parts[i], offset + n);
  }

  lemma FillingPart(s: Upload)
    requires MsgsInv(s) && OrchInv(s) && s.orch.Fill?
    ensures s.parts[s.orch.part].popped == 0 && s.parts[s.orch.part].inProcess
  {
    assert MsgFits(s, s.orch.id);
  }

  lemma FillDoneKeeps(s: Upload)
    requires Inv(s) && Enabled(s, FillDone)
    ensures Inv(Apply(s, FillDone))
  {
    hide PoolOk, Flat, ConfigOk, SenderOk, PartOk, TriesLeft, Send, Body;
    var s' := Apply(s, FillDone);
    var Fill(i, id, offset, records) := s.orch;
    assert MsgFits(s, id);
    assert s.parts[i := s.parts[i]] == s.parts;
    TouchKeeps(s, id, s.msgs[id].(phase := Queued), s.parts[i]);
    SameMsgs(s.(msgs := s'.msgs), s');
    FillDonePool(s, s');
  }

  lemma FillDonePool(s: Upload, s': Upload)
    requires PoolInv(s) && s.orch.Fill? && s.orch.id == s.pool.nextId && s.orch.id in s.msgs
    requires s'.msgs == s.msgs[s.orch.id := s.msgs[s.orch.id].(phase := Queued)]
    requires s'.pool == Send(s.pool, 0, DONT_CARE) && s'.cfg == s.cfg
    ensures PoolInv(s')
  {
    hide PoolOk;
    SendKeeps(s.pool, 0, DONT_CARE);
    forall e | e in s'.pool.queue ensures e.id in s'.msgs && EntryOk(e, s'.msgs[e.id]) {
      assert e == MsgEntry(s.orch.id, 0, DONT_CARE, false) || e in s.pool.queue;
      assert e in s.pool.queue ==> e.id in s.msgs && EntryOk(e, s.msgs[e.id]);
    }
  }

  // ---------------------------------------------------------------- the purge pass

  lemma MoveKeeps(s: Upload, step: Step)
    requires Inv(s) && Enabled(s, step)
    requires step.Wake? || step.PurgeGiveUp? || step.PurgeNext? || step.PurgeEnd? || step.Throw?
      || step.CompleteCall? || step.AbortCall?
    ensures Inv(Apply(s, step))
  {
    hide PoolOk, PartOk, ConfigOk, MsgFits, TriesLeft, MsgsInv;
    OnlyOrch(s, Apply(s, step));
  }

  lemma RefillReadKeeps(s: Upload, n: nat)
    requires Inv(s) && Enabled(s, RefillRead(n))
    ensures Inv(Apply(s, RefillRead(n)))
  {
    hide PoolOk, ConfigOk, MsgFits, TriesLeft, MsgsInv, Flat;
    assert PartOk(s.cfg, PartAt(s));
    OnlyOrch(s, Apply(s, RefillRead(n)));
  }

  lemma RefillPushKeeps(s: Upload)
    requires Inv(s) && Enabled(s, RefillPush)
    ensures Inv(Apply(s, RefillPush))
  {
    hide PoolOk, ConfigOk, MsgsInv, TriesLeft, PoolInv, Flat;
    var s' := Apply(s, RefillPush);
    var id, p, chunk := s.pending[s.orch.at], PartAt(s), s.orch.chunk;
    ListedMessage(s, s.orch.at);
    var last := p.slice.size <= p.cursor + |chunk|;
    assert PartOk(s.cfg, p);
    PushOk(s.cfg, p, chunk, last);
    RefilledMessage(s, id, chunk, last);
    assert s.msgs[id := s.msgs[id]] == s.msgs;
    RefillTouch(s, s', id, Pushed(p, chunk, last));
  }

  /** What is known about an entry of the pending list. */
  lemma ListedMessage(s: Upload, k: nat)
    requires MsgsInv(s) && k < |s.pending|
    ensures s.pending[k] in s.msgs
    ensures var m := s.msgs[s.pending[k]];
      && m.part < |s.parts| && s.parts[m.part].owner == s.pending[k]
      && s.parts[m.part].inProcess && !s.parts[m.part].complete
      && (m.complete <==> m.phase.Reported?)
      && (m.complete && !m.error ==> s.parts[m.part].uploaded == Body(s.cfg, s.parts[m.part], s.parts[m.part].slice.size))
  {
    assert MsgFits(s, s.pending[k]);
  }

  /** A message being refilled is not the one being filled, so pushing more bytes suits it. */
  lemma RefilledMessage(s: Upload, id: nat, data: seq<byte>, last: bool)
    requires MsgsInv(s) && PartsInv(s) && id in s.msgs && id in s.pending && s.msgs[id].part < |s.parts|
    requires s.parts[s.msgs[id].part].cursor < s.parts[s.msgs[id].part].slice.size
    ensures MsgOk(s.cfg, id, s.msgs[id], Pushed(s.parts[s.msgs[id].part], data, last), true)
  {
    hide Flat;
    assert MsgFits(s, id);
    var p := s.parts[s.msgs[id].part];
    assert PartOk(s.cfg, p);
    if s.msgs[id].phase.Sending? {
      PushKeepsSender(s.cfg, s.msgs[id].phase.sender, p, data, last);
    }
  }

  lemma RefillTouch(s: Upload, s': Upload, id: nat, p: Part)
    requires Inv(s) && s.orch.Refill? && s.orch.at < |s.pending| && id == s.pending[s.orch.at] && id in s.msgs
    requires s.msgs[id].part < |s.parts|
    requires var q := s.parts[s.msgs[id].part]; p == q.(pushed := p.pushed, cursor := p.cursor)
    requires s' == s.(parts := s.parts[s.msgs[id].part := p], orch := Purge(s.orch.at, s.orch.deleted))
    requires PartOk(s.cfg, p) && MsgOk(s.cfg, id, s.msgs[id], p, true)
    ensures Inv(s')
  {
    hide PoolOk, PartOk, ConfigOk, MsgOk, MsgsInv, TriesLeft;
    assert s.msgs[id := s.msgs[id]] == s.msgs;
    Touch(s, s', id, s.msgs[id], p);
  }

  /** Taking a finished message off the pending list; its part is settled or rewound. */
  lemma PurgeMsgs(s: Upload, s': Upload, k: nat, p: Part)
    requires PartsInv(s) && MsgsInv(s) && k < |s.pending|
    requires s.pending[k] in s.msgs && s.pending[k] in s'.msgs && s.msgs[s.pending[k]].complete
    requires var m := s.msgs[s.pending[k]];
      && m.part < |s.parts| && s'.parts == s.parts[m.part := p]
      && s'.msgs == s.msgs[s.pending[k] := s'.msgs[s.pending[k]]]
      && s'.msgs[s.pending[k]] == m.(complete := s'.msgs[s.pending[k]].complete)
    requires s'.pending == Removed(s.pending, k) && s'.cfg == s.cfg
    requires p.owner == s.pending[k] && (p.complete || !p.inProcess)
    ensures MsgsInv(s')
  {
    hide PartOk, SenderOk, Body;
    var id := s.pending[k];
    RemovedListed(s.pending, k);
    ListedMessage(s, k);
    forall j | j in s'.msgs ensures MsgFits(s', j) { assert MsgFits(s, j); }
    forall i | 0 <= i < |s'.parts| ensures Linked(s', i) { assert Linked(s, i); }
  }

  lemma RemovedListed(q: seq<nat>, k: nat)
    requires k < |q| && forall i, j :: 0 <= i < j < |q| ==> q[i] != q[j]
    ensures forall x :: x in Removed(q, k) <==> x in q && x != q[k]
    ensures forall i, j :: 0 <= i < j < |Removed(q, k)| ==> Removed(q, k)[i] != Removed(q, k)[j]
  {
    var r := Removed(q, k);
    assert forall i :: 0 <= i < |r| ==> r[i] == q[if i < k then i else i + 1];
    forall x | x in q && x != q[k] ensures x in r {
      var i :| 0 <= i < |q| && q[i] == x;
      assert r[if i < k then i else i - 1] == x;
    }
  }

  lemma PurgeRetryKeeps(s: Upload)
    requires Inv(s) && Enabled(s, PurgeRetry)
    ensures Inv(Apply(s, PurgeRetry))
    ensures TriesLeft(s.cfg, Apply(s, PurgeRetry).parts) < TriesLeft(s.cfg, s.parts)
  {
    hide PoolOk, ConfigOk, MsgsInv, TriesLeft, Flat, PoolInv;
    var s' := Apply(s, PurgeRetry);
    var k := s.orch.at;
    var i := MsgAt(s).part;
    ListedMessage(s, k);
    assert PartOk(s.cfg, s.parts[i]);
    FlatEmpty();
    assert PartOk(s.cfg, s'.parts[i]);
    PurgeMsgs(s, s', k, s'.parts[i]);
    assert PoolInv(s') by { PoolTouch(s, s', s.pending[k], MsgAt(s).(complete := false)) by { PurgePool(s); } }
    TriesUpdate(s.cfg, s.parts, i, s'.parts[i]);
  }

  lemma PurgeDoneKeeps(s: Upload)
    requires Inv(s) && Enabled(s, PurgeDone)
    ensures Inv(Apply(s, PurgeDone))
    ensures TriesLeft(s.cfg, Apply(s, PurgeDone).parts) < TriesLeft(s.cfg, s.parts)
  {
    hide PoolOk, ConfigOk, MsgsInv, TriesLeft, Flat, PoolInv;
    var s' := Apply(s, PurgeDone);
    var k := s.orch.at;
    var i := MsgAt(s).part;
    ListedMessage(s, k);
    assert PartOk(s.cfg, s.parts[i]);
    assert PartOk(s.cfg, s'.parts[i]);
    assert s.msgs[s.pending[k] := MsgAt(s)] == s.msgs;
    PurgeMsgs(s, s', k, s'.parts[i]);
    assert PoolInv(s') by { PoolTouch(s, s', s.pending[k], MsgAt(s)) by { PurgePool(s); } }
    TriesUpdate(s.cfg, s.parts, i, s'.parts[i]);
  }

  lemma PurgePool(s: Upload)
    requires PoolInv(s) && s.orch.Purge?
    ensures s.pool.nextId !in s.msgs
  {
    hide PoolOk;
  }

  // ---------------------------------------------------------------- the sender

  /** A step of the sender that leaves the queue alone. */
  lemma SenderTouch(s: Upload, s': Upload, id: nat, sd: Sender)
    requires Inv(s) && IsSending(s, id) && s' == SetSender(s, id, sd) && SenderOk(s.cfg, sd, PartOf(s, id))
    ensures Inv(s')
  {
    hide PoolOk, ConfigOk, TriesLeft, PoolInv, OrchInv, Flat, MsgsInv, PartOk, SenderOk;
    SendingMessage(s, id);
    var p := PartOf(s, id);
    assert s.parts[s.msgs[id].part := p] == s.parts;
    WorkerTouch(s, s', id, s'.msgs[id], p);
  }

  lemma LoadKeeps(s: Upload, id: nat)
    requires Inv(s) && Enabled(s, Load(id))
    ensures Inv(Apply(s, Load(id)))
  {
    hide PoolOk, ConfigOk, TriesLeft, PoolInv, OrchInv, Flat, MsgsInv;
    SendingMessage(s, id);
    SenderTouch(s, Apply(s, Load(id)), id, s.msgs[id].phase.sender.(sent := 0, loaded := true));
  }

  lemma WriteOk(cfg: Config, sd: Sender, p: Part, n: nat)
    requires SenderOk(cfg, sd, p) && sd.loaded && sd.sent + n <= |p.pushed[p.popped].data|
    ensures SenderOk(cfg, sd.(wire := sd.wire + p.pushed[p.popped].data[sd.sent..sd.sent + n], sent := sd.sent + n), p)
  {
    var d := p.pushed[p.popped].data;
    assert d[..sd.sent] + d[sd.sent..sd.sent + n] == d[..sd.sent + n];
    assert Flat(p.pushed[..p.popped]) + d[..sd.sent] + d[sd.sent..sd.sent + n]
        == Flat(p.pushed[..p.popped]) + (d[..sd.sent] + d[sd.sent..sd.sent + n]);
  }

  lemma WriteKeeps(s: Upload, id: nat, n: nat)
    requires Inv(s) && Enabled(s, Write(id, n))
    ensures Inv(Apply(s, Write(id, n)))
  {
    hide PoolOk, ConfigOk, TriesLeft, PoolInv, OrchInv, Flat, MsgsInv, PartOk, SenderOk;
    SendingMessage(s, id);
    var p, sd := PartOf(s, id), s.msgs[id].phase.sender;
    assert p.Stream()[0] == p.pushed[p.popped];
    WriteOk(s.cfg, sd, p, n);
    SenderTouch(s, Apply(s, Write(id, n)), id, Apply(s, Write(id, n)).msgs[id].phase.sender);
  }

  lemma ResendKeeps(s: Upload, id: nat)
    requires Inv(s) && Enabled(s, Resend(id))
    ensures Inv(Apply(s, Resend(id)))
  {
    hide PoolOk, ConfigOk, TriesLeft, PoolInv, OrchInv, Flat, MsgsInv;
    SendingMessage(s, id);
    SentLastMeansAll(s.cfg, s.msgs[id].phase.sender, PartOf(s, id));
    SenderTouch(s, Apply(s, Resend(id)), id, FreshSender.(round := s.msgs[id].phase.sender.round + 1));
  }

  lemma SendingMessage(s: Upload, id: nat)
    requires PartsInv(s) && MsgsInv(s) && IsSending(s, id)
    ensures var p := PartOf(s, id);
      id in s.pending && PartOk(s.cfg, p) && SenderOk(s.cfg, s.msgs[id].phase.sender, p)
      && p.owner == id && p.inProcess && !p.complete && !s.msgs[id].complete
  {
    hide SenderOk, PartOk;
    assert MsgFits(s, id);
  }

  lemma PopKeeps(s: Upload, id: nat)
    requires Inv(s) && Enabled(s, Pop(id))
    ensures Inv(Apply(s, Pop(id)))
  {
    hide PoolOk, ConfigOk, TriesLeft, PoolInv, OrchInv, Flat, MsgsInv;
    var p, sd := PartOf(s, id), s.msgs[id].phase.sender;
    SendingMessage(s, id);
    var s' := Apply(s, Pop(id));
    var p' := s'.parts[s.msgs[id].part];
    FlatNext(p.pushed, p.popped);
    assert p.Stream()[0] == p.pushed[p.popped];
    assert p.pushed[p.popped].data[..|p.pushed[p.popped].data|] == p.pushed[p.popped].data;
    assert PartOk(s.cfg, p');
    assert SenderOk(s.cfg, s'.msgs[id].phase.sender, p');
    WorkerTouch(s, s', id, s'.msgs[id], p');
  }

  lemma ReturnOk(cfg: Config, id: nat, m: Msg, sd: Sender, p: Part, err: bool)
    requires PartOk(cfg, p) && SenderOk(cfg, sd, p) && m.phase == Sending(sd) && !m.complete && (err || sd.sentLast)
    requires p.owner == id && p.inProcess && !p.complete
    ensures var q := if err then p else p.(uploaded := sd.wire);
      PartOk(cfg, q) && MsgOk(cfg, id, m.(phase := Returned, error := err), q, true)
  {
    hide Flat;
    if !err { SentLastMeansAll(cfg, sd, p); }
  }

  lemma ReturnKeeps(s: Upload, id: nat, err: bool)
    requires Inv(s) && Enabled(s, Return(id, err))
    ensures Inv(Apply(s, Return(id, err)))
  {
    hide PoolOk, ConfigOk, TriesLeft, PoolInv, OrchInv, Flat, MsgsInv, PartOk, SenderOk, MsgOk;
    hide MoreToFill, AtMessage, MoreToRefill, Unclaimed, CanTake, CanFinish, CanDo, Take, Send, Finish, Do;
    SendingMessage(s, id);
    ReturnOk(s.cfg, id, s.msgs[id], s.msgs[id].phase.sender, PartOf(s, id), err);
    var s' := Apply(s, Return(id, err));
    WorkerTouch(s, s', id, s'.msgs[id], s'.parts[s.msgs[id].part]);
  }

  lemma ReportKeeps(s: Upload, id: nat)
    requires Inv(s) && Enabled(s, Report(id))
    ensures Inv(Apply(s, Report(id)))
  {
    hide PoolOk, ConfigOk, TriesLeft, PoolInv, OrchInv, PartOk, SenderOk;
    var s' := Apply(s, Report(id));
    assert MsgFits(s, id);
    var i := s.msgs[id].part;
    assert s.parts[i := s.parts[i]] == s.parts;
    WorkerTouch(s, s', id, s'.msgs[id], s.parts[i]);
  }

  // ---------------------------------------------------------------- workers and the pool

  lemma ClaimMessageKeeps(s: Upload, w: nat)
    requires Inv(s) && Enabled(s, Claim(w))
    ensures Inv(Apply(s, Claim(w)))
  {
    hide PoolOk, ConfigOk, TriesLeft, PartOk, OrchInv, MsgsInv, Take;
    TakenEntry(s.pool, w);
    var s' := Apply(s, Claim(w));
    var hold := Take(s.pool, w).workers[w].hold;
    ClaimPool(s, s', w);
    if hold.Message? && hold.id in s.msgs {
      ClaimSender(s, s', hold.id);
    } else {
      SameMsgs(s, s');
      assert OrchInv(s') by { SameOrch(s, s'); }
    }
  }

  lemma SameOrch(s: Upload, s': Upload)
    requires OrchInv(s) && s' == s.(pool := s'.pool) && s'.pool.nextId == s.pool.nextId
    ensures OrchInv(s')
  {
  }

  /** What taking a message does to the queue, seen entry by entry. */
  lemma TakenEntry(p: Pool, w: nat)
    requires CanTake(p, w) && PoolOk(p)
    ensures var p' := Take(p, w);
      && p'.nextId == p.nextId && p'.minThreads == p.minThreads && p'.maxThreads == p.maxThreads
      && |p'.workers| == |p.workers|
      && (p'.workers[w].hold.Nothing? ==> p'.queue == p.queue)
    ensures Take(p, w).workers[w].hold.Message? ==>
      exists e :: e in p.queue && !e.processing && e.id == Take(p, w).workers[w].hold.id
        && forall x :: x in Take(p, w).queue ==> (x in p.queue && x.id != e.id) || x == e.(processing := true)
  {
    var k := FirstWaiting(p.queue);
    var p' := Take(p, w);
    if p'.workers[w].hold.Message? {
      var e := p.queue[k];
      assert e in p.queue;
      forall x | x in p'.queue ensures (x in p.queue && x.id != e.id) || x == e.(processing := true) {
        var i :| 0 <= i < |p'.queue| && p'.queue[i] == x;
        assert i != k ==> x == p.queue[i];
      }
    }
  }

  lemma ClaimPool(s: Upload, s': Upload, w: nat)
    requires PoolInv(s) && MsgsInv(s) && Enabled(s, Claim(w)) && s' == Apply(s, Claim(w))
    ensures PoolInv(s')
    ensures s'.pool.nextId == s.pool.nextId
    ensures var hold := Take(s.pool, w).workers[w].hold;
      hold.Message? && hold.id in s.msgs ==> s.msgs[hold.id].phase.Queued?
  {
    hide PoolOk, MsgsInv, Take;
    StepKeeps(s.pool, DoTake(w));
    PoolTheorems.StepWithinLimit(s.pool, DoTake(w));
    TakenEntry(s.pool, w);
    var hold := Take(s.pool, w).workers[w].hold;
    if hold.Message? {
      var e :| e in s.pool.queue && !e.processing && e.id == hold.id
        && forall x :: x in Take(s.pool, w).queue ==> (x in s.pool.queue && x.id != e.id) || x == e.(processing := true);
      assert EntryOk(e, s.msgs[e.id]);
      forall x | x in s'.pool.queue ensures x.id in s'.msgs && EntryOk(x, s'.msgs[x.id]) {
        assert x in s.pool.queue ==> x.id in s.msgs && EntryOk(x, s.msgs[x.id]);
      }
    }
  }

  /** The worker starts its request: nothing of the part's queue has been removed yet. */
  lemma ClaimSender(s: Upload, s': Upload, id: nat)
    requires Inv(s) && id in s.msgs && s.msgs[id].phase.Queued?
    requires s' == SetSender(s, id, FreshSender).(pool := s'.pool) && s'.pool.nextId == s.pool.nextId && PoolInv(s')
    ensures Inv(s')
  {
    hide PoolOk, ConfigOk, TriesLeft, PoolInv, OrchInv, PartOk, Body;
    assert MsgFits(s, id);
    var m, p := s'.msgs[id], s.parts[s.msgs[id].part];
    assert PartOk(s.cfg, p);
    assert MsgOk(s.cfg, id, m, p, true) by { FreshSenderOk(s.cfg, p); }
    assert s.parts[m.part := p] == s.parts;
    TouchKeeps(s, id, m, p);
    var t := s.(msgs := s'.msgs);
    SameMsgs(t, s');
    WorkerOrch(s, t, id, m, p);
    SameOrch(t, s');
  }

  lemma FreshSenderOk(cfg: Config, p: Part)
    requires p.popped == 0
    ensures SenderOk(cfg, FreshSender, p)
  {
    assert p.pushed[..0] == [];
  }

  lemma DropKeeps(s: Upload, w: nat)
    requires Inv(s) && Enabled(s, Drop(w))
    ensures Inv(Apply(s, Drop(w)))
  {
    hide PoolOk, ConfigOk, TriesLeft, PartOk, MsgsInv, OrchInv, Finish;
    var s' := Apply(s, Drop(w));
    StepKeeps(s.pool, DoFinish(w, true));
    PoolTheorems.StepWithinLimit(s.pool, DoFinish(w, true));
    FinishedEntry(s.pool, w);
    SameMsgs(s, s');
    SameOrch(s, s');
  }

  lemma FinishedEntry(p: Pool, w: nat)
    requires CanFinish(p, w)
    ensures var p' := Finish(p, w, true);
      && p'.nextId == p.nextId && p'.minThreads == p.minThreads && p'.maxThreads == p.maxThreads
      && forall x :: x in p'.queue ==> x in p.queue
  {
  }

  /** A step of the pool that neither adds, flags nor removes an entry. */
  lemma PoolStepKeeps(s: Upload, a: PoolState.Action)
    requires Inv(s) && Enabled(s, PoolStep(a))
    ensures Inv(Apply(s, PoolStep(a)))
  {
    hide PoolOk, ConfigOk, TriesLeft, PartOk, MsgsInv, OrchInv, Do;
    var s' := Apply(s, PoolStep(a));
    StepKeeps(s.pool, a);
    PoolTheorems.StepWithinLimit(s.pool, a);
    QueueUntouched(s.pool, a);
    SameMsgs(s, s');
    SameOrch(s, s');
  }

  lemma QueueUntouched(p: Pool, a: PoolState.Action)
    requires CanDo(p, a) && (a.DoAddThreads? || a.DoIdle? || a.DoKill? || a.DoExit?)
    ensures Do(p, a) == p.(workers := Do(p, a).workers)
  {
  }

  // ---------------------------------------------------------------- all steps

  lemma StepKeepsInv(s: Upload, step: Step)
    requires Inv(s) && Enabled(s, step)
    ensures Inv(Apply(s, step))
  {
    hide Inv, Enabled, Apply;
    match step
    case ScanSkip => ScanKeeps(s, step);
    case ScanBreak => ScanKeeps(s, step);
    case ScanClaim => ClaimKeeps(s);
    case ScanEnd => ScanKeeps(s, step);
    case FillRead(n) => FillReadKeeps(s, n);
    case FillDone => FillDoneKeeps(s);
    case PurgeRetry => PurgeRetryKeeps(s);
    case PurgeDone => PurgeDoneKeeps(s);
    case RefillRead(n) => RefillReadKeeps(s, n);
    case RefillPush => RefillPushKeeps(s);
    case Claim(w) => ClaimMessageKeeps(s, w);
    case Load(id) => LoadKeeps(s, id);
    case Write(id, n) => WriteKeeps(s, id, n);
    case Pop(id) => PopKeeps(s, id);
    case Resend(id) => ResendKeeps(s, id);
    case Return(id, err) => ReturnKeeps(s, id, err);
    case Report(id) => ReportKeeps(s, id);
    case Drop(w) => DropKeeps(s, w);
    case PoolStep(a) => PoolStepKeeps(s, a);
    case _ => MoveKeeps(s, step);
  }
}
