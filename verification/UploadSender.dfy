/**
 The stream-send loop of SendRequestInternal (ECSUtil/ECSConnection.cpp) as a loop of one worker
 thread. Every action is one step of UploadState; between two of them the uploading thread, the other
 workers and the pool may take any number of steps.
 */
module UploadSender {
  import opened Bytes
  import opened PoolState
  import opened UploadState
  import opened UploadInvariants
  import UploadSteps
  import opened UploadTheorems
  import opened UploadCauses
  import opened UploadLoops

  /** A step of the worker that sends this message. */
  predicate Mine(step: Step, id: nat) {
    match step
    case Load(i) => i == id
    case Write(i, _) => i == id
    case Pop(i) => i == id
    case Resend(i) => i == id
    case Return(i, _) => i == id
    case _ => false
  }

  /** What everybody else leaves alone: the sender's state and the entries it has seen. */
  ghost predicate Left(s: Upload, t: Upload, id: nat) {
    && IsSending(s, id) && IsSending(t, id) && t.msgs[id].phase == s.msgs[id].phase && t.msgs[id].part == s.msgs[id].part
    && PartOf(t, id).popped == PartOf(s, id).popped && PartOf(s, id).pushed <= PartOf(t, id).pushed
  }

  /** The part of a message under way belongs to no other message under way. */
  lemma OwnPart(s: Upload, id: nat, other: nat)
    requires MsgsInv(s) && IsSending(s, id) && other in s.msgs && other != id
    requires !s.msgs[other].phase.Reported? || (s.msgs[other].complete && other in s.pending)
    ensures s.msgs[other].part < |s.parts| && s.msgs[other].part != s.msgs[id].part
  {
    assert MsgFits(s, id) && MsgFits(s, other);
  }

  lemma SendingFacts(s: Upload, id: nat)
    requires Inv(s) && IsSending(s, id)
    ensures id != s.pool.nextId && PartOf(s, id).inProcess && !PartOf(s, id).complete && !s.msgs[id].complete
    ensures PartOf(s, id).owner == id && PartOk(s.cfg, PartOf(s, id)) && SenderOk(s.cfg, s.msgs[id].phase.sender, PartOf(s, id))
  {
    hide BudgetInv, CallsInv, ConfigOk, OrchInv, PoolOk, Linked, PartOk;
    assert MsgFits(s, id);
  }

  lemma PurgeLeaves(s: Upload, step: Step, id: nat)
    requires Inv(s) && Enabled(s, step) && IsSending(s, id) && (step.PurgeRetry? || step.PurgeDone?)
    ensures Left(s, Apply(s, step), id)
  {
    hide BudgetInv, CallsInv, ConfigOk, PoolOk, Linked, Flat, PartOk, SenderOk, Take, Finish, Do, MoreToFill, MoreToRefill, Unclaimed;
    SendingFacts(s, id);
    UploadSteps.ListedMessage(s, s.orch.at);
    OwnPart(s, id, s.pending[s.orch.at]);
  }

  lemma OrchestratorLeaves(s: Upload, step: Step, id: nat)
    requires Inv(s) && Enabled(s, step) && IsSending(s, id) && Orchestral(step)
    ensures Left(s, Apply(s, step), id)
  {
    hide BudgetInv, CallsInv, ConfigOk, PoolOk, Linked, Flat, PartOk, SenderOk, Take, Finish, Do, MoreToFill, MoreToRefill, MsgFits;
    if step.PurgeRetry? || step.PurgeDone? {
      PurgeLeaves(s, step, id);
    } else {
      SendingFacts(s, id);
    }
  }

  lemma ClaimLeaves(s: Upload, w: nat, id: nat)
    requires Inv(s) && Enabled(s, Claim(w)) && IsSending(s, id)
    ensures Left(s, Apply(s, Claim(w)), id)
  {
    hide BudgetInv, CallsInv, ConfigOk, OrchInv, PoolOk, Linked, Flat, PartOk, SenderOk, PartsInv, MsgFits;
    var k := FirstWaiting(s.pool.queue);
    if k < |s.pool.queue| {
      assert s.pool.queue[k] in s.pool.queue;
      assert s.pool.queue[k].id != id;
    }
  }

  lemma OthersLeave(s: Upload, step: Step, id: nat)
    requires Inv(s) && Enabled(s, step) && IsSending(s, id) && !Orchestral(step) && !Mine(step, id)
    ensures Left(s, Apply(s, step), id)
  {
    hide BudgetInv, CallsInv, ConfigOk, OrchInv, PoolOk, Linked, Flat, PartOk, SenderOk, Take, Finish, Do;
    match step
    case Pop(i) => SendingFacts(s, id); OwnPart(s, id, i);
    case Return(i, _) => SendingFacts(s, id); OwnPart(s, id, i);
    case Claim(w) => ClaimLeaves(s, w, id);
    case _ => SendingFacts(s, id);
  }

  lemma LeftTwice(s: Upload, t: Upload, u: Upload, id: nat)
    requires Left(s, t, id) && Left(t, u, id)
    ensures Left(s, u, id)
  {
  }

  // ---------------------------------------------------------------- the loop

  /** Everybody but the worker that sends this message runs for a while. */
  method Interlude(u: Uploader, id: nat)
    requires u.Valid() && IsSending(u.s, id)
    modifies u
    ensures u.Valid() && Left(old(u.s), u.s, id)
  {
    hide Left, Apply, Enabled, Backed, Told, Wakes, ValidRun, Exec, Orchestral, Inv, Mine, IsSending;
    LeftAlone(u.s, id);
    var rounds: int := *;
    while rounds > 0
      invariant u.Valid() && IsSending(u.s, id) && Left(old(u.s), u.s, id)
    {
      rounds := rounds - 1;
      var step: Step := *;
      if !Mine(step, id) && Enabled(u.s, step) && Backed(u.world, u.patience, u.time, u.wakes, step) {
        ghost var before := u.s;
        u.Facts();
        if Orchestral(step) {
          OrchestratorLeaves(u.s, step, id);
        } else {
          OthersLeave(u.s, step, id);
        }
        u.Act(step);
        LeftTwice(old(u.s), before, u.s, id);
        StillSending(before, u.s, id);
      }
    }
  }

  lemma LeftAlone(s: Upload, id: nat)
    requires IsSending(s, id)
    ensures Left(s, s, id)
  {
  }

  lemma StillSending(s: Upload, t: Upload, id: nat)
    requires Left(s, t, id)
    ensures IsSending(t, id)
  {
  }

  function SenderOf(s: Upload, id: nat): Sender
    requires IsSending(s, id)
  {
    s.msgs[id].phase.sender
  }

  lemma LeftSender(s: Upload, t: Upload, id: nat)
    requires Left(s, t, id)
    ensures IsSending(t, id) && SenderOf(t, id) == SenderOf(s, id)
    ensures PartOf(s, id).Stream() <= PartOf(t, id).Stream()
  {
  }

  lemma Loads(s: Upload, id: nat)
    requires IsSending(s, id) && !SenderOf(s, id).loaded && !SenderOf(s, id).sentLast && PartOf(s, id).Stream() != []
    ensures Enabled(s, Load(id)) && IsSending(Apply(s, Load(id)), id)
    ensures var t := Apply(s, Load(id)); PartOf(t, id) == PartOf(s, id) && SenderOf(t, id) == SenderOf(s, id).(sent := 0, loaded := true)
    ensures Apply(s, Load(id)).msgs[id].part == s.msgs[id].part
  {
  }

  lemma Writes(s: Upload, id: nat, n: nat)
    requires IsSending(s, id) && SenderOf(s, id).loaded && PartOf(s, id).Stream() != []
    requires SenderOf(s, id).sent + n <= |PartOf(s, id).Stream()[0].data|
    ensures Enabled(s, Write(id, n)) && IsSending(Apply(s, Write(id, n)), id)
    ensures var t := Apply(s, Write(id, n)); PartOf(t, id) == PartOf(s, id)
    ensures var t := Apply(s, Write(id, n)); SenderOf(t, id).loaded && SenderOf(t, id).sent == SenderOf(s, id).sent + n
    ensures SenderOf(Apply(s, Write(id, n)), id).sentLast == SenderOf(s, id).sentLast
    ensures |SenderOf(Apply(s, Write(id, n)), id).wire| == |SenderOf(s, id).wire| + n
    ensures Apply(s, Write(id, n)).msgs[id].part == s.msgs[id].part
  {
  }

  lemma Pops(s: Upload, id: nat)
    requires IsSending(s, id) && SenderOf(s, id).loaded && PartOf(s, id).Stream() != []
    requires SenderOf(s, id).sent >= |PartOf(s, id).Stream()[0].data|
    ensures Enabled(s, Pop(id)) && IsSending(Apply(s, Pop(id)), id)
    ensures var t := Apply(s, Pop(id)); !SenderOf(t, id).loaded && SenderOf(t, id).sentLast == PartOf(s, id).Stream()[0].last
    ensures SenderOf(Apply(s, Pop(id)), id).wire == SenderOf(s, id).wire && Apply(s, Pop(id)).msgs[id].part == s.msgs[id].part
    ensures PartOf(Apply(s, Pop(id)), id).pushed == PartOf(s, id).pushed
  {
  }

  lemma LoadedFacts(s: Upload, id: nat)
    requires Inv(s) && IsSending(s, id) && SenderOf(s, id).loaded
    ensures !SenderOf(s, id).sentLast && PartOf(s, id).Stream() != [] && SenderOf(s, id).sent <= |PartOf(s, id).Stream()[0].data|
  {
    hide PartOk;
    SendingFacts(s, id);
  }

  // ---------------------------------------------------------------- how long the loop can last

  lemma {:induction false} NoMoreEntriesThanBytes(es: seq<Entry>)
    requires forall k :: 0 <= k < |es| ==> |es[k].data| > 0
    ensures |es| <= |Flat(es)|
  {
    if es != [] {
      NoMoreEntriesThanBytes(es[..|es| - 1]);
    }
  }

  /** The size of the part that the message is for. */
  ghost function SizeOf(cfg: Config, s: Upload, id: nat): nat
    requires IsSending(s, id)
  {
    if s.msgs[id].part < |cfg.plan| then cfg.plan[s.msgs[id].part].size else 0
  }

  lemma SizeFacts(cfg: Config, s: Upload, id: nat)
    requires Inv(s) && IsSending(s, id) && s.cfg == cfg
    ensures |SenderOf(s, id).wire| <= SizeOf(cfg, s, id) && |PartOf(s, id).pushed| <= SizeOf(cfg, s, id)
    ensures forall k :: 0 <= k < |PartOf(s, id).Stream()| ==> |PartOf(s, id).Stream()[k].data| > 0
  {
    hide BudgetInv, CallsInv, ConfigOk, OrchInv, MsgsInv, PoolInv;
    SendingFacts(s, id);
    var p, sd := PartOf(s, id), SenderOf(s, id);
    NoMoreEntriesThanBytes(p.pushed);
    if sd.round == 0 {
      WirePrefix(cfg, sd, p);
    }
  }

  /** What the loop still has to do on the bytes that are not written and on the front entry. */
  ghost function Work(cfg: Config, s: Upload, id: nat): int
    requires IsSending(s, id)
  {
    var sd, stream := SenderOf(s, id), PartOf(s, id).Stream();
    3 * (SizeOf(cfg, s, id) - |sd.wire|) + if !sd.loaded then 1 else if stream != [] && sd.sent < |stream[0].data| then 0 else 2
  }

  lemma WorkIsLeft(cfg: Config, s: Upload, t: Upload, id: nat)
    requires Left(s, t, id) && (SenderOf(s, id).loaded ==> PartOf(s, id).Stream() != [])
    ensures IsSending(t, id) && Work(cfg, t, id) == Work(cfg, s, id) && SizeOf(cfg, t, id) == SizeOf(cfg, s, id)
    ensures |PartOf(s, id).pushed| <= |PartOf(t, id).pushed|
  {
  }

  /** Each move of the sender leaves less to do. */
  lemma LoadWorks(cfg: Config, s: Upload, t: Upload, id: nat)
    requires IsSending(s, id) && IsSending(t, id) && t.msgs[id].part == s.msgs[id].part && PartOf(t, id) == PartOf(s, id)
    requires !SenderOf(s, id).loaded && SenderOf(t, id) == SenderOf(s, id).(sent := 0, loaded := true)
    requires PartOf(s, id).Stream() != [] && |PartOf(s, id).Stream()[0].data| > 0
    ensures Work(cfg, t, id) < Work(cfg, s, id)
  {
  }

  lemma WriteWorks(cfg: Config, s: Upload, t: Upload, id: nat)
    requires IsSending(s, id) && IsSending(t, id) && t.msgs[id].part == s.msgs[id].part
    requires SenderOf(s, id).loaded && |SenderOf(t, id).wire| > |SenderOf(s, id).wire|
    ensures Work(cfg, t, id) < Work(cfg, s, id)
  {
  }

  lemma PopWorks(cfg: Config, s: Upload, t: Upload, id: nat)
    requires IsSending(s, id) && IsSending(t, id) && t.msgs[id].part == s.msgs[id].part
    requires SenderOf(s, id).loaded && PartOf(s, id).Stream() != [] && SenderOf(s, id).sent >= |PartOf(s, id).Stream()[0].data|
    requires !SenderOf(t, id).loaded && SenderOf(t, id).wire == SenderOf(s, id).wire
    ensures Work(cfg, t, id) < Work(cfg, s, id)
  {
  }

  lemma WorkIsNatural(cfg: Config, s: Upload, id: nat)
    requires IsSending(s, id) && |SenderOf(s, id).wire| <= SizeOf(cfg, s, id)
    ensures Work(cfg, s, id) >= 0
  {
  }

  /** The state of the sender's request when the loop is through. */
  lemma AllIsSent(u: Uploader, id: nat)
    requires u.Valid() && IsSending(u.s, id) && SenderOf(u.s, id).sentLast
    ensures var p := PartOf(u.s, id);
      p.slice.base + p.slice.size <= |u.cfg.file| && SenderOf(u.s, id).wire == u.cfg.file[p.slice.base..p.slice.base + p.slice.size]
  {
    hide ValidRun, Exec, ConfigOk, Told, Wakes;
    WireIsTheSlice(u.cfg, u.history, id);
  }

  // ---------------------------------------------------------------- the environment of a sender

  /** WinHttpWriteData fails, or takes about n bytes. */
  datatype Taken = Refused | Takes(n: nat)

  /** What the writes and the looks at the abort request bring, each by its number. */
  datatype Network = Network(writes: nat -> Taken, aborts: nat -> bool)

  /** How often a sender has written, has waited, and has waited in vain since its last success. */
  datatype Effort = Effort(writes: nat, waits: nat, idle: nat)

  /** The queue is empty, and somebody has asked to abort or nothing has come for too long. */
  ghost predicate Starved(net: Network, limit: nat, e: Effort, stream: seq<Entry>) {
    stream == [] && ((e.waits > 0 && net.aborts(e.waits - 1)) || e.idle > limit)
  }

  ghost predicate WriteFailed(net: Network, e: Effort) {
    e.writes > 0 && net.writes(e.writes - 1).Refused?
  }

  ghost predicate AllTaken(net: Network, e: Effort) {
    forall k: nat :: k < e.writes ==> !net.writes(k).Refused?
  }

  /**
   WaitStreamSend: the event of the sender is set when something has been pushed since it was last
   reset. A wait that ends by itself counts, a wait that the event ends does not.
   */
  method WaitStreamSend(u: Uploader, id: nat, net: Network, limit: nat, before: Effort, heard: nat)
    returns (ok: bool, e: Effort, now: nat)
    requires u.Valid() && IsSending(u.s, id) && !SenderOf(u.s, id).loaded && heard <= |PartOf(u.s, id).pushed|
    modifies u
    ensures u.Valid() && Left(old(u.s), u.s, id) && IsSending(u.s, id) && now == |PartOf(u.s, id).pushed|
    ensures e.writes == before.writes && (ok <==> PartOf(u.s, id).Stream() != [])
    ensures !ok ==> Starved(net, limit, e, PartOf(u.s, id).Stream())
  {
    hide Inv, Apply, Enabled, ValidRun, Exec, IsSending, Left, Uploader.Valid;
    e, now := before.(idle := 0), heard;
    ghost var size := SizeOf(u.cfg, u.s, id);
    LeftAlone(u.s, id);
    u.Facts();
    SizeFacts(u.cfg, u.s, id);
    while true
      invariant u.Valid() && IsSending(u.s, id) && Left(old(u.s), u.s, id) && !SenderOf(u.s, id).loaded
      invariant e.idle <= limit && e.writes == before.writes
      invariant now <= |PartOf(u.s, id).pushed| <= size == SizeOf(u.cfg, u.s, id)
      decreases (limit - e.idle) + (size - now)
    {
      ghost var was := u.s;
      Interlude(u, id);
      LeftSender(was, u.s, id);
      WorkIsLeft(u.cfg, was, u.s, id);
      LeftTwice(old(u.s), was, u.s, id);
      u.Facts();
      SizeFacts(u.cfg, u.s, id);
      var signaled := |PartOf(u.s, id).pushed| > now;
      now := |PartOf(u.s, id).pushed|;
      e := e.(waits := e.waits + 1);
      if PartOf(u.s, id).Stream() != [] {
        return true, e, now;
      }
      if net.aborts(e.waits - 1) {
        return false, e, now;
      }
      if !signaled {
        e := e.(idle := e.idle + 1);
        if e.idle > limit {
          return false, e, now;
        }
      }
    }
  }

  /**
   One round of the loop: wait for an entry and look at it, or write a piece of it, or remove it.
   `heard` is how many entries had been pushed when the sender's event was last reset.
   */
  method Feed(u: Uploader, id: nat, maxWrite: nat, net: Network, limit: nat, before: Effort, was: nat)
    returns (ok: bool, e: Effort, heard: nat)
    requires u.Valid() && IsSending(u.s, id) && !SenderOf(u.s, id).sentLast && AllTaken(net, before)
    requires was <= |PartOf(u.s, id).pushed|
    modifies u
    ensures u.Valid() && IsSending(u.s, id) && heard <= |PartOf(u.s, id).pushed|
    ensures ok ==> AllTaken(net, e) && 0 <= Work(u.cfg, u.s, id) < old(Work(u.cfg, u.s, id))
    ensures !ok ==> WriteFailed(net, e) || Starved(net, limit, e, PartOf(u.s, id).Stream())
  {
    hide Inv, Apply, Enabled, ValidRun, Exec, IsSending, Left, Work, Uploader.Valid, Starved, AllTaken;
    e, heard := before, was;
    u.Facts();
    if SenderOf(u.s, id).loaded {
      LoadedFacts(u.s, id);
    }
    Interlude(u, id);
    LeftSender(old(u.s), u.s, id);
    WorkIsLeft(u.cfg, old(u.s), u.s, id);
    if !SenderOf(u.s, id).loaded && PartOf(u.s, id).Stream() == [] {
      ghost var waiting := u.s;
      ok, e, heard := WaitStreamSend(u, id, net, limit, e, heard);
      LeftSender(waiting, u.s, id);
      WorkIsLeft(u.cfg, waiting, u.s, id);
      SameWrites(net, before, e);
      if !ok {
        return;
      }
    }
    u.Facts();
    SizeFacts(u.cfg, u.s, id);
    ghost var now := u.s;
    if !SenderOf(u.s, id).loaded {
      Loads(u.s, id);
      u.Act(Load(id));
      LoadWorks(u.cfg, now, u.s, id);
    } else {
      LoadedFacts(u.s, id);
      var size := |PartOf(u.s, id).Stream()[0].data|;
      if SenderOf(u.s, id).sent < size {
        var asked := size - SenderOf(u.s, id).sent;
        if maxWrite > 0 && asked > maxWrite {
          asked := maxWrite;
        }
        var answer := net.writes(e.writes);
        OneMoreTaken(net, e);
        e := e.(writes := e.writes + 1);
        if answer.Refused? {
          return false, e, heard;
        }
        var n := if 1 <= answer.n <= asked then answer.n else asked;
        Writes(u.s, id, n);
        u.Act(Write(id, n));
        WriteWorks(u.cfg, now, u.s, id);
      } else {
        Pops(u.s, id);
        u.Act(Pop(id));
        PopWorks(u.cfg, now, u.s, id);
      }
    }
    u.Facts();
    SizeFacts(u.cfg, u.s, id);
    WorkIsNatural(u.cfg, u.s, id);
    ok := true;
  }

  lemma SameWrites(net: Network, before: Effort, e: Effort)
    requires AllTaken(net, before) && e.writes == before.writes
    ensures AllTaken(net, e)
  {
  }

  lemma OneMoreTaken(net: Network, e: Effort)
    requires AllTaken(net, e)
    ensures var more := e.(writes := e.writes + 1);
      if net.writes(e.writes).Refused? then WriteFailed(net, more) else AllTaken(net, more)
  {
  }

  /**
   The loop that feeds a request from its queue: wait for an entry, write it in pieces of whatever
   size the network takes, remove it, until the entry marked last is gone. When the loop ends by itself
   the request body is exactly the part's slice of the file; it fails only when a write fails, or when
   the queue is empty and stays so for too long or somebody asks to abort.
   */
  method SendStream(u: Uploader, id: nat, maxWrite: nat, net: Network, limit: nat) returns (ok: bool, e: Effort)
    requires u.Valid() && IsSending(u.s, id) && !SenderOf(u.s, id).loaded && !SenderOf(u.s, id).sentLast
    modifies u
    ensures u.Valid() && IsSending(u.s, id)
    ensures ok ==> var p := PartOf(u.s, id);
      p.slice.base + p.slice.size <= |u.cfg.file| && SenderOf(u.s, id).wire == u.cfg.file[p.slice.base..p.slice.base + p.slice.size]
    ensures if ok then AllTaken(net, e) else WriteFailed(net, e) || Starved(net, limit, e, PartOf(u.s, id).Stream())
  {
    hide Inv, Apply, Enabled, ValidRun, Exec, IsSending, Left, Work, Uploader.Valid, Starved;
    e := Effort(0, 0, 0);
    var heard: nat := |PartOf(u.s, id).pushed|;
    u.Facts();
    SizeFacts(u.cfg, u.s, id);
    WorkIsNatural(u.cfg, u.s, id);
    ok := true;
    while !SenderOf(u.s, id).sentLast
      invariant u.Valid() && IsSending(u.s, id) && AllTaken(net, e) && heard <= |PartOf(u.s, id).pushed|
      invariant Work(u.cfg, u.s, id) >= 0
      decreases Work(u.cfg, u.s, id)
    {
      ok, e, heard := Feed(u, id, maxWrite, net, limit, e, heard);
      if !ok {
        return;
      }
    }
    AllIsSent(u, id);
    ok := true;
  }
}
