/**
 The multipart uploader: DoS3MultiPartUpload and CMPUPool::DoProcess (ECSUtil/FileSupport.cpp)
 with the stream-send loop of SendRequestInternal (ECSUtil/ECSConnection.cpp), as a state machine.
 One step is one lock-protected or thread-local action of the orchestrator, of a worker thread
 or of the pool. Whatever the file system, the network and the scheduler decide (how many bytes
 a read or a write moves, whether it fails, who runs next) is a parameter of the step.
 */
module UploadState {
  import opened Bytes
  import opened PoolState
  import opened PartPlan

  // ---------------------------------------------------------------- data

  /** An entry of a part's stream queue. */
  datatype Entry = Entry(data: seq<byte>, last: bool)

  /** The arguments of one upload; `plan` is the part list made by the planning phase. */
  datatype Config = Config(file: seq<byte>, plan: seq<Slice>, bufSize: nat, queueMax: nat,
                           maxThreads: nat, maxRetries: nat, checksum: bool)

  /**
   S3_UPLOAD_PART_ENTRY. `pushed` lists all entries queued in the current attempt, the first
   `popped` of which the sender has already removed. `owner` is the latest message for the part
   `uploaded` the request body of its latest accepted request, and `hashed` what has gone into the
   checksum of the current attempt.
   */
  datatype Part = Part(slice: Slice, cursor: nat, inProcess: bool, complete: bool, retry: nat,
                       owner: nat, pushed: seq<Entry>, popped: nat, uploaded: seq<byte>,
                       hashed: seq<byte>)
  {
    /** What is in the stream queue now. */
    function Stream(): seq<Entry>
      requires popped <= |pushed|
    {
      pushed[popped..]
    }
  }

  /**
   The locals of the stream-send loop: the body bytes written so far, how many of them belong to
   the front entry, whether the front entry has been looked at, whether the entry marked last
   was removed, and how often the request was sent again for authentication.
   */
  datatype Sender = Sender(wire: seq<byte>, sent: nat, loaded: bool, sentLast: bool, round: nat)

  const FreshSender := Sender([], 0, false, false, 0)

  /** Where the work on a message stands. */
  datatype Phase = Filling | Queued | Sending(sender: Sender) | Returned | Reported

  /** CMPUPoolMsg; `complete` is its completion flag and `error` its returned status. */
  datatype Msg = Msg(part: nat, phase: Phase, complete: bool, error: bool)

  /** Where the uploading thread stands. */
  datatype Orchestrator =
    | Scan(next: nat, allDone: bool)
    | Fill(part: nat, id: nat, offset: nat, records: nat)
    | Wait
    | Purge(at: nat, deleted: bool)
    | Refill(at: nat, deleted: bool, chunk: seq<byte>)
    | Finishing
    | Failing
    | Ended(ok: bool)

  datatype Call = Initiated | Completed | CompleteFailed | Aborted

  datatype Upload = Upload(cfg: Config, parts: seq<Part>, msgs: map<nat, Msg>, pending: seq<nat>,
                           pool: Pool, orch: Orchestrator, calls: seq<Call>, purges: nat)

  const QUEUE_SLACK: nat := 4

  /** All parts fresh, the pool empty with a minimum of one thread, the upload initiated. */
  function Initial(cfg: Config): Upload {
    Upload(cfg, seq(|cfg.plan|, i requires 0 <= i < |cfg.plan| => Part(cfg.plan[i], 0, false, false, 0, 0, [], 0, [], [])),
           map[], [], Pool([], [], 0, {}, 1, cfg.maxThreads), Scan(0, true), [Initiated], 0)
  }

  // ---------------------------------------------------------------- steps

  /** Why the uploading thread gives up by itself. */
  datatype Cause = ReadFailed | AbortRequested | PatienceSpent

  datatype Step =
    // the orchestrator
    | ScanSkip | ScanBreak | ScanClaim | ScanEnd
    | FillRead(n: nat) | FillDone
    | Wake | PurgeRetry | PurgeGiveUp | PurgeDone | PurgeNext | PurgeEnd
    | RefillRead(n: nat) | RefillPush
    | Throw(cause: Cause) | CompleteCall(ok: bool) | AbortCall
    // a worker, named by its slot or by its message
    | Claim(w: nat) | Load(id: nat) | Write(id: nat, n: nat) | Pop(id: nat) | Resend(id: nat)
    | Return(id: nat, err: bool) | Report(id: nat) | Drop(w: nat)
    // the pool
    | PoolStep(action: PoolState.Action)

  predicate Unclaimed(p: Part) { !p.complete && !p.inProcess }

  /** The filling loop has another round to go. */
  predicate MoreToFill(s: Upload)
    requires s.orch.Fill? && s.orch.part < |s.parts|
  {
    s.orch.offset < s.parts[s.orch.part].slice.size && (s.cfg.checksum || s.orch.records < s.cfg.queueMax)
  }

  /** The purge pass looks at a message; `p` is its part. */
  predicate AtMessage(s: Upload) {
    && (s.orch.Purge? || s.orch.Refill?) && s.orch.at < |s.pending| && s.pending[s.orch.at] in s.msgs
    && s.msgs[s.pending[s.orch.at]].part < |s.parts|
  }

  function MsgAt(s: Upload): Msg
    requires AtMessage(s)
  {
    s.msgs[s.pending[s.orch.at]]
  }

  function PartAt(s: Upload): Part
    requires AtMessage(s)
  {
    s.parts[MsgAt(s).part]
  }

  predicate MoreToRefill(cfg: Config, p: Part) {
    p.popped <= |p.pushed| && |p.Stream()| < cfg.queueMax && p.cursor < p.slice.size
  }

  /** A message whose request body is being sent, with a well-defined part. */
  predicate IsSending(s: Upload, id: nat) {
    && id in s.msgs && s.msgs[id].phase.Sending? && s.msgs[id].part < |s.parts|
    && s.parts[s.msgs[id].part].popped <= |s.parts[s.msgs[id].part].pushed|
  }

  function PartOf(s: Upload, id: nat): Part
    requires IsSending(s, id)
  {
    s.parts[s.msgs[id].part]
  }

  predicate ReadSize(cfg: Config, n: nat, left: nat) {
    1 <= n <= Min(cfg.bufSize, left)
  }

  predicate InFile(cfg: Config, p: Part) {
    p.slice.base + p.slice.size <= |cfg.file|
  }

  /** A read is due: of the first pass over a part, or to refill the queue of a part under way. */
  predicate ReadIsDue(s: Upload) {
    || (s.orch.Fill? && s.orch.part < |s.parts| && MoreToFill(s))
    || (s.orch.Purge? && AtMessage(s) && !MsgAt(s).complete && MoreToRefill(s.cfg, PartAt(s)))
  }

  /** A part is about to be handed out. */
  predicate ClaimIsDue(s: Upload) {
    s.orch.Scan? && s.orch.next < |s.parts| && Unclaimed(s.parts[s.orch.next]) && |s.pool.queue| < s.cfg.maxThreads + QUEUE_SLACK
  }

  /** Each cause has its place: where files are read, and where requests to abort are looked at. */
  predicate MayThrow(s: Upload, cause: Cause) {
    match cause
    case ReadFailed => ReadIsDue(s)
    case AbortRequested => ClaimIsDue(s) || s.orch.Wait?
    case PatienceSpent => s.orch.Wait?
  }

  predicate Enabled(s: Upload, step: Step) {
    match step
    case ScanSkip => s.orch.Scan? && s.orch.next < |s.parts| && !Unclaimed(s.parts[s.orch.next])
    case ScanBreak => s.orch.Scan? && s.orch.next < |s.parts| && Unclaimed(s.parts[s.orch.next])
      && |s.pool.queue| >= s.cfg.maxThreads + QUEUE_SLACK
    case ScanClaim => ClaimIsDue(s)
    case ScanEnd => s.orch.Scan? && s.orch.next == |s.parts|
    case FillRead(n) => s.orch.Fill? && s.orch.part < |s.parts| && MoreToFill(s)
      && InFile(s.cfg, s.parts[s.orch.part])
      && ReadSize(s.cfg, n, s.parts[s.orch.part].slice.size - s.orch.offset)
    case FillDone => s.orch.Fill? && s.orch.part < |s.parts| && !MoreToFill(s) && s.orch.id in s.msgs
    case Wake => s.orch.Wait?
    case PurgeRetry => s.orch.Purge? && AtMessage(s) && MsgAt(s).complete && MsgAt(s).error
      && PartAt(s).retry < s.cfg.maxRetries
    case PurgeGiveUp => s.orch.Purge? && AtMessage(s) && MsgAt(s).complete && MsgAt(s).error
      && PartAt(s).retry >= s.cfg.maxRetries
    case PurgeDone => s.orch.Purge? && AtMessage(s) && MsgAt(s).complete && !MsgAt(s).error
    case RefillRead(n) => s.orch.Purge? && AtMessage(s) && !MsgAt(s).complete && MoreToRefill(s.cfg, PartAt(s))
      && InFile(s.cfg, PartAt(s))
      && ReadSize(s.cfg, n, PartAt(s).slice.size - PartAt(s).cursor)
    case RefillPush => s.orch.Refill? && AtMessage(s)
    case PurgeNext => s.orch.Purge? && AtMessage(s) && !MsgAt(s).complete && !MoreToRefill(s.cfg, PartAt(s))
    case PurgeEnd => s.orch.Purge? && s.orch.at == |s.pending|
    case Throw(cause) => MayThrow(s, cause)
    case CompleteCall(_) => s.orch.Finishing?
    case AbortCall => s.orch.Failing?
    case Claim(w) => CanTake(s.pool, w)
    case Load(id) => IsSending(s, id) && !s.msgs[id].phase.sender.loaded && !s.msgs[id].phase.sender.sentLast
      && PartOf(s, id).Stream() != []
    case Write(id, n) => IsSending(s, id) && s.msgs[id].phase.sender.loaded && PartOf(s, id).Stream() != []
      && s.msgs[id].phase.sender.sent + n <= |PartOf(s, id).Stream()[0].data|
    case Pop(id) => IsSending(s, id) && s.msgs[id].phase.sender.loaded && PartOf(s, id).Stream() != []
      && s.msgs[id].phase.sender.sent >= |PartOf(s, id).Stream()[0].data|
    case Resend(id) => IsSending(s, id) && s.msgs[id].phase.sender.sentLast && s.msgs[id].phase.sender.round < 2
    case Return(id, err) => IsSending(s, id) && (err || s.msgs[id].phase.sender.sentLast)
    case Report(id) => id in s.msgs && s.msgs[id].phase.Returned? && !s.orch.Purge? && !s.orch.Refill?
    case Drop(w) => CanFinish(s.pool, w) && s.pool.workers[w].hold.id in s.msgs
      && s.msgs[s.pool.workers[w].hold.id].phase.Reported?
    case PoolStep(ps) => (ps.DoAddThreads? || ps.DoIdle? || ps.DoKill? || ps.DoExit?) && CanDo(s.pool, ps)
  }

  function SetPart(s: Upload, i: nat, p: Part): Upload
    requires i < |s.parts|
  {
    s.(parts := s.parts[i := p])
  }

  function SetPhase(s: Upload, id: nat, ph: Phase): Upload
    requires id in s.msgs
  {
    s.(msgs := s.msgs[id := s.msgs[id].(phase := ph)])
  }

  function SetSender(s: Upload, id: nat, sd: Sender): Upload
    requires id in s.msgs
  {
    SetPhase(s, id, Sending(sd))
  }

  /** A part at the start of an attempt: nothing read, nothing queued. */
  function Rewound(p: Part): Part {
    p.(cursor := 0, pushed := [], popped := 0, hashed := [])
  }

  function Pushed(p: Part, data: seq<byte>, last: bool): Part {
    p.(pushed := p.pushed + [Entry(data, last)], cursor := p.cursor + |data|)
  }

  function Removed<T>(q: seq<T>, k: nat): seq<T>
    requires k < |q|
  {
    q[..k] + q[k + 1..]
  }

  function Apply(s: Upload, step: Step): Upload
    requires Enabled(s, step)
  {
    match step
    case ScanSkip => s.(orch := Scan(s.orch.next + 1, s.orch.allDone && s.parts[s.orch.next].complete))
    case ScanBreak => s.(orch := Wait)
    case ScanClaim =>
      var i, id := s.orch.next, s.pool.nextId;
      SetPart(s, i, s.parts[i].(inProcess := true, owner := id, pushed := [], popped := 0, hashed := []))
        .(msgs := s.msgs[id := Msg(i, Filling, false, false)], pending := s.pending + [id], orch := Fill(i, id, 0, 0))
    case ScanEnd => s.(orch := if s.orch.allDone then Finishing else Wait)
    case FillRead(n) =>
      var Fill(i, id, offset, records) := s.orch;
      var p := s.parts[i];
      var data := s.cfg.file[p.slice.base + offset..p.slice.base + offset + n];
      var h := if s.cfg.checksum then p.(hashed := p.hashed + data) else p;
      if records < s.cfg.queueMax then
        SetPart(s, i, Pushed(h, data, p.slice.size - offset == n)).(orch := Fill(i, id, offset + n, records + 1))
      else SetPart(s, i, h).(orch := Fill(i, id, offset + n, records))
    case FillDone =>
      SetPhase(s, s.orch.id, Queued).(pool := Send(s.pool, 0, DONT_CARE), orch := Scan(s.orch.part + 1, false))
    case Wake => s.(orch := Purge(0, false))
    case PurgeRetry =>
      var id, p := s.pending[s.orch.at], PartAt(s);
      SetPart(s, MsgAt(s).part, Rewound(p).(inProcess := false, complete := false, retry := p.retry + 1))
        .(msgs := s.msgs[id := MsgAt(s).(complete := false)], pending := Removed(s.pending, s.orch.at),
          orch := Purge(s.orch.at, true), purges := s.purges + 1)
    case PurgeGiveUp => s.(orch := Failing)
    case PurgeDone =>
      SetPart(s, MsgAt(s).part, PartAt(s).(complete := true))
        .(pending := Removed(s.pending, s.orch.at), orch := Purge(s.orch.at, true), purges := s.purges + 1)
    case RefillRead(n) =>
      var p := PartAt(s);
      s.(orch := Refill(s.orch.at, s.orch.deleted, s.cfg.file[p.slice.base + p.cursor..p.slice.base + p.cursor + n]))
    case RefillPush =>
      var p := PartAt(s);
      SetPart(s, MsgAt(s).part, Pushed(p, s.orch.chunk, p.slice.size <= p.cursor + |s.orch.chunk|))
        .(orch := Purge(s.orch.at, s.orch.deleted))
    case PurgeNext => s.(orch := Purge(s.orch.at + 1, s.orch.deleted))
    case PurgeEnd => s.(orch := if s.orch.deleted then Scan(0, true) else Wait)
    case Throw(_) => s.(orch := Failing)
    case CompleteCall(ok) =>
      if ok then s.(orch := Ended(true), calls := s.calls + [Completed])
      else s.(orch := Failing, calls := s.calls + [CompleteFailed])
    case AbortCall => s.(orch := Ended(false), calls := s.calls + [Aborted])
    case Claim(w) =>
      var pool := Take(s.pool, w);
      var hold := pool.workers[w].hold;
      if hold.Message? && hold.id in s.msgs then SetSender(s, hold.id, FreshSender).(pool := pool)
      else s.(pool := pool)
    case Load(id) => SetSender(s, id, s.msgs[id].phase.sender.(sent := 0, loaded := true))
    case Write(id, n) =>
      var sd := s.msgs[id].phase.sender;
      SetSender(s, id, sd.(wire := sd.wire + PartOf(s, id).Stream()[0].data[sd.sent..sd.sent + n], sent := sd.sent + n))
    case Pop(id) =>
      var p := PartOf(s, id);
      SetSender(SetPart(s, s.msgs[id].part, p.(popped := p.popped + 1)), id,
                s.msgs[id].phase.sender.(loaded := false, sentLast := p.Stream()[0].last))
    case Resend(id) => SetSender(s, id, FreshSender.(round := s.msgs[id].phase.sender.round + 1))
    case Return(id, err) =>
      var p := PartOf(s, id);
      SetPart(s, s.msgs[id].part, if err then p else p.(uploaded := s.msgs[id].phase.sender.wire))
        .(msgs := s.msgs[id := s.msgs[id].(phase := Returned, error := err)])
    case Report(id) => s.(msgs := s.msgs[id := s.msgs[id].(phase := Reported, complete := true)])
    case Drop(w) => s.(pool := Finish(s.pool, w, true))
    case PoolStep(ps) => s.(pool := Do(s.pool, ps))
  }

  ghost predicate ValidRun(s: Upload, run: seq<Step>)
    decreases |run|
  {
    run == [] || (Enabled(s, run[0]) && ValidRun(Apply(s, run[0]), run[1..]))
  }

  ghost function Exec(s: Upload, run: seq<Step>): Upload
    requires ValidRun(s, run)
    decreases |run|
  {
    if run == [] then s else Exec(Apply(s, run[0]), run[1..])
  }
}
