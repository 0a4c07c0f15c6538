/**
 The worker pool of ECSUtil/ThreadPool.h as a value: the message list, the worker list and
 every critical section that changes them, each written as one function from state to state.
 ThreadPool.dfy refines these functions with the loops of the original class, and UploadState.dfy
 runs the multipart uploader on top of them.
 */
module PoolState {

  // Grouping codes of CThreadPool::ENUM_THREAD_POOL_GROUPING.
  const DONT_CARE: nat := 0
  const ALONE_BASE: nat := 1000

  /** A queued message. `id` numbers the messages in the order in which the pool accepted them. */
  datatype MsgEntry = MsgEntry(id: nat, priority: nat, grouping: nat, processing: bool)

  /** The list node a worker is processing, if any. */
  datatype Hold = Nothing | Message(id: nat)

  /**
   A thread slot. `active` and `exiting` are the thread's running and exit flags; `inUse` and
   `grouping` are the scheduler's flags. A worker keeps `inUse` for a while after its message
   has left the queue.
   */
  datatype Worker = Worker(active: bool, exiting: bool, inUse: bool, grouping: nat, hold: Hold)

  /** `finished` records the messages whose processing succeeded and which left the queue. */
  datatype Pool = Pool(queue: seq<MsgEntry>, workers: seq<Worker>,
                       nextId: nat, finished: set<nat>, minThreads: nat, maxThreads: nat)

  // ---------------------------------------------------------------- queue order

  /** Higher priorities first; equal priorities in order of arrival. */
  predicate Before(a: MsgEntry, b: MsgEntry) {
    a.priority > b.priority || (a.priority == b.priority && a.id < b.id)
  }

  ghost predicate Ordered(q: seq<MsgEntry>) {
    forall i, j :: 0 <= i < j < |q| ==> Before(q[i], q[j])
  }

  ghost predicate DistinctIds(q: seq<MsgEntry>) {
    forall i, j :: 0 <= i < j < |q| ==> q[i].id != q[j].id
  }

  /** Where a message of this priority goes: behind the last entry that is at least as urgent. */
  function InsertPos(q: seq<MsgEntry>, priority: nat): (k: nat)
    ensures k <= |q|
    ensures k > 0 ==> q[k - 1].priority >= priority
    ensures forall j :: k <= j < |q| ==> q[j].priority < priority
  {
    if q == [] then 0
    else if q[|q| - 1].priority >= priority then |q|
    else InsertPos(q[..|q| - 1], priority)
  }

  function Insert(q: seq<MsgEntry>, e: MsgEntry): seq<MsgEntry> {
    var k := InsertPos(q, e.priority);
    q[..k] + [e] + q[k..]
  }

  lemma InsertKeepsOrder(q: seq<MsgEntry>, e: MsgEntry)
    requires Ordered(q)
    requires forall i :: 0 <= i < |q| ==> q[i].id < e.id
    ensures Ordered(Insert(q, e)) && (DistinctIds(q) ==> DistinctIds(Insert(q, e)))
  {
    var k, r := InsertPos(q, e.priority), Insert(q, e);
    assert forall i :: 0 <= i < k ==> q[i].priority >= q[k - 1].priority;
    forall i, j | 0 <= i < j < |r| ensures Before(r[i], r[j]) && (DistinctIds(q) ==> r[i].id != r[j].id) {
      assert r[i] == if i < k then q[i] else if i == k then e else q[i - 1];
      assert r[j] == if j < k then q[j] else if j == k then e else q[j - 1];
    }
  }

  /** Position of the first entry that nobody processes, or the length of the queue. */
  function FirstWaiting(q: seq<MsgEntry>): (k: nat)
    ensures k <= |q|
    ensures forall j :: 0 <= j < k ==> q[j].processing
    ensures k < |q| ==> !q[k].processing
  {
    if q == [] then 0 else if !q[0].processing then 0 else 1 + FirstWaiting(q[1..])
  }

  /** Position of the entry with this identity, or the length of the queue. */
  function Find(q: seq<MsgEntry>, id: nat): (k: nat)
    ensures k <= |q|
    ensures forall j :: 0 <= j < k ==> q[j].id != id
    ensures k < |q| ==> q[k].id == id
  {
    if q == [] then 0 else if q[0].id == id then 0 else 1 + Find(q[1..], id)
  }

  ghost function Ids(q: seq<MsgEntry>): set<nat> {
    set i | 0 <= i < |q| :: q[i].id
  }

  ghost function ProcessingIds(q: seq<MsgEntry>): set<nat> {
    set i | 0 <= i < |q| && q[i].processing :: q[i].id
  }

  // ---------------------------------------------------------------- workers

  /** Two messages may be processed at the same time. */
  predicate Compatible(g: nat, h: nat) {
    (g == DONT_CARE && h == DONT_CARE) || (g == h && g < ALONE_BASE)
  }

  predicate InGroup(ws: seq<Worker>, grouping: nat) {
    forall w :: 0 <= w < |ws| && ws[w].inUse ==> Compatible(grouping, ws[w].grouping)
  }

  ghost function HeldIds(ws: seq<Worker>): set<nat> {
    set w | 0 <= w < |ws| && ws[w].hold.Message? :: ws[w].hold.id
  }

  function NumActive(ws: seq<Worker>): (n: nat)
    ensures n <= |ws|
  {
    if ws == [] then 0
    else NumActive(ws[..|ws| - 1]) + if ws[|ws| - 1].active then 1 else 0
  }

  const FreshWorker := Worker(true, false, false, DONT_CARE, Nothing)

  /** First slot whose thread has ended, or the number of slots. */
  function FirstInactive(ws: seq<Worker>): (k: nat)
    ensures k <= |ws|
    ensures forall j :: 0 <= j < k ==> ws[j].active
    ensures k < |ws| ==> !ws[k].active
  {
    if ws == [] then 0 else if !ws[0].active then 0 else 1 + FirstInactive(ws[1..])
  }

  /** StartNewThread: take over the first dead slot, or append one. */
  function Start(ws: seq<Worker>): seq<Worker> {
    var k := FirstInactive(ws);
    if k < |ws| then ws[k := FreshWorker.(grouping := ws[k].grouping)] else ws + [FreshWorker]
  }

  lemma {:induction false} NumActiveUpdate(ws: seq<Worker>, k: nat, w: Worker)
    requires k < |ws|
    ensures NumActive(ws[k := w])
         == NumActive(ws) - (if ws[k].active then 1 else 0) + (if w.active then 1 else 0)
  {
    var n := |ws| - 1;
    if k == n {
      assert ws[k := w][..n] == ws[..n];
    } else {
      assert ws[k := w][..n] == ws[..n][k := w];
      NumActiveUpdate(ws[..n], k, w);
    }
  }

  lemma StartAddsOne(ws: seq<Worker>)
    ensures NumActive(Start(ws)) == NumActive(ws) + 1
  {
    var k := FirstInactive(ws);
    if k < |ws| {
      NumActiveUpdate(ws, k, FreshWorker.(grouping := ws[k].grouping));
    } else {
      assert Start(ws)[..|ws|] == ws;
    }
  }

  /** Start threads until the configured minimum is active. */
  function StartUpTo(ws: seq<Worker>, min: nat): (r: seq<Worker>)
    decreases min - NumActive(ws)
    ensures NumActive(r) == if NumActive(ws) < min then min else NumActive(ws)
  {
    StartAddsOne(ws);
    if NumActive(ws) < min then StartUpTo(Start(ws), min) else ws
  }

  // ---------------------------------------------------------------- critical sections

  /**
   The locked part of AddThreads. The subtraction `realMax - active` is unsigned in the
   original, so its test "> 0" is "different".
   */
  function AddThreads(p: Pool): Pool {
    if NumActive(p.workers) >= p.maxThreads then p
    else
      var ws := StartUpTo(p.workers, p.minThreads);
      var active := NumActive(ws);
      if p.maxThreads != active && |p.queue| > active && InGroup(ws, p.queue[0].grouping)
      then p.(workers := Start(ws))
      else p.(workers := ws)
  }

  /** SendMessageToPool: the insertion done by UpdatePerf. */
  function Send(p: Pool, priority: nat, grouping: nat): Pool {
    p.(queue := Insert(p.queue, MsgEntry(p.nextId, priority, grouping, false)),
       nextId := p.nextId + 1)
  }

  /** A worker that may look for work: its thread runs and it is between two messages. */
  predicate CanTake(p: Pool, w: nat) {
    w < |p.workers| && p.workers[w].active && !p.workers[w].exiting
    && !p.workers[w].inUse && p.workers[w].hold.Nothing?
  }

  /**
   The first critical section of DoWork. The worker's own grouping is overwritten even when the
   message turns out not to be compatible with the running ones.
   */
  function Take(p: Pool, w: nat): Pool
    requires CanTake(p, w)
  {
    var k := FirstWaiting(p.queue);
    if k == |p.queue| then p
    else
      var e := p.queue[k];
      if !InGroup(p.workers, e.grouping) then
        p.(workers := p.workers[w := p.workers[w].(grouping := e.grouping)])
      else
        p.(queue := p.queue[k := e.(processing := true)],
           workers := p.workers[w := p.workers[w].(grouping := e.grouping, inUse := true,
                                                   hold := Message(e.id))])
  }

  predicate CanFinish(p: Pool, w: nat) {
    w < |p.workers| && p.workers[w].active && p.workers[w].hold.Message?
  }

  /** The second critical section of DoWork, after DoProcess returned `ok`. */
  function Finish(p: Pool, w: nat, ok: bool): Pool
    requires CanFinish(p, w)
  {
    var id := p.workers[w].hold.id;
    var k := Find(p.queue, id);
    var ws := p.workers[w := p.workers[w].(hold := Nothing)];
    if k == |p.queue| then p.(workers := ws)
    else if ok then
      p.(queue := p.queue[..k] + p.queue[k + 1..], workers := ws, finished := p.finished + {id})
    else
      p.(queue := p.queue[k := p.queue[k].(processing := false)], workers := ws)
  }

  predicate CanIdle(p: Pool, w: nat) {
    w < |p.workers| && p.workers[w].active && p.workers[w].inUse && p.workers[w].hold.Nothing?
  }

  function Idle(p: Pool, w: nat): Pool
    requires CanIdle(p, w)
  {
    p.(workers := p.workers[w := p.workers[w].(inUse := false)])
  }

  /** KillThread by the worker itself: too many threads, or idle for too long. */
  function Kill(p: Pool, w: nat): Pool
    requires CanTake(p, w)
  {
    p.(workers := p.workers[w := p.workers[w].(exiting := true)])
  }

  predicate CanExit(p: Pool, w: nat) {
    w < |p.workers| && p.workers[w].active && p.workers[w].exiting
    && !p.workers[w].inUse && p.workers[w].hold.Nothing?
  }

  /** ExitInstance and the end of the thread procedure. */
  function Exit(p: Pool, w: nat): Pool
    requires CanExit(p, w)
  {
    p.(workers := p.workers[w := p.workers[w].(active := false, inUse := false)])
  }

  datatype Action =
    | DoSend(priority: nat, grouping: nat)
    | DoAddThreads
    | DoTake(w: nat)
    | DoFinish(w: nat, ok: bool)
    | DoIdle(w: nat)
    | DoKill(w: nat)
    | DoExit(w: nat)

  predicate CanDo(p: Pool, s: Action) {
    match s
    case DoSend(_, _) => true
    case DoAddThreads => true
    case DoTake(w) => CanTake(p, w)
    case DoFinish(w, _) => CanFinish(p, w)
    case DoIdle(w) => CanIdle(p, w)
    case DoKill(w) => CanTake(p, w)
    case DoExit(w) => CanExit(p, w)
  }

  function Do(p: Pool, s: Action): Pool
    requires CanDo(p, s)
  {
    match s
    case DoSend(pr, g) => Send(p, pr, g)
    case DoAddThreads => AddThreads(p)
    case DoTake(w) => Take(p, w)
    case DoFinish(w, ok) => Finish(p, w, ok)
    case DoIdle(w) => Idle(p, w)
    case DoKill(w) => Kill(p, w)
    case DoExit(w) => Exit(p, w)
  }

  // ---------------------------------------------------------------- the invariant

  /** Queue order and the life of a message: every accepted id is queued or finished, not both. */
  ghost predicate QueueInv(p: Pool) {
    && Ordered(p.queue) && DistinctIds(p.queue)
    && (forall id :: !(id in Ids(p.queue) && id in p.finished))
    && (forall id: nat :: id < p.nextId <==> id in Ids(p.queue) || id in p.finished)
  }

  /** Who processes what: the flagged entries are exactly the held ones, each by one worker. */
  ghost predicate HoldInv(p: Pool) {
    && HeldIds(p.workers) == ProcessingIds(p.queue)
    && (forall v, w :: (0 <= v < w < |p.workers| && p.workers[v].hold.Message? && p.workers[w].hold.Message?)
          ==> p.workers[v].hold.id != p.workers[w].hold.id)
    && (forall w :: 0 <= w < |p.workers| && p.workers[w].hold.Message? ==> p.workers[w].inUse)
    && (forall w :: 0 <= w < |p.workers| && p.workers[w].inUse ==> p.workers[w].active)
  }

  ghost predicate GroupInv(p: Pool) {
    && (forall v, w :: 0 <= v < w < |p.workers| && p.workers[v].inUse && p.workers[w].inUse
          ==> Compatible(p.workers[v].grouping, p.workers[w].grouping))
    && (forall w, i :: 0 <= w < |p.workers| && 0 <= i < |p.queue|
          && p.workers[w].hold == Message(p.queue[i].id)
          ==> p.workers[w].grouping == p.queue[i].grouping)
  }

  ghost predicate LimitInv(p: Pool) {
    NumActive(p.workers) <= p.maxThreads
  }

  ghost predicate PoolOk(p: Pool) {
    QueueInv(p) && HoldInv(p) && GroupInv(p)
  }
}
