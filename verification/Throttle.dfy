/**
 The download throttle of ECSUtil/ECSConnection.cpp: one byte budget per host, charged by any number
 of requests after each received block and refilled by a timer. A request that has charged goes on
 when it sees a budget that is not negative; an aborted request leaves without looking.
 */
module Throttle {

  const TICKS_PER_SECOND: nat := 10_000_000

  /** THROTTLE_INFO. */
  class Budget {
    var bytesSec: int
    var current: int

    constructor ()
      ensures bytesSec == 0 && current == 0
    {
      bytesSec, current := 0, 0;
    }

    /** SetThrottle: the first interval starts with a full budget. */
    method SetRate(rate: nat)
      modifies this
      ensures bytesSec == rate && current == rate
    {
      bytesSec, current := rate, rate;
    }

    /** The timer: refill, also what was overdrawn, but save nothing up. */
    method Refill(elapsed: nat)
      requires bytesSec >= 0
      modifies `current
      ensures current == if bytesSec == 0 then 0 else Refilled(old(current), Allowance(bytesSec, elapsed))
      ensures bytesSec * elapsed >= TICKS_PER_SECOND * (-old(current)) ==> current >= 0 || bytesSec == 0
    {
      if bytesSec != 0 {
        var allowance := (bytesSec * elapsed) / TICKS_PER_SECOND;
        current := current + allowance;
        if current > allowance {
          current := allowance;
        }
      } else {
        current := 0;
      }
    }

    method Charge(n: nat)
      modifies `current
      ensures current == if bytesSec != 0 then old(current) - n else old(current)
    {
      if bytesSec != 0 {
        current := current - n;
      }
    }

    /** Whether a request that has charged may go on. */
    method MayPass() returns (ok: bool)
      ensures ok <==> bytesSec == 0 || current >= 0
    {
      ok := bytesSec == 0 || current >= 0;
    }
  }

  function Allowance(rate: int, elapsed: nat): int { (rate * elapsed) / TICKS_PER_SECOND }

  function Refilled(current: int, allowance: int): int {
    if current + allowance > allowance then allowance else current + allowance
  }

  // ---------------------------------------------------------------- runs

  /** A request between two blocks, or waiting after a charge. */
  datatype Request = Receiving | Waiting

  /** `rate` is positive and constant; `charged`, `time` and `aborts` record the history. */
  datatype State = State(rate: nat, current: int, requests: seq<Request>, charged: nat, time: nat, aborts: nat)

  datatype Step =
    | Charge(i: nat, n: nat)
    | Pass(i: nat)
    | Abort(i: nat)
    | Tick(elapsed: nat)

  predicate Enabled(s: State, step: Step) {
    match step
    case Charge(i, _) => i < |s.requests| && s.requests[i].Receiving?
    case Pass(i) => i < |s.requests| && s.requests[i].Waiting? && s.current >= 0
    case Abort(i) => i < |s.requests| && s.requests[i].Waiting?
    case Tick(_) => true
  }

  function Apply(s: State, step: Step): State
    requires Enabled(s, step)
  {
    match step
    case Charge(i, n) => s.(current := s.current - n, requests := s.requests[i := Waiting], charged := s.charged + n)
    case Pass(i) => s.(requests := s.requests[i := Receiving])
    case Abort(i) => s.(requests := s.requests[i := Receiving], aborts := s.aborts + 1)
    case Tick(elapsed) => s.(current := Refilled(s.current, Allowance(s.rate, elapsed)), time := s.time + elapsed)
  }

  ghost predicate ValidRun(s: State, run: seq<Step>)
    decreases |run|
  {
    run == [] || (Enabled(s, run[0]) && ValidRun(Apply(s, run[0]), run[1..]))
  }

  ghost function Exec(s: State, run: seq<Step>): State
    requires ValidRun(s, run)
    decreases |run|
  {
    if run == [] then s else Exec(Apply(s, run[0]), run[1..])
  }

  function Start(rate: nat, m: nat): State {
    State(rate, rate, seq(m, i => Receiving), 0, 0, 0)
  }

  ghost predicate BlocksAtMost(run: seq<Step>, c: nat) {
    forall i :: 0 <= i < |run| && run[i].Charge? ==> run[i].n <= c
  }

  function NumWaiting(rs: seq<Request>): (n: nat)
    ensures n <= |rs|
  {
    if rs == [] then 0
    else NumWaiting(rs[..|rs| - 1]) + (if rs[|rs| - 1].Waiting? then 1 else 0)
  }

  lemma {:induction false} NumWaitingUpdate(rs: seq<Request>, i: nat, r: Request)
    requires i < |rs|
    ensures NumWaiting(rs[i := r]) == NumWaiting(rs) - (if rs[i].Waiting? then 1 else 0) + (if r.Waiting? then 1 else 0)
  {
    var n := |rs| - 1;
    if i == n {
      assert rs[i := r][..n] == rs[..n];
    } else {
      assert rs[i := r][..n] == rs[..n][i := r];
      NumWaitingUpdate(rs[..n], i, r);
    }
  }

  /** The size of k blocks of c bytes. */
  function Blocks(k: nat, c: nat): nat { k * c }

  lemma OneMoreBlock(k: nat, c: nat)
    ensures Blocks(k + 1, c) == Blocks(k, c) + c
  {
    assert (k + 1) * c == k * c + c;
  }

  lemma {:induction false} MoreBlocks(j: nat, k: nat, c: nat)
    requires j <= k
    ensures Blocks(j, c) <= Blocks(k, c)
    decreases k - j
  {
    if j < k {
      OneMoreBlock(j, c);
      MoreBlocks(j + 1, k, c);
    }
  }

  /** The deepest overdraft: one block for each request that waits, and for each that did not. */
  ghost predicate OverdraftOk(s: State, c: nat) {
    s.current + Blocks(NumWaiting(s.requests) + s.aborts, c) >= 0
  }

  lemma StepOverdraft(s: State, step: Step, c: nat)
    requires OverdraftOk(s, c) && Enabled(s, step) && (step.Charge? ==> step.n <= c)
    ensures OverdraftOk(Apply(s, step), c)
  {
    hide Blocks;
    match step
    case Charge(i, n) =>
      NumWaitingUpdate(s.requests, i, Waiting);
      OneMoreBlock(NumWaiting(s.requests) + s.aborts, c);
    case Pass(i) => NumWaitingUpdate(s.requests, i, Receiving);
    case Abort(i) => NumWaitingUpdate(s.requests, i, Receiving);
    case Tick(elapsed) => AllowanceIsFloor(s.rate, elapsed);
  }

  lemma AllowanceIsFloor(rate: nat, elapsed: nat)
    ensures 0 <= Allowance(rate, elapsed)
    ensures Allowance(rate, elapsed) * TICKS_PER_SECOND <= rate * elapsed
  {
    assert rate * elapsed >= 0;
  }

  lemma {:induction false} RunKeeps(s: State, run: seq<Step>, c: nat)
    requires OverdraftOk(s, c) && ValidRun(s, run) && BlocksAtMost(run, c)
    ensures var t := Exec(s, run); OverdraftOk(t, c) && t.rate == s.rate && |t.requests| == |s.requests|
    decreases |run|
  {
    hide OverdraftOk;
    if run != [] {
      assert run[0].Charge? ==> run[0].n <= c;
      StepOverdraft(s, run[0], c);
      RunKeeps(Apply(s, run[0]), run[1..], c);
    }
  }

  lemma {:induction false} NobodyWaits(rs: seq<Request>)
    requires forall i :: 0 <= i < |rs| ==> rs[i].Receiving?
    ensures NumWaiting(rs) == 0
  {
    if rs != [] {
      NobodyWaits(rs[..|rs| - 1]);
    }
  }

  lemma Reached(rate: nat, m: nat, run: seq<Step>, c: nat)
    requires ValidRun(Start(rate, m), run) && BlocksAtMost(run, c)
    ensures var t := Exec(Start(rate, m), run); OverdraftOk(t, c) && t.rate == rate && |t.requests| == m
  {
    NobodyWaits(Start(rate, m).requests);
    RunKeeps(Start(rate, m), run, c);
  }

  // ---------------------------------------------------------------- results

  /** With m requests and blocks of at most c bytes the overdraft is at most m * c, plus c per abort. */
  lemma OverdraftIsBounded(rate: nat, m: nat, run: seq<Step>, c: nat)
    requires ValidRun(Start(rate, m), run) && BlocksAtMost(run, c)
    ensures var t := Exec(Start(rate, m), run); t.current + Blocks(m + t.aborts, c) >= 0
  {
    hide Blocks;
    Reached(rate, m, run, c);
    var t := Exec(Start(rate, m), run);
    MoreBlocks(NumWaiting(t.requests) + t.aborts, m + t.aborts, c);
  }

  /** The sum of the allowances of the ticks, each rounded down. */
  function Granted(rate: nat, run: seq<Step>): int {
    if run == [] then 0
    else (if run[0].Tick? then Allowance(rate, run[0].elapsed) else 0) + Granted(rate, run[1..])
  }

  lemma {:induction false} FlowIsGranted(s: State, run: seq<Step>)
    requires ValidRun(s, run)
    ensures Exec(s, run).charged + Exec(s, run).current <= s.charged + s.current + Granted(s.rate, run)
    decreases |run|
  {
    if run != [] {
      FlowIsGranted(Apply(s, run[0]), run[1..]);
    }
  }

  /**
   Between any two states of a run at most the budget at its beginning and the allowances of its ticks
   are received, plus one block for each request and each abort.
   */
  lemma WindowIsBounded(rate: nat, m: nat, run: seq<Step>, more: seq<Step>, c: nat)
    requires ValidRun(Start(rate, m), run) && ValidRun(Exec(Start(rate, m), run), more)
    requires BlocksAtMost(run, c) && BlocksAtMost(more, c)
    ensures var s := Exec(Start(rate, m), run); var t := Exec(s, more);
      t.charged - s.charged <= s.current + Granted(rate, more) + Blocks(m + t.aborts, c)
  {
    hide Blocks;
    Reached(rate, m, run, c);
    var s := Exec(Start(rate, m), run);
    OverdraftAfter(s, more, m, c);
    FlowIsGranted(s, more);
  }

  /** Rounding down only makes it less; the first tick counts one second, whatever the clock shows. */
  lemma {:induction false} GrantedIsTime(s: State, run: seq<Step>)
    requires ValidRun(s, run)
    ensures Granted(s.rate, run) * TICKS_PER_SECOND <= s.rate * (Exec(s, run).time - s.time)
    decreases |run|
  {
    if run == [] {
      assert s.rate * 0 == 0;
    } else {
      var t := Apply(s, run[0]);
      GrantedIsTime(t, run[1..]);
      if run[0].Tick? {
        AllowanceIsFloor(s.rate, run[0].elapsed);
        var rest := Exec(t, run[1..]).time - t.time;
        assert s.rate * (run[0].elapsed + rest) == s.rate * run[0].elapsed + s.rate * rest;
      }
    }
  }

  /**
   The throttle limits the rate: at most the first interval and the allowances of the ticks are
   received, plus one block for each request and each abort; so in time T at most rate * (1 + T).
   */
  lemma RateIsBounded(rate: nat, m: nat, run: seq<Step>, c: nat)
    requires ValidRun(Start(rate, m), run) && BlocksAtMost(run, c)
    ensures var t := Exec(Start(rate, m), run);
      && t.charged <= rate + Granted(rate, run) + Blocks(m + t.aborts, c)
      && t.charged * TICKS_PER_SECOND <= rate * (TICKS_PER_SECOND + t.time) + Blocks(m + t.aborts, c) * TICKS_PER_SECOND
  {
    hide Blocks;
    WindowIsBounded(rate, m, [], run, c);
    GrantedIsTime(Start(rate, m), run);
    var t := Exec(Start(rate, m), run);
    assert rate * (TICKS_PER_SECOND + t.time) == rate * TICKS_PER_SECOND + rate * t.time;
  }

  lemma {:induction false} NoTickNoRefill(s: State, run: seq<Step>)
    requires ValidRun(s, run) && forall i :: 0 <= i < |run| ==> !run[i].Tick?
    ensures Exec(s, run).charged + Exec(s, run).current == s.charged + s.current
    decreases |run|
  {
    if run != [] {
      NoTickNoRefill(Apply(s, run[0]), run[1..]);
    }
  }

  /**
   Nothing is saved up: between one tick and the next at most the allowance of the first is received,
   plus one block for each request and each abort, however long the requests were silent before.
   */
  lemma BurstIsBounded(rate: nat, m: nat, run: seq<Step>, elapsed: nat, more: seq<Step>, c: nat)
    requires ValidRun(Start(rate, m), run) && BlocksAtMost(run, c) && BlocksAtMost(more, c)
    requires var t := Apply(Exec(Start(rate, m), run), Tick(elapsed)); ValidRun(t, more)
    requires forall i :: 0 <= i < |more| ==> !more[i].Tick?
    ensures var t := Apply(Exec(Start(rate, m), run), Tick(elapsed)); var u := Exec(t, more);
      u.charged - t.charged <= Allowance(rate, elapsed) + Blocks(m + u.aborts, c)
  {
    hide Blocks, Allowance, Exec, ValidRun, BlocksAtMost;
    var s := Exec(Start(rate, m), run);
    var t := Apply(s, Tick(elapsed));
    AfterTick(rate, m, run, elapsed, c);
    OverdraftAfter(t, more, m, c);
    NoTickNoRefill(t, more);
  }

  lemma AfterTick(rate: nat, m: nat, run: seq<Step>, elapsed: nat, c: nat)
    requires ValidRun(Start(rate, m), run) && BlocksAtMost(run, c)
    ensures var t := Apply(Exec(Start(rate, m), run), Tick(elapsed));
      t.current <= Allowance(rate, elapsed) && OverdraftOk(t, c) && |t.requests| == m
  {
    Reached(rate, m, run, c);
    hide OverdraftOk, Allowance;
    var s := Exec(Start(rate, m), run);
    StepOverdraft(s, Tick(elapsed), c);
  }

  lemma OverdraftAfter(t: State, more: seq<Step>, m: nat, c: nat)
    requires OverdraftOk(t, c) && |t.requests| == m && ValidRun(t, more) && BlocksAtMost(more, c)
    ensures Exec(t, more).current + Blocks(m + Exec(t, more).aborts, c) >= 0
  {
    hide Blocks;
    RunKeeps(t, more, c);
    var u := Exec(t, more);
    MoreBlocks(NumWaiting(u.requests) + u.aborts, m + u.aborts, c);
  }

  lemma {:induction false} TicksRefill(s: State, run: seq<Step>)
    requires ValidRun(s, run) && forall i :: 0 <= i < |run| ==> run[i].Tick?
    ensures Exec(s, run).current >= (if s.current + Granted(s.rate, run) < 0 then s.current + Granted(s.rate, run) else 0)
    ensures s.current >= 0 ==> Exec(s, run).current >= 0
    decreases |run|
  {
    if run != [] {
      AllowanceIsFloor(s.rate, run[0].elapsed);
      TicksRefill(Apply(s, run[0]), run[1..]);
    }
  }

  /**
   Nobody waits for ever: once the timer alone has granted m * c bytes (plus c per abort), the budget
   is not negative and every waiting request may go on.
   */
  lemma WaitingEnds(rate: nat, m: nat, run: seq<Step>, ticks: seq<Step>, c: nat)
    requires ValidRun(Start(rate, m), run) && BlocksAtMost(run, c)
    requires ValidRun(Exec(Start(rate, m), run), ticks) && forall i :: 0 <= i < |ticks| ==> ticks[i].Tick?
    requires Granted(rate, ticks) >= Blocks(m + Exec(Start(rate, m), run).aborts, c)
    ensures EverybodyPasses(Exec(Exec(Start(rate, m), run), ticks))
  {
    hide Blocks;
    Reached(rate, m, run, c);
    OverdraftIsBounded(rate, m, run, c);
    TicksRefill(Exec(Start(rate, m), run), ticks);
  }

  /** The budget is not negative and no waiting request is held up. */
  ghost predicate EverybodyPasses(s: State) {
    s.current >= 0 && forall i :: 0 <= i < |s.requests| && s.requests[i].Waiting? ==> Enabled(s, Pass(i))
  }

  // ---------------------------------------------------------------- the rate is granted

  /** A tick grants the rate times its time, less than one byte short. */
  lemma AllowanceIsTheRate(rate: nat, elapsed: nat)
    ensures Allowance(rate, elapsed) * TICKS_PER_SECOND <= rate * elapsed < (Allowance(rate, elapsed) + 1) * TICKS_PER_SECOND
  {
    var time := rate * elapsed;
    assert time == (time / TICKS_PER_SECOND) * TICKS_PER_SECOND + time % TICKS_PER_SECOND;
  }

  function Ticks(run: seq<Step>): nat {
    if run == [] then 0 else (if run[0].Tick? then 1 else 0) + Ticks(run[1..])
  }

  /** Over a whole run the ticks grant the rate times their time, less than one byte short for each tick. */
  lemma {:induction false} GrantedIsTheRate(s: State, run: seq<Step>)
    requires ValidRun(s, run)
    ensures s.rate * (Exec(s, run).time - s.time) <= Granted(s.rate, run) * TICKS_PER_SECOND + Ticks(run) * (TICKS_PER_SECOND - 1)
    decreases |run|
  {
    hide Allowance;
    if run == [] {
      assert s.rate * 0 == 0;
    } else {
      var t := Apply(s, run[0]);
      GrantedIsTheRate(t, run[1..]);
      if run[0].Tick? {
        AllowanceIsTheRate(s.rate, run[0].elapsed);
        var rest := Exec(t, run[1..]).time - t.time;
        assert s.rate * (run[0].elapsed + rest) == s.rate * run[0].elapsed + s.rate * rest;
      }
    }
  }

  /**
   The same in time: when the rate times the time of the ticks covers the deepest overdraft and one
   byte for each tick, every waiting request may go on.
   */
  lemma WaitingEndsInTime(rate: nat, m: nat, run: seq<Step>, ticks: seq<Step>, c: nat)
    requires ValidRun(Start(rate, m), run) && BlocksAtMost(run, c)
    requires ValidRun(Exec(Start(rate, m), run), ticks) && forall i :: 0 <= i < |ticks| ==> ticks[i].Tick?
    requires var s := Exec(Start(rate, m), run); var t := Exec(s, ticks);
      rate * (t.time - s.time) >= (Blocks(m + s.aborts, c) + Ticks(ticks)) * TICKS_PER_SECOND
    ensures EverybodyPasses(Exec(Exec(Start(rate, m), run), ticks))
  {
    hide Blocks, Granted, EverybodyPasses;
    Reached(rate, m, run, c);
    GrantedIsTheRate(Exec(Start(rate, m), run), ticks);
    WaitingEnds(rate, m, run, ticks, c);
  }

  /** The host uses its budget up: no tick finds anything left over. */
  ghost predicate NothingLeftOver(s: State, run: seq<Step>)
    requires ValidRun(s, run)
    decreases |run|
  {
    run == [] || ((run[0].Tick? ==> s.current <= 0) && NothingLeftOver(Apply(s, run[0]), run[1..]))
  }

  /**
   A host that always has something to receive gets exactly its rate: what it has received and its
   budget are what it had, and the allowances of all ticks.
   */
  lemma {:induction false} BusyHostGetsItsRate(s: State, run: seq<Step>)
    requires ValidRun(s, run) && NothingLeftOver(s, run)
    ensures Exec(s, run).charged - s.charged == s.current - Exec(s, run).current + Granted(s.rate, run)
    decreases |run|
  {
    if run != [] {
      BusyHostGetsItsRate(Apply(s, run[0]), run[1..]);
    }
  }
}
