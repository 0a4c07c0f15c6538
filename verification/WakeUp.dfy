/**
 The bounded queue of ECSUtil/CSharedQueue.h between its producers and the stream sender that waits
 in WaitStreamSend (ECSUtil/ECSConnection.cpp). The auto-reset event fires before the element is
 inserted, both under the write lock of the queue; every test of the queue takes the read lock.
 Producers that find the queue too long poll it.
 */
module WakeUp {

  /** A push in progress, with the element to insert. */
  datatype Producer =
    | Resting
    | Asking(x: nat)
    | Polling(x: nat)
    | Cleared(x: nat)
    | Locked(x: nat)
    | Fired(x: nat)

  /**
   The sender: it links its event, tests the queue, parks, wakes and tests again, and finally
   removes the front element.
   */
  datatype Consumer = Unlinked | Testing | Parked | Woken | Having | Popping | Stopped

  datatype Holder = Nobody | HeldBy(producer: nat) | HeldByConsumer

  /** `inserted`, `taken` and `aborts` record the history; a bound of 0 means no bound. */
  datatype State = State(items: seq<nat>, signaled: bool, holder: Holder, producers: seq<Producer>,
                         consumer: Consumer, bound: nat,
                         inserted: seq<nat>, taken: seq<nat>, aborts: nat)

  datatype Step =
    | Push(i: nat, x: nat)   // push_back is called
    | Count(i: nat)          // GetCount or size under the read lock
    | Abort(i: nat)          // the abort callback ends the polling
    | Acquire(i: nat)        // the write lock
    | Fire(i: nat)           // TriggerEvent
    | Insert(i: nat)         // the element goes in, the lock is given up
    | Link                   // the event enters the queue's list
    | Test                   // empty() under the read lock
    | Signal                 // the wait ends because of the event, which resets it
    | Timeout                // the wait ends by itself
    | GiveUp                 // abort or too many timeouts
    | Begin                  // the write lock for pop_front
    | Pop(last: bool)        // the front element goes out, the lock is given up

  predicate TooLong(s: State) { s.bound != 0 && |s.items| > s.bound }

  predicate Enabled(s: State, step: Step) {
    match step
    case Push(i, _) => i < |s.producers| && s.producers[i].Resting?
    case Count(i) => i < |s.producers| && (s.producers[i].Asking? || s.producers[i].Polling?) && s.holder.Nobody?
    case Abort(i) => i < |s.producers| && s.producers[i].Polling?
    case Acquire(i) => i < |s.producers| && s.producers[i].Cleared? && s.holder.Nobody?
    case Fire(i) => i < |s.producers| && s.producers[i].Locked?
    case Insert(i) => i < |s.producers| && s.producers[i].Fired?
    case Link => s.consumer.Unlinked? && s.holder.Nobody?
    case Test => (s.consumer.Testing? || s.consumer.Woken?) && s.holder.Nobody?
    case Signal => s.consumer.Parked? && s.signaled
    case Timeout => s.consumer.Parked?
    case GiveUp => s.consumer.Woken?
    case Begin => s.consumer.Having? && s.holder.Nobody?
    case Pop(_) => s.consumer.Popping? && s.items != []
  }

  function SetProducer(s: State, i: nat, p: Producer): State
    requires i < |s.producers|
  {
    s.(producers := s.producers[i := p])
  }

  function Apply(s: State, step: Step): State
    requires Enabled(s, step)
  {
    match step
    case Push(i, x) => SetProducer(s, i, Asking(x))
    case Count(i) => SetProducer(s, i, if TooLong(s) then Polling(s.producers[i].x) else Cleared(s.producers[i].x))
    case Abort(i) => SetProducer(s, i, Cleared(s.producers[i].x)).(aborts := s.aborts + 1)
    case Acquire(i) => SetProducer(s, i, Locked(s.producers[i].x)).(holder := HeldBy(i))
    case Fire(i) => SetProducer(s, i, Fired(s.producers[i].x)).(signaled := s.signaled || !s.consumer.Unlinked?)
    case Insert(i) =>
      var x := s.producers[i].x;
      SetProducer(s, i, Resting).(items := s.items + [x], inserted := s.inserted + [x], holder := Nobody)
    case Link => s.(consumer := Testing)
    case Test => s.(consumer := if s.items == [] then Parked else Having)
    case Signal => s.(consumer := Woken, signaled := false)
    case Timeout => s.(consumer := Woken)
    case GiveUp => s.(consumer := Stopped)
    case Begin => s.(consumer := Popping, holder := HeldByConsumer)
    case Pop(last) =>
      s.(items := s.items[1..], taken := s.taken + [s.items[0]], holder := Nobody,
         consumer := if last then Stopped else Testing)
  }

  ghost predicate ValidRun(s: State, run: seq<Step>)
    decreases |run|
  {
    run == [] || (Enabled(s, run[0]) && ValidRun(Apply(s, run[0]), run[1..]))
  }

  ghost function Exec(s: State, run: seq<Step>): State
    requires ValidRun(s, run)
    decreases |run|
  {
    if run == [] then s else Exec(Apply(s, run[0]), run[1..])
  }

  function Start(m: nat, bound: nat): State {
    State([], false, Nobody, seq(m, i => Resting), Unlinked, bound, [], [], 0)
  }

  // ---------------------------------------------------------------- invariant

  ghost predicate LockOk(s: State) {
    && (forall i :: 0 <= i < |s.producers| ==>
          (s.producers[i].Locked? || s.producers[i].Fired? <==> s.holder == HeldBy(i)))
    && (s.consumer.Popping? <==> s.holder.HeldByConsumer?)
  }

  /** A parked sender has its event set as soon as a push has fired it, and until it wakes. */
  ghost predicate WakeOk(s: State) {
    && (s.consumer.Parked? && s.items != [] ==> s.signaled)
    && (s.consumer.Parked? ==> forall i :: 0 <= i < |s.producers| && s.producers[i].Fired? ==> s.signaled)
    && (s.consumer.Having? || s.consumer.Popping? ==> s.items != [])
  }

  /** Producers that have passed the test of the length and not yet inserted. */
  function Passing(ps: seq<Producer>): (n: nat)
    ensures n <= |ps|
  {
    if ps == [] then 0
    else Passing(ps[..|ps| - 1]) + (if Passed(ps[|ps| - 1]) then 1 else 0)
  }

  predicate Passed(p: Producer) { p.Cleared? || p.Locked? || p.Fired? }

  lemma {:induction false} PassingUpdate(ps: seq<Producer>, i: nat, p: Producer)
    requires i < |ps|
    ensures Passing(ps[i := p]) == Passing(ps) - (if Passed(ps[i]) then 1 else 0) + (if Passed(p) then 1 else 0)
  {
    var n := |ps| - 1;
    if i == n {
      assert ps[i := p][..n] == ps[..n];
    } else {
      assert ps[i := p][..n] == ps[..n][i := p];
      PassingUpdate(ps[..n], i, p);
    }
  }

  ghost predicate BoundOk(s: State) {
    s.bound != 0 ==> |s.items| + Passing(s.producers) <= s.bound + |s.producers| + s.aborts
  }

  ghost predicate Inv(s: State) {
    && LockOk(s) && WakeOk(s) && BoundOk(s)
    && s.inserted == s.taken + s.items
  }

  lemma StepBound(s: State, step: Step)
    requires BoundOk(s) && Enabled(s, step)
    ensures BoundOk(Apply(s, step))
  {
    match step
    case Push(i, x) => PassingUpdate(s.producers, i, Asking(x));
    case Count(i) => PassingUpdate(s.producers, i, Apply(s, step).producers[i]);
    case Abort(i) => PassingUpdate(s.producers, i, Cleared(s.producers[i].x));
    case Acquire(i) => PassingUpdate(s.producers, i, Locked(s.producers[i].x));
    case Fire(i) => PassingUpdate(s.producers, i, Fired(s.producers[i].x));
    case Insert(i) => PassingUpdate(s.producers, i, Resting);
    case _ =>
  }

  lemma StepKeeps(s: State, step: Step)
    requires Inv(s) && Enabled(s, step)
    ensures Inv(Apply(s, step))
  {
    StepBound(s, step);
    hide BoundOk;
  }

  lemma {:induction false} RunKeeps(s: State, run: seq<Step>)
    requires Inv(s) && ValidRun(s, run)
    ensures Inv(Exec(s, run))
    ensures Exec(s, run).bound == s.bound && |Exec(s, run).producers| == |s.producers|
    decreases |run|
  {
    if run != [] {
      StepKeeps(s, run[0]);
      RunKeeps(Apply(s, run[0]), run[1..]);
    }
  }

  lemma {:induction false} NonePassing(ps: seq<Producer>)
    requires forall i :: 0 <= i < |ps| ==> ps[i].Resting?
    ensures Passing(ps) == 0
  {
    if ps != [] {
      NonePassing(ps[..|ps| - 1]);
    }
  }

  lemma Reached(m: nat, bound: nat, run: seq<Step>)
    requires ValidRun(Start(m, bound), run)
    ensures Inv(Exec(Start(m, bound), run))
    ensures var s := Exec(Start(m, bound), run); s.bound == bound && |s.producers| == m
  {
    NonePassing(Start(m, bound).producers);
    RunKeeps(Start(m, bound), run);
  }

  // ---------------------------------------------------------------- results

  /** No lost wake-up: a sender parked on a queue that is not empty has its event set. */
  lemma NoLostWakeUp(m: nat, bound: nat, run: seq<Step>)
    requires ValidRun(Start(m, bound), run)
    ensures var s := Exec(Start(m, bound), run);
      s.consumer.Parked? && s.items != [] ==> s.signaled && Enabled(s, Signal)
  {
    Reached(m, bound, run);
  }

  /**
   Once the sender has seen an element it cannot disappear: the second test for an empty queue,
   which would fail the request for want of data, never finds one.
   */
  lemma SeenElementStays(m: nat, bound: nat, run: seq<Step>)
    requires ValidRun(Start(m, bound), run)
    ensures var s := Exec(Start(m, bound), run);
      s.consumer.Having? || s.consumer.Popping? ==> s.items != []
  {
    Reached(m, bound, run);
  }

  /** Elements leave in the order in which they were inserted, none lost and none twice. */
  lemma FirstInFirstOut(m: nat, bound: nat, run: seq<Step>)
    requires ValidRun(Start(m, bound), run)
    ensures var s := Exec(Start(m, bound), run); s.inserted == s.taken + s.items
  {
    Reached(m, bound, run);
  }

  /**
   With m producers a queue with a bound exceeds it by at most m, and by one more for every push
   that was let through by an abort; with one producer and no abort, by at most one.
   */
  lemma BoundedLength(m: nat, bound: nat, run: seq<Step>)
    requires ValidRun(Start(m, bound), run) && bound > 0
    ensures var s := Exec(Start(m, bound), run); |s.items| <= bound + m + s.aborts
  {
    Reached(m, bound, run);
  }

  // ---------------------------------------------------------------- the bound is reached

  lemma {:induction false} RunThenRun(s: State, first: seq<Step>, more: seq<Step>)
    requires ValidRun(s, first) && ValidRun(Exec(s, first), more)
    ensures ValidRun(s, first + more) && Exec(s, first + more) == Exec(Exec(s, first), more)
    decreases |first|
  {
    if first == [] {
      assert first + more == more;
    } else {
      RunThenRun(Apply(s, first[0]), first[1..], more);
      assert (first + more)[1..] == first[1..] + more;
    }
  }

  lemma OneMore(s: State, run: seq<Step>, step: Step)
    requires ValidRun(s, run) && Enabled(Exec(s, run), step)
    ensures ValidRun(s, run + [step]) && Exec(s, run + [step]) == Apply(Exec(s, run), step)
  {
    var t := Exec(s, run);
    assert [step][1..] == [] && ValidRun(Apply(t, step), []);
    assert ValidRun(t, [step]) && Exec(t, [step]) == Apply(t, step);
    RunThenRun(s, run, [step]);
  }

  /** One undisturbed push of the first producer. */
  lemma PushOnce(s: State, run: seq<Step>, x: nat) returns (more: seq<Step>)
    requires ValidRun(s, run)
    requires var t := Exec(s, run); |t.producers| > 0 && t.producers[0].Resting? && t.holder.Nobody? && !TooLong(t)
    ensures ValidRun(s, more)
    ensures var t, u := Exec(s, run), Exec(s, more);
      && u.items == t.items + [x] && |u.producers| > 0 && u.producers[0].Resting? && u.holder.Nobody?
      && u.bound == t.bound && u.aborts == t.aborts
  {
    hide ValidRun, Exec;
    more := run;
    OneMore(s, more, Push(0, x));
    more := more + [Push(0, x)];
    OneMore(s, more, Count(0));
    more := more + [Count(0)];
    OneMore(s, more, Acquire(0));
    more := more + [Acquire(0)];
    OneMore(s, more, Fire(0));
    more := more + [Fire(0)];
    OneMore(s, more, Insert(0));
    more := more + [Insert(0)];
  }

  /** The excess of one is real: a single producer can fill the queue to its bound plus one. */
  lemma BoundIsTight(bound: nat)
    requires bound > 0
    ensures exists run :: (ValidRun(Start(1, bound), run)
              && |Exec(Start(1, bound), run).items| == bound + 1 && Exec(Start(1, bound), run).aborts == 0)
  {
    var s := Start(1, bound);
    var run: seq<Step> := [];
    var n := 0;
    while n < bound + 1
      invariant n <= bound + 1 && ValidRun(s, run)
      invariant var t := Exec(s, run); |t.items| == n && |t.producers| > 0 && t.producers[0].Resting? && t.holder.Nobody?
      invariant Exec(s, run).bound == bound && Exec(s, run).aborts == 0
    {
      run := PushOnce(s, run, n);
      n := n + 1;
    }
  }
}
