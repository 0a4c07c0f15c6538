/** Readers share the lock: any number of threads can have it for reading at the same time. */
module LockExample {
  import opened LockState

  lemma {:induction false} RunThenRun(s: Lock, first: seq<Step>, more: seq<Step>)
    requires ValidRun(s, first) && ValidRun(Exec(s, first), more)
    ensures ValidRun(s, first + more) && Exec(s, first + more) == Exec(Exec(s, first), more)
    decreases |first|
  {
    hide Apply, Enabled;
    if first == [] {
      assert first + more == more;
    } else {
      RunThenRun(Apply(s, first[0]), first[1..], more);
      assert (first + more)[1..] == first[1..] + more;
    }
  }

  lemma OneMore(s: Lock, run: seq<Step>, step: Step, t: Lock)
    requires ValidRun(s, run) && Enabled(Exec(s, run), step) && Apply(Exec(s, run), step) == t
    ensures ValidRun(s, run + [step]) && Exec(s, run + [step]) == t
  {
    var u := Exec(s, run);
    hide Apply, Enabled;
    assert [step][1..] == [] && ValidRun(t, []);
    assert ValidRun(u, [step]) && Exec(u, [step]) == t;
    RunThenRun(s, run, [step]);
  }

  /** Acquires 0 to n - 1, each of its own thread and locked for reading. */
  function Readers(n: nat): (q: seq<Acquire>)
    ensures |q| == n && forall t :: 0 <= t < n ==> q[t] == Acquire(t, true, false, false, t)
  {
    seq(n, t requires 0 <= t < n => Acquire(t, true, false, false, t))
  }

  function Calls(n: nat): seq<(nat, OsCall)> {
    if n == 0 then [] else Calls(n - 1) + [(n - 1, TakeShared)]
  }

  function Reading(n: nat): Lock { Lock(Readers(n), Shared(n), n, Calls(n)) }

  /** One reader more, created, asking and let in. */
  lemma NextReader(n: nat, first: seq<Step>) returns (run: seq<Step>)
    requires ValidRun(Unused, first) && Exec(Unused, first) == Reading(n)
    ensures ValidRun(Unused, run) && Exec(Unused, run) == Reading(n + 1)
  {
    hide ValidRun, Exec;
    var created := Reading(n).(instances := Readers(n) + [Acquire(n, false, false, false, 0)]);
    OneMore(Unused, first, DoCreate(n, false), created);
    run := first + [DoCreate(n, false)];
    var waiting := Reading(n).(instances := Readers(n) + [Acquire(n, false, false, true, 0)]);
    assert created.instances[n := Acquire(n, false, false, true, 0)] == waiting.instances;
    assert !Nested(created, n) && Unlock(created, n) == created;
    OneMore(Unused, run, DoRequest(n, false), waiting);
    run := run + [DoRequest(n, false)];
    assert waiting.instances[n := Acquire(n, true, false, false, n)] == Readers(n + 1);
    OneMore(Unused, run, DoGrant(n), Reading(n + 1));
    run := run + [DoGrant(n)];
  }

  ghost predicate AllRead(s: Lock, n: nat) {
    && |s.instances| == n
    && (forall t :: 0 <= t < n ==> s.instances[t].thread == t && s.instances[t].locked && !s.instances[t].write)
  }

  /** For every n there is a run after which n threads have the lock for reading at the same time. */
  lemma ManyReaders(n: nat) returns (run: seq<Step>)
    ensures ValidRun(Unused, run) && AllRead(Exec(Unused, run), n)
  {
    run := [];
    assert Reading(0) == Unused && ValidRun(Unused, []) && Exec(Unused, []) == Unused;
    hide ValidRun, Exec;
    for k := 0 to n
      invariant ValidRun(Unused, run) && Exec(Unused, run) == Reading(k)
    {
      run := NextReader(k, run);
    }
  }
}
