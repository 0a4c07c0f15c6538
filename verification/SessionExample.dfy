/**
 Where the 32-bit key counter of the session cache ends its guarantees, by runs from an empty cache:
 after half of the range an idle session is lost, after the whole range two requests share one.
 */
module SessionExample {
  import opened SessionState
  import opened SessionTheorems

  const Fresh := Cache(map[], [Free, Free], 0, 0)

  const FirstKey := Key(0, 0, 1)

  const FirstSession := Value(true, false, 0, 0)

  /** The first request has kept its session while n keys were issued. */
  function Busy(n: nat): Cache {
    Cache(map[FirstKey := FirstSession], [Holds(FirstKey, 0), Free], n, n)
  }

  function NthKey(n: nat): Key { Key(0, 0, Signed32(n)) }

  /** The second request has a session of its own, its entry as given. */
  function BothBusy(n: nat, v: Value): Cache
    requires n > 0
  {
    Cache(map[FirstKey := FirstSession, NthKey(n) := v], [Holds(FirstKey, 0), Holds(NthKey(n), n - 1)], n, n)
  }

  lemma Numbers(n: nat)
    requires n < WRAP
    ensures Signed32(n) == if n < WRAP / 2 then n else n - WRAP
    ensures n > 1 ==> NthKey(n) != FirstKey
    ensures n > 0 ==> Draw(n - 1) == n
  {
    assert n % WRAP == n;
  }

  lemma TheFirst()
    ensures Allocates(Fresh, 0, 0, 0, 0, Busy(1))
  {
    Numbers(1);
    var c' := Create(Fresh, 0, 0, 0, 0);
    assert c'.sessions == map[FirstKey := FirstSession];
    assert c'.holders == Busy(1).holders;
  }

  lemma NothingToReuse(n: nat)
    ensures Release(Busy(n), 1, 0) == Busy(n) && forall k :: !Reusable(Busy(n).sessions, 0, 0, k)
  {
  }

  lemma TheNext(n: nat)
    requires 1 < n < WRAP
    ensures Allocates(Busy(n - 1), 1, 0, 0, 0, BothBusy(n, Value(true, false, 0, n - 1)))
  {
    Numbers(n);
    NothingToReuse(n - 1);
    var c' := Create(Busy(n - 1), 1, 0, 0, 0);
    assert NthKey(n) !in Busy(n - 1).sessions;
    assert c'.sessions == BothBusy(n, Value(true, false, 0, n - 1)).sessions;
    assert c'.holders == BothBusy(n, Value(true, false, 0, n - 1)).holders;
  }

  /** A session that failed is removed when it is given back. */
  lemma MarkedAndReleased(n: nat)
    requires 1 < n < WRAP
    ensures Mark(BothBusy(n, Value(true, false, 0, n - 1)), 1) == BothBusy(n, Value(true, true, 0, n - 1))
    ensures Release(BothBusy(n, Value(true, true, 0, n - 1)), 1, 0) == Busy(n)
  {
    Numbers(n);
    var c := Release(BothBusy(n, Value(true, true, 0, n - 1)), 1, 0);
    assert c.sessions == Busy(n).sessions && c.holders == Busy(n).holders;
  }

  lemma OneMore(run: seq<Step>, states: seq<Cache>, s: Step, c: Cache)
    requires ValidRun(run, states) && Next(states[|run|], s, c)
    ensures ValidRun(run + [s], states + [c])
  {
    hide Next;
    var r, t := run + [s], states + [c];
    forall i | 0 <= i < |r| ensures Next(t[i], r[i], t[i + 1]) {
      if i < |run| {
        assert t[i] == states[i] && t[i + 1] == states[i + 1] && r[i] == run[i];
      }
    }
  }

  lemma {:induction false} Advance(n: nat) returns (run: seq<Step>, states: seq<Cache>)
    requires 0 < n < WRAP
    ensures ValidRun(run, states) && states[0] == Fresh && states[|run|] == Busy(n)
  {
    if n == 1 {
      TheFirst();
      run, states := [DoAlloc(0, 0, 0, 0)], [Fresh, Busy(1)];
    } else {
      hide Allocates, Mark, Release, Busy, BothBusy, ValidRun;
      run, states := Advance(n - 1);
      Length(run, states);
      var fine, spoilt := BothBusy(n, Value(true, false, 0, n - 1)), BothBusy(n, Value(true, true, 0, n - 1));
      Slots(n);
      TheNext(n);
      MarkedAndReleased(n);
      OneMore(run, states, DoAlloc(1, 0, 0, 0), fine);
      run, states := run + [DoAlloc(1, 0, 0, 0)], states + [fine];
      OneMore(run, states, DoMark(1), spoilt);
      run, states := run + [DoMark(1)], states + [spoilt];
      OneMore(run, states, DoRelease(1, 0), Busy(n));
      run, states := run + [DoRelease(1, 0)], states + [Busy(n)];
    }
  }

  lemma Slots(n: nat)
    requires n > 0
    ensures |Busy(n).holders| == 2 && forall v :: |BothBusy(n, v).holders| == 2
  {
  }

  lemma Length(run: seq<Step>, states: seq<Cache>)
    requires ValidRun(run, states)
    ensures |states| == |run| + 1
  {
  }

  ghost predicate Reaches(run: seq<Step>, states: seq<Cache>, last: Cache) {
    ValidRun(run, states) && Empty(states[0]) && states[|run|] == last
  }

  /** Both requests hold the session with the first key. */
  ghost predicate Shared(c: Cache) {
    c.issued == WRAP + 1 && |c.holders| == 2 && c.holders[0] == c.holders[1] == Holds(FirstKey, 0)
  }

  /** When 2^32 - 1 keys have been issued, the next request gets the session that the first one uses. */
  lemma TwoHoldersAfterTheWrap() returns (run: seq<Step>, states: seq<Cache>, last: Cache)
    ensures Reaches(run, states, last) && Shared(last)
  {
    run, states := Advance(WRAP - 1);
    var c := Busy(WRAP - 1);
    NothingToReuse(WRAP - 1);
    assert Signed32(WRAP) == 0 && Signed32(WRAP + 1) == 1;
    var c' := Create(c, 1, 0, 0, 0);
    assert c'.holders == [Holds(FirstKey, 0), Holds(FirstKey, 0)];
    OneMore(run, states, DoAlloc(1, 0, 0, 0), c');
    run, states, last := run + [DoAlloc(1, 0, 0, 0)], states + [c'], c';
  }

  /** A session with a negative key is idle before and after the last request, which got another one. */
  ghost predicate Overlooked(c: Cache, c': Cache) {
    var key := NthKey(WRAP / 2);
    && key.k < 0 && key in c.sessions && !c.sessions[key].inUse && Next(c, DoAlloc(1, key.host, key.ip, 0), c')
    && key in c'.sessions && !c'.sessions[key].inUse && |c'.holders| == 2 && c'.holders[1].Holds?
    && c'.holders[1].key == NthKey(WRAP / 2 + 1)
  }

  /**
   The session with number 2^31 - 1 plus one gets a negative key; given back it stays in the map, but
   the next request for the same host and address does not find it and creates another one.
   */
  lemma LostAfterHalfTheRange() returns (run: seq<Step>, states: seq<Cache>, idle: Cache, last: Cache)
    ensures Reaches(run, states, idle) && Overlooked(idle, last)
  {
    var n := WRAP / 2;
    run, states := Advance(n - 1);
    var busy := BothBusy(n, Value(true, false, 0, n - 1));
    idle := GivenBack(n);
    TheNext(n);
    OneMore(run, states, DoAlloc(1, 0, 0, 0), busy);
    run, states := run + [DoAlloc(1, 0, 0, 0)], states + [busy];
    GiveBack(n);
    OneMore(run, states, DoRelease(1, 0), idle);
    run, states := run + [DoRelease(1, 0)], states + [idle];
    Numbers(n);
    Numbers(n + 1);
    last := Create(idle, 1, 0, 0, 0);
    assert forall k :: !Reusable(idle.sessions, 0, 0, k);
  }

  function GivenBack(n: nat): Cache
    requires n > 0
  {
    Cache(map[FirstKey := FirstSession, NthKey(n) := Value(false, false, 0, n - 1)], [Holds(FirstKey, 0), Free], n, n)
  }

  lemma GiveBack(n: nat)
    requires 1 < n < WRAP
    ensures Release(BothBusy(n, Value(true, false, 0, n - 1)), 1, 0) == GivenBack(n)
  {
    Numbers(n);
    var c := Release(BothBusy(n, Value(true, false, 0, n - 1)), 1, 0);
    assert c.sessions == GivenBack(n).sessions && c.holders == GivenBack(n).holders;
  }
}
