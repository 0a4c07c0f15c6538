/**
 Address failover of a connection (ECSUtil/ECSConnection.cpp): the map of bad addresses, the choice
 of the next address, and the retry loop of SendRequest. What the attempts over the network bring and
 what the clock shows are inputs of a request; every attempt is recorded. Requests do not overlap.
 */
module Failover {

  const DEFAULT_AGE: nat := 2 * 60 * 60 * 1000
  const SECONDS: nat := 1000

  datatype Code = NoError | Timeout | SecureFailure | Aborted | NoAddresses | OtherCode(n: nat)

  /** S3_ERROR, and whether the server answered. */
  datatype Outcome = Outcome(code: Code, http: nat, s3Error: bool, answered: bool) {
    predicate IfError() { code != NoError || http >= 400 || s3Error }
  }

  /** How the attempts on one address end. */
  datatype Verdict = Success | Throw | Return | NextAddress

  datatype Attempt = Attempt(ip: nat, outcome: Outcome)

  /** Distinct elements of a list of addresses. */
  ghost function Addresses(ips: seq<nat>): set<nat> { set ip | ip in ips }

  ghost predicate AllBad(bad: BadMap, host: nat, ips: seq<nat>) {
    forall ip :: ip in ips ==> (host, ip) in bad
  }

  function Unusable(bad: BadMap, host: nat, used: set<nat>, ip: nat): bool {
    (host, ip) in bad || ip in used
  }

  /** The j-th position after `start` in a cycle of n. */
  function Slot(start: nat, j: nat, n: nat): nat
    requires start < n && j < n
  {
    if start + j < n then start + j else start + j - n
  }

  /** Where load balancing starts the next search. */
  function NextStart(loadBal: map<nat, nat>, host: nat, n: nat): (start: nat)
    ensures n > 0 ==> start < n
  {
    var last := if host in loadBal then loadBal[host] else 0;
    if last + 1 >= n then 0 else last + 1
  }

  /** Position `at` is the k-th after the start and everything passed on the way is unusable. */
  ghost predicate FoundAfter(bad: BadMap, host: nat, used: set<nat>, ips: seq<nat>, start: nat, k: nat, at: nat) {
    && start < |ips| && k < |ips| && at == Slot(start, k, |ips|)
    && !Unusable(bad, host, used, ips[at])
    && forall j: nat :: j < k ==> Unusable(bad, host, used, ips[Slot(start, j, |ips|)])
  }

  ghost predicate Unanswered(attempts: seq<Attempt>) {
    forall a :: a in attempts ==> !a.outcome.answered
  }

  ghost predicate OnlyLastAnswered(attempts: seq<Attempt>) {
    attempts != [] ==> Unanswered(attempts[..|attempts| - 1])
  }

  function Last(attempts: seq<Attempt>): Attempt
    requires attempts != []
  {
    attempts[|attempts| - 1]
  }

  ghost predicate Inside(attempts: seq<Attempt>, ips: seq<nat>) {
    forall a :: a in attempts ==> a.ip in ips
  }

  /** Addresses that were tried without an answer. */
  ghost function Silent(attempts: seq<Attempt>): set<nat> {
    set a | a in attempts && !a.outcome.answered :: a.ip
  }

  /** Reports of success although the server never answered. */
  predicate FalseSuccess(o: Outcome) { !o.IfError() && !o.answered }

  /** How many attempts some addresses allow. */
  ghost function Allowed(addresses: set<nat>, retries: nat): nat { |addresses| * retries }

  lemma RoomForOneMore(used: set<nat>, all: set<nat>, ip: nat, retries: nat)
    requires used <= all && ip in all && ip !in used
    ensures Allowed(used + {ip}, retries) == Allowed(used, retries) + retries <= Allowed(all, retries)
    ensures used + {ip} <= all && |all - (used + {ip})| < |all - used|
  {
    assert |all| == |used + {ip}| + |all - (used + {ip})|;
    assert |used + {ip}| == |used| + 1;
    assert |all| == |used| + |all - used|;
    assert (|all| - (|used| + 1)) * retries >= 0;
  }

  /** All addresses end up bad exactly when the list is exhausted and the outcome is no error. */
  lemma BlameDecides(before: BadMap, after: BadMap, host: nat, ips: seq<nat>,
                     used: set<nat>, error: Outcome, spared: nat, exhausted: bool)
    requires forall k :: k in after <==> k in before || (!error.IfError() && k.0 == host && k.1 in used)
    requires spared in ips && (host, spared) !in before
    requires if exhausted then forall ip :: ip in ips ==> Unusable(before, host, used, ip) else spared !in used
    ensures AllBad(after, host, ips) <==> exhausted && !error.IfError()
  {
    if !exhausted || error.IfError() {
      assert (host, spared) !in after;
    }
  }

  lemma NothingTried(w: World, ips: seq<nat>)
    ensures (forall k :: AsForeseen(w, k, [])) && Unanswered([]) && OnlyLastAnswered([]) && Recorded(w, ips, [])
  {
  }

  /** The record after another attempt. */
  lemma OneMoreTry(w: World, k: nat, tries: seq<Attempt>, ip: nat)
    requires Unanswered(tries) && AsForeseen(w, k, tries) && forall a :: a in tries ==> a.ip == ip
    ensures var o := w.outcomes(k + |tries|);
      var more := tries + [Attempt(ip, o)];
      && OnlyLastAnswered(more) && AsForeseen(w, k, more) && Last(more).outcome == o
      && (forall a :: a in more ==> a.ip == ip)
      && (!o.answered ==> Unanswered(more))
  {
    assert (tries + [Attempt(ip, w.outcomes(k + |tries|))])[..|tries|] == tries;
  }

  /** The attempts of a request: on its addresses, as the network has it, one after the other unanswered. */
  ghost predicate Recorded(w: World, ips: seq<nat>, attempts: seq<Attempt>) {
    Inside(attempts, ips) && OnlyLastAnswered(attempts) && AsForeseen(w, 0, attempts)
  }

  /** The record after another address has been tried. */
  lemma Extended(w: World, ips: seq<nat>, attempts: seq<Attempt>, tries: seq<Attempt>, ip: nat)
    requires Recorded(w, ips, attempts) && Unanswered(attempts)
    requires tries != [] && OnlyLastAnswered(tries) && AsForeseen(w, |attempts|, tries)
    requires ip in Addresses(ips) && forall a :: a in tries ==> a.ip == ip
    ensures var all := attempts + tries;
      && Recorded(w, ips, all) && Last(all) == Last(tries) && Last(all).ip == ip && ip in ips
      && Silent(attempts) <= Silent(all)
      && (!Last(tries).outcome.answered ==> Unanswered(all) && ip in Silent(all))
  {
    var all, last := attempts + tries, tries[|tries| - 1];
    assert all[..|all| - 1] == attempts + tries[..|tries| - 1];
    assert tries == tries[..|tries| - 1] + [last];
    assert last in all;
  }

  /** Some addresses have been tried in vain. */
  ghost predicate Fruitless(w: World, ips: seq<nat>, retries: nat, attempts: seq<Attempt>, used: set<nat>) {
    && Recorded(w, ips, attempts) && Unanswered(attempts)
    && used <= Silent(attempts) && used <= Addresses(ips) && |attempts| <= Allowed(used, retries)
  }

  lemma NothingFruitless(w: World, ips: seq<nat>, retries: nat)
    ensures Fruitless(w, ips, retries, [], {})
  {
  }

  lemma FruitlessMeans(w: World, ips: seq<nat>, retries: nat, attempts: seq<Attempt>, used: set<nat>)
    requires Fruitless(w, ips, retries, attempts, used)
    ensures Recorded(w, ips, attempts) && used <= Silent(attempts)
  {
  }

  lemma AddressTried(w: World, ips: seq<nat>, retries: nat, attempts: seq<Attempt>, used: set<nat>, tries: seq<Attempt>, ip: nat)
    requires Fruitless(w, ips, retries, attempts, used) && ip in Addresses(ips) && ip !in used
    requires 0 < |tries| <= retries && OnlyLastAnswered(tries) && AsForeseen(w, |attempts|, tries)
    requires forall a :: a in tries ==> a.ip == ip
    ensures var all := attempts + tries;
      && Recorded(w, ips, all) && Last(all) == Last(tries) && Last(all).ip == ip && ip in ips && used <= Silent(all)
      && |all| <= Allowed(Addresses(ips), retries) && Left(ips, used + {ip}) < Left(ips, used) && |used + {ip}| == |used| + 1
      && (!Last(tries).outcome.answered ==> Fruitless(w, ips, retries, all, used + {ip}))
  {
    hide Allowed, Recorded, Unanswered, OnlyLastAnswered, AsForeseen, Silent, Last;
    Extended(w, ips, attempts, tries, ip);
    RoomForOneMore(used, Addresses(ips), ip, retries);
  }

  // ---------------------------------------------------------------- what a request will do

  /** What the attempts of a request will bring, and what its readings of the clock will show. */
  datatype World = World(outcomes: nat -> Outcome, clock: nat -> int)

  datatype Mode = Mode(put: bool, stream: bool, testing: bool, retries: nat)

  /** The size of a write and the time to wait for an answer. */
  datatype Limits = Limits(write: nat, timeout: nat)

  /** After a timeout: write less at a time and wait longer. */
  function Relaxed(l: Limits, put: bool): Limits {
    var write := if !put then l.write else if l.write == 0 then 0x10000 else if l.write / 2 < 8192 then 8192 else l.write / 2;
    Limits(write, if l.timeout < 60 * SECONDS then l.timeout + 10 * SECONDS else l.timeout)
  }

  /** The server answered as expected. */
  predicate Fine(o: Outcome) { !o.IfError() && o.answered && o.http == 200 }

  /** No further attempt after this outcome. */
  predicate Final(o: Outcome, m: Mode) {
    m.stream || o.answered || o.code == SecureFailure || (m.testing && o.code == Timeout)
  }

  datatype Ended = Ended(next: nat, verdict: Verdict, limits: Limits)

  /** The attempts on one address from number `k` on, when `i` have been made there. */
  function Round(w: World, m: Mode, k: nat, i: nat, l: Limits): (r: Ended)
    ensures r.next <= k + (if i < m.retries then m.retries - i else 0)
    ensures i < m.retries ==> k < r.next
    decreases m.retries - i
  {
    if i >= m.retries then Ended(k, NextAddress, l)
    else
      var o := w.outcomes(k);
      if Fine(o) then Ended(k + 1, Success, l)
      else if Final(o, m) then Ended(k + 1, Throw, l)
      else if o.code == Timeout && Relaxed(l, m.put) == l then Ended(k + 1, NextAddress, l)
      else if o.code == Aborted then Ended(k + 1, Return, l)
      else Round(w, m, k + 1, i + 1, if o.code == Timeout then Relaxed(l, m.put) else l)
  }

  /** Four timeouts bring a write of the default size down to the least size, and the wait up to a minute. */
  lemma TimeoutsWearOff(l: Limits)
    requires l.write == 0 && l.timeout == 30_000
    ensures var l4 := Relaxed(Relaxed(Relaxed(Relaxed(l, true), true), true), true);
      l4 == Limits(8192, 60_000) && Relaxed(l4, true) == l4
    ensures Relaxed(l, true) == Limits(65_536, 40_000)
    ensures Relaxed(Relaxed(Relaxed(l, false), false), false) == Limits(0, 60_000) == Relaxed(Limits(0, 60_000), false)
  {
  }

  /** Successive searches begin at successive addresses. */
  lemma SearchesGoRound(loadBal: map<nat, nat>, host: nat, n: nat)
    requires n > 0 && host in loadBal && loadBal[host] < n
    ensures NextStart(loadBal, host, n) == (loadBal[host] + 1) % n
  {
    if loadBal[host] + 1 < n {
      assert (loadBal[host] + 1) % n == loadBal[host] + 1;
    }
  }

  lemma FirstOfRound(w: World, m: Mode, k: nat, i: nat, l: Limits)
    requires i < m.retries
    ensures var o, r := w.outcomes(k), Round(w, m, k, i, l);
      && (Fine(o) ==> r == Ended(k + 1, Success, l))
      && (!Fine(o) && Final(o, m) ==> r == Ended(k + 1, Throw, l))
      && (!Fine(o) && !Final(o, m) && o.code == Timeout ==>
          r == if Relaxed(l, m.put) == l then Ended(k + 1, NextAddress, l) else Round(w, m, k + 1, i + 1, Relaxed(l, m.put)))
      && (!Fine(o) && !Final(o, m) && o.code == Aborted ==> r == Ended(k + 1, Return, l))
      && (!Fine(o) && !Final(o, m) && o.code != Timeout && o.code != Aborted ==> r == Round(w, m, k + 1, i + 1, l))
  {
  }

  lemma NoTriesLeft(w: World, m: Mode, k: nat, i: nat, l: Limits)
    requires i >= m.retries
    ensures Round(w, m, k, i, l) == Ended(k, NextAddress, l)
  {
  }

  /** What the verdict on an address says about the last attempt there. */
  lemma {:induction false} VerdictMeans(w: World, m: Mode, k: nat, i: nat, l: Limits)
    requires i < m.retries
    ensures var r := Round(w, m, k, i, l);
      var last := w.outcomes(r.next - 1);
      && (r.verdict.NextAddress? ==> !last.answered && !m.stream && !(m.testing && last.code == Timeout))
      && (FalseSuccess(last) && !m.stream ==> r.verdict.NextAddress?)
      && (r.verdict.Success? ==> !last.IfError() && last.answered && last.http == 200)
      && (r.verdict.Return? ==> last.code == Aborted && !last.answered && last.IfError())
      && (!r.verdict.NextAddress? ==> last.answered || m.stream || last.IfError())
      && (m.stream ==> r.next == k + 1)
      && (r.verdict.NextAddress? && r.next - k < m.retries - i ==> last.code == Timeout && Relaxed(r.limits, m.put) == r.limits)
      && (last.code == SecureFailure && !Fine(last) ==> r.verdict.Throw?)
      && (last.code == Aborted && !last.answered && !m.stream ==> r.verdict.Return?)
    decreases m.retries - i
  {
    hide Relaxed;
    var o := w.outcomes(k);
    if i + 1 < m.retries {
      VerdictMeans(w, m, k + 1, i + 1, if o.code == Timeout then Relaxed(l, m.put) else l);
    }
  }

  datatype Walked = Walked(next: nat, exhausted: bool, limits: Limits)

  /** The attempts from number `k` on, over n addresses. */
  function Walk(w: World, m: Mode, k: nat, n: nat, l: Limits): (r: Walked)
    ensures k <= r.next && (n > 0 && m.retries > 0 ==> k < r.next)
    decreases n
  {
    if n == 0 then Walked(k, true, l)
    else
      var r := Round(w, m, k, 0, l);
      if r.verdict.NextAddress? then Walk(w, m, r.next, n - 1, r.limits) else Walked(r.next, false, r.limits)
  }

  lemma NextOfWalk(w: World, m: Mode, k: nat, n: nat, l: Limits, r: Ended)
    requires n > 0 && r == Round(w, m, k, 0, l)
    ensures r.verdict.NextAddress? ==> Walk(w, m, k, n, l) == Walk(w, m, r.next, n - 1, r.limits)
    ensures !r.verdict.NextAddress? ==> Walk(w, m, k, n, l) == Walked(r.next, false, r.limits)
  {
  }

  lemma EndOfWalk(w: World, m: Mode, k: nat, l: Limits)
    ensures Walk(w, m, k, 0, l) == Walked(k, true, l)
  {
  }

  type BadMap = map<(nat, nat), int>

  function Age(badAge: nat): nat { if badAge == 0 then DEFAULT_AGE else badAge }

  predicate Expired(since: int, now: int, age: nat) { now > since + age * 10000 }

  /** What is left after a reading of the clock. */
  function Refreshed(bad: BadMap, now: int, age: nat): BadMap {
    map k | k in bad && !Expired(bad[k], now, age) :: bad[k]
  }

  /** What is left after some readings of the clock. */
  ghost function StillBad(bad: BadMap, age: nat, w: World, from: nat, to: nat): BadMap {
    map k | k in bad && (forall r: nat :: from <= r < to ==> !Expired(bad[k], w.clock(r), age)) :: bad[k]
  }

  function WithoutHost(bad: BadMap, host: nat): BadMap {
    map k | k in bad && k.0 != host :: bad[k]
  }

  ghost function Unmarked(bad: BadMap, host: nat, ips: seq<nat>): set<nat> {
    set ip | ip in ips && (host, ip) !in bad
  }

  /** The marks with which the search for addresses begins, and the reading of the clock it uses first. */
  datatype Opening = Opening(bad: BadMap, from: nat)

  ghost function Open(bad: BadMap, age: nat, w: World, host: nat, ips: seq<nat>): Opening {
    var rest := StillBad(bad, age, w, 0, 1);
    if Unmarked(rest, host, ips) == {} then Opening(WithoutHost(rest, host), 1) else Opening(bad, 0)
  }

  /** The addresses without a mark when the j-th one is chosen. */
  ghost function Usable(o: Opening, age: nat, w: World, host: nat, ips: seq<nat>, j: nat): set<nat> {
    Unmarked(StillBad(o.bad, age, w, o.from, o.from + j + 1), host, ips)
  }

  lemma UsableAreAddresses(o: Opening, age: nat, w: World, host: nat, ips: seq<nat>, j: nat)
    ensures Usable(o, age, w, host, ips, j) <= Addresses(ips)
    ensures |Usable(o, age, w, host, ips, j)| <= |Addresses(ips)|
  {
    SubsetSize(Usable(o, age, w, host, ips, j), Addresses(ips));
  }

  lemma SubsetSize(a: set<nat>, b: set<nat>)
    requires a <= b
    ensures |a| <= |b| && (|a| == |b| ==> a == b)
  {
    assert |b| == |a| + |b - a|;
    assert b == a + (b - a);
  }

  /** How many addresses can be tried in all, j of them so far. */
  ghost function Rounds(o: Opening, age: nat, w: World, host: nat, ips: seq<nat>, j: nat): (n: nat)
    ensures n >= j
    decreases |Addresses(ips)| - j
  {
    UsableAreAddresses(o, age, w, host, ips, j);
    if |Usable(o, age, w, host, ips, j)| <= j then j else Rounds(o, age, w, host, ips, j + 1)
  }

  /** The whole request, from attempt number 0 and reading number 0 on. */
  ghost function Foreseen(w: World, m: Mode, l: Limits, bad: BadMap, badAge: nat, host: nat, ips: seq<nat>): Walked {
    var age := Age(badAge);
    Walk(w, m, 0, Rounds(Open(bad, age, w, host, ips), age, w, host, ips, 0), l)
  }

  lemma ForeseenIsWalk(w: World, m: Mode, l: Limits, bad: BadMap, badAge: nat, host: nat, ips: seq<nat>)
    ensures var age := Age(badAge);
      Foreseen(w, m, l, bad, badAge, host, ips) == Walk(w, m, 0, Rounds(Open(bad, age, w, host, ips), age, w, host, ips, 0), l)
  {
  }

  /** No address forbids another attempt, and the last attempt of all reports no error. */
  ghost predicate AllWillBeBlamed(w: World, m: Mode, l: Limits, bad: BadMap, badAge: nat, host: nat, ips: seq<nat>) {
    var all := Foreseen(w, m, l, bad, badAge, host, ips);
    all.exhausted && all.next > 0 && !w.outcomes(all.next - 1).IfError()
  }

  lemma {:induction false} NeverAnswered(w: World, m: Mode, k: nat, n: nat, l: Limits)
    requires !m.stream && m.retries > 0 && forall i: nat :: FalseSuccess(w.outcomes(i))
    ensures Walk(w, m, k, n, l).exhausted
    decreases n
  {
    if n > 0 {
      var r := Round(w, m, k, 0, l);
      VerdictMeans(w, m, k, 0, l);
      NeverAnswered(w, m, r.next, n - 1, r.limits);
    }
  }

  lemma OneRoundAtLeast(bad: BadMap, age: nat, w: World, host: nat, ips: seq<nat>)
    requires ips != []
    ensures Rounds(Open(bad, age, w, host, ips), age, w, host, ips, 0) > 0
  {
    var o := Open(bad, age, w, host, ips);
    var first := Usable(o, age, w, host, ips, 0);
    if o.from == 1 {
      assert ips[0] in first;
    } else {
      assert StillBad(o.bad, age, w, 0, 1) == StillBad(bad, age, w, 0, 1);
    }
    assert first != {};
  }

  /**
   Attempts that report success although the server never answers spoil a host from any state: all
   its addresses will be marked bad.
   */
  lemma FalseSuccessesBlameAll(w: World, m: Mode, l: Limits, bad: BadMap, badAge: nat, host: nat, ips: seq<nat>)
    requires !m.stream && m.retries > 0 && ips != [] && forall i: nat :: FalseSuccess(w.outcomes(i))
    ensures AllWillBeBlamed(w, m, l, bad, badAge, host, ips)
  {
    var age := Age(badAge);
    var n := Rounds(Open(bad, age, w, host, ips), age, w, host, ips, 0);
    OneRoundAtLeast(bad, age, w, host, ips);
    NeverAnswered(w, m, 0, n, l);
    var all := Walk(w, m, 0, n, l);
    assert FalseSuccess(w.outcomes(all.next - 1));
  }

  lemma {:induction false} ExhaustedUnanswered(w: World, m: Mode, k: nat, n: nat, l: Limits)
    requires m.retries > 0 && n > 0 && Walk(w, m, k, n, l).exhausted
    ensures !w.outcomes(Walk(w, m, k, n, l).next - 1).answered
    decreases n
  {
    var r := Round(w, m, k, 0, l);
    VerdictMeans(w, m, k, 0, l);
    if n > 1 {
      ExhaustedUnanswered(w, m, r.next, n - 1, r.limits);
    }
  }

  /** Without such an attempt they are not. */
  lemma OnlyFalseSuccessBlamesAll(w: World, m: Mode, l: Limits, bad: BadMap, badAge: nat, host: nat, ips: seq<nat>)
    requires m.retries > 0 && forall i: nat :: !FalseSuccess(w.outcomes(i))
    ensures !AllWillBeBlamed(w, m, l, bad, badAge, host, ips)
  {
    hide Rounds, Open, Walk, Round, Age, Outcome.IfError;
    var age := Age(badAge);
    var n := Rounds(Open(bad, age, w, host, ips), age, w, host, ips, 0);
    var all := Walk(w, m, 0, n, l);
    EndOfWalk(w, m, 0, l);
    if all.exhausted && all.next > 0 {
      ExhaustedUnanswered(w, m, 0, n, l);
      assert !FalseSuccess(w.outcomes(all.next - 1));
    }
  }

  ghost predicate AsForeseen(w: World, k: nat, attempts: seq<Attempt>) {
    forall i: nat :: i < |attempts| ==> attempts[i].outcome == w.outcomes(k + i)
  }

  lemma OneMoreReading(o: Opening, age: nat, w: World, j: nat)
    ensures var before := StillBad(o.bad, age, w, o.from, o.from + j);
      StillBad(o.bad, age, w, o.from, o.from + j + 1) == Refreshed(before, w.clock(o.from + j), age)
  {
  }

  /** With j usable addresses tried another one is usable exactly when more than j are unmarked. */
  lemma AnotherIsUsable(bad: BadMap, host: nat, ips: seq<nat>, used: set<nat>)
    requires used <= Unmarked(bad, host, ips)
    ensures (exists ip :: ip in ips && !Unusable(bad, host, used, ip)) <==> |Unmarked(bad, host, ips)| > |used|
  {
    var unmarked := Unmarked(bad, host, ips);
    SubsetSize(used, unmarked);
    assert forall ip :: ip in unmarked - used <==> ip in ips && !Unusable(bad, host, used, ip);
    assert unmarked == used + (unmarked - used);
    if |unmarked| > |used| {
      var ip :| ip in unmarked - used;
      assert !Unusable(bad, host, used, ip);
    }
  }

  lemma FewerMarks(before: BadMap, after: BadMap, host: nat, ips: seq<nat>)
    requires after.Keys <= before.Keys
    ensures Unmarked(before, host, ips) <= Unmarked(after, host, ips)
  {
  }

  lemma NothingMarked(bad: BadMap, host: nat, ips: seq<nat>)
    ensures {} <= Unmarked(bad, host, ips)
  {
  }

  lemma RefreshedIsLess(bad: BadMap, now: int, age: nat)
    ensures Refreshed(bad, now, age).Keys <= bad.Keys
  {
  }

  /** Where the search stands when j addresses have been chosen. */
  ghost predicate Searched(bad: BadMap, host: nat, ips: seq<nat>, o: Opening, w: World, age: nat, j: nat, used: set<nat>) {
    bad == StillBad(o.bad, age, w, o.from, o.from + j) && used <= Unmarked(bad, host, ips)
  }

  /** How many addresses have not been tried. */
  ghost function Left(ips: seq<nat>, used: set<nat>): nat { |Addresses(ips) - used| }

  lemma UsedStays(bad: BadMap, host: nat, ips: seq<nat>, o: Opening, w: World, age: nat, j: nat, used: set<nat>, ip: nat)
    requires Searched(bad, host, ips, o, w, age, j, used) && ip in Addresses(ips) && (host, ip) !in bad
    ensures Searched(bad, host, ips, o, w, age, j, used + {ip})
  {
  }

  lemma NextRound(o: Opening, age: nat, w: World, host: nat, ips: seq<nat>, j: nat, bad: BadMap, used: set<nat>)
    requires bad == StillBad(o.bad, age, w, o.from, o.from + j + 1) && used <= Unmarked(bad, host, ips) && |used| == j
    ensures var more := exists ip :: ip in ips && !Unusable(bad, host, used, ip);
      Rounds(o, age, w, host, ips, j) == if more then Rounds(o, age, w, host, ips, j + 1) else j
  {
    AnotherIsUsable(bad, host, ips, used);
  }

  class Connection {
    const host: nat
    var ipListHost: seq<nat>
    var ipList: seq<nat>
    var current: nat
    var bad: BadMap
    var loadBal: map<nat, nat>
    var badAge: nat
    var maxRetryCount: nat
    var maxWriteRequest: nat
    var receiveTimeout: nat
    var testing: bool

    constructor (host: nat, ips: seq<nat>)
      ensures this.host == host && ipListHost == ips && bad == map[] && maxRetryCount > 0
    {
      this.host, ipListHost, ipList, current := host, ips, [], 0;
      bad, loadBal, badAge, maxRetryCount := map[], map[], 0, 5;
      maxWriteRequest, receiveTimeout, testing := 0, 30 * SECONDS, false;
    }

    function TheLimits(): Limits
      reads `maxWriteRequest, `receiveTimeout
    {
      Limits(maxWriteRequest, receiveTimeout)
    }

    function TheMode(put: bool, stream: bool): Mode
      reads `testing, `maxRetryCount
    {
      Mode(put, stream, testing, maxRetryCount)
    }

    /** Forget the addresses that have been bad for too long. */
    method Expire(now: int)
      modifies `bad
      ensures bad == Refreshed(old(bad), now, badAge)
      ensures forall k :: k in bad <==> k in old(bad) && now <= old(bad)[k] + badAge * 10_000
    {
      var todo := bad.Keys;
      ghost var before := bad;
      while todo != {}
        invariant todo <= bad.Keys
        invariant bad == map k | k in before && (k in todo || !Expired(before[k], now, badAge)) :: before[k]
        decreases |todo|
      {
        var k :| k in todo;
        if now > bad[k] + badAge * 10000 {
          bad := bad - {k};
        }
        todo := todo - {k};
      }
    }

    /**
     GetNextECSIP: the first usable address at or after the load-balancing start, in cyclic order;
     none exactly when every address is bad or used.
     */
    method GetNext(used: set<nat>, now: int) returns (ok: bool)
      modifies `bad, `loadBal, `current, `badAge
      ensures ipList == [] ==> bad == old(bad)
      ensures ipList != [] ==> bad == Refreshed(old(bad), now, badAge)
      ensures badAge == Age(old(badAge)) && badAge == if old(badAge) == 0 then 7_200_000 else old(badAge)
      ensures ok <==> exists ip :: ip in ipList && !Unusable(bad, host, used, ip)
      ensures ok ==> current < |ipList| && !Unusable(bad, host, used, ipList[current])
      ensures ipList != [] ==> loadBal == old(loadBal)[host := NextStart(old(loadBal), host, |ipList|)]
      ensures ok ==> exists k :: FoundAfter(bad, host, used, ipList, NextStart(old(loadBal), host, |ipList|), k, current)
    {
      if badAge == 0 {
        badAge := DEFAULT_AGE;
      }
      if ipList == [] {
        return false;
      }
      Expire(now);
      var start := NextStart(loadBal, host, |ipList|);
      loadBal := loadBal[host := start];
      current := start;
      var n, i := |ipList|, 0;
      while i < n
        modifies `current
        invariant i <= n
        invariant current == start + i || current == start + i - n
        invariant i < n ==> current == Slot(start, i, n) || (current == n && Slot(start, i, n) == 0)
        invariant forall j: nat :: j < i ==> Unusable(bad, host, used, ipList[Slot(start, j, n)])
      {
        if current >= n {
          current := 0;
        }
        if !Unusable(bad, host, used, ipList[current]) {
          break;
        }
        current := current + 1;
        i := i + 1;
      }
      ok := i < n;
      if ok {
        assert FoundAfter(bad, host, used, ipList, start, i, current);
      } else {
        forall p | 0 <= p < n ensures Unusable(bad, host, used, ipList[p]) {
          var j := if p >= start then p - start else p + n - start;
          assert Slot(start, j, n) == p;
        }
        assert forall ip :: ip in ipList ==> Unusable(bad, host, used, ip);
      }
    }

    /** TestAllIPBad: when every address is bad, give them all another chance. */
    method TestAllBad()
      modifies `bad
      ensures bad == if AllBad(old(bad), host, ipList) then WithoutHost(old(bad), host) else old(bad)
    {
      var left := set ip | ip in ipList;
      var todo := bad.Keys;
      while todo != {}
        invariant todo <= bad.Keys
        invariant forall ip :: ip in left <==> ip in ipList && ((host, ip) in bad ==> (host, ip) in todo)
        decreases |todo|
      {
        var k :| k in todo;
        if host == k.0 {
          left := left - {k.1};
        }
        todo := todo - {k};
      }
      if left == {} {
        assert AllBad(bad, host, ipList) by {
          forall ip | ip in ipList ensures (host, ip) in bad {
            assert ip !in left;
          }
        }
        bad := map k | k in bad && k.0 != host :: bad[k];
      }
    }

    /** LogBadIPAddr: the addresses that failed before another one worked. */
    method LogBad(used: set<nat>, now: int)
      modifies `bad
      ensures bad == old(bad) + map ip | ip in used :: (host, ip) := now
    {
      var todo := used;
      while todo != {}
        invariant todo <= used
        invariant bad == old(bad) + map ip | ip in used - todo :: (host, ip) := now
        decreases |todo|
      {
        var ip :| ip in todo;
        bad := bad[(host, ip) := now];
        todo := todo - {ip};
      }
    }

    /** After a timeout: write less at a time and wait longer; false when nothing is left to change. */
    method Relax(put: bool) returns (changed: bool)
      modifies `maxWriteRequest, `receiveTimeout
      ensures changed <==> maxWriteRequest != old(maxWriteRequest) || receiveTimeout != old(receiveTimeout)
      ensures changed <==> (put && old(maxWriteRequest) != 8192) || old(receiveTimeout) < 60 * SECONDS
      ensures put ==> maxWriteRequest >= 8192
      ensures TheLimits() == Relaxed(old(TheLimits()), put)
    {
      var write, timeout := maxWriteRequest, receiveTimeout;
      if put {
        if maxWriteRequest == 0 {
          maxWriteRequest := 0x10000;
        } else {
          maxWriteRequest := maxWriteRequest / 2;
        }
        if maxWriteRequest < 8192 {
          maxWriteRequest := 8192;
        }
      }
      if receiveTimeout < 60 * SECONDS {
        receiveTimeout := receiveTimeout + 10 * SECONDS;
      }
      return write != maxWriteRequest || timeout != receiveTimeout;
    }

    /** The retries on the current address. */
    method TryAddress(w: World, k: nat, put: bool, stream: bool) returns (error: Outcome, tries: seq<Attempt>, verdict: Verdict)
      requires maxRetryCount > 0 && current < |ipList|
      modifies `maxWriteRequest, `receiveTimeout
      ensures 1 <= |tries| <= maxRetryCount && error == Last(tries).outcome
      ensures forall a :: a in tries ==> a.ip == ipList[current]
      ensures OnlyLastAnswered(tries) && AsForeseen(w, k, tries)
      ensures Ended(k + |tries|, verdict, TheLimits()) == Round(w, TheMode(put, stream), k, 0, old(TheLimits()))
      ensures verdict.NextAddress? ==> !error.answered && !stream && !(testing && error.code == Timeout)
      ensures FalseSuccess(error) && !stream ==> verdict.NextAddress?
      ensures verdict.Success? ==> !error.IfError() && error.answered && error.http == 200
      ensures verdict.Return? ==> error.code == Aborted && !error.answered && error.IfError()
      ensures !verdict.NextAddress? ==> error.answered || stream || error.IfError()
      ensures stream ==> |tries| == 1
    {
      hide Relaxed, Round, Outcome.IfError, FalseSuccess, Unanswered, OnlyLastAnswered, AsForeseen, Last;
      NothingTried(w, ipList);
      ghost var m := TheMode(put, stream);
      VerdictMeans(w, m, k, 0, TheLimits());
      tries := [];
      error := Outcome(NoError, 0, false, false);
      ghost var whole := Round(w, m, k, 0, TheLimits());
      var i := 0;
      while i < maxRetryCount
        invariant i <= maxRetryCount && |tries| == i && AsForeseen(w, k, tries)
        invariant whole == Round(w, m, k + i, i, TheLimits())
        invariant i > 0 ==> error == Last(tries).outcome == w.outcomes(k + i - 1)
        invariant Unanswered(tries) && OnlyLastAnswered(tries) && forall a :: a in tries ==> a.ip == ipList[current]
      {
        ghost var l := TheLimits();
        FirstOfRound(w, m, k + i, i, l);
        error := w.outcomes(k + i);
        OneMoreTry(w, k, tries, ipList[current]);
        tries := tries + [Attempt(ipList[current], error)];
        if !error.IfError() {
          if error.answered && error.http == 200 {
            return error, tries, Success;
          }
        }
        if stream {
          return error, tries, Throw;
        }
        if error.answered || error.code == SecureFailure {
          return error, tries, Throw;
        }
        if testing && error.code == Timeout {
          return error, tries, Throw;
        }
        if error.code == Timeout {
          var changed := Relax(put);
          if !changed {
            assert TheLimits() == l == Relaxed(l, put);
            break;
          }
        }
        if error.code == Aborted {
          return error, tries, Return;
        }
        i := i + 1;
      }
      if i == maxRetryCount {
        NoTriesLeft(w, m, k + i, i, TheLimits());
      }
      verdict := NextAddress;
    }

    /** The state after the first search. */
    ghost predicate Opened(o: Opening, w: World, next: nat)
      reads `bad, `badAge
    {
      next == o.from + 1 && bad == StillBad(o.bad, badAge, w, o.from, o.from + 1)
    }

    /** The next address; the first time, all addresses may first have to be cleared. */
    method Choose(w: World, reading: nat, used: set<nat>, first: bool) returns (ok: bool, next: nat)
      requires first ==> used == {} && reading == 0
      modifies `bad, `loadBal, `current, `badAge
      ensures badAge == Age(old(badAge)) && bad.Keys <= old(bad).Keys
      ensures ok ==> current < |ipList| && ipList[current] in Addresses(ipList)
      ensures ok ==> (host, ipList[current]) !in bad && ipList[current] !in used
      ensures !ok ==> forall ip :: ip in ipList ==> Unusable(bad, host, used, ip)
      ensures ok <==> exists ip :: ip in ipList && !Unusable(bad, host, used, ip)
      ensures first ==> (ok <==> ipList != [])
      ensures ipList != [] && first ==> Opened(Open(old(bad), badAge, w, host, ipList), w, next)
      ensures ipList != [] && !first ==> next == reading + 1
      ensures ipList != [] && !first ==> bad == Refreshed(old(bad), w.clock(reading), badAge)
    {
      hide FoundAfter, NextStart;
      next := reading + 1;
      ok := GetNext(used, w.clock(reading));
      if ipList != [] && first {
        assert bad == StillBad(old(bad), badAge, w, 0, 1);
        assert ok <==> Unmarked(bad, host, ipList) != {};
      }
      if !ok && first {
        assert forall ip :: ip in ipList ==> (host, ip) in bad;
        TestAllBad();
        assert ipList != [] ==> !Unusable(bad, host, used, ipList[0]);
        next := reading + 2;
        label Cleared:
        ok := GetNext(used, w.clock(reading + 1));
        assert ipList != [] ==> (host, ipList[0]) !in old@Cleared(bad);
        assert ipList != [] ==> !Unusable(bad, host, used, ipList[0]);
        assert ipList != [] ==> bad == StillBad(old@Cleared(bad), badAge, w, 1, 2);
      }
    }

    /** The same choice, seen as the next round of the search. */
    method ChooseNext(w: World, reading: nat, used: set<nat>, first: bool, ghost o: Opening, ghost age: nat, ghost j: nat)
      returns (ok: bool, next: nat)
      requires |used| == j && (first ==> used == {} && reading == 0)
      requires !first ==> ipList != [] && badAge == age > 0 && reading == o.from + j && Searched(bad, host, ipList, o, w, age, j, used)
      requires first ==> age == Age(badAge) && o == Open(bad, age, w, host, ipList)
      modifies `bad, `loadBal, `current, `badAge
      ensures bad.Keys <= old(bad).Keys
      ensures ok ==> current < |ipList| && ipList[current] in Addresses(ipList)
      ensures ok ==> (host, ipList[current]) !in bad && ipList[current] !in used
      ensures !ok ==> forall ip :: ip in ipList ==> Unusable(bad, host, used, ip)
      ensures first ==> (ok <==> ipList != [])
      ensures ipList != [] ==> badAge == age > 0 && next == o.from + j + 1 && Searched(bad, host, ipList, o, w, age, j + 1, used)
      ensures ipList != [] ==> Rounds(o, age, w, host, ipList, j) == if ok then Rounds(o, age, w, host, ipList, j + 1) else j
    {
      hide Unusable, StillBad, Refreshed, Rounds, Open, Unmarked;
      ghost var before := bad;
      ok, next := Choose(w, reading, used, first);
      if ipList != [] {
        if first {
          NothingMarked(bad, host, ipList);
        } else {
          OneMoreReading(o, age, w, j);
          RefreshedIsLess(before, w.clock(reading), age);
          FewerMarks(before, bad, host, ipList);
        }
        NextRound(o, age, w, host, ipList, j, bad, used);
      }
    }

    /** A request that ends without an error blames the addresses tried before. */
    method Conclude(w: World, reading: nat, error: Outcome, used: set<nat>)
      modifies `bad
      ensures forall k :: k in bad <==> k in old(bad) || (!error.IfError() && k.0 == host && k.1 in used)
    {
      if !error.IfError() && used != {} {
        LogBad(used, w.clock(reading));
      }
    }

    /**
     The loop over the addresses. It ends with an answer or an error that forbids another attempt,
     or when every address is bad or used.
     */
    method TryAddresses(w: World, put: bool, stream: bool)
      returns (error: Outcome, attempts: seq<Attempt>, used: set<nat>, exhausted: bool, reading: nat)
      requires maxRetryCount > 0
      modifies `bad, `loadBal, `current, `badAge, `maxWriteRequest, `receiveTimeout
      ensures bad.Keys <= old(bad).Keys && used <= Silent(attempts)
      ensures ipList == [] ==> attempts == [] && error.code == NoAddresses
      ensures ipList != [] ==> 1 <= |attempts| <= Allowed(Addresses(ipList), maxRetryCount)
      ensures ipList != [] ==> error == Last(attempts).outcome && Last(attempts).ip in ipList && (host, Last(attempts).ip) !in bad
      ensures stream ==> |attempts| <= 1
      ensures Recorded(w, ipList, attempts)
      ensures exhausted ==> !error.answered && !stream && forall ip :: ip in ipList ==> Unusable(bad, host, used, ip)
      ensures !exhausted && ipList != [] ==> Last(attempts).ip !in used && (error.answered || stream || error.IfError())
      ensures var all := Foreseen(w, TheMode(put, stream), old(TheLimits()), old(bad), old(badAge), host, ipList);
        ipList != [] ==> Walked(|attempts|, exhausted, TheLimits()) == all
    {
      hide Allowed, Unanswered, OnlyLastAnswered, Last, Silent, Inside, Unusable, Outcome.IfError, Expired;
      hide StillBad, Open, Unmarked, Round, AsForeseen, Walk, Rounds, Refreshed, Addresses, Searched, Recorded, Foreseen, FalseSuccess, Age, Fruitless, Left;
      attempts, used, exhausted, reading := [], {}, false, 0;
      error := Outcome(NoError, 0, false, false);
      var first := true;
      NothingTried(w, ipList);
      NothingFruitless(w, ipList, maxRetryCount);
      ghost var all, m, age := Addresses(ipList), TheMode(put, stream), Age(badAge);
      ghost var o := Open(bad, age, w, host, ipList);
      ghost var n := Rounds(o, age, w, host, ipList, 0);
      ghost var whole := Foreseen(w, m, TheLimits(), bad, badAge, host, ipList);
      ForeseenIsWalk(w, m, TheLimits(), bad, badAge, host, ipList);
      ghost var j := 0;
      while true
        invariant Fruitless(w, ipList, maxRetryCount, attempts, used) && |attempts| <= Allowed(all, maxRetryCount)
        invariant first ==> used == {} && attempts == [] && j == 0 && reading == 0 && bad == old(bad) && Age(badAge) == age
        invariant bad.Keys <= old(bad).Keys
        invariant !first ==> attempts != [] && error == Last(attempts).outcome && Last(attempts).ip in ipList
        invariant !first ==> !stream && !error.answered && (host, Last(attempts).ip) !in bad
        invariant |used| == j <= n && n == Rounds(o, age, w, host, ipList, j)
        invariant whole == Walk(w, m, |attempts|, n - j, TheLimits())
        invariant !first ==> ipList != [] && badAge == age > 0 && reading == o.from + j
        invariant !first ==> Searched(bad, host, ipList, o, w, age, j, used)
        decreases Left(ipList, used)
      {
        var ok;
        ghost var l := TheLimits();
        ok, reading := ChooseNext(w, reading, used, first, o, age, j);
        if !ok {
          if first {
            error := Outcome(NoAddresses, 0, false, false);
          }
          exhausted := !first;
          EndOfWalk(w, m, |attempts|, l);
          FruitlessMeans(w, ipList, maxRetryCount, attempts, used);
          return;
        }
        first := false;
        var ip := ipList[current];
        var tries, verdict;
        error, tries, verdict := TryAddress(w, |attempts|, put, stream);
        NextOfWalk(w, m, |attempts|, n - j, l, Ended(|attempts + tries|, verdict, TheLimits()));
        AddressTried(w, ipList, maxRetryCount, attempts, used, tries, ip);
        attempts := attempts + tries;
        if !verdict.NextAddress? {
          return;
        }
        UsedStays(bad, host, ipList, o, w, age, j + 1, used, ip);
        used := used + {ip};
        j := j + 1;
      }
    }

    method SendRequest(w: World, put: bool, stream: bool) returns (error: Outcome, attempts: seq<Attempt>)
      requires maxRetryCount > 0
      modifies this
      ensures ipListHost == old(ipListHost) && maxRetryCount == old(maxRetryCount)
      ensures ipListHost == [] ==> attempts == [] && error.code == NoAddresses
      ensures ipListHost != [] ==> 1 <= |attempts| <= Allowed(Addresses(ipListHost), maxRetryCount)
      ensures ipListHost != [] ==> error == Last(attempts).outcome
      ensures stream ==> |attempts| <= 1
      ensures Inside(attempts, ipListHost) && OnlyLastAnswered(attempts) && AsForeseen(w, 0, attempts)
      ensures var all := Foreseen(w, old(TheMode(put, stream)), old(TheLimits()), old(bad), old(badAge), host, ipListHost);
        ipListHost != [] ==> |attempts| == all.next
      ensures attempts != [] && error.answered ==> (host, Last(attempts).ip) !in bad
      ensures forall k :: k in bad && k !in old(bad) ==> k.0 == host && k.1 in Silent(attempts) && !error.IfError()
      ensures ipListHost != [] ==> (AllBad(bad, host, ipListHost) <==> FalseSuccess(error) && !stream)
      ensures var blamed := AllWillBeBlamed(w, old(TheMode(put, stream)), old(TheLimits()), old(bad), old(badAge), host, ipListHost);
        ipListHost != [] ==> (AllBad(bad, host, ipListHost) <==> blamed)
    {
      hide Allowed, AllBad, Unanswered, OnlyLastAnswered, Inside, Addresses, Silent, Foreseen;
      ipList := ipListHost;
      var used, exhausted, reading;
      error, attempts, used, exhausted, reading := TryAddresses(w, put, stream);
      ghost var before := bad;
      Conclude(w, reading, error, used);
      if ipList != [] {
        BlameDecides(before, bad, host, ipList, used, error, Last(attempts).ip, exhausted);
      }
    }
  }

  const SilentSuccess := Outcome(NoError, 0, false, false)

  /** Two addresses without a mark, and a network that reports success without any answer. */
  method TwoSilentAddresses() returns (c: Connection, error: Outcome)
    ensures c.ipListHost == [1, 2] && !error.IfError() && AllBad(c.bad, c.host, [1, 2])
  {
    c := new Connection(0, [1, 2]);
    var w := World(k => SilentSuccess, k => 0);
    var attempts;
    FalseSuccessesBlameAll(w, c.TheMode(false, false), c.TheLimits(), c.bad, c.badAge, 0, [1, 2]);
    assert c.bad == map[];
    error, attempts := c.SendRequest(w, false, false);
  }
}
