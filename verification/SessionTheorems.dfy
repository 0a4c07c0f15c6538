/** Who holds which session, over all runs of the session cache. */
module SessionTheorems {
  import opened SessionState

  /** Every holder's pointer is valid and its entry is in use. */
  ghost predicate HoldersOk(c: Cache) {
    forall h :: 0 <= h < |c.holders| && c.holders[h].Holds? ==>
      var key := c.holders[h].key;
      key in c.sessions && c.sessions[key].inUse && c.sessions[key].node == c.holders[h].node
  }

  ghost predicate Exclusive(c: Cache) {
    forall g, h :: 0 <= g < h < |c.holders| && c.holders[g].Holds? && c.holders[h].Holds? ==>
      c.holders[g].key != c.holders[h].key
  }

  ghost predicate HasHolder(c: Cache, key: Key) {
    exists h :: 0 <= h < |c.holders| && c.holders[h].Holds? && c.holders[h].key == key
  }

  ghost predicate EntriesOk(c: Cache) {
    forall key :: key in c.sessions ==>
      && (c.sessions[key].inUse ==> HasHolder(c, key))
      && (c.sessions[key].killWhenDone ==> c.sessions[key].inUse)
      && c.sessions[key].node < c.nextNode
  }

  ghost predicate Issued(n: nat, issued: nat, k: int) { 0 < n <= issued && k == Signed32(n) }

  ghost predicate KeysOk(c: Cache) {
    forall key :: key in c.sessions ==> exists n :: Issued(n, c.issued, key.k)
  }

  ghost predicate Inv(c: Cache) {
    HoldersOk(c) && Exclusive(c) && EntriesOk(c)
  }

  lemma ReleaseKeeps(c: Cache, h: nat, now: int)
    requires Inv(c) && h < |c.holders|
    ensures Inv(Release(c, h, now))
    ensures KeysOk(c) ==> KeysOk(Release(c, h, now))
  {
    var c' := Release(c, h, now);
    forall key | key in c'.sessions && c'.sessions[key].inUse ensures HasHolder(c', key) {
      var g :| 0 <= g < |c.holders| && c.holders[g].Holds? && c.holders[g].key == key;
      assert c'.holders[g] == c.holders[g];
    }
  }

  lemma ClaimKeeps(c: Cache, h: nat, key: Key)
    requires Inv(c) && h < |c.holders| && c.holders[h].Free? && key in c.sessions && !c.sessions[key].inUse
    ensures Inv(Claim(c, h, key))
    ensures KeysOk(c) ==> KeysOk(Claim(c, h, key))
  {
    var c' := Claim(c, h, key);
    forall k | k in c'.sessions && c'.sessions[k].inUse ensures HasHolder(c', k) {
      if k == key {
        assert c'.holders[h].key == key;
      } else {
        var g :| 0 <= g < |c.holders| && c.holders[g].Holds? && c.holders[g].key == k;
        assert c'.holders[g] == c.holders[g];
      }
    }
  }

  lemma CreateKeeps(c: Cache, h: nat, host: nat, ip: nat, now: int)
    requires Inv(c) && h < |c.holders| && c.holders[h].Free?
    requires Key(host, ip, Signed32(Draw(c.issued))) !in c.sessions
    ensures Inv(Create(c, h, host, ip, now))
    ensures KeysOk(c) ==> KeysOk(Create(c, h, host, ip, now))
  {
    var n := Draw(c.issued);
    var key := Key(host, ip, Signed32(n));
    var d := c.(sessions := c.sessions[key := Value(false, false, now, c.nextNode)], nextNode := c.nextNode + 1);
    forall k | k in d.sessions && d.sessions[k].inUse ensures HasHolder(d, k) {
      assert HasHolder(c, k);
    }
    ClaimKeeps(d, h, key);
    var c' := Create(c, h, host, ip, now);
    assert c' == Claim(d, h, key).(issued := n);
    forall k | KeysOk(c) && k in c'.sessions ensures exists m :: Issued(m, n, k.k) {
      if k == key {
        assert Issued(n, n, k.k);
      } else {
        var m :| Issued(m, c.issued, k.k);
        assert Issued(m, n, k.k);
      }
    }
  }

  /** As long as the counter has not come round, a drawn key is new. */
  lemma DrawnKeyIsNew(c: Cache, host: nat, ip: nat)
    requires KeysOk(c) && Draw(c.issued) < WRAP
    ensures Key(host, ip, Signed32(Draw(c.issued))) !in c.sessions
  {
    var d := Draw(c.issued);
    forall n | 0 < n <= c.issued ensures Signed32(n) != Signed32(d) {
      SmallNumbersDiffer(n, d);
    }
  }

  lemma SmallNumbersDiffer(m: nat, n: nat)
    requires m < n < WRAP
    ensures Signed32(m) != Signed32(n)
  {
    assert m % WRAP == m && n % WRAP == n;
  }

  lemma MarkKeeps(c: Cache, h: nat)
    requires Inv(c) && h < |c.holders|
    ensures Inv(Mark(c, h))
    ensures KeysOk(c) ==> KeysOk(Mark(c, h))
  {
    forall key | key in c.sessions && HasHolder(c, key) ensures HasHolder(Mark(c, h), key) {}
  }

  lemma KillKeeps(c: Cache)
    requires Inv(c)
    ensures Inv(Kill(c))
    ensures KeysOk(c) ==> KeysOk(Kill(c))
  {
    forall key | key in c.sessions && HasHolder(c, key) ensures HasHolder(Kill(c), key) {}
  }

  lemma CollectKeeps(c: Cache, now: int)
    requires Inv(c)
    ensures Inv(Collect(c, now))
    ensures KeysOk(c) ==> KeysOk(Collect(c, now))
  {
    forall key | key in c.sessions && HasHolder(c, key) ensures HasHolder(Collect(c, now), key) {}
  }

  lemma AllocKeeps(c: Cache, h: nat, host: nat, ip: nat, now: int, c': Cache)
    requires Inv(c) && KeysOk(c) && h < |c.holders| && Allocates(c, h, host, ip, now, c') && c'.issued < WRAP
    ensures Inv(c') && KeysOk(c')
  {
    var r := Release(c, h, now);
    ReleaseKeeps(c, h, now);
    if exists k :: Reusable(r.sessions, host, ip, k) {
      var k :| FirstReusable(r.sessions, host, ip, k) && c' == Claim(r, h, Key(host, ip, k));
      ClaimKeeps(r, h, Key(host, ip, k));
    } else {
      DrawnKeyIsNew(r, host, ip);
      CreateKeeps(r, h, host, ip, now);
    }
  }

  lemma StepKeeps(c: Cache, s: Step, c': Cache)
    requires Inv(c) && KeysOk(c) && Next(c, s, c') && c'.issued < WRAP
    ensures Inv(c') && KeysOk(c')
  {
    match s
    case DoAlloc(h, host, ip, now) => AllocKeeps(c, h, host, ip, now, c');
    case DoRelease(h, now) => ReleaseKeeps(c, h, now);
    case DoMark(h) => MarkKeeps(c, h);
    case DoKill => KillKeeps(c);
    case DoCollect(now) => CollectKeeps(c, now);
  }

  lemma StepGrows(c: Cache, s: Step, c': Cache)
    requires Next(c, s, c')
    ensures c.issued <= c'.issued && c.nextNode <= c'.nextNode && |c.holders| == |c'.holders|
  {
  }

  lemma {:induction false} RunKeeps(run: seq<Step>, states: seq<Cache>, n: nat)
    requires ValidRun(run, states) && Empty(states[0]) && n <= |run| && states[n].issued < WRAP
    ensures Inv(states[n]) && KeysOk(states[n])
  {
    if n > 0 {
      StepGrows(states[n - 1], run[n - 1], states[n]);
      RunKeeps(run, states, n - 1);
      StepKeeps(states[n - 1], run[n - 1], states[n]);
    }
  }

  // ---------------------------------------------------------------- results

  ghost predicate HeldBy(c: Cache, h: nat, key: Key) {
    h < |c.holders| && c.holders[h].Holds? && c.holders[h].key == key
  }

  lemma HolderOf(c: Cache, key: Key)
    requires Inv(c)
    ensures key in c.sessions && c.sessions[key].inUse <==> exists h :: HeldBy(c, h, key)
    ensures forall g: nat, h: nat :: HeldBy(c, g, key) && HeldBy(c, h, key) ==> g == h
  {
    if key in c.sessions && c.sessions[key].inUse {
      assert HasHolder(c, key);
      var h: nat :| h < |c.holders| && c.holders[h].Holds? && c.holders[h].key == key;
      assert HeldBy(c, h, key);
    }
  }

  /**
   Until the 32-bit counter has come round, in every reachable state: an entry in use has exactly one
   holder, and that holder's pointer is valid; an idle entry has none and is not marked for removal.
   */
  lemma OneHolder(run: seq<Step>, states: seq<Cache>, n: nat, key: Key)
    requires ValidRun(run, states) && Empty(states[0]) && n <= |run| && states[n].issued < WRAP
    ensures var c := states[n];
      && (key in c.sessions && c.sessions[key].inUse <==> exists h :: HeldBy(c, h, key))
      && (forall g: nat, h: nat :: HeldBy(c, g, key) && HeldBy(c, h, key) ==> g == h)
      && (forall h: nat :: HeldBy(c, h, key) ==> key in c.sessions && c.sessions[key].node == c.holders[h].node)
      && (key in c.sessions && !c.sessions[key].inUse ==> !c.sessions[key].killWhenDone)
  {
    RunKeeps(run, states, n);
    HolderOf(states[n], key);
  }

  /** All sessions from before a certain moment are in use and marked. */
  ghost predicate Doomed(c: Cache, node: nat) {
    forall key :: key in c.sessions && c.sessions[key].node < node ==> c.sessions[key].inUse && c.sessions[key].killWhenDone
  }

  lemma ReleaseDooms(c: Cache, h: nat, now: int, node: nat)
    requires Inv(c) && h < |c.holders| && Doomed(c, node)
    ensures Doomed(Release(c, h, now), node)
  {
    hide Exclusive, EntriesOk;
  }

  lemma ClaimDooms(c: Cache, h: nat, key: Key, node: nat)
    requires Doomed(c, node) && h < |c.holders| && key in c.sessions && !c.sessions[key].inUse
    ensures Doomed(Claim(c, h, key), node) && Claim(c, h, key).holders[h].Holds? && Claim(c, h, key).holders[h].node >= node
  {
  }

  lemma CreateDooms(c: Cache, h: nat, host: nat, ip: nat, now: int, node: nat)
    requires Doomed(c, node) && KeysOk(c) && h < |c.holders| && node <= c.nextNode && Create(c, h, host, ip, now).issued < WRAP
    ensures var c' := Create(c, h, host, ip, now);
      Doomed(c', node) && c'.holders[h].Holds? && c'.holders[h].node >= node
  {
    hide KeysOk;
    DrawnKeyIsNew(c, host, ip);
  }

  lemma AllocDooms(c: Cache, h: nat, host: nat, ip: nat, now: int, c': Cache, node: nat)
    requires Inv(c) && KeysOk(c) && h < |c.holders| && Allocates(c, h, host, ip, now, c') && c'.issued < WRAP
    requires Doomed(c, node) && node <= c.nextNode
    ensures Doomed(c', node) && c'.holders[h].Holds? && c'.holders[h].node >= node
  {
    var r := Release(c, h, now);
    assert r.nextNode == c.nextNode && r.issued == c.issued;
    ReleaseKeeps(c, h, now);
    ReleaseDooms(c, h, now, node);
    hide KeysOk, Exclusive, HoldersOk, EntriesOk, Release, Claim, Create, Doomed;
    if exists k :: Reusable(r.sessions, host, ip, k) {
      var k :| FirstReusable(r.sessions, host, ip, k) && c' == Claim(r, h, Key(host, ip, k));
      ClaimDooms(r, h, Key(host, ip, k), node);
    } else {
      CreateDooms(r, h, host, ip, now, node);
    }
  }

  lemma StepDooms(c: Cache, s: Step, c': Cache, node: nat)
    requires Inv(c) && KeysOk(c) && Next(c, s, c') && c'.issued < WRAP && Doomed(c, node) && node <= c.nextNode
    ensures Doomed(c', node)
    ensures s.DoAlloc? ==> c'.holders[s.h].Holds? && c'.holders[s.h].node >= node
  {
    match s
    case DoAlloc(h, host, ip, now) => AllocDooms(c, h, host, ip, now, c', node);
    case DoRelease(h, now) => ReleaseDooms(c, h, now, node);
    case _ =>
  }

  lemma {:induction false} RunDooms(run: seq<Step>, states: seq<Cache>, m: nat, n: nat)
    requires ValidRun(run, states) && Empty(states[0]) && m < n <= |run| && states[n].issued < WRAP && run[m].DoKill?
    ensures Doomed(states[n], states[m].nextNode) && states[m].nextNode <= states[n].nextNode
    decreases n
  {
    StepGrows(states[n - 1], run[n - 1], states[n]);
    if n - 1 > m {
      RunDooms(run, states, m, n - 1);
      RunKeeps(run, states, n - 1);
      StepDooms(states[n - 1], run[n - 1], states[n], states[m].nextNode);
    }
  }

  /**
   After a kill every session that is handed out is newer than the kill: none that existed at the
   kill is ever handed out again.
   */
  lemma KilledNeverReturns(run: seq<Step>, states: seq<Cache>, m: nat, n: nat)
    requires ValidRun(run, states) && Empty(states[0]) && m < n < |run| && states[n + 1].issued < WRAP
    requires run[m].DoKill? && run[n].DoAlloc?
    ensures run[n].h < |states[n + 1].holders| && states[n + 1].holders[run[n].h].Holds?
    ensures states[n + 1].holders[run[n].h].node >= states[m].nextNode
    ensures forall key :: key in states[m].sessions ==> states[m].sessions[key].node < states[m].nextNode
  {
    StepGrows(states[n], run[n], states[n + 1]);
    RunGrows(run, states, m, n);
    RunKeeps(run, states, m);
    RunKeeps(run, states, n);
    RunDooms(run, states, m, n);
    StepDooms(states[n], run[n], states[n + 1], states[m].nextNode);
  }

  lemma {:induction false} RunGrows(run: seq<Step>, states: seq<Cache>, m: nat, n: nat)
    requires ValidRun(run, states) && m <= n <= |run|
    ensures states[m].issued <= states[n].issued
    decreases n - m
  {
    if m < n {
      StepGrows(states[n - 1], run[n - 1], states[n]);
      RunGrows(run, states, m, n - 1);
    }
  }

  /**
   When the counter comes round: the new holder is the only one exactly if the drawn key does not
   belong to a session in use. The insertion itself does not look.
   */
  lemma CreateIsExclusive(c: Cache, h: nat, host: nat, ip: nat, now: int)
    requires Inv(c) && h < |c.holders| && c.holders[h].Free?
    ensures var key := Key(host, ip, Signed32(Draw(c.issued)));
      Exclusive(Create(c, h, host, ip, now)) <==> !(key in c.sessions && c.sessions[key].inUse)
  {
    var key := Key(host, ip, Signed32(Draw(c.issued)));
    var c' := Create(c, h, host, ip, now);
    if key !in c.sessions {
      CreateKeeps(c, h, host, ip, now);
    } else if c.sessions[key].inUse {
      var g :| 0 <= g < |c.holders| && c.holders[g].Holds? && c.holders[g].key == key;
      assert g != h && c'.holders[g].key == key && c'.holders[h].key == key;
      assert c'.holders[g].Holds? && c'.holders[h].Holds?;
    } else {
      ClaimKeeps(c, h, key);
    }
  }

  /** Keys above half the range are negative: such a session, once idle, is not found again. */
  lemma IdleNegativeKeyIsLost(c: Cache, s: Step, c': Cache, key: Key)
    requires Inv(c) && KeysOk(c) && Next(c, s, c') && c'.issued < WRAP
    requires key in c.sessions && !c.sessions[key].inUse && key.k < 0
    ensures key in c'.sessions ==> !c'.sessions[key].inUse
  {
    if s.DoAlloc? {
      var r := Release(c, s.h, s.now);
      ReleaseKeeps(c, s.h, s.now);
      if !(exists k :: Reusable(r.sessions, s.host, s.ip, k)) {
        DrawnKeyIsNew(r, s.host, s.ip);
      }
    }
  }

  /** An idle session is collected exactly when it has been idle for more than two minutes. */
  lemma CollectedAfterTwoMinutes(c: Cache, h: nat, now: int, later: int)
    requires Inv(c) && h < |c.holders| && c.holders[h].Holds?
    requires !c.sessions[c.holders[h].key].killWhenDone
    ensures var d := Collect(Release(c, h, now), later); var key := c.holders[h].key;
      && (key in d.sessions <==> later <= now + 1_200_000_000)
      && (key in d.sessions ==> !d.sessions[key].inUse && d.sessions[key].node == c.holders[h].node)
    ensures forall key :: key in c.sessions && c.sessions[key].inUse ==> key in Collect(c, later).sessions
  {
  }

  /**
   What a session cache is for: a session that was given back in order is handed to the next request for
   the same host and address within two minutes, and no other one is created, unless one with a smaller
   key is idle as well.
   */
  lemma GivenBackIsReused(c: Cache, h: nat, now: int, later: int, g: nat, c': Cache)
    requires Inv(c) && h < |c.holders| && c.holders[h].Holds? && g < |c.holders| && (g == h || c.holders[g].Free?)
    requires !c.sessions[c.holders[h].key].killWhenDone && later <= now + 1_200_000_000
    requires var key := c.holders[h].key; key.k >= 0 && forall k :: 0 <= k < key.k ==> !Reusable(c.sessions, key.host, key.ip, k)
    requires var key := c.holders[h].key; Allocates(Collect(Release(c, h, now), later), g, key.host, key.ip, later, c')
    ensures c'.holders[g] == c.holders[h] && c'.issued == c.issued && c'.nextNode == c.nextNode
    ensures c'.sessions.Keys == Collect(Release(c, h, now), later).sessions.Keys
  {
    var d, key := Collect(Release(c, h, now), later), c.holders[h].key;
    CollectedAfterTwoMinutes(c, h, now, later);
    assert Release(d, g, later) == d;
    assert Reusable(d.sessions, key.host, key.ip, key.k);
    forall k | Reusable(d.sessions, key.host, key.ip, k) ensures k >= key.k {
      assert k < key.k ==> Reusable(c.sessions, key.host, key.ip, k);
    }
    var k :| FirstReusable(d.sessions, key.host, key.ip, k) && c' == Claim(d, g, Key(key.host, key.ip, k));
    assert k == key.k;
  }
}
