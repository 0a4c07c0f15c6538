/**
 The cache of network sessions of ECSUtil/ECSConnection.cpp as a value: the session map and what each
 connection state holds. Every operation is one critical section. A `node` names an entry of the map
 from its creation to its removal: it stands for the pointer that a holder keeps.
 */
module SessionState {

  const WRAP: nat := 0x1_0000_0000
  const IDLE_TIME: nat := 2 * 60 * 10_000_000

  datatype Key = Key(host: nat, ip: nat, k: int)

  datatype Value = Value(inUse: bool, killWhenDone: bool, idleTime: int, node: nat)

  datatype Holder = Free | Holds(key: Key, node: nat)

  /** `issued` counts the increments of the 32-bit signed key counter. */
  datatype Cache = Cache(sessions: map<Key, Value>, holders: seq<Holder>, issued: nat, nextNode: nat)

  function Signed32(n: nat): int {
    var r := n % WRAP;
    if r < WRAP / 2 then r else r - WRAP
  }

  /** The counter after a new key was drawn; zero is skipped. */
  function Draw(issued: nat): nat {
    if Signed32(issued + 1) == 0 then issued + 2 else issued + 1
  }

  /** ReleaseSession. */
  function Release(c: Cache, h: nat, now: int): Cache
    requires h < |c.holders|
  {
    if c.holders[h].Free? then c
    else
      var key := c.holders[h].key;
      var hs := c.holders[h := Free];
      if key !in c.sessions then c.(holders := hs)
      else if c.sessions[key].killWhenDone then c.(sessions := c.sessions - {key}, holders := hs)
      else c.(sessions := c.sessions[key := c.sessions[key].(inUse := false, idleTime := now)], holders := hs)
  }

  /** The search starts at key number 0, so entries with a negative number are not seen. */
  predicate Reusable(m: map<Key, Value>, host: nat, ip: nat, k: int) {
    k >= 0 && Key(host, ip, k) in m && !m[Key(host, ip, k)].inUse
  }

  ghost predicate FirstReusable(m: map<Key, Value>, host: nat, ip: nat, k: int) {
    Reusable(m, host, ip, k) && forall j :: Reusable(m, host, ip, j) ==> k <= j
  }

  function Claim(c: Cache, h: nat, key: Key): Cache
    requires h < |c.holders| && key in c.sessions
  {
    c.(sessions := c.sessions[key := c.sessions[key].(inUse := true)],
       holders := c.holders[h := Holds(key, c.sessions[key].node)])
  }

  /** A new entry; if the key exists already, the insertion fails and the existing entry is taken. */
  function Create(c: Cache, h: nat, host: nat, ip: nat, now: int): Cache
    requires h < |c.holders|
  {
    var n := Draw(c.issued);
    var key := Key(host, ip, Signed32(n));
    if key in c.sessions then Claim(c, h, key).(issued := n)
    else Claim(c.(sessions := c.sessions[key := Value(false, false, now, c.nextNode)], nextNode := c.nextNode + 1), h, key).(issued := n)
  }

  /** AllocSession, up to the choice of the entry: the first reusable one, or a new one. */
  ghost predicate Allocates(c: Cache, h: nat, host: nat, ip: nat, now: int, c': Cache)
    requires h < |c.holders|
  {
    var r := Release(c, h, now);
    if exists k :: Reusable(r.sessions, host, ip, k)
    then exists k :: FirstReusable(r.sessions, host, ip, k) && c' == Claim(r, h, Key(host, ip, k))
    else c' == Create(r, h, host, ip, now)
  }

  /** A failed request marks its session before giving it back. */
  function Mark(c: Cache, h: nat): Cache
    requires h < |c.holders|
  {
    if c.holders[h].Holds? && c.holders[h].key in c.sessions
    then c.(sessions := c.sessions[c.holders[h].key := c.sessions[c.holders[h].key].(killWhenDone := true)])
    else c
  }

  /** KillHostSessions. */
  function Kill(c: Cache): Cache {
    c.(sessions := map k | k in c.sessions && c.sessions[k].inUse :: c.sessions[k].(killWhenDone := true))
  }

  predicate Stale(v: Value, now: int) { !v.inUse && now > v.idleTime + IDLE_TIME }

  /** GarbageCollect. */
  function Collect(c: Cache, now: int): Cache {
    c.(sessions := map k | k in c.sessions && !Stale(c.sessions[k], now) :: c.sessions[k])
  }

  datatype Step =
    | DoAlloc(h: nat, host: nat, ip: nat, now: int)
    | DoRelease(h: nat, now: int)
    | DoMark(h: nat)
    | DoKill
    | DoCollect(now: int)

  ghost predicate Next(c: Cache, s: Step, c': Cache) {
    match s
    case DoAlloc(h, host, ip, now) => h < |c.holders| && Allocates(c, h, host, ip, now, c')
    case DoRelease(h, now) => h < |c.holders| && c' == Release(c, h, now)
    case DoMark(h) => h < |c.holders| && c' == Mark(c, h)
    case DoKill => c' == Kill(c)
    case DoCollect(now) => c' == Collect(c, now)
  }

  /** A run as the states it visits. */
  ghost predicate ValidRun(run: seq<Step>, states: seq<Cache>) {
    && |states| == |run| + 1
    && forall i :: 0 <= i < |run| ==> Next(states[i], run[i], states[i + 1])
  }

  ghost predicate Empty(c: Cache) {
    && c.sessions == map[] && c.issued == 0 && c.nextNode == 0
    && forall h :: 0 <= h < |c.holders| ==> c.holders[h].Free?
  }
}
