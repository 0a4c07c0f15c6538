/**
 The session map with its critical sections (ECSUtil/ECSConnection.cpp) as a class. Each method does
 to the abstract state what the function of SessionState does, for which the results are proved.
 */
module SessionCache {
  import opened SessionState

  class SessionCache {
    var sessions: map<Key, Value>
    var holders: seq<Holder>
    var issued: nat
    var nextNode: nat

    ghost function Abs(): Cache
      reads this
    {
      Cache(sessions, holders, issued, nextNode)
    }

    constructor (n: nat)
      ensures Empty(Abs()) && |holders| == n
    {
      sessions, holders, issued, nextNode := map[], seq(n, i => Free), 0, 0;
    }

    method ReleaseSession(h: nat, now: int)
      requires h < |holders|
      modifies this
      ensures Abs() == Release(old(Abs()), h, now)
    {
      if holders[h].Holds? {
        var key := holders[h].key;
        if key in sessions {
          if sessions[key].killWhenDone {
            sessions := sessions - {key};
          } else {
            sessions := sessions[key := sessions[key].(inUse := false, idleTime := now)];
          }
        }
        holders := holders[h := Free];
      }
    }

    /** The walk along the entries of an address, from key number 0 upwards. */
    method FindIdle(host: nat, ip: nat) returns (found: bool, k: int)
      ensures found <==> exists j :: Reusable(sessions, host, ip, j)
      ensures found ==> FirstReusable(sessions, host, ip, k)
    {
      found, k := false, 0;
      var todo := sessions.Keys;
      while todo != {}
        invariant todo <= sessions.Keys
        invariant found ==> Reusable(sessions, host, ip, k)
        invariant forall j :: Reusable(sessions, host, ip, j) && Key(host, ip, j) !in todo ==> found && k <= j
        decreases |todo|
      {
        var key :| key in todo;
        if key.host == host && key.ip == ip && key.k >= 0 && !sessions[key].inUse && (!found || key.k < k) {
          found, k := true, key.k;
        }
        todo := todo - {key};
      }
    }

    method AllocSession(h: nat, host: nat, ip: nat, now: int)
      requires h < |holders|
      modifies this
      ensures Allocates(old(Abs()), h, host, ip, now, Abs())
    {
      ReleaseSession(h, now);
      ghost var r := Abs();
      var found, k := FindIdle(host, ip);
      var key := Key(host, ip, k);
      if found {
        sessions := sessions[key := sessions[key].(inUse := true)];
        holders := holders[h := Holds(key, sessions[key].node)];
        assert Abs() == Claim(r, h, key);
        return;
      }
      issued := issued + 1;
      if Signed32(issued) == 0 {
        issued := issued + 1;
      }
      key := Key(host, ip, Signed32(issued));
      if key !in sessions {
        sessions := sessions[key := Value(false, false, now, nextNode)];
        nextNode := nextNode + 1;
      }
      sessions := sessions[key := sessions[key].(inUse := true)];
      holders := holders[h := Holds(key, sessions[key].node)];
      assert Abs() == Create(r, h, host, ip, now);
    }

    method KillHostSessions()
      modifies this
      ensures Abs() == Kill(old(Abs()))
    {
      var todo := sessions.Keys;
      ghost var m := sessions;
      while todo != {}
        modifies `sessions
        invariant todo <= sessions.Keys <= m.Keys
        invariant sessions == map k | k in m && (k in todo || m[k].inUse) :: if k in todo then m[k] else m[k].(killWhenDone := true)
        decreases |todo|
      {
        var key :| key in todo;
        if !sessions[key].inUse {
          sessions := sessions - {key};
        } else {
          sessions := sessions[key := sessions[key].(killWhenDone := true)];
        }
        todo := todo - {key};
      }
    }

    method GarbageCollect(now: int)
      modifies this
      ensures Abs() == Collect(old(Abs()), now)
    {
      var todo := sessions.Keys;
      ghost var m := sessions;
      while todo != {}
        modifies `sessions
        invariant todo <= sessions.Keys <= m.Keys
        invariant sessions == map k | k in m && (k in todo || !Stale(m[k], now)) :: m[k]
        decreases |todo|
      {
        var key :| key in todo;
        if !sessions[key].inUse {
          if now > sessions[key].idleTime + IDLE_TIME {
            sessions := sessions - {key};
          }
        }
        todo := todo - {key};
      }
    }
  }
}
