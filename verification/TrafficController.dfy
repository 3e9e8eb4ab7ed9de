/** The admission controller of v10/internal/ratelimit/controller.go: connection grants that may be
    released any number of times, and the two limiters that a danmaku or a like must pass. */
module TrafficController {
  import opened TokenBuckets

  // ------------------------------------------------------------------ connections

  // The release closure of one accepted connection; `released` is its sync.Once.
  class Grant {
    const ip: string
    var released: bool

    constructor (ip: string)
      ensures this.ip == ip && !released
    {
      this.ip, released := ip, false;
    }
  }

  ghost function From(grants: set<Grant>, ip: string): set<Grant> {
    set g | g in grants && g.ip == ip
  }

  lemma FromPlus(grants: set<Grant>, grant: Grant)
    requires grant !in grants
    ensures forall ip :: |From(grants + {grant}, ip)| == |From(grants, ip)| + (if ip == grant.ip then 1 else 0)
  {
    forall ip ensures |From(grants + {grant}, ip)| == |From(grants, ip)| + (if ip == grant.ip then 1 else 0) {
      if ip == grant.ip {
        assert From(grants + {grant}, ip) == From(grants, ip) + {grant};
      } else {
        assert From(grants + {grant}, ip) == From(grants, ip);
      }
    }
  }

  // The sum of the values of a map.
  ghost function Total(m: map<string, int>): int
    decreases |m|
  {
    if m == map[] then 0
    else
      var k :| k in m;
      m[k] + Total(m - {k})
  }

  lemma {:induction false} TotalWithout(m: map<string, int>, k: string)
    requires k in m
    ensures Total(m) == m[k] + Total(m - {k})
    decreases |m|
  {
    var first :| first in m && Total(m) == m[first] + Total(m - {first});
    if first != k {
      TotalWithout(m - {first}, k);
      TotalWithout(m - {k}, first);
      assert m - {first} - {k} == m - {k} - {first};
    }
  }

  function Lookup(m: map<string, int>, k: string): int {
    if k in m then m[k] else 0
  }

  lemma TotalUpdate(m: map<string, int>, k: string, v: int)
    ensures Total(m[k := v]) == Total(m) - Lookup(m, k) + v
  {
    TotalWithout(m[k := v], k);
    if k in m {
      TotalWithout(m, k);
      assert m[k := v] - {k} == m - {k};
    } else {
      assert m[k := v] - {k} == m;
    }
  }

  // One connection less from k: its counter goes down by one, and goes away at zero.
  lemma OneLess(m: map<string, int>, k: string)
    requires k in m
    ensures var less := m[k := m[k] - 1];
            var rest := if less[k] == 0 then less - {k} else less;
            && Total(rest) == Total(m) - 1
            && Lookup(rest, k) == m[k] - 1
            && (forall other :: other != k ==> Lookup(rest, other) == Lookup(m, other))
  {
    var less := m[k := m[k] - 1];
    TotalUpdate(m, k, m[k] - 1);
    TotalWithout(less, k);
  }

  class ConnectionGate {
    const maxConnections: int
    const maxConnectionsPerIP: int
    var connections: int
    var connectionsIP: map<string, int>
    ghost var open: set<Grant>

    /** In every state between calls: the counter is the number of unreleased grants and the sum of the
        per-address counters, each of which is positive and counts the unreleased grants of its
        address; and both caps hold where they are set. */
    ghost predicate Valid()
      reads this, open
    {
      && connections == |open| == Total(connectionsIP)
      && (forall g :: g in open ==> !g.released)
      && (forall ip :: Lookup(connectionsIP, ip) == |From(open, ip)|)
      && (forall ip :: ip in connectionsIP ==> connectionsIP[ip] > 0)
      && (maxConnections > 0 ==> connections <= maxConnections)
      && (maxConnectionsPerIP > 0 ==> forall ip :: ip in connectionsIP ==> connectionsIP[ip] <= maxConnectionsPerIP)
    }

    constructor (maxConnections: int, maxConnectionsPerIP: int)
      ensures Valid() && open == {}
      ensures this.maxConnections == maxConnections && this.maxConnectionsPerIP == maxConnectionsPerIP
    {
      this.maxConnections, this.maxConnectionsPerIP := maxConnections, maxConnectionsPerIP;
      connections, connectionsIP, open := 0, map[], {};
    }

    method AcquireConnection(ip: string) returns (grant: Grant?)
      requires Valid()
      modifies this
      ensures Valid()
      ensures grant == null <==>
                || (maxConnections > 0 && |old(open)| >= maxConnections)
                || (maxConnectionsPerIP > 0 && |From(old(open), ip)| >= maxConnectionsPerIP)
      ensures grant == null ==> open == old(open) && connectionsIP == old(connectionsIP)
      ensures grant != null ==> fresh(grant) && grant.ip == ip && open == old(open) + {grant}
    {
      if maxConnections > 0 && connections >= maxConnections {
        return null;
      }
      var used := if ip in connectionsIP then connectionsIP[ip] else 0;
      if maxConnectionsPerIP > 0 && used >= maxConnectionsPerIP {
        return null;
      }
      grant := new Grant(ip);
      TotalUpdate(connectionsIP, ip, used + 1);
      connections := connections + 1;
      connectionsIP := connectionsIP[ip := used + 1];
      FromPlus(open, grant);
      open := open + {grant};
    }

    // Any number of calls of one release closure count as one.
    method Release(grant: Grant)
      requires Valid()
      requires grant.released || grant in open
      modifies this, grant
      ensures Valid() && grant.released
      ensures open == old(open) - {grant}
      ensures old(grant.released) ==> connections == old(connections) && connectionsIP == old(connectionsIP)
    {
      if grant.released {
        return;
      }
      ghost var rest := open - {grant};
      FromPlus(rest, grant);
      assert rest + {grant} == open && Lookup(connectionsIP, grant.ip) > 0;
      grant.released := true;
      var ip := grant.ip;
      connections := connections - 1;
      OneLess(connectionsIP, ip);
      connectionsIP := connectionsIP[ip := connectionsIP[ip] - 1];
      if connectionsIP[ip] == 0 {
        connectionsIP := connectionsIP - {ip};
      }
      open := rest;
    }
  }

  // ------------------------------------------------------------------ danmaku and likes

  datatype Reason = None | User | Room

  function UserKey(room: Key, user: Key): Key {
    room + [0] + user
  }

  // The second pair is the first with the bytes `mid` and a NUL moved from the user to the room.
  predicate Shifted(room: Key, user: Key, room': Key, user': Key, mid: Key) {
    room' == room + [0] + mid && user == mid + [0] + user'
  }

  // Equal keys whose first room is the shorter one.
  lemma EqualKeysShift(room: Key, user: Key, room': Key, user': Key) returns (mid: Key)
    requires UserKey(room, user) == UserKey(room', user') && |room| < |room'|
    ensures Shifted(room, user, room', user', mid)
  {
    var key := UserKey(room, user);
    mid := room'[|room| + 1..];
    assert key[..|room'|] == room' && key[..|room|] == room && key[|room|] == 0 && key[|room'|] == 0;
    assert room' == room'[..|room|] + [room'[|room|]] + mid;
    assert room'[..|room|] == key[..|room|] && room'[|room|] == key[|room|];
    assert user == key[|room| + 1..] && user' == key[|room'| + 1..];
    assert key[|room| + 1..|room'|] == mid;
    assert user == key[|room| + 1..|room'|] + [key[|room'|]] + key[|room'| + 1..];
  }

  lemma ShiftedMeet(room: Key, user: Key, room': Key, user': Key, mid: Key)
    requires Shifted(room, user, room', user', mid)
    ensures UserKey(room, user) == UserKey(room', user')
    ensures |room| < |room'| && room'[|room|] == 0 && user[|mid|] == 0
  {
    assert room + [0] + (mid + [0] + user') == room + [0] + mid + [0] + user';
  }

  /** Two different pairs of room and user share a bucket exactly if one arises from the other by moving
      bytes that end in a NUL from the user to the room. */
  lemma PairsMeetIff(room: Key, user: Key, room': Key, user': Key)
    ensures UserKey(room, user) == UserKey(room', user') && (room != room' || user != user') <==>
            || (exists mid :: Shifted(room, user, room', user', mid))
            || (exists mid :: Shifted(room', user', room, user, mid))
  {
    if UserKey(room, user) == UserKey(room', user') {
      if |room| < |room'| {
        var mid := EqualKeysShift(room, user, room', user');
      } else if |room'| < |room| {
        var mid := EqualKeysShift(room', user', room, user);
      } else {
        var key := UserKey(room, user);
        assert room == key[..|room|] && room' == key[..|room'|];
        assert user == key[|room| + 1..] && user' == key[|room'| + 1..];
      }
    }
    if mid :| Shifted(room, user, room', user', mid) {
      ShiftedMeet(room, user, room', user', mid);
    }
    if mid :| Shifted(room', user', room, user, mid) {
      ShiftedMeet(room', user', room, user, mid);
    }
  }

  ghost predicate Meets(room: Key, user: Key, room': Key, user': Key) {
    (room != room' || user != user') && UserKey(room, user) == UserKey(room', user')
  }

  /** A user of a room shares the bucket with somebody else's exactly if the room id or the user id holds a
      NUL byte. */
  lemma UserKeyIsSharedIff(room: Key, user: Key)
    ensures (exists room', user' :: Meets(room, user, room', user')) <==> 0 in room || 0 in user
  {
    if i :| 0 <= i < |user| && user[i] == 0 {
      ShiftedMeet(room, user, room + [0] + user[..i], user[i + 1..], user[..i]);
      assert user == user[..i] + [0] + user[i + 1..];
      assert Meets(room, user, room + [0] + user[..i], user[i + 1..]);
    } else if i :| 0 <= i < |room| && room[i] == 0 {
      var mid := room[i + 1..];
      assert room == room[..i] + [0] + mid;
      ShiftedMeet(room[..i], mid + [0] + user, room, user, mid);
      assert Meets(room, user, room[..i], mid + [0] + user);
    }
    if room', user' :| Meets(room, user, room', user') {
      PairsMeetIff(room, user, room', user');
      if mid :| Shifted(room, user, room', user', mid) {
        ShiftedMeet(room, user, room', user', mid);
      } else {
        var mid :| Shifted(room', user', room, user, mid);
        ShiftedMeet(room', user', room, user, mid);
      }
    }
  }

  // Such a pair: the NUL in the user id is enough, whatever the room.
  lemma UserKeysCanMeet()
    ensures UserKey([1], [2, 0, 3]) == UserKey([1, 0, 2], [3])
  {
    assert UserKey([1], [2, 0, 3]) == [1, 0, 2, 0, 3] == UserKey([1, 0, 2], [3]);
  }

  /** So keys of different pairs differ when no room id, or no user id, holds a NUL byte. */
  lemma UserKeysDiffer(room: Key, user: Key, room': Key, user': Key)
    requires (0 !in room && 0 !in room') || (0 !in user && 0 !in user')
    requires UserKey(room, user) == UserKey(room', user')
    ensures room == room' && user == user'
  {
    PairsMeetIff(room, user, room', user');
    if mid :| Shifted(room, user, room', user', mid) {
      ShiftedMeet(room, user, room', user', mid);
    } else if mid :| Shifted(room', user', room, user, mid) {
      ShiftedMeet(room', user', room, user, mid);
    }
  }

  /** AllowDanmaku and AllowLike: the user's bucket is asked first, and only a call that it allows
      reaches the room's bucket; a call refused by the room has used a token of the user. */
  method AllowMessage(users: KeyedLimiter, rooms: KeyedLimiter, room: Key, user: Key, now: real)
    returns (allowed: bool, reason: Reason)
    requires users.shards.Length == SHARD_COUNT == rooms.shards.Length && users.shards != rooms.shards
    modifies users.shards, rooms.shards
    ensures var (users', byUser) := AllowStep(users.rate, users.idleTTL, Fnv, old(users.shards[..]),
            Call(UserKey(room, user), now));
            var (rooms', byRoom) := AllowStep(rooms.rate, rooms.idleTTL, Fnv, old(rooms.shards[..]), Call(room, now));
            && users.shards[..] == users'
            && rooms.shards[..] == (if byUser then rooms' else old(rooms.shards[..]))
            && allowed == (byUser && byRoom)
            && reason == (if !byUser then User else if !byRoom then Room else None)
  {
    var byUser := users.Allow(UserKey(room, user), now);
    if !byUser {
      return false, User;
    }
    var byRoom := rooms.Allow(room, now);
    if !byRoom {
      return false, Room;
    }
    return true, None;
  }
}
