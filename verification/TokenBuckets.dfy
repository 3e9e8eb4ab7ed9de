/** The keyed rate limiter of v10/internal/ratelimit/controller.go: sharded maps of token buckets that
    are refilled lazily and dropped when idle. Time is in seconds; tokens are exact reals. */
module TokenBuckets {
  import opened Wrappers

  type Key = seq<bv8>

  datatype Rate = Rate(perSecond: real, burst: int) {
    predicate Enabled() { perSecond > 0.0 && burst > 0 }
  }

  datatype Bucket = Bucket(tokens: real, lastRefill: real, lastSeen: real)
  datatype Shard = Shard(buckets: map<Key, Bucket>, lastCleanup: Option<real>)

  const SHARD_COUNT: nat := 64

  // ------------------------------------------------------------------ one call

  // The cleanup pass: what is left of the buckets.
  function Sweep(buckets: map<Key, Bucket>, now: real, idleTTL: real): map<Key, Bucket> {
    map k | k in buckets && now - buckets[k].lastSeen < idleTTL :: buckets[k]
  }

  predicate CleanupDue(shard: Shard, now: real, idleTTL: real) {
    shard.lastCleanup.None? || now - shard.lastCleanup.value >= idleTTL
  }

  function Cleaned(shard: Shard, now: real, idleTTL: real): Shard {
    if CleanupDue(shard, now, idleTTL) then Shard(Sweep(shard.buckets, now, idleTTL), Some(now)) else shard
  }

  function Cap(tokens: real, burst: int): real {
    if tokens > burst as real then burst as real else tokens
  }

  // Tokens gained from `from` to `now`.
  function Gain(rate: Rate, from: real, now: real): real {
    (now - from) * rate.perSecond
  }

  function Refilled(rate: Rate, bucket: Bucket, now: real): Bucket {
    if now - bucket.lastRefill > 0.0
    then Bucket(Cap(bucket.tokens + Gain(rate, bucket.lastRefill, now), rate.burst), now, now)
    else bucket.(lastSeen := now)
  }

  function Found(rate: Rate, shard: Shard, key: Key, now: real): Bucket {
    if key in shard.buckets then shard.buckets[key] else Bucket(rate.burst as real, now, now)
  }

  // One call of Allow on the shard that owns the key.
  function Serve(rate: Rate, idleTTL: real, shard: Shard, key: Key, now: real): (Shard, bool) {
    var clean := Cleaned(shard, now, idleTTL);
    var bucket := Refilled(rate, Found(rate, clean, key, now), now);
    if bucket.tokens < 1.0
    then (clean.(buckets := clean.buckets[key := bucket]), false)
    else (clean.(buckets := clean.buckets[key := bucket.(tokens := bucket.tokens - 1.0)]), true)
  }

  // ------------------------------------------------------------------ the program

  // FNV-1a over the bytes of the key, modulo 2^32.
  function Mix(hash: nat, b: bv8): nat {
    var low := ((hash % 256) as bv8 ^ b) as nat;
    ((hash - hash % 256 + low) * 16777619) % 0x1_0000_0000
  }

  function Fnv(key: Key): nat {
    if key == [] then 2166136261 else Mix(Fnv(key[..|key| - 1]), key[|key| - 1])
  }

  // The offset basis and the prime of 32-bit FNV-1a.
  lemma FnvConstants()
    ensures Fnv([]) == 0x811C9DC5 && Mix(0, 1) == 0x0100_0193 && Mix(1, 1) == 0
  {
    assert 0 as bv8 ^ 1 == 1 && 1 as bv8 ^ 1 == 0;
  }

  method HashKey(key: Key) returns (index: nat)
    ensures index == Fnv(key) % SHARD_COUNT < SHARD_COUNT
  {
    var hash := 2166136261;
    for i := 0 to |key|
      invariant hash == Fnv(key[..i])
    {
      assert key[..i + 1][..i] == key[..i];
      hash := Mix(hash, key[i]);
    }
    assert key[..|key|] == key;
    index := hash % SHARD_COUNT;
  }

  class KeyedLimiter {
    const rate: Rate
    const idleTTL: real
    const shards: array<Shard>

    constructor (rate: Rate, idleTTL: real)
      ensures this.rate == rate && this.idleTTL == idleTTL && fresh(shards)
      ensures shards[..] == EmptyShards()
    {
      this.rate, this.idleTTL := rate, idleTTL;
      shards := new Shard[SHARD_COUNT](_ => Shard(map[], None));
      new;
      assert shards[..] == EmptyShards();
    }

    /** Allow, at time `now`: the owning shard takes exactly one `Serve`, and no other shard changes. */
    method Allow(key: Key, now: real) returns (allowed: bool)
      requires shards.Length == SHARD_COUNT
      modifies shards
      ensures (shards[..], allowed) == AllowStep(rate, idleTTL, Fnv, old(shards[..]), Call(key, now))
    {
      if rate.perSecond <= 0.0 || rate.burst <= 0 {
        return true;
      }
      var index := HashKey(key);
      var shard := shards[index];
      if shard.lastCleanup.None? || now - shard.lastCleanup.value >= idleTTL {
        var kept := RemoveIdle(shard.buckets, now);
        shard := Shard(kept, Some(now));
      }
      ghost var clean := shard;
      assert clean == Cleaned(shards[index], now, idleTTL);

      if key !in shard.buckets {
        shard := shard.(buckets := shard.buckets[key := Bucket(rate.burst as real, now, now)]);
      }
      var bucket := shard.buckets[key];
      assert bucket == Found(rate, clean, key, now);
      bucket := Refill(bucket, now);
      allowed := !(bucket.tokens < 1.0);
      if allowed {
        bucket := bucket.(tokens := bucket.tokens - 1.0);
      }
      shard := shard.(buckets := shard.buckets[key := bucket]);
      assert shard.buckets == clean.buckets[key := bucket];
      assert (shard, allowed) == Serve(rate, idleTTL, shards[index], key, now);
      shards[index] := shard;
    }

    // The lazy refill of one bucket.
    method Refill(bucket: Bucket, now: real) returns (refilled: Bucket)
      ensures refilled == Refilled(rate, bucket, now)
    {
      refilled := bucket;
      var elapsed := now - refilled.lastRefill;
      if elapsed > 0.0 {
        assert elapsed * rate.perSecond == Gain(rate, bucket.lastRefill, now);
        refilled := refilled.(tokens := refilled.tokens + elapsed * rate.perSecond);
        if refilled.tokens > rate.burst as real {
          refilled := refilled.(tokens := rate.burst as real);
        }
        refilled := refilled.(lastRefill := now);
      }
      refilled := refilled.(lastSeen := now);
    }

    // The cleanup loop visits the buckets in any order and deletes the idle ones.
    method RemoveIdle(buckets: map<Key, Bucket>, now: real) returns (kept: map<Key, Bucket>)
      ensures kept == Sweep(buckets, now, idleTTL)
    {
      kept := buckets;
      var todo := buckets.Keys;
      while todo != {}
        invariant todo <= buckets.Keys
        invariant kept.Keys <= buckets.Keys
        invariant forall k :: k in kept <==> k in buckets && (k in todo || now - buckets[k].lastSeen < idleTTL)
        invariant forall k :: k in kept ==> kept[k] == buckets[k]
        decreases |todo|
      {
        var k :| k in todo;
        todo := todo - {k};
        if now - buckets[k].lastSeen >= idleTTL {
          kept := kept - {k};
        }
      }
    }
  }

  // ------------------------------------------------------------------ runs

  datatype Call = Call(key: Key, now: real)

  function EmptyShards(): seq<Shard> {
    seq(SHARD_COUNT, _ => Shard(map[], None))
  }

  function AllowStep(rate: Rate, idleTTL: real, hash: Key -> nat, shards: seq<Shard>, call: Call): (seq<Shard>, bool)
    requires |shards| == SHARD_COUNT
  {
    if !rate.Enabled() then (shards, true)
    else
      var index := hash(call.key) % SHARD_COUNT;
      var (shard, allowed) := Serve(rate, idleTTL, shards[index], call.key, call.now);
      (shards[index := shard], allowed)
  }

  // The shards and the answers after a run of calls, for any hash function.
  function Sharded(rate: Rate, idleTTL: real, hash: Key -> nat, calls: seq<Call>): (r: (seq<Shard>, seq<bool>))
    ensures |r.0| == SHARD_COUNT && |r.1| == |calls|
  {
    if calls == [] then (EmptyShards(), [])
    else
      var (shards, answers) := Sharded(rate, idleTTL, hash, calls[..|calls| - 1]);
      var (shards', allowed) := AllowStep(rate, idleTTL, hash, shards, calls[|calls| - 1]);
      (shards', answers + [allowed])
  }

  // The clock of a run never goes back.
  ghost predicate Chronological(calls: seq<Call>) {
    forall i, j :: 0 <= i <= j < |calls| ==> calls[i].now <= calls[j].now
  }

  // ------------------------------------------------------------------ what is kept

  // The last cleanup has left no bucket that was idle for idleTTL then, and nothing is from the future.
  ghost predicate Fresh(shard: Shard, idleTTL: real, now: real) {
    match shard.lastCleanup
    case None => shard.buckets == map[]
    case Some(cleaned) =>
      cleaned <= now && forall k :: k in shard.buckets ==> cleaned - idleTTL < shard.buckets[k].lastSeen <= now
  }

  lemma ServeKeepsFresh(rate: Rate, idleTTL: real, shard: Shard, key: Key, before: real, now: real)
    requires idleTTL > 0.0 && before <= now && Fresh(shard, idleTTL, before)
    ensures Fresh(Serve(rate, idleTTL, shard, key, now).0, idleTTL, now)
    ensures Serve(rate, idleTTL, shard, key, now).0.lastCleanup.Some?
    ensures now - Serve(rate, idleTTL, shard, key, now).0.lastCleanup.value < idleTTL
  {
  }

  lemma {:induction false} ShardsStayFresh(rate: Rate, idleTTL: real, hash: Key -> nat, calls: seq<Call>, now: real)
    requires idleTTL > 0.0 && Chronological(calls) && (calls != [] ==> calls[|calls| - 1].now == now)
    ensures forall i :: 0 <= i < SHARD_COUNT ==> Fresh(Sharded(rate, idleTTL, hash, calls).0[i], idleTTL, now)
    decreases |calls|
  {
    if calls != [] {
      var init, call := calls[..|calls| - 1], calls[|calls| - 1];
      var before := if init == [] then now else init[|init| - 1].now;
      ShardsStayFresh(rate, idleTTL, hash, init, before);
      ServeKeepsFresh(rate, idleTTL, Sharded(rate, idleTTL, hash, init).0[hash(call.key) % SHARD_COUNT], call.key,
                      before, now);
    }
  }

  /** Idle buckets go away: after a call on an enabled limiter no bucket of the shard it went to has been idle for
      twice idleTTL. */
  lemma {:induction false} IdleBucketsGo(rate: Rate, idleTTL: real, hash: Key -> nat, calls: seq<Call>, k: Key)
    requires rate.perSecond > 0.0 && rate.burst > 0 && idleTTL > 0.0 && Chronological(calls) && calls != []
    ensures var call := calls[|calls| - 1];
            var buckets := Sharded(rate, idleTTL, hash, calls).0[hash(call.key) % SHARD_COUNT].buckets;
            k in buckets ==> call.now - buckets[k].lastSeen < 2.0 * idleTTL
  {
    var init, call := calls[..|calls| - 1], calls[|calls| - 1];
    var before := if init == [] then call.now else init[|init| - 1].now;
    ShardsStayFresh(rate, idleTTL, hash, init, before);
    ServeKeepsFresh(rate, idleTTL, Sharded(rate, idleTTL, hash, init).0[hash(call.key) % SHARD_COUNT], call.key,
                    before, call.now);
  }

  // ------------------------------------------------------------------ the ideal limiter

  /** One token bucket per key, kept for ever: full before its first call. */
  datatype Level = Level(tokens: real, at: real)

  function LevelAt(rate: Rate, level: Level, now: real): real {
    if now > level.at then Cap(level.tokens + Gain(rate, level.at, now), rate.burst) else level.tokens
  }

  function Available(rate: Rate, levels: map<Key, Level>, call: Call): real {
    if call.key in levels then LevelAt(rate, levels[call.key], call.now) else rate.burst as real
  }

  function IdealStep(rate: Rate, levels: map<Key, Level>, call: Call): (map<Key, Level>, bool) {
    if !rate.Enabled() then (levels, true)
    else
      var tokens := Available(rate, levels, call);
      if tokens < 1.0 then (levels[call.key := Level(tokens, call.now)], false)
      else (levels[call.key := Level(tokens - 1.0, call.now)], true)
  }

  function Ideal(rate: Rate, calls: seq<Call>): (r: (map<Key, Level>, seq<bool>))
    ensures |r.1| == |calls|
  {
    if calls == [] then (map[], [])
    else
      var (levels, answers) := Ideal(rate, calls[..|calls| - 1]);
      var (levels', allowed) := IdealStep(rate, levels, calls[|calls| - 1]);
      (levels', answers + [allowed])
  }

  // ------------------------------------------------------------------ the cache agrees with the ideal

  // No call is later than `now`, and levels are between empty and full.
  ghost predicate Sound(rate: Rate, levels: map<Key, Level>, now: real) {
    forall k :: k in levels ==> levels[k].at <= now && 0.0 <= levels[k].tokens <= rate.burst as real
  }

  // A bucket that was dropped would be full again by now.
  ghost predicate FullAgain(rate: Rate, level: Level, now: real) {
    level.at < now && level.tokens + Gain(rate, level.at, now) >= rate.burst as real
  }

  ghost predicate MatchesAt(rate: Rate, shard: Shard, levels: map<Key, Level>, now: real, k: Key) {
    if k in shard.buckets
    then k in levels && levels[k] == Level(shard.buckets[k].tokens, shard.buckets[k].lastRefill)
         && shard.buckets[k].lastSeen == shard.buckets[k].lastRefill
    else k in levels ==> FullAgain(rate, levels[k], now)
  }

  ghost predicate Matches(rate: Rate, hash: Key -> nat, shards: seq<Shard>, levels: map<Key, Level>, now: real)
    requires |shards| == SHARD_COUNT
  {
    && Sound(rate, levels, now)
    && forall k :: MatchesAt(rate, shards[hash(k) % SHARD_COUNT], levels, now, k)
  }

  lemma NonNegative(x: real, y: real)
    requires x >= 0.0 && y >= 0.0
    ensures x * y >= 0.0
  {
  }

  lemma Distributes(x: real, a: real, b: real)
    ensures x * (a - b) == x * a - x * b == (a - b) * x
  {
  }

  lemma GainBetween(rate: Rate, a: real, b: real)
    requires rate.perSecond > 0.0 && a <= b
    ensures Gain(rate, a, b) >= 0.0
  {
    NonNegative(b - a, rate.perSecond);
  }

  lemma GainAdds(rate: Rate, a: real, b: real, c: real)
    ensures Gain(rate, a, c) == Gain(rate, a, b) + Gain(rate, b, c)
  {
    Distributes(rate.perSecond, c, a);
    Distributes(rate.perSecond, b, a);
    Distributes(rate.perSecond, c, b);
  }

  lemma StaysFull(rate: Rate, level: Level, now: real, later: real)
    requires rate.Enabled() && FullAgain(rate, level, now) && now <= later
    ensures FullAgain(rate, level, later)
  {
    GainAdds(rate, level.at, now, later);
    GainBetween(rate, now, later);
  }

  // An idle bucket has had the time to fill up.
  lemma IdleIsFull(rate: Rate, idleTTL: real, level: Level, now: real)
    requires rate.Enabled() && Gain(rate, 0.0, idleTTL) >= rate.burst as real
    requires now - level.at >= idleTTL && level.tokens >= 0.0
    ensures FullAgain(rate, level, now)
  {
    var full := level.at + idleTTL;
    GainAdds(rate, level.at, full, now);
    GainBetween(rate, full, now);
    GainShifts(rate, level.at, idleTTL);
    if now <= level.at {
      GainAdds(rate, 0.0, idleTTL, 0.0);
      GainBetween(rate, idleTTL, 0.0);
    }
  }

  lemma GainShifts(rate: Rate, a: real, d: real)
    ensures Gain(rate, a, a + d) == Gain(rate, 0.0, d) == d * rate.perSecond
    ensures Gain(rate, a, a) == 0.0
  {
    assert a + d - a == d == d - 0.0;
    assert a - a == 0.0;
  }

  lemma LevelBounds(rate: Rate, level: Level, now: real)
    requires rate.Enabled() && 0.0 <= level.tokens <= rate.burst as real
    ensures 0.0 <= LevelAt(rate, level, now) <= rate.burst as real
  {
    if now > level.at {
      GainBetween(rate, level.at, now);
    }
  }

  // The cleanup pass keeps the match, and so does the passing of time.
  lemma CleanupMatches(rate: Rate, idleTTL: real, shard: Shard, levels: map<Key, Level>, before: real, now: real,
                       k: Key)
    requires rate.Enabled() && Gain(rate, 0.0, idleTTL) >= rate.burst as real
    requires Sound(rate, levels, before) && before <= now
    requires MatchesAt(rate, shard, levels, before, k)
    ensures MatchesAt(rate, Cleaned(shard, now, idleTTL), levels, now, k)
    ensures MatchesAt(rate, shard, levels, now, k)
  {
    if k in shard.buckets {
      if k !in Cleaned(shard, now, idleTTL).buckets {
        IdleIsFull(rate, idleTTL, levels[k], now);
      }
    } else if k in levels {
      StaysFull(rate, levels[k], before, now);
    }
  }

  // A call finds in the cleaned shard as many tokens as the ideal limiter has.
  lemma SameTokens(rate: Rate, shard: Shard, levels: map<Key, Level>, call: Call)
    requires rate.Enabled() && Sound(rate, levels, call.now)
    requires MatchesAt(rate, shard, levels, call.now, call.key)
    ensures var bucket := Refilled(rate, Found(rate, shard, call.key, call.now), call.now);
            bucket == Bucket(Available(rate, levels, call), call.now, call.now)
  {
  }

  lemma StepMatches(rate: Rate, idleTTL: real, hash: Key -> nat, shards: seq<Shard>, levels: map<Key, Level>,
                    before: real, call: Call)
    requires rate.Enabled() && Gain(rate, 0.0, idleTTL) >= rate.burst as real
    requires |shards| == SHARD_COUNT && before <= call.now
    requires Matches(rate, hash, shards, levels, before)
    ensures AllowStep(rate, idleTTL, hash, shards, call).1 == IdealStep(rate, levels, call).1
    ensures Matches(rate, hash, AllowStep(rate, idleTTL, hash, shards, call).0,
            IdealStep(rate, levels, call).0, call.now)
  {
    var index := hash(call.key) % SHARD_COUNT;
    var clean := Cleaned(shards[index], call.now, idleTTL);
    CleanupMatches(rate, idleTTL, shards[index], levels, before, call.now, call.key);
    SameTokens(rate, clean, levels, call);
    if call.key in levels {
      LevelBounds(rate, levels[call.key], call.now);
    }
    var shards', levels' := AllowStep(rate, idleTTL, hash, shards, call).0, IdealStep(rate, levels, call).0;
    forall k ensures MatchesAt(rate, shards'[hash(k) % SHARD_COUNT], levels', call.now, k) {
      CleanupMatches(rate, idleTTL, shards[hash(k) % SHARD_COUNT], levels, before, call.now, k);
    }
  }

  /** THE EVICTING, SHARDED LIMITER IS INVISIBLE. On every run with a clock that never goes back, for
      every hash function, it answers every call as one bucket per key kept for ever would, when an
      idle bucket has the time to fill up. */
  lemma {:induction false} AnswersAgree(rate: Rate, idleTTL: real, hash: Key -> nat, calls: seq<Call>, now: real)
    requires rate.perSecond > 0.0 && rate.burst > 0 ==> idleTTL * rate.perSecond >= rate.burst as real
    requires Chronological(calls) && (calls != [] ==> calls[|calls| - 1].now == now)
    ensures Sharded(rate, idleTTL, hash, calls).1 == Ideal(rate, calls).1
    ensures rate.Enabled() ==> Matches(rate, hash, Sharded(rate, idleTTL, hash, calls).0, Ideal(rate, calls).0, now)
    decreases |calls|
  {
    GainShifts(rate, 0.0, idleTTL);
    if calls != [] {
      var init, last := calls[..|calls| - 1], calls[|calls| - 1];
      var before := if init == [] then now else init[|init| - 1].now;
      AnswersAgree(rate, idleTTL, hash, init, before);
      if rate.Enabled() {
        StepMatches(rate, idleTTL, hash, Sharded(rate, idleTTL, hash, init).0, Ideal(rate, init).0, before, last);
      }
    }
  }
}
