/** What the rate limiter lets through, said without buckets: the exact arrival curve of every key, and
    the exact condition under which dropping idle buckets cannot be noticed. */
module ArrivalCurve {
  import opened Wrappers
  import opened TokenBuckets

  // How many of the calls [j, n) were on `key` and were allowed.
  function Count(calls: seq<Call>, answers: seq<bool>, key: Key, j: nat, n: nat): nat
    requires j <= n <= |calls| && |answers| == |calls|
  {
    if j == n then 0
    else Count(calls, answers, key, j, n - 1) + (if calls[n - 1].key == key && answers[n - 1] then 1 else 0)
  }

  // Counted from call j on, one more allowed call stays within the burst and what was refilled since.
  ghost predicate FitsSince(rate: Rate, calls: seq<Call>, answers: seq<bool>, n: nat, j: nat)
    requires j <= n < |calls| == |answers|
  {
    Count(calls, answers, calls[n].key, j, n) as real + 1.0
      <= rate.burst as real + (calls[n].now - calls[j].now) * rate.perSecond
  }

  ghost predicate Fits(rate: Rate, calls: seq<Call>, answers: seq<bool>, n: nat)
    requires n < |calls| == |answers|
  {
    forall j: nat :: j <= n && calls[j].key == calls[n].key ==> FitsSince(rate, calls, answers, n, j)
  }

  // ------------------------------------------------------------------ token time

  /* The proofs measure time in tokens: the reading of that clock at t is what has been refilled since
     time 0. A bucket then gains one token per unit of time. */

  function InTokens(rate: Rate, calls: seq<Call>): seq<Call> {
    seq(|calls|, i requires 0 <= i < |calls| => Call(calls[i].key, Gain(rate, 0.0, calls[i].now)))
  }

  function UnitTokens(burst: int, levels: map<Key, Level>, call: Call): real {
    if call.key in levels
    then Cap(levels[call.key].tokens + (call.now - levels[call.key].at), burst)
    else burst as real
  }

  function UnitStep(burst: int, levels: map<Key, Level>, call: Call): (map<Key, Level>, bool) {
    var tokens := UnitTokens(burst, levels, call);
    if tokens < 1.0 then (levels[call.key := Level(tokens, call.now)], false)
    else (levels[call.key := Level(tokens - 1.0, call.now)], true)
  }

  function Unit(burst: int, calls: seq<Call>): (r: (map<Key, Level>, seq<bool>))
    ensures |r.1| == |calls|
  {
    if calls == [] then (map[], [])
    else
      var (levels, answers) := Unit(burst, calls[..|calls| - 1]);
      var (levels', allowed) := UnitStep(burst, levels, calls[|calls| - 1]);
      (levels', answers + [allowed])
  }

  ghost predicate SameLevel(rate: Rate, level: Level, unit: Level) {
    unit == Level(level.tokens, Gain(rate, 0.0, level.at)) && level.tokens <= rate.burst as real
  }

  ghost predicate SameLevels(rate: Rate, levels: map<Key, Level>, units: map<Key, Level>, now: real) {
    && levels.Keys == units.Keys
    && forall k :: k in levels ==> SameLevel(rate, levels[k], units[k]) && levels[k].at <= now
  }

  lemma SameAvailable(rate: Rate, level: Level, unit: Level, now: real)
    requires rate.Enabled() && SameLevel(rate, level, unit) && level.at <= now
    ensures LevelAt(rate, level, now) == Cap(unit.tokens + (Gain(rate, 0.0, now) - unit.at), rate.burst)
  {
    GainAdds(rate, 0.0, level.at, now);
    GainShifts(rate, level.at, 0.0);
  }

  lemma InTokensOneMore(rate: Rate, calls: seq<Call>)
    requires calls != []
    ensures |InTokens(rate, calls)| == |calls|
    ensures InTokens(rate, calls)[..|calls| - 1] == InTokens(rate, calls[..|calls| - 1])
  {
  }

  lemma {:induction false} TokenTimeAgrees(rate: Rate, calls: seq<Call>, now: real)
    requires rate.Enabled() && Chronological(calls) && (calls != [] ==> calls[|calls| - 1].now == now)
    ensures Unit(rate.burst, InTokens(rate, calls)).1 == Ideal(rate, calls).1
    ensures SameLevels(rate, Ideal(rate, calls).0, Unit(rate.burst, InTokens(rate, calls)).0, now)
    decreases |calls|
  {
    if calls != [] {
      var init, call := calls[..|calls| - 1], calls[|calls| - 1];
      var before := if init == [] then now else init[|init| - 1].now;
      TokenTimeAgrees(rate, init, before);
      InTokensOneMore(rate, calls);
      var levels, units := Ideal(rate, init).0, Unit(rate.burst, InTokens(rate, init)).0;
      if call.key in levels {
        SameAvailable(rate, levels[call.key], units[call.key], now);
      }
      assert Available(rate, levels, call) == UnitTokens(rate.burst, units, InTokens(rate, calls)[|calls| - 1]);
    }
  }

  lemma {:induction false} CountInTokens(rate: Rate, calls: seq<Call>, answers: seq<bool>, key: Key, j: nat, n: nat)
    requires j <= n <= |calls| == |answers|
    ensures Count(InTokens(rate, calls), answers, key, j, n) == Count(calls, answers, key, j, n)
    decreases n
  {
    if j < n {
      CountInTokens(rate, calls, answers, key, j, n - 1);
    }
  }

  // ------------------------------------------------------------------ the curve of one unit bucket

  lemma {:induction false} CountPrefix(calls: seq<Call>, answers: seq<bool>, key: Key, j: nat, n: nat, m: nat)
    requires j <= n <= m <= |calls| && |answers| == |calls|
    ensures Count(calls[..m], answers[..m], key, j, n) == Count(calls, answers, key, j, n)
    decreases n
  {
    if j < n {
      CountPrefix(calls, answers, key, j, n - 1, m);
    }
  }

  // The burst and the refill since call j, less what was let through since call j.
  function Line(burst: int, calls: seq<Call>, answers: seq<bool>, key: Key, j: nat, at: real): real
    requires j < |calls| && |answers| == |calls|
  {
    burst as real + (at - calls[j].now) - Count(calls, answers, key, j, |calls|) as real
  }

  // The level of a key is the least of the lines that its calls start.
  ghost predicate OnCurve(burst: int, calls: seq<Call>, answers: seq<bool>, key: Key, level: Level)
    requires |answers| == |calls|
  {
    && (forall j: nat :: j < |calls| && calls[j].key == key ==>
          level.tokens <= Line(burst, calls, answers, key, j, level.at))
    && (exists j: nat :: j < |calls| && calls[j].key == key &&
          level.tokens == Line(burst, calls, answers, key, j, level.at))
  }

  ghost predicate AllOnCurve(burst: int, calls: seq<Call>, answers: seq<bool>, levels: map<Key, Level>)
    requires |answers| == |calls|
  {
    && (forall j: nat :: j < |calls| ==> calls[j].key in levels)
    && (forall k :: k in levels ==> OnCurve(burst, calls, answers, k, levels[k]))
  }

  lemma CountSnoc(calls: seq<Call>, answers: seq<bool>, key: Key, j: nat, call: Call, allowed: bool)
    requires j <= |calls| == |answers|
    ensures Count(calls + [call], answers + [allowed], key, j, |calls|) == Count(calls, answers, key, j, |calls|)
    ensures Count(calls + [call], answers + [allowed], key, j, |calls| + 1)
         == Count(calls, answers, key, j, |calls|) + (if call.key == key && allowed then 1 else 0)
  {
    var more, all := calls + [call], answers + [allowed];
    CountPrefix(more, all, key, j, |calls|, |calls|);
    assert more[..|calls|] == calls && all[..|calls|] == answers;
  }

  // A key that was not called keeps its curve.
  lemma OtherKeyOnCurve(burst: int, calls: seq<Call>, answers: seq<bool>, key: Key, level: Level, call: Call,
                        allowed: bool)
    requires |answers| == |calls| && call.key != key
    requires OnCurve(burst, calls, answers, key, level)
    ensures OnCurve(burst, calls + [call], answers + [allowed], key, level)
  {
    var more, all := calls + [call], answers + [allowed];
    forall j: nat | j < |calls|
      ensures Line(burst, more, all, key, j, level.at) == Line(burst, calls, answers, key, j, level.at)
    {
      CountSnoc(calls, answers, key, j, call, allowed);
    }
    var j: nat :| j < |calls| && calls[j].key == key && level.tokens == Line(burst, calls, answers, key, j, level.at);
    assert more[j].key == key;
  }

  // The tokens a call finds are below every line of its key at its own time ...
  lemma TokensBelow(burst: int, calls: seq<Call>, answers: seq<bool>, levels: map<Key, Level>, call: Call, j: nat)
    requires |answers| == |calls|
    requires call.key in levels && OnCurve(burst, calls, answers, call.key, levels[call.key])
    requires j < |calls| && calls[j].key == call.key
    ensures UnitTokens(burst, levels, call) <= Line(burst, calls, answers, call.key, j, call.now)
  {
    assert levels[call.key].tokens <= Line(burst, calls, answers, call.key, j, levels[call.key].at);
  }

  // ... and, unless the bucket is full, on one of them.
  lemma TokensTouch(burst: int, calls: seq<Call>, answers: seq<bool>, levels: map<Key, Level>, call: Call)
    returns (j: nat)
    requires |answers| == |calls|
    requires call.key in levels && OnCurve(burst, calls, answers, call.key, levels[call.key])
    requires UnitTokens(burst, levels, call) != burst as real
    ensures j < |calls| && calls[j].key == call.key
    ensures UnitTokens(burst, levels, call) == Line(burst, calls, answers, call.key, j, call.now)
  {
    var level := levels[call.key];
    j :| j < |calls| && calls[j].key == call.key && level.tokens == Line(burst, calls, answers, call.key, j, level.at);
  }

  lemma CalledKeyOnCurve(burst: int, calls: seq<Call>, answers: seq<bool>, levels: map<Key, Level>, call: Call)
    requires |answers| == |calls| && AllOnCurve(burst, calls, answers, levels)
    ensures var (levels', allowed) := UnitStep(burst, levels, call);
            OnCurve(burst, calls + [call], answers + [allowed], call.key, levels'[call.key])
  {
    var (levels', allowed) := UnitStep(burst, levels, call);
    var more, all, level := calls + [call], answers + [allowed], levels'[call.key];
    forall j: nat | j < |more| && more[j].key == call.key
      ensures level.tokens <= Line(burst, more, all, call.key, j, level.at)
    {
      CountSnoc(calls, answers, call.key, j, call, allowed);
      if j < |calls| {
        TokensBelow(burst, calls, answers, levels, call, j);
      }
    }
    if UnitTokens(burst, levels, call) == burst as real {
      CountSnoc(calls, answers, call.key, |calls|, call, allowed);
      assert more[|calls|].key == call.key;
    } else {
      var j := TokensTouch(burst, calls, answers, levels, call);
      CountSnoc(calls, answers, call.key, j, call, allowed);
      assert more[j].key == call.key;
    }
  }

  ghost predicate UnitFitsSince(burst: int, calls: seq<Call>, answers: seq<bool>, n: nat, j: nat)
    requires j <= n < |calls| == |answers|
  {
    Count(calls, answers, calls[n].key, j, n) as real + 1.0 <= burst as real + (calls[n].now - calls[j].now)
  }

  ghost predicate UnitFits(burst: int, calls: seq<Call>, answers: seq<bool>, n: nat)
    requires n < |calls| == |answers|
  {
    forall j: nat :: j <= n && calls[j].key == calls[n].key ==> UnitFitsSince(burst, calls, answers, n, j)
  }

  lemma AllowedIffFits(burst: int, calls: seq<Call>, answers: seq<bool>, levels: map<Key, Level>, call: Call)
    requires burst > 0 && |answers| == |calls| && AllOnCurve(burst, calls, answers, levels)
    ensures var allowed := UnitStep(burst, levels, call).1;
            allowed <==> UnitFits(burst, calls + [call], answers + [allowed], |calls|)
  {
    var allowed := UnitStep(burst, levels, call).1;
    var more, all := calls + [call], answers + [allowed];
    if allowed {
      forall j: nat | j <= |calls| && more[j].key == call.key
        ensures UnitFitsSince(burst, more, all, |calls|, j)
      {
        CountSnoc(calls, answers, call.key, j, call, allowed);
        if j < |calls| {
          TokensBelow(burst, calls, answers, levels, call, j);
        }
      }
    } else {
      var j := TokensTouch(burst, calls, answers, levels, call);
      CountSnoc(calls, answers, call.key, j, call, allowed);
      assert more[j].key == more[|calls|].key && !UnitFitsSince(burst, more, all, |calls|, j);
    }
  }

  lemma StepOnCurve(burst: int, calls: seq<Call>, answers: seq<bool>, levels: map<Key, Level>, call: Call)
    requires burst > 0 && |answers| == |calls| && AllOnCurve(burst, calls, answers, levels)
    ensures var (levels', allowed) := UnitStep(burst, levels, call);
            AllOnCurve(burst, calls + [call], answers + [allowed], levels')
  {
    CalledKeyOnCurve(burst, calls, answers, levels, call);
    var (levels', allowed) := UnitStep(burst, levels, call);
    forall k | k in levels' ensures OnCurve(burst, calls + [call], answers + [allowed], k, levels'[k]) {
      if k != call.key {
        OtherKeyOnCurve(burst, calls, answers, k, levels[k], call, allowed);
      }
    }
  }

  lemma UnitSnoc(burst: int, calls: seq<Call>, call: Call)
    ensures var (levels, answers) := Unit(burst, calls);
            var (levels', allowed) := UnitStep(burst, levels, call);
            Unit(burst, calls + [call]) == (levels', answers + [allowed])
  {
    assert (calls + [call])[..|calls|] == calls;
  }

  lemma {:induction false} UnitOnCurve(burst: int, calls: seq<Call>)
    requires burst > 0
    ensures AllOnCurve(burst, calls, Unit(burst, calls).1, Unit(burst, calls).0)
    decreases |calls|
  {
    if calls != [] {
      var init, call := calls[..|calls| - 1], calls[|calls| - 1];
      UnitOnCurve(burst, init);
      assert calls == init + [call];
      UnitSnocOnCurve(burst, init, call);
    }
  }

  lemma UnitSnocOnCurve(burst: int, calls: seq<Call>, call: Call)
    requires burst > 0 && AllOnCurve(burst, calls, Unit(burst, calls).1, Unit(burst, calls).0)
    ensures AllOnCurve(burst, calls + [call], Unit(burst, calls + [call]).1, Unit(burst, calls + [call]).0)
  {
    var (levels, answers) := Unit(burst, calls);
    UnitSnoc(burst, calls, call);
    StepOnCurve(burst, calls, answers, levels, call);
  }

  lemma UnitLastFits(burst: int, init: seq<Call>, call: Call)
    requires burst > 0
    ensures Unit(burst, init + [call]).1[|init|]
            <==> UnitFits(burst, init + [call], Unit(burst, init + [call]).1, |init|)
  {
    UnitOnCurve(burst, init);
    UnitSnoc(burst, init, call);
    AllowedIffFits(burst, init, Unit(burst, init).1, Unit(burst, init).0, call);
  }

  lemma {:induction false} UnitPrefix(burst: int, calls: seq<Call>, n: nat)
    requires n <= |calls|
    ensures Unit(burst, calls[..n]).1 == Unit(burst, calls).1[..n]
    decreases |calls|
  {
    if n < |calls| {
      var init := calls[..|calls| - 1];
      UnitPrefix(burst, init, n);
      assert init[..n] == calls[..n];
    } else {
      assert calls[..n] == calls;
    }
  }

  lemma UnitFitsPrefix(burst: int, calls: seq<Call>, answers: seq<bool>, n: nat)
    requires n < |calls| == |answers|
    ensures UnitFits(burst, calls[..n + 1], answers[..n + 1], n) <==> UnitFits(burst, calls, answers, n)
  {
    var prefix := calls[..n + 1];
    forall j: nat | j <= n
      ensures prefix[j] == calls[j]
      ensures UnitFitsSince(burst, prefix, answers[..n + 1], n, j) <==> UnitFitsSince(burst, calls, answers, n, j)
    {
      CountPrefix(calls, answers, calls[n].key, j, n, n + 1);
    }
    if UnitFits(burst, prefix, answers[..n + 1], n) {
      forall j: nat | j <= n && calls[j].key == calls[n].key ensures UnitFitsSince(burst, calls, answers, n, j) {
        assert prefix[j].key == prefix[n].key;
      }
    }
  }

  lemma UnitArrivalCurve(burst: int, calls: seq<Call>, n: nat)
    requires burst > 0 && n < |calls|
    ensures Unit(burst, calls).1[n] <==> UnitFits(burst, calls, Unit(burst, calls).1, n)
  {
    assert calls[..n + 1] == calls[..n] + [calls[n]];
    UnitLastFits(burst, calls[..n], calls[n]);
    UnitPrefix(burst, calls, n + 1);
    UnitFitsPrefix(burst, calls, Unit(burst, calls).1, n);
  }

  // ------------------------------------------------------------------ the curve of the limiter

  lemma FitsInTokens(rate: Rate, calls: seq<Call>, answers: seq<bool>, n: nat)
    requires n < |calls| == |answers|
    ensures UnitFits(rate.burst, InTokens(rate, calls), answers, n) <==> Fits(rate, calls, answers, n)
  {
    var unit := InTokens(rate, calls);
    forall j: nat | j <= n
      ensures unit[j].key == calls[j].key
      ensures UnitFitsSince(rate.burst, unit, answers, n, j) <==> FitsSince(rate, calls, answers, n, j)
    {
      CountInTokens(rate, calls, answers, calls[n].key, j, n);
      GainAdds(rate, 0.0, calls[j].now, calls[n].now);
    }
    if UnitFits(rate.burst, unit, answers, n) {
      forall j: nat | j <= n && calls[j].key == calls[n].key ensures FitsSince(rate, calls, answers, n, j) {
        assert unit[j].key == unit[n].key;
      }
    }
  }

  /** THE ARRIVAL CURVE, exactly. On every run with a clock that never goes back, a call of the sharded,
      evicting limiter is allowed if and only if, counted from every earlier call on its key and from
      itself, one more allowed call still fits the burst plus what was refilled since. */
  lemma ArrivalCurve(rate: Rate, idleTTL: real, hash: Key -> nat, calls: seq<Call>, n: nat)
    requires rate.perSecond > 0.0 && rate.burst > 0 && idleTTL * rate.perSecond >= rate.burst as real
    requires Chronological(calls) && n < |calls|
    ensures var answers := Sharded(rate, idleTTL, hash, calls).1;
            answers[n] <==> Fits(rate, calls, answers, n)
  {
    AnswersAgree(rate, idleTTL, hash, calls, calls[|calls| - 1].now);
    IdealCurve(rate, calls, n);
  }

  // Buckets that are kept for ever obey the curve whatever the rate.
  lemma {:induction false} IdealCurve(rate: Rate, calls: seq<Call>, n: nat)
    requires rate.perSecond > 0.0 && rate.burst > 0 && Chronological(calls) && n < |calls|
    ensures var answers := Ideal(rate, calls).1;
            answers[n] <==> Fits(rate, calls, answers, n)
  {
    TokenTimeAgrees(rate, calls, calls[|calls| - 1].now);
    UnitArrivalCurve(rate.burst, InTokens(rate, calls), n);
    FitsInTokens(rate, calls, Ideal(rate, calls).1, n);
  }

  // The answers are those of the curve.
  ghost predicate Obeys(rate: Rate, calls: seq<Call>, answers: seq<bool>)
    requires |answers| == |calls|
  {
    forall n: nat :: n < |calls| ==> IsRight(rate, calls, answers, n)
  }

  ghost predicate IsRight(rate: Rate, calls: seq<Call>, answers: seq<bool>, n: nat)
    requires n < |calls| == |answers|
  {
    answers[n] <==> Fits(rate, calls, answers, n)
  }

  predicate SameUpTo(some: seq<bool>, others: seq<bool>, n: nat) {
    n <= |some| && n <= |others| && forall i :: 0 <= i < n ==> some[i] == others[i]
  }

  lemma {:induction false} SameCount(calls: seq<Call>, some: seq<bool>, others: seq<bool>, key: Key, j: nat, n: nat)
    requires j <= n <= |calls| == |some| == |others| && SameUpTo(some, others, n)
    ensures Count(calls, some, key, j, n) == Count(calls, others, key, j, n)
  {
    if j < n {
      SameCount(calls, some, others, key, j, n - 1);
    }
  }

  // Call by call the curve leaves no choice.
  lemma {:induction false} OneAnswerObeys(rate: Rate, calls: seq<Call>, some: seq<bool>, others: seq<bool>, n: nat)
    requires |some| == |others| == |calls| && n <= |calls|
    requires Obeys(rate, calls, some) && Obeys(rate, calls, others)
    ensures SameUpTo(some, others, n)
  {
    if n > 0 {
      OneAnswerObeys(rate, calls, some, others, n - 1);
      SameAnswer(rate, calls, some, others, n - 1);
    }
  }

  lemma SameAnswer(rate: Rate, calls: seq<Call>, some: seq<bool>, others: seq<bool>, n: nat)
    requires |some| == |others| == |calls| && n < |calls| && SameUpTo(some, others, n)
    requires Obeys(rate, calls, some) && Obeys(rate, calls, others)
    ensures some[n] == others[n]
  {
    assert IsRight(rate, calls, some, n) && IsRight(rate, calls, others, n);
    if some[n] {
      SameFits(rate, calls, some, others, n);
    } else if others[n] {
      SameFits(rate, calls, others, some, n);
    }
  }

  lemma OnlyOneObeys(rate: Rate, calls: seq<Call>, some: seq<bool>, others: seq<bool>)
    requires |some| == |others| == |calls| && Obeys(rate, calls, some) && Obeys(rate, calls, others)
    ensures some == others
  {
    OneAnswerObeys(rate, calls, some, others, |calls|);
  }

  lemma SameFits(rate: Rate, calls: seq<Call>, some: seq<bool>, others: seq<bool>, n: nat)
    requires n < |calls| == |some| == |others| && SameUpTo(some, others, n)
    requires Fits(rate, calls, some, n)
    ensures Fits(rate, calls, others, n)
  {
    forall j: nat | j <= n && calls[j].key == calls[n].key ensures FitsSince(rate, calls, others, n, j) {
      assert FitsSince(rate, calls, some, n, j);
      SameCount(calls, some, others, calls[n].key, j, n);
    }
  }

  // The first call on the key at or after i; until it nothing on the key was let through.
  lemma {:induction false} FirstOnKey(calls: seq<Call>, answers: seq<bool>, key: Key, i: nat, n: nat) returns (j: nat)
    requires i <= n < |calls| == |answers| && calls[n].key == key
    ensures i <= j <= n && calls[j].key == key
    ensures Count(calls, answers, key, j, n) == Count(calls, answers, key, i, n)
    decreases n - i
  {
    if calls[i].key == key {
      j := i;
    } else {
      j := FirstOnKey(calls, answers, key, i + 1, n);
      SkipOther(calls, answers, key, i, n);
    }
  }

  lemma {:induction false} SkipOther(calls: seq<Call>, answers: seq<bool>, key: Key, i: nat, n: nat)
    requires i < n <= |calls| == |answers| && calls[i].key != key
    ensures Count(calls, answers, key, i, n) == Count(calls, answers, key, i + 1, n)
    decreases n
  {
    if i + 1 < n {
      SkipOther(calls, answers, key, i, n - 1);
    }
  }

  lemma GainMonotone(rate: Rate, a: real, b: real, c: real, d: real)
    requires rate.perSecond > 0.0 && a <= b <= c <= d
    ensures 0.0 <= Gain(rate, b, c) <= Gain(rate, a, d)
  {
    GainAdds(rate, a, b, d);
    GainAdds(rate, b, c, d);
    GainBetween(rate, a, b);
    GainBetween(rate, b, c);
    GainBetween(rate, c, d);
  }

  lemma GainIs(rate: Rate, a: real, b: real)
    ensures Gain(rate, a, b) == (b - a) * rate.perSecond
  {
  }

  lemma FitsTheGain(rate: Rate, calls: seq<Call>, answers: seq<bool>, n: nat, j: nat)
    requires j <= n < |calls| == |answers| && FitsSince(rate, calls, answers, n, j)
    ensures Count(calls, answers, calls[n].key, j, n) as real + 1.0
            <= rate.burst as real + Gain(rate, calls[j].now, calls[n].now)
  {
    hide Count, Gain;
    GainIs(rate, calls[j].now, calls[n].now);
  }

  // A call that fits bounds every window that it ends.
  lemma FittingCallEndsWindow(rate: Rate, calls: seq<Call>, answers: seq<bool>, i: nat, n: nat)
    requires rate.Enabled() && Chronological(calls) && i <= n < |calls| == |answers|
    requires Fits(rate, calls, answers, n)
    ensures Count(calls, answers, calls[n].key, i, n) as real + 1.0
            <= rate.burst as real + Gain(rate, calls[i].now, calls[n].now)
  {
    hide FitsSince, Gain;
    var j := FirstOnKey(calls, answers, calls[n].key, i, n);
    assert FitsSince(rate, calls, answers, n, j);
    FitsTheGain(rate, calls, answers, n, j);
    GainMonotone(rate, calls[i].now, calls[j].now, calls[n].now, calls[n].now);
  }

  lemma {:induction false} WindowGains(rate: Rate, idleTTL: real, hash: Key -> nat, calls: seq<Call>, key: Key,
                                       i: nat, m: nat)
    requires rate.Enabled() && idleTTL * rate.perSecond >= rate.burst as real
    requires Chronological(calls) && i < m <= |calls|
    ensures Count(calls, Sharded(rate, idleTTL, hash, calls).1, key, i, m) as real
            <= rate.burst as real + Gain(rate, calls[i].now, calls[m - 1].now)
    decreases m
  {
    hide Gain;
    var answers, n := Sharded(rate, idleTTL, hash, calls).1, m - 1;
    if calls[n].key == key && answers[n] {
      ArrivalCurve(rate, idleTTL, hash, calls, n);
      FittingCallEndsWindow(rate, calls, answers, i, n);
    } else if i < n {
      WindowGains(rate, idleTTL, hash, calls, key, i, n);
      GainMonotone(rate, calls[i].now, calls[i].now, calls[n - 1].now, calls[n].now);
    } else {
      GainShifts(rate, calls[i].now, 0.0);
    }
  }

  /** In every window of calls [i, m) each key is allowed at most the burst plus the refill over the
      duration of the window. */
  lemma {:induction false} WindowBound(rate: Rate, idleTTL: real, hash: Key -> nat, calls: seq<Call>, key: Key,
                                       i: nat, m: nat)
    requires rate.perSecond > 0.0 && rate.burst > 0 && idleTTL * rate.perSecond >= rate.burst as real
    requires Chronological(calls) && i < m <= |calls|
    ensures Count(calls, Sharded(rate, idleTTL, hash, calls).1, key, i, m) as real
            <= rate.burst as real + (calls[m - 1].now - calls[i].now) * rate.perSecond
  {
    hide Count, Gain, Sharded;
    WindowGains(rate, idleTTL, hash, calls, key, i, m);
    GainIs(rate, calls[i].now, calls[m - 1].now);
  }

  // ------------------------------------------------------------------ when eviction shows

  function Volley(key: Key, now: real, n: nat): seq<Call> {
    if n == 0 then [] else Volley(key, now, n - 1) + [Call(key, now)]
  }

  lemma ShardedSnoc(rate: Rate, idleTTL: real, hash: Key -> nat, calls: seq<Call>, call: Call)
    ensures var (shards, answers) := Sharded(rate, idleTTL, hash, calls);
            var (shards', allowed) := AllowStep(rate, idleTTL, hash, shards, call);
            Sharded(rate, idleTTL, hash, calls + [call]) == (shards', answers + [allowed])
  {
    assert (calls + [call])[..|calls|] == calls;
  }

  lemma IdealSnoc(rate: Rate, calls: seq<Call>, call: Call)
    ensures var (levels, answers) := Ideal(rate, calls);
            var (levels', allowed) := IdealStep(rate, levels, call);
            Ideal(rate, calls + [call]) == (levels', answers + [allowed])
  {
    assert (calls + [call])[..|calls|] == calls;
  }

  ghost predicate AllTrue(answers: seq<bool>) {
    forall i :: 0 <= i < |answers| ==> answers[i]
  }

  // The shard of a key on which nothing but `n` calls at `now` has been served since it was emptied.
  function Drained(rate: Rate, key: Key, now: real, n: int): Shard {
    Shard(map[key := Bucket((rate.burst - n) as real, now, now)], Some(now))
  }

  lemma ServeDrained(rate: Rate, idleTTL: real, key: Key, now: real, n: nat)
    requires rate.Enabled() && idleTTL > 0.0 && n < rate.burst
    ensures Serve(rate, idleTTL, Drained(rate, key, now, n), key, now) == (Drained(rate, key, now, n + 1), true)
  {
    var buckets := Drained(rate, key, now, n).buckets;
    assert buckets[key := Bucket((rate.burst - n - 1) as real, now, now)] == Drained(rate, key, now, n + 1).buckets;
  }

  // The shard is empty, or has been idle for idleTTL since it was drained.
  ghost predicate Idle(rate: Rate, idleTTL: real, shard: Shard, key: Key, now: real) {
    shard == Shard(map[], None) || (now == idleTTL && shard == Drained(rate, key, 0.0, rate.burst))
  }

  // The first call on an idle shard finds a full bucket.
  lemma ServeAfresh(rate: Rate, idleTTL: real, shard: Shard, key: Key, now: real)
    requires rate.Enabled() && idleTTL > 0.0 && Idle(rate, idleTTL, shard, key, now)
    ensures Serve(rate, idleTTL, shard, key, now) == (Drained(rate, key, now, 1), true)
  {
    assert Sweep(shard.buckets, now, idleTTL) == map[];
  }

  lemma ShardedServed(rate: Rate, idleTTL: real, hash: Key -> nat, calls: seq<Call>, call: Call, served: Shard)
    requires rate.Enabled() && AllTrue(Sharded(rate, idleTTL, hash, calls).1)
    requires Serve(rate, idleTTL, Sharded(rate, idleTTL, hash, calls).0[hash(call.key) % SHARD_COUNT],
            call.key, call.now)
             == (served, true)
    ensures var (shards, answers) := Sharded(rate, idleTTL, hash, calls + [call]);
            AllTrue(answers) && shards[hash(call.key) % SHARD_COUNT] == served
  {
    ShardedSnoc(rate, idleTTL, hash, calls, call);
  }

  /** A volley that starts on an idle shard is allowed call by call until the burst is used up. */
  lemma {:induction false} VolleyDrains(rate: Rate, idleTTL: real, hash: Key -> nat, before: seq<Call>,
                                        key: Key, now: real, n: nat)
    requires rate.Enabled() && idleTTL > 0.0 && 0 < n <= rate.burst
    requires AllTrue(Sharded(rate, idleTTL, hash, before).1)
    requires Idle(rate, idleTTL, Sharded(rate, idleTTL, hash, before).0[hash(key) % SHARD_COUNT], key, now)
    ensures var (shards, answers) := Sharded(rate, idleTTL, hash, before + Volley(key, now, n));
            AllTrue(answers) && shards[hash(key) % SHARD_COUNT] == Drained(rate, key, now, n)
  {
    var shorter := before + Volley(key, now, n - 1);
    VolleyOneMore(before, key, now, n);
    if n > 1 {
      VolleyDrains(rate, idleTTL, hash, before, key, now, n - 1);
      OneMoreDrains(rate, idleTTL, hash, shorter, key, now, n - 1);
    } else {
      FirstDrains(rate, idleTTL, hash, before, key, now);
    }
  }

  lemma VolleyOneMore(before: seq<Call>, key: Key, now: real, n: nat)
    requires n > 0
    ensures before + Volley(key, now, n) == before + Volley(key, now, n - 1) + [Call(key, now)]
    ensures n == 1 ==> before + Volley(key, now, 0) == before
  {
  }

  lemma OneMoreDrains(rate: Rate, idleTTL: real, hash: Key -> nat, calls: seq<Call>, key: Key, now: real, n: nat)
    requires rate.Enabled() && idleTTL > 0.0 && n < rate.burst
    requires AllTrue(Sharded(rate, idleTTL, hash, calls).1)
    requires Sharded(rate, idleTTL, hash, calls).0[hash(key) % SHARD_COUNT] == Drained(rate, key, now, n)
    ensures var (shards, answers) := Sharded(rate, idleTTL, hash, calls + [Call(key, now)]);
            AllTrue(answers) && shards[hash(key) % SHARD_COUNT] == Drained(rate, key, now, n + 1)
  {
    ServeDrained(rate, idleTTL, key, now, n);
    ShardedServed(rate, idleTTL, hash, calls, Call(key, now), Drained(rate, key, now, n + 1));
  }

  lemma FirstDrains(rate: Rate, idleTTL: real, hash: Key -> nat, calls: seq<Call>, key: Key, now: real)
    requires rate.Enabled() && idleTTL > 0.0
    requires AllTrue(Sharded(rate, idleTTL, hash, calls).1)
    requires Idle(rate, idleTTL, Sharded(rate, idleTTL, hash, calls).0[hash(key) % SHARD_COUNT], key, now)
    ensures var (shards, answers) := Sharded(rate, idleTTL, hash, calls + [Call(key, now)]);
            AllTrue(answers) && shards[hash(key) % SHARD_COUNT] == Drained(rate, key, now, 1)
  {
    var shard := Sharded(rate, idleTTL, hash, calls).0[hash(key) % SHARD_COUNT];
    ServeAfresh(rate, idleTTL, shard, key, now);
    ShardedServed(rate, idleTTL, hash, calls, Call(key, now), Drained(rate, key, now, 1));
  }

  lemma {:induction false} IdealFirstVolley(rate: Rate, key: Key, n: nat)
    requires rate.Enabled() && 0 < n <= rate.burst
    ensures var levels := Ideal(rate, Volley(key, 0.0, n)).0;
            key in levels && levels[key] == Level((rate.burst - n) as real, 0.0)
  {
    IdealSnoc(rate, Volley(key, 0.0, n - 1), Call(key, 0.0));
    if n > 1 {
      IdealFirstVolley(rate, key, n - 1);
    }
  }

  lemma IdealServed(rate: Rate, calls: seq<Call>, call: Call)
    requires rate.Enabled() && AllTrue(Ideal(rate, calls + [call]).1)
    ensures AllTrue(Ideal(rate, calls).1)
    ensures Available(rate, Ideal(rate, calls).0, call) >= 1.0
    ensures var levels := Ideal(rate, calls + [call]).0;
            call.key in levels && levels[call.key] == Level(Available(rate, Ideal(rate, calls).0, call) - 1.0, call.now)
  {
    IdealSnoc(rate, calls, call);
    var answers, all := Ideal(rate, calls).1, Ideal(rate, calls + [call]).1;
    assert all[|answers|];
    assert forall i :: 0 <= i < |answers| ==> all[i] == answers[i];
  }

  // The bucket that was kept has only refilled idleTTL * perSecond tokens for the second volley.
  lemma {:induction false} IdealSecondVolley(rate: Rate, idleTTL: real, key: Key, refill: real, n: nat)
    requires rate.Enabled() && idleTTL > 0.0 && 0 < n <= rate.burst
    requires refill == Gain(rate, 0.0, idleTTL) < rate.burst as real
    requires AllTrue(Ideal(rate, Volley(key, 0.0, rate.burst) + Volley(key, idleTTL, n)).1)
    ensures var levels := Ideal(rate, Volley(key, 0.0, rate.burst) + Volley(key, idleTTL, n)).0;
            key in levels && levels[key] == Level(refill - n as real, idleTTL) && levels[key].tokens >= 0.0
  {
    var first := Volley(key, 0.0, rate.burst);
    var shorter := first + Volley(key, idleTTL, n - 1);
    VolleyOneMore(first, key, idleTTL, n);
    IdealServed(rate, shorter, Call(key, idleTTL));
    if n > 1 {
      IdealSecondVolley(rate, idleTTL, key, refill, n - 1);
    } else {
      IdealFirstVolley(rate, key, rate.burst);
    }
  }

  lemma {:induction false} VolleyTimes(key: Key, now: real, n: nat)
    ensures |Volley(key, now, n)| == n
    ensures forall i :: 0 <= i < n ==> Volley(key, now, n)[i] == Call(key, now)
  {
    if n > 0 {
      VolleyTimes(key, now, n - 1);
    }
  }

  // Two volleys of Burst calls on one key, idleTTL apart.
  function TwoVolleys(rate: Rate, idleTTL: real): seq<Call>
    requires rate.burst > 0
  {
    Volley([], 0.0, rate.burst) + Volley([], idleTTL, rate.burst)
  }

  lemma ShardedAllowsBoth(rate: Rate, idleTTL: real, hash: Key -> nat)
    requires rate.Enabled() && idleTTL > 0.0
    ensures AllTrue(Sharded(rate, idleTTL, hash, TwoVolleys(rate, idleTTL)).1)
  {
    VolleyDrains(rate, idleTTL, hash, [], [], 0.0, rate.burst);
    assert [] + Volley([], 0.0, rate.burst) == Volley([], 0.0, rate.burst);
    VolleyDrains(rate, idleTTL, hash, Volley([], 0.0, rate.burst), [], idleTTL, rate.burst);
  }

  lemma IdealRefusesOne(rate: Rate, idleTTL: real)
    requires rate.Enabled() && idleTTL > 0.0 && idleTTL * rate.perSecond < rate.burst as real
    ensures !AllTrue(Ideal(rate, TwoVolleys(rate, idleTTL)).1)
    ensures Chronological(TwoVolleys(rate, idleTTL))
  {
    GainShifts(rate, 0.0, idleTTL);
    VolleyTimes([], 0.0, rate.burst);
    VolleyTimes([], idleTTL, rate.burst);
    if AllTrue(Ideal(rate, TwoVolleys(rate, idleTTL)).1) {
      IdealSecondVolley(rate, idleTTL, [], Gain(rate, 0.0, idleTTL), rate.burst);
    }
  }

  /** A rate or a burst that is not positive switches the limiter off: every call is allowed, and no bucket is
      ever made. With both positive it refuses the last of Burst + 1 calls at one moment. */
  lemma {:induction false} OffIff(rate: Rate, idleTTL: real, hash: Key -> nat)
    requires idleTTL > 0.0
    ensures (forall calls: seq<Call> :: AllTrue(Sharded(rate, idleTTL, hash, calls).1))
            <==> rate.perSecond <= 0.0 || rate.burst <= 0
    ensures rate.perSecond <= 0.0 || rate.burst <= 0 ==>
              forall calls: seq<Call> :: Sharded(rate, idleTTL, hash, calls).0 == EmptyShards()
  {
    if rate.perSecond <= 0.0 || rate.burst <= 0 {
      forall calls: seq<Call>
        ensures AllTrue(Sharded(rate, idleTTL, hash, calls).1)
        ensures Sharded(rate, idleTTL, hash, calls).0 == EmptyShards()
      {
        OffAllowsAll(rate, idleTTL, hash, calls);
      }
    } else {
      VolleyIsRefused(rate, idleTTL, hash);
    }
  }

  lemma VolleyIsRefused(rate: Rate, idleTTL: real, hash: Key -> nat)
    requires rate.perSecond > 0.0 && rate.burst > 0 && idleTTL > 0.0
    ensures !AllTrue(Sharded(rate, idleTTL, hash, Volley([], 0.0, rate.burst + 1)).1)
  {
    VolleyDrains(rate, idleTTL, hash, [], [], 0.0, rate.burst);
    var volley := Volley([], 0.0, rate.burst);
    assert [] + volley == volley;
    ShardedSnoc(rate, idleTTL, hash, volley, Call([], 0.0));
    var answers := Sharded(rate, idleTTL, hash, Volley([], 0.0, rate.burst + 1)).1;
    assert !answers[|answers| - 1];
  }

  lemma {:induction false} OffAllowsAll(rate: Rate, idleTTL: real, hash: Key -> nat, calls: seq<Call>)
    requires rate.perSecond <= 0.0 || rate.burst <= 0
    ensures AllTrue(Sharded(rate, idleTTL, hash, calls).1)
    ensures Sharded(rate, idleTTL, hash, calls).0 == EmptyShards()
    decreases |calls|
  {
    if calls != [] {
      OffAllowsAll(rate, idleTTL, hash, calls[..|calls| - 1]);
    }
  }

  /** Dropping idle buckets cannot be noticed, whatever the calls, if and only if a bucket idle for
      idleTTL has the time to fill up. Otherwise two volleys of Burst calls, idleTTL apart, tell. */
  lemma EvictionIsInvisibleIff(rate: Rate, idleTTL: real, hash: Key -> nat)
    requires idleTTL > 0.0
    ensures (forall calls: seq<Call> :: Chronological(calls) ==>
            Sharded(rate, idleTTL, hash, calls).1 == Ideal(rate, calls).1)
            <==> (rate.perSecond > 0.0 && rate.burst > 0 ==> idleTTL * rate.perSecond >= rate.burst as real)
  {
    if rate.Enabled() && idleTTL * rate.perSecond < rate.burst as real {
      ShardedAllowsBoth(rate, idleTTL, hash);
      IdealRefusesOne(rate, idleTTL);
      var calls := TwoVolleys(rate, idleTTL);
      assert Sharded(rate, idleTTL, hash, calls).1 != Ideal(rate, calls).1;
    } else {
      forall calls: seq<Call> | Chronological(calls)
        ensures Sharded(rate, idleTTL, hash, calls).1 == Ideal(rate, calls).1
      {
        AnswersAgree(rate, idleTTL, hash, calls, if calls == [] then 0.0 else calls[|calls| - 1].now);
      }
    }
  }

  /** And the curve holds on every run under the same condition only: with a shorter idleTTL the two volleys
      break it. */
  lemma CurveHoldsIff(rate: Rate, idleTTL: real, hash: Key -> nat)
    requires rate.perSecond > 0.0 && rate.burst > 0 && idleTTL > 0.0
    ensures (forall calls: seq<Call> :: Chronological(calls) ==>
            Obeys(rate, calls, Sharded(rate, idleTTL, hash, calls).1))
            <==> idleTTL * rate.perSecond >= rate.burst as real
  {
    if idleTTL * rate.perSecond >= rate.burst as real {
      forall calls: seq<Call> | Chronological(calls)
        ensures Obeys(rate, calls, Sharded(rate, idleTTL, hash, calls).1)
      {
        forall n: nat | n < |calls| ensures IsRight(rate, calls, Sharded(rate, idleTTL, hash, calls).1, n) {
          ArrivalCurve(rate, idleTTL, hash, calls, n);
        }
      }
    } else {
      VolleysBreakTheCurve(rate, idleTTL, hash);
    }
  }

  lemma VolleysBreakTheCurve(rate: Rate, idleTTL: real, hash: Key -> nat)
    requires rate.Enabled() && idleTTL > 0.0 && idleTTL * rate.perSecond < rate.burst as real
    ensures Chronological(TwoVolleys(rate, idleTTL))
    ensures !Obeys(rate, TwoVolleys(rate, idleTTL), Sharded(rate, idleTTL, hash, TwoVolleys(rate, idleTTL)).1)
  {
    var calls := TwoVolleys(rate, idleTTL);
    var sharded, ideal := Sharded(rate, idleTTL, hash, calls).1, Ideal(rate, calls).1;
    ShardedAllowsBoth(rate, idleTTL, hash);
    IdealRefusesOne(rate, idleTTL);
    forall n: nat | n < |calls| ensures IsRight(rate, calls, ideal, n) {
      IdealCurve(rate, calls, n);
    }
    if Obeys(rate, calls, sharded) {
      OnlyOneObeys(rate, calls, sharded, ideal);
    }
  }
}
