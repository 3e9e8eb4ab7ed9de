/** The danmaku lanes of v10/web/src/components/DanmakuStage.tsx: a greedy allocator that puts each new
    message on the lane that is free first. Times are in milliseconds. */
module LaneScheduler {

  const LANE_GAP_MILLIS := 2200
  const ACTIVE_LIMIT := 40

  // laneReadyAtRef: when each lane that has been used is free again (a sparse array).
  type LaneTimes = map<nat, int>

  // A JavaScript number as a lane count: it may be NaN or infinite.
  datatype LaneCount = NotFinite | Finite(value: real) {
    function Bounded(): (count: nat)
      ensures Finite? && value >= 1.0 ==> count as real <= value < count as real + 1.0
      ensures NotFinite? || value < 1.0 ==> count == 1
    {
      if NotFinite? || value < 1.0 then 1 else value.Floor
    }
  }

  function Max(a: int, b: int): int {
    if a > b then a else b
  }

  function Availability(lanes: LaneTimes, lane: nat, now: int): int {
    if lane in lanes then Max(lanes[lane], now) else now
  }

  // The first of the lanes below k that is free as early as any.
  function Earliest(lanes: LaneTimes, now: int, k: nat): (lane: nat)
    requires k > 0
    ensures lane < k
  {
    if k == 1 then 0
    else
      var best := Earliest(lanes, now, k - 1);
      if Availability(lanes, k - 1, now) < Availability(lanes, best, now) then k - 1 else best
  }

  lemma {:induction false} EarliestIsLeast(lanes: LaneTimes, now: int, k: nat)
    requires k > 0
    ensures forall lane: nat :: lane < k ==>
              Availability(lanes, Earliest(lanes, now, k), now) <= Availability(lanes, lane, now)
    ensures forall lane: nat :: lane < Earliest(lanes, now, k) ==>
              Availability(lanes, Earliest(lanes, now, k), now) < Availability(lanes, lane, now)
  {
    if k > 1 {
      EarliestIsLeast(lanes, now, k - 1);
    }
  }

  method AssignLane(lanes: LaneTimes, now: int, laneCount: LaneCount) returns (selectedLane: nat)
    ensures selectedLane == Earliest(lanes, now, laneCount.Bounded())
  {
    var boundedLaneCount := laneCount.Bounded();
    selectedLane := 0;
    var earliestAvailability := Availability(lanes, 0, now);
    for lane := 1 to boundedLaneCount
      invariant selectedLane == Earliest(lanes, now, lane)
      invariant earliestAvailability == Availability(lanes, selectedLane, now)
    {
      var availability := Availability(lanes, lane, now);
      if availability < earliestAvailability {
        selectedLane := lane;
        earliestAvailability := availability;
      }
    }
  }

  // ------------------------------------------------------------------ schedules

  datatype Placement = Placement(lane: nat, start: int)

  function Place(lanes: LaneTimes, now: int, k: nat): Placement
    requires k > 0
  {
    var lane := Earliest(lanes, now, k);
    Placement(lane, Availability(lanes, lane, now))
  }

  function Occupy(lanes: LaneTimes, p: Placement): LaneTimes {
    lanes[p.lane := p.start + LANE_GAP_MILLIS]
  }

  function TimesOf(ps: seq<Placement>): LaneTimes {
    if ps == [] then map[] else Occupy(TimesOf(ps[..|ps| - 1]), ps[|ps| - 1])
  }

  // The greedy schedule of messages that arrive one after the other.
  function Greedy(arrivals: seq<int>, k: nat): (ps: seq<Placement>)
    requires k > 0
    ensures |ps| == |arrivals|
  {
    if arrivals == [] then []
    else
      var ps := Greedy(arrivals[..|arrivals| - 1], k);
      ps + [Place(TimesOf(ps), arrivals[|arrivals| - 1], k)]
  }

  ghost predicate Nondecreasing(arrivals: seq<int>) {
    forall i, j :: 0 <= i <= j < |arrivals| ==> arrivals[i] <= arrivals[j]
  }

  // Message i is on one of k lanes and does not start before it arrives.
  ghost predicate Fair(arrivals: seq<int>, k: nat, ps: seq<Placement>, i: nat)
    requires i < |ps| == |arrivals|
  {
    ps[i].lane < k && arrivals[i] <= ps[i].start
  }

  // Message i does not start after the later message j, and well before it on the same lane.
  ghost predicate InOrder(ps: seq<Placement>, i: nat, j: nat)
    requires i < j < |ps|
  {
    ps[i].start <= ps[j].start && (ps[i].lane == ps[j].lane ==> ps[i].start + 2200 <= ps[j].start)
  }

  /** A schedule in arrival order: no message starts before it arrives or before an earlier one, and
      starts on one lane are a gap apart. */
  ghost predicate Legal(arrivals: seq<int>, k: nat, ps: seq<Placement>) {
    && |ps| == |arrivals|
    && (forall i: nat :: i < |ps| ==> Fair(arrivals, k, ps, i))
    && (forall i: nat, j: nat :: i < j < |ps| ==> InOrder(ps, i, j))
  }

  // ------------------------------------------------------------------ pigeonholes

  function UpTo(k: nat): (s: set<nat>)
    ensures forall x: nat :: x in s <==> x < k
    ensures |s| == k
  {
    if k == 0 then {} else UpTo(k - 1) + {k - 1}
  }

  function LanesOf(ps: seq<Placement>, first: nat, upto: nat): set<nat>
    requires first <= upto <= |ps|
  {
    set i | first <= i < upto :: ps[i].lane
  }

  lemma {:induction false} LanesCount(ps: seq<Placement>, first: nat, upto: nat)
    requires first <= upto <= |ps|
    ensures |LanesOf(ps, first, upto)| <= upto - first
    ensures (forall i, j :: first <= i < j < upto ==> ps[i].lane != ps[j].lane) ==>
            |LanesOf(ps, first, upto)| == upto - first
    decreases upto
  {
    if first < upto {
      LanesCount(ps, first, upto - 1);
      assert LanesOf(ps, first, upto) == LanesOf(ps, first, upto - 1) + {ps[upto - 1].lane};
    } else {
      assert LanesOf(ps, first, upto) == {};
    }
  }

  lemma SubsetCount(a: set<nat>, b: set<nat>)
    requires a <= b
    ensures |a| <= |b|
  {
    assert b == a + (b - a);
  }

  // Of k + 1 messages on k lanes, two share a lane.
  lemma TwoShareLane(ps: seq<Placement>, k: nat, first: nat, upto: nat) returns (p: nat, q: nat)
    requires first <= upto <= |ps| && upto - first > k
    requires forall i :: first <= i < upto ==> ps[i].lane < k
    ensures first <= p < q < upto && ps[p].lane == ps[q].lane
  {
    LanesCount(ps, first, upto);
    if forall i, j :: first <= i < j < upto ==> ps[i].lane != ps[j].lane {
      SubsetCount(LanesOf(ps, first, upto), UpTo(k));
      assert false;
    }
    p, q :| first <= p < q < upto && ps[p].lane == ps[q].lane;
  }

  // Fewer than k messages leave one of k lanes alone.
  lemma FreeLane(ps: seq<Placement>, k: nat, first: nat, upto: nat) returns (lane: nat)
    requires first <= upto <= |ps| && upto - first < k
    ensures lane < k && forall i :: first <= i < upto ==> ps[i].lane != lane
  {
    LanesCount(ps, first, upto);
    if UpTo(k) <= LanesOf(ps, first, upto) {
      SubsetCount(UpTo(k), LanesOf(ps, first, upto));
      assert false;
    }
    lane :| lane in UpTo(k) && lane !in LanesOf(ps, first, upto);
  }

  // ------------------------------------------------------------------ lane times

  // A lane that has been used is busy until a gap after the last start on it.
  lemma {:induction false} BusySince(ps: seq<Placement>, lane: nat) returns (i: nat)
    requires lane in TimesOf(ps)
    ensures i < |ps| && ps[i].lane == lane && TimesOf(ps)[lane] == ps[i].start + LANE_GAP_MILLIS
    ensures forall j :: i < j < |ps| ==> ps[j].lane != lane
    decreases |ps|
  {
    if ps[|ps| - 1].lane == lane {
      i := |ps| - 1;
    } else {
      i := BusySince(ps[..|ps| - 1], lane);
    }
  }

  lemma {:induction false} Unused(ps: seq<Placement>, lane: nat)
    requires lane !in TimesOf(ps)
    ensures forall i :: 0 <= i < |ps| ==> ps[i].lane != lane
    decreases |ps|
  {
    if ps != [] {
      Unused(ps[..|ps| - 1], lane);
    }
  }

  lemma ArriveOneMore(arrivals: seq<int>, k: nat, now: int)
    requires k > 0
    ensures var ps := Greedy(arrivals, k);
            var p := Place(TimesOf(ps), now, k);
            && Greedy(arrivals + [now], k) == ps + [p]
            && TimesOf(ps + [p]) == Occupy(TimesOf(ps), p)
  {
    assert (arrivals + [now])[..|arrivals|] == arrivals;
    var ps := Greedy(arrivals, k);
    assert (ps + [Place(TimesOf(ps), now, k)])[..|ps|] == ps;
  }

  // The next start is not before the last one: no lane was free earlier, and none has become so.
  lemma NextStartsLater(lanes: LaneTimes, now: int, later: int, k: nat)
    requires k > 0 && now <= later
    ensures var p := Place(lanes, now, k); p.start <= Place(Occupy(lanes, p), later, k).start
  {
    var p := Place(lanes, now, k);
    var q := Place(Occupy(lanes, p), later, k);
    EarliestIsLeast(lanes, now, k);
    assert p.start <= Availability(lanes, q.lane, now);
  }

  // A placement is in order after every earlier one.
  lemma PlaceIsInOrder(arrivals: seq<int>, k: nat, ps: seq<Placement>, p: Placement, i: nat)
    requires Legal(arrivals, k, ps) && i < |ps|
    requires ps[|ps| - 1].start <= p.start
    requires p.lane in TimesOf(ps) ==> TimesOf(ps)[p.lane] <= p.start
    ensures InOrder(ps + [p], i, |ps|)
  {
    if i < |ps| - 1 {
      assert InOrder(ps, i, |ps| - 1);
    }
    if ps[i].lane == p.lane {
      if p.lane in TimesOf(ps) {
        var last := BusySince(ps, p.lane);
        if i < last {
          assert InOrder(ps, i, last);
        }
      } else {
        Unused(ps, p.lane);
      }
    }
  }

  lemma LegalSnoc(arrivals: seq<int>, k: nat, ps: seq<Placement>, now: int, p: Placement)
    requires Legal(arrivals, k, ps) && p.lane < k && now <= p.start
    requires ps != [] ==> ps[|ps| - 1].start <= p.start
    requires p.lane in TimesOf(ps) ==> TimesOf(ps)[p.lane] <= p.start
    ensures Legal(arrivals + [now], k, ps + [p])
  {
    var longer := ps + [p];
    forall i: nat | i < |longer| ensures Fair(arrivals + [now], k, longer, i) {
      if i < |ps| {
        assert Fair(arrivals, k, ps, i);
      }
    }
    forall i: nat, j: nat | i < j < |longer| ensures InOrder(longer, i, j) {
      if j == |ps| {
        PlaceIsInOrder(arrivals, k, ps, p, i);
      } else {
        assert InOrder(ps, i, j);
      }
    }
  }

  lemma {:induction false} GreedyIsLegal(arrivals: seq<int>, k: nat)
    requires k > 0 && Nondecreasing(arrivals)
    ensures Legal(arrivals, k, Greedy(arrivals, k))
    decreases |arrivals|
  {
    if arrivals != [] {
      var init, now := arrivals[..|arrivals| - 1], arrivals[|arrivals| - 1];
      GreedyIsLegal(init, k);
      GreedyStartsLater(init, k, now);
      LegalSnoc(init, k, Greedy(init, k), now, Place(TimesOf(Greedy(init, k)), now, k));
      assert arrivals == init + [now];
    }
  }

  lemma GreedyStartsLater(arrivals: seq<int>, k: nat, now: int)
    requires k > 0 && (arrivals != [] ==> arrivals[|arrivals| - 1] <= now)
    ensures var ps := Greedy(arrivals, k);
            ps != [] ==> ps[|ps| - 1].start <= Place(TimesOf(ps), now, k).start
  {
    if arrivals != [] {
      var earlier, last := arrivals[..|arrivals| - 1], arrivals[|arrivals| - 1];
      assert arrivals == earlier + [last];
      ArriveOneMore(earlier, k, last);
      NextStartsLater(TimesOf(Greedy(earlier, k)), last, now, k);
    }
  }

  // On any legal schedule the k-th message after another starts at least a gap after it.
  lemma GapOverLanes(arrivals: seq<int>, k: nat, ps: seq<Placement>, i: nat)
    requires Legal(arrivals, k, ps) && k <= i < |ps|
    ensures ps[i - k].start + LANE_GAP_MILLIS <= ps[i].start
  {
    forall j | i - k <= j < i + 1 ensures ps[j].lane < k {
      assert Fair(arrivals, k, ps, j);
    }
    var p, q := TwoShareLane(ps, k, i - k, i + 1);
    assert InOrder(ps, p, q);
    assert i - k < p ==> InOrder(ps, i - k, p);
    assert q < i ==> InOrder(ps, q, i);
  }

  // The start the closed form gives to message i.
  function ClosedForm(arrivals: seq<int>, k: nat, ps: seq<Placement>, i: nat): int
    requires i < |arrivals| == |ps|
  {
    if i < k then arrivals[i] else Max(arrivals[i], ps[i - k].start + LANE_GAP_MILLIS)
  }

  lemma {:induction false} GreedyPrefix(arrivals: seq<int>, k: nat, n: nat)
    requires k > 0 && n <= |arrivals|
    ensures Greedy(arrivals[..n], k) == Greedy(arrivals, k)[..n]
    decreases |arrivals|
  {
    if n < |arrivals| {
      var init := arrivals[..|arrivals| - 1];
      GreedyPrefix(init, k, n);
      assert init[..n] == arrivals[..n];
    } else {
      assert arrivals[..n] == arrivals;
    }
  }

  // Some lane has been left alone by the last k - 1 messages, and is free early enough.
  lemma NextIsEarlyEnough(arrivals: seq<int>, k: nat, ps: seq<Placement>, now: int)
    requires k > 0 && Legal(arrivals, k, ps)
    ensures var i := |ps|;
            Place(TimesOf(ps), now, k).start <= if i < k then now else Max(now, ps[i - k].start + LANE_GAP_MILLIS)
  {
    var i := |ps|;
    var lane := FreeLane(ps, k, if i < k then 0 else i - k + 1, i);
    EarliestIsLeast(TimesOf(ps), now, k);
    assert Place(TimesOf(ps), now, k).start <= Availability(TimesOf(ps), lane, now);
    if lane in TimesOf(ps) {
      var j := BusySince(ps, lane);
      assert i >= k && j <= i - k;
      assert j < i - k ==> InOrder(ps, j, i - k);
    }
  }

  /** THE CLOSED FORM. With k lanes and arrivals in order, message i starts at its arrival or, if that is
      later, a gap after the start of the k-th message before it, whatever lanes were chosen. */
  lemma GreedyIsClosedForm(arrivals: seq<int>, k: nat, i: nat)
    requires k > 0 && Nondecreasing(arrivals) && i < |arrivals|
    ensures Greedy(arrivals, k)[i].start == ClosedForm(arrivals, k, Greedy(arrivals, k), i)
  {
    GreedyIsLate(arrivals, k, i);
    GreedyIsEarly(arrivals, k, i);
  }

  lemma GreedyIsLate(arrivals: seq<int>, k: nat, i: nat)
    requires k > 0 && Nondecreasing(arrivals) && i < |arrivals|
    ensures Greedy(arrivals, k)[i].start >= ClosedForm(arrivals, k, Greedy(arrivals, k), i)
  {
    GreedyIsLegal(arrivals, k);
    LegalIsLate(arrivals, k, Greedy(arrivals, k), i);
  }

  lemma GreedyIsEarly(arrivals: seq<int>, k: nat, i: nat)
    requires k > 0 && Nondecreasing(arrivals) && i < |arrivals|
    ensures Greedy(arrivals, k)[i].start <= ClosedForm(arrivals, k, Greedy(arrivals, k), i)
  {
    GreedyAt(arrivals, k, i);
    GreedyNextIsEarly(arrivals[..i], k, arrivals[i]);
  }

  lemma GreedyNextIsEarly(arrivals: seq<int>, k: nat, now: int)
    requires k > 0 && Nondecreasing(arrivals)
    ensures var ps, i := Greedy(arrivals, k), |arrivals|;
            Place(TimesOf(ps), now, k).start <= if i < k then now else Max(now, ps[i - k].start + LANE_GAP_MILLIS)
  {
    GreedyIsLegal(arrivals, k);
    NextIsEarlyEnough(arrivals, k, Greedy(arrivals, k), now);
  }

  lemma GreedyAt(arrivals: seq<int>, k: nat, i: nat)
    requires k > 0 && i < |arrivals|
    ensures var ps := Greedy(arrivals, k);
            Greedy(arrivals[..i], k) == ps[..i] && ps[i] == Place(TimesOf(ps[..i]), arrivals[i], k)
  {
    GreedyPrefix(arrivals, k, i);
    GreedyPrefix(arrivals, k, i + 1);
    ArriveOneMore(arrivals[..i], k, arrivals[i]);
    assert arrivals[..i + 1] == arrivals[..i] + [arrivals[i]];
    assert Greedy(arrivals, k)[..i + 1][i] == Greedy(arrivals, k)[i];
  }

  // The closed form is a lower bound of every legal schedule, in terms of its own earlier starts.
  lemma LegalIsLate(arrivals: seq<int>, k: nat, ps: seq<Placement>, i: nat)
    requires Legal(arrivals, k, ps) && i < |ps|
    ensures ps[i].start >= ClosedForm(arrivals, k, ps, i)
  {
    assert Fair(arrivals, k, ps, i);
    if i >= k {
      GapOverLanes(arrivals, k, ps, i);
    }
  }

  /** OPTIMALITY. No legal schedule in arrival order starts any message earlier than the greedy one. */
  lemma {:induction false} GreedyIsOptimal(arrivals: seq<int>, k: nat, other: seq<Placement>, i: nat)
    requires k > 0 && Nondecreasing(arrivals) && Legal(arrivals, k, other) && i < |arrivals|
    ensures Greedy(arrivals, k)[i].start <= other[i].start
  {
    GreedyIsClosedForm(arrivals, k, i);
    LegalIsLate(arrivals, k, other, i);
    if i >= k {
      GreedyIsOptimal(arrivals, k, other, i - k);
    }
  }

  // ------------------------------------------------------------------ the component

  datatype Message = Message(id: string, content: string)
  datatype ActiveDanmaku = ActiveDanmaku(delayMillis: int, lane: nat, message: Message)

  function IdsOf(messages: seq<Message>): set<string> {
    set i | 0 <= i < |messages| :: messages[i].id
  }

  // The messages that have not been seen, each id once.
  function Unseen(messages: seq<Message>, seen: set<string>): seq<Message> {
    if messages == [] then []
    else
      var init, last := messages[..|messages| - 1], messages[|messages| - 1];
      if last.id in seen || last.id in IdsOf(init) then Unseen(init, seen) else Unseen(init, seen) + [last]
  }

  // Message m is the first with its id, and its id has not been seen.
  predicate IsNew(messages: seq<Message>, seen: set<string>, m: nat)
    requires m < |messages|
  {
    messages[m].id !in seen && forall j :: 0 <= j < m ==> messages[j].id != messages[m].id
  }

  /** Those are exactly the messages whose id has not been seen before, here or earlier, in their order. */
  lemma {:induction false} UnseenAre(messages: seq<Message>, seen: set<string>) returns (at: seq<nat>)
    ensures |at| == |Unseen(messages, seen)|
    ensures forall i :: 0 <= i < |at| ==> at[i] < |messages| && Unseen(messages, seen)[i] == messages[at[i]]
    ensures forall i, j :: 0 <= i < j < |at| ==> at[i] < at[j]
    ensures forall m: nat :: m < |messages| ==> (m in at <==> IsNew(messages, seen, m))
  {
    at := [];
    if messages != [] {
      var n := |messages| - 1;
      var before := UnseenAre(messages[..n], seen);
      forall m: nat | m < n ensures IsNew(messages[..n], seen, m) == IsNew(messages, seen, m) {
        SameNews(messages, seen, n, m);
      }
      LastIsNewIff(messages, seen);
      at := if IsNew(messages, seen, n) then before + [n] else before;
    }
  }

  lemma SameNews(messages: seq<Message>, seen: set<string>, n: nat, m: nat)
    requires m < n <= |messages|
    ensures IsNew(messages[..n], seen, m) == IsNew(messages, seen, m)
  {
    assert forall j :: 0 <= j <= m ==> messages[..n][j] == messages[j];
  }

  lemma LastIsNewIff(messages: seq<Message>, seen: set<string>)
    requires messages != []
    ensures var n := |messages| - 1;
            IsNew(messages, seen, n) <==> !(messages[n].id in seen || messages[n].id in IdsOf(messages[..n]))
  {
    var n := |messages| - 1;
    assert forall j :: 0 <= j < n ==> messages[..n][j] == messages[j];
    assert forall j :: 0 <= j < n ==> messages[..n][j].id in IdsOf(messages[..n]);
  }

  function Repeat(now: int, n: nat): (arrivals: seq<int>)
    ensures |arrivals| == n && forall i :: 0 <= i < n ==> arrivals[i] == now
  {
    if n == 0 then [] else Repeat(now, n - 1) + [now]
  }

  function Tail<T>(s: seq<T>, limit: nat): (r: seq<T>)
    ensures |r| == (if |s| < limit then |s| else limit) && r == s[|s| - |r|..]
  {
    if |s| <= limit then s else s[|s| - limit..]
  }

  // What is shown for the messages that arrived last: each on its greedy lane, after its delay.
  function Shown(messages: seq<Message>, ps: seq<Placement>, now: int): (items: seq<ActiveDanmaku>)
    requires |messages| == |ps|
    ensures |items| == |messages|
    ensures forall i :: 0 <= i < |items| ==>
              && items[i].message == messages[i] && items[i].lane == ps[i].lane
              && now + items[i].delayMillis == ps[i].start
  {
    if messages == [] then []
    else
      var n := |messages| - 1;
      Shown(messages[..n], ps[..n], now) + [ActiveDanmaku(ps[n].start - now, ps[n].lane, messages[n])]
  }

  // The messages are placed one after the other, all at the same time.
  function PlaceAll(messages: seq<Message>, lanes: LaneTimes, k: nat, now: int): (LaneTimes, seq<ActiveDanmaku>)
    requires k > 0
  {
    if messages == [] then (lanes, [])
    else
      var (times, items) := PlaceAll(messages[..|messages| - 1], lanes, k, now);
      var p := Place(times, now, k);
      (Occupy(times, p), items + [ActiveDanmaku(p.start - now, p.lane, messages[|messages| - 1])])
  }

  // `placed` is what the greedy schedule of the arrivals makes of the messages, which arrived last.
  ghost predicate Continues(placed: (LaneTimes, seq<ActiveDanmaku>), messages: seq<Message>, arrivals: seq<int>,
                            skip: nat, k: nat, now: int)
    requires k > 0
  {
    && skip + |messages| == |arrivals|
    && placed == (TimesOf(Greedy(arrivals, k)), Shown(messages, Greedy(arrivals, k)[skip..], now))
  }

  lemma ContinueOneMore(placed: (LaneTimes, seq<ActiveDanmaku>), messages: seq<Message>, message: Message,
                        arrivals: seq<int>, skip: nat, k: nat, now: int)
    requires k > 0 && Continues(placed, messages, arrivals, skip, k, now)
    ensures var p := Place(placed.0, now, k);
            Continues((Occupy(placed.0, p), placed.1 + [ActiveDanmaku(p.start - now, p.lane, message)]),
                      messages + [message], arrivals + [now], skip, k, now)
  {
    hide Greedy, TimesOf, Shown, Occupy, Place;
    ArriveOneMore(arrivals, k, now);
    ShownOneMore(messages, message, arrivals, skip, k, now);
  }

  lemma PlacedOneMore(messages: seq<Message>, message: Message, lanes: LaneTimes,
                      arrivals: seq<int>, skip: nat, k: nat, now: int)
    requires k > 0 && Continues(PlaceAll(messages, lanes, k, now), messages, arrivals, skip, k, now)
    ensures Continues(PlaceAll(messages + [message], lanes, k, now), messages + [message],
                      arrivals + [now], skip, k, now)
  {
    hide Continues, PlaceAll, Occupy, Place;
    ContinueOneMore(PlaceAll(messages, lanes, k, now), messages, message, arrivals, skip, k, now);
    PlaceOneMore(messages, message, lanes, k, now);
  }

  lemma RepeatOneMore(arrivals: seq<int>, now: int, n: nat)
    ensures arrivals + Repeat(now, n + 1) == arrivals + Repeat(now, n) + [now]
    ensures arrivals + Repeat(now, 0) == arrivals
  {
  }

  /** Placing the messages that arrive now is continuing the greedy schedule of all arrivals so far. */
  lemma {:induction false} PlaceAllIsGreedy(messages: seq<Message>, arrivals: seq<int>, k: nat, now: int)
    requires k > 0
    ensures Continues(PlaceAll(messages, TimesOf(Greedy(arrivals, k)), k, now), messages,
                      arrivals + Repeat(now, |messages|), |arrivals|, k, now)
    decreases |messages|
  {
    RepeatOneMore(arrivals, now, if messages == [] then 0 else |messages| - 1);
    if messages != [] {
      var init, last := messages[..|messages| - 1], messages[|messages| - 1];
      assert messages == init + [last];
      PlaceAllIsGreedy(init, arrivals, k, now);
      PlacedOneMore(init, last, TimesOf(Greedy(arrivals, k)), arrivals + Repeat(now, |init|), |arrivals|, k, now);
    }
  }

  lemma StillNondecreasing(arrivals: seq<int>, now: int, n: nat)
    requires Nondecreasing(arrivals) && (arrivals != [] ==> arrivals[|arrivals| - 1] <= now)
    ensures Nondecreasing(arrivals + Repeat(now, n))
  {
  }

  lemma AllClosedForm(arrivals: seq<int>, k: nat)
    requires k > 0 && Nondecreasing(arrivals)
    ensures forall i: nat :: i < |arrivals| ==>
              Greedy(arrivals, k)[i].start == ClosedForm(arrivals, k, Greedy(arrivals, k), i)
  {
    forall i: nat | i < |arrivals| {
      GreedyIsClosedForm(arrivals, k, i);
    }
  }

  class Stage {
    var roomId: string
    var laneCount: nat
    var laneReadyAt: LaneTimes
    var seenMessageIds: set<string>
    var activeDanmaku: seq<ActiveDanmaku>
    // every arrival since the room or the lane count last changed
    ghost var arrivals: seq<int>

    ghost predicate Valid()
      reads this
    {
      && laneCount > 0 && laneReadyAt == TimesOf(Greedy(arrivals, laneCount))
      && Nondecreasing(arrivals) && |activeDanmaku| <= ACTIVE_LIMIT
    }

    constructor (roomId: string, laneCount: nat)
      requires laneCount > 0
      ensures Valid() && arrivals == [] && this.roomId == roomId && this.laneCount == laneCount
    {
      this.roomId, this.laneCount := roomId, laneCount;
      laneReadyAt, seenMessageIds, activeDanmaku, arrivals := map[], {}, [], [];
    }

    /** The scheduling effect, at a time not before the last one: every message not seen before arrives now and
        is placed as the greedy schedule of all arrivals since the last change of scope places it, that is
        at the start that the closed form gives; exactly the ids of the present messages are remembered; the
        last 40 placed messages are shown. */
    method Refresh(messages: seq<Message>, roomId: string, laneCount: nat, now: int)
      requires Valid() && laneCount > 0
      requires arrivals != [] ==> arrivals[|arrivals| - 1] <= now
      modifies this
      ensures Valid() && this.roomId == roomId && this.laneCount == laneCount
      ensures forall i: nat :: i < |arrivals| ==>
                Greedy(arrivals, laneCount)[i].start == ClosedForm(arrivals, laneCount, Greedy(arrivals, laneCount), i)
      ensures seenMessageIds == IdsOf(messages) && |activeDanmaku| <= 40
      ensures var same := roomId == old(this.roomId) && laneCount == old(this.laneCount);
              var before := if same then old(arrivals) else [];
              var unseen := Unseen(messages, if same then old(seenMessageIds) else {});
              && arrivals == before + Repeat(now, |unseen|)
              && activeDanmaku == Tail((if same then old(activeDanmaku) else [])
                                       + Shown(unseen, Greedy(arrivals, laneCount)[|before|..], now), 40)
    {
      EnterScope(roomId, laneCount);
      ShowUnseen(messages, now);
      AllClosedForm(arrivals, laneCount);
    }

    // The effect within one scope.
    method ShowUnseen(messages: seq<Message>, now: int)
      requires Valid() && (arrivals != [] ==> arrivals[|arrivals| - 1] <= now)
      modifies this`laneReadyAt, this`seenMessageIds, this`activeDanmaku, this`arrivals
      ensures Valid() && seenMessageIds == IdsOf(messages)
      ensures var unseen := Unseen(messages, old(seenMessageIds));
              && arrivals == old(arrivals) + Repeat(now, |unseen|)
              && activeDanmaku == Tail(old(activeDanmaku)
                                       + Shown(unseen, Greedy(arrivals, laneCount)[|old(arrivals)|..], now),
                                           ACTIVE_LIMIT)
    {
      var nextDanmaku := ScheduleGreedily(messages, now);
      ForgetAbsent(messages);
      Show(nextDanmaku);
    }

    method ScheduleGreedily(messages: seq<Message>, now: int) returns (nextDanmaku: seq<ActiveDanmaku>)
      requires Valid() && (arrivals != [] ==> arrivals[|arrivals| - 1] <= now)
      modifies this`laneReadyAt, this`seenMessageIds, this`arrivals
      ensures Valid() && seenMessageIds == old(seenMessageIds) + IdsOf(messages)
      ensures var unseen := Unseen(messages, old(seenMessageIds));
              && arrivals == old(arrivals) + Repeat(now, |unseen|)
              && nextDanmaku == Shown(unseen, Greedy(arrivals, laneCount)[|old(arrivals)|..], now)
    {
      ghost var unseen := Unseen(messages, seenMessageIds);
      PlaceAllIsGreedy(unseen, arrivals, laneCount, now);
      nextDanmaku := ScheduleUnseen(messages, now);
      StillNondecreasing(arrivals, now, |unseen|);
      arrivals := arrivals + Repeat(now, |unseen|);
    }

    // The update of the shown messages; without new ones there is none.
    method Show(nextDanmaku: seq<ActiveDanmaku>)
      requires |activeDanmaku| <= ACTIVE_LIMIT
      modifies this`activeDanmaku
      ensures activeDanmaku == Tail(old(activeDanmaku) + nextDanmaku, ACTIVE_LIMIT)
    {
      if |nextDanmaku| > 0 {
        activeDanmaku := Tail(activeDanmaku + nextDanmaku, ACTIVE_LIMIT);
      } else {
        assert activeDanmaku + nextDanmaku == activeDanmaku;
      }
    }

    // Another room or another number of lanes starts afresh.
    method EnterScope(roomId: string, laneCount: nat)
      requires Valid() && laneCount > 0
      modifies this
      ensures Valid() && this.roomId == roomId && this.laneCount == laneCount
      ensures var same := roomId == old(this.roomId) && laneCount == old(this.laneCount);
              && arrivals == (if same then old(arrivals) else [])
              && seenMessageIds == (if same then old(seenMessageIds) else {})
              && activeDanmaku == (if same then old(activeDanmaku) else [])
    {
      if this.roomId != roomId || this.laneCount != laneCount {
        this.roomId, this.laneCount := roomId, laneCount;
        laneReadyAt, seenMessageIds, activeDanmaku := map[], {}, [];
        arrivals := [];
      }
    }

    // The loop over the messages: those already seen are passed over, the others are placed.
    method ScheduleUnseen(messages: seq<Message>, now: int) returns (nextDanmaku: seq<ActiveDanmaku>)
      requires laneCount > 0
      modifies this`laneReadyAt, this`seenMessageIds
      ensures seenMessageIds == old(seenMessageIds) + IdsOf(messages)
      ensures (laneReadyAt, nextDanmaku) ==
              PlaceAll(Unseen(messages, old(seenMessageIds)), old(laneReadyAt), laneCount, now)
    {
      ghost var lanes, seen := laneReadyAt, seenMessageIds;
      ghost var unseen: seq<Message> := [];
      nextDanmaku := [];
      for m := 0 to |messages|
        invariant seenMessageIds == seen + IdsOf(messages[..m])
        invariant unseen == Unseen(messages[..m], seen)
        invariant (laneReadyAt, nextDanmaku) == PlaceAll(unseen, lanes, laneCount, now)
      {
        var message := messages[m];
        SeenOneMore(messages, seen, m);
        if message.id in seenMessageIds {
          continue;
        }
        seenMessageIds := seenMessageIds + {message.id};
        nextDanmaku := Push(message, now, nextDanmaku, unseen, lanes);
        unseen := unseen + [message];
      }
      assert messages[..|messages|] == messages;
    }

    // One more placed message, after those of `unseen`.
    method Push(message: Message, now: int, nextDanmaku: seq<ActiveDanmaku>, ghost unseen: seq<Message>,
                ghost lanes: LaneTimes)
      returns (longer: seq<ActiveDanmaku>)
      requires laneCount > 0 && (laneReadyAt, nextDanmaku) == PlaceAll(unseen, lanes, laneCount, now)
      modifies this`laneReadyAt
      ensures (laneReadyAt, longer) == PlaceAll(unseen + [message], lanes, laneCount, now)
    {
      PlaceOneMore(unseen, message, lanes, laneCount, now);
      var item := Schedule(message, now);
      longer := nextDanmaku + [item];
    }

    // One message arrives now: its lane, its start and the new ready time of the lane.
    method Schedule(message: Message, now: int) returns (item: ActiveDanmaku)
      requires laneCount > 0
      modifies this`laneReadyAt
      ensures var p := Place(old(laneReadyAt), now, laneCount);
              laneReadyAt == Occupy(old(laneReadyAt), p) && item == ActiveDanmaku(p.start - now, p.lane, message)
    {
      var lane := AssignLane(laneReadyAt, now, Finite(laneCount as real));
      var startsAt := Availability(laneReadyAt, lane, now);
      laneReadyAt := laneReadyAt[lane := startsAt + LANE_GAP_MILLIS];
      item := ActiveDanmaku(startsAt - now, lane, message);
    }

    // Ids that no present message carries are forgotten, one by one.
    method ForgetAbsent(messages: seq<Message>)
      modifies this`seenMessageIds
      ensures seenMessageIds == old(seenMessageIds) * IdsOf(messages)
    {
      var retained := IdsOf(messages);
      var todo := seenMessageIds;
      while todo != {}
        invariant todo <= seenMessageIds <= old(seenMessageIds)
        invariant forall id :: id in old(seenMessageIds) && id !in todo ==> (id in seenMessageIds <==> id in retained)
        decreases |todo|
      {
        var id :| id in todo;
        todo := todo - {id};
        if id !in retained {
          seenMessageIds := seenMessageIds - {id};
        }
      }
    }
  }

  lemma SeenOneMore(messages: seq<Message>, seen: set<string>, m: nat)
    requires m < |messages|
    ensures IdsOf(messages[..m + 1]) == IdsOf(messages[..m]) + {messages[m].id}
    ensures Unseen(messages[..m + 1], seen) ==
            if messages[m].id in seen + IdsOf(messages[..m]) then Unseen(messages[..m], seen)
            else Unseen(messages[..m], seen) + [messages[m]]
  {
    var longer := messages[..m + 1];
    assert longer[..m] == messages[..m] && longer[m] == messages[m];
    assert forall i :: 0 <= i < m ==> longer[i] == messages[..m][i];
  }

  lemma PlaceOneMore(messages: seq<Message>, message: Message, lanes: LaneTimes, k: nat, now: int)
    requires k > 0
    ensures var (times, items) := PlaceAll(messages, lanes, k, now);
            var p := Place(times, now, k);
            PlaceAll(messages + [message], lanes, k, now)
            == (Occupy(times, p), items + [ActiveDanmaku(p.start - now, p.lane, message)])
  {
    assert (messages + [message])[..|messages|] == messages;
  }

  lemma ShownOneMore(messages: seq<Message>, message: Message, arrivals: seq<int>, skip: nat, k: nat, now: int)
    requires k > 0 && skip + |messages| == |arrivals|
    ensures var ps := Greedy(arrivals, k);
            var p := Place(TimesOf(ps), now, k);
            Shown(messages + [message], Greedy(arrivals + [now], k)[skip..], now)
            == Shown(messages, ps[skip..], now) + [ActiveDanmaku(p.start - now, p.lane, message)]
  {
    ArriveOneMore(arrivals, k, now);
    var ps := Greedy(arrivals, k);
    var more := ps[skip..] + [Place(TimesOf(ps), now, k)];
    assert (ps + [Place(TimesOf(ps), now, k)])[skip..] == more;
    assert (messages + [message])[..|messages|] == messages && more[..|messages|] == ps[skip..];
  }
}
