/** The accepted-packet pipeline of the broadcast manager (v10/internal/ws/manager.go): SubmitDanmaku on
    any number of reader goroutines, handleBroadcast on the manager's loop and processRedisPublish on the
    Redis workers. One move of one goroutine is one channel operation, one counter increment or one call,
    so every interleaving of the program is a sequence of moves. */
module IngressPipeline {
  import opened Wrappers

  const BROADCAST_BUFFER_SIZE := 512
  const REDIS_PUBLISH_BUFFER_SIZE := 512

  // The payload is raw JSON from outside: encoding the packet around it can fail.
  datatype Packet = Packet(messageId: string, room: string, encodable: bool)

  datatype Config = Config(redis: bool, persister: bool, redisWorkers: nat)

  // What a goroutine that carries a packet does next.
  datatype Place =
    | CountAccepted | Persist | CountKept | CountLost | CountRejected
    | Encode | CountQueued | CountFallback
    | Publish | CountPublished | CountCircuit | CountError
    | CountDegraded | HandOver

  datatype Point = Idle | At(place: Place, packet: Packet)

  // The counters of the manager.
  datatype Counter =
    | IngressAccepted | IngressDropped | PersistEnqueued | PersistDropped
    | RedisPublishQueued | RedisQueueFallbacks | RedisPublished
    | RedisCircuitFallbacks | RedisPublishErrors | RedisDegradedBroadcasts

  // What can happen to a packet.
  datatype What =
    | Accepted | Rejected | Kept | Lost | Unkept | Unencodable | Direct
    | Queued | Overflowed | Published | Refused | Failed | Handed

  // Thread 0 is the manager's loop, the next `redisWorkers` are Redis workers, the others read from
  // clients. `past` holds the packets to which each thing has happened, as often as it has.
  datatype State = State(
    threads: seq<Point>, broadcast: seq<Packet>, jobs: seq<Packet>,
    counters: Counter -> nat, past: What -> multiset<Packet>)

  datatype Answer = Delivered | CircuitOpen | PublishError

  /** A reader submits a packet, or a thread does what comes next; `answer` and `kept` are what the
      publisher and the persister say if they are asked. */
  datatype Move =
    | Submit(thread: nat, packet: Packet)
    | Proceed(thread: nat, answer: Answer, kept: bool)

  function Start(readers: nat, config: Config): State {
    State(seq(1 + config.redisWorkers + readers, _ => Idle), [], [], _ => 0, _ => multiset{})
  }

  // One thing a thread does: something happens to its packet, or it counts, and where it is then.
  datatype Act = Act(what: Option<What>, counter: Option<Counter>, point: Point)

  function Counting(counter: Counter, point: Point): Act { Act(None, Some(counter), point) }
  function Doing(what: What, point: Point): Act { Act(Some(what), None, point) }

  function SubmitDanmaku(p: Packet, full: bool): Act {
    if full then Doing(Rejected, At(CountRejected, p)) else Doing(Accepted, At(CountAccepted, p))
  }

  function Continue(config: Config, place: Place, p: Packet, full: bool, answer: Answer, kept: bool): Act {
    match place
    // SubmitDanmaku and EnqueuePersistence
    case CountAccepted => Counting(IngressAccepted, At(Persist, p))
    case Persist =>
      if !config.persister then Doing(Unkept, Idle)
      else if kept then Doing(Kept, At(CountKept, p))
      else Doing(Lost, At(CountLost, p))
    case CountKept => Counting(PersistEnqueued, Idle)
    case CountLost => Counting(PersistDropped, Idle)
    case CountRejected => Counting(IngressDropped, Idle)
    // handleBroadcast
    case Encode =>
      if !p.encodable then Doing(Unencodable, Idle)
      else if !config.redis then Doing(Direct, At(HandOver, p))
      else if full then Doing(Overflowed, At(CountFallback, p))
      else Doing(Queued, At(CountQueued, p))
    case CountQueued => Counting(RedisPublishQueued, Idle)
    case CountFallback => Counting(RedisQueueFallbacks, At(CountDegraded, p))
    // processRedisPublish
    case Publish =>
      (match answer
       case Delivered => Doing(Published, At(CountPublished, p))
       case CircuitOpen => Doing(Refused, At(CountCircuit, p))
       case PublishError => Doing(Failed, At(CountError, p)))
    case CountPublished => Counting(RedisPublished, Idle)
    case CountCircuit => Counting(RedisCircuitFallbacks, At(CountDegraded, p))
    case CountError => Counting(RedisPublishErrors, At(CountDegraded, p))
    // both
    case CountDegraded => Counting(RedisDegradedBroadcasts, At(HandOver, p))
    case HandOver => Doing(Handed, Idle)
  }

  // The act of a thread, on its packet.
  function Acted(s: State, t: nat, p: Packet, act: Act): State
    requires t < |s.threads|
  {
    State(
      s.threads[t := act.point],
      if act.what == Some(Accepted) then s.broadcast + [p] else s.broadcast,
      if act.what == Some(Queued) then s.jobs + [p] else s.jobs,
      c => s.counters(c) + (if act.counter == Some(c) then 1 else 0),
      w => if act.what == Some(w) then s.past(w) + multiset{p} else s.past(w))
  }

  // An idle thread receives the oldest packet of its channel.
  function TakePacket(s: State, t: nat): State
    requires t < |s.threads|
  {
    if s.broadcast == [] then s
    else s.(threads := s.threads[t := At(Encode, s.broadcast[0])], broadcast := s.broadcast[1..])
  }

  function TakeJob(s: State, t: nat): State
    requires t < |s.threads|
  {
    if s.jobs == [] then s
    else s.(threads := s.threads[t := At(Publish, s.jobs[0])], jobs := s.jobs[1..])
  }

  function Next(config: Config, s: State, move: Move): State {
    if move.thread >= |s.threads| then s
    else match move
      case Submit(t, p) =>
        if t > config.redisWorkers && s.threads[t] == Idle then
          Acted(s, t, p, SubmitDanmaku(p, |s.broadcast| == BROADCAST_BUFFER_SIZE))
        else s
      case Proceed(t, answer, kept) =>
        match s.threads[t]
        case Idle =>
          if t == 0 then TakePacket(s, t)
          else if t <= config.redisWorkers && config.redis then TakeJob(s, t)
          else s
        case At(place, p) =>
          Acted(s, t, p, Continue(config, place, p, |s.jobs| == REDIS_PUBLISH_BUFFER_SIZE, answer, kept))
  }

  function Run(config: Config, s: State, moves: seq<Move>): State {
    if moves == [] then s else Next(config, Run(config, s, moves[..|moves| - 1]), moves[|moves| - 1])
  }

  // -------- counting goroutines --------

  // What of a goroutine is counted: that it is at a place, or there with this packet, or how much it has
  // still to do.
  datatype Tally = Anyone(place: Place) | With(place: Place, packet: Packet) | Effort

  function One(point: Point, tally: Tally): nat {
    match point
    case Idle => 0
    case At(place, packet) =>
      match tally
      case Anyone(there) => if place == there then 1 else 0
      case With(there, p) => if place == there && packet == p then 1 else 0
      case Effort => Left(place)
  }

  // The most moves a goroutine at this place needs until it is idle, with those of the job it may queue.
  function Left(place: Place): nat {
    match place
    case CountAccepted => 3
    case Persist => 2
    case CountKept | CountLost | CountRejected | CountQueued | CountPublished | HandOver => 1
    case CountDegraded => 2
    case CountFallback | CountCircuit | CountError => 3
    case Publish => 4
    case Encode => 7
  }

  function Sum(threads: seq<Point>, tally: Tally): nat {
    if threads == [] then 0 else One(threads[0], tally) + Sum(threads[1..], tally)
  }

  lemma {:induction false} SumUpdate(threads: seq<Point>, t: nat, point: Point, tally: Tally)
    requires t < |threads|
    ensures Sum(threads[t := point], tally) + One(threads[t], tally) == Sum(threads, tally) + One(point, tally)
  {
    if t > 0 {
      SumUpdate(threads[1..], t - 1, point, tally);
      assert threads[t := point][1..] == threads[1..][t - 1 := point];
    } else {
      assert threads[t := point][1..] == threads[1..];
    }
  }

  lemma {:induction false} IdleSum(threads: seq<Point>, tally: Tally)
    requires forall t :: 0 <= t < |threads| ==> threads[t] == Idle
    ensures Sum(threads, tally) == 0
  {
    if threads != [] {
      IdleSum(threads[1..], tally);
    }
  }

  // -------- conservation --------

  // Every accepted packet is at one place, once.
  predicate PacketBalances(s: State, p: Packet) {
    && s.past(Accepted)[p]
       == multiset(s.broadcast)[p] + Sum(s.threads, With(Encode, p)) + s.past(Unencodable)[p]
          + s.past(Direct)[p] + s.past(Queued)[p] + s.past(Overflowed)[p]
    && s.past(Queued)[p]
       == multiset(s.jobs)[p] + Sum(s.threads, With(Publish, p))
          + s.past(Published)[p] + s.past(Refused)[p] + s.past(Failed)[p]
  }

  // Every packet that is not for Redis, or that Redis did not take, is handed to the local clients once.
  predicate HandOverBalances(s: State, p: Packet) {
    s.past(Direct)[p] + s.past(Overflowed)[p] + s.past(Refused)[p] + s.past(Failed)[p]
    == s.past(Handed)[p] + Sum(s.threads, With(CountFallback, p)) + Sum(s.threads, With(CountCircuit, p))
       + Sum(s.threads, With(CountError, p)) + Sum(s.threads, With(CountDegraded, p))
       + Sum(s.threads, With(HandOver, p))
  }

  // Every accepted packet, and no other, is offered to the persister, once.
  predicate HistoryBalances(s: State, p: Packet) {
    s.past(Accepted)[p]
    == Sum(s.threads, With(CountAccepted, p)) + Sum(s.threads, With(Persist, p))
       + s.past(Kept)[p] + s.past(Lost)[p] + s.past(Unkept)[p]
  }

  // Each counter is as high as its event is frequent, up to the goroutines that have yet to count.
  predicate CountersBalance(s: State) {
    IngressBalances(s) && RedisBalances(s) && DegradedBalances(s)
  }

  predicate IngressBalances(s: State) {
    && s.counters(IngressAccepted) + Sum(s.threads, Anyone(CountAccepted)) == |s.past(Accepted)|
    && s.counters(IngressDropped) + Sum(s.threads, Anyone(CountRejected)) == |s.past(Rejected)|
    && s.counters(PersistEnqueued) + Sum(s.threads, Anyone(CountKept)) == |s.past(Kept)|
    && s.counters(PersistDropped) + Sum(s.threads, Anyone(CountLost)) == |s.past(Lost)|
  }

  predicate RedisBalances(s: State) {
    && s.counters(RedisPublishQueued) + Sum(s.threads, Anyone(CountQueued)) == |s.past(Queued)|
    && s.counters(RedisQueueFallbacks) + Sum(s.threads, Anyone(CountFallback)) == |s.past(Overflowed)|
    && s.counters(RedisPublished) + Sum(s.threads, Anyone(CountPublished)) == |s.past(Published)|
    && s.counters(RedisCircuitFallbacks) + Sum(s.threads, Anyone(CountCircuit)) == |s.past(Refused)|
    && s.counters(RedisPublishErrors) + Sum(s.threads, Anyone(CountError)) == |s.past(Failed)|
  }

  predicate DegradedBalances(s: State) {
    s.counters(RedisDegradedBroadcasts) + Sum(s.threads, Anyone(CountFallback))
    + Sum(s.threads, Anyone(CountCircuit)) + Sum(s.threads, Anyone(CountError))
    + Sum(s.threads, Anyone(CountDegraded))
    == |s.past(Overflowed)| + |s.past(Refused)| + |s.past(Failed)|
  }

  // How many packets have gone each way, whichever they are.
  predicate TotalsBalance(s: State) {
    && |s.past(Accepted)|
       == |s.broadcast| + Sum(s.threads, Anyone(Encode)) + |s.past(Unencodable)|
          + |s.past(Direct)| + |s.past(Queued)| + |s.past(Overflowed)|
    && |s.past(Queued)|
       == |s.jobs| + Sum(s.threads, Anyone(Publish))
          + |s.past(Published)| + |s.past(Refused)| + |s.past(Failed)|
  }

  ghost predicate Balanced(s: State) {
    && (forall p :: PacketBalances(s, p))
    && (forall p :: HandOverBalances(s, p))
    && (forall p :: HistoryBalances(s, p))
    && CountersBalance(s) && TotalsBalance(s)
  }

  // -------- every act keeps the laws --------

  function Hit(act: Act, w: What): nat { if act.what == Some(w) then 1 else 0 }

  function Tick(act: Act, c: Counter): nat { if act.counter == Some(c) then 1 else 0 }

  function Here(point: Point, place: Place): nat { One(point, Anyone(place)) }

  // What comes in with an act goes out with it: packets that wait, hand-overs that are due, and packets
  // that are to be offered to the persister.
  predicate PacketsFlow(was: Point, act: Act) {
    && Here(was, Encode)
       == Here(act.point, Encode) + Hit(act, Unencodable) + Hit(act, Direct) + Hit(act, Queued) + Hit(act, Overflowed)
    && Here(was, Publish)
       == Here(act.point, Publish) + Hit(act, Published) + Hit(act, Refused) + Hit(act, Failed)
  }

  predicate HandOversFlow(was: Point, act: Act) {
    Hit(act, Direct) + Hit(act, Overflowed) + Hit(act, Refused) + Hit(act, Failed) + Degrading(was)
    == Hit(act, Handed) + Degrading(act.point)
  }

  predicate HistoryFlows(was: Point, act: Act) {
    Hit(act, Accepted) + Here(was, CountAccepted) + Here(was, Persist)
    == Here(act.point, CountAccepted) + Here(act.point, Persist) + Hit(act, Kept) + Hit(act, Lost) + Hit(act, Unkept)
  }

  predicate Flows(was: Point, act: Act) {
    PacketsFlow(was, act) && HandOversFlow(was, act) && HistoryFlows(was, act)
  }

  function Degrading(point: Point): nat {
    Here(point, CountFallback) + Here(point, CountCircuit) + Here(point, CountError)
    + Here(point, CountDegraded) + Here(point, HandOver)
  }

  // A thread that owes a count has had the event, and the other way round.
  predicate Owes(was: Point, act: Act, counter: Counter, place: Place, what: What) {
    Tick(act, counter) + Here(act.point, place) == Here(was, place) + Hit(act, what)
  }

  predicate IngressCounts(was: Point, act: Act) {
    && Owes(was, act, IngressAccepted, CountAccepted, Accepted)
    && Owes(was, act, IngressDropped, CountRejected, Rejected)
    && Owes(was, act, PersistEnqueued, CountKept, Kept)
    && Owes(was, act, PersistDropped, CountLost, Lost)
  }

  predicate RedisCounts(was: Point, act: Act) {
    && Owes(was, act, RedisPublishQueued, CountQueued, Queued)
    && Owes(was, act, RedisQueueFallbacks, CountFallback, Overflowed)
    && Owes(was, act, RedisPublished, CountPublished, Published)
    && Owes(was, act, RedisCircuitFallbacks, CountCircuit, Refused)
    && Owes(was, act, RedisPublishErrors, CountError, Failed)
  }

  predicate DegradedCounts(was: Point, act: Act) {
    Tick(act, RedisDegradedBroadcasts) + Degrading(act.point) + Here(was, HandOver)
    == Degrading(was) + Here(act.point, HandOver) + Hit(act, Overflowed) + Hit(act, Refused) + Hit(act, Failed)
  }

  predicate Counts(was: Point, act: Act) {
    IngressCounts(was, act) && RedisCounts(was, act) && DegradedCounts(was, act)
  }

  lemma ContinuePacketsFlow(config: Config, place: Place, q: Packet, full: bool, answer: Answer, kept: bool)
    ensures PacketsFlow(At(place, q), Continue(config, place, q, full, answer, kept))
  {
  }

  lemma ContinueHandOversFlow(config: Config, place: Place, q: Packet, full: bool, answer: Answer, kept: bool)
    ensures HandOversFlow(At(place, q), Continue(config, place, q, full, answer, kept))
  {
  }

  lemma ContinueHistoryFlows(config: Config, place: Place, q: Packet, full: bool, answer: Answer, kept: bool)
    ensures HistoryFlows(At(place, q), Continue(config, place, q, full, answer, kept))
  {
  }

  lemma ContinueIngressCounts(config: Config, place: Place, q: Packet, full: bool, answer: Answer, kept: bool)
    ensures IngressCounts(At(place, q), Continue(config, place, q, full, answer, kept))
  {
  }

  lemma ContinueRedisCounts(config: Config, place: Place, q: Packet, full: bool, answer: Answer, kept: bool)
    ensures RedisCounts(At(place, q), Continue(config, place, q, full, answer, kept))
  {
  }

  lemma ContinueDegradedCounts(config: Config, place: Place, q: Packet, full: bool, answer: Answer, kept: bool)
    ensures DegradedCounts(At(place, q), Continue(config, place, q, full, answer, kept))
  {
  }

  lemma ContinueFlows(config: Config, place: Place, q: Packet, full: bool, answer: Answer, kept: bool)
    ensures var act := Continue(config, place, q, full, answer, kept);
            Flows(At(place, q), act) && Counts(At(place, q), act)
  {
    ContinuePacketsFlow(config, place, q, full, answer, kept);
    ContinueHandOversFlow(config, place, q, full, answer, kept);
    ContinueHistoryFlows(config, place, q, full, answer, kept);
    ContinueIngressCounts(config, place, q, full, answer, kept);
    ContinueRedisCounts(config, place, q, full, answer, kept);
    ContinueDegradedCounts(config, place, q, full, answer, kept);
  }

  lemma SubmitFlows(q: Packet, full: bool)
    ensures Flows(Idle, SubmitDanmaku(q, full))
  {
  }

  lemma SubmitCounts(q: Packet, full: bool)
    ensures Counts(Idle, SubmitDanmaku(q, full))
  {
  }

  // The thread and the act are about the same packet.
  predicate About(q: Packet, was: Point, act: Act) {
    (was.At? ==> was.packet == q) && (act.point.At? ==> act.point.packet == q)
  }

  lemma Changes(s: State, t: nat, q: Packet, act: Act, p: Packet)
    requires t < |s.threads| && About(q, s.threads[t], act)
    ensures var next := Acted(s, t, q, act);
            && (forall w :: next.past(w)[p] == s.past(w)[p] + (if p == q then Hit(act, w) else 0))
            && (forall w :: |next.past(w)| == |s.past(w)| + Hit(act, w))
            && multiset(next.broadcast)[p] == multiset(s.broadcast)[p] + (if p == q then Hit(act, Accepted) else 0)
            && multiset(next.jobs)[p] == multiset(s.jobs)[p] + (if p == q then Hit(act, Queued) else 0)
  {
  }

  lemma Moves(s: State, t: nat, q: Packet, act: Act, p: Packet)
    requires t < |s.threads| && About(q, s.threads[t], act)
    ensures var next := Acted(s, t, q, act);
            && (forall place :: Sum(next.threads, Anyone(place)) + Here(s.threads[t], place)
                                == Sum(s.threads, Anyone(place)) + Here(act.point, place))
            && (forall place :: Sum(next.threads, With(place, p)) + (if p == q then Here(s.threads[t], place) else 0)
                                == Sum(s.threads, With(place, p)) + (if p == q then Here(act.point, place) else 0))
  {
    forall tally
      ensures Sum(s.threads[t := act.point], tally) + One(s.threads[t], tally)
              == Sum(s.threads, tally) + One(act.point, tally)
    {
      SumUpdate(s.threads, t, act.point, tally);
    }
  }

  lemma FlowsBalance(s: State, t: nat, q: Packet, act: Act, p: Packet)
    requires t < |s.threads| && About(q, s.threads[t], act) && Flows(s.threads[t], act)
    requires PacketBalances(s, p) && HandOverBalances(s, p) && HistoryBalances(s, p)
    ensures PacketBalances(Acted(s, t, q, act), p) && HandOverBalances(Acted(s, t, q, act), p)
    ensures HistoryBalances(Acted(s, t, q, act), p)
  {
    Changes(s, t, q, act, p);
    Moves(s, t, q, act, p);
  }

  lemma IngressCountsBalance(s: State, t: nat, q: Packet, act: Act)
    requires t < |s.threads| && About(q, s.threads[t], act)
    requires IngressCounts(s.threads[t], act) && IngressBalances(s)
    ensures IngressBalances(Acted(s, t, q, act))
  {
    Changes(s, t, q, act, q);
    Moves(s, t, q, act, q);
  }

  lemma RedisCountsBalance(s: State, t: nat, q: Packet, act: Act)
    requires t < |s.threads| && About(q, s.threads[t], act)
    requires RedisCounts(s.threads[t], act) && RedisBalances(s)
    ensures RedisBalances(Acted(s, t, q, act))
  {
    Changes(s, t, q, act, q);
    Moves(s, t, q, act, q);
  }

  lemma DegradedCountsBalance(s: State, t: nat, q: Packet, act: Act)
    requires t < |s.threads| && About(q, s.threads[t], act)
    requires DegradedCounts(s.threads[t], act) && DegradedBalances(s)
    ensures DegradedBalances(Acted(s, t, q, act))
  {
    Changes(s, t, q, act, q);
    Moves(s, t, q, act, q);
  }

  lemma CountsBalance(s: State, t: nat, q: Packet, act: Act)
    requires t < |s.threads| && About(q, s.threads[t], act)
    requires Counts(s.threads[t], act) && CountersBalance(s)
    ensures CountersBalance(Acted(s, t, q, act))
  {
    IngressCountsBalance(s, t, q, act);
    RedisCountsBalance(s, t, q, act);
    DegradedCountsBalance(s, t, q, act);
  }

  lemma TotalsStay(s: State, t: nat, q: Packet, act: Act)
    requires t < |s.threads| && About(q, s.threads[t], act)
    requires Flows(s.threads[t], act) && TotalsBalance(s)
    ensures TotalsBalance(Acted(s, t, q, act))
  {
    Changes(s, t, q, act, q);
    Moves(s, t, q, act, q);
  }

  lemma ActBalances(s: State, t: nat, q: Packet, act: Act)
    requires t < |s.threads| && About(q, s.threads[t], act)
    requires Flows(s.threads[t], act) && Counts(s.threads[t], act)
    requires Balanced(s)
    ensures Balanced(Acted(s, t, q, act))
  {
    forall p {
      FlowsBalance(s, t, q, act, p);
    }
    CountsBalance(s, t, q, act);
    TotalsStay(s, t, q, act);
  }

  lemma HeadCounts(packets: seq<Packet>, p: Packet)
    requires packets != []
    ensures multiset(packets)[p] == multiset(packets[1..])[p] + (if packets[0] == p then 1 else 0)
  {
    assert packets == [packets[0]] + packets[1..];
  }

  // What an idle thread receives leaves its channel for the first place of its code.
  lemma ReceivedKeepsPacket(s: State, t: nat, next: State, p: Packet)
    requires t < |s.threads| && s.threads[t] == Idle
    requires (s.broadcast != [] && next == TakePacket(s, t)) || (s.jobs != [] && next == TakeJob(s, t))
    requires PacketBalances(s, p)
    ensures PacketBalances(next, p)
  {
    SumUpdate(s.threads, t, next.threads[t], With(Encode, p));
    SumUpdate(s.threads, t, next.threads[t], With(Publish, p));
    if s.broadcast != [] { HeadCounts(s.broadcast, p); }
    if s.jobs != [] { HeadCounts(s.jobs, p); }
  }

  lemma ReceivedKeepsOthers(s: State, t: nat, next: State, p: Packet)
    requires t < |s.threads| && s.threads[t] == Idle
    requires (s.broadcast != [] && next == TakePacket(s, t)) || (s.jobs != [] && next == TakeJob(s, t))
    requires HandOverBalances(s, p) && HistoryBalances(s, p)
    ensures HandOverBalances(next, p) && HistoryBalances(next, p)
  {
    forall place | place != Encode && place != Publish
      ensures Sum(next.threads, With(place, p)) == Sum(s.threads, With(place, p))
    {
      SumUpdate(s.threads, t, next.threads[t], With(place, p));
    }
  }

  lemma ReceivedKeepsCounts(s: State, t: nat, next: State)
    requires t < |s.threads| && s.threads[t] == Idle
    requires (s.broadcast != [] && next == TakePacket(s, t)) || (s.jobs != [] && next == TakeJob(s, t))
    requires CountersBalance(s)
    ensures CountersBalance(next)
  {
    forall place | place != Encode && place != Publish
      ensures Sum(next.threads, Anyone(place)) == Sum(s.threads, Anyone(place))
    {
      SumUpdate(s.threads, t, next.threads[t], Anyone(place));
    }
  }

  lemma ReceivedKeepsTotals(s: State, t: nat, next: State)
    requires t < |s.threads| && s.threads[t] == Idle
    requires (s.broadcast != [] && next == TakePacket(s, t)) || (s.jobs != [] && next == TakeJob(s, t))
    requires TotalsBalance(s)
    ensures TotalsBalance(next)
  {
    SumUpdate(s.threads, t, next.threads[t], Anyone(Encode));
    SumUpdate(s.threads, t, next.threads[t], Anyone(Publish));
  }

  lemma ReceivedBalances(s: State, t: nat, next: State)
    requires t < |s.threads| && s.threads[t] == Idle
    requires (s.broadcast != [] && next == TakePacket(s, t)) || (s.jobs != [] && next == TakeJob(s, t))
    requires Balanced(s)
    ensures Balanced(next)
  {
    forall p ensures PacketBalances(next, p) && HandOverBalances(next, p) && HistoryBalances(next, p) {
      ReceivedKeepsPacket(s, t, next, p);
      ReceivedKeepsOthers(s, t, next, p);
    }
    ReceivedKeepsCounts(s, t, next);
    ReceivedKeepsTotals(s, t, next);
  }

  lemma ContinueBalances(config: Config, s: State, t: nat, place: Place, q: Packet, full: bool, answer: Answer,
                         kept: bool)
    requires t < |s.threads| && s.threads[t] == At(place, q) && Balanced(s)
    ensures Balanced(Acted(s, t, q, Continue(config, place, q, full, answer, kept)))
  {
    var act := Continue(config, place, q, full, answer, kept);
    ContinueFlows(config, place, q, full, answer, kept);
    assert act.point.At? ==> act.point.packet == q;
    ActBalances(s, t, q, act);
  }

  lemma NextBalances(config: Config, s: State, move: Move)
    requires Balanced(s)
    ensures Balanced(Next(config, s, move))
  {
    var t := move.thread;
    if t < |s.threads| {
      if move.Submit? {
        if s.threads[t] == Idle {
          var full := |s.broadcast| == BROADCAST_BUFFER_SIZE;
          SubmitFlows(move.packet, full);
          SubmitCounts(move.packet, full);
          ActBalances(s, t, move.packet, SubmitDanmaku(move.packet, full));
        }
      } else if s.threads[t] == Idle {
        if s.broadcast != [] { ReceivedBalances(s, t, TakePacket(s, t)); }
        if s.jobs != [] { ReceivedBalances(s, t, TakeJob(s, t)); }
      } else {
        var At(place, q) := s.threads[t];
        ContinueBalances(config, s, t, place, q, |s.jobs| == REDIS_PUBLISH_BUFFER_SIZE, move.answer, move.kept);
      }
    }
  }

  // -------- who does what --------

  predicate Suits(config: Config, t: nat, place: Place) {
    match place
    case CountAccepted | Persist | CountKept | CountLost | CountRejected => t > config.redisWorkers
    case Encode | CountQueued | CountFallback => t == 0
    case Publish | CountPublished | CountCircuit | CountError => 0 < t <= config.redisWorkers
    case CountDegraded | HandOver => t <= config.redisWorkers
  }

  // Each goroutine runs its own code, the channels keep their capacities, and Redis is used if configured.
  predicate Orderly(config: Config, s: State) {
    && config.redisWorkers < |s.threads|
    && |s.broadcast| <= BROADCAST_BUFFER_SIZE && |s.jobs| <= REDIS_PUBLISH_BUFFER_SIZE
    && (config.redis ==> s.past(Direct) == multiset{})
    && (!config.redis ==> s.jobs == [])
    && (forall t :: 0 <= t < |s.threads| && s.threads[t].At? ==> Suits(config, t, s.threads[t].place))
  }

  lemma ContinueIsOrderly(config: Config, t: nat, place: Place, q: Packet, full: bool, answer: Answer, kept: bool)
    requires Suits(config, t, place)
    ensures var act := Continue(config, place, q, full, answer, kept);
            && (act.point.At? ==> Suits(config, t, act.point.place))
            && act.what != Some(Accepted)
            && (config.redis ==> act.what != Some(Direct))
            && (act.what == Some(Queued) ==> config.redis && !full)
  {
  }

  lemma NextIsOrderly(config: Config, s: State, move: Move)
    requires Orderly(config, s)
    ensures Orderly(config, Next(config, s, move))
  {
    if move.Proceed? && move.thread < |s.threads| && s.threads[move.thread].At? {
      var At(place, q) := s.threads[move.thread];
      ContinueIsOrderly(config, move.thread, place, q, |s.jobs| == REDIS_PUBLISH_BUFFER_SIZE, move.answer, move.kept);
    }
  }

  // -------- the results --------

  // The states the system can reach.
  function After(config: Config, readers: nat, moves: seq<Move>): State {
    Run(config, Start(readers, config), moves)
  }

  lemma {:induction false} RunIsLawful(config: Config, readers: nat, moves: seq<Move>)
    ensures Balanced(After(config, readers, moves)) && Orderly(config, After(config, readers, moves))
  {
    if moves == [] {
      forall tally {
        IdleSum(Start(readers, config).threads, tally);
      }
    } else {
      RunIsLawful(config, readers, moves[..|moves| - 1]);
      NextBalances(config, After(config, readers, moves[..|moves| - 1]), moves[|moves| - 1]);
      NextIsOrderly(config, After(config, readers, moves[..|moves| - 1]), moves[|moves| - 1]);
    }
  }

  /** The counters account for every packet at every moment, up to the goroutines that are between the two
      halves of a step and the packets that could not be encoded. */
  lemma IngressIsConserved(config: Config, readers: nat, moves: seq<Move>)
    requires config.redis
    ensures var s := After(config, readers, moves);
            && s.counters(IngressAccepted) + Sum(s.threads, Anyone(CountAccepted))
               == |s.broadcast| + Sum(s.threads, Anyone(Encode)) + |s.past(Unencodable)|
                  + s.counters(RedisPublishQueued) + Sum(s.threads, Anyone(CountQueued))
                  + s.counters(RedisQueueFallbacks) + Sum(s.threads, Anyone(CountFallback))
            && s.counters(RedisPublishQueued) + Sum(s.threads, Anyone(CountQueued))
               == |s.jobs| + Sum(s.threads, Anyone(Publish))
                  + s.counters(RedisPublished) + Sum(s.threads, Anyone(CountPublished))
                  + s.counters(RedisCircuitFallbacks) + Sum(s.threads, Anyone(CountCircuit))
                  + s.counters(RedisPublishErrors) + Sum(s.threads, Anyone(CountError))
            && s.counters(RedisDegradedBroadcasts) + Sum(s.threads, Anyone(CountDegraded))
               == s.counters(RedisQueueFallbacks) + s.counters(RedisCircuitFallbacks) + s.counters(RedisPublishErrors)
  {
    RunIsLawful(config, readers, moves);
  }

  /** No packet is both published and handed to the local clients, nor either of them twice, however it is
      scheduled: what has happened to it in the end never exceeds how often it was accepted. */
  lemma EachPacketEndsOnce(config: Config, readers: nat, moves: seq<Move>, p: Packet)
    ensures var s := After(config, readers, moves);
            && s.past(Published)[p] + s.past(Handed)[p] + s.past(Unencodable)[p] <= s.past(Accepted)[p]
            && s.past(Kept)[p] + s.past(Lost)[p] <= s.past(Accepted)[p]
    ensures forall w :: After(config, readers, moves).past(w)[p] == Times(config, readers, moves, w, p)
  {
    forall w {
      HistoryIsAnswered(config, readers, moves, w, p);
    }
    RunIsLawful(config, readers, moves);
    assert PacketBalances(After(config, readers, moves), p);
    assert HandOverBalances(After(config, readers, moves), p);
    assert HistoryBalances(After(config, readers, moves), p);
  }

  predicate Quiet(s: State) {
    s.broadcast == [] && s.jobs == [] && forall t :: 0 <= t < |s.threads| ==> s.threads[t] == Idle
  }

  /** When nothing is under way, every accepted packet has been published, or handed to the local clients,
      or could not be encoded, and exactly one of these per acceptance; and with Redis every one that was
      handed over is in a fallback or error counter. */
  lemma QuietIsSettled(config: Config, readers: nat, moves: seq<Move>)
    requires Quiet(After(config, readers, moves))
    ensures var s := After(config, readers, moves);
            && s.past(Accepted) == s.past(Published) + s.past(Handed) + s.past(Unencodable)
            && s.past(Accepted) == s.past(Kept) + s.past(Lost) + s.past(Unkept)
            && s.counters(IngressAccepted) == |s.past(Accepted)|
            && s.counters(RedisPublished) == |s.past(Published)|
            && (config.redis ==>
                  s.counters(RedisDegradedBroadcasts) == |s.past(Handed)|
                  == s.counters(RedisQueueFallbacks) + s.counters(RedisCircuitFallbacks)
                     + s.counters(RedisPublishErrors))
  {
    RunIsLawful(config, readers, moves);
    QuietPackets(After(config, readers, moves));
    QuietTotals(After(config, readers, moves));
  }

  lemma QuietTotals(s: State)
    requires Quiet(s) && CountersBalance(s) && TotalsBalance(s)
    ensures s.counters(IngressAccepted) == |s.past(Accepted)| && s.counters(RedisPublished) == |s.past(Published)|
    ensures s.counters(RedisDegradedBroadcasts) == |s.past(Overflowed)| + |s.past(Refused)| + |s.past(Failed)|
            == s.counters(RedisQueueFallbacks) + s.counters(RedisCircuitFallbacks) + s.counters(RedisPublishErrors)
    ensures |s.past(Accepted)| == |s.past(Unencodable)| + |s.past(Direct)| + |s.past(Overflowed)|
                                  + |s.past(Published)| + |s.past(Refused)| + |s.past(Failed)|
  {
    forall place {
      IdleSum(s.threads, Anyone(place));
    }
  }

  lemma QuietPackets(s: State)
    requires Quiet(s) && Balanced(s)
    ensures s.past(Accepted) == s.past(Published) + s.past(Handed) + s.past(Unencodable)
    ensures s.past(Accepted) == s.past(Kept) + s.past(Lost) + s.past(Unkept)
  {
    forall tally {
      IdleSum(s.threads, tally);
    }
    forall p
      ensures s.past(Accepted)[p] == s.past(Published)[p] + s.past(Handed)[p] + s.past(Unencodable)[p]
      ensures s.past(Accepted)[p] == s.past(Kept)[p] + s.past(Lost)[p] + s.past(Unkept)[p]
    {
      assert PacketBalances(s, p) && HandOverBalances(s, p) && HistoryBalances(s, p);
    }
    assert s.past(Accepted) == s.past(Published) + s.past(Handed) + s.past(Unencodable);
    assert s.past(Accepted) == s.past(Kept) + s.past(Lost) + s.past(Unkept);
  }

  // -------- the answers decide --------

  // A goroutine that is at this place with this packet makes this move.
  predicate GoesOn(s: State, move: Move, place: Place, p: Packet) {
    move.Proceed? && move.thread < |s.threads| && s.threads[move.thread] == At(place, p)
  }

  predicate Submits(config: Config, s: State, move: Move, p: Packet) {
    && move.Submit? && move.packet == p
    && config.redisWorkers < move.thread < |s.threads| && s.threads[move.thread] == Idle
  }

  /** Whether a move makes this happen to the packet, read off the state before it and off what is answered: the
      channels are full or not, the packet can be encoded or not, the persister keeps it or not, and the
      publisher says what became of it. */
  predicate Befalls(config: Config, s: State, move: Move, w: What, p: Packet) {
    match w
    case Accepted => Submits(config, s, move, p) && |s.broadcast| < 512
    case Rejected => Submits(config, s, move, p) && |s.broadcast| == 512
    case Kept => GoesOn(s, move, Persist, p) && config.persister && move.kept
    case Lost => GoesOn(s, move, Persist, p) && config.persister && !move.kept
    case Unkept => GoesOn(s, move, Persist, p) && !config.persister
    case Unencodable => GoesOn(s, move, Encode, p) && !p.encodable
    case Direct => GoesOn(s, move, Encode, p) && p.encodable && !config.redis
    case Queued =>
      GoesOn(s, move, Encode, p) && p.encodable && config.redis && |s.jobs| < 512
    case Overflowed =>
      GoesOn(s, move, Encode, p) && p.encodable && config.redis && |s.jobs| == 512
    case Published => GoesOn(s, move, Publish, p) && move.answer == Delivered
    case Refused => GoesOn(s, move, Publish, p) && move.answer == CircuitOpen
    case Failed => GoesOn(s, move, Publish, p) && move.answer == PublishError
    case Handed => GoesOn(s, move, HandOver, p)
  }

  // How often it has happened to the packet in a run.
  function Times(config: Config, readers: nat, moves: seq<Move>, w: What, p: Packet): nat {
    if moves == [] then 0
    else
      var before, last := moves[..|moves| - 1], moves[|moves| - 1];
      Times(config, readers, before, w, p)
      + (if Befalls(config, After(config, readers, before), last, w, p) then 1 else 0)
  }

  lemma ContinueIsAnswered(config: Config, s: State, move: Move, place: Place, q: Packet, w: What)
    requires Orderly(config, s) && GoesOn(s, move, place, q)
    ensures Continue(config, place, q, |s.jobs| == REDIS_PUBLISH_BUFFER_SIZE, move.answer, move.kept).what == Some(w)
            <==> Befalls(config, s, move, w, q)
  {
  }

  lemma NextIsAnswered(config: Config, s: State, move: Move, w: What, p: Packet)
    requires Orderly(config, s)
    ensures Next(config, s, move).past(w)[p] == s.past(w)[p] + (if Befalls(config, s, move, w, p) then 1 else 0)
  {
    if move.Proceed? && move.thread < |s.threads| && s.threads[move.thread].At? {
      var At(place, q) := s.threads[move.thread];
      ContinueIsAnswered(config, s, move, place, q, w);
    }
  }

  /** What has happened to a packet, and how often, is what was answered. */
  lemma {:induction false} HistoryIsAnswered(config: Config, readers: nat, moves: seq<Move>, w: What, p: Packet)
    ensures After(config, readers, moves).past(w)[p] == Times(config, readers, moves, w, p)
  {
    if moves != [] {
      HistoryIsAnswered(config, readers, moves[..|moves| - 1], w, p);
      RunIsLawful(config, readers, moves[..|moves| - 1]);
      NextIsAnswered(config, After(config, readers, moves[..|moves| - 1]), moves[|moves| - 1], w, p);
    }
  }

  /** When nothing is under way, a packet has been handed to the local clients as often as the publisher refused it
      or failed, the Redis queue was full, or there was no Redis, and never otherwise; so one that was accepted
      once and delivered is never handed over, and one that was not delivered is handed over once. It was
      published as often as the publisher delivered it, and offered to the persister as often as it was
      accepted. */
  lemma AnswersDecide(config: Config, readers: nat, moves: seq<Move>, p: Packet)
    requires Quiet(After(config, readers, moves))
    ensures var times := w => Times(config, readers, moves, w, p);
            && times(Handed) == times(Refused) + times(Failed) + times(Overflowed) + times(Direct)
            && times(Queued) == times(Published) + times(Refused) + times(Failed)
            && times(Accepted) == times(Unencodable) + times(Direct) + times(Queued) + times(Overflowed)
            && times(Accepted) == times(Kept) + times(Lost) + times(Unkept)
            && (times(Accepted) == 1 && times(Published) == 1 ==> times(Handed) == 0)
            && (times(Accepted) == 1 && p.encodable && times(Published) == 0 ==> times(Handed) == 1)
  {
    var s := After(config, readers, moves);
    RunIsLawful(config, readers, moves);
    forall w ensures s.past(w)[p] == Times(config, readers, moves, w, p) {
      HistoryIsAnswered(config, readers, moves, w, p);
    }
    forall tally {
      IdleSum(s.threads, tally);
    }
    assert PacketBalances(s, p) && HandOverBalances(s, p) && HistoryBalances(s, p);
    if p.encodable {
      AlwaysEncoded(config, readers, moves, p);
    }
  }

  lemma {:induction false} AlwaysEncoded(config: Config, readers: nat, moves: seq<Move>, p: Packet)
    requires p.encodable
    ensures Times(config, readers, moves, Unencodable, p) == 0
  {
    if moves != [] {
      AlwaysEncoded(config, readers, moves[..|moves| - 1], p);
    }
  }

  // Each counter counts its event, once every goroutine has counted.
  lemma QuietCounters(config: Config, readers: nat, moves: seq<Move>)
    requires Quiet(After(config, readers, moves))
    ensures var s := After(config, readers, moves);
            && s.counters(IngressAccepted) == |s.past(Accepted)| && s.counters(IngressDropped) == |s.past(Rejected)|
            && s.counters(PersistEnqueued) == |s.past(Kept)| && s.counters(PersistDropped) == |s.past(Lost)|
            && s.counters(RedisPublishQueued) == |s.past(Queued)|
            && s.counters(RedisQueueFallbacks) == |s.past(Overflowed)|
            && s.counters(RedisPublished) == |s.past(Published)|
            && s.counters(RedisCircuitFallbacks) == |s.past(Refused)|
            && s.counters(RedisPublishErrors) == |s.past(Failed)|
            && s.counters(RedisDegradedBroadcasts) == |s.past(Overflowed)| + |s.past(Refused)| + |s.past(Failed)|
  {
    RunIsLawful(config, readers, moves);
    forall place {
      IdleSum(After(config, readers, moves).threads, Anyone(place));
    }
  }

  // -------- it drains --------

  function Work(s: State): nat {
    8 * |s.broadcast| + 5 * |s.jobs| + Sum(s.threads, Effort)
  }

  lemma ContinueIsWork(config: Config, place: Place, q: Packet, full: bool, answer: Answer, kept: bool)
    ensures var act := Continue(config, place, q, full, answer, kept);
            && One(act.point, Effort) + 5 * Hit(act, Queued) < Left(place)
            && act.what != Some(Accepted)
  {
  }

  // Unless everything is quiet some thread can go on, whatever the publisher and the persister answer.
  lemma NeverStuck(config: Config, s: State, answer: Answer, kept: bool) returns (t: nat)
    requires Orderly(config, s) && !Quiet(s) && (config.redis ==> config.redisWorkers > 0)
    ensures t < |s.threads| && Next(config, s, Proceed(t, answer, kept)) != s
  {
    if i :| 0 <= i < |s.threads| && s.threads[i].At? {
      var At(place, q) := s.threads[i];
      t := i;
      ContinueIsWork(config, place, q, |s.jobs| == REDIS_PUBLISH_BUFFER_SIZE, answer, kept);
      assert Next(config, s, Proceed(t, answer, kept)).threads[t] != s.threads[t];
    } else if s.broadcast != [] {
      t := 0;
      assert s.threads[0] == Idle;
      assert Next(config, s, Proceed(t, answer, kept)).threads[0].At?;
    } else {
      t := 1;
      assert s.threads[1] == Idle;
      assert Next(config, s, Proceed(t, answer, kept)).threads[1].At?;
    }
  }

  lemma GoingOnIsWork(config: Config, s: State, t: nat, answer: Answer, kept: bool)
    requires Orderly(config, s) && Next(config, s, Proceed(t, answer, kept)) != s
    ensures Work(Next(config, s, Proceed(t, answer, kept))) < Work(s)
  {
    var next := Next(config, s, Proceed(t, answer, kept));
    SumUpdate(s.threads, t, next.threads[t], Effort);
    if s.threads[t].At? {
      var At(place, q) := s.threads[t];
      ContinueIsWork(config, place, q, |s.jobs| == REDIS_PUBLISH_BUFFER_SIZE, answer, kept);
    }
  }

  // No submissions, and every move gets something done.
  ghost predicate Draining(config: Config, s: State, moves: seq<Move>) {
    moves == [] ||
    var before := moves[..|moves| - 1];
    var last := moves[|moves| - 1];
    && Draining(config, s, before) && last.Proceed?
    && (var reached := Run(config, s, before); Next(config, reached, last) != reached)
  }

  /** Once submissions stop, every schedule is over after at most `Work` effective moves, and one that
      cannot be continued has left everything quiet: no goroutine waits for ever. */
  lemma {:induction false} EveryScheduleDrains(config: Config, s: State, moves: seq<Move>)
    requires Orderly(config, s) && (config.redis ==> config.redisWorkers > 0)
    requires Draining(config, s, moves)
    ensures Orderly(config, Run(config, s, moves))
    ensures |moves| + Work(Run(config, s, moves)) <= Work(s)
    ensures (forall t, answer, kept :: !Draining(config, s, moves + [Proceed(t, answer, kept)]))
            ==> Quiet(Run(config, s, moves))
  {
    var last := Run(config, s, moves);
    if moves != [] {
      var before := moves[..|moves| - 1];
      EveryScheduleDrains(config, s, before);
      var Proceed(t, answer, kept) := moves[|moves| - 1];
      NextIsOrderly(config, Run(config, s, before), moves[|moves| - 1]);
      GoingOnIsWork(config, Run(config, s, before), t, answer, kept);
    }
    if !Quiet(last) {
      var t := NeverStuck(config, last, Delivered, true);
      var more := moves + [Proceed(t, Delivered, true)];
      assert more[..|more| - 1] == moves;
      assert Draining(config, s, more);
    }
  }
}
