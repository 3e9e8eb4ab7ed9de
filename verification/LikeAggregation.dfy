/** Likes on their way from the readers to Redis (v10/internal/ws/manager.go): AddLike adds to a map in
    memory, a statistics tick drains it and flushes it room by room. `Aggregator` has the code's methods;
    the machine interleaves AddLike, rooms that come and go, and the steps of ticks. */
module LikeAggregation {
  import opened Wrappers

  type Room = string

  function Of(likes: map<Room, nat>, room: Room): nat {
    if room in likes then likes[room] else 0
  }

  function Plus(likes: map<Room, nat>, room: Room, count: nat): map<Room, nat> {
    likes[room := Of(likes, room) + count]
  }

  // A like without a count is one like.
  function Worth(count: nat): nat { if count == 0 then 1 else count }

  /** How flushing one room can end. The circuit is open or the online report fails; the increment fails,
      though Redis may have applied it; a read after the increment fails; or nothing does. */
  datatype Outcome = Refused | IncrementFailed(applied: bool) | ReadFailed | Complete

  // Whether the amount counts as flushed. Without likes no increment is made.
  predicate Flushes(redis: bool, outcome: Outcome) {
    !redis || outcome.ReadFailed? || outcome.Complete?
  }

  // What Redis adds to the room's total.
  function Reaches(redis: bool, outcome: Outcome, delta: nat): nat {
    if !redis || outcome == Refused || outcome == IncrementFailed(false) then 0 else delta
  }

  // -------- the machine --------

  // The statistics goroutine: at most one runs. `failed` is the room whose likes it has to put back next.
  datatype Tick =
    | Off
    | Begun
    | Counted(rooms: set<Room>)
    | Flushing(todo: set<Room>, deltas: map<Room, nat>, failed: Option<Room>)

  // `added`, `flushed`, `discarded` and `ambiguous` are what each room's likes have come to; `ambiguous` are
  // those that Redis has applied and reported as failed.
  datatype Ledger = Ledger(
    added: map<Room, nat>, flushed: map<Room, nat>, discarded: map<Room, nat>, ambiguous: map<Room, nat>)

  datatype State = State(
    rooms: set<Room>, localLikes: map<Room, nat>, localLikeTotals: map<Room, nat>,
    tick: Tick, ticksSkipped: nat, redisLikes: map<Room, nat>, ledger: Ledger)

  const START := State({}, map[], map[], Off, 0, map[], Ledger(map[], map[], map[], map[]))

  datatype Move =
    | AddLike(room: Room, count: nat)
    | RoomOpens(room: Room)
    | RoomCloses(room: Room)
    | TickFires
    | TickGoesOn(room: Room, outcome: Outcome)

  function Next(redis: bool, s: State, move: Move): State {
    match move
    case AddLike(room, count) =>
      s.(localLikes := Plus(s.localLikes, room, Worth(count)),
         localLikeTotals := Plus(s.localLikeTotals, room, Worth(count)),
         ledger := s.ledger.(added := Plus(s.ledger.added, room, Worth(count))))
    case RoomOpens(room) => s.(rooms := s.rooms + {room})
    case RoomCloses(room) => s.(rooms := s.rooms - {room})
    case TickFires =>
      if s.tick == Off then s.(tick := Begun) else s.(ticksSkipped := s.ticksSkipped + 1)
    case TickGoesOn(room, outcome) => GoOn(redis, s, room, outcome)
  }

  function GoOn(redis: bool, s: State, room: Room, outcome: Outcome): State {
    match s.tick
    case Off => s
    case Begun => s.(tick := if s.rooms == {} then Off else Counted(s.rooms))
    case Counted(rooms) => Drained(s, rooms)
    case Flushing(todo, deltas, failed) =>
      if failed.Some? then
        s.(tick := Flushing(todo, deltas, None),
           localLikes := Plus(s.localLikes, failed.value, Of(deltas, failed.value)))
      else if todo == {} then s.(tick := Off)
      else if room in todo then Flushed(redis, s, todo, deltas, room, outcome)
      else s
  }

  // The whole map is taken. The rooms that were not counted are not looked at again.
  function Drained(s: State, rooms: set<Room>): State {
    s.(tick := Flushing(rooms, s.localLikes, None), localLikes := map[],
       ledger := s.ledger.(discarded := Discard(s.ledger.discarded, s.localLikes, rooms)))
  }

  function Discard(discarded: map<Room, nat>, likes: map<Room, nat>, rooms: set<Room>): map<Room, nat> {
    map room | room in discarded.Keys + likes.Keys ::
      Of(discarded, room) + (if room in rooms then 0 else Of(likes, room))
  }

  function Flushed(redis: bool, s: State, todo: set<Room>, deltas: map<Room, nat>, room: Room,
                   outcome: Outcome): State {
    var delta := Of(deltas, room);
    var reached := s.(redisLikes := Plus(s.redisLikes, room, Reaches(redis, outcome, delta)));
    if Flushes(redis, outcome) then
      reached.(tick := Flushing(todo - {room}, deltas, None),
               ledger := s.ledger.(flushed := Plus(s.ledger.flushed, room, delta)))
    else
      reached.(tick := Flushing(todo - {room}, deltas, if delta > 0 then Some(room) else None),
               ledger := s.ledger.(ambiguous := Plus(s.ledger.ambiguous, room, Reaches(redis, outcome, delta))))
  }

  function Follow(redis: bool, s: State, moves: seq<Move>): State {
    if moves == [] then s else Next(redis, Follow(redis, s, moves[..|moves| - 1]), moves[|moves| - 1])
  }

  lemma FollowSnoc(redis: bool, s: State, moves: seq<Move>, move: Move)
    ensures Follow(redis, s, moves + [move]) == Next(redis, Follow(redis, s, moves), move)
  {
    assert (moves + [move])[..|moves|] == moves;
  }

  lemma {:induction false} FollowJoins(redis: bool, s: State, moves: seq<Move>, more: seq<Move>)
    ensures Follow(redis, s, moves + more) == Follow(redis, Follow(redis, s, moves), more)
  {
    if more == [] {
      assert moves + more == moves;
    } else {
      FollowJoins(redis, s, moves, more[..|more| - 1]);
      assert (moves + more)[..|moves + more| - 1] == moves + more[..|more| - 1];
    }
  }

  function Run(redis: bool, moves: seq<Move>): State {
    Follow(redis, START, moves)
  }

  // -------- conservation --------

  // What the running tick has drained of a room and neither flushed nor put back.
  function Held(tick: Tick, room: Room): nat {
    if tick.Flushing? && (room in tick.todo || tick.failed == Some(room)) then Of(tick.deltas, room) else 0
  }

  predicate Conserved(redis: bool, s: State, room: Room) {
    && Of(s.ledger.added, room)
       == Of(s.localLikes, room) + Held(s.tick, room) + Of(s.ledger.flushed, room) + Of(s.ledger.discarded, room)
    && Of(s.localLikeTotals, room) == Of(s.ledger.added, room)
    && Of(s.redisLikes, room)
       == (if redis then Of(s.ledger.flushed, room) else 0) + Of(s.ledger.ambiguous, room)
    && (s.tick.Flushing? && s.tick.failed.Some? ==> s.tick.failed.value !in s.tick.todo)
  }

  lemma FlushedConserves(redis: bool, s: State, room: Room, outcome: Outcome, r: Room)
    requires Conserved(redis, s, r)
    requires s.tick.Flushing? && room in s.tick.todo && s.tick.failed == None
    ensures Conserved(redis, Flushed(redis, s, s.tick.todo, s.tick.deltas, room, outcome), r)
  {
  }

  lemma GoOnConserves(redis: bool, s: State, room: Room, outcome: Outcome, r: Room)
    requires Conserved(redis, s, r)
    ensures Conserved(redis, GoOn(redis, s, room, outcome), r)
  {
    if s.tick.Flushing? && s.tick.failed == None && room in s.tick.todo {
      FlushedConserves(redis, s, room, outcome, r);
    } else if s.tick.Flushing? && s.tick.failed.Some? {
      RestoredConserves(redis, s, s.tick.failed.value, r);
    } else if s.tick.Counted? {
      DrainedConserves(redis, s, s.tick.rooms, r);
    }
  }

  lemma DrainedConserves(redis: bool, s: State, rooms: set<Room>, r: Room)
    requires Conserved(redis, s, r) && s.tick.Counted?
    ensures Conserved(redis, Drained(s, rooms), r)
  {
  }

  lemma RestoredConserves(redis: bool, s: State, room: Room, r: Room)
    requires Conserved(redis, s, r) && s.tick.Flushing? && s.tick.failed == Some(room)
    ensures Conserved(redis, s.(tick := Flushing(s.tick.todo, s.tick.deltas, None),
                                localLikes := Plus(s.localLikes, room, Of(s.tick.deltas, room))), r)
  {
  }

  lemma NextConserves(redis: bool, s: State, move: Move, r: Room)
    requires Conserved(redis, s, r)
    ensures Conserved(redis, Next(redis, s, move), r)
  {
    if move.TickGoesOn? {
      GoOnConserves(redis, s, move.room, move.outcome, r);
    }
  }

  /** Whatever interleaves, each like of a room is in one place: in memory, with the running tick, flushed,
      or discarded; and Redis has what was flushed and what it applied without saying so. */
  lemma {:induction false} LikesAreConserved(redis: bool, moves: seq<Move>, room: Room)
    ensures Conserved(redis, Run(redis, moves), room)
  {
    if moves != [] {
      LikesAreConserved(redis, moves[..|moves| - 1], room);
      NextConserves(redis, Run(redis, moves[..|moves| - 1]), moves[|moves| - 1], room);
    }
  }

  /** Nothing is counted twice, unless Redis applies an increment and reports it as failed: then exactly
      the amount of that increment can be. */
  lemma NothingIsCountedTwice(redis: bool, moves: seq<Move>, room: Room)
    ensures var s := Run(redis, moves);
            Of(s.redisLikes, room) <= Given(moves, room) + Of(s.ledger.ambiguous, room)
    ensures var s := Run(redis, moves);
            redis && s.tick == Off && Of(s.localLikes, room) == 0 ==>
              Of(s.redisLikes, room) + Of(s.ledger.discarded, room)
              == Given(moves, room) + Of(s.ledger.ambiguous, room)
    ensures Of(Run(redis, moves).redisLikes, room) > Given(moves, room) ==> EverInDoubt(redis, moves, room)
  {
    LikesAreConserved(redis, moves, room);
    AddedIsGiven(redis, moves, room);
    AmbiguousIff(redis, moves, room);
  }

  // Redis applies an increment with likes in it and reports it as failed.
  predicate InDoubt(redis: bool, s: State, move: Move, room: Room) {
    && redis && move == TickGoesOn(room, IncrementFailed(true))
    && s.tick.Flushing? && s.tick.failed == None && room in s.tick.todo && Of(s.tick.deltas, room) > 0
  }

  predicate EverInDoubt(redis: bool, moves: seq<Move>, room: Room) {
    moves != [] &&
    (EverInDoubt(redis, moves[..|moves| - 1], room)
     || InDoubt(redis, Run(redis, moves[..|moves| - 1]), moves[|moves| - 1], room))
  }

  lemma NextIsInDoubt(redis: bool, s: State, move: Move, room: Room)
    ensures Of(Next(redis, s, move).ledger.ambiguous, room)
            == Of(s.ledger.ambiguous, room) + (if InDoubt(redis, s, move, room) then Of(s.tick.deltas, room) else 0)
  {
    hide Discard;
    if move.TickGoesOn? && s.tick.Flushing? && s.tick.failed == None && move.room in s.tick.todo {
      assert Next(redis, s, move)
          == Flushed(redis, s, s.tick.todo, s.tick.deltas, move.room, move.outcome);
    }
  }

  lemma {:induction false} AmbiguousIff(redis: bool, moves: seq<Move>, room: Room)
    ensures Of(Run(redis, moves).ledger.ambiguous, room) > 0 <==> EverInDoubt(redis, moves, room)
  {
    if moves != [] {
      AmbiguousIff(redis, moves[..|moves| - 1], room);
      NextIsInDoubt(redis, Run(redis, moves[..|moves| - 1]), moves[|moves| - 1], room);
    }
  }

  // -------- what is lost --------

  // A tick takes the likes of a room that it has not counted.
  predicate Loses(s: State, move: Move, room: Room) {
    move.TickGoesOn? && s.tick.Counted? && room !in s.tick.rooms && Of(s.localLikes, room) > 0
  }

  lemma NextDiscards(redis: bool, s: State, move: Move, room: Room)
    ensures Of(Next(redis, s, move).ledger.discarded, room)
            == Of(s.ledger.discarded, room) + (if Loses(s, move, room) then Of(s.localLikes, room) else 0)
  {
    if move.TickGoesOn? && s.tick.Counted? {
      assert Next(redis, s, move) == Drained(s, s.tick.rooms);
    } else {
      OnlyDrainsDiscard(redis, s, move);
    }
  }

  lemma OnlyDrainsDiscard(redis: bool, s: State, move: Move)
    requires !(move.TickGoesOn? && s.tick.Counted?)
    ensures Next(redis, s, move).ledger.discarded == s.ledger.discarded
  {
  }

  predicate EverLoses(redis: bool, moves: seq<Move>, room: Room) {
    moves != [] &&
    (EverLoses(redis, moves[..|moves| - 1], room)
     || Loses(Run(redis, moves[..|moves| - 1]), moves[|moves| - 1], room))
  }

  lemma {:induction false} DiscardedIff(redis: bool, moves: seq<Move>, room: Room)
    ensures Of(Run(redis, moves).ledger.discarded, room) > 0 <==> EverLoses(redis, moves, room)
  {
    if moves != [] {
      DiscardedIff(redis, moves[..|moves| - 1], room);
      NextDiscards(redis, Run(redis, moves[..|moves| - 1]), moves[|moves| - 1], room);
    }
  }

  /** Redis never gets to know of some likes exactly then: at some moment a tick drained likes of a room that
      had no client here when that tick counted the rooms. Seen at rest: no tick runs and no like of the room is
      left in memory, so every like has had its chance; and Redis never applied what it reported as failed. */
  lemma {:induction false} LikesAreLostIff(moves: seq<Move>, room: Room)
    requires var s := Run(true, moves); s.tick == Off && Of(s.localLikes, room) == 0
    requires !EverInDoubt(true, moves, room)
    ensures Of(Run(true, moves).redisLikes, room) < Given(moves, room) <==> EverLoses(true, moves, room)
  {
    MissingLikesIff(moves, room);
    AmbiguousIff(true, moves, room);
  }

  /** In any state, not only at rest: likes are missing from Redis, from memory and from the running tick
      together, but for ambiguous increments, exactly then. */
  lemma {:induction false} MissingLikesIff(moves: seq<Move>, room: Room)
    ensures var s := Run(true, moves);
            Of(s.redisLikes, room) + Of(s.localLikes, room) + Held(s.tick, room)
            < Given(moves, room) + Of(s.ledger.ambiguous, room)
            <==> EverLoses(true, moves, room)
  {
    LikesAreConserved(true, moves, room);
    AddedIsGiven(true, moves, room);
    DiscardedIff(true, moves, room);
  }

  /** Without Redis the total that is shown never loses a like, whatever the ticks drain. */
  lemma {:induction false} LocalTotalsKeepAll(redis: bool, moves: seq<Move>, room: Room)
    ensures Of(Run(redis, moves).localLikeTotals, room) == Given(moves, room)
  {
    LikesAreConserved(redis, moves, room);
    AddedIsGiven(redis, moves, room);
  }

  // The likes that the moves give to the room.
  function Given(moves: seq<Move>, room: Room): nat {
    if moves == [] then 0
    else
      Given(moves[..|moves| - 1], room) + GivenBy(moves[|moves| - 1], room)
  }

  function GivenBy(move: Move, room: Room): nat {
    if move.AddLike? && move.room == room then (if move.count == 0 then 1 else move.count) else 0
  }

  lemma {:induction false} AddedIsGiven(redis: bool, moves: seq<Move>, room: Room)
    ensures Of(Run(redis, moves).ledger.added, room) == Given(moves, room)
  {
    if moves != [] {
      AddedIsGiven(redis, moves[..|moves| - 1], room);
      NextAdds(redis, Run(redis, moves[..|moves| - 1]), moves[|moves| - 1], room);
    }
  }

  lemma NextAdds(redis: bool, s: State, move: Move, room: Room)
    ensures Of(Next(redis, s, move).ledger.added, room)
            == Of(s.ledger.added, room) + GivenBy(move, room)
  {
  }

  // Such a run, with Redis in perfect health: the only client of a room likes and leaves before the tick.
  const LIKE_AND_LEAVE := [
    RoomOpens("a"), RoomOpens("b"), AddLike("a", 0), RoomCloses("a"), TickFires,
    TickGoesOn("b", Complete), TickGoesOn("b", Complete), TickGoesOn("b", Complete), TickGoesOn("b", Complete)]

  lemma LikeAndLeaveIsLost()
    ensures var s := Run(true, LIKE_AND_LEAVE);
            s.tick == Off && s.localLikes == map[] && Of(s.ledger.added, "a") == 1 && Of(s.redisLikes, "a") == 0
  {
    LikeDrained();
    LikeAndLeavePrefix(7);
    LikeAndLeavePrefix(8);
    var flushed := Run(true, LIKE_AND_LEAVE[..8]);
    assert flushed.tick == Flushing({}, map["a" := 1], None);
    assert LIKE_AND_LEAVE[..9] == LIKE_AND_LEAVE;
  }

  lemma LikeDrained()
    ensures var s := Run(true, LIKE_AND_LEAVE[..7]);
            && s.tick == Flushing({"b"}, map["a" := 1], None) && s.localLikes == map[]
            && Of(s.redisLikes, "a") == 0 && Of(s.ledger.added, "a") == 1
  {
    LikedAndLeft();
    LikeAndLeavePrefix(4);
    LikeAndLeavePrefix(5);
    LikeAndLeavePrefix(6);
    assert Run(true, LIKE_AND_LEAVE[..6]).tick == Counted({"b"});
  }

  lemma LikeAndLeavePrefix(n: nat)
    requires n < |LIKE_AND_LEAVE|
    ensures Run(true, LIKE_AND_LEAVE[..n + 1]) == Next(true, Run(true, LIKE_AND_LEAVE[..n]), LIKE_AND_LEAVE[n])
  {
    assert LIKE_AND_LEAVE[..n + 1][..n] == LIKE_AND_LEAVE[..n];
  }

  lemma LikedAndLeft()
    ensures var s := Run(true, LIKE_AND_LEAVE[..4]);
            && s.rooms == {"b"} && s.tick == Off && s.localLikes == map["a" := 1]
            && Of(s.redisLikes, "a") == 0 && Of(s.ledger.added, "a") == 1
  {
    LikeAndLeavePrefix(0);
    LikeAndLeavePrefix(1);
    LikeAndLeavePrefix(2);
    LikeAndLeavePrefix(3);
  }

  // -------- the code --------

  // A step of the tick to which the room and the outcome do not matter.
  const IDLE_TICK := TickGoesOn("", Complete)

  predicate ByOthers(moves: seq<Move>) {
    forall i :: 0 <= i < |moves| ==> !moves[i].TickGoesOn?
  }

  lemma OneMoreMove(redis: bool, s: State, moves: seq<Move>, i: nat)
    requires i < |moves|
    ensures Follow(redis, s, moves[..i + 1]) == Next(redis, Follow(redis, s, moves[..i]), moves[i])
    ensures forall r :: Given(moves[..i + 1], r) == Given(moves[..i], r) + GivenBy(moves[i], r)
  {
    assert moves[..i + 1][..i] == moves[..i];
  }

  lemma {:induction false} GivenJoins(moves: seq<Move>, more: seq<Move>)
    ensures forall r :: Given(moves + more, r) == Given(moves, r) + Given(more, r)
  {
    if more == [] {
      assert moves + more == moves;
    } else {
      GivenJoins(moves, more[..|more| - 1]);
      assert (moves + more)[..|moves + more| - 1] == moves + more[..|more| - 1];
    }
  }

  // After the turns of the rooms `done`: the drained likes that are in memory again, with those given meanwhile,
  // and what Redis has got.
  ghost predicate PutBack(redis: bool, likes: map<Room, nat>, later: seq<Move>, done: set<Room>,
                          deltas: map<Room, nat>, outcomes: map<Room, Outcome>)
    requires done <= outcomes.Keys
  {
    forall r :: Of(likes, r) == Given(later, r)
                                + (if r in done && !Flushes(redis, outcomes[r]) then Of(deltas, r) else 0)
  }

  ghost predicate Reached(redis: bool, was: map<Room, nat>, now: map<Room, nat>, done: set<Room>,
                          deltas: map<Room, nat>, outcomes: map<Room, Outcome>)
    requires done <= outcomes.Keys
  {
    forall r :: Of(now, r) == Of(was, r) + (if r in done then Reaches(redis, outcomes[r], Of(deltas, r)) else 0)
  }

  lemma PutBackOneMore(redis: bool, likes: map<Room, nat>, next: map<Room, nat>, later: seq<Move>, more: seq<Move>,
                       done: set<Room>, room: Room, deltas: map<Room, nat>, outcomes: map<Room, Outcome>)
    requires done + {room} <= outcomes.Keys && room !in done
    requires PutBack(redis, likes, later, done, deltas, outcomes)
    requires forall r :: Of(next, r) == Of(likes, r) + Given(more, r)
                           + (if r == room && !Flushes(redis, outcomes[room]) then Of(deltas, room) else 0)
    ensures PutBack(redis, next, later + more, done + {room}, deltas, outcomes)
  {
    GivenJoins(later, more);
  }

  lemma ReachedOneMore(redis: bool, was: map<Room, nat>, now: map<Room, nat>, done: set<Room>, room: Room,
                       deltas: map<Room, nat>, outcomes: map<Room, Outcome>)
    requires done + {room} <= outcomes.Keys && room !in done
    requires Reached(redis, was, now, done, deltas, outcomes)
    ensures Reached(redis, was, Plus(now, room, Reaches(redis, outcomes[room], Of(deltas, room))), done + {room},
                    deltas, outcomes)
  {
  }

  lemma NothingDone(redis: bool, redisLikes: map<Room, nat>, deltas: map<Room, nat>, outcomes: map<Room, Outcome>)
    ensures PutBack(redis, map[], [], {}, deltas, outcomes)
    ensures Reached(redis, redisLikes, redisLikes, {}, deltas, outcomes)
  {
  }

  // The manager's like fields. The ghost fields say where the tick is and what has become of the likes.
  class Aggregator {
    const redis: bool
    var rooms: set<Room>
    var localLikes: map<Room, nat>
    var localLikeTotals: map<Room, nat>
    var statsRunning: bool
    var ticksSkipped: nat
    ghost var redisLikes: map<Room, nat>
    ghost var tick: Tick
    ghost var ledger: Ledger

    ghost function View(): State
      reads this
    {
      State(rooms, localLikes, localLikeTotals, tick, ticksSkipped, redisLikes, ledger)
    }

    ghost predicate Valid()
      reads this
    {
      statsRunning == (tick != Off)
    }

    constructor (redis: bool)
      ensures this.redis == redis && Valid() && View() == START
    {
      this.redis := redis;
      rooms, localLikes, localLikeTotals, statsRunning, ticksSkipped := {}, map[], map[], false, 0;
      redisLikes, tick, ledger := map[], Off, START.ledger;
    }

    method AddLike(room: Room, count: nat)
      requires Valid()
      modifies this`localLikes, this`localLikeTotals, this`ledger
      ensures Valid() && View() == Next(redis, old(View()), Move.AddLike(room, count))
    {
      var worth := count;
      if worth == 0 {
        worth := 1;
      }
      localLikes := localLikes[room := (if room in localLikes then localLikes[room] else 0) + worth];
      localLikeTotals := localLikeTotals[room :=
          (if room in localLikeTotals then localLikeTotals[room] else 0) + worth];
      ledger := ledger.(added := Plus(ledger.added, room, worth));
    }

    // The compare-and-swap of startStatsBroadcast.
    method StartStatsBroadcast() returns (started: bool)
      requires Valid()
      modifies this`statsRunning, this`ticksSkipped, this`tick
      ensures Valid() && View() == Next(redis, old(View()), TickFires)
      ensures started == (old(tick) == Off) && tick == (if started then Begun else old(tick))
      ensures ticksSkipped == old(ticksSkipped) + (if started then 0 else 1)
    {
      if statsRunning {
        ticksSkipped := ticksSkipped + 1;
        return false;
      }
      statsRunning := true;
      tick := Begun;
      return true;
    }

    method SnapshotRoomCounts() returns (counted: set<Room>)
      requires Valid() && tick == Begun
      modifies this`tick
      ensures View() == Next(redis, old(View()), IDLE_TICK) && counted == rooms
      ensures tick == if counted == {} then Off else Counted(counted)
    {
      counted := rooms;
      tick := if counted == {} then Off else Counted(counted);
    }

    // drainLocalLikeDeltas takes the whole map.
    method DrainLocalLikeDeltas() returns (deltas: map<Room, nat>)
      requires Valid() && tick.Counted?
      modifies this`localLikes, this`tick, this`ledger
      ensures Valid() && View() == Next(redis, old(View()), IDLE_TICK)
      ensures deltas == old(localLikes) && localLikes == map[]
      ensures tick == Flushing(old(tick).rooms, deltas, None)
    {
      deltas := localLikes;
      ledger := ledger.(discarded := Discard(ledger.discarded, localLikes, tick.rooms));
      tick := Flushing(tick.rooms, localLikes, None);
      localLikes := map[];
    }

    // What others do while a tick runs: they like, rooms open and close, and ticks that fire are skipped.
    method Interlude(others: seq<Move>)
      requires Valid() && tick != Off && ByOthers(others)
      modifies this`rooms, this`localLikes, this`localLikeTotals, this`ticksSkipped, this`ledger
      modifies this`statsRunning, this`tick
      ensures Valid() && View() == Follow(redis, old(View()), others) && tick == old(tick)
      ensures forall r :: Of(localLikes, r) == Of(old(localLikes), r) + Given(others, r)
    {
      for i := 0 to |others|
        invariant Valid() && View() == Follow(redis, old(View()), others[..i]) && tick == old(tick)
        invariant forall r :: Of(localLikes, r) == Of(old(localLikes), r) + Given(others[..i], r)
      {
        OneMoreMove(redis, old(View()), others, i);
        OtherMove(others[i]);
      }
      assert others[..|others|] == others;
    }

    method OtherMove(move: Move)
      requires Valid() && tick != Off && !move.TickGoesOn?
      modifies this`rooms, this`localLikes, this`localLikeTotals, this`ticksSkipped, this`ledger
      modifies this`statsRunning, this`tick
      ensures Valid() && View() == Next(redis, old(View()), move) && tick == old(tick)
      ensures forall r :: Of(localLikes, r) == Of(old(localLikes), r) + GivenBy(move, r)
    {
      match move
      case AddLike(room, count) => AddLike(room, count);
      case RoomOpens(room) => rooms := rooms + {room};
      case RoomCloses(room) => rooms := rooms - {room};
      case TickFires => var started := StartStatsBroadcast();
    }

    method RestoreLikeDelta(room: Room, delta: nat)
      requires Valid() && tick.Flushing? && tick.failed == Some(room) && delta == Of(tick.deltas, room)
      modifies this`localLikes, this`tick
      ensures Valid() && forall r, outcome :: View() == Next(redis, old(View()), TickGoesOn(r, outcome))
    {
      localLikes := localLikes[room := (if room in localLikes then localLikes[room] else 0) + delta];
      tick := tick.(failed := None);
    }

    /** loadDistributedStats on one room, with what the circuit breaker and Redis make of it. */
    method LoadDistributedStats(room: Room, delta: nat, outcome: Outcome) returns (likeFlushed: bool, failed: bool)
      requires Valid() && redis && tick.Flushing? && tick.failed == None && room in tick.todo
      requires delta == Of(tick.deltas, room)
      modifies this`tick, this`redisLikes, this`ledger
      ensures Valid() && View() == Next(redis, old(View()), TickGoesOn(room, outcome))
      ensures failed == !outcome.Complete? && (likeFlushed <==> delta > 0 && Flushes(redis, outcome))
    {
      likeFlushed, failed := false, outcome != Complete;
      redisLikes := Plus(redisLikes, room, Reaches(redis, outcome, delta));
      if outcome == Complete || outcome == ReadFailed {
        likeFlushed := delta > 0;
        ledger := ledger.(flushed := Plus(ledger.flushed, room, delta));
        tick := Flushing(tick.todo - {room}, tick.deltas, None);
      } else {
        ledger := ledger.(ambiguous := Plus(ledger.ambiguous, room, Reaches(redis, outcome, delta)));
        tick := Flushing(tick.todo - {room}, tick.deltas, if delta > 0 then Some(room) else None);
      }
    }

    // One room's turn in broadcastStats, whichever way Redis answers; others come in before a failed delta
    // is put back.
    method FlushRoom(room: Room, delta: nat, outcome: Outcome, others: seq<Move>) returns (ghost moves: seq<Move>)
      requires Valid() && tick.Flushing? && tick.failed == None && room in tick.todo
      requires delta == Of(tick.deltas, room) && ByOthers(others)
      modifies this
      ensures Valid() && View() == Follow(redis, old(View()), moves)
      ensures tick == Flushing(old(tick).todo - {room}, old(tick).deltas, None)
      ensures forall r :: Of(localLikes, r) == Of(old(localLikes), r) + Given(others, r)
                                               + (if r == room && !Flushes(redis, outcome) then delta else 0)
      ensures redisLikes == Plus(old(redisLikes), room, Reaches(redis, outcome, delta))
    {
      var likeFlushed, failed := FlushOrFail(room, delta, outcome);
      FollowSnoc(redis, old(View()), [], TickGoesOn(room, outcome));
      FollowJoins(redis, old(View()), [TickGoesOn(room, outcome)], others);
      moves := [TickGoesOn(room, outcome)] + others;
      Interlude(others);
      if failed && delta > 0 && !likeFlushed {
        FollowSnoc(redis, old(View()), moves, TickGoesOn(room, outcome));
        RestoreLikeDelta(room, delta);
        moves := moves + [TickGoesOn(room, outcome)];
      }
    }

    // Through Redis if there is one.
    method FlushOrFail(room: Room, delta: nat, outcome: Outcome) returns (likeFlushed: bool, failed: bool)
      requires Valid() && tick.Flushing? && tick.failed == None && room in tick.todo
      requires delta == Of(tick.deltas, room)
      modifies this`tick, this`redisLikes, this`ledger
      ensures Valid() && View() == Next(redis, old(View()), TickGoesOn(room, outcome))
      ensures tick == Flushing(old(tick).todo - {room}, old(tick).deltas,
                               if failed && delta > 0 && !likeFlushed then Some(room) else None)
      ensures failed && delta > 0 && !likeFlushed <==> delta > 0 && !Flushes(redis, outcome)
      ensures redisLikes == Plus(old(redisLikes), room, Reaches(redis, outcome, delta))
    {
      if redis {
        likeFlushed, failed := LoadDistributedStats(room, delta, outcome);
      } else {
        likeFlushed, failed := false, false;
        redisLikes := Plus(redisLikes, room, 0);
        ledger := ledger.(flushed := Plus(ledger.flushed, room, delta));
        tick := Flushing(tick.todo - {room}, tick.deltas, None);
      }
    }

    // The loop of broadcastStats, over the counted rooms in any order; `later` is what others did meanwhile.
    method FlushRooms(counted: set<Room>, deltas: map<Room, nat>, outcomes: map<Room, Outcome>,
                      others: map<Room, seq<Move>>)
      returns (ghost moves: seq<Move>, ghost later: seq<Move>)
      requires Valid() && counted <= outcomes.Keys && tick == Flushing(counted, deltas, None) && localLikes == map[]
      requires counted <= others.Keys && forall room :: room in others ==> ByOthers(others[room])
      modifies this
      ensures Valid() && tick == Flushing({}, deltas, None) && View() == Follow(redis, old(View()), moves)
      ensures PutBack(redis, localLikes, later, counted, deltas, outcomes)
      ensures Reached(redis, old(redisLikes), redisLikes, counted, deltas, outcomes)
    {
      hide Next, Reaches, Flushes, PutBack, Reached, Given;
      NothingDone(redis, redisLikes, deltas, outcomes);
      moves, later := [], [];
      var todo := counted;
      assert counted - todo == {};
      while todo != {}
        invariant Valid() && todo <= counted && tick == Flushing(todo, deltas, None)
        invariant View() == Follow(redis, old(View()), moves)
        invariant PutBack(redis, localLikes, later, counted - todo, deltas, outcomes)
        invariant Reached(redis, old(redisLikes), redisLikes, counted - todo, deltas, outcomes)
        decreases |todo|
      {
        var room :| room in todo;
        ghost var done, likes, redisHad := counted - todo, localLikes, redisLikes;
        todo := todo - {room};
        assert counted - todo == done + {room};
        ghost var more := FlushRoom(room, if room in deltas then deltas[room] else 0, outcomes[room], others[room]);
        FollowJoins(redis, old(View()), moves, more);
        PutBackOneMore(redis, likes, localLikes, later, others[room], done, room, deltas, outcomes);
        ReachedOneMore(redis, old(redisLikes), redisHad, done, room, deltas, outcomes);
        moves, later := moves + more, later + others[room];
      }
      assert counted - {} == counted;
    }

    /** broadcastStats, with whatever others do before the likes are drained and during each room's turn: it
        follows the machine. Afterwards exactly the drained likes of the counted rooms that Redis did not take,
        going by its answers, are in memory again, with those given meanwhile; and what it applied, it has. */
    method BroadcastStats(outcomes: map<Room, Outcome>, early: seq<Move>, others: map<Room, seq<Move>>)
      returns (ghost moves: seq<Move>, ghost later: seq<Move>)
      requires Valid() && tick == Begun && rooms <= outcomes.Keys && rooms <= others.Keys
      requires ByOthers(early) && forall room :: room in others ==> ByOthers(others[room])
      modifies this
      ensures Valid() && tick == Off && View() == Follow(redis, old(View()), moves)
      ensures old(rooms) == {} ==> localLikes == old(localLikes) && redisLikes == old(redisLikes)
      ensures old(rooms) != {} ==>
                (forall r :: Of(localLikes, r) == Given(later, r)
                   + (if r in old(rooms) && redis && (outcomes[r] == Refused || outcomes[r].IncrementFailed?)
                       then Of(old(localLikes), r) + Given(early, r) else 0))
      ensures old(rooms) != {} ==>
                (forall r :: Of(redisLikes, r) == Of(old(redisLikes), r)
                   + (if r in old(rooms) && redis && outcomes[r] in {Complete, ReadFailed, IncrementFailed(true)}
                       then Of(old(localLikes), r) + Given(early, r) else 0))
    {
      hide Next;
      moves, later := [IDLE_TICK], [];
      FollowSnoc(redis, View(), [], IDLE_TICK);
      var counted := SnapshotRoomCounts();
      if counted == {} {
        statsRunning := false;
        return;
      }
      Interlude(early);
      ghost var rest;
      rest, later := DrainAndFlush(counted, outcomes, others);
      FollowJoins(redis, old(View()), moves, early);
      FollowJoins(redis, old(View()), moves + early, rest);
      moves := moves + early + rest;
    }

    // From the drain to the end of the tick.
    method DrainAndFlush(counted: set<Room>, outcomes: map<Room, Outcome>, others: map<Room, seq<Move>>)
      returns (ghost moves: seq<Move>, ghost later: seq<Move>)
      requires Valid() && tick == Counted(counted) && counted <= outcomes.Keys
      requires counted <= others.Keys && forall room :: room in others ==> ByOthers(others[room])
      modifies this
      ensures Valid() && tick == Off && View() == Follow(redis, old(View()), moves)
      ensures forall r :: Of(localLikes, r) == Given(later, r)
                + (if r in counted && !Flushes(redis, outcomes[r]) then Of(old(localLikes), r) else 0)
      ensures forall r :: Of(redisLikes, r) == Of(old(redisLikes), r)
                + (if r in counted then Reaches(redis, outcomes[r], Of(old(localLikes), r)) else 0)
    {
      FollowSnoc(redis, View(), [], IDLE_TICK);
      var deltas := DrainLocalLikeDeltas();
      ghost var more;
      more, later := FlushRooms(counted, deltas, outcomes, others);
      FollowJoins(redis, old(View()), [IDLE_TICK], more);
      FollowSnoc(redis, old(View()), [IDLE_TICK] + more, IDLE_TICK);
      moves := [IDLE_TICK] + more + [IDLE_TICK];
      tick, statsRunning := Off, false;
    }
  }
}
