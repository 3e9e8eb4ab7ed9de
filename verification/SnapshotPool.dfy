/** The code of the broadcast manager (v10/internal/ws/manager.go) that recycles client snapshots, over real
    arrays. A method is what one goroutine does; its ghost results are the moves of SnapshotRuns that it makes
    and the state they lead to. Those moves are the points at which other goroutines may come in between. */
module SnapshotPool {
  import opened Wrappers
  import opened SnapshotRuns

  // Every array is as the machine's memory has it.
  ghost predicate Remembers(memory: Memory)
    reads memory.Keys
  {
    forall a :: a in memory ==> a[..] == memory[a]
  }

  lemma FollowOneMore(s: State, moves: seq<Move>, move: Move)
    ensures Follow(s, moves + [move]) == Next(Follow(s, moves), move)
  {
    assert (moves + [move])[..|moves|] == moves;
  }

  lemma {:induction false} FollowJoins(s: State, moves: seq<Move>, more: seq<Move>)
    ensures Follow(s, moves + more) == Follow(Follow(s, moves), more)
  {
    if more == [] {
      assert moves + more == moves;
    } else {
      FollowJoins(s, moves, more[..|more| - 1]);
      assert (moves + more)[..|moves + more| - 1] == moves + more[..|more| - 1];
    }
  }

  // Thread t, and no other, has moved on, to holding this job.
  predicate NowHolds(s: State, after: State, t: nat, job: BroadcastJob) {
    && t < |s.threads| && t < |after.threads| && after.threads == s.threads[t := after.threads[t]]
    && after.threads[t].Holding? && after.threads[t].job.job == job
  }

  predicate NowFilled(s: State, after: State, t: nat, room: string, slice: Slice) {
    && t < |s.threads| && t < |after.threads| && after.threads[t].Filling?
    && after.threads == s.threads[t := Filling(room, slice, after.threads[t].listed, {})]
  }

  lemma SoundIsWhole(s: State)
    requires Sound(s)
    ensures PoolWhole(s.pool, s.memory)
  {
  }

  lemma HeldFits(s: State, moves: seq<Move>, t: nat)
    requires Sound(s) && t < |Follow(s, moves).threads| && Follow(s, moves).threads[t].Holding?
    ensures var held := Follow(s, moves);
            var Slice(cells, len) := held.threads[t].job.job.clients;
            cells in held.memory && len <= |held.memory[cells]|
  {
    FollowIsSound(s, moves);
    var held := Follow(s, moves);
    assert TaskWhole(held.threads[t], held.rooms, held.memory);
  }

  // Giving up the read lock changes nothing but the task of the goroutine.
  lemma Unlock(s: State, t: nat, room: string, slice: Slice, cells: Cells)
    requires t < |s.threads| && s.threads[t].Filling? && s.threads[t].todo == {}
    requires s.threads[t].room == room && s.threads[t].slice == slice
    ensures var after := Next(s, GoOn(t, 0, cells, 0));
            after == s.(threads := after.threads) && NowHolds(s, after, t, BroadcastJob(room, slice))
  {
  }

  class Manager {
    const redis: bool
    var rooms: map<string, set<ClientId>>
    var subscriptions: set<string>        // the keys of cancelSub
    var pool: set<Cells>                  // sync.Pool: each array at length zero
    var broadcastJobs: seq<BroadcastJob>  // the buffered channel
    var gets: nat
    var puts: nat
    var drops: nat
    var enqueuedJobs: nat
    var droppedJobs: nat

    ghost predicate Matches(s: State)
      reads this, s.memory.Keys
    {
      && redis == s.redis && rooms == s.rooms && subscriptions == s.subscriptions && pool == s.pool
      && |broadcastJobs| == |s.jobs| && (forall j :: 0 <= j < |s.jobs| ==> broadcastJobs[j] == s.jobs[j].job)
      && gets == s.gets && puts == s.puts && drops == s.drops
      && enqueuedJobs == s.enqueuedJobs && droppedJobs == s.droppedJobs
      && Remembers(s.memory)
    }

    // An array has been given back: up to a capacity of 8192 it is in the pool again, otherwise it is dropped.
    twostate predicate GivenBack(cells: Cells)
      reads this
    {
      && pool == old(pool) + (if cells.Length <= 8192 then {cells} else {})
      && puts == old(puts) + (if cells.Length <= 8192 then 1 else 0)
      && drops == old(drops) + (if cells.Length <= 8192 then 0 else 1)
    }

    constructor (redis: bool, threads: nat)
      ensures Matches(Start(redis, threads))
    {
      this.redis := redis;
      rooms, subscriptions, pool, broadcastJobs := map[], {}, {}, [];
      gets, puts, drops, enqueuedJobs, droppedJobs := 0, 0, 0, 0, 0;
    }

    // handleRegister, under the lock: with Redis the first client of a room starts its subscription.
    method Register(room: string, client: ClientId, ghost s: State)
      requires Matches(s) && RoomsKept(s)
      modifies this`rooms, this`subscriptions
      ensures Matches(Registered(s, room, client))
    {
      if room !in rooms {
        rooms := rooms[room := {}];
        if redis {
          subscriptions := subscriptions + {room};
        }
      }
      rooms := rooms[room := rooms[room] + {client}];
      assert rooms == s.rooms[room := Members(s.rooms, room) + {client}];
    }

    // handleUnregister, under the lock: the last client ends the room and its subscription.
    method Unregister(room: string, client: ClientId, ghost s: State) returns (cancelled: bool)
      requires Matches(s) && RoomsKept(s)
      modifies this`rooms, this`subscriptions
      ensures Matches(Unregistered(s, room, client))
      ensures cancelled <==> redis && Members(s.rooms, room) == {client}
    {
      if room !in rooms || client !in rooms[room] {
        return false;
      }
      var left := rooms[room] - {client};
      assert left == {} <==> rooms[room] == {client};
      if |left| > 0 {
        rooms := rooms[room := left];
        return false;
      }
      rooms := rooms - {room};
      cancelled := room in subscriptions;
      subscriptions := subscriptions - {room};
    }

    // sync.Pool.Get hands out any pooled array or, at its discretion, a new one.
    method Get(t: nat, room: string, pick: Option<Cells>, ghost s: State)
      returns (cells: Cells, ghost move: Move, ghost after: State)
      requires Matches(s) && PoolWhole(s.pool, s.memory)
      requires t < |s.threads| && s.threads[t] == Idle && room in s.rooms
      modifies this`pool
      ensures after == Next(s, move) && Matches(after)
      ensures after.threads == s.threads[t := Got(room, cells)] && after.rooms == s.rooms && after.jobs == s.jobs
      ensures SliceWhole(Slice(cells, 0), [], after.memory)
      ensures cells in s.memory || fresh(cells)
      ensures after.memory.Keys == s.memory.Keys + {cells}
      ensures pick.Some? && pick.value in old(pool) ==> cells == pick.value && pool == old(pool) - {cells}
      ensures pick.None? || pick.value !in old(pool) ==> fresh(cells) && cells.Length == 256 && pool == old(pool)
    {
      if pick.Some? && pick.value in pool {
        cells := pick.value;
        pool := pool - {cells};
        move := Snapshot(t, room, pick, cells);
        after := Snapshotted(s, t, room, pick, cells);
      } else {
        cells := new Option<ClientId>[SNAPSHOT_INITIAL_CAPACITY](_ => None);
        move := Snapshot(t, room, None, cells);
        after := Snapshotted(s, t, room, None, cells);
        assert cells[..] == Blank(SNAPSHOT_INITIAL_CAPACITY);
      }
    }

    // append: in place while there is room, otherwise into a larger array; the smaller one is garbage.
    method Append(t: nat, slice: Slice, client: ClientId, ghost s: State)
      returns (longer: Slice, ghost move: Move, ghost after: State)
      requires Matches(s) && t < |s.threads| && s.threads[t].Filling? && s.threads[t].slice == slice
      requires client in s.threads[t].todo && SliceWhole(slice, s.threads[t].listed, s.memory)
      modifies slice.cells
      ensures after == Next(s, move) && Matches(after)
      ensures var Filling(room, _, listed, todo) := s.threads[t];
              && after.threads == s.threads[t := Filling(room, longer, listed + [client], todo - {client})]
              && SliceWhole(longer, listed + [client], after.memory)
      ensures after.rooms == s.rooms && after.jobs == s.jobs
      ensures longer.cells == slice.cells || fresh(longer.cells)
      ensures after.memory.Keys == s.memory.Keys + {longer.cells}
    {
      if slice.len < slice.cells.Length {
        longer, move, after := AppendInPlace(t, slice, client, s);
      } else {
        longer, move, after := Grow(t, slice, client, s);
      }
    }

    method AppendInPlace(t: nat, slice: Slice, client: ClientId, ghost s: State)
      returns (longer: Slice, ghost move: Move, ghost after: State)
      requires Matches(s) && t < |s.threads| && s.threads[t].Filling? && s.threads[t].slice == slice
      requires client in s.threads[t].todo && SliceWhole(slice, s.threads[t].listed, s.memory)
      requires slice.len < slice.cells.Length
      modifies slice.cells
      ensures after == Next(s, move) && Matches(after) && move == GoOn(t, client, slice.cells, 0)
      ensures longer == Slice(slice.cells, slice.len + 1)
      ensures after == Appended(s, t, client, slice.cells, 0)
    {
      move := GoOn(t, client, slice.cells, 0);
      after := Appended(s, t, client, slice.cells, 0);
      slice.cells[slice.len] := Some(client);
      longer := Slice(slice.cells, slice.len + 1);
    }

    method Grow(t: nat, slice: Slice, client: ClientId, ghost s: State)
      returns (longer: Slice, ghost move: Move, ghost after: State)
      requires Matches(s) && t < |s.threads| && s.threads[t].Filling? && s.threads[t].slice == slice
      requires client in s.threads[t].todo && SliceWhole(slice, s.threads[t].listed, s.memory)
      requires slice.len == slice.cells.Length
      ensures fresh(longer.cells) && longer.cells !in s.memory && longer.len == slice.len + 1
      ensures move == GoOn(t, client, longer.cells, 2 * slice.len)
      ensures after == Next(s, move) && Matches(after)
      ensures after == Appended(s, t, client, longer.cells, 2 * slice.len)
    {
      var capacity := 2 * slice.cells.Length;
      var cells := new Option<ClientId>[capacity](
        i requires 0 <= i reads slice.cells => if i < slice.cells.Length then slice.cells[i] else None);
      move := GoOn(t, client, cells, capacity);
      after := Appended(s, t, client, cells, capacity);
      cells[slice.len] := Some(client);
      longer := Slice(cells, slice.len + 1);
      assert cells[..] == s.memory[slice.cells] + [Some(client)] + Blank(capacity - slice.len - 1);
    }

    // The loop of snapshotRoomClients: append the members of the room, in any order.
    method Fill(t: nat, room: string, cells: Cells, ghost s: State)
      returns (slice: Slice, ghost moves: seq<Move>, ghost after: State)
      requires Matches(s) && t < |s.threads| && room in s.rooms
      requires s.threads[t] == Filling(room, Slice(cells, 0), [], s.rooms[room])
      requires SliceWhole(Slice(cells, 0), [], s.memory)
      modifies cells
      ensures after == Follow(s, moves) && Matches(after) && after.rooms == s.rooms
      ensures NowFilled(s, after, t, room, slice) && after.jobs == s.jobs
      ensures slice.cells == cells || fresh(slice.cells)
    {
      slice, moves, after := Slice(cells, 0), [], s;
      var todo := rooms[room];
      ghost var listed: seq<ClientId> := [];
      while todo != {}
        invariant after == Follow(s, moves) && Matches(after) && after.rooms == s.rooms && after.jobs == s.jobs
        invariant after.threads == s.threads[t := Filling(room, slice, listed, todo)]
        invariant SliceWhole(slice, listed, after.memory)
        invariant slice.cells == cells || fresh(slice.cells)
        decreases |todo|
      {
        var client :| client in todo;
        ghost var move;
        slice, move, after := Append(t, slice, client, after);
        FollowOneMore(s, moves, move);
        moves := moves + [move];
        listed := listed + [client];
        todo := todo - {client};
      }
    }

    // Count the array, fill it, and give up the read lock.
    method Collect(t: nat, room: string, cells: Cells, ghost s: State)
      returns (slice: Slice, ghost moves: seq<Move>, ghost after: State)
      requires Matches(s) && t < |s.threads| && s.threads[t] == Got(room, cells) && room in s.rooms
      requires SliceWhole(Slice(cells, 0), [], s.memory)
      modifies this`gets, cells
      ensures after == Follow(s, moves) && Matches(after) && after.rooms == s.rooms
      ensures NowHolds(s, after, t, BroadcastJob(room, slice)) && after.jobs == s.jobs
      ensures slice.cells == cells || fresh(slice.cells)
      ensures gets == old(gets) + 1
    {
      ghost var move, counted := Count(t, room, cells, s);
      FollowOneMore(s, [], move);
      ghost var filling, filled;
      slice, filling, filled := Fill(t, room, cells, counted);
      FollowJoins(s, [move], filling);
      Unlock(filled, t, room, slice, cells);
      FollowOneMore(s, [move] + filling, move);
      moves, after := [move] + filling + [move], Next(filled, move);
    }

    method Count(t: nat, room: string, cells: Cells, ghost s: State) returns (ghost move: Move, ghost after: State)
      requires Matches(s) && t < |s.threads| && s.threads[t] == Got(room, cells) && room in s.rooms
      modifies this`gets
      ensures move == GoOn(t, 0, cells, 0) && after == Next(s, move) && Matches(after)
      ensures after.threads == s.threads[t := Filling(room, Slice(cells, 0), [], s.rooms[room])]
      ensures after.rooms == s.rooms && after.jobs == s.jobs && after.memory == s.memory
      ensures gets == old(gets) + 1
    {
      gets := gets + 1;
      move := GoOn(t, 0, cells, 0);
      after := Next(s, move);
    }

    /** snapshotRoomClients, from taking the read lock to giving it up: nothing without a room, otherwise the
        goroutine holds an array with the members of the room. */
    method SnapshotRoomClients(t: nat, room: string, pick: Option<Cells>, ghost s: State)
      returns (snapshot: Option<Slice>, ghost moves: seq<Move>, ghost after: State)
      requires Matches(s) && PoolWhole(s.pool, s.memory) && t < |s.threads| && s.threads[t] == Idle
      modifies this`pool, this`gets, s.memory.Keys
      ensures gets == old(gets) + (if snapshot.Some? then 1 else 0)
      ensures pool == if snapshot.Some? && pick.Some? then old(pool) - {pick.value} else old(pool)
      ensures after == Follow(s, moves) && Matches(after)
      ensures snapshot.None? <==> room !in s.rooms
      ensures snapshot.None? ==> moves == []
      ensures snapshot.Some? ==>
                && NowHolds(s, after, t, BroadcastJob(room, snapshot.value)) && after.jobs == s.jobs
                && (snapshot.value.cells in s.memory || fresh(snapshot.value.cells))
    {
      if room !in rooms {
        return None, [], s;
      }
      var cells;
      ghost var move, got, collecting;
      cells, move, got := Get(t, room, pick, s);
      FollowOneMore(s, [], move);
      var slice;
      slice, collecting, after := Collect(t, room, cells, got);
      FollowJoins(s, [move], collecting);
      snapshot, moves := Some(slice), [move] + collecting;
    }

    // The non-blocking send of a job.
    method Offer(t: nat, job: BroadcastJob, ghost s: State) returns (sent: bool, ghost move: Move, ghost after: State)
      requires Matches(s) && t < |s.threads| && s.threads[t].Holding? && s.threads[t].job.job == job
      modifies this`broadcastJobs, this`enqueuedJobs, this`droppedJobs
      ensures after == Next(s, move) && Matches(after) && after.memory == s.memory
      ensures after.threads == s.threads[t := if sent then Idle else Releasing(job.clients)]
      ensures sent <==> |s.jobs| < JOB_BUFFER_SIZE
      ensures broadcastJobs == (if sent then old(broadcastJobs) + [job] else old(broadcastJobs))
      ensures enqueuedJobs == old(enqueuedJobs) + (if sent then 1 else 0)
      ensures droppedJobs == old(droppedJobs) + (if sent then 0 else 1)
    {
      move := GoOn(t, 0, job.clients.cells, 0);
      after := Offered(s, t, s.threads[t].job);
      sent := |broadcastJobs| < JOB_BUFFER_SIZE;
      if sent {
        broadcastJobs := broadcastJobs + [job];
        enqueuedJobs := enqueuedJobs + 1;
      } else {
        droppedJobs := droppedJobs + 1;
      }
    }

    // The loop of releaseSnapshot: nil every cell in use.
    method Clear(t: nat, slice: Slice, ghost s: State) returns (ghost moves: seq<Move>, ghost after: State)
      requires Matches(s) && t < |s.threads| && s.threads[t] == Clearing(slice, 0)
      requires slice.cells in s.memory && slice.len <= slice.cells.Length
      modifies slice.cells
      ensures after == Follow(s, moves) && Matches(after)
      ensures after.threads == s.threads[t := Clearing(slice, slice.len)]
    {
      moves, after := [], s;
      for i := 0 to slice.len
        invariant after == Follow(s, moves) && Matches(after) && slice.cells in after.memory
        invariant after.threads == s.threads[t := Clearing(slice, i)]
      {
        ghost var move;
        move, after := ClearOne(t, slice, i, after);
        FollowOneMore(s, moves, move);
        moves := moves + [move];
      }
    }

    method ClearOne(t: nat, slice: Slice, i: nat, ghost s: State) returns (ghost move: Move, ghost after: State)
      requires Matches(s) && t < |s.threads| && s.threads[t] == Clearing(slice, i)
      requires slice.cells in s.memory && i < slice.len <= slice.cells.Length
      modifies slice.cells
      ensures after == Next(s, move) && Matches(after) && after.memory.Keys == s.memory.Keys
      ensures after.threads == s.threads[t := Clearing(slice, i + 1)]
    {
      move := GoOn(t, 0, slice.cells, 0);
      after := Next(s, move);
      slice.cells[i] := None;
    }

    // The cleared array goes to the pool, and is counted.
    method Put(t: nat, slice: Slice, ghost s: State) returns (ghost moves: seq<Move>, ghost after: State)
      requires Matches(s) && t < |s.threads| && s.threads[t] == Clearing(slice, slice.len)
      modifies this`pool, this`puts
      ensures after == Follow(s, moves) && Matches(after) && after.threads == s.threads[t := Idle]
      ensures pool == old(pool) + {slice.cells} && puts == old(puts) + 1
    {
      ghost var move := GoOn(t, 0, slice.cells, 0);
      FollowOneMore(s, [], move);
      FollowOneMore(s, [move], move);
      moves, after := [move] + [move], Next(Next(s, move), move);
      pool := pool + {slice.cells};
      puts := puts + 1;
    }

    method ClearAndPut(t: nat, slice: Slice, ghost s: State) returns (ghost moves: seq<Move>, ghost after: State)
      requires Matches(s) && t < |s.threads| && s.threads[t] == Clearing(slice, 0)
      requires slice.cells in s.memory && slice.len <= slice.cells.Length
      modifies this`pool, this`puts, slice.cells
      ensures after == Follow(s, moves) && Matches(after) && after.threads == s.threads[t := Idle]
      ensures pool == old(pool) + {slice.cells} && puts == old(puts) + 1
    {
      ghost var clearing, cleared := Clear(t, slice, s);
      ghost var putting;
      putting, after := Put(t, slice, cleared);
      FollowJoins(s, clearing, putting);
      moves := clearing + putting;
    }

    /** releaseSnapshot: an array that has grown too large is dropped, any other is cleared and pooled. */
    method ReleaseSnapshot(t: nat, slice: Slice, ghost s: State) returns (ghost moves: seq<Move>, ghost after: State)
      requires Matches(s) && t < |s.threads| && s.threads[t] == Releasing(slice)
      requires slice.cells in s.memory && slice.len <= slice.cells.Length
      modifies this`pool, this`puts, this`drops, slice.cells
      ensures after == Follow(s, moves) && Matches(after) && after.threads == s.threads[t := Idle]
      ensures GivenBack(slice.cells)
    {
      ghost var move := GoOn(t, 0, slice.cells, 0);
      FollowOneMore(s, [], move);
      moves, after := [move], Next(s, move);
      if slice.cells.Length > MAX_SNAPSHOT_RETAIN_CAP {
        drops := drops + 1;
      } else {
        ghost var rest;
        rest, after := ClearAndPut(t, slice, after);
        FollowJoins(s, [move], rest);
        moves := [move] + rest;
      }
    }

    /** enqueueLocalBroadcast: one job for the members of the room, or, when there is no room or the queue is
        full, nothing that stays. */
    method EnqueueLocalBroadcast(t: nat, room: string, pick: Option<Cells>, ghost s: State)
      returns (sent: bool, ghost moves: seq<Move>, ghost after: State)
      requires Matches(s) && Sound(s) && t < |s.threads| && s.threads[t] == Idle
      modifies this`pool, this`gets, this`puts, this`drops, this`broadcastJobs, this`enqueuedJobs, this`droppedJobs
      modifies s.memory.Keys
      ensures after == Follow(s, moves) && Matches(after) && after.threads == s.threads
      ensures sent <==> room in s.rooms && |s.jobs| < 1024
      ensures gets == old(gets) + (if room in s.rooms then 1 else 0)
      ensures enqueuedJobs == old(enqueuedJobs) + (if sent then 1 else 0)
      ensures droppedJobs == old(droppedJobs) + (if room in s.rooms && !sent then 1 else 0)
      ensures puts + drops == old(puts) + old(drops) + (if room in s.rooms && !sent then 1 else 0)
      ensures |broadcastJobs| == |old(broadcastJobs)| + (if sent then 1 else 0) && old(broadcastJobs) <= broadcastJobs
      ensures sent ==> broadcastJobs[|broadcastJobs| - 1].room == room
    {
      hide Whole;
      assert PoolWhole(s.pool, s.memory) by { SoundIsWhole(s); }
      var snapshot;
      ghost var snapping, held;
      snapshot, snapping, held := SnapshotRoomClients(t, room, pick, s);
      if snapshot.None? {
        return false, [], s;
      }
      HeldFits(s, snapping, t);
      ghost var offering;
      sent, offering, after := OfferOrRelease(t, BroadcastJob(room, snapshot.value), held);
      FollowJoins(s, snapping, offering);
      moves := snapping + offering;
    }

    method OfferOrRelease(t: nat, job: BroadcastJob, ghost s: State)
      returns (sent: bool, ghost moves: seq<Move>, ghost after: State)
      requires Matches(s) && t < |s.threads| && s.threads[t].Holding? && s.threads[t].job.job == job
      requires job.clients.cells in s.memory && job.clients.len <= job.clients.cells.Length
      modifies this`pool, this`puts, this`drops, this`broadcastJobs, this`enqueuedJobs, this`droppedJobs
      modifies job.clients.cells
      ensures after == Follow(s, moves) && Matches(after) && after.threads == s.threads[t := Idle]
      ensures sent <==> |s.jobs| < JOB_BUFFER_SIZE
      ensures broadcastJobs == (if sent then old(broadcastJobs) + [job] else old(broadcastJobs))
      ensures enqueuedJobs == old(enqueuedJobs) + (if sent then 1 else 0)
      ensures droppedJobs == old(droppedJobs) + (if sent then 0 else 1)
      ensures if sent then pool == old(pool) && puts == old(puts) && drops == old(drops)
              else GivenBack(job.clients.cells)
    {
      ghost var move, rest;
      sent, move, after := Offer(t, job, s);
      FollowOneMore(s, [], move);
      moves := [move];
      if !sent {
        rest, after := ReleaseSnapshot(t, job.clients, after);
        FollowJoins(s, [move], rest);
        moves := [move] + rest;
      }
    }

    // A worker receives the oldest job.
    method TakeJob(t: nat, ghost s: State) returns (job: BroadcastJob)
      requires Matches(s) && t < |s.threads| && s.threads[t] == Idle && s.jobs != []
      modifies this`broadcastJobs
      ensures Matches(Next(s, Take(t))) && job == s.jobs[0].job
    {
      job := broadcastJobs[0];
      broadcastJobs := broadcastJobs[1..];
    }

    // The worker's loop over the clients of a job reads them from the array.
    method SendAll(t: nat, job: BroadcastJob, ghost s: State)
      returns (sentTo: seq<ClientId>, ghost moves: seq<Move>, ghost after: State)
      requires Matches(s) && t < |s.threads| && s.threads[t].Sending? && s.threads[t].sent == []
      requires s.threads[t].job.job == job && JobWhole(s.threads[t].job, s.memory)
      ensures after == Follow(s, moves) && Matches(after) && after.memory == s.memory
      ensures after.threads == s.threads[t := Sending(s.threads[t].job, sentTo)]
      ensures sentTo == s.threads[t].job.listed
    {
      sentTo, moves, after := [], [], s;
      for i := 0 to job.clients.len
        invariant after == Follow(s, moves) && Matches(after) && after.memory == s.memory
        invariant after.threads == s.threads[t := Sending(s.threads[t].job, sentTo)]
        invariant sentTo == s.threads[t].job.listed[..i]
      {
        ghost var move := GoOn(t, 0, job.clients.cells, 0);
        FollowOneMore(s, moves, move);
        sentTo := sentTo + [job.clients.cells[i].value];
        moves, after := moves + [move], Next(after, move);
      }
    }

    /** The worker's loop body on the job it has taken: it sends to the clients of the snapshot, each once, and
        gives the array back. */
    method FinishJob(t: nat, job: BroadcastJob, ghost s: State)
      returns (sentTo: seq<ClientId>, ghost moves: seq<Move>, ghost after: State)
      requires Matches(s) && Sound(s) && t < |s.threads| && s.threads[t].Sending? && s.threads[t].sent == []
      requires s.threads[t].job.job == job
      modifies this`pool, this`puts, this`drops, job.clients.cells
      ensures after == Follow(s, moves) && Matches(after) && after.threads == s.threads[t := Idle]
      ensures sentTo == s.threads[t].job.listed && GivenBack(job.clients.cells)
    {
      assert TaskWhole(s.threads[t], s.rooms, s.memory);
      ghost var sending, rest;
      sentTo, sending, after := SendAll(t, job, s);
      ghost var move := GoOn(t, 0, job.clients.cells, 0);
      FollowOneMore(s, sending, move);
      rest, after := ReleaseSnapshot(t, job.clients, Next(after, move));
      FollowJoins(s, sending + [move], rest);
      moves := sending + [move] + rest;
    }
  }
}
