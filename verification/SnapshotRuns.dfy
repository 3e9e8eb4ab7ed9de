/** The recycled client snapshots of the broadcast manager (v10/internal/ws/manager.go) under every
    interleaving. Any number of goroutines run enqueueLocalBroadcast or the worker loop over one memory of
    arrays, one pool and one queue of jobs. A move is one goroutine doing one thing: an access to the pool, the
    queue or a counter, one write or read of a cell, or one change of the rooms under the lock.
    SnapshotPool has the code and proves that it makes these moves. */
module SnapshotRuns {
  import opened Wrappers

  type ClientId = nat
  type Cells = array<Option<ClientId>>

  const JOB_BUFFER_SIZE := 1024
  const SNAPSHOT_INITIAL_CAPACITY := 256
  const MAX_SNAPSHOT_RETAIN_CAP := 8192

  // A Go slice: a backing array, whose length is the capacity, and how many cells are in use.
  datatype Slice = Slice(cells: Cells, len: nat)
  datatype BroadcastJob = BroadcastJob(room: string, clients: Slice)

  // A job with what was true when its snapshot was taken: the members of the room, and their order in it.
  datatype Job = Job(job: BroadcastJob, members: set<ClientId>, listed: seq<ClientId>)

  // A job a worker has finished, and the clients it has sent to.
  datatype Delivery = Delivery(job: Job, sent: seq<ClientId>)

  // What a goroutine has got to, and with which array.
  datatype Task =
    | Idle
    | Got(room: string, cells: Cells)       // got from the pool under the read lock, not yet counted
    | Filling(room: string, slice: Slice, listed: seq<ClientId>, todo: set<ClientId>)
    | Holding(job: Job)                     // the lock is free again, the job not yet sent
    | Sending(job: Job, sent: seq<ClientId>)
    | Releasing(slice: Slice)
    | Clearing(slice: Slice, next: nat)
    | Pooled                                // put into the pool, not yet counted

  type Memory = map<Cells, seq<Option<ClientId>>>

  datatype State = State(
    redis: bool, rooms: map<string, set<ClientId>>, subscriptions: set<string>,
    pool: set<Cells>, jobs: seq<Job>, threads: seq<Task>, memory: Memory,
    gets: nat, puts: nat, drops: nat, enqueuedJobs: nat, droppedJobs: nat, delivered: seq<Delivery>)

  function Start(redis: bool, threads: nat): State {
    State(redis, map[], {}, {}, [], seq(threads, _ => Idle), map[], 0, 0, 0, 0, 0, [])
  }

  /** `pick` is the array the pool hands out, if it has one to give; `made` an array the allocator returns,
      which is never one in use; `capacity` what append grows to; `client` the next member that the
      iteration over the room yields. A pool may forget an array at any time. */
  datatype Move =
    | Register(room: string, client: ClientId)
    | Unregister(room: string, client: ClientId)
    | Snapshot(thread: nat, room: string, pick: Option<Cells>, made: Cells)
    | Take(thread: nat)
    | GoOn(thread: nat, client: ClientId, made: Cells, capacity: nat)
    | Forget(cells: Cells)

  // -------- the moves --------

  function Blank(capacity: nat): seq<Option<ClientId>> {
    seq(capacity, _ => None)
  }

  // A goroutine reads the rooms; until it is done nobody changes them.
  predicate Reads(task: Task) { task.Got? || task.Filling? }

  predicate Locked(threads: seq<Task>) {
    exists t :: 0 <= t < |threads| && Reads(threads[t])
  }

  function Members(rooms: map<string, set<ClientId>>, room: string): set<ClientId> {
    if room in rooms then rooms[room] else {}
  }

  function Registered(s: State, room: string, client: ClientId): State {
    s.(rooms := s.rooms[room := Members(s.rooms, room) + {client}],
       subscriptions := if s.redis then s.subscriptions + {room} else s.subscriptions)
  }

  function Unregistered(s: State, room: string, client: ClientId): State {
    var left := Members(s.rooms, room) - {client};
    if client !in Members(s.rooms, room) then s
    else if left == {} then s.(rooms := s.rooms - {room}, subscriptions := s.subscriptions - {room})
    else s.(rooms := s.rooms[room := left])
  }

  function Moved(s: State, t: nat, task: Task): State
    requires t < |s.threads|
  {
    s.(threads := s.threads[t := task])
  }

  function Snapshotted(s: State, t: nat, room: string, pick: Option<Cells>, made: Cells): State
    requires t < |s.threads|
  {
    if pick.Some? && pick.value in s.pool then
      Moved(s, t, Got(room, pick.value)).(pool := s.pool - {pick.value})
    else if made !in s.memory then
      Moved(s, t, Got(room, made)).(memory := s.memory[made := Blank(SNAPSHOT_INITIAL_CAPACITY)])
    else s
  }

  function Taken(s: State, t: nat): State
    requires t < |s.threads| && s.jobs != []
  {
    Moved(s, t, Sending(s.jobs[0], [])).(jobs := s.jobs[1..])
  }

  function Write(memory: Memory, cells: Cells, i: nat, value: Option<ClientId>): Memory {
    if cells in memory && i < |memory[cells]| then memory[cells := memory[cells][i := value]] else memory
  }

  // append: in place while there is room, otherwise a larger array with the same cells.
  function Appended(s: State, t: nat, client: ClientId, made: Cells, capacity: nat): (next: State)
    requires t < |s.threads| && s.threads[t].Filling? && client in s.threads[t].todo
    ensures |next.threads| == |s.threads| && next.threads == s.threads[t := next.threads[t]]
  {
    var Filling(room, slice, listed, todo) := s.threads[t];
    if slice.cells in s.memory && slice.len < |s.memory[slice.cells]| then
      Moved(s, t, Filling(room, Slice(slice.cells, slice.len + 1), listed + [client], todo - {client}))
      .(memory := Write(s.memory, slice.cells, slice.len, Some(client)))
    else if slice.cells in s.memory && made !in s.memory && capacity > slice.len then
      Moved(s, t, Filling(room, Slice(made, slice.len + 1), listed + [client], todo - {client}))
      .(memory := s.memory[made := s.memory[slice.cells] + [Some(client)] + Blank(capacity - slice.len - 1)])
    else s
  }

  // The non-blocking send of a job.
  function Offered(s: State, t: nat, job: Job): (next: State)
    requires t < |s.threads|
    ensures |next.threads| == |s.threads| && next.threads == s.threads[t := next.threads[t]]
  {
    if |s.jobs| < JOB_BUFFER_SIZE then
      Moved(s, t, Idle).(jobs := s.jobs + [job], enqueuedJobs := s.enqueuedJobs + 1)
    else Moved(s, t, Releasing(job.job.clients)).(droppedJobs := s.droppedJobs + 1)
  }

  // One turn of the worker's loop reads the client from memory.
  function Sent(s: State, t: nat, job: Job, sent: seq<ClientId>): (next: State)
    requires t < |s.threads|
    ensures |next.threads| == |s.threads| && next.threads == s.threads[t := next.threads[t]]
  {
    var Slice(cells, len) := job.job.clients;
    if |sent| >= len then Moved(s, t, Releasing(job.job.clients)).(delivered := s.delivered + [Delivery(job, sent)])
    else if cells in s.memory && |sent| < |s.memory[cells]| && s.memory[cells][|sent|].Some? then
      Moved(s, t, Sending(job, sent + [s.memory[cells][|sent|].value]))
    else s
  }

  function Released(s: State, t: nat, slice: Slice): (next: State)
    requires t < |s.threads|
    ensures |next.threads| == |s.threads| && next.threads == s.threads[t := next.threads[t]]
  {
    if slice.cells in s.memory && |s.memory[slice.cells]| > MAX_SNAPSHOT_RETAIN_CAP then
      Moved(s, t, Idle).(drops := s.drops + 1)
    else Moved(s, t, Clearing(slice, 0))
  }

  function Cleared(s: State, t: nat, slice: Slice, at: nat): (next: State)
    requires t < |s.threads|
    ensures |next.threads| == |s.threads| && next.threads == s.threads[t := next.threads[t]]
  {
    if at < slice.len then
      Moved(s, t, Clearing(slice, at + 1)).(memory := Write(s.memory, slice.cells, at, None))
    else Moved(s, t, Pooled).(pool := s.pool + {slice.cells})
  }

  function WentOn(s: State, t: nat, client: ClientId, made: Cells, capacity: nat): (next: State)
    requires t < |s.threads|
    ensures |next.threads| == |s.threads| && next.threads == s.threads[t := next.threads[t]]
  {
    match s.threads[t]
    case Idle => s
    case Got(room, cells) =>
      Moved(s, t, Filling(room, Slice(cells, 0), [], Members(s.rooms, room))).(gets := s.gets + 1)
    case Filling(room, slice, listed, todo) =>
      if client in todo then Appended(s, t, client, made, capacity)
      else if todo == {} then
        Moved(s, t, Holding(Job(BroadcastJob(room, slice), Members(s.rooms, room), listed)))
      else s
    case Holding(job) => Offered(s, t, job)
    case Sending(job, sent) => Sent(s, t, job, sent)
    case Releasing(slice) => Released(s, t, slice)
    case Clearing(slice, at) => Cleared(s, t, slice, at)
    case Pooled => Moved(s, t, Idle).(puts := s.puts + 1)
  }

  function Next(s: State, move: Move): State {
    match move
    case Register(room, client) => if Locked(s.threads) then s else Registered(s, room, client)
    case Unregister(room, client) => if Locked(s.threads) then s else Unregistered(s, room, client)
    case Snapshot(t, room, pick, made) =>
      if t < |s.threads| && s.threads[t] == Idle && room in s.rooms then Snapshotted(s, t, room, pick, made) else s
    case Take(t) => if t < |s.threads| && s.threads[t] == Idle && s.jobs != [] then Taken(s, t) else s
    case GoOn(t, client, made, capacity) => if t < |s.threads| then WentOn(s, t, client, made, capacity) else s
    case Forget(cells) => s.(pool := s.pool - {cells})
  }

  function Follow(s: State, moves: seq<Move>): State {
    if moves == [] then s else Next(Follow(s, moves[..|moves| - 1]), moves[|moves| - 1])
  }

  // -------- who has which array --------

  function ArrayOf(task: Task): Option<Cells> {
    match task
    case Idle => None
    case Got(_, cells) => Some(cells)
    case Filling(_, slice, _, _) => Some(slice.cells)
    case Holding(job) => Some(job.job.clients.cells)
    case Sending(job, _) => Some(job.job.clients.cells)
    case Releasing(slice) => Some(slice.cells)
    case Clearing(slice, _) => Some(slice.cells)
    case Pooled => None
  }

  predicate Has(task: Task, cells: Cells) { ArrayOf(task) == Some(cells) }

  function Queued(job: Job): Cells { job.job.clients.cells }

  /** No array is in two places: twice in the queue, with two goroutines, or in two of pool, queue and with a
      goroutine. */
  predicate OnePlaceEach(pool: set<Cells>, jobs: seq<Job>, threads: seq<Task>) {
    && (forall i, j :: 0 <= i < j < |jobs| ==> Queued(jobs[i]) != Queued(jobs[j]))
    && (forall j :: 0 <= j < |jobs| ==> Queued(jobs[j]) !in pool)
    && (forall j, t :: 0 <= j < |jobs| && 0 <= t < |threads| ==> !Has(threads[t], Queued(jobs[j])))
    && (forall t :: 0 <= t < |threads| && ArrayOf(threads[t]).Some? ==> ArrayOf(threads[t]).value !in pool)
    && (forall t, u :: 0 <= t < u < |threads| && ArrayOf(threads[t]).Some? ==>
          ArrayOf(threads[t]) != ArrayOf(threads[u]))
  }

  // -------- what is in the arrays --------

  // The cells hold these clients, in this order, and nothing beyond them.
  predicate Filled(cells: seq<Option<ClientId>>, clients: seq<ClientId>) {
    && |clients| <= |cells|
    && (forall i :: 0 <= i < |clients| ==> cells[i] == Some(clients[i]))
    && (forall i :: |clients| <= i < |cells| ==> cells[i] == None)
  }

  // The clients are the members of the room, each once.
  ghost predicate Lists(clients: seq<ClientId>, members: set<ClientId>) {
    && (forall i, j :: 0 <= i < j < |clients| ==> clients[i] != clients[j])
    && (forall c :: c in clients <==> c in members)
  }

  ghost predicate SliceWhole(slice: Slice, listed: seq<ClientId>, memory: Memory) {
    && slice.cells in memory && |memory[slice.cells]| > 0
    && slice.len == |listed| && Filled(memory[slice.cells], listed)
  }

  ghost predicate JobWhole(job: Job, memory: Memory) {
    SliceWhole(job.job.clients, job.listed, memory) && Lists(job.listed, job.members)
  }

  // Of an array that is being cleared, the cells that are not nil yet.
  ghost predicate Cleaned(cells: seq<Option<ClientId>>, next: nat, len: nat) {
    && next <= len <= |cells|
    && (forall i :: 0 <= i < next || len <= i < |cells| ==> cells[i] == None)
  }

  ghost predicate TaskWhole(task: Task, rooms: map<string, set<ClientId>>, memory: Memory) {
    match task
    case Idle => true
    case Got(room, cells) => room in rooms && SliceWhole(Slice(cells, 0), [], memory)
    case Filling(room, slice, listed, todo) =>
      && room in rooms && todo <= rooms[room]
      && SliceWhole(slice, listed, memory) && Lists(listed, rooms[room] - todo)
    case Holding(job) => JobWhole(job, memory)
    case Sending(job, sent) => JobWhole(job, memory) && sent <= job.listed
    case Releasing(slice) =>
      slice.cells in memory && |memory[slice.cells]| > 0 && Cleaned(memory[slice.cells], 0, slice.len)
    case Clearing(slice, next) =>
      && slice.cells in memory && 0 < |memory[slice.cells]| <= MAX_SNAPSHOT_RETAIN_CAP
      && Cleaned(memory[slice.cells], next, slice.len)
    case Pooled => true
  }

  // Every pooled array is nil up to its capacity, which is not too large.
  ghost predicate PoolWhole(pool: set<Cells>, memory: Memory) {
    forall cells :: cells in pool ==>
      cells in memory && 0 < |memory[cells]| <= MAX_SNAPSHOT_RETAIN_CAP && Filled(memory[cells], [])
  }

  ghost predicate JobsWhole(jobs: seq<Job>, memory: Memory) {
    |jobs| <= JOB_BUFFER_SIZE && forall j :: 0 <= j < |jobs| ==> JobWhole(jobs[j], memory)
  }

  ghost predicate TasksWhole(threads: seq<Task>, rooms: map<string, set<ClientId>>, memory: Memory) {
    forall t :: 0 <= t < |threads| ==> TaskWhole(threads[t], rooms, memory)
  }

  ghost predicate Whole(s: State) {
    PoolWhole(s.pool, s.memory) && JobsWhole(s.jobs, s.memory) && TasksWhole(s.threads, s.rooms, s.memory)
  }

  // Exactly the present members were sent to, each once.
  ghost predicate Delivered(d: Delivery) {
    d.sent == d.job.listed && Lists(d.sent, d.job.members)
  }

  // -------- the counters --------

  datatype Tally = Uncounted | Owner | Unput | Deliverer

  function One(task: Task, tally: Tally): nat {
    match tally
    case Uncounted => if task.Got? then 1 else 0
    case Owner => if ArrayOf(task).Some? then 1 else 0
    case Unput => if task.Pooled? then 1 else 0
    case Deliverer => if task.Sending? then 1 else 0
  }

  function Sum(threads: seq<Task>, tally: Tally): nat {
    if threads == [] then 0 else One(threads[0], tally) + Sum(threads[1..], tally)
  }

  lemma {:induction false} SumUpdate(threads: seq<Task>, t: nat, task: Task, tally: Tally)
    requires t < |threads|
    ensures Sum(threads[t := task], tally) + One(threads[t], tally) == Sum(threads, tally) + One(task, tally)
  {
    if t > 0 {
      SumUpdate(threads[1..], t - 1, task, tally);
      assert threads[t := task][1..] == threads[1..][t - 1 := task];
    } else {
      assert threads[t := task][1..] == threads[1..];
    }
  }

  lemma {:induction false} IdleSum(threads: seq<Task>, tally: Tally)
    requires forall t :: 0 <= t < |threads| ==> threads[t] == Idle
    ensures Sum(threads, tally) == 0
  {
    if threads != [] {
      IdleSum(threads[1..], tally);
    }
  }

  // Gets are puts, drops and arrays held, up to goroutines about to count; each enqueued job is queued, with
  // a worker, or delivered.
  predicate Balanced(s: State) {
    && s.gets + Sum(s.threads, Uncounted)
       == s.puts + Sum(s.threads, Unput) + s.drops + |s.jobs| + Sum(s.threads, Owner)
    && s.enqueuedJobs == |s.jobs| + Sum(s.threads, Deliverer) + |s.delivered|
  }

  // No room is empty; with Redis exactly the rooms that exist are subscribed to.
  predicate RoomsKept(s: State) {
    && (forall room :: room in s.rooms ==> s.rooms[room] != {})
    && s.subscriptions == (if s.redis then s.rooms.Keys else {})
  }

  ghost predicate Sound(s: State) {
    && OnePlaceEach(s.pool, s.jobs, s.threads)
    && Whole(s) && Balanced(s) && RoomsKept(s)
    && (forall k :: 0 <= k < |s.delivered| ==> Delivered(s.delivered[k]))
  }

  // -------- what one thread writes leaves the others alone --------

  ghost predicate Agree(memory: Memory, memory': Memory, except: Option<Cells>) {
    forall a :: a in memory ==> a in memory' && (except != Some(a) ==> memory'[a] == memory[a])
  }

  lemma OthersWhole(s: State, t: nat, memory': Memory)
    requires t < |s.threads| && Whole(s) && OnePlaceEach(s.pool, s.jobs, s.threads)
    requires Agree(s.memory, memory', ArrayOf(s.threads[t]))
    ensures PoolWhole(s.pool, memory') && JobsWhole(s.jobs, memory')
    ensures forall u :: 0 <= u < |s.threads| && u != t ==> TaskWhole(s.threads[u], s.rooms, memory')
  {
    forall j | 0 <= j < |s.jobs| ensures JobWhole(s.jobs[j], memory') {
      assert JobWhole(s.jobs[j], s.memory) && !Has(s.threads[t], Queued(s.jobs[j]));
    }
    forall u | 0 <= u < |s.threads| && u != t ensures TaskWhole(s.threads[u], s.rooms, memory') {
      assert TaskWhole(s.threads[u], s.rooms, s.memory);
      OtherWhole(s, t, memory', u);
    }
  }

  lemma OtherWhole(s: State, t: nat, memory': Memory, u: nat)
    requires t < |s.threads| && u < |s.threads| && u != t
    requires OnePlaceEach(s.pool, s.jobs, s.threads) && TaskWhole(s.threads[u], s.rooms, s.memory)
    requires Agree(s.memory, memory', ArrayOf(s.threads[t]))
    ensures TaskWhole(s.threads[u], s.rooms, memory')
  {
    assert ArrayOf(s.threads[u]).Some? ==> ArrayOf(s.threads[u]) != ArrayOf(s.threads[t]) by {
      if t < u { } else { }
    }
  }

  // One thread goes on with the array it has, or without one, and may write into it.
  lemma StepWhole(s: State, t: nat, task: Task, memory': Memory)
    requires t < |s.threads| && Whole(s) && OnePlaceEach(s.pool, s.jobs, s.threads)
    requires Agree(s.memory, memory', ArrayOf(s.threads[t]))
    requires TaskWhole(task, s.rooms, memory')
    ensures TasksWhole(s.threads[t := task], s.rooms, memory')
    ensures PoolWhole(s.pool, memory') && JobsWhole(s.jobs, memory')
  {
    OthersWhole(s, t, memory');
  }

  // -------- arrays that change hands --------

  lemma SameArray(s: State, t: nat, task: Task)
    requires t < |s.threads| && OnePlaceEach(s.pool, s.jobs, s.threads)
    requires ArrayOf(task) == ArrayOf(s.threads[t]) || ArrayOf(task) == None
    ensures OnePlaceEach(s.pool, s.jobs, s.threads[t := task])
  {
  }

  lemma NewArray(s: State, t: nat, task: Task, made: Cells)
    requires t < |s.threads| && OnePlaceEach(s.pool, s.jobs, s.threads) && Whole(s)
    requires made !in s.memory && ArrayOf(task) == Some(made)
    ensures OnePlaceEach(s.pool, s.jobs, s.threads[t := task])
  {
    forall j | 0 <= j < |s.jobs| ensures Queued(s.jobs[j]) != made {
      assert JobWhole(s.jobs[j], s.memory);
    }
    forall u | 0 <= u < |s.threads| ensures !Has(s.threads[u], made) {
      assert TaskWhole(s.threads[u], s.rooms, s.memory);
    }
  }

  lemma FromPool(s: State, t: nat, task: Task, cells: Cells)
    requires t < |s.threads| && OnePlaceEach(s.pool, s.jobs, s.threads)
    requires cells in s.pool && ArrayOf(task) == Some(cells)
    ensures OnePlaceEach(s.pool - {cells}, s.jobs, s.threads[t := task])
  {
  }

  lemma ToPool(s: State, t: nat, task: Task, cells: Cells)
    requires t < |s.threads| && OnePlaceEach(s.pool, s.jobs, s.threads)
    requires ArrayOf(s.threads[t]) == Some(cells) && ArrayOf(task) == None
    ensures OnePlaceEach(s.pool + {cells}, s.jobs, s.threads[t := task])
  {
    assert forall j :: 0 <= j < |s.jobs| ==> !Has(s.threads[t], Queued(s.jobs[j]));
  }

  lemma ToQueue(s: State, t: nat, task: Task, job: Job)
    requires t < |s.threads| && OnePlaceEach(s.pool, s.jobs, s.threads)
    requires ArrayOf(s.threads[t]) == Some(Queued(job)) && ArrayOf(task) == None
    ensures OnePlaceEach(s.pool, s.jobs + [job], s.threads[t := task])
  {
    assert forall j :: 0 <= j < |s.jobs| ==> !Has(s.threads[t], Queued(s.jobs[j]));
    assert forall u :: 0 <= u < |s.threads| && u != t ==> !Has(s.threads[u], Queued(job));
  }

  lemma FromQueue(s: State, t: nat, task: Task)
    requires t < |s.threads| && OnePlaceEach(s.pool, s.jobs, s.threads)
    requires s.jobs != [] && s.threads[t] == Idle && ArrayOf(task) == Some(Queued(s.jobs[0]))
    ensures OnePlaceEach(s.pool, s.jobs[1..], s.threads[t := task])
  {
    var rest := s.jobs[1..];
    assert forall j :: 0 <= j < |rest| ==> rest[j] == s.jobs[j + 1];
    assert forall u :: 0 <= u < |s.threads| ==> !Has(s.threads[u], Queued(s.jobs[0]));
  }

  // -------- every move keeps it --------

  lemma SumsUpdate(threads: seq<Task>, t: nat, task: Task)
    requires t < |threads|
    ensures forall tally :: Sum(threads[t := task], tally) + One(threads[t], tally)
                            == Sum(threads, tally) + One(task, tally)
  {
    forall tally
      ensures Sum(threads[t := task], tally) + One(threads[t], tally) == Sum(threads, tally) + One(task, tally)
    {
      SumUpdate(threads, t, task, tally);
    }
  }

  lemma SnapshottedIsSound(s: State, t: nat, room: string, pick: Option<Cells>, made: Cells)
    requires Sound(s) && t < |s.threads| && s.threads[t] == Idle && room in s.rooms
    ensures Sound(Snapshotted(s, t, room, pick, made))
  {
    var next := Snapshotted(s, t, room, pick, made);
    if next != s {
      var task := next.threads[t];
      TalliedIsBalanced(s, t, task, next);
      StepWhole(s, t, task, next.memory);
      if pick.Some? && pick.value in s.pool {
        FromPool(s, t, task, pick.value);
      } else {
        NewArray(s, t, task, made);
      }
    }
  }

  // What a step of thread t adds to the counters is what it adds to the places.
  predicate Tallied(s: State, t: nat, task: Task, next: State)
    requires t < |s.threads|
  {
    var was := s.threads[t];
    && next.gets + One(task, Uncounted) + One(was, Owner) + s.puts + One(was, Unput) + s.drops + |s.jobs|
       == s.gets + One(was, Uncounted) + One(task, Owner) + next.puts + One(task, Unput) + next.drops + |next.jobs|
    && next.enqueuedJobs + |s.jobs| + One(was, Deliverer) + |s.delivered|
       == s.enqueuedJobs + |next.jobs| + One(task, Deliverer) + |next.delivered|
  }

  lemma TalliedIsBalanced(s: State, t: nat, task: Task, next: State)
    requires t < |s.threads| && Balanced(s) && next.threads == s.threads[t := task] && Tallied(s, t, task, next)
    ensures Balanced(next)
  {
    SumsUpdate(s.threads, t, task);
  }

  // A step that leaves pool, queue and rooms alone, with the array of the thread or without.
  lemma StillIsSound(s: State, t: nat, task: Task, next: State)
    requires Sound(s) && t < |s.threads| && next.threads == s.threads[t := task]
    requires next.pool == s.pool && next.jobs == s.jobs
    requires next.redis == s.redis && next.rooms == s.rooms && next.subscriptions == s.subscriptions
    requires ArrayOf(task) == ArrayOf(s.threads[t]) || ArrayOf(task) == None
    requires Agree(s.memory, next.memory, ArrayOf(s.threads[t])) && TaskWhole(task, s.rooms, next.memory)
    requires Tallied(s, t, task, next)
    requires forall k :: 0 <= k < |next.delivered| ==> Delivered(next.delivered[k])
    ensures Sound(next)
  {
    TalliedIsBalanced(s, t, task, next);
    StepWhole(s, t, task, next.memory);
    SameArray(s, t, task);
  }

  lemma TakenIsSound(s: State, t: nat)
    requires Sound(s) && t < |s.threads| && s.threads[t] == Idle && s.jobs != []
    ensures Sound(Taken(s, t))
  {
    var task := Sending(s.jobs[0], []);
    TalliedIsBalanced(s, t, task, Taken(s, t));
    StepWhole(s, t, task, s.memory);
    FromQueue(s, t, task);
  }

  lemma CountedIsSound(s: State, t: nat)
    requires Sound(s) && t < |s.threads| && s.threads[t].Got?
    ensures var Got(room, cells) := s.threads[t];
            Sound(Moved(s, t, Filling(room, Slice(cells, 0), [], Members(s.rooms, room))).(gets := s.gets + 1))
  {
    var Got(room, cells) := s.threads[t];
    var task := Filling(room, Slice(cells, 0), [], Members(s.rooms, room));
    assert TaskWhole(s.threads[t], s.rooms, s.memory);
    StillIsSound(s, t, task, Moved(s, t, task).(gets := s.gets + 1));
  }

  lemma PooledIsSound(s: State, t: nat)
    requires Sound(s) && t < |s.threads| && s.threads[t].Pooled?
    ensures Sound(Moved(s, t, Idle).(puts := s.puts + 1))
  {
    StillIsSound(s, t, Idle, Moved(s, t, Idle).(puts := s.puts + 1));
  }

  // One more client in the array, or in the larger one that replaces it.
  lemma AppendedTask(s: State, t: nat, client: ClientId, made: Cells, capacity: nat)
    requires Sound(s) && t < |s.threads| && s.threads[t].Filling? && client in s.threads[t].todo
    ensures var next := Appended(s, t, client, made, capacity);
            TaskWhole(next.threads[t], s.rooms, next.memory) && Agree(s.memory, next.memory, ArrayOf(s.threads[t]))
  {
    var Filling(room, slice, listed, todo) := s.threads[t];
    assert TaskWhole(s.threads[t], s.rooms, s.memory);
    ListsOneMore(listed, s.rooms[room], todo, client);
  }

  lemma ListsOneMore(listed: seq<ClientId>, members: set<ClientId>, todo: set<ClientId>, client: ClientId)
    requires todo <= members && client in todo && Lists(listed, members - todo)
    ensures Lists(listed + [client], members - (todo - {client}))
  {
  }

  lemma AppendedIsSound(s: State, t: nat, client: ClientId, made: Cells, capacity: nat)
    requires Sound(s) && t < |s.threads| && s.threads[t].Filling? && client in s.threads[t].todo
    ensures Sound(Appended(s, t, client, made, capacity))
  {
    var next := Appended(s, t, client, made, capacity);
    if next != s {
      var task := next.threads[t];
      AppendedTask(s, t, client, made, capacity);
      if ArrayOf(task) == ArrayOf(s.threads[t]) {
        StillIsSound(s, t, task, next);
      } else {
        TalliedIsBalanced(s, t, task, next);
        StepWhole(s, t, task, next.memory);
        NewArray(s, t, task, made);
      }
    }
  }

  lemma FilledIsSound(s: State, t: nat)
    requires Sound(s) && t < |s.threads| && s.threads[t].Filling? && s.threads[t].todo == {}
    ensures var Filling(room, slice, listed, _) := s.threads[t];
            Sound(Moved(s, t, Holding(Job(BroadcastJob(room, slice), Members(s.rooms, room), listed))))
  {
    var Filling(room, slice, listed, todo) := s.threads[t];
    var task := Holding(Job(BroadcastJob(room, slice), Members(s.rooms, room), listed));
    assert TaskWhole(s.threads[t], s.rooms, s.memory);
    assert s.rooms[room] - todo == s.rooms[room];
    StillIsSound(s, t, task, Moved(s, t, task));
  }

  lemma OfferedIsSound(s: State, t: nat, job: Job)
    requires Sound(s) && t < |s.threads| && s.threads[t] == Holding(job)
    ensures Sound(Offered(s, t, job))
  {
    var next := Offered(s, t, job);
    assert TaskWhole(s.threads[t], s.rooms, s.memory);
    if |s.jobs| < JOB_BUFFER_SIZE {
      TalliedIsBalanced(s, t, Idle, next);
      StepWhole(s, t, Idle, s.memory);
      ToQueue(s, t, Idle, job);
    } else {
      StillIsSound(s, t, Releasing(job.job.clients), next);
    }
  }

  lemma SentIsSound(s: State, t: nat, job: Job, sent: seq<ClientId>)
    requires Sound(s) && t < |s.threads| && s.threads[t] == Sending(job, sent)
    ensures Sound(Sent(s, t, job, sent))
  {
    var next := Sent(s, t, job, sent);
    assert TaskWhole(s.threads[t], s.rooms, s.memory);
    if |sent| >= job.job.clients.len {
      assert Delivered(Delivery(job, sent));
      StillIsSound(s, t, Releasing(job.job.clients), next);
    } else {
      var task := Sending(job, sent + [job.listed[|sent|]]);
      assert TaskWhole(task, s.rooms, s.memory);
      StillIsSound(s, t, task, next);
    }
  }

  lemma ReleasedIsSound(s: State, t: nat, slice: Slice)
    requires Sound(s) && t < |s.threads| && s.threads[t] == Releasing(slice)
    ensures Sound(Released(s, t, slice))
  {
    var next := Released(s, t, slice);
    assert TaskWhole(s.threads[t], s.rooms, s.memory);
    StillIsSound(s, t, next.threads[t], next);
  }

  lemma ClearedIsSound(s: State, t: nat, slice: Slice, next: nat)
    requires Sound(s) && t < |s.threads| && s.threads[t] == Clearing(slice, next)
    ensures Sound(Cleared(s, t, slice, next))
  {
    var after := Cleared(s, t, slice, next);
    assert TaskWhole(s.threads[t], s.rooms, s.memory);
    if next < slice.len {
      StillIsSound(s, t, Clearing(slice, next + 1), after);
    } else {
      TalliedIsBalanced(s, t, Pooled, after);
      StepWhole(s, t, Pooled, s.memory);
      ToPool(s, t, Pooled, slice.cells);
    }
  }

  lemma WentOnIsSound(s: State, t: nat, client: ClientId, made: Cells, capacity: nat)
    requires Sound(s) && t < |s.threads|
    ensures Sound(WentOn(s, t, client, made, capacity))
  {
    match s.threads[t]
    case Idle =>
    case Got(_, _) => CountedIsSound(s, t);
    case Filling(_, _, _, todo) =>
      if client in todo {
        AppendedIsSound(s, t, client, made, capacity);
      } else if todo == {} {
        FilledIsSound(s, t);
      }
    case Holding(job) => OfferedIsSound(s, t, job);
    case Sending(job, sent) => SentIsSound(s, t, job, sent);
    case Releasing(slice) => ReleasedIsSound(s, t, slice);
    case Clearing(slice, next) => ClearedIsSound(s, t, slice, next);
    case Pooled => PooledIsSound(s, t);
  }

  // The rooms change only when nobody reads them, so every other goroutine is as whole as before.
  lemma RoomsChange(s: State, rooms: map<string, set<ClientId>>)
    requires Whole(s) && !Locked(s.threads)
    ensures TasksWhole(s.threads, rooms, s.memory)
  {
    forall t | 0 <= t < |s.threads| ensures TaskWhole(s.threads[t], rooms, s.memory) {
      assert TaskWhole(s.threads[t], s.rooms, s.memory) && !Reads(s.threads[t]);
    }
  }

  lemma RegisteredIsSound(s: State, room: string, client: ClientId)
    requires Sound(s) && !Locked(s.threads)
    ensures Sound(Registered(s, room, client))
  {
    RoomsChange(s, Registered(s, room, client).rooms);
  }

  lemma UnregisteredIsSound(s: State, room: string, client: ClientId)
    requires Sound(s) && !Locked(s.threads)
    ensures Sound(Unregistered(s, room, client))
  {
    RoomsChange(s, Unregistered(s, room, client).rooms);
    UnregisteredKeepsRooms(s, room, client);
  }

  lemma UnregisteredKeepsRooms(s: State, room: string, client: ClientId)
    requires RoomsKept(s)
    ensures RoomsKept(Unregistered(s, room, client))
  {
  }

  lemma ForgottenIsSound(s: State, cells: Cells)
    requires Sound(s)
    ensures Sound(s.(pool := s.pool - {cells}))
  {
  }

  lemma NextIsSound(s: State, move: Move)
    requires Sound(s)
    ensures Sound(Next(s, move))
  {
    match move
    case Register(room, client) => if !Locked(s.threads) { RegisteredIsSound(s, room, client); }
    case Unregister(room, client) => if !Locked(s.threads) { UnregisteredIsSound(s, room, client); }
    case Snapshot(t, room, pick, made) =>
      if t < |s.threads| && s.threads[t] == Idle && room in s.rooms {
        SnapshottedIsSound(s, t, room, pick, made);
      }
    case Take(t) =>
      if t < |s.threads| && s.threads[t] == Idle && s.jobs != [] {
        TakenIsSound(s, t);
      }
    case GoOn(t, client, made, capacity) =>
      if t < |s.threads| {
        WentOnIsSound(s, t, client, made, capacity);
      }
    case Forget(cells) => ForgottenIsSound(s, cells);
  }

  // -------- the results --------

  lemma {:induction false} FollowIsSound(s: State, moves: seq<Move>)
    requires Sound(s)
    ensures Sound(Follow(s, moves))
  {
    if moves != [] {
      FollowIsSound(s, moves[..|moves| - 1]);
      NextIsSound(Follow(s, moves[..|moves| - 1]), moves[|moves| - 1]);
    }
  }

  function After(redis: bool, threads: nat, moves: seq<Move>): State {
    Follow(Start(redis, threads), moves)
  }

  lemma RunIsSound(redis: bool, threads: nat, moves: seq<Move>)
    ensures Sound(After(redis, threads, moves))
  {
    forall tally {
      IdleSum(Start(redis, threads).threads, tally);
    }
    FollowIsSound(Start(redis, threads), moves);
  }

  // While a goroutine is reading the rooms, those who come and go wait.
  predicate CanCome(s: State) {
    forall t :: 0 <= t < |s.threads| ==> !s.threads[t].Got? && !s.threads[t].Filling?
  }

  // Who is in a room, going by who has come and gone.
  function Present(redis: bool, threads: nat, moves: seq<Move>, room: string): set<ClientId> {
    if moves == [] then {}
    else
      var before, last := moves[..|moves| - 1], moves[|moves| - 1];
      var present := Present(redis, threads, before, room);
      if last.Register? && last.room == room && CanCome(After(redis, threads, before)) then present + {last.client}
      else if last.Unregister? && last.room == room && CanCome(After(redis, threads, before))
      then present - {last.client}
      else present
  }

  /** The members of a room are exactly those who have come and not gone; without any there is no such room,
      and with Redis exactly the rooms that have some are subscribed to. */
  lemma {:induction false} MembersArePresent(redis: bool, threads: nat, moves: seq<Move>, room: string)
    ensures var s := After(redis, threads, moves);
            && Members(s.rooms, room) == Present(redis, threads, moves, room)
            && (room in s.rooms <==> Present(redis, threads, moves, room) != {})
            && (room in s.subscriptions <==> redis && Present(redis, threads, moves, room) != {})
  {
    RunIsSound(redis, threads, moves);
    SameRedis(redis, threads, moves);
    if moves != [] {
      var before, last := moves[..|moves| - 1], moves[|moves| - 1];
      MembersArePresent(redis, threads, before, room);
      MembersMove(After(redis, threads, before), last, room);
    }
  }

  lemma {:induction false} SameRedis(redis: bool, threads: nat, moves: seq<Move>)
    ensures After(redis, threads, moves).redis == redis
  {
    if moves != [] {
      SameRedis(redis, threads, moves[..|moves| - 1]);
      RoomsAlone(After(redis, threads, moves[..|moves| - 1]), moves[|moves| - 1]);
    }
  }

  // Only coming and going changes the rooms.
  lemma RoomsAlone(s: State, move: Move)
    ensures Next(s, move).redis == s.redis
    ensures !move.Register? && !move.Unregister? ==> Next(s, move).rooms == s.rooms
  {
    if move.GoOn? && move.thread < |s.threads| {
      GoingOnKeepsRooms(s, move.thread, move.client, move.made, move.capacity);
    }
  }

  lemma GoingOnKeepsRooms(s: State, t: nat, client: ClientId, made: Cells, capacity: nat)
    requires t < |s.threads|
    ensures var next := WentOn(s, t, client, made, capacity); next.redis == s.redis && next.rooms == s.rooms
  {
    hide Appended;
    if s.threads[t].Filling? && client in s.threads[t].todo {
      AppendingKeeps(s, t, client, made, capacity);
    }
  }

  lemma AppendingKeeps(s: State, t: nat, client: ClientId, made: Cells, capacity: nat)
    requires t < |s.threads| && s.threads[t].Filling? && client in s.threads[t].todo
    ensures var next := Appended(s, t, client, made, capacity);
            next.redis == s.redis && next.rooms == s.rooms && next.drops == s.drops
  {
  }

  lemma MembersMove(s: State, move: Move, room: string)
    ensures Members(Next(s, move).rooms, room) ==
            if move.Register? && move.room == room && CanCome(s) then Members(s.rooms, room) + {move.client}
            else if move.Unregister? && move.room == room && CanCome(s) then Members(s.rooms, room) - {move.client}
            else Members(s.rooms, room)
  {
    RoomsAlone(s, move);
    assert Locked(s.threads) <==> !CanCome(s);
    if move.Unregister? && move.client !in Members(s.rooms, move.room) && move.room == room {
      assert Members(s.rooms, room) - {move.client} == Members(s.rooms, room);
    }
  }

  /** An array is dropped exactly when it is given back with a capacity above 8192. */
  lemma DroppedIff(redis: bool, threads: nat, moves: seq<Move>, move: Move)
    ensures var s := After(redis, threads, moves);
            var task := if move.GoOn? && move.thread < |s.threads| then s.threads[move.thread] else Idle;
            && (task.Releasing? ==> task.slice.cells in s.memory)
            && Next(s, move).drops
               == s.drops + (if task.Releasing? && |s.memory[task.slice.cells]| > 8192 then 1 else 0)
  {
    var s := After(redis, threads, moves);
    RunIsSound(redis, threads, moves);
    if move.GoOn? && move.thread < |s.threads| {
      assert TaskWhole(s.threads[move.thread], s.rooms, s.memory);
      GoingOnDrops(s, move.thread, move.client, move.made, move.capacity);
    }
  }

  lemma GoingOnDrops(s: State, t: nat, client: ClientId, made: Cells, capacity: nat)
    requires t < |s.threads| && (s.threads[t].Releasing? ==> s.threads[t].slice.cells in s.memory)
    ensures WentOn(s, t, client, made, capacity).drops
            == s.drops + (if s.threads[t].Releasing? && |s.memory[s.threads[t].slice.cells]| > 8192 then 1 else 0)
  {
    hide Appended;
    if s.threads[t].Filling? && client in s.threads[t].todo {
      AppendingKeeps(s, t, client, made, capacity);
    }
  }

  function QueuedArrays(jobs: seq<Job>): set<Cells> {
    set j | 0 <= j < |jobs| :: Queued(jobs[j])
  }

  function RunningArrays(threads: seq<Task>): set<Cells> {
    set t | 0 <= t < |threads| && ArrayOf(threads[t]).Some? :: ArrayOf(threads[t]).value
  }

  lemma {:induction false} QueueCounts(jobs: seq<Job>)
    requires forall i, j :: 0 <= i < j < |jobs| ==> Queued(jobs[i]) != Queued(jobs[j])
    ensures |QueuedArrays(jobs)| == |jobs|
  {
    if jobs != [] {
      var init, last := jobs[..|jobs| - 1], jobs[|jobs| - 1];
      QueueCounts(init);
      assert QueuedArrays(jobs) == QueuedArrays(init) + {Queued(last)} by {
        assert forall j :: 0 <= j < |init| ==> jobs[j] == init[j];
      }
    }
  }

  lemma {:induction false} ThreadsCount(threads: seq<Task>)
    requires forall t, u :: 0 <= t < u < |threads| && ArrayOf(threads[t]).Some? ==>
               ArrayOf(threads[t]) != ArrayOf(threads[u])
    ensures |RunningArrays(threads)| == Sum(threads, Owner)
  {
    if threads != [] {
      var first, rest := threads[0], threads[1..];
      FirstIsApart(threads);
      ThreadsCount(rest);
      OneMoreRuns(first, rest);
      assert threads == [first] + rest;
    }
  }

  lemma FirstIsApart(threads: seq<Task>)
    requires threads != []
    requires forall t, u :: 0 <= t < u < |threads| && ArrayOf(threads[t]).Some? ==>
               ArrayOf(threads[t]) != ArrayOf(threads[u])
    ensures var rest := threads[1..];
            forall t, u :: 0 <= t < u < |rest| && ArrayOf(rest[t]).Some? ==> ArrayOf(rest[t]) != ArrayOf(rest[u])
    ensures ArrayOf(threads[0]).Some? ==> ArrayOf(threads[0]).value !in RunningArrays(threads[1..])
  {
    var rest := threads[1..];
    assert forall t :: 0 <= t < |rest| ==> rest[t] == threads[t + 1];
  }

  lemma OneMoreRuns(first: Task, rest: seq<Task>)
    ensures RunningArrays([first] + rest)
         == RunningArrays(rest) + (if ArrayOf(first).Some? then {ArrayOf(first).value} else {})
  {
    var threads := [first] + rest;
    assert forall t :: 0 <= t < |rest| ==> rest[t] == threads[t + 1];
    forall cells | cells in RunningArrays(rest) ensures cells in RunningArrays(threads) {
      var t :| 0 <= t < |rest| && ArrayOf(rest[t]) == Some(cells);
      assert ArrayOf(threads[t + 1]) == Some(cells);
    }
    assert ArrayOf(first).Some? ==> ArrayOf(threads[0]).value in RunningArrays(threads);
  }

  lemma PlacesCount(pool: set<Cells>, jobs: seq<Job>, threads: seq<Task>)
    requires OnePlaceEach(pool, jobs, threads)
    ensures pool !! QueuedArrays(jobs) && pool !! RunningArrays(threads) && QueuedArrays(jobs) !! RunningArrays(threads)
    ensures |QueuedArrays(jobs)| == |jobs| && |RunningArrays(threads)| == Sum(threads, Owner)
  {
    QueueCounts(jobs);
    ThreadsCount(threads);
  }

  /** In every run each array is in the pool, in one queued job, with one goroutine, or nowhere; and the arrays
      got are those put back, dropped, and still out, up to goroutines between an access and its count. */
  lemma EachArrayHasOnePlace(redis: bool, threads: nat, moves: seq<Move>)
    ensures var s := After(redis, threads, moves);
            var borrowed := QueuedArrays(s.jobs) + RunningArrays(s.threads);
            && OnePlaceEach(s.pool, s.jobs, s.threads) && s.pool !! borrowed
            && s.gets + Sum(s.threads, Uncounted) == s.puts + Sum(s.threads, Unput) + s.drops + |borrowed|
  {
    var s := After(redis, threads, moves);
    RunIsSound(redis, threads, moves);
    PlacesCount(s.pool, s.jobs, s.threads);
  }

  // An array of the pool keeps no client alive: all its cells are nil, up to its capacity.
  lemma PooledIsNil(redis: bool, threads: nat, moves: seq<Move>, cells: Cells, i: nat)
    ensures var s := After(redis, threads, moves);
            cells in s.pool ==>
              && cells in s.memory && |s.memory[cells]| <= MAX_SNAPSHOT_RETAIN_CAP
              && (i < |s.memory[cells]| ==> s.memory[cells][i] == None)
  {
    RunIsSound(redis, threads, moves);
  }

  // The array of a job that is queued, about to be sent, or being worked on.
  predicate InUse(s: State, cells: Cells) {
    || (exists j :: 0 <= j < |s.jobs| && Queued(s.jobs[j]) == cells)
    || (exists t :: 0 <= t < |s.threads| && (s.threads[t].Holding? || s.threads[t].Sending?)
          && Has(s.threads[t], cells))
  }

  // A cell changes only by a goroutine that has the array and is filling or clearing it.
  lemma OnlyOwnersWrite(s: State, move: Move, cells: Cells)
    requires cells in s.memory
    ensures cells in Next(s, move).memory
    ensures Next(s, move).memory[cells] != s.memory[cells] ==>
              && move.GoOn? && move.thread < |s.threads| && Has(s.threads[move.thread], cells)
              && (s.threads[move.thread].Filling? || s.threads[move.thread].Clearing?)
  {
    if move.GoOn? && move.thread < |s.threads| {
      OnlyOwnersGoOnWriting(s, move.thread, move.client, move.made, move.capacity, cells);
    }
  }

  lemma OnlyOwnersGoOnWriting(s: State, t: nat, client: ClientId, made: Cells, capacity: nat, cells: Cells)
    requires cells in s.memory && t < |s.threads|
    ensures var memory' := WentOn(s, t, client, made, capacity).memory;
            && cells in memory'
            && (memory'[cells] != s.memory[cells] ==>
                  Has(s.threads[t], cells) && (s.threads[t].Filling? || s.threads[t].Clearing?))
  {
    if s.threads[t].Filling? && client in s.threads[t].todo {
      AppendingWrites(s, t, client, made, capacity, cells);
    }
  }

  lemma AppendingWrites(s: State, t: nat, client: ClientId, made: Cells, capacity: nat, cells: Cells)
    requires cells in s.memory && t < |s.threads| && s.threads[t].Filling? && client in s.threads[t].todo
    ensures var memory' := Appended(s, t, client, made, capacity).memory;
            cells in memory' && (memory'[cells] != s.memory[cells] ==> Has(s.threads[t], cells))
  {
  }

  /** Whatever any goroutine does next, the snapshot of a job in use stays as it is: until its release the
      array of a job holds what it was filled with. */
  lemma InUseIsUntouched(redis: bool, threads: nat, moves: seq<Move>, move: Move, cells: Cells)
    requires InUse(After(redis, threads, moves), cells)
    ensures var s := After(redis, threads, moves);
            cells in s.memory && cells in Next(s, move).memory && Next(s, move).memory[cells] == s.memory[cells]
  {
    RunIsSound(redis, threads, moves);
    InUseIsReadOnly(After(redis, threads, moves), cells);
    OnlyOwnersWrite(After(redis, threads, moves), move, cells);
  }

  lemma InUseIsReadOnly(s: State, cells: Cells)
    requires Sound(s) && InUse(s, cells)
    ensures cells in s.memory
    ensures forall u :: 0 <= u < |s.threads| && (s.threads[u].Filling? || s.threads[u].Clearing?) ==>
            !Has(s.threads[u], cells)
  {
    if j :| 0 <= j < |s.jobs| && Queued(s.jobs[j]) == cells {
      assert JobWhole(s.jobs[j], s.memory);
    } else {
      var t :| 0 <= t < |s.threads| && (s.threads[t].Holding? || s.threads[t].Sending?) && Has(s.threads[t], cells);
      assert TaskWhole(s.threads[t], s.rooms, s.memory);
    }
  }

  /** Every finished job went to exactly the members its room had when the snapshot was taken, each once,
      however long ago; and every enqueued job is queued, with one worker, or finished, once. */
  lemma JobsReachTheirMembers(redis: bool, threads: nat, moves: seq<Move>)
    ensures var s := After(redis, threads, moves);
            && (forall k :: 0 <= k < |s.delivered| ==> Lists(s.delivered[k].sent, s.delivered[k].job.members))
            && s.enqueuedJobs == |s.jobs| + Sum(s.threads, Deliverer) + |s.delivered|
            && |s.jobs| <= JOB_BUFFER_SIZE
  {
    RunIsSound(redis, threads, moves);
    var s := After(redis, threads, moves);
    assert forall k :: 0 <= k < |s.delivered| ==> Delivered(s.delivered[k]);
  }

  lemma WentOnMovesOne(s: State, t: nat, client: ClientId, made: Cells, capacity: nat, u: nat)
    requires t < |s.threads| && u < |s.threads| && u != t
    ensures u < |WentOn(s, t, client, made, capacity).threads|
    ensures WentOn(s, t, client, made, capacity).threads[u] == s.threads[u]
  {
  }

  // A goroutine moves by its own moves only; these do not make a snapshot.
  lemma OnlyGoingOnHolds(s: State, move: Move, t: nat)
    requires t < |s.threads| && !(move.GoOn? && move.thread == t)
    ensures t < |Next(s, move).threads|
    ensures Next(s, move).threads[t].Holding? ==> Next(s, move).threads[t] == s.threads[t]
  {
    if move.GoOn? && move.thread < |s.threads| {
      WentOnMovesOne(s, move.thread, move.client, move.made, move.capacity, t);
    }
  }

  lemma WentOnToHolding(s: State, t: nat, client: ClientId, made: Cells, capacity: nat)
    requires t < |s.threads| && !s.threads[t].Holding?
    requires WentOn(s, t, client, made, capacity).threads[t].Holding?
    ensures s.threads[t].Filling? && s.threads[t].todo == {}
    ensures var Filling(room, slice, listed, _) := s.threads[t];
            WentOn(s, t, client, made, capacity).threads[t]
            == Holding(Job(BroadcastJob(room, slice), Members(s.rooms, room), listed))
  {
    match s.threads[t]
    case Filling(_, _, _, todo) =>
    case Sending(_, _) =>
    case _ =>
  }

  lemma HoldingWasFilling(s: State, move: Move, t: nat)
    requires t < |s.threads| && !s.threads[t].Holding?
    requires t < |Next(s, move).threads| && Next(s, move).threads[t].Holding?
    ensures s.threads[t].Filling? && s.threads[t].todo == {}
    ensures var Filling(room, slice, listed, _) := s.threads[t];
            Next(s, move).threads[t].job == Job(BroadcastJob(room, slice), Members(s.rooms, room), listed)
  {
    if !(move.GoOn? && move.thread == t) {
      OnlyGoingOnHolds(s, move, t);
    } else {
      WentOnToHolding(s, t, move.client, move.made, move.capacity);
    }
  }

  /** A job that is put together lists the members that its room has at that very moment. */
  lemma SnapshotsAreCurrent(redis: bool, threads: nat, moves: seq<Move>, move: Move, t: nat)
    requires t < |After(redis, threads, moves).threads| && !After(redis, threads, moves).threads[t].Holding?
    requires t < |Next(After(redis, threads, moves), move).threads|
    requires Next(After(redis, threads, moves), move).threads[t].Holding?
    ensures var s := After(redis, threads, moves);
            var job := Next(s, move).threads[t].job;
            && job.job.room in s.rooms && job.members == s.rooms[job.job.room]
            && Lists(job.listed, s.rooms[job.job.room])
  {
    var s := After(redis, threads, moves);
    RunIsSound(redis, threads, moves);
    HoldingWasFilling(s, move, t);
    var Filling(room, slice, listed, todo) := s.threads[t];
    assert TaskWhole(s.threads[t], s.rooms, s.memory);
    assert s.rooms[room] - todo == s.rooms[room];
  }

  /** No goroutine gets stuck with an array: while the allocator has arrays to give, each can go on, and the
      worker's loop never meets a nil client. */
  lemma CanGoOn(redis: bool, threads: nat, moves: seq<Move>, t: nat, made: Cells) returns (move: Move)
    requires t < |After(redis, threads, moves).threads| && After(redis, threads, moves).threads[t] != Idle
    requires made !in After(redis, threads, moves).memory
    ensures Next(After(redis, threads, moves), move).threads != After(redis, threads, moves).threads
  {
    var s := After(redis, threads, moves);
    RunIsSound(redis, threads, moves);
    assert TaskWhole(s.threads[t], s.rooms, s.memory);
    if s.threads[t].Filling? && s.threads[t].todo != {} {
      var client :| client in s.threads[t].todo;
      move := GoOn(t, client, made, s.threads[t].slice.len + 1);
    } else {
      move := GoOn(t, 0, made, 1);
    }
    assert Next(s, move).threads[t] != s.threads[t];
  }
}
