/** ProcessDue (v11/insight/internal/app/processor.go): the calling goroutine feeds the claimed windows to
    workers through one channel and collects their results from another. A run is any sequence of moves of
    any of them; a goroutine that would block makes no move. */
module InsightPool {
  import opened Wrappers
  import opened InsightProcessor

  const DEFAULT_JOB_CAPACITY := 128

  datatype Config = Config(workers: int, jobCapacity: int)

  // Which of the four dependencies are there.
  datatype Dependencies = Dependencies(store: bool, primary: bool, fallback: bool, repository: bool)

  // NewProcessor: what it refuses, and the default it puts in.
  function Configured(d: Dependencies, config: Config): (result: Option<Config>)
    ensures result.Some? <==> d == Dependencies(true, true, true, true) && config.workers > 0 && config.jobCapacity >= 0
    ensures result.Some? ==> result.value.workers == config.workers > 0 && result.value.jobCapacity > 0
    ensures result.Some? && config.jobCapacity > 0 ==> result.value == config
    ensures result.Some? && config.jobCapacity == 0 ==> result.value.jobCapacity == 128
  {
    if !d.store || !d.primary || !d.fallback || !d.repository then None
    else if config.workers <= 0 || config.jobCapacity < 0 then None
    else if config.jobCapacity == 0 then Some(config.(jobCapacity := DEFAULT_JOB_CAPACITY))
    else Some(config)
  }

  datatype Worker =
    | Idle
    | Working(ref: Ref)
    | Sending(result: Result)
    | Done

  datatype Summary = Summary(completed: nat, degraded: nat, failed: nat, error: bool)

  const NOTHING := Summary(0, 0, 0, false)

  // The calling goroutine: it feeds the workers, closes the channel, waits for them, and returns.
  datatype Caller = Feeding | Waiting | Returned(summary: Summary)

  // `ended` holds, for each window processed so far, how it ended.
  datatype Ending = Ending(ref: Ref, answers: Answers)

  datatype State = State(
    caller: Caller, pending: seq<Ref>, jobs: seq<Ref>, workers: seq<Worker>, results: seq<Result>,
    ended: seq<Ending>)

  datatype Move = CallerGoesOn | WorkerGoesOn(worker: nat, answers: Answers)

  function Tallied(summary: Summary, result: Result): Summary {
    var t := match result.outcome
      case Completed => summary.(completed := summary.completed + 1)
      case Degrades => summary.(degraded := summary.degraded + 1)
      case Failed => summary.(failed := summary.failed + 1);
    t.(error := t.error || result.error)
  }

  function Total(results: seq<Result>): Summary {
    if results == [] then NOTHING else Tallied(Total(results[..|results| - 1]), results[|results| - 1])
  }

  // The last loop of ProcessDue.
  method Collect(results: seq<Result>) returns (summary: Summary)
    ensures summary == Total(results)
  {
    summary := NOTHING;
    for i := 0 to |results|
      invariant summary == Total(results[..i])
    {
      assert results[..i + 1][..i] == results[..i];
      summary := Tallied(summary, results[i]);
    }
    assert results[..|results|] == results;
  }

  function Start(config: Config, refs: seq<Ref>): State
    requires config.workers > 0
  {
    State(Feeding, refs, [], seq(config.workers, _ => Idle), [], [])
  }

  predicate AllDone(workers: seq<Worker>) {
    forall i :: 0 <= i < |workers| ==> workers[i] == Done
  }

  // `claimed` is how many windows were claimed, which is the capacity of the results channel.
  function Next(config: Config, claimed: nat, s: State, move: Move): State {
    match move
    case CallerGoesOn =>
      (match s.caller
       case Feeding => if s.pending == [] then s.(caller := Waiting) else Fed(config, s)
       case Waiting => if AllDone(s.workers) then s.(caller := Returned(Total(s.results))) else s
       case Returned(_) => s)
    case WorkerGoesOn(w, answers) =>
      if w >= |s.workers| then s
      else
        match s.workers[w]
        case Idle => if s.jobs != [] then Taken(s, w) else Stopped(s, w)
        case Working(ref) => Finished(s, w, Ending(ref, answers))
        case Sending(result) => if |s.results| < claimed then Delivered(s, w, result) else s
        case Done => s
  }

  function Fed(config: Config, s: State): State
    requires s.pending != []
  {
    if |s.jobs| < config.jobCapacity then s.(pending := s.pending[1..], jobs := s.jobs + [s.pending[0]]) else s
  }

  function Taken(s: State, w: nat): State
    requires w < |s.workers| && s.jobs != []
  {
    s.(jobs := s.jobs[1..], workers := s.workers[w := Working(s.jobs[0])])
  }

  function Stopped(s: State, w: nat): State
    requires w < |s.workers|
  {
    if s.caller != Feeding then s.(workers := s.workers[w := Done]) else s
  }

  function Finished(s: State, w: nat, ending: Ending): State
    requires w < |s.workers|
  {
    s.(workers := s.workers[w := Sending(Processed(ending.ref, ending.answers))], ended := s.ended + [ending])
  }

  function Delivered(s: State, w: nat, result: Result): State
    requires w < |s.workers|
  {
    s.(workers := s.workers[w := Idle], results := s.results + [result])
  }

  function Run(config: Config, refs: seq<Ref>, moves: seq<Move>): State
    requires config.workers > 0
  {
    if moves == [] then Start(config, refs)
    else Next(config, |refs|, Run(config, refs, moves[..|moves| - 1]), moves[|moves| - 1])
  }

  // The windows that workers have been through, with what they were answered, going by the moves.
  function Answered(config: Config, refs: seq<Ref>, moves: seq<Move>): seq<Ending>
    requires config.workers > 0
  {
    if moves == [] then []
    else
      var before, last := moves[..|moves| - 1], moves[|moves| - 1];
      var workers := Run(config, refs, before).workers;
      Answered(config, refs, before)
      + (if last.WorkerGoesOn? && last.worker < |workers| && workers[last.worker].Working?
         then [Ending(workers[last.worker].ref, last.answers)] else [])
  }

  lemma {:induction false} EndedIsAnswered(config: Config, refs: seq<Ref>, moves: seq<Move>)
    requires config.workers > 0
    ensures Run(config, refs, moves).ended == Answered(config, refs, moves)
  {
    if moves != [] {
      EndedIsAnswered(config, refs, moves[..|moves| - 1]);
    }
  }

  // -------- counting --------

  // What of a worker is counted.
  datatype Tally = Holds(ref: Ref) | Busy | Delivers | Ends(result: Result) | Effort

  function One(worker: Worker, tally: Tally): nat {
    match tally
    case Holds(ref) => if worker == Working(ref) then 1 else 0
    case Busy => if worker.Working? then 1 else 0
    case Delivers => if worker.Sending? then 1 else 0
    case Ends(result) => if worker == Sending(result) then 1 else 0
    case Effort => (match worker case Idle => 1 case Working(_) => 3 case Sending(_) => 2 case Done => 0)
  }

  function Sum(workers: seq<Worker>, tally: Tally): nat {
    if workers == [] then 0 else One(workers[0], tally) + Sum(workers[1..], tally)
  }

  lemma {:induction false} SumUpdate(workers: seq<Worker>, w: nat, worker: Worker, tally: Tally)
    requires w < |workers|
    ensures Sum(workers[w := worker], tally) + One(workers[w], tally) == Sum(workers, tally) + One(worker, tally)
  {
    if w > 0 {
      SumUpdate(workers[1..], w - 1, worker, tally);
      assert workers[w := worker][1..] == workers[1..][w - 1 := worker];
    } else {
      assert workers[w := worker][1..] == workers[1..];
    }
  }

  lemma {:induction false} SumOfNone(workers: seq<Worker>, tally: Tally)
    requires forall w :: 0 <= w < |workers| ==> One(workers[w], tally) == 0
    ensures Sum(workers, tally) == 0
  {
    if workers != [] {
      SumOfNone(workers[1..], tally);
    }
  }

  lemma {:induction false} SumHasOne(workers: seq<Worker>, w: nat, tally: Tally)
    requires w < |workers|
    ensures Sum(workers, tally) >= One(workers[w], tally)
  {
    if w > 0 {
      SumHasOne(workers[1..], w - 1, tally);
    }
  }

  function EndingsOf(ended: seq<Ending>, ref: Ref): nat {
    if ended == [] then 0
    else EndingsOf(ended[..|ended| - 1], ref) + (if ended[|ended| - 1].ref == ref then 1 else 0)
  }

  function Results(ended: seq<Ending>): (results: seq<Result>)
    ensures |results| == |ended|
  {
    if ended == [] then []
    else Results(ended[..|ended| - 1]) + [Processed(ended[|ended| - 1].ref, ended[|ended| - 1].answers)]
  }

  lemma OneMore(ended: seq<Ending>, ending: Ending)
    ensures Results(ended + [ending]) == Results(ended) + [Processed(ending.ref, ending.answers)]
    ensures forall ref :: EndingsOf(ended + [ending], ref)
                          == EndingsOf(ended, ref) + (if ending.ref == ref then 1 else 0)
  {
    assert (ended + [ending])[..|ended|] == ended;
  }

  // -------- what every move keeps --------

  // Every claimed window is in one place.
  predicate Placed(refs: seq<Ref>, s: State, ref: Ref) {
    multiset(refs)[ref]
    == multiset(s.pending)[ref] + multiset(s.jobs)[ref] + Sum(s.workers, Holds(ref)) + EndingsOf(s.ended, ref)
  }

  // Every result is with its worker or in the channel.
  predicate Reported(s: State, result: Result) {
    multiset(Results(s.ended))[result] == multiset(s.results)[result] + Sum(s.workers, Ends(result))
  }

  predicate Sized(config: Config, claimed: nat, s: State) {
    && |s.workers| == config.workers && |s.jobs| <= config.jobCapacity
    && claimed == |s.pending| + |s.jobs| + Sum(s.workers, Busy) + |s.ended|
    && |s.ended| == |s.results| + Sum(s.workers, Delivers)
  }

  predicate Ordered(s: State) {
    && (s.caller != Feeding ==> s.pending == [])
    && (s.caller == Feeding ==> forall w :: 0 <= w < |s.workers| ==> s.workers[w] != Done)
    && ((exists w :: 0 <= w < |s.workers| && s.workers[w] == Done) ==> s.jobs == [])
    && (s.caller.Returned? ==> AllDone(s.workers) && s.caller.summary == Total(s.results))
  }

  lemma HeadCounts<T>(items: seq<T>, x: T)
    requires items != []
    ensures multiset(items)[x] == multiset(items[1..])[x] + (if items[0] == x then 1 else 0)
  {
    assert items == [items[0]] + items[1..];
  }

  lemma LastCounts<T>(items: seq<T>, item: T, x: T)
    ensures multiset(items + [item])[x] == multiset(items)[x] + (if item == x then 1 else 0)
  {
  }

  lemma FedCounts(pending: seq<Ref>, jobs: seq<Ref>, ref: Ref)
    requires pending != []
    ensures multiset(pending[1..])[ref] + multiset(jobs + [pending[0]])[ref]
            == multiset(pending)[ref] + multiset(jobs)[ref]
  {
    HeadCounts(pending, ref);
    LastCounts(jobs, pending[0], ref);
  }

  // What the caller does concerns the first two places only.
  lemma CallerMoves(config: Config, claimed: nat, s: State)
    ensures var next := Next(config, claimed, s, CallerGoesOn);
            && next.workers == s.workers && next.results == s.results && next.ended == s.ended
            && (|| (next.pending == s.pending && next.jobs == s.jobs)
                || (s.pending != [] && next.pending == s.pending[1..] && next.jobs == s.jobs + [s.pending[0]]))
  {
  }

  lemma CallerIsPlaced(config: Config, refs: seq<Ref>, s: State, ref: Ref, result: Result)
    requires Placed(refs, s, ref) && Reported(s, result)
    ensures var next := Next(config, |refs|, s, CallerGoesOn); Placed(refs, next, ref) && Reported(next, result)
  {
    CallerMoves(config, |refs|, s);
    if s.pending != [] {
      FedCounts(s.pending, s.jobs, ref);
    }
  }

  lemma TakenIsPlaced(refs: seq<Ref>, s: State, w: nat, ref: Ref, result: Result)
    requires w < |s.workers| && s.workers[w] == Idle && s.jobs != []
    requires Placed(refs, s, ref) && Reported(s, result)
    ensures Placed(refs, Taken(s, w), ref) && Reported(Taken(s, w), result)
  {
    SumUpdate(s.workers, w, Working(s.jobs[0]), Holds(ref));
    SumUpdate(s.workers, w, Working(s.jobs[0]), Ends(result));
    HeadCounts(s.jobs, ref);
  }

  lemma FinishedIsPlaced(refs: seq<Ref>, s: State, w: nat, ending: Ending, ref: Ref)
    requires w < |s.workers| && s.workers[w] == Working(ending.ref) && Placed(refs, s, ref)
    ensures Placed(refs, Finished(s, w, ending), ref)
  {
    OneMore(s.ended, ending);
    SumUpdate(s.workers, w, Sending(Processed(ending.ref, ending.answers)), Holds(ref));
  }

  lemma FinishedIsReported(s: State, w: nat, ending: Ending, result: Result)
    requires w < |s.workers| && s.workers[w] == Working(ending.ref) && Reported(s, result)
    ensures Reported(Finished(s, w, ending), result)
  {
    var mine := Processed(ending.ref, ending.answers);
    OneMore(s.ended, ending);
    LastCounts(Results(s.ended), mine, result);
    SumUpdate(s.workers, w, Sending(mine), Ends(result));
  }

  lemma DeliveredIsPlaced(refs: seq<Ref>, s: State, w: nat, mine: Result, ref: Ref, result: Result)
    requires w < |s.workers| && s.workers[w] == Sending(mine)
    requires Placed(refs, s, ref) && Reported(s, result)
    ensures Placed(refs, Delivered(s, w, mine), ref) && Reported(Delivered(s, w, mine), result)
  {
    SumUpdate(s.workers, w, Idle, Holds(ref));
    SumUpdate(s.workers, w, Idle, Ends(result));
    LastCounts(s.results, mine, result);
  }

  lemma StoppedIsPlaced(refs: seq<Ref>, s: State, w: nat, ref: Ref, result: Result)
    requires w < |s.workers| && s.workers[w] == Idle
    requires Placed(refs, s, ref) && Reported(s, result)
    ensures Placed(refs, Stopped(s, w), ref) && Reported(Stopped(s, w), result)
  {
    SumUpdate(s.workers, w, Done, Holds(ref));
    SumUpdate(s.workers, w, Done, Ends(result));
  }

  lemma NextIsPlaced(config: Config, refs: seq<Ref>, s: State, move: Move, ref: Ref, result: Result)
    requires Placed(refs, s, ref) && Reported(s, result)
    ensures Placed(refs, Next(config, |refs|, s, move), ref) && Reported(Next(config, |refs|, s, move), result)
  {
    match move
    case CallerGoesOn => CallerIsPlaced(config, refs, s, ref, result);
    case WorkerGoesOn(w, answers) =>
      if w < |s.workers| {
        WorkerIsPlaced(config, refs, s, w, answers, ref, result);
      }
  }

  lemma WorkerIsPlaced(config: Config, refs: seq<Ref>, s: State, w: nat, answers: Answers, ref: Ref, result: Result)
    requires w < |s.workers| && Placed(refs, s, ref) && Reported(s, result)
    ensures var next := Next(config, |refs|, s, WorkerGoesOn(w, answers));
            Placed(refs, next, ref) && Reported(next, result)
  {
    var next := Next(config, |refs|, s, WorkerGoesOn(w, answers));
    match s.workers[w]
    case Idle =>
      if s.jobs != [] {
        assert next == Taken(s, w);
        TakenIsPlaced(refs, s, w, ref, result);
      } else {
        assert next == Stopped(s, w);
        StoppedIsPlaced(refs, s, w, ref, result);
      }
    case Working(mine) =>
      assert next == Finished(s, w, Ending(mine, answers));
      FinishedIsPlaced(refs, s, w, Ending(mine, answers), ref);
      FinishedIsReported(s, w, Ending(mine, answers), result);
    case Sending(mine) =>
      assert next == s || next == Delivered(s, w, mine);
      DeliveredIsPlaced(refs, s, w, mine, ref, result);
    case Done =>
  }

  lemma NextIsSized(config: Config, claimed: nat, s: State, move: Move)
    requires Sized(config, claimed, s)
    ensures Sized(config, claimed, Next(config, claimed, s, move))
  {
    var next := Next(config, claimed, s, move);
    if move.WorkerGoesOn? && move.worker < |s.workers| {
      SumUpdate(s.workers, move.worker, next.workers[move.worker], Busy);
      SumUpdate(s.workers, move.worker, next.workers[move.worker], Delivers);
    }
  }

  lemma NextIsOrdered(config: Config, claimed: nat, s: State, move: Move)
    requires Ordered(s)
    ensures Ordered(Next(config, claimed, s, move))
  {
  }

  ghost predicate Lawful(config: Config, refs: seq<Ref>, s: State) {
    && Sized(config, |refs|, s) && Ordered(s)
    && (forall ref :: Placed(refs, s, ref)) && (forall result :: Reported(s, result))
  }

  lemma {:induction false} RunIsLawful(config: Config, refs: seq<Ref>, moves: seq<Move>)
    requires config.workers > 0 && config.jobCapacity > 0
    ensures Lawful(config, refs, Run(config, refs, moves))
  {
    if moves == [] {
      forall tally: Tally | !tally.Effort? {
        SumOfNone(Start(config, refs).workers, tally);
      }
    } else {
      var before := moves[..|moves| - 1];
      RunIsLawful(config, refs, before);
      var last := Run(config, refs, before);
      forall ref ensures Placed(refs, Run(config, refs, moves), ref) {
        NextIsPlaced(config, refs, last, moves[|moves| - 1], ref, Result(Failed, false));
      }
      forall result ensures Reported(Run(config, refs, moves), result) {
        NextIsPlaced(config, refs, last, moves[|moves| - 1], Ref("", 0, 0), result);
      }
      NextIsSized(config, |refs|, Run(config, refs, before), moves[|moves| - 1]);
      NextIsOrdered(config, |refs|, Run(config, refs, before), moves[|moves| - 1]);
    }
  }

  // -------- the results --------

  function Of(results: seq<Result>, outcome: Outcome): nat {
    multiset(results)[Result(outcome, false)] + multiset(results)[Result(outcome, true)]
  }

  lemma {:induction false} TotalCounts(results: seq<Result>)
    ensures var t := Total(results);
            && t.completed == Of(results, Completed) && t.degraded == Of(results, Degrades)
                && t.failed == Of(results, Failed)
            && t.completed + t.degraded + t.failed == |results|
  {
    if results != [] {
      var before, last := results[..|results| - 1], results[|results| - 1];
      TotalCounts(before);
      assert results == before + [last];
      forall r { LastCounts(before, last, r); }
    }
  }

  lemma {:induction false} TotalReports(results: seq<Result>)
    ensures Total(results).error <==> exists i :: 0 <= i < |results| && results[i].error
  {
    if results != [] {
      var before, last := results[..|results| - 1], results[|results| - 1];
      TotalReports(before);
      assert Total(results).error == (Total(before).error || last.error);
      if i :| 0 <= i < |before| && before[i].error {
        assert results[i].error;
      }
    }
  }

  // All calls of the workers, up to how those on different windows interleave.
  function AllCalls(ended: seq<Ending>): seq<Call> {
    if ended == [] then []
    else AllCalls(ended[..|ended| - 1]) + Calls(ended[|ended| - 1].ref, ended[|ended| - 1].answers)
  }

  function CountEnds(calls: seq<Call>, ref: Ref): nat {
    if calls == [] then 0
    else CountEnds(calls[..|calls| - 1], ref) + (if InsightProcessor.Ends(calls[|calls| - 1], ref) then 1 else 0)
  }

  lemma {:induction false} CountEndsJoins(calls: seq<Call>, more: seq<Call>, ref: Ref)
    ensures CountEnds(calls + more, ref) == CountEnds(calls, ref) + CountEnds(more, ref)
  {
    if more == [] {
      assert calls + more == calls;
    } else {
      CountEndsJoins(calls, more[..|more| - 1], ref);
      assert (calls + more)[..|calls + more| - 1] == calls + more[..|more| - 1];
    }
  }

  lemma {:induction false} NoneEnds(calls: seq<Call>, ref: Ref)
    requires forall i :: 0 <= i < |calls| ==> !InsightProcessor.Ends(calls[i], ref)
    ensures CountEnds(calls, ref) == 0
  {
    if calls != [] {
      NoneEnds(calls[..|calls| - 1], ref);
    }
  }

  lemma OneWindowEndsOnce(ref: Ref, answers: Answers, r: Ref)
    ensures CountEnds(Calls(ref, answers), r) == if r == ref then 1 else 0
  {
    var calls := Calls(ref, answers);
    EndsOnce(ref, answers);
    if r == ref {
      NoneEnds(calls[..|calls| - 1], r);
    } else {
      NoneEnds(calls, r);
    }
  }

  lemma {:induction false} CallsEndWindows(ended: seq<Ending>, ref: Ref)
    ensures CountEnds(AllCalls(ended), ref) == EndingsOf(ended, ref)
  {
    if ended != [] {
      var before, last := ended[..|ended| - 1], ended[|ended| - 1];
      CallsEndWindows(before, ref);
      CountEndsJoins(AllCalls(before), Calls(last.ref, last.answers), ref);
      OneWindowEndsOnce(last.ref, last.answers, ref);
    }
  }

  // Once every worker is done, all is accounted for.
  lemma DoneIsEnded(config: Config, refs: seq<Ref>, s: State)
    requires Lawful(config, refs, s) && s.caller.Returned? && config.workers > 0
    ensures forall ref :: EndingsOf(s.ended, ref) == multiset(refs)[ref]
    ensures multiset(Results(s.ended)) == multiset(s.results) && |s.results| == |refs|
  {
    forall tally: Tally {
      SumOfNone(s.workers, tally);
    }
    assert s.workers[0] == Done;
    forall ref ensures EndingsOf(s.ended, ref) == multiset(refs)[ref] {
      assert Placed(refs, s, ref);
    }
    forall result ensures multiset(Results(s.ended))[result] == multiset(s.results)[result] {
      assert Reported(s, result);
    }
  }

  /** When ProcessDue returns, every claimed window has been ended exactly once, by a successful Complete or
      by a Release, whatever the schedule and the answers were. */
  lemma EachWindowEndsOnce(config: Config, refs: seq<Ref>, moves: seq<Move>, ref: Ref)
    requires config.workers > 0 && config.jobCapacity > 0
    requires Run(config, refs, moves).caller.Returned?
    ensures CountEnds(AllCalls(Answered(config, refs, moves)), ref) == multiset(refs)[ref]
  {
    EndedIsAnswered(config, refs, moves);
    var s := Run(config, refs, moves);
    RunIsLawful(config, refs, moves);
    DoneIsEnded(config, refs, s);
    CallsEndWindows(s.ended, ref);
  }

  lemma OfIsOf(some: seq<Result>, others: seq<Result>)
    requires multiset(some) == multiset(others)
    ensures Total(some) == Total(others)
  {
    TotalCounts(some);
    TotalCounts(others);
    TotalReports(some);
    TotalReports(others);
    if i :| 0 <= i < |some| && some[i].error {
      assert some[i] in multiset(others);
    }
    if i :| 0 <= i < |others| && others[i].error {
      assert others[i] in multiset(some);
    }
  }

  /** The summary it returns counts how those windows ended, in whatever order the results arrived, and
      reports an error exactly if a Release failed. */
  lemma SummaryIsTheWholeTruth(config: Config, refs: seq<Ref>, moves: seq<Move>)
    requires config.workers > 0 && config.jobCapacity > 0
    requires Run(config, refs, moves).caller.Returned?
    ensures var s := Run(config, refs, moves);
            var ends := Results(Answered(config, refs, moves));
            var summary := s.caller.summary;
            && summary.completed == Of(ends, Completed)
            && summary.degraded == Of(ends, Degrades)
            && summary.failed == Of(ends, Failed)
            && summary.completed + summary.degraded + summary.failed == |refs|
            && (summary.error <==> exists i :: 0 <= i < |ends| && ends[i].error)
  {
    var s := Run(config, refs, moves);
    EndedIsAnswered(config, refs, moves);
    RunIsLawful(config, refs, moves);
    DoneIsEnded(config, refs, s);
    OfIsOf(s.results, Results(s.ended));
    TotalCounts(Results(s.ended));
    TotalReports(Results(s.ended));
  }

  // -------- it returns --------

  function Work(s: State): nat {
    6 * |s.pending| + 5 * |s.jobs| + Sum(s.workers, Effort)
    + (match s.caller case Feeding => 2 case Waiting => 1 case Returned(_) => 0)
  }

  // No deadlock: until ProcessDue has returned, some goroutine can go on, whatever is answered.
  lemma NeverStuck(config: Config, refs: seq<Ref>, s: State, answers: Answers) returns (move: Move)
    requires config.workers > 0 && config.jobCapacity > 0
    requires Lawful(config, refs, s) && !s.caller.Returned?
    ensures Next(config, |refs|, s, move) != s && (move.WorkerGoesOn? ==> move.answers == answers)
  {
    if w :| 0 <= w < |s.workers| && s.workers[w].Working? {
      move := WorkerGoesOn(w, answers);
      assert Next(config, |refs|, s, move).workers[w].Sending?;
    } else if w :| 0 <= w < |s.workers| && s.workers[w].Sending? {
      SumHasOne(s.workers, w, Delivers);
      move := WorkerGoesOn(w, answers);
      assert Next(config, |refs|, s, move).workers[w] == Idle;
    } else if w :| 0 <= w < |s.workers| && s.workers[w] == Idle && (s.jobs != [] || s.caller == Waiting) {
      move := WorkerGoesOn(w, answers);
      assert Next(config, |refs|, s, move).workers[w] != Idle;
    } else {
      assert s.workers[0] == Idle || s.workers[0] == Done;
      move := CallerGoesOn;
    }
  }

  lemma GoingOnIsWork(config: Config, claimed: nat, s: State, move: Move)
    requires Next(config, claimed, s, move) != s
    ensures Work(Next(config, claimed, s, move)) < Work(s)
  {
    if move.WorkerGoesOn? {
      SumUpdate(s.workers, move.worker, Next(config, claimed, s, move).workers[move.worker], Effort);
    }
  }

  // Every move gets something done.
  ghost predicate Effective(config: Config, refs: seq<Ref>, moves: seq<Move>)
    requires config.workers > 0
  {
    moves == [] ||
    var before := moves[..|moves| - 1];
    && Effective(config, refs, before)
    && Next(config, |refs|, Run(config, refs, before), moves[|moves| - 1]) != Run(config, refs, before)
  }

  lemma {:induction false} StartIsWork(workers: seq<Worker>)
    requires forall w :: 0 <= w < |workers| ==> workers[w] == Idle
    ensures Sum(workers, Effort) == |workers|
  {
    if workers != [] {
      StartIsWork(workers[1..]);
    }
  }

  /** ProcessDue always returns: no schedule has more than 6 moves for each window and one for each worker,
      and 2, and one that cannot be continued has made it return. */
  lemma {:induction false} EveryScheduleReturns(config: Config, refs: seq<Ref>, moves: seq<Move>)
    requires config.workers > 0 && config.jobCapacity > 0 && Effective(config, refs, moves)
    ensures |moves| + Work(Run(config, refs, moves)) <= 6 * |refs| + config.workers + 2
    ensures (forall move :: !Effective(config, refs, moves + [move])) ==> Run(config, refs, moves).caller.Returned?
  {
    var last := Run(config, refs, moves);
    if moves == [] {
      StartIsWork(last.workers);
    } else {
      var before := moves[..|moves| - 1];
      EveryScheduleReturns(config, refs, before);
      GoingOnIsWork(config, |refs|, Run(config, refs, before), moves[|moves| - 1]);
    }
    if !last.caller.Returned? {
      var move := CanGoOn(config, refs, moves);
      assert Effective(config, refs, moves + [move]);
    }
  }

  lemma CanGoOn(config: Config, refs: seq<Ref>, moves: seq<Move>) returns (move: Move)
    requires config.workers > 0 && config.jobCapacity > 0 && Effective(config, refs, moves)
    requires !Run(config, refs, moves).caller.Returned?
    ensures Effective(config, refs, moves + [move])
  {
    RunIsLawful(config, refs, moves);
    move := NeverStuck(config, refs, Run(config, refs, moves), Answers(None, None, None, false, false, false));
    assert (moves + [move])[..|moves|] == moves;
  }
}
