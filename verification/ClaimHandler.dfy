/** The consumer of v10/internal/consumer/handler.go as a program. `Session` is everything outside the
    handler: the record stream, the repository, the dead-letter publisher, the timers and the session
    context. Its replies come from a finite list of answers; when the list runs out the process is
    killed, so the runs of this program for all lists are all finite prefixes of all runs.

    Every call to the outside appends an event, and may be made only when ClaimProtocol allows that
    event: that `ConsumeClaim` verifies says that it never leaves the protocol. */
module ClaimHandler {
  import opened Wrappers
  import opened MessageStore
  import opened Records
  import opened ClaimProtocol

  datatype Choice = Message | Closed | Tick | Done

  // One reply of the environment. Each call reads the part that concerns it.
  datatype Answer = Answer(
    choice: Choice, committed: bool, report: Report, delivered: bool, acked: bool, cancelled: bool)

  datatype Selected = Received(offset: nat) | ClaimClosed | Ticked | ContextDone | Dead

  // One turn of the claim's loop: what was selected, and which offsets [lo, hi) were pending then.
  datatype Turn = Turn(what: Selected, lo: nat, hi: nat)

  // The contexts that a flush can run under: the session's, or one with a time-out for the last flush.
  datatype Context = OfSession | OfLastFlush

  datatype Cause = Exhausted | Cancelled | RecoveryInterrupted | DeadLetterFailed | Killed
  datatype Outcome = Success | Failure(cause: Cause)

  datatype PendingMessage = PendingMessage(row: Danmaku, offset: nat)

  // The history `events` is one that ClaimProtocol allows, and leads to `o`.
  ghost predicate Legal(log: seq<Parsed>, batchSize: nat, start: nat, events: seq<Event>, o: Owner) {
    && Replay(log, batchSize, Fresh(start), events) == Some(o)
    && start <= o.lo <= o.hi <= |log|
    && o.hi - o.lo <= batchSize
    && o.marked == o.lo
    && (o.saved ==> o.lo < o.hi)
    && (o.published ==> o.lo == o.hi)
    && forall i :: o.lo <= i < o.hi ==> log[i].Valid?
  }

  lemma LegalStep(log: seq<Parsed>, batchSize: nat, start: nat, events: seq<Event>, o: Owner, ev: Event)
    requires Legal(log, batchSize, start, events, o) && Advance(log, batchSize, o, ev).Some?
    ensures Legal(log, batchSize, start, events + [ev], Advance(log, batchSize, o, ev).value)
    ensures Tally(events + [ev]) == Post(Tally(events), ev)
  {
    assert (events + [ev])[..|events|] == events;
  }

  lemma MarkRaises(log: seq<Parsed>, batchSize: nat, o: Owner, ev: Event, offset: nat)
    requires Advance(log, batchSize, o, ev).Some?
    requires ev == Mark(offset) || ev == Skip(offset) || ev == Bury(offset)
    ensures var o' := Advance(log, batchSize, o, ev).value;
            && o'.marked == Raise(o.marked, offset)
            && o'.hi <= (if ev.Mark? then o.hi else o.hi + 1)
  {
  }

  /** What a turn leaves pending if the claim goes on. A tick leaves nothing, and so does a record that is
      not valid; a valid record joins the pending ones and stays with them until they fill a batch. */
  predicate LeavesPending(log: seq<Parsed>, batchSize: nat, turn: Turn, lo: nat, hi: nat) {
    match turn.what
    case Received(offset) =>
      && offset == turn.hi < |log| && hi == offset + 1
      && lo == (if log[offset].Valid? && offset + 1 - turn.lo < batchSize then turn.lo else offset + 1)
    case Ticked => lo == hi == turn.hi
    case _ => false
  }

  // Every turn finds what the one before has left; the first finds nothing pending.
  predicate Paced(log: seq<Parsed>, batchSize: nat, start: nat, turns: seq<Turn>) {
    forall k: nat :: k < |turns| ==> FindsPending(log, batchSize, start, turns, k)
  }

  predicate FindsPending(log: seq<Parsed>, batchSize: nat, start: nat, turns: seq<Turn>, k: nat)
    requires k < |turns|
  {
    if k == 0 then turns[0].lo == turns[0].hi == start
    else LeavesPending(log, batchSize, turns[k - 1], turns[k].lo, turns[k].hi)
  }

  lemma OneTurnMore(log: seq<Parsed>, batchSize: nat, start: nat, turns: seq<Turn>, turn: Turn)
    requires Paced(log, batchSize, start, turns) && LeftPending(log, batchSize, start, turns, turn.lo, turn.hi)
    ensures Paced(log, batchSize, start, turns + [turn])
    ensures forall lo, hi :: LeftPending(log, batchSize, start, turns + [turn], lo, hi)
                             <==> LeavesPending(log, batchSize, turn, lo, hi)
  {
    forall k: nat | k < |turns| + 1 ensures FindsPending(log, batchSize, start, turns + [turn], k) {
      if k < |turns| {
        assert FindsPending(log, batchSize, start, turns, k);
      }
    }
  }

  // Whatever was pending at a tick has been marked.
  predicate TicksMarked(turns: seq<Turn>, marked: nat) {
    forall k :: 0 <= k < |turns| && turns[k].what.Ticked? ==> turns[k].hi <= marked
  }

  // The last turn has left [lo, hi) pending.
  predicate LeftPending(log: seq<Parsed>, batchSize: nat, start: nat, turns: seq<Turn>, lo: nat, hi: nat) {
    if turns == [] then lo == hi == start
    else LeavesPending(log, batchSize, turns[|turns| - 1], lo, hi)
  }

  // Once a turn has left only [lo, hi) pending, everything pending at an earlier tick lies before `lo`.
  lemma {:induction false} TicksFlush(log: seq<Parsed>, batchSize: nat, start: nat, turns: seq<Turn>, lo: nat, hi: nat)
    requires Paced(log, batchSize, start, turns) && LeftPending(log, batchSize, start, turns, lo, hi)
    ensures TicksMarked(turns, lo) && lo <= hi
    decreases |turns|
  {
    if turns != [] {
      var before, last := turns[..|turns| - 1], turns[|turns| - 1];
      assert FindsPending(log, batchSize, start, turns, |turns| - 1);
      forall k: nat | k < |before| ensures FindsPending(log, batchSize, start, before, k) {
        assert FindsPending(log, batchSize, start, turns, k);
      }
      TicksFlush(log, batchSize, start, before, last.lo, last.hi);
    }
  }

  class Session {
    const records: seq<Record>
    const log: seq<Parsed>
    const batchSize: nat
    const start: nat
    const answers: seq<Answer>
    var asked: nat
    var position: nat  // offset of the next record of claim.Messages()
    var marked: nat    // the offset MarkMessage has reached
    ghost var events: seq<Event>
    ghost var owner: Owner
    ghost var tally: Books
    ghost var recoveryWaits: seq<nat>
    ghost var turns: seq<Turn>
    var contextDone: bool      // the session's context stays done
    ghost var expired: nat     // how many timers have run out

    ghost predicate Valid()
      reads this
    {
      && asked <= |answers|
      && owner.hi <= position <= |log|
      && marked == owner.marked
      && Legal(log, batchSize, start, events, owner)
      && tally == Tally(events)
    }

    // Nothing is in the middle of being confirmed or buried.
    ghost predicate Quiet()
      reads this
    {
      !owner.saved && !owner.published
    }

    constructor (records: seq<Record>, batchSize: nat, start: nat, answers: seq<Answer>)
      requires start <= |records|
      ensures Valid() && Quiet() && owner == Fresh(start) && position == start && events == [] && recoveryWaits == []
      ensures tally == EMPTY_BOOKS && turns == [] && asked == expired == 0 && !contextDone
      ensures this.records == records && log == Classify(records)
              && this.batchSize == batchSize && this.start == start && this.answers == answers
    {
      this.records, this.batchSize, this.start, this.answers := records, batchSize, start, answers;
      this.log := Classify(records);
      asked, position, marked := 0, start, start;
      events, owner, tally, recoveryWaits := [], Fresh(start), EMPTY_BOOKS, [];
      turns, contextDone, expired := [], false, 0;
    }

    method Ask() returns (answer: Option<Answer>)
      requires Valid()
      modifies this`asked
      ensures Valid()
      ensures answer.None? <==> old(asked) == |answers|
      ensures answer.Some? ==> asked == old(asked) + 1 && answer.value == answers[old(asked)]
      ensures answer.None? ==> asked == old(asked)
    {
      if asked == |answers| {
        return None;
      }
      answer := Some(answers[asked]);
      asked := asked + 1;
    }

    ghost method Note(ev: Event)
      requires Valid() && Advance(log, batchSize, owner, ev).Some?
      requires ev.Receive? ==> owner.hi < position
      requires (ev.Skip? || ev.Bury?) ==> owner.hi < position
      modifies this`events, this`owner, this`tally
      ensures events == old(events) + [ev]
      ensures owner == Advance(log, batchSize, old(owner), ev).value
      ensures Legal(log, batchSize, start, events, owner)
      ensures tally == Post(old(tally), ev) == Tally(events)
    {
      LegalStep(log, batchSize, start, events, owner, ev);
      owner := Advance(log, batchSize, owner, ev).value;
      events := events + [ev];
      tally := Post(tally, ev);
    }

    // select: a record can be received only while the log has one; otherwise the ticker fires.
    method Select() returns (selected: Selected)
      requires Valid()
      modifies this`asked, this`position, this`turns, this`contextDone
      ensures Valid()
      ensures if selected.Dead? then asked == old(asked) == |answers| else asked == old(asked) + 1
      ensures selected.Dead? ==> turns == old(turns)
      ensures !selected.Dead? ==> turns == old(turns) + [Turn(selected, owner.lo, owner.hi)]
      ensures contextDone == (old(contextDone) || selected == ContextDone)
      ensures selected.Received? ==> selected.offset == old(position) < |log| && position == old(position) + 1
      ensures !selected.Received? ==> position == old(position)
    {
      var answer := Ask();
      match answer
      case None => selected := Dead;
      case Some(a) =>
        match a.choice {
          case Message =>
            if position < |log| {
              selected := Received(position);
              position := position + 1;
            } else {
              selected := Ticked;
            }
          case Closed => selected := ClaimClosed;
          case Tick => selected := Ticked;
          case Done =>
            contextDone := true;
            selected := ContextDone;
        }
        turns := turns + [Turn(selected, owner.lo, owner.hi)];
    }

    method Parse(offset: nat) returns (parsed: Parsed)
      requires offset < |log| && log == Classify(records)
      ensures parsed == log[offset]
    {
      parsed := ParseMessage(records[offset]);
    }

    // CreateIdempotent: an error tells nothing about whether the statement committed.
    method CreateIdempotent(batch: seq<Danmaku>) returns (reply: Option<Report>, ghost ev: Event)
      requires Valid() && Quiet() && owner.lo < owner.hi
      requires batch == Unique(Rows(log, owner.lo, owner.hi))
      modifies this`asked, this`events, this`owner, this`tally
      ensures Valid()
      ensures reply.None? ==> asked == old(asked) == |answers| && events == old(events)
      ensures reply.None? ==> owner == old(owner) && tally == old(tally)
      ensures reply.Some? ==>
                && asked == old(asked) + 1 && reply.value == answers[old(asked)].report
                && ev.Save? && ev.size == old(owner.hi - owner.lo) && ev.report == reply.value
                && ev.confirmed == Confirms(log, old(owner), reply.value)
                && events == old(events) + [ev]
                && owner == old(owner).(saved := ev.confirmed)
                && tally == Post(old(tally), ev)
    {
      var answer := Ask();
      if answer.None? {
        return None, Receive;
      }
      ev := Save(owner.hi - owner.lo, answer.value.committed || answer.value.report.RowsAffected?,
                 answer.value.report, Confirms(log, owner, answer.value.report));
      Note(ev);
      reply := Some(answer.value.report);
    }

    // MarkMessage, for one of the three reasons the handler has; `ev` is the reason.
    method MarkMessage(offset: nat, ghost ev: Event)
      requires Valid() && Advance(log, batchSize, owner, ev).Some?
      requires ev == Mark(offset) || ev == Skip(offset) || ev == Bury(offset)
      requires (ev.Skip? || ev.Bury?) ==> owner.hi < position
      modifies this`marked, this`events, this`owner, this`tally
      ensures Valid()
      ensures events == old(events) + [ev] && owner == Advance(log, batchSize, old(owner), ev).value
      ensures tally == Post(old(tally), ev)
    {
      MarkRaises(log, batchSize, owner, ev, offset);
      Note(ev);
      marked := Raise(marked, offset);
    }

    // The dead-letter topic may hold a record whose publication was reported as failed.
    method Publish(offset: nat) returns (reply: Option<bool>, ghost ev: Event)
      requires Valid() && Quiet() && offset == owner.lo == owner.hi < |log| && log[offset].Poison?
      modifies this`asked, this`events, this`owner, this`tally
      ensures Valid()
      ensures reply.None? ==> asked == old(asked) == |answers| && events == old(events)
      ensures reply.None? ==> owner == old(owner) && tally == old(tally)
      ensures reply.Some? ==>
                && asked == old(asked) + 1 && reply.value == answers[old(asked)].acked
                && ev.Publish? && ev.offset == offset && ev.acked == reply.value
                && events == old(events) + [ev]
                && owner == old(owner).(published := ev.acked)
                && tally == Post(old(tally), ev)
    {
      var answer := Ask();
      if answer.None? {
        return None, Receive;
      }
      ev := Event.Publish(offset, answer.value.delivered || answer.value.acked, answer.value.acked);
      Note(ev);
      reply := Some(answer.value.acked);
    }

    // Waits for a timer; the reply says whether the context was done first.
    method Wait(context: Context) returns (reply: Option<bool>)
      requires Valid()
      modifies this`asked, this`contextDone, this`expired
      ensures Valid()
      ensures if reply.Some? then asked == old(asked) + 1 else asked == old(asked) == |answers|
      ensures reply.Some? ==>
                reply.value == (answers[old(asked)].cancelled || (context == OfSession && old(contextDone)))
      ensures contextDone == (old(contextDone) || (context == OfSession && reply == Some(true)))
      ensures expired == old(expired) + (if reply == Some(false) then 1 else 0)
    {
      var answer := Ask();
      if answer.None? {
        return None;
      }
      reply := Some(answer.value.cancelled || (context == OfSession && contextDone));
      contextDone := contextDone || (context == OfSession && reply.value);
      expired := expired + (if reply.value then 0 else 1);
    }

    method WaitForRecovery(backoff: nat) returns (reply: Option<bool>)
      requires Valid()
      modifies this`asked, this`contextDone, this`expired, this`recoveryWaits
      ensures Valid()
      ensures if reply.Some? then asked == old(asked) + 1 else asked == old(asked) == |answers|
      ensures reply.Some? ==> reply.value == (answers[old(asked)].cancelled || old(contextDone))
      ensures contextDone == (old(contextDone) || reply == Some(true))
      ensures expired == old(expired) + (if reply == Some(false) then 1 else 0)
      ensures recoveryWaits == old(recoveryWaits) + [backoff]
    {
      recoveryWaits := recoveryWaits + [backoff];
      reply := Wait(OfSession);
    }
  }

  // `pending` is the segment [lo, hi) of the session's claim, in order.
  ghost predicate Holds(log: seq<Parsed>, o: Owner, pending: seq<PendingMessage>) {
    && o.lo <= o.hi <= |log|
    && |pending| == o.hi - o.lo
    && forall i :: 0 <= i < |pending| ==>
         pending[i].offset == o.lo + i && log[o.lo + i] == Valid(pending[i].row)
  }

  function RowsOf(pending: seq<PendingMessage>): seq<Danmaku> {
    seq(|pending|, i requires 0 <= i < |pending| => pending[i].row)
  }

  function Marks(lo: nat, hi: nat): seq<Event>
    requires lo <= hi
  {
    seq(hi - lo, i requires 0 <= i => Mark(lo + i))
  }

  // Inserts that the handler did not take as a confirmation.
  ghost predicate AllRefused(events: seq<Event>) {
    forall i :: 0 <= i < |events| ==> events[i].Save? && !events[i].confirmed
  }

  /** How a flush was tried: `refused` inserts in vain and `expired` timers between them. Every timer that ran out
      led to another insert, and the first insert needed none; after the last one the flush was over, unless the
      process was killed. */
  predicate Tried(outcome: Outcome, refused: nat, expired: int) {
    match outcome
    case Success => refused == expired
    case Failure(cause) =>
      if cause == Killed then expired <= refused <= expired + 1 else refused == expired + 1
  }

  // Each of the pauses came after `most` inserts in vain; only the last can have come sooner.
  predicate PausedAfter(outcome: Outcome, refused: nat, pauses: int, most: nat) {
    match outcome
    case Success => most * pauses <= refused < most * (pauses + 1)
    case Failure(cause) =>
      if cause == Killed then most * (pauses - 1) < refused < most * (pauses + 1)
      else most * (pauses - 1) < refused <= most * pauses
  }

  lemma NeverPaused(outcome: Outcome, refused: nat, most: nat)
    requires refused < most && (outcome.Success? || outcome.cause == Killed)
    ensures PausedAfter(outcome, refused, 0, most)
  {
  }

  // The inserts of `rounds` pauses and flushes in vain; only a flush in which the session ended made fewer.
  predicate InVain(refused: nat, rounds: nat, most: nat, done: bool) {
    if done then most * (rounds - 1) < refused <= most * rounds else refused == most * rounds
  }

  // A pause and a flush with `more` inserts in vain; was the session over before, and is it now?
  predicate OneRound(outcome: Outcome, more: nat, most: nat, was: bool, now: bool) {
    && (was ==> outcome.Failure? && more == 0 && outcome.cause in {RecoveryInterrupted, Killed})
    && match outcome
       case Success => more < most
       case Failure(Exhausted) => more == most && !now
       case Failure(Cancelled) => 0 < more < most && now
       case Failure(RecoveryInterrupted) => more == 0 && now
       case Failure(Killed) => more < most
       case Failure(DeadLetterFailed) => false
  }

  lemma OneRoundMore(outcome: Outcome, refused: nat, more: nat, rounds: nat, most: nat, was: bool, now: bool)
    requires most > 0 && InVain(refused, rounds, most, was) && OneRound(outcome, more, most, was, now)
    ensures outcome == Failure(Exhausted) || outcome == Failure(Cancelled) ==>
              InVain(refused + more, rounds + 1, most, now)
    ensures outcome != Failure(Exhausted) && outcome != Failure(Cancelled) ==>
              PausedAfter(outcome, refused + more, rounds, most)
  {
    assert most * (rounds + 1) == most * rounds + most;
    assert most * (rounds - 1) == most * rounds - most;
  }

  // The flush before the first pause counts as a round.
  lemma FirstRound(outcome: Outcome, first: nat, more: nat, pauses: int, most: nat)
    requires first == most || (0 < first < most && more == 0 && pauses == 1 && outcome.Failure?)
    requires PausedAfter(outcome, more, pauses - 1, most)
    ensures PausedAfter(outcome, first + more, pauses, most)
  {
    assert most * (pauses + 1) == most * pauses + most;
    assert most * (pauses - 1) == most * pauses - most;
    assert most * (pauses - 2) == most * (pauses - 1) - most;
  }

  lemma RefusedJoins(before: seq<Event>, refusals: seq<Event>, more: seq<Event>)
    requires AllRefused(refusals) && AllRefused(more)
    ensures AllRefused(refusals + more)
    ensures before + refusals + more == before + (refusals + more)
  {
  }

  lemma PendingRows(log: seq<Parsed>, o: Owner, pending: seq<PendingMessage>)
    requires Holds(log, o, pending)
    ensures RowsOf(pending) == Rows(log, o.lo, o.hi)
  {
    forall i | o.lo <= i < o.hi ensures log[i] == Valid(pending[i - o.lo].row) {
      assert pending[i - o.lo].offset == i;
    }
    RowsOfValid(log, o.lo, o.hi);
  }

  lemma UniqueOneMore(pending: seq<PendingMessage>, k: nat)
    requires k < |pending|
    ensures var rows, row := RowsOf(pending[..k]), pending[k].row;
            && Ids(RowsOf(pending[..k + 1])) == Ids(rows) + {row.messageId}
            && Unique(RowsOf(pending[..k + 1])) ==
                if row.messageId in Ids(rows) then Unique(rows) else Unique(rows) + [row]
  {
    var rows, longer := RowsOf(pending[..k]), RowsOf(pending[..k + 1]);
    assert longer == rows + [pending[k].row];
    assert longer[..|longer| - 1] == rows;
    IdsAppend(rows, [pending[k].row]);
    var alone := [pending[k].row];
    assert alone[0].messageId in Ids(alone);
  }

  // uniqueBatch: a loop over the pending messages with a set of the ids seen so far.
  method UniqueBatch(pending: seq<PendingMessage>, ghost log: seq<Parsed>, ghost o: Owner)
    returns (unique: seq<Danmaku>)
    requires Holds(log, o, pending)
    ensures unique == Unique(Rows(log, o.lo, o.hi)) && |unique| <= |pending|
  {
    unique := [];
    var seen: set<string> := {};
    for k := 0 to |pending|
      invariant seen == Ids(RowsOf(pending[..k]))
      invariant unique == Unique(RowsOf(pending[..k]))
    {
      UniqueOneMore(pending, k);
      if pending[k].row.messageId in seen {
        continue;
      }
      seen := seen + {pending[k].row.messageId};
      unique := unique + [pending[k].row];
    }
    assert pending[..|pending|] == pending;
    PendingRows(log, o, pending);
    UniqueFits(log, o);
  }

  // growBackoff: double, capped.
  function GrowBackoff(current: nat, maximum: nat): nat {
    if current >= maximum then maximum
    else
      var next := current * 2;
      if next > maximum then maximum else next
  }

  function Backoff(minimum: nat, maximum: nat, n: nat): nat {
    if n == 0 then minimum else GrowBackoff(Backoff(minimum, maximum, n - 1), maximum)
  }

  /** The n-th pause of a recovery is the minimum doubled n times, capped at the maximum. */
  lemma {:induction false} BackoffIsCappedExponential(minimum: nat, maximum: nat, n: nat)
    requires minimum <= maximum
    ensures Backoff(minimum, maximum, n) == Least(Doubled(minimum, n), maximum)
  {
    if n > 0 {
      BackoffIsCappedExponential(minimum, maximum, n - 1);
    }
  }

  function Doubled(minimum: nat, n: nat): nat {
    if n == 0 then minimum else 2 * Doubled(minimum, n - 1)
  }

  function Least(a: nat, b: nat): nat {
    if a < b then a else b
  }

  const DEFAULT_BATCH_SIZE: nat := 500
  const DEFAULT_MAX_RETRIES: nat := 3
  const DEFAULT_RECOVERY_MIN: nat := 1000
  const DEFAULT_RECOVERY_MAX: nat := 30000

  // Durations in milliseconds; values that are not positive ask for the default.
  datatype Config = Config(batchSize: int, maxRetries: int, recoveryMin: int, recoveryMax: int, hasDeadLetters: bool)

  class Handler {
    const batchSize: nat
    const maxRetries: nat
    const recoveryMin: nat
    const recoveryMax: nat
    const hasDeadLetters: bool

    var books: Books
    var deadLetterFailures: nat
    var pauseEvents: nat
    var recoveries: nat
    var pausedPartitions: int

    ghost predicate Configured() {
      0 < batchSize && 0 < maxRetries && 0 < recoveryMin <= recoveryMax
    }

    constructor (config: Config)
      ensures Configured()
      ensures config.batchSize > 0 ==> batchSize == config.batchSize
      ensures config.maxRetries > 0 ==> maxRetries == config.maxRetries
      ensures config.recoveryMin > 0 ==> recoveryMin == config.recoveryMin
      ensures config.batchSize <= 0 ==> batchSize == 500
      ensures config.maxRetries <= 0 ==> maxRetries == 3
      ensures config.recoveryMin <= 0 ==> recoveryMin == 1000
      ensures var wanted := if config.recoveryMax <= 0 then 30000 else config.recoveryMax;
              recoveryMax == wanted || (wanted < recoveryMin && recoveryMax == recoveryMin)
      ensures hasDeadLetters == config.hasDeadLetters
      ensures books == EMPTY_BOOKS && pausedPartitions == 0
    {
      batchSize := if config.batchSize <= 0 then DEFAULT_BATCH_SIZE else config.batchSize;
      maxRetries := if config.maxRetries <= 0 then DEFAULT_MAX_RETRIES else config.maxRetries;
      hasDeadLetters := config.hasDeadLetters;
      var least := if config.recoveryMin <= 0 then DEFAULT_RECOVERY_MIN else config.recoveryMin;
      var most := if config.recoveryMax <= 0 then DEFAULT_RECOVERY_MAX else config.recoveryMax;
      recoveryMin, recoveryMax := least, if most < least then least else most;
      books := EMPTY_BOOKS;
      deadLetterFailures, pauseEvents, recoveries := 0, 0, 0;
      pausedPartitions := 0;
    }

    // Why a flush without recovery has failed: the retries are used up, or the context was done during the
    // wait for the next one, or the process was killed.
    ghost predicate GaveUp(context: Context, s: Session, cause: Cause, refused: nat)
      reads s
    {
      match cause
      case Exhausted => refused == maxRetries
      case Cancelled =>
        && 0 < refused < maxRetries
        && if context == OfSession then s.contextDone
           else 0 < s.asked <= |s.answers| && s.answers[s.asked - 1].cancelled
      case Killed => refused < maxRetries && s.asked == |s.answers|
      case _ => false
    }

    /** flushPending: at most `maxRetries` inserts of the pending records; then, only after one that is
        confirmed, one mark per pending record, in order. A failure leaves every record pending. */
    method FlushPending(context: Context, s: Session, pending: seq<PendingMessage>)
      returns (outcome: Outcome, ghost refusals: seq<Event>, ghost save: Event)
      requires Configured() && s.Valid() && s.Quiet() && Holds(s.log, s.owner, pending)
      modifies this`books, s`asked, s`contextDone, s`expired, s`marked, s`events, s`owner, s`tally
      ensures s.Valid() && s.asked >= old(s.asked)
      ensures AllRefused(refusals) && |refusals| <= maxRetries
      ensures pending == [] ==>
                outcome.Success? && s.owner == old(s.owner) && s.events == old(s.events) && s.asked == old(s.asked)
      ensures outcome.Success? && pending != [] ==>
                && s.owner == old(s.owner).(lo := old(s.owner.hi), marked := old(s.owner.hi))
                && s.events == old(s.events) + refusals + [save] + Marks(old(s.owner.lo), old(s.owner.hi))
                && save.Save? && save.confirmed && |refusals| < maxRetries
      ensures outcome.Failure? ==> s.owner == old(s.owner) && s.events == old(s.events) + refusals
      ensures pending != [] ==> Tried(outcome, |refusals|, s.expired - old(s.expired))
      ensures outcome.Failure? ==> GaveUp(context, s, outcome.cause, |refusals|)
      ensures outcome != Failure(Cancelled) ==> s.contextDone == old(s.contextDone)
      ensures books.Minus(s.tally) == old(books.Minus(s.tally))
    {
      refusals, save := [], Receive;
      if |pending| == 0 {
        return Success, refusals, save;
      }
      var batch := UniqueBatch(pending, s.log, s.owner);
      outcome, refusals, save := SaveBatch(context, s, pending, batch);
    }

    // The attempts of flushPending on one batch.
    method SaveBatch(context: Context, s: Session, pending: seq<PendingMessage>, batch: seq<Danmaku>)
      returns (outcome: Outcome, ghost refusals: seq<Event>, ghost save: Event)
      requires Configured() && s.Valid() && s.Quiet() && Holds(s.log, s.owner, pending) && pending != []
      requires batch == Unique(Rows(s.log, s.owner.lo, s.owner.hi)) && |batch| <= |pending|
      modifies this`books, s`asked, s`contextDone, s`expired, s`marked, s`events, s`owner, s`tally
      ensures s.Valid() && s.asked >= old(s.asked)
      ensures AllRefused(refusals) && |refusals| <= maxRetries
      ensures outcome.Success? ==>
                && s.owner == old(s.owner).(lo := old(s.owner.hi), marked := old(s.owner.hi))
                && s.events == old(s.events) + refusals + [save] + Marks(old(s.owner.lo), old(s.owner.hi))
                && save.Save? && save.confirmed && |refusals| < maxRetries
      ensures outcome.Failure? ==> s.owner == old(s.owner) && s.events == old(s.events) + refusals
      ensures Tried(outcome, |refusals|, s.expired - old(s.expired))
      ensures outcome.Failure? ==> GaveUp(context, s, outcome.cause, |refusals|)
      ensures outcome != Failure(Cancelled) ==> s.contextDone == old(s.contextDone)
      ensures books.Minus(s.tally) == old(books.Minus(s.tally))
    {
      hide Replay, Tally;
      refusals, save := [], Receive;
      var attempt := 1;
      while attempt <= maxRetries
        invariant 1 <= attempt <= maxRetries
        invariant s.Valid() && s.owner == old(s.owner) && s.asked >= old(s.asked)
        invariant s.events == old(s.events) + refusals && AllRefused(refusals) && |refusals| == attempt - 1
        invariant s.tally == old(s.tally) && books == old(books)
        invariant s.expired == old(s.expired) + |refusals| && s.contextDone == old(s.contextDone)
        decreases maxRetries - attempt
      {
        var saved;
        saved, save := SaveOnce(s, pending, batch);
        if saved.None? {
          return Failure(Killed), refusals, save;
        }
        if saved.value {
          return Success, refusals, save;
        }
        RefusedJoins(old(s.events), refusals, [save]);
        refusals := refusals + [save];
        if attempt == maxRetries {
          break;
        }
        var cancelled := s.Wait(context);
        if cancelled.None? || cancelled.value {
          return Failure(if cancelled.None? then Killed else Cancelled), refusals, save;
        }
        attempt := attempt + 1;
      }
      return Failure(Exhausted), refusals, save;
    }

    // One attempt; None when the process is killed.
    method SaveOnce(s: Session, pending: seq<PendingMessage>, batch: seq<Danmaku>)
      returns (saved: Option<bool>, ghost ev: Event)
      requires s.Valid() && s.Quiet() && Holds(s.log, s.owner, pending) && pending != []
      requires batch == Unique(Rows(s.log, s.owner.lo, s.owner.hi)) && |batch| <= |pending|
      modifies this`books, s`asked, s`marked, s`events, s`owner, s`tally
      ensures s.Valid() && s.asked >= old(s.asked)
      ensures saved.None? ==> s.owner == old(s.owner) && s.events == old(s.events) && s.asked == |s.answers|
      ensures saved.Some? ==> ev.Save? && ev.confirmed == saved.value
      ensures saved.Some? ==> old(s.asked) < |s.answers| && ev.report == s.answers[old(s.asked)].report
      ensures saved == Some(false) ==> s.owner == old(s.owner) && s.events == old(s.events) + [ev]
      ensures saved == Some(true) ==>
                && s.owner == old(s.owner).(lo := old(s.owner.hi), marked := old(s.owner.hi))
                && s.events == old(s.events) + [ev] + Marks(old(s.owner.lo), old(s.owner.hi))
      ensures books.Minus(s.tally) == old(books.Minus(s.tally))
      ensures saved != Some(true) ==> s.tally == old(s.tally) && books == old(books)
    {
      var reply;
      reply, ev := s.CreateIdempotent(batch);
      if reply.None? {
        return None, ev;
      }
      var inserted := reply.value;
      saved := Some(inserted.RowsAffected? && 0 <= inserted.count <= |batch|);
      if saved.value {
        Settle(s, pending, inserted.count);
      }
    }

    // The part of flushPending after the commit: mark every pending record in order, then count.
    method Settle(s: Session, pending: seq<PendingMessage>, inserted: nat)
      requires s.Valid() && s.owner.saved && Holds(s.log, s.owner, pending) && inserted <= |pending|
      modifies this`books, s`marked, s`events, s`owner, s`tally
      ensures s.Valid()
      ensures s.owner == old(s.owner).(lo := old(s.owner.hi), marked := old(s.owner.hi), saved := false)
      ensures s.events == old(s.events) + Marks(old(s.owner.lo), old(s.owner.hi))
      ensures s.tally == old(s.tally)
      ensures books == Post(old(books), Save(|pending|, true, RowsAffected(inserted), true))
    {
      ghost var lo := s.owner.lo;
      for i := 0 to |pending|
        invariant s.Valid() && books == old(books)
        invariant s.owner == old(s.owner).(lo := lo + i, saved := i < |pending|, marked := lo + i)
        invariant s.events == old(s.events) + Marks(lo, lo + i)
        invariant s.tally == old(s.tally)
      {
        s.MarkMessage(pending[i].offset, Mark(pending[i].offset));
        assert Marks(lo, lo + i + 1) == Marks(lo, lo + i) + [Mark(lo + i)];
      }
      var duplicates := |pending| - inserted;
      books := books.(saved := books.saved + |pending|, inserted := books.inserted + inserted,
                      duplicates := books.duplicates + duplicates, batches := books.batches + 1);
    }

    // Why a flush with recovery has failed: the session is over, or the process was killed.
    ghost predicate Stopped(s: Session, cause: Cause)
      reads s
    {
      match cause
      case RecoveryInterrupted => s.contextDone
      case Killed => s.asked == |s.answers|
      case _ => false
    }

    /** flushWithRecovery: on failure pause this partition and try again until the database answers or
        the session ends. Nothing is marked before an insert is confirmed. */
    method FlushWithRecovery(s: Session, pending: seq<PendingMessage>)
      returns (outcome: Outcome, ghost refusals: seq<Event>, ghost save: Event)
      requires Configured() && s.Valid() && s.Quiet() && Holds(s.log, s.owner, pending)
      modifies this`books, this`pauseEvents, this`recoveries, this`pausedPartitions
      modifies s`asked, s`contextDone, s`expired, s`marked, s`events, s`owner, s`tally, s`recoveryWaits
      ensures s.Valid() && s.asked >= old(s.asked)
      ensures AllRefused(refusals)
      ensures pending == [] ==>
                outcome.Success? && s.owner == old(s.owner) && s.events == old(s.events) && s.asked == old(s.asked)
      ensures outcome.Success? && pending != [] ==>
                && s.owner == old(s.owner).(lo := old(s.owner.hi), marked := old(s.owner.hi))
                && s.events == old(s.events) + refusals + [save] + Marks(old(s.owner.lo), old(s.owner.hi))
                && save.Save? && save.confirmed
      ensures outcome.Failure? ==> s.owner == old(s.owner) && s.events == old(s.events) + refusals
      ensures outcome.Failure? ==> Stopped(s, outcome.cause)
      ensures pending != [] ==>
                && Tried(outcome, |refusals|, s.expired - old(s.expired))
                && PausedAfter(outcome, |refusals|, |s.recoveryWaits| - |old(s.recoveryWaits)|, maxRetries)
      ensures PausedLike(old(s.recoveryWaits), s.recoveryWaits, recoveryMin, recoveryMax)
      ensures pausedPartitions == old(pausedPartitions)
      ensures pauseEvents == old(pauseEvents) + (if s.recoveryWaits != old(s.recoveryWaits) then 1 else 0)
      ensures outcome.Success? ==> pauseEvents - old(pauseEvents) == recoveries - old(recoveries)
      ensures books.Minus(s.tally) == old(books.Minus(s.tally))
    {
      outcome, refusals, save := FlushPending(OfSession, s, pending);
      if outcome.Success? || outcome.cause == Killed {
        if pending != [] {
          NeverPaused(outcome, |refusals|, maxRetries);
        }
        return;
      }
      ghost var more;
      outcome, more, save := PauseAndRecover(s, pending);
      FirstRound(outcome, |refusals|, |more|, |s.recoveryWaits| - |old(s.recoveryWaits)|, maxRetries);
      RefusedJoins(old(s.events), refusals, more);
      refusals := refusals + more;
    }

    // The partition counts as paused until the recovery is over.
    method PauseAndRecover(s: Session, pending: seq<PendingMessage>)
      returns (outcome: Outcome, ghost refusals: seq<Event>, ghost save: Event)
      requires Configured() && s.Valid() && s.Quiet() && Holds(s.log, s.owner, pending) && pending != []
      modifies this`books, this`pauseEvents, this`recoveries, this`pausedPartitions
      modifies s`asked, s`contextDone, s`expired, s`marked, s`events, s`owner, s`tally, s`recoveryWaits
      ensures s.Valid() && s.asked >= old(s.asked)
      ensures AllRefused(refusals)
      ensures outcome.Success? ==>
                && s.owner == old(s.owner).(lo := old(s.owner.hi), marked := old(s.owner.hi))
                && s.events == old(s.events) + refusals + [save] + Marks(old(s.owner.lo), old(s.owner.hi))
                && save.Save? && save.confirmed
      ensures outcome.Failure? ==> s.owner == old(s.owner) && s.events == old(s.events) + refusals
      ensures outcome.Failure? ==> Stopped(s, outcome.cause)
      ensures Tried(outcome, |refusals|, s.expired - old(s.expired) - 1)
      ensures PausedAfter(outcome, |refusals|, |s.recoveryWaits| - |old(s.recoveryWaits)| - 1, maxRetries)
      ensures old(s.contextDone) ==>
                outcome.Failure? && refusals == [] && |s.recoveryWaits| == |old(s.recoveryWaits)| + 1
      ensures PausedLike(old(s.recoveryWaits), s.recoveryWaits, recoveryMin, recoveryMax)
      ensures s.recoveryWaits != old(s.recoveryWaits)
      ensures pausedPartitions == old(pausedPartitions) && pauseEvents == old(pauseEvents) + 1
      ensures recoveries == old(recoveries) + (if outcome.Success? then 1 else 0)
      ensures books.Minus(s.tally) == old(books.Minus(s.tally))
    {
      pauseEvents := pauseEvents + 1;
      pausedPartitions := pausedPartitions + 1;
      outcome, refusals, save := Recover(s, pending);
      pausedPartitions := pausedPartitions - 1;
    }

    // The loop of flushWithRecovery: wait, flush, double the wait. The pauses are `Backoff(0)`, `Backoff(1)`, ...
    method Recover(s: Session, pending: seq<PendingMessage>)
      returns (outcome: Outcome, ghost refusals: seq<Event>, ghost save: Event)
      requires Configured() && s.Valid() && s.Quiet() && Holds(s.log, s.owner, pending) && pending != []
      modifies this`books, this`recoveries
      modifies s`asked, s`contextDone, s`expired, s`marked, s`events, s`owner, s`tally, s`recoveryWaits
      ensures s.Valid() && s.asked >= old(s.asked)
      ensures AllRefused(refusals)
      ensures outcome.Success? ==>
                && s.owner == old(s.owner).(lo := old(s.owner.hi), marked := old(s.owner.hi))
                && s.events == old(s.events) + refusals + [save] + Marks(old(s.owner.lo), old(s.owner.hi))
                && save.Save? && save.confirmed
      ensures outcome.Failure? ==> s.owner == old(s.owner) && s.events == old(s.events) + refusals
      ensures outcome.Failure? ==> Stopped(s, outcome.cause)
      ensures Tried(outcome, |refusals|, s.expired - old(s.expired) - 1)
      ensures PausedAfter(outcome, |refusals|, |s.recoveryWaits| - |old(s.recoveryWaits)| - 1, maxRetries)
      ensures old(s.contextDone) ==>
                outcome.Failure? && refusals == [] && |s.recoveryWaits| == |old(s.recoveryWaits)| + 1
      ensures PausedLike(old(s.recoveryWaits), s.recoveryWaits, recoveryMin, recoveryMax)
      ensures s.recoveryWaits != old(s.recoveryWaits)
      ensures recoveries == old(recoveries) + (if outcome.Success? then 1 else 0)
      ensures books.Minus(s.tally) == old(books.Minus(s.tally))
    {
      hide Replay, Tally;
      var backoff := recoveryMin;
      refusals := [];
      ghost var rounds := 0;
      while true
        invariant s.Valid() && s.owner == old(s.owner) && s.asked >= old(s.asked)
        invariant s.events == old(s.events) + refusals && AllRefused(refusals)
        invariant backoff == Backoff(recoveryMin, recoveryMax, rounds)
        invariant |s.recoveryWaits| == |old(s.recoveryWaits)| + rounds
        invariant PausedLike(old(s.recoveryWaits), s.recoveryWaits, recoveryMin, recoveryMax)
        invariant recoveries == old(recoveries)
        invariant |refusals| == s.expired - old(s.expired)
        invariant InVain(|refusals|, rounds, maxRetries, s.contextDone)
        invariant old(s.contextDone) ==> rounds == 0 && s.contextDone
        invariant books.Minus(s.tally) == old(books.Minus(s.tally))
        decreases |s.answers| - s.asked
      {
        ghost var more, was := [], s.contextDone;
        outcome, more, save := WaitAndFlush(s, pending, backoff);
        OneRoundMore(outcome, |refusals|, |more|, rounds, maxRetries, was, s.contextDone);
        RefusedJoins(old(s.events), refusals, more);
        rounds := rounds + 1;
        refusals := refusals + more;
        if outcome.Success? {
          recoveries := recoveries + 1;
          return;
        }
        if outcome.cause == Killed || outcome.cause == RecoveryInterrupted {
          return;
        }
        backoff := GrowBackoff(backoff, recoveryMax);
      }
    }

    // One turn of that loop.
    method WaitAndFlush(s: Session, pending: seq<PendingMessage>, backoff: nat)
      returns (outcome: Outcome, ghost refusals: seq<Event>, ghost save: Event)
      requires Configured() && s.Valid() && s.Quiet() && Holds(s.log, s.owner, pending) && pending != []
      modifies this`books
      modifies s`asked, s`contextDone, s`expired, s`marked, s`events, s`owner, s`tally, s`recoveryWaits
      ensures s.Valid() && s.asked >= old(s.asked)
      ensures outcome == Failure(Killed) || s.asked > old(s.asked)
      ensures AllRefused(refusals)
      ensures outcome.Success? ==>
                && s.owner == old(s.owner).(lo := old(s.owner.hi), marked := old(s.owner.hi))
                && s.events == old(s.events) + refusals + [save] + Marks(old(s.owner.lo), old(s.owner.hi))
                && save.Save? && save.confirmed
      ensures outcome.Failure? ==> s.owner == old(s.owner) && s.events == old(s.events) + refusals
      ensures OneRound(outcome, |refusals|, maxRetries, old(s.contextDone), s.contextDone)
      ensures outcome == Failure(Killed) ==> s.asked == |s.answers|
      ensures outcome != Failure(Killed) ==>
                s.expired - old(s.expired) == |refusals| + (if outcome.Success? then 1 else 0)
      ensures outcome == Failure(Killed) ==> |refusals| <= s.expired - old(s.expired) <= |refusals| + 1
      ensures s.recoveryWaits == old(s.recoveryWaits) + [backoff]
      ensures books.Minus(s.tally) == old(books.Minus(s.tally))
    {
      var cancelled := s.WaitForRecovery(backoff);
      if cancelled.None? || cancelled.value {
        return Failure(if cancelled.None? then Killed else RecoveryInterrupted), [], Receive;
      }
      outcome, refusals, save := FlushPending(OfSession, s, pending);
    }

    // A poison record cannot be put away: there is no publisher, or it does not acknowledge this answer.
    ghost predicate NotBuried(s: Session, answer: nat) {
      !hasDeadLetters || (answer < |s.answers| && !s.answers[answer].acked)
    }

    // publishDeadLetter: without a publisher, or when publishing fails, the record stays unmarked.
    method PublishDeadLetter(s: Session, offset: nat) returns (outcome: Outcome)
      requires s.Valid() && s.Quiet() && offset == s.owner.lo == s.owner.hi < s.position && s.log[offset].Poison?
      modifies this`books, this`deadLetterFailures, s`asked, s`events, s`owner, s`tally
      ensures s.Valid() && s.asked >= old(s.asked)
      ensures s.owner == old(s.owner).(published := outcome.Success?)
      ensures outcome == Failure(DeadLetterFailed) <==> NotBuried(s, old(s.asked))
      ensures outcome == Failure(Killed) <==> hasDeadLetters && old(s.asked) == |s.answers|
      ensures outcome.Failure? ==> outcome.cause in {DeadLetterFailed, Killed}
      ensures s.asked == old(s.asked) + (if hasDeadLetters && old(s.asked) < |s.answers| then 1 else 0)
      ensures deadLetterFailures == old(deadLetterFailures) + (if outcome == Failure(DeadLetterFailed) then 1 else 0)
      ensures books.Minus(s.tally) == old(books.Minus(s.tally))
    {
      if !hasDeadLetters {
        deadLetterFailures := deadLetterFailures + 1;
        return Failure(DeadLetterFailed);
      }
      var reply, ev := s.Publish(offset);
      if reply.None? {
        return Failure(Killed);
      }
      if !reply.value {
        deadLetterFailures := deadLetterFailures + 1;
        return Failure(DeadLetterFailed);
      }
      books := books.(deadLetters := books.deadLetters + 1);
      return Success;
    }

    // The claim ends at a poison record that could not be put away.
    ghost predicate FailedToBury(s: Session, cause: Cause, offset: nat)
      reads s
    {
      && cause == DeadLetterFailed && offset < |s.log| && s.log[offset].Poison?
      && (hasDeadLetters ==> 0 < s.asked && NotBuried(s, s.asked - 1))
    }

    // One record from the stream: before an invalid record is dealt with, the pending ones are flushed.
    method HandleRecord(s: Session, pending: seq<PendingMessage>, offset: nat)
      returns (outcome: Outcome, left: seq<PendingMessage>)
      requires Configured() && batchSize == s.batchSize && s.log == Classify(s.records)
      requires s.Valid() && s.Quiet() && Holds(s.log, s.owner, pending) && |pending| < batchSize
      requires offset == s.owner.hi < s.position == offset + 1
      modifies this, s`asked, s`contextDone, s`expired, s`marked, s`events, s`owner, s`tally, s`recoveryWaits
      ensures s.Valid() && s.asked >= old(s.asked)
      ensures outcome.Success? ==>
                && s.Quiet() && Holds(s.log, s.owner, left) && |left| < batchSize
                && LeavesPending(s.log, batchSize, Turn(Received(offset), old(s.owner.lo), offset),
                                 s.owner.lo, s.owner.hi)
      ensures s.log[offset].Valid? && |pending| + 1 < batchSize ==>
                outcome.Success? && s.asked == old(s.asked) && s.events == old(s.events) + [Receive]
      ensures outcome.Failure? ==> Stopped(s, outcome.cause) || FailedToBury(s, outcome.cause, offset)
      ensures offset <= s.owner.hi <= offset + 1
      ensures s.marked >= old(s.marked)
      ensures books.Minus(s.tally) == old(books.Minus(s.tally))
    {
      left := pending;
      var parsed := s.Parse(offset);
      if !parsed.Valid? && |left| > 0 {
        ghost var refusals, save;
        outcome, refusals, save := FlushWithRecovery(s, left);
        if outcome.Failure? {
          return;
        }
        left := [];
      }
      match parsed
      case Unsupported => outcome := PassOver(s, offset);
      case Poison(_) => outcome := PassOver(s, offset);
      case Valid(row) => outcome, left := Append(s, left, PendingMessage(row, offset));
    }

    // An unsupported packet is marked; a poison record is marked once it is in the dead-letter topic.
    method PassOver(s: Session, offset: nat) returns (outcome: Outcome)
      requires s.Valid() && s.Quiet() && offset == s.owner.lo == s.owner.hi < s.position && !s.log[offset].Valid?
      modifies this`books, this`deadLetterFailures, s`asked, s`marked, s`events, s`owner, s`tally
      ensures s.Valid() && s.asked >= old(s.asked)
      ensures outcome.Success? ==> s.Quiet() && s.owner.lo == s.owner.hi == offset + 1
      ensures s.log[offset].Unsupported? ==> outcome.Success? && s.asked == old(s.asked)
      ensures s.log[offset].Poison? ==>
                (outcome.Success? <==> hasDeadLetters && old(s.asked) < |s.answers| && s.answers[old(s.asked)].acked)
      ensures outcome.Failure? ==> Stopped(s, outcome.cause) || FailedToBury(s, outcome.cause, offset)
      ensures offset <= s.owner.hi <= offset + 1
      ensures s.marked >= old(s.marked)
      ensures books.Minus(s.tally) == old(books.Minus(s.tally))
    {
      if s.log[offset].Unsupported? {
        books := books.(skipped := books.skipped + 1);
        s.MarkMessage(offset, Skip(offset));
        return Success;
      }
      outcome := PublishDeadLetter(s, offset);
      if outcome.Success? {
        s.MarkMessage(offset, Bury(offset));
      }
    }

    // A valid record joins the pending ones, which are flushed when they fill a batch.
    method Append(s: Session, pending: seq<PendingMessage>, message: PendingMessage)
      returns (outcome: Outcome, left: seq<PendingMessage>)
      requires Configured() && batchSize == s.batchSize
      requires s.Valid() && s.Quiet() && Holds(s.log, s.owner, pending) && |pending| < batchSize
      requires message.offset == s.owner.hi < s.position
      requires s.log[message.offset] == Valid(message.row)
      modifies this, s`asked, s`contextDone, s`expired, s`marked, s`events, s`owner, s`tally, s`recoveryWaits
      ensures s.Valid() && s.asked >= old(s.asked)
      ensures outcome.Success? ==>
                && s.Quiet() && Holds(s.log, s.owner, left) && |left| < batchSize
                && s.owner.hi == message.offset + 1
                && s.owner.lo == if |pending| + 1 < batchSize then old(s.owner.lo) else s.owner.hi
      ensures |pending| + 1 < batchSize ==>
                outcome.Success? && s.asked == old(s.asked) && s.events == old(s.events) + [Receive]
      ensures outcome.Failure? ==> Stopped(s, outcome.cause)
      ensures message.offset <= s.owner.hi <= message.offset + 1
      ensures s.marked >= old(s.marked)
      ensures books.Minus(s.tally) == old(books.Minus(s.tally))
    {
      left := pending + [message];
      s.Note(Receive);
      books := books.(parsed := books.parsed + 1);
      outcome := Success;
      if |left| >= batchSize {
        ghost var refusals, save;
        outcome, refusals, save := FlushWithRecovery(s, left);
        left := [];
      }
    }

    // flushBeforeClaimEnds: one last flush, without recovery.
    method FlushBeforeClaimEnds(s: Session, pending: seq<PendingMessage>)
      returns (outcome: Outcome, ghost refusals: seq<Event>)
      requires Configured() && s.Valid() && s.Quiet() && Holds(s.log, s.owner, pending)
      modifies this`books, s`asked, s`contextDone, s`expired, s`marked, s`events, s`owner, s`tally
      ensures s.Valid()
      ensures pending == [] ==> outcome.Success? && s.asked == old(s.asked)
      ensures pending != [] ==> Tried(outcome, |refusals|, s.expired - old(s.expired))
      ensures outcome.Failure? ==> GaveUp(OfLastFlush, s, outcome.cause, |refusals|)
      ensures s.owner == if outcome.Success? then old(s.owner).(lo := old(s.owner.hi), marked := old(s.owner.hi))
              else old(s.owner)
      ensures books.Minus(s.tally) == old(books.Minus(s.tally))
    {
      if |pending| == 0 {
        return Success, [];
      }
      ghost var save;
      outcome, refusals, save := FlushPending(OfLastFlush, s, pending);
    }

    // The ticker fires: whatever is pending is flushed.
    method HandleTick(s: Session, pending: seq<PendingMessage>) returns (outcome: Outcome)
      requires Configured() && s.Valid() && s.Quiet() && Holds(s.log, s.owner, pending)
      modifies this, s`asked, s`contextDone, s`expired, s`marked, s`events, s`owner, s`tally, s`recoveryWaits
      ensures s.Valid() && s.asked >= old(s.asked)
      ensures outcome.Success? ==>
                s.Quiet() && s.owner == old(s.owner).(lo := old(s.owner.hi), marked := old(s.owner.hi))
      ensures outcome.Failure? ==> Stopped(s, outcome.cause) && s.owner == old(s.owner)
      ensures books.Minus(s.tally) == old(books.Minus(s.tally))
    {
      if |pending| == 0 {
        return Success;
      }
      ghost var refusals, save;
      outcome, refusals, save := FlushWithRecovery(s, pending);
    }

    // The claim has ended: the stream or the session is over, and the last flush went well or gave up; or it has
    // been given up before, at a turn that could not be completed.
    ghost predicate Ended(s: Session, outcome: Outcome)
      reads s
    {
      match outcome
      case Success => s.turns != [] && s.turns[|s.turns| - 1].what in {ClaimClosed, ContextDone}
      case Failure(cause) =>
        || (cause == Killed && s.asked == |s.answers|)
        || (s.turns != [] && Failed(s, s.turns[|s.turns| - 1].what, cause))
    }

    ghost predicate Failed(s: Session, what: Selected, cause: Cause)
      reads s
    {
      match what
      case Received(offset) => Stopped(s, cause) || FailedToBury(s, cause, offset)
      case Ticked => Stopped(s, cause)
      case _ => cause in {Exhausted, Cancelled}
    }

    /** ConsumeClaim. Whatever the environment answers, and wherever it kills the process, the history
        is one that ClaimProtocol allows; no record is skipped; each turn leaves pending exactly what it should,
        which is nothing after a tick, an invalid record or a full batch; the claim ends only when the stream or
        the session does, or for one of the reasons above; a claim that ends well has marked every record
        it received; and the counters are those of the history. */
    method ConsumeClaim(s: Session) returns (outcome: Outcome)
      requires Configured() && batchSize == s.batchSize && s.log == Classify(s.records)
      requires s.Valid() && s.owner == Fresh(s.start) && s.position == s.start && s.turns == []
      modifies this, s`asked, s`contextDone, s`expired, s`position, s`marked, s`events, s`owner, s`tally
      modifies s`recoveryWaits, s`turns
      ensures Replay(s.log, s.batchSize, Fresh(s.start), s.events) == Some(s.owner)
      ensures s.marked == s.owner.lo && s.owner.hi <= s.position <= s.owner.hi + 1
      ensures s.owner.hi - s.owner.lo <= batchSize
      ensures Paced(s.log, batchSize, s.start, s.turns)
      ensures s.turns != [] ==> TicksMarked(s.turns[..|s.turns| - 1], s.marked)
      ensures Ended(s, outcome)
      ensures outcome.Success? ==> s.marked == s.position
      ensures books.Minus(Tally(s.events)) == old(books.Minus(Tally(s.events)))
    {
      hide Replay, Tally;
      var pending: seq<PendingMessage> := [];
      while true
        invariant s.Valid() && s.Quiet() && Holds(s.log, s.owner, pending)
        invariant |pending| < batchSize && s.position == s.owner.hi
        invariant Paced(s.log, batchSize, s.start, s.turns)
        invariant LeftPending(s.log, batchSize, s.start, s.turns, s.owner.lo, s.owner.hi)
        invariant books.Minus(s.tally) == old(books.Minus(s.tally))
        decreases |s.answers| - s.asked
      {
        ghost var turns, lo, hi := s.turns, s.owner.lo, s.owner.hi;
        var selected := s.Select();
        OneTurnMore(s.log, batchSize, s.start, turns, Turn(selected, lo, hi));
        TicksFlush(s.log, batchSize, s.start, turns, lo, hi);
        match selected
        case Dead =>
          return Failure(Killed);
        case ClaimClosed =>
          ghost var refusals;
          outcome, refusals := FlushBeforeClaimEnds(s, pending);
          return;
        case ContextDone =>
          ghost var refusals;
          outcome, refusals := FlushBeforeClaimEnds(s, pending);
          return;
        case Ticked =>
          outcome := HandleTick(s, pending);
          if outcome.Failure? {
            return;
          }
          pending := [];
        case Received(offset) =>
          outcome, pending := HandleRecord(s, pending, offset);
          if outcome.Failure? {
            return;
          }
      }
    }
  }

  // The pauses added to `before` are the backoffs of one recovery, from the first on.
  ghost predicate PausedLike(before: seq<nat>, after: seq<nat>, minimum: nat, maximum: nat) {
    && before <= after
    && forall n :: |before| <= n < |after| ==> after[n] == Backoff(minimum, maximum, n - |before|)
  }
}
