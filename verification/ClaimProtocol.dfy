/** The consumer-group protocol of one partition: any number of claims of the same log, at the same
    time or one after the other, each doing what ConsumeClaim (v10/internal/consumer/handler.go) does,
    around one shared table, one dead-letter topic and one committed offset.

    An `Owner` is one claim seen from outside. `Advance` says which events it may produce next;
    ClaimHandler proves that the program produces no others. `Step` lets the environment interleave
    the owners in any way, lose any of them at any moment, fail or falsely fail any insert, and
    commit any offset that some owner has reached. */
module ClaimProtocol {
  import opened Wrappers
  import opened MessageStore
  import opened Records

  // What CreateIdempotent reported: an error, or a number of new rows.
  datatype Report = Failed | RowsAffected(count: int)

  datatype Event =
    | Receive                                              // a valid record joined the pending ones
    | Save(size: nat, committed: bool, report: Report, confirmed: bool)  // one insert of all pending records
    | Mark(offset: nat)                                    // marked after the commit
    | Skip(offset: nat)                                    // unsupported packet marked
    | Publish(offset: nat, delivered: bool, acked: bool)   // poison record sent to the DLQ
    | Bury(offset: nat)                                    // poison record marked

  /** A claim that started at `start`. The records [lo, hi) are received and not yet marked; `saved`
      says that the database has confirmed them; `published` that the poison record at hi is in the
      DLQ; `marked` is the offset the session would commit. */
  datatype Owner = Owner(start: nat, lo: nat, hi: nat, saved: bool, published: bool, marked: nat)

  function Fresh(start: nat): Owner {
    Owner(start, start, start, false, false, start)
  }

  // MarkMessage only ever raises the session's offset.
  function Raise(marked: nat, offset: nat): nat {
    if offset + 1 > marked then offset + 1 else marked
  }

  // The claim trusts a report only when its row count is possible for the batch.
  predicate Confirms(log: seq<Parsed>, o: Owner, report: Report)
    requires o.lo <= o.hi <= |log|
  {
    report.RowsAffected? && 0 <= report.count <= |Unique(Rows(log, o.lo, o.hi))|
  }

  // The claim after `ev`, or None when the protocol forbids `ev`. At most `batchSize` records pend.
  function Advance(log: seq<Parsed>, batchSize: nat, o: Owner, ev: Event): Option<Owner> {
    if !(o.lo <= o.hi <= |log|) then None
    else match ev
      case Receive =>
        if !o.saved && !o.published && o.hi < |log| && o.hi - o.lo < batchSize && log[o.hi].Valid?
        then Some(o.(hi := o.hi + 1)) else None
      case Save(size, committed, report, confirmed) =>
        if !o.saved && o.lo < o.hi && size == o.hi - o.lo && (report.RowsAffected? ==> committed)
           && confirmed == Confirms(log, o, report)
        then Some(o.(saved := confirmed)) else None
      case Mark(offset) =>
        if o.saved && offset == o.lo < o.hi
        then Some(o.(lo := o.lo + 1, saved := o.lo + 1 < o.hi, marked := Raise(o.marked, offset))) else None
      case Skip(offset) =>
        if !o.published && offset == o.lo == o.hi < |log| && log[offset].Unsupported?
        then Some(o.(lo := offset + 1, hi := offset + 1, marked := Raise(o.marked, offset))) else None
      case Publish(offset, delivered, acked) =>
        if !o.published && offset == o.lo == o.hi < |log| && log[offset].Poison? && (acked ==> delivered)
        then Some(o.(published := acked)) else None
      case Bury(offset) =>
        if o.published && offset == o.lo == o.hi < |log|
        then Some(o.(lo := offset + 1, hi := offset + 1, published := false, marked := Raise(o.marked, offset)))
        else None
  }

  function Replay(log: seq<Parsed>, batchSize: nat, o: Owner, events: seq<Event>): Option<Owner> {
    if events == [] then Some(o)
    else
      match Replay(log, batchSize, o, events[..|events| - 1])
      case None => None
      case Some(before) => Advance(log, batchSize, before, events[|events| - 1])
  }

  // ------------------------------------------------------------------ the books of one claim

  datatype Books = Books(parsed: int, saved: int, inserted: int, duplicates: int,
      batches: int, skipped: int, deadLetters: int) {
    function Minus(other: Books): Books {
      Books(parsed - other.parsed, saved - other.saved, inserted - other.inserted, duplicates - other.duplicates,
            batches - other.batches, skipped - other.skipped, deadLetters - other.deadLetters)
    }
  }

  const EMPTY_BOOKS := Books(0, 0, 0, 0, 0, 0, 0)

  function Post(books: Books, ev: Event): Books {
    match ev
    case Receive => books.(parsed := books.parsed + 1)
    case Save(size, _, report, confirmed) =>
      if confirmed && report.RowsAffected?
      then books.(saved := books.saved + size, inserted := books.inserted + report.count,
                  duplicates := books.duplicates + (size - report.count), batches := books.batches + 1)
      else books
    case Skip(_) => books.(skipped := books.skipped + 1)
    case Publish(_, _, acked) => if acked then books.(deadLetters := books.deadLetters + 1) else books
    case _ => books
  }

  function Tally(events: seq<Event>): Books {
    if events == [] then EMPTY_BOOKS else Post(Tally(events[..|events| - 1]), events[|events| - 1])
  }

  /** The books of every legal claim balance: saved rows are the inserted ones plus the duplicates, with
      no count ever negative; every parsed record is saved or pending; and every offset the claim has
      passed is counted exactly once as saved, skipped or dead-lettered. */
  lemma {:induction false} BooksBalance(log: seq<Parsed>, batchSize: nat, start: nat, events: seq<Event>)
    requires start <= |log|
    requires Replay(log, batchSize, Fresh(start), events).Some?
    ensures var o, books := Replay(log, batchSize, Fresh(start), events).value, Tally(events);
            && start <= o.lo <= o.hi <= |log|
            && books.saved == books.inserted + books.duplicates
            && 0 <= books.inserted && 0 <= books.duplicates
            && books.parsed == books.saved + (if o.saved then 0 else o.hi - o.lo)
            && (o.lo - start) + (if o.saved then o.hi - o.lo else 0) + (if o.published then 1 else 0)
               == books.saved + books.skipped + books.deadLetters
    decreases |events|
  {
    if events != [] {
      var init, last := events[..|events| - 1], events[|events| - 1];
      BooksBalance(log, batchSize, start, init);
      if last.Save? {
        UniqueFits(log, Replay(log, batchSize, Fresh(start), init).value);
      }
      ReplayShape(log, batchSize, start, init);
    }
  }

  lemma UniqueFits(log: seq<Parsed>, o: Owner)
    requires o.lo <= o.hi <= |log|
    ensures |Unique(Rows(log, o.lo, o.hi))| <= o.hi - o.lo
  {
    UniqueKeepsFirsts(Rows(log, o.lo, o.hi));
    RowsCount(log, o.lo, o.hi);
  }

  lemma {:induction false} RowsCount(log: seq<Parsed>, lo: nat, hi: nat)
    requires lo <= hi <= |log|
    ensures |Rows(log, lo, hi)| <= hi - lo
    decreases hi
  {
    if lo < hi {
      RowsCount(log, lo, hi - 1);
    }
  }

  // Records are marked only while none is pending, or after the database has confirmed them.
  lemma {:induction false} ReplayShape(log: seq<Parsed>, batchSize: nat, start: nat, events: seq<Event>)
    requires start <= |log|
    requires Replay(log, batchSize, Fresh(start), events).Some?
    ensures var o := Replay(log, batchSize, Fresh(start), events).value;
            (o.saved ==> o.lo < o.hi) && (o.published ==> o.lo == o.hi)
    decreases |events|
  {
    if events != [] {
      ReplayShape(log, batchSize, start, events[..|events| - 1]);
    }
  }

  datatype Kind = OfValid | OfUnsupported | OfPoison

  predicate Is(parsed: Parsed, kind: Kind) {
    match kind
    case OfValid => parsed.Valid?
    case OfUnsupported => parsed.Unsupported?
    case OfPoison => parsed.Poison?
  }

  // How many records of the kind are at offsets [lo, hi).
  function Count(log: seq<Parsed>, lo: nat, hi: nat, kind: Kind): nat
    requires lo <= hi <= |log|
  {
    if lo == hi then 0 else Count(log, lo, hi - 1, kind) + (if Is(log[hi - 1], kind) then 1 else 0)
  }

  // How many inserts were confirmed, and how many new rows they reported.
  function Confirmed(events: seq<Event>): nat {
    if events == [] then 0
    else
      var last := events[|events| - 1];
      Confirmed(events[..|events| - 1]) + (if last.Save? && last.confirmed then 1 else 0)
  }

  function NewRows(events: seq<Event>): int {
    if events == [] then 0
    else
      var last := events[|events| - 1];
      NewRows(events[..|events| - 1])
      + (if last.Save? && last.confirmed && last.report.RowsAffected? then last.report.count else 0)
  }

  // The saved, skipped and dead-lettered counts are those of the valid, unsupported and poison records passed.
  predicate KindsCounted(log: seq<Parsed>, start: nat, o: Owner, books: Books) {
    && start <= o.lo <= o.hi <= |log|
    && (forall i :: o.lo <= i < o.hi ==> log[i].Valid?)
    && (o.published ==> o.lo == o.hi < |log| && log[o.hi].Poison?)
    && books.saved == Count(log, start, if o.saved then o.hi else o.lo, OfValid)
    && books.skipped == Count(log, start, o.lo, OfUnsupported)
    && books.deadLetters == Count(log, start, o.lo, OfPoison) + (if o.published then 1 else 0)
  }

  lemma {:induction false} CountValid(log: seq<Parsed>, start: nat, lo: nat, hi: nat)
    requires start <= lo <= hi <= |log| && forall i :: lo <= i < hi ==> log[i].Valid?
    ensures Count(log, start, hi, OfValid) == Count(log, start, lo, OfValid) + (hi - lo)
    decreases hi
  {
    if lo < hi {
      CountValid(log, start, lo, hi - 1);
    }
  }

  lemma AdvanceCounts(log: seq<Parsed>, batchSize: nat, start: nat, o: Owner, books: Books, ev: Event)
    requires KindsCounted(log, start, o, books) && (o.saved ==> o.lo < o.hi)
    requires Advance(log, batchSize, o, ev).Some?
    ensures KindsCounted(log, start, Advance(log, batchSize, o, ev).value, Post(books, ev))
  {
    CountValid(log, start, o.lo, o.hi);
  }

  /** Each counter says what it is called: of the records passed the valid ones are saved, the unsupported ones
      skipped and the poison ones dead-lettered; the batches are the confirmed inserts and the inserted rows
      those that they reported. */
  lemma {:induction false} BooksAreTrue(log: seq<Parsed>, batchSize: nat, start: nat, events: seq<Event>)
    requires start <= |log|
    requires Replay(log, batchSize, Fresh(start), events).Some?
    ensures var o, books := Replay(log, batchSize, Fresh(start), events).value, Tally(events);
            && KindsCounted(log, start, o, books)
            && books.batches == Confirmed(events) && books.inserted == NewRows(events)
    decreases |events|
  {
    if events != [] {
      var init, last := events[..|events| - 1], events[|events| - 1];
      BooksAreTrue(log, batchSize, start, init);
      ReplayShape(log, batchSize, start, init);
      AdvanceCounts(log, batchSize, start, Replay(log, batchSize, Fresh(start), init).value, Tally(init), last);
    }
  }

  // ------------------------------------------------------------------ the world

  datatype World = World(table: Table, dlq: set<nat>, committed: nat, owners: map<nat, Owner>)

  datatype Move =
    | Join(who: nat)                   // a session claims the partition from the committed offset
    | Act(who: nat, ev: Event)
    | Commit(who: nat, upTo: nat)      // an offset that the owner had marked, perhaps long ago, is committed
    | Leave(who: nat)                  // crash, rebalance or orderly end

  const INITIAL := World(map[], {}, 0, map[])

  function Effect(log: seq<Parsed>, w: World, o: Owner, ev: Event): World
    requires o.lo <= o.hi <= |log|
  {
    match ev
    case Save(_, committed, _, _) =>
      if committed then w.(table := InsertAll(w.table, Unique(Rows(log, o.lo, o.hi)))) else w
    case Publish(offset, delivered, _) =>
      if delivered then w.(dlq := w.dlq + {offset}) else w
    case _ => w
  }

  function Step(log: seq<Parsed>, batchSize: nat, w: World, move: Move): Option<World> {
    match move
    case Join(who) =>
      if who in w.owners then None else Some(w.(owners := w.owners[who := Fresh(w.committed)]))
    case Act(who, ev) =>
      if who !in w.owners then None
      else (
        match Advance(log, batchSize, w.owners[who], ev)
        case None => None
        case Some(o) => Some(Effect(log, w, w.owners[who], ev).(owners := w.owners[who := o]))
      )
    case Commit(who, upTo) =>
      if who in w.owners && upTo <= w.owners[who].marked then Some(w.(committed := upTo)) else None
    case Leave(who) =>
      Some(w.(owners := w.owners - {who}))
  }

  function Run(log: seq<Parsed>, batchSize: nat, moves: seq<Move>): Option<World> {
    if moves == [] then Some(INITIAL)
    else
      match Run(log, batchSize, moves[..|moves| - 1])
      case None => None
      case Some(w) => Step(log, batchSize, w, moves[|moves| - 1])
  }

  // ------------------------------------------------------------------ what every run keeps

  // Every record below n is accounted for: stored, in the dead-letter topic, or unsupported.
  ghost predicate Settled(log: seq<Parsed>, w: World, n: nat) {
    && n <= |log|
    && forall i: nat :: i < n ==>
         match log[i]
         case Valid(row) => row.messageId in w.table
         case Poison(_) => i in w.dlq
         case Unsupported => true
  }

  // What the owner has pending is a batch of valid records, or a poison record, from the stored prefix on.
  ghost predicate Shaped(log: seq<Parsed>, batchSize: nat, h: nat, o: Owner) {
    && o.start <= o.lo <= o.hi <= |log|
    && o.hi - o.lo <= batchSize
    && o.lo <= h && (o.saved ==> o.lo < o.hi <= h)
    && o.marked == o.lo
    && (forall i :: o.lo <= i < o.hi ==> log[i].Valid?)
    && (o.published ==> o.lo == o.hi < |log| && log[o.hi].Poison?)
  }

  ghost predicate OwnerInv(log: seq<Parsed>, batchSize: nat, w: World, h: nat, o: Owner) {
    Shaped(log, batchSize, h, o) && (o.published ==> o.hi in w.dlq) && Settled(log, w, o.lo)
  }

  // `h` is the high-water mark: the table holds the first-wins rows of the prefix [0, h).
  ghost predicate Inv(log: seq<Parsed>, batchSize: nat, w: World, h: nat) {
    && h <= |log|
    && w.table == Stored(log, h)
    && w.committed <= h
    && Settled(log, w, w.committed)
    && (forall who :: who in w.owners ==> OwnerInv(log, batchSize, w, h, w.owners[who]))
    && (forall k :: k in w.dlq ==> k < |log| && log[k].Poison? && Settled(log, w, k))
  }

  // The table never loses or changes a row, and the dead-letter topic never loses a record.
  ghost predicate Grows(w: World, w': World) {
    && (forall id :: id in w.table ==> id in w'.table && w'.table[id] == w.table[id])
    && w.dlq <= w'.dlq
  }

  /** Saving the segment [lo, hi) when the prefix [0, h) is stored and lo <= h stores [0, max(h, hi)),
      even when other owners have already stored part of the segment. */
  lemma SaveExtends(log: seq<Parsed>, lo: nat, hi: nat, h: nat)
    requires lo <= hi <= |log| && lo <= h <= |log|
    ensures InsertAll(Stored(log, h), Unique(Rows(log, lo, hi))) == Stored(log, if hi > h then hi else h)
  {
    var table, rows := Stored(log, h), Rows(log, lo, hi);
    UniqueRefines(table, rows);
    if hi <= h {
      StoredAbsorbs(log, lo, hi, h);
    } else {
      var known, added := Rows(log, lo, h), Rows(log, h, hi);
      RowsSplit(log, lo, h, hi);
      InsertAllAppend(table, known, added);
      StoredAbsorbs(log, lo, h, h);
      RowsSplit(log, 0, h, hi);
      InsertAllAppend(map[], Rows(log, 0, h), added);
    }
  }

  // Records that are already stored change nothing when they are inserted again.
  lemma StoredAbsorbs(log: seq<Parsed>, lo: nat, mid: nat, h: nat)
    requires lo <= mid <= h <= |log|
    ensures InsertAll(Stored(log, h), Rows(log, lo, mid)) == Stored(log, h)
  {
    SegmentIds(log, lo, mid, h);
    InsertAllGrows(map[], Rows(log, 0, h));
    InsertAllAbsorbs(Stored(log, h), Rows(log, lo, mid));
  }

  lemma SettledGrows(log: seq<Parsed>, w: World, w': World, n: nat)
    requires Settled(log, w, n) && Grows(w, w')
    ensures Settled(log, w', n)
  {
  }

  // Everything below the high-water mark that is valid is stored.
  lemma StoredCovers(log: seq<Parsed>, h: nat, i: nat)
    requires i < h <= |log|
    requires log[i].Valid?
    ensures log[i].row.messageId in Stored(log, h)
  {
    RowsHold(log, 0, h, i);
    InsertAllGrows(map[], Rows(log, 0, h));
  }

  // An owner that did not move is still in order after the world has grown.
  lemma OwnerKept(log: seq<Parsed>, batchSize: nat, w: World, w': World, h: nat, h': nat, o: Owner)
    requires OwnerInv(log, batchSize, w, h, o)
    requires Grows(w, w') && h <= h' <= |log|
    ensures OwnerInv(log, batchSize, w', h', o)
  {
    SettledGrows(log, w, w', o.lo);
  }

  lemma EffectGrows(log: seq<Parsed>, w: World, o: Owner, ev: Event)
    requires o.lo <= o.hi <= |log|
    ensures Grows(w, Effect(log, w, o, ev))
  {
    InsertAllGrows(w.table, Unique(Rows(log, o.lo, o.hi)));
  }

  // The high-water mark after one event of one owner.
  function Raised(o: Owner, ev: Event, h: nat): nat {
    match ev
    case Save(_, committed, _, _) => if committed && o.hi > h then o.hi else h
    case Skip(offset) => if offset == h then h + 1 else h
    case Bury(offset) => if offset == h then h + 1 else h
    case _ => h
  }

  lemma ActKeepsTable(log: seq<Parsed>, batchSize: nat, w: World, h: nat, o: Owner, ev: Event)
    requires Inv(log, batchSize, w, h) && OwnerInv(log, batchSize, w, h, o)
    requires Advance(log, batchSize, o, ev).Some?
    ensures h <= Raised(o, ev, h) <= |log|
    ensures Effect(log, w, o, ev).table == Stored(log, Raised(o, ev, h))
  {
    if ev.Save? && ev.committed {
      SaveExtends(log, o.lo, o.hi, h);
    } else if Raised(o, ev, h) == h + 1 {
      StoredStep(log, h);
    }
  }

  lemma ActKeepsOwner(log: seq<Parsed>, batchSize: nat, w: World, h: nat, o: Owner, ev: Event)
    requires Inv(log, batchSize, w, h) && OwnerInv(log, batchSize, w, h, o)
    requires Advance(log, batchSize, o, ev).Some?
    requires h <= Raised(o, ev, h) <= |log|
    requires Effect(log, w, o, ev).table == Stored(log, Raised(o, ev, h))
    ensures OwnerInv(log, batchSize, Effect(log, w, o, ev), Raised(o, ev, h), Advance(log, batchSize, o, ev).value)
  {
    var w', h' := Effect(log, w, o, ev), Raised(o, ev, h);
    EffectGrows(log, w, o, ev);
    SettledGrows(log, w, w', o.lo);
    AdvanceKeepsShape(log, batchSize, h, o, ev);
    MarkedIsSettled(log, batchSize, w', h', o, ev);
  }

  lemma AdvanceKeepsShape(log: seq<Parsed>, batchSize: nat, h: nat, o: Owner, ev: Event)
    requires Shaped(log, batchSize, h, o) && Advance(log, batchSize, o, ev).Some?
    ensures Shaped(log, batchSize, Raised(o, ev, h), Advance(log, batchSize, o, ev).value)
  {
  }

  // One more settled record.
  lemma SettledOneMore(log: seq<Parsed>, w: World, n: nat)
    requires Settled(log, w, n) && n < |log|
    requires log[n].Valid? ==> log[n].row.messageId in w.table
    requires log[n].Poison? ==> n in w.dlq
    ensures Settled(log, w, n + 1)
  {
  }

  // What the owner has marked is settled in the world its event has led to.
  lemma MarkedIsSettled(log: seq<Parsed>, batchSize: nat, w: World, h: nat, o: Owner, ev: Event)
    requires Shaped(log, batchSize, h, o) && Advance(log, batchSize, o, ev).Some? && h <= |log|
    requires w.table == Stored(log, h) && Settled(log, w, o.lo) && (o.published ==> o.hi in w.dlq)
    ensures Settled(log, w, Advance(log, batchSize, o, ev).value.lo)
  {
    match ev
    case Mark(offset) =>
      StoredCovers(log, h, offset);
      SettledOneMore(log, w, offset);
    case Skip(offset) => SettledOneMore(log, w, offset);
    case Bury(offset) => SettledOneMore(log, w, offset);
    case _ =>
  }

  // The dead-letter topic only ever receives a record whose predecessors are all settled.
  lemma ActKeepsLetters(log: seq<Parsed>, batchSize: nat, w: World, h: nat, o: Owner, ev: Event)
    requires Inv(log, batchSize, w, h) && OwnerInv(log, batchSize, w, h, o)
    requires Advance(log, batchSize, o, ev).Some?
    ensures var w' := Effect(log, w, o, ev);
            forall k :: k in w'.dlq ==> k < |log| && log[k].Poison? && Settled(log, w', k)
  {
    var w' := Effect(log, w, o, ev);
    EffectGrows(log, w, o, ev);
    forall k | k in w'.dlq ensures k < |log| && log[k].Poison? && Settled(log, w', k) {
      SettledGrows(log, w, w', if k in w.dlq then k else o.lo);
    }
  }

  // The owner invariant reads only the table and the dead-letter topic of the world.
  lemma OwnerSeesSame(log: seq<Parsed>, batchSize: nat, w: World, w': World, h: nat, o: Owner)
    requires OwnerInv(log, batchSize, w, h, o)
    requires w'.table == w.table && w'.dlq == w.dlq
    ensures OwnerInv(log, batchSize, w', h, o)
  {
    SettledGrows(log, w, w', o.lo);
  }

  // One event of one owner keeps the invariant for all.
  lemma ActKeepsInv(log: seq<Parsed>, batchSize: nat, w: World, h: nat, who: nat, ev: Event)
    requires Inv(log, batchSize, w, h)
    requires Step(log, batchSize, w, Act(who, ev)).Some?
    ensures h <= Raised(w.owners[who], ev, h)
    ensures Inv(log, batchSize, Step(log, batchSize, w, Act(who, ev)).value, Raised(w.owners[who], ev, h))
    ensures Grows(w, Step(log, batchSize, w, Act(who, ev)).value)
  {
    var o, w' := w.owners[who], Step(log, batchSize, w, Act(who, ev)).value;
    var h', mid := Raised(o, ev, h), Effect(log, w, o, ev);
    ActKeepsTable(log, batchSize, w, h, o, ev);
    ActKeepsOwner(log, batchSize, w, h, o, ev);
    ActKeepsLetters(log, batchSize, w, h, o, ev);
    EffectGrows(log, w, o, ev);
    SettledGrows(log, w, w', w.committed);
    OwnerSeesSame(log, batchSize, mid, w', h', w'.owners[who]);
    forall other | other in w'.owners && other != who ensures OwnerInv(log, batchSize, w', h', w'.owners[other]) {
      OwnerKept(log, batchSize, w, w', h, h', w.owners[other]);
    }
    forall k | k in w'.dlq ensures k < |log| && log[k].Poison? && Settled(log, w', k) {
      SettledGrows(log, mid, w', k);
    }
  }

  /** One move of the world keeps the invariant, never lowers the high-water mark, and never loses or
      rewrites a row or a dead letter. */
  lemma StepKeepsInv(log: seq<Parsed>, batchSize: nat, w: World, h: nat, move: Move) returns (h': nat)
    requires Inv(log, batchSize, w, h)
    requires Step(log, batchSize, w, move).Some?
    ensures h <= h' && Inv(log, batchSize, Step(log, batchSize, w, move).value, h')
    ensures Grows(w, Step(log, batchSize, w, move).value)
  {
    if move.Act? {
      h' := Raised(w.owners[move.who], move.ev, h);
      ActKeepsInv(log, batchSize, w, h, move.who, move.ev);
    } else {
      h' := h;
      var w' := Step(log, batchSize, w, move).value;
      SettledGrows(log, w, w', if move.Commit? then w.owners[move.who].lo else w.committed);
      forall k | k in w'.dlq ensures Settled(log, w', k) {
        SettledGrows(log, w, w', k);
      }
      forall who | who in w'.owners ensures OwnerInv(log, batchSize, w', h', w'.owners[who]) {
        if who in w.owners {
          OwnerKept(log, batchSize, w, w', h, h', w.owners[who]);
        }
      }
    }
  }

  lemma {:induction false} RunKeepsInv(log: seq<Parsed>, batchSize: nat, moves: seq<Move>) returns (h: nat)
    requires Run(log, batchSize, moves).Some?
    ensures Inv(log, batchSize, Run(log, batchSize, moves).value, h)
    decreases |moves|
  {
    if moves == [] {
      h := 0;
    } else {
      var init := moves[..|moves| - 1];
      var before := RunKeepsInv(log, batchSize, init);
      h := StepKeepsInv(log, batchSize, Run(log, batchSize, init).value, before, moves[|moves| - 1]);
    }
  }

  /** EFFECTIVELY ONCE. In every run, whatever the interleaving of owners, crashes, rebalances, lagging
      commits, failed or falsely failed inserts and batch boundaries: for some log prefix [0, h) that
      covers the committed offset and every owner's marked offset, a message id has a row exactly when
      a valid record of the prefix carries it, and the row is the one of the first such record. */
  lemma EffectivelyOnce(log: seq<Parsed>, batchSize: nat, moves: seq<Move>) returns (h: nat)
    requires Run(log, batchSize, moves).Some?
    ensures var w := Run(log, batchSize, moves).value;
            && h <= |log|
            && w.committed <= h
            && (forall who :: who in w.owners ==> w.owners[who].marked <= h)
            && (forall id :: id in w.table <==> exists at: nat :: at < h && Carries(log, at, id))
            && (forall id, at: nat :: at < h && FirstCarrier(log, at, id) ==>
                  w.table[id] == log[at].row)
  {
    h := RunKeepsInv(log, batchSize, moves);
    forall id ensures id in Stored(log, h) <==> exists at: nat :: at < h && Carries(log, at, id) {
      StoredIds(log, h, id);
    }
    forall id, at: nat | at < h && FirstCarrier(log, at, id)
      ensures id in Stored(log, h) && Stored(log, h)[id] == log[at].row
    {
      StoredRow(log, h, id, at);
    }
  }

  /** Nothing is acknowledged too early. In every state of every run, also between two marks of one
      batch, each record below the committed offset or below any owner's marked offset is stored, in
      the dead-letter topic, or unsupported; and a poison record is in the dead-letter topic only
      when every earlier record is already settled. No owner holds more than a batch. */
  lemma AcknowledgedIsSettled(log: seq<Parsed>, batchSize: nat, moves: seq<Move>)
    requires Run(log, batchSize, moves).Some?
    ensures var w := Run(log, batchSize, moves).value;
            && Settled(log, w, w.committed)
            && (forall who :: who in w.owners ==>
                  Settled(log, w, w.owners[who].marked) && w.owners[who].hi - w.owners[who].lo <= batchSize)
            && (forall k :: k in w.dlq ==> k < |log| && log[k].Poison? && Settled(log, w, k))
  {
    var h := RunKeepsInv(log, batchSize, moves);
  }

  /** Nothing is stored but what fits the schema, so a full column cannot look like a database outage;
      and once the whole log is committed, or marked by some owner, the table is exactly the
      first-wins table of the log. */
  lemma DrainedLogIsStored(records: seq<Record>, batchSize: nat, moves: seq<Move>)
    requires Run(Classify(records), batchSize, moves).Some?
    ensures var log := Classify(records);
            var w := Run(log, batchSize, moves).value;
            && (forall id :: id in w.table ==> FitsSchema(w.table[id]) && w.table[id].messageId == id)
            && (w.committed == |log| || (exists who :: who in w.owners && w.owners[who].marked == |log|) ==>
                  w.table == Stored(log, |log|))
  {
    var log := Classify(records);
    var h := RunKeepsInv(log, batchSize, moves);
    StoredFits(log, h);
  }

  lemma {:induction false} StoredFits(log: seq<Parsed>, h: nat)
    requires h <= |log|
    requires forall i :: 0 <= i < |log| && log[i].Valid? ==> FitsSchema(log[i].row)
    ensures forall id :: id in Stored(log, h) ==> FitsSchema(Stored(log, h)[id]) && Stored(log, h)[id].messageId == id
  {
    if h > 0 {
      StoredFits(log, h - 1);
      StoredStep(log, h - 1);
    }
  }

  // ------------------------------------------------------------------ claims and owners

  // What `who` has done since it last joined.
  function HistoryOf(moves: seq<Move>, who: nat): seq<Event> {
    if moves == [] then []
    else
      var init, last := HistoryOf(moves[..|moves| - 1], who), moves[|moves| - 1];
      if (last.Join? || last.Leave?) && last.who == who then []
      else if last.Act? && last.who == who then init + [last.ev]
      else init
  }

  /** Every owner of every run is a claim of its own: its state is what its history alone leads to. */
  lemma {:induction false} OwnersAreClaims(log: seq<Parsed>, batchSize: nat, moves: seq<Move>, who: nat)
    requires Run(log, batchSize, moves).Some?
    requires who in Run(log, batchSize, moves).value.owners
    ensures var o := Run(log, batchSize, moves).value.owners[who];
            Replay(log, batchSize, Fresh(o.start), HistoryOf(moves, who)) == Some(o)
    decreases |moves|
  {
    var init, last := moves[..|moves| - 1], moves[|moves| - 1];
    if last.who == who && last.Join? {
    } else {
      OwnersAreClaims(log, batchSize, init, who);
      if last.who == who && last.Act? {
        var before := HistoryOf(init, who);
        assert HistoryOf(moves, who)[..|before|] == before;
      }
    }
  }

  function Acts(who: nat, events: seq<Event>): seq<Move> {
    seq(|events|, i requires 0 <= i < |events| => Act(who, events[i]))
  }

  /** And the other way round: in any state of any run, any legal history of a claim from the committed
      offset can be carried out, to the same end. */
  lemma {:induction false} ClaimsCanRun(log: seq<Parsed>, batchSize: nat, moves: seq<Move>, who: nat,
                                        events: seq<Event>, w: World)
    requires Run(log, batchSize, moves) == Some(w) && who !in w.owners
    requires Replay(log, batchSize, Fresh(w.committed), events).Some?
    ensures var after := Run(log, batchSize, moves + [Join(who)] + Acts(who, events));
            && after.Some? && who in after.value.owners
            && Replay(log, batchSize, Fresh(w.committed), events) == Some(after.value.owners[who])
    decreases |events|
  {
    var joined := moves + [Join(who)];
    if events == [] {
      RunSnoc(log, batchSize, moves, Join(who));
      assert joined + Acts(who, events) == joined;
    } else {
      var init, last := events[..|events| - 1], events[|events| - 1];
      ClaimsCanRun(log, batchSize, moves, who, init, w);
      RunSnoc(log, batchSize, joined + Acts(who, init), Act(who, last));
      assert joined + Acts(who, events) == joined + Acts(who, init) + [Act(who, last)];
    }
  }

  lemma RunSnoc(log: seq<Parsed>, batchSize: nat, moves: seq<Move>, move: Move)
    requires Run(log, batchSize, moves).Some?
    ensures Run(log, batchSize, moves + [move]) == Step(log, batchSize, Run(log, batchSize, moves).value, move)
  {
    assert (moves + [move])[..|moves|] == moves;
  }
}
