/** The MySQL table of messages and the batches written to it.

    CreateIdempotent (v10/internal/repo/message_repo.go) is one INSERT statement that does nothing on
    a conflict of message_id. Its effect on the table is `InsertAll`: insert if absent, in order. */
module MessageStore {

  datatype Instant = Instant(year: int, nanos: nat) {
    // Go's zero time is the first instant of year 1
    predicate IsZero() { year == 1 && nanos == 0 }
  }

  datatype Danmaku = Danmaku(
    messageId: string, roomId: string, userId: string, username: string, content: string, sendTime: Instant)

  // The table by its unique key message_id.
  type Table = map<string, Danmaku>

  function InsertIfAbsent(table: Table, row: Danmaku): Table {
    if row.messageId in table then table else table[row.messageId := row]
  }

  function InsertAll(table: Table, rows: seq<Danmaku>): Table {
    if rows == [] then table
    else InsertIfAbsent(InsertAll(table, rows[..|rows| - 1]), rows[|rows| - 1])
  }

  function Ids(rows: seq<Danmaku>): set<string> {
    set i | 0 <= i < |rows| :: rows[i].messageId
  }

  lemma IdsAppend(rows: seq<Danmaku>, more: seq<Danmaku>)
    ensures Ids(rows + more) == Ids(rows) + Ids(more)
  {
    forall i | 0 <= i < |rows| ensures rows[i].messageId in Ids(rows + more) {
      assert (rows + more)[i] == rows[i];
    }
    forall i | 0 <= i < |more| ensures more[i].messageId in Ids(rows + more) {
      assert (rows + more)[|rows| + i] == more[i];
    }
  }

  lemma {:induction false} InsertAllAppend(table: Table, rows: seq<Danmaku>, more: seq<Danmaku>)
    ensures InsertAll(table, rows + more) == InsertAll(InsertAll(table, rows), more)
    decreases |more|
  {
    if more == [] {
      assert rows + more == rows;
    } else {
      var init := more[..|more| - 1];
      assert (rows + more)[..|rows + more| - 1] == rows + init;
      InsertAllAppend(table, rows, init);
    }
  }

  // What is in the table stays there unchanged, and exactly the ids of the rows are added.
  lemma {:induction false} InsertAllGrows(table: Table, rows: seq<Danmaku>)
    ensures InsertAll(table, rows).Keys == table.Keys + Ids(rows)
    ensures forall id :: id in table ==> InsertAll(table, rows)[id] == table[id]
    decreases |rows|
  {
    if rows != [] {
      var init, last := rows[..|rows| - 1], rows[|rows| - 1];
      InsertAllGrows(table, init);
      assert Ids(rows) == Ids(init) + {last.messageId} by {
        assert forall i :: 0 <= i < |init| ==> init[i] == rows[i];
      }
    }
  }

  lemma {:induction false} InsertAllAbsorbs(table: Table, rows: seq<Danmaku>)
    requires Ids(rows) <= table.Keys
    ensures InsertAll(table, rows) == table
    decreases |rows|
  {
    if rows != [] {
      var init, last := rows[..|rows| - 1], rows[|rows| - 1];
      assert forall i :: 0 <= i < |init| ==> init[i] == rows[i];
      assert last.messageId in Ids(rows);
      InsertAllAbsorbs(table, init);
    }
  }

  // True when `at` is the first position of `rows` that carries the id `id`.
  ghost predicate IsFirst(rows: seq<Danmaku>, id: string, at: nat) {
    && at < |rows|
    && rows[at].messageId == id
    && forall i :: 0 <= i < at ==> rows[i].messageId != id
  }

  // The row is the first one of its id.
  ghost predicate IsFirstOfId(rows: seq<Danmaku>, row: Danmaku) {
    exists at: nat :: IsFirst(rows, row.messageId, at) && rows[at] == row
  }

  // Insert-if-absent is first-wins: an absent id gets the first row that carries it.
  lemma {:induction false} FirstWins(table: Table, rows: seq<Danmaku>, id: string, at: nat)
    requires id !in table && IsFirst(rows, id, at)
    ensures id in InsertAll(table, rows) && InsertAll(table, rows)[id] == rows[at]
    decreases |rows|
  {
    var init := rows[..|rows| - 1];
    if at == |rows| - 1 {
      InsertAllGrows(table, init);
    } else {
      FirstWins(table, init, id, at);
    }
  }

  // ------------------------------------------------------------------ uniqueBatch

  // The rows left after dropping every row whose id an earlier row already carries.
  function Unique(rows: seq<Danmaku>): seq<Danmaku> {
    if rows == [] then []
    else
      var init, last := rows[..|rows| - 1], rows[|rows| - 1];
      if last.messageId in Ids(init) then Unique(init) else Unique(init) + [last]
  }

  /** The batch handed to the database has pairwise different ids, has the ids of the pending rows
      and no others, and of each id holds the first pending row. */
  lemma UniqueKeepsFirsts(rows: seq<Danmaku>)
    ensures |Unique(rows)| <= |rows|
    ensures rows != [] ==> Unique(rows) != []
    ensures forall i, j :: 0 <= i < j < |Unique(rows)| ==> Unique(rows)[i].messageId != Unique(rows)[j].messageId
    ensures Ids(Unique(rows)) == Ids(rows)
    ensures forall i :: 0 <= i < |Unique(rows)| ==> IsFirstOfId(rows, Unique(rows)[i])
  {
    UniqueKeepsIds(rows);
    UniqueAreFirsts(rows);
  }

  lemma {:induction false} UniqueKeepsIds(rows: seq<Danmaku>)
    ensures |Unique(rows)| <= |rows|
    ensures rows != [] ==> Unique(rows) != []
    ensures forall i, j :: 0 <= i < j < |Unique(rows)| ==> Unique(rows)[i].messageId != Unique(rows)[j].messageId
    ensures Ids(Unique(rows)) == Ids(rows)
    decreases |rows|
  {
    if rows != [] {
      var init, last := rows[..|rows| - 1], rows[|rows| - 1];
      var u := Unique(init);
      UniqueKeepsIds(init);
      assert rows == init + [last];
      IdsAppend(init, [last]);
      IdsAppend(u, [last]);
      var alone := [last];
      assert alone[0].messageId in Ids(alone);
      assert Ids(alone) == {last.messageId};
      assert forall i :: 0 <= i < |u| ==> u[i].messageId in Ids(u);
    }
  }

  lemma {:induction false} UniqueAreFirsts(rows: seq<Danmaku>)
    ensures forall i :: 0 <= i < |Unique(rows)| ==> IsFirstOfId(rows, Unique(rows)[i])
    decreases |rows|
  {
    if rows != [] {
      var init, u := rows[..|rows| - 1], Unique(rows);
      UniqueAreFirsts(init);
      assert forall i :: 0 <= i < |init| ==> init[i] == rows[i];
      forall i | 0 <= i < |u|
        ensures IsFirstOfId(rows, u[i])
      {
        if i < |Unique(init)| {
          assert IsFirstOfId(init, u[i]);
          var at: nat :| IsFirst(init, u[i].messageId, at) && init[at] == u[i];
          assert IsFirst(rows, u[i].messageId, at);
        } else {
          assert IsFirst(rows, u[i].messageId, |rows| - 1);
        }
      }
    }
  }

  /** Inserting the de-duplicated batch leaves the table that inserting the pending rows one by one
      would leave, whatever the table held before. */
  lemma {:induction false} UniqueRefines(table: Table, rows: seq<Danmaku>)
    ensures InsertAll(table, Unique(rows)) == InsertAll(table, rows)
    decreases |rows|
  {
    if rows != [] {
      var init, last := rows[..|rows| - 1], rows[|rows| - 1];
      UniqueRefines(table, init);
      if last.messageId in Ids(init) {
        InsertAllGrows(table, init);
      } else {
        assert (Unique(init) + [last])[..|Unique(init)|] == Unique(init);
      }
    }
  }
}
