/** Records of the partition log and how the consumer classifies them. */
module Records {
  import opened MessageStore

  const TYPE_DANMAKU := 101

  const MAX_MESSAGE_ID_RUNES := 64
  const MAX_ROOM_ID_RUNES := 64
  const MAX_USER_ID_RUNES := 64
  const MAX_USERNAME_RUNES := 64
  const MAX_CONTENT_RUNES := 500

  // A record value after JSON decoding: the envelope or its data may fail to decode.
  datatype Payload = Undecodable | Decoded(danmaku: Danmaku)
  datatype Record = Garbled | Packet(kind: int, data: Payload)

  datatype Parsed = Valid(row: Danmaku) | Unsupported | Poison(reason: string)

  predicate IsSpace(c: char) {
    || c in {'\t', '\n', '\r', ' ', '\U{000B}', '\U{000C}', '\U{0085}', '\U{00A0}', '\U{1680}'}
    || c in {'\U{2028}', '\U{2029}', '\U{202F}', '\U{205F}', '\U{3000}'}
    || '\U{2000}' <= c <= '\U{200A}'
  }

  predicate Blank(s: string) {
    forall i :: 0 <= i < |s| ==> IsSpace(s[i])
  }

  function ParseMessage(record: Record): Parsed {
    if record.Garbled? then Poison("unmarshal packet")
    else if record.kind != TYPE_DANMAKU then Unsupported
    else if record.data.Undecodable? then Poison("unmarshal danmaku")
    else
      var row := record.data.danmaku;
      if Blank(row.messageId) then Poison("missing message_id")
      else if Blank(row.roomId) then Poison("missing room_id")
      else if Blank(row.userId) then Poison("missing user_id")
      else if row.sendTime.IsZero() then Poison("missing send_time")
      else if !FitsSchema(row) then Poison("invalid danmaku storage fields")
      else Valid(row)
  }

  // ValidateDanmakuStorage: the row fits the columns of the MySQL schema.
  predicate FitsSchema(row: Danmaku) {
    && |row.messageId| <= MAX_MESSAGE_ID_RUNES
    && |row.roomId| <= MAX_ROOM_ID_RUNES
    && |row.userId| <= MAX_USER_ID_RUNES
    && |row.username| <= MAX_USERNAME_RUNES
    && |row.content| <= MAX_CONTENT_RUNES
    && 1000 <= row.sendTime.year <= 9999
  }

  // The record is a decodable packet of the kind that is stored.
  predicate HoldsDanmaku(record: Record) {
    record.Packet? && record.kind == 101 && record.data.Decoded?
  }

  predicate HasText(s: string) {
    exists i :: 0 <= i < |s| && !IsSpace(s[i])
  }

  // All that is asked of a danmaku before it is stored.
  predicate Storable(row: Danmaku) {
    && HasText(row.messageId) && HasText(row.roomId) && HasText(row.userId)
    && |row.messageId| <= 64 && |row.roomId| <= 64 && |row.userId| <= 64
    && |row.username| <= 64 && |row.content| <= 500
    && 1000 <= row.sendTime.year <= 9999
  }

  /** A record is valid exactly if it holds a danmaku that can be stored, and that danmaku is the row; it is
      unsupported exactly if it is a packet of another kind, whatever its data; every other record is poison. */
  lemma ParsedIff(record: Record)
    ensures ParseMessage(record).Valid? <==> HoldsDanmaku(record) && Storable(record.data.danmaku)
    ensures ParseMessage(record).Valid? ==> ParseMessage(record).row == record.data.danmaku
    ensures ParseMessage(record).Unsupported? <==> record.Packet? && record.kind != 101
    ensures ParseMessage(record).Poison? <==>
              || record.Garbled?
              || (record.kind == 101 && (record.data.Decoded? ==> !Storable(record.data.danmaku)))
  {
    if HoldsDanmaku(record) {
      var row := record.data.danmaku;
      assert forall s :: Blank(s) <==> !HasText(s);
      assert FitsSchema(row) ==> !row.sendTime.IsZero();
    }
  }

  // The classified log: what ParseMessage makes of each record.
  function Classify(records: seq<Record>): (log: seq<Parsed>)
    ensures |log| == |records|
    ensures forall i :: 0 <= i < |log| ==> log[i] == ParseMessage(records[i])
    ensures forall i :: 0 <= i < |log| && log[i].Valid? ==> FitsSchema(log[i].row)
  {
    seq(|records|, i requires 0 <= i < |records| => ParseMessage(records[i]))
  }

  // The rows of the valid records at offsets [lo, hi), in log order.
  function Rows(log: seq<Parsed>, lo: nat, hi: nat): seq<Danmaku>
    requires lo <= hi <= |log|
  {
    if lo == hi then []
    else
      var parsed := log[hi - 1];
      Rows(log, lo, hi - 1) + (if parsed.Valid? then [parsed.row] else [])
  }

  predicate Carries(log: seq<Parsed>, at: nat, id: string)
    requires at < |log|
  {
    var parsed := log[at];
    parsed.Valid? && parsed.row.messageId == id
  }

  // `at` is the first valid record of the log with this message id.
  ghost predicate FirstCarrier(log: seq<Parsed>, at: nat, id: string)
    requires at < |log|
  {
    Carries(log, at, id) && forall i: nat :: i < at ==> !Carries(log, i, id)
  }

  // Insert-if-absent, in log order, of the valid records of the log prefix [0, h).
  function Stored(log: seq<Parsed>, h: nat): Table
    requires h <= |log|
  {
    InsertAll(map[], Rows(log, 0, h))
  }

  lemma {:induction false} RowsSplit(log: seq<Parsed>, a: nat, b: nat, c: nat)
    requires a <= b <= c <= |log|
    ensures Rows(log, a, c) == Rows(log, a, b) + Rows(log, b, c)
    decreases c
  {
    if b < c {
      RowsSplit(log, a, b, c - 1);
    }
  }

  lemma SegmentIds(log: seq<Parsed>, lo: nat, mid: nat, h: nat)
    requires lo <= mid <= h <= |log|
    ensures Ids(Rows(log, lo, mid)) <= Ids(Rows(log, 0, h))
  {
    RowsSplit(log, 0, lo, mid);
    RowsSplit(log, 0, mid, h);
    IdsAppend(Rows(log, 0, lo), Rows(log, lo, mid));
    IdsAppend(Rows(log, 0, mid), Rows(log, mid, h));
  }

  lemma {:induction false} RowsHold(log: seq<Parsed>, lo: nat, hi: nat, at: nat)
    requires lo <= at < hi <= |log|
    requires log[at].Valid?
    ensures log[at].row.messageId in Ids(Rows(log, lo, hi))
    decreases hi
  {
    var rows, init := Rows(log, lo, hi), Rows(log, lo, hi - 1);
    if at == hi - 1 {
      assert rows[|rows| - 1] == log[at].row;
    } else {
      RowsHold(log, lo, hi - 1, at);
      var i :| 0 <= i < |init| && init[i].messageId == log[at].row.messageId;
      assert rows[i] == init[i];
    }
  }

  lemma {:induction false} RowsOfValid(log: seq<Parsed>, lo: nat, hi: nat)
    requires lo <= hi <= |log|
    requires forall i :: lo <= i < hi ==> log[i].Valid?
    ensures |Rows(log, lo, hi)| == hi - lo
    ensures forall i :: lo <= i < hi ==> Rows(log, lo, hi)[i - lo] == log[i].row
    decreases hi
  {
    if lo < hi {
      RowsOfValid(log, lo, hi - 1);
    }
  }

  lemma StoredStep(log: seq<Parsed>, h: nat)
    requires h < |log|
    ensures var next := log[h];
            Stored(log, h + 1) == if next.Valid? then InsertIfAbsent(Stored(log, h), next.row) else Stored(log, h)
  {
    var rows, next := Rows(log, 0, h + 1), log[h];
    if next.Valid? {
      assert rows[..|rows| - 1] == Rows(log, 0, h);
    } else {
      assert rows == Rows(log, 0, h);
    }
  }

  // An id has a row exactly when a valid record of the prefix carries it.
  lemma {:induction false} StoredIds(log: seq<Parsed>, h: nat, id: string)
    requires h <= |log|
    ensures id in Stored(log, h) <==> exists at: nat :: at < h && Carries(log, at, id)
  {
    if h > 0 {
      StoredIds(log, h - 1, id);
      StoredStep(log, h - 1);
      if Carries(log, h - 1, id) {
      } else if id in Stored(log, h - 1) {
        var at: nat :| at < h - 1 && Carries(log, at, id);
        assert at < h;
      }
    }
  }

  // The row of an id is that of the first valid record that carries it.
  lemma {:induction false} StoredRow(log: seq<Parsed>, h: nat, id: string, at: nat)
    requires at < h <= |log| && FirstCarrier(log, at, id)
    ensures id in Stored(log, h) && Stored(log, h)[id] == log[at].row
  {
    StoredStep(log, h - 1);
    if at < h - 1 {
      StoredRow(log, h - 1, id, at);
    } else {
      StoredIds(log, h - 1, id);
    }
  }
}
