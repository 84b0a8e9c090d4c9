/** The `messages` table (sandcat_prectice/db/src/database/postgres/mod.rs and
    sandcat_prectice/migrations/20240509030031_messages.sql): one row per primary key, and a row
    whose key is taken is dropped. The receiver's number is not a column. */
module Store {
  import opened Wrappers
  import opened Messages

  datatype Key = Key(sendId: string, serverId: string, sendTime: int)

  datatype Row = Row(
    localId: string,
    serverId: string,
    sendId: string,
    receiverId: string,
    msgType: int,
    contentType: int,
    content: string,
    sendTime: int
  )

  type Table = map<Key, Row>

  function KeyOf(m: Msg): Key {
    Key(m.sendId, m.serverId, m.sendTime)
  }

  function RowOf(m: Msg): Row {
    Row(m.localId, m.serverId, m.sendId, m.receiverId, m.msgType, m.contentType, m.content, m.sendTime)
  }

  /** The table has this message's row: under its key, each column is the message's field of that name. */
  ghost predicate Holds(t: Table, m: Msg) {
    var key := Key(m.sendId, m.serverId, m.sendTime);
    && key in t
    && t[key].localId == m.localId && t[key].serverId == m.serverId
    && t[key].sendId == m.sendId && t[key].receiverId == m.receiverId
    && t[key].msgType == m.msgType && t[key].contentType == m.contentType
    && t[key].content == m.content && t[key].sendTime == m.sendTime
  }

  function Insert(t: Table, m: Msg): Table {
    if KeyOf(m) in t then t else t[KeyOf(m) := RowOf(m)]
  }

  /** An insert adds the message's row if its key is free and changes nothing else. */
  lemma {:induction false} InsertAddsRow(t: Table, m: Msg)
    ensures var u, key := Insert(t, m), Key(m.sendId, m.serverId, m.sendTime);
            && (key in t ==> u == t) && (key !in t ==> Holds(u, m))
            && forall k :: k != key ==> (k in u <==> k in t) && (k in t ==> u[k] == t[k])
  {
  }

  ghost predicate DistinctKeys(log: seq<Msg>) {
    forall i, j :: 0 <= i < j < |log| ==> KeyOf(log[i]) != KeyOf(log[j])
  }

  ghost function Keys(log: seq<Msg>, records: set<nat>): set<Key>
    requires forall r :: r in records ==> r < |log|
  {
    set r | r in records :: KeyOf(log[r])
  }

  /** The table is exactly the rows of these log records. */
  ghost predicate IsTableOf(t: Table, log: seq<Msg>, records: set<nat>)
    requires forall r :: r in records ==> r < |log|
  {
    && (forall r :: r in records ==> KeyOf(log[r]) in t && t[KeyOf(log[r])] == RowOf(log[r]))
    && t.Keys == Keys(log, records)
  }

  /** Saving a record, under whatever number, adds its row, or nothing when it is there. */
  lemma {:induction false} InsertRecord(t: Table, log: seq<Msg>, records: set<nat>, r: nat, number: int)
    requires DistinctKeys(log) && r < |log|
    requires forall i :: i in records ==> i < |log|
    requires IsTableOf(t, log, records)
    ensures IsTableOf(Insert(t, log[r].(number := number)), log, records + {r})
  {
  }

  lemma {:induction false} TableIsUnique(t: Table, u: Table, log: seq<Msg>, records: set<nat>)
    requires forall i :: i in records ==> i < |log|
    requires IsTableOf(t, log, records) && IsTableOf(u, log, records)
    ensures t == u
  {
  }

  /** A save carries a log record under the number of the handling that sent it. */
  datatype Save = Save(record: nat, number: int)

  ghost function Records(saves: seq<Save>): set<nat> {
    set s | s in saves :: s.record
  }

  /** Running the saves one after the other. */
  function SaveAll(saves: seq<Save>, log: seq<Msg>): Table
    requires forall s :: s in saves ==> s.record < |log|
  {
    if saves == [] then map[]
    else
      var last := saves[|saves| - 1];
      Insert(SaveAll(saves[..|saves| - 1], log), log[last.record].(number := last.number))
  }

  lemma {:induction false} SaveAllIsTable(saves: seq<Save>, log: seq<Msg>)
    requires DistinctKeys(log) && forall s :: s in saves ==> s.record < |log|
    ensures IsTableOf(SaveAll(saves, log), log, Records(saves))
  {
    if saves != [] {
      var init, last := saves[..|saves| - 1], saves[|saves| - 1];
      SaveAllIsTable(init, log);
      InsertRecord(SaveAll(init, log), log, Records(init), last.record, last.number);
      assert saves == init + [last];
      assert Records(saves) == Records(init) + {last.record};
    }
  }

  /** At-least-once saving is exactly-once in the table. When no two log records have the same key,
      any two sequences of saves that mention the same records leave the same table, whatever the
      order, the repetitions and the numbers; so redelivered saves end where saving each record
      once ends. */
  lemma {:induction false} RedeliveryIsIdempotent(log: seq<Msg>, a: seq<Save>, b: seq<Save>)
    requires DistinctKeys(log) && Records(a) == Records(b)
    requires forall s :: s in a || s in b ==> s.record < |log|
    ensures SaveAll(a, log) == SaveAll(b, log)
    ensures |SaveAll(a, log)| == |Records(a)|
  {
    SaveAllIsTable(a, log);
    SaveAllIsTable(b, log);
    TableIsUnique(SaveAll(a, log), SaveAll(b, log), log, Records(a));
    OneRowPerRecord(SaveAll(a, log), log, Records(a));
  }

  lemma {:induction false} OneRowPerRecord(t: Table, log: seq<Msg>, records: set<nat>)
    requires DistinctKeys(log) && forall i :: i in records ==> i < |log|
    requires IsTableOf(t, log, records)
    ensures |t| == |records|
    decreases records
  {
    if records != {} {
      var r :| r in records;
      DropRecord(t, log, records, r);
      OneRowPerRecord(t - {KeyOf(log[r])}, log, records - {r});
    }
  }

  lemma {:induction false} DropRecord(t: Table, log: seq<Msg>, records: set<nat>, r: nat)
    requires DistinctKeys(log) && forall i :: i in records ==> i < |log|
    requires r in records && IsTableOf(t, log, records)
    ensures |t| == |t - {KeyOf(log[r])}| + 1
    ensures IsTableOf(t - {KeyOf(log[r])}, log, records - {r})
  {
    var rest := t - {KeyOf(log[r])};
    assert forall i :: i in records && i != r ==> KeyOf(log[i]) != KeyOf(log[r]);
    assert rest.Keys == t.Keys - {KeyOf(log[r])};
    assert |t.Keys| == |rest.Keys| + 1;
  }

  class PostgresMessage {
    var rows: Table

    constructor ()
      ensures rows == map[]
    {
      rows := map[];
    }

    /** `reached` says that the statement ran; the caller may still see an error. */
    method SaveMessage(message: Msg, reached: bool, answered: bool) returns (r: Result<()>)
      modifies this
      ensures rows == if reached then Insert(old(rows), message) else old(rows)
      ensures r.Ok? <==> reached && answered
      ensures var key := Key(message.sendId, message.serverId, message.sendTime);
              && (forall k :: k != key ==> (k in rows <==> k in old(rows)) && (k in rows ==> rows[k] == old(rows)[k]))
              && (key in old(rows) || !reached ==> rows == old(rows))
              && (key !in old(rows) && reached ==>
                    && key in rows
                    && rows[key].localId == message.localId && rows[key].serverId == message.serverId
                    && rows[key].sendId == message.sendId && rows[key].receiverId == message.receiverId
                    && rows[key].msgType == message.msgType && rows[key].contentType == message.contentType
                    && rows[key].content == message.content && rows[key].sendTime == message.sendTime)
    {
      if !reached {
        return Err("pool error");
      }
      if KeyOf(message) !in rows {
        rows := rows[KeyOf(message) := RowOf(message)];
      }
      r := if answered then Ok(()) else Err("connection error");
    }
  }
}
