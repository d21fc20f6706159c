/**
 * The Supabase project the processor talks to, seen from the processor: the
 * metadata table, the logs table, and the ordered list of every request the
 * processor sends (logins, refreshes, selects, updates, inserts), each
 * with the access token of the client it went through. The calls the
 * processor makes into the raster libraries are kept in the same list, so
 * that their order relative to the requests is observable. Network behaviour,
 * latency and failures of the service itself are not modelled; the answers
 * of the authentication service are passed in.
 */
module Supabase {
  import opened Wrappers
  import opened Geometry
  import Resample

  /** `StatusEnum` of a metadata row. */
  datatype Status = Pending | Processing | Processed | Errored

  /**
   * A row of the metadata table (`FileUploadMetadata`), restricted to the
   * columns the processor reads or writes.
   */
  datatype Metadata = Metadata(
    uuid: string,
    fileId: string,
    targetPath: string,
    processedPath: Option<string>,
    status: Status,
    bbox: Option<Bounds>,
    compressTime: Option<real>)

  /** A column value of an untyped row, as inserted into the logs table. */
  datatype Value = Str(s: string) | Int(n: int) | Null

  type Row = map<string, Value>

  /** What `login` and `refresh_session` hand back. */
  datatype Session = Session(accessToken: string, refreshToken: string, userId: string)

  /**
   * One request sent to the service, or one call into the raster libraries
   * (`RasterStep`). All requests but the login go through a client opened
   * with `use_client(token)`, and carry that token.
   */
  datatype Call =
    | Login
    | RefreshSession(token: Option<string>, refreshToken: string)
    | SelectWithStatus(token: Option<string>, status: Status)
    | SelectSingle(token: Option<string>, uuid: string)
    | UpdateStatus(token: Option<string>, uuid: string, status: Status)
    | UpdateRow(token: Option<string>, uuid: string, record: Metadata)
    | Insert(token: Option<string>, table: string, row: Row)
    | RasterStep(step: Resample.RasterCall)

  /** `.single()` found no row, or more than one, for the key. */
  datatype Error = NotExactlyOneRow(uuid: string)

  /** The rows of `rows` whose status is `status`, in table order (`.eq("status", …)`). */
  function WithStatus(rows: seq<Metadata>, status: Status): (r: seq<Metadata>)
    ensures |r| <= |rows|
    ensures forall m :: m in r <==> m in rows && m.status == status
  {
    if rows == [] then []
    else (if rows[0].status == status then [rows[0]] else []) + WithStatus(rows[1..], status)
  }

  /** The status filter keeps each matching row as often as the table holds it, and no other row. */
  lemma {:induction false} WithStatusCounts(rows: seq<Metadata>, status: Status)
    ensures forall m: Metadata :: multiset(WithStatus(rows, status))[m]
                                  == if m.status == status then multiset(rows)[m] else 0
  {
    if rows != [] {
      WithStatusCounts(rows[1..], status);
      assert rows == [rows[0]] + rows[1..];
    }
  }

  /** The rows of `rows` keyed by `uuid`, in table order (`.eq("uuid", …)`). */
  function Keyed(rows: seq<Metadata>, uuid: string): (r: seq<Metadata>)
    ensures |r| <= |rows|
    ensures forall m :: m in r <==> m in rows && m.uuid == uuid
  {
    if rows == [] then []
    else (if rows[0].uuid == uuid then [rows[0]] else []) + Keyed(rows[1..], uuid)
  }

  /** `.eq("uuid", uuid).single()`: the one row with that key, or an error. */
  function Single(rows: seq<Metadata>, uuid: string): (r: Result<Metadata, Error>)
    ensures r.Ok? ==> r.value in rows && r.value.uuid == uuid
    ensures r.Ok? ==> forall m :: m in rows && m.uuid == uuid ==> m == r.value
    ensures (forall m :: m in rows ==> m.uuid != uuid) ==> r == Err(NotExactlyOneRow(uuid))
    ensures r.Ok? <==> |Keyed(rows, uuid)| == 1
    ensures |Keyed(rows, uuid)| == 1 ==> r == Ok(Keyed(rows, uuid)[0])
    ensures r.Err? ==> r == Err(NotExactlyOneRow(uuid))
  {
    var keyed := Keyed(rows, uuid);
    if |keyed| == 1 then Ok(keyed[0]) else Err(NotExactlyOneRow(uuid))
  }

  /** `.update({"status": status}).eq("uuid", uuid)`: sets one column of every keyed row. */
  function SetStatus(rows: seq<Metadata>, uuid: string, status: Status): (r: seq<Metadata>)
    ensures |r| == |rows|
    ensures forall i :: 0 <= i < |rows| ==>
              r[i] == if rows[i].uuid == uuid then rows[i].(status := status) else rows[i]
  {
    if rows == [] then []
    else [if rows[0].uuid == uuid then rows[0].(status := status) else rows[0]] + SetStatus(rows[1..], uuid, status)
  }

  /** `.update(row).eq("uuid", uuid)` with a complete row: every keyed row becomes `row`. */
  function Replace(rows: seq<Metadata>, uuid: string, row: Metadata): (r: seq<Metadata>)
    ensures |r| == |rows|
    ensures forall i :: 0 <= i < |rows| ==> r[i] == if rows[i].uuid == uuid then row else rows[i]
  {
    if rows == [] then []
    else [if rows[0].uuid == uuid then row else rows[0]] + Replace(rows[1..], uuid, row)
  }

  /** The rows `rows` with their status column set to `status`. */
  function Restatus(rows: seq<Metadata>, status: Status): (r: seq<Metadata>)
    ensures |r| == |rows|
  {
    if rows == [] then [] else [rows[0].(status := status)] + Restatus(rows[1..], status)
  }

  /** Updating the status column of a key touches exactly the rows the key selects. */
  lemma {:induction false} KeyedAfterSetStatus(rows: seq<Metadata>, uuid: string, status: Status)
    ensures Keyed(SetStatus(rows, uuid, status), uuid) == Restatus(Keyed(rows, uuid), status)
  {
    if rows != [] {
      var updated := SetStatus(rows, uuid, status);
      KeyedAfterSetStatus(rows[1..], uuid, status);
      assert updated[1..] == SetStatus(rows[1..], uuid, status);
      if rows[0].uuid == uuid {
        assert Keyed(rows, uuid) == [rows[0]] + Keyed(rows[1..], uuid);
        assert Keyed(updated, uuid) == [rows[0].(status := status)] + Keyed(updated[1..], uuid);
      } else {
        assert Keyed(rows, uuid) == Keyed(rows[1..], uuid);
        assert Keyed(updated, uuid) == Keyed(updated[1..], uuid);
      }
    }
  }

  /** After a status update, `.single()` finds the same row with the new status. */
  lemma SingleAfterSetStatus(rows: seq<Metadata>, uuid: string, status: Status)
    ensures Single(SetStatus(rows, uuid, status), uuid)
         == if Single(rows, uuid).Ok? then Ok(Single(rows, uuid).value.(status := status))
            else Single(rows, uuid)
  {
    KeyedAfterSetStatus(rows, uuid, status);
  }

  /** Writing a complete row under its own key makes every keyed row that row. */
  lemma {:induction false} KeyedAfterReplace(rows: seq<Metadata>, uuid: string, row: Metadata)
    requires row.uuid == uuid
    ensures |Keyed(Replace(rows, uuid, row), uuid)| == |Keyed(rows, uuid)|
    ensures forall m :: m in Keyed(Replace(rows, uuid, row), uuid) ==> m == row
  {
    if rows != [] {
      KeyedAfterReplace(rows[1..], uuid, row);
      assert Replace(rows, uuid, row)[1..] == Replace(rows[1..], uuid, row);
    }
  }

  /** Read-back: after writing a complete row under a key that held one row, `.single()` returns it. */
  lemma SingleAfterReplace(rows: seq<Metadata>, uuid: string, row: Metadata)
    requires row.uuid == uuid && Single(rows, uuid).Ok?
    ensures Single(Replace(rows, uuid, row), uuid) == Ok(row)
  {
    KeyedAfterReplace(rows, uuid, row);
    var keyed := Keyed(Replace(rows, uuid, row), uuid);
    assert keyed[0] in keyed;
  }

  /** A key no row holds selects nothing. */
  lemma KeyedAbsent(rows: seq<Metadata>, uuid: string)
    requires forall j :: 0 <= j < |rows| ==> rows[j].uuid != uuid
    ensures Keyed(rows, uuid) == []
  {
  }

  /** A key held by exactly the row at index `i` selects that row alone. */
  lemma {:induction false} KeyedUnique(rows: seq<Metadata>, uuid: string, i: int)
    requires 0 <= i < |rows| && rows[i].uuid == uuid
    requires forall j :: 0 <= j < |rows| && j != i ==> rows[j].uuid != uuid
    ensures Keyed(rows, uuid) == [rows[i]]
  {
    if i == 0 {
      KeyedAbsent(rows[1..], uuid);
    } else {
      KeyedUnique(rows[1..], uuid, i - 1);
    }
  }

  /** `.single()` answers the row whose key no other row shares. */
  lemma SingleOfUniqueKey(rows: seq<Metadata>, uuid: string, i: int)
    requires 0 <= i < |rows| && rows[i].uuid == uuid
    requires forall j :: 0 <= j < |rows| && j != i ==> rows[j].uuid != uuid
    ensures Single(rows, uuid) == Ok(rows[i])
  {
    KeyedUnique(rows, uuid, i);
  }

  /** Two rows under one key are both selected. */
  lemma {:induction false} KeyedTwice(rows: seq<Metadata>, uuid: string, i: int, j: int)
    requires 0 <= i < j < |rows| && rows[i].uuid == uuid && rows[j].uuid == uuid
    ensures |Keyed(rows, uuid)| >= 2
  {
    if i == 0 {
      assert rows[j] in rows[1..];
      assert rows[j] in Keyed(rows[1..], uuid);
    } else {
      KeyedTwice(rows[1..], uuid, i - 1, j - 1);
    }
  }

  /** `.single()` fails on a key that two rows share. */
  lemma SingleOfSharedKey(rows: seq<Metadata>, uuid: string, i: int, j: int)
    requires 0 <= i < j < |rows| && rows[i].uuid == uuid && rows[j].uuid == uuid
    ensures Single(rows, uuid) == Err(NotExactlyOneRow(uuid))
  {
    KeyedTwice(rows, uuid, i, j);
  }

  /** Three batches of requests sent one after the other extend the trace by all three, in order. */
  lemma AppendThree<T>(s: seq<T>, a: seq<T>, b: seq<T>, c: seq<T>)
    ensures s + a + b + c == s + (a + b + c)
  {
  }

  /** The client side of the Supabase project: its two tables and every request received. */
  class Client {
    var metadata: seq<Metadata>
    var logs: seq<Row>
    var calls: seq<Call>

    constructor (metadata: seq<Metadata>)
      ensures this.metadata == metadata && logs == [] && calls == []
    {
      this.metadata := metadata;
      logs := [];
      calls := [];
    }

    /** `login(username, password)`; the service answers with `answer`. */
    method LogIn(answer: Session) returns (session: Session)
      modifies this
      ensures session == answer
      ensures calls == old(calls) + [Login]
      ensures metadata == old(metadata) && logs == old(logs)
    {
      calls := calls + [Login];
      session := answer;
    }

    /** `client.auth.refresh_session(refreshToken)` on a client opened with `token`; the service answers with `answer`. */
    method Refresh(token: Option<string>, refreshToken: string, answer: Session) returns (session: Session)
      modifies this
      ensures session == answer
      ensures calls == old(calls) + [RefreshSession(token, refreshToken)]
      ensures metadata == old(metadata) && logs == old(logs)
    {
      calls := calls + [RefreshSession(token, refreshToken)];
      session := answer;
    }

    /** `.select("uuid").eq("status", status)` on the metadata table. */
    method SelectStatus(token: Option<string>, status: Status) returns (rows: seq<Metadata>)
      modifies this
      ensures rows == WithStatus(metadata, status)
      ensures calls == old(calls) + [SelectWithStatus(token, status)]
      ensures metadata == old(metadata) && logs == old(logs)
    {
      calls := calls + [SelectWithStatus(token, status)];
      rows := WithStatus(metadata, status);
    }

    /** `.select("*").eq("uuid", uuid).single()` on the metadata table. */
    method SelectOne(token: Option<string>, uuid: string) returns (r: Result<Metadata, Error>)
      modifies this
      ensures r == Single(metadata, uuid)
      ensures calls == old(calls) + [SelectSingle(token, uuid)]
      ensures metadata == old(metadata) && logs == old(logs)
    {
      calls := calls + [SelectSingle(token, uuid)];
      r := Single(metadata, uuid);
    }

    /** `.update({"status": status}).eq("uuid", uuid)` on the metadata table. */
    method WriteStatus(token: Option<string>, uuid: string, status: Status)
      modifies this
      ensures metadata == SetStatus(old(metadata), uuid, status)
      ensures calls == old(calls) + [UpdateStatus(token, uuid, status)]
      ensures logs == old(logs)
    {
      calls := calls + [UpdateStatus(token, uuid, status)];
      metadata := SetStatus(metadata, uuid, status);
    }

    /** `.update(row).eq("uuid", uuid)` with a complete row of the metadata table. */
    method WriteRow(token: Option<string>, uuid: string, row: Metadata)
      modifies this
      ensures metadata == Replace(old(metadata), uuid, row)
      ensures calls == old(calls) + [UpdateRow(token, uuid, row)]
      ensures logs == old(logs)
    {
      calls := calls + [UpdateRow(token, uuid, row)];
      metadata := Replace(metadata, uuid, row);
    }

    /** `.table(table).insert(row)`; only the logs table is modelled. */
    method InsertRow(token: Option<string>, table: string, row: Row)
      modifies this
      ensures calls == old(calls) + [Insert(token, table, row)]
      ensures logs == if table == "logs" then old(logs) + [row] else old(logs)
      ensures metadata == old(metadata)
    {
      calls := calls + [Insert(token, table, row)];
      if table == "logs" {
        logs := logs + [row];
      }
    }

    /** A call into the raster libraries, entered in the trace between the requests around it. */
    method RecordRaster(step: Resample.RasterCall)
      modifies this
      ensures calls == old(calls) + [RasterStep(step)]
      ensures metadata == old(metadata) && logs == old(logs)
    {
      calls := calls + [RasterStep(step)];
    }
  }
}
