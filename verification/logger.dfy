/**
 * The processor's logging setup (processor/logger.py): a `processor`
 * logger at DEBUG feeding a console handler at DEBUG and a database
 * handler at WARNING, whose `emit` writes one row into the `logs` table
 * and tags it with the file of a cached metadata object once.
 */
module Logger {
  import opened Wrappers
  import opened Supabase
  import Auth

  /** The standard `logging` level numbers used here. */
  const DEBUG := 10
  const WARNING := 30

  /** Thresholds set at import: the logger, the console handler and the database handler. */
  const LOGGER_LEVEL := DEBUG
  const CONSOLE_LEVEL := DEBUG
  const DATABASE_LEVEL := WARNING

  datatype Sink = Console | Database

  /**
   * Where a record of level `level` logged on `processor` ends up: the
   * logger lets it through when it reaches the logger's level, and each
   * handler takes it when it reaches the handler's own level.
   */
  function Sinks(level: int): (r: set<Sink>)
    ensures Console in r <==> level >= DEBUG
    ensures Database in r <==> level >= WARNING
    ensures Database in r ==> Console in r
  {
    if level < LOGGER_LEVEL then {}
    else (if level >= CONSOLE_LEVEL then {Console} else {}) + (if level >= DATABASE_LEVEL then {Database} else {})
  }

  /** The parts of a `logging.LogRecord` the database handler reads; `formatted` is `self.format(record)`. */
  datatype Record = Record(name: string, levelName: string, levelNo: int, formatted: string,
                           fileName: string, lineNo: int)

  /** The columns every log row has. */
  const BASE_COLUMNS: set<string> := {"name", "level", "message", "origin", "origin_line", "user_id"}

  /**
   * The row `emit` inserts: the record's name, level name, formatted
   * message, file and line; the file id of the cached metadata when there
   * is one; and the user id, null when unknown.
   */
  function LogRow(record: Record, cached: Option<Metadata>, userId: Option<string>): (row: Row)
    ensures row.Keys == BASE_COLUMNS + (if cached.Some? then {"file_id"} else {})
    ensures row["name"] == Str(record.name) && row["level"] == Str(record.levelName)
    ensures row["message"] == Str(record.formatted)
    ensures row["origin"] == Str(record.fileName) && row["origin_line"] == Int(record.lineNo)
    ensures cached.Some? ==> row["file_id"] == Str(cached.value.fileId)
    ensures row["user_id"] == if userId.Some? then Str(userId.value) else Null
  {
    var base := map["name" := Str(record.name), "level" := Str(record.levelName),
                    "message" := Str(record.formatted), "origin" := Str(record.fileName),
                    "origin_line" := Int(record.lineNo)];
    var tagged := if cached.Some? then base["file_id" := Str(cached.value.fileId)] else base;
    tagged["user_id" := if userId.Some? then Str(userId.value) else Null]
  }

  /**
   * The requests one `emit` sends: the authentication of
   * `supabase_client()` at `now`, the one `get_user_id()` makes at `later`
   * when no user id is cached, and the insert through the client opened
   * with the access token of the first.
   */
  function EmitRequests(s: Auth.Tokens, userId: Option<string>, now: int, first: Session, later: int, row: Row)
    : (r: seq<Call>)
    requires Auth.Consistent(s)
    ensures |r| >= 1 && r[|r| - 1] == Insert(Auth.Next(s, now, first).access, "logs", row)
    ensures |r| <= 3
  {
    Auth.Requests(s, now)
    + (if userId.None? then Auth.Requests(Auth.Next(s, now, first), later) else [])
    + [Insert(Auth.Next(s, now, first).access, "logs", row)]
  }

  /** `SupabaseHandler`: a `logging.Handler` that writes records into the logs table. */
  class SupabaseHandler {
    /** Metadata whose file id tags the next row written. */
    var lastMetadata: Option<Metadata>

    constructor ()
      ensures lastMetadata == None
    {
      lastMetadata := None;
    }

    /**
     * `emit(record)`: build the row, consuming the cached metadata, open an
     * authenticated client, look up the user id and insert the row once.
     * `first` and `second` are what the service answers to the
     * authentications at `now` and `later`.
     */
    method Emit(record: Record, tokens: Auth.TokenCache, client: Client,
                now: int, first: Session, later: int, second: Session)
      requires tokens.Valid()
      modifies this, tokens, client
      ensures lastMetadata == None
      ensures tokens.Valid() && tokens.userId == old(tokens.userId)
      ensures var s1 := Auth.Next(old(tokens.State()), now, first);
              tokens.State() == if old(tokens.userId).None? then Auth.Next(s1, later, second) else s1
      ensures client.logs == old(client.logs) + [LogRow(record, old(lastMetadata), old(tokens.userId))]
      ensures client.calls == old(client.calls)
                            + EmitRequests(old(tokens.State()), old(tokens.userId), now, first, later,
                                           LogRow(record, old(lastMetadata), old(tokens.userId)))
      ensures client.metadata == old(client.metadata)
    {
      ghost var calls0, s0, userId0 := client.calls, tokens.State(), tokens.userId;
      var log := map["name" := Str(record.name), "level" := Str(record.levelName),
                     "message" := Str(record.formatted), "origin" := Str(record.fileName),
                     "origin_line" := Int(record.lineNo)];
      ghost var cached := lastMetadata;
      if lastMetadata.Some? {
        log := log["file_id" := Str(lastMetadata.value.fileId)];
        lastMetadata := None;
      }

      var token := tokens.SupabaseClient(now, first, client);
      ghost var opening := Auth.Requests(s0, now);
      ghost var lookup := if userId0.None? then Auth.Requests(tokens.State(), later) else [];
      var userId := tokens.GetUserId(later, second, client);
      assert client.calls == calls0 + opening + lookup;
      log := log["user_id" := if userId.Some? then Str(userId.value) else Null];
      assert log == LogRow(record, cached, userId0);
      client.InsertRow(token, "logs", log);
      AppendThree(calls0, opening, lookup, [Insert(token, "logs", log)]);
    }
  }
}
