/**
 * The per-file pipeline of `processor/handler.py`: list the pending uploads,
 * load one metadata row behind an authentication, mark it `processing`,
 * resample it, read the bounding box of the result, and write the working
 * copy back. The resample call and the reopening of its output are passed in
 * as their outcomes; the clock readings around the resample are parameters.
 */
module Handler {
  import opened Wrappers
  import opened Geometry
  import opened Supabase
  import Auth
  import Resample

  /** `settings.processed_path / name`. */
  function JoinPath(root: string, name: string): (path: string)
    ensures |path| == |root| + 1 + |name|
    ensures path[..|root|] == root && path[|root|] == '/' && path[|root| + 1..] == name
  {
    root + "/" + name
  }

  /** `[row['uuid'] for row in rows]`. */
  function Uuids(rows: seq<Metadata>): (uuids: seq<string>)
    ensures |uuids| == |rows| && forall i :: 0 <= i < |rows| ==> uuids[i] == rows[i].uuid
  {
    seq(|rows|, i requires 0 <= i < |rows| => rows[i].uuid)
  }

  /** The pending list names exactly the uuids of the pending rows, once per row. */
  lemma PendingUuidsArePendingRows(table: seq<Metadata>, u: string)
    ensures |Uuids(WithStatus(table, Pending))| == |WithStatus(table, Pending)|
    ensures u in Uuids(WithStatus(table, Pending)) <==> exists m :: m in table && m.status == Pending && m.uuid == u
  {
    var rows := WithStatus(table, Pending);
    if u in Uuids(rows) {
      var i :| 0 <= i < |rows| && Uuids(rows)[i] == u;
      assert rows[i] in rows;
    }
    if exists m :: m in table && m.status == Pending && m.uuid == u {
      var m :| m in table && m.status == Pending && m.uuid == u;
      assert m in rows;
      var i :| 0 <= i < |rows| && rows[i] == m;
      assert Uuids(rows)[i] == u;
    }
  }

  /**
   * The pending list is one uuid per selected row, in order, and the
   * selection holds each pending row of the table exactly as often as the
   * table does: no row is dropped or repeated.
   */
  lemma PendingListIsOnePerPendingRow(table: seq<Metadata>)
    ensures var rows := WithStatus(table, Pending);
            && |Uuids(rows)| == |rows|
            && (forall i :: 0 <= i < |rows| ==> Uuids(rows)[i] == rows[i].uuid)
            && (forall m: Metadata :: m.status == Pending ==> multiset(rows)[m] == multiset(table)[m])
            && (forall m: Metadata :: m.status != Pending ==> m !in multiset(rows))
  {
    WithStatusCounts(table, Pending);
  }

  /**
   * The working copy after the pipeline: `processing`, then `errored` if the
   * resample raised or, after a successful resample, the output could not be
   * reopened; the elapsed time always; the bbox only from a successful reopening.
   */
  function Bookkeeping(loaded: Metadata, resampled: bool, reopened: Option<Bounds>, elapsed: real): (m: Metadata)
    ensures m.uuid == loaded.uuid && m.fileId == loaded.fileId && m.targetPath == loaded.targetPath
    ensures m.processedPath == loaded.processedPath
    ensures m.compressTime == Some(elapsed)
    ensures m.status == Errored <==> !resampled || reopened.None?
    ensures m.status == Processing <==> resampled && reopened.Some?
    ensures resampled && reopened.Some? ==> m.bbox == reopened
    ensures !(resampled && reopened.Some?) ==> m.bbox == loaded.bbox
  {
    var working := loaded.(status := Processing);
    var afterResample := (if resampled then working else working.(status := Errored)).(compressTime := Some(elapsed));
    if afterResample.status == Errored then afterResample
    else match reopened
      case Some(b) => afterResample.(bbox := Some(b))
      case None => afterResample.(status := Errored)
  }

  /** As written no run ends `processed`: a successful run ends `processing`. */
  lemma NeverProcessed(loaded: Metadata, resampled: bool, reopened: Option<Bounds>, elapsed: real)
    ensures Bookkeeping(loaded, resampled, reopened, elapsed).status != Processed
    ensures resampled && reopened.Some? ==> Bookkeeping(loaded, resampled, reopened, elapsed).status == Processing
  {
  }

  /** `list_pending_uuids()`: an unauthenticated select of the pending rows, projected to their uuids. */
  method ListPendingUuids(client: Client) returns (uuids: seq<string>)
    modifies client
    ensures uuids == Uuids(WithStatus(old(client.metadata), Pending))
    ensures client.calls == old(client.calls) + [SelectWithStatus(None, Pending)]
    ensures client.metadata == old(client.metadata) && client.logs == old(client.logs)
  {
    var response := client.SelectStatus(None, Pending);
    uuids := Uuids(response);
  }

  /** `get_metadata(uuid)`: authenticate first, then read the one row with that uuid. */
  method GetMetadata(uuid: string, now: int, answer: Session, tokens: Auth.TokenCache, client: Client)
    returns (r: Result<Metadata, Error>)
    requires tokens.Valid()
    modifies tokens, client
    ensures tokens.Valid() && tokens.userId == old(tokens.userId)
    ensures tokens.State() == Auth.Next(old(tokens.State()), now, answer)
    ensures r == Single(client.metadata, uuid)
    ensures client.calls == old(client.calls) + Auth.Requests(old(tokens.State()), now)
                            + [SelectSingle(tokens.accessToken, uuid)]
    ensures client.metadata == old(client.metadata) && client.logs == old(client.logs)
  {
    var _ := tokens.Authenticate(now, answer, client);
    r := client.SelectOne(tokens.accessToken, uuid);
  }

  /**
   * The raster calls of the stages: the resample of `targetPath` into
   * `output` at the default factor, then the reopening of `output` unless the
   * resample raised.
   */
  function Stages(targetPath: string, output: string, resampleRaises: bool): seq<Call>
  {
    [RasterStep(Resample.ResampleFile(targetPath, output, Resample.Ratio(Resample.DEFAULT_SCALE_FACTOR)))]
    + (if resampleRaises then [] else [RasterStep(Resample.OpenRaster(output))])
  }

  /** In a run the status write comes first, the resample next, and the record write last. */
  lemma ProcessingWrittenBeforeResample(uuid: string, token: Option<string>, targetPath: string, output: string,
                                        resampleRaises: bool, record: Metadata)
    ensures var t := Run(uuid, token, targetPath, output, resampleRaises, record);
            && |t| == (if resampleRaises then 3 else 4)
            && t[0] == UpdateStatus(token, uuid, Processing)
            && t[1] == RasterStep(Resample.ResampleFile(targetPath, output, Resample.Ratio(Resample.DEFAULT_SCALE_FACTOR)))
            && t[|t| - 1] == UpdateRow(token, uuid, record)
            && (!resampleRaises ==> t[2] == RasterStep(Resample.OpenRaster(output)))
  {
  }

  /**
   * The resample and bbox stages on the working copy: resample into `output`
   * (raising when `resampleRaises`), record the elapsed time either way, and
   * reopen the output only when nothing has failed yet. Each raster call is
   * entered in the client's trace as it is made.
   */
  method RunStages(working: Metadata, output: string, resampleRaises: bool, reopened: Option<Bounds>, t1: real, t2: real,
                   client: Client)
    returns (m: Metadata)
    requires working.status == Processing
    modifies client
    ensures m == Bookkeeping(working, !resampleRaises, reopened, t2 - t1)
    ensures client.calls == old(client.calls) + Stages(working.targetPath, output, resampleRaises)
    ensures client.metadata == old(client.metadata) && client.logs == old(client.logs)
  {
    m := working;
    client.RecordRaster(Resample.ResampleFile(m.targetPath, output, Resample.Ratio(Resample.DEFAULT_SCALE_FACTOR)));
    if resampleRaises {
      m := m.(status := Errored);
    }
    m := m.(compressTime := Some(t2 - t1));

    if m.status != Errored {
      client.RecordRaster(Resample.OpenRaster(output));
      match reopened {
        case Some(b) =>
          m := m.(bbox := Some(b));
        case None =>
          m := m.(status := Errored);
      }
    }
  }

  /**
   * `preprocess_file(uuid)` with the handler's token globals `tokens`. The
   * resample call raises when `resampleRaises`; reopening its output yields
   * `reopened` (None: it raised); `t1` and `t2` are the clock readings around
   * the resample.
   */
  method PreprocessFile(uuid: string, now: int, answer: Session, tokens: Auth.TokenCache, client: Client,
                        processedRoot: string, resampleRaises: bool, reopened: Option<Bounds>, t1: real, t2: real)
    returns (r: Result<Metadata, Error>)
    requires tokens.Valid()
    modifies tokens, client
    ensures tokens.Valid() && tokens.userId == old(tokens.userId)
    ensures tokens.State() == Auth.Next(old(tokens.State()), now, answer)
    // a failed lookup aborts the run before anything is written or resampled
    ensures r.Err? ==> r == Single(old(client.metadata), uuid)
    ensures r.Err? ==> client.metadata == old(client.metadata)
    ensures r.Err? ==> client.calls == old(client.calls) + Auth.Requests(old(tokens.State()), now)
                                       + [SelectSingle(tokens.accessToken, uuid)]
    ensures r.Ok? ==> Single(old(client.metadata), uuid).Ok?
    ensures r.Ok? ==>
              var loaded := Single(old(client.metadata), uuid).value;
              r.value == Bookkeeping(loaded, !resampleRaises, reopened, t2 - t1)
    // `processing` is written before the resample starts, the whole record after the last raster call
    ensures r.Ok? ==>
              var loaded := Single(old(client.metadata), uuid).value;
              client.calls == old(client.calls) + Auth.Requests(old(tokens.State()), now)
                              + [SelectSingle(tokens.accessToken, uuid)]
                              + Run(uuid, tokens.accessToken, loaded.targetPath, JoinPath(processedRoot, loaded.fileId),
                                    resampleRaises, r.value)
    ensures r.Ok? ==> Single(client.metadata, uuid) == Ok(r.value)
    // the table after a run: the keyed row marked `processing`, then replaced by the record
    ensures r.Ok? ==> client.metadata == Replace(SetStatus(old(client.metadata), uuid, Processing), uuid, r.value)
    ensures client.logs == old(client.logs)
  {
    var got := GetMetadata(uuid, now, answer, tokens, client);
    if got.Err? {
      return got;
    }
    var written := ProcessLoaded(uuid, got.value, tokens.accessToken, client, processedRoot, resampleRaises, reopened, t1, t2);
    r := Ok(written);
  }

  /**
   * The trace of a run that found its row: the status write, the raster
   * calls of the stages, then the write of the whole record.
   */
  function Run(uuid: string, token: Option<string>, targetPath: string, output: string, resampleRaises: bool,
               record: Metadata): seq<Call>
  {
    [UpdateStatus(token, uuid, Processing)] + Stages(targetPath, output, resampleRaises) + [UpdateRow(token, uuid, record)]
  }

  /**
   * First write of `process_file`: the row is marked as being processed,
   * through a client opened with `token`.
   */
  method MarkProcessing(uuid: string, loaded: Metadata, token: Option<string>, client: Client)
    returns (marked: Metadata)
    requires Single(client.metadata, uuid) == Ok(loaded)
    modifies client
    ensures marked == loaded.(status := Processing)
    ensures client.calls == old(client.calls) + [UpdateStatus(token, uuid, Processing)]
    ensures client.metadata == SetStatus(old(client.metadata), uuid, Processing)
    ensures Single(client.metadata, uuid) == Ok(marked)
    ensures client.logs == old(client.logs)
  {
    SingleAfterSetStatus(client.metadata, uuid, Processing);
    client.WriteStatus(token, uuid, Processing);
    marked := loaded.(status := Processing);
  }

  /** Last write of `process_file`: the whole row, through a client opened with `token`. */
  method WriteBack(uuid: string, record: Metadata, token: Option<string>, client: Client)
    requires Single(client.metadata, uuid).Ok? && record.uuid == uuid
    modifies client
    ensures client.calls == old(client.calls) + [UpdateRow(token, uuid, record)]
    ensures client.metadata == Replace(old(client.metadata), uuid, record)
    ensures Single(client.metadata, uuid) == Ok(record)
    ensures client.logs == old(client.logs)
  {
    SingleAfterReplace(client.metadata, uuid, record);
    client.WriteRow(token, uuid, record);
  }

  /**
   * The part of `preprocess_file` after the row `loaded` was found: write
   * `processing`, run the stages on the working copy, write the copy back.
   */
  method ProcessLoaded(uuid: string, loaded: Metadata, token: Option<string>, client: Client, processedRoot: string,
                       resampleRaises: bool, reopened: Option<Bounds>, t1: real, t2: real)
    returns (written: Metadata)
    requires Single(client.metadata, uuid) == Ok(loaded)
    modifies client
    ensures written == Bookkeeping(loaded, !resampleRaises, reopened, t2 - t1)
    ensures client.calls == old(client.calls)
                            + Run(uuid, token, loaded.targetPath, JoinPath(processedRoot, loaded.fileId), resampleRaises, written)
    ensures client.metadata == Replace(SetStatus(old(client.metadata), uuid, Processing), uuid, written)
    ensures Single(client.metadata, uuid) == Ok(written)
    ensures client.logs == old(client.logs)
  {
    ghost var calls0 := client.calls;
    var metadata := MarkProcessing(uuid, loaded, token, client);
    var output := JoinPath(processedRoot, metadata.fileId);
    metadata := RunStages(metadata, output, resampleRaises, reopened, t1, t2, client);
    WriteBack(uuid, metadata, token, client);
    written := metadata;
    AppendThree(calls0, [UpdateStatus(token, uuid, Processing)], Stages(loaded.targetPath, output, resampleRaises),
                [UpdateRow(token, uuid, written)]);
  }
}
