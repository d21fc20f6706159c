# upload-file-processor, modelled in Dafny

This project models the processing core of the Deadwood upload processor, whose
job is to take an uploaded GeoTIFF whose metadata row in Supabase is `pending`, resample
it to a coarser grid, put it on the EPSG:4326 grid, record the outcome in the
metadata row and register the processed raster as a WMS layer in the MapServer
mapfile. The processor logs what it does, both to the console and to a `logs`
table.

The Dafny modules follow the Python files:

- `Resample` (`resample.dfy`) models `processor/resample.py`. It covers the automatic scale factor and the clamp
  that stops it upsampling. It also covers the read shape, the choice between reprojecting
  and only rescaling the affine transform, and the write-options dict. Reading,
  warping and writing pixels are answers recorded in a `RasterIo` value.
- `Geometry` (`geometry.dfy`) holds the bounding-box and affine-transform
  values, and proves what composing and scaling transforms does to a pixel
  position.
- `Supabase` (`supabase.dfy`) models the service as the processor sees it. It holds the
  metadata table, the logs table and one ordered trace of every request sent,
  and each request carries the token of the client it went through. The calls
  into the raster libraries are entered in the same trace, so their order
  relative to the requests is part of each contract.
- `Auth` (`auth.dfy`) models `processor/auth.py`: the token cache (a class
  standing for the module globals), `authenticate_processor`,
  `supabase_client` and `get_user_id`. The same class stands for the token
  globals of `processor/handler.py`, whose `authenticate_processor`
  (`processor/handler.py:21-49`) takes the same branches.
- `Handler` (`handler.dfy`) models `processor/handler.py`: `list_pending_uuids`,
  `get_metadata` and `preprocess_file`, step by step on a working copy of the row.
- `Mapserver` (`mapserver.dfy`) models `processor/mapserver.py`: the layer
  dictionary, creating or extending the `layers` list of the mapfile, the
  single save, and the WMS URL.
- `Logger` (`logger.dfy`) models `processor/logger.py`: the level thresholds and
  `SupabaseHandler`. Its `emit` tags at most one row with the cached file
  id. It authenticates, then inserts exactly one row.

Behaviour worth noting, modelled as the code does it:

- No run ends `processed`. A run whose resample and reopening succeed ends
  `processing`, and any other run ends `errored` (`Handler.NeverProcessed`).
- The automatic factor is the finer ground resolution divided by the target
  resolution (0.04), as `processor/resample.py:26` computes it, not the target
  divided by the resolution.
- `preprocess_file` resamples `target_path` directly. It neither fetches nor
  puts files, and it sets neither `processed_path` nor a WMS source.
- `authenticate_processor` in `processor/auth.py` assigns `__USER_ID` without
  declaring it `global`, so the module-level user id is never set.
  `get_user_id` therefore authenticates and still answers None
  (`Auth.FreshUserId`), and every log row carries a null `user_id`.
- The JPEG quality goes under the key that is the `jpeg_quality` argument
  itself, not under `"jpeg_quality"` (`Resample.QualityKeyIsTheArgument`).
  That key is None or a number, so unpacking the options as keywords into
  `rasterio.open` raises `TypeError`: every call with compression 'jpeg', in
  any letter case, fails before anything is written
  (`Resample.KeywordsOnlyUnlessJpeg`, `Resample.Resample`). The handler never
  passes a compression, so the pipeline itself is not affected.
- The warp is handed the downsampled array together with the source's
  full-resolution transform, and a destination transform in the source
  system's units together with the destination system EPSG:4326
  (`Resample.WarpRequestFor`).
- The `crs` write option is the input's CRS even when the data was reprojected
  to EPSG:4326.
- A numeric scale factor is used as given, with no clamp and no sign check.

## Model

| member | source | states |
|---|---|---|
| Geometry.ApplyScale | processor/resample.py:75-76 | `Affine.scale(sx, sy)` moves pixel (col, row) to (sx·col, sy·row) |
| Geometry.ApplyCompose | processor/resample.py:74-76 | the product `t * u` puts every pixel where `t` puts the point `u` maps it to |
| Geometry.ApplyScaled | processor/resample.py:82-84 | `t * scale(sx, sy)` maps pixel (col, row) to where `t` maps (sx·col, sy·row) |
| Supabase.WithStatus | processor/handler.py:55 | the status filter keeps a row exactly when it is in the table with that status, and never adds rows |
| Supabase.WithStatusCounts | processor/handler.py:55 | the filter keeps each matching row exactly as often as the table holds it, and no other row |
| Supabase.Keyed | processor/handler.py:69 | the uuid filter keeps a row exactly when it is in the table under that uuid |
| Supabase.Single | processor/handler.py:69-70 | `.single()` succeeds exactly when the uuid selects one row, and then answers that row; otherwise it fails with the not-exactly-one error, in particular when the uuid is absent |
| Supabase.SetStatus | processor/handler.py:81 | a status update keeps the number and order of rows, sets the status of every row under the uuid and leaves every other row as it was |
| Supabase.Replace | processor/handler.py:108 | a whole-row update keeps the number and order of rows, turns every row under the uuid into the record and leaves every other row as it was |
| Supabase.KeyedAfterSetStatus | processor/handler.py:81 | the status update changes exactly the rows under the uuid, in order, and only their status |
| Supabase.SingleAfterSetStatus | processor/handler.py:80-82 | after the status update `.single()` finds the same row with the new status, matching the in-memory copy |
| Supabase.KeyedAfterReplace | processor/handler.py:107-108 | after writing a row under its own uuid, every row under that uuid is the written one and their number is kept |
| Supabase.SingleAfterReplace | processor/handler.py:107-108 | read-back: after the final write `.single()` returns exactly the written record |
| Supabase.KeyedUnique | processor/handler.py:69 | a uuid held by exactly one row selects that row alone |
| Supabase.KeyedAbsent | processor/handler.py:69 | a uuid no row holds selects nothing |
| Supabase.SingleOfUniqueKey | processor/handler.py:69-70 | `.single()` answers the row whose uuid no other row shares |
| Supabase.KeyedTwice | processor/handler.py:69 | two rows under one uuid are both selected |
| Supabase.SingleOfSharedKey | processor/handler.py:69-70 | `.single()` fails on a uuid two rows share |
| Supabase.Client.LogIn | processor/auth.py:25 | a login appends one `Login` request, answers the session and leaves the tables alone |
| Supabase.Client.Refresh | processor/auth.py:35-36 | a refresh appends one request carrying the client's token and the refresh token |
| Supabase.Client.SelectStatus | processor/handler.py:54-55 | the select answers the rows with the status and appends one request |
| Supabase.Client.SelectOne | processor/handler.py:67-70 | the single-row select answers `Single` of the table and appends one request |
| Supabase.Client.WriteStatus | processor/handler.py:80-81 | the status update changes the table as `SetStatus` and appends one request |
| Supabase.Client.WriteRow | processor/handler.py:107-108 | the row update changes the table as `Replace` and appends one request |
| Supabase.Client.InsertRow | processor/logger.py:37 | an insert into `logs` appends the row to the logs table and one request to the trace |
| Supabase.Client.RecordRaster | processor/handler.py:89-101 | a raster call is appended to the trace after the requests sent before it, and the tables are untouched |
| Auth.Decide | processor/auth.py:23-46 | log in exactly when a token is missing; refresh exactly when both are present and strictly more than 2700 s old; otherwise keep |
| Auth.Next | processor/auth.py:23-46 | afterwards both tokens and the issue time are set; the cache is unchanged exactly when kept, and otherwise holds the answer's tokens issued now |
| Auth.Requests | processor/auth.py:25-36 | a login sends one login request; a refresh sends one request through the old access token with the cached refresh token; keeping sends nothing |
| Auth.AuthenticateIsIdempotent | processor/auth.py:44-46 | a second authentication at the same instant keeps the tokens and sends nothing |
| Auth.KeptWithinLifetime | processor/auth.py:34 | up to and including 2700 s after issue the tokens are kept: the comparison is strict |
| Auth.RefreshedAfterLifetime | processor/auth.py:34-36 | one second past the lifetime a refresh runs with the cached tokens |
| Auth.TokenCache.constructor | processor/auth.py:10-13 | at import every global is None |
| Auth.TokenCache.Authenticate | processor/auth.py:16-46 | the cache moves to `Next`, the requests of `Requests` are sent, the user id is untouched |
| Auth.TokenCache.SupabaseClient | processor/auth.py:49-56 | authenticates first and opens the client with the access token as it is afterwards, never None |
| Auth.TokenCache.GetUserId | processor/auth.py:59-63 | authenticates only when no user id is cached, and answers the cached id |
| Auth.FreshUserId | processor/auth.py:59-63 | from import, `get_user_id` logs in and still answers None |
| Resample.Lower | processor/resample.py:47 | `lower()` maps each character, keeping the length |
| Resample.Upper | processor/resample.py:99 | `upper()` maps each character, keeping the length |
| Resample.IsAuto | processor/resample.py:47 | only four-character strings beginning with 'a' and ending with 'o' in either case are accepted |
| Resample.AutoIgnoresCase | processor/resample.py:47 | 'auto' is recognised in any letter case, and only 'auto' |
| Resample.Trunc | processor/resample.py:60-61 | `int()` truncates toward zero |
| Resample.GroundBounds | processor/resample.py:13-19 | the input's own bounds when it is in the reference system, the transformed bounds otherwise |
| Resample.AutoScaleFactor | processor/resample.py:11-26 | the factor is one of the two axis resolutions over the target, and the smaller of them |
| Resample.AutoScaleIgnoresProjectionInReference | processor/resample.py:13-19 | an input already in EPSG:3857 is measured on its own bounds |
| Resample.EffectiveScale | processor/resample.py:46-54 | a number passes unchanged; a string is accepted exactly when it is 'auto', and otherwise fails with the scale-factor error; the automatic factor is capped at 1.0 |
| Resample.AutoKeepsCoarseRasters | processor/resample.py:48-52 | an input at least as coarse as the target on both axes keeps factor 1.0 |
| Resample.OutShape | processor/resample.py:57-62 | the read keeps the band count, and for a non-negative factor each dimension is the source's times the factor, rounded down |
| Resample.OutShapeWithinSource | processor/resample.py:57-62 | with a factor in [0, 1] the read keeps the band count and floors each dimension within the source's |
| Resample.DefaultOutShape | processor/resample.py:32 | the default factor 1/10 divides each dimension by ten, rounding down |
| Resample.Rescaled | processor/resample.py:75-84 | the rescaled transform keeps the origin and stretches the column axis by width/cols and the row axis by height/rows |
| Resample.RescaledPixel | processor/resample.py:74-76 | output pixel (col, row) lands where source pixel (col·w/cols, row·h/rows) does |
| Resample.RescaledCoversSource | processor/resample.py:82-84 | the rescaled grid has the same origin and far corner as the source |
| Resample.ChooseScale | processor/resample.py:46-54 | the imperative scale choice computes `EffectiveScale` |
| Resample.BuildWriteOptions | processor/resample.py:87-101 | the dict holds the seven keyword entries; `compress` is there exactly when given, upper-cased; the quality entry is there exactly for 'jpeg' in any case, with value the quality or 90; there are no other keys |
| Resample.IsJpeg | processor/resample.py:100 | only a four-character compression beginning with 'j' and ending with 'g' in either case counts as JPEG |
| Resample.KeywordsOnly | processor/resample.py:104 | options that unpack as keywords hold no quality entry under any key |
| Resample.WarpRequestFor | processor/resample.py:69-79 | the warp goes from the source system with the full-resolution source transform to EPSG:4326 at the rescaled transform, for the array read, with the given method |
| Resample.WrittenSize | processor/resample.py:69-90 | the written array has the warp's rows and columns when reprojected, and the read shape's otherwise |
| Resample.PlaceOnGrid | processor/resample.py:66-84 | reprojects exactly when the input is not EPSG:4326, sending the warp the request of `WarpRequestFor`; otherwise only rescales |
| Resample.Resample | processor/resample.py:29-109 | errors for a bad scale string, an empty read shape, and (always) for JPEG compression, whose quality key is not a keyword; otherwise the chosen factor, its read shape, the reprojection decision, the transform, the write options for the written array, and the bounds of the reopened output |
| Resample.QualityKeyIsTheArgument | processor/resample.py:100-101 | the quality never sits under "jpeg_quality"; for 'JPEG' without a quality it sits under None with value 90 |
| Resample.KeywordsOnlyUnlessJpeg | processor/resample.py:98-104 | every key of the options is a keyword name exactly when the compression is not JPEG |
| Handler.PendingUuidsArePendingRows | processor/handler.py:52-59 | the pending list has one uuid per selected row and names exactly the uuids of pending rows |
| Handler.PendingListIsOnePerPendingRow | processor/handler.py:52-59 | the pending list is the selected rows' uuids in order, and the selection holds each pending table row exactly as often as the table does and no other row |
| Handler.Uuids | processor/handler.py:58 | one uuid per row, in table order |
| Handler.JoinPath | processor/handler.py:88 | the output path is the root, a separator, then the file id |
| Handler.Bookkeeping | processor/handler.py:82-104 | identity fields kept, elapsed time always recorded; errored exactly when the resample raised or the reopening failed, processing otherwise; bbox only from a successful reopening |
| Handler.NeverProcessed | processor/handler.py:82-104 | no run ends `processed`; a fully successful one ends `processing` |
| Handler.ListPendingUuids | processor/handler.py:52-59 | one unauthenticated select; the answer is the uuids of the pending rows in table order |
| Handler.GetMetadata | processor/handler.py:62-72 | authenticates first, then selects the row through the fresh token; answers `Single` of the table |
| Handler.RunStages | processor/handler.py:84-104 | the working copy ends as `Bookkeeping` says; the resample call and then, only when it did not raise, the reopening are appended to the trace; the tables are untouched |
| Handler.MarkProcessing | processor/handler.py:80-82 | one status write through the token; the table's row and the in-memory copy both say `processing` |
| Handler.WriteBack | processor/handler.py:107-108 | one whole-row write through the token; reading the row back gives the record |
| Handler.ProcessLoaded | processor/handler.py:79-110 | the trace grows by the status write, then the raster calls of the stages, then the whole-record write, and nothing else; the table ends with the keyed row marked and then replaced |
| Handler.ProcessingWrittenBeforeResample | processor/handler.py:79-108 | in a run's trace the `processing` write comes first, the resample second, the reopening third when the resample did not raise, and the record write last |
| Handler.PreprocessFile | processor/handler.py:75-110 | a missing or ambiguous row aborts after the authentication and the select, with nothing written and no raster call; otherwise the trace continues with the status write, the raster calls and the record write in that order, and the keyed row is marked `processing` and then replaced by the final record, which reads back |
| Mapserver.LayerFor | processor/mapserver.py:16-27 | the layer has exactly the eight keys: a raster layer named after the file, switched on, drawing bands 1-3 of the processed path with an empty template and titled with the file id |
| Mapserver.WithLayer | processor/mapserver.py:29-33 | without `layers` the list becomes the one new layer; with a list the layer is appended at its end; a non-list fails; every other key is unchanged |
| Mapserver.NoDeduplication | processor/mapserver.py:29-33 | the number of layers named after the file grows by exactly one, whatever was there |
| Mapserver.RegisterTwice | processor/mapserver.py:29-33 | registering the same file twice leaves two layers with its name |
| Mapserver.WmsUrlNamesLayer | processor/mapserver.py:52 | the URL starts with the base URL and its `LAYERS=` parameter gives back the file id |
| Mapserver.WmsUrl | processor/mapserver.py:52 | the URL is the base URL, then `LAYERS=`, then the file id |
| Mapserver.MapfileStore.Get | processor/mapserver.py:13 | reading the mapfile answers the stored document |
| Mapserver.MapfileStore.Put | processor/mapserver.py:36 | writing the mapfile stores it and records one save |
| Mapserver.AddWmsLayer | processor/mapserver.py:11-36 | the stored mapfile becomes `WithLayer` of the old one with exactly one save; on failure nothing is saved |
| Mapserver.CreateWmsSource | processor/mapserver.py:39-54 | registers the layer first, then answers the WMS URL for the file |
| Logger.Sinks | processor/logger.py:40-50 | a record reaches the console exactly from DEBUG up and the database exactly from WARNING up |
| Logger.LogRow | processor/logger.py:16-35 | the row carries name, level, message, origin and line from the record and always a user id; `file_id` exactly when metadata was cached |
| Logger.EmitRequests | processor/logger.py:32-37 | the last request of an emit is the insert through the first authentication's token |
| Logger.SupabaseHandler.constructor | processor/logger.py:9-12 | a new handler has no cached metadata |
| Logger.SupabaseHandler.Emit | processor/logger.py:14-37 | one row appended to `logs`, tagged from the cache, which is then empty; authentication, the user-id lookup when no id is cached, then exactly one insert |

## Left out

- Pixel work is not modelled: reading, `rasterio.warp.reproject`, the pyproj
  bounds transformation, writing the GeoTIFF and reopening it. These are foreign
  libraries. Their answers (transformed bounds, warped size and transform,
  dtype, bounds of the written file) are the fields of `Resample.RasterIo`.
- Floating point: all arithmetic is on exact reals, so IEEE rounding in the
  scale factor, the read shape and `compress_time` is not captured.
- The `method` (resampling) argument of `resample` is only passed to the
  libraries. It does not affect any decision; it is recorded in the warp
  request, and the read that also takes it is not modelled.
- Resample.Resample: failures inside the raster libraries are not modelled.
  An input without a CRS (whose `crs.to_epsg()` fails at
  `processor/resample.py:13` and `:67`), an unreadable input, and a failed warp
  or write are outside the model; the only write failure it has is the
  keyword `TypeError` of JPEG compression.
- Resample.Resample: `compress` is annotated as rasterio's `Compression` enum
  but used through `.upper()` and `.lower()`; it is modelled as the string
  passed in.
- Network behaviour is not modelled: the Supabase service never fails and never
  answers a login or refresh with an error. Each authentication is answered by a
  `Session` given as a parameter, and the clock (`datetime.now()` and
  `time.time()`) is given as parameters. `Auth.TokenCache.Authenticate` reads
  its clock once per call.
- The `use_client`, `login` and `get_mapfile`/`put_mapfile` functions are not
  part of this model. They are abstracted as `Supabase.Client` and
  `Mapserver.MapfileStore`.
- Mapfile text parsing and serialisation are not modelled; the mapfile is held as
  a parsed document.
- Only the table columns the processor reads or writes are in
  `Supabase.Metadata`. The bbox is held as a `Bounds` value, not its string
  serialisation.
- Handler.PreprocessFile: the resample call and the reopening of its output
  are given as their outcomes (raises or not; bounds or an error). The resample
  call is recorded with its arguments in the client's trace, between the
  requests sent before and after it.
- Handler.JoinPath: `Path / name` is modelled as joining with "/". An absolute
  `file_id`, which `pathlib` would let replace the root, is not modelled.
- Resample.Lower, Resample.Upper: Python's Unicode case mapping is modelled
  on ASCII letters only. This is exact for the comparisons with 'auto' and
  'jpeg', which involve ASCII letters only.
- Logger.SupabaseHandler.Emit: `self.format(record)` is taken as the record's
  `formatted` field. The default formatter, `handleError` and the rest of the
  `logging` wiring (handler registration, the console formatter) are not
  modelled. The code that sets `last_metadata` on the handler is not in the
  modelled files.
- The SFTP transport and filesystem checks (`processor/files.py`), the HTTP
  routes and thread-pool dispatch (`app.py`), and environment settings and
  directory creation (`processor/settings.py`) are not modelled. Neither are the
  query wrappers of `processor/metadata.py`. They run the same two queries as
  `processor/handler.py`, but both through `supabase_client()`, so they
  authenticate with the tokens of `processor/auth.py`, including the
  pending-list query that `processor/handler.py:54` sends without
  authentication; the `/files/pending` route of `app.py` uses the
  `processor/metadata.py` version.
- Concurrency: runs dispatched in parallel may share the token globals and the
  mapfile, and interleavings are not modelled. Every method runs alone.
