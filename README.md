# OctoPrint Matrix notifier: the decision rules of its two plugins

This project models the two OctoPrint plugins that post printer events to a Matrix room. It
covers the original `MatrixNotifierPlugin` and the asynchronous `AsyncMatrixNotifierPlugin`. Each
plugin is a Dafny class, in `notifier.dfy` and `async_notifier.dfy`. Both classes keep the
plugin's own mutable state in fields:

- the room-id memo `_room` / `_room_alias`;
- the chat client, recorded as a log of the calls made to it (alias resolution, markdown send,
  image send, media upload);
- for the asynchronous plugin, its subscriptions on the event bus and the count of captures it
  requested.

The rules both plugins share are pure functions with their own lemmas:

- `RoomCache`: the `room_id` memo.
- `Progress`: the progress gate.
- `Temperature`: the temperature line.
- `MessageKeys`: the message keys and the choice of template.
- `Snapshot`: the camera list, the proxy table and the frame transforms.

Three modules hold the collaborators:

- `Host`: settings, payload values and Python truthiness, printer data, and the capture signals.
- `Matrix`: the call log and the chat values.
- `Environment`: the `World` parameter. It holds what the outside answers in one run: the alias
  directory, the upload replies, the camera responses, the captured files and the timestamp.

Each class method is proved against these functions. It states the call log it appends, the memo
it leaves and the outcome it returns. Raising a Python exception is modelled as a `Fail` outcome
or a `Failure` result that carries the error kind.

Several things are opaque terms rather than computed:

- `str.format` is the term `Message(template, keys)`.
- `get_formatted_timedelta` is the term `Delta(seconds)`.
- PIL transposes are `Transposed(image, op)`.
- The JPEG re-encoding is `Jpeg(image)`.
- `valid_tool_regex.match` is a predicate field of the printer.

## Model

| member | source | states |
|---|---|---|
| `Host.IntOf` | octoprint_async_matrix_notifier/plugin.py:269 | `int(...)` of the interval setting: integers kept, booleans 0/1, floats truncated toward zero, `None` and dictionaries raise; strings are parsed as below |
| `Host.NumeralRoundTrip` | octoprint_async_matrix_notifier/plugin.py:269 | `int(...)` of a string holding the decimal numeral of any integer, with any surrounding ASCII whitespace, gives that integer back |
| `Host.NonIntegerTextRaises` | octoprint_async_matrix_notifier/plugin.py:269 | the empty string, a blank string, a lone sign, `2.5` and `1 0` raise |
| `Host.NoDigitsInside` | octoprint_matrix_notifier/plugin.py:248 | a string whose ends are not blank and that has a non-digit strictly inside it raises |
| `Host.SecondsOf` | octoprint_async_matrix_notifier/plugin.py:233-234 | `timedelta(seconds=...)` accepts numbers and booleans; any other `time` value raises |
| `RoomCache.LookupCalls` | octoprint_async_matrix_notifier/plugin.py:311-336 | `room_id`, as written and corrected, makes at most one call to the client per read; that call is an alias resolution, never an upload |
| `RoomCache.IdIsUsedDirectly` | octoprint_async_matrix_notifier/plugin.py:321-323 | a `!` setting is returned and stored as `_room`, with no client call |
| `RoomCache.AliasHitIsReused` | octoprint_async_matrix_notifier/plugin.py:325-327 | a `#` alias equal to `_room_alias` with a truthy `_room` returns `_room`, with no call and no change to the memo |
| `RoomCache.AliasMissResolvesOnce` | octoprint_async_matrix_notifier/plugin.py:329-334 | a missed alias makes exactly one resolution; success sets both memo fields, and a failed resolution raises with the memo unchanged |
| `RoomCache.RepeatedAliasIsHit` | octoprint_async_matrix_notifier/plugin.py:325-334 | reading a successfully resolved alias a second time makes no call and gives the same answer and memo |
| `RoomCache.OtherPrefixRaises` | octoprint_async_matrix_notifier/plugin.py:319-336 | any other setting, the empty string and non-strings included, raises (`ValueError` for strings) with no call and no change to the memo |
| `RoomCache.AtMostOneResolutionPerAlias` | octoprint_async_matrix_notifier/plugin.py:311-336 | any number of reads of a resolvable alias make at most one resolution in total, and none if the first read is already a hit |
| `RoomCache.ResolveIsSound` | octoprint_matrix_notifier/plugin.py:266-291 | the corrected memo always pairs a cached alias with its directory id, so an alias is answered with its own room |
| `RoomCache.StaleIdAfterIdSetting` | octoprint_matrix_notifier/plugin.py:276-282 | as written, the settings `#a`, then `!y`, then `#a` again make the third read return `!y`, not `#a`'s room, with no resolution |
| `RoomCache.MarkdownCalls` | octoprint_async_matrix_notifier/plugin.py:259-261 | sending a text makes no alias resolution beyond those of its `room_id` lookup |
| `RoomCache.ImageCalls` | octoprint_async_matrix_notifier/plugin.py:378 | sending an image makes no alias resolution beyond those of its `room_id` lookup |
| `Progress.FloorDiv` | octoprint_async_matrix_notifier/plugin.py:273 | Python's `//` rounds the quotient down, for either sign of the divisor |
| `Progress.EffectiveInterval` | octoprint_async_matrix_notifier/plugin.py:269 | `int(setting) or 1` is never 0, and an interval of 0 becomes 1 |
| `Progress.DivisionIsWhole` | octoprint_async_matrix_notifier/plugin.py:273 | `progress / interval == progress // interval` holds exactly when the interval divides the progress |
| `Progress.ReportsIff` | octoprint_async_matrix_notifier/plugin.py:273-274 | a tick is reported if and only if it is non-zero, a multiple of the interval, and not 100 |
| `Progress.DefaultIntervalReports` | octoprint_matrix_notifier/plugin.py:252-253 | with interval 10 and progress 0..100, exactly 10, 20, …, 90 are reported |
| `Progress.ZeroIntervalReportsEveryTick` | octoprint_matrix_notifier/plugin.py:248-253 | an interval setting of 0 reports every tick except 0 and 100 |
| `Temperature.ReplaceLeavesOtherText` | octoprint_async_matrix_notifier/plugin.py:177 | `key.replace("tool", ...)` leaves a key without a `t` unchanged |
| `Temperature.ToolKeyRenamed` | octoprint_async_matrix_notifier/plugin.py:177 | `tool<digits>` is renamed `Nozzle <digits>` |
| `Temperature.ToolEntriesAreTheTools` | octoprint_async_matrix_notifier/plugin.py:167 | the tool keys are exactly the temperature entries whose key the tool pattern matches |
| `Temperature.FindEntryFinds` | octoprint_async_matrix_notifier/plugin.py:164 | the lookup fails exactly when no entry has the key, and otherwise returns the first entry with that key |
| `Temperature.NoLineWithoutBed` | octoprint_async_matrix_notifier/plugin.py:163-165 | the temperature line is `None` exactly when there is no `bed` entry |
| `Temperature.LineLayout` | octoprint_async_matrix_notifier/plugin.py:156-186 | the line is the bed prefix plus one component per tool, in order and space-joined; the first tool is `Nozzle` when it is the only one and `Nozzle 0` otherwise; later tools are renamed from their keys |
| `MessageKeys.EventKeys` | octoprint_async_matrix_notifier/plugin.py:228-234 | the merged keys are the generated keys plus `reason` and `elapsed_time`, with generated keys winning; `reason` comes from the payload, a payload `time` overrides `elapsed_time`, and a non-numeric `time` raises |
| `MessageKeys.ReasonAndElapsedTime` | octoprint_matrix_notifier/plugin.py:234-239 | with the generated keys, `reason` is the payload's and `elapsed_time` is the payload `time` when given, else the printer's elapsed time |
| `MessageKeys.EventMessage` | octoprint_async_matrix_notifier/plugin.py:209-236 | an event renders nothing if and only if its settings entry is falsy |
| `MessageKeys.EnabledFlagIgnored` | octoprint_async_matrix_notifier/plugin.py:222 | the event's `enabled` flag never changes what is rendered (`... or True`) |
| `MessageKeys.TemplateChoice` | octoprint_async_matrix_notifier/plugin.py:222-226 | the asynchronous plugin renders `progress` with the `progress_snapshot` template when snapshots are on; every other case uses the event's own template |
| `MessageKeys.ProgressMessage` | octoprint_async_matrix_notifier/plugin.py:268-280 | a rendered progress message carries the generated keys plus `pct_completed` |
| `MessageKeys.SuppressedTicksRenderNothing` | octoprint_matrix_notifier/plugin.py:248-253 | ticks 0 and 100, and non-multiples of the interval (0 read as 1), render nothing |
| `Snapshot.Transposes` | octoprint_matrix_notifier/plugin.py:386-394 | one transpose per set flag |
| `Snapshot.NoUrlNoFrame` | octoprint_matrix_notifier/plugin.py:359-368 | a `None` or empty snapshot URL gives no frame |
| `Snapshot.UntransformedFrameIsFetched` | octoprint_matrix_notifier/plugin.py:375-400 | with no flag set, the fetched bytes are returned as they are |
| `Snapshot.AllTransformsInOrder` | octoprint_matrix_notifier/plugin.py:384-397 | with all flags set, the frame is flipped left-right, then top-bottom, then rotated |
| `Snapshot.RotationDirection` | octoprint_matrix_notifier/plugin.py:390-394 | the rotation is `ROTATE_270`, or `ROTATE_90` when `invertImgRot` is set |
| `Snapshot.ConfigCameras` | octoprint_matrix_notifier/plugin.py:293-314 | MultiCam profiles are returned unchanged; otherwise the list holds at most one camera, `webcam`, with the host's URL and flags, present exactly when the host's snapshot URL is not `None` |
| `Snapshot.ProxiesFollowSettings` | octoprint_matrix_notifier/plugin.py:346-356 | the proxy table has only `http` and `https`; each is present exactly when its setting is truthy, and then holds it |
| `AsyncNotifier.BaseNameIsLastComponent` | octoprint_async_matrix_notifier/plugin.py:355 | the file name is a suffix of the path without a `/`, preceded by a `/` unless it is the whole path |
| `AsyncNotifier.SnapshotUploadsOnce` | octoprint_async_matrix_notifier/plugin.py:349-380 | `send_snapshot` uploads the file exactly once when the path names a readable file, and uploads nothing otherwise |
| `AsyncNotifier.ImageNeedsContentUri` | octoprint_async_matrix_notifier/plugin.py:363-380 | without a readable file and an upload reply with a non-empty `content_uri`, `send_snapshot` makes no call beyond the upload |
| `AsyncNotifier.AsyncMatrixNotifierPlugin.constructor` | octoprint_async_matrix_notifier/plugin.py:25-28 | a new plugin has an empty memo, no calls, no subscriptions and no captures |
| `AsyncNotifier.AsyncMatrixNotifierPlugin.TemperatureStatusString` | octoprint_async_matrix_notifier/plugin.py:156-186 | the loop builds exactly the temperature line that the `Temperature` lemmas describe |
| `AsyncNotifier.AsyncMatrixNotifierPlugin.GenerateMessageKeys` | octoprint_async_matrix_notifier/plugin.py:195-207 | the keys are temperature, the three durations, completion, user and file name, filled from the printer state |
| `AsyncNotifier.AsyncMatrixNotifierPlugin.RoomId` | octoprint_async_matrix_notifier/plugin.py:311-336 | corrected: the result, memo and calls are those of `RoomCache.Resolve` on the memo before the call |
| `AsyncNotifier.AsyncMatrixNotifierPlugin.SendMessageAsync` | octoprint_async_matrix_notifier/plugin.py:259-261 | appends the room lookup's calls, then one markdown send when the lookup succeeds; fails with the lookup's error otherwise |
| `AsyncNotifier.AsyncMatrixNotifierPlugin.ProcessEvent` | octoprint_async_matrix_notifier/plugin.py:241-257 | subscribes both capture signals and requests one capture exactly when `send_snapshot` is set, then sends the text |
| `AsyncNotifier.AsyncMatrixNotifierPlugin.OnEvent` | octoprint_async_matrix_notifier/plugin.py:209-237 | an unconfigured event, or one whose keys or template raise, changes nothing; otherwise the rendered message goes through `process_event` |
| `AsyncNotifier.AsyncMatrixNotifierPlugin.SendSnapshot` | octoprint_async_matrix_notifier/plugin.py:349-380 | for a readable file: the upload, then the image message when the reply has a content URI; a bad path raises with no call |
| `AsyncNotifier.AsyncMatrixNotifierPlugin.SnapshotEvent` | octoprint_async_matrix_notifier/plugin.py:338-347 | removes both capture subscriptions before anything else, and sends only for `CAPTURE_DONE` with a non-`None` file |
| `AsyncNotifier.AsyncMatrixNotifierPlugin.Deliver` | octoprint_async_matrix_notifier/plugin.py:338-347 | the bus calls `snapshot_event` only for a subscribed signal; any other signal leaves the plugin unchanged |
| `AsyncNotifier.AsyncMatrixNotifierPlugin.OnPrintProgressAsWritten` | octoprint_async_matrix_notifier/plugin.py:268-285 | as written: after the text, a truthy `send_snapshot` raises because `send_snapshot()` is called without its file path |
| `AsyncNotifier.AsyncMatrixNotifierPlugin.OnPrintProgress` | octoprint_async_matrix_notifier/plugin.py:268-285 | corrected: a reported tick appends the text's calls and memo; only after the text went out, and only with snapshots on, it subscribes both capture signals and requests one capture; it never raises for the missing argument |
| `AsyncNotifier.AsyncMatrixNotifierPlugin.RenderProgress` | octoprint_async_matrix_notifier/plugin.py:268-280 | the interval, gate and template steps compute `MessageKeys.ProgressMessage` |
| `AsyncNotifier.CaptureHandledOnce` | octoprint_async_matrix_notifier/plugin.py:338-347 | a finished capture followed by a stale failed-capture signal uploads the file once and leaves neither subscription |
| `AsyncNotifier.ProgressWithSnapshotRaises` | octoprint_async_matrix_notifier/plugin.py:283-285 | tick 50 with interval 10 and snapshots on sends one markdown message and then raises |
| `Notifier.TransferUploadsFrame` | octoprint_matrix_notifier/plugin.py:324-344 | after a lookup that uploads and sends no text, a camera's thread uploads that camera's frame if it has one, nothing else, and sends no text |
| `Notifier.CameraUploadsShot` | octoprint_matrix_notifier/plugin.py:319-322 | one camera's thread, room lookup included, uploads exactly that camera's frame, if any, and sends no text |
| `Notifier.SnapshotsStep` | octoprint_matrix_notifier/plugin.py:319-322 | running one more camera's thread after the first `i` extends the cameras' combined calls and memo by exactly that thread's |
| `Notifier.SnapshotsUploadFrames` | octoprint_matrix_notifier/plugin.py:316-344 | the threads of all cameras upload exactly the cameras' frames, in camera order, and send no text |
| `Notifier.SnapshotsKeepMemoSound` | octoprint_matrix_notifier/plugin.py:266-291 | the room lookups of the camera threads keep the corrected memo sound, so each thread posts to the room of the setting |
| `Notifier.PublishSendsTextThenSnapshots` | octoprint_matrix_notifier/plugin.py:243-245 | the event succeeds exactly when the room lookup does; it sends exactly one text then, and the cameras' frames are uploaded exactly when it succeeds and `send_snapshot` is set |
| `Notifier.NoFrameNoCalls` | octoprint_matrix_notifier/plugin.py:327-333 | without a frame the thread makes no call; without a `content_uri` in the reply it makes only the upload, then raises |
| `Notifier.MatrixNotifierPlugin.constructor` | octoprint_matrix_notifier/plugin.py:32-35 | a new plugin has an empty memo and no calls |
| `Notifier.MatrixNotifierPlugin.TemperatureStatusString` | octoprint_matrix_notifier/plugin.py:164-197 | the loop builds exactly the temperature line that the `Temperature` lemmas describe |
| `Notifier.MatrixNotifierPlugin.GenerateMessageKeys` | octoprint_matrix_notifier/plugin.py:206-218 | the same keys as the asynchronous plugin, without `completion` |
| `Notifier.MatrixNotifierPlugin.RoomId` | octoprint_matrix_notifier/plugin.py:266-291 | corrected: the result, memo and calls are those of `RoomCache.Resolve` on the memo before the call |
| `Notifier.MatrixNotifierPlugin.GetSnapshotConfig` | octoprint_matrix_notifier/plugin.py:293-314 | the appended list is `Snapshot.Config` of the MultiCam setting and the host settings |
| `Notifier.MatrixNotifierPlugin.HttpProxy` | octoprint_matrix_notifier/plugin.py:346-356 | the dictionary filled step by step is `Snapshot.Proxies` of the settings |
| `Notifier.MatrixNotifierPlugin.TakeImage` | octoprint_matrix_notifier/plugin.py:358-400 | the frame is `Snapshot.Frame`; a request goes out exactly for a truthy URL, through the proxy table, with a 10-second timeout |
| `Notifier.MatrixNotifierPlugin.Fetch` | octoprint_matrix_notifier/plugin.py:368-380 | a request goes out exactly for a truthy URL, through the proxy table, with a 10-second timeout; bytes come back exactly when the camera answers that URL, and they are its answer |
| `Notifier.MatrixNotifierPlugin.TransposeFrame` | octoprint_matrix_notifier/plugin.py:384-394 | the chain of reassignments applies the set flags' transposes in order |
| `Notifier.MatrixNotifierPlugin.SendSnapshotT` | octoprint_matrix_notifier/plugin.py:324-344 | no frame means no call; otherwise one upload, then the image message named `<camera>_<time>.jpg` to `room_id`, unless the reply lacks `content_uri` |
| `Notifier.MatrixNotifierPlugin.Threaded` | octoprint_matrix_notifier/plugin.py:16-21 | a call through `threaded` returns nothing to its caller; the thread appends exactly its camera's calls (`Notifier.CameraEffect`: lookup, upload, image message) and leaves that thread's memo |
| `Notifier.MatrixNotifierPlugin.SendSnapshot` | octoprint_matrix_notifier/plugin.py:316-322 | one thread per configured camera, in order: the log gains exactly the cameras' calls and the memo is the one their lookups leave (`Notifier.SnapshotsEffect`) |
| `Notifier.MatrixNotifierPlugin.OnEvent` | octoprint_matrix_notifier/plugin.py:220-245 | an unconfigured event, or one whose keys or template raise, changes nothing; otherwise the calls, memo and outcome are those of `Notifier.PublishEffect` of the rendered message |
| `Notifier.MatrixNotifierPlugin.OnPrintProgress` | octoprint_matrix_notifier/plugin.py:247-264 | a suppressed or failing tick changes nothing; a reported tick's calls, memo and outcome are those of `Notifier.PublishEffect` of its message |
| `Notifier.MatrixNotifierPlugin.RenderProgress` | octoprint_matrix_notifier/plugin.py:248-260 | the interval, gate and template steps compute `MessageKeys.ProgressMessage` |
| `Notifier.MatrixNotifierPlugin.Publish` | octoprint_matrix_notifier/plugin.py:243-245 | the calls, memo and outcome are `Notifier.PublishEffect`: the text's lookup and send, then all cameras' threads exactly when the text went out and `send_snapshot` is set |

## Left out

- The two `matrix.py` HTTP clients, with their markdown and HTML rendering: foreign calls and
  network I/O. They are modelled only as the log of calls they would receive. Their replies are
  the `World` directory and upload tables. A failure of the markdown or image send itself is not
  modelled.
- Threads (`@threaded`) and `asyncio.run` / `gather` are modelled as running in sequence, one
  after the other. In particular, the cameras of `send_snapshot` run one after another. An
  exception in a camera's thread is that thread's outcome and does not reach the caller.
- The event bus itself (`eventManager()`): only this plugin's own subscriptions are modelled, as a
  set. So subscribing twice before a callback collapses into one registration.
- `capture_snapshot` (Timelapse, the `sleep` polling loop): it is modelled as a count of requested
  captures. The file it produces arrives through the `CAPTURE_DONE` payload.
- File reads and camera HTTP responses come from `World.files` and `World.cameras`. A path or URL
  missing from those tables is a read or request failure. `time.strftime` is `World.stamp`.
- `get_image_size_from_bytesio`: the width and height of the image message are not modelled, and
  nor is a failure to read them.
- PIL decoding and JPEG encoding: a frame that PIL cannot open is not modelled as raising.
- `str.format` failing on a missing key or a bad format specifier: messages are the symbolic term
  `Message(template, keys)`.
- `get_formatted_timedelta`: durations are the term `Delta(seconds)`.
- The progress gate's float test `progress / interval == progress // interval` is modelled exactly
  for integers, with exact rational division. Floating-point rounding on very large values is not
  modelled.
- Host.IntOf: a string is parsed as an optional sign and ASCII digits, with surrounding ASCII
  whitespace. Underscores between digits, non-ASCII digits and non-ASCII whitespace, which
  Python's `int()` also accepts, are modelled as raising.
- AsyncNotifier.AsyncMatrixNotifierPlugin.RoomId, Notifier.MatrixNotifierPlugin.RoomId: the
  plugin classes run the corrected memo `RoomCache.Resolve`, not the code as written. The
  as-written memo is `RoomCache.ResolveAsWritten`, and the finding below compares the two.
- `get_boolean(["invertImgRot"])` is modelled as Python truthiness.
- `send_snapshot_async` (async plugin, lines 263-265) is never called by the plugin and is left
  out.
- `get_settings_defaults`, `get_update_information`, `get_template_configs`, `on_after_startup`,
  the `client` property, `__init__.py`, `errors.py` (its exception classes are never raised) and
  the tests: metadata and wiring.
- MultiCam profiles are modelled as a typed list of camera records. A profile missing a key, or
  holding a non-string name, would raise in the source but cannot be written here.
- Payloads are modelled as dictionaries after `payload or {}`. A non-dictionary payload is not
  modelled.
- `AsyncNotifier.AsyncMatrixNotifierPlugin.OnEvent`: `process_event` runs the capture request
  before the text task is awaited. The model states which subscriptions and captures result and
  which calls are made, but not how the two interleave in time.

## Findings

| source | as written | input that shows it | evidently intended | confidence | as-written member | corrected member |
|---|---|---|---|---|---|---|
| octoprint_async_matrix_notifier/plugin.py:321-327 (the same code is at octoprint_matrix_notifier/plugin.py:276-282) | a `!` room setting sets `_room` but leaves `_room_alias` as it was | set the room to `#a` (resolves to `!x`), then to `!y`, then back to `#a`: the third read returns `!y` without resolving `#a` | a `!` setting also clears the cached alias, so an alias is always answered with its own room | not executed | `RoomCache.ResolveAsWritten`, `RoomCache.StaleIdAfterIdSetting` | `RoomCache.Resolve`, `RoomCache.ResolveIsSound` |
| octoprint_async_matrix_notifier/plugin.py:283-285 | `on_print_progress` calls `self.send_snapshot()`, but `send_snapshot(self, file_path)` at line 349 requires a path | a progress tick of 50 with interval 10 and `send_snapshot` on: the text is sent, then a `TypeError` is raised | after a successful text, subscribe both capture signals, request one capture and send the file through those signals | not executed | `AsyncNotifier.AsyncMatrixNotifierPlugin.OnPrintProgressAsWritten`, `AsyncNotifier.ProgressWithSnapshotRaises` | `AsyncNotifier.AsyncMatrixNotifierPlugin.OnPrintProgress` |
