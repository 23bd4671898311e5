/**
 * The asynchronous plugin (`AsyncMatrixNotifierPlugin`): it sends the event's message and, when
 * snapshots are on, subscribes to the two capture signals and requests a capture; the first
 * capture signal to arrive unsubscribes both and, for a finished capture, uploads the file and
 * posts it as an image.
 */
module AsyncNotifier {
  import opened Wrappers
  import opened Host
  import opened Matrix
  import opened Environment
  import RoomCache
  import Temperature
  import MessageKeys
  import Progress

  /** The two subscriptions `process_event` makes and `snapshot_event` removes. */
  const CaptureSubscriptions: set<Subscription> :=
    {(CaptureDone, SnapshotEventHandler), (CaptureFailed, SnapshotEventHandler)}

  /** `os.path.basename`: what follows the last `/`. */
  function BaseName(path: string): string {
    if path == [] || path[|path| - 1] == '/' then []
    else BaseName(path[..|path| - 1]) + [path[|path| - 1]]
  }

  /** The file name is a suffix of the path without a `/`, and it is all of the path when there is none. */
  lemma {:induction false} BaseNameIsLastComponent(path: string)
    ensures var name := BaseName(path);
      && |name| <= |path| && path[|path| - |name|..] == name
      && (forall i :: 0 <= i < |name| ==> name[i] != '/')
      && (|name| < |path| ==> path[|path| - |name| - 1] == '/')
    decreases |path|
  {
    if path != [] && path[|path| - 1] != '/' {
      var prefix := path[..|path| - 1];
      BaseNameIsLastComponent(prefix);
      var name := BaseName(path);
      assert name == BaseName(prefix) + [path[|path| - 1]];
      assert path == prefix + [path[|path| - 1]];
    }
  }

  /** `upload_response and upload_response.get('content_uri')`. */
  predicate UsableUpload(reply: UploadReply) {
    reply.Reply? && "content_uri" in reply.fields && reply.fields["content_uri"] != ""
  }

  /**
   * Uploading the captured file at `filePath` and, when the reply has a content URI, posting it
   * to the room that `lookup` finds (`send_snapshot`); `cache` is the memo before the step.
   */
  function SnapshotEffect(filePath: Value, world: World, lookup: RoomCache.Resolution, cache: RoomCache.Cache): RoomCache.Effect {
    if !filePath.Text? then RoomCache.Effect([], cache, Fail(FilePathNotText))
    else if filePath.s !in world.files then RoomCache.Effect([], cache, Fail(FileUnreadable))
    else
      var data := world.files[filePath.s];
      var name := BaseName(filePath.s);
      var upload := Upload(Raw(data), Some(name), "image/jpg");
      var reply := UploadReplyFor(world, Raw(data));
      if UsableUpload(reply) then
        RoomCache.Effect([upload] + RoomCache.ImageCalls(lookup, ImageContent(name, reply.fields["content_uri"])),
               lookup.cache, RoomCache.OutcomeOf(lookup.result))
      else RoomCache.Effect([upload], cache, Pass)
  }

  /** What `snapshot_event` does after unsubscribing: only a finished capture naming a file is sent. */
  function HandledEffect(signal: Signal, payload: Payload, world: World, lookup: RoomCache.Resolution,
                         cache: RoomCache.Cache): RoomCache.Effect {
    var file := Host.Lookup(payload, "file");
    if signal == CaptureDone && file != Null then SnapshotEffect(file, world, lookup, cache)
    else RoomCache.Effect([], cache, Pass)
  }

  /** A snapshot file is uploaded exactly when its path is a readable file, and once. */
  lemma SnapshotUploadsOnce(filePath: Value, world: World, lookup: RoomCache.Resolution, cache: RoomCache.Cache)
    requires Uploads(lookup.calls) == []
    ensures var e := SnapshotEffect(filePath, world, lookup, cache);
      Uploads(e.calls) == if filePath.Text? && filePath.s in world.files then [Raw(world.files[filePath.s])] else []
  {
    var e := SnapshotEffect(filePath, world, lookup, cache);
    if filePath.Text? && filePath.s in world.files && e.calls != [e.calls[0]] {
      var rest := e.calls[1..];
      assert e.calls == [e.calls[0]] + rest;
      var sent := if lookup.result.Success? then [SendImage(lookup.result.value, ImageContent(BaseName(filePath.s),
        UploadReplyFor(world, Raw(world.files[filePath.s])).fields["content_uri"]))] else [];
      assert rest == lookup.calls + sent;
      UploadsAppend(lookup.calls, sent);
      UploadsAppend([e.calls[0]], rest);
    }
  }

  /** No image message goes out unless the file was read and the upload reply has a content URI. */
  lemma ImageNeedsContentUri(filePath: Value, world: World, lookup: RoomCache.Resolution, cache: RoomCache.Cache)
    requires !(filePath.Text? && filePath.s in world.files && UsableUpload(UploadReplyFor(world, Raw(world.files[filePath.s]))))
    ensures forall c :: c in SnapshotEffect(filePath, world, lookup, cache).calls ==> c.Upload?
  {
  }

  class AsyncMatrixNotifierPlugin {
    var settings: Settings
    var printer: Printer
    var room: Option<string>                 // _room
    var roomAlias: Option<string>            // _room_alias
    var calls: seq<Call>                     // the chat client's calls, oldest first
    var subscriptions: set<Subscription>     // this plugin's registrations on the event bus
    var captures: nat                        // captures requested from the timelapse subsystem

    function Cache(): RoomCache.Cache
      reads this`room, this`roomAlias
    {
      RoomCache.Cache(room, roomAlias)
    }

    /** The keys `generate_message_keys` produces for the current printer state. */
    function CurrentKeys(): map<string, KeyValue>
      reads this`printer
    {
      MessageKeys.Generated(Temperature.Status(printer.temperatures, printer.isTool), printer.data, true)
    }

    /** The lookup `room_id` makes now. */
    function Lookup(world: World): RoomCache.Resolution
      reads this`settings, this`room, this`roomAlias
    {
      RoomCache.Resolve(Get(settings, ["room"]), Cache(), world.directory)
    }

    constructor(settings: Settings, printer: Printer)
      ensures this.settings == settings && this.printer == printer
      ensures Cache() == RoomCache.Cache(None, None) && calls == [] && subscriptions == {} && captures == 0
    {
      this.settings := settings;
      this.printer := printer;
      room, roomAlias := None, None;
      calls, subscriptions, captures := [], {}, 0;
    }

    /** `temperature_status_string`. */
    method TemperatureStatusString() returns (status: Option<string>)
      ensures status == Temperature.Status(printer.temperatures, printer.isTool)
    {
      var temps := printer.temperatures;
      var bed := Temperature.FindEntry(temps, "bed");
      if bed.None? {
        return None;
      }
      var tools := Temperature.ToolEntries(temps, printer.isTool);
      var firstKey := Temperature.FirstToolName(|tools|);
      ghost var all := Temperature.Components(tools);
      var components: seq<string> := [];
      for i := 0 to |tools|
        invariant components == all[..i]
      {
        var toolName := if i == 0 then firstKey else Temperature.LaterToolName(tools[i].key);
        assert all[i] == Temperature.Component(toolName, tools[i]);
        assert all[..i + 1] == all[..i] + [all[i]];
        components := components + [Temperature.Component(toolName, tools[i])];
      }
      assert all[..|tools|] == all;
      return Some(Temperature.Line(bed.value, components));
    }

    /** `generate_message_keys`. */
    method GenerateMessageKeys() returns (keys: map<string, KeyValue>)
      ensures keys == CurrentKeys()
    {
      keys := map[];
      var temperature := TemperatureStatusString();
      keys := keys["temperature" := MessageKeys.TextKey(temperature)];
      var data := printer.data;
      keys := keys["remaining_time" := MessageKeys.DeltaKey(data.printTimeLeft)];
      keys := keys["total_estimated_time" := MessageKeys.DeltaKey(data.estimatedPrintTime)];
      keys := keys["elapsed_time" := MessageKeys.DeltaKey(data.printTime)];
      keys := keys["completion" := MessageKeys.DeltaKey(data.completion)];
      keys := keys["user" := MessageKeys.TextKey(data.user)];
      keys := keys["filename" := MessageKeys.TextKey(data.fileName)];
    }

    /**
     * `room_id`, with the correction that a `!` setting also forgets the cached alias (as
     * written, `_room_alias` keeps the old alias; see `RoomCache.ResolveAsWritten`).
     */
    method RoomId(world: World) returns (r: Result<string, Error>)
      modifies this`room, this`roomAlias, this`calls
      ensures var res := old(Lookup(world));
        r == res.result && Cache() == res.cache && calls == old(calls) + res.calls
    {
      var setting := Get(settings, ["room"]);
      if !setting.Text? {
        return Failure(RoomNotText);
      }
      var configured := setting.s;
      if RoomCache.StartsWith(configured, '!') {
        room := Some(configured);
        roomAlias := None;
        return Success(configured);
      }
      if RoomCache.StartsWith(configured, '#') {
        if roomAlias == Some(configured) && room.Some? && room.value != "" {
          return Success(room.value);
        }
        calls := calls + [ResolveAlias(configured)];
        if configured !in world.directory {
          return Failure(AliasUnresolved);
        }
        var id := world.directory[configured];
        room := Some(id);
        roomAlias := Some(configured);
        return Success(id);
      }
      return Failure(RoomPrefix);
    }

    /** `send_message_async`. */
    method SendMessageAsync(message: Message, world: World) returns (r: Outcome<Error>)
      modifies this`room, this`roomAlias, this`calls
      ensures var e := RoomCache.MessageEffect(message, old(Lookup(world)));
        calls == old(calls) + e.calls && Cache() == e.cache && r == e.result
    {
      var id := RoomId(world);
      if id.Failure? {
        return Fail(id.error);
      }
      calls := calls + [SendMarkdown(id.value, message)];
      return Pass;
    }

    /** With snapshots on, both capture subscriptions were added and one capture requested; otherwise neither. */
    twostate predicate CaptureRequested()
      reads this`settings, this`subscriptions, this`captures
    {
      var on := Truthy(Get(settings, ["send_snapshot"]));
      && subscriptions == old(subscriptions) + (if on then CaptureSubscriptions else {})
      && captures == old(captures) + (if on then 1 else 0)
    }

    /**
     * `process_event`: the subscriptions and the capture request come first; the message is sent
     * once the gathered task runs.
     */
    method ProcessEvent(message: Message, world: World) returns (r: Outcome<Error>)
      modifies this`room, this`roomAlias, this`calls, this`subscriptions, this`captures
      ensures CaptureRequested()
      ensures var e := RoomCache.MessageEffect(message, old(Lookup(world)));
        calls == old(calls) + e.calls && Cache() == e.cache && r == e.result
    {
      if Truthy(Get(settings, ["send_snapshot"])) {
        subscriptions := subscriptions + {(CaptureDone, SnapshotEventHandler)};
        subscriptions := subscriptions + {(CaptureFailed, SnapshotEventHandler)};
        captures := captures + 1;
      }
      r := SendMessageAsync(message, world);
    }

    /**
     * `on_event`: an event with no settings entry, or whose keys or template raise, makes no call
     * and changes nothing; otherwise the rendered message goes through `process_event`.
     */
    method OnEvent(event: string, payload: Option<Payload>, world: World) returns (r: Outcome<Error>)
      modifies this`room, this`roomAlias, this`calls, this`subscriptions, this`captures
      ensures var m := MessageKeys.EventMessage(settings, event, payload, CurrentKeys(), true);
        && (m.Failure? ==> r == Fail(m.error) && unchanged(this))
        && (m == Success(None) ==> r == Pass && unchanged(this))
        && (m.Success? && m.value.Some? ==>
              var e := RoomCache.MessageEffect(m.value.value, old(Lookup(world)));
              CaptureRequested() && calls == old(calls) + e.calls && Cache() == e.cache && r == e.result)
    {
      if !Truthy(Get(settings, ["events", event])) {
        return Pass;
      }
      var p := if payload.Some? then payload.value else map[];
      var templatePath;
      if event == "progress" && Truthy(Get(settings, ["send_snapshot"])) {
        templatePath := ["events", "progress_snapshot", "template"];
      } else {
        templatePath := ["events", event, "template"];
      }
      var template := Get(settings, templatePath);
      var generated := GenerateMessageKeys();
      var keys := MessageKeys.EventKeys(generated, p);
      if keys.Failure? {
        return Fail(keys.error);
      }
      if !template.Text? {
        return Fail(TemplateNotText);
      }
      r := ProcessEvent(Message(template.s, keys.value), world);
    }

    /** `send_snapshot(file_path)`: no image message unless the upload reply has a content URI. */
    method SendSnapshot(filePath: Value, world: World) returns (r: Outcome<Error>)
      modifies this`room, this`roomAlias, this`calls
      ensures var e := SnapshotEffect(filePath, world, old(Lookup(world)), old(Cache()));
        calls == old(calls) + e.calls && Cache() == e.cache && r == e.result
    {
      if !filePath.Text? {
        return Fail(FilePathNotText);
      }
      var name := BaseName(filePath.s);
      if filePath.s !in world.files {
        return Fail(FileUnreadable);
      }
      var data := world.files[filePath.s];
      ghost var lookup := Lookup(world);
      ghost var before := calls;
      var upload := Upload(Raw(data), Some(name), "image/jpg");
      calls := calls + [upload];
      var reply := UploadReplyFor(world, Raw(data));
      if UsableUpload(reply) {
        var mxcUrl := reply.fields["content_uri"];
        var id := RoomId(world);
        if id.Failure? {
          assert calls == before + ([upload] + lookup.calls);
          return Fail(id.error);
        }
        calls := calls + [SendImage(id.value, ImageContent(name, mxcUrl))];
        assert calls == before + ([upload] + RoomCache.ImageCalls(lookup, ImageContent(name, mxcUrl)));
      }
      return Pass;
    }

    /**
     * `snapshot_event`: both subscriptions are removed first; only a finished capture whose
     * payload names a file leads to `send_snapshot`.
     */
    method SnapshotEvent(signal: Signal, payload: Payload, world: World) returns (r: Outcome<Error>)
      modifies this`room, this`roomAlias, this`calls, this`subscriptions
      ensures subscriptions == old(subscriptions) - CaptureSubscriptions
      ensures var e := HandledEffect(signal, payload, world, old(Lookup(world)), old(Cache()));
        calls == old(calls) + e.calls && Cache() == e.cache && r == e.result
    {
      subscriptions := subscriptions - {(CaptureDone, SnapshotEventHandler)};
      subscriptions := subscriptions - {(CaptureFailed, SnapshotEventHandler)};
      var file := Host.Lookup(payload, "file");
      if signal == CaptureDone && file != Null {
        r := SendSnapshot(file, world);
      } else {
        r := Pass;
      }
    }

    /** The event bus firing `signal`: only a subscribed `snapshot_event` is called. */
    method Deliver(signal: Signal, payload: Payload, world: World) returns (r: Outcome<Error>)
      modifies this`room, this`roomAlias, this`calls, this`subscriptions
      ensures (signal, SnapshotEventHandler) !in old(subscriptions) ==> r == Pass && unchanged(this)
      ensures (signal, SnapshotEventHandler) in old(subscriptions) ==>
        && subscriptions == old(subscriptions) - CaptureSubscriptions
        && var e := HandledEffect(signal, payload, world, old(Lookup(world)), old(Cache()));
           calls == old(calls) + e.calls && Cache() == e.cache && r == e.result
    {
      if (signal, SnapshotEventHandler) in subscriptions {
        r := SnapshotEvent(signal, payload, world);
      } else {
        r := Pass;
      }
    }

    /**
     * `on_print_progress` as written: after the text message, `self.send_snapshot()` is called
     * without the `file_path` that `send_snapshot` requires, which raises whenever snapshots are on.
     */
    method OnPrintProgressAsWritten(progress: int, world: World) returns (r: Outcome<Error>)
      modifies this`room, this`roomAlias, this`calls
      ensures var m := MessageKeys.ProgressMessage(settings, progress, CurrentKeys());
        && (m.Failure? ==> r == Fail(m.error) && unchanged(this))
        && (m == Success(None) ==> r == Pass && unchanged(this))
        && (m.Success? && m.value.Some? ==>
              var res := old(Lookup(world));
              && Cache() == res.cache
              && calls == old(calls) + RoomCache.MarkdownCalls(res, m.value.value)
              && r == (if res.result.Success? && Truthy(Get(settings, ["send_snapshot"]))
                       then Fail(SnapshotArgumentMissing) else RoomCache.OutcomeOf(res.result)))
    {
      var message := RenderProgress(progress);
      if message.Failure? {
        return Fail(message.error);
      }
      if message.value.None? {
        return Pass;
      }
      r := SendMessageAsync(message.value.value, world);
      if r == Pass && Truthy(Get(settings, ["send_snapshot"])) {
        r := Fail(SnapshotArgumentMissing);
      }
    }

    /**
     * `on_print_progress` as intended: the snapshot goes through the capture signals, as
     * `process_event` does, instead of the raising `send_snapshot()` call.
     */
    method OnPrintProgress(progress: int, world: World) returns (r: Outcome<Error>)
      modifies this`room, this`roomAlias, this`calls, this`subscriptions, this`captures
      ensures var m := MessageKeys.ProgressMessage(settings, progress, CurrentKeys());
        && (m.Failure? ==> r == Fail(m.error) && unchanged(this))
        && (m == Success(None) ==> r == Pass && unchanged(this))
        && (m.Success? && m.value.Some? ==>
              && calls == old(calls) + RoomCache.MessageEffect(m.value.value, old(Lookup(world))).calls
              && Cache() == RoomCache.MessageEffect(m.value.value, old(Lookup(world))).cache
              && r == RoomCache.MessageEffect(m.value.value, old(Lookup(world))).result
              && (r == Pass ==> CaptureRequested())
              && (r != Pass ==> subscriptions == old(subscriptions) && captures == old(captures)))
      ensures r != Fail(SnapshotArgumentMissing)
    {
      var message := RenderProgress(progress);
      if message.Failure? {
        return Fail(message.error);
      }
      if message.value.None? {
        return Pass;
      }
      r := SendMessageAsync(message.value.value, world);
      if r == Pass && Truthy(Get(settings, ["send_snapshot"])) {
        subscriptions := subscriptions + {(CaptureDone, SnapshotEventHandler)};
        subscriptions := subscriptions + {(CaptureFailed, SnapshotEventHandler)};
        captures := captures + 1;
      }
    }

    /** The gate, the template and the keys of `on_print_progress`, before anything is sent. */
    method RenderProgress(progress: int) returns (m: Result<Option<Message>, Error>)
      ensures m == MessageKeys.ProgressMessage(settings, progress, CurrentKeys())
    {
      var setting := IntOf(Get(settings, ["events", "progress", "interval"]));
      if setting.Failure? {
        return Failure(setting.error);
      }
      var interval := if setting.value == 0 then 1 else setting.value;
      Progress.ReportsIff(progress, interval);
      if progress == 0 || progress % interval != 0 || progress == 100 {
        return Success(None);
      }
      if !Truthy(Get(settings, ["events", "progress", "enabled"])) {
        return Failure(TemplateUnbound);
      }
      var template := Get(settings, ["events", "progress", "template"]);
      var keys := GenerateMessageKeys();
      keys := keys["pct_completed" := Val(Int(progress))];
      if !template.Text? {
        return Failure(TemplateNotText);
      }
      return Success(Some(Message(template.s, keys)));
    }
  }

  /**
   * A finished capture followed by a stale failed-capture signal for the same request: only the
   * first is handled, so the file is uploaded once and nothing else is subscribed afterwards.
   */
  method CaptureHandledOnce(p: AsyncMatrixNotifierPlugin, path: string, world: World)
    returns (first: Outcome<Error>, second: Outcome<Error>)
    requires CaptureSubscriptions <= p.subscriptions
    requires path in world.files
    modifies p`room, p`roomAlias, p`calls, p`subscriptions
    ensures Uploads(p.calls) == Uploads(old(p.calls)) + [Raw(world.files[path])]
    ensures p.subscriptions == old(p.subscriptions) - CaptureSubscriptions
  {
    ghost var before := p.calls;
    ghost var lookup := p.Lookup(world);
    ghost var cache := p.Cache();
    var payload := map["file" := Text(path)];
    first := p.Deliver(CaptureDone, payload, world);
    ghost var e := HandledEffect(CaptureDone, payload, world, lookup, cache);
    assert p.calls == before + e.calls;
    assert e == SnapshotEffect(Text(path), world, lookup, cache);
    RoomCache.LookupCalls(Get(p.settings, ["room"]), cache, world.directory);
    SnapshotUploadsOnce(Text(path), world, lookup, cache);
    UploadsAppend(before, e.calls);
    second := p.Deliver(CaptureFailed, map[], world);
  }

  /**
   * As written, a progress tick that is reported while snapshots are on raises once the text
   * message is out: here a tick of 50 with interval 10 and a `!` room.
   */
  method ProgressWithSnapshotRaises() returns (r: Outcome<Error>, log: seq<Call>)
    ensures r == Fail(SnapshotArgumentMissing)
    ensures |log| == 1 && log[0].SendMarkdown? && log[0].roomId == "!printer:example.org"
  {
    var settings := map[
      ["events", "progress", "interval"] := Int(10),
      ["events", "progress", "enabled"] := Bool(true),
      ["events", "progress", "template"] := Text("Print Progress {pct_completed}%"),
      ["room"] := Text("!printer:example.org"),
      ["send_snapshot"] := Bool(true)];
    var data := PrinterData(None, None, None, None, None, None);
    var plugin := new AsyncMatrixNotifierPlugin(settings, Printer([], data, key => false));
    Progress.ReportsIff(50, 10);
    r := plugin.OnPrintProgressAsWritten(50, World(map[], map[], map[], map[], ""));
    log := plugin.calls;
  }
}
