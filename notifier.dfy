/**
 * The original plugin (`MatrixNotifierPlugin`): it sends the event's message and, when snapshots
 * are on, sends one picture per configured camera, each on its own thread, fetched from the
 * camera's snapshot URL, flipped and rotated as configured, uploaded and posted as an image.
 */
module Notifier {
  import opened Wrappers
  import opened Host
  import opened Matrix
  import opened Environment
  import RoomCache
  import Temperature
  import MessageKeys
  import Progress
  import opened Snapshot

  /** `upload_media(data, "image/jpg")["content_uri"]` succeeds only on a reply holding that key. */
  predicate HasContentUri(reply: UploadReply) {
    reply.Reply? && "content_uri" in reply.fields
  }

  /** The body of the image message: `<camera>_<time>.jpg`. */
  function ImageName(camera: string, stamp: string): string {
    camera + "_" + stamp + ".jpg"
  }

  /**
   * What `send_snapshot_t` does with the frame `take_image` gave: nothing without one; otherwise
   * the upload, then, when the reply has a content URI, the image message `name` to the room
   * that `lookup` finds. A missing content URI ends the thread with an error after the upload.
   */
  function TransferEffect(frame: Option<Picture>, name: string, world: World, lookup: RoomCache.Resolution,
                          cache: RoomCache.Cache): RoomCache.Effect {
    match frame
    case None => RoomCache.Effect([], cache, Pass)
    case Some(picture) =>
      var upload := Upload(picture, None, "image/jpg");
      var reply := UploadReplyFor(world, picture);
      if !HasContentUri(reply) then RoomCache.Effect([upload], cache, Fail(UploadUnanswered))
      else
        var content := ImageContent(name, reply.fields["content_uri"]);
        RoomCache.Effect([upload] + RoomCache.ImageCalls(lookup, content), lookup.cache,
                         RoomCache.OutcomeOf(lookup.result))
  }

  /** A camera's thread uploads its frame, if it has one, and nothing else; it sends no text. */
  lemma TransferUploadsFrame(frame: Option<Picture>, name: string, world: World, lookup: RoomCache.Resolution,
                             cache: RoomCache.Cache)
    requires Uploads(lookup.calls) == [] && Texts(lookup.calls) == []
    ensures var e := TransferEffect(frame, name, world, lookup, cache);
      Uploads(e.calls) == (if frame.Some? then [frame.value] else []) && Texts(e.calls) == []
  {
    var e := TransferEffect(frame, name, world, lookup, cache);
    if e.calls != [] && e.calls != [e.calls[0]] {
      var rest := e.calls[1..];
      assert e.calls == [e.calls[0]] + rest;
      var sent := if lookup.result.Success? then [SendImage(lookup.result.value, ImageContent(name,
        UploadReplyFor(world, frame.value).fields["content_uri"]))] else [];
      assert rest == lookup.calls + sent;
      UploadsAppend(lookup.calls, sent);
      UploadsAppend([e.calls[0]], rest);
      TextsAppend(lookup.calls, sent);
      TextsAppend([e.calls[0]], rest);
    }
  }

  /** Without a frame a camera's thread makes no call at all; without a content URI, only the upload. */
  lemma NoFrameNoCalls(frame: Option<Picture>, name: string, world: World, lookup: RoomCache.Resolution,
                       cache: RoomCache.Cache)
    ensures frame.None? ==> TransferEffect(frame, name, world, lookup, cache).calls == []
    ensures frame.Some? && !HasContentUri(UploadReplyFor(world, frame.value)) ==>
      TransferEffect(frame, name, world, lookup, cache)
        == RoomCache.Effect([Upload(frame.value, None, "image/jpg")], cache, Fail(UploadUnanswered))
  {
  }

  /**
   * One camera's `send_snapshot_t` thread, started with the memo `cache`: `take_image` on the
   * camera's URL and flags, then the transfer of the frame to the `room` setting's room.
   */
  function CameraEffect(cam: Camera, invert: bool, room: Value, world: World, cache: RoomCache.Cache): RoomCache.Effect {
    TransferEffect(Frame(cam.snapshot, cam.flipH, cam.flipV, cam.rotate90, invert, world.cameras),
                   ImageName(cam.name, world.stamp), world, RoomCache.Resolve(room, cache, world.directory), cache)
  }

  /**
   * `send_snapshot`: the cameras' threads one after another, each finding the memo the one before
   * it left. A thread's outcome reaches no one, so the whole step passes.
   */
  function SnapshotsEffect(cams: seq<Camera>, invert: bool, room: Value, world: World,
                           cache: RoomCache.Cache): RoomCache.Effect
    decreases |cams|
  {
    if cams == [] then RoomCache.Effect([], cache, Pass)
    else
      var prior := SnapshotsEffect(cams[..|cams| - 1], invert, room, world, cache);
      var last := CameraEffect(cams[|cams| - 1], invert, room, world, prior.cache);
      RoomCache.Effect(prior.calls + last.calls, last.cache, Pass)
  }

  /**
   * The shared tail of `on_event` and `on_print_progress`: the text to the room `room_id` finds,
   * then, when it went out and `send` (the `send_snapshot` setting) holds, the snapshots.
   */
  function PublishEffect(message: Message, send: bool, cams: seq<Camera>, invert: bool, room: Value, world: World,
                         cache: RoomCache.Cache): RoomCache.Effect {
    var text := RoomCache.MessageEffect(message, RoomCache.Resolve(room, cache, world.directory));
    if text.result.Fail? || !send then text
    else
      var shots := SnapshotsEffect(cams, invert, room, world, text.cache);
      RoomCache.Effect(text.calls + shots.calls, shots.cache, Pass)
  }

  /** Running the next camera's thread extends the calls and the memo of the threads before it. */
  lemma SnapshotsStep(cams: seq<Camera>, i: nat, invert: bool, room: Value, world: World, start: RoomCache.Cache,
                      before: seq<Call>, mid: seq<Call>, after: seq<Call>, cache: RoomCache.Cache)
    requires i < |cams|
    requires mid == before + SnapshotsEffect(cams[..i], invert, room, world, start).calls
    requires var last := CameraEffect(cams[i], invert, room, world, SnapshotsEffect(cams[..i], invert, room, world, start).cache);
      after == mid + last.calls && cache == last.cache
    ensures var e := SnapshotsEffect(cams[..i + 1], invert, room, world, start);
      after == before + e.calls && cache == e.cache
  {
    assert cams[..i + 1][..i] == cams[..i];
  }

  /** A camera's thread uploads that camera's frame, if it gives one, and sends no text. */
  lemma CameraUploadsShot(cam: Camera, invert: bool, room: Value, world: World, cache: RoomCache.Cache)
    ensures var e := CameraEffect(cam, invert, room, world, cache);
      Uploads(e.calls) == Shot(cam, invert, world.cameras) && Texts(e.calls) == []
  {
    RoomCache.LookupCalls(room, cache, world.directory);
    TransferUploadsFrame(Frame(cam.snapshot, cam.flipH, cam.flipV, cam.rotate90, invert, world.cameras),
                         ImageName(cam.name, world.stamp), world, RoomCache.Resolve(room, cache, world.directory), cache);
  }

  /** `send_snapshot` uploads the cameras' frames in camera order, and sends no text. */
  lemma {:induction false} SnapshotsUploadFrames(cams: seq<Camera>, invert: bool, room: Value, world: World,
                                                 cache: RoomCache.Cache)
    ensures var e := SnapshotsEffect(cams, invert, room, world, cache);
      Uploads(e.calls) == Frames(cams, invert, world.cameras) && Texts(e.calls) == []
    decreases |cams|
  {
    if cams != [] {
      var prefix := cams[..|cams| - 1];
      var prior := SnapshotsEffect(prefix, invert, room, world, cache);
      var last := CameraEffect(cams[|cams| - 1], invert, room, world, prior.cache);
      SnapshotsUploadFrames(prefix, invert, room, world, cache);
      CameraUploadsShot(cams[|cams| - 1], invert, room, world, prior.cache);
      UploadsAppend(prior.calls, last.calls);
      TextsAppend(prior.calls, last.calls);
    }
  }

  /** The threads of `send_snapshot` keep the corrected memo sound, each thread in turn. */
  lemma {:induction false} SnapshotsKeepMemoSound(cams: seq<Camera>, invert: bool, room: Value, world: World,
                                                  cache: RoomCache.Cache)
    requires RoomCache.Sound(cache, world.directory)
    ensures RoomCache.Sound(SnapshotsEffect(cams, invert, room, world, cache).cache, world.directory)
    decreases |cams|
  {
    if cams != [] {
      var prior := SnapshotsEffect(cams[..|cams| - 1], invert, room, world, cache);
      SnapshotsKeepMemoSound(cams[..|cams| - 1], invert, room, world, cache);
      RoomCache.ResolveIsSound(room, prior.cache, world.directory);
    }
  }

  /**
   * The text goes out exactly once when `room_id` finds a room, and then the snapshots' uploads
   * are the cameras' frames if `send_snapshot` is on; a failed lookup raises, sends nothing and
   * takes no snapshot.
   */
  lemma PublishSendsTextThenSnapshots(message: Message, send: bool, cams: seq<Camera>, invert: bool, room: Value,
                                      world: World, cache: RoomCache.Cache)
    ensures var lookup := RoomCache.Resolve(room, cache, world.directory);
      var e := PublishEffect(message, send, cams, invert, room, world, cache);
      && (e.result.Pass? <==> lookup.result.Success?)
      && Texts(e.calls) == (if lookup.result.Success? then [message] else [])
      && Uploads(e.calls) == (if lookup.result.Success? && send then Frames(cams, invert, world.cameras) else [])
  {
    var lookup := RoomCache.Resolve(room, cache, world.directory);
    var text := RoomCache.MessageEffect(message, lookup);
    var sent := if lookup.result.Success? then [SendMarkdown(lookup.result.value, message)] else [];
    RoomCache.LookupCalls(room, cache, world.directory);
    assert text.calls == lookup.calls + sent;
    TextsAppend(lookup.calls, sent);
    UploadsAppend(lookup.calls, sent);
    if lookup.result.Success? && send {
      var shots := SnapshotsEffect(cams, invert, room, world, text.cache);
      SnapshotsUploadFrames(cams, invert, room, world, text.cache);
      TextsAppend(text.calls, shots.calls);
      UploadsAppend(text.calls, shots.calls);
    }
  }

  class MatrixNotifierPlugin {
    var settings: Settings                        // this plugin's settings
    var globalSettings: Settings                  // the host's settings (`global_get`)
    var multicamProfiles: Option<seq<Camera>>     // plugins/multicam/multicam_profiles, if set
    var printer: Printer
    var room: Option<string>                      // _room
    var roomAlias: Option<string>                 // _room_alias
    var calls: seq<Call>                          // the chat client's calls, oldest first

    function Cache(): RoomCache.Cache
      reads this`room, this`roomAlias
    {
      RoomCache.Cache(room, roomAlias)
    }

    /** The keys `generate_message_keys` produces for the current printer state. */
    function CurrentKeys(): map<string, KeyValue>
      reads this`printer
    {
      MessageKeys.Generated(Temperature.Status(printer.temperatures, printer.isTool), printer.data, false)
    }

    /** The lookup `room_id` makes now. */
    function Lookup(world: World): RoomCache.Resolution
      reads this`settings, this`room, this`roomAlias
    {
      RoomCache.Resolve(Get(settings, ["room"]), Cache(), world.directory)
    }

    /** The cameras snapshots are taken from. */
    function Cameras(): seq<Camera>
      reads this`multicamProfiles, this`globalSettings
    {
      Config(multicamProfiles, globalSettings)
    }

    /** The `invertImgRot` setting. */
    function Inverted(): bool
      reads this`settings
    {
      Truthy(Get(settings, ["invertImgRot"]))
    }

    constructor(settings: Settings, globalSettings: Settings, multicamProfiles: Option<seq<Camera>>, printer: Printer)
      ensures this.settings == settings && this.globalSettings == globalSettings
      ensures this.multicamProfiles == multicamProfiles && this.printer == printer
      ensures Cache() == RoomCache.Cache(None, None) && calls == []
    {
      this.settings := settings;
      this.globalSettings := globalSettings;
      this.multicamProfiles := multicamProfiles;
      this.printer := printer;
      room, roomAlias := None, None;
      calls := [];
    }

    /** `temperature_status_string`. */
    method TemperatureStatusString() returns (status: Option<string>)
      ensures status == Temperature.Status(printer.temperatures, printer.isTool)
    {
      var temps := printer.temperatures;
      var bed := Temperature.FindEntry(temps, "bed");
      if bed.None? {
        return None;
      }
      var tools := Temperature.ToolEntries(temps, printer.isTool);
      var firstKey := Temperature.FirstToolName(|tools|);
      ghost var all := Temperature.Components(tools);
      var components: seq<string> := [];
      for i := 0 to |tools|
        invariant components == all[..i]
      {
        var toolName := if i == 0 then firstKey else Temperature.LaterToolName(tools[i].key);
        assert all[i] == Temperature.Component(toolName, tools[i]);
        assert all[..i + 1] == all[..i] + [all[i]];
        components := components + [Temperature.Component(toolName, tools[i])];
      }
      assert all[..|tools|] == all;
      return Some(Temperature.Line(bed.value, components));
    }

    /** `generate_message_keys`: as in the asynchronous plugin, without the `completion` key. */
    method GenerateMessageKeys() returns (keys: map<string, KeyValue>)
      ensures keys == CurrentKeys()
    {
      keys := map[];
      var temperature := TemperatureStatusString();
      keys := keys["temperature" := MessageKeys.TextKey(temperature)];
      var data := printer.data;
      keys := keys["remaining_time" := MessageKeys.DeltaKey(data.printTimeLeft)];
      keys := keys["total_estimated_time" := MessageKeys.DeltaKey(data.estimatedPrintTime)];
      keys := keys["elapsed_time" := MessageKeys.DeltaKey(data.printTime)];
      keys := keys["user" := MessageKeys.TextKey(data.user)];
      keys := keys["filename" := MessageKeys.TextKey(data.fileName)];
    }

    /**
     * `room_id`, with the correction that a `!` setting also forgets the cached alias (as
     * written, `_room_alias` keeps the old alias; see `RoomCache.ResolveAsWritten`).
     */
    method RoomId(world: World) returns (r: Result<string, Error>)
      modifies this`room, this`roomAlias, this`calls
      ensures var res := old(Lookup(world));
        r == res.result && Cache() == res.cache && calls == old(calls) + res.calls
    {
      var setting := Get(settings, ["room"]);
      if !setting.Text? {
        return Failure(RoomNotText);
      }
      var configured := setting.s;
      if RoomCache.StartsWith(configured, '!') {
        room := Some(configured);
        roomAlias := None;
        return Success(configured);
      }
      if RoomCache.StartsWith(configured, '#') {
        if roomAlias == Some(configured) && room.Some? && room.value != "" {
          return Success(room.value);
        }
        calls := calls + [ResolveAlias(configured)];
        if configured !in world.directory {
          return Failure(AliasUnresolved);
        }
        var id := world.directory[configured];
        room := Some(id);
        roomAlias := Some(configured);
        return Success(id);
      }
      return Failure(RoomPrefix);
    }

    /** `get_snapshot_config`: the MultiCam profiles, else the host webcam when it has a snapshot URL. */
    method GetSnapshotConfig() returns (config: seq<Camera>)
      ensures config == Cameras()
    {
      if multicamProfiles.Some? {
        return multicamProfiles.value;
      }
      config := [];
      var snapshotUrl := Get(globalSettings, ["webcam", "snapshot"]);
      if snapshotUrl != Null {
        config := config + [Camera("webcam", snapshotUrl, Get(globalSettings, ["webcam", "flipH"]),
                                   Get(globalSettings, ["webcam", "flipV"]), Get(globalSettings, ["webcam", "rotate90"]))];
      }
    }

    /** `http_proxy`. */
    method HttpProxy() returns (proxy: map<string, Value>)
      ensures proxy == Proxies(settings)
    {
      proxy := map[];
      var httpProxy := Get(settings, ["http_proxy"]);
      if Truthy(httpProxy) {
        proxy := proxy["http" := httpProxy];
      }
      var httpsProxy := Get(settings, ["https_proxy"]);
      if Truthy(httpsProxy) {
        proxy := proxy["https" := httpsProxy];
      }
    }

    /**
     * `take_image`: the frame, and the request made for it. A request goes out exactly for a
     * truthy URL, through the configured proxies with a 10-second timeout.
     */
    method TakeImage(snapshotUrl: Value, flipH: Value, flipV: Value, rotate: Value, world: World)
      returns (data: Option<Picture>, request: Option<Request>)
      ensures data == Frame(snapshotUrl, flipH, flipV, rotate, Inverted(), world.cameras)
      ensures request.Some? <==> Truthy(snapshotUrl)
      ensures request.Some? ==> request.value == Request(snapshotUrl, Proxies(settings), 10)
    {
      if snapshotUrl == Null {
        return None, None;
      }
      var fetched;
      fetched, request := Fetch(snapshotUrl, world);
      if fetched.None? {
        return None, request;
      }
      if !(Truthy(flipH) || Truthy(flipV) || Truthy(rotate)) {
        return Some(Raw(fetched.value)), request;
      }
      var image := TransposeFrame(fetched.value, Truthy(flipH), Truthy(flipV), Truthy(rotate));
      return Some(Jpeg(image)), request;
    }

    /**
     * The request block of `take_image`: only a truthy URL is requested, through the proxy table
     * with a 10-second timeout; the bytes are the camera's answer, and a failed request gives none.
     */
    method Fetch(snapshotUrl: Value, world: World) returns (fetched: Option<seq<bv8>>, request: Option<Request>)
      ensures request.Some? <==> Truthy(snapshotUrl)
      ensures request.Some? ==> request.value == Request(snapshotUrl, Proxies(settings), 10)
      ensures fetched.Some? <==> Truthy(snapshotUrl) && snapshotUrl.Text? && snapshotUrl.s in world.cameras
      ensures fetched.Some? ==> fetched.value == world.cameras[snapshotUrl.s]
    {
      if !Truthy(snapshotUrl) {
        return None, None;
      }
      var proxy := HttpProxy();
      request := Some(Request(snapshotUrl, proxy, 10));
      if !(snapshotUrl.Text? && snapshotUrl.s in world.cameras) {
        return None, request;
      }
      fetched := Some(world.cameras[snapshotUrl.s]);
    }

    /** The flips and the rotation of `take_image`, in its order, on the decoded frame. */
    method TransposeFrame(data: seq<bv8>, flipH: bool, flipV: bool, rotate: bool) returns (image: Image)
      ensures image == ApplyAll(Decoded(data), Transposes(flipH, flipV, rotate, Inverted()))
    {
      image := Decoded(data);
      ghost var ops: seq<Transpose> := [];
      if flipH {
        ApplyAllAppend(Decoded(data), ops, FlipLeftRight);
        image, ops := Transposed(image, FlipLeftRight), ops + [FlipLeftRight];
      }
      if flipV {
        ApplyAllAppend(Decoded(data), ops, FlipTopBottom);
        image, ops := Transposed(image, FlipTopBottom), ops + [FlipTopBottom];
      }
      if rotate {
        var turn := if !Inverted() then Rotate270 else Rotate90;
        ApplyAllAppend(Decoded(data), ops, turn);
        image, ops := Transposed(image, turn), ops + [turn];
      }
      assert ops == Transposes(flipH, flipV, rotate, Inverted());
    }

    /**
     * `send_snapshot_t` for one camera, run to its end; its outcome is the thread's, which no
     * caller sees.
     */
    method SendSnapshotT(cam: Camera, world: World) returns (r: Outcome<Error>)
      modifies this`room, this`roomAlias, this`calls
      ensures var frame := Frame(cam.snapshot, cam.flipH, cam.flipV, cam.rotate90, Inverted(), world.cameras);
        var e := TransferEffect(frame, ImageName(cam.name, world.stamp), world, old(Lookup(world)), old(Cache()));
        calls == old(calls) + e.calls && Cache() == e.cache && r == e.result
    {
      ghost var before := calls;
      ghost var lookup := Lookup(world);
      var data, _ := TakeImage(cam.snapshot, cam.flipH, cam.flipV, cam.rotate90, world);
      if data.None? {
        return Pass;
      }
      var upload := Upload(data.value, None, "image/jpg");
      calls := calls + [upload];
      var reply := UploadReplyFor(world, data.value);
      if !HasContentUri(reply) {
        return Fail(UploadUnanswered);
      }
      var mxcUrl := reply.fields["content_uri"];
      var content := ImageContent(ImageName(cam.name, world.stamp), mxcUrl);
      var id := RoomId(world);
      if id.Failure? {
        assert calls == before + ([upload] + lookup.calls);
        return Fail(id.error);
      }
      calls := calls + [SendImage(id.value, content)];
      assert calls == before + ([upload] + RoomCache.ImageCalls(lookup, content));
      r := Pass;
    }

    /**
     * `send_snapshot_t` called through the `threaded` decorator: the thread is started and runs to
     * its end, and the caller gets nothing back; what it leaves behind is its calls and the memo.
     */
    method Threaded(cam: Camera, world: World)
      modifies this`room, this`roomAlias, this`calls
      ensures var e := CameraEffect(cam, Inverted(), Get(settings, ["room"]), world, old(Cache()));
        calls == old(calls) + e.calls && Cache() == e.cache
    {
      var _ := SendSnapshotT(cam, world);
    }

    /**
     * `send_snapshot`: one thread per configured camera, modelled one after the other, each
     * finding the memo the one before it left.
     */
    method SendSnapshot(world: World)
      modifies this`room, this`roomAlias, this`calls
      ensures var e := SnapshotsEffect(Cameras(), Inverted(), Get(settings, ["room"]), world, old(Cache()));
        calls == old(calls) + e.calls && Cache() == e.cache
    {
      var cams := GetSnapshotConfig();
      ghost var before, start, room := calls, Cache(), Get(settings, ["room"]);
      for i := 0 to |cams|
        invariant calls == before + SnapshotsEffect(cams[..i], Inverted(), room, world, start).calls
        invariant Cache() == SnapshotsEffect(cams[..i], Inverted(), room, world, start).cache
      {
        ghost var mid := calls;
        Threaded(cams[i], world);
        SnapshotsStep(cams, i, Inverted(), room, world, start, before, mid, calls, Cache());
      }
      assert cams[..|cams|] == cams;
    }

    /**
     * The shared tail of `on_event` and `on_print_progress`: the text message, then, when it went
     * out and snapshots are on, the snapshots. A failed room lookup raises before the snapshots.
     */
    method Publish(message: Message, world: World) returns (r: Outcome<Error>)
      modifies this`room, this`roomAlias, this`calls
      ensures var e := PublishEffect(message, Truthy(Get(settings, ["send_snapshot"])), Cameras(), Inverted(),
                                     Get(settings, ["room"]), world, old(Cache()));
        r == e.result && calls == old(calls) + e.calls && Cache() == e.cache
    {
      var id := RoomId(world);
      if id.Failure? {
        return Fail(id.error);
      }
      calls := calls + [SendMarkdown(id.value, message)];
      if Truthy(Get(settings, ["send_snapshot"])) {
        SendSnapshot(world);
      }
      return Pass;
    }

    /**
     * `on_event`: an event with no settings entry, or whose keys or template raise, makes no call;
     * otherwise the rendered message is sent, followed by the snapshots when it went out and
     * they are on.
     */
    method OnEvent(event: string, payload: Option<Payload>, world: World) returns (r: Outcome<Error>)
      modifies this`room, this`roomAlias, this`calls
      ensures var m := MessageKeys.EventMessage(settings, event, payload, CurrentKeys(), false);
        && (m.Failure? ==> r == Fail(m.error) && unchanged(this))
        && (m == Success(None) ==> r == Pass && unchanged(this))
        && (m.Success? && m.value.Some? ==>
              var e := PublishEffect(m.value.value, Truthy(Get(settings, ["send_snapshot"])), Cameras(), Inverted(),
                                     Get(settings, ["room"]), world, old(Cache()));
              r == e.result && calls == old(calls) + e.calls && Cache() == e.cache)
    {
      if !Truthy(Get(settings, ["events", event])) {
        return Pass;
      }
      var p := if payload.Some? then payload.value else map[];
      var template := Get(settings, ["events", event, "template"]);
      var generated := GenerateMessageKeys();
      var keys := MessageKeys.EventKeys(generated, p);
      if keys.Failure? {
        return Fail(keys.error);
      }
      if !template.Text? {
        return Fail(TemplateNotText);
      }
      r := Publish(Message(template.s, keys.value), world);
    }

    /**
     * `on_print_progress`: a tick the gate suppresses, or whose template raises, makes no call;
     * otherwise the progress message is sent, followed by the snapshots when it went out and they
     * are on.
     */
    method OnPrintProgress(progress: int, world: World) returns (r: Outcome<Error>)
      modifies this`room, this`roomAlias, this`calls
      ensures var m := MessageKeys.ProgressMessage(settings, progress, CurrentKeys());
        && (m.Failure? ==> r == Fail(m.error) && unchanged(this))
        && (m == Success(None) ==> r == Pass && unchanged(this))
        && (m.Success? && m.value.Some? ==>
              var e := PublishEffect(m.value.value, Truthy(Get(settings, ["send_snapshot"])), Cameras(), Inverted(),
                                     Get(settings, ["room"]), world, old(Cache()));
              r == e.result && calls == old(calls) + e.calls && Cache() == e.cache)
    {
      var message := RenderProgress(progress);
      if message.Failure? {
        return Fail(message.error);
      }
      if message.value.None? {
        return Pass;
      }
      r := Publish(message.value.value, world);
    }

    /** The rendering half of `on_print_progress`: the interval, the gate and the template. */
    method RenderProgress(progress: int) returns (m: Result<Option<Message>, Error>)
      ensures m == MessageKeys.ProgressMessage(settings, progress, CurrentKeys())
    {
      var setting := IntOf(Get(settings, ["events", "progress", "interval"]));
      if setting.Failure? {
        return Failure(setting.error);
      }
      var interval := if setting.value == 0 then 1 else setting.value;
      Progress.ReportsIff(progress, interval);
      if progress == 0 || progress % interval != 0 || progress == 100 {
        return Success(None);
      }
      if !Truthy(Get(settings, ["events", "progress", "enabled"])) {
        return Failure(TemplateUnbound);
      }
      var template := Get(settings, ["events", "progress", "template"]);
      var keys := GenerateMessageKeys();
      keys := keys["pct_completed" := Val(Int(progress))];
      if !template.Text? {
        return Failure(TemplateNotText);
      }
      return Success(Some(Message(template.s, keys)));
    }
  }
}
