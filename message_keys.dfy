/**
 * How both plugins turn an event into a message: which events are handled, which template is
 * used, and which substitution keys the template is given.
 */
module MessageKeys {
  import opened Wrappers
  import opened Host
  import opened Matrix
  import Progress

  /** `_seconds_delta_to_string`: `None` stays `None`, seconds become a formatted time delta. */
  function DeltaKey(seconds: Option<real>): KeyValue {
    match seconds
    case None => Val(Null)
    case Some(x) => Delta(x)
  }

  function TextKey(s: Option<string>): KeyValue {
    match s
    case None => Val(Null)
    case Some(t) => Val(Text(t))
  }

  /**
   * `generate_message_keys`: the temperature line and the job's data; `withCompletion` is the
   * asynchronous plugin, which also passes the job's `completion` through the delta formatter.
   */
  function Generated(temperature: Option<string>, data: PrinterData, withCompletion: bool): map<string, KeyValue> {
    var keys := map[
      "temperature" := TextKey(temperature),
      "remaining_time" := DeltaKey(data.printTimeLeft),
      "total_estimated_time" := DeltaKey(data.estimatedPrintTime),
      "elapsed_time" := DeltaKey(data.printTime),
      "user" := TextKey(data.user),
      "filename" := TextKey(data.fileName)];
    if withCompletion then keys["completion" := DeltaKey(data.completion)] else keys
  }

  /**
   * `{"reason": payload.get("reason"), "elapsed_time": None, **keys}`, after which a payload
   * `time` replaces `elapsed_time`; a `time` that is not a number raises.
   */
  function EventKeys(generated: map<string, KeyValue>, payload: Payload): (r: Result<map<string, KeyValue>, Error>)
    ensures r.Success? <==> ("time" !in payload || SecondsOf(payload["time"]).Some?)
    ensures r.Failure? ==> r.error == TimeNotNumber
    ensures r.Success? ==> r.value.Keys == generated.Keys + {"reason", "elapsed_time"}
    ensures r.Success? ==> forall k :: k in generated && k != "elapsed_time" ==> r.value[k] == generated[k]
    ensures r.Success? && "reason" !in generated ==> r.value["reason"] == Val(Lookup(payload, "reason"))
    ensures r.Success? && "time" in payload ==> r.value["elapsed_time"] == Delta(SecondsOf(payload["time"]).value)
    ensures r.Success? && "time" !in payload ==>
      r.value["elapsed_time"] == if "elapsed_time" in generated then generated["elapsed_time"] else Val(Null)
  {
    var merged := map["reason" := Val(Lookup(payload, "reason")), "elapsed_time" := Val(Null)] + generated;
    if "time" in payload then
      match SecondsOf(payload["time"])
      case None => Failure(TimeNotNumber)
      case Some(seconds) => Success(merged["elapsed_time" := Delta(seconds)])
    else Success(merged)
  }

  /**
   * With the generated keys, `reason` is the payload's reason, and `elapsed_time` is the payload's
   * time when it has one and the job's print time otherwise: the `None` default never survives.
   */
  lemma ReasonAndElapsedTime(temperature: Option<string>, data: PrinterData, withCompletion: bool, payload: Payload)
    requires "time" !in payload || SecondsOf(payload["time"]).Some?
    ensures var keys := EventKeys(Generated(temperature, data, withCompletion), payload);
      && keys.Success?
      && keys.value["reason"] == Val(Lookup(payload, "reason"))
      && keys.value["elapsed_time"] == (if "time" in payload then Delta(SecondsOf(payload["time"]).value) else DeltaKey(data.printTime))
      && keys.value["filename"] == TextKey(data.fileName)
      && keys.value["temperature"] == TextKey(temperature)
  {
  }

  /** The template key an event reads; `progress` switches to `progress_snapshot` when asked to. */
  function TemplatePath(event: string, snapshotTemplate: bool): Path {
    if event == "progress" && snapshotTemplate then ["events", "progress_snapshot", "template"]
    else ["events", event, "template"]
  }

  /**
   * What `on_event` renders: `None` for an event with no settings entry; otherwise the template's
   * message, or the error its keys or its template raise. `snapshotVariant` is the asynchronous
   * plugin, whose `progress` event uses the snapshot template when snapshots are on.
   */
  function EventMessage(settings: Settings, event: string, payload: Option<Payload>,
                        generated: map<string, KeyValue>, snapshotVariant: bool): (r: Result<Option<Message>, Error>)
    ensures r == Success(None) <==> !Truthy(Get(settings, ["events", event]))
  {
    if !Truthy(Get(settings, ["events", event])) then Success(None)
    else
      var p := payload.GetOr(map[]);
      var template := Get(settings, TemplatePath(event, snapshotVariant && Truthy(Get(settings, ["send_snapshot"]))));
      var keys :- EventKeys(generated, p);
      if template.Text? then Success(Some(Message(template.s, keys))) else Failure(TemplateNotText)
  }

  /** The `enabled` flag of an event is never consulted (`... or True`). */
  lemma EnabledFlagIgnored(settings: Settings, event: string, payload: Option<Payload>,
                           generated: map<string, KeyValue>, snapshotVariant: bool, flag: Value)
    ensures EventMessage(settings[["events", event, "enabled"] := flag], event, payload, generated, snapshotVariant)
         == EventMessage(settings, event, payload, generated, snapshotVariant)
  {
    var s' := settings[["events", event, "enabled"] := flag];
    assert Get(s', ["events", event]) == Get(settings, ["events", event]);
    assert Get(s', ["send_snapshot"]) == Get(settings, ["send_snapshot"]);
    var path := TemplatePath(event, snapshotVariant && Truthy(Get(settings, ["send_snapshot"])));
    assert path[|path| - 1] == "template";
    assert Get(s', path) == Get(settings, path);
  }

  /**
   * In the asynchronous plugin with snapshots on, a handled `progress` event renders the
   * `progress_snapshot` template; otherwise an event renders its own template.
   */
  lemma TemplateChoice(settings: Settings, event: string, payload: Option<Payload>,
                       generated: map<string, KeyValue>, snapshotVariant: bool)
    requires EventMessage(settings, event, payload, generated, snapshotVariant).Success?
    requires EventMessage(settings, event, payload, generated, snapshotVariant).value.Some?
    ensures var m := EventMessage(settings, event, payload, generated, snapshotVariant).value.value;
      && (event == "progress" && snapshotVariant && Truthy(Get(settings, ["send_snapshot"])) ==>
            Get(settings, ["events", "progress_snapshot", "template"]) == Text(m.template))
      && (event != "progress" || !snapshotVariant || !Truthy(Get(settings, ["send_snapshot"])) ==>
            Get(settings, ["events", event, "template"]) == Text(m.template))
  {
  }

  /**
   * What `on_print_progress` renders: `None` when the gate suppresses the tick; raises when the
   * interval is not a number, when progress is disabled (`template` is then never assigned) or
   * when the template is not a string.
   */
  function ProgressMessage(settings: Settings, progress: int, generated: map<string, KeyValue>): (r: Result<Option<Message>, Error>)
    ensures r.Success? && r.value.Some? ==> r.value.value.keys == generated["pct_completed" := Val(Int(progress))]
  {
    var interval :- Progress.EffectiveInterval(Get(settings, ["events", "progress", "interval"]));
    if !Progress.Reports(progress, interval) then Success(None)
    else if !Truthy(Get(settings, ["events", "progress", "enabled"])) then Failure(TemplateUnbound)
    else
      var template := Get(settings, ["events", "progress", "template"]);
      if template.Text? then Success(Some(Message(template.s, generated["pct_completed" := Val(Int(progress))])))
      else Failure(TemplateNotText)
  }

  /** Ticks the gate suppresses render nothing: 0, 100, and non-multiples of the interval. */
  lemma SuppressedTicksRenderNothing(settings: Settings, progress: int, generated: map<string, KeyValue>, interval: int)
    requires Get(settings, ["events", "progress", "interval"]) == Int(interval)
    requires progress == 0 || progress == 100 || progress % (if interval == 0 then 1 else interval) != 0
    ensures ProgressMessage(settings, progress, generated) == Success(None)
  {
    Progress.ReportsIff(progress, if interval == 0 then 1 else interval);
  }
}
