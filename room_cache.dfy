/**
 * The room-identifier memo of both plugins (`room_id` with the fields `_room` and `_room_alias`):
 * a configured `!` room id is used as it is, a `#` alias is resolved on the homeserver once and
 * reused while the configured alias is unchanged, and anything else is a configuration error.
 */
module RoomCache {
  import opened Wrappers
  import opened Host
  import opened Matrix

  /** The memo fields `_room` and `_room_alias`; both start as `None`. */
  datatype Cache = Cache(room: Option<string>, alias: Option<string>)

  /** What one `room_id` read returns or raises, the memo afterwards, and the client calls made. */
  datatype Resolution = Resolution(result: Result<string, Error>, cache: Cache, calls: seq<Call>)

  predicate StartsWith(s: string, c: char) {
    |s| > 0 && s[0] == c
  }

  /** `room == self._room_alias and self._room`. */
  predicate Hit(cache: Cache, alias: string) {
    cache.alias == Some(alias) && cache.room.Some? && cache.room.value != ""
  }

  /**
   * `room_id` as the code is written: the `!` branch stores the id in `_room` but leaves
   * `_room_alias` as it was.
   */
  function ResolveAsWritten(setting: Value, cache: Cache, directory: map<string, string>): (res: Resolution)
  {
    match setting
    case Text(room) =>
      if StartsWith(room, '!') then
        Resolution(Success(room), cache.(room := Some(room)), [])
      else if StartsWith(room, '#') then
        if Hit(cache, room) then Resolution(Success(cache.room.value), cache, [])
        else if room in directory then
          Resolution(Success(directory[room]), Cache(Some(directory[room]), Some(room)), [ResolveAlias(room)])
        else Resolution(Failure(AliasUnresolved), cache, [ResolveAlias(room)])
      else Resolution(Failure(RoomPrefix), cache, [])
    case _ => Resolution(Failure(RoomNotText), cache, [])
  }

  /**
   * `room_id` as intended: identical, except that storing a `!` id also forgets the cached alias,
   * so a later read of that alias cannot return the `!` id in its place.
   */
  function Resolve(setting: Value, cache: Cache, directory: map<string, string>): (res: Resolution)
  {
    match setting
    case Text(room) =>
      if StartsWith(room, '!') then
        Resolution(Success(room), Cache(Some(room), None), [])
      else ResolveAsWritten(setting, cache, directory)
    case _ => ResolveAsWritten(setting, cache, directory)
  }

  /**
   * Either form of `room_id` makes at most one call to the client, and that call resolves an
   * alias: it uploads nothing and sends no text.
   */
  lemma LookupCalls(setting: Value, cache: Cache, directory: map<string, string>)
    ensures var res := ResolveAsWritten(setting, cache, directory);
      |res.calls| <= 1 && Resolutions(res.calls) == |res.calls| && Uploads(res.calls) == [] && Texts(res.calls) == []
    ensures var res := Resolve(setting, cache, directory);
      |res.calls| <= 1 && Resolutions(res.calls) == |res.calls| && Uploads(res.calls) == [] && Texts(res.calls) == []
  {
  }

  /** A configured `!` id is returned and stored, with no client call. */
  lemma IdIsUsedDirectly(room: string, cache: Cache, directory: map<string, string>)
    requires StartsWith(room, '!')
    ensures var res := Resolve(Text(room), cache, directory);
      res.result == Success(room) && res.cache.room == Some(room) && res.calls == []
  {
  }

  /** A `#` alias equal to the cached alias, with a truthy cached room, is a hit: no call, no change. */
  lemma AliasHitIsReused(room: string, cache: Cache, directory: map<string, string>)
    requires StartsWith(room, '#') && Hit(cache, room)
    ensures var res := Resolve(Text(room), cache, directory);
      res.result == Success(cache.room.value) && res.cache == cache && res.calls == []
  {
  }

  /**
   * A `#` alias that misses makes exactly one resolution call; on success both memo fields are
   * set, on failure the error propagates and the memo is unchanged.
   */
  lemma AliasMissResolvesOnce(room: string, cache: Cache, directory: map<string, string>)
    requires StartsWith(room, '#') && !Hit(cache, room)
    ensures var res := Resolve(Text(room), cache, directory);
      && res.calls == [ResolveAlias(room)]
      && (room in directory ==>
            res.result == Success(directory[room]) && res.cache == Cache(Some(directory[room]), Some(room)))
      && (room !in directory ==> res.result == Failure(AliasUnresolved) && res.cache == cache)
  {
  }

  /** After a successful resolution, reading the same alias again is a hit with the same answer. */
  lemma RepeatedAliasIsHit(room: string, cache: Cache, directory: map<string, string>)
    requires StartsWith(room, '#') && room in directory && directory[room] != ""
    ensures var first := Resolve(Text(room), cache, directory);
      var second := Resolve(Text(room), first.cache, directory);
      second.calls == [] && second.cache == first.cache && second.result == first.result
  {
  }

  /** Any other room setting, the empty string included, raises and leaves the memo unchanged. */
  lemma OtherPrefixRaises(setting: Value, cache: Cache, directory: map<string, string>)
    requires !(setting.Text? && (StartsWith(setting.s, '!') || StartsWith(setting.s, '#')))
    ensures var res := Resolve(setting, cache, directory);
      res.result.Failure? && res.cache == cache && res.calls == []
      && (setting.Text? ==> res.result.error == RoomPrefix)
  {
  }

  /** `n` reads of `room_id` in a row with the same setting, threading the memo. */
  function ResolveTimes(setting: Value, cache: Cache, directory: map<string, string>, n: nat): (res: Resolution)
    requires n > 0
    decreases n
  {
    var first := Resolve(setting, cache, directory);
    if n == 1 then first
      else
        var rest := ResolveTimes(setting, first.cache, directory, n - 1);
        rest.(calls := first.calls + rest.calls)
  }

  /** A setting that is a resolvable alias is resolved at most once however often it is read. */
  lemma {:induction false} AtMostOneResolutionPerAlias(room: string, cache: Cache, directory: map<string, string>, n: nat)
    requires StartsWith(room, '#') && room in directory && directory[room] != "" && n > 0
    ensures Resolutions(ResolveTimes(Text(room), cache, directory, n).calls) <= 1
    ensures Hit(cache, room) ==> Resolutions(ResolveTimes(Text(room), cache, directory, n).calls) == 0
    decreases n
  {
    if n > 1 {
      var first := Resolve(Text(room), cache, directory);
      assert Hit(first.cache, room);
      AtMostOneResolutionPerAlias(room, first.cache, directory, n - 1);
      ResolutionsAppend(first.calls, ResolveTimes(Text(room), first.cache, directory, n - 1).calls);
    }
  }

  /** The memo is sound when a cached alias is paired with the id the directory gives it. */
  predicate Sound(cache: Cache, directory: map<string, string>) {
    cache.alias.Some? ==> cache.alias.value in directory && cache.room == Some(directory[cache.alias.value])
  }

  /** The intended `room_id` keeps the memo sound, and so answers an alias with its directory entry. */
  lemma ResolveIsSound(setting: Value, cache: Cache, directory: map<string, string>)
    requires Sound(cache, directory)
    ensures var res := Resolve(setting, cache, directory);
      && Sound(res.cache, directory)
      && (setting.Text? && StartsWith(setting.s, '#') && res.result.Success? ==>
            setting.s in directory && res.result.value == directory[setting.s])
  {
  }

  /**
   * As written, a `!` setting leaves the old alias cached beside the new id: configuring `#a`
   * (resolved to `!x`), then `!y`, then `#a` again returns `!y` for `#a`, with no resolution.
   */
  lemma StaleIdAfterIdSetting()
    ensures var directory := map["#a" := "!x"];
      var first := ResolveAsWritten(Text("#a"), Cache(None, None), directory);
      var second := ResolveAsWritten(Text("!y"), first.cache, directory);
      var third := ResolveAsWritten(Text("#a"), second.cache, directory);
      third.result == Success("!y") && third.result != Success(directory["#a"]) && third.calls == []
  {
    var directory := map["#a" := "!x"];
    var first := ResolveAsWritten(Text("#a"), Cache(None, None), directory);
    assert first.cache == Cache(Some("!x"), Some("#a"));
    var second := ResolveAsWritten(Text("!y"), first.cache, directory);
    assert second.cache == Cache(Some("!y"), Some("#a"));
    assert Hit(second.cache, "#a");
  }

  /** The outcome of a call whose only failure is the room lookup's. */
  function OutcomeOf(result: Result<string, Error>): Outcome<Error> {
    match result
    case Success(_) => Pass
    case Failure(e) => Fail(e)
  }

  /**
   * The calls of `room_send_markdown_message(self.room_id, message)`: the lookup's calls, then
   * the send when the lookup returned a room id.
   */
  function MarkdownCalls(res: Resolution, message: Message): (log: seq<Call>)
    ensures Resolutions(log) == Resolutions(res.calls)
  {
    ResolutionsAppend(res.calls, if res.result.Success? then [SendMarkdown(res.result.value, message)] else []);
    res.calls + (if res.result.Success? then [SendMarkdown(res.result.value, message)] else [])
  }

  /** The calls of `room_send(self.room_id, "m.room.message", content)` for an image. */
  function ImageCalls(res: Resolution, content: ImageContent): (log: seq<Call>)
    ensures Resolutions(log) == Resolutions(res.calls)
  {
    ResolutionsAppend(res.calls, if res.result.Success? then [SendImage(res.result.value, content)] else []);
    res.calls + (if res.result.Success? then [SendImage(res.result.value, content)] else [])
  }

  /** What a step does through the chat client: the calls it makes, the memo after it, its outcome. */
  datatype Effect = Effect(calls: seq<Call>, cache: Cache, result: Outcome<Error>)

  /** Sending `message` to the room that `lookup` finds (`room_send_markdown_message(self.room_id, message)`). */
  function MessageEffect(message: Message, lookup: Resolution): Effect {
    Effect(MarkdownCalls(lookup, message), lookup.cache, OutcomeOf(lookup.result))
  }
}
