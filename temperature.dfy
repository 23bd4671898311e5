/**
 * The temperature line of both plugins (`temperature_status_string`): the bed reading, then one
 * component per tool in the printer's order, joined by single spaces; a single tool is called
 * "Nozzle", several are numbered from "Nozzle 0".
 */
module Temperature {
  import opened Wrappers
  import opened Host

  /** `s.replace(pat, rep)`: every non-overlapping occurrence, scanning from the left. */
  function ReplaceAll(s: string, pat: string, rep: string): string
    requires pat != ""
    decreases |s|
  {
    if |s| < |pat| then s
    else if s[..|pat|] == pat then rep + ReplaceAll(s[|pat|..], pat, rep)
    else [s[0]] + ReplaceAll(s[1..], pat, rep)
  }

  /** A string without a `t` has no occurrence of "tool" and is left as it is. */
  lemma {:induction false} ReplaceLeavesOtherText(s: string, rep: string)
    requires forall i :: 0 <= i < |s| ==> s[i] != 't'
    ensures ReplaceAll(s, "tool", rep) == s
    decreases |s|
  {
    if |s| >= 4 {
      assert s[..4] != "tool" by { assert s[..4][0] == s[0]; }
      ReplaceLeavesOtherText(s[1..], rep);
      assert [s[0]] + s[1..] == s;
    }
  }

  /** A tool key `tool<N>` is renamed `Nozzle <N>`. */
  lemma ToolKeyRenamed(digits: string)
    requires IsDigits(digits)
    ensures ReplaceAll("tool" + digits, "tool", "Nozzle ") == "Nozzle " + digits
  {
    var s := "tool" + digits;
    assert s[..4] == "tool";
    assert s[4..] == digits;
    ReplaceLeavesOtherText(digits, "Nozzle ");
  }

  /** `[key for key in printer_temps if valid_tool_regex.match(key)]`, with the entries kept. */
  function ToolEntries(temps: seq<TempEntry>, isTool: string -> bool): (tools: seq<TempEntry>)
    ensures |tools| <= |temps|
  {
    if temps == [] then []
    else (if isTool(temps[0].key) then [temps[0]] else []) + ToolEntries(temps[1..], isTool)
  }

  /** The tool entries are exactly the entries whose key the tool pattern matches. */
  lemma {:induction false} ToolEntriesAreTheTools(temps: seq<TempEntry>, isTool: string -> bool)
    ensures forall e :: e in ToolEntries(temps, isTool) <==> e in temps && isTool(e.key)
    decreases |temps|
  {
    if temps != [] {
      ToolEntriesAreTheTools(temps[1..], isTool);
      assert temps == [temps[0]] + temps[1..];
    }
  }

  /** The first entry with the given key (`printer_temps[key]`). */
  function FindEntry(temps: seq<TempEntry>, key: string): Option<TempEntry> {
    if temps == [] then None
    else if temps[0].key == key then Some(temps[0])
    else FindEntry(temps[1..], key)
  }

  /** The lookup fails exactly when no entry has the key, and otherwise finds the first such entry. */
  lemma {:induction false} FindEntryFinds(temps: seq<TempEntry>, key: string)
    ensures FindEntry(temps, key).None? <==> forall e :: e in temps ==> e.key != key
    ensures FindEntry(temps, key).Some? ==>
      exists i :: (&& 0 <= i < |temps| && temps[i] == FindEntry(temps, key).value && temps[i].key == key
                   && forall j :: 0 <= j < i ==> temps[j].key != key)
    decreases |temps|
  {
    if temps != [] {
      FindEntryFinds(temps[1..], key);
      assert temps == [temps[0]] + temps[1..];
      if temps[0].key != key && FindEntry(temps, key).Some? {
        var i :| 0 <= i < |temps[1..]| && temps[1..][i] == FindEntry(temps, key).value
          && temps[1..][i].key == key && forall j :: 0 <= j < i ==> temps[1..][j].key != key;
        assert temps[i + 1] == temps[1..][i];
        assert forall j :: 1 <= j < i + 1 ==> temps[j] == temps[1..][j - 1];
      }
    }
  }

  /** `first_key`: the first of `count` tools is "Nozzle" when it is the only one, else "Nozzle 0". */
  function FirstToolName(count: nat): string {
    if count == 1 then "Nozzle" else "Nozzle 0"
  }

  /** A later tool is named after its key: `key.replace("tool", "Nozzle ")`. */
  function LaterToolName(key: string): string {
    ReplaceAll(key, "tool", "Nozzle ")
  }

  /** The name of the `i`-th of `count` tools whose key is `key`. */
  function ToolName(i: nat, key: string, count: nat): string {
    if i == 0 then FirstToolName(count) else LaterToolName(key)
  }

  /** `"{tool_name}: {current_temp}°C / {target_temp}°C"`. */
  function Component(name: string, e: TempEntry): string {
    name + ": " + e.actual + "°C / " + e.target + "°C"
  }

  /** `sep.join(parts)`. */
  function Join(parts: seq<string>, sep: string): string {
    if |parts| == 0 then ""
    else if |parts| == 1 then parts[0]
    else parts[0] + sep + Join(parts[1..], sep)
  }

  function Components(tools: seq<TempEntry>): seq<string> {
    seq(|tools|, i requires 0 <= i < |tools| => Component(ToolName(i, tools[i].key, |tools|), tools[i]))
  }

  function BedPrefix(bed: TempEntry): string {
    "Bed: " + bed.actual + "°C / " + bed.target + "°C "
  }

  /** The bed reading followed by the tool components, space-joined. */
  function Line(bed: TempEntry, components: seq<string>): string {
    BedPrefix(bed) + Join(components, " ")
  }

  /** The temperature line, or `None` when the printer reports no bed. */
  function Status(temps: seq<TempEntry>, isTool: string -> bool): Option<string> {
    match FindEntry(temps, "bed")
    case None => None
    case Some(bed) => Some(Line(bed, Components(ToolEntries(temps, isTool))))
  }

  /** There is a line exactly when some entry is the bed. */
  lemma NoLineWithoutBed(temps: seq<TempEntry>, isTool: string -> bool)
    ensures Status(temps, isTool).None? <==> forall e :: e in temps ==> e.key != "bed"
  {
    FindEntryFinds(temps, "bed");
  }

  /**
   * The line starts with the bed reading; then the tools follow in the printer's order, the
   * first called "Nozzle" when it is the only one and "Nozzle 0" otherwise, every later one named
   * by replacing "tool" in its key with "Nozzle ".
   */
  lemma LineLayout(temps: seq<TempEntry>, isTool: string -> bool, bed: TempEntry)
    requires FindEntry(temps, "bed") == Some(bed)
    ensures var tools := ToolEntries(temps, isTool);
      var parts := Components(tools);
      && Status(temps, isTool) == Some(BedPrefix(bed) + Join(parts, " "))
      && |parts| == |tools|
      && (|tools| == 1 ==> parts[0] == Component("Nozzle", tools[0]))
      && (|tools| > 1 ==> parts[0] == Component("Nozzle 0", tools[0]))
      && (forall i :: 0 < i < |tools| ==> parts[i] == Component(ReplaceAll(tools[i].key, "tool", "Nozzle "), tools[i]))
  {
  }
}
