/**
 * What the printer host application hands the plugins: settings, event payloads, printer
 * telemetry, the capture signals of its event bus, and the exceptions the plugins can raise.
 */
module Host {
  import opened Wrappers

  /** A settings value, an event-payload value or a JSON value, as far as the plugins inspect it. */
  datatype Value =
    | Null
    | Bool(b: bool)
    | Int(n: int)
    | Num(r: real)
    | Text(s: string)
    | Group(size: nat)    // a nested mapping with `size` entries

  /** Python truthiness: `None`, `False`, zero, the empty string and the empty mapping are false. */
  predicate Truthy(v: Value) {
    match v
    case Null => false
    case Bool(b) => b
    case Int(n) => n != 0
    case Num(r) => r != 0.0
    case Text(s) => s != ""
    case Group(size) => size > 0
  }

  /** A key path such as `["events", "progress", "interval"]`. */
  type Path = seq<string>

  /** The settings store: key path to value; a path that is not stored reads as `None`. */
  type Settings = map<Path, Value>

  function Get(settings: Settings, path: Path): (v: Value)
    ensures path !in settings ==> v == Null
  {
    if path in settings then settings[path] else Null
  }

  /** An event payload after `payload or {}`. */
  type Payload = map<string, Value>

  /** `payload.get(key, None)`. */
  function Lookup(payload: Payload, key: string): Value {
    if key in payload then payload[key] else Null
  }

  /**
   * One entry of the printer's current temperatures, in the order the printer reports them;
   * `actual` and `target` are the readings as `str.format` renders them.
   */
  datatype TempEntry = TempEntry(key: string, actual: string, target: string)

  /** The fields of the printer's current data that the message keys use. */
  datatype PrinterData = PrinterData(
    printTimeLeft: Option<real>,
    estimatedPrintTime: Option<real>,
    printTime: Option<real>,
    completion: Option<real>,
    user: Option<string>,
    fileName: Option<string>)

  /**
   * The printer collaborator: its temperatures, its current job data, and the predicate
   * `valid_tool_regex.match` that tells a tool key from other temperature keys.
   */
  datatype Printer = Printer(
    temperatures: seq<TempEntry>,
    data: PrinterData,
    isTool: string -> bool)

  /** The two capture signals of the host's event bus. */
  datatype Signal = CaptureDone | CaptureFailed

  /** The plugin callbacks that are ever subscribed to the bus. */
  datatype Handler = SnapshotEventHandler

  /** One `(signal, handler)` pair registered with the event bus. */
  type Subscription = (Signal, Handler)

  /** The exceptions the modelled code raises, named after the cause. */
  datatype Error =
    | RoomPrefix               // ValueError: room must start with ! or #
    | RoomNotText              // the room setting is not a string
    | AliasUnresolved          // the alias resolution reply carries no room id
    | TemplateNotText          // the template setting has no `format`
    | TemplateUnbound          // `template` was never assigned
    | IntervalNotInt           // `int()` of the interval setting fails
    | TimeNotNumber            // `timedelta(seconds=...)` of a payload time fails
    | FilePathNotText          // `os.path.basename` of a non-string
    | FileUnreadable           // `open` of the captured file fails
    | SnapshotArgumentMissing  // `send_snapshot()` called without its `file_path`
    | UploadUnanswered         // the upload reply has no `content_uri`

  predicate IsDigits(s: string) {
    forall i :: 0 <= i < |s| ==> '0' <= s[i] <= '9'
  }

  /** The ASCII whitespace `str.strip` and `int` remove: space, tab, newline, vertical tab, form feed, return. */
  predicate IsSpace(c: char) {
    c == ' ' || '\t' <= c <= '\r'
  }

  function TrimStart(s: string): string
    decreases |s|
  {
    if s != [] && IsSpace(s[0]) then TrimStart(s[1..]) else s
  }

  function TrimEnd(s: string): string
    decreases |s|
  {
    if s != [] && IsSpace(s[|s| - 1]) then TrimEnd(s[..|s| - 1]) else s
  }

  /** The number a string of decimal digits denotes. */
  function DigitsValue(s: string): nat
    requires IsDigits(s)
    decreases |s|
  {
    if s == [] then 0 else 10 * DigitsValue(s[..|s| - 1]) + (s[|s| - 1] as int - '0' as int)
  }

  /** `int(s)` of a string: inside the surrounding whitespace, an optional sign and at least one digit. */
  function ParseInt(s: string): Option<int> {
    var t := TrimEnd(TrimStart(s));
    if |t| > 1 && (t[0] == '+' || t[0] == '-') && IsDigits(t[1..]) then
      var magnitude: int := DigitsValue(t[1..]);
      Some(if t[0] == '-' then -magnitude else magnitude)
    else if t != [] && IsDigits(t) then Some(DigitsValue(t))
    else None
  }

  /** `int(v)` for the values a setting can hold. */
  function IntOf(v: Value): (r: Result<int, Error>)
    ensures v.Int? ==> r == Success(v.n)
    ensures (v.Null? || v.Group?) ==> r == Failure(IntervalNotInt)
  {
    match v
    case Int(n) => Success(n)
    case Bool(b) => Success(if b then 1 else 0)
    case Num(x) => Success(if x >= 0.0 then x.Floor else -((-x).Floor))
    case Text(s) => (if ParseInt(s).Some? then Success(ParseInt(s).value) else Failure(IntervalNotInt))
    case _ => Failure(IntervalNotInt)
  }

  /** The seconds `timedelta(seconds=v)` accepts (a bool counts as 0 or 1). */
  function SecondsOf(v: Value): (r: Option<real>)
    ensures v.Num? ==> r == Some(v.r)
    ensures v.Int? ==> r == Some(v.n as real)
    ensures (v.Null? || v.Text? || v.Group?) ==> r == None
  {
    match v
    case Int(n) => Some(n as real)
    case Num(x) => Some(x)
    case Bool(b) => Some(if b then 1.0 else 0.0)
    case _ => None
  }

  /** The decimal numeral of `n`, as `str(n)` writes it. */
  function Decimal(n: nat): string
    decreases n
  {
    if n < 10 then [('0' as int + n) as char] else Decimal(n / 10) + [('0' as int + n % 10) as char]
  }

  /** `str(i)`: a minus sign before the numeral of a negative number. */
  function Numeral(i: int): string {
    if i < 0 then "-" + Decimal(-i) else Decimal(i)
  }

  lemma {:induction false} DecimalDigits(n: nat)
    ensures var d := Decimal(n); d != [] && IsDigits(d) && DigitsValue(d) == n
    decreases n
  {
    if n >= 10 {
      DecimalDigits(n / 10);
      var d := Decimal(n);
      assert d[..|d| - 1] == Decimal(n / 10);
    }
  }

  lemma {:induction false} TrimStartSpaces(pre: string, s: string)
    requires forall i :: 0 <= i < |pre| ==> IsSpace(pre[i])
    requires s != [] && !IsSpace(s[0])
    ensures TrimStart(pre + s) == s
    decreases |pre|
  {
    if pre == [] {
      assert pre + s == s;
    } else {
      assert (pre + s)[1..] == pre[1..] + s;
      TrimStartSpaces(pre[1..], s);
    }
  }

  lemma {:induction false} TrimEndSpaces(s: string, post: string)
    requires forall i :: 0 <= i < |post| ==> IsSpace(post[i])
    requires s != [] && !IsSpace(s[|s| - 1])
    ensures TrimEnd(s + post) == s
    decreases |post|
  {
    if post == [] {
      assert s + post == s;
    } else {
      var shorter := post[..|post| - 1];
      assert (s + post)[..|s + post| - 1] == s + shorter;
      TrimEndSpaces(s, shorter);
    }
  }

  /** A string with no whitespace at either end is its own trimmed text. */
  lemma TrimmedAlready(s: string)
    requires s != [] && !IsSpace(s[0]) && !IsSpace(s[|s| - 1])
    ensures TrimEnd(TrimStart(s)) == s
  {
  }

  /** A digit string reads back as its value. */
  lemma DigitsParse(d: string)
    requires d != [] && IsDigits(d)
    ensures ParseInt(d) == Some(DigitsValue(d))
  {
    assert '0' <= d[0] <= '9' && '0' <= d[|d| - 1] <= '9';
    TrimmedAlready(d);
  }

  /** A digit string after a minus sign reads back as the negated value. */
  lemma NegatedDigitsParse(d: string)
    requires d != [] && IsDigits(d)
    ensures ParseInt("-" + d) == Some(0 - DigitsValue(d) as int)
  {
    var m := "-" + d;
    assert '0' <= d[|d| - 1] <= '9';
    assert m[0] == '-' && m[|m| - 1] == d[|d| - 1] && m[1..] == d;
    TrimmedAlready(m);
  }

  /** `str(i)` has no whitespace at either end, and reads back as `i`. */
  lemma NumeralParses(i: int)
    ensures var t := Numeral(i); t != [] && !IsSpace(t[0]) && !IsSpace(t[|t| - 1]) && ParseInt(t) == Some(i)
  {
    var n := if i < 0 then -i else i;
    DecimalDigits(n);
    if i < 0 {
      NegatedDigitsParse(Decimal(n));
    } else {
      DigitsParse(Decimal(n));
    }
  }

  /** `int(str(i))` is `i`, also with whitespace around the numeral. */
  lemma NumeralRoundTrip(i: int, pre: string, post: string)
    requires forall k :: 0 <= k < |pre| ==> IsSpace(pre[k])
    requires forall k :: 0 <= k < |post| ==> IsSpace(post[k])
    ensures IntOf(Text(pre + Numeral(i) + post)) == Success(i)
  {
    var t := Numeral(i);
    NumeralParses(i);
    TrimEndSpaces(t, post);
    assert (t + post)[0] == t[0];
    TrimStartSpaces(pre, t + post);
    assert pre + t + post == pre + (t + post);
    assert TrimEnd(TrimStart(pre + t + post)) == TrimEnd(TrimStart(t));
  }

  /** Strings that are not a whole decimal integer raise, as `int()` does. */
  lemma NonIntegerTextRaises()
    ensures IntOf(Text("")).Failure? && IntOf(Text("  ")).Failure? && IntOf(Text("+")).Failure?
    ensures IntOf(Text("2.5")).Failure? && IntOf(Text("1 0")).Failure?
  {
    assert TrimStart("  ") == TrimStart(" ") == TrimStart("") == "";
    NoDigitsInside("2.5", 1);
    NoDigitsInside("1 0", 1);
  }

  /** A string whose ends are not whitespace and with a non-digit after its first character is no integer. */
  lemma NoDigitsInside(s: string, k: nat)
    requires 0 < k < |s| - 1 && !('0' <= s[k] <= '9') && !IsSpace(s[0]) && !IsSpace(s[|s| - 1])
    ensures IntOf(Text(s)).Failure?
  {
    TrimmedAlready(s);
    assert s[1..][k - 1] == s[k];
  }
}
