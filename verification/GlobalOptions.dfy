/** aria2 global options and the native configuration they stand for. */
module GlobalOptions {
  import opened Text
  import opened Json
  import opened Aria2

  datatype Kind = AnyText | Integer | Size | Boolean

  datatype Mapping = Mapping(aria2Key: string, configKey: string, kind: Kind, fallback: string)

  const TABLE: seq<Mapping> := [
    Mapping("dir", "default_save_dir", AnyText, ""),
    Mapping("max-concurrent-downloads", "max_concurrent_tasks", Integer, "5"),
    Mapping("max-overall-download-limit", "speed_limit_bytes", Size, "0"),
    Mapping("max-overall-upload-limit", "upload_limit_bytes", Size, "0"),
    Mapping("split", "default_segments", Integer, "5"),
    Mapping("user-agent", "global_user_agent", AnyText, "aria2/1.37.0"),
    Mapping("remote-time", "use_server_time", Boolean, "false")
  ]

  const STATIC_DEFAULTS: seq<(string, string)> := [
    ("max-connection-per-server", "1"), ("min-split-size", "20M"), ("continue", "false"),
    ("max-download-limit", "0"), ("max-upload-limit", "0"), ("timeout", "60"), ("connect-timeout", "60"),
    ("retry-wait", "0"), ("max-tries", "5")
  ]

  function Saturate(n: int): int {
    if n < I64_MIN then I64_MIN else if n > I64_MAX then I64_MAX else n
  }

  /** The factor a size suffix stands for; 1 when there is none. */
  function UnitOf(c: char): nat {
    if c == 'k' || c == 'K' then 1024
    else if c == 'm' || c == 'M' then 1024 * 1024
    else if c == 'g' || c == 'G' then 1024 * 1024 * 1024
    else 1
  }

  function ParseUnitBytes(s: string): (r: Result<int>)
    ensures r.Ok? ==> InI64(r.value)
  {
    var t := Trim(s);
    if t == "" then Err("empty unit number")
    else
      var unit := UnitOf(t[|t| - 1]);
      var digits := if unit == 1 then t else t[..|t| - 1];
      match ParseI64(Trim(digits))
      case Bad => Err("invalid unit number: " + t)
      case Good(n) => Ok(Saturate(n * unit))
  }

  function ToNative(kind: Kind, v: string): Result<string> {
    match kind
    case AnyText => Ok(v)
    case Integer => (
      match ParseI64(Trim(v))
      case Bad => Err("invalid integer: " + v)
      case Good(n) => Ok(Signed(n)))
    case Size => (
      match ParseUnitBytes(v)
      case Err(e) => Err(e)
      case Ok(n) => Ok(Signed(n)))
    case Boolean => if Trim(v) == "true" || Trim(v) == "false" then Ok(Trim(v)) else Err("invalid boolean: " + v)
  }

  predicate Recognised(options: map<string, Value>, m: Mapping) {
    m.aria2Key in options && options[m.aria2Key].Str?
  }

  /** The change one table row asks for, if it asks for one. */
  function Native(options: map<string, Value>, m: Mapping): Result<string>
    requires Recognised(options, m)
  {
    ToNative(m.kind, options[m.aria2Key].s)
  }

  /** Reference reading of an options object: the first invalid row decides,
      otherwise every recognised row contributes its own key. */
  function Changes(options: map<string, Value>, k: nat): Result<map<string, string>>
    requires k <= |TABLE|
    decreases k
  {
    if k == 0 then Ok(map[])
    else
      var before := Changes(options, k - 1);
      var m := TABLE[k - 1];
      if before.Err? || !Recognised(options, m) then before
      else
        match Native(options, m)
        case Err(_) => Err("The value " + options[m.aria2Key].s + " is invalid for --" + m.aria2Key + ".")
        case Ok(v) => Ok(before.value[m.configKey := v])
  }

  method MapChangeGlobalOptions(options: map<string, Value>) returns (r: Result<map<string, string>>)
    ensures r == Changes(options, |TABLE|)
  {
    var changes: map<string, string> := map[];
    for k := 0 to |TABLE|
      invariant Changes(options, k) == Ok(changes)
    {
      var m := TABLE[k];
      if Recognised(options, m) {
        var v := options[m.aria2Key].s;
        var native := ToNative(m.kind, v);
        if native.Err? {
          var e := Err("The value " + v + " is invalid for --" + m.aria2Key + ".");
          FirstErrorStays(options, k + 1, |TABLE|);
          return e;
        }
        changes := changes[m.configKey := native.value];
      }
    }
    r := Ok(changes);
  }

  lemma {:induction false} FirstErrorStays(options: map<string, Value>, j: nat, k: nat)
    requires j <= k <= |TABLE| && Changes(options, j).Err?
    ensures Changes(options, k) == Changes(options, j)
    decreases k
  {
    if j < k {
      FirstErrorStays(options, j, k - 1);
    }
  }

  lemma ConfigKeysDistinct(i: nat, j: nat)
    requires i < j < |TABLE|
    ensures TABLE[i].configKey != TABLE[j].configKey && TABLE[i].aria2Key != TABLE[j].aria2Key
  {
  }

  /** A change is accepted exactly when every recognised value is valid. */
  lemma {:induction false} AcceptedExactly(options: map<string, Value>, k: nat)
    requires k <= |TABLE|
    ensures Changes(options, k).Ok? <==>
              forall i :: 0 <= i < k && Recognised(options, TABLE[i]) ==> Native(options, TABLE[i]).Ok?
    decreases k
  {
    if k > 0 {
      AcceptedExactly(options, k - 1);
    }
  }

  /** A change that is refused names the first option, in the table's order, whose
      text is invalid, and that text. */
  lemma {:induction false} RefusalNamesTheFirst(options: map<string, Value>, k: nat) returns (i: nat)
    requires k <= |TABLE| && Changes(options, k).Err?
    ensures i < k && Recognised(options, TABLE[i]) && Native(options, TABLE[i]).Err?
    ensures forall j :: 0 <= j < i && Recognised(options, TABLE[j]) ==> Native(options, TABLE[j]).Ok?
    ensures Changes(options, k).message
         == "The value " + options[TABLE[i].aria2Key].s + " is invalid for --" + TABLE[i].aria2Key + "."
    decreases k
  {
    if Changes(options, k - 1).Err? {
      i := RefusalNamesTheFirst(options, k - 1);
    } else {
      AcceptedExactly(options, k - 1);
      i := k - 1;
    }
  }

  lemma {:induction false} KeyExactly(options: map<string, Value>, k: nat, key: string)
    requires k <= |TABLE| && Changes(options, k).Ok?
    ensures key in Changes(options, k).value <==>
              exists i :: 0 <= i < k && TABLE[i].configKey == key && Recognised(options, TABLE[i])
    decreases k
  {
    if k > 0 {
      KeyExactly(options, k - 1, key);
    }
  }

  lemma {:induction false} ValueExactly(options: map<string, Value>, k: nat, i: nat)
    requires i < k <= |TABLE| && Changes(options, k).Ok? && Recognised(options, TABLE[i])
    ensures TABLE[i].configKey in Changes(options, k).value
    ensures Native(options, TABLE[i]) == Ok(Changes(options, k).value[TABLE[i].configKey])
    decreases k
  {
    if i < k - 1 {
      ValueExactly(options, k - 1, i);
      ConfigKeysDistinct(i, k - 1);
    }
  }

  /** All or nothing: a change is accepted exactly when every recognised value is
      valid, and it then sets exactly the recognised keys, each to its own value. */
  lemma AllOrNothing(options: map<string, Value>, k: nat)
    requires k <= |TABLE|
    ensures Changes(options, k).Ok? <==>
              forall i :: 0 <= i < k && Recognised(options, TABLE[i]) ==> Native(options, TABLE[i]).Ok?
    ensures var r := Changes(options, k);
            r.Ok? ==>
              && (forall key :: key in r.value <==>
                    exists i :: 0 <= i < k && TABLE[i].configKey == key && Recognised(options, TABLE[i]))
              && (forall i :: 0 <= i < k && Recognised(options, TABLE[i]) ==>
                    TABLE[i].configKey in r.value
                    && Native(options, TABLE[i]) == Ok(r.value[TABLE[i].configKey]))
  {
    AcceptedExactly(options, k);
    var r := Changes(options, k);
    if r.Ok? {
      forall key
        ensures key in r.value <==>
                  exists i :: 0 <= i < k && TABLE[i].configKey == key && Recognised(options, TABLE[i])
      {
        KeyExactly(options, k, key);
      }
      forall i | 0 <= i < k && Recognised(options, TABLE[i])
        ensures TABLE[i].configKey in r.value && Native(options, TABLE[i]) == Ok(r.value[TABLE[i].configKey])
      {
        ValueExactly(options, k, i);
      }
    }
  }

  lemma PlainNumber(t: string, n: int)
    requires t != "" && Trim(t) == t && UnitOf(t[|t| - 1]) == 1 && ParseI64(t) == Good(n)
    ensures ParseUnitBytes(t) == Ok(n)
  {
    assert n * 1 == n;
  }

  lemma DigitIsNoUnit(c: char)
    requires IsDigit(c)
    ensures UnitOf(c) == 1
  {
  }

  /** A printed size has no suffix and reads back as itself. */
  lemma PrintedSize(n: int)
    requires InI64(n)
    ensures ParseUnitBytes(Signed(n)) == Ok(n)
  {
    var t := Signed(n);
    PrintedShape(n);
    ParsePrinted(n);
    DigitIsNoUnit(t[|t| - 1]);
    PlainNumber(t, n);
  }

  lemma SizeWithSuffix(n: int, unit: char)
    requires InI64(n) && UnitOf(unit) != 1
    ensures ParseUnitBytes(Signed(n) + [unit]) == Ok(Saturate(n * UnitOf(unit)))
  {
    var t := Signed(n) + [unit];
    PrintedShape(n);
    ParsePrinted(n);
    TrimFixed(t);
    assert t[..|t| - 1] == Signed(n);
  }

  /** The nearest 64-bit integer. */
  function Within64(n: int): int {
    if n < -9223372036854775808 then -9223372036854775808
    else if n > 9223372036854775807 then 9223372036854775807 else n
  }

  /** How many bytes the letters of a size stand for. */
  function Bytes(unit: char): nat {
    match unit
    case 'k' | 'K' => 1024
    case 'm' | 'M' => 1048576
    case 'g' | 'G' => 1073741824
    case _ => 1
  }

  /** A number with a letter for its unit is that many units, held within 64 bits. */
  lemma SizeWithUnit(n: int, unit: char)
    requires InI64(n) && unit in {'k', 'K', 'm', 'M', 'g', 'G'}
    ensures ParseUnitBytes(Signed(n) + [unit]) == Ok(Within64(n * Bytes(unit)))
  {
    SizeWithSuffix(n, unit);
    assert UnitOf(unit) == Bytes(unit);
  }

  /** Any size: blanks around it do not count, a last letter that is a unit is
      taken off, blanks before it as well, and the rest must be a number. */
  lemma SizeExactly(s: string)
    ensures var t := Trim(s);
            if t == "" then ParseUnitBytes(s).Err?
            else
              var last := t[|t| - 1];
              match ParseI64(if last in {'k', 'K', 'm', 'M', 'g', 'G'} then Trim(t[..|t| - 1]) else Trim(t))
              case Good(n) => ParseUnitBytes(s) == Ok(Within64(n * Bytes(last)))
              case Bad => ParseUnitBytes(s).Err?
  {
    var t := Trim(s);
    if t != "" {
      assert UnitOf(t[|t| - 1]) == Bytes(t[|t| - 1]);
    }
  }

  /** Which texts an option accepts, by its kind. */
  lemma ValidExactly(kind: Kind, v: string)
    ensures ToNative(kind, v).Ok? <==>
              match kind
              case AnyText => true
              case Integer => ParseI64(Trim(v)).Good?
              case Size => ParseUnitBytes(v).Ok?
              case Boolean => Trim(v) == "true" || Trim(v) == "false"
  {
  }

  /** Normalising is idempotent, sizes that saturated included. */
  lemma ToNativeIdempotent(kind: Kind, v: string)
    requires ToNative(kind, v).Ok?
    ensures ToNative(kind, ToNative(kind, v).value) == ToNative(kind, v)
  {
    match kind
    case AnyText =>
    case Boolean =>
    case Integer => IntegerIdempotent(v);
    case Size => PrintedSize(ParseUnitBytes(v).value);
  }

  lemma IntegerIdempotent(v: string)
    requires ToNative(Integer, v).Ok?
    ensures ToNative(Integer, ToNative(Integer, v).value) == ToNative(Integer, v)
  {
    var n := ParseI64(Trim(v)).value;
    PrintedShape(n);
    ParsePrinted(n);
  }

  /** An option with a text for its value. */
  predicate Given(options: map<string, Value>, name: string) { name in options && options[name].Str? }

  /** What is stored for an option's text, by its kind: the text itself, or the
      number or size it stands for in plain digits, or the word. */
  predicate StoredAs(kind: Kind, text: string, stored: string) {
    match kind
    case AnyText => stored == text
    case Integer => ParseI64(Trim(text)).Good? && stored == Signed(ParseI64(Trim(text)).value)
    case Size => ParseUnitBytes(text).Ok? && stored == Signed(ParseUnitBytes(text).value)
    case Boolean => stored in {"true", "false"} && stored == Trim(text)
  }

  /** A change writes this key exactly when that option is given, as its kind says. */
  predicate Writes(options: map<string, Value>, r: map<string, string>, name: string, key: string, kind: Kind) {
    && (key in r <==> Given(options, name))
    && (Given(options, name) && key in r ==> StoredAs(kind, options[name].s, r[key]))
  }

  lemma RowWrites(options: map<string, Value>, i: nat)
    requires i < |TABLE| && Changes(options, |TABLE|).Ok?
    ensures Writes(options, Changes(options, |TABLE|).value, TABLE[i].aria2Key, TABLE[i].configKey, TABLE[i].kind)
  {
    var key := TABLE[i].configKey;
    KeyExactly(options, |TABLE|, key);
    if Recognised(options, TABLE[i]) {
      ValueExactly(options, |TABLE|, i);
    } else if key in Changes(options, |TABLE|).value {
      var j :| 0 <= j < |TABLE| && TABLE[j].configKey == key && Recognised(options, TABLE[j]);
      if i < j { ConfigKeysDistinct(i, j); } else { ConfigKeysDistinct(j, i); }
    }
  }

  /** The options one by one: their names in the configuration and their kinds. */
  lemma OptionsByName(options: map<string, Value>)
    requires Changes(options, |TABLE|).Ok?
    ensures var r := Changes(options, |TABLE|).value;
            && Writes(options, r, "dir", "default_save_dir", AnyText)
            && Writes(options, r, "max-concurrent-downloads", "max_concurrent_tasks", Integer)
            && Writes(options, r, "max-overall-download-limit", "speed_limit_bytes", Size)
            && Writes(options, r, "max-overall-upload-limit", "upload_limit_bytes", Size)
            && Writes(options, r, "split", "default_segments", Integer)
            && Writes(options, r, "user-agent", "global_user_agent", AnyText)
            && Writes(options, r, "remote-time", "use_server_time", Boolean)
  {
    RowWrites(options, 0); RowWrites(options, 1); RowWrites(options, 2); RowWrites(options, 3);
    RowWrites(options, 4); RowWrites(options, 5); RowWrites(options, 6);
  }

  /** And no other key is written. */
  lemma NoOtherKey(options: map<string, Value>, key: string)
    requires Changes(options, |TABLE|).Ok? && key in Changes(options, |TABLE|).value
    ensures key in {"default_save_dir", "max_concurrent_tasks", "speed_limit_bytes", "upload_limit_bytes",
                    "default_segments", "global_user_agent", "use_server_time"}
  {
    KeyExactly(options, |TABLE|, key);
  }

  // ---- reading the options back ------------------------------------------------

  function Shown(config: map<string, string>, m: Mapping): string {
    if m.configKey in config then config[m.configKey] else m.fallback
  }

  function Mapped(config: map<string, string>, k: nat): map<string, Value>
    requires k <= |TABLE|
  {
    if k == 0 then map[] else Mapped(config, k - 1)[TABLE[k - 1].aria2Key := Str(Shown(config, TABLE[k - 1]))]
  }

  function WithStatics(obj: map<string, Value>, k: nat): map<string, Value>
    requires k <= |STATIC_DEFAULTS|
  {
    if k == 0 then obj
    else WithStatics(obj, k - 1)[STATIC_DEFAULTS[k - 1].0 := Str(STATIC_DEFAULTS[k - 1].1)]
  }

  function BuildGlobalOption(config: map<string, string>): map<string, Value> {
    WithStatics(Mapped(config, |TABLE|), |STATIC_DEFAULTS|)
  }

  lemma {:induction false} MappedShows(config: map<string, string>, k: nat, i: nat)
    requires i < k <= |TABLE|
    ensures TABLE[i].aria2Key in Mapped(config, k)
    ensures Mapped(config, k)[TABLE[i].aria2Key] == Str(Shown(config, TABLE[i]))
  {
    if i < k - 1 {
      ConfigKeysDistinct(i, k - 1);
      MappedShows(config, k - 1, i);
    }
  }

  lemma StaticsApart(i: nat, j: nat)
    requires i < |TABLE| && j < |STATIC_DEFAULTS|
    ensures TABLE[i].aria2Key != STATIC_DEFAULTS[j].0
  {
  }

  lemma {:induction false} StaticsKeep(obj: map<string, Value>, k: nat, i: nat)
    requires i < |TABLE| && k <= |STATIC_DEFAULTS| && TABLE[i].aria2Key in obj
    ensures TABLE[i].aria2Key in WithStatics(obj, k)
    ensures WithStatics(obj, k)[TABLE[i].aria2Key] == obj[TABLE[i].aria2Key]
  {
    if k > 0 {
      StaticsApart(i, k - 1);
      StaticsKeep(obj, k - 1, i);
    }
  }

  /** Every mapped option is shown, the stored value or else the fallback. */
  lemma Shows(config: map<string, string>, i: nat)
    requires i < |TABLE|
    ensures Recognised(BuildGlobalOption(config), TABLE[i])
    ensures BuildGlobalOption(config)[TABLE[i].aria2Key].s == Shown(config, TABLE[i])
  {
    MappedShows(config, |TABLE|, i);
    StaticsKeep(Mapped(config, |TABLE|), |STATIC_DEFAULTS|, i);
  }

  lemma {:induction false} StaticsShow(obj: map<string, Value>, k: nat, j: nat)
    requires j < k <= |STATIC_DEFAULTS|
    ensures STATIC_DEFAULTS[j].0 in WithStatics(obj, k)
    ensures WithStatics(obj, k)[STATIC_DEFAULTS[j].0] == Str(STATIC_DEFAULTS[j].1)
    decreases k
  {
    if j < k - 1 {
      StaticsShow(obj, k - 1, j);
    }
  }

  /** The option `name` is shown as the value stored under `key`, or as the text. */
  predicate ShownAs(config: map<string, string>, name: string, key: string, text: string) {
    var shown := BuildGlobalOption(config);
    name in shown && shown[name] == Str(if key in config then config[key] else text)
  }

  /** What the report of all options says, option by option. */
  lemma ReportByName(config: map<string, string>)
    ensures ShownAs(config, "dir", "default_save_dir", "")
    ensures ShownAs(config, "max-concurrent-downloads", "max_concurrent_tasks", "5")
    ensures ShownAs(config, "max-overall-download-limit", "speed_limit_bytes", "0")
    ensures ShownAs(config, "max-overall-upload-limit", "upload_limit_bytes", "0")
    ensures ShownAs(config, "split", "default_segments", "5")
    ensures ShownAs(config, "user-agent", "global_user_agent", "aria2/1.37.0")
    ensures ShownAs(config, "remote-time", "use_server_time", "false")
    ensures forall fixed: (string, string) ::
              fixed in [("max-connection-per-server", "1"), ("min-split-size", "20M"), ("continue", "false"),
                        ("max-download-limit", "0"), ("max-upload-limit", "0"), ("timeout", "60"),
                        ("connect-timeout", "60"), ("retry-wait", "0"), ("max-tries", "5")] ==>
                fixed.0 in BuildGlobalOption(config) && BuildGlobalOption(config)[fixed.0] == Str(fixed.1)
  {
    Shows(config, 0); Shows(config, 1); Shows(config, 2); Shows(config, 3);
    Shows(config, 4); Shows(config, 5); Shows(config, 6);
    forall j: nat | j < |STATIC_DEFAULTS|
      ensures STATIC_DEFAULTS[j].0 in BuildGlobalOption(config)
      ensures BuildGlobalOption(config)[STATIC_DEFAULTS[j].0] == Str(STATIC_DEFAULTS[j].1)
    {
      StaticsShow(Mapped(config, |TABLE|), |STATIC_DEFAULTS|, j);
    }
  }

  /** The stored values that normalising would leave alone. */
  ghost predicate Normal(config: map<string, string>) {
    forall i :: 0 <= i < |TABLE| && TABLE[i].configKey in config ==>
      ToNative(TABLE[i].kind, config[TABLE[i].configKey]) == Ok(config[TABLE[i].configKey])
  }

  lemma FallbacksNormal(i: nat)
    requires i < |TABLE|
    ensures ToNative(TABLE[i].kind, TABLE[i].fallback) == Ok(TABLE[i].fallback)
  {
    match i
    case 1 => Five();
    case 4 => Five();
    case 2 => Zero();
    case 3 => Zero();
    case 6 => TrimFixed("false");
    case _ =>
  }

  lemma Five()
    ensures ToNative(Integer, "5") == Ok("5")
  {
    assert Signed(5) == "5";
    PrintedShape(5);
    ParsePrinted(5);
  }

  lemma Zero()
    ensures ToNative(Size, "0") == Ok("0")
  {
    assert Signed(0) == "0";
    PrintedSize(0);
  }

  /** Submitting the reported options again is accepted, and writes back the
      value of every key that was set, exactly when all of those are normal. */
  lemma EchoExactly(config: map<string, string>)
    ensures var r := Changes(BuildGlobalOption(config), |TABLE|);
            Normal(config) <==>
              && r.Ok?
              && forall i :: 0 <= i < |TABLE| && TABLE[i].configKey in config ==>
                   TABLE[i].configKey in r.value && r.value[TABLE[i].configKey] == config[TABLE[i].configKey]
  {
    var options := BuildGlobalOption(config);
    var r := Changes(options, |TABLE|);
    AllOrNothing(options, |TABLE|);
    forall i | 0 <= i < |TABLE|
      ensures Recognised(options, TABLE[i]) && options[TABLE[i].aria2Key].s == Shown(config, TABLE[i])
      ensures TABLE[i].configKey !in config ==> Native(options, TABLE[i]).Ok?
    {
      Shows(config, i);
      FallbacksNormal(i);
    }
  }

  lemma ChangedIsNormal(options: map<string, Value>, i: nat)
    requires i < |TABLE| && Changes(options, |TABLE|).Ok? && TABLE[i].configKey in Changes(options, |TABLE|).value
    ensures var v := Changes(options, |TABLE|).value[TABLE[i].configKey]; ToNative(TABLE[i].kind, v) == Ok(v)
  {
    KeyExactly(options, |TABLE|, TABLE[i].configKey);
    var j :| 0 <= j < |TABLE| && TABLE[j].configKey == TABLE[i].configKey && Recognised(options, TABLE[j]);
    if i < j { ConfigKeysDistinct(i, j); } else if j < i { ConfigKeysDistinct(j, i); }
    ValueExactly(options, |TABLE|, i);
    ToNativeIdempotent(TABLE[i].kind, options[TABLE[i].aria2Key].s);
  }

  /** What an accepted change stores is normal, so it survives the echo. */
  lemma ChangeKeepsNormal(config: map<string, string>, options: map<string, Value>)
    requires Normal(config) && Changes(options, |TABLE|).Ok?
    ensures Normal(config + Changes(options, |TABLE|).value)
  {
    var r := Changes(options, |TABLE|).value;
    forall i | 0 <= i < |TABLE| && TABLE[i].configKey in config + r
      ensures ToNative(TABLE[i].kind, (config + r)[TABLE[i].configKey]) == Ok((config + r)[TABLE[i].configKey])
    {
      if TABLE[i].configKey in r {
        ChangedIsNormal(options, i);
      }
    }
  }
}
