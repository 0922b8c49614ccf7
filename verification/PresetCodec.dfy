/** Presets: reading them from JSON, importing AutoEQ text, and rendering them (src/ee_eq_preset_parser.cpp). A preset
    file is a `Json` tree and AutoEQ text a sequence of classified lines. The methods follow the program's loops; the
    functions they are proved against say what is read, and the lemmas say what survives being rendered and read
    again. */
module PresetCodec {
  import opened Basics
  import opened JsonTree
  import opened SinkChain

  datatype EqBand = EqBand(
    kind: string, mode: string, slope: string, solo: bool, mute: bool,
    gain: real, frequency: real, q: real, width: real)

  datatype EqPreset = EqPreset(
    bypass: bool,
    inputGain: real,
    outputGain: real,
    mode: string,
    splitChannels: bool,
    balance: real,
    pitchLeft: real,
    pitchRight: real,
    numBands: int,
    left: seq<EqBand>,
    right: seq<EqBand>)

  datatype LimiterPreset = LimiterPreset(
    mode: string, oversampling: string, dithering: string, sidechain: string, switches: map<string, bool>,
    levels: map<string, real>)

  datatype ConvolverPreset = ConvolverPreset(
    bypass: bool, inputGain: real, outputGain: real, kernelName: string, kernelPath: string, irWidth: Int32,
    autogain: bool, dry: real, wet: real, sofa: Sofa)

  datatype Sofa = Sofa(azimuth: real, elevation: real, radius: real)

  datatype Warning = UnsupportedPlugin(name: string) | NoConvolverPayload | NoPreamp

  datatype ParsedPreset = ParsedPreset(
    order: seq<Stage>,
    warnings: seq<Warning>,
    equalizer: EqPreset,
    limiter: Option<LimiterPreset>,
    convolver: Option<ConvolverPreset>)

  /** The default frequency and Q of each band for a number of bands. */
  datatype Tables = Tables(frequency: (int, int) -> real, q: (int, int) -> real)

  const MAX_BANDS := 32

  const EQ_MODES := {"IIR", "FIR", "FFT", "SPM"}
  const BAND_MODES := {"RLC (BT)", "RLC (MT)", "BWC (BT)", "BWC (MT)", "LRX (BT)", "LRX (MT)", "APO (DR)"}
  const BAND_KINDS := {"Off", "Bell", "Hi-pass", "Hi-shelf", "Lo-pass", "Lo-shelf", "Notch", "Resonance", "Allpass",
                       "Bandpass", "Ladder-pass", "Ladder-rej"}
  const BAND_SLOPES := {"x1", "x2", "x3", "x4"}
  const LIMITER_MODES := {"Herm Thin", "Herm Wide", "Herm Tail", "Herm Duck", "Exp Thin", "Exp Wide", "Exp Tail",
                          "Exp Duck", "Line Thin", "Line Wide", "Line Tail", "Line Duck"}
  const LIMITER_OVERSAMPLINGS := {
    "None", "Half x2/16 bit", "Half x2/24 bit", "Half x3/16 bit", "Half x3/24 bit", "Half x4/16 bit", "Half x4/24 bit",
    "Half x6/16 bit", "Half x6/24 bit", "Half x8/16 bit", "Half x8/24 bit", "Full x2/16 bit", "Full x2/24 bit",
    "Full x3/16 bit", "Full x3/24 bit", "Full x4/16 bit", "Full x4/24 bit", "Full x6/16 bit", "Full x6/24 bit",
    "Full x8/16 bit", "Full x8/24 bit", "True Peak/16 bit", "True Peak/24 bit"}
  const LIMITER_DITHERINGS := {"None", "7bit", "8bit", "11bit", "12bit", "15bit", "16bit", "23bit", "24bit"}
  const LIMITER_SIDECHAINS := {"Internal", "External", "Link"}

  const LIMITER_SWITCHES := map["bypass" := false, "alr" := false, "gain-boost" := true]
  const LIMITER_LEVELS := map[
    "input-gain" := 0.0, "output-gain" := 0.0, "lookahead" := 5.0, "attack" := 5.0, "release" := 5.0,
    "threshold" := 0.0, "sidechain-preamp" := 0.0, "stereo-link" := 100.0, "alr-attack" := 5.0, "alr-release" := 50.0,
    "alr-knee" := 0.0, "alr-knee-smooth" := -5.0, "input-to-sidechain" := -80.01, "input-to-link" := -80.01,
    "sidechain-to-input" := -80.01, "sidechain-to-link" := -80.01, "link-to-input" := -80.01,
    "link-to-sidechain" := -80.01]

  const BELL := EqBand("Bell", "RLC (BT)", "x1", false, false, 0.0, 0.0, 4.36, 4.0)

  // Band keys

  function Digit(d: int): (c: char)
    requires 0 <= d < 10
    ensures c as int == '0' as int + d
  {
    ('0' as int + d) as char
  }

  function Decimal(n: nat): (s: string)
    ensures s != []
  {
    if n < 10 then [Digit(n)] else Decimal(n / 10) + [Digit(n % 10)]
  }

  /** The number that a string of digits stands for. */
  function DecimalValue(s: string): int {
    if s == [] then 0 else 10 * DecimalValue(s[..|s| - 1]) + (s[|s| - 1] as int - '0' as int)
  }

  lemma {:induction false} DecimalRoundTrip(n: nat)
    ensures DecimalValue(Decimal(n)) == n
  {
    var s := Decimal(n);
    if n < 10 {
      assert s[..0] == [];
    } else {
      DecimalRoundTrip(n / 10);
      assert s[..|s| - 1] == Decimal(n / 10);
    }
  }

  function BandKey(i: nat): string {
    "band" + Decimal(i)
  }

  lemma BandKeysDistinct(i: nat, j: nat)
    ensures BandKey(i) == BandKey(j) <==> i == j
  {
    DecimalRoundTrip(i);
    DecimalRoundTrip(j);
    assert BandKey(i)[4..] == Decimal(i) && BandKey(j)[4..] == Decimal(j);
  }

  // The plugin order

  function KindOf(plugin: string): Option<Stage> {
    if "equalizer" <= plugin then Some(Equalizer)
    else if "limiter" <= plugin then Some(Limiter)
    else if "convolver" <= plugin then Some(Convolver)
    else None
  }

  function StageName(s: Stage): string {
    match s
    case Equalizer => "equalizer"
    case Convolver => "convolver"
    case Limiter => "limiter"
  }

  /** A plugin is of the one kind whose name its own begins with, and of no kind when it begins with none of them. */
  lemma KindIsPrefix(plugin: string)
    ensures forall s :: KindOf(plugin) == Some(s) <==> StageName(s) <= plugin
    ensures KindOf(plugin).None? <==> forall s :: !(StageName(s) <= plugin)
  {
    assert "equalizer"[0] == 'e' && "limiter"[0] == 'l' && "convolver"[0] == 'c';
    assert StageName(Equalizer) == "equalizer" && StageName(Limiter) == "limiter";
    assert StageName(Convolver) == "convolver";
    forall s, o | StageName(s) <= plugin && StageName(o) <= plugin ensures s == o {
      assert plugin[0] == StageName(s)[0] == StageName(o)[0];
    }
  }

  /** Whatever follows the name, such as the number of an instance, does not change the kind. */
  lemma NumberedNamesAreKinds(s: Stage, suffix: string)
    ensures KindOf(StageName(s) + suffix) == Some(s)
  {
    hide KindOf, StageName;
    KindIsPrefix(StageName(s) + suffix);
  }

  function Kinds(plugins: seq<string>): seq<Stage> {
    if plugins == [] then []
    else
      var last := plugins[|plugins| - 1];
      Kinds(plugins[..|plugins| - 1]) + if KindOf(last).Some? then [KindOf(last).value] else []
  }

  function Skipped(plugins: seq<string>): seq<Warning> {
    if plugins == [] then []
    else
      var last := plugins[|plugins| - 1];
      Skipped(plugins[..|plugins| - 1]) + if KindOf(last).Some? then [] else [UnsupportedPlugin(last)]
  }

  lemma {:induction false} KindsOfPrefix(plugins: seq<string>, n: nat)
    requires n <= |plugins|
    ensures Kinds(plugins[..n]) <= Kinds(plugins)
    decreases |plugins| - n
  {
    if n < |plugins| {
      KindsOfPrefix(plugins, n + 1);
      assert plugins[..n + 1][..n] == plugins[..n];
    } else {
      assert plugins[..n] == plugins;
    }
  }

  /** A stage is listed exactly if some plugin begins with its name, and there is a warning for every other plugin. */
  lemma {:induction false} ListedOrSkipped(plugins: seq<string>, s: Stage, plugin: string)
    ensures s in Kinds(plugins) <==> exists i :: 0 <= i < |plugins| && StageName(s) <= plugins[i]
    ensures UnsupportedPlugin(plugin) in Skipped(plugins)
            <==> plugin in plugins && forall o :: !(StageName(o) <= plugin)
  {
    hide KindOf, StageName;
    if plugins != [] {
      var before, last := plugins[..|plugins| - 1], plugins[|plugins| - 1];
      ListedOrSkipped(before, s, plugin);
      KindIsPrefix(last);
      assert plugins == before + [last];
    }
  }

  lemma NoPlugins()
    ensures Kinds([]) == [] && Skipped([]) == [] && Distinct<Stage>([])
  {
  }

  lemma NextPlugin(plugins: seq<string>, i: nat)
    requires i < |plugins|
    ensures Kinds(plugins[..i + 1])
         == Kinds(plugins[..i]) + if KindOf(plugins[i]).Some? then [KindOf(plugins[i]).value] else []
    ensures Skipped(plugins[..i + 1])
         == Skipped(plugins[..i]) + if KindOf(plugins[i]).Some? then [] else [UnsupportedPlugin(plugins[i])]
  {
    hide KindOf;
    assert plugins[..i + 1][..i] == plugins[..i];
  }

  lemma DistinctOneMore(order: seq<Stage>, s: Stage)
    requires Distinct(order)
    ensures Distinct(order + [s]) <==> s !in order
  {
    if s in order {
      var k :| 0 <= k < |order| && order[k] == s;
      assert (order + [s])[k] == (order + [s])[|order|];
    }
  }

  lemma DistinctPrefix(prefix: seq<Stage>, order: seq<Stage>)
    requires prefix <= order && Distinct(order)
    ensures Distinct(prefix)
  {
  }

  /** A list is accepted exactly when no two of its plugins are of one kind. */
  method ReadPluginOrder(plugins: seq<string>) returns (r: Result<(seq<Stage>, seq<Warning>)>)
    ensures r.Ok? <==> Distinct(Kinds(plugins))
    ensures r.Ok? ==> r.value == (Kinds(plugins), Skipped(plugins))
  {
    hide Kinds, Skipped, KindOf, Distinct;
    var order: seq<Stage>, warnings := [], [];
    NoPlugins();
    for i := 0 to |plugins|
      invariant order == Kinds(plugins[..i]) && warnings == Skipped(plugins[..i])
      invariant Distinct(order)
    {
      NextPlugin(plugins, i);
      match KindOf(plugins[i])
      case Some(stage) =>
        DistinctOneMore(order, stage);
        if stage in order {
          KindsOfPrefix(plugins, i + 1);
          if Distinct(Kinds(plugins)) {
            DistinctPrefix(Kinds(plugins[..i + 1]), Kinds(plugins));
          }
          return Err;
        }
        order := order + [stage];
      case None =>
        warnings := warnings + [UnsupportedPlugin(plugins[i])];
    }
    assert plugins[..|plugins|] == plugins;
    return Ok((order, warnings));
  }

  // The payload of a plugin

  /** The order in which the keys of an object are visited. */
  predicate LexLeq(a: string, b: string) {
    a == [] || (b != [] && (a[0] < b[0] || (a[0] == b[0] && LexLeq(a[1..], b[1..]))))
  }

  lemma {:induction false} LexLeqIsTotalOrder(a: string, b: string, c: string)
    ensures LexLeq(a, b) || LexLeq(b, a)
    ensures LexLeq(a, b) && LexLeq(b, a) ==> a == b
    ensures LexLeq(a, b) && LexLeq(b, c) ==> LexLeq(a, c)
  {
    if a != [] && b != [] {
      assert a == [a[0]] + a[1..] && b == [b[0]] + b[1..];
      LexLeqIsTotalOrder(a[1..], b[1..], if c == [] then [] else c[1..]);
    }
  }

  ghost predicate IsLeast(keys: set<string>, k: string) {
    k in keys && forall o :: o in keys ==> LexLeq(k, o)
  }

  lemma {:induction false} LeastExists(keys: set<string>)
    requires keys != {}
    ensures exists k :: IsLeast(keys, k)
    decreases |keys|
  {
    var k :| k in keys;
    var rest := keys - {k};
    LexLeqIsTotalOrder(k, k, k);
    if rest == {} {
      assert keys == {k} + rest;
      assert IsLeast(keys, k);
    } else {
      LeastExists(rest);
      var least :| IsLeast(rest, least);
      LexLeqIsTotalOrder(k, least, k);
      forall o | o in keys && LexLeq(k, least) ensures LexLeq(k, o) {
        LexLeqIsTotalOrder(k, least, o);
      }
      assert IsLeast(keys, if LexLeq(k, least) then k else least);
    }
  }

  lemma LeastIsUnique(keys: set<string>, k: string, o: string)
    requires IsLeast(keys, k) && IsLeast(keys, o)
    ensures k == o
  {
    LexLeqIsTotalOrder(k, o, k);
  }

  ghost function Instances(keys: set<string>, name: string): set<string> {
    set k | k in keys && name + "#" <= k
  }

  /** The payload of a plugin is filed under its plain name, or else under the first key that starts with `name#`. */
  ghost function InstanceKey(keys: set<string>, name: string): (r: Option<string>)
    ensures r.Some? ==> r.value in keys
    ensures r.None? <==> name !in keys && Instances(keys, name) == {}
  {
    if name in keys then Some(name)
    else if Instances(keys, name) == {} then None
    else
      LeastExists(Instances(keys, name));
      var least :| IsLeast(Instances(keys, name), least);
      Some(least)
  }

  /** A key that is the only one with its first letter, and is the plain or a numbered name, is the one that is found.
      */
  lemma OnlyInstance(keys: set<string>, name: string, key: string)
    requires key in keys && name != [] && (key == name || name + "#" <= key)
    requires forall k :: k in keys && k != key ==> k == [] || k[0] != name[0]
    ensures InstanceKey(keys, name) == Some(key)
  {
    if key != name {
      var instances := Instances(keys, name);
      assert key in instances;
      forall k | k in instances ensures k == key {
        assert k[0] == (name + "#")[0];
      }
      LexLeqIsTotalOrder(key, key, key);
      assert IsLeast(instances, key);
      LeastIsUnique(instances, key, InstanceKey(keys, name).value);
    }
  }

  /** Without the plain name, the first of the numbered keys is found. */
  lemma FirstInstance(keys: set<string>, name: string, key: string)
    requires name !in keys
    ensures InstanceKey(keys, name) == Some(key)
            <==> key in keys && name + "#" <= key && forall k :: k in keys && name + "#" <= k ==> LexLeq(key, k)
  {
    var instances := Instances(keys, name);
    if key in keys && name + "#" <= key && forall k :: k in keys && name + "#" <= k ==> LexLeq(key, k) {
      assert IsLeast(instances, key);
      LeastIsUnique(instances, key, InstanceKey(keys, name).value);
    }
  }

  method FindInstanceKey(fields: map<string, Json>, name: string) returns (r: Option<string>)
    ensures r == InstanceKey(fields.Keys, name)
  {
    if name in fields {
      return Some(name);
    }
    var rest := fields.Keys;
    while rest != {}
      invariant rest <= fields.Keys
      invariant Instances(fields.Keys, name) <= rest
      decreases |rest|
    {
      LeastExists(rest);
      var key :| key in rest && forall o :: o in rest ==> LexLeq(key, o);
      if name + "#" <= key {
        assert IsLeast(Instances(fields.Keys, name), key);
        LeastIsUnique(Instances(fields.Keys, name), key, InstanceKey(fields.Keys, name).value);
        return Some(key);
      }
      rest := rest - {key};
    }
    return None;
  }

  // Bands

  function GetLabel(j: Json, key: string, default: string, labels: set<string>): Result<string> {
    var s :- GetString(j, key, default);
    if s in labels then Ok(s) else Err
  }

  predicate ValidBand(b: EqBand) {
    b.kind in BAND_KINDS && b.mode in BAND_MODES && b.slope in BAND_SLOPES
  }

  function DefaultBand(t: Tables, numBands: int, i: int): (b: EqBand)
    ensures ValidBand(b)
  {
    BELL.(frequency := t.frequency(numBands, i), q := t.q(numBands, i), kind := if i >= numBands then "Off" else "Bell")
  }

  function DefaultBands(t: Tables, numBands: int): (r: seq<EqBand>)
    ensures |r| == MAX_BANDS
  {
    seq(MAX_BANDS, i => DefaultBand(t, numBands, i))
  }

  method FillDefaults(t: Tables, numBands: int, left: array<EqBand>, right: array<EqBand>)
    requires left.Length == MAX_BANDS && right.Length == MAX_BANDS && left != right
    modifies left, right
    ensures left[..] == DefaultBands(t, numBands) && right[..] == DefaultBands(t, numBands)
  {
    for i := 0 to MAX_BANDS
      invariant forall k :: 0 <= k < i ==> left[k] == DefaultBand(t, numBands, k)
      invariant forall k :: 0 <= k < i ==> right[k] == DefaultBand(t, numBands, k)
    {
      var band := DefaultBand(t, numBands, i);
      left[i] := band;
      right[i] := band;
    }
  }

  function ReadBand(v: Json, default: EqBand): (r: Result<EqBand>)
    ensures r.Ok? ==> ValidBand(r.value)
  {
    var kind :- GetLabel(v, "type", default.kind, BAND_KINDS);
    var mode :- GetLabel(v, "mode", default.mode, BAND_MODES);
    var slope :- GetLabel(v, "slope", default.slope, BAND_SLOPES);
    var solo :- GetBool(v, "solo", default.solo);
    var mute :- GetBool(v, "mute", default.mute);
    var gain :- GetReal(v, "gain", default.gain);
    var frequency :- GetReal(v, "frequency", default.frequency);
    var q :- GetReal(v, "q", default.q);
    var width :- GetReal(v, "width", default.width);
    Ok(EqBand(kind, mode, slope, solo, mute, gain, frequency, q, width))
  }

  function ParseBand(bands: Json, key: string, default: EqBand): Result<EqBand> {
    if Has(bands, key) then ReadBand(bands.fields[key], default) else Ok(default)
  }

  /** The bands of one channel: every listed band must be readable, and a band that is not listed has its default. */
  ghost function ParseBands(bands: Json, defaults: seq<EqBand>): (r: Result<seq<EqBand>>)
    ensures r.Ok? ==> |r.value| == |defaults|
  {
    if exists i :: 0 <= i < |defaults| && ParseBand(bands, BandKey(i), defaults[i]).Err? then Err
    else Ok(seq(|defaults|, i requires 0 <= i < |defaults| => ParseBand(bands, BandKey(i), defaults[i]).value))
  }

  lemma BandsRead(j: Json, defaults: seq<EqBand>, bands: seq<EqBand>)
    requires |bands| == |defaults|
    requires forall i :: 0 <= i < |bands| ==> ParseBand(j, BandKey(i), defaults[i]) == Ok(bands[i])
    ensures ParseBands(j, defaults) == Ok(bands)
  {
    hide ParseBand, BandKey;
    var r := ParseBands(j, defaults);
    assert r.Ok?;
    forall i | 0 <= i < |bands| ensures r.value[i] == bands[i] {
      assert ParseBand(j, BandKey(i), defaults[i]) == Ok(bands[i]);
    }
    assert r.value == bands;
  }

  // The equalizer section

  function Clamp(n: int): int {
    if n < 1 then 1 else if n > MAX_BANDS then MAX_BANDS else n
  }

  function Section(j: Json, key: string): Result<Json> {
    if Has(j, key) && j.fields[key].Obj? then Ok(j.fields[key]) else Err
  }

  /** Everything of the equalizer section but its bands. */
  function ParseEqHeader(eq: Json): (r: Result<EqPreset>)
    ensures r.Ok? ==> r.value.mode in EQ_MODES && 1 <= r.value.numBands <= MAX_BANDS
  {
    var bypass :- GetBool(eq, "bypass", false);
    var inputGain :- GetReal(eq, "input-gain", 0.0);
    var outputGain :- GetReal(eq, "output-gain", 0.0);
    var mode :- GetLabel(eq, "mode", "IIR", EQ_MODES);
    var numBands :- GetInt32(eq, "num-bands", 32);
    var splitChannels :- GetBool(eq, "split-channels", false);
    var balance :- GetReal(eq, "balance", 0.0);
    var pitchLeft :- GetReal(eq, "pitch-left", 0.0);
    var pitchRight :- GetReal(eq, "pitch-right", 0.0);
    Ok(EqPreset(bypass, inputGain, outputGain, mode, splitChannels, balance, pitchLeft, pitchRight, Clamp(numBands),
                [], []))
  }

  ghost function ParseEqualizer(t: Tables, eq: Json): Result<EqPreset> {
    var header :- ParseEqHeader(eq);
    var left :- Section(eq, "left");
    var right :- Section(eq, "right");
    var leftBands :- ParseBands(left, DefaultBands(t, header.numBands));
    var rightBands :- ParseBands(right, DefaultBands(t, header.numBands));
    Ok(header.(left := leftBands, right := if header.splitChannels then rightBands else leftBands))
  }

  method ReadEqualizer(t: Tables, eq: Json) returns (r: Result<EqPreset>)
    ensures r == ParseEqualizer(t, eq)
  {
    hide ParseEqHeader, ParseBand, DefaultBands, BandKey;
    var preset :- ParseEqHeader(eq);
    var left, right := new EqBand[MAX_BANDS], new EqBand[MAX_BANDS];
    FillDefaults(t, preset.numBands, left, right);
    ghost var defaults := DefaultBands(t, preset.numBands);
    var leftJson :- Section(eq, "left");
    var rightJson :- Section(eq, "right");
    for i := 0 to MAX_BANDS
      invariant forall k :: 0 <= k < i ==> ParseBand(leftJson, BandKey(k), defaults[k]) == Ok(left[k])
      invariant forall k :: 0 <= k < i ==> ParseBand(rightJson, BandKey(k), defaults[k]) == Ok(right[k])
      invariant forall k :: i <= k < MAX_BANDS ==> left[k] == defaults[k] && right[k] == defaults[k]
    {
      left[i] :- ParseBand(leftJson, BandKey(i), left[i]);
      right[i] :- ParseBand(rightJson, BandKey(i), right[i]);
    }
    BandsRead(leftJson, defaults, left[..]);
    BandsRead(rightJson, defaults, right[..]);
    return Ok(preset.(left := left[..], right := if preset.splitChannels then right[..] else left[..]));
  }

  // The limiter and convolver sections

  function GetSwitches(j: Json, defaults: map<string, bool>): Result<map<string, bool>> {
    if !j.Obj? || exists key :: key in defaults && key in j.fields && AsBool(j.fields[key]).Err? then Err
    else Ok(map key | key in defaults :: if key in j.fields then AsBool(j.fields[key]).value else defaults[key])
  }

  function GetLevels(j: Json, defaults: map<string, real>): Result<map<string, real>> {
    if !j.Obj? || exists key :: key in defaults && key in j.fields && AsReal(j.fields[key]).Err? then Err
    else Ok(map key | key in defaults :: if key in j.fields then AsReal(j.fields[key]).value else defaults[key])
  }

  function ParseLimiter(j: Json): Result<LimiterPreset> {
    var mode :- GetLabel(j, "mode", "Herm Thin", LIMITER_MODES);
    var oversampling :- GetLabel(j, "oversampling", "None", LIMITER_OVERSAMPLINGS);
    var dithering :- GetLabel(j, "dithering", "None", LIMITER_DITHERINGS);
    var sidechain :- GetLabel(j, "sidechain-type", "Internal", LIMITER_SIDECHAINS);
    var switches :- GetSwitches(j, LIMITER_SWITCHES);
    var levels :- GetLevels(j, LIMITER_LEVELS);
    Ok(LimiterPreset(mode, oversampling, dithering, sidechain, switches, levels))
  }

  function ParseSofa(j: Json): Result<Sofa> {
    if Section(j, "sofa").Err? then Ok(Sofa(0.0, 0.0, 1.0))
    else
      var sofa := j.fields["sofa"];
      var azimuth :- GetReal(sofa, "azimuth", 0.0);
      var elevation :- GetReal(sofa, "elevation", 0.0);
      var radius :- GetReal(sofa, "radius", 1.0);
      Ok(Sofa(azimuth, elevation, radius))
  }

  function ParseConvolver(j: Json): Result<ConvolverPreset> {
    var bypass :- GetBool(j, "bypass", false);
    var inputGain :- GetReal(j, "input-gain", 0.0);
    var outputGain :- GetReal(j, "output-gain", 0.0);
    var kernelName :- GetString(j, "kernel-name", "");
    var kernelPath :- GetString(j, "kernel-path", "");
    var irWidth :- GetInt32(j, "ir-width", 100);
    var autogain :- GetBool(j, "autogain", false);
    var dry :- GetReal(j, "dry", -100.0);
    var wet :- GetReal(j, "wet", 0.0);
    var sofa :- ParseSofa(j);
    Ok(ConvolverPreset(bypass, inputGain, outputGain, kernelName, kernelPath, irWidth, autogain, dry, wet, sofa))
  }

  lemma SwitchesAreRead(j: Json, defaults: map<string, bool>, values: map<string, bool>)
    requires j.Obj? && values.Keys == defaults.Keys
    requires forall key :: key in values ==>
               if key in j.fields then j.fields[key] == Bool(values[key]) else values[key] == defaults[key]
    ensures GetSwitches(j, defaults) == Ok(values)
  {
    var r := GetSwitches(j, defaults);
    assert r.Ok? && r.value == values;
  }

  lemma LevelsAreRead(j: Json, defaults: map<string, real>, values: map<string, real>)
    requires j.Obj? && values.Keys == defaults.Keys
    requires forall key :: key in values ==>
               if key in j.fields then j.fields[key] == Real(values[key]) else values[key] == defaults[key]
    ensures GetLevels(j, defaults) == Ok(values)
  {
    var r := GetLevels(j, defaults);
    assert r.Ok? && r.value == values;
  }

  /** A payload in which every setting of the limiter stands under its key. */
  ghost predicate HoldsLimiter(j: Json, p: LimiterPreset) {
    && Field(j, "mode") == Ok(Str(p.mode)) && p.mode in LIMITER_MODES
    && Field(j, "oversampling") == Ok(Str(p.oversampling)) && p.oversampling in LIMITER_OVERSAMPLINGS
    && Field(j, "dithering") == Ok(Str(p.dithering)) && p.dithering in LIMITER_DITHERINGS
    && Field(j, "sidechain-type") == Ok(Str(p.sidechain)) && p.sidechain in LIMITER_SIDECHAINS
    && p.switches.Keys == LIMITER_SWITCHES.Keys && p.levels.Keys == LIMITER_LEVELS.Keys
    && (forall key :: key in p.switches ==> Field(j, key) == Ok(Bool(p.switches[key])))
    && (forall key :: key in p.levels ==> Field(j, key) == Ok(Real(p.levels[key])))
  }

  /** Every limiter setting that a payload gives is read as it stands there. */
  lemma LimiterIsRead(j: Json, p: LimiterPreset)
    requires HoldsLimiter(j, p)
    ensures ParseLimiter(j) == Ok(p)
  {
    hide LIMITER_SWITCHES, LIMITER_LEVELS, LIMITER_MODES, LIMITER_OVERSAMPLINGS, LIMITER_DITHERINGS, LIMITER_SIDECHAINS,
         GetSwitches, GetLevels;
    SwitchesAreRead(j, LIMITER_SWITCHES, p.switches);
    LevelsAreRead(j, LIMITER_LEVELS, p.levels);
  }

  lemma SofaIsRead(j: Json, sofa: Sofa)
    requires Field(j, "sofa") == Ok(Obj(map["azimuth" := Real(sofa.azimuth), "elevation" := Real(sofa.elevation),
                                            "radius" := Real(sofa.radius)]))
    ensures ParseSofa(j) == Ok(sofa)
  {
  }

  /** A payload in which every setting of the convolver stands under its key, but for the position. */
  ghost predicate HoldsConvolver(j: Json, p: ConvolverPreset) {
    && Field(j, "bypass") == Ok(Bool(p.bypass))
    && Field(j, "input-gain") == Ok(Real(p.inputGain)) && Field(j, "output-gain") == Ok(Real(p.outputGain))
    && Field(j, "kernel-name") == Ok(Str(p.kernelName)) && Field(j, "kernel-path") == Ok(Str(p.kernelPath))
    && Field(j, "ir-width") == Ok(Int(p.irWidth)) && Field(j, "autogain") == Ok(Bool(p.autogain))
    && Field(j, "dry") == Ok(Real(p.dry)) && Field(j, "wet") == Ok(Real(p.wet))
  }

  lemma ConvolverIsRead(j: Json, p: ConvolverPreset)
    requires HoldsConvolver(j, p) && ParseSofa(j) == Ok(p.sofa)
    ensures ParseConvolver(j) == Ok(p)
  {
    hide ParseSofa;
    assert ToInt32(p.irWidth) == p.irWidth;
  }

  /** What empty sections stand for. */
  lemma EmptyLimiterIsRead()
    ensures ParseLimiter(Obj(map[]))
         == Ok(LimiterPreset("Herm Thin", "None", "None", "Internal", LIMITER_SWITCHES, LIMITER_LEVELS))
  {
    hide LIMITER_SWITCHES, LIMITER_LEVELS, GetSwitches, GetLevels;
    SwitchesAreRead(Obj(map[]), LIMITER_SWITCHES, LIMITER_SWITCHES);
    LevelsAreRead(Obj(map[]), LIMITER_LEVELS, LIMITER_LEVELS);
  }

  lemma EmptyConvolverIsRead()
    ensures ParseConvolver(Obj(map[]))
         == Ok(ConvolverPreset(false, 0.0, 0.0, "", "", 100, false, -100.0, 0.0, Sofa(0.0, 0.0, 1.0)))
  {
  }

  lemma EmptyHeaderIsRead(default: EqBand)
    requires ValidBand(default)
    ensures ParseEqHeader(Obj(map[])) == Ok(EqPreset(false, 0.0, 0.0, "IIR", false, 0.0, 0.0, 0.0, 32, [], []))
    ensures ReadBand(Obj(map[]), default) == Ok(default)
  {
  }

  /** A band in which every setting stands under its key. */
  lemma BandIsRead(j: Json, b: EqBand, default: EqBand)
    requires ValidBand(b)
    requires Field(j, "type") == Ok(Str(b.kind)) && Field(j, "mode") == Ok(Str(b.mode))
    requires Field(j, "slope") == Ok(Str(b.slope))
    requires Field(j, "solo") == Ok(Bool(b.solo)) && Field(j, "mute") == Ok(Bool(b.mute))
    requires Field(j, "gain") == Ok(Real(b.gain)) && Field(j, "frequency") == Ok(Real(b.frequency))
    requires Field(j, "q") == Ok(Real(b.q)) && Field(j, "width") == Ok(Real(b.width))
    ensures ReadBand(j, default) == Ok(b)
  {
  }

  /** An equalizer section in which every setting but the bands stands under its key. */
  lemma HeaderIsRead(j: Json, e: EqPreset)
    requires e.mode in EQ_MODES && 1 <= e.numBands <= MAX_BANDS && e.left == e.right == []
    requires Field(j, "bypass") == Ok(Bool(e.bypass)) && Field(j, "mode") == Ok(Str(e.mode))
    requires Field(j, "input-gain") == Ok(Real(e.inputGain)) && Field(j, "output-gain") == Ok(Real(e.outputGain))
    requires Field(j, "num-bands") == Ok(Int(e.numBands)) && Field(j, "split-channels") == Ok(Bool(e.splitChannels))
    requires Field(j, "balance") == Ok(Real(e.balance))
    requires Field(j, "pitch-left") == Ok(Real(e.pitchLeft)) && Field(j, "pitch-right") == Ok(Real(e.pitchRight))
    ensures ParseEqHeader(j) == Ok(e)
  {
    assert ToInt32(e.numBands) == e.numBands;
  }

  /** The number of bands that is used is the nearest one allowed. */
  lemma NumberOfBandsIsRead(n: Int32)
    ensures var header := ParseEqHeader(Obj(map["num-bands" := Int(n)]));
            && header.Ok?
            && (1 <= n <= MAX_BANDS ==> header.value.numBands == n)
            && (n < 1 ==> header.value.numBands == 1) && (n > MAX_BANDS ==> header.value.numBands == MAX_BANDS)
  {
    assert ToInt32(n) == n;
  }

  /** Bands beyond the number of bands are off, and everything else is the same for all of them. */
  lemma DefaultsOfBand(t: Tables, numBands: int, i: int)
    ensures DefaultBand(t, numBands, i)
         == EqBand(if i < numBands then "Bell" else "Off", "RLC (BT)", "x1", false, false, 0.0,
                   t.frequency(numBands, i), t.q(numBands, i), 4.0)
  {
  }

  // The whole preset

  function Plugins(output: Json): Result<seq<string>> {
    if Has(output, "plugins_order") && output.fields["plugins_order"].Arr? then
      AsStrings(output.fields["plugins_order"].items)
    else Err
  }

  /** The payload found for a plugin. */
  ghost function Payload(output: Json, name: string): Option<Json>
    requires output.Obj?
  {
    match InstanceKey(output.fields.Keys, name)
    case None => None
    case Some(key) => Some(output.fields[key])
  }

  /** The limiter is read when it is listed, and must then have a payload. */
  ghost function LimiterOf(output: Json, order: seq<Stage>): Result<Option<LimiterPreset>>
    requires output.Obj?
  {
    if Limiter !in order then Ok(None)
    else if Payload(output, "limiter").None? then Err
    else
      var limiter :- ParseLimiter(Payload(output, "limiter").value);
      Ok(Some(limiter))
  }

  /** The convolver is read when it is listed and has a payload. */
  ghost function ConvolverOf(output: Json, order: seq<Stage>): Result<Option<ConvolverPreset>>
    requires output.Obj?
  {
    if Convolver !in order || Payload(output, "convolver").None? then Ok(None)
    else
      var convolver :- ParseConvolver(Payload(output, "convolver").value);
      Ok(Some(convolver))
  }

  ghost function ParseOutput(t: Tables, output: Json): Result<ParsedPreset>
    requires output.Obj?
  {
    var plugins :- Plugins(output);
    var listed := Kinds(plugins);
    if !Distinct(listed) || Equalizer !in listed || Payload(output, "equalizer").None? then Err
    else
      var equalizer :- ParseEqualizer(t, Payload(output, "equalizer").value);
      var limiter :- LimiterOf(output, listed);
      var convolver :- ConvolverOf(output, listed);
      var dropped := Convolver in listed && convolver.None?;
      Ok(ParsedPreset(if dropped then Erase(listed, Convolver) else listed,
                      if dropped then Skipped(plugins) + [NoConvolverPayload] else Skipped(plugins),
                      equalizer, limiter, convolver))
  }

  ghost function Parse(t: Tables, j: Json): Result<ParsedPreset> {
    var output :- Section(j, "output");
    ParseOutput(t, output)
  }

  method ReadPreset(t: Tables, j: Json) returns (r: Result<ParsedPreset>)
    ensures r == Parse(t, j)
  {
    hide ParseEqualizer, ParseLimiter, ParseConvolver, Kinds, Skipped, Distinct, Erase, AsStrings;
    var output :- Section(j, "output");
    var plugins :- Plugins(output);
    if plugins == [] {
      NoPlugins();
      return Err;
    }
    var listed :- ReadPluginOrder(plugins);
    var order, warnings := listed.0, listed.1;
    if Equalizer !in order {
      return Err;
    }
    var key := FindInstanceKey(output.fields, "equalizer");
    if key.None? {
      return Err;
    }
    var equalizer :- ReadEqualizer(t, output.fields[key.value]);
    var limiter: Option<LimiterPreset> := None;
    if Limiter in order {
      key := FindInstanceKey(output.fields, "limiter");
      if key.None? {
        return Err;
      }
      var l :- ParseLimiter(output.fields[key.value]);
      limiter := Some(l);
    }
    var convolver: Option<ConvolverPreset> := None;
    if Convolver in order {
      key := FindInstanceKey(output.fields, "convolver");
      if key.Some? {
        var c :- ParseConvolver(output.fields[key.value]);
        convolver := Some(c);
      } else {
        warnings := warnings + [NoConvolverPayload];
        order := Erase(order, Convolver);
      }
    }
    if order == [] {
      return Err;
    }
    return Ok(ParsedPreset(order, warnings, equalizer, limiter, convolver));
  }

  // AutoEQ text

  /** A trimmed line after matching: a filter line carries the numbers that were found in it. */
  datatype Line =
    | Blank
    | Preamp(preamp: real)
    | Filter(on: bool, code: string, fc: Option<real>, gain: Option<real>, q: Option<real>)
    | Unexpected

  function WithGain(band: EqBand, gain: Option<real>): Result<EqBand> {
    match gain
    case Some(g) => Ok(band.(gain := g))
    case None => Err
  }

  function WithQ(band: EqBand, q: Option<real>): Result<EqBand> {
    match q
    case Some(v) => Ok(band.(q := v))
    case None => Err
  }

  function WithGainAndQ(band: EqBand, gain: Option<real>, q: Option<real>): Result<EqBand> {
    var gained :- WithGain(band, gain);
    WithQ(gained, q)
  }

  function FilterBand(code: string, fc: Option<real>, gain: Option<real>, q: Option<real>): (r: Result<EqBand>)
    ensures r.Ok? ==> ValidBand(r.value)
  {
    if fc.None? then Err
    else
      var band := BELL.(mode := "APO (DR)", frequency := fc.value);
      if code == "PK" || code == "PEQ" || code == "MODAL" then WithGainAndQ(band, gain, q)
      else if code == "LSC" then WithGainAndQ(band.(kind := "Lo-shelf"), gain, q)
      else if code == "HSC" then WithGainAndQ(band.(kind := "Hi-shelf"), gain, q)
      else if code == "LS" then WithGain(band.(kind := "Lo-shelf", q := 2.0 / 3.0), gain)
      else if code == "HS" then WithGain(band.(kind := "Hi-shelf", q := 2.0 / 3.0), gain)
      else if code == "LP" then Ok(band.(kind := "Lo-pass"))
      else if code == "LPQ" then WithQ(band.(kind := "Lo-pass"), q)
      else if code == "HP" then Ok(band.(kind := "Hi-pass"))
      else if code == "HPQ" then WithQ(band.(kind := "Hi-pass"), q)
      else if code == "NO" then WithQ(band.(kind := "Notch"), q)
      else if code == "BP" then WithQ(band.(kind := "Bandpass"), q)
      else if code == "AP" then Ok(band.(kind := "Allpass", q := 0.0))
      else Err
  }

  const CODE_KINDS := map[
    "PK" := "Bell", "PEQ" := "Bell", "MODAL" := "Bell", "LSC" := "Lo-shelf", "LS" := "Lo-shelf", "HSC" := "Hi-shelf",
    "HS" := "Hi-shelf", "LP" := "Lo-pass", "LPQ" := "Lo-pass", "HP" := "Hi-pass", "HPQ" := "Hi-pass", "NO" := "Notch",
    "BP" := "Bandpass", "AP" := "Allpass"]
  const CODES_WITH_GAIN := {"PK", "PEQ", "MODAL", "LSC", "HSC", "LS", "HS"}
  const CODES_WITH_Q := {"PK", "PEQ", "MODAL", "LSC", "HSC", "LPQ", "HPQ", "NO", "BP"}

  /** The Q of a code that carries none. */
  function FixedQ(code: string): real {
    if code in {"LS", "HS"} then 2.0 / 3.0 else if code == "AP" then 0.0 else 4.36
  }

  /** What a filter line must carry, by AutoEQ's codes as a table: it is accepted exactly if it does. */
  lemma AcceptedFilters(code: string, fc: Option<real>, gain: Option<real>, q: Option<real>)
    ensures FilterBand(code, fc, gain, q).Ok?
            <==> && fc.Some? && code in CODE_KINDS
                 && (code in CODES_WITH_GAIN ==> gain.Some?) && (code in CODES_WITH_Q ==> q.Some?)
  {
    hide ValidBand, FixedQ;
  }

  /** The band of an accepted line, by the same table; numbers that its code does not ask for are ignored. */
  lemma FilterTable(code: string, fc: Option<real>, gain: Option<real>, q: Option<real>)
    requires FilterBand(code, fc, gain, q).Ok?
    ensures fc.Some? && code in CODE_KINDS
            && (code in CODES_WITH_GAIN ==> gain.Some?) && (code in CODES_WITH_Q ==> q.Some?)
    ensures FilterBand(code, fc, gain, q).value
         == EqBand(CODE_KINDS[code], "APO (DR)", "x1", false, false,
                   if code in CODES_WITH_GAIN then gain.value else 0.0, fc.value,
                   if code in CODES_WITH_Q then q.value else FixedQ(code), 4.0)
  {
    AcceptedFilters(code, fc, gain, q);
    hide ValidBand;
  }

  predicate IsBand(line: Line) {
    line.Filter? && line.on
  }

  predicate Readable(line: Line) {
    !line.Unexpected? && (IsBand(line) ==> FilterBand(line.code, line.fc, line.gain, line.q).Ok?)
  }

  predicate AllReadable(lines: seq<Line>) {
    forall line :: line in lines ==> Readable(line)
  }

  /** A preamp line is the first of its kind and stands before every band. */
  predicate OneBlock(lines: seq<Line>) {
    forall i, j :: 0 <= i < j < |lines| && lines[j].Preamp? ==> !lines[i].Preamp? && !IsBand(lines[i])
  }

  function BandOf(line: Line): (r: seq<EqBand>)
    requires Readable(line)
    ensures forall b :: b in r ==> ValidBand(b)
  {
    if IsBand(line) then [FilterBand(line.code, line.fc, line.gain, line.q).value] else []
  }

  function Bands(lines: seq<Line>): (r: seq<EqBand>)
    requires AllReadable(lines)
    ensures forall b :: b in r ==> ValidBand(b)
  {
    if lines == [] then []
    else
      assert lines[|lines| - 1] in lines;
      Bands(lines[..|lines| - 1]) + BandOf(lines[|lines| - 1])
  }

  function Gain(lines: seq<Line>): Option<real> {
    if lines == [] then None
    else
      var last := lines[|lines| - 1];
      if last.Preamp? then Some(last.preamp) else Gain(lines[..|lines| - 1])
  }

  lemma EmptyBlock()
    ensures OneBlock([])
  {
  }

  lemma BlockOfPrefix(lines: seq<Line>, n: nat)
    requires n <= |lines| && OneBlock(lines)
    ensures OneBlock(lines[..n])
  {
  }

  lemma {:induction false} NothingSeen(lines: seq<Line>)
    requires AllReadable(lines)
    ensures Bands(lines) == [] <==> forall line :: line in lines ==> !IsBand(line)
    ensures Gain(lines).None? <==> forall line :: line in lines ==> !line.Preamp?
  {
    hide FilterBand;
    if lines != [] {
      var before, last := lines[..|lines| - 1], lines[|lines| - 1];
      assert lines == before + [last];
      NothingSeen(before);
    }
  }

  /** What AutoEQ text says: every band listed, after an optional preamp. */
  ghost function ParseAutoEq(t: Tables, lines: seq<Line>): Result<ParsedPreset> {
    if !AllReadable(lines) || !OneBlock(lines) || Bands(lines) == [] then Err
    else
      var bands, gain := Bands(lines), Gain(lines);
      var n := Clamp(|bands|);
      var channel := bands[..n] + DefaultBands(t, n)[n..];
      Ok(ParsedPreset(
           [Equalizer], if gain.Some? then [] else [NoPreamp],
           EqPreset(false, if gain.Some? then gain.value else 0.0, 0.0, "IIR", false, 0.0, 0.0, 0.0, n, channel,
                    channel),
           None, None))
  }

  lemma NextLine(lines: seq<Line>, i: nat)
    requires i < |lines| && AllReadable(lines[..i]) && Readable(lines[i])
    ensures AllReadable(lines[..i + 1])
    ensures Bands(lines[..i + 1]) == Bands(lines[..i]) + BandOf(lines[i])
    ensures Gain(lines[..i + 1]) == if lines[i].Preamp? then Some(lines[i].preamp) else Gain(lines[..i])
  {
    hide BandOf, ValidBand, Readable;
    assert lines[..i + 1] == lines[..i] + [lines[i]];
    assert lines[..i + 1][..i] == lines[..i];
  }

  lemma BlockOneMore(lines: seq<Line>, line: Line)
    requires AllReadable(lines) && OneBlock(lines)
    ensures OneBlock(lines + [line]) <==> (line.Preamp? ==> Gain(lines).None? && Bands(lines) == [])
  {
    hide Bands, Gain, AllReadable, IsBand;
    NothingSeen(lines);
    var more := lines + [line];
    if OneBlock(more) && line.Preamp? {
      forall l | l in lines ensures !l.Preamp? && !IsBand(l) {
        var k :| 0 <= k < |lines| && lines[k] == l;
        assert more[k] == l && more[|lines|] == line;
      }
    }
  }

  /** The lines that say something: no blank ones, and no filters that are off. */
  function Kept(lines: seq<Line>): seq<Line> {
    if lines == [] then []
    else
      var last := lines[|lines| - 1];
      Kept(lines[..|lines| - 1]) + if last.Blank? || (last.Filter? && !last.on) then [] else [last]
  }

  /** One more line, behind lines that are readable or not. */
  lemma LineAppended(lines: seq<Line>, line: Line)
    ensures AllReadable(lines + [line]) <==> AllReadable(lines) && Readable(line)
    ensures AllReadable(lines + [line]) ==>
              && Bands(lines + [line]) == Bands(lines) + BandOf(line)
              && Gain(lines + [line]) == (if line.Preamp? then Some(line.preamp) else Gain(lines))
              && (OneBlock(lines + [line])
                  <==> OneBlock(lines) && (line.Preamp? ==> Gain(lines).None? && Bands(lines) == []))
  {
    hide Readable, BandOf, OneBlock, Bands, Gain;
    var all := lines + [line];
    assert all[..|lines|] == lines && all[..|all|] == all;
    if AllReadable(lines) && Readable(line) {
      NextLine(all, |lines|);
      if OneBlock(lines) {
        BlockOneMore(lines, line);
      } else if OneBlock(all) {
        BlockOfPrefix(all, |lines|);
      }
    }
  }

  lemma {:induction false} KeptSaysTheSame(lines: seq<Line>)
    ensures AllReadable(lines) <==> AllReadable(Kept(lines))
    ensures AllReadable(lines) ==>
              && Bands(lines) == Bands(Kept(lines)) && Gain(lines) == Gain(Kept(lines))
              && (OneBlock(lines) <==> OneBlock(Kept(lines)))
  {
    hide AllReadable, OneBlock, Bands, Gain, FilterBand;
    if lines != [] {
      var before, last := lines[..|lines| - 1], lines[|lines| - 1];
      assert before + [last] == lines;
      KeptSaysTheSame(before);
      LineAppended(before, last);
      LineAppended(Kept(before), last);
      if last.Blank? || (last.Filter? && !last.on) {
        assert Kept(lines) == Kept(before) && BandOf(last) == [];
      } else {
        assert Kept(lines) == Kept(before) + [last];
      }
    }
  }

  /** Blank lines and filters that are off make no difference to an import, wherever they stand and whatever they
      carry. */
  lemma IgnoredLines(t: Tables, lines: seq<Line>)
    ensures ParseAutoEq(t, lines) == ParseAutoEq(t, Kept(lines))
  {
    hide AllReadable, OneBlock, Bands, Gain;
    KeptSaysTheSame(lines);
  }

  method ReadLines(lines: seq<Line>) returns (r: Result<(seq<EqBand>, Option<real>)>)
    ensures r.Ok? <==> AllReadable(lines) && OneBlock(lines)
    ensures r.Ok? ==> r.value == (Bands(lines), Gain(lines))
  {
    hide FilterBand, ValidBand, Bands, Gain, OneBlock;
    var preamp: Option<real>, imported: seq<EqBand> := None, [];
    NothingSeen(lines[..0]);
    assert OneBlock(lines[..0]) by { EmptyBlock(); }
    for i := 0 to |lines|
      invariant AllReadable(lines[..i]) && OneBlock(lines[..i])
      invariant imported == Bands(lines[..i]) && preamp == Gain(lines[..i])
    {
      assert lines[i] in lines;
      if OneBlock(lines) {
        BlockOfPrefix(lines, i + 1);
      }
      if Readable(lines[i]) {
        NextLine(lines, i);
        BlockOneMore(lines[..i], lines[i]);
        assert lines[..i + 1] == lines[..i] + [lines[i]];
      }
      match lines[i]
      case Blank =>
      case Preamp(gain) =>
        if preamp.Some? || imported != [] {
          return Err;
        }
        preamp := Some(gain);
      case Filter(on, code, fc, gain, q) =>
        if on {
          var band :- FilterBand(code, fc, gain, q);
          imported := imported + [band];
        }
      case Unexpected =>
        return Err;
    }
    assert lines[..|lines|] == lines;
    return Ok((imported, preamp));
  }

  method ReadAutoEq(t: Tables, lines: seq<Line>) returns (r: Result<ParsedPreset>)
    ensures r == ParseAutoEq(t, lines)
  {
    hide AllReadable, OneBlock, Bands, Gain, DefaultBands;
    var read :- ReadLines(lines);
    var imported, preamp := read.0, read.1;
    if imported == [] {
      return Err;
    }
    var n := Clamp(|imported|);
    var left, right := new EqBand[MAX_BANDS], new EqBand[MAX_BANDS];
    FillDefaults(t, n, left, right);
    ghost var defaults := DefaultBands(t, n);
    for i := 0 to n
      invariant forall k :: 0 <= k < i ==> left[k] == imported[k] && right[k] == imported[k]
      invariant forall k :: i <= k < MAX_BANDS ==> left[k] == defaults[k] && right[k] == defaults[k]
    {
      left[i] := imported[i];
      right[i] := imported[i];
    }
    assert left[..] == imported[..n] + defaults[n..];
    assert right[..] == imported[..n] + defaults[n..];
    var warnings := if preamp.Some? then [] else [NoPreamp];
    var gain := if preamp.Some? then preamp.value else 0.0;
    return Ok(ParsedPreset([Equalizer], warnings,
                           EqPreset(false, gain, 0.0, "IIR", false, 0.0, 0.0, 0.0, n, left[..], right[..]),
                           None, None));
  }

  lemma {:induction false} GainIsPreamp(lines: seq<Line>, gain: real)
    requires OneBlock(lines) && Preamp(gain) in lines
    ensures Gain(lines) == Some(gain)
  {
    var before, last := lines[..|lines| - 1], lines[|lines| - 1];
    assert lines == before + [last];
    if Preamp(gain) in before {
      var k :| 0 <= k < |before| && before[k] == Preamp(gain);
      assert lines[k] == Preamp(gain);
      GainIsPreamp(before, gain);
    }
  }

  /** What an import consists of: the bands in the order of their lines, as many as there is room for, the preamp as
      input gain, and neutral settings otherwise; a missing preamp is warned about. */
  lemma ImportHolds(t: Tables, lines: seq<Line>, i: nat)
    requires ParseAutoEq(t, lines).Ok? && i < MAX_BANDS
    ensures AllReadable(lines)
    ensures var p, e, bands := ParseAutoEq(t, lines).value, ParseAutoEq(t, lines).value.equalizer, Bands(lines);
            && p.order == [Equalizer] && p.limiter.None? && p.convolver.None?
            && e.numBands == (if |bands| <= MAX_BANDS then |bands| else MAX_BANDS)
            && |e.left| == |e.right| == MAX_BANDS
            && e.left[i] == e.right[i] == (if i < |bands| then bands[i] else DefaultBand(t, |bands|, i))
            && (forall gain :: Preamp(gain) in lines ==> e.inputGain == gain && p.warnings == [])
            && ((forall line :: line in lines ==> !line.Preamp?) ==> e.inputGain == 0.0 && p.warnings == [NoPreamp])
            && e.(numBands := 0, left := [], right := [], inputGain := 0.0)
               == EqPreset(false, 0.0, 0.0, "IIR", false, 0.0, 0.0, 0.0, 0, [], [])
  {
    hide AllReadable, OneBlock, Bands, Gain, DefaultBand;
    NothingSeen(lines);
    forall gain | Preamp(gain) in lines ensures Gain(lines) == Some(gain) {
      GainIsPreamp(lines, gain);
    }
  }

  // Rendering

  function RenderBand(b: EqBand): Json {
    Obj(map["type" := Str(b.kind), "mode" := Str(b.mode), "slope" := Str(b.slope), "solo" := Bool(b.solo),
            "mute" := Bool(b.mute), "gain" := Real(b.gain), "frequency" := Real(b.frequency), "q" := Real(b.q),
            "width" := Real(b.width)])
  }

  function RenderBands(bands: seq<EqBand>, n: nat): map<string, Json>
    requires n <= |bands|
  {
    if n == 0 then map[] else RenderBands(bands, n - 1)[BandKey(n - 1) := RenderBand(bands[n - 1])]
  }

  function RenderEqualizer(e: EqPreset): Json
    requires 0 <= e.numBands <= |e.left| && e.numBands <= |e.right|
  {
    Obj(map["bypass" := Bool(e.bypass), "input-gain" := Real(e.inputGain), "output-gain" := Real(e.outputGain),
            "mode" := Str(e.mode), "split-channels" := Bool(e.splitChannels), "balance" := Real(e.balance),
            "pitch-left" := Real(e.pitchLeft), "pitch-right" := Real(e.pitchRight), "num-bands" := Int(e.numBands),
            "left" := Obj(RenderBands(e.left, e.numBands)), "right" := Obj(RenderBands(e.right, e.numBands))])
  }

  function StageNames(order: seq<Stage>): seq<string> {
    seq(|order|, i requires 0 <= i < |order| => StageName(order[i]))
  }

  /** Only the plugin order and the equalizer are written. */
  function Render(p: ParsedPreset): Json
    requires 0 <= p.equalizer.numBands <= |p.equalizer.left| && p.equalizer.numBands <= |p.equalizer.right|
  {
    Obj(map["output" := Obj(map["plugins_order" := Arr(Strings(StageNames(p.order))),
                                "equalizer" := RenderEqualizer(p.equalizer)])])
  }

  method RenderPreset(p: ParsedPreset) returns (j: Json)
    requires 0 <= p.equalizer.numBands <= |p.equalizer.left| && p.equalizer.numBands <= |p.equalizer.right|
    ensures j == Render(p)
  {
    hide BandKey, RenderBand, StageNames, Strings;
    var e := p.equalizer;
    var left: map<string, Json>, right: map<string, Json> := map[], map[];
    for i := 0 to e.numBands
      invariant left == RenderBands(e.left, i) && right == RenderBands(e.right, i)
    {
      left := left[BandKey(i) := RenderBand(e.left[i])];
      right := right[BandKey(i) := RenderBand(e.right[i])];
    }
    var equalizer := Obj(map[
      "bypass" := Bool(e.bypass), "input-gain" := Real(e.inputGain), "output-gain" := Real(e.outputGain),
      "mode" := Str(e.mode), "split-channels" := Bool(e.splitChannels), "balance" := Real(e.balance),
      "pitch-left" := Real(e.pitchLeft), "pitch-right" := Real(e.pitchRight), "num-bands" := Int(e.numBands),
      "left" := Obj(left), "right" := Obj(right)]);
    return Obj(map["output" := Obj(map["plugins_order" := Arr(Strings(StageNames(p.order))),
                                       "equalizer" := equalizer])]);
  }

  // What every accepted preset looks like

  ghost predicate WellFormed(e: EqPreset) {
    && 1 <= e.numBands <= MAX_BANDS && |e.left| == |e.right| == MAX_BANDS
    && e.mode in EQ_MODES
    && (forall b :: b in e.left || b in e.right ==> ValidBand(b))
    && (!e.splitChannels ==> e.right == e.left)
  }

  lemma ParsedBandsAreValid(j: Json, defaults: seq<EqBand>)
    requires forall b :: b in defaults ==> ValidBand(b)
    requires ParseBands(j, defaults).Ok?
    ensures forall b :: b in ParseBands(j, defaults).value ==> ValidBand(b)
  {
    hide ValidBand, ReadBand, BandKey;
    var bands := ParseBands(j, defaults).value;
    forall i | 0 <= i < |bands| ensures ValidBand(bands[i]) {
      assert bands[i] == ParseBand(j, BandKey(i), defaults[i]).value;
      assert defaults[i] in defaults;
    }
  }

  lemma ParsedEqualizerIsWellFormed(t: Tables, eq: Json)
    requires ParseEqualizer(t, eq).Ok?
    ensures WellFormed(ParseEqualizer(t, eq).value)
  {
    hide ParseEqHeader, ParseBands, ValidBand, DefaultBand;
    var header := ParseEqHeader(eq).value;
    var defaults := DefaultBands(t, header.numBands);
    assert forall b :: b in defaults ==> ValidBand(b);
    ParsedBandsAreValid(Section(eq, "left").value, defaults);
    ParsedBandsAreValid(Section(eq, "right").value, defaults);
  }

  /** Whatever file is accepted, the order that the router gets is what it starts from: no stage twice, the equalizer
      among them, and a convolver or limiter exactly when its settings were read. */
  lemma ParsedPresetIsWellFormed(t: Tables, j: Json)
    requires Parse(t, j).Ok?
    ensures var p := Parse(t, j).value;
            ParsedOrder(p.order, p.convolver.Some?, p.limiter.Some?) && WellFormed(p.equalizer)
  {
    hide ParseEqualizer, ParseLimiter, ParseConvolver, Distinct, WellFormed, Kinds;
    var output := Section(j, "output").value;
    ParsedEqualizerIsWellFormed(t, Payload(output, "equalizer").value);
    EraseKeepsDistinct(Kinds(Plugins(output).value), Convolver);
  }

  /** What every accepted equalizer section has: two channels, whose listed bands can all be read, and are read over the
      defaults; the right channel is used when it is split off, and must be readable in any case. */
  lemma AcceptedEqualizer(t: Tables, eq: Json, i: nat)
    requires ParseEqualizer(t, eq).Ok? && i < MAX_BANDS
    ensures Section(eq, "left").Ok? && Section(eq, "right").Ok?
    ensures var e, left, right := ParseEqualizer(t, eq).value, eq.fields["left"], eq.fields["right"];
            && i < |e.left| && i < |e.right|
            && BandHolds(left, BandKey(i), DefaultBand(t, e.numBands, i), e.left[i])
            && (e.splitChannels ==> BandHolds(right, BandKey(i), DefaultBand(t, e.numBands, i), e.right[i]))
            && (!e.splitChannels ==> e.right == e.left)
            && (Has(right, BandKey(i)) ==>
                  ReadBand(right.fields[BandKey(i)], DefaultBand(t, e.numBands, i)).Ok?)
  {
    hide ParseEqHeader, ReadBand, BandKey, DefaultBand, ParseBands;
    var header := ParseEqHeader(eq).value;
    var defaults := DefaultBands(t, header.numBands);
    BandOfParsed(eq.fields["left"], defaults, i);
    BandOfParsed(eq.fields["right"], defaults, i);
  }

  predicate BandHolds(channel: Json, key: string, default: EqBand, b: EqBand) {
    if Has(channel, key) then ReadBand(channel.fields[key], default) == Ok(b) else b == default
  }

  lemma BandOfParsed(channel: Json, defaults: seq<EqBand>, i: nat)
    requires i < |defaults| && ParseBands(channel, defaults).Ok?
    ensures BandHolds(channel, BandKey(i), defaults[i], ParseBands(channel, defaults).value[i])
    ensures Has(channel, BandKey(i)) ==> ReadBand(channel.fields[BandKey(i)], defaults[i]).Ok?
  {
    hide ReadBand, BandKey;
    assert ParseBand(channel, BandKey(i), defaults[i]).Ok?;
  }

  /** What every accepted file has: an output section with a list of plugins, one of which begins with `equalizer`,
      and a payload for the equalizer, and for a limiter that is listed. */
  lemma AcceptedFile(t: Tables, j: Json)
    requires Parse(t, j).Ok?
    ensures Section(j, "output").Ok?
    ensures var output := j.fields["output"];
            && Plugins(output).Ok?
            && var plugins := Plugins(output).value;
               && (exists i :: 0 <= i < |plugins| && "equalizer" <= plugins[i])
               && (exists key :: key in output.fields && (key == "equalizer" || "equalizer" + "#" <= key))
               && ((exists i :: 0 <= i < |plugins| && "limiter" <= plugins[i]) ==>
                     exists key :: key in output.fields && (key == "limiter" || "limiter" + "#" <= key))
  {
    hide ParseEqualizer, ParseLimiter, ParseConvolver, Kinds, Skipped, Distinct, Erase, InstanceKey;
    var output := j.fields["output"];
    var plugins := Plugins(output).value;
    ListedOrSkipped(plugins, Equalizer, "");
    ListedOrSkipped(plugins, Limiter, "");
    PayloadKey(output, "equalizer");
    PayloadKey(output, "limiter");
  }

  lemma PayloadKey(output: Json, name: string)
    requires output.Obj?
    ensures Payload(output, name).Some? ==> exists key :: key in output.fields && (key == name || name + "#" <= key)
  {
    if name in output.fields {
    } else if Instances(output.fields.Keys, name) != {} {
      var key :| key in Instances(output.fields.Keys, name);
      assert key in output.fields;
    }
  }

  // Numbered instances

  /** A file with all three plugins, listed and filed under their names with the same ending. */
  function ThreePlugins(ending: string, equalizer: Json, convolver: Json, limiter: Json): Json {
    var names := ["equalizer" + ending, "convolver" + ending, "limiter" + ending];
    Obj(map["output" := Filed(names, equalizer, convolver, limiter)])
  }

  function Filed(names: seq<string>, first: Json, second: Json, third: Json): Json
    requires |names| == 3
  {
    Obj(map["plugins_order" := Arr(Strings(names)), names[0] := first, names[1] := second, names[2] := third])
  }

  predicate FirstLetters(names: seq<string>) {
    && |names| == 3 && names[0] != [] && names[1] != [] && names[2] != []
    && names[0][0] == 'e' && names[1][0] == 'c' && names[2][0] == 'l'
  }

  /** A key of the file is the name with this first letter, or begins with another one. */
  ghost predicate OnlyKey(keys: set<string>, name: string) {
    name in keys && name != [] && forall k :: k in keys && k != name ==> k != [] && k[0] != name[0]
  }

  lemma FiledUnderNames(names: seq<string>, first: Json, second: Json, third: Json)
    requires FirstLetters(names)
    ensures var fields := Filed(names, first, second, third).fields;
            && fields.Keys == {"plugins_order", names[0], names[1], names[2]}
            && "plugins_order" in fields && fields["plugins_order"] == Arr(Strings(names))
            && fields[names[0]] == first && fields[names[1]] == second && fields[names[2]] == third
            && OnlyKey(fields.Keys, names[0]) && OnlyKey(fields.Keys, names[1]) && OnlyKey(fields.Keys, names[2])
  {
    hide Strings;
    assert "plugins_order"[0] == 'p';
  }

  /** The names are the three plain ones or numbered ones. */
  predicate NamesOfThree(names: seq<string>) {
    && |names| == 3
    && (names[0] == "equalizer" || "equalizer" + "#" <= names[0])
    && (names[1] == "convolver" || "convolver" + "#" <= names[1])
    && (names[2] == "limiter" || "limiter" + "#" <= names[2])
  }

  lemma FiledPayload(output: Json, name: string, key: string)
    requires output.Obj? && OnlyKey(output.fields.Keys, key) && name != [] && (key == name || name + "#" <= key)
    ensures Payload(output, name) == Some(output.fields[key])
  {
    hide InstanceKey;
    assert key == name || key[0] == (name + "#")[0] == name[0];
    OnlyInstance(output.fields.Keys, name, key);
  }

  lemma FiledPayloads(names: seq<string>, first: Json, second: Json, third: Json)
    requires FirstLetters(names) && NamesOfThree(names)
    ensures var output := Filed(names, first, second, third);
            && Payload(output, "equalizer") == Some(first)
            && Payload(output, "convolver") == Some(second)
            && Payload(output, "limiter") == Some(third)
  {
    FiledUnderNames(names, first, second, third);
    hide Filed, Strings, InstanceKey, OnlyKey, Payload;
    var output := Filed(names, first, second, third);
    FiledPayload(output, "equalizer", names[0]);
    FiledPayload(output, "convolver", names[1]);
    FiledPayload(output, "limiter", names[2]);
  }

  lemma NamesAreNumbered(ending: string)
    requires ending == "" || "#" <= ending
    ensures var names := ["equalizer" + ending, "convolver" + ending, "limiter" + ending];
            && FirstLetters(names) && NamesOfThree(names)
            && Kinds(names) == [Equalizer, Convolver, Limiter] && Skipped(names) == []
  {
    hide KindOf, Kinds, Skipped;
    NumberedOrderIsRead([Equalizer, Convolver, Limiter],
                        ["equalizer" + ending, "convolver" + ending, "limiter" + ending]);
    if ending == "" {
      assert "equalizer" + ending == "equalizer" && "convolver" + ending == "convolver"
             && "limiter" + ending == "limiter";
    }
  }

  /** The payloads of a file that lists three plugins. */
  ghost function ThreeRead(t: Tables, equalizer: Json, convolver: Json, limiter: Json): Result<ParsedPreset> {
    var e :- ParseEqualizer(t, equalizer);
    var c :- ParseConvolver(convolver);
    var l :- ParseLimiter(limiter);
    Ok(ParsedPreset([Equalizer, Convolver, Limiter], [], e, Some(l), Some(c)))
  }

  lemma AllThree(order: seq<Stage>)
    requires order == [Equalizer, Convolver, Limiter]
    ensures Distinct(order) && Equalizer in order && Convolver in order && Limiter in order
  {
  }

  lemma FiledPlugins(names: seq<string>, equalizer: Json, convolver: Json, limiter: Json)
    requires FirstLetters(names)
    ensures Plugins(Filed(names, equalizer, convolver, limiter)) == Ok(names)
  {
    StringsRoundTrip(names);
    FiledUnderNames(names, equalizer, convolver, limiter);
    hide Filed, Strings, AsStrings, OnlyKey, FirstLetters;
  }

  lemma OutputIsRead(t: Tables, output: Json, names: seq<string>, equalizer: Json, convolver: Json, limiter: Json)
    requires output.Obj? && Plugins(output) == Ok(names)
    requires Kinds(names) == [Equalizer, Convolver, Limiter] && Skipped(names) == []
    requires Payload(output, "equalizer") == Some(equalizer)
    requires Payload(output, "convolver") == Some(convolver)
    requires Payload(output, "limiter") == Some(limiter)
    ensures ParseOutput(t, output) == ThreeRead(t, equalizer, convolver, limiter)
  {
    hide ParseEqualizer, ParseLimiter, ParseConvolver, Kinds, Skipped, Payload, Distinct, Erase, Plugins;
    AllThree(Kinds(names));
  }

  lemma FiledIsRead(t: Tables, names: seq<string>, equalizer: Json, convolver: Json, limiter: Json)
    requires FirstLetters(names) && NamesOfThree(names)
    requires Kinds(names) == [Equalizer, Convolver, Limiter] && Skipped(names) == []
    ensures ParseOutput(t, Filed(names, equalizer, convolver, limiter)) == ThreeRead(t, equalizer, convolver, limiter)
  {
    hide Payload, Plugins, ParseOutput, ThreeRead, Kinds, Skipped, NamesOfThree;
    FiledPlugins(names, equalizer, convolver, limiter);
    FiledPayloads(names, equalizer, convolver, limiter);
    OutputIsRead(t, Filed(names, equalizer, convolver, limiter), names, equalizer, convolver, limiter);
  }

  /** Numbers behind the plugin names make no difference: a file that lists `equalizer#n`, `convolver#n` and
      `limiter#n`, with the payloads under these keys, is read as the file with plain names is. It is accepted exactly
      if the three payloads are. */
  lemma NumberedFileIsRead(t: Tables, ending: string, equalizer: Json, convolver: Json, limiter: Json)
    requires ending == "" || "#" <= ending
    ensures Parse(t, ThreePlugins(ending, equalizer, convolver, limiter)) == ThreeRead(t, equalizer, convolver, limiter)
  {
    var names := ["equalizer" + ending, "convolver" + ending, "limiter" + ending];
    NamesAreNumbered(ending);
    hide ParseOutput, ThreeRead, Filed, Kinds, Skipped, FirstLetters, NamesOfThree;
    FiledIsRead(t, names, equalizer, convolver, limiter);
  }

  // What survives being rendered and read again

  lemma {:induction false} RenderedBandsHold(bands: seq<EqBand>, n: nat, i: nat)
    requires n <= |bands|
    ensures BandKey(i) in RenderBands(bands, n) <==> i < n
    ensures i < n ==> RenderBands(bands, n)[BandKey(i)] == RenderBand(bands[i])
  {
    hide BandKey, RenderBand;
    if n > 0 {
      BandKeysDistinct(n - 1, i);
      RenderedBandsHold(bands, n - 1, i);
    }
  }

  lemma RenderedBandIsRead(b: EqBand, default: EqBand)
    requires ValidBand(b)
    ensures ReadBand(RenderBand(b), default) == Ok(b)
  {
    hide ReadBand, ValidBand;
    BandIsRead(RenderBand(b), b, default);
  }

  /** The bands that a number of bands makes use of, and defaults beyond them. */
  function Trimmed(t: Tables, bands: seq<EqBand>, n: nat): seq<EqBand>
    requires n <= MAX_BANDS == |bands|
  {
    bands[..n] + DefaultBands(t, n)[n..]
  }

  lemma RenderedBandsAreRead(t: Tables, bands: seq<EqBand>, n: nat)
    requires n <= MAX_BANDS == |bands| && forall b :: b in bands ==> ValidBand(b)
    ensures ParseBands(Obj(RenderBands(bands, n)), DefaultBands(t, n)) == Ok(Trimmed(t, bands, n))
  {
    hide BandKey, RenderBand, ReadBand, RenderBands, DefaultBands, ValidBand;
    var j, defaults, trimmed := Obj(RenderBands(bands, n)), DefaultBands(t, n), Trimmed(t, bands, n);
    forall i | 0 <= i < MAX_BANDS ensures ParseBand(j, BandKey(i), defaults[i]) == Ok(trimmed[i]) {
      RenderedBandsHold(bands, n, i);
      assert bands[i] in bands;
      RenderedBandIsRead(bands[i], defaults[i]);
    }
    BandsRead(j, defaults, trimmed);
  }

  ghost function Trim(t: Tables, e: EqPreset): EqPreset
    requires WellFormed(e)
  {
    e.(left := Trimmed(t, e.left, e.numBands), right := Trimmed(t, e.right, e.numBands))
  }

  lemma RenderedHeaderIsRead(e: EqPreset)
    requires WellFormed(e)
    ensures ParseEqHeader(RenderEqualizer(e)) == Ok(e.(left := [], right := []))
  {
    hide RenderBands, ValidBand, ParseEqHeader;
    HeaderIsRead(RenderEqualizer(e), e.(left := [], right := []));
  }

  lemma RenderedEqualizerIsRead(t: Tables, e: EqPreset)
    requires WellFormed(e)
    ensures ParseEqualizer(t, RenderEqualizer(e)) == Ok(Trim(t, e))
  {
    hide ParseEqHeader, ParseBands, RenderBands, ValidBand, DefaultBands, Trimmed;
    RenderedHeaderIsRead(e);
    RenderedBandsAreRead(t, e.left, e.numBands);
    RenderedBandsAreRead(t, e.right, e.numBands);
  }

  /** A list with one name for each stage, whatever follows the names, is read as these stages. */
  lemma {:induction false} NumberedOrderIsRead(order: seq<Stage>, plugins: seq<string>)
    requires |plugins| == |order| && forall i :: 0 <= i < |order| ==> StageName(order[i]) <= plugins[i]
    ensures Kinds(plugins) == order && Skipped(plugins) == []
  {
    hide KindOf, StageName;
    if order != [] {
      var n := |order| - 1;
      NumberedOrderIsRead(order[..n], plugins[..n]);
      KindIsPrefix(plugins[n]);
      assert StageName(order[n]) <= plugins[n];
    }
  }

  lemma RenderedOrderIsRead(order: seq<Stage>)
    ensures Kinds(StageNames(order)) == order
    ensures Skipped(StageNames(order)) == []
  {
    NumberedOrderIsRead(order, StageNames(order));
  }

  lemma PlainPayload(output: Json, name: string)
    requires Has(output, name)
    ensures Payload(output, name) == Some(output.fields[name])
  {
  }

  lemma WellFormedBounds(e: EqPreset)
    requires WellFormed(e)
    ensures 1 <= e.numBands <= MAX_BANDS == |e.left| == |e.right|
  {
  }

  lemma FirstLetterDiffers(a: string, b: string)
    requires a != [] && b != [] && a[0] != b[0]
    ensures !(a <= b)
  {
  }

  /** A rendered preset has no payload but the equalizer's. */
  lemma RenderedPayloads(output: Json, name: string)
    requires output.Obj? && output.fields.Keys == {"plugins_order", "equalizer"}
    requires name == "limiter" || name == "convolver"
    ensures Payload(output, name).None?
  {
    FirstLetterDiffers(name + "#", "plugins_order");
    FirstLetterDiffers(name + "#", "equalizer");
  }

  ghost predicate Usable(p: ParsedPreset) {
    ParsedOrder(p.order, p.convolver.Some?, p.limiter.Some?) && WellFormed(p.equalizer)
  }

  /** What reading a rendered preset gives: the equalizer up to its number of bands, without the convolver. */
  ghost function Normal(t: Tables, p: ParsedPreset): ParsedPreset
    requires WellFormed(p.equalizer)
  {
    ParsedPreset(if Convolver in p.order then Erase(p.order, Convolver) else p.order,
                 if Convolver in p.order then [NoConvolverPayload] else [], Trim(t, p.equalizer), None, None)
  }

  /** Reading a rendered preset fails exactly when it asks for a limiter. */
  lemma RenderThenParse(t: Tables, p: ParsedPreset)
    requires Usable(p)
    ensures Parse(t, Render(p)) == if p.limiter.Some? then Err else Ok(Normal(t, p))
  {
    hide ParseEqualizer, RenderEqualizer, Trim, WellFormed, StageNames, Kinds, Skipped, Distinct, ParseLimiter,
         ParseConvolver, Erase, InstanceKey, AsStrings, Strings;
    assert 1 <= p.equalizer.numBands <= MAX_BANDS == |p.equalizer.left| == |p.equalizer.right| by {
      WellFormedBounds(p.equalizer);
    }
    var output := Section(Render(p), "output").value;
    StringsRoundTrip(StageNames(p.order));
    RenderedOrderIsRead(p.order);
    RenderedEqualizerIsRead(t, p.equalizer);
    RenderedPayloads(output, "limiter");
    RenderedPayloads(output, "convolver");
    assert Payload(output, "equalizer") == Some(RenderEqualizer(p.equalizer)) by { PlainPayload(output, "equalizer"); }
    assert [] + [NoConvolverPayload] == [NoConvolverPayload];
  }

  lemma TrimIsIdempotent(t: Tables, e: EqPreset)
    requires WellFormed(e)
    ensures WellFormed(Trim(t, e)) && Trim(t, Trim(t, e)) == Trim(t, e)
    ensures forall i :: 0 <= i < e.numBands ==> Trim(t, e).left[i] == e.left[i] && Trim(t, e).right[i] == e.right[i]
    ensures Trim(t, e) == e <==> DefaultsBeyond(t, e)
  {
    hide ValidBand, DefaultBand;
    var n, defaults := e.numBands, DefaultBands(t, e.numBands);
    assert forall b :: b in defaults ==> ValidBand(b);
    forall b | b in Trim(t, e).left || b in Trim(t, e).right ensures ValidBand(b) {
      assert b in e.left || b in e.right || b in defaults;
    }
    TrimmedTwice(t, e.left, n);
    TrimmedTwice(t, e.right, n);
  }

  lemma TrimmedTwice(t: Tables, bands: seq<EqBand>, n: nat)
    requires n <= MAX_BANDS == |bands|
    ensures Trimmed(t, Trimmed(t, bands, n), n) == Trimmed(t, bands, n)
    ensures Trimmed(t, bands, n) == bands <==> bands[n..] == DefaultBands(t, n)[n..]
  {
    hide DefaultBands;
    assert Trimmed(t, bands, n)[n..] == DefaultBands(t, n)[n..];
    assert bands == bands[..n] + bands[n..];
  }

  /** Nothing was said about the bands that the number of bands leaves out. */
  ghost predicate DefaultsBeyond(t: Tables, e: EqPreset)
    requires WellFormed(e)
  {
    && e.left[e.numBands..] == DefaultBands(t, e.numBands)[e.numBands..]
    && e.right[e.numBands..] == DefaultBands(t, e.numBands)[e.numBands..]
  }

  /** The round trip of any file that can be read. Rendering loses the limiter, so that the result cannot be read;
      otherwise exactly the bands beyond the number of bands, the convolver and the warnings may change. */
  lemma FileRoundTrip(t: Tables, j: Json)
    requires Parse(t, j).Ok?
    ensures Usable(Parse(t, j).value)
    ensures var p := Parse(t, j).value;
            var again := Parse(t, Render(p));
            && (again.Ok? <==> p.limiter.None?)
            && (again == Ok(p) <==>
                  && p.limiter.None? && p.convolver.None? && p.warnings == []
                  && DefaultsBeyond(t, p.equalizer))
            && (again.Ok? && p.convolver.None? ==> again.value == p.(warnings := [], equalizer := Trim(t, p.equalizer)))
  {
    hide Parse, Render, WellFormed, Trim, DefaultsBeyond, Distinct, Erase;
    var p := Parse(t, j).value;
    ParsedPresetIsWellFormed(t, j);
    WellFormedBounds(p.equalizer);
    RenderThenParse(t, p);
    TrimIsIdempotent(t, p.equalizer);
  }

  /** What has been rendered and read once does not change when it is rendered and read again, but for a warning. */
  lemma SecondRoundTrip(t: Tables, p: ParsedPreset)
    requires Usable(p)
    ensures Parse(t, Render(p)).Ok? ==>
              var once := Parse(t, Render(p)).value;
              Usable(once) && Parse(t, Render(once)) == Ok(once.(warnings := []))
  {
    hide Parse, Render, WellFormed, Trim, Distinct, Erase;
    WellFormedBounds(p.equalizer);
    RenderThenParse(t, p);
    TrimIsIdempotent(t, p.equalizer);
    EraseKeepsDistinct(p.order, Convolver);
    if Parse(t, Render(p)).Ok? {
      var once := Parse(t, Render(p)).value;
      WellFormedBounds(once.equalizer);
      RenderThenParse(t, once);
    }
  }

  lemma ImportIsUsable(t: Tables, lines: seq<Line>)
    requires ParseAutoEq(t, lines).Ok?
    ensures Usable(ParseAutoEq(t, lines).value)
    ensures DefaultsBeyond(t, ParseAutoEq(t, lines).value.equalizer)
  {
    hide ValidBand, AllReadable, OneBlock, Bands, Gain, DefaultBand;
    var e, bands := ParseAutoEq(t, lines).value.equalizer, Bands(lines);
    var defaults := DefaultBands(t, e.numBands);
    assert forall b :: b in defaults ==> ValidBand(b);
    forall b | b in e.left ensures ValidBand(b) {
      assert b in bands || b in defaults;
    }
    assert e.left[e.numBands..] == defaults[e.numBands..];
  }

  /** An imported preset is read back exactly as it was imported, but for the warning about a missing preamp. */
  lemma ImportRoundTrip(t: Tables, lines: seq<Line>)
    requires ParseAutoEq(t, lines).Ok?
    ensures Usable(ParseAutoEq(t, lines).value)
    ensures var p := ParseAutoEq(t, lines).value;
            Parse(t, Render(p)) == Ok(p.(warnings := []))
  {
    hide Parse, Render, WellFormed, Trim, Distinct, Erase, DefaultsBeyond;
    var p := ParseAutoEq(t, lines).value;
    ImportIsUsable(t, lines);
    WellFormedBounds(p.equalizer);
    RenderThenParse(t, p);
    TrimIsIdempotent(t, p.equalizer);
  }

  // Files that do not survive

  /** One listed plugin with an empty payload behind an equalizer that uses one band, and a second band that is
      described but not used. */
  function EqualizerSection(): Json {
    Obj(map["num-bands" := Int(1), "left" := Obj(map["band1" := Obj(map["gain" := Real(3.0)])]), "right" := Obj(map[])])
  }

  function FileWith(plugin: string): Json {
    Obj(map["output" := Obj(map["plugins_order" := Arr([Str("equalizer"), Str(plugin)]),
                                "equalizer" := EqualizerSection(), plugin := Obj(map[])])])
  }

  lemma SectionHeaderIsRead()
    ensures ParseEqHeader(EqualizerSection()).Ok? && ParseEqHeader(EqualizerSection()).value.numBands == 1
  {
    assert ToInt32(1) == 1;
  }

  /** A channel that describes band 1 only, if it describes any. */
  lemma ChannelIsRead(channel: map<string, Json>, defaults: seq<EqBand>)
    requires channel == map["band1" := Obj(map["gain" := Real(3.0)])] || channel == map[]
    requires |defaults| == MAX_BANDS && forall b :: b in defaults ==> ValidBand(b)
    ensures var bands := ParseBands(Obj(channel), defaults);
            bands.Ok? && |bands.value| == MAX_BANDS && ("band1" in channel ==> bands.value[1].gain == 3.0)
  {
    hide ReadBand, ValidBand;
    forall i | 0 <= i < MAX_BANDS ensures ParseBand(Obj(channel), BandKey(i), defaults[i]).Ok? {
      GainIsRead(defaults[i]);
    }
    GainIsRead(defaults[1]);
    assert BandKey(1) == "band1" by { assert Digit(1) == '1'; }
  }

  lemma SectionIsRead(t: Tables)
    ensures ParseEqualizer(t, EqualizerSection()).Ok?
    ensures var e := ParseEqualizer(t, EqualizerSection()).value;
            e.numBands == 1 && |e.left| == MAX_BANDS && e.left[1].gain == 3.0
  {
    hide ParseEqHeader, ParseBands, ValidBand, DefaultBand;
    SectionHeaderIsRead();
    ChannelIsRead(Section(EqualizerSection(), "left").value.fields, DefaultBands(t, 1));
    ChannelIsRead(Section(EqualizerSection(), "right").value.fields, DefaultBands(t, 1));
  }

  lemma GainIsRead(default: EqBand)
    requires ValidBand(default)
    ensures ReadBand(Obj(map["gain" := Real(3.0)]), default) == Ok(default.(gain := 3.0))
  {
  }

  lemma ListedPlugins(s: Stage)
    ensures AsStrings([Str("equalizer"), Str(StageName(s))]) == Ok(["equalizer", StageName(s)])
    ensures Kinds(["equalizer", StageName(s)]) == [Equalizer, s] && Skipped(["equalizer", StageName(s)]) == []
  {
    RenderedOrderIsRead([Equalizer, s]);
    StringsRoundTrip(["equalizer", StageName(s)]);
    assert StageNames([Equalizer, s]) == ["equalizer", StageName(s)];
    assert Strings(["equalizer", StageName(s)]) == [Str("equalizer"), Str(StageName(s))] by {
      assert ["equalizer", StageName(s)][1..] == [StageName(s)] && [StageName(s)][1..] == [];
    }
  }

  lemma FileIsRead(t: Tables, s: Stage)
    requires s != Equalizer
    ensures var read := Parse(t, FileWith(StageName(s)));
            && read.Ok? && read.value.order == [Equalizer, s] && read.value.warnings == []
            && read.value.equalizer == ParseEqualizer(t, EqualizerSection()).value
            && (read.value.limiter.Some? <==> s.Limiter?) && (read.value.convolver.Some? <==> s.Convolver?)
  {
    hide ParseEqualizer, EqualizerSection, ParseLimiter, ParseConvolver, Kinds, Skipped, AsStrings, InstanceKey,
         ReadBand, ParseEqHeader, LIMITER_LEVELS, LIMITER_SWITCHES;
    var output := Section(FileWith(StageName(s)), "output").value;
    SectionIsRead(t);
    ListedPlugins(s);
    EmptyLimiterIsRead();
    EmptyConvolverIsRead();
    PlainPayload(output, "equalizer");
    PlainPayload(output, StageName(s));
  }

  /** A file with a limiter that is read, rendered, and then cannot be read. */
  lemma LimiterIsNotReadBack(t: Tables)
    ensures var read := Parse(t, FileWith("limiter"));
            read.Ok? && Usable(read.value) && Parse(t, Render(read.value)).Err?
  {
    hide Parse, Render, FileWith;
    FileIsRead(t, Limiter);
    FileRoundTrip(t, FileWith("limiter"));
  }

  /** A file with a convolver and an unused band: both are gone when it is rendered and read again. */
  lemma ConvolverAndUnusedBandAreLost(t: Tables)
    ensures var read := Parse(t, FileWith("convolver"));
            && read.Ok? && Usable(read.value) && read.value.convolver.Some?
            && read.value.equalizer.left[1].gain == 3.0
            && var again := Parse(t, Render(read.value));
               && again.Ok? && again.value.order == [Equalizer] && again.value.convolver.None?
               && |again.value.equalizer.left| == MAX_BANDS && again.value.equalizer.left[1].gain == 0.0
  {
    hide Parse, Render, FileWith, ParseEqualizer, WellFormed, Distinct;
    var read := Parse(t, FileWith("convolver"));
    FileIsRead(t, Convolver);
    SectionIsRead(t);
    FileRoundTrip(t, FileWith("convolver"));
    WellFormedBounds(read.value.equalizer);
    RenderThenParse(t, read.value);
    assert Erase([Equalizer, Convolver], Convolver) == [Equalizer];
  }
}
