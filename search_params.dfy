/**
 * The query-string configuration reader: every (key, value) pair of the page
 * URL, in order, is normalised (key lower-cased, value trimmed) and dispatched
 * on a fixed table of recognised keys; recognised keys write validated values
 * into the renderer configuration, a valid scene name replaces the scene to
 * load, and unrecognised keys are collected in a module-level list.
 *
 * URL decoding happens before this model: it receives the decoded pairs.
 * parseFloat and the scene-name table are not modelled; they are supplied
 * as the two functions of an Env.
 */
module SearchParams {
  import opened Wrappers
  import opened JsText

  /** The PARAMS table: the recognised query keys. */
  datatype ParamKey =
    | SceneFile
    | SoftwareRasterizerThreshold
    | ImpostorsThreshold
    | ImpostorsTextureSize
    | ImpostorsForceOnlyBillboards
    | NaniteErrorThreshold

  /** The query key of each table entry. The names are lower-case, so a key
      lower-cased by the reader can match them. */
  function KeyName(k: ParamKey): (r: string)
    ensures IsLower(r)
  {
    match k
    case SceneFile => "scene_file"
    case SoftwareRasterizerThreshold => "softwarerasterizer_threshold"
    case ImpostorsThreshold => "impostors_threshold"
    case ImpostorsTextureSize => "impostors_texturesize"
    case ImpostorsForceOnlyBillboards => "impostors_forceonlybillboards"
    case NaniteErrorThreshold => "nanite_errorthreshold"
  }

  /** Looks a (lower-cased) key up in the table: the entry whose name it is,
      or None for a key the table does not hold. */
  function Lookup(key: string): (r: Option<ParamKey>)
    ensures r.Some? ==> KeyName(r.value) == key
    ensures r.None? ==> forall k: ParamKey :: KeyName(k) != key
  {
    if key == KeyName(SceneFile) then Some(SceneFile)
    else if key == KeyName(SoftwareRasterizerThreshold) then Some(SoftwareRasterizerThreshold)
    else if key == KeyName(ImpostorsThreshold) then Some(ImpostorsThreshold)
    else if key == KeyName(ImpostorsTextureSize) then Some(ImpostorsTextureSize)
    else if key == KeyName(NaniteErrorThreshold) then Some(NaniteErrorThreshold)
    else if key == KeyName(ImpostorsForceOnlyBillboards) then Some(ImpostorsForceOnlyBillboards)
    else None
  }

  /** Every entry is found under its own name: the table's names are distinct. */
  lemma LookupKeyName(k: ParamKey)
    ensures Lookup(KeyName(k)) == Some(k)
  {
  }

  predicate IsRecognisedKey(key: string) {
    Lookup(key).Some?
  }

  /** The keys whose value is read as a number and stored as its absolute value. */
  predicate IsPlainNumericKey(k: ParamKey) {
    k == ImpostorsThreshold || k == ImpostorsTextureSize || k == NaniteErrorThreshold
  }

  /** A JavaScript number as parseFloat can return it. */
  datatype JsNumber = Finite(value: real) | NaN | Infinity(negative: bool)

  /** The `unknown` argument of parseNumber: a string or anything else. */
  datatype JsValue = JsString(s: string) | JsOther

  /** The collaborators the reader calls but that are not modelled:
      parseFloat and the scene table's isValidSceneName. */
  datatype Env = Env(parseFloat: string -> JsNumber, isValidSceneName: string -> bool)

  function Abs(x: real): (r: real)
    ensures r >= 0.0 && (r == x || r == -x)
  {
    if x < 0.0 then -x else x
  }

  /** parseNumber: a value is accepted exactly when it is a string that
      parseFloat turns into a number that is neither NaN nor infinite. */
  function ParseNumber(val: JsValue, parseFloat: string -> JsNumber): (r: Option<real>)
    ensures r.Some? <==> val.JsString? && parseFloat(val.s).Finite?
    ensures r.Some? ==> r.value == parseFloat(val.s).value
  {
    match val
    case JsOther => None
    case JsString(s) =>
      match parseFloat(s)
      case Finite(v) => Some(v)
      case _ => None
  }

  /** The part of the configuration the reader can write. */
  datatype Settings = Settings(
    softwareRasterizerEnabled: bool,
    softwareRasterizerThreshold: real,
    billboardThreshold: real,
    textureSize: real,
    forceOnlyBillboards: bool,
    errorThreshold: real)

  /** Everything the reader has produced so far: the settings, the scene
      choice and the list of unrecognised keys. */
  datatype Applied = Applied(settings: Settings, scene: string, invalid: seq<string>)

  /** The number stored under one of the plain numeric keys. */
  function PlainNumericField(s: Settings, k: ParamKey): real
    requires IsPlainNumericKey(k)
  {
    match k
    case ImpostorsThreshold => s.billboardThreshold
    case ImpostorsTextureSize => s.textureSize
    case NaniteErrorThreshold => s.errorThreshold
  }

  /** The table entry a pair's key names once lower-cased. */
  function EntryOf(pair: (string, string)): Option<ParamKey> {
    Lookup(ToLower(pair.0))
  }

  /** The numeric value a pair carries for entry `k`: its key names `k` and
      its trimmed value parses. */
  function ParsedFor(pair: (string, string), k: ParamKey, env: Env): Option<real> {
    if EntryOf(pair) == Some(k) then ParseNumber(JsString(Trim(pair.1)), env.parseFloat) else None
  }

  /** The reader's handling of one pair: the key is lower-cased and the
      value trimmed before anything else looks at them. */
  function Step(a: Applied, pair: (string, string), env: Env): Applied {
    Dispatch(a, ToLower(pair.0), Trim(pair.1), env)
  }

  /** The handling of a normalised key and value: the dispatch on the key
      table. Only an unrecognised key grows the invalid list, by that key, and
      the scene changes only to a value the scene table accepts. */
  function Dispatch(a: Applied, key: string, val: string, env: Env): (r: Applied)
    ensures r.invalid == a.invalid || (r.invalid == a.invalid + [key] && !IsRecognisedKey(key))
    ensures r.scene == a.scene || (r.scene == val && env.isValidSceneName(val))
  {
    var parsed := ParseNumber(JsString(val), env.parseFloat);
    match Lookup(key)
    case None => a.(invalid := a.invalid + [key])
    case Some(SceneFile) =>
      if env.isValidSceneName(val) then a.(scene := val) else a
    case Some(SoftwareRasterizerThreshold) =>
      if parsed.None? then a
      else if parsed.value == 0.0 then a.(settings := a.settings.(softwareRasterizerEnabled := false))
      else a.(settings := a.settings.(softwareRasterizerThreshold := Abs(parsed.value)))
    case Some(ImpostorsThreshold) =>
      if parsed.None? then a else a.(settings := a.settings.(billboardThreshold := Abs(parsed.value)))
    case Some(ImpostorsTextureSize) =>
      if parsed.None? then a else a.(settings := a.settings.(textureSize := Abs(parsed.value)))
    case Some(NaniteErrorThreshold) =>
      if parsed.None? then a else a.(settings := a.settings.(errorThreshold := Abs(parsed.value)))
    case Some(ImpostorsForceOnlyBillboards) =>
      a.(settings := a.settings.(forceOnlyBillboards := true))
  }

  /** The reader's handling of all pairs, in query order (the last pair is
      handled last). */
  function ApplyAll(a: Applied, pairs: seq<(string, string)>, env: Env): (r: Applied)
    ensures a.invalid <= r.invalid && |r.invalid| <= |a.invalid| + |pairs|
    decreases |pairs|
  {
    if pairs == [] then a
    else Step(ApplyAll(a, pairs[..|pairs| - 1], env), pairs[|pairs| - 1], env)
  }

  // ---------------------------------------------------------------------
  // Reference definitions the properties below are stated against.

  /** The lower-cased unrecognised keys of the pairs, in query order. */
  function UnrecognisedKeys(pairs: seq<(string, string)>): seq<string> {
    if pairs == [] then []
    else
      (if EntryOf(pairs[0]).Some? then [] else [ToLower(pairs[0].0)])
      + UnrecognisedKeys(pairs[1..])
  }

  /** A scene_file pair whose trimmed value the scene table accepts. */
  predicate IsValidSceneParam(pair: (string, string), env: Env) {
    EntryOf(pair) == Some(SceneFile) && env.isValidSceneName(Trim(pair.1))
  }

  /** The value of the last pair for entry `k` whose value parses, skipping
      parsed zeros when `skipZero` holds. */
  function LastParsed(pairs: seq<(string, string)>, k: ParamKey, env: Env, skipZero: bool): Option<real>
    decreases |pairs|
  {
    if pairs == [] then None
    else
      var p := ParsedFor(pairs[|pairs| - 1], k, env);
      if p.Some? && !(skipZero && p.value == 0.0) then p
      else LastParsed(pairs[..|pairs| - 1], k, env, skipZero)
  }

  /** Each numeric setting is either what it was or non-negative. */
  predicate NumericWritesNonNegative(before: Settings, after: Settings) {
    && (after.softwareRasterizerThreshold == before.softwareRasterizerThreshold || after.softwareRasterizerThreshold >= 0.0)
    && (after.billboardThreshold == before.billboardThreshold || after.billboardThreshold >= 0.0)
    && (after.textureSize == before.textureSize || after.textureSize >= 0.0)
    && (after.errorThreshold == before.errorThreshold || after.errorThreshold >= 0.0)
  }

  predicate NumericNonNegative(s: Settings) {
    && s.softwareRasterizerThreshold >= 0.0
    && s.billboardThreshold >= 0.0
    && s.textureSize >= 0.0
    && s.errorThreshold >= 0.0
  }

  // ---------------------------------------------------------------------
  // One pair at a time.

  /** Keys are compared case-insensitively and values trimmed before they are
      read: a pair is handled exactly like its normalised form. */
  lemma StepSeesOnlyNormalisedPair(a: Applied, key: string, val: string, env: Env)
    ensures Step(a, (key, val), env) == Step(a, (ToLower(key), Trim(val)), env)
  {
    ToLowerIdempotent(key);
    TrimIdempotent(val);
  }

  /** softwarerasterizer_threshold: a parsed zero switches the software
      rasterizer off and keeps the threshold; any other number becomes the
      threshold (as its absolute value) and keeps the switch. */
  lemma SoftwareRasterizerThresholdStep(a: Applied, pair: (string, string), env: Env)
    requires EntryOf(pair) == Some(SoftwareRasterizerThreshold)
    ensures var v := ParseNumber(JsString(Trim(pair.1)), env.parseFloat);
      Step(a, pair, env) ==
        if v.None? then a
        else if v.value == 0.0 then a.(settings := a.settings.(softwareRasterizerEnabled := false))
        else a.(settings := a.settings.(softwareRasterizerThreshold := Abs(v.value)))
  {
  }

  /** A numeric key whose value parseNumber rejects changes nothing, and in
      particular is not reported as unrecognised. */
  lemma RejectedNumberChangesNothing(a: Applied, pair: (string, string), env: Env)
    requires EntryOf(pair) == Some(SoftwareRasterizerThreshold) ||
             (EntryOf(pair).Some? && IsPlainNumericKey(EntryOf(pair).value))
    requires ParseNumber(JsString(Trim(pair.1)), env.parseFloat).None?
    ensures Step(a, pair, env) == a
  {
  }

  /** impostors_forceonlybillboards turns the flag on whatever its value says. */
  lemma ForceOnlyBillboardsStep(a: Applied, pair: (string, string), env: Env)
    requires EntryOf(pair) == Some(ImpostorsForceOnlyBillboards)
    ensures Step(a, pair, env) == a.(settings := a.settings.(forceOnlyBillboards := true))
  {
  }

  /** An unrecognised key is appended, lower-cased, to the invalid list and
      nothing else changes; a recognised key never touches the list. */
  lemma UnrecognisedKeyStep(a: Applied, pair: (string, string), env: Env)
    ensures EntryOf(pair).None? ==>
      Step(a, pair, env) == a.(invalid := a.invalid + [ToLower(pair.0)])
    ensures EntryOf(pair).Some? ==> Step(a, pair, env).invalid == a.invalid
  {
  }

  /** One pair's effect on the scene choice: only a valid scene_file replaces it. */
  lemma StepScene(a: Applied, pair: (string, string), env: Env)
    ensures Step(a, pair, env).scene == if IsValidSceneParam(pair, env) then Trim(pair.1) else a.scene
  {
  }

  /** One pair's effect on forceOnlyBillboards: it can only be switched on. */
  lemma StepForceOnlyBillboards(a: Applied, pair: (string, string), env: Env)
    ensures Step(a, pair, env).settings.forceOnlyBillboards <==>
      a.settings.forceOnlyBillboards || EntryOf(pair) == Some(ImpostorsForceOnlyBillboards)
  {
  }

  /** One pair writes only absolute values into the numeric settings. */
  lemma StepNumericWritesNonNegative(a: Applied, pair: (string, string), env: Env)
    ensures NumericWritesNonNegative(a.settings, Step(a, pair, env).settings)
  {
  }

  /** One pair's effect on a plain numeric setting: a parsed value for that
      key replaces it, anything else keeps it. */
  lemma StepPlainNumeric(a: Applied, pair: (string, string), env: Env, k: ParamKey)
    requires IsPlainNumericKey(k)
    ensures PlainNumericField(Step(a, pair, env).settings, k) ==
      match ParsedFor(pair, k, env)
      case None => PlainNumericField(a.settings, k)
      case Some(v) => Abs(v)
  {
  }

  /** One pair's effect on the software rasterizer: a parsed zero disables
      it, a parsed non-zero number replaces the threshold. */
  lemma StepSoftwareRasterizer(a: Applied, pair: (string, string), env: Env)
    ensures var p := ParsedFor(pair, SoftwareRasterizerThreshold, env);
      var s := Step(a, pair, env).settings;
      && (s.softwareRasterizerEnabled <==> a.settings.softwareRasterizerEnabled && p != Some(0.0))
      && s.softwareRasterizerThreshold ==
           if p.Some? && p.value != 0.0 then Abs(p.value) else a.settings.softwareRasterizerThreshold
  {
  }

  // ---------------------------------------------------------------------
  // The whole query.

  /** The invalid list grows by exactly the lower-cased unrecognised keys, in
      query order, after what it already held. */
  lemma {:induction false} InvalidKeysAppended(a: Applied, pairs: seq<(string, string)>, env: Env)
    ensures ApplyAll(a, pairs, env).invalid == a.invalid + UnrecognisedKeys(pairs)
    decreases |pairs|
  {
    if pairs != [] {
      var init := pairs[..|pairs| - 1];
      var last := pairs[|pairs| - 1];
      var prev := ApplyAll(a, init, env);
      var tail := if EntryOf(last).Some? then [] else [ToLower(last.0)];
      InvalidKeysAppended(a, init, env);
      UnrecognisedKeyStep(prev, last, env);
      assert ApplyAll(a, pairs, env).invalid == prev.invalid + tail;
      assert pairs == init + [last];
      UnrecognisedKeysSnoc(init, last);
    }
  }

  /** UnrecognisedKeys read from the back: the keys of a prefix, then the last one's. */
  lemma {:induction false} UnrecognisedKeysSnoc(pairs: seq<(string, string)>, last: (string, string))
    ensures UnrecognisedKeys(pairs + [last]) ==
      UnrecognisedKeys(pairs) + (if EntryOf(last).Some? then [] else [ToLower(last.0)])
    decreases |pairs|
  {
    if pairs == [] {
      assert [last][1..] == [];
    } else {
      assert (pairs + [last])[1..] == pairs[1..] + [last];
      UnrecognisedKeysSnoc(pairs[1..], last);
    }
  }

  /** With no valid scene_file pair the scene choice stays as it was. */
  lemma {:induction false} SceneKeptWithoutValidSceneParam(a: Applied, pairs: seq<(string, string)>, env: Env)
    requires forall i :: 0 <= i < |pairs| ==> !IsValidSceneParam(pairs[i], env)
    ensures ApplyAll(a, pairs, env).scene == a.scene
    decreases |pairs|
  {
    if pairs != [] {
      SceneKeptWithoutValidSceneParam(a, pairs[..|pairs| - 1], env);
      StepScene(ApplyAll(a, pairs[..|pairs| - 1], env), pairs[|pairs| - 1], env);
    }
  }

  /** The last valid scene_file pair decides the scene: its trimmed value. */
  lemma {:induction false} LastValidSceneParamWins(a: Applied, pairs: seq<(string, string)>, env: Env, i: nat)
    requires i < |pairs| && IsValidSceneParam(pairs[i], env)
    requires forall j :: i < j < |pairs| ==> !IsValidSceneParam(pairs[j], env)
    ensures ApplyAll(a, pairs, env).scene == Trim(pairs[i].1)
    decreases |pairs|
  {
    var init := pairs[..|pairs| - 1];
    StepScene(ApplyAll(a, init, env), pairs[|pairs| - 1], env);
    if i < |pairs| - 1 {
      LastValidSceneParamWins(a, init, env, i);
    }
  }

  /** forceOnlyBillboards ends up set exactly when it already was or some
      pair's key is impostors_forceonlybillboards: it is never cleared. */
  lemma {:induction false} ForceOnlyBillboardsIffKeyPresent(a: Applied, pairs: seq<(string, string)>, env: Env)
    ensures ApplyAll(a, pairs, env).settings.forceOnlyBillboards <==>
      a.settings.forceOnlyBillboards ||
      exists i :: 0 <= i < |pairs| && EntryOf(pairs[i]) == Some(ImpostorsForceOnlyBillboards)
    decreases |pairs|
  {
    if pairs != [] {
      var init := pairs[..|pairs| - 1];
      ForceOnlyBillboardsIffKeyPresent(a, init, env);
      StepForceOnlyBillboards(ApplyAll(a, init, env), pairs[|pairs| - 1], env);
      if exists i :: 0 <= i < |init| && EntryOf(init[i]) == Some(ImpostorsForceOnlyBillboards) {
        var i :| 0 <= i < |init| && EntryOf(init[i]) == Some(ImpostorsForceOnlyBillboards);
        assert pairs[i] == init[i];
      }
      if exists i :: 0 <= i < |pairs| && EntryOf(pairs[i]) == Some(ImpostorsForceOnlyBillboards) {
        var i :| 0 <= i < |pairs| && EntryOf(pairs[i]) == Some(ImpostorsForceOnlyBillboards);
        if i < |init| { assert init[i] == pairs[i]; }
      }
    }
  }

  /** Every numeric setting the reader writes is non-negative (an absolute value). */
  lemma {:induction false} NumericWritesAreNonNegative(a: Applied, pairs: seq<(string, string)>, env: Env)
    ensures NumericWritesNonNegative(a.settings, ApplyAll(a, pairs, env).settings)
    decreases |pairs|
  {
    if pairs != [] {
      NumericWritesAreNonNegative(a, pairs[..|pairs| - 1], env);
      StepNumericWritesNonNegative(ApplyAll(a, pairs[..|pairs| - 1], env), pairs[|pairs| - 1], env);
    }
  }

  /** So a configuration whose numbers start non-negative keeps them non-negative. */
  lemma NonNegativeSettingsStayNonNegative(a: Applied, pairs: seq<(string, string)>, env: Env)
    requires NumericNonNegative(a.settings)
    ensures NumericNonNegative(ApplyAll(a, pairs, env).settings)
  {
    NumericWritesAreNonNegative(a, pairs, env);
  }

  /** impostors_threshold, impostors_texturesize and nanite_errorthreshold:
      the last pair of that key whose value parses decides the field (as an
      absolute value); without one the field is unchanged. */
  lemma {:induction false} PlainNumericLastWins(a: Applied, pairs: seq<(string, string)>, env: Env, k: ParamKey)
    requires IsPlainNumericKey(k)
    ensures PlainNumericField(ApplyAll(a, pairs, env).settings, k) ==
      match LastParsed(pairs, k, env, false)
      case None => PlainNumericField(a.settings, k)
      case Some(v) => Abs(v)
    decreases |pairs|
  {
    if pairs != [] {
      PlainNumericLastWins(a, pairs[..|pairs| - 1], env, k);
      StepPlainNumeric(ApplyAll(a, pairs[..|pairs| - 1], env), pairs[|pairs| - 1], env, k);
    }
  }

  /** The software rasterizer stays enabled exactly when it was and no
      softwarerasterizer_threshold pair parses to zero. */
  lemma {:induction false} SoftwareRasterizerEnabledUnlessZero(a: Applied, pairs: seq<(string, string)>, env: Env)
    ensures ApplyAll(a, pairs, env).settings.softwareRasterizerEnabled <==>
      a.settings.softwareRasterizerEnabled &&
      forall i :: 0 <= i < |pairs| ==> ParsedFor(pairs[i], SoftwareRasterizerThreshold, env) != Some(0.0)
    decreases |pairs|
  {
    if pairs != [] {
      var init := pairs[..|pairs| - 1];
      SoftwareRasterizerEnabledUnlessZero(a, init, env);
      StepSoftwareRasterizer(ApplyAll(a, init, env), pairs[|pairs| - 1], env);
      assert forall i :: 0 <= i < |init| ==> init[i] == pairs[i];
    }
  }

  /** The software rasterizer threshold is the absolute value of the last
      non-zero number given for softwarerasterizer_threshold, or unchanged. */
  lemma {:induction false} SoftwareRasterizerThresholdLastNonZeroWins(a: Applied, pairs: seq<(string, string)>, env: Env)
    ensures ApplyAll(a, pairs, env).settings.softwareRasterizerThreshold ==
      match LastParsed(pairs, SoftwareRasterizerThreshold, env, true)
      case None => a.settings.softwareRasterizerThreshold
      case Some(v) => Abs(v)
    decreases |pairs|
  {
    if pairs != [] {
      SoftwareRasterizerThresholdLastNonZeroWins(a, pairs[..|pairs| - 1], env);
      StepSoftwareRasterizer(ApplyAll(a, pairs[..|pairs| - 1], env), pairs[|pairs| - 1], env);
    }
  }

  // ---------------------------------------------------------------------
  // The mutable configuration objects and the reader itself.

  class SoftwareRasterizerConfig {
    var enabled: bool
    var threshold: real

    constructor (enabled: bool, threshold: real)
      ensures this.enabled == enabled && this.threshold == threshold
    {
      this.enabled := enabled;
      this.threshold := threshold;
    }
  }

  class ImpostorsConfig {
    var billboardThreshold: real
    var textureSize: real
    var forceOnlyBillboards: bool

    constructor (billboardThreshold: real, textureSize: real, forceOnlyBillboards: bool)
      ensures this.billboardThreshold == billboardThreshold && this.textureSize == textureSize
      ensures this.forceOnlyBillboards == forceOnlyBillboards
    {
      this.billboardThreshold := billboardThreshold;
      this.textureSize := textureSize;
      this.forceOnlyBillboards := forceOnlyBillboards;
    }
  }

  class NaniteRenderConfig {
    var errorThreshold: real

    constructor (errorThreshold: real)
      ensures this.errorThreshold == errorThreshold
    {
      this.errorThreshold := errorThreshold;
    }
  }

  class NaniteConfig {
    const render: NaniteRenderConfig

    constructor (render: NaniteRenderConfig)
      ensures this.render == render
    {
      this.render := render;
    }
  }

  /** The renderer configuration (CONFIG): nested records the reader writes
      into, and the scene file it records last. */
  class Config {
    const softwareRasterizer: SoftwareRasterizerConfig
    const impostors: ImpostorsConfig
    const nanite: NaniteConfig
    var sceneFile: string

    constructor (softwareRasterizer: SoftwareRasterizerConfig, impostors: ImpostorsConfig,
                 nanite: NaniteConfig, sceneFile: string)
      ensures this.softwareRasterizer == softwareRasterizer && this.impostors == impostors
      ensures this.nanite == nanite && this.sceneFile == sceneFile
    {
      this.softwareRasterizer := softwareRasterizer;
      this.impostors := impostors;
      this.nanite := nanite;
      this.sceneFile := sceneFile;
    }

    /** The values of the fields the reader can write. */
    function Snapshot(): Settings
      reads softwareRasterizer, impostors, nanite.render
    {
      Settings(
        softwareRasterizer.enabled, softwareRasterizer.threshold,
        impostors.billboardThreshold, impostors.textureSize, impostors.forceOnlyBillboards,
        nanite.render.errorThreshold)
    }
  }

  /** The module-level INVALID_SEARCH_PARAMS array. */
  class InvalidSearchParams {
    var keys: seq<string>

    constructor ()
      ensures keys == []
    {
      keys := [];
    }
  }

  /** The forEach callback of applySearchParams: handles one raw pair,
      writing into `target` and `invalidParams`, and returns the scene choice
      as it stands after the pair. */
  method HandleParam(target: Config, invalidParams: InvalidSearchParams, scene: string,
                     rawKey: string, rawVal: string, env: Env)
    returns (newScene: string)
    modifies target.softwareRasterizer, target.impostors, target.nanite.render, invalidParams
    ensures Applied(target.Snapshot(), newScene, invalidParams.keys) ==
      Step(Applied(old(target.Snapshot()), scene, old(invalidParams.keys)), (rawKey, rawVal), env)
  {
    newScene := scene;
    var key := ToLower(rawKey);
    var val := Trim(rawVal);
    match Lookup(key) {
      case Some(SceneFile) =>
        if env.isValidSceneName(val) {
          newScene := val;
        }
      case Some(SoftwareRasterizerThreshold) =>
        var parsed := ParseNumber(JsString(val), env.parseFloat);
        if parsed.Some? {
          if parsed.value == 0.0 {
            target.softwareRasterizer.enabled := false;
          } else {
            target.softwareRasterizer.threshold := Abs(parsed.value);
          }
        }
      case Some(ImpostorsThreshold) =>
        var parsed := ParseNumber(JsString(val), env.parseFloat);
        if parsed.Some? {
          target.impostors.billboardThreshold := Abs(parsed.value);
        }
      case Some(ImpostorsTextureSize) =>
        var parsed := ParseNumber(JsString(val), env.parseFloat);
        if parsed.Some? {
          target.impostors.textureSize := Abs(parsed.value);
        }
      case Some(NaniteErrorThreshold) =>
        var parsed := ParseNumber(JsString(val), env.parseFloat);
        if parsed.Some? {
          target.nanite.render.errorThreshold := Abs(parsed.value);
        }
      case Some(ImpostorsForceOnlyBillboards) =>
        target.impostors.forceOnlyBillboards := true;
      case None =>
        invalidParams.keys := invalidParams.keys + [key];
    }
  }

  /** applySearchParams: handles the pairs in query order, then records the
      chosen scene in `config` (the global CONFIG, which may be `target`
      itself) and returns it. */
  method ApplySearchParams(target: Config, config: Config, invalidParams: InvalidSearchParams,
                           defaultScene: string, pairs: seq<(string, string)>, env: Env)
    returns (scene: string)
    modifies target.softwareRasterizer, target.impostors, target.nanite.render
    modifies config, invalidParams
    ensures var r := ApplyAll(Applied(old(target.Snapshot()), defaultScene, old(invalidParams.keys)), pairs, env);
      target.Snapshot() == r.settings && scene == r.scene && invalidParams.keys == r.invalid
    ensures config.sceneFile == scene
  {
    ghost var start := Applied(target.Snapshot(), defaultScene, invalidParams.keys);
    scene := defaultScene;
    var i := 0;
    while i < |pairs|
      invariant i <= |pairs|
      invariant ApplyAll(start, pairs[..i], env) == Applied(target.Snapshot(), scene, invalidParams.keys)
    {
      scene := HandleParam(target, invalidParams, scene, pairs[i].0, pairs[i].1, env);
      assert pairs[..i + 1][..i] == pairs[..i];
      i := i + 1;
    }
    assert pairs[..|pairs|] == pairs;
    config.sceneFile := scene;
  }
}
