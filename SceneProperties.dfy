/**
 * The properties of a scene. Unknown keys are ignored when reading; the name
 * and the light settings are omitted when null, while the five primitive
 * fields are always written and keep their defaults when their key is absent.
 */
module SceneProperties {
  import opened Wrappers
  import opened JavaLang
  import opened Json
  import opened Codec
  import opened ApiCode

  /** One light setting of a scene, carried as its JSON form (its own layout is not part of this model). */
  datatype LightSetting = LightSetting(raw: Json)

  datatype SceneProperties = SceneProperties(
    name: Option<string>,
    isActive: bool,
    sceneIconId: Int32,
    sceneIndex: Int32,
    ikeaMoods: Int32,
    useCurrentLightSettings: Int32,
    lightSettings: Option<seq<LightSetting>>)

  /** The keys the scene properties are read from. */
  const KEYS: set<string> :=
    {NAME, SCENE_ACTIVATE_FLAG, SCENE_ICON_ID, SCENE_INDEX, IKEA_MOODS, USE_CURRENT_LIGHT_SETTINGS, LIGHT_SETTINGS}

  /** A freshly constructed property set: no name, inactive, every number 0, an empty light setting list. */
  function Default(): (p: SceneProperties)
    ensures p.name.None? && !p.isActive
    ensures p.sceneIconId == 0 && p.sceneIndex == 0 && p.ikeaMoods == 0 && p.useCurrentLightSettings == 0
    ensures p.lightSettings == Some([])
  {
    SceneProperties(None, false, 0, 0, 0, 0, Some([]))
  }

  function SetName(p: SceneProperties, name: Option<string>): (r: SceneProperties)
    ensures r.name == name && r == p.(name := r.name)
  {
    p.(name := name)
  }

  function SetActive(p: SceneProperties, active: bool): (r: SceneProperties)
    ensures r.isActive == active && r == p.(isActive := r.isActive)
  {
    p.(isActive := active)
  }

  function SetSceneIconId(p: SceneProperties, sceneIconId: Int32): (r: SceneProperties)
    ensures r.sceneIconId == sceneIconId && r == p.(sceneIconId := r.sceneIconId)
  {
    p.(sceneIconId := sceneIconId)
  }

  function SetSceneIndex(p: SceneProperties, sceneIndex: Int32): (r: SceneProperties)
    ensures r.sceneIndex == sceneIndex && r == p.(sceneIndex := r.sceneIndex)
  {
    p.(sceneIndex := sceneIndex)
  }

  function SetIkeaMoods(p: SceneProperties, ikeaMoods: Int32): (r: SceneProperties)
    ensures r.ikeaMoods == ikeaMoods && r == p.(ikeaMoods := r.ikeaMoods)
  {
    p.(ikeaMoods := ikeaMoods)
  }

  function SetUseCurrentLightSettings(p: SceneProperties, use: Int32): (r: SceneProperties)
    ensures r.useCurrentLightSettings == use && r == p.(useCurrentLightSettings := r.useCurrentLightSettings)
  {
    p.(useCurrentLightSettings := use)
  }

  function SetLightSettings(p: SceneProperties, lightSettings: Option<seq<LightSetting>>): (r: SceneProperties)
    ensures r.lightSettings == lightSettings && r == p.(lightSettings := r.lightSettings)
  {
    p.(lightSettings := lightSettings)
  }

  function SettingsToJson(s: seq<LightSetting>): seq<Json> {
    seq(|s|, i requires 0 <= i < |s| => s[i].raw)
  }

  function SettingsFromJson(items: seq<Json>): seq<LightSetting> {
    seq(|items|, i requires 0 <= i < |items| => LightSetting(items[i]))
  }

  /**
   * The wire form: the five primitives under their keys always, the active
   * flag as 1 or 0, the name and the light settings only when non-null.
   */
  function Encode(p: SceneProperties): (j: Json)
    ensures j.JObj? && j.fields.Keys <= KEYS
    ensures KEYS - {NAME, LIGHT_SETTINGS} <= j.fields.Keys
    ensures NAME in j.fields <==> p.name.Some?
    ensures LIGHT_SETTINGS in j.fields <==> p.lightSettings.Some?
    ensures p.name.Some? ==> j.fields[NAME] == JStr(p.name.value)
    ensures p.lightSettings.Some? ==> j.fields[LIGHT_SETTINGS] == JArr(SettingsToJson(p.lightSettings.value))
    ensures j.fields[SCENE_ACTIVATE_FLAG] == JNum(if p.isActive then 1 else 0)
    ensures j.fields[SCENE_ICON_ID] == JNum(p.sceneIconId) && j.fields[SCENE_INDEX] == JNum(p.sceneIndex)
    ensures j.fields[IKEA_MOODS] == JNum(p.ikeaMoods)
    ensures j.fields[USE_CURRENT_LIGHT_SETTINGS] == JNum(p.useCurrentLightSettings)
  {
    var m0 := Include(map[], NAME, OptStrToJson(p.name));
    var m1 := m0[SCENE_ACTIVATE_FLAG := FlagToJson(p.isActive)];
    var m2 := m1[SCENE_ICON_ID := JNum(p.sceneIconId)][SCENE_INDEX := JNum(p.sceneIndex)];
    var m3 := m2[IKEA_MOODS := JNum(p.ikeaMoods)][USE_CURRENT_LIGHT_SETTINGS := JNum(p.useCurrentLightSettings)];
    var settings := match p.lightSettings
      case None => None
      case Some(s) => Some(JArr(SettingsToJson(s)));
    JObj(Include(m3, LIGHT_SETTINGS, settings))
  }

  /** Reading the light setting list: an array of settings; null stays null. */
  function SettingsFrom(fields: map<string, Json>, dflt: Option<seq<LightSetting>>): Result<Option<seq<LightSetting>>, DecodeError> {
    if LIGHT_SETTINGS !in fields then Success(dflt)
    else match fields[LIGHT_SETTINGS]
      case JNull => Success(None)
      case JArr(items) => Success(Some(SettingsFromJson(items)))
      case _ => Failure(WrongShape(LIGHT_SETTINGS))
  }

  /** Reading a payload into a fresh property set: each present key overrides its default. */
  function Decode(j: Json): Result<SceneProperties, DecodeError> {
    if !j.JObj? then Failure(NotAnObject)
    else
      var f := j.fields;
      var d := Default();
      var name :- OptString(f, NAME);
      var isActive :- PrimFlag(f, SCENE_ACTIVATE_FLAG, d.isActive);
      var sceneIconId :- PrimInt32(f, SCENE_ICON_ID, d.sceneIconId);
      var sceneIndex :- PrimInt32(f, SCENE_INDEX, d.sceneIndex);
      var ikeaMoods :- PrimInt32(f, IKEA_MOODS, d.ikeaMoods);
      var useCurrent :- PrimInt32(f, USE_CURRENT_LIGHT_SETTINGS, d.useCurrentLightSettings);
      var lightSettings :- SettingsFrom(f, d.lightSettings);
      Success(SceneProperties(name, isActive, sceneIconId, sceneIndex, ikeaMoods, useCurrent, lightSettings))
  }

  lemma SettingsRoundTrip(s: seq<LightSetting>)
    ensures SettingsFromJson(SettingsToJson(s)) == s
  {
  }

  /**
   * Decoding an encoded property set gives it back, except that a null light
   * setting list is omitted on the wire and so reads back as the default empty list.
   */
  lemma RoundTrip(p: SceneProperties)
    ensures Decode(Encode(p)) == Success(if p.lightSettings.None? then p.(lightSettings := Some([])) else p)
  {
    var f := Encode(p).fields;
    assert OptString(f, NAME) == Success(p.name);
    assert PrimFlag(f, SCENE_ACTIVATE_FLAG, false) == Success(p.isActive);
    assert PrimInt32(f, SCENE_ICON_ID, 0) == Success(p.sceneIconId);
    assert PrimInt32(f, SCENE_INDEX, 0) == Success(p.sceneIndex);
    assert PrimInt32(f, IKEA_MOODS, 0) == Success(p.ikeaMoods);
    assert PrimInt32(f, USE_CURRENT_LIGHT_SETTINGS, 0) == Success(p.useCurrentLightSettings);
    if p.lightSettings.Some? {
      SettingsRoundTrip(p.lightSettings.value);
    }
    assert SettingsFrom(f, Some([])) == Success(if p.lightSettings.None? then Some([]) else p.lightSettings);
  }

  /** Keys other than the seven scene codes do not influence decoding. */
  lemma IgnoresUnknownKeys(fields: map<string, Json>, extra: map<string, Json>)
    requires extra.Keys !! KEYS
    ensures Decode(JObj(fields + extra)) == Decode(JObj(fields))
  {
    var all := fields + extra;
    LookupIgnoresExtra(fields, extra, NAME);
    LookupIgnoresExtra(fields, extra, SCENE_ACTIVATE_FLAG);
    LookupIgnoresExtra(fields, extra, SCENE_ICON_ID);
    LookupIgnoresExtra(fields, extra, SCENE_INDEX);
    LookupIgnoresExtra(fields, extra, IKEA_MOODS);
    LookupIgnoresExtra(fields, extra, USE_CURRENT_LIGHT_SETTINGS);
    LookupIgnoresExtra(fields, extra, LIGHT_SETTINGS);
    assert OptString(all, NAME) == OptString(fields, NAME);
    assert PrimFlag(all, SCENE_ACTIVATE_FLAG, false) == PrimFlag(fields, SCENE_ACTIVATE_FLAG, false);
    assert PrimInt32(all, SCENE_ICON_ID, 0) == PrimInt32(fields, SCENE_ICON_ID, 0);
    assert PrimInt32(all, SCENE_INDEX, 0) == PrimInt32(fields, SCENE_INDEX, 0);
    assert PrimInt32(all, IKEA_MOODS, 0) == PrimInt32(fields, IKEA_MOODS, 0);
    assert PrimInt32(all, USE_CURRENT_LIGHT_SETTINGS, 0) == PrimInt32(fields, USE_CURRENT_LIGHT_SETTINGS, 0);
    assert SettingsFrom(all, Some([])) == SettingsFrom(fields, Some([]));
  }

  /** An empty payload reads as the defaults, and so does one holding only unknown keys. */
  lemma AbsentKeysGiveDefaults(fields: map<string, Json>)
    requires fields.Keys !! KEYS
    ensures Decode(JObj(fields)) == Success(Default())
  {
    IgnoresUnknownKeys(map[], fields);
    assert map[] + fields == fields;
  }

  /** An explicit JSON null in a primitive field reads as false or 0, not as the default or an error. */
  lemma NullPrimitiveIsZero(p: SceneProperties)
    requires p.lightSettings.Some?
    ensures var f := Encode(p).fields[SCENE_INDEX := JNull][SCENE_ACTIVATE_FLAG := JNull];
      Decode(JObj(f)) == Success(p.(sceneIndex := 0, isActive := false))
  {
    var e := Encode(p).fields;
    var f := e[SCENE_INDEX := JNull][SCENE_ACTIVATE_FLAG := JNull];
    assert OptString(f, NAME) == Success(p.name);
    assert PrimFlag(f, SCENE_ACTIVATE_FLAG, false) == Success(false);
    assert PrimInt32(f, SCENE_ICON_ID, 0) == Success(p.sceneIconId);
    assert PrimInt32(f, SCENE_INDEX, 0) == Success(0);
    assert PrimInt32(f, IKEA_MOODS, 0) == Success(p.ikeaMoods);
    assert PrimInt32(f, USE_CURRENT_LIGHT_SETTINGS, 0) == Success(p.useCurrentLightSettings);
    SettingsRoundTrip(p.lightSettings.value);
    assert SettingsFrom(f, Some([])) == Success(p.lightSettings);
  }
}
