/**
 * The sparse property set of a group: four nullable fields, each written
 * under its own numeric key, omitted when null, and read back ignoring
 * unknown keys.
 */
module GroupProperties {
  import opened Wrappers
  import opened JavaLang
  import opened Json
  import opened Codec
  import opened ApiCode

  /** A null field means "unknown" when read and "leave unchanged" when written. */
  datatype GroupProperties = GroupProperties(
    on: Option<bool>,
    brightness: Option<Int32>,
    transitionTime: Option<Int32>,
    colourHex: Option<string>)

  /** The keys the group properties are read from. */
  const KEYS: set<string> := {ON_OFF, BRIGHTNESS, TRANSITION_TIME, COLOUR_HEX}

  /** `new GroupProperties()`: every field is null, so the payload it encodes to is empty. */
  function Empty(): (p: GroupProperties)
    ensures p.on.None? && p.brightness.None? && p.transitionTime.None? && p.colourHex.None?
    ensures Encode(p) == JObj(map[])
  {
    GroupProperties(None, None, None, None)
  }

  function SetOn(p: GroupProperties, on: Option<bool>): (r: GroupProperties)
    ensures r.on == on
    ensures r.brightness == p.brightness && r.transitionTime == p.transitionTime && r.colourHex == p.colourHex
  {
    p.(on := on)
  }

  function SetBrightness(p: GroupProperties, brightness: Option<Int32>): (r: GroupProperties)
    ensures r.brightness == brightness
    ensures r.on == p.on && r.transitionTime == p.transitionTime && r.colourHex == p.colourHex
  {
    p.(brightness := brightness)
  }

  function SetTransitionTime(p: GroupProperties, transitionTime: Option<Int32>): (r: GroupProperties)
    ensures r.transitionTime == transitionTime
    ensures r.on == p.on && r.brightness == p.brightness && r.colourHex == p.colourHex
  {
    p.(transitionTime := transitionTime)
  }

  function SetColourHex(p: GroupProperties, colourHex: Option<string>): (r: GroupProperties)
    ensures r.colourHex == colourHex
    ensures r.on == p.on && r.brightness == p.brightness && r.transitionTime == p.transitionTime
  {
    p.(colourHex := colourHex)
  }

  /**
   * The wire form: a key exactly for each non-null field, `on` as the number
   * 1 or 0, and no other key.
   */
  function Encode(p: GroupProperties): (j: Json)
    ensures j.JObj? && j.fields.Keys <= KEYS
    ensures ON_OFF in j.fields <==> p.on.Some?
    ensures BRIGHTNESS in j.fields <==> p.brightness.Some?
    ensures TRANSITION_TIME in j.fields <==> p.transitionTime.Some?
    ensures COLOUR_HEX in j.fields <==> p.colourHex.Some?
    ensures p.on.Some? ==> j.fields[ON_OFF] == JNum(if p.on.value then 1 else 0)
    ensures p.brightness.Some? ==> j.fields[BRIGHTNESS] == JNum(p.brightness.value)
    ensures p.transitionTime.Some? ==> j.fields[TRANSITION_TIME] == JNum(p.transitionTime.value)
    ensures p.colourHex.Some? ==> j.fields[COLOUR_HEX] == JStr(p.colourHex.value)
  {
    var m0 := Include(map[], ON_OFF, OptFlagToJson(p.on));
    var m1 := Include(m0, BRIGHTNESS, OptNumToJson(p.brightness));
    var m2 := Include(m1, TRANSITION_TIME, OptNumToJson(p.transitionTime));
    JObj(Include(m2, COLOUR_HEX, OptStrToJson(p.colourHex)))
  }

  /** Reading a payload: each known key fills its field, an absent key leaves it null, other keys are ignored. */
  function Decode(j: Json): Result<GroupProperties, DecodeError> {
    if !j.JObj? then Failure(NotAnObject)
    else
      var on :- OptFlag(j.fields, ON_OFF);
      var brightness :- OptInt32(j.fields, BRIGHTNESS);
      var transitionTime :- OptInt32(j.fields, TRANSITION_TIME);
      var colourHex :- OptString(j.fields, COLOUR_HEX);
      Success(GroupProperties(on, brightness, transitionTime, colourHex))
  }

  /** Decoding an encoded property set gives it back exactly, absent fields staying absent. */
  lemma RoundTrip(p: GroupProperties)
    ensures Decode(Encode(p)) == Success(p)
  {
  }

  /** Keys other than the four property codes do not influence decoding. */
  lemma IgnoresUnknownKeys(fields: map<string, Json>, extra: map<string, Json>)
    requires extra.Keys !! KEYS
    ensures Decode(JObj(fields + extra)) == Decode(JObj(fields))
  {
    var all := fields + extra;
    assert forall k :: k in KEYS ==> ((k in all) == (k in fields)) && (k in fields ==> all[k] == fields[k]);
  }

  /** A field whose key is missing decodes to null, not to a default value. */
  lemma AbsentKeyIsNull(fields: map<string, Json>)
    requires Decode(JObj(fields)).Success?
    ensures ON_OFF !in fields ==> Decode(JObj(fields)).value.on.None?
    ensures BRIGHTNESS !in fields ==> Decode(JObj(fields)).value.brightness.None?
    ensures TRANSITION_TIME !in fields ==> Decode(JObj(fields)).value.transitionTime.None?
    ensures COLOUR_HEX !in fields ==> Decode(JObj(fields)).value.colourHex.None?
  {
  }
}
