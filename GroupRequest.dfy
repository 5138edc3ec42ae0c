/** The write payload of a group: a copy of a property set, serialised with NON_NULL omission. */
module GroupRequest {
  import opened Wrappers
  import opened JavaLang
  import opened Json
  import opened ApiCode
  import GP = GroupProperties

  datatype GroupRequest = GroupRequest(
    on: Option<bool>,
    brightness: Option<Int32>,
    transitionTime: Option<Int32>,
    colourHex: Option<string>)

  /** `new GroupRequest(properties)`: copies the four fields verbatim. */
  function Of(p: GP.GroupProperties): (r: GroupRequest)
    ensures r.on == p.on && r.brightness == p.brightness
    ensures r.transitionTime == p.transitionTime && r.colourHex == p.colourHex
  {
    GroupRequest(p.on, p.brightness, p.transitionTime, p.colourHex)
  }

  function SetOn(r: GroupRequest, on: Option<bool>): (r': GroupRequest)
    ensures r'.on == on
    ensures r'.brightness == r.brightness && r'.transitionTime == r.transitionTime && r'.colourHex == r.colourHex
  {
    r.(on := on)
  }

  function SetBrightness(r: GroupRequest, brightness: Option<Int32>): (r': GroupRequest)
    ensures r'.brightness == brightness
    ensures r'.on == r.on && r'.transitionTime == r.transitionTime && r'.colourHex == r.colourHex
  {
    r.(brightness := brightness)
  }

  function SetTransitionTime(r: GroupRequest, transitionTime: Option<Int32>): (r': GroupRequest)
    ensures r'.transitionTime == transitionTime
    ensures r'.on == r.on && r'.brightness == r.brightness && r'.colourHex == r.colourHex
  {
    r.(transitionTime := transitionTime)
  }

  /**
   * The serialised request. The class carries the same property annotations as
   * GroupProperties, so its wire form is that of the property set it holds:
   * a key exactly for each non-null field, and `on` as the number 1 or 0.
   */
  function Encode(r: GroupRequest): (j: Json)
    ensures j.JObj? && j.fields.Keys <= GP.KEYS
    ensures ON_OFF in j.fields <==> r.on.Some?
    ensures BRIGHTNESS in j.fields <==> r.brightness.Some?
    ensures TRANSITION_TIME in j.fields <==> r.transitionTime.Some?
    ensures COLOUR_HEX in j.fields <==> r.colourHex.Some?
    ensures r.on.Some? ==> j.fields[ON_OFF] == JNum(if r.on.value then 1 else 0)
    ensures r.brightness.Some? ==> j.fields[BRIGHTNESS] == JNum(r.brightness.value)
    ensures r.transitionTime.Some? ==> j.fields[TRANSITION_TIME] == JNum(r.transitionTime.value)
    ensures r.colourHex.Some? ==> j.fields[COLOUR_HEX] == JStr(r.colourHex.value)
  {
    GP.Encode(GP.GroupProperties(r.on, r.brightness, r.transitionTime, r.colourHex))
  }

  /** A request built from an all-null property set sends the empty object. */
  lemma EncodeEmpty()
    ensures Encode(Of(GP.Empty())) == JObj(map[])
  {
  }

  /** The request carries exactly what the property set holds: reading it back as properties gives them. */
  lemma EncodeRoundTrip(p: GP.GroupProperties)
    ensures GP.Decode(Encode(Of(p))) == Success(p)
  {
    GP.RoundTrip(p);
  }
}
