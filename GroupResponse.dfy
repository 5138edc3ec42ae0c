/**
 * The read payload of a group. Six numeric keys fill nullable fields; the
 * member device ids come from the nested link list under "9018"; unknown
 * keys are ignored.
 */
module GroupResponse {
  import opened Wrappers
  import opened JavaLang
  import opened Json
  import opened Codec
  import opened ApiCode
  import GP = GroupProperties
  import GR = GroupRequest

  datatype GroupResponse = GroupResponse(
    name: Option<string>,
    brightness: Option<Int32>,
    instanceId: Option<Int32>,
    creationDate: Option<Int64>,
    on: Option<bool>,
    sceneId: Option<Int32>,
    deviceIds: seq<Int32>)

  /** The keys a group response is read from. */
  const KEYS: set<string> := {NAME, BRIGHTNESS, INSTANCE_ID, CREATION_DATE, ON_OFF, SCENE_ID, ACCESSORY_LINK_REMOTE}

  /** `JsonNode.asInt()`: a number narrowed to 32 bits, a boolean as 1 or 0, anything else 0. */
  function AsInt(node: Json): Int32 {
    match node
    case JNum(n) => WrapInt32(n)
    case JBool(b) => if b then 1 else 0
    case _ => 0
  }

  /**
   * The member ids under `devices["15002"]["9003"]`, in element order. The two
   * nodes are dereferenced unconditionally, so a missing one is a failure.
   */
  function DeviceIdsOf(devices: Json): Result<seq<Int32>, DecodeError> {
    match Get(devices, "15002")
    case None => Failure(MissingNode("15002"))
    case Some(link) =>
      match Get(link, "9003")
      case None => Failure(MissingNode("9003"))
      case Some(ids) =>
        var items := Elements(ids);
        Success(seq(|items|, i requires 0 <= i < |items| => AsInt(items[i])))
  }

  /** `unpackDeviceIds`: walks the id nodes one by one, appending each as an int. */
  method UnpackDeviceIds(devices: Json) returns (r: Result<seq<Int32>, DecodeError>)
    ensures r == DeviceIdsOf(devices)
  {
    var link := Get(devices, "15002");
    if link.None? {
      return Failure(MissingNode("15002"));
    }
    var idsNode := Get(link.value, "9003");
    if idsNode.None? {
      return Failure(MissingNode("9003"));
    }
    var items := Elements(idsNode.value);
    var ids: seq<Int32> := [];
    var i := 0;
    while i < |items|
      invariant 0 <= i <= |items|
      invariant |ids| == i
      invariant forall k :: 0 <= k < i ==> ids[k] == AsInt(items[k])
    {
      ids := ids + [AsInt(items[i])];
      i := i + 1;
    }
    assert ids == seq(|items|, k requires 0 <= k < |items| => AsInt(items[k]));
    return Success(ids);
  }

  /** Jackson's reading of a group payload: every known key is read; deviceIds stays empty without "9018". */
  function Decode(j: Json): Result<GroupResponse, DecodeError> {
    if !j.JObj? then Failure(NotAnObject)
    else
      var f := j.fields;
      var name :- OptString(f, NAME);
      var brightness :- OptInt32(f, BRIGHTNESS);
      var instanceId :- OptInt32(f, INSTANCE_ID);
      var creationDate :- OptInt64(f, CREATION_DATE);
      var on :- OptFlag(f, ON_OFF);
      var sceneId :- OptInt32(f, SCENE_ID);
      var deviceIds :- if ACCESSORY_LINK_REMOTE in f then DeviceIdsOf(f[ACCESSORY_LINK_REMOTE]) else Success([]);
      Success(GroupResponse(name, brightness, instanceId, creationDate, on, sceneId, deviceIds))
  }

  /** `getGroupProperties`: only `on` and `brightness` are carried over; the rest is null. */
  function Properties(r: GroupResponse): (p: GP.GroupProperties)
    ensures p.on == r.on && p.brightness == r.brightness
    ensures p.transitionTime.None? && p.colourHex.None?
  {
    GP.GroupProperties(r.on, r.brightness, None, None)
  }

  function SetName(r: GroupResponse, name: Option<string>): (r': GroupResponse)
    ensures r'.name == name && r' == r.(name := r'.name)
  {
    r.(name := name)
  }

  function SetBrightness(r: GroupResponse, brightness: Option<Int32>): (r': GroupResponse)
    ensures r'.brightness == brightness && r' == r.(brightness := r'.brightness)
  {
    r.(brightness := brightness)
  }

  function SetInstanceId(r: GroupResponse, instanceId: Option<Int32>): (r': GroupResponse)
    ensures r'.instanceId == instanceId && r' == r.(instanceId := r'.instanceId)
  {
    r.(instanceId := instanceId)
  }

  function SetCreationDate(r: GroupResponse, creationDate: Option<Int64>): (r': GroupResponse)
    ensures r'.creationDate == creationDate && r' == r.(creationDate := r'.creationDate)
  {
    r.(creationDate := creationDate)
  }

  function SetOn(r: GroupResponse, on: Option<bool>): (r': GroupResponse)
    ensures r'.on == on && r' == r.(on := r'.on)
  {
    r.(on := on)
  }

  function SetSceneId(r: GroupResponse, sceneId: Option<Int32>): (r': GroupResponse)
    ensures r'.sceneId == sceneId && r' == r.(sceneId := r'.sceneId)
  {
    r.(sceneId := sceneId)
  }

  function SetDeviceIds(r: GroupResponse, deviceIds: seq<Int32>): (r': GroupResponse)
    ensures r'.deviceIds == deviceIds && r' == r.(deviceIds := r'.deviceIds)
  {
    r.(deviceIds := deviceIds)
  }

  /** Which key fills which field, for values of the expected shape. */
  lemma DecodeKeyMapping(f: map<string, Json>)
    requires Decode(JObj(f)).Success?
    ensures var r := Decode(JObj(f)).value;
      && (NAME in f && f[NAME].JStr? ==> r.name == Some(f[NAME].s))
      && (BRIGHTNESS in f && f[BRIGHTNESS].JNum? ==> r.brightness == Some(f[BRIGHTNESS].n))
      && (INSTANCE_ID in f && f[INSTANCE_ID].JNum? ==> r.instanceId == Some(f[INSTANCE_ID].n))
      && (CREATION_DATE in f && f[CREATION_DATE].JNum? ==> r.creationDate == Some(f[CREATION_DATE].n))
      && (ON_OFF in f && f[ON_OFF].JNum? ==> r.on == Some(f[ON_OFF].n != 0))
      && (SCENE_ID in f && f[SCENE_ID].JNum? ==> r.sceneId == Some(f[SCENE_ID].n))
      && (NAME !in f ==> r.name.None?) && (BRIGHTNESS !in f ==> r.brightness.None?)
      && (INSTANCE_ID !in f ==> r.instanceId.None?) && (CREATION_DATE !in f ==> r.creationDate.None?)
      && (ON_OFF !in f ==> r.on.None?) && (SCENE_ID !in f ==> r.sceneId.None?)
  {
  }

  /** Keys other than the seven group codes do not influence decoding. */
  lemma IgnoresUnknownKeys(fields: map<string, Json>, extra: map<string, Json>)
    requires extra.Keys !! KEYS
    ensures Decode(JObj(fields + extra)) == Decode(JObj(fields))
  {
    var all := fields + extra;
    LookupIgnoresExtra(fields, extra, NAME);
    LookupIgnoresExtra(fields, extra, BRIGHTNESS);
    LookupIgnoresExtra(fields, extra, INSTANCE_ID);
    LookupIgnoresExtra(fields, extra, CREATION_DATE);
    LookupIgnoresExtra(fields, extra, ON_OFF);
    LookupIgnoresExtra(fields, extra, SCENE_ID);
    LookupIgnoresExtra(fields, extra, ACCESSORY_LINK_REMOTE);
    assert OptString(all, NAME) == OptString(fields, NAME);
    assert OptInt32(all, BRIGHTNESS) == OptInt32(fields, BRIGHTNESS);
    assert OptInt32(all, INSTANCE_ID) == OptInt32(fields, INSTANCE_ID);
    assert OptInt64(all, CREATION_DATE) == OptInt64(fields, CREATION_DATE);
    assert OptFlag(all, ON_OFF) == OptFlag(fields, ON_OFF);
    assert OptInt32(all, SCENE_ID) == OptInt32(fields, SCENE_ID);
  }

  /** A group payload without the link list decodes to an empty member list, not an error. */
  lemma NoLinkListNoMembers(f: map<string, Json>)
    requires ACCESSORY_LINK_REMOTE !in f
    requires Decode(JObj(f)).Success?
    ensures Decode(JObj(f)).value.deviceIds == []
  {
  }

  /** With the link list present, the member ids are the numbers of `["15002"]["9003"]`, in array order. */
  lemma LinkListMembers(f: map<string, Json>, items: seq<Json>)
    requires ACCESSORY_LINK_REMOTE in f
    requires Get(f[ACCESSORY_LINK_REMOTE], "15002").Some?
    requires Get(Get(f[ACCESSORY_LINK_REMOTE], "15002").value, "9003") == Some(JArr(items))
    requires forall i :: 0 <= i < |items| ==> items[i].JNum? && INT32_MIN <= items[i].n <= INT32_MAX
    requires Decode(JObj(f)).Success?
    ensures var ids := Decode(JObj(f)).value.deviceIds;
      |ids| == |items| && forall i :: 0 <= i < |items| ==> ids[i] == items[i].n
  {
    var ids := Decode(JObj(f)).value.deviceIds;
    assert ids == DeviceIdsOf(f[ACCESSORY_LINK_REMOTE]).value;
    forall i | 0 <= i < |items| ensures ids[i] == items[i].n {
      assert ids[i] == AsInt(items[i]);
    }
  }

  /** A link list lacking "15002", or a "15002" node lacking "9003", makes the whole decode fail. */
  lemma MissingInnerNodeFails(f: map<string, Json>)
    requires ACCESSORY_LINK_REMOTE in f
    requires var link := Get(f[ACCESSORY_LINK_REMOTE], "15002"); link.None? || Get(link.value, "9003").None?
    ensures Decode(JObj(f)).Failure?
  {
  }

  /**
   * Writing a property set and reading the payload back as a group response
   * preserves `on` and `brightness`; transition time and colour are not read.
   */
  lemma RequestResponseRoundTrip(p: GP.GroupProperties)
    ensures var d := Decode(GR.Encode(GR.Of(p)));
      && d.Success?
      && Properties(d.value) == GP.GroupProperties(p.on, p.brightness, None, None)
      && d.value.deviceIds == []
  {
    var j := GR.Encode(GR.Of(p));
    assert ACCESSORY_LINK_REMOTE !in j.fields;
  }
}
