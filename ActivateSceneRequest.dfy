/** The payload that activates a scene: the on flag and the scene id, both always written. */
module ActivateSceneRequest {
  import opened Wrappers
  import opened JavaLang
  import opened Json
  import opened Codec
  import opened ApiCode

  datatype ActivateSceneRequest = ActivateSceneRequest(on: bool, sceneId: Int32)

  /** The no-argument constructor leaves both primitives at their defaults. */
  function Default(): (r: ActivateSceneRequest)
    ensures !r.on && r.sceneId == 0
  {
    ActivateSceneRequest(false, 0)
  }

  function SetOn(r: ActivateSceneRequest, on: bool): (r': ActivateSceneRequest)
    ensures r'.on == on && r'.sceneId == r.sceneId
  {
    r.(on := on)
  }

  function SetSceneId(r: ActivateSceneRequest, sceneId: Int32): (r': ActivateSceneRequest)
    ensures r'.sceneId == sceneId && r'.on == r.on
  {
    r.(sceneId := sceneId)
  }

  /** The wire form: exactly the keys "5850" (1 or 0) and "9039"; NON_NULL never omits a primitive. */
  function Encode(r: ActivateSceneRequest): (j: Json)
    ensures j.JObj? && j.fields.Keys == {ON_OFF, SCENE_ID}
    ensures j.fields[ON_OFF] == JNum(if r.on then 1 else 0)
    ensures j.fields[SCENE_ID] == JNum(r.sceneId)
  {
    JObj(map[ON_OFF := FlagToJson(r.on), SCENE_ID := JNum(r.sceneId)])
  }

  /** How the gateway reads the payload back, as Jackson would bind it to this class. */
  function Decode(j: Json): Result<ActivateSceneRequest, DecodeError> {
    if !j.JObj? then Failure(NotAnObject)
    else
      var d := Default();
      var on :- PrimFlag(j.fields, ON_OFF, d.on);
      var sceneId :- PrimInt32(j.fields, SCENE_ID, d.sceneId);
      Success(ActivateSceneRequest(on, sceneId))
  }

  /** The payload carries both fields without loss. */
  lemma RoundTrip(r: ActivateSceneRequest)
    ensures Decode(Encode(r)) == Success(r)
  {
  }

  /** Two requests with the same wire form are the same request. */
  lemma EncodeInjective(a: ActivateSceneRequest, b: ActivateSceneRequest)
    requires Encode(a) == Encode(b)
    ensures a == b
  {
    RoundTrip(a);
    RoundTrip(b);
  }
}
