/**
 * A group of devices. Its `properties` are the snapshot read when the group
 * was fetched and never change; `newProperties` is the update queue that the
 * `UpdateX` operations fill and `ApplyUpdates` flushes as one PUT.
 */
module Group {
  import opened Wrappers
  import opened JavaLang
  import opened Json
  import opened ApiCode
  import opened ApiEndpoint
  import opened Transport
  import Devices
  import GP = GroupProperties
  import GR = GroupRequest

  /** The payload a property set is sent as. */
  function Payload(p: GP.GroupProperties): Json {
    GR.Encode(GR.Of(p))
  }

  /** The path of a group: `GROUPS/<instanceId>`, with a null id rendered "null". */
  function GroupPath(instanceId: Option<Int32>): seq<string> {
    [GROUPS, ValueOf(instanceId)]
  }

  class Group {
    const name: Option<string>
    const instanceId: Option<Int32>
    const creationDate: Option<Int64>
    const devices: seq<Option<Devices.Device>>
    const properties: GP.GroupProperties
    const client: CoapClient
    const endpoint: Endpoint
    var newProperties: GP.GroupProperties

    /** A new group starts with an empty update queue. */
    constructor (name: Option<string>, instanceId: Option<Int32>, creationDate: Option<Int64>,
                 devices: seq<Option<Devices.Device>>, properties: GP.GroupProperties,
                 client: CoapClient, endpoint: Endpoint)
      ensures this.name == name && this.instanceId == instanceId && this.creationDate == creationDate
      ensures this.devices == devices && this.properties == properties
      ensures this.client == client && this.endpoint == endpoint
      ensures newProperties == GP.Empty()
    {
      this.name := name;
      this.instanceId := instanceId;
      this.creationDate := creationDate;
      this.devices := devices;
      this.properties := properties;
      this.client := client;
      this.endpoint := endpoint;
      newProperties := GP.Empty();
    }

    /** The getters read the snapshot, which is immutable: no update or flush changes them. */
    function GetOn(): Option<bool> {
      properties.on
    }

    function GetBrightness(): Option<Int32> {
      properties.brightness
    }

    function GetColourHex(): Option<string> {
      properties.colourHex
    }

    /** The URI every update of this group is sent to. */
    function Uri(): string
      reads endpoint
    {
      endpoint.GetUri(GroupPath(instanceId))
    }

    method UpdateOn(on: Option<bool>)
      modifies this
      ensures newProperties == GP.SetOn(old(newProperties), on)
    {
      newProperties := GP.SetOn(newProperties, on);
    }

    method UpdateBrightness(brightness: Option<Int32>)
      modifies this
      ensures newProperties == GP.SetBrightness(old(newProperties), brightness)
    {
      newProperties := GP.SetBrightness(newProperties, brightness);
    }

    method UpdateColourHex(colourHex: Option<string>)
      modifies this
      ensures newProperties == GP.SetColourHex(old(newProperties), colourHex)
    {
      newProperties := GP.SetColourHex(newProperties, colourHex);
    }

    method UpdateTransitionTime(transitionTime: Option<Int32>)
      modifies this
      ensures newProperties == GP.SetTransitionTime(old(newProperties), transitionTime)
    {
      newProperties := GP.SetTransitionTime(newProperties, transitionTime);
    }

    /** Sends `p` as one PUT to the group URI; true exactly when the gateway answered. */
    method ApplyUpdate(p: GP.GroupProperties) returns (success: bool)
      modifies client
      ensures client.history == old(client.history) + [Request.Put(Uri(), Payload(p))]
      ensures success <==> client.gateway.put(old(client.history), old(client.credentials), Uri(), Payload(p)).Some?
      ensures client.credentials == old(client.credentials) && client.timeout == old(client.timeout)
    {
      var response := client.Put(endpoint.GetUri(GroupPath(instanceId)), Payload(p));
      success := response.Some?;
    }

    /** Flushes the queue as exactly one PUT, then empties it whatever the outcome. */
    method ApplyUpdates() returns (success: bool)
      modifies this, client
      ensures newProperties == GP.Empty()
      ensures client.history == old(client.history) + [Request.Put(Uri(), Payload(old(newProperties)))]
      ensures success <==>
        client.gateway.put(old(client.history), old(client.credentials), Uri(), Payload(old(newProperties))).Some?
      ensures client.credentials == old(client.credentials) && client.timeout == old(client.timeout)
    {
      success := ApplyUpdate(newProperties);
      newProperties := GP.Empty();
    }

    /** Overwrites the queued transition time, then flushes as `ApplyUpdates` does. */
    method ApplyUpdatesWithTransition(transitionTime: Option<Int32>) returns (success: bool)
      modifies this, client
      ensures newProperties == GP.Empty()
      ensures var sent := GP.SetTransitionTime(old(newProperties), transitionTime);
        && client.history == old(client.history) + [Request.Put(Uri(), Payload(sent))]
        && (success <==> client.gateway.put(old(client.history), old(client.credentials), Uri(), Payload(sent)).Some?)
      ensures client.credentials == old(client.credentials) && client.timeout == old(client.timeout)
    {
      UpdateTransitionTime(transitionTime);
      success := ApplyUpdates();
    }

    /** Sends only `on` at once; the queue is neither read nor changed. */
    method SetOn(on: Option<bool>) returns (success: bool)
      modifies client
      ensures var sent := GP.SetOn(GP.Empty(), on);
        && client.history == old(client.history) + [Request.Put(Uri(), Payload(sent))]
        && (success <==> client.gateway.put(old(client.history), old(client.credentials), Uri(), Payload(sent)).Some?)
      ensures client.credentials == old(client.credentials) && client.timeout == old(client.timeout)
    {
      success := ApplyUpdate(GP.SetOn(GP.Empty(), on));
    }

    /** Sends only the brightness and the given transition time at once. */
    method SetBrightnessWithTransition(brightness: Option<Int32>, transitionTime: Option<Int32>) returns (success: bool)
      modifies client
      ensures var sent := GP.SetTransitionTime(GP.SetBrightness(GP.Empty(), brightness), transitionTime);
        && client.history == old(client.history) + [Request.Put(Uri(), Payload(sent))]
        && (success <==> client.gateway.put(old(client.history), old(client.credentials), Uri(), Payload(sent)).Some?)
      ensures client.credentials == old(client.credentials) && client.timeout == old(client.timeout)
    {
      success := ApplyUpdate(GP.SetTransitionTime(GP.SetBrightness(GP.Empty(), brightness), transitionTime));
    }

    /** Without a transition time the overload passes null. */
    method SetBrightness(brightness: Option<Int32>) returns (success: bool)
      modifies client
      ensures var sent := GP.SetBrightness(GP.Empty(), brightness);
        && client.history == old(client.history) + [Request.Put(Uri(), Payload(sent))]
        && (success <==> client.gateway.put(old(client.history), old(client.credentials), Uri(), Payload(sent)).Some?)
      ensures client.credentials == old(client.credentials) && client.timeout == old(client.timeout)
    {
      success := SetBrightnessWithTransition(brightness, None);
    }

    /** Sends only the colour and the given transition time at once. */
    method SetColourHexWithTransition(colourHex: Option<string>, transitionTime: Option<Int32>) returns (success: bool)
      modifies client
      ensures var sent := GP.SetTransitionTime(GP.SetColourHex(GP.Empty(), colourHex), transitionTime);
        && client.history == old(client.history) + [Request.Put(Uri(), Payload(sent))]
        && (success <==> client.gateway.put(old(client.history), old(client.credentials), Uri(), Payload(sent)).Some?)
      ensures client.credentials == old(client.credentials) && client.timeout == old(client.timeout)
    {
      success := ApplyUpdate(GP.SetTransitionTime(GP.SetColourHex(GP.Empty(), colourHex), transitionTime));
    }

    method SetColourHex(colourHex: Option<string>) returns (success: bool)
      modifies client
      ensures var sent := GP.SetColourHex(GP.Empty(), colourHex);
        && client.history == old(client.history) + [Request.Put(Uri(), Payload(sent))]
        && (success <==> client.gateway.put(old(client.history), old(client.credentials), Uri(), Payload(sent)).Some?)
      ensures client.credentials == old(client.credentials) && client.timeout == old(client.timeout)
    {
      success := SetColourHexWithTransition(colourHex, None);
    }
  }

  /** One call of an `updateX` operation, as it is queued. */
  datatype Update =
    | OnUpdate(on: Option<bool>)
    | BrightnessUpdate(brightness: Option<Int32>)
    | ColourHexUpdate(colourHex: Option<string>)
    | TransitionTimeUpdate(transitionTime: Option<Int32>)

  /** The queued field an update writes. */
  datatype Field = OnField | BrightnessField | ColourHexField | TransitionTimeField

  function FieldOf(u: Update): Field {
    match u
    case OnUpdate(_) => OnField
    case BrightnessUpdate(_) => BrightnessField
    case ColourHexUpdate(_) => ColourHexField
    case TransitionTimeUpdate(_) => TransitionTimeField
  }

  /** What one update does to the queue: the setter the matching `UpdateX` method calls. */
  function ApplyOne(p: GP.GroupProperties, u: Update): GP.GroupProperties {
    match u
    case OnUpdate(v) => GP.SetOn(p, v)
    case BrightnessUpdate(v) => GP.SetBrightness(p, v)
    case ColourHexUpdate(v) => GP.SetColourHex(p, v)
    case TransitionTimeUpdate(v) => GP.SetTransitionTime(p, v)
  }

  /** The queue after the updates `us`, in order, starting from `p`. */
  function Queue(p: GP.GroupProperties, us: seq<Update>): GP.GroupProperties {
    if us == [] then p else ApplyOne(Queue(p, us[..|us| - 1]), us[|us| - 1])
  }

  /** Position `i` holds the last update of field `f`. */
  predicate LastOf(us: seq<Update>, f: Field, i: int) {
    0 <= i < |us| && FieldOf(us[i]) == f && forall j :: i < j < |us| ==> FieldOf(us[j]) != f
  }

  /** No update writes field `f`. */
  predicate NoneOf(us: seq<Update>, f: Field) {
    forall j :: 0 <= j < |us| ==> FieldOf(us[j]) != f
  }

  /** The value of one queued field, tagged with its type. */
  datatype FieldValue = FlagValue(flag: Option<bool>) | NumValue(num: Option<Int32>) | TextValue(text: Option<string>)

  function Get(p: GP.GroupProperties, f: Field): FieldValue {
    match f
    case OnField => FlagValue(p.on)
    case BrightnessField => NumValue(p.brightness)
    case ColourHexField => TextValue(p.colourHex)
    case TransitionTimeField => NumValue(p.transitionTime)
  }

  /** The value an update writes. */
  function Written(u: Update): FieldValue {
    match u
    case OnUpdate(v) => FlagValue(v)
    case BrightnessUpdate(v) => NumValue(v)
    case ColourHexUpdate(v) => TextValue(v)
    case TransitionTimeUpdate(v) => NumValue(v)
  }

  /** One update writes its own field and leaves the other three alone. */
  lemma ApplyOneGet(q: GP.GroupProperties, u: Update, f: Field)
    ensures Get(ApplyOne(q, u), f) == if FieldOf(u) == f then Written(u) else Get(q, f)
  {
  }

  /** A queued field holds its last update's value, or its old value when no update wrote it. */
  lemma {:induction false} QueueField(p: GP.GroupProperties, us: seq<Update>, f: Field)
    ensures forall i :: LastOf(us, f, i) ==> Get(Queue(p, us), f) == Written(us[i])
    ensures NoneOf(us, f) ==> Get(Queue(p, us), f) == Get(p, f)
  {
    if us != [] {
      var n := |us| - 1;
      var init := us[..n];
      QueueField(p, init, f);
      ApplyOneGet(Queue(p, init), us[n], f);
      forall i | LastOf(us, f, i) ensures Get(Queue(p, us), f) == Written(us[i]) {
        if i < n {
          assert LastOf(init, f, i);
        }
      }
      if NoneOf(us, f) {
        assert NoneOf(init, f);
      }
    }
  }

  /**
   * Each queued field holds the value of its last update, whatever updates of
   * other fields came after it; a field no update wrote keeps its old value.
   */
  lemma LastUpdateWins(p: GP.GroupProperties, us: seq<Update>)
    ensures forall i :: LastOf(us, OnField, i) ==> Queue(p, us).on == us[i].on
    ensures forall i :: LastOf(us, BrightnessField, i) ==> Queue(p, us).brightness == us[i].brightness
    ensures forall i :: LastOf(us, ColourHexField, i) ==> Queue(p, us).colourHex == us[i].colourHex
    ensures forall i :: LastOf(us, TransitionTimeField, i) ==> Queue(p, us).transitionTime == us[i].transitionTime
    ensures NoneOf(us, OnField) ==> Queue(p, us).on == p.on
    ensures NoneOf(us, BrightnessField) ==> Queue(p, us).brightness == p.brightness
    ensures NoneOf(us, ColourHexField) ==> Queue(p, us).colourHex == p.colourHex
    ensures NoneOf(us, TransitionTimeField) ==> Queue(p, us).transitionTime == p.transitionTime
  {
    QueueField(p, us, OnField);
    QueueField(p, us, BrightnessField);
    QueueField(p, us, ColourHexField);
    QueueField(p, us, TransitionTimeField);
  }

  /** The payload of `SetOn`: just the flag, as 1 or 0, or nothing at all for null. */
  lemma SetOnPayload(on: Option<bool>)
    ensures Payload(GP.SetOn(GP.Empty(), on)).fields == if on.Some? then map[ON_OFF := JNum(if on.value then 1 else 0)] else map[]
  {
    var f := Payload(GP.SetOn(GP.Empty(), on)).fields;
    if on.Some? {
      assert f.Keys == {ON_OFF};
    } else {
      assert f.Keys == {};
    }
  }

  /** The payload of `SetBrightness(b, t)`: the brightness and the transition time, each only when non-null. */
  lemma SetBrightnessPayload(brightness: Option<Int32>, transitionTime: Option<Int32>)
    ensures var f := Payload(GP.SetTransitionTime(GP.SetBrightness(GP.Empty(), brightness), transitionTime)).fields;
      && f.Keys == (if brightness.Some? then {BRIGHTNESS} else {}) + (if transitionTime.Some? then {TRANSITION_TIME} else {})
      && (brightness.Some? ==> f[BRIGHTNESS] == JNum(brightness.value))
      && (transitionTime.Some? ==> f[TRANSITION_TIME] == JNum(transitionTime.value))
  {
  }

  /** An emptied queue flushes as the empty object, so a second flush after the first sends `{}`. */
  lemma EmptyQueuePayload()
    ensures Payload(GP.Empty()) == JObj(map[])
  {
    GR.EncodeEmpty();
  }

  /** The slash-free rendering of an instance id. */
  lemma ValueOfNoSlash(x: Option<Int32>)
    ensures NoSlash(ValueOf(x))
  {
  }

  /** Groups with different instance ids are addressed at different URIs, whatever the gateway address. */
  lemma GroupUriInjective(gatewayIp: Option<string>, a: Option<Int32>, b: Option<Int32>)
    requires Uri(gatewayIp, GroupPath(a)) == Uri(gatewayIp, GroupPath(b))
    ensures a == b
  {
    ValueOfNoSlash(a);
    ValueOfNoSlash(b);
    UriInjective(gatewayIp, GroupPath(a), GroupPath(b));
    ValueOfInjective(a, b);
  }
}
