/**
 * The entry point to one gateway: credentials, device classification, the
 * device and group listings, the super group search, the observer guards and
 * the event handler list.
 */
module Gateway {
  import opened Wrappers
  import opened JavaLang
  import opened ApiEndpoint
  import opened Transport
  import opened Devices
  import GP = GroupProperties
  import GRS = GroupResponse
  import G = Group

  const REMOTE_MODEL := "TRADFRI remote control"
  const MOTION_SENSOR_MODEL := "TRADFRI motion sensor"
  /** The identity the security code is presented under while a real identity is being registered. */
  const TEMPORARY_IDENTITY := "Client_identity"
  const SUPER_GROUP := "SuperGroup"
  const NO_SUPER_GROUP := "SuperGroup doesn't exist."

  predicate IsAlphanumeric(c: char) {
    'a' <= c <= 'z' || 'A' <= c <= 'Z' || '0' <= c <= '9'
  }

  /** An identity as the random generator produces it: 16 alphanumeric characters. */
  predicate IsGeneratedIdentity(s: string) {
    |s| == 16 && forall i :: 0 <= i < |s| ==> IsAlphanumeric(s[i])
  }

  predicate HasLights(r: DeviceResponse) {
    r.lightProperties.Some? && |r.lightProperties.value| > 0
  }

  predicate HasPlugs(r: DeviceResponse) {
    r.plugProperties.Some? && |r.plugProperties.value| > 0
  }

  /** The model name, or None where the information block or the name itself is null. */
  function ModelName(r: DeviceResponse): Option<string> {
    if r.deviceInfo.None? then None else r.deviceInfo.value.modelName
  }

  /**
   * The subtype of a device, by an ordered rule list. Reading the model name
   * of a device without one dereferences null.
   */
  function Classify(r: DeviceResponse): Result<Device, Failure> {
    if HasLights(r) then Success(Light(HeaderOf(r), r.lightProperties.value[0]))
    else if HasPlugs(r) then Success(Plug(HeaderOf(r), r.plugProperties.value[0]))
    else if ModelName(r).None? then Failure(NullPointer)
    else if ModelName(r).value == REMOTE_MODEL then Success(Remote(HeaderOf(r)))
    else if ModelName(r).value == MOTION_SENSOR_MODEL then Success(MotionSensor(HeaderOf(r)))
    else Success(Generic(HeaderOf(r)))
  }

  /** Every classified device carries the response's name, dates, id and information block. */
  lemma ClassifyKeepsHeader(r: DeviceResponse)
    requires Classify(r).Success?
    ensures Classify(r).value.header == HeaderOf(r)
  {
  }

  /** A non-empty light array wins over everything else, and the light is its first element. */
  lemma LightFirst(r: DeviceResponse)
    ensures (Classify(r).Success? && Classify(r).value.Light?) <==> HasLights(r)
    ensures HasLights(r) ==> Classify(r).value.light == r.lightProperties.value[0]
  {
  }

  /** Without lights, a non-empty plug array gives a plug built from its first element. */
  lemma PlugSecond(r: DeviceResponse)
    ensures (Classify(r).Success? && Classify(r).value.Plug?) <==> !HasLights(r) && HasPlugs(r)
    ensures !HasLights(r) && HasPlugs(r) ==> Classify(r).value.plug == r.plugProperties.value[0]
  {
  }

  /** Without either array, the model name decides; a null name is a null dereference. */
  lemma ByModelName(r: DeviceResponse)
    requires !HasLights(r) && !HasPlugs(r)
    ensures Classify(r).Failure? <==> ModelName(r).None?
    ensures Classify(r).Failure? ==> Classify(r).error == NullPointer
    ensures (Classify(r).Success? && Classify(r).value.Remote?) <==> ModelName(r) == Some(REMOTE_MODEL)
    ensures (Classify(r).Success? && Classify(r).value.MotionSensor?) <==> ModelName(r) == Some(MOTION_SENSOR_MODEL)
    ensures (Classify(r).Success? && Classify(r).value.Generic?) <==>
      ModelName(r).Some? && ModelName(r).value != REMOTE_MODEL && ModelName(r).value != MOTION_SENSOR_MODEL
  {
  }

  /** `List.remove(Object)`: drops the first element equal to `x`, if any. */
  function RemoveFirst<T(==)>(s: seq<T>, x: T): seq<T> {
    if s == [] then []
    else if s[0] == x then s[1..]
    else [s[0]] + RemoveFirst(s[1..], x)
  }

  lemma {:induction false} RemoveFirstAt<T>(s: seq<T>, x: T, i: nat)
    requires i < |s| && s[i] == x
    requires forall j :: 0 <= j < i ==> s[j] != x
    ensures RemoveFirst(s, x) == s[..i] + s[i + 1..]
  {
    if i > 0 {
      RemoveFirstAt(s[1..], x, i - 1);
      assert s[1..][..i - 1] == s[1..i];
      assert s[1..][i..] == s[i + 1..];
      assert [s[0]] + s[1..i] == s[..i];
    }
  }

  lemma {:induction false} RemoveFirstAbsent<T>(s: seq<T>, x: T)
    requires x !in s
    ensures RemoveFirst(s, x) == s
  {
    if s != [] {
      assert s[0] != x;
      assert forall k :: 0 <= k < |s[1..]| ==> s[1..][k] == s[k + 1];
      RemoveFirstAbsent(s[1..], x);
      assert [s[0]] + s[1..] == s;
    }
  }

  /** Removal takes away one occurrence of `x` and nothing else. */
  lemma {:induction false} RemoveFirstMultiset<T>(s: seq<T>, x: T)
    ensures multiset(RemoveFirst(s, x)) == multiset(s) - multiset{x}
  {
    if s != [] {
      assert s == [s[0]] + s[1..];
      if s[0] != x {
        RemoveFirstMultiset(s[1..], x);
      }
    }
  }

  /** Adding a handler that was not registered and then removing it restores the list. */
  lemma AddThenRemove<T>(s: seq<T>, x: T)
    requires x !in s
    ensures RemoveFirst(s + [x], x) == s
  {
    RemoveFirstAt(s + [x], x, |s|);
    assert (s + [x])[..|s|] == s;
  }

  /** The first position named "SuperGroup"; a null name reached before it is a null dereference. */
  function FindSuperGroup(names: seq<Option<string>>): (r: Result<nat, Failure>)
    ensures r.Success? ==> r.value < |names|
  {
    if names == [] then Failure(IllegalState(NO_SUPER_GROUP))
    else if names[0].None? then Failure(NullPointer)
    else if names[0].value == SUPER_GROUP then Success(0)
    else
      var i :- FindSuperGroup(names[1..]);
      Success(i + 1)
  }

  /** A name that is present and is not "SuperGroup". */
  predicate Passes(name: Option<string>) {
    name.Some? && name.value != SUPER_GROUP
  }

  /** Every name before position `j` is present and is not "SuperGroup". */
  predicate PassesBefore(names: seq<Option<string>>, j: int) {
    forall k :: 0 <= k < j && k < |names| ==> Passes(names[k])
  }

  lemma {:induction false} FindSuperGroupFound(names: seq<Option<string>>, i: nat)
    ensures FindSuperGroup(names) == Success(i) <==>
      i < |names| && names[i] == Some(SUPER_GROUP) && PassesBefore(names, i)
  {
    if names != [] && Passes(names[0]) && i > 0 {
      FindSuperGroupFound(names[1..], i - 1);
      assert forall j :: 0 < j < |names| ==> names[j] == names[1..][j - 1];
    }
  }

  lemma {:induction false} FindSuperGroupMissing(names: seq<Option<string>>)
    ensures FindSuperGroup(names) == Failure(IllegalState(NO_SUPER_GROUP)) <==> PassesBefore(names, |names|)
  {
    if names != [] {
      FindSuperGroupMissing(names[1..]);
      assert forall j :: 0 < j < |names| ==> names[j] == names[1..][j - 1];
    }
  }

  lemma {:induction false} FindSuperGroupNull(names: seq<Option<string>>)
    ensures FindSuperGroup(names) == Failure(NullPointer) <==>
      exists j :: 0 <= j < |names| && names[j].None? && PassesBefore(names, j)
  {
    if names != [] {
      var tail := names[1..];
      FindSuperGroupNull(tail);
      assert forall j :: 0 < j < |names| ==> names[j] == tail[j - 1];
      if Passes(names[0]) {
        if FindSuperGroup(names) == Failure(NullPointer) {
          var j :| 0 <= j < |tail| && tail[j].None? && PassesBefore(tail, j);
          assert names[j + 1].None? && PassesBefore(names, j + 1);
        }
        if exists j :: 0 <= j < |names| && names[j].None? && PassesBefore(names, j) {
          var j :| 0 <= j < |names| && names[j].None? && PassesBefore(names, j);
          assert tail[j - 1].None? && PassesBefore(tail, j - 1);
        }
      } else if names[0].None? {
        assert PassesBefore(names, 0);
      } else {
        forall j | 0 < j < |names| ensures !PassesBefore(names, j) {
          assert !Passes(names[0]);
        }
      }
    }
  }

  /**
   * The results of a fetch loop that stops at the first failure: the values
   * in order when every fetch succeeds, otherwise the first failure.
   */
  function Collect<T>(rs: seq<Result<T, Failure>>): Result<seq<T>, Failure> {
    if rs == [] then Success([])
    else
      var prefix :- Collect(rs[..|rs| - 1]);
      var x :- rs[|rs| - 1];
      Success(prefix + [x])
  }

  /** One value per result, in the same order; a failure is the error of the first result that fails. */
  lemma {:induction false} CollectSpec<T>(rs: seq<Result<T, Failure>>)
    ensures Collect(rs).Success? <==> forall i :: 0 <= i < |rs| ==> rs[i].Success?
    ensures Collect(rs).Success? ==>
      |Collect(rs).value| == |rs| && forall i :: 0 <= i < |rs| ==> Collect(rs).value[i] == rs[i].value
    ensures Collect(rs).Failure? ==> exists i :: (0 <= i < |rs| && rs[i].Failure? && Collect(rs).error == rs[i].error
      && forall j :: 0 <= j < i ==> rs[j].Success?)
  {
    if rs != [] {
      var init := rs[..|rs| - 1];
      CollectSpec(init);
      assert forall i :: 0 <= i < |init| ==> init[i] == rs[i];
    }
  }

  /** Once a prefix fails, the rest of the loop is never reached. */
  lemma {:induction false} CollectPrefixFailure<T>(rs: seq<Result<T, Failure>>, k: nat)
    requires k <= |rs|
    requires Collect(rs[..k]).Failure?
    ensures Collect(rs) == Collect(rs[..k])
    decreases |rs| - k
  {
    if k < |rs| {
      assert rs[..k + 1][..k] == rs[..k];
      CollectPrefixFailure(rs, k + 1);
    } else {
      assert rs[..k] == rs;
    }
  }

  /** A failing iteration after a successful prefix makes the loop fail with its error. */
  lemma CollectFailAt<T>(rs: seq<Result<T, Failure>>, i: nat)
    requires i < |rs| && Collect(rs[..i]).Success? && rs[i].Failure?
    ensures Collect(rs) == Failure(rs[i].error)
  {
    assert rs[..i + 1][..i] == rs[..i];
    CollectPrefixFailure(rs, i + 1);
  }

  /** One more successful iteration appends its value. */
  lemma CollectSnoc<T>(rs: seq<Result<T, Failure>>, i: nat)
    requires i < |rs| && Collect(rs[..i]).Success? && rs[i].Success?
    ensures Collect(rs[..i + 1]) == Success(Collect(rs[..i]).value + [rs[i].value])
  {
    assert rs[..i + 1][..i] == rs[..i];
  }

  /** What `getGroup` fetches for one id: the fields the group object is built from. */
  datatype GroupState = GroupState(
    name: Option<string>,
    instanceId: Option<Int32>,
    creationDate: Option<Int64>,
    devices: seq<Option<Device>>,
    properties: GP.GroupProperties)

  function StateNames(ss: seq<GroupState>): seq<Option<string>> {
    seq(|ss|, i requires 0 <= i < |ss| => ss[i].name)
  }

  function GroupNames(gs: seq<G.Group>): seq<Option<string>> {
    seq(|gs|, i requires 0 <= i < |gs| => gs[i].name)
  }

  /** The observer is not part of this model: whether starting or stopping it succeeds is left open. */
  class GatewayObserver {
    const gateway: Gateway
    const client: CoapClient

    constructor (gateway: Gateway, client: CoapClient)
      ensures this.gateway == gateway && this.client == client
    {
      this.gateway := gateway;
      this.client := client;
    }

    method Start() returns (ok: bool) {
      ok :| true;
    }

    method Stop() returns (ok: bool) {
      ok :| true;
    }
  }

  /** An event handler; handlers are compared by identity. */
  class EventHandler {
  }

  class Gateway {
    const client: CoapClient
    const endpoint: Endpoint
    var observer: GatewayObserver?
    var eventHandlers: seq<EventHandler>

    /** Sets the gateway address every URI is built from, and starts without credentials, observer or handlers. */
    constructor (ip: string, endpoint: Endpoint, behaviour: GatewayBehaviour)
      modifies endpoint
      ensures endpoint.GetGatewayIp() == Some(ip) && this.endpoint == endpoint
      ensures fresh(client) && client.gateway == behaviour && client.credentials.None? && client.history == []
      ensures observer == null && eventHandlers == []
    {
      endpoint.SetGatewayIp(ip);
      this.endpoint := endpoint;
      client := new CoapClient(behaviour);
      observer := null;
      eventHandlers := [];
    }

    method SetCredentials(c: Option<Credentials>)
      modifies client
      ensures client.credentials == c && GetCredentials() == c
      ensures client.history == old(client.history) && client.timeout == old(client.timeout)
    {
      client.SetCredentials(c);
    }

    method SetIdentityAndKey(identity: string, key: Option<string>)
      modifies client
      ensures client.credentials == Some(Credentials(identity, key))
      ensures client.history == old(client.history) && client.timeout == old(client.timeout)
    {
      SetCredentials(Some(Credentials(identity, key)));
    }

    function GetCredentials(): Option<Credentials>
      reads client
    {
      client.credentials
    }

    function GetTimeout(): Int64
      reads client
    {
      client.timeout
    }

    method SetTimeout(t: Int64)
      modifies client
      ensures GetTimeout() == t
      ensures client.credentials == old(client.credentials) && client.history == old(client.history)
    {
      client.SetTimeout(t);
    }

    /**
     * Registers a fresh random identity under the security code. The temporary
     * credentials are installed before the request and stay installed when
     * there is no answer; otherwise the new identity and its key replace them.
     */
    method Connect(securityCode: string) returns (r: Option<Credentials>)
      modifies client
      ensures |client.history| == |old(client.history)| + 1
      ensures client.history[..|old(client.history)|] == old(client.history)
      ensures var req := client.history[|old(client.history)|];
        && req.Authenticate?
        && req.uri == endpoint.GetUri([AUTHENTICATE])
        && IsGeneratedIdentity(req.identity)
        && var temporary := Credentials(TEMPORARY_IDENTITY, Some(securityCode));
          var response := client.gateway.authenticate(old(client.history), Some(temporary), req.uri, req.identity);
          && (response.None? ==> r.None? && client.credentials == Some(temporary))
          && (response.Some? ==> r == Some(Credentials(req.identity, response.value.presharedKey)) && client.credentials == r)
      ensures client.timeout == old(client.timeout)
    {
      assert IsGeneratedIdentity("0000000000000000");
      var identity: string :| IsGeneratedIdentity(identity);
      SetIdentityAndKey(TEMPORARY_IDENTITY, Some(securityCode));
      var response := client.Authenticate(endpoint.GetUri([AUTHENTICATE]), identity);
      if response.None? {
        return None;
      }
      var credentials := Credentials(identity, response.value.presharedKey);
      SetCredentials(Some(credentials));
      return Some(credentials);
    }

    /** Installs exactly the given credentials and hands them back; nothing is sent. */
    method ConnectWith(credentials: Credentials) returns (r: Credentials)
      modifies client
      ensures r == credentials && client.credentials == Some(credentials) && GetCredentials() == Some(credentials)
      ensures client.history == old(client.history) && client.timeout == old(client.timeout)
    {
      SetCredentials(Some(credentials));
      return credentials;
    }

    function GetDeviceIds(): Option<seq<Int32>>
      reads client, endpoint
    {
      client.GetIds(endpoint.GetUri([DEVICES]))
    }

    function GetGroupIds(): Option<seq<Int32>>
      reads client, endpoint
    {
      client.GetIds(endpoint.GetUri([GROUPS]))
    }

    /** `getDevice`: null without an answer, otherwise the classified device. */
    function GetDevice(id: Int32): (r: Result<Option<Device>, Failure>)
      reads client, endpoint
      ensures client.GetDevice(endpoint.GetUri([DEVICES, IntToString(id)])).None? ==> r == Success(None)
      ensures r.Success? && r.value.Some? ==>
        var resp := client.GetDevice(endpoint.GetUri([DEVICES, IntToString(id)]));
        resp.Some? && Classify(resp.value) == Success(r.value.value)
      ensures var resp := client.GetDevice(endpoint.GetUri([DEVICES, IntToString(id)]));
        resp.Some? ==>
          && (r.Failure? <==> Classify(resp.value).Failure?)
          && (r.Failure? ==> r.error == Classify(resp.value).error)
          && (Classify(resp.value).Success? ==> r == Success(Some(Classify(resp.value).value)))
    {
      match client.GetDevice(endpoint.GetUri([DEVICES, IntToString(id)]))
      case None => Success(None)
      case Some(resp) =>
        var d :- Classify(resp);
        Success(Some(d))
    }

    /** The answer of `getDevice` for each id. */
    function DeviceResults(ids: seq<Int32>): (rs: seq<Result<Option<Device>, Failure>>)
      reads client, endpoint
      ensures |rs| == |ids|
    {
      if ids == [] then [] else DeviceResults(ids[..|ids| - 1]) + [GetDevice(ids[|ids| - 1])]
    }

    lemma {:induction false} DeviceResultsAt(ids: seq<Int32>, i: nat)
      requires i < |ids|
      ensures DeviceResults(ids)[i] == GetDevice(ids[i])
      decreases |ids|
    {
      if i < |ids| - 1 {
        DeviceResultsAt(ids[..|ids| - 1], i);
      }
    }

    /** The devices for `ids`, fetched left to right; the first failure ends the walk. */
    function DevicesFor(ids: seq<Int32>): Result<seq<Option<Device>>, Failure>
      reads client, endpoint
    {
      Collect(DeviceResults(ids))
    }

    /** One entry per id, in the same order; a failure is the error of the first id that fails. */
    lemma DevicesForSpec(ids: seq<Int32>)
      ensures DevicesFor(ids).Success? <==> forall i :: 0 <= i < |ids| ==> GetDevice(ids[i]).Success?
      ensures DevicesFor(ids).Success? ==>
        |DevicesFor(ids).value| == |ids| && forall i :: 0 <= i < |ids| ==> DevicesFor(ids).value[i] == GetDevice(ids[i]).value
      ensures DevicesFor(ids).Failure? ==> exists i :: (0 <= i < |ids| && GetDevice(ids[i]).Failure?
        && DevicesFor(ids).error == GetDevice(ids[i]).error && forall j :: 0 <= j < i ==> GetDevice(ids[j]).Success?)
    {
      CollectSpec(DeviceResults(ids));
      forall i | 0 <= i < |ids| ensures DeviceResults(ids)[i] == GetDevice(ids[i]) {
        DeviceResultsAt(ids, i);
      }
    }

    /** The loop of `getDevices`: fetch each id in turn and append the device. */
    method FetchDevices(ids: seq<Int32>) returns (r: Result<seq<Option<Device>>, Failure>)
      ensures r == DevicesFor(ids)
    {
      ghost var rs := DeviceResults(ids);
      var devices: seq<Option<Device>> := [];
      var i := 0;
      while i < |ids|
        invariant 0 <= i <= |ids|
        invariant Collect(rs[..i]) == Success(devices)
      {
        var device := GetDevice(ids[i]);
        DeviceResultsAt(ids, i);
        if device.Failure? {
          CollectFailAt(rs, i);
          return Failure(device.error);
        }
        CollectSnoc(rs, i);
        devices := devices + [device.value];
        i := i + 1;
      }
      assert rs[..i] == rs;
      return Success(devices);
    }

    /** `getDevices`: null when the id list is null, otherwise one device (or null) per id, in order. */
    method GetDevices() returns (r: Result<Option<seq<Option<Device>>>, Failure>)
      ensures GetDeviceIds().None? ==> r == Success(None)
      ensures GetDeviceIds().Some? ==>
        var spec := DevicesFor(GetDeviceIds().value);
        && (r.Failure? <==> spec.Failure?)
        && (r.Failure? ==> r.error == spec.error)
        && (r.Success? ==> r.value == Some(spec.value))
    {
      var ids := GetDeviceIds();
      if ids.None? {
        return Success(None);
      }
      var devices :- FetchDevices(ids.value);
      return Success(Some(devices));
    }

    /** `getGroup`: a null answer is dereferenced, so it fails; otherwise members are fetched in order. */
    function GroupStateFor(groupId: Int32): Result<GroupState, Failure>
      reads client, endpoint
    {
      match client.GetGroup(endpoint.GetUri([GROUPS, IntToString(groupId)]))
      case None => Failure(NullPointer)
      case Some(resp) =>
        var devices :- DevicesFor(resp.deviceIds);
        Success(GroupState(resp.name, resp.instanceId, resp.creationDate, devices, GRS.Properties(resp)))
    }

    /** `g` is the group object built from `s` with this gateway's client and address. */
    predicate Describes(g: G.Group, s: GroupState) {
      && g.name == s.name && g.instanceId == s.instanceId && g.creationDate == s.creationDate
      && g.devices == s.devices && g.properties == s.properties
      && g.client == client && g.endpoint == endpoint
    }

    predicate AllDescribe(gs: seq<G.Group>, ss: seq<GroupState>) {
      |gs| == |ss| && forall i :: 0 <= i < |gs| ==> Describes(gs[i], ss[i])
    }

    method GetGroup(groupId: Int32) returns (r: Result<G.Group, Failure>)
      ensures GroupStateFor(groupId).Failure? ==> r == Failure(GroupStateFor(groupId).error)
      ensures GroupStateFor(groupId).Success? ==>
        r.Success? && fresh(r.value) && Describes(r.value, GroupStateFor(groupId).value)
        && r.value.newProperties == GP.Empty()
    {
      var response := client.GetGroup(endpoint.GetUri([GROUPS, IntToString(groupId)]));
      if response.None? {
        return Failure(NullPointer);
      }
      var resp := response.value;
      var devices :- FetchDevices(resp.deviceIds);
      var group := new G.Group(resp.name, resp.instanceId, resp.creationDate, devices, GRS.Properties(resp), client, endpoint);
      return Success(group);
    }

    /** The answer of `getGroup` for each id. */
    function GroupResults(ids: seq<Int32>): (rs: seq<Result<GroupState, Failure>>)
      reads client, endpoint
      ensures |rs| == |ids|
    {
      if ids == [] then [] else GroupResults(ids[..|ids| - 1]) + [GroupStateFor(ids[|ids| - 1])]
    }

    lemma {:induction false} GroupResultsAt(ids: seq<Int32>, i: nat)
      requires i < |ids|
      ensures GroupResults(ids)[i] == GroupStateFor(ids[i])
      decreases |ids|
    {
      if i < |ids| - 1 {
        GroupResultsAt(ids[..|ids| - 1], i);
      }
    }

    /** The groups for `ids`, fetched left to right; the first failure ends the walk. */
    function GroupsFor(ids: seq<Int32>): Result<seq<GroupState>, Failure>
      reads client, endpoint
    {
      Collect(GroupResults(ids))
    }

    /** One group per id, in the same order; a failure is the error of the first id that fails. */
    lemma GroupsForSpec(ids: seq<Int32>)
      ensures GroupsFor(ids).Success? <==> forall i :: 0 <= i < |ids| ==> GroupStateFor(ids[i]).Success?
      ensures GroupsFor(ids).Success? ==>
        |GroupsFor(ids).value| == |ids| && forall i :: 0 <= i < |ids| ==> GroupsFor(ids).value[i] == GroupStateFor(ids[i]).value
      ensures GroupsFor(ids).Failure? ==> exists i :: (0 <= i < |ids| && GroupStateFor(ids[i]).Failure?
        && GroupsFor(ids).error == GroupStateFor(ids[i]).error && forall j :: 0 <= j < i ==> GroupStateFor(ids[j]).Success?)
    {
      CollectSpec(GroupResults(ids));
      forall i | 0 <= i < |ids| ensures GroupResults(ids)[i] == GroupStateFor(ids[i]) {
        GroupResultsAt(ids, i);
      }
    }

    lemma DescribeAppend(gs: seq<G.Group>, ss: seq<GroupState>, g: G.Group, s: GroupState)
      requires AllDescribe(gs, ss) && Describes(g, s)
      ensures AllDescribe(gs + [g], ss + [s])
    {
    }

    /** The loop of `getGroups`: fetch each id in turn and append the group. */
    method FetchGroups(ids: seq<Int32>) returns (r: Result<seq<G.Group>, Failure>)
      ensures GroupsFor(ids).Failure? <==> r.Failure?
      ensures r.Failure? ==> r.error == GroupsFor(ids).error
      ensures r.Success? ==> AllDescribe(r.value, GroupsFor(ids).value)
      ensures r.Success? ==> forall i :: 0 <= i < |r.value| ==> fresh(r.value[i]) && r.value[i].newProperties == GP.Empty()
    {
      ghost var rs := GroupResults(ids);
      var groups: seq<G.Group> := [];
      var i := 0;
      while i < |ids|
        invariant 0 <= i <= |ids|
        invariant GroupResults(ids) == rs
        invariant Collect(rs[..i]).Success? && AllDescribe(groups, Collect(rs[..i]).value)
        invariant forall k :: 0 <= k < |groups| ==> fresh(groups[k]) && groups[k].newProperties == GP.Empty()
      {
        var group := GetGroup(ids[i]);
        assert GroupResults(ids) == rs;
        GroupResultsAt(ids, i);
        if group.Failure? {
          CollectFailAt(rs, i);
          assert GroupsFor(ids) == Failure(group.error);
          return Failure(group.error);
        }
        CollectSnoc(rs, i);
        DescribeAppend(groups, Collect(rs[..i]).value, group.value, rs[i].value);
        groups := groups + [group.value];
        i := i + 1;
      }
      assert rs[..i] == rs;
      return Success(groups);
    }

    /** `getGroups`: null when the id list is null, otherwise one fresh group per id, in order. */
    method GetGroups() returns (r: Result<Option<seq<G.Group>>, Failure>)
      ensures GetGroupIds().None? ==> r == Success(None)
      ensures GetGroupIds().Some? ==>
        var spec := GroupsFor(GetGroupIds().value);
        && (r.Failure? <==> spec.Failure?)
        && (r.Failure? ==> r.error == spec.error)
        && (r.Success? ==> r.value.Some? && AllDescribe(r.value.value, spec.value))
      ensures r.Success? && r.value.Some? ==>
        forall i :: 0 <= i < |r.value.value| ==> fresh(r.value.value[i]) && r.value.value[i].newProperties == GP.Empty()
    {
      var ids := GetGroupIds();
      if ids.None? {
        return Success(None);
      }
      var groups :- FetchGroups(ids.value);
      return Success(Some(groups));
    }

    /**
     * `getSuperGroup`: the first group named "SuperGroup". A null group list,
     * or a null name met before the match, is a null dereference; no match is
     * an illegal state.
     */
    method GetSuperGroup() returns (r: Result<G.Group, Failure>)
      ensures GetGroupIds().None? ==> r == Failure(NullPointer)
      ensures GetGroupIds().Some? && GroupsFor(GetGroupIds().value).Failure? ==>
        r == Failure(GroupsFor(GetGroupIds().value).error)
      ensures GetGroupIds().Some? && GroupsFor(GetGroupIds().value).Success? ==>
        var ss := GroupsFor(GetGroupIds().value).value;
        var found := FindSuperGroup(StateNames(ss));
        && (found.Failure? ==> r == Failure(found.error))
        && (found.Success? ==> r.Success? && Describes(r.value, ss[found.value]) && fresh(r.value))
    {
      var groups :- GetGroups();
      if groups.None? {
        return Failure(NullPointer);
      }
      var gs := groups.value;
      ghost var ss := GroupsFor(GetGroupIds().value).value;
      assert GroupNames(gs) == StateNames(ss);
      var i :- FindSuperGroup(GroupNames(gs));
      return Success(gs[i]);
    }

    /** Creates the observer on first use only, then starts it. */
    method EnableObserve() returns (ok: bool)
      modifies this
      ensures old(observer) != null ==> observer == old(observer)
      ensures old(observer) == null ==> fresh(observer) && observer.gateway == this && observer.client == client
      ensures observer != null && eventHandlers == old(eventHandlers)
    {
      if observer == null {
        observer := new GatewayObserver(this, client);
      }
      ok := observer.Start();
    }

    /** Without an observer there is nothing to stop. */
    method DisableObserve() returns (ok: bool)
      ensures observer == null ==> !ok
    {
      if observer == null {
        return false;
      }
      ok := observer.Stop();
    }

    function GetEventHandlers(): seq<EventHandler>
      reads this
    {
      eventHandlers
    }

    method AddEventHandler(handler: EventHandler)
      modifies this
      ensures eventHandlers == old(eventHandlers) + [handler] && observer == old(observer)
      ensures GetEventHandlers() == old(GetEventHandlers()) + [handler]
    {
      eventHandlers := eventHandlers + [handler];
    }

    method RemoveEventHandler(handler: EventHandler)
      modifies this
      ensures eventHandlers == RemoveFirst(old(eventHandlers), handler) && observer == old(observer)
      ensures GetEventHandlers() == RemoveFirst(old(GetEventHandlers()), handler)
    {
      eventHandlers := RemoveFirst(eventHandlers, handler);
    }
  }
}
