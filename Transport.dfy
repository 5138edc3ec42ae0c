/**
 * The CoAP client the gateway code talks through. The client itself is not
 * part of this model: its answers come from a gateway oracle that may depend
 * on the installed credentials and on every request sent before, and every
 * state-changing request is appended to the client's history.
 */
module Transport {
  import opened Wrappers
  import opened JavaLang
  import opened Json
  import Devices
  import GroupResponse

  datatype Credentials = Credentials(identity: string, key: Option<string>)

  /** The answer to an authentication request. */
  datatype AuthenticateResponse = AuthenticateResponse(presharedKey: Option<string>)

  /** A request that changes the gateway: a PUT with its payload, or an authentication POST for an identity. */
  datatype Request =
    | Put(uri: string, payload: Json)
    | Authenticate(uri: string, identity: string)

  /**
   * The gateway as seen through the client. Each answer is a function of the
   * history of requests, the installed credentials and the request; None is
   * the null the client returns when there is no usable response.
   */
  datatype GatewayBehaviour = GatewayBehaviour(
    ids: (seq<Request>, Option<Credentials>, string) -> Option<seq<Int32>>,
    device: (seq<Request>, Option<Credentials>, string) -> Option<Devices.DeviceResponse>,
    group: (seq<Request>, Option<Credentials>, string) -> Option<Json>,
    put: (seq<Request>, Option<Credentials>, string, Json) -> Option<string>,
    authenticate: (seq<Request>, Option<Credentials>, string, string) -> Option<AuthenticateResponse>,
    defaultTimeout: Int64)

  class CoapClient {
    const gateway: GatewayBehaviour
    var credentials: Option<Credentials>
    var timeout: Int64
    var history: seq<Request>

    constructor (gateway: GatewayBehaviour)
      ensures this.gateway == gateway && credentials.None?
      ensures timeout == gateway.defaultTimeout && history == []
    {
      this.gateway := gateway;
      credentials := None;
      timeout := gateway.defaultTimeout;
      history := [];
    }

    method SetCredentials(c: Option<Credentials>)
      modifies this
      ensures credentials == c
      ensures timeout == old(timeout) && history == old(history)
    {
      credentials := c;
    }

    method SetTimeout(t: Int64)
      modifies this
      ensures timeout == t
      ensures credentials == old(credentials) && history == old(history)
    {
      timeout := t;
    }

    /** GET of an id list (`int[]`). */
    function GetIds(uri: string): Option<seq<Int32>>
      reads this
    {
      gateway.ids(history, credentials, uri)
    }

    /** GET of a device. */
    function GetDevice(uri: string): Option<Devices.DeviceResponse>
      reads this
    {
      gateway.device(history, credentials, uri)
    }

    /** GET of a group, decoded as a group response; a payload that fails to decode gives null. */
    function GetGroup(uri: string): (r: Option<GroupResponse.GroupResponse>)
      reads this
      ensures r.Some? <==> (gateway.group(history, credentials, uri).Some?
        && GroupResponse.Decode(gateway.group(history, credentials, uri).value).Success?)
      ensures r.Some? ==> GroupResponse.Decode(gateway.group(history, credentials, uri).value) == Success(r.value)
    {
      match gateway.group(history, credentials, uri)
      case None => None
      case Some(j) => GroupResponse.Decode(j).ToOption()
    }

    /** PUT: sent once, appended to the history, answered by the gateway as it stood before. */
    method Put(uri: string, payload: Json) returns (r: Option<string>)
      modifies this
      ensures r == gateway.put(old(history), old(credentials), uri, payload)
      ensures history == old(history) + [Request.Put(uri, payload)]
      ensures credentials == old(credentials) && timeout == old(timeout)
    {
      r := gateway.put(history, credentials, uri, payload);
      history := history + [Request.Put(uri, payload)];
    }

    /** POST of an authentication request for `identity`. */
    method Authenticate(uri: string, identity: string) returns (r: Option<AuthenticateResponse>)
      modifies this
      ensures r == gateway.authenticate(old(history), old(credentials), uri, identity)
      ensures history == old(history) + [Request.Authenticate(uri, identity)]
      ensures credentials == old(credentials) && timeout == old(timeout)
    {
      r := gateway.authenticate(history, credentials, uri, identity);
      history := history + [Request.Authenticate(uri, identity)];
    }
  }
}
