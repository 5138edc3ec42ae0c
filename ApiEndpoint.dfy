/**
 * CoAP endpoint paths and URI construction. URIs use the "coaps" scheme of
 * section 6.2 of RFC 7252 with its default port 5684 written out.
 */
module ApiEndpoint {
  import opened Wrappers
  import opened JavaLang

  // Gateway
  const AUTHENTICATE := "15011/9063"
  const GATEWAY_REBOOT := "15011/9030"
  const GATEWAY_RESET := "15011/9031"
  const GATEWAY_UPDATE_FIRMWARE := "15011/9034"
  const GATEWAY_DETAILS := "15011/15012"

  // Global
  const DEVICES := "15001"
  const GROUPS := "15004"
  const SCENES := "15005"
  const SCENE := "15006"
  const NOTIFICATIONS := "15006"
  const SMART_TASKS := "15010"

  /** The default port of the "coaps" scheme. */
  const COAPS_PORT := "5684"

  /** The base URL for a gateway address; a null address is rendered "null", as Java concatenation does. */
  function BaseUrl(gatewayIp: Option<string>): string {
    "coaps://" + StringOf(gatewayIp) + ":" + COAPS_PORT
  }

  /** A set address sits between the scheme and the port, and can be read back from the base URL. */
  lemma BaseUrlShape(ip: string)
    ensures var b := BaseUrl(Some(ip));
      && |b| == |ip| + 13
      && b[..8] == "coaps://" && b[8..|b| - 5] == ip && b[|b| - 5..] == ":5684"
  {
    var b := BaseUrl(Some(ip));
    assert b == "coaps://" + ip + ":5684";
  }

  /** Distinct addresses give distinct base URLs. */
  lemma BaseUrlInjective(a: string, c: string)
    requires BaseUrl(Some(a)) == BaseUrl(Some(c))
    ensures a == c
  {
    BaseUrlShape(a);
    BaseUrlShape(c);
  }

  /** `String.join(sep, parts)`. */
  function Join(sep: string, parts: seq<string>): string {
    if parts == [] then ""
    else if |parts| == 1 then parts[0]
    else parts[0] + sep + Join(sep, parts[1..])
  }

  /** The URI of an endpoint given as a list of path parts. */
  function Uri(gatewayIp: Option<string>, endpoint: seq<string>): string {
    BaseUrl(gatewayIp) + "/" + Join("/", endpoint)
  }

  /** Every URI starts with the base URL followed by "/", and the joined parts follow. */
  lemma UriShape(gatewayIp: Option<string>, endpoint: seq<string>)
    ensures var base := BaseUrl(gatewayIp) + "/"; var u := Uri(gatewayIp, endpoint);
      |u| >= |base| && u[..|base|] == base && u[|base|..] == Join("/", endpoint)
  {
  }

  predicate NoSlash(s: string) {
    forall i :: 0 <= i < |s| ==> s[i] != '/'
  }

  /** Split a path at every '/', keeping empty pieces: the inverse of joining with "/". */
  function Split(s: string): (r: seq<string>)
    ensures |r| > 0
    decreases |s|
  {
    if s == [] then [""]
    else
      var rest := Split(s[1..]);
      if s[0] == '/' then [""] + rest else [[s[0]] + rest[0]] + rest[1..]
  }

  lemma {:induction false} SplitNoSlashPrefix(a: string, t: string)
    requires NoSlash(a)
    ensures Split(a + t) == [a + Split(t)[0]] + Split(t)[1..]
    decreases |a|
  {
    if a == [] {
      assert a + t == t;
      assert a + Split(t)[0] == Split(t)[0];
    } else {
      assert (a + t)[1..] == a[1..] + t;
      SplitNoSlashPrefix(a[1..], t);
      var rest := Split(a[1..] + t);
      assert rest[0] == a[1..] + Split(t)[0];
      assert rest[1..] == Split(t)[1..];
      assert [a[0]] + (a[1..] + Split(t)[0]) == a + Split(t)[0];
    }
  }

  lemma {:induction false} SplitJoin(parts: seq<string>)
    requires |parts| > 0
    requires forall k :: 0 <= k < |parts| ==> NoSlash(parts[k])
    ensures Split(Join("/", parts)) == parts
    decreases |parts|
  {
    if |parts| == 1 {
      SplitNoSlashPrefix(parts[0], "");
      assert parts[0] + "" == parts[0];
    } else {
      var tail := Join("/", parts[1..]);
      SplitJoin(parts[1..]);
      assert Split("/" + tail) == [""] + parts[1..];
      assert Join("/", parts) == parts[0] + ("/" + tail);
      SplitNoSlashPrefix(parts[0], "/" + tail);
      assert parts[0] + "" == parts[0];
      assert [parts[0]] + parts[1..] == parts;
    }
  }

  /** The path parts of a URI addressed to the given gateway, or None for a URI of another gateway. */
  function PathOf(gatewayIp: Option<string>, uri: string): Option<seq<string>> {
    var base := BaseUrl(gatewayIp) + "/";
    if |uri| >= |base| && uri[..|base|] == base then Some(Split(uri[|base|..])) else None
  }

  /** Reading the path back from a URI recovers the parts it was built from. */
  lemma UriRoundTrip(gatewayIp: Option<string>, endpoint: seq<string>)
    requires |endpoint| > 0
    requires forall k :: 0 <= k < |endpoint| ==> NoSlash(endpoint[k])
    ensures PathOf(gatewayIp, Uri(gatewayIp, endpoint)) == Some(endpoint)
  {
    UriShape(gatewayIp, endpoint);
    SplitJoin(endpoint);
  }

  /** Distinct lists of slash-free parts give distinct URIs. */
  lemma UriInjective(gatewayIp: Option<string>, e1: seq<string>, e2: seq<string>)
    requires |e1| > 0 && |e2| > 0
    requires forall k :: 0 <= k < |e1| ==> NoSlash(e1[k])
    requires forall k :: 0 <= k < |e2| ==> NoSlash(e2[k])
    requires Uri(gatewayIp, e1) == Uri(gatewayIp, e2)
    ensures e1 == e2
  {
    UriRoundTrip(gatewayIp, e1);
    UriRoundTrip(gatewayIp, e2);
  }

  lemma {:induction false} JoinAppend(sep: string, a: seq<string>, b: seq<string>)
    requires |a| > 0 && |b| > 0
    ensures Join(sep, a + b) == Join(sep, a) + sep + Join(sep, b)
    decreases |a|
  {
    if |a| == 1 {
      assert (a + b)[1..] == b;
    } else {
      assert (a + b)[1..] == a[1..] + b;
      JoinAppend(sep, a[1..], b);
    }
  }

  /**
   * A part that itself contains "/" stands for the parts it joins: `getUri(AUTHENTICATE)`
   * addresses the same resource as the two parts "15011" and "9063".
   */
  lemma JoinFlatten(pre: seq<string>, subs: seq<string>, post: seq<string>)
    requires |subs| > 0
    ensures Join("/", pre + [Join("/", subs)] + post) == Join("/", pre + subs + post)
  {
    var m := [Join("/", subs)];
    assert Join("/", m + post) == Join("/", subs + post) by {
      if post != [] {
        JoinAppend("/", m, post);
        JoinAppend("/", subs, post);
      } else {
        assert m + post == m && subs + post == subs;
      }
    }
    if pre != [] {
      assert pre + m + post == pre + (m + post);
      assert pre + subs + post == pre + (subs + post);
      JoinAppend("/", pre, m + post);
      JoinAppend("/", pre, subs + post);
    } else {
      assert pre + m + post == m + post;
      assert pre + subs + post == subs + post;
    }
  }

  lemma AuthenticateUri(gatewayIp: Option<string>)
    ensures Uri(gatewayIp, [AUTHENTICATE]) == BaseUrl(gatewayIp) + "/15011/9063"
    ensures Uri(gatewayIp, [AUTHENTICATE]) == Uri(gatewayIp, ["15011", "9063"])
  {
  }

  lemma DeviceUri(gatewayIp: Option<string>)
    ensures Uri(gatewayIp, [DEVICES, "65536"]) == BaseUrl(gatewayIp) + "/15001/65536"
  {
    assert Join("/", [DEVICES, "65536"]) == "15001/65536";
  }

  /** SCENE and NOTIFICATIONS address the same path. */
  lemma SceneIsNotifications()
    ensures SCENE == NOTIFICATIONS == "15006"
  {
  }

  /** The process-wide gateway address, held in one object shared by everything that builds URIs. */
  class Endpoint {
    var gatewayIp: Option<string>

    /** The address is null until it is set. */
    constructor ()
      ensures gatewayIp == None
    {
      gatewayIp := None;
    }

    function GetGatewayIp(): Option<string>
      reads this
    {
      gatewayIp
    }

    method SetGatewayIp(ip: string)
      modifies this
      ensures GetGatewayIp() == Some(ip)
    {
      gatewayIp := Some(ip);
    }

    function GetBaseUrl(): string
      reads this
    {
      BaseUrl(gatewayIp)
    }

    function GetUri(endpoint: seq<string>): string
      reads this
    {
      Uri(gatewayIp, endpoint)
    }
  }
}
