/**
 * A scene of a group. Every field is fixed at construction; activating the
 * scene PUTs an activation payload to the owning group's URI and reports
 * nothing back.
 */
module Scene {
  import opened Wrappers
  import opened JavaLang
  import opened Json
  import opened ApiEndpoint
  import opened Transport
  import SP = SceneProperties
  import ASR = ActivateSceneRequest
  import G = Group

  /** The payload that switches the group to scene `sceneId`. */
  function ActivationPayload(sceneId: Int32): (j: Json)
    ensures ASR.Decode(j) == Success(ASR.ActivateSceneRequest(true, sceneId))
  {
    ASR.RoundTrip(ASR.ActivateSceneRequest(true, sceneId));
    ASR.Encode(ASR.ActivateSceneRequest(true, sceneId))
  }

  class Scene {
    const name: Option<string>
    const instanceId: Int32
    const creationDate: Int64
    const properties: SP.SceneProperties
    const group: G.Group
    const client: CoapClient

    constructor (name: Option<string>, instanceId: Int32, creationDate: Int64,
                 properties: SP.SceneProperties, group: G.Group, client: CoapClient)
      ensures this.name == name && this.instanceId == instanceId && this.creationDate == creationDate
      ensures this.properties == properties && this.group == group && this.client == client
    {
      this.name := name;
      this.instanceId := instanceId;
      this.creationDate := creationDate;
      this.properties := properties;
      this.group := group;
      this.client := client;
    }

    function GetName(): Option<string> {
      name
    }

    function GetInstanceId(): Int32 {
      instanceId
    }

    function GetCreationDate(): Int64 {
      creationDate
    }

    /**
     * One PUT of `{on: 1, sceneId: instanceId}` to the group's own URI. The
     * answer is discarded and nothing but the client's history changes.
     */
    method Activate()
      modifies client
      ensures client.history == old(client.history) + [Request.Put(group.Uri(), ActivationPayload(instanceId))]
      ensures client.credentials == old(client.credentials) && client.timeout == old(client.timeout)
    {
      var uri := group.endpoint.GetUri(G.GroupPath(group.instanceId));
      var _ := client.Put(uri, ASR.Encode(ASR.ActivateSceneRequest(true, GetInstanceId())));
    }
  }

  /**
   * Activation addresses the group, not a scene: the path read back from the
   * URI is `GROUPS/<group id>`, and its first part is neither SCENES nor SCENE.
   */
  lemma ActivationTargetsGroup(gatewayIp: Option<string>, groupId: Option<Int32>)
    ensures PathOf(gatewayIp, Uri(gatewayIp, G.GroupPath(groupId))) == Some(G.GroupPath(groupId))
    ensures G.GroupPath(groupId)[0] == GROUPS && GROUPS != SCENES && GROUPS != SCENE
  {
    G.ValueOfNoSlash(groupId);
    UriRoundTrip(gatewayIp, G.GroupPath(groupId));
  }
}
