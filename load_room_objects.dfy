/** Loading durable room state into the client: the test that tells storable messages from
    legacy room objects, the reattribution of listed entity states, and the appends to the
    `pendingMessages` queue. */
module LoadRoomObjects {
  import opened NetworkingTypes
  import opened Seqs
  import opened ClientState
  import HubChannelUtils

  /** A parsed JSON value (numbers are limited to integers). */
  datatype Json =
    | JNull
    | JBool(b: bool)
    | JNumber(n: int)
    | JString(s: string)
    | JArray(items: seq<Json>)
    | JObject(fields: map<string, Json>)

  /** A node of the stored room data: a JSON object. */
  type Node = map<string, Json>

  /** JavaScript truthiness: null, false, 0 and "" are falsy; every array and object,
      even an empty one, is truthy. */
  predicate Truthy(v: Json)
  {
    match v
    case JNull => false
    case JBool(b) => b
    case JNumber(n) => n != 0
    case JString(s) => s != ""
    case JArray(_) => true
    case JObject(_) => true
  }

  /** `!!node[key]`: an absent property reads as `undefined`, which is falsy. */
  predicate HasTruthy(node: Node, key: string)
  {
    key in node && Truthy(node[key])
  }

  /** The four properties a storable message must carry. */
  const StorableKeys: set<string> := {"version", "creates", "updates", "deletes"}

  /** `isStorableMessage`: `version`, `creates`, `updates` and `deletes` are all truthy,
      that is, each is present and none is null, false, 0 or "". */
  predicate IsStorableMessage(node: Node): (r: bool)
    ensures r <==> forall key :: key in StorableKeys ==>
      key in node && node[key] !in {JNull, JBool(false), JNumber(0), JString("")}
  {
    HasTruthy(node, "version") && HasTruthy(node, "creates")
      && HasTruthy(node, "updates") && HasTruthy(node, "deletes")
  }

  function CreateNode(c: Create): Json
  {
    JObject(map["nid" := JString(c.nid), "creator" := JString(c.creator)])
  }

  function UpdateNode(u: Update): Json
  {
    JObject(map["nid" := JString(u.nid), "owner" := JString(u.owner), "creator" := JString(u.creator)])
  }

  /** A storable message as the JSON object it is stored as. Such an object passes the
      storable-message test exactly when its version is not 0: its three lists are arrays,
      and arrays are truthy even when empty. */
  function MessageNode(m: Message): (r: Node)
    ensures IsStorableMessage(r) <==> m.version != 0
  {
    var lists := map[
      "version" := JNumber(m.version),
      "creates" := JArray(seq(|m.creates|, i requires 0 <= i < |m.creates| => CreateNode(m.creates[i]))),
      "updates" := JArray(seq(|m.updates|, i requires 0 <= i < |m.updates| => UpdateNode(m.updates[i]))),
      "deletes" := JArray(seq(|m.deletes|, i requires 0 <= i < |m.deletes| => JString(m.deletes[i])))];
    match m.fromClientId
    case None => lists
    case Some(id) => lists["fromClientId" := JString(id)]
  }

  /** The test looks at the four properties only: whatever else a node carries does not
      decide whether it is a storable message or a legacy room object. */
  lemma StorableTestIgnoresOtherKeys(node: Node, key: string, v: Json)
    requires key !in StorableKeys
    ensures IsStorableMessage(node[key := v]) == IsStorableMessage(node)
  {
  }

  function NotStorable(): Node -> bool
  {
    (n: Node) => !IsStorableMessage(n)
  }

  /** `roomData.nodes.filter(node => !isStorableMessage(node))`: the legacy room objects,
      in the order of the stored nodes. */
  function LegacyNodes(nodes: seq<Node>): (r: seq<Node>)
    ensures |r| <= |nodes|
    ensures forall n :: n in r <==> n in nodes && !IsStorableMessage(n)
  {
    Filter(nodes, NotStorable())
  }

  /** The legacy nodes of a concatenation are those of its parts, in order: the legacy list
      is the order-preserving sub-sequence of the non-storable nodes. */
  lemma LegacyNodesAppend(a: seq<Node>, b: seq<Node>)
    ensures LegacyNodes(a + b) == LegacyNodes(a) + LegacyNodes(b)
  {
    FilterAppend(a, b, NotStorable());
  }

  /** `fetchSavedEntityStates` from the listed messages onwards: every message, in order,
      with its sender and every update's owner rewritten to the backend identity. */
  method FetchSavedEntityStates(listed: seq<Message>) returns (messages: seq<Message>)
    ensures |messages| == |listed|
    ensures forall i :: 0 <= i < |listed| ==> messages[i] == Reattributed(listed[i])
    ensures forall i :: 0 <= i < |messages| ==> AttributedToBackend(messages[i])
  {
    messages := listed;
    for i := 0 to |messages|
      invariant |messages| == |listed|
      invariant forall k :: 0 <= k < i ==> messages[k] == Reattributed(listed[k])
      invariant forall k :: i <= k < |messages| ==> messages[k] == listed[k]
    {
      var m := messages[i].(fromClientId := Some(Reticulum));
      var updates := m.updates;
      for j := 0 to |updates|
        invariant |updates| == |m.updates|
        invariant forall k :: 0 <= k < j ==> updates[k] == m.updates[k].(owner := Reticulum)
        invariant forall k :: j <= k < |updates| ==> updates[k] == m.updates[k]
      {
        updates := updates[j := updates[j].(owner := Reticulum)];
      }
      assert updates == Reattributed(listed[i]).updates;
      messages := messages[i := m.(updates := updates)];
    }
  }

  /** `loadSavedEntityStates`: always requests the list of entity states first (`listed`
      is its reply). Then, for the current hub, it refuses without a local client id and
      otherwise queues every listed message, reattributed and in order, behind what is
      already queued; for another hub it queues nothing. */
  method LoadSavedEntityStates(c: Client, hubId: string, listed: seq<Message>) returns (r: Outcome)
    modifies c`pendingMessages, c`sent
    ensures c.sent == old(c.sent) + [PushList]
    ensures hubId != c.hubId ==> r == Done && c.pendingMessages == old(c.pendingMessages)
    ensures hubId == c.hubId && !Connected(c.localClientId) ==>
      r == NotConnected && c.pendingMessages == old(c.pendingMessages)
    ensures hubId == c.hubId && Connected(c.localClientId) ==>
      && r == Done
      && |c.pendingMessages| == |old(c.pendingMessages)| + |listed|
      && c.pendingMessages[..|old(c.pendingMessages)|] == old(c.pendingMessages)
      && forall i :: 0 <= i < |listed| ==>
           c.pendingMessages[|old(c.pendingMessages)| + i] == Reattributed(listed[i])
  {
    HubChannelUtils.ListEntityStates(c);
    var messages := FetchSavedEntityStates(listed);
    if hubId == c.hubId {
      if !Connected(c.localClientId) {
        return NotConnected;
      }
      for i := 0 to |messages|
        invariant c.pendingMessages == old(c.pendingMessages) + messages[..i]
        invariant c.sent == old(c.sent) + [PushList]
      {
        assert messages[..i + 1] == messages[..i] + [messages[i]];
        c.pendingMessages := c.pendingMessages + [messages[i]];
      }
      assert messages[..|messages|] == messages;
    }
    r := Done;
  }

  /** `loadLegacyRoomObjects` from the parsed room data onwards: the legacy nodes are
      picked out; for the current hub, the message built from them (by
      `messageForLegacyRoomObjects`, passed in) is queued with the backend as its sender
      when there is one. Nothing else is queued. The source returns nothing; the legacy
      nodes are returned here only so that the contract can name them. */
  method LoadLegacyRoomObjects(c: Client, hubId: string, nodes: seq<Node>,
                               messageForLegacyRoomObjects: seq<Node> -> Option<Message>)
    returns (legacy: seq<Node>)
    modifies c`pendingMessages
    ensures legacy == LegacyNodes(nodes)
    ensures hubId == c.hubId && messageForLegacyRoomObjects(legacy).Some? ==>
      c.pendingMessages == old(c.pendingMessages)
        + [messageForLegacyRoomObjects(legacy).value.(fromClientId := Some(Reticulum))]
    ensures !(hubId == c.hubId && messageForLegacyRoomObjects(legacy).Some?) ==>
      c.pendingMessages == old(c.pendingMessages)
  {
    legacy := LegacyNodes(nodes);
    if hubId == c.hubId {
      var message := messageForLegacyRoomObjects(legacy);
      if message.Some? {
        var m := message.value.(fromClientId := Some(Reticulum));
        c.pendingMessages := c.pendingMessages + [m];
      }
    }
  }
}
