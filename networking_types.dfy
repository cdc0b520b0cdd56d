/** Values shared by the persistence code: network identities, storable messages, the
    per-entity component state the persistence code reads and writes, the records pushed
    to the hub channel, and the collaborators whose bodies are not part of this model
    (`takeOwnership`, `messageForStorage`, `isCursorBufferUpdateMessage`). */
module NetworkingTypes {

  type EntityId = nat
  type Nid = string
  type ClientId = string

  /** The identity the backend uses for durable state (`APP.getSid("reticulum")`). */
  const Reticulum: ClientId := "reticulum"

  datatype Option<+T> = None | Some(value: T)

  /** What a public entry point reports: it went ahead, or it refused because
      `localClientID` is falsy (the source throws). */
  datatype Outcome = Done | NotConnected

  /** `!!localClientID`: the client has joined the hub channel. The id is absent before
      that, and the empty string is falsy as well. */
  predicate Connected(localClientId: Option<ClientId>)
  {
    localClientId.Some? && localClientId.value != ""
  }

  /** Updates buffered from the network are either storable entity updates or cursor
      telemetry, which must never be persisted. */
  datatype UpdateKind = StorableUpdate | CursorBufferUpdate

  /** One entity update of a message: the entity it is about and its authorship. */
  datatype Update = Update(nid: Nid, owner: ClientId, creator: ClientId, kind: UpdateKind)

  /** One entity creation of a message. */
  datatype Create = Create(nid: Nid, creator: ClientId)

  /** A storable message: version, the three entity lists and the sender's identity. */
  datatype Message = Message(
    version: nat,
    creates: seq<Create>,
    updates: seq<Update>,
    deletes: seq<Nid>,
    fromClientId: Option<ClientId>)

  /** The component state of one entity that the persistence code reads or writes.
      `networked`, `owned`, `constraint` and `dirty` are the presence of the `Networked`,
      `Owned`, `Constraint` and `EntityStateDirty` components; `nid`, `creator` and
      `owner` are fields of `Networked`; `networkInstantiated` and `hasSavedState` are
      what `isNetworkInstantiated` and `hasSavedEntityState` report for the entity. */
  datatype Entity = Entity(
    nid: Nid,
    creator: ClientId,
    owner: ClientId,
    networked: bool,
    owned: bool,
    constraint: bool,
    dirty: bool,
    networkInstantiated: bool,
    hasSavedState: bool)

  /** The entities that exist, by entity id. */
  type World = map<EntityId, Entity>

  /** `{root_nid, nid, message}`, pushed with `save_entity_state`. */
  datatype SavePayload = SavePayload(rootNid: Nid, nid: Nid, message: Message)

  /** `{nid, message}`, pushed with `delete_entity_state` or `delete_entity_states_for_root_nid`. */
  datatype DeletePayload = DeletePayload(nid: Nid, message: Message)

  /** One call issued on the hub channel, in the order issued. The first four are the
      channel commands; the last two are `hubChannel.saveEntityState` and
      `hubChannel.deleteEntityState` as used by pinning (file and promotion tokens are null). */
  datatype ChannelCall =
    | PushSave(save: SavePayload)
    | PushDelete(delete: DeletePayload)
    | PushDeleteForRoot(delete: DeletePayload)
    | PushList
    | HubSaveEntityState(nid: Nid, message: Message)
    | HubDeleteEntityState(nid: Nid, message: Message)

  /** A listed entity state as returned by `list_entity_states`, its message already parsed. */
  datatype EntityState = EntityState(nid: Nid, message: Message)

  // ---- Collaborators whose source is not part of this model ----

  /** `takeOwnership`: the local client gets the `Owned` component and becomes the owner. */
  function TakeOwnership(e: Entity, me: ClientId): Entity
  {
    e.(owned := true, owner := me)
  }

  function CreateFor(e: Entity): Create
  {
    Create(e.nid, e.creator)
  }

  function UpdateFor(e: Entity): Update
  {
    Update(e.nid, e.owner, e.creator, StorableUpdate)
  }

  /** `messageForStorage(world, creates, updates, deletes)`: a version 1 message built
      from its three entity lists, one entry per entity, in order. */
  function MessageForStorage(creates: seq<Entity>, updates: seq<Entity>, deletes: seq<Entity>): Message
  {
    Message(
      1,
      seq(|creates|, i requires 0 <= i < |creates| => CreateFor(creates[i])),
      seq(|updates|, i requires 0 <= i < |updates| => UpdateFor(updates[i])),
      seq(|deletes|, i requires 0 <= i < |deletes| => deletes[i].nid),
      None)
  }

  predicate IsCursorBufferUpdate(u: Update)
  {
    u.kind == CursorBufferUpdate
  }

  // ---- Reattribution of stored state to the backend ----

  /** A listed message with its sender and every update's owner rewritten to the backend
      identity, as done in place by `parseStorableMessages` and `fetchSavedEntityStates`. */
  function Reattributed(m: Message): (r: Message)
    ensures r.fromClientId == Some(Reticulum)
    ensures |r.updates| == |m.updates|
    ensures forall i :: 0 <= i < |r.updates| ==>
      r.updates[i] == m.updates[i].(owner := Reticulum)
    ensures r.version == m.version && r.creates == m.creates && r.deletes == m.deletes
  {
    m.(fromClientId := Some(Reticulum),
       updates := seq(|m.updates|, i requires 0 <= i < |m.updates| => m.updates[i].(owner := Reticulum)))
  }

  /** Reattributing an already reattributed message changes nothing. */
  lemma ReattributedIdempotent(m: Message)
    ensures Reattributed(Reattributed(m)) == Reattributed(m)
  {
    var once := Reattributed(m);
    var twice := Reattributed(once);
    assert twice.updates == once.updates;
  }

  /** State attributed to the backend: sent by it, every update owned by it. */
  predicate AttributedToBackend(m: Message)
  {
    m.fromClientId == Some(Reticulum) && forall i :: 0 <= i < |m.updates| ==> m.updates[i].owner == Reticulum
  }
}
