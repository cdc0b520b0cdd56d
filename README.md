# Entity-state persistence of the Hubs client, in Dafny

This project models how the Hubs client persists networked entity state to the backend
("reticulum"). It covers the following parts:

- **Save and delete records.** One `save_entity_state` or `delete_entity_state` record can
  be built for a single entity. A whole hierarchy can also be handled: one record per
  networked node, plus one bulk `delete_entity_states_for_root_nid` call when deleting.
- **Buffered updates.** Updates that arrived from the network before their entity could be
  resolved are merged into a hierarchy save by find-or-create on the network id. Cursor
  telemetry is left out.
- **Ownership and creator stamps.** Each operation takes ownership of the entities it
  touches. It stamps the creator as the backend or as the local client, depending on the
  operation.
- **Pinning and unpinning.** `tryPin` and `tryUnpin` operate on one entity. The message
  they send carries the entity's networked family and its buffered updates.
- **Loading saved room state.** Listed entity states are reattributed to the backend and
  queued in order as pending messages. Legacy room objects are told apart from storable
  messages by JavaScript truthiness.
- **The per-frame persistence system.** Owned entities released from a constraint are
  marked dirty. Every dirty owned entity is then saved, if it has saved state, and cleaned.

## Structure

**Modules**

| module | file | role |
|---|---|---|
| `Seqs` | `seqs.dfy` | order-preserving filter (`Array.prototype.filter`) |
| `NetworkingTypes` | `networking_types.dfy` | network ids, messages, entity component state, channel records, reattribution |
| `ClientState` | `client_state.dfy` | `class Client` (see below) |
| `HubChannelUtils` | `hub_channel_utils.dfy` | `src/utils/hub-channel-utils.ts` |
| `LoadRoomObjects` | `load_room_objects.dfy` | `src/utils/load-room-objects.ts` |
| `StoreNetworkedState` | `store_networked_state.dfy` | `src/utils/store-networked-state.ts` |
| `EntityPersistenceSystem` | `entity_persistence_system.dfy` | `src/bit-systems/entity-persistence-system.ts` |

**Shared state.** `class Client` holds the process-wide mutable state the source shares
through module globals and the ECS world:

- the world's entity components
- `localClientID`
- the current hub id
- `storedUpdates`
- `pendingMessages`
- the log of hub-channel calls

**Operations.** Each source function that changes that state is a module-level method that
takes a `Client`. It names the fields it modifies and states its new state in terms of pure functions. The
properties the source relies on are proved as lemmas about those functions:

- one record per networked node, in traversal order
- the merged records carry the earlier records' updates and the admitted buffered updates, each as often as before: none lost, none duplicated
- records added by the merge have distinct ids
- no owned entity stays dirty after a frame
- reattribution is idempotent

**Refusing calls.** The source throws when `localClientID` is falsy, that is, absent or the
empty string (`Connected`). Those entry points return `NotConnected` instead. All but one of
them change nothing in that case, because the source throws before any side effect.
`loadSavedEntityStates` is the exception: it issues its `list_entity_states` request before
it tests the client id, so that request is recorded even when it then refuses.

## Model

| member | source | states |
|---|---|---|
| Seqs.Filter | src/utils/load-room-objects.ts:64 | the result holds exactly the kept elements of the input and is no longer than it |
| Seqs.FilterAppend | src/utils/load-room-objects.ts:64 | filtering distributes over concatenation (order-preserving sub-sequence) |
| NetworkingTypes.Reattributed | src/utils/hub-channel-utils.ts:165-166 | sender becomes the backend, every update's owner becomes the backend, nothing else changes |
| NetworkingTypes.ReattributedIdempotent | src/utils/hub-channel-utils.ts:163-169 | reattributing twice is reattributing once |
| NetworkingTypes.Connected | src/utils/hub-channel-utils.ts:77 | `!localClientID` is false: the id is present and not the empty string |
| HubChannelUtils.SavePayloadFor | src/utils/hub-channel-utils.ts:25-32 | record filed under the given root; creates the entity only when its id is the root id; always updates it; no deletes |
| HubChannelUtils.DeletePayloadFor | src/utils/hub-channel-utils.ts:150-153 | delete record under the entity's id, creating and updating the entity, no deletes |
| HubChannelUtils.RootNidOf | src/utils/hub-channel-utils.ts:84 | the result is a prefix without "." followed by "." or the end of the id |
| HubChannelUtils.RootNidOfUnique | src/utils/hub-channel-utils.ts:84 | those properties determine the root id uniquely |
| HubChannelUtils.RootNidOfIsSelf | src/utils/hub-channel-utils.ts:84 | an id is its own root exactly when it has no "." |
| HubChannelUtils.RootNidOfDescendant | src/utils/hub-channel-utils.ts:84 | `<root>.<suffix>` has root `<root>` |
| HubChannelUtils.SaveStamp | src/utils/hub-channel-utils.ts:79-82 | entity becomes owned by the local client; creator becomes the backend exactly for network-instantiated entities; other components unchanged |
| HubChannelUtils.SingleSavePayloadCreatesOnlyRoots | src/utils/hub-channel-utils.ts:84 | a single save is filed under the id's root and creates the entity exactly when the id has no "." |
| HubChannelUtils.SaveEntityState | src/utils/hub-channel-utils.ts:76-87 | refuses when not connected with no change; otherwise stamps the entity and pushes one save record built from the stamped entity |
| HubChannelUtils.DeleteEntityState | src/utils/hub-channel-utils.ts:142-157 | refuses when not connected; otherwise takes ownership, creator becomes the local client for network-instantiated entities, pushes one delete record |
| HubChannelUtils.NetworkedNodes | src/utils/hub-channel-utils.ts:41-42 | exactly the traversal objects with an existing networked entity |
| HubChannelUtils.DescendantNodes | src/utils/hub-channel-utils.ts:124-127 | exactly the networked traversal objects other than the root |
| HubChannelUtils.BaseSavePayloads | src/utils/hub-channel-utils.ts:41-47 | the traversal pass as a fold: per networked node, in order, the record of that node after ownership was taken (its properties are in the next row) |
| HubChannelUtils.BaseSavePayloadsOnePerNode | src/utils/hub-channel-utils.ts:41-47 | exactly one record per networked node, in traversal order, built after ownership was taken |
| HubChannelUtils.AdmitsStoredUpdate | src/utils/hub-channel-utils.ts:56-57 | a buffered update is merged exactly when its id starts with the root id and it is not cursor telemetry |
| HubChannelUtils.FindPayload | src/utils/hub-channel-utils.ts:59 | the index of the first record with the id, or none when no record has it |
| HubChannelUtils.MergeStoredUpdate | src/utils/hub-channel-utils.ts:56-69 | unadmitted updates change nothing; an admitted one is appended to the first record with its id, or to a new record at the end under the root; other records unchanged |
| HubChannelUtils.MergeStoredUpdates | src/utils/hub-channel-utils.ts:54-71 | the merge pass as a fold of the find-or-create step over the buffered updates, in order (its properties are in the next rows) |
| HubChannelUtils.MergeKeepsEarlierPayloads | src/utils/hub-channel-utils.ts:54-71 | earlier records keep identity and contents, gaining updates only at the end; added records are filed under the root with no creates or deletes |
| HubChannelUtils.MergeAddsDistinctNids | src/utils/hub-channel-utils.ts:59-67 | records added by the merge have ids distinct from every record before them |
| HubChannelUtils.MergeIgnoresUnadmitted | src/utils/hub-channel-utils.ts:56-57 | merging all buffered updates equals merging only those under the root prefix that are not cursor telemetry |
| HubChannelUtils.MergeAddsExactlyAdmittedUpdates | src/utils/hub-channel-utils.ts:54-71 | as a multiset, the updates of all merged records are those of the records before the merge plus the admitted buffered updates: none lost, none duplicated, nothing else added; so the total grows by the number admitted |
| HubChannelUtils.HierarchySavePayloads | src/utils/hub-channel-utils.ts:34-74 | records start with one per networked node in traversal order (the root's creating it); all are filed under the root id with no deletes; merged records have fresh ids |
| HubChannelUtils.CollectHierarchySaves | src/utils/hub-channel-utils.ts:41-47 | the traversal loop takes ownership of every networked node and builds the per-node records |
| HubChannelUtils.MergeBufferedUpdates | src/utils/hub-channel-utils.ts:54-71 | the nested loop over buffered updates computes the find-or-create merge |
| HubChannelUtils.CreateSaveEntityStatePayloadsForEntityHierarchy | src/utils/hub-channel-utils.ts:34-74 | stamps the backend as the root's creator, owns every networked node, returns the hierarchy records |
| HubChannelUtils.SaveEntityStateHierarchy | src/utils/hub-channel-utils.ts:89-99 | refuses when not connected; otherwise pushes the hierarchy records in order |
| HubChannelUtils.DescendantDeletes | src/utils/hub-channel-utils.ts:123-135 | the delete traversal as a fold: per networked node other than the root, in order, its delete record after ownership was taken |
| HubChannelUtils.DescendantDeletesOnePerNode | src/utils/hub-channel-utils.ts:123-135 | exactly one delete record per networked non-root node, in traversal order |
| HubChannelUtils.DeleteHierarchyPushes | src/utils/hub-channel-utils.ts:101-140 | the root bulk delete first, then one per-node delete per networked descendant, never the root |
| HubChannelUtils.CollectDescendantDeletes | src/utils/hub-channel-utils.ts:123-135 | the traversal loop skips the root and owns each networked descendant while building its record |
| HubChannelUtils.DeleteEntityStateHierarchy | src/utils/hub-channel-utils.ts:101-140 | refuses when not connected; otherwise takes the root over as its creator, owns the descendants, issues the delete calls in order |
| HubChannelUtils.ListEntityStates | src/utils/hub-channel-utils.ts:159-161 | issues exactly one `list_entity_states` call |
| HubChannelUtils.ParseStorableMessages | src/utils/hub-channel-utils.ts:163-169 | one message per listed state, in order, each reattributed and attributed to the backend |
| HubChannelUtils.ParseStorableMessagesTwice | src/utils/hub-channel-utils.ts:163-169 | parsing the list a second time, after the first parse rewrote it in place, yields the same messages |
| LoadRoomObjects.IsStorableMessage | src/utils/load-room-objects.ts:31-33 | a node is storable exactly when `version`, `creates`, `updates` and `deletes` are all present and none is null, false, 0 or "" |
| LoadRoomObjects.StorableTestIgnoresOtherKeys | src/utils/load-room-objects.ts:31-33 | properties other than those four never change the outcome of the test |
| LoadRoomObjects.MessageNode | src/utils/load-room-objects.ts:31-33 | a stored message passes the storable test exactly when its version is not 0, even with empty lists |
| LoadRoomObjects.LegacyNodes | src/utils/load-room-objects.ts:64 | exactly the nodes that fail the storable test, no more of them than there are nodes |
| LoadRoomObjects.LegacyNodesAppend | src/utils/load-room-objects.ts:64 | the legacy list of a concatenation is the concatenation of the legacy lists |
| LoadRoomObjects.FetchSavedEntityStates | src/utils/load-room-objects.ts:35-45 | every listed message, in order, reattributed to the backend |
| LoadRoomObjects.LoadSavedEntityStates | src/utils/load-room-objects.ts:47-57 | always issues one `list_entity_states` call first; then for another hub nothing is queued; current hub without a client id: refuses; otherwise every reattributed message is queued in order behind the queue |
| LoadRoomObjects.LoadLegacyRoomObjects | src/utils/load-room-objects.ts:59-78 | picks out the legacy nodes (returned only so the contract can name them; the source returns nothing); for the current hub, queues the legacy message with the backend as sender when there is one; nothing else |
| StoreNetworkedState.NetworkedFamily | src/utils/store-networked-state.ts:21 | exactly the family members that exist and are networked |
| StoreNetworkedState.StoredUpdatesUnder | src/utils/store-networked-state.ts:27-31 | an update is included exactly when some bucket whose id starts with the entity's id holds it |
| StoreNetworkedState.StoredUpdatesUnderAppend | src/utils/store-networked-state.ts:27-31 | collection distributes over runs of buckets, in bucket order |
| StoreNetworkedState.StorableMessage | src/utils/store-networked-state.ts:16-33 | version 1, creates the entity, no deletes; updates are the networked family in order followed by the buffered updates under the entity's id, and nothing else |
| StoreNetworkedState.StorableMessageFor | src/utils/store-networked-state.ts:16-33 | the loop over buffered updates computes that message |
| StoreNetworkedState.TryPin | src/utils/store-networked-state.ts:35-53 | refuses when not connected; otherwise owns the entity, creator becomes the backend, asks the hub to save its message (which creates it as the backend's) |
| StoreNetworkedState.TryUnpin | src/utils/store-networked-state.ts:55-68 | refuses when not connected; otherwise owns the entity, creator becomes the local client, asks the hub to delete its saved state with its message |
| EntityPersistenceSystem.MarkReleased | src/bit-systems/entity-persistence-system.ts:13-17 | an entity becomes dirty exactly when it left the constraint query, exists, is owned and unconstrained; nothing else changes |
| EntityPersistenceSystem.DirtyOwned | src/bit-systems/entity-persistence-system.ts:9 | reference definition of the `[EntityStateDirty, Owned]` query that the sweep's contract is stated against: exactly the existing entities that are dirty and owned |
| EntityPersistenceSystem.Sweep | src/bit-systems/entity-persistence-system.ts:20-25 | afterwards no owned entity is dirty; entities that are not dirty-and-owned are untouched; a dirty owned entity without saved state only loses its dirty flag; one with saved state becomes owned by the local client and its creator becomes "reticulum" exactly when it is network-instantiated; nothing else changes |
| EntityPersistenceSystem.PassIsStable | src/bit-systems/entity-persistence-system.ts:10-26 | a second frame with no constraint exits changes nothing |
| EntityPersistenceSystem.ReleasedIsCleaned | src/bit-systems/entity-persistence-system.ts:13-25 | an owned entity released from its constraint is cleaned, and saved if it has saved state, in the same frame |
| EntityPersistenceSystem.SavesOf | src/bit-systems/entity-persistence-system.ts:21-22 | reference definition of the save pushes that the sweep's contract is stated against: one push per saved entity, in order, built from its stamped state |
| EntityPersistenceSystem.MarkReleasedEntities | src/bit-systems/entity-persistence-system.ts:13-17 | the loop over exited entities computes the first pass |
| EntityPersistenceSystem.CleanEntity | src/bit-systems/entity-persistence-system.ts:21-24 | one dirty owned entity: saved, with exactly one save push, exactly when it has saved state; then no longer dirty; no other entity changes |
| EntityPersistenceSystem.SweepDirtyEntities | src/bit-systems/entity-persistence-system.ts:20-25 | the loop computes the sweep; it saves each dirty owned entity with saved state exactly once and pushes exactly those saves |
| EntityPersistenceSystem.RunEntityPersistenceSystem | src/bit-systems/entity-persistence-system.ts:10-26 | nothing while disconnected; otherwise both passes, and exactly the dirty owned entities with saved state are saved once each |

## Left out

- Channel transport: `push` wraps each channel call in a Promise. Replies, backend errors and `Promise.all` are not modelled. Channel calls are recorded in `Client.sent` in the order they are issued.
- `listEntityStates`: only the request is modelled. Its reply is a parameter of `ParseStorableMessages` and `FetchSavedEntityStates`.
- `hubChannel.listEntityStates()`, the `HubChannel` method that `fetchSavedEntityStates` calls, is not part of this model. It is assumed to issue the same `list_entity_states` push as the `listEntityStates` helper, so `LoadSavedEntityStates` records it as `PushList`.
- I/O is not modelled: `fetch` of `objects.gltf`, `response.json()`, `JSON.parse` of each entity-state blob, and `console.log`. The parsed values are parameters.
- Floating-point JSON numbers and `NaN` are not modelled: JSON numbers are integers, so truthiness is decided by `n != 0`.
- Collaborators in other files are not part of this model, so their bodies are represented abstractly:
  - `messageForStorage` builds one create/update/delete entry per listed entity.
  - `takeOwnership` sets `owned` and `owner`.
  - `isNetworkInstantiated` and `hasSavedEntityState` are entity attributes.
  - `isCursorBufferUpdateMessage` is an update kind.
  - `messageForLegacyRoomObjects` is a function parameter.
  - `APP.getString`/`APP.getSid` string interning is not modelled; ids are strings.
- Scene-graph traversal: `traverse` and `selfWithDescendants` become a sequence of entity ids passed in, in traversal order. An object without an entity is id 0.
- ECS queries: the exit query's result is a parameter. The dirty query is iterated as a set, so the order of saves within a frame is not modelled, but each is saved once.
- `EntityPersistenceSystem.RunEntityPersistenceSystem`: the `entityExists` check in the first pass is membership in the entity map.
- In-place mutation: `parseStorableMessages` and `fetchSavedEntityStates` rewrite the listed messages in place. This is modelled on values. `ListAfterParse` is the list as left behind. Aliasing between the list and the returned messages is not captured.
- `src/utils/load-image.tsx` and `src/utils/load-pdf.tsx` (media loading) are not part of this model.
- Timing: the code has no debounce or ceiling timers and no periodic resync. The persistence system saves every dirty owned entity in the frame it sees it, and the model does the same.
- Behaviours of the code that the model keeps as they are:
  - A hierarchy save stamps the backend as creator on the root only. A hierarchy delete stamps the local client as creator on the root only. Descendants only change ownership.
  - A released entity is marked dirty whether or not it has saved state. Only the save depends on saved state.
  - The test "the update's id starts with the root id" is a plain string prefix, so root id `A` also admits an update for `AB.c`. The model keeps the plain prefix test.
  - `storableMessageFor` (pinning) does not exclude cursor telemetry from the buffered updates it copies, unlike the hierarchy merge.
