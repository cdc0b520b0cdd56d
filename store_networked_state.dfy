/** Pinning and unpinning one entity: the storable message of an entity, with its
    networked family and the buffered updates that belong to it, and the stamps and hub
    calls of `tryPin` and `tryUnpin`. */
module StoreNetworkedState {
  import opened NetworkingTypes
  import opened Seqs
  import opened ClientState

  /** `hasComponent(world, Networked, eid)` for an entity that exists. */
  function NetworkedIn(w: World): EntityId -> bool
  {
    (e: EntityId) => e in w && w[e].networked
  }

  /** The networked members of an entity's family (itself and its descendants, in the
      order `selfWithDescendants` lists them). */
  function NetworkedFamily(w: World, family: seq<EntityId>): (r: seq<EntityId>)
    ensures forall e :: e in r <==> e in family && e in w && w[e].networked
  {
    Filter(family, NetworkedIn(w))
  }

  function EntitiesOf(w: World, ids: seq<EntityId>): (r: seq<Entity>)
    requires forall e :: e in ids ==> e in w
    ensures |r| == |ids| && forall i :: 0 <= i < |ids| ==> r[i] == w[ids[i]]
  {
    seq(|ids|, i requires 0 <= i < |ids| => w[ids[i]])
  }

  /** The buffered updates whose network id starts with `nid` (a plain string prefix, so
      both the entity's own and its descendants' updates), bucket by bucket in the
      buckets' order. Cursor telemetry is not filtered out here. */
  function StoredUpdatesUnder(buckets: seq<(Nid, seq<Update>)>, nid: Nid): (r: seq<Update>)
    ensures forall u :: u in r <==>
      exists i :: 0 <= i < |buckets| && nid <= buckets[i].0 && u in buckets[i].1
    decreases |buckets|
  {
    if buckets == [] then []
    else
      var init, last := buckets[..|buckets| - 1], buckets[|buckets| - 1];
      var r := StoredUpdatesUnder(init, nid) + (if nid <= last.0 then last.1 else []);
      assert forall u :: u in r ==>
        exists i :: 0 <= i < |buckets| && nid <= buckets[i].0 && u in buckets[i].1 by {
        forall u | u in r
          ensures exists i :: 0 <= i < |buckets| && nid <= buckets[i].0 && u in buckets[i].1
        {
          if u !in StoredUpdatesUnder(init, nid) {
            assert nid <= buckets[|buckets| - 1].0 && u in buckets[|buckets| - 1].1;
          }
        }
      }
      assert forall i :: 0 <= i < |buckets| - 1 ==> buckets[i] == init[i];
      r
  }

  /** Collecting bucket by bucket: the updates under `nid` of two runs of buckets are
      those of the first run followed by those of the second. */
  lemma {:induction false} StoredUpdatesUnderAppend(a: seq<(Nid, seq<Update>)>, b: seq<(Nid, seq<Update>)>, nid: Nid)
    ensures StoredUpdatesUnder(a + b, nid) == StoredUpdatesUnder(a, nid) + StoredUpdatesUnder(b, nid)
    decreases |b|
  {
    if b == [] {
      assert a + b == a;
    } else {
      var init, last := b[..|b| - 1], b[|b| - 1];
      assert b == init + [last];
      assert (a + b)[..|a + b| - 1] == a + init;
      StoredUpdatesUnderAppend(a, init, nid);
    }
  }

  /** `storableMessageFor(world, eid)`: a version 1 message that creates the entity, then
      updates every networked member of its family, in family order, followed by every
      buffered update whose network id starts with the entity's, in bucket order. */
  function StorableMessage(w: World, eid: EntityId, family: seq<EntityId>, stored: seq<(Nid, seq<Update>)>): (r: Message)
    requires eid in w
    ensures r.version == 1 && r.deletes == [] && r.fromClientId == None
    ensures r.creates == [Create(w[eid].nid, w[eid].creator)]
    ensures forall u :: u in r.updates <==>
      || (exists e :: e in family && e in w && w[e].networked && u == UpdateFor(w[e]))
      || (exists i :: 0 <= i < |stored| && w[eid].nid <= stored[i].0 && u in stored[i].1)
    ensures var nodes := NetworkedFamily(w, family);
      && |r.updates| == |nodes| + |StoredUpdatesUnder(stored, w[eid].nid)|
      && (forall k :: 0 <= k < |nodes| ==> r.updates[k] == UpdateFor(w[nodes[k]]))
      && r.updates[|nodes|..] == StoredUpdatesUnder(stored, w[eid].nid)
  {
    var nodes := NetworkedFamily(w, family);
    var m := MessageForStorage([w[eid]], EntitiesOf(w, nodes), []);
    var r := m.(updates := m.updates + StoredUpdatesUnder(stored, w[eid].nid));
    assert forall u :: u in m.updates <==> exists e :: e in family && e in w && w[e].networked && u == UpdateFor(w[e]) by {
      forall u
        ensures u in m.updates <==> exists e :: e in family && e in w && w[e].networked && u == UpdateFor(w[e])
      {
        if u in m.updates {
          var k :| 0 <= k < |m.updates| && m.updates[k] == u;
          assert nodes[k] in nodes;
        }
        if exists e :: e in family && e in w && w[e].networked && u == UpdateFor(w[e]) {
          var e :| e in family && e in w && w[e].networked && u == UpdateFor(w[e]);
          var k :| 0 <= k < |nodes| && nodes[k] == e;
          assert m.updates[k] == u;
        }
      }
    }
    r
  }

  /** `storableMessageFor`, with the loop over the buffered updates. */
  method StorableMessageFor(c: Client, eid: EntityId, family: seq<EntityId>) returns (m: Message)
    requires eid in c.entities
    ensures m == StorableMessage(c.entities, eid, family, c.storedUpdates)
  {
    var nid := c.entities[eid].nid;
    var nodes := NetworkedFamily(c.entities, family);
    m := MessageForStorage([c.entities[eid]], EntitiesOf(c.entities, nodes), []);
    ghost var base := m;
    for b := 0 to |c.storedUpdates|
      invariant m == base.(updates := base.updates + StoredUpdatesUnder(c.storedUpdates[..b], nid))
    {
      assert c.storedUpdates[..b + 1][..b] == c.storedUpdates[..b];
      if nid <= c.storedUpdates[b].0 {
        m := m.(updates := m.updates + c.storedUpdates[b].1);
      }
    }
    assert c.storedUpdates[..|c.storedUpdates|] == c.storedUpdates;
  }

  /** `tryPin`: refuses before the client is connected; otherwise takes ownership, records
      the backend as the entity's creator, and asks the hub to save the entity's storable
      message under its network id. */
  method TryPin(c: Client, eid: EntityId, family: seq<EntityId>) returns (r: Outcome)
    requires eid in c.entities
    modifies c`entities, c`sent
    ensures !Connected(c.localClientId) ==>
      r == NotConnected && c.entities == old(c.entities) && c.sent == old(c.sent)
    ensures Connected(c.localClientId) ==>
      && r == Done
      && c.entities == old(c.entities)[eid := TakeOwnership(old(c.entities)[eid], c.localClientId.value).(creator := Reticulum)]
      && c.sent == old(c.sent)
           + [HubSaveEntityState(old(c.entities)[eid].nid, StorableMessage(c.entities, eid, family, c.storedUpdates))]
      && StorableMessage(c.entities, eid, family, c.storedUpdates).creates == [Create(old(c.entities)[eid].nid, Reticulum)]
  {
    if !Connected(c.localClientId) {
      return NotConnected;
    }
    var me := c.localClientId.value;
    c.entities := c.entities[eid := TakeOwnership(c.entities[eid], me)];
    c.entities := c.entities[eid := c.entities[eid].(creator := Reticulum)];
    var nid := c.entities[eid].nid;
    var message := StorableMessageFor(c, eid, family);
    c.sent := c.sent + [HubSaveEntityState(nid, message)];
    r := Done;
  }

  /** `tryUnpin`: refuses before the client is connected; otherwise takes ownership,
      records the local client as the entity's creator, and asks the hub to delete the
      entity's saved state, passing the entity's storable message. */
  method TryUnpin(c: Client, eid: EntityId, family: seq<EntityId>) returns (r: Outcome)
    requires eid in c.entities
    modifies c`entities, c`sent
    ensures !Connected(c.localClientId) ==>
      r == NotConnected && c.entities == old(c.entities) && c.sent == old(c.sent)
    ensures Connected(c.localClientId) ==>
      var me := c.localClientId.value;
      && r == Done
      && c.entities == old(c.entities)[eid := TakeOwnership(old(c.entities)[eid], me).(creator := me)]
      && c.sent == old(c.sent)
           + [HubDeleteEntityState(old(c.entities)[eid].nid, StorableMessage(c.entities, eid, family, c.storedUpdates))]
      && StorableMessage(c.entities, eid, family, c.storedUpdates).creates == [Create(old(c.entities)[eid].nid, me)]
  {
    if !Connected(c.localClientId) {
      return NotConnected;
    }
    var me := c.localClientId.value;
    c.entities := c.entities[eid := TakeOwnership(c.entities[eid], me)];
    c.entities := c.entities[eid := c.entities[eid].(creator := me)];
    var message := StorableMessageFor(c, eid, family);
    var nid := c.entities[eid].nid;
    c.sent := c.sent + [HubDeleteEntityState(nid, message)];
    r := Done;
  }
}
