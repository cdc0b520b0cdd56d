/** The save and delete records pushed to the hub channel for one entity or a whole
    hierarchy, the merge of buffered network updates into a hierarchy save, and the
    reattribution of listed entity states to the backend. */
module HubChannelUtils {
  import opened NetworkingTypes
  import opened Seqs
  import opened ClientState

  // ---- One entity ----

  /** `createSaveEntityStatePayload`: the record that saves entity `e` under hierarchy
      root `rootNid`. Only the root itself is created; every entity is updated. */
  function SavePayloadFor(e: Entity, rootNid: Nid): (p: SavePayload)
    ensures p.rootNid == rootNid && p.nid == e.nid
    ensures p.message.version == 1 && p.message.deletes == []
    ensures p.message.creates == (if e.nid == rootNid then [CreateFor(e)] else [])
    ensures p.message.updates == [UpdateFor(e)]
  {
    SavePayload(rootNid, e.nid, MessageForStorage(if e.nid == rootNid then [e] else [], [e], []))
  }

  /** The delete record for entity `e`, as built by `deleteEntityState` and for each
      descendant by `deleteEntityStateHierarchy`. */
  function DeletePayloadFor(e: Entity): (p: DeletePayload)
    ensures p.nid == e.nid && p.message.version == 1
    ensures p.message.creates == [CreateFor(e)] && p.message.updates == [UpdateFor(e)]
    ensures p.message.deletes == []
  {
    DeletePayload(e.nid, MessageForStorage([e], [e], []))
  }

  // ---- Root network id ----

  /** `nid.split(".")[0]`: the text of `nid` before its first ".". */
  function RootNidOf(nid: Nid): (r: Nid)
    ensures r <= nid && '.' !in r
    ensures |r| < |nid| ==> nid[|r|] == '.'
    decreases |nid|
  {
    if nid == [] || nid[0] == '.' then []
    else [nid[0]] + RootNidOf(nid[1..])
  }

  /** The three properties of RootNidOf determine it: any prefix without "." that is
      followed by "." or by the end of `nid` is the root network id. */
  lemma RootNidOfUnique(nid: Nid, p: Nid)
    requires p <= nid && '.' !in p
    requires |p| < |nid| ==> nid[|p|] == '.'
    ensures RootNidOf(nid) == p
  {
    var r := RootNidOf(nid);
    if |r| < |p| {
      assert false;
    } else if |p| < |r| {
      assert false;
    }
  }

  /** A network id is its own root exactly when it contains no ".". */
  lemma RootNidOfIsSelf(nid: Nid)
    ensures RootNidOf(nid) == nid <==> '.' !in nid
  {
    if '.' !in nid {
      RootNidOfUnique(nid, nid);
    }
  }

  /** A descendant's network id `<root>.<suffix>` yields its root's id. */
  lemma RootNidOfDescendant(root: Nid, suffix: string)
    requires '.' !in root
    ensures RootNidOf(root + "." + suffix) == root
  {
    var nid := root + "." + suffix;
    assert nid[..|root|] == root;
    assert nid[|root|] == '.';
    RootNidOfUnique(nid, root);
  }

  /** What `saveEntityState` does to the entity before building its record: take
      ownership, and stamp the backend as creator of network-instantiated entities. */
  function SaveStamp(e: Entity, me: ClientId): (r: Entity)
    ensures r.owned && r.owner == me
    ensures r.creator == (if e.networkInstantiated then Reticulum else e.creator)
    ensures r.nid == e.nid && r.networked == e.networked && r.constraint == e.constraint
    ensures r.dirty == e.dirty && r.networkInstantiated == e.networkInstantiated
    ensures r.hasSavedState == e.hasSavedState
  {
    var owned := TakeOwnership(e, me);
    if owned.networkInstantiated then owned.(creator := Reticulum) else owned
  }

  /** The record `saveEntityState` pushes for an entity in state `e`. */
  function SingleSavePayload(e: Entity): SavePayload
  {
    SavePayloadFor(e, RootNidOf(e.nid))
  }

  /** A single-entity save is filed under the text before the first "." of the entity's
      id, and it creates the entity exactly when that id has no "." (a hierarchy root). */
  lemma SingleSavePayloadCreatesOnlyRoots(e: Entity)
    ensures SingleSavePayload(e).rootNid == RootNidOf(e.nid)
    ensures SingleSavePayload(e).message.creates != [] <==> '.' !in e.nid
    ensures SingleSavePayload(e).message.updates == [UpdateFor(e)]
    ensures SingleSavePayload(e).message.deletes == []
  {
    RootNidOfIsSelf(e.nid);
  }

  /** `saveEntityState`: refuses before the client is connected; otherwise stamps the
      entity and pushes one `save_entity_state` record for it. */
  method SaveEntityState(c: Client, eid: EntityId) returns (r: Outcome)
    requires eid in c.entities
    modifies c`entities, c`sent
    ensures !Connected(c.localClientId) ==>
      r == NotConnected && c.entities == old(c.entities) && c.sent == old(c.sent)
    ensures Connected(c.localClientId) ==>
      && r == Done
      && c.entities == old(c.entities)[eid := SaveStamp(old(c.entities)[eid], c.localClientId.value)]
      && c.sent == old(c.sent) + [PushSave(SingleSavePayload(c.entities[eid]))]
  {
    if !Connected(c.localClientId) {
      return NotConnected;
    }
    var me := c.localClientId.value;
    c.entities := c.entities[eid := TakeOwnership(c.entities[eid], me)];
    if c.entities[eid].networkInstantiated {
      c.entities := c.entities[eid := c.entities[eid].(creator := Reticulum)];
    }
    var nid := c.entities[eid].nid;
    var payload := SavePayloadFor(c.entities[eid], RootNidOf(nid));
    c.sent := c.sent + [PushSave(payload)];
    r := Done;
  }

  /** `deleteEntityState`: refuses before the client is connected; otherwise takes
      ownership, stamps the local client as creator of network-instantiated entities,
      and pushes one `delete_entity_state` record. */
  method DeleteEntityState(c: Client, eid: EntityId) returns (r: Outcome)
    requires eid in c.entities
    modifies c`entities, c`sent
    ensures !Connected(c.localClientId) ==>
      r == NotConnected && c.entities == old(c.entities) && c.sent == old(c.sent)
    ensures Connected(c.localClientId) ==>
      var me := c.localClientId.value;
      var owned := TakeOwnership(old(c.entities)[eid], me);
      && r == Done
      && c.entities == old(c.entities)[eid := if owned.networkInstantiated then owned.(creator := me) else owned]
      && c.sent == old(c.sent) + [PushDelete(DeletePayloadFor(c.entities[eid]))]
  {
    if !Connected(c.localClientId) {
      return NotConnected;
    }
    var me := c.localClientId.value;
    c.entities := c.entities[eid := TakeOwnership(c.entities[eid], me)];
    if c.entities[eid].networkInstantiated {
      c.entities := c.entities[eid := c.entities[eid].(creator := me)];
    }
    var payload := DeletePayload(c.entities[eid].nid, MessageForStorage([c.entities[eid]], [c.entities[eid]], []));
    c.sent := c.sent + [PushDelete(payload)];
    r := Done;
  }

  // ---- Traversing a hierarchy ----

  /** The traversal callback acts on object `o` when it has an entity (`o.eid` is
      truthy, so not 0) that exists and is networked. */
  predicate Visits(w: World, o: EntityId)
  {
    o != 0 && o in w && w[o].networked
  }

  function VisitsIn(w: World): EntityId -> bool
  {
    (o: EntityId) => Visits(w, o)
  }

  /** The networked entities of a traversal, in traversal order. */
  function NetworkedNodes(w: World, objs: seq<EntityId>): (r: seq<EntityId>)
    ensures forall o :: o in r <==> o in objs && Visits(w, o)
  {
    Filter(objs, VisitsIn(w))
  }

  lemma NetworkedNodesSnoc(w: World, objs: seq<EntityId>, o: EntityId)
    ensures NetworkedNodes(w, objs + [o]) == NetworkedNodes(w, objs) + (if Visits(w, o) then [o] else [])
  {
    FilterSnoc(objs, o, VisitsIn(w));
  }

  function DescendantsIn(w: World, root: EntityId): EntityId -> bool
  {
    (o: EntityId) => o != root && Visits(w, o)
  }

  /** The networked entities of a traversal other than its root, in traversal order. */
  function DescendantNodes(w: World, root: EntityId, objs: seq<EntityId>): (r: seq<EntityId>)
    ensures forall o :: o in r <==> o in objs && o != root && Visits(w, o)
  {
    Filter(objs, DescendantsIn(w, root))
  }

  lemma DescendantNodesSnoc(w: World, root: EntityId, objs: seq<EntityId>, o: EntityId)
    ensures DescendantNodes(w, root, objs + [o])
         == DescendantNodes(w, root, objs) + (if o != root && Visits(w, o) then [o] else [])
  {
    FilterSnoc(objs, o, DescendantsIn(w, root));
  }

  /** The world after the local client took ownership of each of `nodes`. */
  function OwnAll(w: World, me: ClientId, nodes: seq<EntityId>): World
  {
    map e | e in w :: if e in nodes then TakeOwnership(w[e], me) else w[e]
  }

  /** Taking ownership of one more node; taking it twice is the same as once. */
  lemma OwnAllSnoc(w: World, me: ClientId, nodes: seq<EntityId>, o: EntityId)
    requires o in w
    ensures OwnAll(w, me, nodes + [o]) == OwnAll(w, me, nodes)[o := TakeOwnership(OwnAll(w, me, nodes)[o], me)]
  {
    var lhs := OwnAll(w, me, nodes + [o]);
    var rhs := OwnAll(w, me, nodes)[o := TakeOwnership(OwnAll(w, me, nodes)[o], me)];
    assert lhs.Keys == rhs.Keys;
    forall e | e in lhs
      ensures lhs[e] == rhs[e]
    {
    }
  }

  // ---- Saving a hierarchy ----

  /** The records of the traversal pass of `createSaveEntityStatePayloadsForEntityHierarchy`:
      one per networked node, built after ownership of that node was taken. */
  function BaseSavePayloads(w: World, me: ClientId, rootNid: Nid, objs: seq<EntityId>): seq<SavePayload>
    decreases |objs|
  {
    if objs == [] then []
    else
      var o := objs[|objs| - 1];
      BaseSavePayloads(w, me, rootNid, objs[..|objs| - 1])
        + (if Visits(w, o) then [SavePayloadFor(TakeOwnership(w[o], me), rootNid)] else [])
  }

  /** Exactly one record per networked node of the traversal, in traversal order, each
      filed under the hierarchy root and describing its node as owned by the local client. */
  lemma {:induction false} BaseSavePayloadsOnePerNode(w: World, me: ClientId, rootNid: Nid, objs: seq<EntityId>)
    ensures |BaseSavePayloads(w, me, rootNid, objs)| == |NetworkedNodes(w, objs)|
    ensures forall k :: 0 <= k < |NetworkedNodes(w, objs)| ==>
      NetworkedNodes(w, objs)[k] in w &&
      BaseSavePayloads(w, me, rootNid, objs)[k]
        == SavePayloadFor(TakeOwnership(w[NetworkedNodes(w, objs)[k]], me), rootNid)
    decreases |objs|
  {
    var nodes := NetworkedNodes(w, objs);
    forall k | 0 <= k < |nodes|
      ensures nodes[k] in w
    {
      assert nodes[k] in nodes;
    }
    if objs != [] {
      var init, o := objs[..|objs| - 1], objs[|objs| - 1];
      assert objs == init + [o];
      NetworkedNodesSnoc(w, init, o);
      BaseSavePayloadsOnePerNode(w, me, rootNid, init);
    }
  }

  /** A buffered update joins a hierarchy save when its id starts with the root's id
      (a plain string prefix) and it is not cursor telemetry. */
  predicate AdmitsStoredUpdate(rootNid: Nid, u: Update)
  {
    rootNid <= u.nid && !IsCursorBufferUpdate(u)
  }

  function AdmittedBy(rootNid: Nid): Update -> bool
  {
    (u: Update) => AdmitsStoredUpdate(rootNid, u)
  }

  /** `payloads.find(p => p.nid === nid)`: the index of the first record for `nid`. */
  function FindPayload(ps: seq<SavePayload>, nid: Nid): (r: Option<nat>)
    ensures r.Some? ==> r.value < |ps| && ps[r.value].nid == nid
    ensures forall j :: 0 <= j < |ps| && (r.None? || j < r.value) ==> ps[j].nid != nid
    decreases |ps|
  {
    if ps == [] then None
    else if ps[0].nid == nid then Some(0)
    else match FindPayload(ps[1..], nid)
      case None => None
      case Some(k) => Some(k + 1)
  }

  /** The first record for `nid` is found at its index. */
  lemma {:induction false} FindPayloadAt(ps: seq<SavePayload>, nid: Nid, k: nat)
    requires k < |ps| && ps[k].nid == nid
    requires forall j :: 0 <= j < k ==> ps[j].nid != nid
    ensures FindPayload(ps, nid) == Some(k)
    decreases |ps|
  {
    if k > 0 {
      FindPayloadAt(ps[1..], nid, k - 1);
    }
  }

  function WithUpdate(p: SavePayload, u: Update): SavePayload
  {
    p.(message := p.message.(updates := p.message.updates + [u]))
  }

  /** The record created for a buffered update that no record covers yet. */
  function FreshStoredUpdatePayload(rootNid: Nid, nid: Nid): SavePayload
  {
    SavePayload(rootNid, nid, Message(1, [], [], [], None))
  }

  /** Find-or-create for one buffered update: an admitted update is appended to the first
      record for its id, which is created at the end (filed under the root) when there is
      none; every other record stays as it was. Other updates change nothing. */
  function MergeStoredUpdate(ps: seq<SavePayload>, rootNid: Nid, u: Update): (r: seq<SavePayload>)
    ensures !AdmitsStoredUpdate(rootNid, u) ==> r == ps
    ensures AdmitsStoredUpdate(rootNid, u) ==>
      && FindPayload(r, u.nid).Some?
      && var k := FindPayload(r, u.nid).value;
      && (k < |ps| <==> FindPayload(ps, u.nid).Some?)
      && |r| == (if k < |ps| then |ps| else |ps| + 1)
      && r[k] == WithUpdate(if k < |ps| then ps[k] else FreshStoredUpdatePayload(rootNid, u.nid), u)
      && forall j :: 0 <= j < |ps| && j != k ==> r[j] == ps[j]
  {
    if !AdmitsStoredUpdate(rootNid, u) then ps
    else match FindPayload(ps, u.nid)
      case Some(k) =>
        var r := ps[k := WithUpdate(ps[k], u)];
        FindPayloadAt(r, u.nid, k);
        r
      case None =>
        var r := ps + [WithUpdate(FreshStoredUpdatePayload(rootNid, u.nid), u)];
        FindPayloadAt(r, u.nid, |ps|);
        r
  }

  /** The merge pass over buffered updates, in order. */
  function MergeStoredUpdates(ps: seq<SavePayload>, rootNid: Nid, us: seq<Update>): seq<SavePayload>
    decreases |us|
  {
    if us == [] then ps
    else MergeStoredUpdate(MergeStoredUpdates(ps, rootNid, us[..|us| - 1]), rootNid, us[|us| - 1])
  }

  /** `storedUpdates.forEach(updates => updates.forEach(...))`: all buffered updates, bucket by bucket. */
  function AllStoredUpdates(buckets: seq<(Nid, seq<Update>)>): seq<Update>
    decreases |buckets|
  {
    if buckets == [] then []
    else AllStoredUpdates(buckets[..|buckets| - 1]) + buckets[|buckets| - 1].1
  }

  /** `q` is record `p` with possibly more updates appended. */
  predicate Extends(q: SavePayload, p: SavePayload)
  {
    && q.rootNid == p.rootNid && q.nid == p.nid
    && q.message.version == p.message.version
    && q.message.creates == p.message.creates
    && q.message.deletes == p.message.deletes
    && q.message.fromClientId == p.message.fromClientId
    && p.message.updates <= q.message.updates
  }

  /** The merge never removes or reorders records: each earlier record keeps its identity and
      its contents, gaining only updates at its end, and every record it adds is filed under
      the root with no creates and no deletes. */
  lemma {:induction false} MergeKeepsEarlierPayloads(ps: seq<SavePayload>, rootNid: Nid, us: seq<Update>)
    ensures |ps| <= |MergeStoredUpdates(ps, rootNid, us)|
    ensures forall i :: 0 <= i < |ps| ==> Extends(MergeStoredUpdates(ps, rootNid, us)[i], ps[i])
    ensures forall i :: |ps| <= i < |MergeStoredUpdates(ps, rootNid, us)| ==>
      var p := MergeStoredUpdates(ps, rootNid, us)[i];
      p.rootNid == rootNid && p.message.version == 1 && p.message.creates == [] && p.message.deletes == []
    decreases |us|
  {
    if us != [] {
      var prev := MergeStoredUpdates(ps, rootNid, us[..|us| - 1]);
      MergeKeepsEarlierPayloads(ps, rootNid, us[..|us| - 1]);
      var r := MergeStoredUpdates(ps, rootNid, us);
      assert r == MergeStoredUpdate(prev, rootNid, us[|us| - 1]);
      forall i | 0 <= i < |ps|
        ensures Extends(r[i], ps[i])
      {
        assert Extends(r[i], prev[i]);
      }
    }
  }

  /** Records added by the merge carry distinct ids, none of them the id of an earlier
      record, so repeated updates for one id accumulate in a single record. */
  lemma {:induction false} MergeAddsDistinctNids(ps: seq<SavePayload>, rootNid: Nid, us: seq<Update>)
    ensures forall i, j :: 0 <= i < j < |MergeStoredUpdates(ps, rootNid, us)| && |ps| <= j ==>
      MergeStoredUpdates(ps, rootNid, us)[i].nid != MergeStoredUpdates(ps, rootNid, us)[j].nid
    decreases |us|
  {
    if us != [] {
      var prev := MergeStoredUpdates(ps, rootNid, us[..|us| - 1]);
      var u := us[|us| - 1];
      MergeAddsDistinctNids(ps, rootNid, us[..|us| - 1]);
      MergeKeepsEarlierPayloads(ps, rootNid, us[..|us| - 1]);
      var r := MergeStoredUpdate(prev, rootNid, u);
      assert r == MergeStoredUpdates(ps, rootNid, us);
      if AdmitsStoredUpdate(rootNid, u) {
        var k := FindPayload(r, u.nid).value;
        forall i, j | 0 <= i < j < |r| && |ps| <= j
          ensures r[i].nid != r[j].nid
        {
          if j == |prev| {
            assert k == |prev|;
          } else {
            assert r[i].nid == prev[i].nid && r[j].nid == prev[j].nid;
          }
        }
      }
    }
  }

  /** Updates the merge does not admit make no difference: merging all of them is merging
      only the admitted ones. */
  lemma {:induction false} MergeIgnoresUnadmitted(ps: seq<SavePayload>, rootNid: Nid, us: seq<Update>)
    ensures MergeStoredUpdates(ps, rootNid, us) == MergeStoredUpdates(ps, rootNid, Filter(us, AdmittedBy(rootNid)))
    decreases |us|
  {
    if us != [] {
      var init, u := us[..|us| - 1], us[|us| - 1];
      assert us == init + [u];
      FilterSnoc(init, u, AdmittedBy(rootNid));
      MergeIgnoresUnadmitted(ps, rootNid, init);
      var kept := Filter(init, AdmittedBy(rootNid));
      if AdmitsStoredUpdate(rootNid, u) {
        assert (kept + [u])[..|kept|] == kept;
      } else {
        assert kept + [] == kept;
      }
    }
  }

  /** The updates carried by a list of records, record after record. */
  function AllUpdates(ps: seq<SavePayload>): seq<Update>
    decreases |ps|
  {
    if ps == [] then []
    else AllUpdates(ps[..|ps| - 1]) + ps[|ps| - 1].message.updates
  }

  lemma AllUpdatesAppend(ps: seq<SavePayload>, p: SavePayload)
    ensures AllUpdates(ps + [p]) == AllUpdates(ps) + p.message.updates
  {
    assert (ps + [p])[..|ps|] == ps;
  }

  /** Replacing one record swaps its updates for the new record's, as a multiset. */
  lemma {:induction false} AllUpdatesReplace(ps: seq<SavePayload>, k: nat, p: SavePayload)
    requires k < |ps|
    ensures multiset(AllUpdates(ps[k := p])) + multiset(ps[k].message.updates)
         == multiset(AllUpdates(ps)) + multiset(p.message.updates)
    decreases |ps|
  {
    var init, last := ps[..|ps| - 1], ps[|ps| - 1];
    assert ps == init + [last];
    AllUpdatesAppend(init, last);
    if k == |ps| - 1 {
      assert ps[k := p] == init + [p];
      AllUpdatesAppend(init, p);
      SwapTail(AllUpdates(init), last.message.updates, p.message.updates);
    } else {
      var init' := init[k := p];
      assert ps[k := p] == init' + [last];
      AllUpdatesAppend(init', last);
      AllUpdatesReplace(init, k, p);
      AddToBoth(multiset(AllUpdates(init')), multiset(init[k].message.updates),
                multiset(AllUpdates(init)), multiset(p.message.updates), multiset(last.message.updates));
    }
  }

  /** Adding the same updates to both sides of a multiset equation. */
  lemma AddToBoth(x: multiset<Update>, a: multiset<Update>, y: multiset<Update>, b: multiset<Update>, c: multiset<Update>)
    requires x + a == y + b
    ensures (x + c) + a == (y + c) + b
  {
    assert (x + c) + a == (x + a) + c;
    assert (y + c) + b == (y + b) + c;
  }

  /** Swapping the tail of a run of updates, as a multiset. */
  lemma SwapTail(front: seq<Update>, was: seq<Update>, now: seq<Update>)
    ensures multiset(front + now) + multiset(was) == multiset(front + was) + multiset(now)
  {
  }

  /** Taking the same updates away from both sides of a multiset equation. */
  lemma Cancel(x: multiset<Update>, a: multiset<Update>, y: multiset<Update>, b: multiset<Update>)
    requires x + a == (y + a) + b
    ensures x == y + b
  {
    assert forall z :: x[z] == (y + b)[z] by {
      forall z
        ensures x[z] == (y + b)[z]
      {
        assert (x + a)[z] == ((y + a) + b)[z];
      }
    }
  }

  /** No buffered update is lost or duplicated: the updates of the merged records are those
      of the records before the merge together with the admitted buffered updates, each as
      often as it occurs there; in particular, one update is added per admitted one. */
  lemma {:induction false} MergeAddsExactlyAdmittedUpdates(ps: seq<SavePayload>, rootNid: Nid, us: seq<Update>)
    ensures multiset(AllUpdates(MergeStoredUpdates(ps, rootNid, us)))
         == multiset(AllUpdates(ps)) + multiset(Filter(us, AdmittedBy(rootNid)))
    ensures |AllUpdates(MergeStoredUpdates(ps, rootNid, us))|
         == |AllUpdates(ps)| + |Filter(us, AdmittedBy(rootNid))|
    decreases |us|
  {
    if us != [] {
      var init, u := us[..|us| - 1], us[|us| - 1];
      assert us == init + [u];
      FilterSnoc(init, u, AdmittedBy(rootNid));
      MergeAddsExactlyAdmittedUpdates(ps, rootNid, init);
      var prev := MergeStoredUpdates(ps, rootNid, init);
      if AdmitsStoredUpdate(rootNid, u) {
        var grown := MergeStoredUpdate(prev, rootNid, u);
        assert multiset(AllUpdates(grown)) == multiset(AllUpdates(prev)) + multiset{u} by {
          match FindPayload(prev, u.nid)
          case Some(k) =>
            var p := WithUpdate(prev[k], u);
            AllUpdatesReplace(prev, k, p);
            Cancel(multiset(AllUpdates(grown)), multiset(prev[k].message.updates),
                   multiset(AllUpdates(prev)), multiset{u});
          case None =>
            AllUpdatesAppend(prev, WithUpdate(FreshStoredUpdatePayload(rootNid, u.nid), u));
        }
      }
    }
    var merged := AllUpdates(MergeStoredUpdates(ps, rootNid, us));
    assert |multiset(merged)| == |merged|;
  }

  /** The value of `createSaveEntityStatePayloadsForEntityHierarchy`, from the world as it
      was on entry: the traversal records, then the merged buffered updates. Every record is
      filed under the root's id; the first ones are the networked nodes in traversal order;
      the records the merge adds have ids distinct from all before them. */
  function HierarchySavePayloads(w: World, me: ClientId, root: EntityId, objs: seq<EntityId>,
                                 stored: seq<(Nid, seq<Update>)>): (r: seq<SavePayload>)
    requires root in w
    ensures var w1 := w[root := w[root].(creator := Reticulum)];
      var nodes := NetworkedNodes(w1, objs);
      && |nodes| <= |r|
      && (forall k :: 0 <= k < |nodes| ==>
            nodes[k] in w1 && r[k].nid == w1[nodes[k]].nid
            && r[k].message.creates == (if r[k].nid == w[root].nid then [CreateFor(TakeOwnership(w1[nodes[k]], me))] else []))
      && (forall p :: p in r ==> p.rootNid == w[root].nid && p.message.deletes == [])
      && (forall i, j :: 0 <= i < j < |r| && |nodes| <= j ==> r[i].nid != r[j].nid)
  {
    var rootNid := w[root].nid;
    var w1 := w[root := w[root].(creator := Reticulum)];
    var base := BaseSavePayloads(w1, me, rootNid, objs);
    var us := AllStoredUpdates(stored);
    BaseSavePayloadsOnePerNode(w1, me, rootNid, objs);
    MergeKeepsEarlierPayloads(base, rootNid, us);
    MergeAddsDistinctNids(base, rootNid, us);
    var r := MergeStoredUpdates(base, rootNid, us);
    assert forall p :: p in r ==> p.rootNid == rootNid && p.message.deletes == [] by {
      forall p | p in r
        ensures p.rootNid == rootNid && p.message.deletes == []
      {
        var i :| 0 <= i < |r| && r[i] == p;
        if i < |base| {
          assert Extends(r[i], base[i]);
        }
      }
    }
    r
  }

  /** The traversal pass of `createSaveEntityStatePayloadsForEntityHierarchy`: takes
      ownership of every networked node while building its save record. */
  method CollectHierarchySaves(c: Client, me: ClientId, rootNid: Nid, traversal: seq<EntityId>)
    returns (payloads: seq<SavePayload>)
    modifies c`entities
    ensures c.entities == OwnAll(old(c.entities), me, NetworkedNodes(old(c.entities), traversal))
    ensures payloads == BaseSavePayloads(old(c.entities), me, rootNid, traversal)
  {
    ghost var w1 := c.entities;
    payloads := [];
    for i := 0 to |traversal|
      invariant c.entities == OwnAll(w1, me, NetworkedNodes(w1, traversal[..i]))
      invariant payloads == BaseSavePayloads(w1, me, rootNid, traversal[..i])
    {
      var o := traversal[i];
      assert traversal[..i + 1] == traversal[..i] + [o];
      assert traversal[..i + 1][..i] == traversal[..i];
      NetworkedNodesSnoc(w1, traversal[..i], o);
      if o != 0 && o in c.entities && c.entities[o].networked {
        OwnAllSnoc(w1, me, NetworkedNodes(w1, traversal[..i]), o);
        c.entities := c.entities[o := TakeOwnership(c.entities[o], me)];
        payloads := payloads + [SavePayloadFor(c.entities[o], rootNid)];
      }
    }
    assert traversal[..|traversal|] == traversal;
  }

  /** The merge pass of `createSaveEntityStatePayloadsForEntityHierarchy`: every buffered
      update, bucket by bucket, is merged into the records by find-or-create. */
  method MergeBufferedUpdates(c: Client, rootNid: Nid, base: seq<SavePayload>)
    returns (payloads: seq<SavePayload>)
    ensures payloads == MergeStoredUpdates(base, rootNid, AllStoredUpdates(c.storedUpdates))
  {
    payloads := base;
    for b := 0 to |c.storedUpdates|
      invariant payloads == MergeStoredUpdates(base, rootNid, AllStoredUpdates(c.storedUpdates[..b]))
    {
      var updates := c.storedUpdates[b].1;
      ghost var before := AllStoredUpdates(c.storedUpdates[..b]);
      assert before + updates[..0] == before;
      for j := 0 to |updates|
        invariant payloads == MergeStoredUpdates(base, rootNid, before + updates[..j])
      {
        var update := updates[j];
        assert (before + updates[..j + 1])[..|before| + j] == before + updates[..j];
        assert (before + updates[..j + 1])[|before| + j] == update;
        if !(rootNid <= update.nid) {
          continue;
        }
        if IsCursorBufferUpdate(update) {
          continue;
        }
        var k;
        match FindPayload(payloads, update.nid) {
          case Some(found) =>
            k := found;
          case None =>
            payloads := payloads + [FreshStoredUpdatePayload(rootNid, update.nid)];
            k := |payloads| - 1;
        }
        payloads := payloads[k := WithUpdate(payloads[k], update)];
      }
      assert updates[..|updates|] == updates;
      assert c.storedUpdates[..b + 1][..b] == c.storedUpdates[..b];
    }
    assert c.storedUpdates[..|c.storedUpdates|] == c.storedUpdates;
  }

  /** `createSaveEntityStatePayloadsForEntityHierarchy`: stamps the backend as the root's
      creator, takes ownership of every networked node of the traversal while building one
      record for each, then merges the buffered updates that belong to the hierarchy. */
  method CreateSaveEntityStatePayloadsForEntityHierarchy(c: Client, root: EntityId, traversal: seq<EntityId>)
    returns (payloads: seq<SavePayload>)
    requires root in c.entities && Connected(c.localClientId)
    modifies c`entities
    ensures var w1 := old(c.entities)[root := old(c.entities)[root].(creator := Reticulum)];
      c.entities == OwnAll(w1, c.localClientId.value, NetworkedNodes(w1, traversal))
    ensures payloads == HierarchySavePayloads(old(c.entities), c.localClientId.value, root, traversal, c.storedUpdates)
  {
    var me := c.localClientId.value;
    var rootNid := c.entities[root].nid;
    c.entities := c.entities[root := c.entities[root].(creator := Reticulum)];
    var base := CollectHierarchySaves(c, me, rootNid, traversal);
    payloads := MergeBufferedUpdates(c, rootNid, base);
  }

  function SavePushes(ps: seq<SavePayload>): (r: seq<ChannelCall>)
    ensures |r| == |ps| && forall i :: 0 <= i < |ps| ==> r[i] == PushSave(ps[i])
  {
    seq(|ps|, i requires 0 <= i < |ps| => PushSave(ps[i]))
  }

  /** `saveEntityStateHierarchy`: refuses before the client is connected; otherwise pushes
      one `save_entity_state` per hierarchy record, in order. */
  method SaveEntityStateHierarchy(c: Client, root: EntityId, traversal: seq<EntityId>) returns (r: Outcome)
    requires root in c.entities
    modifies c`entities, c`sent
    ensures !Connected(c.localClientId) ==>
      r == NotConnected && c.entities == old(c.entities) && c.sent == old(c.sent)
    ensures Connected(c.localClientId) ==>
      var w1 := old(c.entities)[root := old(c.entities)[root].(creator := Reticulum)];
      && r == Done
      && c.entities == OwnAll(w1, c.localClientId.value, NetworkedNodes(w1, traversal))
      && c.sent == old(c.sent)
           + SavePushes(HierarchySavePayloads(old(c.entities), c.localClientId.value, root, traversal, c.storedUpdates))
  {
    if !Connected(c.localClientId) {
      return NotConnected;
    }
    var payloads := CreateSaveEntityStatePayloadsForEntityHierarchy(c, root, traversal);
    c.sent := c.sent + SavePushes(payloads);
    r := Done;
  }

  // ---- Deleting a hierarchy ----

  /** The per-descendant delete records of `deleteEntityStateHierarchy`, each built after
      ownership of its node was taken. */
  function DescendantDeletes(w: World, me: ClientId, root: EntityId, objs: seq<EntityId>): seq<DeletePayload>
    decreases |objs|
  {
    if objs == [] then []
    else
      var o := objs[|objs| - 1];
      DescendantDeletes(w, me, root, objs[..|objs| - 1])
        + (if o != root && Visits(w, o) then [DeletePayloadFor(TakeOwnership(w[o], me))] else [])
  }

  /** One delete record per networked node other than the root, in traversal order. */
  lemma {:induction false} DescendantDeletesOnePerNode(w: World, me: ClientId, root: EntityId, objs: seq<EntityId>)
    ensures |DescendantDeletes(w, me, root, objs)| == |DescendantNodes(w, root, objs)|
    ensures forall k :: 0 <= k < |DescendantNodes(w, root, objs)| ==>
      DescendantNodes(w, root, objs)[k] in w &&
      DescendantDeletes(w, me, root, objs)[k] == DeletePayloadFor(TakeOwnership(w[DescendantNodes(w, root, objs)[k]], me))
    decreases |objs|
  {
    var nodes := DescendantNodes(w, root, objs);
    forall k | 0 <= k < |nodes|
      ensures nodes[k] in w
    {
      assert nodes[k] in nodes;
    }
    if objs != [] {
      var init, o := objs[..|objs| - 1], objs[|objs| - 1];
      assert objs == init + [o];
      DescendantNodesSnoc(w, root, init, o);
      DescendantDeletesOnePerNode(w, me, root, init);
    }
  }

  /** The calls of `deleteEntityStateHierarchy`, given the world after the root was taken
      over: one bulk `delete_entity_states_for_root_nid` for the root, then one
      `delete_entity_state` per networked descendant, the root never among them. */
  function DeleteHierarchyPushes(w1: World, me: ClientId, root: EntityId, objs: seq<EntityId>): (r: seq<ChannelCall>)
    requires root in w1
    ensures |r| == 1 + |DescendantNodes(w1, root, objs)|
    ensures r[0] == PushDeleteForRoot(DeletePayloadFor(w1[root]))
    ensures forall k :: 1 <= k < |r| ==>
      var n := DescendantNodes(w1, root, objs)[k - 1];
      n != root && n in w1 && Visits(w1, n) &&
      r[k] == PushDelete(DeletePayloadFor(TakeOwnership(w1[n], me)))
  {
    var ds := DescendantDeletes(w1, me, root, objs);
    DescendantDeletesOnePerNode(w1, me, root, objs);
    var nodes := DescendantNodes(w1, root, objs);
    assert forall k :: 0 <= k < |nodes| ==> nodes[k] in nodes;
    [PushDeleteForRoot(DeletePayloadFor(w1[root]))] + DeletePushes(ds)
  }

  function DeletePushes(ds: seq<DeletePayload>): (r: seq<ChannelCall>)
    ensures |r| == |ds| && forall i :: 0 <= i < |ds| ==> r[i] == PushDelete(ds[i])
  {
    seq(|ds|, i requires 0 <= i < |ds| => PushDelete(ds[i]))
  }

  /** The traversal pass of `deleteEntityStateHierarchy`: takes ownership of every
      networked node other than the root while building its delete record. */
  method CollectDescendantDeletes(c: Client, me: ClientId, root: EntityId, traversal: seq<EntityId>)
    returns (payloads: seq<DeletePayload>)
    modifies c`entities
    ensures c.entities == OwnAll(old(c.entities), me, DescendantNodes(old(c.entities), root, traversal))
    ensures payloads == DescendantDeletes(old(c.entities), me, root, traversal)
  {
    ghost var w1 := c.entities;
    payloads := [];
    for i := 0 to |traversal|
      invariant c.entities == OwnAll(w1, me, DescendantNodes(w1, root, traversal[..i]))
      invariant payloads == DescendantDeletes(w1, me, root, traversal[..i])
    {
      var o := traversal[i];
      assert traversal[..i + 1] == traversal[..i] + [o];
      assert traversal[..i + 1][..i] == traversal[..i];
      DescendantNodesSnoc(w1, root, traversal[..i], o);
      if o == root {
        continue;
      }
      if o != 0 && o in c.entities && c.entities[o].networked {
        OwnAllSnoc(w1, me, DescendantNodes(w1, root, traversal[..i]), o);
        c.entities := c.entities[o := TakeOwnership(c.entities[o], me)];
        payloads := payloads + [DeletePayload(c.entities[o].nid, MessageForStorage([c.entities[o]], [c.entities[o]], []))];
      }
    }
    assert traversal[..|traversal|] == traversal;
  }

  /** `deleteEntityStateHierarchy`: refuses before the client is connected; otherwise the
      local client takes the root over and becomes its creator, takes ownership of every
      networked descendant, and issues the bulk root delete and then the per-descendant deletes. */
  method DeleteEntityStateHierarchy(c: Client, root: EntityId, traversal: seq<EntityId>) returns (r: Outcome)
    requires root in c.entities
    modifies c`entities, c`sent
    ensures !Connected(c.localClientId) ==>
      r == NotConnected && c.entities == old(c.entities) && c.sent == old(c.sent)
    ensures Connected(c.localClientId) ==>
      var me := c.localClientId.value;
      var w1 := old(c.entities)[root := TakeOwnership(old(c.entities)[root], me).(creator := me)];
      && r == Done
      && c.entities == OwnAll(w1, me, DescendantNodes(w1, root, traversal))
      && c.sent == old(c.sent) + DeleteHierarchyPushes(w1, me, root, traversal)
  {
    if !Connected(c.localClientId) {
      return NotConnected;
    }
    var me := c.localClientId.value;
    c.entities := c.entities[root := TakeOwnership(c.entities[root], me).(creator := me)];
    ghost var w1 := c.entities;
    var payload := DeletePayload(c.entities[root].nid, MessageForStorage([c.entities[root]], [c.entities[root]], []));
    assert payload == DeletePayloadFor(w1[root]);
    var payloads := CollectDescendantDeletes(c, me, root, traversal);
    assert [PushDeleteForRoot(payload)] + DeletePushes(payloads) == DeleteHierarchyPushes(w1, me, root, traversal);
    c.sent := c.sent + ([PushDeleteForRoot(payload)] + DeletePushes(payloads));
    r := Done;
  }

  // ---- Listed entity states ----

  /** `listEntityStates`: issues one `list_entity_states` request. The reply is not
      modelled; its parsed entity states are what `ParseStorableMessages` and
      `FetchSavedEntityStates` take. */
  method ListEntityStates(c: Client)
    modifies c`sent
    ensures c.sent == old(c.sent) + [PushList]
  {
    c.sent := c.sent + [PushList];
  }

  /** `parseStorableMessages`: the message of every listed entity state, in list order,
      reattributed to the backend. */
  function ParseStorableMessages(list: seq<EntityState>): (r: seq<Message>)
    ensures |r| == |list|
    ensures forall i :: 0 <= i < |list| ==> r[i] == Reattributed(list[i].message)
    ensures forall i :: 0 <= i < |r| ==> AttributedToBackend(r[i])
  {
    seq(|list|, i requires 0 <= i < |list| => Reattributed(list[i].message))
  }

  /** The list as `parseStorableMessages` leaves it: it rewrites each message in place. */
  function ListAfterParse(list: seq<EntityState>): seq<EntityState>
  {
    seq(|list|, i requires 0 <= i < |list| => list[i].(message := Reattributed(list[i].message)))
  }

  /** Parsing a list a second time yields the same messages as the first time. */
  lemma ParseStorableMessagesTwice(list: seq<EntityState>)
    ensures ParseStorableMessages(ListAfterParse(list)) == ParseStorableMessages(list)
  {
    forall i | 0 <= i < |list|
      ensures Reattributed(Reattributed(list[i].message)) == Reattributed(list[i].message)
    {
      ReattributedIdempotent(list[i].message);
    }
  }
}
