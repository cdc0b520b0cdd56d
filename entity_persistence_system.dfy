/** The per-frame persistence system: owned entities released from a constraint are marked
    dirty, and every dirty owned entity is saved (when it has saved state) and cleaned. */
module EntityPersistenceSystem {
  import opened NetworkingTypes
  import opened ClientState
  import opened HubChannelUtils

  /** The first pass: an entity that left the `[Constraint, Owned]` query this frame, still
      exists, is still owned and no longer constrained gets `EntityStateDirty`. */
  function MarkReleased(w: World, exited: seq<EntityId>): (r: World)
    ensures r.Keys == w.Keys
    ensures forall eid :: eid in w ==>
      r[eid] == w[eid].(dirty := w[eid].dirty || (eid in exited && w[eid].owned && !w[eid].constraint))
  {
    map eid | eid in w ::
      if eid in exited && w[eid].owned && !w[eid].constraint then w[eid].(dirty := true) else w[eid]
  }

  /** The entities the `[EntityStateDirty, Owned]` query returns. */
  function DirtyOwned(w: World): (r: set<EntityId>)
    ensures forall eid :: eid in r <==> eid in w && w[eid].dirty && w[eid].owned
  {
    set eid | eid in w && w[eid].dirty && w[eid].owned
  }

  /** What the second pass does to one dirty owned entity: it is saved when it has saved
      state, and loses `EntityStateDirty` either way. */
  function Cleaned(e: Entity, me: ClientId): Entity
  {
    (if e.hasSavedState then SaveStamp(e, me) else e).(dirty := false)
  }

  /** The second pass over a world: every dirty owned entity cleaned, every other entity
      left as it is. Afterwards no owned entity is dirty, a dirty entity that is not owned
      keeps its flag, and nothing but the dirty flag, the owner and the creator changes: a
      saved entity is owned by the local client and, when network-instantiated, credited to
      the backend; an entity without saved state only loses its dirty flag. */
  function Sweep(w: World, me: ClientId): (r: World)
    ensures r.Keys == w.Keys
    ensures forall eid :: eid in r && r[eid].owned ==> !r[eid].dirty
    ensures forall eid :: eid in w && !(w[eid].dirty && w[eid].owned) ==> r[eid] == w[eid]
    ensures forall eid :: eid in w ==>
      && r[eid].nid == w[eid].nid && r[eid].owned == w[eid].owned && r[eid].networked == w[eid].networked
      && r[eid].constraint == w[eid].constraint && r[eid].hasSavedState == w[eid].hasSavedState
      && r[eid].networkInstantiated == w[eid].networkInstantiated
    ensures forall eid :: eid in w && w[eid].dirty && w[eid].owned && w[eid].hasSavedState ==>
      r[eid].owner == me && r[eid].creator == (if w[eid].networkInstantiated then Reticulum else w[eid].creator)
    ensures forall eid :: eid in w && w[eid].dirty && w[eid].owned && !w[eid].hasSavedState ==>
      r[eid] == w[eid].(dirty := false)
  {
    map eid | eid in w :: if w[eid].dirty && w[eid].owned then Cleaned(w[eid], me) else w[eid]
  }

  /** One run of the system while connected. */
  function Pass(w: World, exited: seq<EntityId>, me: ClientId): World
  {
    Sweep(MarkReleased(w, exited), me)
  }

  /** A second run in a frame where nothing left the constraint query changes nothing: one
      run leaves no owned entity dirty. */
  lemma PassIsStable(w: World, exited: seq<EntityId>, me: ClientId)
    ensures Pass(Pass(w, exited, me), [], me) == Pass(w, exited, me)
  {
    var once := Pass(w, exited, me);
    assert MarkReleased(once, []) == once;
    assert Sweep(once, me) == once;
  }

  /** An owned entity released from its constraint in this frame is cleaned in the same
      frame, and saved when it has saved state. */
  lemma ReleasedIsCleaned(w: World, exited: seq<EntityId>, me: ClientId, eid: EntityId)
    requires eid in w && eid in exited && w[eid].owned && !w[eid].constraint
    ensures eid in Pass(w, exited, me)
    ensures Pass(w, exited, me)[eid] == Cleaned(w[eid].(dirty := true), me)
  {
    var w1 := MarkReleased(w, exited);
    assert w1[eid] == w[eid].(dirty := true);
  }

  /** The save records pushed for the entities `ids`, each built from the entity as
      `saveEntityState` stamps it. */
  function SavesOf(w: World, me: ClientId, ids: seq<EntityId>): (r: seq<ChannelCall>)
    requires forall eid :: eid in ids ==> eid in w
    ensures |r| == |ids|
    ensures forall i :: 0 <= i < |ids| ==> r[i] == PushSave(SingleSavePayload(SaveStamp(w[ids[i]], me)))
  {
    seq(|ids|, i requires 0 <= i < |ids| => PushSave(SingleSavePayload(SaveStamp(w[ids[i]], me))))
  }

  lemma SavesOfSnoc(w: World, me: ClientId, ids: seq<EntityId>, eid: EntityId)
    requires forall e :: e in ids ==> e in w
    requires eid in w
    ensures SavesOf(w, me, ids + [eid]) == SavesOf(w, me, ids) + [PushSave(SingleSavePayload(SaveStamp(w[eid], me)))]
  {
  }

  /** The first pass, entity by entity over the exit query's result. */
  method MarkReleasedEntities(c: Client, exited: seq<EntityId>)
    modifies c`entities
    ensures c.entities == MarkReleased(old(c.entities), exited)
  {
    for i := 0 to |exited|
      invariant c.entities.Keys == old(c.entities).Keys
      invariant forall eid :: eid in old(c.entities) ==>
        c.entities[eid] == old(c.entities)[eid].(dirty := old(c.entities)[eid].dirty
          || (eid in exited[..i] && old(c.entities)[eid].owned && !old(c.entities)[eid].constraint))
    {
      var eid := exited[i];
      assert forall x :: x in exited[..i + 1] <==> x in exited[..i] || x == eid by {
        assert exited[..i + 1] == exited[..i] + [eid];
      }
      if eid in c.entities && c.entities[eid].owned && !c.entities[eid].constraint {
        c.entities := c.entities[eid := c.entities[eid].(dirty := true)];
      }
    }
    assert exited[..|exited|] == exited;
  }

  /** The second pass's work on one dirty owned entity: saved when it has saved state,
      then `EntityStateDirty` removed. Reports whether it was saved. */
  method CleanEntity(c: Client, me: ClientId, eid: EntityId) returns (isSaved: bool)
    requires eid in c.entities && Connected(c.localClientId) && c.localClientId.value == me
    modifies c`entities, c`sent
    ensures isSaved == old(c.entities)[eid].hasSavedState
    ensures c.entities == old(c.entities)[eid := Cleaned(old(c.entities)[eid], me)]
    ensures c.sent == old(c.sent)
      + (if isSaved then [PushSave(SingleSavePayload(SaveStamp(old(c.entities)[eid], me)))] else [])
  {
    isSaved := c.entities[eid].hasSavedState;
    if isSaved {
      var _ := SaveEntityState(c, eid);
    }
    c.entities := c.entities[eid := c.entities[eid].(dirty := false)];
  }

  /** The second pass, entity by entity over the dirty query's result (a set: the query's
      order is not modelled). Returns the entities it saved, in the order saved. */
  method SweepDirtyEntities(c: Client) returns (saved: seq<EntityId>)
    requires Connected(c.localClientId)
    modifies c`entities, c`sent
    ensures c.entities == Sweep(old(c.entities), c.localClientId.value)
    ensures forall i, j :: 0 <= i < j < |saved| ==> saved[i] != saved[j]
    ensures forall eid :: eid in saved <==> eid in DirtyOwned(old(c.entities)) && old(c.entities)[eid].hasSavedState
    ensures c.sent == old(c.sent) + SavesOf(old(c.entities), c.localClientId.value, saved)
  {
    var me := c.localClientId.value;
    ghost var w := c.entities;
    var dirty := DirtyOwned(c.entities);
    var todo := dirty;
    saved := [];
    while todo != {}
      invariant todo <= dirty
      invariant c.localClientId == Some(me)
      invariant c.entities.Keys == w.Keys
      invariant forall eid :: eid in w ==>
        c.entities[eid] == if eid in dirty && eid !in todo then Cleaned(w[eid], me) else w[eid]
      invariant forall eid :: eid in saved <==> eid in dirty && eid !in todo && w[eid].hasSavedState
      invariant forall i, j :: 0 <= i < j < |saved| ==> saved[i] != saved[j]
      invariant c.sent == old(c.sent) + SavesOf(w, me, saved)
      decreases todo
    {
      var eid :| eid in todo;
      assert c.entities[eid] == w[eid];
      var isSaved := CleanEntity(c, me, eid);
      if isSaved {
        SavesOfSnoc(w, me, saved, eid);
        saved := saved + [eid];
      }
      todo := todo - {eid};
    }
    assert c.entities == Sweep(w, me);
  }

  /** `entityPersistenceSystem`: does nothing before the client is connected; otherwise
      runs the two passes. Returns the entities it saved, each once, in the order saved:
      exactly the dirty owned entities with saved state after the first pass. */
  method RunEntityPersistenceSystem(c: Client, exited: seq<EntityId>) returns (saved: seq<EntityId>)
    modifies c`entities, c`sent
    ensures !Connected(c.localClientId) ==>
      saved == [] && c.entities == old(c.entities) && c.sent == old(c.sent)
    ensures Connected(c.localClientId) ==>
      var me := c.localClientId.value;
      var w1 := MarkReleased(old(c.entities), exited);
      && c.entities == Pass(old(c.entities), exited, me)
      && (forall i, j :: 0 <= i < j < |saved| ==> saved[i] != saved[j])
      && (forall eid :: eid in saved <==> eid in DirtyOwned(w1) && w1[eid].hasSavedState)
      && c.sent == old(c.sent) + SavesOf(w1, me, saved)
  {
    if !Connected(c.localClientId) {
      return [];
    }
    MarkReleasedEntities(c, exited);
    saved := SweepDirtyEntities(c);
  }
}
