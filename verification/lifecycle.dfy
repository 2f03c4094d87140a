/**
  The `CreateBuildingEntity` and `DestroyBuildingEntity` overrides. Both bypass
  the pending sets and the batch gate; they only fix where the create or delete
  request falls relative to the engine's own create or destroy.
 */
module Lifecycle {
  import opened Optional
  import opened Domain
  import opened Coordinator
  import opened LiveSets
  import opened Batch

  /** The state after a building was registered, and the live entity registered. */
  datatype Spawned = Spawned(state: State, entity: BuildingEntity)

  /** The engine's own create: instantiate the building and register it under its id. */
  function BaseCreateBuildingEntity(s: State, saveData: BuildingSaveData): (r: Spawned)
    ensures CloneBuilding(r.entity) == saveData
    ensures Overwrites(s.buildingEntities, r.state.buildingEntities, saveData.id, Some(r.entity))
    ensures r.state.log == s.log + [BaseCreated(saveData.id)]
    ensures Unchanged(s, r.state, {LiveBuildings, Log})
  {
    var e := SpawnBuilding(saveData);
    Spawned(s.(buildingEntities := s.buildingEntities[saveData.id := Some(e)],
               log := s.log + [BaseCreated(saveData.id)]), e)
  }

  /** The engine's own destroy: the id leaves the live building map. */
  function BaseDestroyBuildingEntity(s: State, id: string): (r: State)
    ensures r.buildingEntities.Keys == s.buildingEntities.Keys - {id}
    ensures forall k :: k in r.buildingEntities ==> r.buildingEntities[k] == s.buildingEntities[k]
    ensures r.log == s.log + [BaseDestroyed(id)]
    ensures Unchanged(s, r, {LiveBuildings, Log})
  {
    s.(buildingEntities := s.buildingEntities - {id}, log := s.log + [BaseDestroyed(id)])
  }

  /**
    A building created in play (not restored from a save) sends its create
    request first and is then registered; a restored one sends nothing. Neither
    looks at or touches the pending building saves.
   */
  function CreateBuildingEntity(s: State, saveData: BuildingSaveData, initialize: bool): (r: Spawned)
    ensures CloneBuilding(r.entity) == saveData
    ensures Overwrites(s.buildingEntities, r.state.buildingEntities, saveData.id, Some(r.entity))
    ensures !initialize ==> r.state.log == s.log + [Sent(CreateBuilding(s.mapName, saveData)), BaseCreated(saveData.id)]
    ensures initialize ==> r.state.log == s.log + [BaseCreated(saveData.id)]
    ensures Unchanged(s, r.state, {LiveBuildings, Log})
    ensures WellKeyed(s.buildingEntities) ==> WellKeyed(r.state.buildingEntities)
  {
    var sent := if !initialize then s.(log := s.log + [Sent(CreateBuilding(s.mapName, saveData))]) else s;
    BaseCreateBuildingEntity(sent, saveData)
  }

  /** The building leaves the live map first; the delete request is sent after. */
  function DestroyBuildingEntity(s: State, id: string): (r: State)
    ensures id !in r.buildingEntities
    ensures r.buildingEntities.Keys == s.buildingEntities.Keys - {id}
    ensures forall k :: k in r.buildingEntities ==> r.buildingEntities[k] == s.buildingEntities[k]
    ensures r.log == s.log + [BaseDestroyed(id), Sent(DeleteBuilding(s.mapName, id))]
    ensures Unchanged(s, r, {LiveBuildings, Log})
    ensures WellKeyed(s.buildingEntities) ==> WellKeyed(r.buildingEntities)
  {
    var removed := BaseDestroyBuildingEntity(s, id);
    removed.(log := removed.log + [Sent(DeleteBuilding(s.mapName, id))])
  }

  /** Every live building is registered under its own id. */
  predicate WellKeyed(m: map<string, Option<BuildingEntity>>)
  {
    forall k :: k in m && m[k].Some? ==> m[k].value.id == k
  }

  /**
    With every live building keyed by its own id, a building batch over a map
    that no longer holds `id` sends no update for `id`.
   */
  lemma GoneBuildingNotInBatch(d: State, id: string, order: seq<string>)
    requires WellKeyed(d.buildingEntities) && id !in d.buildingEntities
    requires Enumerates(order, d.buildingEntities.Keys)
    ensures var b := SaveBuildingsRoutine(d, order).state;
      d.log <= b.log && Dispatched(d, b, BuildingKey(id)) == 0
  {
    var b := SaveBuildingsRoutine(d, order).state;
    if d.savingBuildings == {} {
      SaveBuildingsDispatch(d, order);
      assert id !in LiveIds(d.buildingEntities, BuildingEntityId);
    } else {
      DispatchedAppend(d, b, [], BuildingKey(id));
    }
  }

  /**
    Because the destroy removes the building before anything else can run, the
    building batch that runs right after it sends no update for the destroyed id.
    `Traces.DestroyedBuildingNotInAnyLaterBatch` extends this to any batch
    started later, so long as the id is not created again in between.
   */
  lemma DestroyedBuildingNotInLaterBatch(s: State, id: string, order: seq<string>)
    requires WellKeyed(s.buildingEntities)
    requires Enumerates(order, DestroyBuildingEntity(s, id).buildingEntities.Keys)
    ensures var d := DestroyBuildingEntity(s, id);
      var b := SaveBuildingsRoutine(d, order).state;
      d.log <= b.log && Dispatched(d, b, BuildingKey(id)) == 0
  {
    GoneBuildingNotInBatch(DestroyBuildingEntity(s, id), id, order);
  }
}
