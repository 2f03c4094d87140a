/**
  `SaveCharacterRoutine` and `SaveBuildingRoutine`, each split at its await into
  a begin step and a complete step. A save whose id is already being saved is
  dropped: the newer snapshot is discarded, not queued.
 */
module Saves {
  import opened Optional
  import opened Domain
  import opened Coordinator

  /**
    Begin saving a character snapshot. A null snapshot is ignored. `userId` is
    passed by the batch saver but the routine never reads it.
   */
  function SaveCharacterBegin(s: State, data: Option<CharacterData>, userId: string): (r: State)
    ensures data.None? ==> r == s
    ensures data.Some? && data.value.id in s.savingCharacters ==> r == s
    ensures data.Some? && data.value.id !in s.savingCharacters ==>
      && r.savingCharacters == s.savingCharacters + {data.value.id}
      && r.log == s.log + [Sent(UpdateCharacter(data.value))]
      && Unchanged(s, r, {SavingCharacters, Log})
  {
    match data
    case None => s
    case Some(d) =>
      if d.id !in s.savingCharacters then
        s.(savingCharacters := s.savingCharacters + {d.id},
           log := s.log + [Sent(UpdateCharacter(d))])
      else
        s
  }

  /** The update was acknowledged: release the character id. */
  function SaveCharacterComplete(s: State, data: CharacterData): (r: State)
    ensures data.id !in r.savingCharacters
    ensures r.savingCharacters == s.savingCharacters - {data.id}
    ensures Unchanged(s, r, {SavingCharacters})
  {
    s.(savingCharacters := s.savingCharacters - {data.id})
  }

  /** Begin saving a building snapshot under the current scene's name. */
  function SaveBuildingBegin(s: State, data: BuildingSaveData): (r: State)
    ensures data.id in s.savingBuildings ==> r == s
    ensures data.id !in s.savingBuildings ==>
      && r.savingBuildings == s.savingBuildings + {data.id}
      && r.log == s.log + [Sent(UpdateBuilding(s.mapName, data))]
      && Unchanged(s, r, {SavingBuildings, Log})
  {
    if data.id !in s.savingBuildings then
      s.(savingBuildings := s.savingBuildings + {data.id},
         log := s.log + [Sent(UpdateBuilding(s.mapName, data))])
    else
      s
  }

  /** The update was acknowledged: release the building id. */
  function SaveBuildingComplete(s: State, data: BuildingSaveData): (r: State)
    ensures data.id !in r.savingBuildings
    ensures r.savingBuildings == s.savingBuildings - {data.id}
    ensures Unchanged(s, r, {SavingBuildings})
  {
    s.(savingBuildings := s.savingBuildings - {data.id})
  }

  /**
    While a character save is in flight a second save of the same id, with any
    snapshot, sends nothing; once the first completes, the same id is accepted
    again and sends a second update, carrying the newer snapshot.
   */
  lemma CharacterSaveAcceptedAgainAfterCompletion(s: State, first: CharacterData, second: CharacterData, userId: string)
    requires first.id !in s.savingCharacters
    requires second.id == first.id
    ensures var a := SaveCharacterBegin(s, Some(first), userId);
      var dropped := SaveCharacterBegin(a, Some(second), userId);
      var r := SaveCharacterBegin(SaveCharacterComplete(dropped, first), Some(second), userId);
      && s.log <= r.log
      && Dispatched(s, r, CharacterKey(first.id)) == 2
      && r.log == s.log + [Sent(UpdateCharacter(first)), Sent(UpdateCharacter(second))]
      && dropped == a
  {
    var r := SaveCharacterBegin(SaveCharacterComplete(SaveCharacterBegin(s, Some(first), userId), first), Some(second), userId);
    DispatchedAppend(s, r, [Sent(UpdateCharacter(first)), Sent(UpdateCharacter(second))], CharacterKey(first.id));
    assert [Sent(UpdateCharacter(first)), Sent(UpdateCharacter(second))][..1] == [Sent(UpdateCharacter(first))];
  }

  /**
    While a building save is in flight a second save of the same id sends
    nothing; once the first completes, the same id is accepted again.
   */
  lemma BuildingSaveAcceptedAgainAfterCompletion(s: State, first: BuildingSaveData, second: BuildingSaveData)
    requires first.id !in s.savingBuildings
    requires second.id == first.id
    ensures var a := SaveBuildingBegin(s, first);
      var dropped := SaveBuildingBegin(a, second);
      var r := SaveBuildingBegin(SaveBuildingComplete(dropped, first), second);
      && s.log <= r.log
      && Dispatched(s, r, BuildingKey(first.id)) == 2
      && r.log == s.log + [Sent(UpdateBuilding(s.mapName, first)), Sent(UpdateBuilding(s.mapName, second))]
      && dropped == a
  {
    var tail := [Sent(UpdateBuilding(s.mapName, first)), Sent(UpdateBuilding(s.mapName, second))];
    var r := SaveBuildingBegin(SaveBuildingComplete(SaveBuildingBegin(s, first), first), second);
    DispatchedAppend(s, r, tail, BuildingKey(first.id));
    assert tail[..1] == [Sent(UpdateBuilding(s.mapName, first))];
  }
}
