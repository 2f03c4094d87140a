/**
  Any interleaving of the routines' steps. Because a routine's code between two
  awaits runs uninterrupted, an execution of the map server's database code is a
  sequence of the steps below, applied one after another.
 */
module Traces {
  import opened Optional
  import opened Domain
  import opened Coordinator
  import opened Loads
  import opened Saves
  import opened LiveSets
  import opened Batch
  import opened Lifecycle

  datatype Step =
    | LoadStorage(storageId: StorageId)
    | LoadStorageDone(storageId: StorageId, items: seq<CharacterItem>)
    | LoadParty(partyId: int)
    | LoadPartyDone(partyId: int, party: PartyData)
    | LoadGuild(guildId: int)
    | LoadGuildDone(guildId: int, guild: GuildData)
    | SaveCharacter(character: Option<CharacterData>, userId: string)
    | SaveCharacterDone(characterData: CharacterData)
    | SaveCharacters(characterOrder: seq<int>)
    | SaveBuilding(building: BuildingSaveData)
    | SaveBuildingDone(buildingData: BuildingSaveData)
    | SaveBuildings(buildingOrder: seq<string>)
    | Create(saveData: BuildingSaveData, initialize: bool)
    | Destroy(buildingId: string)
      /** The awaited call of the routine holding `key` threw: the rest of that routine never runs. */
    | RemoteFailure(key: Key)

  /** A batch step must enumerate the live dictionary it walks. */
  predicate ValidStep(s: State, st: Step)
  {
    match st
    case SaveCharacters(order) => Enumerates(order, s.playerCharacters.Keys)
    case SaveBuildings(order) => Enumerates(order, s.buildingEntities.Keys)
    case _ => true
  }

  function Apply(s: State, st: Step): (r: State)
    requires ValidStep(s, st)
    ensures s.log <= r.log
  {
    match st
    case LoadStorage(id) => LoadStorageBegin(s, id)
    case LoadStorageDone(id, items) => LoadStorageComplete(s, id, items)
    case LoadParty(id) => LoadPartyBegin(s, id)
    case LoadPartyDone(id, data) => LoadPartyComplete(s, id, data)
    case LoadGuild(id) => LoadGuildBegin(s, id)
    case LoadGuildDone(id, data) => LoadGuildComplete(s, id, data)
    case SaveCharacter(data, userId) => SaveCharacterBegin(s, data, userId)
    case SaveCharacterDone(data) => SaveCharacterComplete(s, data)
    case SaveCharacters(order) => SaveCharactersRoutine(s, order).state
    case SaveBuilding(data) => SaveBuildingBegin(s, data)
    case SaveBuildingDone(data) => SaveBuildingComplete(s, data)
    case SaveBuildings(order) => SaveBuildingsRoutine(s, order).state
    case Create(data, initialize) => CreateBuildingEntity(s, data, initialize).state
    case Destroy(id) => DestroyBuildingEntity(s, id)
    case RemoteFailure(_) => s
  }

  /** The step that removes `k` from its pending set: only the successful completion of its routine. */
  predicate Releases(st: Step, k: Key)
  {
    match st
    case LoadStorageDone(id, _) => k == StorageKey(id)
    case LoadPartyDone(id, _) => k == PartyKey(id)
    case LoadGuildDone(id, _) => k == GuildKey(id)
    case SaveCharacterDone(data) => k == CharacterKey(data.id)
    case SaveBuildingDone(data) => k == BuildingKey(data.id)
    case _ => false
  }

  predicate ValidRun(s: State, steps: seq<Step>)
    decreases |steps|
  {
    steps == [] || (ValidStep(s, steps[0]) && ValidRun(Apply(s, steps[0]), steps[1..]))
  }

  function Run(s: State, steps: seq<Step>): (r: State)
    requires ValidRun(s, steps)
    ensures s.log <= r.log
    decreases |steps|
  {
    if steps == [] then s else Run(Apply(s, steps[0]), steps[1..])
  }

  /** The single-step fact behind de-duplication, for a step that begins one routine. */
  ghost predicate GuardsKey(s: State, r: State, k: Key)
  {
    && s.log <= r.log
    && Dispatched(s, r, k) <= 1
    && (Pending(s, k) ==> Dispatched(s, r, k) == 0)
    && (Pending(s, k) || Dispatched(s, r, k) == 1 ==> Pending(r, k))
  }

  lemma SilentStep(s: State, r: State, k: Key)
    requires r.log == s.log
    requires Pending(s, k) ==> Pending(r, k)
    ensures GuardsKey(s, r, k)
  {
    DispatchedAppend(s, r, [], k);
  }

  lemma OneRequestStep(s: State, r: State, req: Request, k: Key)
    requires r.log == s.log + [Sent(req)]
    requires KeyOf(req) == Some(k) ==> !Pending(s, k) && Pending(r, k)
    requires Pending(s, k) ==> Pending(r, k)
    ensures GuardsKey(s, r, k)
  {
    DispatchedExtend(s, s, r, Sent(req), k);
    DispatchedAppend(s, s, [], k);
  }

  lemma UnkeyedEventsStep(s: State, r: State, tail: seq<Event>, k: Key)
    requires r.log == s.log + tail
    requires forall i :: 0 <= i < |tail| ==> !IsRequestFor(tail[i], k)
    requires Pending(s, k) ==> Pending(r, k)
    ensures GuardsKey(s, r, k)
  {
    DispatchedAppend(s, r, tail, k);
  }

  lemma LoadStepGuardsKey(s: State, st: Step, k: Key)
    requires st.LoadStorage? || st.LoadParty? || st.LoadGuild?
    ensures GuardsKey(s, Apply(s, st), k)
  {
    var r := Apply(s, st);
    if r == s {
      SilentStep(s, r, k);
    } else {
      match st
      case LoadStorage(id) =>
        OneRequestStep(s, r, ReadStorageItems(id.storageType, id.storageOwnerId), k);
      case LoadParty(id) =>
        OneRequestStep(s, r, ReadParty(id), k);
      case LoadGuild(id) =>
        OneRequestStep(s, r, ReadGuild(id), k);
    }
  }

  lemma SaveStepGuardsKey(s: State, st: Step, k: Key)
    requires st.SaveCharacter? || st.SaveBuilding?
    ensures GuardsKey(s, Apply(s, st), k)
  {
    var r := Apply(s, st);
    if r == s {
      SilentStep(s, r, k);
    } else {
      match st
      case SaveCharacter(data, _) =>
        OneRequestStep(s, r, UpdateCharacter(data.value), k);
      case SaveBuilding(data) =>
        OneRequestStep(s, r, UpdateBuilding(s.mapName, data), k);
    }
  }

  lemma CharacterBatchGuardsKey(s: State, order: seq<int>, k: Key)
    requires Enumerates(order, s.playerCharacters.Keys)
    ensures GuardsKey(s, SaveCharactersRoutine(s, order).state, k)
  {
    var r := SaveCharactersRoutine(s, order).state;
    if s.savingCharacters == {} {
      var ids := LiveIds(s.playerCharacters, CharacterEntityId);
      assert Unchanged(s, r, {SavingCharacters, Log});
      assert r.savingCharacters == ids;
      if !k.CharacterKey? {
        PendingFrame(s, r, {SavingCharacters, Log}, k);
      }
      assert k.CharacterKey? ==> !Pending(s, k) && (Pending(r, k) <==> k.characterId in ids);
      SaveCharactersDispatch(s, order);
    } else {
      SilentStep(s, r, k);
    }
  }

  lemma BuildingBatchGuardsKey(s: State, order: seq<string>, k: Key)
    requires Enumerates(order, s.buildingEntities.Keys)
    ensures GuardsKey(s, SaveBuildingsRoutine(s, order).state, k)
  {
    var r := SaveBuildingsRoutine(s, order).state;
    if s.savingBuildings == {} {
      var ids := LiveIds(s.buildingEntities, BuildingEntityId);
      assert Unchanged(s, r, {SavingBuildings, Log});
      assert r.savingBuildings == ids;
      if !k.BuildingKey? {
        PendingFrame(s, r, {SavingBuildings, Log}, k);
      }
      assert k.BuildingKey? ==> !Pending(s, k) && (Pending(r, k) <==> k.buildingId in ids);
      SaveBuildingsDispatch(s, order);
    } else {
      SilentStep(s, r, k);
    }
  }

  /** Creating a building sends no keyed request and releases nothing. */
  lemma CreateGuardsKey(s: State, data: BuildingSaveData, initialize: bool, k: Key)
    ensures GuardsKey(s, CreateBuildingEntity(s, data, initialize).state, k)
  {
    var r := CreateBuildingEntity(s, data, initialize).state;
    if initialize {
      UnkeyedEventsStep(s, r, [BaseCreated(data.id)], k);
    } else {
      UnkeyedEventsStep(s, r, [Sent(CreateBuilding(s.mapName, data)), BaseCreated(data.id)], k);
    }
  }

  /** Destroying a building sends no keyed request and releases nothing. */
  lemma DestroyGuardsKey(s: State, id: string, k: Key)
    ensures GuardsKey(s, DestroyBuildingEntity(s, id), k)
  {
    UnkeyedEventsStep(s, DestroyBuildingEntity(s, id), [BaseDestroyed(id), Sent(DeleteBuilding(s.mapName, id))], k);
  }

  /**
    No step sends more than one request for a key, none sends one while the key
    is pending, and only the key's own completion takes it out of the pending set.
   */
  lemma StepGuardsKey(s: State, st: Step, k: Key)
    requires ValidStep(s, st)
    requires !Releases(st, k)
    ensures GuardsKey(s, Apply(s, st), k)
  {
    match st
    case LoadStorage(_) => LoadStepGuardsKey(s, st, k);
    case LoadParty(_) => LoadStepGuardsKey(s, st, k);
    case LoadGuild(_) => LoadStepGuardsKey(s, st, k);
    case SaveCharacter(_, _) => SaveStepGuardsKey(s, st, k);
    case SaveBuilding(_) => SaveStepGuardsKey(s, st, k);
    case SaveCharacters(order) => CharacterBatchGuardsKey(s, order, k);
    case SaveBuildings(order) => BuildingBatchGuardsKey(s, order, k);
    case Create(data, initialize) => CreateGuardsKey(s, data, initialize, k);
    case Destroy(id) => DestroyGuardsKey(s, id, k);
    case _ => SilentStep(s, Apply(s, st), k);
  }

  /**
    De-duplication over every interleaving: until its routine completes, at most
    one request is sent for a key, none if the key was already pending, and the
    key stays pending once it is.
   */
  lemma {:induction false} AtMostOneRequestPerKey(s: State, steps: seq<Step>, k: Key)
    requires ValidRun(s, steps)
    requires forall i :: 0 <= i < |steps| ==> !Releases(steps[i], k)
    ensures var r := Run(s, steps);
      GuardsKey(s, r, k)
    decreases |steps|
  {
    if steps == [] {
      DispatchedAppend(s, s, [], k);
    } else {
      var mid := Apply(s, steps[0]);
      var r := Run(s, steps);
      StepGuardsKey(s, steps[0], k);
      assert forall i :: 0 <= i < |steps[1..]| ==> steps[1..][i] == steps[i + 1];
      AtMostOneRequestPerKey(mid, steps[1..], k);
      DispatchedSplit(s, mid, r, k);
    }
  }

  /** Over a run from `s` to `r`, exactly one request for `k` went out and `k` is still pending. */
  ghost predicate SentOnceThenStuck(s: State, r: State, k: Key)
  {
    s.log <= r.log && Dispatched(s, r, k) == 1 && Pending(r, k)
  }

  /**
    `LoadPartyRoutine` has no try/finally: a party load whose awaited call throws never
    reaches its `Remove`, so its id stays pending and every later load of it is
    silently dropped; the whole run sends the one request that failed.
   */
  lemma FailedLoadLocksKeyOut(s: State, id: int, steps: seq<Step>)
    requires id > 0 && id !in s.loadingPartyIds
    requires |steps| >= 2 && steps[0] == LoadParty(id) && steps[1] == RemoteFailure(PartyKey(id))
    requires ValidRun(s, steps)
    requires forall i :: 2 <= i < |steps| ==> !Releases(steps[i], PartyKey(id))
    ensures SentOnceThenStuck(s, Run(s, steps), PartyKey(id))
  {
    var k := PartyKey(id);
    var started := Apply(s, steps[0]);
    var later := steps[1..][1..];
    assert started == LoadPartyBegin(s, id);
    assert Dispatched(s, started, k) == 1;
    assert Apply(started, steps[1..][0]) == started;
    assert Run(s, steps) == Run(started, later);
    assert Pending(started, k);
    assert forall i :: 0 <= i < |later| ==> later[i] == steps[i + 2];
    AtMostOneRequestPerKey(started, later, k);
    DispatchedSplit(s, started, Run(s, steps), k);
  }

  /** Every live building is keyed by its own id and `id` is not among them. */
  predicate BuildingGone(s: State, id: string)
  {
    WellKeyed(s.buildingEntities) && id !in s.buildingEntities
  }

  predicate RecreatesBuilding(st: Step, id: string)
  {
    st.Create? && st.saveData.id == id
  }

  /** A batch leaves the live dictionaries alone: it only fills a saving set and the log. */
  lemma BatchKeepsBuildings(s: State, st: Step)
    requires ValidStep(s, st) && (st.SaveCharacters? || st.SaveBuildings?)
    ensures Apply(s, st).buildingEntities == s.buildingEntities
  {
    if st.SaveCharacters? {
      var b := SaveCharactersRoutine(s, st.characterOrder);
      assert b.outcome.Submitted? ==> Unchanged(s, b.state, {SavingCharacters, Log});
    } else {
      var b := SaveBuildingsRoutine(s, st.buildingOrder);
      assert b.outcome.Submitted? ==> Unchanged(s, b.state, {SavingBuildings, Log});
    }
  }

  /** Only the two building hooks touch the live building dictionary. */
  lemma OnlyHooksMoveBuildings(s: State, st: Step)
    requires ValidStep(s, st) && !st.Create? && !st.Destroy?
    ensures Apply(s, st).buildingEntities == s.buildingEntities
  {
    if st.SaveCharacters? || st.SaveBuildings? {
      BatchKeepsBuildings(s, st);
    }
  }

  lemma StepKeepsBuildingGone(s: State, st: Step, id: string)
    requires ValidStep(s, st) && BuildingGone(s, id) && !RecreatesBuilding(st, id)
    ensures BuildingGone(Apply(s, st), id)
  {
    if st.Create? {
      assert id !in CreateBuildingEntity(s, st.saveData, st.initialize).state.buildingEntities;
    } else if st.Destroy? {
      assert id !in DestroyBuildingEntity(s, st.buildingId).buildingEntities;
    } else {
      OnlyHooksMoveBuildings(s, st);
    }
  }

  lemma {:induction false} RunKeepsBuildingGone(s: State, steps: seq<Step>, id: string)
    requires ValidRun(s, steps) && BuildingGone(s, id)
    requires forall i :: 0 <= i < |steps| ==> !RecreatesBuilding(steps[i], id)
    ensures BuildingGone(Run(s, steps), id)
    decreases |steps|
  {
    if steps != [] {
      StepKeepsBuildingGone(s, steps[0], id);
      assert forall i :: 0 <= i < |steps[1..]| ==> steps[1..][i] == steps[i + 1];
      RunKeepsBuildingGone(Apply(s, steps[0]), steps[1..], id);
    }
  }

  /** Over a building batch from `s` to `r`, no update for `id` went out. */
  ghost predicate BatchSkipsBuilding(s: State, r: State, id: string)
  {
    s.log <= r.log && Dispatched(s, r, BuildingKey(id)) == 0
  }

  /**
    Once a building is destroyed, no building batch started at any later point
    sends an update for it, whatever else has run in between, unless the same
    id has been created again.
   */
  lemma DestroyedBuildingNotInAnyLaterBatch(s: State, id: string, steps: seq<Step>, order: seq<string>)
    requires WellKeyed(s.buildingEntities)
    requires |steps| >= 1 && steps[0] == Destroy(id) && ValidRun(s, steps)
    requires forall i :: 1 <= i < |steps| ==> !RecreatesBuilding(steps[i], id)
    requires Enumerates(order, Run(s, steps).buildingEntities.Keys)
    ensures var later := Run(s, steps);
      BatchSkipsBuilding(later, SaveBuildingsRoutine(later, order).state, id)
  {
    var destroyed := Apply(s, steps[0]);
    var rest := steps[1..];
    assert destroyed == DestroyBuildingEntity(s, id);
    assert Run(s, steps) == Run(destroyed, rest);
    assert forall i :: 0 <= i < |rest| ==> rest[i] == steps[i + 1];
    RunKeepsBuildingGone(destroyed, rest, id);
    GoneBuildingNotInBatch(Run(s, steps), id, order);
  }
}
