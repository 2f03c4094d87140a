/**
  `SaveCharactersRoutine` and `SaveBuildingsRoutine`. A batch starts only when
  its category has nothing pending; it then walks the live dictionary once,
  skips null entries and starts one per-entity save for each of the others,
  counting them. `UniTask.WhenAll` only waits: the batch is over once every save
  it started has completed, which the drain lemmas below describe.
 */
module Batch {
  import opened Optional
  import opened Domain
  import opened Coordinator
  import opened Saves
  import opened LiveSets

  /** What a batch reports: skipped by the gate, or the number of saves it started. */
  datatype BatchOutcome = Skipped | Submitted(count: nat)

  /** A batch's state after it ran, and what it reports. */
  datatype BatchRun = BatchRun(state: State, outcome: BatchOutcome)

  /** The state after the batch loop walked some entries, and how many saves it started. */
  datatype Walk = Walk(state: State, count: nat)

  // ---------------------------------------------------------------- characters

  /** The body of the batch loop: one save per non-null character, in order. */
  function SubmitCharacters(s: State, es: seq<Option<PlayerCharacterEntity>>): (r: Walk)
    ensures r.count == PresentCount(es)
    ensures r.state.savingCharacters == s.savingCharacters + Ids(es, CharacterEntityId)
    ensures Unchanged(s, r.state, {SavingCharacters, Log})
    ensures s.log <= r.state.log
    decreases |es|
  {
    if es == [] then Walk(s, 0)
    else
      var prev := SubmitCharacters(s, es[..|es| - 1]);
      IdsSnoc(es, CharacterEntityId);
      match es[|es| - 1]
      case None => prev
      case Some(e) => Walk(SaveCharacterBegin(prev.state, Some(CloneCharacter(e)), e.userId), prev.count + 1)
  }

  /** What the loop has sent after some prefix, relative to the state `s` it started from. */
  ghost predicate CharacterUpdatesSent(s: State, r: State, ids: set<string>)
  {
    && s.log <= r.log
    && r.savingCharacters == s.savingCharacters + ids
    && (forall k :: Dispatched(s, r, k) ==
          (if k.CharacterKey? && k.characterId in ids - s.savingCharacters then 1 else 0))
  }

  lemma SubmitCharacterStep(s: State, mid: State, ids: set<string>, e: PlayerCharacterEntity)
    requires CharacterUpdatesSent(s, mid, ids)
    ensures CharacterUpdatesSent(s, SaveCharacterBegin(mid, Some(CloneCharacter(e)), e.userId), ids + {e.id})
  {
    var r := SaveCharacterBegin(mid, Some(CloneCharacter(e)), e.userId);
    if e.id !in mid.savingCharacters {
      var ev := Sent(UpdateCharacter(CloneCharacter(e)));
      assert r.log == mid.log + [ev];
      assert ids + {e.id} - s.savingCharacters == (ids - s.savingCharacters) + {e.id};
      assert e.id !in ids - s.savingCharacters;
      forall k ensures Dispatched(s, r, k) ==
        (if k.CharacterKey? && k.characterId in ids + {e.id} - s.savingCharacters then 1 else 0)
      {
        DispatchedExtend(s, mid, r, ev, k);
      }
    } else {
      assert ids + {e.id} - s.savingCharacters == ids - s.savingCharacters;
    }
  }

  /** `ev` is the update carrying the `CloneTo` snapshot of a non-null entry of `es`. */
  ghost predicate CharacterSnapshotOf(ev: Event, es: seq<Option<PlayerCharacterEntity>>)
  {
    exists j :: 0 <= j < |es| && es[j].Some? && ev == Sent(UpdateCharacter(CloneCharacter(es[j].value)))
  }

  /** Every request sent from `s` to `r` saves the snapshot of some non-null entity of `es`. */
  ghost predicate CharacterSnapshotsSent(s: State, r: State, es: seq<Option<PlayerCharacterEntity>>)
  {
    && s.log <= r.log
    && forall i :: |s.log| <= i < |r.log| ==> CharacterSnapshotOf(r.log[i], es)
  }

  /** Every request the loop sends saves a snapshot of an entity it walked, taken with `CloneTo`. */
  lemma {:induction false} SubmitCharactersSnapshots(s: State, es: seq<Option<PlayerCharacterEntity>>)
    ensures CharacterSnapshotsSent(s, SubmitCharacters(s, es).state, es)
    decreases |es|
  {
    if es != [] {
      var prefix := es[..|es| - 1];
      SubmitCharactersSnapshots(s, prefix);
      var mid := SubmitCharacters(s, prefix).state;
      var r := SubmitCharacters(s, es).state;
      forall i | |s.log| <= i < |r.log|
        ensures CharacterSnapshotOf(r.log[i], es)
      {
        if i < |mid.log| {
          var j :| 0 <= j < |prefix| && prefix[j].Some? && mid.log[i] == Sent(UpdateCharacter(CloneCharacter(prefix[j].value)));
          assert es[j] == prefix[j];
        } else {
          assert r.log[i] == Sent(UpdateCharacter(CloneCharacter(es[|es| - 1].value)));
        }
      }
    }
  }

  /**
    The loop sends exactly one update per character id that was not already
    being saved, and nothing else; duplicates within the loop are dropped.
    Each update carries the `CloneTo` snapshot of an entity the loop walked.
   */
  lemma {:induction false} SubmitCharactersDispatch(s: State, es: seq<Option<PlayerCharacterEntity>>)
    ensures CharacterUpdatesSent(s, SubmitCharacters(s, es).state, Ids(es, CharacterEntityId))
    ensures CharacterSnapshotsSent(s, SubmitCharacters(s, es).state, es)
    decreases |es|
  {
    SubmitCharactersSnapshots(s, es);
    if es == [] {
      forall k ensures Dispatched(s, s, k) == 0 {
        DispatchedAppend(s, s, [], k);
      }
      assert Ids(es, CharacterEntityId) == {};
    } else {
      var prefix := es[..|es| - 1];
      SubmitCharactersDispatch(s, prefix);
      IdsSnoc(es, CharacterEntityId);
      match es[|es| - 1]
      case None =>
      case Some(e) =>
        SubmitCharacterStep(s, SubmitCharacters(s, prefix).state, Ids(prefix, CharacterEntityId), e);
    }
  }

  /** The loop sends as many requests as there are distinct ids in it that were not already being saved. */
  lemma {:induction false} SubmitCharactersSendsOnePerNewId(s: State, es: seq<Option<PlayerCharacterEntity>>)
    ensures |SubmitCharacters(s, es).state.log| - |s.log| == |Ids(es, CharacterEntityId) - s.savingCharacters|
    decreases |es|
  {
    if es == [] {
      assert Ids(es, CharacterEntityId) == {};
    } else {
      var prefix := es[..|es| - 1];
      SubmitCharactersSendsOnePerNewId(s, prefix);
      IdsSnoc(es, CharacterEntityId);
      var mid := SubmitCharacters(s, prefix).state;
      match es[|es| - 1]
      case None =>
      case Some(e) =>
        NewIdsAdd(Ids(prefix, CharacterEntityId), e.id, s.savingCharacters);
        var r := SaveCharacterBegin(mid, Some(CloneCharacter(e)), e.userId);
        assert |r.log| == |mid.log| + (if e.id in mid.savingCharacters then 0 else 1);
    }
  }

  /**
    `SaveCharactersRoutine`: skipped unless no character save is pending; then
    every live non-null character is snapshotted and saved, and the count of
    saves started is reported. `order` is the dictionary's enumeration order.
   */
  function SaveCharactersRoutine(s: State, order: seq<int>): (r: BatchRun)
    requires Enumerates(order, s.playerCharacters.Keys)
    ensures r.outcome.Skipped? <==> s.savingCharacters != {}
    ensures r.outcome.Skipped? ==> r.state == s
    ensures r.outcome.Submitted? ==>
      && r.state.savingCharacters == LiveIds(s.playerCharacters, CharacterEntityId)
      && r.outcome.count == |NonNullKeys(s.playerCharacters)| <= |s.playerCharacters|
      && Unchanged(s, r.state, {SavingCharacters, Log})
      && s.log <= r.state.log
  {
    if |s.savingCharacters| == 0 then
      var vs := Values(s.playerCharacters, order);
      ValuesIds(s.playerCharacters, order, CharacterEntityId);
      PresentCountIsNonNull(s.playerCharacters, order);
      var sub := SubmitCharacters(s, vs);
      BatchRun(sub.state, Submitted(sub.count))
    else
      BatchRun(s, Skipped)
  }

  /** `ev` is the update carrying the `CloneTo` snapshot of a live non-null entry of `m`. */
  ghost predicate LiveCharacterSnapshotOf(ev: Event, m: map<int, Option<PlayerCharacterEntity>>)
  {
    exists k :: k in m && m[k].Some? && ev == Sent(UpdateCharacter(CloneCharacter(m[k].value)))
  }

  /** Every request sent from `s` to `r` saves the snapshot of a live non-null character of `s`. */
  ghost predicate LiveCharacterSnapshotsSent(s: State, r: State)
  {
    && s.log <= r.log
    && forall i :: |s.log| <= i < |r.log| ==> LiveCharacterSnapshotOf(r.log[i], s.playerCharacters)
  }

  /** A snapshot of an entry the enumeration walked is a snapshot of a live entry. */
  lemma CharacterSnapshotsAreLive(s: State, r: State, order: seq<int>)
    requires forall i :: 0 <= i < |order| ==> order[i] in s.playerCharacters
    requires CharacterSnapshotsSent(s, r, Values(s.playerCharacters, order))
    ensures LiveCharacterSnapshotsSent(s, r)
  {
    var vs := Values(s.playerCharacters, order);
    forall i | |s.log| <= i < |r.log|
      ensures LiveCharacterSnapshotOf(r.log[i], s.playerCharacters)
    {
      assert CharacterSnapshotOf(r.log[i], vs);
      var j :| 0 <= j < |vs| && vs[j].Some? && r.log[i] == Sent(UpdateCharacter(CloneCharacter(vs[j].value)));
      var k := order[j];
      assert k in s.playerCharacters && vs[j] == s.playerCharacters[k];
    }
  }

  /**
    A batch that passes the gate sends one update for each distinct id among the
    live characters and nothing else, and each update carries the snapshot of a live
    character.
   */
  lemma SaveCharactersDispatch(s: State, order: seq<int>)
    requires Enumerates(order, s.playerCharacters.Keys)
    requires s.savingCharacters == {}
    ensures var r := SaveCharactersRoutine(s, order);
      && r.outcome.Submitted?
      && CharacterUpdatesSent(s, r.state, LiveIds(s.playerCharacters, CharacterEntityId))
      && LiveCharacterSnapshotsSent(s, r.state)
  {
    var vs := Values(s.playerCharacters, order);
    ValuesIds(s.playerCharacters, order, CharacterEntityId);
    SubmitCharactersDispatch(s, vs);
    CharacterSnapshotsAreLive(s, SubmitCharacters(s, vs).state, order);
  }

  /**
    A batch that passes the gate sends exactly as many requests as there are
    distinct live ids, which is at most the count it reports.
   */
  lemma SaveCharactersSendsAtMostCount(s: State, order: seq<int>)
    requires Enumerates(order, s.playerCharacters.Keys)
    requires s.savingCharacters == {}
    ensures var r := SaveCharactersRoutine(s, order);
      r.outcome.Submitted? && |r.state.log| - |s.log| == |LiveIds(s.playerCharacters, CharacterEntityId)| <= r.outcome.count
  {
    var vs := Values(s.playerCharacters, order);
    ValuesIds(s.playerCharacters, order, CharacterEntityId);
    PresentCountIsNonNull(s.playerCharacters, order);
    IdsAtMostPresent(vs, CharacterEntityId);
    SubmitCharactersSendsOnePerNewId(s, vs);
    assert Ids(vs, CharacterEntityId) - s.savingCharacters == Ids(vs, CharacterEntityId);
  }

  /** The ids of a sequence of snapshots. */
  function CharacterDataIds(ds: seq<CharacterData>): set<string>
  {
    if ds == [] then {} else CharacterDataIds(ds[..|ds| - 1]) + {ds[|ds| - 1].id}
  }

  /** Completion of the per-entity saves a batch started, in any order. */
  function CompleteCharacterSaves(s: State, ds: seq<CharacterData>): (r: State)
    ensures r.savingCharacters == s.savingCharacters - CharacterDataIds(ds)
    ensures Unchanged(s, r, {SavingCharacters})
    decreases |ds|
  {
    if ds == [] then s
    else SaveCharacterComplete(CompleteCharacterSaves(s, ds[..|ds| - 1]), ds[|ds| - 1])
  }

  /** A batch over a map with a live character marks every live id as saving and touches nothing else it reads. */
  lemma CharacterBatchStarts(s: State, order: seq<int>)
    requires Enumerates(order, s.playerCharacters.Keys)
    requires s.savingCharacters == {}
    requires NonNullKeys(s.playerCharacters) != {}
    ensures var first := SaveCharactersRoutine(s, order).state;
      && first.playerCharacters == s.playerCharacters
      && first.savingCharacters == LiveIds(s.playerCharacters, CharacterEntityId) != {}
  {
    LiveIdsNonEmpty(s.playerCharacters, CharacterEntityId);
  }

  /**
    While a batch's saves drain, a second batch is a no-op; once every started
    save has completed, the gate opens again.
   */
  lemma CharacterBatchGate(s: State, order: seq<int>, ds: seq<CharacterData>)
    requires Enumerates(order, s.playerCharacters.Keys)
    requires s.savingCharacters == {}
    requires NonNullKeys(s.playerCharacters) != {}
    requires LiveIds(s.playerCharacters, CharacterEntityId) <= CharacterDataIds(ds)
    ensures var first := SaveCharactersRoutine(s, order).state;
      && first.playerCharacters == s.playerCharacters
      && SaveCharactersRoutine(first, order) == BatchRun(first, Skipped)
      && CompleteCharacterSaves(first, ds).playerCharacters == s.playerCharacters
      && SaveCharactersRoutine(CompleteCharacterSaves(first, ds), order).outcome.Submitted?
  {
    CharacterBatchStarts(s, order);
  }

  // ----------------------------------------------------------------- buildings

  /** The body of the batch loop: one save per non-null building, in order. */
  function SubmitBuildings(s: State, es: seq<Option<BuildingEntity>>): (r: Walk)
    ensures r.count == PresentCount(es)
    ensures r.state.savingBuildings == s.savingBuildings + Ids(es, BuildingEntityId)
    ensures Unchanged(s, r.state, {SavingBuildings, Log})
    ensures s.log <= r.state.log
    decreases |es|
  {
    if es == [] then Walk(s, 0)
    else
      var prev := SubmitBuildings(s, es[..|es| - 1]);
      IdsSnoc(es, BuildingEntityId);
      match es[|es| - 1]
      case None => prev
      case Some(e) => Walk(SaveBuildingBegin(prev.state, CloneBuilding(e)), prev.count + 1)
  }

  /** What the loop has sent after some prefix, relative to the state `s` it started from. */
  ghost predicate BuildingUpdatesSent(s: State, r: State, ids: set<string>)
  {
    && s.log <= r.log
    && r.savingBuildings == s.savingBuildings + ids
    && (forall k :: Dispatched(s, r, k) ==
          (if k.BuildingKey? && k.buildingId in ids - s.savingBuildings then 1 else 0))
  }

  lemma SubmitBuildingStep(s: State, mid: State, ids: set<string>, e: BuildingEntity)
    requires BuildingUpdatesSent(s, mid, ids)
    ensures BuildingUpdatesSent(s, SaveBuildingBegin(mid, CloneBuilding(e)), ids + {e.id})
  {
    var r := SaveBuildingBegin(mid, CloneBuilding(e));
    if e.id !in mid.savingBuildings {
      var ev := Sent(UpdateBuilding(mid.mapName, CloneBuilding(e)));
      assert r.log == mid.log + [ev];
      assert ids + {e.id} - s.savingBuildings == (ids - s.savingBuildings) + {e.id};
      assert e.id !in ids - s.savingBuildings;
      forall k ensures Dispatched(s, r, k) ==
        (if k.BuildingKey? && k.buildingId in ids + {e.id} - s.savingBuildings then 1 else 0)
      {
        DispatchedExtend(s, mid, r, ev, k);
      }
    } else {
      assert ids + {e.id} - s.savingBuildings == ids - s.savingBuildings;
    }
  }

  /** `ev` is the update for the scene `mapName` carrying the `CloneTo` snapshot of a non-null entry of `es`. */
  ghost predicate BuildingSnapshotOf(ev: Event, mapName: string, es: seq<Option<BuildingEntity>>)
  {
    exists j :: 0 <= j < |es| && es[j].Some? && ev == Sent(UpdateBuilding(mapName, CloneBuilding(es[j].value)))
  }

  /** Every request sent from `s` to `r` saves the snapshot of some non-null entity of `es`. */
  ghost predicate BuildingSnapshotsSent(s: State, r: State, es: seq<Option<BuildingEntity>>)
  {
    && s.log <= r.log
    && forall i :: |s.log| <= i < |r.log| ==> BuildingSnapshotOf(r.log[i], s.mapName, es)
  }

  /** Every request the loop sends saves a snapshot of an entity it walked, taken with `CloneTo`. */
  lemma {:induction false} SubmitBuildingsSnapshots(s: State, es: seq<Option<BuildingEntity>>)
    ensures BuildingSnapshotsSent(s, SubmitBuildings(s, es).state, es)
    decreases |es|
  {
    if es != [] {
      var prefix := es[..|es| - 1];
      SubmitBuildingsSnapshots(s, prefix);
      var mid := SubmitBuildings(s, prefix).state;
      var r := SubmitBuildings(s, es).state;
      forall i | |s.log| <= i < |r.log|
        ensures BuildingSnapshotOf(r.log[i], s.mapName, es)
      {
        if i < |mid.log| {
          var j :| 0 <= j < |prefix| && prefix[j].Some? && mid.log[i] == Sent(UpdateBuilding(s.mapName, CloneBuilding(prefix[j].value)));
          assert es[j] == prefix[j];
        } else {
          assert r.log[i] == Sent(UpdateBuilding(s.mapName, CloneBuilding(es[|es| - 1].value)));
        }
      }
    }
  }

  /**
    The loop sends exactly one update per building id that was not already
    being saved, and nothing else; duplicates within the loop are dropped.
    Each update carries the `CloneTo` snapshot of an entity the loop walked.
   */
  lemma {:induction false} SubmitBuildingsDispatch(s: State, es: seq<Option<BuildingEntity>>)
    ensures BuildingUpdatesSent(s, SubmitBuildings(s, es).state, Ids(es, BuildingEntityId))
    ensures BuildingSnapshotsSent(s, SubmitBuildings(s, es).state, es)
    decreases |es|
  {
    SubmitBuildingsSnapshots(s, es);
    if es == [] {
      forall k ensures Dispatched(s, s, k) == 0 {
        DispatchedAppend(s, s, [], k);
      }
      assert Ids(es, BuildingEntityId) == {};
    } else {
      var prefix := es[..|es| - 1];
      SubmitBuildingsDispatch(s, prefix);
      IdsSnoc(es, BuildingEntityId);
      match es[|es| - 1]
      case None =>
      case Some(e) =>
        SubmitBuildingStep(s, SubmitBuildings(s, prefix).state, Ids(prefix, BuildingEntityId), e);
    }
  }

  /** The loop sends as many requests as there are distinct ids in it that were not already being saved. */
  lemma {:induction false} SubmitBuildingsSendsOnePerNewId(s: State, es: seq<Option<BuildingEntity>>)
    ensures |SubmitBuildings(s, es).state.log| - |s.log| == |Ids(es, BuildingEntityId) - s.savingBuildings|
    decreases |es|
  {
    if es == [] {
      assert Ids(es, BuildingEntityId) == {};
    } else {
      var prefix := es[..|es| - 1];
      SubmitBuildingsSendsOnePerNewId(s, prefix);
      IdsSnoc(es, BuildingEntityId);
      var mid := SubmitBuildings(s, prefix).state;
      match es[|es| - 1]
      case None =>
      case Some(e) =>
        NewIdsAdd(Ids(prefix, BuildingEntityId), e.id, s.savingBuildings);
        var r := SaveBuildingBegin(mid, CloneBuilding(e));
        assert |r.log| == |mid.log| + (if e.id in mid.savingBuildings then 0 else 1);
    }
  }

  /**
    `SaveBuildingsRoutine`: skipped unless no building save is pending; then
    every live non-null building is snapshotted and saved, and the count of
    saves started is reported. `order` is the dictionary's enumeration order.
   */
  function SaveBuildingsRoutine(s: State, order: seq<string>): (r: BatchRun)
    requires Enumerates(order, s.buildingEntities.Keys)
    ensures r.outcome.Skipped? <==> s.savingBuildings != {}
    ensures r.outcome.Skipped? ==> r.state == s
    ensures r.outcome.Submitted? ==>
      && r.state.savingBuildings == LiveIds(s.buildingEntities, BuildingEntityId)
      && r.outcome.count == |NonNullKeys(s.buildingEntities)| <= |s.buildingEntities|
      && Unchanged(s, r.state, {SavingBuildings, Log})
      && s.log <= r.state.log
  {
    if |s.savingBuildings| == 0 then
      var vs := Values(s.buildingEntities, order);
      ValuesIds(s.buildingEntities, order, BuildingEntityId);
      PresentCountIsNonNull(s.buildingEntities, order);
      var sub := SubmitBuildings(s, vs);
      BatchRun(sub.state, Submitted(sub.count))
    else
      BatchRun(s, Skipped)
  }

  /** `ev` is the update for the scene `mapName` carrying the `CloneTo` snapshot of a live non-null entry of `m`. */
  ghost predicate LiveBuildingSnapshotOf(ev: Event, mapName: string, m: map<string, Option<BuildingEntity>>)
  {
    exists k :: k in m && m[k].Some? && ev == Sent(UpdateBuilding(mapName, CloneBuilding(m[k].value)))
  }

  /** Every request sent from `s` to `r` saves the snapshot of a live non-null building of `s`. */
  ghost predicate LiveBuildingSnapshotsSent(s: State, r: State)
  {
    && s.log <= r.log
    && forall i :: |s.log| <= i < |r.log| ==> LiveBuildingSnapshotOf(r.log[i], s.mapName, s.buildingEntities)
  }

  /** A snapshot of an entry the enumeration walked is a snapshot of a live entry. */
  lemma BuildingSnapshotsAreLive(s: State, r: State, order: seq<string>)
    requires forall i :: 0 <= i < |order| ==> order[i] in s.buildingEntities
    requires BuildingSnapshotsSent(s, r, Values(s.buildingEntities, order))
    ensures LiveBuildingSnapshotsSent(s, r)
  {
    var vs := Values(s.buildingEntities, order);
    forall i | |s.log| <= i < |r.log|
      ensures LiveBuildingSnapshotOf(r.log[i], s.mapName, s.buildingEntities)
    {
      assert BuildingSnapshotOf(r.log[i], s.mapName, vs);
      var j :| 0 <= j < |vs| && vs[j].Some? && r.log[i] == Sent(UpdateBuilding(s.mapName, CloneBuilding(vs[j].value)));
      var k := order[j];
      assert k in s.buildingEntities && vs[j] == s.buildingEntities[k];
    }
  }

  /**
    A batch that passes the gate sends one update for each distinct id among the
    live buildings and nothing else, and each update carries the snapshot of a live
    building for the current scene.
   */
  lemma SaveBuildingsDispatch(s: State, order: seq<string>)
    requires Enumerates(order, s.buildingEntities.Keys)
    requires s.savingBuildings == {}
    ensures var r := SaveBuildingsRoutine(s, order);
      && r.outcome.Submitted?
      && BuildingUpdatesSent(s, r.state, LiveIds(s.buildingEntities, BuildingEntityId))
      && LiveBuildingSnapshotsSent(s, r.state)
  {
    var vs := Values(s.buildingEntities, order);
    ValuesIds(s.buildingEntities, order, BuildingEntityId);
    SubmitBuildingsDispatch(s, vs);
    BuildingSnapshotsAreLive(s, SubmitBuildings(s, vs).state, order);
  }

  /**
    A batch that passes the gate sends exactly as many requests as there are
    distinct live ids, which is at most the count it reports.
   */
  lemma SaveBuildingsSendsAtMostCount(s: State, order: seq<string>)
    requires Enumerates(order, s.buildingEntities.Keys)
    requires s.savingBuildings == {}
    ensures var r := SaveBuildingsRoutine(s, order);
      r.outcome.Submitted? && |r.state.log| - |s.log| == |LiveIds(s.buildingEntities, BuildingEntityId)| <= r.outcome.count
  {
    var vs := Values(s.buildingEntities, order);
    ValuesIds(s.buildingEntities, order, BuildingEntityId);
    PresentCountIsNonNull(s.buildingEntities, order);
    IdsAtMostPresent(vs, BuildingEntityId);
    SubmitBuildingsSendsOnePerNewId(s, vs);
    assert Ids(vs, BuildingEntityId) - s.savingBuildings == Ids(vs, BuildingEntityId);
  }

  /** The ids of a sequence of snapshots. */
  function BuildingDataIds(ds: seq<BuildingSaveData>): set<string>
  {
    if ds == [] then {} else BuildingDataIds(ds[..|ds| - 1]) + {ds[|ds| - 1].id}
  }

  /** Completion of the per-entity saves a batch started, in any order. */
  function CompleteBuildingSaves(s: State, ds: seq<BuildingSaveData>): (r: State)
    ensures r.savingBuildings == s.savingBuildings - BuildingDataIds(ds)
    ensures Unchanged(s, r, {SavingBuildings})
    decreases |ds|
  {
    if ds == [] then s
    else SaveBuildingComplete(CompleteBuildingSaves(s, ds[..|ds| - 1]), ds[|ds| - 1])
  }

  /** A batch over a map with a live building marks every live id as saving and touches nothing else it reads. */
  lemma BuildingBatchStarts(s: State, order: seq<string>)
    requires Enumerates(order, s.buildingEntities.Keys)
    requires s.savingBuildings == {}
    requires NonNullKeys(s.buildingEntities) != {}
    ensures var first := SaveBuildingsRoutine(s, order).state;
      && first.buildingEntities == s.buildingEntities
      && first.savingBuildings == LiveIds(s.buildingEntities, BuildingEntityId) != {}
  {
    LiveIdsNonEmpty(s.buildingEntities, BuildingEntityId);
  }

  /**
    While a batch's saves drain, a second batch is a no-op; once every started
    save has completed, the gate opens again.
   */
  lemma BuildingBatchGate(s: State, order: seq<string>, ds: seq<BuildingSaveData>)
    requires Enumerates(order, s.buildingEntities.Keys)
    requires s.savingBuildings == {}
    requires NonNullKeys(s.buildingEntities) != {}
    requires LiveIds(s.buildingEntities, BuildingEntityId) <= BuildingDataIds(ds)
    ensures var first := SaveBuildingsRoutine(s, order).state;
      && first.buildingEntities == s.buildingEntities
      && SaveBuildingsRoutine(first, order) == BatchRun(first, Skipped)
      && CompleteBuildingSaves(first, ds).buildingEntities == s.buildingEntities
      && SaveBuildingsRoutine(CompleteBuildingSaves(first, ds), order).outcome.Submitted?
  {
    BuildingBatchStarts(s, order);
  }

}
