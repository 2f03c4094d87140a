/**
  Values the map server exchanges with the database service. Every payload
  (serialised character, item list, party or guild record) is opaque here:
  only identities matter to the coordinator.
 */
module Domain {
  import opened Optional

  /** An opaque serialised payload. */
  type Bytes = seq<bv8>

  /** Identifies one storage: its type and the id of its owner. */
  datatype StorageId = StorageId(storageType: int, storageOwnerId: string)

  datatype CharacterItem = CharacterItem(payload: Bytes)
  datatype PartyData = PartyData(payload: Bytes)
  datatype GuildData = GuildData(payload: Bytes)

  /** An immutable snapshot of a player character, the payload of a character save. */
  datatype CharacterData = CharacterData(id: string, payload: Bytes)

  /** A live player character in the map server's working set. */
  datatype PlayerCharacterEntity = PlayerCharacterEntity(id: string, userId: string, payload: Bytes)

  /** An immutable snapshot of a building, the payload of a building save or create. */
  datatype BuildingSaveData = BuildingSaveData(id: string, payload: Bytes)

  /** A live building in the map server's working set. */
  datatype BuildingEntity = BuildingEntity(id: string, payload: Bytes)

  function CharacterEntityId(e: PlayerCharacterEntity): string { e.id }

  function BuildingEntityId(e: BuildingEntity): string { e.id }

  /** `CloneTo(new PlayerCharacterData())`: an independent snapshot of the live entity. */
  function CloneCharacter(e: PlayerCharacterEntity): (d: CharacterData)
    ensures d.id == e.id
  {
    CharacterData(e.id, e.payload)
  }

  /** `CloneTo(new BuildingSaveData())`: an independent snapshot of the live entity. */
  function CloneBuilding(e: BuildingEntity): (d: BuildingSaveData)
    ensures d.id == e.id
  {
    BuildingSaveData(e.id, e.payload)
  }

  /** The live building the engine instantiates from saved data. */
  function SpawnBuilding(d: BuildingSaveData): (e: BuildingEntity)
    ensures e.id == d.id
    ensures CloneBuilding(e) == d
  {
    BuildingEntity(d.id, d.payload)
  }

  /** The identity under which a load or save is de-duplicated, one variant per pending set. */
  datatype Key =
    | StorageKey(storageId: StorageId)
    | PartyKey(partyId: int)
    | GuildKey(guildId: int)
    | CharacterKey(characterId: string)
    | BuildingKey(buildingId: string)

  /** A request dispatched to the database service. */
  datatype Request =
    | ReadStorageItems(storageType: int, storageOwnerId: string)
    | ReadParty(partyId: int)
    | ReadGuild(guildId: int)
    | UpdateCharacter(characterData: CharacterData)
    | UpdateBuilding(mapName: string, buildingData: BuildingSaveData)
    | CreateBuilding(mapName: string, buildingData: BuildingSaveData)
    | DeleteBuilding(mapName: string, buildingId: string)

  /** The pending-set key a request is issued under; creates and deletes are never de-duplicated. */
  function KeyOf(req: Request): Option<Key>
  {
    match req
    case ReadStorageItems(t, o) => Some(StorageKey(StorageId(t, o)))
    case ReadParty(id) => Some(PartyKey(id))
    case ReadGuild(id) => Some(GuildKey(id))
    case UpdateCharacter(d) => Some(CharacterKey(d.id))
    case UpdateBuilding(_, d) => Some(BuildingKey(d.id))
    case CreateBuilding(_, _) => None
    case DeleteBuilding(_, _) => None
  }

  /**
    What the coordinator does that an observer can order: dispatching a request,
    and handing a building to the engine's own create or destroy.
   */
  datatype Event =
    | Sent(request: Request)
    | BaseCreated(buildingId: string)
    | BaseDestroyed(buildingId: string)

  predicate IsRequestFor(e: Event, k: Key)
  {
    e.Sent? && KeyOf(e.request) == Some(k)
  }

  /** The number of requests in `log` issued under key `k`. */
  function CountFor(log: seq<Event>, k: Key): (n: nat)
    ensures n <= |log|
    ensures n == 0 <==> forall i :: 0 <= i < |log| ==> !IsRequestFor(log[i], k)
  {
    if log == [] then 0
    else CountFor(log[..|log| - 1], k) + (if IsRequestFor(log[|log| - 1], k) then 1 else 0)
  }

  lemma {:induction false} CountForConcat(a: seq<Event>, b: seq<Event>, k: Key)
    ensures CountFor(a + b, k) == CountFor(a, k) + CountFor(b, k)
    decreases |b|
  {
    if b == [] {
      assert a + b == a;
    } else {
      var b' := b[..|b| - 1];
      CountForConcat(a, b', k);
      assert (a + b)[..|a + b| - 1] == a + b';
      assert (a + b)[|a + b| - 1] == b[|b| - 1];
    }
  }
}
