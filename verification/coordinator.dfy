/**
  The database-facing state of the map server: five pending sets (the per-key
  mutual exclusion), three caches filled by loads, the two live working sets the
  batch savers read, and the ordered log of everything dispatched.

  UniTask resumes continuations on one thread, so the code between two awaits
  runs without interruption. Each routine is therefore split into a begin step
  (guard, mark pending, dispatch) and a complete step (write cache, release key),
  each a pure function from State to State.
 */
module Coordinator {
  import opened Optional
  import opened Domain

  datatype State = State(
    loadingStorageIds: set<StorageId>,
    loadingPartyIds: set<int>,
    loadingGuildIds: set<int>,
    savingCharacters: set<string>,
    savingBuildings: set<string>,
    allStorageItems: map<StorageId, seq<CharacterItem>>,
    parties: map<int, PartyData>,
    guilds: map<int, GuildData>,
    /** Live player characters keyed by connection id; `None` is a destroyed (null) entity. */
    playerCharacters: map<int, Option<PlayerCharacterEntity>>,
    /** Live buildings keyed by building id; `None` is a destroyed (null) entity. */
    buildingEntities: map<string, Option<BuildingEntity>>,
    /** The online scene's name, sent with every building request. */
    mapName: string,
    log: seq<Event>)

  /** The parts of a State a step may change. */
  datatype Field =
    | LoadingStorage | LoadingParty | LoadingGuild | SavingCharacters | SavingBuildings
    | StorageCache | PartyCache | GuildCache | LiveCharacters | LiveBuildings | Log

  /** `r` agrees with `s` on every part outside `changed`; the scene name never changes. */
  predicate Unchanged(s: State, r: State, changed: set<Field>)
  {
    && r.mapName == s.mapName
    && (LoadingStorage !in changed ==> r.loadingStorageIds == s.loadingStorageIds)
    && (LoadingParty !in changed ==> r.loadingPartyIds == s.loadingPartyIds)
    && (LoadingGuild !in changed ==> r.loadingGuildIds == s.loadingGuildIds)
    && (SavingCharacters !in changed ==> r.savingCharacters == s.savingCharacters)
    && (SavingBuildings !in changed ==> r.savingBuildings == s.savingBuildings)
    && (StorageCache !in changed ==> r.allStorageItems == s.allStorageItems)
    && (PartyCache !in changed ==> r.parties == s.parties)
    && (GuildCache !in changed ==> r.guilds == s.guilds)
    && (LiveCharacters !in changed ==> r.playerCharacters == s.playerCharacters)
    && (LiveBuildings !in changed ==> r.buildingEntities == s.buildingEntities)
    && (Log !in changed ==> r.log == s.log)
  }

  /** Whether `k` is in its category's pending set. */
  predicate Pending(s: State, k: Key)
  {
    match k
    case StorageKey(id) => id in s.loadingStorageIds
    case PartyKey(id) => id in s.loadingPartyIds
    case GuildKey(id) => id in s.loadingGuildIds
    case CharacterKey(id) => id in s.savingCharacters
    case BuildingKey(id) => id in s.savingBuildings
  }

  /** `after` is `before` with the entry for `k` set to `v`, whatever it held, and no other entry touched. */
  predicate Overwrites<K, V(==)>(before: map<K, V>, after: map<K, V>, k: K, v: V)
  {
    && after.Keys == before.Keys + {k}
    && after[k] == v
    && forall j :: j in before && j != k ==> after[j] == before[j]
  }

  /** The number of requests for `k` dispatched between `s` and `r`. */
  function Dispatched(s: State, r: State, k: Key): nat
    requires s.log <= r.log
  {
    CountFor(r.log[|s.log|..], k)
  }

  lemma DispatchedSplit(s: State, m: State, r: State, k: Key)
    requires s.log <= m.log <= r.log
    ensures Dispatched(s, r, k) == Dispatched(s, m, k) + Dispatched(m, r, k)
  {
    assert r.log[|s.log|..] == m.log[|s.log|..] + r.log[|m.log|..];
    CountForConcat(m.log[|s.log|..], r.log[|m.log|..], k);
  }

  lemma DispatchedAppend(s: State, r: State, tail: seq<Event>, k: Key)
    requires r.log == s.log + tail
    ensures s.log <= r.log
    ensures Dispatched(s, r, k) == CountFor(tail, k)
  {
    assert r.log[|s.log|..] == tail;
  }

  lemma DispatchedExtend(s: State, mid: State, r: State, e: Event, k: Key)
    requires s.log <= mid.log
    requires r.log == mid.log + [e]
    ensures s.log <= r.log
    ensures Dispatched(s, r, k) == Dispatched(s, mid, k) + (if IsRequestFor(e, k) then 1 else 0)
  {
    DispatchedAppend(mid, r, [e], k);
    assert [e][..0] == [];
    DispatchedSplit(s, mid, r, k);
  }

  /** The pending set a key belongs to. */
  function PendingField(k: Key): Field
  {
    match k
    case StorageKey(_) => LoadingStorage
    case PartyKey(_) => LoadingParty
    case GuildKey(_) => LoadingGuild
    case CharacterKey(_) => SavingCharacters
    case BuildingKey(_) => SavingBuildings
  }

  lemma PendingFrame(s: State, r: State, changed: set<Field>, k: Key)
    requires Unchanged(s, r, changed)
    requires PendingField(k) !in changed
    ensures Pending(r, k) == Pending(s, k)
  {
  }
}
