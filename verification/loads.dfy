/**
  `LoadStorageRoutine`, `LoadPartyRoutine` and `LoadGuildRoutine`, each split at
  its single await into a begin step and a complete step. The complete step is
  handed the decoded response; decoding belongs to the database client.
 */
module Loads {
  import opened Domain
  import opened Coordinator

  /** Begin a storage load. There is no positivity guard: any storage id is accepted. */
  function LoadStorageBegin(s: State, storageId: StorageId): (r: State)
    ensures storageId in s.loadingStorageIds ==> r == s
    ensures storageId !in s.loadingStorageIds ==>
      && r.loadingStorageIds == s.loadingStorageIds + {storageId}
      && r.log == s.log + [Sent(ReadStorageItems(storageId.storageType, storageId.storageOwnerId))]
      && Unchanged(s, r, {LoadingStorage, Log})
  {
    if storageId !in s.loadingStorageIds then
      s.(loadingStorageIds := s.loadingStorageIds + {storageId},
         log := s.log + [Sent(ReadStorageItems(storageId.storageType, storageId.storageOwnerId))])
    else
      s
  }

  /** Store the response's item list under the storage id and release the id. */
  function LoadStorageComplete(s: State, storageId: StorageId, items: seq<CharacterItem>): (r: State)
    ensures Overwrites(s.allStorageItems, r.allStorageItems, storageId, items)
    ensures r.loadingStorageIds == s.loadingStorageIds - {storageId}
    ensures Unchanged(s, r, {StorageCache, LoadingStorage})
  {
    s.(allStorageItems := s.allStorageItems[storageId := items],
       loadingStorageIds := s.loadingStorageIds - {storageId})
  }

  /** Begin a party load; ids that are not positive are ignored. */
  function LoadPartyBegin(s: State, id: int): (r: State)
    ensures id <= 0 || id in s.loadingPartyIds ==> r == s
    ensures id > 0 && id !in s.loadingPartyIds ==>
      && r.loadingPartyIds == s.loadingPartyIds + {id}
      && r.log == s.log + [Sent(ReadParty(id))]
      && Unchanged(s, r, {LoadingParty, Log})
  {
    if id > 0 && id !in s.loadingPartyIds then
      s.(loadingPartyIds := s.loadingPartyIds + {id}, log := s.log + [Sent(ReadParty(id))])
    else
      s
  }

  function LoadPartyComplete(s: State, id: int, data: PartyData): (r: State)
    ensures Overwrites(s.parties, r.parties, id, data)
    ensures r.loadingPartyIds == s.loadingPartyIds - {id}
    ensures Unchanged(s, r, {PartyCache, LoadingParty})
  {
    s.(parties := s.parties[id := data], loadingPartyIds := s.loadingPartyIds - {id})
  }

  /** Begin a guild load; ids that are not positive are ignored. */
  function LoadGuildBegin(s: State, id: int): (r: State)
    ensures id <= 0 || id in s.loadingGuildIds ==> r == s
    ensures id > 0 && id !in s.loadingGuildIds ==>
      && r.loadingGuildIds == s.loadingGuildIds + {id}
      && r.log == s.log + [Sent(ReadGuild(id))]
      && Unchanged(s, r, {LoadingGuild, Log})
  {
    if id > 0 && id !in s.loadingGuildIds then
      s.(loadingGuildIds := s.loadingGuildIds + {id}, log := s.log + [Sent(ReadGuild(id))])
    else
      s
  }

  function LoadGuildComplete(s: State, id: int, data: GuildData): (r: State)
    ensures Overwrites(s.guilds, r.guilds, id, data)
    ensures r.loadingGuildIds == s.loadingGuildIds - {id}
    ensures Unchanged(s, r, {GuildCache, LoadingGuild})
  {
    s.(guilds := s.guilds[id := data], loadingGuildIds := s.loadingGuildIds - {id})
  }

  /**
    Two storage loads of one id started back to back send a single read; after
    its response both callers see that response in the cache, the id is free
    again, and every other part of the state is as it was.
   */
  lemma StorageLoadedTwiceReadsOnce(s: State, storageId: StorageId, items: seq<CharacterItem>)
    requires storageId !in s.loadingStorageIds
    ensures var r := LoadStorageComplete(LoadStorageBegin(LoadStorageBegin(s, storageId), storageId), storageId, items);
      && s.log <= r.log
      && Dispatched(s, r, StorageKey(storageId)) == 1
      && |r.log| == |s.log| + 1
      && r.allStorageItems[storageId] == items
      && r.loadingStorageIds == s.loadingStorageIds
      && Unchanged(s, r, {StorageCache, Log})
  {
    var once := LoadStorageBegin(s, storageId);
    var r := LoadStorageComplete(LoadStorageBegin(once, storageId), storageId, items);
    DispatchedAppend(s, r, [Sent(ReadStorageItems(storageId.storageType, storageId.storageOwnerId))], StorageKey(storageId));
  }

  /** A complete party load round: a fresh positive id is read once, cached, and released. */
  lemma PartyLoadRound(s: State, id: int, data: PartyData)
    requires id > 0 && id !in s.loadingPartyIds
    ensures var r := LoadPartyComplete(LoadPartyBegin(s, id), id, data);
      && s.log <= r.log
      && Dispatched(s, r, PartyKey(id)) == 1
      && r.parties[id] == data
      && r.loadingPartyIds == s.loadingPartyIds
      && Unchanged(s, r, {PartyCache, Log})
  {
    var r := LoadPartyComplete(LoadPartyBegin(s, id), id, data);
    DispatchedAppend(s, r, [Sent(ReadParty(id))], PartyKey(id));
  }

  /** A complete guild load round: a fresh positive id is read once, cached, and released. */
  lemma GuildLoadRound(s: State, id: int, data: GuildData)
    requires id > 0 && id !in s.loadingGuildIds
    ensures var r := LoadGuildComplete(LoadGuildBegin(s, id), id, data);
      && s.log <= r.log
      && Dispatched(s, r, GuildKey(id)) == 1
      && r.guilds[id] == data
      && r.loadingGuildIds == s.loadingGuildIds
      && Unchanged(s, r, {GuildCache, Log})
  {
    var r := LoadGuildComplete(LoadGuildBegin(s, id), id, data);
    DispatchedAppend(s, r, [Sent(ReadGuild(id))], GuildKey(id));
  }
}
