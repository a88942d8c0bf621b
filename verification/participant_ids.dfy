/** The list of participant ids a component renders: the two reserved slots, then the remotes. */
module ParticipantIds {
  import ParticipantManager

  /**
   * `usePipecatClientParticipantIds(includeLocal, includeBot)`: "local"
   * first when asked for, then "bot" when asked for, then every remote id
   * in arrival order.
   */
  function ParticipantIds(remoteIds: seq<string>, includeLocal: bool, includeBot: bool): (ids: seq<string>)
    ensures |ids| == (if includeLocal then 1 else 0) + (if includeBot then 1 else 0) + |remoteIds|
    ensures ids[|ids| - |remoteIds|..] == remoteIds
    ensures includeLocal ==> ids[0] == ParticipantManager.LocalSlot
    ensures includeBot ==> ids[if includeLocal then 1 else 0] == ParticipantManager.BotSlot
    ensures forall id :: id in ids <==>
      (id == ParticipantManager.LocalSlot && includeLocal) || (id == ParticipantManager.BotSlot && includeBot) || id in remoteIds
  {
    (if includeLocal then [ParticipantManager.LocalSlot] else [])
    + (if includeBot then [ParticipantManager.BotSlot] else [])
    + remoteIds
  }

  /** With the default arguments the list is "local", "bot", then the remotes. */
  lemma DefaultIds(remoteIds: seq<string>)
    ensures ParticipantIds(remoteIds, true, true) == ["local", "bot"] + remoteIds
  {
  }

  /** From a valid registry the rendered list repeats no remote id. */
  lemma RemotesListedOnce(r: ParticipantManager.Registry, includeLocal: bool, includeBot: bool)
    requires ParticipantManager.Valid(r)
    ensures ParticipantManager.NoDuplicates(ParticipantIds(r.remoteIds, includeLocal, includeBot)[|ParticipantIds(r.remoteIds, includeLocal, includeBot)| - |r.remoteIds|..])
  {
  }
}
