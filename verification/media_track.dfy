/** Which track slot a component reads, given a track type and whose track it wants. */
module MediaTrack {
  import opened Wrappers
  import opened Types
  import ParticipantManager

  /** Whose track: the local participant, the bot, or a remote one by id. */
  datatype ParticipantType = LocalParticipant | BotParticipant | RemoteParticipant

  /**
   * `usePipecatClientMediaTrack`'s slot key: "local" and "bot" for the
   * reserved slots, the id for a remote with a non-empty id, and "local"
   * for a remote without one.
   */
  function MediaTrackKey(t: TrackType, who: ParticipantType, participantId: Option<string>): (k: string)
    ensures who.LocalParticipant? ==> k == ParticipantManager.TrackKey(ParticipantManager.LocalSlot, t)
    ensures who.BotParticipant? ==> k == ParticipantManager.TrackKey(ParticipantManager.BotSlot, t)
    ensures who.RemoteParticipant? && participantId.Some? && participantId.value != "" ==>
      k == ParticipantManager.TrackKey(participantId.value, t)
    ensures who.RemoteParticipant? && (participantId.None? || participantId.value == "") ==>
      k == ParticipantManager.TrackKey(ParticipantManager.LocalSlot, t)
  {
    var id :=
      match who
      case LocalParticipant => ParticipantManager.LocalSlot
      case BotParticipant => ParticipantManager.BotSlot
      case RemoteParticipant =>
        if participantId.Some? && participantId.value != "" then participantId.value else ParticipantManager.LocalSlot;
    ParticipantManager.TrackKey(id, t)
  }

  /** The track the hook returns. */
  function ReadTrack(r: ParticipantManager.Registry, t: TrackType, who: ParticipantType, participantId: Option<string>): (tr: Option<Track>)
    ensures tr.Some? <==> MediaTrackKey(t, who, participantId) in r.tracks
    ensures tr.Some? ==> tr.value == r.tracks[MediaTrackKey(t, who, participantId)]
  {
    var k := MediaTrackKey(t, who, participantId);
    if k in r.tracks then Some(r.tracks[k]) else None
  }

  /** The hook for the local participant sees the track the local participant's last start stored. */
  lemma LocalReadsLocalTrack(r: ParticipantManager.Registry, track: Track, p: Participant)
    requires p.local
    ensures var r' := ParticipantManager.TrackStarted(r, track, Some(p));
            ReadTrack(r', ParticipantManager.KindType(track.kind), LocalParticipant, None).Some?
            && ReadTrack(r', ParticipantManager.KindType(track.kind), LocalParticipant, None).value.id == track.id
  {
  }

  /** The hook for the bot sees the track the announced bot's last start stored. */
  lemma BotReadsBotTrack(r: ParticipantManager.Registry, track: Track, p: Participant)
    requires !p.local && r.botId == Some(p.id) && p.id != ""
    ensures var r' := ParticipantManager.TrackStarted(r, track, Some(p));
            ReadTrack(r', ParticipantManager.KindType(track.kind), BotParticipant, None).Some?
            && ReadTrack(r', ParticipantManager.KindType(track.kind), BotParticipant, None).value.id == track.id
  {
  }

  /** The hook for a remote id sees that remote's screen track. */
  lemma RemoteReadsRemoteScreen(r: ParticipantManager.Registry, track: Track, p: Participant)
    requires !p.local && r.botId != Some(p.id) && p.id != ""
    ensures var r' := ParticipantManager.ScreenTrackStarted(r, track, Some(p));
            ReadTrack(r', ParticipantManager.ScreenType(track.kind), RemoteParticipant, Some(p.id)).Some?
            && ReadTrack(r', ParticipantManager.ScreenType(track.kind), RemoteParticipant, Some(p.id)).value.id == track.id
  {
  }
}
