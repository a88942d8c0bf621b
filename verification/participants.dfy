/**
 * The React-side participant registry: which participants are known
 * (the local one, the bot, and remote ones in arrival order), which id
 * the bot has, and the latest media track in every participant slot.
 * A slot's key is "<participant>:<track type>", where the participant is
 * "local", "bot" or a remote id.
 */
module ParticipantManager {
  import opened Wrappers
  import opened Types

  /** The reserved slot names of the local participant and the bot. */
  const LocalSlot: string := "local"
  const BotSlot: string := "bot"

  // ---------------------------------------------------------------------
  // Track keys.

  function TypeSuffix(t: TrackType): string {
    ":" + TrackTypeName(t)
  }

  /** The key of a participant's track slot. */
  function TrackKey(participant: string, t: TrackType): (k: string)
    ensures |k| == |participant| + |TypeSuffix(t)|
    ensures k[..|participant|] == participant
  {
    participant + TypeSuffix(t)
  }

  predicate EndsWith(s: string, suffix: string) {
    |suffix| <= |s| && s[|s| - |suffix|..] == suffix
  }

  /** Splits a slot key into participant and track type, reading the type from the end. */
  function ParseTrackKey(k: string): (r: Option<(string, TrackType)>)
    ensures r.Some? ==> TrackKey(r.value.0, r.value.1) == k
  {
    if EndsWith(k, TypeSuffix(Audio)) then Some((k[..|k| - 6], Audio))
    else if EndsWith(k, TypeSuffix(Video)) then Some((k[..|k| - 6], Video))
    else if EndsWith(k, TypeSuffix(ScreenAudio)) then Some((k[..|k| - 12], ScreenAudio))
    else if EndsWith(k, TypeSuffix(ScreenVideo)) then Some((k[..|k| - 12], ScreenVideo))
    else None
  }

  /** The last `n` characters of `a + b` come from `b`. */
  lemma SuffixOfAppend(a: string, b: string, n: nat)
    requires n <= |b|
    ensures (a + b)[|a + b| - n..] == b[|b| - n..]
  {
  }

  /** Parsing a slot key gives back the participant and the type. */
  lemma ParseTrackKeyRoundTrip(participant: string, t: TrackType)
    ensures ParseTrackKey(TrackKey(participant, t)) == Some((participant, t))
  {
    var k := TrackKey(participant, t);
    var suffix := TypeSuffix(t);
    SuffixOfAppend(participant, suffix, |suffix|);
    assert k[|k| - |suffix|..] == suffix;
    // the first letter of the last five tells the four types apart
    assert k[|k| - 5] == suffix[|suffix| - 5];
    assert TypeSuffix(Audio)[1] == 'a' && TypeSuffix(Video)[1] == 'v';
    assert TypeSuffix(ScreenAudio)[7] == 'A' && TypeSuffix(ScreenVideo)[7] == 'V';
    match t
    case Audio =>
      assert EndsWith(k, TypeSuffix(Audio));
    case Video =>
      assert k[|k| - 6..][1] == 'v';
      assert !EndsWith(k, TypeSuffix(Audio));
      assert EndsWith(k, TypeSuffix(Video));
    case ScreenAudio =>
      assert k[|k| - 6..][1] == 'A';
      assert !EndsWith(k, TypeSuffix(Audio)) && !EndsWith(k, TypeSuffix(Video));
      assert EndsWith(k, TypeSuffix(ScreenAudio));
    case ScreenVideo =>
      assert k[|k| - 6..][1] == 'V';
      assert !EndsWith(k, TypeSuffix(Audio)) && !EndsWith(k, TypeSuffix(Video));
      assert k[|k| - 12..][7] == 'V';
      assert !EndsWith(k, TypeSuffix(ScreenAudio));
      assert EndsWith(k, TypeSuffix(ScreenVideo));
  }

  /** Different slots never share a key, even when participant ids contain ':'. */
  lemma TrackKeyInjective(p1: string, t1: TrackType, p2: string, t2: TrackType)
    requires TrackKey(p1, t1) == TrackKey(p2, t2)
    ensures p1 == p2 && t1 == t2
  {
    ParseTrackKeyRoundTrip(p1, t1);
    ParseTrackKeyRoundTrip(p2, t2);
  }

  // ---------------------------------------------------------------------
  // The registry.

  datatype Registry = Registry(
    /** remote participant ids, in the order they first joined */
    remoteIds: seq<string>,
    /** the id announced by the last "bot connected" event */
    botId: Option<string>,
    local: Option<Participant>,
    bot: Option<Participant>,
    remotes: map<string, Participant>,
    /** the non-empty track slots */
    tracks: map<string, Track>)

  const Empty: Registry := Registry([], None, None, None, map[], map[])

  predicate NoDuplicates(ids: seq<string>) {
    forall i, j :: 0 <= i < j < |ids| ==> ids[i] != ids[j]
  }

  /** The id list and the remote records describe the same participants, each once. */
  ghost predicate Valid(r: Registry) {
    NoDuplicates(r.remoteIds)
    && (forall id :: id in r.remoteIds <==> id in r.remotes)
    && (forall id :: id in r.remotes ==> r.remotes[id].id == id)
  }

  /** `ids` with every occurrence of `x` dropped, order kept. */
  function Without(ids: seq<string>, x: string): (r: seq<string>)
    ensures forall y :: y in r <==> y in ids && y != x
    ensures |r| <= |ids|
    ensures x !in ids ==> r == ids
  {
    if ids == [] then []
    else (if ids[0] == x then [] else [ids[0]]) + Without(ids[1..], x)
  }

  lemma {:induction false} WithoutNoDuplicates(ids: seq<string>, x: string)
    requires NoDuplicates(ids)
    ensures NoDuplicates(Without(ids, x))
  {
    if ids != [] {
      WithoutNoDuplicates(ids[1..], x);
      assert ids[0] !in ids[1..];
      assert ids[0] !in Without(ids[1..], x);
    }
  }

  /** Dropping an id listed once at position `k` closes the gap and keeps the others in order. */
  lemma {:induction false} WithoutAt(ids: seq<string>, x: string, k: nat)
    requires NoDuplicates(ids) && k < |ids| && ids[k] == x
    ensures Without(ids, x) == ids[..k] + ids[k + 1..]
    decreases |ids|
  {
    if k == 0 {
      assert x !in ids[1..];
    } else {
      assert ids[0] != x;
      assert NoDuplicates(ids[1..]);
      WithoutAt(ids[1..], x, k - 1);
      assert ids[..k] == [ids[0]] + ids[1..][..k - 1];
      assert ids[k + 1..] == ids[1..][k..];
    }
  }

  /** Appending an id that is not yet listed keeps the list duplicate-free. */
  lemma AppendNoDuplicates(ids: seq<string>, x: string)
    requires NoDuplicates(ids) && x !in ids
    ensures NoDuplicates(ids + [x])
  {
  }

  /** The slot a track event of participant `p` writes: "local", "bot" or the participant's id. */
  function SlotId(r: Registry, p: Participant): (id: string)
    ensures p.local ==> id == LocalSlot
    ensures !p.local && r.botId.Some? && r.botId.value != "" && p.id == r.botId.value ==> id == BotSlot
    ensures id != LocalSlot && id != BotSlot ==> id == p.id
  {
    if p.local then LocalSlot
    else if r.botId.Some? && r.botId.value != "" && p.id == r.botId.value then BotSlot
    else p.id
  }

  /**
   * A participant connected: the local one fills the local slot, the bot
   * (matched by id) the bot slot; anyone else is recorded as a remote and
   * listed once, in order of first arrival.
   */
  function AddParticipant(r: Registry, p: Participant): (r': Registry)
    ensures p.local ==> r' == r.(local := Some(p))
    ensures !p.local && r.botId == Some(p.id) ==> r' == r.(bot := Some(p))
    ensures !p.local && r.botId != Some(p.id) ==>
      p.id in r'.remotes && r'.remotes[p.id] == p
      && (forall id :: id in r.remotes && id != p.id ==> id in r'.remotes && r'.remotes[id] == r.remotes[id])
      && r'.remotes.Keys == r.remotes.Keys + {p.id}
      && (p.id in r.remoteIds ==> r'.remoteIds == r.remoteIds)
      && (p.id !in r.remoteIds ==> r'.remoteIds == r.remoteIds + [p.id])
      && r' == r.(remoteIds := r'.remoteIds, remotes := r'.remotes)
  {
    if p.local then r.(local := Some(p))
    else if r.botId == Some(p.id) then r.(bot := Some(p))
    else
      var ids := if p.id in r.remoteIds then r.remoteIds else r.remoteIds + [p.id];
      r.(remoteIds := ids, remotes := r.remotes[p.id := p])
  }

  /** The four slot keys of one participant. */
  function SlotKeys(id: string): set<string> {
    {TrackKey(id, Audio), TrackKey(id, Video), TrackKey(id, ScreenAudio), TrackKey(id, ScreenVideo)}
  }

  /** A key is one of a participant's slots exactly when it names that participant. */
  lemma SlotKeysOf(id: string, q: string, t: TrackType)
    ensures TrackKey(q, t) in SlotKeys(id) <==> q == id
  {
    if TrackKey(q, t) in SlotKeys(id) {
      var t' :| t' in {Audio, Video, ScreenAudio, ScreenVideo} && TrackKey(q, t) == TrackKey(id, t');
      TrackKeyInjective(q, t, id, t');
    }
    assert TrackKey(id, t) in SlotKeys(id) by {
      match t
      case Audio =>
      case Video =>
      case ScreenAudio =>
      case ScreenVideo =>
    }
  }

  /**
   * A participant left: the local or bot slot is emptied; a remote is
   * unlisted, forgotten, and its four track slots are emptied.
   */
  function RemoveParticipant(r: Registry, p: Participant): (r': Registry)
    ensures p.local ==> r' == r.(local := None)
    ensures !p.local && r.botId == Some(p.id) ==> r' == r.(bot := None)
    ensures !p.local && r.botId != Some(p.id) ==>
      p.id !in r'.remoteIds && p.id !in r'.remotes
      && (forall id :: id in r'.remoteIds <==> id in r.remoteIds && id != p.id)
      && r'.remoteIds == Without(r.remoteIds, p.id)
      && r'.remotes == r.remotes - {p.id}
      && r'.tracks == r.tracks - SlotKeys(p.id)
      && r' == r.(remoteIds := r'.remoteIds, remotes := r'.remotes, tracks := r'.tracks)
  {
    if p.local then r.(local := None)
    else if r.botId == Some(p.id) then r.(bot := None)
    else r.(remoteIds := Without(r.remoteIds, p.id), remotes := r.remotes - {p.id}, tracks := r.tracks - SlotKeys(p.id))
  }

  /** Removing a listed remote takes its id out of the list and keeps the other ids in their order. */
  lemma RemoveKeepsOrder(r: Registry, p: Participant, k: nat)
    requires Valid(r) && !p.local && r.botId != Some(p.id)
    requires k < |r.remoteIds| && r.remoteIds[k] == p.id
    ensures RemoveParticipant(r, p).remoteIds == r.remoteIds[..k] + r.remoteIds[k + 1..]
  {
    WithoutAt(r.remoteIds, p.id, k);
  }

  /** Removing a remote leaves every other participant's track slots as they were. */
  lemma RemoveKeepsOtherTracks(r: Registry, p: Participant, q: string, t: TrackType)
    requires !p.local && r.botId != Some(p.id) && q != p.id
    ensures var r' := RemoveParticipant(r, p);
            (TrackKey(q, t) in r'.tracks <==> TrackKey(q, t) in r.tracks)
            && (TrackKey(q, t) in r.tracks ==> r'.tracks[TrackKey(q, t)] == r.tracks[TrackKey(q, t)])
  {
    SlotKeysOf(p.id, q, t);
  }

  /** "Bot connected" only records the bot's id. */
  function BotConnected(r: Registry, p: Participant): (r': Registry)
    ensures r'.botId == Some(p.id)
    ensures r' == r.(botId := Some(p.id))
  {
    r.(botId := Some(p.id))
  }

  /**
   * Stores `track` in slot `t` of participant `p`: no participant, no
   * change; a track with the same id as the stored one keeps the stored
   * object; otherwise the slot now holds `track`.
   */
  function SetTrack(r: Registry, p: Option<Participant>, t: TrackType, track: Track): (r': Registry)
    ensures p.None? ==> r' == r
    ensures p.Some? ==>
      var key := TrackKey(SlotId(r, p.value), t);
      key in r'.tracks && r'.tracks[key].id == track.id
      && (key in r.tracks && r.tracks[key].id == track.id ==> r' == r)
      && (key !in r.tracks || r.tracks[key].id != track.id ==> r'.tracks[key] == track)
      && (forall k :: k != key ==> (k in r'.tracks <==> k in r.tracks))
      && (forall k :: k != key && k in r.tracks ==> r'.tracks[k] == r.tracks[k])
    ensures r' == r.(tracks := r'.tracks)
  {
    if p.None? then r
    else
      var key := TrackKey(SlotId(r, p.value), t);
      if key in r.tracks && r.tracks[key].id == track.id then r
      else r.(tracks := r.tracks[key := track])
  }

  function KindType(k: TrackKind): TrackType {
    match k
    case AudioKind => Audio
    case VideoKind => Video
  }

  function ScreenType(k: TrackKind): TrackType {
    match k
    case AudioKind => ScreenAudio
    case VideoKind => ScreenVideo
  }

  /** "Track started": the camera or microphone slot matching the track's kind. */
  function TrackStarted(r: Registry, track: Track, p: Option<Participant>): (r': Registry)
    ensures p.Some? ==> TrackOf(r', SlotId(r, p.value), KindType(track.kind)).Some?
    ensures p.Some? ==> TrackOf(r', SlotId(r, p.value), KindType(track.kind)).value.id == track.id
    ensures p.None? ==> r' == r
  {
    SetTrack(r, p, KindType(track.kind), track)
  }

  /** "Screen track started": the screen-audio or screen-video slot. */
  function ScreenTrackStarted(r: Registry, track: Track, p: Option<Participant>): (r': Registry)
    ensures p.Some? ==> TrackOf(r', SlotId(r, p.value), ScreenType(track.kind)).Some?
    ensures p.Some? ==> TrackOf(r', SlotId(r, p.value), ScreenType(track.kind)).value.id == track.id
    ensures p.None? ==> r' == r
  {
    SetTrack(r, p, ScreenType(track.kind), track)
  }

  /** Reading a participant by id: "local" and "bot" name the special slots. */
  function LookupParticipant(r: Registry, id: string): (p: Option<Participant>)
    ensures id == LocalSlot ==> p == r.local
    ensures id == BotSlot ==> p == r.bot
    ensures id != LocalSlot && id != BotSlot ==> (p.Some? <==> id in r.remotes)
    ensures id != LocalSlot && id != BotSlot && p.Some? ==> p.value == r.remotes[id]
  {
    if id == LocalSlot then r.local
    else if id == BotSlot then r.bot
    else if id in r.remotes then Some(r.remotes[id])
    else None
  }

  /** Reading a track slot. */
  function TrackOf(r: Registry, participant: string, t: TrackType): (tr: Option<Track>)
    ensures tr.Some? <==> TrackKey(participant, t) in r.tracks
    ensures tr.Some? ==> tr.value == r.tracks[TrackKey(participant, t)]
  {
    var key := TrackKey(participant, t);
    if key in r.tracks then Some(r.tracks[key]) else None
  }

  // ---------------------------------------------------------------------
  // Event sequences.

  datatype Event =
    | Joined(p: Participant)
    | Left(p: Participant)
    | BotJoined(p: Participant)
    | TrackStartedEvent(track: Track, participant: Option<Participant>)
    | ScreenTrackStartedEvent(track: Track, participant: Option<Participant>)

  /**
   * One event of the provider's listeners.  Only "bot connected" moves
   * the bot id, a join leaves the track slots alone,
   * and track events touch nothing but the track slots.
   */
  function Apply(r: Registry, e: Event): (r': Registry)
    ensures r'.botId == (if e.BotJoined? then Some(e.p.id) else r.botId)
    ensures e.Joined? || e.BotJoined? ==> r'.tracks == r.tracks
    ensures e.TrackStartedEvent? || e.ScreenTrackStartedEvent? ==> r' == r.(tracks := r'.tracks)
    ensures (e.TrackStartedEvent? || e.ScreenTrackStartedEvent?) && e.participant.None? ==> r' == r
    ensures e.TrackStartedEvent? && e.participant.Some? ==>
      var tr := TrackOf(r', SlotId(r, e.participant.value), KindType(e.track.kind)); tr.Some? && tr.value.id == e.track.id
    ensures e.ScreenTrackStartedEvent? && e.participant.Some? ==>
      var tr := TrackOf(r', SlotId(r, e.participant.value), ScreenType(e.track.kind)); tr.Some? && tr.value.id == e.track.id
  {
    match e
    case Joined(p) => AddParticipant(r, p)
    case Left(p) => RemoveParticipant(r, p)
    case BotJoined(p) => BotConnected(r, p)
    case TrackStartedEvent(track, p) => TrackStarted(r, track, p)
    case ScreenTrackStartedEvent(track, p) => ScreenTrackStarted(r, track, p)
  }

  function ApplyAll(r: Registry, es: seq<Event>): Registry
    decreases |es|
  {
    if es == [] then r else ApplyAll(Apply(r, es[0]), es[1..])
  }

  /** Every event keeps the registry valid. */
  lemma ApplyValid(r: Registry, e: Event)
    requires Valid(r)
    ensures Valid(Apply(r, e))
  {
    match e
    case Joined(p) =>
      if !p.local && r.botId != Some(p.id) && p.id !in r.remoteIds {
        AppendNoDuplicates(r.remoteIds, p.id);
      }
    case Left(p) =>
      WithoutNoDuplicates(r.remoteIds, p.id);
    case BotJoined(_) =>
    case TrackStartedEvent(_, _) =>
    case ScreenTrackStartedEvent(_, _) =>
  }

  /** Whatever events arrive, the id list stays duplicate-free and matches the remote records. */
  lemma {:induction false} ApplyAllValid(r: Registry, es: seq<Event>)
    requires Valid(r)
    ensures Valid(ApplyAll(r, es))
    decreases |es|
  {
    if es != [] {
      ApplyValid(r, es[0]);
      ApplyAllValid(Apply(r, es[0]), es[1..]);
    }
  }

  /** The empty registry is valid, so every reachable registry is. */
  lemma ReachableValid(es: seq<Event>)
    ensures Valid(ApplyAll(Empty, es))
  {
    ApplyAllValid(Empty, es);
  }

  /** A remote that joins and leaves again leaves the registry as it found it. */
  lemma JoinThenLeave(r: Registry, p: Participant)
    requires Valid(r) && !p.local && r.botId != Some(p.id) && p.id !in r.remoteIds
    requires forall t :: TrackKey(p.id, t) !in r.tracks
    ensures RemoveParticipant(AddParticipant(r, p), p) == r
  {
    var a := AddParticipant(r, p);
    var b := RemoveParticipant(a, p);
    JoinLeaveIds(r, p);
    JoinLeaveRemotes(r, p);
    JoinLeaveTracks(r, p);
    assert a == r.(remoteIds := a.remoteIds, remotes := a.remotes);
    assert b == a.(remoteIds := b.remoteIds, remotes := b.remotes, tracks := b.tracks);
  }

  lemma JoinLeaveIds(r: Registry, p: Participant)
    requires !p.local && r.botId != Some(p.id) && p.id !in r.remoteIds
    ensures RemoveParticipant(AddParticipant(r, p), p).remoteIds == r.remoteIds
  {
    assert AddParticipant(r, p).remoteIds == r.remoteIds + [p.id];
    WithoutAppend(r.remoteIds, p.id);
  }

  lemma JoinLeaveRemotes(r: Registry, p: Participant)
    requires Valid(r) && !p.local && r.botId != Some(p.id) && p.id !in r.remoteIds
    ensures RemoveParticipant(AddParticipant(r, p), p).remotes == r.remotes
  {
    assert p.id !in r.remotes;
    assert AddParticipant(r, p).remotes == r.remotes[p.id := p];
    assert r.remotes[p.id := p] - {p.id} == r.remotes;
  }

  lemma JoinLeaveTracks(r: Registry, p: Participant)
    requires !p.local && r.botId != Some(p.id)
    requires forall t :: TrackKey(p.id, t) !in r.tracks
    ensures RemoveParticipant(AddParticipant(r, p), p).tracks == r.tracks
  {
    assert AddParticipant(r, p).tracks == r.tracks;
    forall k | k in SlotKeys(p.id)
      ensures k !in r.tracks
    {
    }
    assert r.tracks - SlotKeys(p.id) == r.tracks;
  }

  lemma {:induction false} WithoutAppend(ids: seq<string>, x: string)
    requires x !in ids
    ensures Without(ids + [x], x) == ids
  {
    if ids == [] {
      assert Without([x], x) == [] + Without([], x);
    } else {
      assert (ids + [x])[1..] == ids[1..] + [x];
      WithoutAppend(ids[1..], x);
    }
  }

  /** A second "participant connected" for the same participant changes nothing. */
  lemma AddIdempotent(r: Registry, p: Participant)
    ensures AddParticipant(AddParticipant(r, p), p) == AddParticipant(r, p)
  {
  }

  /** After the bot's id is known, the bot fills the bot slot and is not listed as a remote. */
  lemma BotJoinsAfterAnnouncement(r: Registry, b: Participant)
    requires !b.local
    ensures var r' := AddParticipant(BotConnected(r, b), b);
            LookupParticipant(r', BotSlot) == Some(b) && r'.remoteIds == r.remoteIds
  {
  }

  /**
   * A bot that connects as a participant before its id is announced is
   * listed as a remote, and the bot slot stays empty.
   */
  lemma BotJoinsBeforeAnnouncement(r: Registry, b: Participant)
    requires !b.local && r.botId != Some(b.id) && r.bot.None?
    ensures var r' := BotConnected(AddParticipant(r, b), b);
            b.id in r'.remoteIds && LookupParticipant(r', BotSlot).None?
  {
  }

  /**
   * With an empty bot id, the participant handler and the track handlers
   * disagree: the bot test is strict equality in one and truthiness in
   * the other, so the participant fills the bot slot while its tracks go
   * to the slot named "".
   */
  lemma EmptyBotIdDisagreement(r: Registry, p: Participant, track: Track)
    requires r.botId == Some("") && p.id == "" && !p.local
    ensures AddParticipant(r, p).bot == Some(p)
    ensures TrackOf(TrackStarted(r, track, Some(p)), "", KindType(track.kind)).Some?
    ensures SlotId(r, p) != BotSlot
  {
  }

  /** Camera and screen tracks of one participant never share a slot. */
  lemma ScreenAndCameraSlotsDiffer(k1: TrackKind, k2: TrackKind, id: string)
    ensures TrackKey(id, KindType(k1)) != TrackKey(id, ScreenType(k2))
  {
    if TrackKey(id, KindType(k1)) == TrackKey(id, ScreenType(k2)) {
      TrackKeyInjective(id, KindType(k1), id, ScreenType(k2));
    }
  }
}
