/**
 * The Daily transport of the voice SDK: joining and leaving a call,
 * translating the call object's events into client callbacks, tracking
 * which remote participant is the bot, and reporting tracks.
 *
 * Event listeners are modelled by identity: `fn.bind(this)` makes a new
 * function each time it runs (`Bound(handler, connection)`), distinct
 * from the unbound method (`Unbound(handler)`), and removing a listener
 * removes only the registrations of that very function.
 */
module DailyTransport {
  import opened Wrappers
  import opened Types

  /** A participant as the call object reports it. */
  datatype DailyParticipant = DailyParticipant(
    userId: string,
    userName: string,
    sessionId: string,
    local: bool,
    audio: Option<Track>,
    video: Option<Track>)

  /** The client's participant record: id from the user id, name from the user name. */
  function ToParticipant(p: DailyParticipant): (q: Participant)
    ensures q.id == p.userId && q.name == p.userName && q.local == p.local
  {
    Participant(p.userId, p.userName, p.local)
  }

  /** The transport's event handlers. */
  datatype Handler =
    | TrackStartedHandler
    | TrackStoppedHandler
    | ParticipantJoinedHandler
    | ParticipantLeftHandler
    | LocalAudioLevelHandler
    | RemoteAudioLevelHandler
    | LeftMeetingHandler

  const AllHandlers: seq<Handler> := [TrackStartedHandler, TrackStoppedHandler, ParticipantJoinedHandler,
                                      ParticipantLeftHandler, LocalAudioLevelHandler, RemoteAudioLevelHandler,
                                      LeftMeetingHandler]

  /** The call-object event each handler listens to. */
  function EventName(h: Handler): string {
    match h
    case TrackStartedHandler => "track-started"
    case TrackStoppedHandler => "track-stopped"
    case ParticipantJoinedHandler => "participant-joined"
    case ParticipantLeftHandler => "participant-left"
    case LocalAudioLevelHandler => "local-audio-level"
    case RemoteAudioLevelHandler => "remote-participants-audio-level"
    case LeftMeetingHandler => "left-meeting"
  }

  /** Distinct handlers listen to distinct events. */
  lemma EventNamesDistinct(h1: Handler, h2: Handler)
    requires h1 != h2
    ensures EventName(h1) != EventName(h2)
  {
  }

  /** A function registered as a listener: a bound copy made on the n-th connect, or the bare method. */
  datatype FnRef = Bound(handler: Handler, connection: nat) | Unbound(handler: Handler)

  datatype Listener = Listener(event: string, fn: FnRef)

  /** What the transport tells the client. */
  datatype Callback =
    | OnConnected
    | OnDisconnected
    | OnParticipantJoined(p: Participant)
    | OnParticipantLeft(p: Participant)
    | OnBotConnected(p: Participant)
    | OnBotDisconnected(p: Participant)
    | OnTrackStarted(track: Track, participant: Option<Participant>)
    | OnTrackStopped(track: Track, participant: Option<Participant>)
    | OnLocalAudioLevel(level: real)
    | OnRemoteAudioLevel(level: real, speaker: Participant)

  datatype Transport = Transport(
    /** the bot's session id, "" when none */
    botId: string,
    listeners: seq<Listener>,
    /** how many times `connect` has run */
    connects: nat,
    callbacks: seq<Callback>)

  const Initial: Transport := Transport("", [], 0, [])

  /** What the call object emits. */
  datatype DailyEvent =
    | TrackStartedEvent(track: Track, participant: Option<DailyParticipant>)
    | TrackStoppedEvent(track: Track, participant: Option<DailyParticipant>)
    | ParticipantJoinedEvent(p: DailyParticipant)
    | ParticipantLeftEvent(p: DailyParticipant)
    | LocalAudioLevelEvent(level: real)
    /**
     * `participantsAudioLevel` as (session id, level) pairs in key order,
     * with the `participants()` map the handler reads at that moment and
     * whether the client set an `onRemoteAudioLevel` callback.
     */
    | RemoteAudioLevelEvent(levels: seq<(string, real)>, participants: map<string, DailyParticipant>, callbackSet: bool)
    | LeftMeetingEvent

  function HandlerOf(ev: DailyEvent): Handler {
    match ev
    case TrackStartedEvent(_, _) => TrackStartedHandler
    case TrackStoppedEvent(_, _) => TrackStoppedHandler
    case ParticipantJoinedEvent(_) => ParticipantJoinedHandler
    case ParticipantLeftEvent(_) => ParticipantLeftHandler
    case LocalAudioLevelEvent(_) => LocalAudioLevelHandler
    case RemoteAudioLevelEvent(_, _, _) => RemoteAudioLevelHandler
    case LeftMeetingEvent => LeftMeetingHandler
  }

  /**
   * The remote-level handler: with the callback set, one callback per
   * reported level, in key order, with the participant looked up by
   * session id.  An id missing from the participants map makes
   * `dailyParticipantToParticipant` throw, so the loop stops there.
   * With the callback unset, optional chaining skips the call together
   * with its arguments: nothing is reported and nothing is looked up.
   */
  function RemoteLevels(levels: seq<(string, real)>, participants: map<string, DailyParticipant>, callbackSet: bool): (cs: seq<Callback>)
    ensures |cs| <= |levels|
    ensures !callbackSet ==> cs == []
    ensures forall i :: 0 <= i < |cs| ==>
      levels[i].0 in participants && cs[i] == OnRemoteAudioLevel(levels[i].1, ToParticipant(participants[levels[i].0]))
    ensures callbackSet && |cs| < |levels| ==> levels[|cs|].0 !in participants
  {
    if !callbackSet || levels == [] || levels[0].0 !in participants then []
    else [OnRemoteAudioLevel(levels[0].1, ToParticipant(participants[levels[0].0]))] + RemoteLevels(levels[1..], participants, callbackSet)
  }

  /**
   * Whether the handler for `ev` throws: the remote-level callback is set
   * and a reported level's id is not a participant.
   */
  predicate Throws(ev: DailyEvent) {
    ev.RemoteAudioLevelEvent? && ev.callbackSet
    && exists i :: 0 <= i < |ev.levels| && ev.levels[i].0 !in ev.participants
  }

  /**
   * With the callback set, every level is reported exactly when the
   * handler does not throw; with it unset, the handler never throws.
   */
  lemma {:induction false} RemoteLevelsComplete(levels: seq<(string, real)>, participants: map<string, DailyParticipant>)
    ensures |RemoteLevels(levels, participants, true)| == |levels| <==> !Throws(RemoteAudioLevelEvent(levels, participants, true))
    ensures !Throws(RemoteAudioLevelEvent(levels, participants, false))
  {
    var cs := RemoteLevels(levels, participants, true);
    if |cs| < |levels| {
      assert levels[|cs|].0 !in participants;
    }
  }

  /**
   * One run of the handler for `ev`.  A remote participant joining is
   * taken to be the bot: its session id becomes the bot id and "bot
   * connected" follows "participant joined"; a remote leaving clears the
   * bot id; leaving the meeting clears it and reports a disconnect.
   */
  function Handle(t: Transport, ev: DailyEvent): (t': Transport)
    ensures t'.listeners == t.listeners && t'.connects == t.connects
    ensures |t'.callbacks| >= |t.callbacks| && t'.callbacks[..|t.callbacks|] == t.callbacks
    ensures ev.ParticipantJoinedEvent? && !ev.p.local ==>
      t'.botId == ev.p.sessionId
      && t'.callbacks == t.callbacks + [OnParticipantJoined(ToParticipant(ev.p)), OnBotConnected(ToParticipant(ev.p))]
    ensures ev.ParticipantJoinedEvent? && ev.p.local ==>
      t' == t.(callbacks := t.callbacks + [OnParticipantJoined(ToParticipant(ev.p))])
    ensures ev.ParticipantLeftEvent? && !ev.p.local ==>
      t'.botId == "" && t'.callbacks == t.callbacks + [OnParticipantLeft(ToParticipant(ev.p)), OnBotDisconnected(ToParticipant(ev.p))]
    ensures ev.ParticipantLeftEvent? && ev.p.local ==>
      t' == t.(callbacks := t.callbacks + [OnParticipantLeft(ToParticipant(ev.p))])
    ensures ev.TrackStartedEvent? ==>
      t'.callbacks == t.callbacks + [OnTrackStarted(ev.track, if ev.participant.Some? then Some(ToParticipant(ev.participant.value)) else None)]
    ensures ev.TrackStoppedEvent? ==>
      t'.callbacks == t.callbacks + [OnTrackStopped(ev.track, if ev.participant.Some? then Some(ToParticipant(ev.participant.value)) else None)]
    ensures ev.LocalAudioLevelEvent? ==> t'.callbacks == t.callbacks + [OnLocalAudioLevel(ev.level)]
    ensures ev.RemoteAudioLevelEvent? ==> t'.callbacks == t.callbacks + RemoteLevels(ev.levels, ev.participants, ev.callbackSet)
    ensures ev.LeftMeetingEvent? ==> t'.botId == "" && t'.callbacks == t.callbacks + [OnDisconnected]
    ensures !(ev.ParticipantJoinedEvent? || ev.ParticipantLeftEvent? || ev.LeftMeetingEvent?) ==> t'.botId == t.botId
  {
    match ev
    case TrackStartedEvent(track, p) =>
      t.(callbacks := t.callbacks + [OnTrackStarted(track, if p.Some? then Some(ToParticipant(p.value)) else None)])
    case TrackStoppedEvent(track, p) =>
      t.(callbacks := t.callbacks + [OnTrackStopped(track, if p.Some? then Some(ToParticipant(p.value)) else None)])
    case ParticipantJoinedEvent(p) =>
      var q := ToParticipant(p);
      var t1 := t.(callbacks := t.callbacks + [OnParticipantJoined(q)]);
      if p.local then t1
      else t1.(botId := p.sessionId, callbacks := t1.callbacks + [OnBotConnected(q)])
    case ParticipantLeftEvent(p) =>
      var q := ToParticipant(p);
      var t1 := t.(callbacks := t.callbacks + [OnParticipantLeft(q)]);
      if p.local then t1
      else t1.(botId := "", callbacks := t1.callbacks + [OnBotDisconnected(q)])
    case LocalAudioLevelEvent(level) =>
      t.(callbacks := t.callbacks + [OnLocalAudioLevel(level)])
    case RemoteAudioLevelEvent(levels, participants, callbackSet) =>
      t.(callbacks := t.callbacks + RemoteLevels(levels, participants, callbackSet))
    case LeftMeetingEvent =>
      t.(botId := "", callbacks := t.callbacks + [OnDisconnected])
  }

  /** How many listeners the call object holds for `event`. */
  function ListenerCount(ls: seq<Listener>, event: string): nat
    decreases |ls|
  {
    if ls == [] then 0
    else ListenerCount(ls[..|ls| - 1], event) + (if ls[|ls| - 1].event == event then 1 else 0)
  }

  /** `n` listeners run in turn; a throwing handler ends the emit, so the rest do not run. */
  function RunHandler(t: Transport, ev: DailyEvent, n: nat): (t': Transport)
    ensures t'.listeners == t.listeners && t'.connects == t.connects
    ensures ev.LeftMeetingEvent? ==> t'.botId == (if n == 0 then t.botId else "")
    decreases n
  {
    if n == 0 then t
    else if Throws(ev) then Handle(t, ev)
    else RunHandler(Handle(t, ev), ev, n - 1)
  }

  /** The call object emits `ev`: every listener for it runs the handler once. */
  function Dispatch(t: Transport, ev: DailyEvent): (t': Transport)
    ensures t'.listeners == t.listeners && t'.connects == t.connects
  {
    RunHandler(t, ev, ListenerCount(t.listeners, EventName(HandlerOf(ev))))
  }

  /** The seven listeners one `attachEventListeners` call registers, bound afresh. */
  function Fresh(connection: nat): (ls: seq<Listener>)
    ensures |ls| == 7
    ensures forall i :: 0 <= i < 7 ==> ls[i] == Listener(EventName(AllHandlers[i]), Bound(AllHandlers[i], connection))
  {
    seq(7, i requires 0 <= i < 7 => Listener(EventName(AllHandlers[i]), Bound(AllHandlers[i], connection)))
  }

  /**
   * `connect`: register fresh listeners, then join; "connected" is
   * reported only when the join succeeds, and a failed join leaves the
   * listeners in place.
   */
  function Connect(t: Transport, joins: bool): (t': Transport)
    ensures t'.connects == t.connects + 1
    ensures t'.listeners == t.listeners + Fresh(t.connects + 1)
    ensures joins <==> t'.callbacks == t.callbacks + [OnConnected]
    ensures !joins ==> t'.callbacks == t.callbacks
  {
    var t1 := t.(connects := t.connects + 1, listeners := t.listeners + Fresh(t.connects + 1));
    if joins then t1.(callbacks := t1.callbacks + [OnConnected]) else t1
  }

  /**
   * What a detach passes to `off`: the bare methods, or the functions
   * bound by a given connect; each paired with its handler's event.
   */
  datatype Detach = BareMethods | BoundBy(connection: nat)

  /** Whether `off` with these functions unregisters `l`. */
  predicate Removes(d: Detach, l: Listener) {
    l.event == EventName(l.fn.handler)
    && match d
       case BareMethods => l.fn.Unbound?
       case BoundBy(c) => l.fn == Bound(l.fn.handler, c)
  }

  /** Unregisters every listener the detach names. */
  function Off(ls: seq<Listener>, d: Detach): (r: seq<Listener>)
    ensures |r| <= |ls|
    ensures forall l :: l in r ==> l in ls
    decreases |ls|
  {
    if ls == [] then []
    else Off(ls[..|ls| - 1], d) + (if Removes(d, ls[|ls| - 1]) then [] else [ls[|ls| - 1]])
  }

  /** `off` keeps exactly the listeners the detach does not name. */
  lemma {:induction false} OffMembership(ls: seq<Listener>, d: Detach)
    ensures forall l :: l in Off(ls, d) <==> l in ls && !Removes(d, l)
    decreases |ls|
  {
    if ls != [] {
      var init := ls[..|ls| - 1];
      assert ls == init + [ls[|ls| - 1]];
      OffMembership(init, d);
    }
  }

  /** Leaving the call: the call object emits "left-meeting", then the transport reports the disconnect. */
  function Leave(t: Transport): (t': Transport)
    ensures t'.listeners == t.listeners && t'.connects == t.connects
    ensures t'.botId == (if ListenerCount(t.listeners, "left-meeting") == 0 then t.botId else "")
    ensures |t'.callbacks| > 0 && t'.callbacks[|t'.callbacks| - 1] == OnDisconnected
  {
    var t1 := Dispatch(t, LeftMeetingEvent);
    t1.(callbacks := t1.callbacks + [OnDisconnected])
  }

  /** `disconnect` as written: detaching with the bare methods, which were never registered. */
  function DisconnectAsWritten(t: Transport): (t': Transport)
    ensures t'.listeners == Off(t.listeners, BareMethods) && t'.connects == t.connects
  {
    Leave(t.(listeners := Off(t.listeners, BareMethods)))
  }

  /**
   * `disconnect` detaching the functions that were registered.  Its own
   * left-meeting handler is then gone before `leave` fires, so it clears
   * the bot id itself.
   */
  function Disconnect(t: Transport): (t': Transport)
    ensures t'.listeners == Off(t.listeners, BoundBy(t.connects)) && t'.connects == t.connects
    ensures t'.botId == ""
  {
    Leave(t.(listeners := Off(t.listeners, BoundBy(t.connects)), botId := ""))
  }

  /** The transport only ever registers bound functions from past connects. */
  ghost predicate WellFormed(t: Transport) {
    forall i :: 0 <= i < |t.listeners| ==> t.listeners[i].fn.Bound? && t.listeners[i].fn.connection <= t.connects
  }

  // ---------------------------------------------------------------------
  // Listener bookkeeping.

  lemma {:induction false} CountAppend(a: seq<Listener>, b: seq<Listener>, event: string)
    ensures ListenerCount(a + b, event) == ListenerCount(a, event) + ListenerCount(b, event)
    decreases |b|
  {
    if b == [] {
      assert a + b == a;
    } else {
      var b' := b[..|b| - 1];
      assert (a + b)[..|a + b| - 1] == a + b';
      assert (a + b)[|a + b| - 1] == b[|b| - 1];
      CountAppend(a, b', event);
    }
  }

  /** One attach adds exactly one listener for each handler's event. */
  lemma FreshCount(connection: nat, h: Handler)
    ensures ListenerCount(Fresh(connection), EventName(h)) == 1
  {
    var ls := Fresh(connection);
    var e := EventName(h);
    forall j | 0 <= j < 7
      ensures ls[j].event == e <==> AllHandlers[j] == h
    {
      if AllHandlers[j] != h {
        EventNamesDistinct(AllHandlers[j], h);
      }
    }
    assert ls[..7] == ls;
    forall k | 0 <= k < 7
      ensures ListenerCount(ls[..k + 1], e) == ListenerCount(ls[..k], e) + (if AllHandlers[k] == h then 1 else 0)
    {
      assert ls[..k + 1][..k] == ls[..k];
    }
    assert ListenerCount(ls[..0], e) == 0;
    var hits := seq(7, k requires 0 <= k < 7 => if AllHandlers[k] == h then 1 else 0);
    assert hits[0] + hits[1] + hits[2] + hits[3] + hits[4] + hits[5] + hits[6] == 1 by {
      match h
      case TrackStartedHandler =>
      case TrackStoppedHandler =>
      case ParticipantJoinedHandler =>
      case ParticipantLeftHandler =>
      case LocalAudioLevelHandler =>
      case RemoteAudioLevelHandler =>
      case LeftMeetingHandler =>
    }
  }

  /** Detaching with the bare methods removes nothing. */
  lemma UnboundOffIsNoOp(t: Transport)
    requires WellFormed(t)
    ensures Off(t.listeners, BareMethods) == t.listeners
  {
    OffNoneMatching(t.listeners, BareMethods);
  }

  lemma {:induction false} OffNoneMatching(ls: seq<Listener>, refs: Detach)
    requires forall i :: 0 <= i < |ls| ==> !Removes(refs, ls[i])
    ensures Off(ls, refs) == ls
    decreases |ls|
  {
    if ls != [] {
      var init, last := ls[..|ls| - 1], ls[|ls| - 1];
      assert ls == init + [last];
      assert !Removes(refs, last);
      assert Off(ls, refs) == Off(init, refs) + [last];
      assert forall i :: 0 <= i < |init| ==> !Removes(refs, init[i]) by {
        assert forall i :: 0 <= i < |init| ==> init[i] == ls[i];
      }
      OffNoneMatching(init, refs);
    }
  }

  lemma {:induction false} OffAppend(a: seq<Listener>, b: seq<Listener>, refs: Detach)
    ensures Off(a + b, refs) == Off(a, refs) + Off(b, refs)
    decreases |b|
  {
    if b == [] {
      assert a + b == a;
    } else {
      var b' := b[..|b| - 1];
      assert (a + b)[..|a + b| - 1] == a + b';
      assert (a + b)[|a + b| - 1] == b[|b| - 1];
      OffAppend(a, b', refs);
    }
  }

  lemma {:induction false} OffAllMatching(ls: seq<Listener>, refs: Detach)
    requires forall i :: 0 <= i < |ls| ==> Removes(refs, ls[i])
    ensures Off(ls, refs) == []
    decreases |ls|
  {
    if ls != [] {
      var init := ls[..|ls| - 1];
      assert forall i :: 0 <= i < |init| ==> Removes(refs, init[i]) by {
        assert forall i :: 0 <= i < |init| ==> init[i] == ls[i];
      }
      OffAllMatching(init, refs);
      var last := ls[|ls| - 1];
      assert Removes(refs, last);
      assert Off(ls, refs) == Off(init, refs) + [];
    }
  }

  // ---------------------------------------------------------------------
  // Properties.

  /** A failed join reports nothing to the client. */
  lemma FailedJoinIsSilent(t: Transport)
    ensures Connect(t, false).callbacks == t.callbacks
  {
  }

  /** `tracks()`: the local participant's tracks, and the bot's only when its session is in the call. */
  datatype TrackPair = TrackPair(audio: Option<Track>, video: Option<Track>)
  datatype TracksView = TracksView(local: TrackPair, bot: Option<TrackPair>)

  function Tracks(t: Transport, participants: map<string, DailyParticipant>): (v: TracksView)
    ensures v.bot.Some? <==> t.botId in participants
    ensures v.bot.Some? ==> v.bot.value == TrackPair(participants[t.botId].audio, participants[t.botId].video)
    ensures "local" in participants ==> v.local == TrackPair(participants["local"].audio, participants["local"].video)
    ensures "local" !in participants ==> v.local == TrackPair(None, None)
  {
    var local := if "local" in participants then TrackPair(participants["local"].audio, participants["local"].video)
                 else TrackPair(None, None);
    var bot := if t.botId in participants then Some(TrackPair(participants[t.botId].audio, participants[t.botId].video))
               else None;
    TracksView(local, bot)
  }

  /** After the bot joins, the reported tracks include the bot's; after it leaves, they do not. */
  lemma BotTracksFollowMembership(t: Transport, b: DailyParticipant, participants: map<string, DailyParticipant>)
    requires !b.local && b.sessionId != "" && b.sessionId in participants && "" !in participants
    requires ListenerCount(t.listeners, "participant-joined") == 1
    requires ListenerCount(t.listeners, "participant-left") == 1
    ensures var joined := Dispatch(t, ParticipantJoinedEvent(b));
            Tracks(joined, participants).bot.Some?
            && Tracks(Dispatch(joined, ParticipantLeftEvent(b)), participants).bot.None?
  {
    var joined := Dispatch(t, ParticipantJoinedEvent(b));
    assert joined == Handle(t, ParticipantJoinedEvent(b));
    assert Dispatch(joined, ParticipantLeftEvent(b)) == Handle(joined, ParticipantLeftEvent(b));
  }

  // ---------------------------------------------------------------------
  // Detaching listeners: as written and as intended.

  /** A connect followed by the written disconnect. */
  function CycleAsWritten(t: Transport): Transport {
    DisconnectAsWritten(Connect(t, true))
  }

  /** A connect keeps the transport well formed: its fresh listeners are bound by the new connection. */
  lemma ConnectWellFormed(t: Transport, joins: bool)
    requires WellFormed(t)
    ensures WellFormed(Connect(t, joins))
  {
    var c := Connect(t, joins);
    var f := Fresh(t.connects + 1);
    forall i | 0 <= i < |c.listeners|
      ensures c.listeners[i].fn.Bound? && c.listeners[i].fn.connection <= c.connects
    {
      if i >= |t.listeners| {
        assert c.listeners[i] == f[i - |t.listeners|];
      }
    }
  }

  /** The written cycle keeps every listener, the new connection's included. */
  lemma CycleListeners(t: Transport)
    requires WellFormed(t)
    ensures CycleAsWritten(t).listeners == t.listeners + Fresh(t.connects + 1)
    ensures CycleAsWritten(t).connects == t.connects + 1
    ensures WellFormed(CycleAsWritten(t))
  {
    var c := Connect(t, true);
    ConnectWellFormed(t, true);
    UnboundOffIsNoOp(c);
    assert DisconnectAsWritten(c).listeners == c.listeners;
  }

  /** Each connect/disconnect cycle as written leaves one more listener per event behind. */
  lemma CycleAsWrittenAddsListeners(t: Transport, h: Handler)
    requires WellFormed(t)
    ensures WellFormed(CycleAsWritten(t))
    ensures ListenerCount(CycleAsWritten(t).listeners, EventName(h)) == ListenerCount(t.listeners, EventName(h)) + 1
  {
    CycleListeners(t);
    CountAppend(t.listeners, Fresh(t.connects + 1), EventName(h));
    FreshCount(t.connects + 1, h);
  }

  /** A remote participant joining with two listeners registered reports the join twice. */
  lemma JoinWithTwoListeners(t: Transport, b: DailyParticipant)
    requires !b.local
    requires ListenerCount(t.listeners, EventName(ParticipantJoinedHandler)) == 2
    ensures var q := ToParticipant(b);
            Dispatch(t, ParticipantJoinedEvent(b)).callbacks
              == t.callbacks + [OnParticipantJoined(q), OnBotConnected(q), OnParticipantJoined(q), OnBotConnected(q)]
  {
    var q := ToParticipant(b);
    var ev := ParticipantJoinedEvent(b);
    var once := Handle(t, ev);
    assert once.callbacks == t.callbacks + [OnParticipantJoined(q), OnBotConnected(q)];
    var twice := Handle(once, ev);
    assert twice.callbacks == once.callbacks + [OnParticipantJoined(q), OnBotConnected(q)];
    assert Dispatch(t, ev) == RunHandler(t, ev, 2);
    assert RunHandler(t, ev, 2) == RunHandler(once, ev, 1) == RunHandler(twice, ev, 0);
  }

  /** Two attaches register two listeners for every event. */
  lemma TwoAttachesCount(c1: nat, c2: nat, h: Handler)
    ensures ListenerCount(Fresh(c1) + Fresh(c2), EventName(h)) == 2
  {
    CountAppend(Fresh(c1), Fresh(c2), EventName(h));
    FreshCount(c1, h);
    FreshCount(c2, h);
  }

  /** As written, a cycle followed by a connect leaves two listeners for every event. */
  lemma CycleThenConnectCount(t: Transport, h: Handler)
    requires t.listeners == []
    ensures ListenerCount(Connect(CycleAsWritten(t), true).listeners, EventName(h)) == 2
  {
    assert WellFormed(t);
    CycleListeners(t);
    var first := CycleAsWritten(t);
    assert first.listeners == Fresh(t.connects + 1) by {
      assert [] + Fresh(t.connects + 1) == Fresh(t.connects + 1);
    }
    assert Connect(first, true).listeners == Fresh(t.connects + 1) + Fresh(t.connects + 2);
    TwoAttachesCount(t.connects + 1, t.connects + 2, h);
  }

  /**
   * The written detach, exhibited: connect, disconnect, connect again,
   * and a remote participant joining reports "participant joined" and
   * "bot connected" twice each.
   */
  lemma ReconnectDuplicatesCallbacks(b: DailyParticipant)
    requires !b.local
    ensures var t := Connect(CycleAsWritten(Initial), true);
            var q := ToParticipant(b);
            Dispatch(t, ParticipantJoinedEvent(b)).callbacks
              == t.callbacks + [OnParticipantJoined(q), OnBotConnected(q), OnParticipantJoined(q), OnBotConnected(q)]
  {
    CycleThenConnectCount(Initial, ParticipantJoinedHandler);
    JoinWithTwoListeners(Connect(CycleAsWritten(Initial), true), b);
  }

  /** From no listeners, the written cycle is a connect followed by a plain leave. */
  lemma CycleIsPlainLeave(t: Transport)
    requires t.listeners == []
    ensures CycleAsWritten(t) == Leave(Connect(t, true))
  {
    var c := Connect(t, true);
    assert WellFormed(t);
    ConnectWellFormed(t, true);
    UnboundOffIsNoOp(c);
    assert c.(listeners := Off(c.listeners, BareMethods)) == c;
  }

  /** A first connect registers one listener for each event. */
  lemma FirstConnectCount(t: Transport, joins: bool, h: Handler)
    requires t.listeners == []
    ensures ListenerCount(Connect(t, joins).listeners, EventName(h)) == 1
  {
    assert Connect(t, joins).listeners == Fresh(t.connects + 1) by {
      assert [] + Fresh(t.connects + 1) == Fresh(t.connects + 1);
    }
    FreshCount(t.connects + 1, h);
  }

  /** A written cycle from a transport with no listeners reports "disconnected" twice. */
  lemma CycleReportsTwice(t: Transport)
    requires t.listeners == []
    ensures CycleAsWritten(t).callbacks == t.callbacks + [OnConnected, OnDisconnected, OnDisconnected]
  {
    CycleIsPlainLeave(t);
    FirstConnectCount(t, true, LeftMeetingHandler);
    LeaveWithOneListener(Connect(t, true));
  }

  /** As written, the first disconnect already reports "disconnected" twice. */
  lemma DisconnectReportedTwice()
    ensures CycleAsWritten(Initial).callbacks == [OnConnected, OnDisconnected, OnDisconnected]
  {
    CycleReportsTwice(Initial);
  }

  /** Leaving with one "left-meeting" listener reports "disconnected" from the listener and again afterwards. */
  lemma LeaveWithOneListener(t: Transport)
    requires ListenerCount(t.listeners, EventName(LeftMeetingHandler)) == 1
    ensures Leave(t).callbacks == t.callbacks + [OnDisconnected, OnDisconnected]
  {
    assert Dispatch(t, LeftMeetingEvent) == RunHandler(Handle(t, LeftMeetingEvent), LeftMeetingEvent, 0);
  }

  /** The intended detach removes exactly what the matching connect registered. */
  lemma DisconnectUndoesConnect(t: Transport, joins: bool)
    requires WellFormed(t)
    ensures Disconnect(Connect(t, joins)).listeners == t.listeners
    ensures WellFormed(Disconnect(Connect(t, joins)))
  {
    OffUndoesConnect(t, joins);
  }

  /** Detaching a connect's bound functions leaves the listeners that were there before it. */
  lemma OffUndoesConnect(t: Transport, joins: bool)
    requires WellFormed(t)
    ensures Off(Connect(t, joins).listeners, BoundBy(t.connects + 1)) == t.listeners
  {
    var refs := BoundBy(t.connects + 1);
    OffAppend(t.listeners, Fresh(t.connects + 1), refs);
    OffNoneMatching(t.listeners, refs);
    OffAllMatching(Fresh(t.connects + 1), refs);
  }

  /** With the intended detach, a disconnect reports "disconnected" once and leaves no listener. */
  lemma DisconnectReportedOnce()
    ensures Disconnect(Connect(Initial, true)).callbacks == [OnConnected, OnDisconnected]
    ensures Disconnect(Connect(Initial, true)).listeners == []
  {
    DisconnectUndoesConnect(Initial, true);
  }

  /** With the intended detach, after a reconnect the bot's join is reported once. */
  lemma ReconnectReportsOnce(b: DailyParticipant)
    requires !b.local
    ensures var t := Connect(Disconnect(Connect(Initial, true)), true);
            var q := ToParticipant(b);
            Dispatch(t, ParticipantJoinedEvent(b)).callbacks == t.callbacks + [OnParticipantJoined(q), OnBotConnected(q)]
  {
    DisconnectUndoesConnect(Initial, true);
    var d := Disconnect(Connect(Initial, true));
    FreshCount(d.connects + 1, ParticipantJoinedHandler);
    assert [] + Fresh(d.connects + 1) == Fresh(d.connects + 1);
  }
}
