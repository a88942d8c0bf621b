/**
 * The state a React provider mirrors from the client: the transport
 * state and whether camera, microphone and screen share are enabled.
 * The flags start false and the transport state "disconnected"; on
 * "initialized" the flags are reloaded from the client, and the camera
 * and microphone setters update the flag at once and forward the call,
 * while the screen-share setter only forwards and waits for the screen
 * track events of the local participant.
 */
module ClientState {
  import opened Wrappers
  import opened Types

  /** What the client reports at the moment of a state change; a missing getter reads as absent. */
  datatype ClientView = ClientView(camEnabled: Option<bool>, micEnabled: Option<bool>, sharingScreen: Option<bool>)

  /** A call forwarded to the client. */
  datatype Forward = EnableCam(enabled: bool) | EnableMic(enabled: bool) | EnableScreenShare(enabled: bool)

  datatype Mirror = Mirror(
    hasClient: bool,
    transportState: TransportState,
    camEnabled: bool,
    micEnabled: bool,
    screenShareEnabled: bool,
    forwarded: seq<Forward>)

  function Initial(hasClient: bool): (m: Mirror)
    ensures m.transportState == Disconnected
    ensures !m.camEnabled && !m.micEnabled && !m.screenShareEnabled && m.forwarded == []
  {
    Mirror(hasClient, Disconnected, false, false, false, [])
  }

  /** What happens to the provider. */
  datatype Event =
    | StateChanged(state: TransportState, view: ClientView)
    | SetCam(enabled: bool)
    | SetMic(enabled: bool)
    | SetScreenShare(enabled: bool)
    | ScreenTrackStarted(participant: Option<Participant>)
    | ScreenTrackStopped(participant: Option<Participant>)

  /** `participant?.local`: an absent participant is not local. */
  predicate IsLocal(p: Option<Participant>) {
    p.Some? && p.value.local
  }

  /** Every state change is mirrored; "initialized" also reloads the three flags (absent reads false). */
  function OnStateChanged(m: Mirror, s: TransportState, view: ClientView): (m': Mirror)
    ensures m'.transportState == s && m'.forwarded == m.forwarded
    ensures s == Initialized && m.hasClient ==>
      m'.camEnabled == view.camEnabled.GetOr(false)
      && m'.micEnabled == view.micEnabled.GetOr(false)
      && m'.screenShareEnabled == view.sharingScreen.GetOr(false)
    ensures !(s == Initialized && m.hasClient) ==> m' == m.(transportState := s)
  {
    var m1 := m.(transportState := s);
    if s == Initialized && m.hasClient then
      m1.(camEnabled := view.camEnabled.GetOr(false),
          micEnabled := view.micEnabled.GetOr(false),
          screenShareEnabled := view.sharingScreen.GetOr(false))
    else m1
  }

  /** The three enabled flags the provider mirrors. */
  datatype Flag = CamFlag | MicFlag | ScreenFlag

  function FlagOf(m: Mirror, f: Flag): bool {
    match f
    case CamFlag => m.camEnabled
    case MicFlag => m.micEnabled
    case ScreenFlag => m.screenShareEnabled
  }

  /**
   * One event of the provider.  Each setter forwards its own call with
   * its argument, and only when a client exists; enableCam and enableMic
   * also set their flag, enableScreenShare sets none.  Only a local
   * screen-track event moves the screen-share flag outside a reload.
   */
  function Apply(m: Mirror, e: Event): (m': Mirror)
    ensures m'.hasClient == m.hasClient
    ensures e.SetCam? ==> m'.forwarded == m.forwarded + (if m.hasClient then [EnableCam(e.enabled)] else [])
    ensures e.SetMic? ==> m'.forwarded == m.forwarded + (if m.hasClient then [EnableMic(e.enabled)] else [])
    ensures e.SetScreenShare? ==> m'.forwarded == m.forwarded + (if m.hasClient then [EnableScreenShare(e.enabled)] else [])
    ensures e.SetCam? ==> m' == m.(camEnabled := e.enabled, forwarded := m'.forwarded)
    ensures e.SetMic? ==> m' == m.(micEnabled := e.enabled, forwarded := m'.forwarded)
    ensures e.SetScreenShare? ==> m' == m.(forwarded := m'.forwarded)
    ensures e.ScreenTrackStarted? || e.ScreenTrackStopped? ==> m' == m.(screenShareEnabled := m'.screenShareEnabled)
    ensures !(e.SetCam? || e.SetMic? || e.SetScreenShare?) ==> m'.forwarded == m.forwarded
    ensures m'.camEnabled == Signal(CamFlag, m.hasClient, e).GetOr(m.camEnabled)
    ensures m'.micEnabled == Signal(MicFlag, m.hasClient, e).GetOr(m.micEnabled)
    ensures m'.screenShareEnabled == Signal(ScreenFlag, m.hasClient, e).GetOr(m.screenShareEnabled)
  {
    match e
    case StateChanged(s, view) => OnStateChanged(m, s, view)
    case SetCam(b) => m.(camEnabled := b, forwarded := if m.hasClient then m.forwarded + [EnableCam(b)] else m.forwarded)
    case SetMic(b) => m.(micEnabled := b, forwarded := if m.hasClient then m.forwarded + [EnableMic(b)] else m.forwarded)
    case SetScreenShare(b) => m.(forwarded := if m.hasClient then m.forwarded + [EnableScreenShare(b)] else m.forwarded)
    case ScreenTrackStarted(p) => if IsLocal(p) then m.(screenShareEnabled := true) else m
    case ScreenTrackStopped(p) => if IsLocal(p) then m.(screenShareEnabled := false) else m
  }

  /** Forwarded calls are only ever appended, and only with a client. */
  function ApplyAll(m: Mirror, es: seq<Event>): (m': Mirror)
    ensures m'.hasClient == m.hasClient
    ensures m.forwarded <= m'.forwarded
    ensures !m.hasClient ==> m'.forwarded == m.forwarded
    decreases |es|
  {
    if es == [] then m else ApplyAll(Apply(m, es[0]), es[1..])
  }

  // ---------------------------------------------------------------------
  // Reference readings of an event history.

  /** The state of the last state change in `es`, if any. */
  function LastState(es: seq<Event>): Option<TransportState>
    decreases |es|
  {
    if es == [] then None
    else if es[|es| - 1].StateChanged? then Some(es[|es| - 1].state)
    else LastState(es[..|es| - 1])
  }

  /**
   * The value an event sets a flag to, if it sets one: a reload on
   * "initialized" with a client sets all three; the camera and
   * microphone setters set their own flag; a local screen track start
   * or stop sets the screen-share flag.
   */
  function Signal(f: Flag, hasClient: bool, e: Event): Option<bool> {
    match e
    case StateChanged(s, view) =>
      if s == Initialized && hasClient then
        Some(match f
             case CamFlag => view.camEnabled.GetOr(false)
             case MicFlag => view.micEnabled.GetOr(false)
             case ScreenFlag => view.sharingScreen.GetOr(false))
      else None
    case SetCam(b) => if f == CamFlag then Some(b) else None
    case SetMic(b) => if f == MicFlag then Some(b) else None
    case SetScreenShare(_) => None
    case ScreenTrackStarted(p) => if f == ScreenFlag && IsLocal(p) then Some(true) else None
    case ScreenTrackStopped(p) => if f == ScreenFlag && IsLocal(p) then Some(false) else None
  }

  /** The value of the last event in `es` that sets flag `f`, if any. */
  function LastSignal(f: Flag, hasClient: bool, es: seq<Event>): Option<bool>
    decreases |es|
  {
    if es == [] then None
    else if Signal(f, hasClient, es[|es| - 1]).Some? then Signal(f, hasClient, es[|es| - 1])
    else LastSignal(f, hasClient, es[..|es| - 1])
  }

  /** The call a setter forwards to a client, in order. */
  function CallOf(e: Event): seq<Forward> {
    match e
    case SetCam(b) => [EnableCam(b)]
    case SetMic(b) => [EnableMic(b)]
    case SetScreenShare(b) => [EnableScreenShare(b)]
    case _ => []
  }

  /** Every setter call of a history, in order. */
  function Calls(es: seq<Event>): seq<Forward>
    decreases |es|
  {
    if es == [] then [] else Calls(es[..|es| - 1]) + CallOf(es[|es| - 1])
  }

  /** Applying a history is applying its prefix, then its last event. */
  lemma {:induction false} ApplyAllSnoc(m: Mirror, es: seq<Event>, e: Event)
    ensures ApplyAll(m, es + [e]) == Apply(ApplyAll(m, es), e)
    decreases |es|
  {
    if es != [] {
      assert (es + [e])[1..] == es[1..] + [e];
      ApplyAllSnoc(Apply(m, es[0]), es[1..], e);
    }
  }

  /** The mirrored transport state is the last one reported, "disconnected" before any. */
  lemma {:induction false} TransportStateIsLast(hasClient: bool, es: seq<Event>)
    ensures ApplyAll(Initial(hasClient), es).transportState == LastState(es).GetOr(Disconnected)
    decreases |es|
  {
    if es != [] {
      var init := es[..|es| - 1];
      assert es == init + [es[|es| - 1]];
      ApplyAllSnoc(Initial(hasClient), init, es[|es| - 1]);
      TransportStateIsLast(hasClient, init);
    }
  }

  /**
   * Each flag is whatever the last event that sets it said, false before
   * any: for the camera and microphone the last setter call or reload,
   * for screen sharing the last local screen event or reload.
   */
  lemma {:induction false} FlagIsLastSignal(f: Flag, hasClient: bool, es: seq<Event>)
    ensures FlagOf(ApplyAll(Initial(hasClient), es), f) == LastSignal(f, hasClient, es).GetOr(false)
    decreases |es|
  {
    if es != [] {
      var init := es[..|es| - 1];
      assert es == init + [es[|es| - 1]];
      ApplyAllSnoc(Initial(hasClient), init, es[|es| - 1]);
      FlagIsLastSignal(f, hasClient, init);
    }
  }

  /** The screen-share setter alone never moves the flag; only local screen events and reloads do. */
  lemma ScreenShareIsLastSignal(hasClient: bool, es: seq<Event>)
    ensures ApplyAll(Initial(hasClient), es).screenShareEnabled == LastSignal(ScreenFlag, hasClient, es).GetOr(false)
  {
    FlagIsLastSignal(ScreenFlag, hasClient, es);
  }

  /** With a client, the forwarded calls are exactly the setter calls, in order, with their arguments. */
  lemma {:induction false} ForwardedAreTheCalls(hasClient: bool, es: seq<Event>)
    ensures ApplyAll(Initial(hasClient), es).forwarded == (if hasClient then Calls(es) else [])
    decreases |es|
  {
    if es != [] {
      var init := es[..|es| - 1];
      assert es == init + [es[|es| - 1]];
      ApplyAllSnoc(Initial(hasClient), init, es[|es| - 1]);
      ForwardedAreTheCalls(hasClient, init);
    }
  }

  /** Without a client the setters only move the local flags, and nothing is forwarded. */
  lemma NoClientNothingForwarded(es: seq<Event>)
    ensures ApplyAll(Initial(false), es).forwarded == []
  {
    ForwardedAreTheCalls(false, es);
  }
}
