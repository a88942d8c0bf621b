/** Shared records of the client: transport states, participants and media tracks. */
module Types {
  import opened Wrappers

  /** The transport states the client reports, in the order a successful session visits them. */
  datatype TransportState =
    | Disconnected
    | Initializing
    | Initialized
    | Connecting
    | Connected
    | Ready
    | Disconnecting
    | Error

  /** The payload string of a `transportStateChanged` event. */
  function StateName(s: TransportState): string {
    match s
    case Disconnected => "disconnected"
    case Initializing => "initializing"
    case Initialized => "initialized"
    case Connecting => "connecting"
    case Connected => "connected"
    case Ready => "ready"
    case Disconnecting => "disconnecting"
    case Error => "error"
  }

  /** Reads a state name back. */
  function ParseState(name: string): (r: Option<TransportState>)
    ensures r.Some? ==> StateName(r.value) == name
  {
    if name == "disconnected" then Some(Disconnected)
    else if name == "initializing" then Some(Initializing)
    else if name == "initialized" then Some(Initialized)
    else if name == "connecting" then Some(Connecting)
    else if name == "connected" then Some(Connected)
    else if name == "ready" then Some(Ready)
    else if name == "disconnecting" then Some(Disconnecting)
    else if name == "error" then Some(Error)
    else None
  }

  /** Every state name reads back as the state it names, so names are distinct. */
  lemma ParseStateName(s: TransportState)
    ensures ParseState(StateName(s)) == Some(s)
  {
  }

  /** A participant as the transport reports it. */
  datatype Participant = Participant(id: string, name: string, local: bool)

  /** `MediaStreamTrack.kind`. */
  datatype TrackKind = AudioKind | VideoKind

  /**
   * A media track: its id, its kind, and which track object it is
   * (`handle`), since two objects can carry the same id.
   */
  datatype Track = Track(id: string, kind: TrackKind, handle: nat)

  /** The four track slots a participant has. */
  datatype TrackType = Audio | Video | ScreenAudio | ScreenVideo

  function TrackTypeName(t: TrackType): string {
    match t
    case Audio => "audio"
    case Video => "video"
    case ScreenAudio => "screenAudio"
    case ScreenVideo => "screenVideo"
  }
}
