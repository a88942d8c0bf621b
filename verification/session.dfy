/**
 * The client session as its behaviour tests exercise it against a stub
 * transport: device initialisation, connect and disconnect with the
 * `transportStateChanged` events they emit, function-call handlers, the
 * outbound message size limit with its `onError` report, and the screen
 * share flag.  Whether the transport joins is an input, and so are the
 * message ids the client would otherwise draw at random.
 */
module Session {
  import opened Wrappers
  import opened Json
  import opened Types
  import Text
  import Errors
  import JsonSizes

  /** The transport's default outbound limit: 64 KiB. */
  const DefaultMaxMessageSize: nat := 64 * 1024
  /** The label every client envelope carries. */
  const MessageLabel: string := "rtvi-ai"
  /** The phrase an oversize report always contains. */
  const TooLargeText: string := "Message data too large"

  /** A message on the wire: `{id, label, type, data}`. */
  datatype Envelope = Envelope(id: string, msgLabel: string, msgType: string, data: Json)

  /** The JSON object an envelope serialises as. */
  function EnvelopeJson(m: Envelope): (j: Json)
    ensures j.Obj? && |j.members| == 4
    ensures Lookup(j.members, "data") == Some(m.data)
    ensures Lookup(j.members, "type") == Some(Str(m.msgType))
  {
    Obj([("id", Str(m.id)), ("label", Str(m.msgLabel)), ("type", Str(m.msgType)), ("data", m.data)])
  }

  /** One call of a registered function-call handler, identified by a number. */
  datatype Invocation = Invocation(handler: nat, functionName: string, toolCallId: Option<string>, arguments: Option<Json>)

  datatype Client = Client(
    state: TransportState,
    /** payloads of every `transportStateChanged` event, in order */
    stateLog: seq<TransportState>,
    connectionParams: Option<Json>,
    handlers: map<string, nat>,
    invocations: seq<Invocation>,
    /** whether an `onError` callback was given */
    onError: bool,
    /** envelopes handed to `onError` */
    errorLog: seq<Envelope>,
    /** envelopes handed to the transport */
    sent: seq<Envelope>,
    sharingScreen: bool,
    maxMessageSize: nat)

  /** What a command threw, if anything. */
  datatype Thrown = AlreadyStarted | Raised(error: Errors.RtviError)

  datatype Outcome = Outcome(client: Client, thrown: Option<Thrown>)

  /** `client.connected`: the transport is connected, whether or not the bot is ready. */
  predicate IsConnected(c: Client) {
    c.state == Connected || c.state == Ready
  }

  /** A freshly constructed client. */
  function NewClient(onError: bool, maxMessageSize: Option<nat>): (c: Client)
    ensures c.state == Disconnected && !IsConnected(c)
    ensures c.stateLog == [] && c.sent == [] && c.errorLog == [] && c.invocations == []
    ensures c.handlers == map[] && !c.sharingScreen && c.onError == onError
    ensures maxMessageSize.None? ==> c.maxMessageSize == DefaultMaxMessageSize
    ensures maxMessageSize.Some? ==> c.maxMessageSize == maxMessageSize.value
  {
    Client(Disconnected, [], None, map[], [], onError, [], [], false, maxMessageSize.GetOr(DefaultMaxMessageSize))
  }

  /** The transport moves to `s` and reports it. */
  function Emit(c: Client, s: TransportState): Client {
    c.(state := s, stateLog := c.stateLog + [s])
  }

  /** States from which the devices still need initialising. */
  predicate NeedsDevices(s: TransportState) {
    s == Disconnected || s == Error
  }

  /** States in which a session is under way and `connect` refuses to start another. */
  predicate Active(s: TransportState) {
    s == Initializing || s == Connecting || s == Connected || s == Ready
  }

  /**
   * `initDevices()`: from a disconnected or failed transport, report
   * "initializing" then "initialized"; with devices already set up, do
   * nothing.
   */
  function InitDevices(c: Client): (r: Client)
    ensures NeedsDevices(c.state) ==> r.state == Initialized && r.stateLog == c.stateLog + [Initializing, Initialized]
    ensures !NeedsDevices(c.state) ==> r == c
    ensures r.sent == c.sent && r.handlers == c.handlers && r.errorLog == c.errorLog
  {
    if NeedsDevices(c.state) then Emit(Emit(c, Initializing), Initialized) else c
  }

  /**
   * `connect(params)`: initialise devices if needed, then "connecting";
   * a transport that joins goes on to "connected" and, with the bot ready,
   * "ready"; one that does not ends in "error" and the call throws a
   * `TransportStartError`.  `params` may be null.
   */
  function Connect(c: Client, params: Option<Json>, joins: bool): (o: Outcome)
    ensures Active(c.state) ==> o == Outcome(c, Some(AlreadyStarted))
    ensures !Active(c.state) && joins ==> o.thrown.None? && o.client.state == Ready && IsConnected(o.client)
    ensures !Active(c.state) && !joins ==>
      o.client.state == Error && o.thrown == Some(Raised(Errors.NewTransportStartError(None)))
    ensures !Active(c.state) ==> o.client.connectionParams == params
    ensures o.client.sent == c.sent && o.client.handlers == c.handlers
  {
    if Active(c.state) then Outcome(c, Some(AlreadyStarted))
    else
      var c1 := Emit(InitDevices(c).(connectionParams := params), Connecting);
      if joins then Outcome(Emit(Emit(c1, Connected), Ready), None)
      else Outcome(Emit(c1, Error), Some(Raised(Errors.NewTransportStartError(None))))
  }

  /** `disconnect()`: report "disconnecting" then "disconnected". */
  function Disconnect(c: Client): (r: Client)
    ensures r.state == Disconnected && !IsConnected(r)
    ensures r.stateLog == c.stateLog + [Disconnecting, Disconnected]
    ensures r.sent == c.sent && r.handlers == c.handlers && r.errorLog == c.errorLog
  {
    Emit(Emit(c, Disconnecting), Disconnected)
  }

  /** `registerFunctionCallHandler(name, handler)`: a later registration replaces an earlier one. */
  function RegisterFunctionCallHandler(c: Client, name: string, handler: nat): (r: Client)
    ensures name in r.handlers && r.handlers[name] == handler
    ensures forall n :: n in c.handlers && n != name ==> n in r.handlers && r.handlers[n] == c.handlers[n]
    ensures r.handlers.Keys == c.handlers.Keys + {name}
    ensures r == c.(handlers := r.handlers)
  {
    c.(handlers := c.handlers[name := handler])
  }

  /** A string-valued member of a message's data. */
  function StringField(data: Json, key: string): (r: Option<string>)
    ensures r.Some? <==> data.Obj? && Lookup(data.members, key).Some? && Lookup(data.members, key).value.Str?
    ensures r.Some? ==> Lookup(data.members, key) == Some(Str(r.value))
  {
    if data.Obj? then
      match Lookup(data.members, key)
      case Some(Str(s)) => Some(s)
      case _ => None
    else None
  }

  /**
   * An inbound "llm-function-call" message runs the handler registered
   * under its `function_name`, passing the tool call id and `args`; any
   * other message, or a name without a handler, runs nothing.
   */
  function HandleMessage(c: Client, m: Envelope): (r: Client)
    ensures r == c.(invocations := r.invocations)
    ensures |r.invocations| <= |c.invocations| + 1
    ensures |r.invocations| == |c.invocations| + 1 <==>
      m.msgType == "llm-function-call" && StringField(m.data, "function_name").Some?
      && StringField(m.data, "function_name").value in c.handlers
    ensures |r.invocations| == |c.invocations| + 1 ==>
      var name := StringField(m.data, "function_name").value;
      r.invocations == c.invocations + [Invocation(c.handlers[name], name, StringField(m.data, "tool_call_id"),
                                                   Lookup(m.data.members, "args"))]
  {
    if m.msgType == "llm-function-call" then
      match StringField(m.data, "function_name")
      case Some(name) =>
        if name in c.handlers then
          var call := Invocation(c.handlers[name], name, StringField(m.data, "tool_call_id"), Lookup(m.data.members, "args"));
          c.(invocations := c.invocations + [call])
        else c
      case None => c
    else c
  }

  /**
   * The payload of a client message, assumed to be `{t: msgType, d: data}`
   * (`client.ts`, which builds it, is not part of this model); an
   * undefined `d` is dropped when serialised.
   */
  function ClientMessageData(msgType: string, data: Option<Json>): (j: Json)
    ensures j.Obj? && Lookup(j.members, "t") == Some(Str(msgType))
    ensures Lookup(j.members, "d") == data
  {
    Obj([("t", Str(msgType))] + if data.Some? then [("d", data.value)] else [])
  }

  /** The report text of an oversize message, naming the limit in bytes. */
  function TooLargeMessage(max: nat): (m: string)
    ensures Text.Contains(m, TooLargeText)
    ensures Text.Contains(m, Text.IntText(max))
  {
    var m := TooLargeText + ". Max size is " + Text.IntText(max) + " bytes";
    HeadAndMiddle(TooLargeText, ". Max size is ", Text.IntText(max), " bytes");
    m
  }

  /** `head + sep + mid + tail` contains both `head` and `mid`. */
  lemma HeadAndMiddle(head: string, sep: string, mid: string, tail: string)
    ensures Text.Contains(head + sep + mid + tail, head)
    ensures Text.Contains(head + sep + mid + tail, mid)
  {
    Text.ContainsMiddle([], head, sep + mid + tail);
    assert head + sep + mid + tail == [] + head + (sep + mid + tail);
    Text.ContainsMiddle(head + sep, mid, tail);
  }

  /** The envelope `onError` receives: type "error", a non-fatal error message. */
  function ErrorEnvelope(id: string, message: string): (m: Envelope)
    ensures m.msgType == "error" && m.msgLabel == MessageLabel
    ensures m.data.Obj? && Lookup(m.data.members, "message") == Some(Str(message))
  {
    Envelope(id, MessageLabel, "error", Obj([("message", Str(message)), ("fatal", Bool(false))]))
  }

  /**
   * `sendClientMessage(msgType, data)`: only with the bot ready; the whole
   * envelope must fit the transport's limit.  An oversize message is not
   * sent: it throws `MessageTooLargeError` and, when an `onError` callback
   * exists, reports exactly one "error" envelope to it first.
   */
  function SendClientMessage(c: Client, id: string, msgType: string, data: Option<Json>, errorId: string): (o: Outcome)
    ensures c.state != Ready ==> o == Outcome(c, Some(Raised(Errors.NewBotNotReadyError(None))))
    ensures c.state == Ready && SizeOf(EnvelopeJson(Envelope(id, MessageLabel, "client-message", ClientMessageData(msgType, data)))) <= c.maxMessageSize
      ==> o.thrown.None? && o.client.errorLog == c.errorLog
          && o.client.sent == c.sent + [Envelope(id, MessageLabel, "client-message", ClientMessageData(msgType, data))]
    ensures c.state == Ready && SizeOf(EnvelopeJson(Envelope(id, MessageLabel, "client-message", ClientMessageData(msgType, data)))) > c.maxMessageSize
      ==> o.thrown.Some? && o.thrown.value.Raised? && o.thrown.value.error.kind == Errors.MessageTooLarge
          && Text.Contains(o.thrown.value.error.message, TooLargeText)
          && Text.Contains(o.thrown.value.error.message, Text.IntText(c.maxMessageSize))
          && o.client.sent == c.sent
          && (c.onError ==> o.client.errorLog == c.errorLog + [ErrorEnvelope(errorId, o.thrown.value.error.message)])
          && (!c.onError ==> o.client.errorLog == c.errorLog)
    ensures o.client == c.(sent := o.client.sent, errorLog := o.client.errorLog)
  {
    if c.state != Ready then Outcome(c, Some(Raised(Errors.NewBotNotReadyError(None))))
    else
      var m := Envelope(id, MessageLabel, "client-message", ClientMessageData(msgType, data));
      if WithinLimit(EnvelopeJson(m), c.maxMessageSize) then
        Outcome(c.(sent := c.sent + [m]), None)
      else
        var err := Errors.RtviError(Errors.MessageTooLarge, TooLargeMessage(c.maxMessageSize), None);
        var log := if c.onError then c.errorLog + [ErrorEnvelope(errorId, err.message)] else c.errorLog;
        Outcome(c.(errorLog := log), Some(Raised(err)))
  }

  /** `enableScreenShare(enable)`; `isSharingScreen` then reports `enable`. */
  function EnableScreenShare(c: Client, enable: bool): (r: Client)
    ensures r.sharingScreen == enable
    ensures r == c.(sharingScreen := enable)
  {
    c.(sharingScreen := enable)
  }

  // ---------------------------------------------------------------------
  // Traces the tests observe.

  /** connect() then disconnect() on a fresh client reports the seven states in order. */
  lemma ConnectDisconnectTrace(onError: bool, max: Option<nat>, params: Option<Json>)
    ensures var c := NewClient(onError, max);
            var o := Connect(c, params, true);
            var d := Disconnect(o.client);
            !IsConnected(c) && o.thrown.None? && IsConnected(o.client) && o.client.state == Ready
            && !IsConnected(d) && d.state == Disconnected
            && d.stateLog == [Initializing, Initialized, Connecting, Connected, Ready, Disconnecting, Disconnected]
  {
  }

  /** initDevices() on a fresh client reports exactly "initializing", "initialized". */
  lemma InitDevicesTrace(onError: bool, max: Option<nat>)
    ensures InitDevices(NewClient(onError, max)).state == Initialized
    ensures InitDevices(NewClient(onError, max)).stateLog == [Initializing, Initialized]
  {
  }

  /** The names of a trace, as the event handler receives them. */
  function StateNames(log: seq<TransportState>): (names: seq<string>)
    ensures |names| == |log|
    ensures forall i :: 0 <= i < |log| ==> names[i] == StateName(log[i])
  {
    seq(|log|, i requires 0 <= i < |log| => StateName(log[i]))
  }

  /** Distinct states report distinct names, so a trace is recovered from its names. */
  lemma StateNamesInjective(a: seq<TransportState>, b: seq<TransportState>)
    requires StateNames(a) == StateNames(b)
    ensures a == b
  {
    forall i | 0 <= i < |a|
      ensures a[i] == b[i]
    {
      ParseStateName(a[i]);
      ParseStateName(b[i]);
    }
  }

  /** A registered handler receives the call the transport delivers, with its arguments. */
  lemma FunctionCallDispatched(c: Client, handler: nat, args: Json)
    ensures var r := RegisterFunctionCallHandler(c, "testHandler", handler);
            var m := Envelope("123", MessageLabel, "llm-function-call",
                              Obj([("function_name", Str("testHandler")), ("tool_call_id", Str("call-123")), ("args", args)]));
            HandleMessage(r, m).invocations == c.invocations + [Invocation(handler, "testHandler", Some("call-123"), Some(args))]
  {
    LookupDistinct3("function_name", Str("testHandler"), "tool_call_id", Str("call-123"), "args", args);
  }

  /** Registering a name twice: the second handler is the one that runs. */
  lemma LastRegistrationWins(c: Client, name: string, first: nat, second: nat, m: Envelope)
    requires m.msgType == "llm-function-call" && StringField(m.data, "function_name") == Some(name)
    ensures var r := RegisterFunctionCallHandler(RegisterFunctionCallHandler(c, name, first), name, second);
            HandleMessage(r, m).invocations[|c.invocations|].handler == second
  {
  }

  /** After connecting, enabling screen share makes the client report sharing. */
  lemma ScreenShareAfterConnect(c: Client, params: Option<Json>)
    requires !Active(c.state)
    ensures var o := Connect(c, params, true);
            o.client.state == Ready && EnableScreenShare(o.client, true).sharingScreen
  {
  }

  /** 10% over the default limit, as the oversize tests use. */
  const OversizedChars: nat := DefaultMaxMessageSize * 11 / 10

  /** The envelope around `{data: "x" × OversizedChars}` exceeds the default limit. */
  lemma OversizedEnvelope(id: string)
    ensures var d := ClientMessageData("test", Some(Obj([("data", Str(JsonSizes.Repeat(OversizedChars)))])));
            SizeOf(EnvelopeJson(Envelope(id, MessageLabel, "client-message", d))) > DefaultMaxMessageSize
  {
    var payload := Obj([("data", Str(JsonSizes.Repeat(OversizedChars)))]);
    JsonSizes.RepeatedDataSize(OversizedChars);
    var d := ClientMessageData("test", Some(payload));
    assert d.members[1] == ("d", payload);
    MemberValueSize(d.members, 1);
    var env := EnvelopeJson(Envelope(id, MessageLabel, "client-message", d));
    assert env.members[3] == ("data", d);
    MemberValueSize(env.members, 3);
  }

  /** The default limit prints as "65536". */
  lemma DefaultLimitText()
    ensures Text.IntText(DefaultMaxMessageSize) == "65536"
  {
    assert Text.NatText(6) == "6";
    assert Text.NatText(65) == "6" + [Text.DigitChar(5)] == "65";
    assert Text.NatText(655) == "65" + [Text.DigitChar(5)] == "655";
    assert Text.NatText(6553) == "655" + [Text.DigitChar(3)] == "6553";
    assert Text.NatText(65536) == "6553" + [Text.DigitChar(6)] == "65536";
  }

  /**
   * Sending `{data: "x" × OversizedChars}` on a connected client with the
   * default limit throws, sends nothing, and reports once to `onError`
   * with a message naming the phrase and "65536".
   */
  lemma OversizedMessageReported(c: Client, id: string, errorId: string)
    requires c.state == Ready && c.maxMessageSize == DefaultMaxMessageSize
    ensures var o := SendClientMessage(c, id, "test", Some(Obj([("data", Str(JsonSizes.Repeat(OversizedChars)))])), errorId);
            o.thrown.Some? && o.thrown.value.Raised? && o.thrown.value.error.kind == Errors.MessageTooLarge
            && o.client.sent == c.sent
            && (c.onError ==> |o.client.errorLog| == |c.errorLog| + 1
                              && o.client.errorLog[|c.errorLog|].msgType == "error")
            && (!c.onError ==> o.client.errorLog == c.errorLog)
            && Text.Contains(o.thrown.value.error.message, TooLargeText)
            && Text.Contains(o.thrown.value.error.message, "65536")
  {
    OversizedEnvelope(id);
    DefaultLimitText();
  }

  // ---------------------------------------------------------------------
  // Any sequence of commands keeps the reported trace a legal walk.

  /** The moves the transport may make between consecutive reported states. */
  predicate Allowed(from: TransportState, to: TransportState) {
    match to
    case Initializing => NeedsDevices(from)
    case Initialized => from == Initializing
    case Connecting => from == Initialized
    case Connected => from == Connecting
    case Ready => from == Connected
    case Error => from == Connecting
    case Disconnecting => true
    case Disconnected => from == Disconnecting
  }

  /** The walk a client's events describe, starting from the initial state. */
  function Walk(c: Client): seq<TransportState> {
    [Disconnected] + c.stateLog
  }

  /** Every consecutive pair of the client's walk is an allowed move, and the walk ends where the client is. */
  predicate WalkOk(c: Client) {
    (forall i :: 0 <= i < |c.stateLog| ==> Allowed(Walk(c)[i], Walk(c)[i + 1]))
    && Walk(c)[|c.stateLog|] == c.state
  }

  /** Between commands the transport is never half-way through a transition. */
  predicate Settled(s: TransportState) {
    s == Disconnected || s == Initialized || s == Ready || s == Error
  }

  predicate Consistent(c: Client) {
    Settled(c.state) && WalkOk(c)
  }

  /** Something the application does to the client, with what the environment answers. */
  datatype Command =
    | InitDevicesCmd
    | ConnectCmd(params: Option<Json>, joins: bool)
    | DisconnectCmd
    | RegisterCmd(name: string, handler: nat)
    | DeliverCmd(message: Envelope)
    | SendCmd(id: string, msgType: string, data: Option<Json>, errorId: string)
    | ScreenShareCmd(enable: bool)

  function Step(c: Client, cmd: Command): Client {
    match cmd
    case InitDevicesCmd => InitDevices(c)
    case ConnectCmd(params, joins) => Connect(c, params, joins).client
    case DisconnectCmd => Disconnect(c)
    case RegisterCmd(name, handler) => RegisterFunctionCallHandler(c, name, handler)
    case DeliverCmd(m) => HandleMessage(c, m)
    case SendCmd(id, t, data, errorId) => SendClientMessage(c, id, t, data, errorId).client
    case ScreenShareCmd(enable) => EnableScreenShare(c, enable)
  }

  function Run(c: Client, cmds: seq<Command>): Client
    decreases |cmds|
  {
    if cmds == [] then c else Run(Step(c, cmds[0]), cmds[1..])
  }

  /** An allowed move extends a well-formed walk. */
  lemma EmitKeepsWalk(c: Client, s: TransportState)
    requires WalkOk(c) && Allowed(c.state, s)
    ensures WalkOk(Emit(c, s))
  {
    var r := Emit(c, s);
    assert Walk(r) == Walk(c) + [s];
    forall i | 0 <= i < |r.stateLog|
      ensures Allowed(Walk(r)[i], Walk(r)[i + 1])
    {
      if i < |c.stateLog| {
        assert Walk(r)[i] == Walk(c)[i] && Walk(r)[i + 1] == Walk(c)[i + 1];
      }
    }
  }

  /** One command keeps a consistent client consistent. */
  lemma StepConsistent(c: Client, cmd: Command)
    requires Consistent(c)
    ensures Consistent(Step(c, cmd))
  {
    match cmd
    case InitDevicesCmd =>
      if NeedsDevices(c.state) {
        EmitKeepsWalk(c, Initializing);
        EmitKeepsWalk(Emit(c, Initializing), Initialized);
      }
    case ConnectCmd(params, joins) =>
      if !Active(c.state) {
        var c0 := c;
        if NeedsDevices(c.state) {
          EmitKeepsWalk(c, Initializing);
          EmitKeepsWalk(Emit(c, Initializing), Initialized);
          c0 := InitDevices(c);
        }
        assert c0 == InitDevices(c);
        var c1 := c0.(connectionParams := params);
        assert Walk(c1) == Walk(c0);
        EmitKeepsWalk(c1, Connecting);
        var c2 := Emit(c1, Connecting);
        if joins {
          EmitKeepsWalk(c2, Connected);
          EmitKeepsWalk(Emit(c2, Connected), Ready);
        } else {
          EmitKeepsWalk(c2, Error);
        }
      }
    case DisconnectCmd =>
      EmitKeepsWalk(c, Disconnecting);
      EmitKeepsWalk(Emit(c, Disconnecting), Disconnected);
    case RegisterCmd(_, _) =>
      assert Walk(Step(c, cmd)) == Walk(c);
    case DeliverCmd(_) =>
      assert Walk(Step(c, cmd)) == Walk(c);
    case SendCmd(_, _, _, _) =>
      assert Walk(Step(c, cmd)) == Walk(c);
    case ScreenShareCmd(_) =>
      assert Walk(Step(c, cmd)) == Walk(c);
  }

  /** Any command sequence keeps a consistent client consistent. */
  lemma {:induction false} RunConsistent(c: Client, cmds: seq<Command>)
    requires Consistent(c)
    ensures Consistent(Run(c, cmds))
    decreases |cmds|
  {
    if cmds != [] {
      StepConsistent(c, cmds[0]);
      RunConsistent(Step(c, cmds[0]), cmds[1..]);
    }
  }

  /**
   * Whatever the application does, starting from a fresh client, the
   * reported states form a legal walk ending in the current state, and
   * the client rests in "disconnected", "initialized", "ready" or "error".
   */
  lemma SessionTraceLegal(onError: bool, max: Option<nat>, cmds: seq<Command>)
    ensures Consistent(Run(NewClient(onError, max), cmds))
  {
    RunConsistent(NewClient(onError, max), cmds);
  }

  /** A consistent client refuses `connect` only while ready. */
  lemma ConnectRefusedOnlyWhenReady(c: Client, params: Option<Json>, joins: bool)
    requires Consistent(c)
    ensures Connect(c, params, joins).thrown == Some(AlreadyStarted) <==> c.state == Ready
  {
  }
}
