# Pipecat web client core, modelled in Dafny

This project models the sequential core of the Pipecat web client: the
JavaScript/TypeScript library through which a browser talks to a voice bot.
It covers five parts:

- **Outbound size check.** A message may be sent only if the UTF-8 byte length
  of its compact `JSON.stringify` text is at most a limit. `Json` models JSON
  values. `Json.Serialize` follows section 25.5.2 of ECMA-262, with string
  escaping per section 7 of RFC 8259. `Utf8` follows section 3 of RFC 3629.
  `Json.SizeOf` is an independent byte-count reference, proved equal to the
  length of the encoded text. `JsonSizes` proves every concrete size the
  client's tests rely on.
- **Session.** `Session` is the client as its tests observe it:
  - the transport-state trace of `initDevices`, `connect` and `disconnect`;
  - the `connected` flag;
  - function-call dispatch by `function_name`;
  - screen sharing;
  - `sendClientMessage`, which throws and also reports to `onError` when a
    message exceeds the 65536-byte default.

  A command-sequence model shows that every reported trace is a legal walk.
- **Envelopes and errors.**
  - `VoiceMessages`: the `VoiceMessage` envelope, its serialisation and its
    static builders.
  - `Errors`: the error classes with their default texts and statuses.
  - `RestHelpers`: the connection-endpoint test, the start request, and how a
    response settles the connection-parameter promise.
- **Participants and tracks.**
  - `ParticipantManager`: the React participant manager as a plain record.
    It holds a local slot, a bot slot, remote records, a duplicate-free list of
    remote ids, and `participant:trackType` track slots.
  - `ParticipantIds` and `MediaTrack`: the id-list and track-key hooks.
  - `ClientState`: the provider that mirrors the transport state and the
    cam, mic and screen-share flags.
- **Daily transport.**
  - `DailyTransport`: event-listener registration, bot-id bookkeeping, and the
    `tracks()` view.
  - `Speaking`: the speaking/silence detector, as a three-input state machine.
    The inputs are a loud level, a quiet level and the silence timer firing.

Other modules: `Text` prints and parses decimal integers; `Wrappers` holds `Option`.

The transport states follow the client's tests: `initializing`/`initialized`.
The type list in `client-js/rtvi/common_types.ts:1-20` still names
`authenticating`/`authenticated`. The model follows the tests.

## Model

| member | source | states |
|---|---|---|
| `Utf8.EncodeChar` | client-js/tests/utils.spec.ts:30-45 | a code point encodes to 1-4 bytes; one byte exactly when it is ASCII; every byte after the first is a continuation byte |
| `Utf8.DecodeEncode` | client-js/tests/utils.spec.ts:30-45 | decoding the UTF-8 encoding of any string gives the string back |
| `Utf8.EncodeInjective` | client-js/tests/utils.spec.ts:30-45 | two strings with the same UTF-8 bytes are the same string |
| `Utf8.EncodeLength` | client-js/tests/utils.spec.ts:30-45 | the encoded byte count equals the per-code-point width sum (1, 2, 3 or 4 bytes each) |
| `Utf8.AsciiLength` | client-js/tests/utils.spec.ts:12-28 | for ASCII text the byte count equals the character count |
| `Json.EscapeChar` | client-js/tests/utils.spec.ts:163-169 | a character that needs no escape stays as itself; one that does becomes a backslash sequence of at least two characters; no escape contains a line break or tab |
| `Json.UnescapeEscape` | client-js/tests/utils.spec.ts:163-169 | unescaping the escaped body of any string gives the string back, so escaping loses nothing |
| `Json.QuoteInjective` | client-js/tests/utils.spec.ts:163-169 | two strings with the same quoted JSON form are equal |
| `Json.Lookup` | client-js/tests/client.spec.ts:94-104 | a key is found exactly when some member carries it, and the value found belongs to a member with that key |
| `Json.WithinLimit` | client-js/tests/utils.spec.ts:24-28 | a value is within the limit exactly when its byte size is at most the limit (inclusive bound) |
| `Json.SerializeLength` | client-js/tests/utils.spec.ts:47-52 | the UTF-8 length of the serialised text equals the independent size reference, for every value |
| `Json.SerializedSize` | client-js/tests/utils.spec.ts:30-45 | the byte size of the encoded JSON text equals the size reference |
| `Json.SerializeWhitespace` | client-js/tests/utils.spec.ts:67-72 | the serialised text has no line break or tab, and no whitespace at all unless a string value holds some |
| `Json.Serialize` | client-js/tests/utils.spec.ts:30-45 | an object's text is brace-delimited, an array's bracket-delimited, and a string's quoted; an integer's text starts with "-" exactly when it is negative |
| `Json.ExactLimit` | client-js/tests/utils.spec.ts:54-65 | every value fits a limit equal to its size and fails a limit one byte smaller |
| `Json.UnescapedStringSize` | client-js/tests/utils.spec.ts:30-45 | a string with nothing to escape costs two quote bytes plus its UTF-8 length |
| `Json.BodySizeAppend` | client-js/tests/utils.spec.ts:163-169 | the escaped size of a concatenation is the sum of the parts' escaped sizes |
| `Json.MemberValueSize` | client-js/tests/client.spec.ts:166-175 | every member value of an object is strictly smaller than the object |
| `JsonSizes.LiteralSizes` | client-js/tests/utils.spec.ts:84-129 | `null` and `true` are 4 bytes, `false` 5, `12345` 5; `{}`, `[]` and `""` are 2 each |
| `JsonSizes.AsciiStringSizes` | client-js/tests/utils.spec.ts:12-28 | `"Hi"` is 4 bytes, `"Hello"` 7, `"Hello World"` 13 |
| `JsonSizes.UnicodeStringSizes` | client-js/tests/utils.spec.ts:30-45 | the party-popper emoji string is 6 bytes (4 for the emoji); `"Hello 世界"` is 14 bytes (3 per CJK character) |
| `JsonSizes.ArraySize` | client-js/tests/utils.spec.ts:67-72 | `[1,2,3,4,5]` is 11 bytes |
| `JsonSizes.ObjectSize` | client-js/tests/utils.spec.ts:47-52 | `{"name":"test","value":123}` is 27 bytes |
| `JsonSizes.NestedObjectSize` | client-js/tests/utils.spec.ts:54-65 | the three-level nested object is 36 bytes |
| `JsonSizes.ArrayOfObjectsSize` | client-js/tests/utils.spec.ts:74-82 | the array of the two id/name objects is 50 bytes |
| `JsonSizes.EscapedCharactersSize` | client-js/tests/utils.spec.ts:163-169 | the object whose text holds a newline, a tab and two quotes is 37 bytes, each escape counting two |
| `JsonSizes.ComplexUnicodeSize` | client-js/tests/utils.spec.ts:131-147 | the nested user/data/meta object with emoji and CJK text is 138 bytes |
| `JsonSizes.RepeatedDataSize` | client-js/tests/client.spec.ts:148-163 | `{"data": "x" repeated n times}` costs n + 11 bytes |
| `JsonSizes.FiftyCharacterBoundary` | client-js/tests/client.spec.ts:148-163 | the 50-character message fits in 61 bytes and not in 60 |
| `JsonSizes.LargeMessageRejected` | client-js/tests/client.spec.ts:123-130 | the 100000-character message does not fit in 1000 bytes |
| `JsonSizes.SmallMessageAccepted` | client-js/tests/client.spec.ts:117-121 | the small test message fits in 1 MiB |
| `Text.IntTextRoundTrip` | client-js/tests/utils.spec.ts:112-117 | the decimal text of any integer parses back to that integer |
| `Text.IntTextInjective` | client-js/tests/utils.spec.ts:112-117 | distinct integers print differently |
| `Types.ParseStateName` | client-js/rtvi/common_types.ts:1-20 | every transport-state name reads back as the state it names |
| `Errors.NewRtviError` | client-js/rtvi/errors.ts:7-14 | the message and status are kept as given; an absent status stays absent |
| `Errors.NewConnectionTimeoutError` | client-js/rtvi/errors.ts:16-23 | the fixed default text is used only when no message is given; there is no status |
| `Errors.NewStartBotError` | client-js/rtvi/errors.ts:25-33 | the message defaults to the auth-bundle text and the status to 500; explicit values are kept; the error code is always "invalid-request-error" |
| `Errors.NewTransportStartError` | client-js/rtvi/errors.ts:35-39 | the default text is used only without a message; there is no status |
| `Errors.NewBotNotReadyError` | client-js/rtvi/errors.ts:41-48 | the default text is used only without a message; there is no status |
| `Errors.NewUnsupportedFeatureError` | client-js/rtvi/errors.ts:50-62 | the text starts "<source> does not support <feature>" when a source is given, otherwise "<feature> not supported"; it ends ": <message>" exactly when a message is given; the feature is stored unchanged; there is no status |
| `Errors.EmptyMessageKept` | client-js/rtvi/errors.ts:16-48 | an explicit empty message is kept, not replaced by the default, because the defaults apply only to a missing message |
| `Errors.UnsupportedFeatureEmptyIsAbsent` | client-js/rtvi/errors.ts:53-57 | an empty source or message gives the same error as a missing one |
| `RestHelpers.IsConnectionEndpoint` | client-js/client/rest_helpers.ts:20-29 | false for undefined, functions, null, primitives and arrays; for an object, true exactly when it has an "endpoint" key whose value (the last one, if the key repeats) is a string |
| `RestHelpers.Keys` | client-js/client/rest_helpers.ts:24 | an object's keys are its member names in order, so a name is a key exactly when some member carries it; an array's keys are its decimal indices, all digits, so "endpoint" is never one of them |
| `RestHelpers.BuildRequest` | client-js/client/rest_helpers.ts:52-61 | a CORS POST to the endpoint; Content-Type application/json followed by the caller's headers; the body is the JSON of the request data, absent when there is none |
| `RestHelpers.RequestBodySize` | client-js/client/rest_helpers.ts:52-61 | the request body takes as many UTF-8 bytes as the size reference gives for the request data |
| `RestHelpers.RejectionMessage` | client-js/client/rest_helpers.ts:77-83 | the rejection text is `info`, else `detail`, else the status text, skipping null and missing fields |
| `RestHelpers.NonJsonErrorBodyNeverSettles` | client-js/client/rest_helpers.ts:62-88 | as written, an error response whose body is not JSON leaves the promise pending for ever |
| `RestHelpers.SettleAsWritten` | client-js/client/rest_helpers.ts:40-95 | as written, the promise stays pending exactly when the fetch stalls with no timer, the body is not JSON, or an error body is `null`; it resolves with the body exactly on an ok response with a JSON body; it times out exactly when it stalls with a timer armed; every rejection is a start error, carrying the response status when there was a response, and as its message the body's `info`, else its `detail`, else the status text |
| `RestHelpers.Settle` | client-js/client/rest_helpers.ts:40-95 | agrees with the code wherever the code settles; a non-ok response always rejects with a start error carrying its status, with the message taken from the body's `info`, else `detail`, else the status text, and with the status text when the body is unreadable or `null`; a failed fetch rejects with the default start error; it stays pending only when the fetch never answers and no timer is armed; it times out exactly then with a timer armed |
| `RestHelpers.FetchFailureDefaults` | client-js/client/rest_helpers.ts:85-87 | a failed fetch rejects with the default text and status 500 |
| `VoiceMessages.ParseTypeName` | rtvi-client-js/src/messages.ts:9-29 | a recognised type name reads back as a message type whose name it is |
| `VoiceMessages.ParseTypeNameRoundTrip` | rtvi-client-js/src/messages.ts:9-29 | every message type's wire name reads back as that type, so the names are distinct |
| `VoiceMessages.NewMessage` | rtvi-client-js/src/messages.ts:31-40 | the envelope carries the given id, type and data, and the label "rtvi" |
| `VoiceMessages.WireObject` | rtvi-client-js/src/messages.ts:35-48 | the serialised object has the keys type and label, in that order, and then data exactly when the data is defined; `JSON.stringify` drops an undefined property |
| `VoiceMessages.WireRoundTrip` | rtvi-client-js/src/messages.ts:42-48 | type, label and data, including undefined data, can be read back from the wire object |
| `VoiceMessages.IdNotSerialized` | rtvi-client-js/src/messages.ts:42-48 | changing the id does not change the serialised text |
| `VoiceMessages.WireSize` | rtvi-client-js/src/messages.ts:42-48 | the serialised envelope is 18 bytes plus the sizes of type and label, plus 8 bytes and the size of the data when the data is defined |
| `VoiceMessages.SerializeMessage` | rtvi-client-js/src/messages.ts:42-48 | the wire text is brace-delimited, and its UTF-8 length is 18 bytes plus type and label, plus 8 bytes and the data when the data is defined |
| `VoiceMessages.ConfigMessage` | rtvi-client-js/src/messages.ts:51-60 | type "config-update"; `data.config` holds the `llm` and `tts` settings as given and no other field |
| `VoiceMessages.SpeakMessage` | rtvi-client-js/src/messages.ts:63-68 | type "tts-speak"; data is `{tts: {text, interrupt}}`, echoing both arguments |
| `VoiceMessages.InterruptMessage` | rtvi-client-js/src/messages.ts:70-72 | type "tts-interrupt" with empty-object data |
| `VoiceMessages.GetLlmContextMessage` | rtvi-client-js/src/messages.ts:75-78 | type "llm-get-context" with empty-object data |
| `VoiceMessages.UpdateLlmContextMessage` | rtvi-client-js/src/messages.ts:80-84 | type "llm-update-context" with the argument as `data.llm` |
| `VoiceMessages.AppendLlmContextMessage` | rtvi-client-js/src/messages.ts:86-90 | type "llm-append-context" with the messages as `data.llm.messages` |
| `VoiceMessages.TranscriptMessage` | rtvi-client-js/src/messages.ts:93-97 | type "transcript" with data `{text, final}` as given |
| `Session.NewClient` | client-js/tests/client.spec.ts:166-193 | a new client is disconnected and not connected, with nothing logged, sent or registered; the message limit is 65536 unless one is given |
| `Session.InitDevices` | client-js/tests/client.spec.ts:54-66 | from an idle state it reports "initializing" then "initialized" and ends initialized; otherwise nothing changes; sent messages, handlers and errors are untouched |
| `Session.Connect` | client-js/tests/client.spec.ts:24-52 | refused when already started; otherwise records the connection params; it ends ready and connected when the transport joins, or in the error state with a transport-start error when it does not |
| `Session.Disconnect` | client-js/tests/client.spec.ts:38-41 | reports "disconnecting" then "disconnected" and ends not connected; sent messages, handlers and errors are untouched |
| `Session.ConnectDisconnectTrace` | client-js/tests/client.spec.ts:24-52 | on a fresh client, connect then disconnect reports exactly the seven states in order; `connected` is false, then true at ready, then false again |
| `Session.InitDevicesTrace` | client-js/tests/client.spec.ts:54-66 | on a fresh client, initDevices reports exactly "initializing" and "initialized" and ends initialized |
| `Session.ScreenShareAfterConnect` | client-js/tests/client.spec.ts:109-113 | after a connect, enabling screen share makes the client report sharing |
| `Session.StateNamesInjective` | client-js/tests/client.spec.ts:43-51 | two state logs with the same names are the same log, so a name trace pins down the states |
| `Session.RegisterFunctionCallHandler` | client-js/tests/client.spec.ts:85-93 | the name now maps to the handler; every other registration and every other part of the client is unchanged |
| `Session.HandleMessage` | client-js/tests/client.spec.ts:94-106 | a handler runs, once, exactly when the message is an "llm-function-call" whose string `function_name` is registered; it receives the name, the tool-call id and `args`; nothing else changes |
| `Session.FunctionCallDispatched` | client-js/tests/client.spec.ts:85-107 | the test's message invokes the handler registered under "testHandler", passing its `args` |
| `Session.LastRegistrationWins` | client-js/tests/client.spec.ts:85-107 | registering a name twice dispatches to the second handler |
| `Session.ClientMessageData` | client-js/tests/client.spec.ts:195-202 | an assumed payload shape, because the code that builds it is not part of this model: the type under "t" and the data under "d", with undefined data absent. The test only passes `{data: ...}` as the data |
| `Session.TooLargeMessage` | client-js/tests/client.spec.ts:228-248 | the error text contains "Message data too large" and the decimal limit |
| `Session.ErrorEnvelope` | client-js/tests/client.spec.ts:228-230 | the `onError` message has type "error" and carries the text under `data.message` |
| `Session.SendClientMessage` | client-js/tests/client.spec.ts:195-260 | before ready it throws the not-ready error; a message within the limit is sent, nothing thrown or reported; an oversized one throws a too-large error naming the phrase and the limit, is not sent, and reaches `onError` once exactly when a callback is set |
| `Session.OversizedEnvelope` | client-js/tests/client.spec.ts:170-175 | the envelope around 72089 "x" characters exceeds 65536 bytes |
| `Session.DefaultLimitText` | client-js/tests/client.spec.ts:247-248 | the default limit prints as "65536" |
| `Session.OversizedMessageReported` | client-js/tests/client.spec.ts:204-249 | the oversized test message throws, is not sent, is reported once with type "error", and its text contains the phrase and "65536" |
| `Session.EnableScreenShare` | client-js/tests/client.spec.ts:109-113 | the client then reports sharing exactly as requested; nothing else changes |
| `Session.StepConsistent` | client-js/tests/client.spec.ts:24-83 | every command keeps the client consistent: between commands it rests in disconnected, initialized, ready or error, and its state log is a walk of allowed moves from "disconnected" ending in the current state |
| `Session.RunConsistent` | client-js/tests/client.spec.ts:24-83 | any command sequence keeps a consistent client consistent |
| `Session.SessionTraceLegal` | client-js/tests/client.spec.ts:24-83 | whatever commands a fresh client receives, its reported trace is a legal walk |
| `Session.ConnectRefusedOnlyWhenReady` | client-js/tests/client.spec.ts:24-83 | on a consistent client, connect is refused as already started exactly when the state is ready |
| `ParticipantManager.ParseTrackKeyRoundTrip` | client-react/src/PipecatClientParticipantManager.tsx:42-51 | a `participant:trackType` key reads back as its participant and track type |
| `ParticipantManager.TrackKeyInjective` | client-react/src/PipecatClientParticipantManager.tsx:42-51 | distinct (participant, track type) pairs get distinct keys |
| `ParticipantManager.Without` | client-react/src/PipecatClientParticipantManager.tsx:89-93 | the ids that remain are exactly those other than the dropped one; a list without that id is returned unchanged |
| `ParticipantManager.WithoutAt` | client-react/src/PipecatClientParticipantManager.tsx:89-93 | dropping an id listed once closes its gap: the ids before and after it keep their order |
| `ParticipantManager.WithoutNoDuplicates` | client-react/src/PipecatClientParticipantManager.tsx:89-93 | filtering a duplicate-free list keeps it duplicate-free |
| `ParticipantManager.SlotId` | client-react/src/PipecatClientParticipantManager.tsx:150-159 | "local" for a local participant; "bot" for one matching a non-empty bot id; the participant's own id otherwise |
| `ParticipantManager.AddParticipant` | client-react/src/PipecatClientParticipantManager.tsx:57-75 | a local participant sets only the local slot; the bot sets only the bot slot; any other participant is stored under its id, which is appended only if absent; nothing else changes |
| `ParticipantManager.AddIdempotent` | client-react/src/PipecatClientParticipantManager.tsx:57-75 | adding the same participant twice is the same as adding it once |
| `ParticipantManager.RemoveParticipant` | client-react/src/PipecatClientParticipantManager.tsx:77-110 | the local or bot participant clears only its slot; a remote loses its id, which is filtered out of the id list as `Without` does (so the others keep their order, see `RemoveKeepsOrder`), its record and its four track slots, and nothing else changes |
| `ParticipantManager.RemoveKeepsOtherTracks` | client-react/src/PipecatClientParticipantManager.tsx:98-108 | removing a remote leaves every other participant's track slots as they were |
| `ParticipantManager.RemoveKeepsOrder` | client-react/src/PipecatClientParticipantManager.tsx:89-93 | in a valid registry, removing a listed remote takes its id out of the list and keeps the other remote ids in their order |
| `ParticipantManager.JoinThenLeave` | client-react/src/PipecatClientParticipantManager.tsx:57-110 | a new remote that joins and then leaves restores the registry exactly |
| `ParticipantManager.BotConnected` | client-react/src/PipecatClientParticipantManager.tsx:134-141 | records the participant's id as the bot id and changes nothing else |
| `ParticipantManager.BotJoinsAfterAnnouncement` | client-react/src/PipecatClientParticipantManager.tsx:57-67 | a bot announced before it joins lands in the bot slot, not among the remotes |
| `ParticipantManager.BotJoinsBeforeAnnouncement` | client-react/src/PipecatClientParticipantManager.tsx:57-75 | a bot that joins before it is announced stays listed as a remote |
| `ParticipantManager.SetTrack` | client-react/src/PipecatClientParticipantManager.tsx:144-195 | no participant, no change; a track with the stored id keeps the stored object; otherwise the slot holds the new track; no other slot changes |
| `ParticipantManager.TrackStarted` | client-react/src/PipecatClientParticipantManager.tsx:144-168 | the participant's slot for the track's kind then holds a track with the new id; no participant, no change |
| `ParticipantManager.ScreenTrackStarted` | client-react/src/PipecatClientParticipantManager.tsx:170-195 | the same, in the screenAudio slot for audio and the screenVideo slot otherwise |
| `ParticipantManager.ScreenAndCameraSlotsDiffer` | client-react/src/PipecatClientParticipantManager.tsx:175-176 | a screen track never lands in a camera or microphone slot |
| `ParticipantManager.EmptyBotIdDisagreement` | client-react/src/PipecatClientParticipantManager.tsx:64-65 | with an empty bot id, adding treats the empty-id participant as the bot, but its tracks go to the "" slot, not to "bot" |
| `ParticipantManager.LookupParticipant` | client-react/src/PipecatClientParticipantManager.tsx:23-37 | "local" gives the local slot, "bot" the bot slot, any other id that remote's record or nothing |
| `ParticipantManager.TrackOf` | client-react/src/PipecatClientParticipantManager.tsx:46-51 | a slot holds a track exactly when its key is stored, and then it is the stored track |
| `ParticipantManager.ApplyValid` | client-react/src/PipecatClientParticipantManager.tsx:113-198 | every event keeps the registry valid: the remote ids are duplicate-free, are exactly the keys of the remote records, and each record is stored under its own id |
| `ParticipantManager.Apply` | client-react/src/PipecatClientParticipantManager.tsx:113-198 | only "bot connected" changes the bot id; a join leaves the track slots alone; a track event changes only the track slots, and stores a track with the event's id in the slot for its participant and kind; a track event without a participant changes nothing |
| `ParticipantManager.ApplyAllValid` | client-react/src/PipecatClientParticipantManager.tsx:113-198 | any event sequence keeps a valid registry valid |
| `ParticipantManager.ReachableValid` | client-react/src/PipecatClientParticipantManager.tsx:113-198 | every registry reachable from the empty one is valid |
| `ParticipantIds.ParticipantIds` | client-react/src/usePipecatClientParticipantIds.ts:14-28 | "local" first if included, then "bot" if included, then the remote ids in stored order; the length is the remote count plus one per included flag; an id is listed exactly when it is one of those |
| `ParticipantIds.DefaultIds` | client-react/src/usePipecatClientParticipantIds.ts:15-16 | with the default flags the list is "local", "bot", then the remote ids |
| `ParticipantIds.RemotesListedOnce` | client-react/src/usePipecatClientParticipantIds.ts:21-25 | in a valid registry the remote part of the list is duplicate-free |
| `MediaTrack.MediaTrackKey` | client-react/src/usePipecatClientMediaTrack.ts:17-40 | "local:<type>" and "bot:<type>" whatever the id; "<id>:<type>" for a remote with a non-empty id; "local:<type>" for a remote with a missing or empty id |
| `MediaTrack.ReadTrack` | client-react/src/usePipecatClientMediaTrack.ts:42-44 | the hook yields a track exactly when the computed key is stored, and then it is the track stored under that key |
| `MediaTrack.LocalReadsLocalTrack` | client-react/src/usePipecatClientMediaTrack.ts:28-29 | a track started by the local participant is what the local hook reads |
| `MediaTrack.BotReadsBotTrack` | client-react/src/usePipecatClientMediaTrack.ts:30-31 | a track started by the bot is what the bot hook reads |
| `MediaTrack.RemoteReadsRemoteScreen` | client-react/src/usePipecatClientMediaTrack.ts:32-33 | a remote's screen track is what the remote hook reads under that remote's id |
| `ClientState.Initial` | client-react/src/PipecatClientState.tsx:53-57 | the cam, mic and screen-share flags start false and the transport state starts "disconnected" |
| `ClientState.OnStateChanged` | client-react/src/PipecatClientState.tsx:59-66 | the state is mirrored; on "initialized" with a client, the three flags reload from the client, undefined reading as false; otherwise nothing else changes |
| `ClientState.Apply` | client-react/src/PipecatClientState.tsx:59-101 | enableCam, enableMic and enableScreenShare each forward their own call with their argument, and only when a client exists; enableCam and enableMic set their own flag; nothing else changes, so the other flags and the transport state stay put; every flag moves only on an event that sets it |
| `ClientState.ApplyAll` | client-react/src/PipecatClientState.tsx:59-101 | over any event history, forwarded calls are only appended, never dropped or reordered, and none is appended without a client |
| `ClientState.TransportStateIsLast` | client-react/src/PipecatClientState.tsx:59-60 | after any event history the mirrored state is that of the last state change, or "disconnected" |
| `ClientState.FlagIsLastSignal` | client-react/src/PipecatClientState.tsx:59-101 | after any history each flag is the value of the last event that sets it, or false: for the camera and microphone the last setter call or reload; for screen sharing the last local screen-track start or stop, or reload |
| `ClientState.ScreenShareIsLastSignal` | client-react/src/PipecatClientState.tsx:84-101 | enableScreenShare alone never moves the screen-share flag; only local screen-track events and reloads do |
| `ClientState.ForwardedAreTheCalls` | client-react/src/PipecatClientState.tsx:68-89 | with a client, the forwarded calls are exactly the setter calls of the history, in order and with their arguments; without one there are none |
| `ClientState.NoClientNothingForwarded` | client-react/src/PipecatClientState.tsx:68-89 | without a client, no enable call is ever forwarded |
| `DailyTransport.ToParticipant` | voice-sdk/src/transport/daily.ts:242-246 | id from `user_id`, name from `user_name`, `local` copied unchanged |
| `DailyTransport.EventNamesDistinct` | voice-sdk/src/transport/daily.ts:95-111 | the seven handlers listen on seven distinct event names |
| `DailyTransport.Handle` | voice-sdk/src/transport/daily.ts:139-203 | a join is always reported; a non-local join sets the bot id from `session_id` and reports the bot connected; a local leave only reports the leave; a non-local leave clears the bot id and reports the bot disconnected; a track start or stop reports the track with the mapped participant, if any; a local level is reported as it is; remote levels are reported as `RemoteLevels` gives them; leaving the meeting clears the bot id and reports disconnected; other events keep the bot id; callbacks are only appended |
| `DailyTransport.RemoteLevels` | voice-sdk/src/transport/daily.ts:184-198 | with `onRemoteAudioLevel` set, one callback per reported level, in key order, with the participant looked up by session id, stopping at the first id missing from the participants map, where the lookup throws; with it unset, nothing is reported |
| `DailyTransport.RemoteLevelsComplete` | voice-sdk/src/transport/daily.ts:184-198 | with the callback set, every level is reported exactly when every id is a participant, that is, exactly when the handler does not throw; with it unset, optional chaining skips the lookup and the handler never throws |
| `DailyTransport.Tracks` | voice-sdk/src/transport/daily.ts:49-68 | there is always a local entry, which is empty when Daily has no local participant; there is a bot entry exactly when the participant map contains the bot id |
| `DailyTransport.BotTracksFollowMembership` | voice-sdk/src/transport/daily.ts:49-68 | after the bot joins it appears in `tracks()`; after it leaves it no longer does |
| `DailyTransport.Connect` | voice-sdk/src/transport/daily.ts:70-111 | attaches the seven listeners bound to this connection; reports connected exactly when the join succeeds |
| `DailyTransport.FailedJoinIsSilent` | voice-sdk/src/transport/daily.ts:79-83 | a failed join reports nothing |
| `DailyTransport.UnboundOffIsNoOp` | voice-sdk/src/transport/daily.ts:113-126 | detaching the bare methods removes no listener that connect attached |
| `DailyTransport.Off` | voice-sdk/src/transport/daily.ts:113-126 | detaching never adds a listener: every listener left was there before |
| `DailyTransport.OffMembership` | voice-sdk/src/transport/daily.ts:113-126 | detaching keeps exactly the listeners that the passed functions do not name |
| `DailyTransport.Dispatch` | voice-sdk/src/transport/daily.ts:95-111 | emitting an event leaves the listeners and the connection count unchanged; how often the handler runs is stated by the lemmas on leaving and reconnecting |
| `DailyTransport.Leave` | voice-sdk/src/transport/daily.ts:128-137 | leaving keeps the listeners; the bot id is cleared exactly when a left-meeting listener is registered; the last callback is "disconnected" |
| `DailyTransport.DisconnectAsWritten` | voice-sdk/src/transport/daily.ts:113-137 | as written, the listeners afterwards are what `off` with the bare methods leaves, which is all of them |
| `DailyTransport.Disconnect` | voice-sdk/src/transport/daily.ts:113-137 | corrected: removes the listeners bound by the latest connect and clears the bot id |
| `DailyTransport.CycleAsWrittenAddsListeners` | voice-sdk/src/transport/daily.ts:95-137 | as written, each connect/disconnect cycle leaves one more listener on every event |
| `DailyTransport.ReconnectDuplicatesCallbacks` | voice-sdk/src/transport/daily.ts:95-165 | as written, after connect, disconnect and connect, one bot join is reported twice |
| `DailyTransport.DisconnectReportedTwice` | voice-sdk/src/transport/daily.ts:128-137 | as written, one connect/disconnect cycle reports "disconnected" twice |
| `DailyTransport.LeaveWithOneListener` | voice-sdk/src/transport/daily.ts:128-137 | leaving with one left-meeting listener reports "disconnected" from the listener and again from disconnect |
| `DailyTransport.DisconnectUndoesConnect` | voice-sdk/src/transport/daily.ts:95-126 | with the bound references detached, disconnect removes exactly the listeners the matching connect added |
| `DailyTransport.DisconnectReportedOnce` | voice-sdk/src/transport/daily.ts:128-137 | with the bound references detached, a cycle reports connected and disconnected once each and leaves no listener |
| `DailyTransport.ReconnectReportsOnce` | voice-sdk/src/transport/daily.ts:153-165 | with the bound references detached, after a reconnect a bot join is reported once |
| `Speaking.OnLevel` | voice-sdk/src/transport/daily.ts:213-237 | a loud level cancels the timer and reports "started" only on the silent-to-speaking edge; a quiet level reports nothing and arms the timer only while speaking |
| `Speaking.OnTimer` | voice-sdk/src/transport/daily.ts:228-236 | an armed timer's expiry ends the speech, reports "stopped" and clears the timer; otherwise nothing happens |
| `Speaking.StepAlternates` | voice-sdk/src/transport/daily.ts:213-237 | each input keeps "timer armed only while speaking", gives at most one signal, and a signal flips the speaking flag |
| `Speaking.RunAlternates` | voice-sdk/src/transport/daily.ts:213-237 | over any inputs the signals alternate, starting with the one owed next, and the final speaking flag matches their parity |
| `Speaking.FreshAlternates` | voice-sdk/src/transport/daily.ts:210-237 | a fresh detector says "started" first, then alternates; it is speaking exactly after an odd number of signals |
| `Speaking.ThresholdIsSilence` | voice-sdk/src/transport/daily.ts:214 | a level equal to the 0.05 threshold counts as silence |
| `Speaking.QuietKeepsTimer` | voice-sdk/src/transport/daily.ts:227-228 | a second quiet level does not re-arm the timer |
| `Speaking.Notify` | voice-sdk/src/transport/daily.ts:221-234 | the local participant's signals go to the local callbacks; any other participant's go to the bot callbacks with that participant |

## Left out

- `client-js/client/utils.ts` (`messageSizeWithinLimit`) and `client-js/client/client.ts` are not part of this model. Where the client's tests show their behaviour, the model follows the tests. The remaining details are assumptions, listed on the `Session.` lines below.
- Session.TooLargeMessage: the exact wording of the too-large error comes from `client-js/client/client.ts`, which this model does not include. The contract states only what the tests check: the text contains "Message data too large" and the limit.
- Session.Connect: `client-js/client/client.ts` is not part of this model, so four parts of the contract are assumptions. They are: refusing a second connect while a session is active; initialising devices inside `connect` (the tests' traces show this, not the code); storing the given connection parameters; and a join that fails ending in state "error" and throwing a `TransportStartError`. No test makes a join fail.
- Session.Disconnect: reporting "disconnecting" then "disconnected" from every state is an assumption. The tests disconnect only after a successful connect.
- `client-js/rtvi/common_types.ts:1-20` lists "authenticating"/"authenticated"; the model uses the tests' "initializing"/"initialized" names.
- Non-integer JSON numbers: their float formatting is host behaviour. Lone UTF-16 surrogates cannot occur, since a Dafny `char` is a Unicode scalar value.
- `Headers` name normalisation and merging of duplicate header names: host behaviour.
- Timers, `AbortController` and the order in which a timeout races the fetch: `HasTimer` and a stalled fetch stand in for them.
- Logging, React rendering and context plumbing, and jotai atom machinery. Atoms are plain record fields.
- `nanoid` id generation: ids are parameters.
- Daily call-object calls: `join`, `leave`, `setLocalAudio` and the level observers. A join is a success flag. `leave()` is taken to fire "left-meeting" once.
- Audio levels are reals compared with the 0.05 threshold. Wall-clock time is the explicit `SilenceElapsed` input, and the 750 ms delay is only a constant.
- Wiring a detector to the level handlers is left out: which detector a level reaches, and its replacement on each join.
- DailyTransport.Off removes every matching registration at once. Daily's own `off` behaviour for duplicate registrations is library code and is not visible.
- DailyTransport.CycleAsWrittenAddsListeners: listener growth is stated one cycle at a time, not for arbitrary histories.
- DailyTransport.Disconnect: the corrected disconnect also clears the bot id itself. Its own left-meeting handler is already detached when `leave()` fires, so nothing else would clear it. As written, that handler does it.
- DailyTransport.Handle: every callback other than `onRemoteAudioLevel` is taken to be set. An unset callback would only be missing from the callback log, since no other handler's arguments can throw.
- DailyTransport.Dispatch: a handler that throws is taken to end the emit, so later listeners for that event do not run. How Daily's emitter treats a throwing listener is library code.
- Session.ClientMessageData: the `{t, d}` payload shape is an assumption. The tests only pass `{data: ...}` as the data.
- Session.SendClientMessage: five parts are assumptions that the tests do not show. They are the "client-message" type, the "rtvi-ai" label of outbound envelopes, measuring the whole envelope rather than the data alone, the not-ready error before ready, and `fatal: false` in the reported error.
- Session.HandleMessage: three parts are assumptions. They are requiring `function_name` to be a string, reading the tool-call id from `tool_call_id`, and passing `args` through. The tests show only that the registered handler runs and receives the arguments.
- Json.Serialize: an integer prints as plain decimal digits. `JSON.stringify` prints magnitudes of 10^21 and above in exponent form, and integers beyond 2^53 are not exact JavaScript numbers. The model therefore matches JavaScript only for integers of magnitude at most 2^53.
- Json.WithinLimit: it agrees with the JavaScript size check only for values whose integers all have magnitude at most 2^53 (see `Json.Serialize`).
- Repeated member names: an object may repeat a member name. Serialisation keeps every occurrence, and lookups take the last one, as `JSON.parse` does. A JavaScript object cannot hold two properties of one name, so such values exist only as parsed input.
- Async overlap of `connect`/`disconnect` calls.
- `client-js/tests/rest_helpers.spec.ts`: it concerns request cloning and signal identity.
- Declaration-only files: `client-js/rtvi/events.ts` and `rtvi-client-js/src/helpers/index.ts`.

## Findings

| source | as written | input that shows it | evidently intended | confidence | as-written member | corrected member |
|---|---|---|---|---|---|---|
| client-js/client/rest_helpers.ts:62-88 | the rejection of `err.json()` is not handled, so an error response whose body is not JSON (or is `null`) never settles the promise | a 502 response with an HTML body | reject with a `StartBotError` carrying the status text and status | not executed | `RestHelpers.NonJsonErrorBodyNeverSettles` | `RestHelpers.Settle` |
| voice-sdk/src/transport/daily.ts:113-126 | `off` is given the bare methods, not the bound functions `on` received, so no listener is removed | connect, disconnect, connect, then the bot joins | each disconnect removes the listeners its connect added | not executed | `DailyTransport.ReconnectDuplicatesCallbacks` | `DailyTransport.DisconnectUndoesConnect` |
