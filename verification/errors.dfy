/**
 * The client's error classes.  Each class is a kind of `RtviError`; a
 * message or status the caller leaves out is `None`.
 *
 * Two different notions of "absent" appear: the classes that default with
 * `??` treat only a missing value as absent (an empty message is kept),
 * while `UnsupportedFeatureError` tests truthiness, so an empty source or
 * message counts as absent too.
 */
module Errors {
  import opened Wrappers

  datatype Kind =
    | Generic
    | ConnectionTimeout
    | StartBot
    | TransportStart
    | BotNotReady
    | UnsupportedFeature(feature: string)
    | MessageTooLarge

  datatype RtviError = RtviError(kind: Kind, message: string, status: Option<int>) {

    /** The `error` field only `StartBotError` carries. */
    function ErrorCode(): Option<string> {
      if kind.StartBot? then Some("invalid-request-error") else None
    }
  }

  const ConnectionTimeoutDefault: string := "Bot did not enter ready state within the specified timeout period."
  const StartBotDefault: string := "Failed to connect / invalid auth bundle from base url"
  const StartBotDefaultStatus: int := 500
  const TransportStartDefault: string := "Unable to connect to transport"
  const BotNotReadyDefault: string := "Attempt to call action on transport when not in 'ready' state."

  /** `new RTVIError(message?, status?)`: an absent message reads as the empty string. */
  function NewRtviError(message: Option<string>, status: Option<int>): (e: RtviError)
    ensures e.kind == Generic
    ensures message.Some? ==> e.message == message.value
    ensures message.None? ==> e.message == ""
    ensures e.status == status
  {
    RtviError(Generic, message.GetOr(""), status)
  }

  function NewConnectionTimeoutError(message: Option<string>): (e: RtviError)
    ensures e.kind == ConnectionTimeout && e.status == None
    ensures message.Some? ==> e.message == message.value
    ensures message.None? ==> e.message == ConnectionTimeoutDefault
  {
    RtviError(ConnectionTimeout, message.GetOr(ConnectionTimeoutDefault), None)
  }

  function NewStartBotError(message: Option<string>, status: Option<int>): (e: RtviError)
    ensures e.kind == StartBot
    ensures e.ErrorCode() == Some("invalid-request-error")
    ensures message.Some? ==> e.message == message.value
    ensures message.None? ==> e.message == StartBotDefault
    ensures status.Some? ==> e.status == status
    ensures status.None? ==> e.status == Some(StartBotDefaultStatus)
  {
    RtviError(StartBot, message.GetOr(StartBotDefault), Some(status.GetOr(StartBotDefaultStatus)))
  }

  function NewTransportStartError(message: Option<string>): (e: RtviError)
    ensures e.kind == TransportStart && e.status == None
    ensures message.Some? ==> e.message == message.value
    ensures message.None? ==> e.message == TransportStartDefault
  {
    RtviError(TransportStart, message.GetOr(TransportStartDefault), None)
  }

  function NewBotNotReadyError(message: Option<string>): (e: RtviError)
    ensures e.kind == BotNotReady && e.status == None
    ensures message.Some? ==> e.message == message.value
    ensures message.None? ==> e.message == BotNotReadyDefault
  {
    RtviError(BotNotReady, message.GetOr(BotNotReadyDefault), None)
  }

  /** JavaScript truthiness of an optional string: present and non-empty. */
  predicate Truthy(s: Option<string>) {
    s.Some? && s.value != ""
  }

  predicate StartsWith(s: string, prefix: string) {
    |prefix| <= |s| && s[..|prefix|] == prefix
  }

  predicate EndsWith(s: string, suffix: string) {
    |suffix| <= |s| && s[|s| - |suffix|..] == suffix
  }

  /**
   * `new UnsupportedFeatureError(feature, source?, message?)`:
   * "<feature> not supported" or "<source> does not support <feature>",
   * followed by ": <message>" when a message is given.
   */
  function NewUnsupportedFeatureError(feature: string, source: Option<string>, message: Option<string>): (e: RtviError)
    ensures e.kind == UnsupportedFeature(feature) && e.status == None
    ensures Truthy(source) ==> StartsWith(e.message, source.value + " does not support " + feature)
    ensures !Truthy(source) ==> StartsWith(e.message, feature + " not supported")
    ensures Truthy(message) ==> EndsWith(e.message, ": " + message.value)
    ensures !Truthy(message) && Truthy(source) ==> EndsWith(e.message, " does not support " + feature)
    ensures !Truthy(message) && !Truthy(source) ==> EndsWith(e.message, " not supported")
    ensures |e.message| == (if Truthy(source) then |source.value| + 18 else 14) + |feature|
                           + (if Truthy(message) then 2 + |message.value| else 0)
  {
    var detail := if Truthy(message) then ": " + message.value else "";
    var head := if Truthy(source) then source.value + " does not support " + feature
                else feature + " not supported";
    assert |head| == (if Truthy(source) then |source.value| + 18 else 14) + |feature|;
    assert |detail| == if Truthy(message) then 2 + |message.value| else 0;
    assert Truthy(source) ==> EndsWith(head, " does not support " + feature) by {
      if Truthy(source) {
        Framed(source.value, " does not support " + feature);
      }
    }
    assert !Truthy(source) ==> StartsWith(head, feature) && EndsWith(head, " not supported") by {
      if !Truthy(source) {
        Framed(feature, " not supported");
      }
    }
    Framed(head, detail);
    RtviError(UnsupportedFeature(feature), head + detail, None)
  }

  /** A text made of a head and a tail starts with the one and ends with the other. */
  lemma Framed(head: string, tail: string)
    ensures StartsWith(head + tail, head) && EndsWith(head + tail, tail)
    ensures tail == [] ==> head + tail == head
  {
    assert (head + tail)[..|head|] == head;
    assert (head + tail)[|head + tail| - |tail|..] == tail;
  }

  /** Only `??` defaults apply: an empty message is kept, not replaced by the default text. */
  lemma EmptyMessageKept()
    ensures NewConnectionTimeoutError(Some("")).message == ""
    ensures NewStartBotError(Some(""), None).message == ""
    ensures NewTransportStartError(Some("")).message == ""
    ensures NewBotNotReadyError(Some("")).message == ""
  {
  }

  /** For an unsupported feature, an empty source or message is the same as none. */
  lemma UnsupportedFeatureEmptyIsAbsent(feature: string, source: Option<string>, message: Option<string>)
    ensures NewUnsupportedFeatureError(feature, Some(""), message) == NewUnsupportedFeatureError(feature, None, message)
    ensures NewUnsupportedFeatureError(feature, source, Some("")) == NewUnsupportedFeatureError(feature, source, None)
  {
  }
}
