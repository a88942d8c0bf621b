/**
 * Envelopes of the voice-client protocol: a type tag, the fixed label
 * "rtvi", a JSON payload and a client-generated id that never goes on
 * the wire.  The id generator is an input here.
 */
module VoiceMessages {
  import opened Wrappers
  import opened Json
  import Utf8

  const Label: string := "rtvi"

  /** The message types of the protocol. */
  datatype VoiceMessageType =
    // outbound
    | Config | LlmGetContext | LlmUpdateContext | LlmAppendContext | Speak | Interrupt
    // inbound
    | BotReady | LlmContext | Transcript | ConfigUpdated | ConfigError | ToolCall | JsonCompletion

  function TypeName(t: VoiceMessageType): string {
    match t
    case Config => "config-update"
    case LlmGetContext => "llm-get-context"
    case LlmUpdateContext => "llm-update-context"
    case LlmAppendContext => "llm-append-context"
    case Speak => "tts-speak"
    case Interrupt => "tts-interrupt"
    case BotReady => "bot-ready"
    case LlmContext => "llm-context"
    case Transcript => "transcript"
    case ConfigUpdated => "config-updated"
    case ConfigError => "config-error"
    case ToolCall => "tool-call"
    case JsonCompletion => "json-completion"
  }

  function ParseTypeName(name: string): (r: Option<VoiceMessageType>)
    ensures r.Some? ==> TypeName(r.value) == name
  {
    if name == "config-update" then Some(Config)
    else if name == "llm-get-context" then Some(LlmGetContext)
    else if name == "llm-update-context" then Some(LlmUpdateContext)
    else if name == "llm-append-context" then Some(LlmAppendContext)
    else if name == "tts-speak" then Some(Speak)
    else if name == "tts-interrupt" then Some(Interrupt)
    else if name == "bot-ready" then Some(BotReady)
    else if name == "llm-context" then Some(LlmContext)
    else if name == "transcript" then Some(Transcript)
    else if name == "config-updated" then Some(ConfigUpdated)
    else if name == "config-error" then Some(ConfigError)
    else if name == "tool-call" then Some(ToolCall)
    else if name == "json-completion" then Some(JsonCompletion)
    else None
  }

  /** Every type tag reads back as its type, so the tags are distinct. */
  lemma ParseTypeNameRoundTrip(t: VoiceMessageType)
    ensures ParseTypeName(TypeName(t)) == Some(t)
  {
  }

  /** `data` is `None` when the payload is `undefined`. */
  datatype VoiceMessage = VoiceMessage(id: string, msgLabel: string, msgType: string, data: Option<Json>)

  /** `new VoiceMessage(type, data)` with `id` drawn from the id generator. */
  function NewMessage(id: string, msgType: string, data: Option<Json>): (m: VoiceMessage)
    ensures m.msgLabel == "rtvi"
    ensures m.msgType == msgType && m.data == data && m.id == id
  {
    VoiceMessage(id, Label, msgType, data)
  }

  /**
   * The object `serialize` hands to `JSON.stringify`: type, label, data;
   * never the id.  `JSON.stringify` drops an `undefined` data property.
   */
  function WireObject(m: VoiceMessage): (j: Json)
    ensures j.Obj? && |j.members| == (if m.data.Some? then 3 else 2)
    ensures j.members[0] == ("type", Str(m.msgType))
    ensures j.members[1] == ("label", Str(m.msgLabel))
    ensures m.data.Some? ==> j.members[2] == ("data", m.data.value)
  {
    Obj([("type", Str(m.msgType)), ("label", Str(m.msgLabel))] + Field("data", m.data))
  }

  /** The wire text of an envelope. */
  function SerializeMessage(m: VoiceMessage): (t: string)
    ensures |t| >= 2 && t[0] == '{' && t[|t| - 1] == '}'
    ensures |Utf8.Encode(t)|
         == 18 + StringSize(m.msgType) + StringSize(m.msgLabel) + (if m.data.Some? then 8 + SizeOf(m.data.value) else 0)
  {
    WireSize(m);
    Serialize(WireObject(m))
  }

  /** Reads the wire object back; the id is not recoverable because it was never sent. */
  function FromWireObject(j: Json): Option<(string, string, Option<Json>)> {
    match j
    case Obj(ms) =>
      if 2 <= |ms| <= 3 && ms[0].0 == "type" && ms[0].1.Str? && ms[1].0 == "label" && ms[1].1.Str?
         && (|ms| == 3 ==> ms[2].0 == "data")
      then Some((ms[0].1.s, ms[1].1.s, if |ms| == 3 then Some(ms[2].1) else None))
      else None
    case _ => None
  }

  /** Serialisation keeps type, label and data and only drops the id. */
  lemma WireRoundTrip(m: VoiceMessage)
    ensures FromWireObject(WireObject(m)) == Some((m.msgType, m.msgLabel, m.data))
  {
  }

  /** Two envelopes that differ only in id serialise identically. */
  lemma IdNotSerialized(m: VoiceMessage, id: string)
    ensures SerializeMessage(m.(id := id)) == SerializeMessage(m)
  {
  }

  /**
   * Exact wire size: `{"type":` `,"label":` `}` contribute 18 bytes
   * around type and label, and a present payload adds `,"data":` (8
   * bytes) and its own text.
   */
  lemma WireSize(m: VoiceMessage)
    ensures ByteSize(WireObject(m))
         == 18 + StringSize(m.msgType) + StringSize(m.msgLabel) + (if m.data.Some? then 8 + SizeOf(m.data.value) else 0)
  {
    SerializedSize(WireObject(m));
    assert StringSize("type") == 6 by { PlainBodySize("type"); }
    assert StringSize("label") == 7 by { PlainBodySize("label"); }
    if m.data.Some? {
      assert StringSize("data") == 6 by { PlainBodySize("data"); }
      assert WireObject(m) == Obj([("type", Str(m.msgType)), ("label", Str(m.msgLabel)), ("data", m.data.value)]);
      Object3Size("type", Str(m.msgType), "label", Str(m.msgLabel), "data", m.data.value);
    } else {
      assert WireObject(m) == Obj([("type", Str(m.msgType)), ("label", Str(m.msgLabel))]);
      Object2Size("type", Str(m.msgType), "label", Str(m.msgLabel));
    }
  }

  // ---------------------------------------------------------------------
  // Builders.

  /** The configuration object; `others` are the fields `config` leaves behind. */
  datatype ConfigOptions = ConfigOptions(llm: Option<Json>, tts: Option<Json>, others: seq<(string, Json)>)

  /**
   * A property whose value is `undefined` is dropped by `JSON.stringify`,
   * so an absent field contributes no member.
   */
  function Field(key: string, value: Option<Json>): seq<(string, Json)> {
    if value.Some? then [(key, value.value)] else []
  }

  /** `VoiceMessage.config`: only the llm and tts parts, nested under `config`. */
  function ConfigMessage(id: string, c: ConfigOptions): (m: VoiceMessage)
    ensures m.msgType == "config-update" && m.msgLabel == Label
    ensures m.data.Some? && m.data.value.Obj? && |m.data.value.members| == 1 && m.data.value.members[0].0 == "config"
    ensures var inner := m.data.value.members[0].1;
      && inner.Obj?
      && Lookup(inner.members, "llm") == c.llm
      && Lookup(inner.members, "tts") == c.tts
      && forall i :: 0 <= i < |inner.members| ==> inner.members[i].0 in {"llm", "tts"}
  {
    NewMessage(id, TypeName(Config), Some(Obj([("config", Obj(Field("llm", c.llm) + Field("tts", c.tts)))])))
  }

  /** `VoiceMessage.speak`: both arguments echoed under `tts`. */
  function SpeakMessage(id: string, text: string, interrupt: bool): (m: VoiceMessage)
    ensures m.msgType == "tts-speak" && m.msgLabel == Label
    ensures m.data == Some(Obj([("tts", Obj([("text", Str(text)), ("interrupt", Bool(interrupt))]))]))
  {
    NewMessage(id, TypeName(Speak), Some(Obj([("tts", Obj([("text", Str(text)), ("interrupt", Bool(interrupt))]))])))
  }

  function InterruptMessage(id: string): (m: VoiceMessage)
    ensures m.msgType == "tts-interrupt" && m.msgLabel == Label && m.data == Some(Obj([]))
  {
    NewMessage(id, TypeName(Interrupt), Some(Obj([])))
  }

  function GetLlmContextMessage(id: string): (m: VoiceMessage)
    ensures m.msgType == "llm-get-context" && m.msgLabel == Label && m.data == Some(Obj([]))
  {
    NewMessage(id, TypeName(LlmGetContext), Some(Obj([])))
  }

  function UpdateLlmContextMessage(id: string, llmConfig: Json): (m: VoiceMessage)
    ensures m.msgType == "llm-update-context" && m.msgLabel == Label
    ensures m.data == Some(Obj([("llm", llmConfig)]))
  {
    NewMessage(id, TypeName(LlmUpdateContext), Some(Obj([("llm", llmConfig)])))
  }

  function AppendLlmContextMessage(id: string, messages: seq<Json>): (m: VoiceMessage)
    ensures m.msgType == "llm-append-context" && m.msgLabel == Label
    ensures m.data == Some(Obj([("llm", Obj([("messages", Arr(messages))]))]))
  {
    NewMessage(id, TypeName(LlmAppendContext), Some(Obj([("llm", Obj([("messages", Arr(messages))]))])))
  }

  /** `VoiceMessageTranscript`: always type "transcript". */
  function TranscriptMessage(id: string, text: string, final: bool): (m: VoiceMessage)
    ensures m.msgType == "transcript" && m.msgLabel == Label
    ensures m.data == Some(Obj([("text", Str(text)), ("final", Bool(final))]))
  {
    NewMessage(id, TypeName(Transcript), Some(Obj([("text", Str(text)), ("final", Bool(final))])))
  }
}
