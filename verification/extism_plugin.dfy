/** The Extism plugin (nai-tokenizers-extism): msgpack requests from a host
    are decoded, normalised onto the template's and tokenizer's own types,
    and forwarded. Decoding follows the serde attributes on the request
    types; what arrives on the wire is modelled by the `Wire…` types. */
module ExtismPlugin {
  import opened Wrappers
  import T = Glm45Template
  import Tok = Glm45Tokenizer

  // ---------------------------------------------------------------------
  // Messages
  // ---------------------------------------------------------------------

  /** An OpenAI-style message; a missing `reasoning_content` is `None`. */
  datatype ExternalMessage = ExternalMessage(role: string, content: string, reasoningContent: Option<string>)

  /** `From<ExternalMessage> for Message`. Any role string is accepted:
      "system" and "developer" become system turns, "assistant" the only turn
      that keeps its reasoning, and every other string a user turn. */
  function ToMessage(m: ExternalMessage): (r: T.Message)
    ensures r.content == m.content
    ensures r.System? <==> m.role == "system" || m.role == "developer"
    ensures r.Assistant? <==> m.role == "assistant"
    ensures r.User? <==> m.role != "system" && m.role != "developer" && m.role != "assistant"
    ensures r.Assistant? ==> r.reasoningContent == m.reasoningContent
  {
    if m.role == "system" || m.role == "developer" then T.System(m.content)
    else if m.role == "user" then T.User(m.content)
    else if m.role == "assistant" then T.Assistant(m.content, m.reasoningContent)
    else T.User(m.content)
  }

  /** The canonical external form of an internal message, used to show that
      `ToMessage` reaches every internal message. */
  function FromMessage(m: T.Message): (e: ExternalMessage)
    ensures e.content == m.content
  {
    match m
    case System(c) => ExternalMessage("system", c, None)
    case User(c) => ExternalMessage("user", c, None)
    case Assistant(c, rc) => ExternalMessage("assistant", c, rc)
  }

  /** Every internal message is the normalisation of its canonical form. */
  lemma ToMessageFromMessage(m: T.Message)
    ensures ToMessage(FromMessage(m)) == m
  {
  }

  /** Normalisation forgets only the role spelling and non-assistant
      reasoning: two external messages with the same content normalise alike
      exactly when their roles fall in the same class and, for assistants,
      their reasoning agrees. */
  lemma ToMessageEquivalence(a: ExternalMessage, b: ExternalMessage)
    requires a.content == b.content
    ensures ToMessage(a) == ToMessage(b) <==>
      (ToMessage(a).System? && ToMessage(b).System?) ||
      (ToMessage(a).User? && ToMessage(b).User?) ||
      (a.role == "assistant" && b.role == "assistant" && a.reasoningContent == b.reasoningContent)
  {
  }

  /** `messages.into_iter().map(|m| m.into()).collect()`: count and order kept. */
  function ToMessages(ms: seq<ExternalMessage>): (r: seq<T.Message>)
    ensures |r| == |ms|
    ensures forall i :: 0 <= i < |ms| ==> r[i] == ToMessage(ms[i])
  {
    if ms == [] then [] else [ToMessage(ms[0])] + ToMessages(ms[1..])
  }

  // ---------------------------------------------------------------------
  // Prefill
  // ---------------------------------------------------------------------

  /** `ExternalPrefillType`, internally tagged by a `type` key whose value is
      the snake_case variant name. */
  datatype ExternalPrefillType =
    | NoPrefill
    | Canonical
    | PartialReasoning(reasoningContent: string)
    | FullReasoning(reasoningContent: string, content: string)

  /** The `type` tag serde reads for each variant (`rename_all = "snake_case"`). */
  function Tag(p: ExternalPrefillType): (t: string)
    ensures t == "none" <==> p.NoPrefill?
    ensures t == "canonical" <==> p.Canonical?
    ensures t == "partial_reasoning" <==> p.PartialReasoning?
    ensures t == "full_reasoning" <==> p.FullReasoning?
  {
    match p
    case NoPrefill => "none"
    case Canonical => "canonical"
    case PartialReasoning(_) => "partial_reasoning"
    case FullReasoning(_, _) => "full_reasoning"
  }

  /** `From<ExternalPrefillType> for PrefillType`: variant for variant, fields kept. */
  function ToPrefill(p: ExternalPrefillType): (r: T.PrefillType)
    ensures r.NoPrefill? <==> p.NoPrefill?
    ensures r.Canonical? <==> p.Canonical?
    ensures r.PartialReasoning? <==> p.PartialReasoning?
    ensures r.FullReasoning? <==> p.FullReasoning?
    ensures (r.PartialReasoning? || r.FullReasoning?) ==> r.reasoningContent == p.reasoningContent
    ensures r.FullReasoning? ==> r.content == p.content
  {
    match p
    case NoPrefill => T.NoPrefill
    case Canonical => T.Canonical
    case PartialReasoning(rc) => T.PartialReasoning(rc)
    case FullReasoning(rc, c) => T.FullReasoning(rc, c)
  }

  /** The inverse conversion. */
  function FromPrefill(q: T.PrefillType): (p: ExternalPrefillType)
  {
    match q
    case NoPrefill => NoPrefill
    case Canonical => Canonical
    case PartialReasoning(rc) => PartialReasoning(rc)
    case FullReasoning(rc, c) => FullReasoning(rc, c)
  }

  /** The prefill conversion is a bijection: one-to-one and onto. */
  lemma PrefillConversionBijective(p: ExternalPrefillType, q: T.PrefillType)
    ensures FromPrefill(ToPrefill(p)) == p
    ensures ToPrefill(FromPrefill(q)) == q
    ensures ToPrefill(p) == q <==> p == FromPrefill(q)
  {
  }

  /** A prefill object as it arrives: the `type` tag and whichever of the two
      string keys are present. */
  datatype WirePrefill = WirePrefill(tag: string, reasoningContent: Option<string>, content: Option<string>)

  /** Why serde refuses a request. */
  datatype DecodeError = UnknownVariant(tag: string) | MissingField(name: string) | InvalidType(name: string)

  /** The derived deserializer of `ExternalPrefillType`: the tag selects the
      variant, the variant's own fields are required, and keys the variant
      does not have are ignored. */
  function DecodePrefill(w: WirePrefill): (r: Result<ExternalPrefillType, DecodeError>)
    ensures r.Success? <==>
      || w.tag == "none"
      || w.tag == "canonical"
      || (w.tag == "partial_reasoning" && w.reasoningContent.Some?)
      || (w.tag == "full_reasoning" && w.reasoningContent.Some? && w.content.Some?)
    ensures r.Success? ==> Tag(r.value) == w.tag
    ensures r.Success? && (r.value.PartialReasoning? || r.value.FullReasoning?) ==>
      w.reasoningContent == Some(r.value.reasoningContent)
    ensures r.Success? && r.value.FullReasoning? ==> w.content == Some(r.value.content)
    ensures (w.tag != "none" && w.tag != "canonical" &&
             w.tag != "partial_reasoning" && w.tag != "full_reasoning") ==>
      r == Failure(UnknownVariant(w.tag))
    ensures (w.tag == "partial_reasoning" || w.tag == "full_reasoning") && w.reasoningContent.None? ==>
      r == Failure(MissingField("reasoning_content"))
    ensures w.tag == "full_reasoning" && w.reasoningContent.Some? && w.content.None? ==>
      r == Failure(MissingField("content"))
  {
    if w.tag == "none" then Success(NoPrefill)
    else if w.tag == "canonical" then Success(Canonical)
    else if w.tag == "partial_reasoning" then
      if w.reasoningContent.None? then Failure(MissingField("reasoning_content"))
      else Success(PartialReasoning(w.reasoningContent.value))
    else if w.tag == "full_reasoning" then
      if w.reasoningContent.None? then Failure(MissingField("reasoning_content"))
      else if w.content.None? then Failure(MissingField("content"))
      else Success(FullReasoning(w.reasoningContent.value, w.content.value))
    else Failure(UnknownVariant(w.tag))
  }

  // ---------------------------------------------------------------------
  // chat_template
  // ---------------------------------------------------------------------

  /** The `messages` key as it arrives: missing, msgpack nil (a nil Go
      slice), or a list. */
  datatype WireMessages = MessagesAbsent | MessagesNil | Messages(items: seq<ExternalMessage>)

  /** A chat-template request as it arrives; absent optional keys are `None`. */
  datatype WireChatTemplateInput = WireChatTemplateInput(
    messages: WireMessages,
    reasoningEnabled: Option<bool>,
    prefill: Option<WirePrefill>,
    ignoreMessagePosition: Option<bool>)

  /** `ChatTemplateInput` after deserialization, defaults applied. */
  datatype ChatTemplateInput = ChatTemplateInput(
    messages: seq<ExternalMessage>,
    reasoningEnabled: bool,
    prefill: Option<ExternalPrefillType>,
    ignoreMessagePosition: bool)

  /** Deserialization of `ChatTemplateInput`. `messages` has no default:
      a nil list is refused when its key is read and a missing key once the
      whole map has been read. The three `#[serde(default)]` fields default
      to false, false and no prefill. Keys are read in the order the Go host
      writes them, `messages` first, so a nil list is reported before a
      malformed prefill, and a malformed prefill before a missing list. */
  function DecodeChatTemplateInput(w: WireChatTemplateInput): (r: Result<ChatTemplateInput, DecodeError>)
    ensures r.Success? <==>
      w.messages.Messages? && (w.prefill.None? || DecodePrefill(w.prefill.value).Success?)
    ensures w.messages.MessagesNil? ==> r == Failure(InvalidType("messages"))
    ensures !w.messages.MessagesNil? && w.prefill.Some? && DecodePrefill(w.prefill.value).Failure? ==>
      r == Failure(DecodePrefill(w.prefill.value).error)
    ensures w.messages.MessagesAbsent? && (w.prefill.None? || DecodePrefill(w.prefill.value).Success?) ==>
      r == Failure(MissingField("messages"))
    ensures r.Success? ==> r.value.messages == w.messages.items
    ensures r.Success? ==> (r.value.reasoningEnabled <==> w.reasoningEnabled == Some(true))
    ensures r.Success? ==> (r.value.ignoreMessagePosition <==> w.ignoreMessagePosition == Some(true))
    ensures r.Success? ==> (r.value.prefill.None? <==> w.prefill.None?)
    ensures r.Success? && w.prefill.Some? ==> r.value.prefill == Some(DecodePrefill(w.prefill.value).value)
  {
    var reasoningEnabled := w.reasoningEnabled.GetOr(false);
    var ignore := w.ignoreMessagePosition.GetOr(false);
    if w.messages.MessagesNil? then Failure(InvalidType("messages"))
    else
      var prefill: Result<Option<ExternalPrefillType>, DecodeError> :=
        match w.prefill
        case None => Success(None)
        case Some(wp) =>
          match DecodePrefill(wp)
          case Success(p) => Success(Some(p))
          case Failure(e) => Failure(e);
      if prefill.Failure? then Failure(prefill.error)
      else if w.messages.MessagesAbsent? then Failure(MissingField("messages"))
      else Success(ChatTemplateInput(w.messages.items, reasoningEnabled, prefill.value, ignore))
  }

  /** The arguments `chat_template` hands to the renderer. */
  datatype RenderArguments = RenderArguments(
    reasoning: T.ReasoningEnabled,
    chat: T.Chat,
    prefill: T.PrefillType,
    ignoreMessagePosition: bool)

  /** The argument shaping in `chat_template`: a missing prefill becomes
      `Canonical`, the boolean becomes `Yes`/`No`, every message is
      normalised in place, and the position override is forwarded. */
  function RenderArgumentsOf(input: ChatTemplateInput): (a: RenderArguments)
    ensures a.reasoning == T.Yes <==> input.reasoningEnabled
    ensures a.reasoning == T.No <==> !input.reasoningEnabled
    ensures |a.chat.messages| == |input.messages|
    ensures forall i :: 0 <= i < |input.messages| ==> a.chat.messages[i] == ToMessage(input.messages[i])
    ensures input.prefill.None? ==> a.prefill == T.Canonical
    ensures input.prefill.Some? ==> FromPrefill(a.prefill) == input.prefill.value
    ensures a.ignoreMessagePosition == input.ignoreMessagePosition
  {
    var reasoning := if input.reasoningEnabled then T.Yes else T.No;
    var prefill := if input.prefill.Some? then ToPrefill(input.prefill.value) else T.Canonical;
    PrefillConversionBijective(if input.prefill.Some? then input.prefill.value else NoPrefill, prefill);
    RenderArguments(reasoning, T.Chat(ToMessages(input.messages)), prefill, input.ignoreMessagePosition)
  }

  /** `chat_template` once the request is decoded: the output is the
      renderer's output on the shaped arguments and nothing else. */
  function ChatTemplate(render: T.Renderer, input: ChatTemplateInput): (r: string)
    ensures var chat := T.Chat(ToMessages(input.messages));
      var reasoning := if input.reasoningEnabled then T.Yes else T.No;
      && (input.prefill.None? ==> r == render(reasoning, chat, T.Canonical, input.ignoreMessagePosition))
      && (input.prefill.Some? ==>
            r == render(reasoning, chat, ToPrefill(input.prefill.value), input.ignoreMessagePosition))
  {
    var a := RenderArgumentsOf(input);
    render(a.reasoning, a.chat, a.prefill, a.ignoreMessagePosition)
  }

  /** The `chat_template` plugin call from the wire: a request that does not
      decode is refused before the renderer is reached. */
  function ChatTemplateCall(render: T.Renderer, w: WireChatTemplateInput): (r: Result<string, DecodeError>)
    ensures r.Success? <==> DecodeChatTemplateInput(w).Success?
    ensures r.Success? ==> r.value == ChatTemplate(render, DecodeChatTemplateInput(w).value)
    ensures r.Failure? ==> r.error == DecodeChatTemplateInput(w).error
  {
    match DecodeChatTemplateInput(w)
    case Success(input) => Success(ChatTemplate(render, input))
    case Failure(e) => Failure(e)
  }

  // ---------------------------------------------------------------------
  // tokenize / detokenize
  // ---------------------------------------------------------------------

  datatype TokenizeInput = TokenizeInput(text: string, includeSpecialTokens: bool)
  datatype DetokenizeInput = DetokenizeInput(tokens: seq<Tok.u32>, includeSpecialTokens: bool)

  /** `tokenize`: `include_special_tokens` reaches the encoder unchanged as
      its add-special-tokens argument; ids and errors pass through. */
  function Tokenize(b: Tok.Backend, input: TokenizeInput): (r: Result<seq<Tok.u32>, string>)
    ensures r == b.encode(input.text, input.includeSpecialTokens)
  {
    Tok.Tokenize(b, input.text, Tok.FromFlag(input.includeSpecialTokens))
  }

  /** `detokenize`: `include_special_tokens` reaches the decoder negated, as
      its skip-special-tokens argument; text and errors pass through. */
  function Detokenize(b: Tok.Backend, input: DetokenizeInput): (r: Result<string, string>)
    ensures r == b.decode(input.tokens, !input.includeSpecialTokens)
  {
    Tok.Detokenize(b, input.tokens, Tok.FromFlag(input.includeSpecialTokens))
  }
}
