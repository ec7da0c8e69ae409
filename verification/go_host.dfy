/** The Go host package (nai-tokenizers-extism-host-go/tokenizer): the
    request records a Go program fills in, the prefill constructors, and how
    msgpack encodes the records for the plugin. Pointer fields are `Option`s;
    a nil pointer tagged `omitempty` is left out of the encoded map. */
module GoHost {
  import opened Wrappers
  import T = Glm45Template
  import P = ExtismPlugin

  /** `Message`: an OpenAI-compatible chat message. */
  datatype Message = Message(role: string, content: string, reasoningContent: Option<string>)

  /** `PrefillType`: the `Type` string and two optional strings. */
  datatype PrefillType = PrefillType(typeName: string, reasoningContent: Option<string>, content: Option<string>)

  /** `ChatTemplateInput`. `messages` is a Go slice, which may be nil
      (`None`, the zero value) as well as empty; `prefill` is the nullable
      `*PrefillType`. */
  datatype ChatTemplateInput = ChatTemplateInput(
    messages: Option<seq<Message>>,
    reasoningEnabled: bool,
    prefill: Option<PrefillType>,
    ignoreMessagePosition: bool)

  // ---------------------------------------------------------------------
  // msgpack encoding
  // ---------------------------------------------------------------------

  /** A message's keys are the plugin's; a nil reasoning pointer is omitted,
      which the plugin reads back as no reasoning. What the plugin makes of
      the message is then decided by the Go `Role` string alone. */
  function MarshalMessage(m: Message): (e: P.ExternalMessage)
    ensures e.reasoningContent.None? <==> m.reasoningContent.None?
    ensures P.ToMessage(e).content == m.content
    ensures m.role == "assistant" ==> P.ToMessage(e) == T.Assistant(m.content, m.reasoningContent)
    ensures m.role == "system" || m.role == "developer" ==> P.ToMessage(e) == T.System(m.content)
    ensures m.role != "system" && m.role != "developer" && m.role != "assistant" ==>
      P.ToMessage(e) == T.User(m.content)
  {
    P.ExternalMessage(m.role, m.content, m.reasoningContent)
  }

  /** A non-nil slice is sent as a list, element by element and in order. */
  function MarshalMessageList(ms: seq<Message>): (es: seq<P.ExternalMessage>)
    ensures |es| == |ms|
    ensures forall i :: 0 <= i < |ms| ==> es[i] == MarshalMessage(ms[i])
  {
    if ms == [] then [] else [MarshalMessage(ms[0])] + MarshalMessageList(ms[1..])
  }

  /** A prefill's keys are the plugin's: `Type` is sent as the `type` tag and
      nil pointers are omitted. The plugin accepts it exactly when `Type` is
      one of the four tags and that variant's strings are set, and then reads
      it as the variant `Type` names. */
  function MarshalPrefill(p: PrefillType): (w: P.WirePrefill)
    ensures w.reasoningContent.None? <==> p.reasoningContent.None?
    ensures w.content.None? <==> p.content.None?
    ensures w.tag == p.typeName
    ensures P.DecodePrefill(w).Success? <==>
      || p.typeName == "none"
      || p.typeName == "canonical"
      || (p.typeName == "partial_reasoning" && p.reasoningContent.Some?)
      || (p.typeName == "full_reasoning" && p.reasoningContent.Some? && p.content.Some?)
    ensures P.DecodePrefill(w).Failure? && P.DecodePrefill(w).error.UnknownVariant? ==>
      P.DecodePrefill(w).error.tag == p.typeName
    ensures P.DecodePrefill(w).Success? ==> P.Tag(P.DecodePrefill(w).value) == p.typeName
    ensures (P.DecodePrefill(w).Success? &&
             (P.DecodePrefill(w).value.PartialReasoning? || P.DecodePrefill(w).value.FullReasoning?)) ==>
      p.reasoningContent == Some(P.DecodePrefill(w).value.reasoningContent)
    ensures P.DecodePrefill(w).Success? && P.DecodePrefill(w).value.FullReasoning? ==>
      p.content == Some(P.DecodePrefill(w).value.content)
  {
    P.WirePrefill(p.typeName, p.reasoningContent, p.content)
  }

  /** Only `prefill` is `omitempty` in the msgpack tags: the messages key and
      the two booleans are always sent (a nil slice as nil), and a nil prefill
      is absent from the map. */
  function Marshal(input: ChatTemplateInput): (w: P.WireChatTemplateInput)
    ensures !w.messages.MessagesAbsent?
    ensures w.messages.MessagesNil? <==> input.messages.None?
    ensures w.messages.Messages? ==> |w.messages.items| == |input.messages.value|
    ensures w.messages.Messages? ==> forall i :: 0 <= i < |w.messages.items| ==>
      w.messages.items[i] == MarshalMessage(input.messages.value[i])
    ensures w.reasoningEnabled == Some(input.reasoningEnabled)
    ensures w.ignoreMessagePosition == Some(input.ignoreMessagePosition)
    ensures w.prefill.None? <==> input.prefill.None?
    ensures input.prefill.Some? ==> w.prefill == Some(MarshalPrefill(input.prefill.value))
  {
    P.WireChatTemplateInput(
      if input.messages.Some? then P.Messages(MarshalMessageList(input.messages.value)) else P.MessagesNil,
      Some(input.reasoningEnabled),
      if input.prefill.Some? then Some(MarshalPrefill(input.prefill.value)) else None,
      Some(input.ignoreMessagePosition))
  }

  // ---------------------------------------------------------------------
  // Prefill constructors
  // ---------------------------------------------------------------------

  /** `PrefillNone`: the plugin decodes it as the no-prefill variant. */
  function PrefillNone(): (p: PrefillType)
    ensures p.reasoningContent.None? && p.content.None?
    ensures P.DecodePrefill(MarshalPrefill(p)) == Success(P.NoPrefill)
  {
    PrefillType("none", None, None)
  }

  /** `PrefillCanonical`: the plugin decodes it as the canonical variant. */
  function PrefillCanonical(): (p: PrefillType)
    ensures p.reasoningContent.None? && p.content.None?
    ensures P.DecodePrefill(MarshalPrefill(p)) == Success(P.Canonical)
  {
    PrefillType("canonical", None, None)
  }

  /** `PrefillPartialReasoning(r)`: only the reasoning is set, and the plugin
      decodes it as partial reasoning carrying `r`. */
  function PrefillPartialReasoning(reasoningContent: string): (p: PrefillType)
    ensures p.reasoningContent == Some(reasoningContent) && p.content.None?
    ensures P.DecodePrefill(MarshalPrefill(p)) == Success(P.PartialReasoning(reasoningContent))
  {
    PrefillType("partial_reasoning", Some(reasoningContent), None)
  }

  /** `PrefillFullReasoning(r, c)`: reasoning first, content second, and the
      plugin decodes it as full reasoning carrying both in that order. */
  function PrefillFullReasoning(reasoningContent: string, content: string): (p: PrefillType)
    ensures p.reasoningContent == Some(reasoningContent) && p.content == Some(content)
    ensures P.DecodePrefill(MarshalPrefill(p)) == Success(P.FullReasoning(reasoningContent, content))
  {
    PrefillType("full_reasoning", Some(reasoningContent), Some(content))
  }

  /** The constructor a Go caller uses to ask for the template prefill `q`. */
  function PrefillFor(q: T.PrefillType): PrefillType
  {
    match q
    case NoPrefill => PrefillNone()
    case Canonical => PrefillCanonical()
    case PartialReasoning(rc) => PrefillPartialReasoning(rc)
    case FullReasoning(rc, c) => PrefillFullReasoning(rc, c)
  }

  /** Cross-language round trip: every template prefill, built in Go by its
      constructor, encoded and decoded by the plugin, comes back as itself,
      and its `Type` string is the plugin's tag for that variant. */
  lemma PrefillRoundTrip(q: T.PrefillType)
    ensures P.DecodePrefill(MarshalPrefill(PrefillFor(q))).Success?
    ensures P.ToPrefill(P.DecodePrefill(MarshalPrefill(PrefillFor(q))).value) == q
    ensures PrefillFor(q).typeName == P.Tag(P.FromPrefill(q))
  {
  }

  /** Only the four constructor tags decode: any other `Type` string is
      refused by the plugin as an unknown variant. */
  lemma UnknownTypeRefused(p: PrefillType)
    requires p.typeName != "none" && p.typeName != "canonical"
    requires p.typeName != "partial_reasoning" && p.typeName != "full_reasoning"
    ensures P.DecodePrefill(MarshalPrefill(p)) == Failure(P.UnknownVariant(p.typeName))
  {
  }

  /** A Go request with a nil prefill is rendered with the canonical prefill;
      the messages reach the renderer normalised, in order, and the two
      booleans arrive as sent. A nil message slice is refused instead. */
  lemma NilPrefillRendersCanonical(render: T.Renderer, input: ChatTemplateInput)
    requires input.prefill.None?
    ensures input.messages.None? ==>
      P.ChatTemplateCall(render, Marshal(input)) == Failure(P.InvalidType("messages"))
    ensures input.messages.Some? ==>
      P.ChatTemplateCall(render, Marshal(input)) ==
        Success(render(
          if input.reasoningEnabled then T.Yes else T.No,
          T.Chat(P.ToMessages(MarshalMessageList(input.messages.value))),
          T.Canonical,
          input.ignoreMessagePosition))
  {
  }

  /** A Go request whose prefill was built by a constructor is rendered with
      the same-named template prefill carrying the same strings; a nil
      message slice is refused instead. */
  lemma ConstructedPrefillRendersSameVariant(render: T.Renderer, input: ChatTemplateInput, q: T.PrefillType)
    requires input.prefill == Some(PrefillFor(q))
    ensures input.messages.None? ==>
      P.ChatTemplateCall(render, Marshal(input)) == Failure(P.InvalidType("messages"))
    ensures input.messages.Some? ==>
      P.ChatTemplateCall(render, Marshal(input)) ==
        Success(render(
          if input.reasoningEnabled then T.Yes else T.No,
          T.Chat(P.ToMessages(MarshalMessageList(input.messages.value))),
          q,
          input.ignoreMessagePosition))
  {
  }
}
