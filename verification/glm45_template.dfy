/** The data types of the GLM-4.5 chat template, as its callers see them.

    The template engine (`ContextState` and its sentinel, reasoning and
    position rules) is not part of this model: it is represented by a
    `Renderer` value that every caller receives as a parameter, so nothing
    here depends on how a conversation is turned into text. */
module Glm45Template {
  import opened Wrappers

  /** One conversation turn. Only an assistant turn can carry reasoning. */
  datatype Message =
    | System(content: string)
    | User(content: string)
    | Assistant(content: string, reasoningContent: Option<string>)

  /** An ordered conversation; order is conversational order. */
  datatype Chat = Chat(messages: seq<Message>)

  /** Whether the model family uses extended reasoning for this render. */
  datatype ReasoningEnabled = Yes | No

  /** How the final assistant turn is seeded after the conversation. */
  datatype PrefillType =
    | NoPrefill
    | Canonical
    | PartialReasoning(reasoningContent: string)
    | FullReasoning(reasoningContent: string, content: string)

  /** `ContextState::new(reasoning).chat_with_options(&chat, prefill, ignore_message_position)`. */
  type Renderer = (ReasoningEnabled, Chat, PrefillType, bool) -> string
}
