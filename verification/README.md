# nai-tokenizers bindings, modelled in Dafny

nai-tokenizers wraps the GLM-4.5 tokenizer and chat template. Three bindings sit in front of it:

- an Extism WebAssembly plugin that takes msgpack requests;
- a Go host package that builds those requests;
- a browser binding that reports per-token byte spans.

This project models the logic of those bindings and of the tokenizer wrapper around the foreign BPE library. The chat-template engine and the BPE tokenizer are not part of the model. Each is passed in as a value:

- `Glm45Template.Renderer` stands for `ContextState::new(r).chat_with_options(chat, prefill, ignore)`.
- `Glm45Tokenizer.Backend` is a pair of total functions: `encode(text, add_special_tokens)` and `decode(ids, skip_special_tokens)`. Each returns its result or an error message.

So every property below holds for every renderer and every vocabulary.

Modules, one per source file:

- `Wrappers`: `Option` and `Result`.
- `Glm45Template`: `Message`, `Chat`, `ReasoningEnabled` and `PrefillType`, as callers of the engine see them. The Rust `PrefillType::None` is named `NoPrefill` here, so that it does not collide with `Option.None`.
- `Glm45Tokenizer` (`nai-tokenizers/src/lib.rs`): the `SpecialTokens` flag and the flag handling in `tokenize`/`detokenize`. `detokenize` negates the flag.
- `ExtismPlugin` (`nai-tokenizers-extism/src/lib.rs`): how a request is decoded and normalised. This covers role strings mapped to messages, the tagged prefill object, and the defaults for missing fields. It also covers the arguments handed to the renderer and the flag handling of the two tokenizer calls.
- `GoHost` (`nai-tokenizers-extism-host-go/tokenizer/tokenizer.go`): the Go request records, their msgpack encoding (with `omitempty` on the prefill) and the four prefill constructors. It also holds the cross-language lemmas: a request built in Go is rendered by the plugin with the prefill the Go caller asked for.
- `WebBinding` (`nai-tokenizers-web/src/lib.rs`): the per-token span loop. Byte lengths are UTF-8 lengths, matching `String::len`. Spans are offsets into the concatenation of the per-token decoded texts, not into the input string.

`encode` receives the keep-special-tokens flag as its add-special-tokens argument (nai-tokenizers/src/lib.rs:49), so the flag affects encoding as well as decoding.

## Model

| member | source | states |
|---|---|---|
| Glm45Tokenizer.ToBool | nai-tokenizers/src/lib.rs:38-45 | `Keep` converts to true and `Ignore` to false |
| Glm45Tokenizer.FromFlag | nai-tokenizers-extism/src/lib.rs:92-96 | a true request flag selects `Keep`, a false one `Ignore` |
| Glm45Tokenizer.FlagConversionsInverse | nai-tokenizers/src/lib.rs:32-45 | the request-flag mapping and the bool conversion are mutually inverse |
| Glm45Tokenizer.Tokenize | nai-tokenizers/src/lib.rs:47-52 | `Keep` calls the encoder with add-special-tokens true, `Ignore` with false; the encoder's ids or error come back unchanged |
| Glm45Tokenizer.Detokenize | nai-tokenizers/src/lib.rs:54-60 | the decoder's skip argument is the negated flag: `Keep` does not skip, `Ignore` skips; text or error come back unchanged |
| Glm45Tokenizer.KeepRoundTrip | nai-tokenizers/src/lib.rs:47-60 | if the library round-trips a string (add special tokens, then do not skip them), then tokenize-then-detokenize with `Keep` returns that string |
| Glm45Tokenizer.ExampleVector | nai-tokenizers/src/lib.rs:67-87 | for a vocabulary that gives the test vector (add special tokens on encode, keep them on decode), both the `tokenize` and the `detokenize` test pass through the wrappers |
| ExtismPlugin.ToMessage | nai-tokenizers-extism/src/lib.rs:23-41 | content is always kept; "system" or "developer" gives a system turn, "assistant" an assistant turn, and any other string a user turn; reasoning is kept exactly for the assistant role |
| ExtismPlugin.ToMessageFromMessage | nai-tokenizers-extism/src/lib.rs:25-38 | every internal message is the normalisation of some external message, so the role mapping is onto |
| ExtismPlugin.ToMessageEquivalence | nai-tokenizers-extism/src/lib.rs:25-38 | for equal content, two external messages normalise alike if and only if their roles fall in the same class and assistant reasoning agrees; non-assistant reasoning is dropped |
| ExtismPlugin.ToMessages | nai-tokenizers-extism/src/lib.rs:138 | the message list keeps its length, and its i-th message is the normalisation of the i-th input message |
| ExtismPlugin.Tag | nai-tokenizers-extism/src/lib.rs:43-53 | each variant's `type` tag is its snake_case name, and each of the four names belongs to exactly one variant, so the tags are distinct |
| ExtismPlugin.ToPrefill | nai-tokenizers-extism/src/lib.rs:55-72 | every variant maps to the same-named template variant and keeps its fields |
| ExtismPlugin.PrefillConversionBijective | nai-tokenizers-extism/src/lib.rs:55-72 | the prefill conversion is one-to-one and onto, with an explicit inverse |
| ExtismPlugin.DecodePrefill | nai-tokenizers-extism/src/lib.rs:43-53 | a prefill object decodes if and only if its `type` is one of the four snake_case names and that variant's fields are present; the decoded variant has that tag and the sent strings; any other tag is refused as `UnknownVariant` carrying that tag; a partial or full reasoning object without `reasoning_content` is refused as that missing field, and a full one with reasoning but no `content` as missing `content` |
| ExtismPlugin.DecodeChatTemplateInput | nai-tokenizers-extism/src/lib.rs:74-83 | a missing `reasoning_enabled` or `ignore_message_position` is false and a missing prefill is absent; `messages` has no default, so a nil list or a missing one is refused; decoding succeeds if and only if a list is present and any present prefill decodes |
| ExtismPlugin.RenderArgumentsOf | nai-tokenizers-extism/src/lib.rs:132-147 | reasoning is `Yes` if and only if requested; messages are normalised element by element; a missing prefill becomes `Canonical`, a present one its converted variant; the position override is forwarded |
| ExtismPlugin.ChatTemplate | nai-tokenizers-extism/src/lib.rs:123-149 | the output is the renderer's output on `Yes`/`No` as requested, the element-wise normalised messages, the converted prefill (`Canonical` when none was sent) and the forwarded position override |
| ExtismPlugin.ChatTemplateCall | nai-tokenizers-extism/src/lib.rs:123-131 | a request renders if and only if it decodes; an undecodable request never reaches the renderer and the call returns the deserializer's own error |
| ExtismPlugin.Tokenize | nai-tokenizers-extism/src/lib.rs:85-99 | `include_special_tokens` reaches the encoder unchanged as add-special-tokens; ids and errors pass through |
| ExtismPlugin.Detokenize | nai-tokenizers-extism/src/lib.rs:107-121 | `include_special_tokens` reaches the decoder negated, as skip-special-tokens; text and errors pass through |
| GoHost.MarshalMessage | nai-tokenizers-extism-host-go/tokenizer/tokenizer.go:29-34 | a nil reasoning pointer is omitted and read back as no reasoning; the plugin turns the message into the turn its Go `Role` names, with the same content, and keeps reasoning for an assistant |
| GoHost.MarshalMessageList | nai-tokenizers-extism-host-go/tokenizer/tokenizer.go:74 | a non-nil message slice is sent as a list of the same length, element by element and in order |
| GoHost.MarshalPrefill | nai-tokenizers-extism-host-go/tokenizer/tokenizer.go:36-41 | `Type` is sent as the `type` tag and nil pointers are omitted; the plugin decodes the prefill if and only if `Type` is one of the four tags and that variant's strings are set, refuses any other `Type` as unknown carrying that string, and reads an accepted prefill as the variant its `Type` names; a decoded partial or full reasoning prefill carries the Go reasoning string, and a full one also the Go content string |
| GoHost.Marshal | nai-tokenizers-extism-host-go/tokenizer/tokenizer.go:72-78 | the messages key and both booleans are always sent, a nil message slice as nil; a non-nil slice is sent element by element and in order, each message as `MarshalMessage` encodes it; the prefill key is absent exactly when the Go prefill is nil, and otherwise holds that prefill as `MarshalPrefill` encodes it |
| GoHost.PrefillNone | nai-tokenizers-extism-host-go/tokenizer/tokenizer.go:45-48 | no optional field is set, and the plugin decodes it as the no-prefill variant |
| GoHost.PrefillCanonical | nai-tokenizers-extism-host-go/tokenizer/tokenizer.go:50-53 | no optional field is set, and the plugin decodes it as `Canonical` |
| GoHost.PrefillPartialReasoning | nai-tokenizers-extism-host-go/tokenizer/tokenizer.go:55-61 | only the reasoning is set, and the plugin decodes it as partial reasoning with that text |
| GoHost.PrefillFullReasoning | nai-tokenizers-extism-host-go/tokenizer/tokenizer.go:63-70 | reasoning and content are set in argument order, and the plugin decodes them into the same fields |
| GoHost.PrefillRoundTrip | nai-tokenizers-extism-host-go/tokenizer/tokenizer.go:43-70 | every template prefill, built by its Go constructor, sent and decoded, comes back as itself; the Go `Type` string is the plugin's tag for that variant |
| GoHost.UnknownTypeRefused | nai-tokenizers-extism/src/lib.rs:43-53 | a Go prefill whose `Type` is not one of the four names is refused as an unknown variant |
| GoHost.NilPrefillRendersCanonical | nai-tokenizers-extism-host-go/tokenizer/tokenizer.go:72-78 | a Go request with a nil prefill is rendered with `Canonical`, with messages normalised in order and the booleans as sent; with a nil message slice it is refused instead |
| GoHost.ConstructedPrefillRendersSameVariant | nai-tokenizers-extism-host-go/tokenizer/tokenizer.go:43-78 | a Go request whose prefill came from a constructor is rendered with the same-named template prefill and the same strings; with a nil message slice it is refused instead |
| WebBinding.Utf8Len | nai-tokenizers-web/src/lib.rs:54 | the byte length of a text is between one and four bytes per character, and equals the character count exactly when every character is ASCII |
| WebBinding.Utf8LenAppend | nai-tokenizers-web/src/lib.rs:56-63 | byte lengths add up over concatenation, which is what lets the running offset equal the length of all texts so far |
| WebBinding.AppendContiguous | nai-tokenizers-web/src/lib.rs:53-62 | pushing a span that starts at the running position and is as long as its text in bytes keeps the spans contiguous and moves the running position to the new span's end |
| WebBinding.ContiguousEnd | nai-tokenizers-web/src/lib.rs:46-64 | contiguous spans starting at 0 end at the byte length of all token texts together |
| WebBinding.ContiguousSpansAreOffsets | nai-tokenizers-web/src/lib.rs:46-64 | contiguous spans starting at 0 are byte offsets into the concatenated token texts: token i starts at the byte length of the texts before it, and the last end is the total byte length |
| WebBinding.Tokenize | nai-tokenizers-web/src/lib.rs:28-73 | one `SpecialTokens` value is used for the encode and for every per-token decode; on success `ids` is the encoder's output and `tokens[i]` carries `ids[i]` and its decoded text; spans are contiguous from 0, each exactly its text's UTF-8 length, and end at the total length; it fails if and only if the encode or some per-token decode fails, returning the first failure's message with its prefix and no partial result |
| WebBinding.Detokenize | nai-tokenizers-web/src/lib.rs:75-88 | keep maps to "do not skip" at the decoder; the decoder's text is returned unchanged and its error with the "Detokenization error: " prefix |

## Left out

- The chat-template engine is not part of this model. This covers `ContextState`, sentinels, the reasoning and position rules, and prefill rendering. It is a separate component (`nai_tokenizers::glm45_template`), and every property here holds for any renderer. It appears only as the `Renderer` parameter.
- Tokenizer internals are not modelled: BPE encoding and decoding, the vocabulary, Brotli decompression of the embedded asset, and the one-time lazy load. They belong to a foreign library. A failed load panics in the source, which has no counterpart here: the backend is simply given.
- Go plugin plumbing is not modelled: `New`, `NewPooled`, `Close`, `pool.go`, and the `Tokenize`, `Detokenize` and `ChatTemplate` methods that marshal a request and call the plugin. They are I/O and concurrency. The cross-language lemmas compose `GoHost.Marshal` with the plugin's decoding instead. The Go side wraps plugin errors in its own message; that wrapping is not modelled.
- Go's JSON tags are not modelled, because the plugin is only called with msgpack.
- The build script, the `nai-tok` CLI, the browser worker, the Python fixture generator, `get_tokenizer_info` and logging are not modelled: they are I/O, packaging or diagnostics.
- ExtismPlugin.DecodePrefill: assumes the `type` key is present and is a string, as every Go-built request guarantees. A map without it, or with values of the wrong msgpack type, is not modelled. serde's error text is replaced by the typed `DecodeError`.
- ExtismPlugin.DecodeChatTemplateInput: models a missing or nil `messages` key, but not a `messages` value of another msgpack type, nor messages whose `role` or `content` keys are missing or mistyped. Those fail in serde before normalisation.
- GoHost.Marshal: Go strings are byte strings and may hold invalid UTF-8, which the plugin's msgpack decoder refuses for a Rust `String`. The model's strings are Unicode text, so this refusal is not modelled and every cross-language lemma covers valid text only.
- ExtismPlugin.Tokenize: starts from the decoded `TokenizeInput`. Both `text` and `include_special_tokens` are required keys (nai-tokenizers-extism/src/lib.rs:8-12), and serde's refusal of a request missing either is not modelled.
- ExtismPlugin.Detokenize: starts from the decoded `DetokenizeInput`. Both `tokens` and `include_special_tokens` are required keys (nai-tokenizers-extism/src/lib.rs:101-105), and serde's refusal of a request missing either is not modelled.
- WebBinding.Tokenize: does not model the serialization error at nai-tokenizers-web/src/lib.rs:71-72. Converting these plain records to a JS value does not fail in practice. The result is modelled as the `TokenizeResult` value itself.
- WebBinding.Tokenize: offsets are unbounded naturals. They do not model `usize` overflow, which would need more bytes of decoded text than the address space holds.
