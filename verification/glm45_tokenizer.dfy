/** The `glm45_tokenizer` module of nai-tokenizers: a thin layer over a
    foreign BPE tokenizer that converts the `SpecialTokens` choice into the
    boolean arguments the tokenizer's `encode` and `decode` expect.

    The tokenizer itself (vocabulary, merges, the Brotli-compressed asset and
    its one-time lazy load) is a `Backend` value: a pair of total functions
    that either produce a result or fail with an error message. */
module Glm45Tokenizer {
  import opened Wrappers

  /** Rust's `u32`, the token id type. */
  newtype u32 = x: int | 0 <= x < 0x1_0000_0000

  /** The loaded tokenizer. `encode(text, addSpecialTokens)` and
      `decode(ids, skipSpecialTokens)` follow the foreign library's argument
      meaning; an `Err` carries the library error's message. */
  datatype Backend = Backend(
    encode: (string, bool) -> Result<seq<u32>, string>,
    decode: (seq<u32>, bool) -> Result<string, string>)

  /** Whether special (control) tokens are kept. */
  datatype SpecialTokens = Ignore | Keep

  /** `From<SpecialTokens> for bool`. */
  function ToBool(s: SpecialTokens): (b: bool)
    ensures b <==> s == Keep
    ensures !b <==> s == Ignore
  {
    match s
    case Ignore => false
    case Keep => true
  }

  /** The `if keep { Keep } else { Ignore }` every binding applies to its
      boolean request flag before calling into this module. */
  function FromFlag(keep: bool): (s: SpecialTokens)
    ensures s == Keep <==> keep
  {
    if keep then Keep else Ignore
  }

  /** The two conversions are mutually inverse, so no flag value is lost. */
  lemma FlagConversionsInverse(keep: bool, s: SpecialTokens)
    ensures ToBool(FromFlag(keep)) == keep
    ensures FromFlag(ToBool(s)) == s
  {
  }

  /** `tokenize`: the flag goes to `encode` unchanged (`Keep` adds special
      tokens); the encoder's ids or its error are returned as they are. */
  function Tokenize(b: Backend, input: string, special: SpecialTokens): (r: Result<seq<u32>, string>)
    ensures special == Keep ==> r == b.encode(input, true)
    ensures special == Ignore ==> r == b.encode(input, false)
  {
    b.encode(input, ToBool(special))
  }

  /** `detokenize`: the flag goes to `decode` NEGATED, as its
      skip-special-tokens argument (`Keep` means do not skip). */
  function Detokenize(b: Backend, ids: seq<u32>, special: SpecialTokens): (r: Result<string, string>)
    ensures special == Keep ==> r == b.decode(ids, false)
    ensures special == Ignore ==> r == b.decode(ids, true)
  {
    b.decode(ids, !ToBool(special))
  }

  /** The library's own round trip (encode adding special tokens, decode not
      skipping them) lifts to `Keep` on both sides: the negation in
      `Detokenize` is exactly what makes `Keep` mean the same thing twice. */
  lemma KeepRoundTrip(b: Backend, s: string, ids: seq<u32>)
    requires b.encode(s, true) == Success(ids)
    requires b.decode(ids, false) == Success(s)
    ensures Tokenize(b, s, Keep) == Success(ids)
    ensures Detokenize(b, Tokenize(b, s, Keep).value, Keep) == Success(s)
  {
  }

  /** The test input: ordinary text interleaved with the four sentinels. */
  const ExampleText: string :=
    "[gMASK]this is a test where da goose is cooked<|system|>no<|user|>yes<|assistant|>maybe"

  /** The ids the tests expect for `ExampleText` with `Keep`. */
  const ExampleIds: seq<u32> :=
    [151331, 574, 374, 264, 1273, 1380, 2994, 61701, 374, 28998, 151335, 2152, 151336,
     9689, 151337, 36569]

  /** A vocabulary that reproduces the library-level test vector makes both
      `tokenize` and `detokenize` tests pass: `KeepRoundTrip` instantiated at
      the test's text and ids. */
  lemma ExampleVector(b: Backend)
    requires b.encode(ExampleText, true) == Success(ExampleIds)
    requires b.decode(ExampleIds, false) == Success(ExampleText)
    ensures Tokenize(b, ExampleText, Keep) == Success(ExampleIds)
    ensures Detokenize(b, ExampleIds, Keep) == Success(ExampleText)
  {
    KeepRoundTrip(b, ExampleText, ExampleIds);
  }
}
