/** The WebAssembly binding (nai-tokenizers-web): `tokenize` returns, beside
    the ids, each token's individually decoded text and its byte span; spans
    are offsets into the concatenation of those per-token texts. */
module WebBinding {
  import opened Wrappers
  import Tok = Glm45Tokenizer

  // ---------------------------------------------------------------------
  // UTF-8 length
  // ---------------------------------------------------------------------

  /** `char::len_utf8`: bytes UTF-8 needs for one Unicode scalar value. */
  function CharLen(c: char): (n: nat)
    ensures 1 <= n <= 4
  {
    if c as int < 0x80 then 1
    else if c as int < 0x800 then 2
    else if c as int < 0x1_0000 then 3
    else 4
  }

  /** `String::len`: the UTF-8 byte length of a string. */
  function Utf8Len(s: string): (n: nat)
    ensures |s| <= n <= 4 * |s|
    ensures (forall i :: 0 <= i < |s| ==> s[i] as int < 0x80) ==> n == |s|
    ensures (exists i :: 0 <= i < |s| && s[i] as int >= 0x80) ==> n > |s|
  {
    if s == [] then 0 else Utf8Len(s[..|s| - 1]) + CharLen(s[|s| - 1])
  }

  /** Byte length is additive over concatenation. */
  lemma {:induction false} Utf8LenAppend(a: string, b: string)
    ensures Utf8Len(a + b) == Utf8Len(a) + Utf8Len(b)
    decreases |b|
  {
    if b == [] {
      assert a + b == a;
    } else {
      var b' := b[..|b| - 1];
      assert (a + b)[..|a + b| - 1] == a + b';
      Utf8LenAppend(a, b');
    }
  }

  // ---------------------------------------------------------------------
  // Results
  // ---------------------------------------------------------------------

  /** `TokenInfo`: one token, its decoded text, and its byte span. */
  datatype TokenInfo = TokenInfo(id: Tok.u32, text: string, start: nat, end: nat)

  /** `TokenizeResult`. */
  datatype TokenizeResult = TokenizeResult(tokens: seq<TokenInfo>, ids: seq<Tok.u32>)

  /** The concatenation of the tokens' texts, in order. */
  function Texts(ts: seq<TokenInfo>): string
  {
    if ts == [] then [] else Texts(ts[..|ts| - 1]) + ts[|ts| - 1].text
  }

  /** Each span is exactly as long as its text in bytes, the first starts at
      0, and each later one starts where the previous one ends. */
  ghost predicate Contiguous(ts: seq<TokenInfo>)
  {
    && (|ts| > 0 ==> ts[0].start == 0)
    && (forall i :: 0 <= i < |ts| ==> ts[i].end == ts[i].start + Utf8Len(ts[i].text))
    && (forall i :: 0 <= i < |ts| - 1 ==> ts[i + 1].start == ts[i].end)
  }

  /** Where the next span starts: 0 for none, else the last span's end. */
  function EndOf(ts: seq<TokenInfo>): nat
  {
    if ts == [] then 0 else ts[|ts| - 1].end
  }

  /** Contiguous spans end together at the byte length of all texts. */
  lemma {:induction false} ContiguousEnd(ts: seq<TokenInfo>)
    requires Contiguous(ts)
    ensures EndOf(ts) == Utf8Len(Texts(ts))
    decreases |ts|
  {
    if ts != [] {
      var init := ts[..|ts| - 1];
      assert Contiguous(init);
      ContiguousEnd(init);
      Utf8LenAppend(Texts(init), ts[|ts| - 1].text);
      if |init| > 0 {
        assert ts[|ts| - 1].start == ts[|ts| - 2].end;
      }
    }
  }

  /** Contiguous spans are offsets into the concatenated texts: token `i`
      starts at the byte length of the texts before it, and the spans end
      together at the byte length of all texts. */
  lemma {:induction false} ContiguousSpansAreOffsets(ts: seq<TokenInfo>)
    requires Contiguous(ts)
    ensures forall i :: 0 <= i < |ts| ==> ts[i].start == Utf8Len(Texts(ts[..i]))
    ensures EndOf(ts) == Utf8Len(Texts(ts))
  {
    ContiguousEnd(ts);
    forall i | 0 <= i < |ts|
      ensures ts[i].start == Utf8Len(Texts(ts[..i]))
    {
      assert Contiguous(ts[..i]);
      ContiguousEnd(ts[..i]);
      if i > 0 {
        assert ts[i].start == ts[i - 1].end;
      }
    }
  }

  /** Appending a span that starts where the last one ends and is as long as
      its text in bytes keeps the spans contiguous. */
  lemma AppendContiguous(ts: seq<TokenInfo>, t: TokenInfo)
    requires Contiguous(ts)
    requires t.start == EndOf(ts) && t.end == t.start + Utf8Len(t.text)
    ensures Contiguous(ts + [t]) && EndOf(ts + [t]) == t.end
  {
    var us := ts + [t];
    forall i | 0 <= i < |us|
      ensures us[i].end == us[i].start + Utf8Len(us[i].text)
    {
      if i < |ts| { assert us[i] == ts[i]; }
    }
    forall i | 0 <= i < |us| - 1
      ensures us[i + 1].start == us[i].end
    {
      if i + 1 < |ts| { assert us[i + 1] == ts[i + 1]; }
    }
  }

  // ---------------------------------------------------------------------
  // Operations
  // ---------------------------------------------------------------------

  /** Decoding one id alone, as `tokenize` does for each token. */
  function DecodeOne(b: Tok.Backend, special: Tok.SpecialTokens, id: Tok.u32): Result<string, string>
  {
    Tok.Detokenize(b, [id], special)
  }

  /** `tokenize(input, keep_special_tokens)`. The same `SpecialTokens` value
      is used to encode and to decode every token. An encoding failure or
      the first failing per-token decode aborts the call with a prefixed
      message and no partial result. */
  method Tokenize(b: Tok.Backend, input: string, keepSpecialTokens: bool)
    returns (r: Result<TokenizeResult, string>)
    ensures var special := Tok.FromFlag(keepSpecialTokens);
      var enc := Tok.Tokenize(b, input, special);
      && (enc.Failure? ==> r == Failure("Tokenization error: " + enc.error))
      && (enc.Success? ==>
            (r.Success? <==> forall i :: 0 <= i < |enc.value| ==> DecodeOne(b, special, enc.value[i]).Success?))
      && (enc.Success? && r.Failure? ==>
            exists k :: 0 <= k < |enc.value|
              && DecodeOne(b, special, enc.value[k]).Failure?
              && (forall j :: 0 <= j < k ==> DecodeOne(b, special, enc.value[j]).Success?)
              && r.error == "Detokenization error: " + DecodeOne(b, special, enc.value[k]).error)
    ensures r.Success? ==> Tok.Tokenize(b, input, Tok.FromFlag(keepSpecialTokens)) == Success(r.value.ids)
    ensures r.Success? ==> |r.value.tokens| == |r.value.ids|
    ensures r.Success? ==> forall i :: 0 <= i < |r.value.ids| ==>
      && r.value.tokens[i].id == r.value.ids[i]
      && DecodeOne(b, Tok.FromFlag(keepSpecialTokens), r.value.ids[i]) == Success(r.value.tokens[i].text)
    ensures r.Success? ==> Contiguous(r.value.tokens)
    ensures r.Success? ==> EndOf(r.value.tokens) == Utf8Len(Texts(r.value.tokens))
  {
    var special := Tok.FromFlag(keepSpecialTokens);
    var enc := Tok.Tokenize(b, input, special);
    if enc.Failure? {
      return Failure("Tokenization error: " + enc.error);
    }
    var ids := enc.value;
    var tokens: seq<TokenInfo> := [];
    var currentPos: nat := 0;
    var i := 0;
    while i < |ids|
      invariant 0 <= i <= |ids|
      invariant |tokens| == i
      invariant forall j :: 0 <= j < i ==>
        tokens[j].id == ids[j] && DecodeOne(b, special, ids[j]) == Success(tokens[j].text)
      invariant Contiguous(tokens)
      invariant currentPos == EndOf(tokens)
    {
      var decoded := Tok.Detokenize(b, [ids[i]], special);
      if decoded.Failure? {
        return Failure("Detokenization error: " + decoded.error);
      }
      var text := decoded.value;
      var tokenLen := Utf8Len(text);
      AppendContiguous(tokens, TokenInfo(ids[i], text, currentPos, currentPos + tokenLen));
      tokens := tokens + [TokenInfo(ids[i], text, currentPos, currentPos + tokenLen)];
      currentPos := currentPos + tokenLen;
      i := i + 1;
    }
    ContiguousSpansAreOffsets(tokens);
    r := Success(TokenizeResult(tokens, ids));
  }

  /** `detokenize(ids, keep_special_tokens)`: the flag reaches the decoder
      negated (keep means do not skip); the text is returned unchanged and an
      error with the adapter's prefix. */
  function Detokenize(b: Tok.Backend, ids: seq<Tok.u32>, keepSpecialTokens: bool): (r: Result<string, string>)
    ensures b.decode(ids, !keepSpecialTokens).Success? ==>
      r == Success(b.decode(ids, !keepSpecialTokens).value)
    ensures b.decode(ids, !keepSpecialTokens).Failure? ==>
      r == Failure("Detokenization error: " + b.decode(ids, !keepSpecialTokens).error)
  {
    match Tok.Detokenize(b, ids, Tok.FromFlag(keepSpecialTokens))
    case Success(text) => Success(text)
    case Failure(e) => Failure("Detokenization error: " + e)
  }
}
