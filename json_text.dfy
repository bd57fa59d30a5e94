/** The step the two LLM-backed agents of the chat API share before decoding
    a model answer (backend/internal/agents/scoring_agent.go and
    backend/internal/agents/orchestrator.go): cut the answer from its first
    `{` to its last `}` and hand that span to `json.Unmarshal`, which is
    modelled as a function parameter returning a `Decoded` value. */
module JsonText {
  import opened Text

  /** The outcome of `json.Unmarshal`: the error text, or the decoded value. */
  datatype Decoded<T> = DecodeError(error: String) | Decoded(value: T)

  /** What `text[start : end+1]` does with `start = strings.Index(text, "{")`
      and `end = strings.LastIndex(text, "}")`, once both were found. */
  datatype Span = Missing | Sliced(json: String) | OutOfRange

  /** The brace span as written: `OutOfRange` is the slice expression whose
      low bound exceeds its high bound, on which Go panics. */
  function BraceSpan(text: String): (r: Span)
    ensures r.Missing? <==> '{' !in text || '}' !in text
    ensures r.OutOfRange? <==> '{' in text && '}' in text && IndexChar(text, '{') > LastIndexChar(text, '}') + 1
    ensures r.Sliced? ==> r.json == text[IndexChar(text, '{')..LastIndexChar(text, '}') + 1]
  {
    var start := IndexChar(text, '{');
    var end := LastIndexChar(text, '}');
    if start == -1 || end == -1 then Missing
    else if start <= end + 1 then Sliced(text[start..end + 1])
    else OutOfRange
  }

  /** An answer whose only `}` comes before its only `{` makes the slice
      panic. */
  lemma InvertedBracesPanic()
    ensures BraceSpan("} {") == OutOfRange
  {
    assert IndexChar("} {", '{') == 2 by {
      assert "} {"[2] == '{' && '{' !in "} {"[..2];
    }
    assert LastIndexChar("} {", '}') == 0 by {
      assert "} {"[0] == '}' && '}' !in "} {"[1..];
    }
  }

  /** The span with the panic turned into "no JSON object found": `None`
      exactly when the answer lacks a brace or its last `}` comes more than one
      rune before its first `{`. */
  function JsonSpan(text: String): (r: Option<String>)
    ensures r.None? <==> BraceSpan(text).Missing? || BraceSpan(text).OutOfRange?
    ensures r.Some? ==> r.value == text[IndexChar(text, '{')..LastIndexChar(text, '}') + 1]
    ensures r.Some? && |r.value| > 0 ==> r.value[0] == '{' && r.value[|r.value| - 1] == '}'
  {
    var start := IndexChar(text, '{');
    var end := LastIndexChar(text, '}');
    if start == -1 || end == -1 || start > end + 1 then None else Some(text[start..end + 1])
  }

  /** Wherever the slice as written does not panic, the corrected span is the
      same text. */
  lemma JsonSpanAgrees(text: String)
    requires !BraceSpan(text).OutOfRange?
    ensures BraceSpan(text).Missing? ==> JsonSpan(text) == None
    ensures BraceSpan(text).Sliced? ==> JsonSpan(text) == Some(BraceSpan(text).json)
  {
  }

  /** Nothing outside the span reaches the decoder: an answer wrapped in
      prose without braces decodes like the bare object. */
  lemma {:induction false} SpanIgnoresSurroundingText(prefix: String, obj: String, suffix: String)
    requires '{' !in prefix && '}' !in prefix && '{' !in suffix && '}' !in suffix
    requires |obj| >= 2 && obj[0] == '{' && obj[|obj| - 1] == '}'
    ensures JsonSpan(prefix + obj + suffix) == Some(obj)
  {
    var text := prefix + obj + suffix;
    var start := IndexChar(text, '{');
    var end := LastIndexChar(text, '}');
    assert text[|prefix|] == '{';
    assert text[..|prefix|] == prefix;
    assert start == |prefix|;
    assert text[|prefix| + |obj| - 1] == '}';
    assert text[|prefix| + |obj|..] == suffix;
    assert end == |prefix| + |obj| - 1;
    assert text[start..end + 1] == obj;
  }
}
