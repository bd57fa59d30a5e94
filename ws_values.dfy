/** Small helpers of the ingestion server (bot/cmd/whserver/main.go): typed
    reads from decoded JSON maps, history capping, log previews, the trimming
    path sanitiser, the typing-event heuristic and the capped reply wait. */
module WsValues {
  import opened Text
  import EngineSink

  const Millisecond: int := 1_000_000

  type Uint64 = x: int | 0 <= x <= 0xFFFF_FFFF_FFFF_FFFF
  type Int64 = x: int | -0x8000_0000_0000_0000 <= x <= 0x7FFF_FFFF_FFFF_FFFF

  /** A dynamically typed value of a `map[string]any`: JSON decoding yields
      null, booleans, float64 numbers and strings; Go code may also store
      `int`/`int64` (both `Int`) or `uint64`. */
  datatype Value =
    | Null
    | Bool(b: bool)
    | Float(x: real)
    | Int(i: Int64)
    | Uint(u: Uint64)
    | Str(s: String)
    | Other

  /** `strFromMap`: the string under `key`, or `""` when it is missing or
      not a string. A nil map behaves like an empty one. */
  function StrFromMap(m: map<String, Value>, key: String): (r: String)
    ensures key in m && m[key].Str? ==> r == m[key].s
    ensures !(key in m && m[key].Str?) ==> r == ""
  {
    if key in m && m[key].Str? then m[key].s else ""
  }

  const TwoTo63: int := 0x8000_0000_0000_0000
  const TwoTo64: int := 0x1_0000_0000_0000_0000
  const TwoTo32: int := 0x1_0000_0000

  /** `uint64(x)` for a non-negative float64: truncation; out of range the
      conversion yields 2^63 (the amd64 behaviour). */
  function FloatToUint64(x: real): (r: Uint64)
    requires x >= 0.0
  {
    if x < TwoTo64 as real then x.Floor else TwoTo63
  }

  /** `u64FromMap`: numbers are converted with negatives read as 0, a string
      must hold (after trimming) a decimal uint64, anything else reads 0. */
  function U64FromMap(m: map<String, Value>, key: String): (r: Uint64)
    ensures key !in m ==> r == 0
    ensures key in m && (m[key].Null? || m[key].Bool? || m[key].Other?) ==> r == 0
    ensures key in m && m[key].Str? ==>
      r == (match ParseUint64(TrimSpace(m[key].s)) case Some(n) => n case None => 0)
    ensures key in m && (m[key].Int? || m[key].Float?) && r > 0 ==>
      (m[key].Int? && r == m[key].i) || (m[key].Float? && m[key].x >= 1.0)
  {
    if key !in m then 0
    else match m[key]
      case Float(x) => if x < 0.0 then 0 else FloatToUint64(x)
      case Int(i) => if i < 0 then 0 else i
      case Uint(u) => u
      case Str(s) =>
        var t := TrimSpace(s);
        if t != "" then match ParseUint64(t) case Some(n) => n case None => 0
        else 0
      case _ => 0
  }

  /** A number written by any of the encodings reads back as itself. */
  lemma U64ReadsBack(key: String, n: nat)
    requires n <= Uint64Max
    ensures U64FromMap(map[key := Uint(n)], key) == n
    ensures n <= Int64Max ==> U64FromMap(map[key := Int(n)], key) == n
    ensures U64FromMap(map[key := Float(n as real)], key) == n
    ensures U64FromMap(map[key := Str(NatToString(n))], key) == n
  {
    DecimalReadsBack(key, n);
  }

  lemma DecimalReadsBack(key: String, n: nat)
    requires n <= Uint64Max
    ensures U64FromMap(map[key := Str(NatToString(n))], key) == n
  {
    var s := NatToString(n);
    DigitNotSpace(s[0]);
    DigitNotSpace(s[|s| - 1]);
    TrimSpaceOfTrimmed(s);
    var m := map[key := Str(s)];
    assert m[key].Str? && m[key].s == s;
    assert ParseUint64(s) == Some(n);
  }

  lemma DigitNotSpace(c: char)
    requires IsDigit(c)
    ensures !IsSpace(c)
  {
  }

  /** `u32FromMap`: the uint64 reading truncated to 32 bits. */
  function U32FromMap(m: map<String, Value>, key: String): (r: nat)
    ensures r < TwoTo32
    ensures U64FromMap(m, key) < TwoTo32 ==> r == U64FromMap(m, key)
    ensures (r - U64FromMap(m, key)) % TwoTo32 == 0
  {
    U64FromMap(m, key) % TwoTo32
  }

  /** `keepLastN`: the last `n` elements; everything when `n <= 0` or the
      slice is short enough. */
  function KeepLastN<T>(s: seq<T>, n: int): (r: seq<T>)
    ensures n <= 0 ==> r == s
    ensures n > 0 ==> |r| == if |s| < n then |s| else n
    ensures exists k :: 0 <= k <= |s| && r == s[k..]
  {
    if n <= 0 || |s| <= n then assert s[0..] == s; s else s[|s| - n..]
  }

  /** `previewText`: trimmed, and cut to `max` runes plus an ellipsis when
      longer. */
  function PreviewText(s: String, max: int): (r: String)
    ensures max <= 0 || |TrimSpace(s)| <= max ==> r == TrimSpace(s)
    ensures max > 0 && |TrimSpace(s)| > max ==> |r| == max + 1 && r == TrimSpace(s)[..max] + "…"
  {
    var t := TrimSpace(s);
    if max <= 0 then t
    else if |t| <= max then t
    else t[..max] + "…"
  }

  /** A preview is never more than one rune over the limit, and it begins
      with the trimmed text. */
  lemma PreviewBounded(s: String, max: int)
    requires max > 0
    ensures |PreviewText(s, max)| <= max + 1
    ensures var r := PreviewText(s, max);
      var n := if |r| <= max then |r| else max;
      n <= |TrimSpace(s)| && r[..n] == TrimSpace(s)[..n]
  {
  }

  /** The server's `sanitizePathPart` trims before mapping runes. */
  function SanitizePathPart(s: String): (r: String)
    ensures r != [] && EngineSink.AllSafe(r)
    ensures TrimSpace(s) == "" ==> r == "unknown"
  {
    EngineSink.SanitizePathPart(TrimSpace(s))
  }

  /** Surrounding white space never changes the file: the server's sanitiser
      is the bridge's applied to the trimmed text, and the two coincide on
      trimmed input. */
  lemma SanitizeIgnoresPadding(s: String)
    ensures SanitizePathPart(s) == SanitizePathPart(TrimSpace(s))
    ensures TrimSpace(s) == s ==> SanitizePathPart(s) == EngineSink.SanitizePathPart(s)
  {
    TrimSpaceIdempotent(s);
  }

  // ----- Typing heuristic -----

  /** A presence state that means "user is typing". */
  predicate TypingState(s: String) {
    var l := ToLower(TrimSpace(s));
    l == "composing" || l == "typing" || l == "recording"
  }

  /** The `typing` flag: boolean true, or a string `true` (any case) or `1`. */
  predicate TypingFlag(v: Value) {
    v == Bool(true) || (v.Str? && (EqualFold(v.s, "true") || v.s == "1"))
  }

  predicate HasStringState(extra: map<String, Value>) {
    "state" in extra && extra["state"].Str?
  }

  /** `isTypingEvent`. */
  function IsTypingEvent(eventType: String, receiptType: String, extra: map<String, Value>): (r: bool)
    // a presence event with a string state is decided by that state alone
    ensures ToLower(TrimSpace(eventType)) in {"chat_presence", "typing", "presence"} && HasStringState(extra) ==>
      (r <==> TypingState(extra["state"].s))
    // otherwise: the typing flag of a typing/presence event, or the receipt type
    ensures !(ToLower(TrimSpace(eventType)) in {"chat_presence", "typing", "presence"} && HasStringState(extra)) ==>
      (r <==> (ToLower(TrimSpace(eventType)) in {"typing", "presence"} && "typing" in extra && TypingFlag(extra["typing"])) ||
              ToLower(TrimSpace(receiptType)) in {"composing", "typing"})
  {
    var et := ToLower(TrimSpace(eventType));
    if et == "chat_presence" && HasStringState(extra) then TypingState(extra["state"].s)
    else if (et == "typing" || et == "presence") && HasStringState(extra) then TypingState(extra["state"].s)
    else if (et == "typing" || et == "presence") && "typing" in extra && TypingFlag(extra["typing"]) then true
    else
      var rt := ToLower(TrimSpace(receiptType));
      rt == "composing" || rt == "typing"
  }

  /** The typing delay of `replyWithTyping`: base wait plus a per-rune
      delay plus jitter, capped at `maxWait`. The jitter is drawn below
      `jitterMs` milliseconds and is an input here. */
  function ReplyWait(baseWait: int, msg: String, perCharMs: int, jitterMs: int, jitter: int, maxWait: int): (w: int)
    requires ValidJitter(jitterMs, jitter)
    ensures w <= maxWait
    ensures w == maxWait || w == baseWait + |msg| * perCharMs * Millisecond + jitter
    ensures baseWait + |msg| * perCharMs * Millisecond + jitter <= maxWait ==>
      w == baseWait + |msg| * perCharMs * Millisecond + jitter
  {
    var wait := baseWait + |msg| * (perCharMs * Millisecond) + jitter;
    if wait > maxWait then maxWait else wait
  }

  /** The jitter drawn for a configuration: none unless `jitterMs > 0`. */
  predicate ValidJitter(jitterMs: int, jitter: int) {
    if jitterMs > 0 then 0 <= jitter < jitterMs * Millisecond && jitter % Millisecond == 0 else jitter == 0
  }
}
