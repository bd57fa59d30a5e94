/** Shared value types and the parts of Go's `strings`, `strconv` and `fmt`
    packages that the modelled code relies on. A Go string is modelled as the
    sequence of its runes; byte lengths are computed with `Utf8Len` where the
    source compares `len(s)` against a bound. */
module Text {

  datatype Option<T> = None | Some(value: T)

  type String = seq<char>

  /** `unicode.IsSpace`: the Latin-1 white space plus the Unicode White_Space
      code points outside Latin-1. */
  predicate IsSpace(c: char) {
    c == '\t' || c == '\n' || c == '\U{0B}' || c == '\U{0C}' || c == '\r' || c == ' '
    || c == '\U{85}' || c == '\U{A0}' || c == '\U{1680}'
    || ('\U{2000}' <= c <= '\U{200A}')
    || c == '\U{2028}' || c == '\U{2029}' || c == '\U{202F}' || c == '\U{205F}' || c == '\U{3000}'
  }

  function TrimLeft(s: String): String {
    if |s| > 0 && IsSpace(s[0]) then TrimLeft(s[1..]) else s
  }

  function TrimRight(s: String): String {
    if |s| > 0 && IsSpace(s[|s| - 1]) then TrimRight(s[..|s| - 1]) else s
  }

  /** `strings.TrimSpace`. Its properties are stated as lemmas rather than
      postconditions, so that the many callers that only compare a trimmed
      string with `""` do not carry them. */
  function TrimSpace(s: String): String {
    TrimRight(TrimLeft(s))
  }

  /** `TrimLeft` drops a prefix made of white space only. */
  lemma {:induction false} TrimLeftFacts(s: String)
    ensures var r := TrimLeft(s);
      |r| <= |s| && r == s[|s| - |r|..] && (r == [] || !IsSpace(r[0])) &&
      forall i :: 0 <= i < |s| - |r| ==> IsSpace(s[i])
  {
    if |s| > 0 && IsSpace(s[0]) {
      var t := s[1..];
      TrimLeftFacts(t);
      var r := TrimLeft(t);
      assert TrimLeft(s) == r;
      assert t[|t| - |r|..] == s[|s| - |r|..];
      forall i | 0 <= i < |s| - |r|
        ensures IsSpace(s[i])
      {
        if i > 0 {
          assert s[i] == t[i - 1];
        }
      }
    }
  }

  /** `TrimRight` drops a suffix made of white space only. */
  lemma {:induction false} TrimRightFacts(s: String)
    ensures var r := TrimRight(s);
      |r| <= |s| && r == s[..|r|] && (r == [] || !IsSpace(r[|r| - 1])) &&
      forall i :: |r| <= i < |s| ==> IsSpace(s[i])
  {
    if |s| > 0 && IsSpace(s[|s| - 1]) {
      var t := s[..|s| - 1];
      TrimRightFacts(t);
      var r := TrimRight(t);
      assert TrimRight(s) == r;
      assert t[..|r|] == s[..|r|];
      forall i | |r| <= i < |s|
        ensures IsSpace(s[i])
      {
        if i < |s| - 1 {
          assert s[i] == t[i];
        }
      }
    }
  }

  /** A trimmed string is no longer than the original and has no white
      space at either end. */
  lemma TrimSpaceFacts(s: String)
    ensures var r := TrimSpace(s);
      |r| <= |s| && (r == [] || (!IsSpace(r[0]) && !IsSpace(r[|r| - 1])))
  {
    var l := TrimLeft(s);
    TrimLeftFacts(s);
    TrimRightFacts(l);
    var r := TrimRight(l);
    if r != [] {
      assert r[0] == l[0];
    }
  }

  /** A string with no white space at either end is its own trimming. */
  lemma TrimSpaceOfTrimmed(s: String)
    requires s == [] || (!IsSpace(s[0]) && !IsSpace(s[|s| - 1]))
    ensures TrimSpace(s) == s
  {
  }

  lemma TrimSpaceIdempotent(s: String)
    ensures TrimSpace(TrimSpace(s)) == TrimSpace(s)
  {
    TrimSpaceFacts(s);
    TrimSpaceOfTrimmed(TrimSpace(s));
  }

  /** Trimming yields the empty string exactly when every rune is white space. */
  lemma {:induction false} TrimSpaceEmpty(s: String)
    ensures TrimSpace(s) == [] <==> forall i :: 0 <= i < |s| ==> IsSpace(s[i])
  {
    var l := TrimLeft(s);
    TrimLeftFacts(s);
    TrimRightFacts(l);
    if l != [] {
      assert !IsSpace(s[|s| - |l|]);
    }
  }

  predicate HasPrefix(s: String, p: String) {
    |p| <= |s| && s[..|p|] == p
  }

  predicate HasSuffix(s: String, p: String) {
    |p| <= |s| && s[|s| - |p|..] == p
  }

  /** `strings.TrimPrefix` */
  function TrimPrefix(s: String, p: String): (r: String)
    ensures HasPrefix(s, p) ==> s == p + r
    ensures !HasPrefix(s, p) ==> r == s
  {
    if HasPrefix(s, p) then s[|p|..] else s
  }

  /** `strings.TrimSuffix` */
  function TrimSuffix(s: String, p: String): (r: String)
    ensures HasSuffix(s, p) ==> s == r + p
    ensures !HasSuffix(s, p) ==> r == s
  {
    if HasSuffix(s, p) then s[..|s| - |p|] else s
  }

  predicate OccursAt(s: String, sub: String, i: int) {
    0 <= i && i + |sub| <= |s| && s[i..i + |sub|] == sub
  }

  /** `strings.Index`: the first occurrence of `sub`, or -1. */
  function IndexFrom(s: String, sub: String, from: nat): (r: int)
    requires from <= |s|
    ensures r == -1 || (from <= r && OccursAt(s, sub, r))
    ensures r == -1 ==> forall i :: from <= i <= |s| ==> !OccursAt(s, sub, i)
    ensures r != -1 ==> forall i :: from <= i < r ==> !OccursAt(s, sub, i)
    decreases |s| - from
  {
    if OccursAt(s, sub, from) then from
    else if from == |s| then -1
    else IndexFrom(s, sub, from + 1)
  }

  function Index(s: String, sub: String): (r: int)
    ensures r == -1 || OccursAt(s, sub, r)
    ensures r == -1 <==> forall i :: 0 <= i <= |s| ==> !OccursAt(s, sub, i)
    ensures r != -1 ==> forall i :: 0 <= i < r ==> !OccursAt(s, sub, i)
  {
    IndexFrom(s, sub, 0)
  }

  /** `strings.Contains` */
  predicate Contains(s: String, sub: String) {
    Index(s, sub) != -1
  }

  lemma ContainsAt(s: String, sub: String, i: int)
    requires OccursAt(s, sub, i)
    ensures Contains(s, sub)
  {
  }

  /** `strings.IndexByte` / `strings.Index` on a one-rune needle. */
  function IndexChar(s: String, c: char): (r: int)
    ensures -1 <= r < |s|
    ensures r == -1 <==> c !in s
    ensures r != -1 ==> s[r] == c && c !in s[..r]
  {
    if |s| == 0 then -1
    else if s[0] == c then 0
    else var k := IndexChar(s[1..], c); if k == -1 then -1 else k + 1
  }

  /** `strings.LastIndex` on a one-rune needle. */
  function LastIndexChar(s: String, c: char): (r: int)
    ensures -1 <= r < |s|
    ensures r == -1 <==> c !in s
    ensures r != -1 ==> s[r] == c && c !in s[r + 1..]
  {
    if |s| == 0 then -1
    else if s[|s| - 1] == c then |s| - 1
    else LastIndexChar(s[..|s| - 1], c)
  }

  /** `strings.Count` on a one-rune needle. */
  function CountChar(s: String, c: char): (n: nat)
    ensures n <= |s|
    ensures n == 0 <==> c !in s
  {
    if |s| == 0 then 0 else (if s[0] == c then 1 else 0) + CountChar(s[1..], c)
  }

  /** `strings.Split(s, sep)[0]` for a one-rune separator: everything before its
      first occurrence. */
  function UpToFirst(s: String, c: char): (r: String)
    ensures c !in r && HasPrefix(s, r)
    ensures |r| < |s| ==> s[|r|] == c
  {
    var k := IndexChar(s, c);
    if k == -1 then s else s[..k]
  }

  /** `strings.Split(s, sep)[1]` for a one-rune separator present in `s`. */
  function SecondField(s: String, c: char): (r: String)
    requires c in s
    ensures c !in r
  {
    UpToFirst(s[IndexChar(s, c) + 1..], c)
  }

  /** `strings.ReplaceAll` of one rune by another. */
  function ReplaceChar(s: String, from: char, to: char): (r: String)
    ensures |r| == |s|
    ensures forall i :: 0 <= i < |s| ==> r[i] == if s[i] == from then to else s[i]
  {
    if |s| == 0 then [] else [if s[0] == from then to else s[0]] + ReplaceChar(s[1..], from, to)
  }

  /** `strings.ToLower`, restricted to ASCII letters. */
  function LowerChar(c: char): char {
    if 'A' <= c <= 'Z' then (c as int + 32) as char else c
  }

  function ToLower(s: String): (r: String)
    ensures |r| == |s|
    ensures forall i :: 0 <= i < |s| ==> r[i] == LowerChar(s[i])
  {
    if |s| == 0 then [] else [LowerChar(s[0])] + ToLower(s[1..])
  }

  /** `strings.EqualFold`, with ASCII case folding. */
  predicate EqualFold(a: String, b: String) {
    ToLower(a) == ToLower(b)
  }

  /** `strings.Join` */
  function Join(parts: seq<String>, sep: String): String {
    if |parts| == 0 then []
    else if |parts| == 1 then parts[0]
    else parts[0] + sep + Join(parts[1..], sep)
  }

  /** Number of bytes of the UTF-8 encoding of a rune. */
  function Utf8RuneLen(c: char): (n: nat)
    ensures 1 <= n <= 4
  {
    if c as int < 0x80 then 1
    else if c as int < 0x800 then 2
    else if c as int < 0x10000 then 3
    else 4
  }

  /** `len(s)` on a Go string: its UTF-8 byte count. */
  function Utf8Len(s: String): (n: nat)
    ensures |s| <= n <= 4 * |s|
  {
    if |s| == 0 then 0 else Utf8RuneLen(s[0]) + Utf8Len(s[1..])
  }

  predicate IsDigit(c: char) {
    '0' <= c <= '9'
  }

  function DigitValue(c: char): (d: nat)
    requires IsDigit(c)
    ensures d < 10
  {
    c as int - '0' as int
  }

  /** Value of a string of decimal digits. */
  function DigitsValue(s: String): nat
    requires forall i :: 0 <= i < |s| ==> IsDigit(s[i])
  {
    if |s| == 0 then 0 else DigitsValue(s[..|s| - 1]) * 10 + DigitValue(s[|s| - 1])
  }

  /** The longest prefix of `s` made of decimal digits. */
  function LeadingDigits(s: String): (r: String)
    ensures HasPrefix(s, r)
    ensures forall i :: 0 <= i < |r| ==> IsDigit(s[i])
    ensures |r| < |s| ==> !IsDigit(s[|r|])
  {
    if |s| > 0 && IsDigit(s[0]) then [s[0]] + LeadingDigits(s[1..]) else []
  }

  function DigitChar(d: nat): (c: char)
    requires d < 10
    ensures IsDigit(c) && DigitValue(c) == d
  {
    ('0' as int + d) as char
  }

  /** `strconv.Itoa` / `%d` on a natural number. */
  function NatToString(n: nat): (s: String)
    ensures |s| >= 1
    ensures forall i :: 0 <= i < |s| ==> IsDigit(s[i])
    ensures DigitsValue(s) == n
  {
    if n < 10 then [DigitChar(n)] else
      var s := NatToString(n / 10) + [DigitChar(n % 10)];
      assert s[..|s| - 1] == NatToString(n / 10);
      s
  }

  /** `strconv.Itoa` / `%d` on an integer. */
  function IntToString(i: int): String {
    if i < 0 then "-" + NatToString(-i) else NatToString(i)
  }

  const Int64Min: int := -0x8000_0000_0000_0000
  const Int64Max: int := 0x7FFF_FFFF_FFFF_FFFF
  const Uint64Max: int := 0xFFFF_FFFF_FFFF_FFFF

  predicate AllDigits(s: String) {
    forall i :: 0 <= i < |s| ==> IsDigit(s[i])
  }

  /** `strconv.ParseInt(s, 10, 64)`: an optional sign and at least one decimal
      digit, nothing else, and a value in the int64 range. */
  function ParseInt64(s: String): (r: Option<int>)
    ensures r.Some? ==> Int64Min <= r.value <= Int64Max
  {
    var neg := |s| > 0 && s[0] == '-';
    var body := if |s| > 0 && (s[0] == '-' || s[0] == '+') then s[1..] else s;
    if |body| == 0 || !AllDigits(body) then None
    else
      var d: int := DigitsValue(body);
      var v := if neg then -d else d;
      if Int64Min <= v <= Int64Max then Some(v) else None
  }

  /** `strconv.ParseUint(s, 10, 64)`: at least one decimal digit, nothing else,
      and a value that fits in 64 bits. */
  function ParseUint64(s: String): (r: Option<nat>)
    ensures r.Some? ==> r.value <= Uint64Max
    ensures r.Some? <==> (|s| > 0 && AllDigits(s) && DigitsValue(s) <= Uint64Max)
  {
    if |s| > 0 && AllDigits(s) && DigitsValue(s) <= Uint64Max then Some(DigitsValue(s)) else None
  }

  /** `fmt.Sscanf(s, "%d", &n)` into an `int`: an optional sign followed by the
      longest run of decimal digits (at least one); trailing input is left
      unread; a value outside the int64 range is an error. */
  function ScanInt(s: String): (r: Option<int>)
    ensures r.Some? ==> Int64Min <= r.value <= Int64Max
  {
    var neg := |s| > 0 && s[0] == '-';
    var rest := if |s| > 0 && (s[0] == '-' || s[0] == '+') then s[1..] else s;
    var digits := LeadingDigits(rest);
    if |digits| == 0 then None
    else
      var d: int := DigitsValue(digits);
      var v := if neg then -d else d;
      if Int64Min <= v <= Int64Max then Some(v) else None
  }

  /** A byte of a Go `[]byte`. */
  newtype byte = x: int | 0 <= x < 256

  predicate IsLowerHex(c: char) {
    '0' <= c <= '9' || 'a' <= c <= 'f'
  }

  function HexDigit(d: nat): (c: char)
    requires d < 16
    ensures IsLowerHex(c)
  {
    if d < 10 then ('0' as int + d) as char else ('a' as int + d - 10) as char
  }

  /** `hex.EncodeToString`: two lower-case hex digits per byte. */
  function Hex(b: seq<byte>): (r: String)
    ensures |r| == 2 * |b|
    ensures forall i :: 0 <= i < |r| ==> IsLowerHex(r[i])
  {
    if |b| == 0 then []
    else [HexDigit(b[0] as nat / 16), HexDigit(b[0] as nat % 16)] + Hex(b[1..])
  }
}
