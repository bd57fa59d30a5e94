/** The headers of a forwarded webhook request (bot/engine/engine_unified.go,
    `postJSONWithRetry`): the fixed content type and timestamp, the
    configured headers, then the signature, each set with `Header.Set`, which
    stores a key in the canonical form of Go's `textproto` package. The map
    of configured headers is visited in an order that is an input (`order`),
    since Go's map iteration order is unspecified. */
module EngineHeaders {
  import opened Text


  /** The bytes Go accepts in a header field name (RFC 7230 token
      characters). */
  predicate TokenChar(c: char) {
    'a' <= c <= 'z' || 'A' <= c <= 'Z' || '0' <= c <= '9' || c in TokenPunctuation
  }

  const TokenPunctuation: set<char> := {'!', '#', '$', '%', '&', '\'', '*', '+', '-', '.', '^', '_', '`', '|', '~'}

  predicate AllTokenChars(k: String) {
    forall i :: 0 <= i < |k| ==> TokenChar(k[i])
  }

  /** What `CanonicalKey` does rune by rune. */
  lemma CanonicalKeyRunes(k: String)
    ensures !AllTokenChars(k) ==> CanonicalKey(k) == k
    ensures AllTokenChars(k) ==> forall i :: 0 <= i < |k| ==> CanonicalKey(k)[i] == CaseAt(k[i], WordStart(k, i))
  {
    CasedPrefixRunes(k, |k|);
  }

  lemma {:induction false} CasedPrefixRunes(k: String, n: nat)
    requires n <= |k|
    ensures forall i :: 0 <= i < n ==> CasedPrefix(k, n)[i] == CaseAt(k[i], WordStart(k, i))
  {
    if n > 0 {
      CasedPrefixRunes(k, n - 1);
      var p := CasedPrefix(k, n - 1);
      assert CasedPrefix(k, n) == p + [CaseAt(k[n - 1], WordStart(k, n - 1))];
      forall i | 0 <= i < n - 1
        ensures CasedPrefix(k, n)[i] == p[i]
      {
      }
    }
  }

  /** One rune of a canonical key: upper-case at the start of a word,
      lower-case elsewhere. */
  function CaseAt(c: char, upper: bool): char {
    if upper && 'a' <= c <= 'z' then (c as int - 32) as char
    else if !upper && 'A' <= c <= 'Z' then (c as int + 32) as char
    else c
  }

  /** Whether position `i` of `k` starts a word: the first rune, and each
      rune after a `-`. */
  predicate WordStart(k: String, i: int)
    requires 0 <= i < |k|
  {
    i == 0 || k[i - 1] == '-'
  }

  /** `textproto.CanonicalMIMEHeaderKey`, which `Header.Set` applies: a
      key of token characters gets each word capitalised and the rest
      lower-cased; any other key is kept as it is. */
  function CanonicalKey(k: String): (r: String)
    ensures |r| == |k|
  {
    if AllTokenChars(k) then CasedPrefix(k, |k|) else k
  }

  /** The first `n` runes of `k`, each cased by `CaseAt`. */
  function CasedPrefix(k: String, n: nat): (r: String)
    requires n <= |k|
    ensures |r| == n
  {
    if n == 0 then [] else CasedPrefix(k, n - 1) + [CaseAt(k[n - 1], WordStart(k, n - 1))]
  }

  /** A canonical key is its own canonical form. */
  lemma CanonicalKeyIdempotent(k: String)
    ensures CanonicalKey(CanonicalKey(k)) == CanonicalKey(k)
  {
    var r := CanonicalKey(k);
    CanonicalKeyRunes(k);
    if AllTokenChars(k) {
      forall i | 0 <= i < |k|
        ensures TokenChar(r[i]) && (r[i] == '-' <==> k[i] == '-')
      {
        assert r[i] == CaseAt(k[i], WordStart(k, i));
      }
      assert AllTokenChars(r);
      CanonicalKeyRunes(r);
      forall i | 0 <= i < |k|
        ensures CanonicalKey(r)[i] == r[i]
      {
        assert WordStart(r, i) == WordStart(k, i);
      }
    }
  }

  /** Runes equal up to letter case are cased alike, and agree on being
      token characters and on being `-`; outside the letters they are the
      same rune. */
  lemma CaseAtIgnoresCase(c: char, d: char, upper: bool)
    requires LowerChar(c) == LowerChar(d)
    ensures CaseAt(c, upper) == CaseAt(d, upper)
    ensures (TokenChar(c) <==> TokenChar(d)) && (c == '-' <==> d == '-')
    ensures !TokenChar(c) ==> c == d
  {
  }

  /** Keys that differ only in letter case are both made of token
      characters or both not; when they are, they name the same header.
      (A key with any other rune is kept as given, case and all.) */
  lemma CanonicalKeyIgnoresCase(a: String, b: String)
    requires EqualFold(a, b)
    ensures AllTokenChars(a) <==> AllTokenChars(b)
    ensures AllTokenChars(a) ==> CanonicalKey(a) == CanonicalKey(b)
  {
    assert |a| == |ToLower(a)| == |b|;
    forall i | 0 <= i < |a|
      ensures LowerChar(a[i]) == LowerChar(b[i])
    {
      assert LowerChar(a[i]) == ToLower(a)[i];
      assert LowerChar(b[i]) == ToLower(b)[i];
    }
    forall i | 0 <= i < |a|
      ensures CaseAt(a[i], WordStart(a, i)) == CaseAt(b[i], WordStart(b, i))
      ensures TokenChar(a[i]) <==> TokenChar(b[i])
    {
      CaseAtIgnoresCase(a[i], b[i], WordStart(a, i));
      if i > 0 {
        CaseAtIgnoresCase(a[i - 1], b[i - 1], true);
      }
    }
    CanonicalKeyRunes(a);
    CanonicalKeyRunes(b);
  }

  const ContentType: String := "Content-Type"
  const TimestampHeader: String := "X-Whatsbot-Timestamp"
  const SignatureHeader: String := "X-Whatsbot-Signature"

  /** A key of token characters already cased as `CaseAt` would case it
      is its own canonical form. */
  lemma CanonicalWhenCased(k: String)
    requires AllTokenChars(k)
    requires forall i :: 0 <= i < |k| ==> CaseAt(k[i], WordStart(k, i)) == k[i]
    ensures CanonicalKey(k) == k
  {
    CanonicalKeyRunes(k);
  }

  /** The three fixed names are already canonical, so setting them under
      these spellings is what `Header.Set` does. */
  lemma ContentTypeCanonical()
    ensures AllTokenChars(ContentType) && CanonicalKey(ContentType) == ContentType
  {
    CanonicalWhenCased(ContentType);
  }

  lemma TimestampHeaderCanonical()
    ensures AllTokenChars(TimestampHeader) && CanonicalKey(TimestampHeader) == TimestampHeader
  {
    CanonicalWhenCased(TimestampHeader);
  }

  lemma SignatureHeaderCanonical()
    ensures AllTokenChars(SignatureHeader) && CanonicalKey(SignatureHeader) == SignatureHeader
  {
    CanonicalWhenCased(SignatureHeader);
  }

  /** `req.Header.Set(k, v)` for each pair, in order; a later pair with the
      same key overwrites an earlier one. */
  function SetAll(h: map<String, String>, pairs: seq<(String, String)>): map<String, String> {
    if |pairs| == 0 then h
    else SetAll(h, pairs[..|pairs| - 1])[pairs[|pairs| - 1].0 := pairs[|pairs| - 1].1]
  }

  /** After the loop a key is set exactly when it was before or some pair
      sets it. */
  lemma {:induction false} SetAllKeys(h: map<String, String>, pairs: seq<(String, String)>, K: String)
    ensures K in SetAll(h, pairs) <==> K in h || exists i :: 0 <= i < |pairs| && pairs[i].0 == K
  {
    if |pairs| > 0 {
      var init := pairs[..|pairs| - 1];
      SetAllKeys(h, init, K);
      assert forall i :: 0 <= i < |init| ==> init[i] == pairs[i];
    }
  }

  /** The last pair that sets a key decides its value. */
  lemma {:induction false} SetAllLastWins(h: map<String, String>, pairs: seq<(String, String)>, i: nat)
    requires i < |pairs|
    requires forall j :: i < j < |pairs| ==> pairs[j].0 != pairs[i].0
    ensures pairs[i].0 in SetAll(h, pairs) && SetAll(h, pairs)[pairs[i].0] == pairs[i].1
  {
    if i < |pairs| - 1 {
      var init := pairs[..|pairs| - 1];
      assert forall j :: 0 <= j < |init| ==> init[j] == pairs[j];
      SetAllLastWins(h, init, i);
    }
  }

  /** A key no pair sets keeps its value. */
  lemma {:induction false} SetAllKeeps(h: map<String, String>, pairs: seq<(String, String)>, K: String)
    requires K in h && forall i :: 0 <= i < |pairs| ==> pairs[i].0 != K
    ensures K in SetAll(h, pairs) && SetAll(h, pairs)[K] == h[K]
  {
    if |pairs| > 0 {
      var init := pairs[..|pairs| - 1];
      assert forall i :: 0 <= i < |init| ==> init[i] == pairs[i];
      SetAllKeeps(h, init, K);
    }
  }

  /** The configured headers in the order the map is visited, each under
      the key `key` gives it. */
  function CustomPairs(custom: map<String, String>, order: seq<String>, key: String -> String)
    : (ps: seq<(String, String)>)
    requires forall i :: 0 <= i < |order| ==> order[i] in custom
    ensures |ps| == |order|
  {
    seq(|order|, i requires 0 <= i < |order| => (key(order[i]), custom[order[i]]))
  }

  /** Setting the configured headers adds exactly their keys. */
  lemma CustomKeys(h0: map<String, String>, custom: map<String, String>, order: seq<String>, key: String -> String)
    requires forall i :: 0 <= i < |order| ==> order[i] in custom
    requires forall k :: k in custom ==> k in order
    ensures SetAll(h0, CustomPairs(custom, order, key)).Keys == h0.Keys + (set k | k in custom :: key(k))
  {
    var ps := CustomPairs(custom, order, key);
    forall K
      ensures K in SetAll(h0, ps) <==> K in h0 || K in (set k | k in custom :: key(k))
    {
      SetAllKeys(h0, ps, K);
      if exists i :: 0 <= i < |ps| && ps[i].0 == K {
        var i :| 0 <= i < |ps| && ps[i].0 == K;
        assert order[i] in custom && key(order[i]) == K;
      }
      if K in (set k | k in custom :: key(k)) {
        var k :| k in custom && key(k) == K;
        var i :| 0 <= i < |order| && order[i] == k;
        assert ps[i].0 == K;
      }
    }
  }

  /** Each configured header visited after every other one with the same
      key holds its own value. */
  lemma CustomLastWins(h0: map<String, String>, custom: map<String, String>, order: seq<String>, key: String -> String)
    requires forall i :: 0 <= i < |order| ==> order[i] in custom
    ensures var h1 := SetAll(h0, CustomPairs(custom, order, key));
      forall i :: 0 <= i < |order| && (forall j :: i < j < |order| ==> key(order[j]) != key(order[i])) ==>
        key(order[i]) in h1 && h1[key(order[i])] == custom[order[i]]
  {
    var ps := CustomPairs(custom, order, key);
    forall i | 0 <= i < |order| && (forall j :: i < j < |order| ==> key(order[j]) != key(order[i]))
      ensures key(order[i]) in SetAll(h0, ps) && SetAll(h0, ps)[key(order[i])] == custom[order[i]]
    {
      SetAllLastWins(h0, ps, i);
    }
  }

  /** A starting header no configured header names keeps its value. */
  lemma CustomKeeps(h0: map<String, String>, custom: map<String, String>, order: seq<String>, key: String -> String, K: String)
    requires forall i :: 0 <= i < |order| ==> order[i] in custom
    ensures var h1 := SetAll(h0, CustomPairs(custom, order, key));
      K in h0 && (forall k :: k in custom ==> key(k) != K) ==> K in h1 && h1[K] == h0[K]
  {
    if K in h0 && forall k :: k in custom ==> key(k) != K {
      var ps := CustomPairs(custom, order, key);
      forall i | 0 <= i < |ps|
        ensures ps[i].0 != K
      {
        assert order[i] in custom;
      }
      SetAllKeeps(h0, ps, K);
    }
  }

  /** Starting from `h0`, set the configured headers in the order the map
      is visited (`order`), each under the key `key` gives it, then the
      signature under `sigKey` when there is one. */
  function SetHeaders(h0: map<String, String>, custom: map<String, String>, order: seq<String>,
                      key: String -> String, sigKey: String, sig: String): (h: map<String, String>)
    requires forall i :: 0 <= i < |order| ==> order[i] in custom
    requires forall k :: k in custom ==> k in order
    ensures h.Keys == h0.Keys + (set k | k in custom :: key(k)) + (if sig != "" then {sigKey} else {})
    ensures sig != "" ==> h[sigKey] == sig
    ensures forall i :: 0 <= i < |order| && (sig == "" || key(order[i]) != sigKey) &&
                        (forall j :: i < j < |order| ==> key(order[j]) != key(order[i])) ==>
                          h[key(order[i])] == custom[order[i]]
    ensures forall K :: K in h0 && (sig == "" || K != sigKey) && (forall k :: k in custom ==> key(k) != K) ==>
      h[K] == h0[K]
  {
    var h1 := SetAll(h0, CustomPairs(custom, order, key));
    CustomKeys(h0, custom, order, key);
    CustomLastWins(h0, custom, order, key);
    assert forall K :: K in h0 && (forall k :: k in custom ==> key(k) != K) ==> h1[K] == h0[K] by {
      forall K | K in h0 && (forall k :: k in custom ==> key(k) != K)
        ensures h1[K] == h0[K]
      {
        CustomKeeps(h0, custom, order, key, K);
      }
    }
    if sig != "" then h1[sigKey := sig] else h1
  }

  /** Headers of one webhook request: content type and timestamp, then the
      configured headers in the order the map is visited (`order`), then
      the signature when there is one; every key is canonicalised, and of
      the configured headers sharing a canonical key the one visited last
      wins. */
  function WebhookHeaders(timestamp: String, custom: map<String, String>, order: seq<String>, sig: String)
    : (h: map<String, String>)
    requires forall i :: 0 <= i < |order| ==> order[i] in custom
    requires forall k :: k in custom ==> k in order
    ensures h.Keys == {ContentType, TimestampHeader} + (set k | k in custom :: CanonicalKey(k)) +
                      (if sig != "" then {SignatureHeader} else {})
    ensures sig != "" ==> h[SignatureHeader] == sig
  {
    SetHeaders(map[ContentType := "application/json", TimestampHeader := timestamp], custom, order,
               CanonicalKey, SignatureHeader, sig)
  }

  /** Of the configured headers sharing a canonical key, the one visited
      last wins, unless the signature takes that key. */
  lemma WebhookHeaderLastWins(timestamp: String, custom: map<String, String>, order: seq<String>, sig: String, i: nat)
    requires forall i :: 0 <= i < |order| ==> order[i] in custom
    requires forall k :: k in custom ==> k in order
    requires i < |order| && (sig == "" || CanonicalKey(order[i]) != SignatureHeader)
    requires forall j :: i < j < |order| ==> CanonicalKey(order[j]) != CanonicalKey(order[i])
    ensures var h := WebhookHeaders(timestamp, custom, order, sig);
      CanonicalKey(order[i]) in h && h[CanonicalKey(order[i])] == custom[order[i]]
  {
  }

  /** The content type and the timestamp keep their values unless a
      configured header has the same canonical key. */
  lemma WebhookHeaderDefaults(timestamp: String, custom: map<String, String>, order: seq<String>, sig: String)
    requires forall i :: 0 <= i < |order| ==> order[i] in custom
    requires forall k :: k in custom ==> k in order
    ensures var h := WebhookHeaders(timestamp, custom, order, sig);
      (forall k :: k in custom ==> CanonicalKey(k) != ContentType) ==> h[ContentType] == "application/json"
    ensures var h := WebhookHeaders(timestamp, custom, order, sig);
      (forall k :: k in custom ==> CanonicalKey(k) != TimestampHeader) ==> h[TimestampHeader] == timestamp
  {
  }

  /** A configured header spelled like the signature header in any case
      takes its key, so with a secret the real signature replaces it. */
  lemma SignatureSpellings(k: String)
    requires EqualFold(k, SignatureHeader)
    ensures CanonicalKey(k) == SignatureHeader
  {
    SignatureHeaderCanonical();
    CanonicalKeyIgnoresCase(k, SignatureHeader);
  }

  /** A configured header spelled like the content type in any case takes
      its key, so it replaces the default. */
  lemma ContentTypeSpellings(k: String)
    requires EqualFold(k, ContentType)
    ensures CanonicalKey(k) == ContentType
  {
    ContentTypeCanonical();
    CanonicalKeyIgnoresCase(k, ContentType);
  }
}
