/** Input validation of the chat API (backend/internal/utils/validation.go):
    the message check and sanitiser, the injection heuristic, and the
    session-id and channel checks. */
module Validation {
  import opened Text

  const MaxMessageLength: nat := 2000
  const MinMessageLength: nat := 1
  const MaxSessionIdLength: nat := 100

  /** `ValidationError`: the offending field and a message for the user. */
  datatype ValidationError = ValidationError(field: String, message: String)

  const EmptyMessage: ValidationError := ValidationError("message", "El mensaje no puede estar vacío")
  const MessageTooLong: ValidationError :=
    ValidationError("message", "El mensaje es demasiado largo (máximo 2000 caracteres)")
  const ForbiddenPatterns: ValidationError := ValidationError("message", "Mensaje contiene patrones no permitidos")
  const SessionIdTooLong: ValidationError := ValidationError("sessionId", "Session ID demasiado largo")
  const SessionIdBadChars: ValidationError := ValidationError("sessionId", "Session ID contiene caracteres no válidos")
  const BadChannel: ValidationError := ValidationError("channel", "Canal no válido (use: web, whatsapp, api)")

  datatype Checked = Ok(text: String) | Rejected(error: ValidationError)

  // ----- Control characters -----

  /** The runes the sanitiser keeps: line feed, carriage return, tab, and
      everything from U+0020 up. */
  predicate KeepRune(c: char) {
    c == '\n' || c == '\r' || c == '\t' || c as int >= 0x20
  }

  /** `sanitizeControlChars`: the input without the other control runes.
      The builder appends in input order; the function consumes the input
      from its end to match. */
  function SanitizeControlChars(s: String): (r: String)
    ensures |r| <= |s|
    ensures forall i :: 0 <= i < |r| ==> KeepRune(r[i])
  {
    if |s| == 0 then []
    else
      var init := s[..|s| - 1];
      var c := s[|s| - 1];
      SanitizeControlChars(init) + (if KeepRune(c) then [c] else [])
  }

  /** The sanitiser keeps exactly the kept runes, each as often as in the
      input. */
  lemma {:induction false} SanitizeCounts(s: String)
    ensures forall c :: multiset(SanitizeControlChars(s))[c] == if KeepRune(c) then multiset(s)[c] else 0
  {
    if |s| > 0 {
      var init, last := s[..|s| - 1], s[|s| - 1];
      SanitizeCounts(init);
      assert s == init + [last];
    }
  }

  /** `a` is a subsequence of `b`. */
  predicate IsSubsequence(a: String, b: String) {
    if |a| == 0 then true
    else if |b| == 0 then false
    else (a[|a| - 1] == b[|b| - 1] && IsSubsequence(a[..|a| - 1], b[..|b| - 1])) || IsSubsequence(a, b[..|b| - 1])
  }

  /** The output keeps the input's order. */
  lemma {:induction false} SanitizeIsSubsequence(s: String)
    ensures IsSubsequence(SanitizeControlChars(s), s)
  {
    if |s| > 0 {
      var init := s[..|s| - 1];
      var c := s[|s| - 1];
      var r := SanitizeControlChars(s);
      SanitizeIsSubsequence(init);
      if KeepRune(c) {
        assert r == SanitizeControlChars(init) + [c];
        assert r[..|r| - 1] == SanitizeControlChars(init);
      } else {
        assert r == SanitizeControlChars(init);
      }
    }
  }

  /** Text without dropped runes comes out unchanged. */
  lemma {:induction false} SanitizeKeepsClean(s: String)
    requires forall i :: 0 <= i < |s| ==> KeepRune(s[i])
    ensures SanitizeControlChars(s) == s
  {
    if |s| > 0 {
      var init, c := s[..|s| - 1], s[|s| - 1];
      SanitizeKeepsClean(init);
      assert KeepRune(c);
      assert s == init + [c];
    }
  }

  lemma SanitizeIdempotent(s: String)
    ensures SanitizeControlChars(SanitizeControlChars(s)) == SanitizeControlChars(s)
  {
    SanitizeKeepsClean(SanitizeControlChars(s));
  }

  // ----- Injection heuristic -----

  const InjectionPatterns: seq<String> := [
    "' or '1'='1", "' or 1=1", "'; drop table", "'; delete from", "union select",
    "<script", "javascript:", "onerror=", "onload="]

  /** The pattern loop: some pattern occurs in `lower`. */
  function AnyPatternIn(lower: String, patterns: seq<String>): (r: bool)
    ensures r <==> exists i :: 0 <= i < |patterns| && Contains(lower, patterns[i])
  {
    if |patterns| == 0 then false
    else if Contains(lower, patterns[0]) then true
    else
      var found := AnyPatternIn(lower, patterns[1..]);
      assert forall i :: 1 <= i < |patterns| ==> patterns[i] == patterns[1..][i - 1];
      found
  }

  /** `isInjectionAttempt`: a listed pattern in the lower-cased text, or
      more than five single or more than ten double quotes. */
  function IsInjectionAttempt(s: String): (r: bool)
    ensures r <==>
      (exists i :: 0 <= i < |InjectionPatterns| && Contains(ToLower(s), InjectionPatterns[i])) ||
      CountChar(s, '\'') > 5 || CountChar(s, '"') > 10
  {
    if AnyPatternIn(ToLower(s), InjectionPatterns) then true
    else CountChar(s, '\'') > 5 || CountChar(s, '"') > 10
  }

  /** Lower-casing never changes a count of a non-letter. */
  lemma {:induction false} LowerKeepsCount(s: String, c: char)
    requires !('A' <= c <= 'Z') && !('a' <= c <= 'z')
    ensures CountChar(ToLower(s), c) == CountChar(s, c)
  {
    if |s| > 0 {
      LowerKeepsCount(s[1..], c);
      assert ToLower(s)[1..] == ToLower(s[1..]);
    }
  }

  /** The heuristic ignores letter case. */
  lemma InjectionIgnoresCase(s: String, t: String)
    requires EqualFold(s, t)
    ensures IsInjectionAttempt(s) == IsInjectionAttempt(t)
  {
    LowerKeepsCount(s, '\'');
    LowerKeepsCount(t, '\'');
    LowerKeepsCount(s, '"');
    LowerKeepsCount(t, '"');
  }

  // ----- Message -----

  /** `ValidateAndSanitizeMessage`: trimmed, then checked for emptiness and
      length (in runes, before sanitising), then sanitised and checked for
      injection patterns. */
  function ValidateAndSanitizeMessage(message: String): (r: Checked)
    ensures TrimSpace(message) == "" ==> r == Rejected(EmptyMessage)
    ensures TrimSpace(message) != "" && |TrimSpace(message)| > MaxMessageLength ==> r == Rejected(MessageTooLong)
    ensures r.Ok? <==>
      TrimSpace(message) != "" && |TrimSpace(message)| <= MaxMessageLength &&
      !IsInjectionAttempt(SanitizeControlChars(TrimSpace(message)))
    ensures TrimSpace(message) != "" && |TrimSpace(message)| <= MaxMessageLength &&
            IsInjectionAttempt(SanitizeControlChars(TrimSpace(message))) ==>
              r == Rejected(ForbiddenPatterns)
    ensures r.Ok? ==> r.text == SanitizeControlChars(TrimSpace(message))
    ensures r.Rejected? ==> r.error in {EmptyMessage, MessageTooLong, ForbiddenPatterns}
  {
    var trimmed := TrimSpace(message);
    if |trimmed| < MinMessageLength then Rejected(EmptyMessage)
    else if |trimmed| > MaxMessageLength then Rejected(MessageTooLong)
    else
      var sanitized := SanitizeControlChars(trimmed);
      if IsInjectionAttempt(sanitized) then Rejected(ForbiddenPatterns) else Ok(sanitized)
  }

  /** What an accepted message is: at most 2000 runes, free of dropped
      control runes, the trimmed input's runes in order, no injection
      pattern, and stable under sanitising again. */
  lemma AcceptedMessage(message: String)
    requires ValidateAndSanitizeMessage(message).Ok?
    ensures var t := ValidateAndSanitizeMessage(message).text;
      |t| <= MaxMessageLength &&
      (forall i :: 0 <= i < |t| ==> KeepRune(t[i])) &&
      IsSubsequence(t, TrimSpace(message)) &&
      !IsInjectionAttempt(t) &&
      SanitizeControlChars(t) == t
  {
    var t := ValidateAndSanitizeMessage(message).text;
    assert t == SanitizeControlChars(TrimSpace(message));
    SanitizeIsSubsequence(TrimSpace(message));
    SanitizeIdempotent(TrimSpace(message));
  }

  /** The classic tautology payload is refused in any letter case. */
  lemma TautologyRefused()
    ensures ValidateAndSanitizeMessage("' OR 1=1") == Rejected(ForbiddenPatterns)
  {
    var m := "' OR 1=1";
    TrimSpaceOfTrimmed(m);
    SanitizeKeepsClean(m);
    TautologyIsInjection(m);
  }

  lemma TautologyIsInjection(m: String)
    requires m == "' OR 1=1"
    ensures IsInjectionAttempt(m)
  {
    var l := ToLower(m);
    LowerTautology(m);
    assert InjectionPatterns[1] == l;
    assert l[0..|l|] == l;
    ContainsAt(l, l, 0);
  }

  lemma LowerTautology(m: String)
    requires m == "' OR 1=1"
    ensures ToLower(m) == "' or 1=1"
  {
    var l := ToLower(m);
    assert l[2] == 'o' && l[3] == 'r';
    assert forall i :: 0 <= i < |m| && i != 2 && i != 3 ==> l[i] == m[i];
  }

  /** The emptiness check looks at the trimmed text only: a message made of
      a control rune alone passes and comes out empty. */
  lemma ControlRuneOnlyComesOutEmpty()
    ensures ValidateAndSanitizeMessage("\U{01}") == Ok("")
  {
    var m := "\U{01}";
    assert TrimSpace(m) == m by {
      TrimSpaceOfTrimmed(m);
    }
    assert SanitizeControlChars(m) == "" by {
      assert !KeepRune(m[0]) && m[..0] == "";
    }
    EmptyIsNoInjection();
  }

  lemma EmptyIsNoInjection()
    ensures !IsInjectionAttempt("")
  {
    assert ToLower("") == "";
    forall i | 0 <= i < |InjectionPatterns|
      ensures !Contains("", InjectionPatterns[i])
    {
      assert |InjectionPatterns[i]| > 0;
    }
  }

  // ----- Session id and channel -----

  predicate SessionIdChar(c: char) {
    'a' <= c <= 'z' || 'A' <= c <= 'Z' || '0' <= c <= '9' || c == '_' || c == '-'
  }

  /** `ValidateSessionID`: the empty id is accepted (a new one is made);
      otherwise at most 100 bytes, checked first, and only letters, digits,
      `_` and `-`. */
  function ValidateSessionId(id: String): (r: Option<ValidationError>)
    ensures id == "" ==> r.None?
    ensures id != "" && Utf8Len(id) > MaxSessionIdLength ==> r == Some(SessionIdTooLong)
    ensures r.None? <==>
      id == "" || (Utf8Len(id) <= MaxSessionIdLength && forall i :: 0 <= i < |id| ==> SessionIdChar(id[i]))
  {
    if id == "" then None
    else if Utf8Len(id) > MaxSessionIdLength then Some(SessionIdTooLong)
    else if forall i :: 0 <= i < |id| ==> SessionIdChar(id[i]) then None
    else Some(SessionIdBadChars)
  }

  /** An id of the allowed characters is ASCII: its byte length is its rune
      count. */
  lemma {:induction false} SessionIdCharsAreBytes(id: String)
    requires forall i :: 0 <= i < |id| ==> SessionIdChar(id[i])
    ensures Utf8Len(id) == |id|
  {
    if |id| > 0 {
      SessionIdCharsAreBytes(id[1..]);
    }
  }

  /** Exactly the ids of up to 100 allowed characters pass. */
  lemma SessionIdAccepted(id: String)
    ensures ValidateSessionId(id).None? <==>
      id == "" || (|id| <= MaxSessionIdLength && forall i :: 0 <= i < |id| ==> SessionIdChar(id[i]))
  {
    if forall i :: 0 <= i < |id| ==> SessionIdChar(id[i]) {
      SessionIdCharsAreBytes(id);
    }
  }

  const ValidChannels: set<String> := {"web", "whatsapp", "api"}

  /** `ValidateChannel`: the empty channel is accepted (the default is used);
      otherwise its lower-cased form must be one of the three channels. */
  function ValidateChannel(channel: String): (r: Option<ValidationError>)
    ensures channel == "" ==> r.None?
    ensures r.None? <==> channel == "" || ToLower(channel) in ValidChannels
    ensures r.Some? ==> r.value == BadChannel
  {
    if channel == "" then None
    else if ToLower(channel) in ValidChannels then None
    else Some(BadChannel)
  }

  /** The channel check ignores letter case. */
  lemma ChannelIgnoresCase(a: String, b: String)
    requires EqualFold(a, b)
    ensures ValidateChannel(a) == ValidateChannel(b)
  {
    assert |a| == |ToLower(a)| == |ToLower(b)| == |b|;
  }

  /** A channel name written in mixed case passes. */
  lemma MixedCaseChannelAccepted()
    ensures ValidateChannel("WhatsApp").None?
  {
    LowerOf("WhatsApp", "whatsapp");
  }

  /** Lower-casing rune by rune. */
  lemma LowerOf(s: String, l: String)
    requires |s| == |l| && forall i :: 0 <= i < |s| ==> LowerChar(s[i]) == l[i]
    ensures ToLower(s) == l
  {
  }
}
