/** Authentication of incoming webhook calls in the ingestion server
    (bot/cmd/whserver/main.go): the HMAC signature check that mirrors the
    event bridge's signer, and the timestamp freshness rule. */
module WsSecurity {
  import opened Text
  import EngineSend

  /** `verifySignature`: no secret accepts nothing; otherwise the trimmed
      header must be `sha256=` followed by the hex HMAC of the body. */
  function VerifySignature(secret: String, body: seq<byte>, header: String, mac: EngineSend.Mac): (ok: bool)
    ensures secret == "" ==> !ok
    ensures !HasPrefix(TrimSpace(header), EngineSend.SignaturePrefix) ==> !ok
    ensures ok <==> secret != "" && HasPrefix(TrimSpace(header), EngineSend.SignaturePrefix) &&
                    TrimSpace(header)[|EngineSend.SignaturePrefix|..] == Hex(mac(secret, body))
  {
    if secret == "" then false
    else
      var h := TrimSpace(header);
      if !HasPrefix(h, EngineSend.SignaturePrefix) then false
      else TrimPrefix(h, EngineSend.SignaturePrefix) == Hex(mac(secret, body))
  }

  /** The verifier accepts exactly what the bridge's signer emits (up to
      surrounding white space), for every non-empty secret. */
  lemma SignatureRoundTrip(secret: String, body: seq<byte>, header: String, mac: EngineSend.Mac)
    requires secret != ""
    ensures VerifySignature(secret, body, EngineSend.SignBody(secret, body, mac), mac)
    ensures VerifySignature(secret, body, header, mac) <==> TrimSpace(header) == EngineSend.SignBody(secret, body, mac)
  {
    var sig := EngineSend.SignBody(secret, body, mac);
    assert sig[0] == 's' && sig[|sig| - 1] != ' ' by {
      var hx := Hex(mac(secret, body));
      if |hx| > 0 {
        assert sig[|sig| - 1] == hx[|hx| - 1];
      } else {
        assert sig[|sig| - 1] == '=';
      }
    }
    NoSpaceEnds(sig);
    var h := TrimSpace(header);
    if VerifySignature(secret, body, header, mac) {
      assert h == h[..|EngineSend.SignaturePrefix|] + h[|EngineSend.SignaturePrefix|..];
    }
  }

  /** A signature has no surrounding white space. */
  lemma NoSpaceEnds(s: String)
    requires |s| > 0 && !IsSpace(s[0]) && !IsSpace(s[|s| - 1])
    ensures TrimSpace(s) == s
  {
    TrimSpaceOfTrimmed(s);
  }

  // ----- Timestamps -----

  const Second: int := 1_000_000_000
  const MinDuration: int := -0x8000_0000_0000_0000
  const MaxDuration: int := 0x7FFF_FFFF_FFFF_FFFF

  /** `time.Time.Sub`: the difference in nanoseconds, saturated to the
      `time.Duration` range. */
  function Sub(t: int, u: int): (d: int)
    ensures MinDuration <= d <= MaxDuration
    ensures MinDuration <= t - u <= MaxDuration ==> d == t - u
  {
    if t - u < MinDuration then MinDuration else if t - u > MaxDuration then MaxDuration else t - u
  }

  /** Two's complement negation of a duration: the most negative one is its
      own negation. */
  function Negate(d: int): int
    requires MinDuration <= d <= MaxDuration
  {
    if d == MinDuration then MinDuration else -d
  }

  datatype TsError = MissingTimestamp | BadTimestampFormat | SkewTooLarge

  /** RFC 3339 parsing into Unix nanoseconds; not modelled. */
  type Rfc3339 = String -> Option<int>

  /** The instant a timestamp header names: an int64 is Unix seconds,
      anything else must be RFC 3339. */
  function HeaderInstant(h: String, rfc3339: Rfc3339): (t: Option<int>)
    ensures ParseInt64(h).Some? ==> t == Some(ParseInt64(h).value * Second)
    ensures ParseInt64(h).None? ==> t == rfc3339(h)
  {
    match ParseInt64(h)
    case Some(n) => Some(n * Second)
    case None => rfc3339(h)
  }

  /** `verifyTimestamp` as written: the age is `time.Since(ts)`, made
      non-negative by negation, then compared with the skew. */
  function VerifyTimestampAsWritten(h: String, skew: int, now: int, rfc3339: Rfc3339): Option<TsError> {
    if h == "" then Some(MissingTimestamp)
    else match HeaderInstant(h, rfc3339)
      case None => Some(BadTimestampFormat)
      case Some(ts) =>
        var diff := Sub(now, ts);
        var age := if diff < 0 then Negate(diff) else diff;
        if age > skew then Some(SkewTooLarge) else None
  }

  /** The header "99999999999" names a time in the year 5138. */
  const FarFuture: String := "99999999999"

  /** As written, a timestamp more than about 292 years ahead saturates the
      difference to the most negative duration, whose negation is itself, so
      it passes any skew. */
  lemma FarFutureTimestampAccepted(now: int, skew: int, rfc3339: Rfc3339)
    requires 0 <= now <= MaxDuration && 0 <= skew <= MaxDuration
    ensures VerifyTimestampAsWritten(FarFuture, skew, now, rfc3339).None?
    ensures VerifyTimestamp(FarFuture, skew, now, rfc3339) == Some(SkewTooLarge)
  {
    DigitsOf(FarFuture, 99999999999);
    assert ParseInt64(FarFuture) == Some(99999999999);
  }

  function Pow10(k: nat): nat {
    if k == 0 then 1 else 10 * Pow10(k - 1)
  }

  lemma {:induction false} NinesValue(s: String)
    requires forall i :: 0 <= i < |s| ==> s[i] == '9'
    ensures AllDigits(s) && DigitsValue(s) == Pow10(|s|) - 1
  {
    if |s| > 0 {
      NinesValue(s[..|s| - 1]);
    }
  }

  lemma DigitsOf(s: String, n: nat)
    requires s == "99999999999" && n == 99999999999
    ensures AllDigits(s) && DigitsValue(s) == n
  {
    NinesValue(s);
  }

  /** The evidently intended rule: accept iff the header parses and the
      distance between now and the named instant is at most the skew. */
  function VerifyTimestamp(h: String, skew: int, now: int, rfc3339: Rfc3339): (r: Option<TsError>)
    ensures r.None? <==> h != "" && HeaderInstant(h, rfc3339).Some? &&
                         -skew <= now - HeaderInstant(h, rfc3339).value <= skew
    ensures h == "" ==> r == Some(MissingTimestamp)
  {
    if h == "" then Some(MissingTimestamp)
    else match HeaderInstant(h, rfc3339)
      case None => Some(BadTimestampFormat)
      case Some(ts) => if now - ts > skew || ts - now > skew then Some(SkewTooLarge) else None
  }

  /** Both rules agree whenever the distance fits in a `time.Duration`
      without reaching its most negative value, i.e. within about 292 years
      of now. */
  lemma TimestampRulesAgreeInRange(h: String, skew: int, now: int, rfc3339: Rfc3339)
    requires h != "" && HeaderInstant(h, rfc3339).Some?
    requires MinDuration < now - HeaderInstant(h, rfc3339).value <= MaxDuration
    ensures VerifyTimestampAsWritten(h, skew, now, rfc3339) == VerifyTimestamp(h, skew, now, rfc3339)
  {
  }
}
