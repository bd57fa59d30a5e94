/** The admin-key gate of the chat API (backend/internal/middleware/auth.go):
    the key comes from `X-Admin-Key`, or else from an `Authorization: Bearer`
    header, and the request goes on only when that key is non-empty and
    equals the configured one. A header that is absent reads as `""`. */
module AdminAuth {
  import opened Text

  datatype Verdict = Proceed | Unauthorized(error: String, hint: Option<String>)

  const MissingKey: String := "Missing admin API key"
  const MissingHint: String := "Add X-Admin-Key header or Authorization: Bearer <key>"
  const InvalidKey: String := "Invalid admin API key"
  const BearerPrefix: String := "Bearer "

  /** The key the request presents. The source compares the byte length of
      the header with 7; with the seven ASCII runes of `Bearer ` in front,
      that is the same as comparing the rune count. */
  function PresentedKey(xAdminKey: String, authorization: String): (k: String)
    ensures xAdminKey != "" ==> k == xAdminKey
    ensures xAdminKey == "" && |authorization| > 7 && HasPrefix(authorization, BearerPrefix) ==>
      k == authorization[7..] && k != ""
    ensures xAdminKey == "" && !(|authorization| > 7 && HasPrefix(authorization, BearerPrefix)) ==> k == ""
  {
    if xAdminKey != "" then xAdminKey
    else if |authorization| > 7 && HasPrefix(authorization, BearerPrefix) then authorization[7..]
    else ""
  }

  /** `AdminAuth`: 401 "Missing" for no key, 401 "Invalid" for a wrong one. */
  function Check(xAdminKey: String, authorization: String, configured: String): (v: Verdict)
    ensures v == Proceed <==> PresentedKey(xAdminKey, authorization) != "" && PresentedKey(xAdminKey, authorization) == configured
    ensures v == Unauthorized(MissingKey, Some(MissingHint)) <==> PresentedKey(xAdminKey, authorization) == ""
    ensures v.Unauthorized? && v.error == InvalidKey <==>
      PresentedKey(xAdminKey, authorization) != "" && PresentedKey(xAdminKey, authorization) != configured
  {
    var apiKey := PresentedKey(xAdminKey, authorization);
    if apiKey == "" then Unauthorized(MissingKey, Some(MissingHint))
    else if apiKey != configured then Unauthorized(InvalidKey, None)
    else Proceed
  }

  /** With no key configured, nothing gets through. */
  lemma EmptyConfiguredKeyRejectsAll(xAdminKey: String, authorization: String)
    ensures Check(xAdminKey, authorization, "").Unauthorized?
  {
  }

  /** A non-empty `X-Admin-Key` decides alone: `Authorization` is not read. */
  lemma AdminHeaderTakesPrecedence(xAdminKey: String, authorization: String, other: String, configured: String)
    requires xAdminKey != ""
    ensures Check(xAdminKey, authorization, configured) == Check(xAdminKey, other, configured)
  {
  }

  /** Both header forms admit exactly the configured key. */
  lemma {:induction false} BothFormsAccepted(key: String)
    requires key != ""
    ensures Check(key, "", key) == Proceed
    ensures Check("", BearerPrefix + key, key) == Proceed
  {
    var h := BearerPrefix + key;
    assert h[..7] == BearerPrefix;
    assert h[7..] == key;
  }

  /** A bare `Bearer ` with nothing after it presents no key. */
  lemma EmptyBearerIsMissing(configured: String)
    ensures Check("", BearerPrefix, configured) == Unauthorized(MissingKey, Some(MissingHint))
  {
  }
}
