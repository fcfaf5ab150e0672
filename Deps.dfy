/**
 * API-key check for the write endpoints (fulcrum-llm-ops/backend/app/api/deps.py).
 * The settings `AUTH_DISABLED` and `FULCRUM_API_KEY` are parameters; the
 * `WWW-Authenticate` header of the 401 replies is not modelled.
 */
module Deps {
  import opened Common
  import opened Strings

  /** `authorization.split(" ")[1]` for a value starting with "Bearer ": the text up to the next space. */
  function BearerToken(authorization: string): (t: string)
    requires StartsWith(authorization, "Bearer ")
    ensures !Contains(t, " ")
    ensures |t| <= |authorization| - 7 && t == authorization[7..7 + |t|]
    ensures 7 + |t| == |authorization| || authorization[7 + |t|] == ' '
  {
    var rest := authorization[7..];
    assert authorization == "Bearer" + " " + rest;
    BearerWordHasNoSpace();
    FindAfterFree("Bearer", " ", rest);
    SplitAt("Bearer", " ", rest);
    var pieces := Split(rest, " ");
    SplitPiecesFree(rest, " ");
    FirstPiecePrefix(rest, " ");
    assert |pieces[0]| < |rest| ==> rest[|pieces[0]|..|pieces[0]| + 1][0] == rest[|pieces[0]|];
    pieces[0]
  }

  lemma BearerWordHasNoSpace()
    ensures !Contains("Bearer", " ")
  {
    var b := "Bearer";
    forall i | 0 <= i <= |b| - 1 ensures !OccursAt(b, " ", i) {
      assert b[i..i + 1][0] == b[i];
      assert b[i] != ' ';
    }
  }

  /** The key the request carries: the Authorization header when it is non-empty, else X-API-Key. */
  function ExtractKey(authorization: Option<string>, xApiKey: Option<string>): (k: Option<string>)
    ensures !TruthyText(authorization) ==> k == xApiKey
    ensures TruthyText(authorization) ==> k.Some?
  {
    if TruthyText(authorization) then
      if StartsWith(authorization.value, "Bearer ") then Some(BearerToken(authorization.value))
      else authorization
    else xApiKey
  }

  /** A non-empty Authorization header decides the key whatever X-API-Key says. */
  lemma AuthorizationFirst(authorization: string, x1: Option<string>, x2: Option<string>)
    requires authorization != ""
    ensures ExtractKey(Some(authorization), x1) == ExtractKey(Some(authorization), x2)
  {
  }

  /** "Bearer <key>" carries exactly the key, for a key without spaces. */
  lemma BearerCarriesKey(key: string, xApiKey: Option<string>)
    requires !Contains(key, " ")
    ensures ExtractKey(Some("Bearer " + key), xApiKey) == Some(key)
  {
    var a := "Bearer " + key;
    assert a[..7] == "Bearer ";
    assert a[7..] == key;
    assert Find(key, " ").None?;
  }

  /** Any other Authorization value is taken whole. */
  lemma PlainAuthorization(authorization: string, xApiKey: Option<string>)
    requires authorization != "" && !StartsWith(authorization, "Bearer ")
    ensures ExtractKey(Some(authorization), xApiKey) == Some(authorization)
  {
  }

  /**
   * `verify_api_key`: success exactly when auth is disabled or the extracted key is
   * non-empty and equal to the configured one; otherwise 401, "Missing API Key"
   * before "Invalid API Key".
   */
  function VerifyApiKey(authDisabled: bool, configuredKey: string,
                        authorization: Option<string>, xApiKey: Option<string>): (r: Result<bool, HttpError>)
    ensures r.Ok? <==> (authDisabled ||
      (TruthyText(ExtractKey(authorization, xApiKey)) && ExtractKey(authorization, xApiKey).value == configuredKey))
    ensures r.Ok? ==> r.value
    ensures !authDisabled && !TruthyText(ExtractKey(authorization, xApiKey)) ==>
      r == Err(HttpError(401, "Missing API Key"))
    ensures (!authDisabled && TruthyText(ExtractKey(authorization, xApiKey)) &&
      ExtractKey(authorization, xApiKey).value != configuredKey) ==> r == Err(HttpError(401, "Invalid API Key"))
  {
    if authDisabled then Ok(true)
    else
      var key := ExtractKey(authorization, xApiKey);
      if !TruthyText(key) then Err(HttpError(401, "Missing API Key"))
      else if key.value != configuredKey then Err(HttpError(401, "Invalid API Key"))
      else Ok(true)
  }

  /** A configured empty key can never be matched. */
  lemma EmptyKeyNeverMatches(authorization: Option<string>, xApiKey: Option<string>)
    ensures VerifyApiKey(false, "", authorization, xApiKey).Err?
  {
  }
}
