/**
  * `authenticateMerchant`: the credential check that guards every
  * merchant-facing route. Both headers must be present and non-empty; the
  * merchant is then the one whose key and secret both match.
  */
module Auth {
  import opened Wrappers
  import opened Models

  /** The two request headers, absent when the request does not send them. */
  datatype Credentials = Credentials(apiKey: Option<string>, apiSecret: Option<string>)

  /** The merchant whose key and secret both equal the given ones. */
  predicate Matches(m: Merchant, key: string, secret: string)
  {
    m.api_key == key && m.api_secret == secret
  }

  /**
    * `Merchant.findOne({ where: { api_key, api_secret } })`: the first
    * merchant matching both columns, if any.
    */
  function FindByCredentials(ms: seq<Merchant>, key: string, secret: string): (r: Option<Merchant>)
    ensures r.Some? ==> r.value in ms && Matches(r.value, key, secret)
    ensures r.None? <==> forall m :: m in ms ==> !Matches(m, key, secret)
  {
    if |ms| == 0 then None
    else if Matches(ms[0], key, secret) then Some(ms[0])
    else FindByCredentials(ms[1..], key, secret)
  }

  /**
    * The middleware's decision: the merchant it binds to `req.merchant`
    * before calling `next()`, or the error it responds with. `lookupFails`
    * says whether the store lookup throws.
    */
  function Authenticate(ms: seq<Merchant>, creds: Credentials, lookupFails: bool): (r: Result<Merchant, ApiError>)
    ensures r.Ok? ==> r.value in ms
    ensures r.Err? ==> r.error == InvalidCredentials || r.error == AuthenticationFailed
  {
    if !Truthy(creds.apiKey) || !Truthy(creds.apiSecret) then
      Err(InvalidCredentials)
    else if lookupFails then
      Err(AuthenticationFailed)
    else
      match FindByCredentials(ms, creds.apiKey.value, creds.apiSecret.value)
      case None => Err(InvalidCredentials)
      case Some(m) => Ok(m)
  }

  /** A merchant is bound only on an exact match of both headers with its key and secret. */
  lemma AuthenticateSound(ms: seq<Merchant>, creds: Credentials, lookupFails: bool)
    ensures var r := Authenticate(ms, creds, lookupFails);
      r.Ok? ==>
        && !lookupFails
        && creds.apiKey == Some(r.value.api_key) && r.value.api_key != ""
        && creds.apiSecret == Some(r.value.api_secret) && r.value.api_secret != ""
  {
  }

  /**
    * With unique API keys, the credentials of a merchant (both non-empty)
    * resolve to that merchant and no other.
    */
  lemma {:induction false} AuthenticateComplete(ms: seq<Merchant>, m: Merchant)
    requires MerchantsValid(ms) && m in ms
    requires m.api_key != "" && m.api_secret != ""
    ensures Authenticate(ms, Credentials(Some(m.api_key), Some(m.api_secret)), false) == Ok(m)
  {
    FindUnique(ms, m);
  }

  /** Under unique keys the lookup returns the one merchant that matches. */
  lemma {:induction false} FindUnique(ms: seq<Merchant>, m: Merchant)
    requires MerchantsValid(ms) && m in ms
    ensures FindByCredentials(ms, m.api_key, m.api_secret) == Some(m)
  {
    if ms[0] != m {
      assert ms[0].api_key != m.api_key by {
        var j :| 0 <= j < |ms| && ms[j] == m;
        assert 0 < j;
      }
      assert MerchantsValid(ms[1..]) by {
        forall i, j | 0 <= i < j < |ms[1..]|
          ensures ms[1..][i].api_key != ms[1..][j].api_key && ms[1..][i].id != ms[1..][j].id
        {
          assert ms[1..][i] == ms[i + 1] && ms[1..][j] == ms[j + 1];
        }
      }
      FindUnique(ms[1..], m);
    }
  }

  /**
    * Missing credentials and wrong credentials are answered identically, so
    * a caller cannot tell them apart; a missing header is answered without
    * consulting the store at all.
    */
  lemma MissingAndWrongIndistinguishable(ms: seq<Merchant>, missing: Credentials, wrong: Credentials, lookupFails: bool)
    requires !Truthy(missing.apiKey) || !Truthy(missing.apiSecret)
    requires Truthy(wrong.apiKey) && Truthy(wrong.apiSecret)
    requires forall m :: m in ms ==> !Matches(m, wrong.apiKey.value, wrong.apiSecret.value)
    ensures Authenticate(ms, missing, lookupFails) == Authenticate(ms, wrong, false) == Err(InvalidCredentials)
    ensures forall other: seq<Merchant> :: Authenticate(other, missing, true) == Authenticate(ms, missing, lookupFails)
  {
  }

  /** A failing lookup is a 500 and binds no merchant. */
  lemma LookupFailureIsServerError(ms: seq<Merchant>, creds: Credentials)
    requires Truthy(creds.apiKey) && Truthy(creds.apiSecret)
    ensures Authenticate(ms, creds, true) == Err(AuthenticationFailed)
    ensures StatusOf(AuthenticationFailed) == 500
  {
  }

  /**
    * The middleware answers 401 or 500, and 500 exactly when both headers
    * are present and the lookup fails.
    */
  lemma AuthErrorStatus(ms: seq<Merchant>, creds: Credentials, lookupFails: bool)
    ensures var r := Authenticate(ms, creds, lookupFails);
      r.Err? ==>
        && IsSentStatus(StatusOf(r.error))
        && (StatusOf(r.error) == 401 || StatusOf(r.error) == 500)
        && (StatusOf(r.error) == 500 <==> Truthy(creds.apiKey) && Truthy(creds.apiSecret) && lookupFails)
  {
  }
}
