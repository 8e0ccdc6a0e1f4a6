/** The query parameters and the URL of an OAuth 2.0 authorization request
    (section 4.1.1 of RFC 6749) as the client assembles them: PKCE with the
    S256 method (sections 4.2 and 4.3 of RFC 7636) and the OpenID Connect
    parameters prompt, acr_values and nonce (section 3.1.2.1 of OpenID Connect
    Core 1.0). Random strings, the S256 challenge and the URL encoding are
    inputs. */
module AuthnRequest {
  import opened Values
  import opened PyStr

  type Params = map<string, Json>

  /** The seven keys every authorization request starts with. */
  const BaseKeys: set<string> :=
    {"scope", "response_type", "client_id", "state", "code_challenge", "code_challenge_method", "redirect_uri"}

  /** The configured `authn_parameters` merged over the base keys: absent means
      none; anything but a dict raises. */
  function AuthnParameters(config: map<string, Json>): (r: Result<Params, Failure>)
    ensures "authn_parameters" !in config ==> r == Success(map[])
    ensures "authn_parameters" in config ==>
      (r.Success? <==> config["authn_parameters"].Obj?)
      && (r.Success? ==> r.value == config["authn_parameters"].fields)
  {
    if "authn_parameters" !in config then Success(map[])
    else if config["authn_parameters"].Obj? then Success(config["authn_parameters"].fields)
    else Failure(Malformed)
  }

  function ConsentSuffix(allowConsentOptionDeselection: bool): string {
    if allowConsentOptionDeselection then " consent consent_allow_deselection" else " consent"
  }

  /** The literal nonce condition `response_type.find("id_token")`: truthy for
      every value except 0, so a nonce is sent unless the response type begins
      with "id_token". */
  predicate WantsNonce(responseType: string)
    ensures WantsNonce(responseType) <==> !StartsWith(responseType, "id_token")
  {
    FindIsZero(responseType, "id_token");
    Find(responseType, "id_token") != 0
  }

  /** The delimiter between the endpoint and the query: "?" unless the endpoint
      already has a query. */
  function Delimiter(endpoint: string): (r: string)
    ensures r == (if '?' in endpoint then "&" else "?")
  {
    FindChar(endpoint, '?');
    if Find(endpoint, "?") < 0 then "?" else "&"
  }

  /** The keys written after the merge of `authn_parameters`, which override
      what the merge put there. */
  function LateKeys(acr: Json, forceAuthN: bool, forceConsent: bool, responseType: string): set<string> {
    (if Truthy(acr) then {"acr_values"} else {})
    + (if forceAuthN || forceConsent then {"prompt"} else {})
    + (if WantsNonce(responseType) then {"nonce"} else {})
  }

  /** The seven base parameters, before anything is merged over them. */
  function BaseArgs(config: map<string, Json>, scope: Json, responseType: string, state: string, codeChallenge: string): (r: Params)
    requires "client_id" in config && "redirect_uri" in config
    ensures r.Keys == BaseKeys
    ensures r["scope"] == scope && r["response_type"] == Str(responseType) && r["client_id"] == config["client_id"]
    ensures r["state"] == Str(state) && r["code_challenge"] == Str(codeChallenge)
    ensures r["code_challenge_method"] == Str("S256") && r["redirect_uri"] == config["redirect_uri"]
  {
    map[
      "scope" := scope,
      "response_type" := Str(responseType),
      "client_id" := config["client_id"],
      "state" := Str(state),
      "code_challenge" := Str(codeChallenge),
      "code_challenge_method" := Str("S256"),
      "redirect_uri" := config["redirect_uri"]]
  }

  /** The steps after the merge: acr_values when `acr` is truthy, "login" when
      authentication is forced, the consent suffix appended to the prompt
      present by then (a prompt that is not a string raises), and the nonce. */
  function WithLateArgs(merged: Params, acr: Json, forceAuthN: bool, forceConsent: bool,
                        allowConsentOptionDeselection: bool, responseType: string, nonce: string): (r: Result<Params, Failure>)
    ensures r.Success? <==> !(forceConsent && !forceAuthN && "prompt" in merged && !merged["prompt"].Str?)
    ensures r.Failure? ==> r.error == Malformed
    ensures r.Success? ==>
      && r.value.Keys == merged.Keys + LateKeys(acr, forceAuthN, forceConsent, responseType)
      && (forall k :: k in merged && k !in LateKeys(acr, forceAuthN, forceConsent, responseType) ==> r.value[k] == merged[k])
      && (Truthy(acr) ==> r.value["acr_values"] == acr)
      && (forceAuthN && !forceConsent ==> r.value["prompt"] == Str("login"))
      && (forceConsent ==>
            var prior := if forceAuthN then "login" else if "prompt" in merged then merged["prompt"].s else "";
            r.value["prompt"] == Str(prior + ConsentSuffix(allowConsentOptionDeselection)))
      && (WantsNonce(responseType) ==> r.value["nonce"] == Str(nonce))
  {
    var withAcr := if Truthy(acr) then merged["acr_values" := acr] else merged;
    var withLogin := if forceAuthN then withAcr["prompt" := Str("login")] else withAcr;
    var prior := if "prompt" in withLogin then withLogin["prompt"] else Str("");
    if forceConsent && !prior.Str? then Failure(Malformed)
    else
      var withConsent :=
        if forceConsent then withLogin["prompt" := Str(prior.s + ConsentSuffix(allowConsentOptionDeselection))]
        else withLogin;
      Success(if WantsNonce(responseType) then withConsent["nonce" := Str(nonce)] else withConsent)
  }

  /** The query parameters of the authorization request, or the exception the
      assembly raises: the base parameters, `authn_parameters` written over
      them, then the late parameters, which win over both. */
  function AuthnRequestArgs(config: map<string, Json>, scope: Json, responseType: string, state: string, codeChallenge: string,
                            acr: Json, forceAuthN: bool, forceConsent: bool, allowConsentOptionDeselection: bool,
                            nonce: string): (r: Result<Params, Failure>)
    ensures "client_id" !in config ==> r == Failure(KeyMissing("client_id"))
    ensures "client_id" in config && "redirect_uri" !in config ==> r == Failure(KeyMissing("redirect_uri"))
    ensures "client_id" in config && "redirect_uri" in config && AuthnParameters(config).Failure? ==> r == Failure(Malformed)
    ensures r.Success? <==>
      && "client_id" in config && "redirect_uri" in config && AuthnParameters(config).Success?
      && !(forceConsent && !forceAuthN && "prompt" in AuthnParameters(config).value
           && !AuthnParameters(config).value["prompt"].Str?)
    ensures r.Success? ==>
      var extra := AuthnParameters(config).value;
      var late := LateKeys(acr, forceAuthN, forceConsent, responseType);
      && r.value.Keys == BaseKeys + extra.Keys + late
      && (forall k :: k in extra && k !in late ==> r.value[k] == extra[k])
      && ("scope" !in extra ==> r.value["scope"] == scope)
      && ("response_type" !in extra ==> r.value["response_type"] == Str(responseType))
      && ("client_id" !in extra ==> r.value["client_id"] == config["client_id"])
      && ("state" !in extra ==> r.value["state"] == Str(state))
      && ("code_challenge" !in extra ==> r.value["code_challenge"] == Str(codeChallenge))
      && ("code_challenge_method" !in extra ==> r.value["code_challenge_method"] == Str("S256"))
      && ("redirect_uri" !in extra ==> r.value["redirect_uri"] == config["redirect_uri"])
      && (Truthy(acr) ==> r.value["acr_values"] == acr)
      && (forceAuthN && !forceConsent ==> r.value["prompt"] == Str("login"))
      && (forceConsent ==>
            var prior := if forceAuthN then "login" else if "prompt" in extra then extra["prompt"].s else "";
            r.value["prompt"] == Str(prior + ConsentSuffix(allowConsentOptionDeselection)))
      && (WantsNonce(responseType) ==> r.value["nonce"] == Str(nonce))
  {
    if "client_id" !in config then Failure(KeyMissing("client_id"))
    else if "redirect_uri" !in config then Failure(KeyMissing("redirect_uri"))
    else
      var extra := AuthnParameters(config);
      if extra.Failure? then Failure(extra.error)
      else
        var base := BaseArgs(config, scope, responseType, state, codeChallenge);
        assert "prompt" !in base && "acr_values" !in base && "nonce" !in base;
        WithLateArgs(base + extra.value, acr, forceAuthN, forceConsent, allowConsentOptionDeselection, responseType, nonce)
  }

  /** The authorization URL: the configured endpoint, the delimiter and the
      encoded parameters; the endpoint must be configured and be a string. */
  function AuthnUrl(config: map<string, Json>, args: Result<Params, Failure>, urlencode: Params -> string): (r: Result<string, Failure>)
    ensures args.Failure? ==> r == Failure(args.error)
    ensures args.Success? ==>
      (r.Success? <==> "authorization_endpoint" in config && config["authorization_endpoint"].Str?)
    ensures args.Success? && "authorization_endpoint" !in config ==> r == Failure(KeyMissing("authorization_endpoint"))
    ensures r.Success? ==>
      var endpoint := config["authorization_endpoint"].s;
      && |r.value| == |endpoint| + 1 + |urlencode(args.value)|
      && r.value[..|endpoint|] == endpoint
      && r.value[|endpoint|] == (if '?' in endpoint then '&' else '?')
      && r.value[|endpoint| + 1..] == urlencode(args.value)
  {
    if args.Failure? then Failure(args.error)
    else if "authorization_endpoint" !in config then Failure(KeyMissing("authorization_endpoint"))
    else if !config["authorization_endpoint"].Str? then Failure(Malformed)
    else
      var endpoint := config["authorization_endpoint"].s;
      var url := endpoint + Delimiter(endpoint) + urlencode(args.value);
      assert url[..|endpoint|] == endpoint;
      assert url[|endpoint| + 1..] == urlencode(args.value);
      Success(url)
  }

  /** Response types that begin with "id_token" get no nonce; all others,
      "code" among them, get one. */
  lemma NonceByResponseType()
    ensures WantsNonce("code")
    ensures WantsNonce("code id_token")
    ensures WantsNonce("token")
    ensures !WantsNonce("id_token")
    ensures !WantsNonce("id_token token")
  {
    assert "code"[..0] != "id_token";
    assert "code id_token"[..8] != "id_token" by { assert "code id_token"[0] == 'c'; }
    assert "id_token token"[..8] == "id_token";
  }

  /** The authorization request for a registered client with response type
      "code" and no extra parameters: the base keys with the configured
      client_id and redirect_uri, method S256, and a nonce. */
  lemma CodeFlowRequest(clientId: string, redirectUri: string, state: string, codeChallenge: string, nonce: string)
    ensures
      var config := map["client_id" := Str(clientId), "redirect_uri" := Str(redirectUri)];
      var r := AuthnRequestArgs(config, Str("openid"), "code", state, codeChallenge, Null, false, false, false, nonce);
      && r.Success?
      && r.value.Keys == BaseKeys + {"nonce"}
      && r.value["response_type"] == Str("code")
      && r.value["client_id"] == Str(clientId)
      && r.value["redirect_uri"] == Str(redirectUri)
      && r.value["code_challenge_method"] == Str("S256")
      && r.value["nonce"] == Str(nonce)
  {
    var config := map["client_id" := Str(clientId), "redirect_uri" := Str(redirectUri)];
    assert "authn_parameters" !in config;
    NonceByResponseType();
    assert LateKeys(Null, false, false, "code") == {"nonce"};
  }

  /** An endpoint without a query gets "?", one with a query gets "&". */
  lemma DelimiterExamples()
    ensures Delimiter("https://as.example/authz") == "?"
    ensures Delimiter("https://as.example/authz?realm=a") == "&"
  {
    var plain := "https://as.example/authz";
    assert '?' !in plain by {
      forall i | 0 <= i < |plain| ensures plain[i] != '?' {}
    }
    assert "https://as.example/authz?realm=a"[24] == '?';
  }
}
