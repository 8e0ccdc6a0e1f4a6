/** The form-encoded requests the client posts to the token and revocation
    endpoints: their fixed parameters, and the KeyError each raises, in the
    order the source indexes the configuration, when a key is missing. */
module TokenRequests {
  import opened Values
  import opened Http

  type Config = map<string, Json>

  /** The client-credentials grant that obtains a registration access token,
      with the fixed scope "dcr" (the caller has checked both DCR credentials). */
  function ClientCredentialsRequest(config: Config): (r: Result<Request, Failure>)
    requires "dcr_client_id" in config && "dcr_client_secret" in config
    ensures r.Success? <==> "token_endpoint" in config
    ensures r.Failure? ==> r.error == KeyMissing("token_endpoint")
    ensures r.Success? ==>
      && r.value.url == config["token_endpoint"] && r.value.bearer.None? && r.value.body.Form?
      && r.value.body.fields.Keys == {"client_id", "client_secret", "grant_type", "scope"}
      && r.value.body.fields["client_id"] == config["dcr_client_id"]
      && r.value.body.fields["client_secret"] == config["dcr_client_secret"]
      && r.value.body.fields["grant_type"] == Str("client_credentials")
      && r.value.body.fields["scope"] == Str("dcr")
  {
    var data := map[
      "client_id" := config["dcr_client_id"],
      "client_secret" := config["dcr_client_secret"],
      "grant_type" := Str("client_credentials"),
      "scope" := Str("dcr")];
    if "token_endpoint" !in config then Failure(KeyMissing("token_endpoint"))
    else Success(Request(config["token_endpoint"], Form(data), None))
  }

  /** The refresh-token grant. */
  function RefreshRequest(config: Config, refreshToken: string): (r: Result<Request, Failure>)
    ensures r.Failure? <==> FirstMissing(config, ["client_id", "client_secret", "token_endpoint"]).Some?
    ensures r.Failure? ==> r.error == KeyMissing(FirstMissing(config, ["client_id", "client_secret", "token_endpoint"]).value)
    ensures r.Success? <==> "client_id" in config && "client_secret" in config && "token_endpoint" in config
    ensures r.Success? ==>
      && r.value.url == config["token_endpoint"] && r.value.bearer.None? && r.value.body.Form?
      && r.value.body.fields.Keys == {"grant_type", "refresh_token", "client_id", "client_secret"}
      && r.value.body.fields["grant_type"] == Str("refresh_token")
      && r.value.body.fields["refresh_token"] == Str(refreshToken)
      && r.value.body.fields["client_id"] == config["client_id"]
      && r.value.body.fields["client_secret"] == config["client_secret"]
  {
    var missing := FirstMissing(config, ["client_id", "client_secret", "token_endpoint"]);
    if missing.Some? then Failure(KeyMissing(missing.value))
    else
      var keys := ["client_id", "client_secret", "token_endpoint"];
      assert keys[0] in config && keys[1] in config && keys[2] in config;
      Success(Request(config["token_endpoint"], Form(map[
        "grant_type" := Str("refresh_token"),
        "refresh_token" := Str(refreshToken),
        "client_id" := config["client_id"],
        "client_secret" := config["client_secret"]]), None))
  }

  /** The authorization-code grant, carrying the PKCE code_verifier. */
  function AuthorizationCodeRequest(config: Config, code: string, codeVerifier: string): (r: Result<Request, Failure>)
    ensures r.Failure? <==> FirstMissing(config, ["client_id", "client_secret", "redirect_uri", "token_endpoint"]).Some?
    ensures r.Failure? ==>
      r.error == KeyMissing(FirstMissing(config, ["client_id", "client_secret", "redirect_uri", "token_endpoint"]).value)
    ensures r.Success? <==>
      "client_id" in config && "client_secret" in config && "redirect_uri" in config && "token_endpoint" in config
    ensures r.Success? ==>
      && r.value.url == config["token_endpoint"] && r.value.bearer.None? && r.value.body.Form?
      && r.value.body.fields.Keys == {"client_id", "client_secret", "code", "code_verifier", "redirect_uri", "grant_type"}
      && r.value.body.fields["client_id"] == config["client_id"]
      && r.value.body.fields["client_secret"] == config["client_secret"]
      && r.value.body.fields["code"] == Str(code)
      && r.value.body.fields["code_verifier"] == Str(codeVerifier)
      && r.value.body.fields["redirect_uri"] == config["redirect_uri"]
      && r.value.body.fields["grant_type"] == Str("authorization_code")
  {
    var keys := ["client_id", "client_secret", "redirect_uri", "token_endpoint"];
    var missing := FirstMissing(config, keys);
    if missing.Some? then Failure(KeyMissing(missing.value))
    else
      assert keys[0] in config && keys[1] in config && keys[2] in config && keys[3] in config;
      Success(Request(config["token_endpoint"], Form(map[
        "client_id" := config["client_id"],
        "client_secret" := config["client_secret"],
        "code" := Str(code),
        "code_verifier" := Str(codeVerifier),
        "redirect_uri" := config["redirect_uri"],
        "grant_type" := Str("authorization_code")]), None))
  }

  /** The revocation request (the caller has checked revocation_endpoint). */
  function RevocationRequest(config: Config, token: string, tokenTypeHint: string): (r: Result<Request, Failure>)
    requires "revocation_endpoint" in config
    ensures r.Failure? <==> FirstMissing(config, ["client_id", "client_secret"]).Some?
    ensures r.Failure? ==> r.error == KeyMissing(FirstMissing(config, ["client_id", "client_secret"]).value)
    ensures r.Success? <==> "client_id" in config && "client_secret" in config
    ensures r.Success? ==>
      && r.value.url == config["revocation_endpoint"] && r.value.bearer.None? && r.value.body.Form?
      && r.value.body.fields.Keys == {"token", "token_type_hint", "client_id", "client_secret"}
      && r.value.body.fields["token"] == Str(token)
      && r.value.body.fields["token_type_hint"] == Str(tokenTypeHint)
      && r.value.body.fields["client_id"] == config["client_id"]
      && r.value.body.fields["client_secret"] == config["client_secret"]
  {
    var keys := ["client_id", "client_secret"];
    var missing := FirstMissing(config, keys);
    if missing.Some? then Failure(KeyMissing(missing.value))
    else
      assert keys[0] in config && keys[1] in config;
      Success(Request(config["revocation_endpoint"], Form(map[
        "token" := Str(token),
        "token_type_hint" := Str(tokenTypeHint),
        "client_id" := config["client_id"],
        "client_secret" := config["client_secret"]]), None))
  }
}
