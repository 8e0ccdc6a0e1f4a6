/** The OpenID Connect client: its configuration map, its in-memory
    registration record and the registration file, changed in place by its
    methods, and the caller's session, which the authorization-request builder
    writes into. */
module OidcClient {
  import opened Values
  import opened Http
  import opened PyStr
  import opened ConfigRules
  import opened AuthnRequest
  import opened TokenRequests

  /** The caller-owned session of one authorization attempt. */
  class Session {
    var entries: map<string, Json>

    constructor(entries: map<string, Json>)
      ensures this.entries == entries
    {
      this.entries := entries;
    }
  }

  class Client {
    /** The settings map, enriched by discovery and registration. */
    var config: ConfigRules.Config
    /** The registration record held in memory; `Null` is Python's None. */
    var clientData: Json
    /** The registration file: absent, or the JSON document it holds. */
    var registrationFile: Option<Json>

    constructor(config: ConfigRules.Config, registrationFile: Option<Json>)
      ensures this.config == config && this.clientData == Null && this.registrationFile == registrationFile
    {
      this.config := config;
      this.clientData := Null;
      this.registrationFile := registrationFile;
    }

    /** Construction: the settings are taken, initialised, and the in-memory
        record is then cleared, so a record read during construction is left
        only in the configuration. Raises what initialisation raises. */
    static method Create(config: ConfigRules.Config, registrationFile: Option<Json>, server: Transport, parseOk: bool)
      returns (r: Result<Client, Failure>)
      ensures r.Success? <==> Initialized(config, registrationFile, server, parseOk).Success?
      ensures r.Failure? ==> r.error == Initialized(config, registrationFile, server, parseOk).error
      ensures r.Success? ==>
        && fresh(r.value)
        && r.value.config == Initialized(config, registrationFile, server, parseOk).value
        && r.value.clientData == Null
        && r.value.registrationFile == registrationFile
    {
      var client := new Client(config, registrationFile);
      var o := client.InitConfig(server, parseOk);
      if o.Fail? {
        return Failure(o.error);
      }
      client.clientData := Null;
      r := Success(client);
    }

    /** Discovery, the mandatory endpoints, the stored record, the scope
        default. What a failure leaves behind is not observable: construction
        raises. */
    method InitConfig(server: Transport, parseOk: bool) returns (o: Outcome<Failure>)
      modifies this
      ensures registrationFile == old(registrationFile)
      ensures o.Pass? <==> Initialized(old(config), registrationFile, server, parseOk).Success?
      ensures o.Fail? ==> o.error == Initialized(old(config), registrationFile, server, parseOk).error
      ensures o.Pass? ==>
        && config == Initialized(old(config), registrationFile, server, parseOk).value
        && clientData == LoadCredentials(Discovered(old(config), server).value, old(clientData), registrationFile, parseOk).clientData
    {
      var discovered := Discovered(config, server);
      if discovered.Failure? {
        return Fail(discovered.error);
      }
      config := discovered.value;
      if "authorization_endpoint" !in config {
        return Fail(EndpointNotSet("authorization_endpoint"));
      }
      if "token_endpoint" !in config {
        return Fail(EndpointNotSet("token_endpoint"));
      }
      o := ReadCredentialsFromFile(parseOk);
      assert LoadCredentials(discovered.value, old(clientData), registrationFile, parseOk).config
          == LoadCredentials(discovered.value, Null, registrationFile, parseOk).config;
      if o.Fail? {
        return;
      }
      config := WithDefaultScope(config);
    }

    /** Reads the registration file into the configuration and the in-memory
        record. */
    method ReadCredentialsFromFile(parseOk: bool) returns (o: Outcome<Failure>)
      modifies this
      ensures registrationFile == old(registrationFile)
      ensures Loaded(o, config, clientData) == LoadCredentials(old(config), old(clientData), registrationFile, parseOk)
    {
      if registrationFile.None? {
        return Pass;
      }
      if !parseOk {
        return Pass;
      }
      var registeredClient := registrationFile.value;
      var clientId := Lookup(registeredClient, "client_id");
      if clientId.Failure? {
        return Fail(clientId.error);
      }
      config := config["client_id" := clientId.value];
      var clientSecret := Lookup(registeredClient, "client_secret");
      if clientSecret.Failure? {
        return Fail(clientSecret.error);
      }
      config := config["client_secret" := clientSecret.value];
      var redirectUris := Lookup(registeredClient, "redirect_uris");
      if redirectUris.Failure? {
        return Fail(redirectUris.error);
      }
      var first := FirstItem(redirectUris.value);
      if first.Failure? {
        return Fail(first.error);
      }
      config := config["redirect_uri" := first.value];
      clientData := registeredClient;
      o := Pass;
    }

    /** Dynamic client registration. `sent` lists the requests posted, in
        order; `reply` is the registration endpoint's answer when it came. */
    method Register(server: Transport, parseOk: bool) returns (sent: seq<Request>, o: Outcome<Failure>, ghost reply: Option<Json>)
      modifies this
      ensures "registration_endpoint" !in old(config) ==> o == Pass && sent == [] && reply.None?
      ensures "registration_endpoint" in old(config) && "client_id" in old(config) ==>
        o == Fail(AlreadyRegistered) && sent == [] && reply.None?
      ensures reply.None? ==>
        config == old(config) && clientData == old(clientData) && registrationFile == old(registrationFile)
      ensures reply.None? && "registration_endpoint" in old(config) ==> o.Fail?
      ensures "registration_endpoint" in old(config) && "client_id" !in old(config)
              && RegistrationToken(old(config), server).Failure? ==>
        o == Fail(RegistrationToken(old(config), server).error) && reply.None?
      ensures "registration_endpoint" in old(config) && "client_id" !in old(config)
              && RegistrationToken(old(config), server).Success? && RegistrationPayload(old(config)).Failure? ==>
        o == Fail(RegistrationPayload(old(config)).error) && reply.None?
      ensures "registration_endpoint" in old(config) && "client_id" !in old(config)
              && RegistrationToken(old(config), server).Success? && RegistrationPayload(old(config)).Success?
              && "template_client" !in old(config) && "debug" !in old(config) ==>
        o == Fail(KeyMissing("debug")) && reply.None?
      ensures "registration_endpoint" in old(config) && "client_id" !in old(config)
              && RegistrationToken(old(config), server).Success? && RegistrationPayload(old(config)).Success?
              && ("template_client" in old(config) || "debug" in old(config)) ==>
        && |sent| == (if DcrConfigured(old(config)) then 2 else 1)
        && sent[|sent| - 1] == Request(old(config)["registration_endpoint"],
                                       JsonBody(RegistrationPayload(old(config)).value),
                                       BearerFor(RegistrationToken(old(config), server).value))
        && reply == server(sent[|sent| - 1])
        && (reply.None? ==> o == Fail(TransportFailed))
      ensures reply.Some? ==>
        && "registration_endpoint" in old(config) && "client_id" !in old(config)
        && RegistrationToken(old(config), server).Success? && RegistrationPayload(old(config)).Success?
        && registrationFile == reply
      ensures reply.Some? && DcrConfigured(old(config)) ==>
        ClientCredentialsRequest(old(config)) == Success(sent[0])
      ensures reply.Some? && "debug" !in old(config) ==>
        o == Fail(KeyMissing("debug")) && config == old(config) && clientData == reply.value
      ensures reply.Some? && "debug" in old(config) ==>
        Loaded(o, config, clientData) == LoadCredentials(old(config), reply.value, reply, parseOk)
    {
      sent, reply := [], None;
      if "registration_endpoint" !in config {
        return sent, Pass, reply;
      }
      if "client_id" in config {
        return sent, Fail(AlreadyRegistered), reply;
      }
      var dcrAccessToken := Null;
      if "dcr_client_id" in config && "dcr_client_secret" in config {
        var tokenRequest, token := GetRegistrationToken(server);
        if tokenRequest.Some? {
          sent := sent + [tokenRequest.value];
        }
        if token.Failure? {
          return sent, Fail(token.error), reply;
        }
        dcrAccessToken := token.value;
      }
      var data := RegistrationPayload(config);
      if data.Failure? {
        return sent, Fail(data.error), reply;
      }
      if "template_client" !in config && "debug" !in config {
        return sent, Fail(KeyMissing("debug")), reply;
      }
      var request := Request(config["registration_endpoint"], JsonBody(data.value), BearerFor(dcrAccessToken));
      sent := sent + [request];
      var registerResponse := server(request);
      if registerResponse.None? {
        return sent, Fail(TransportFailed), reply;
      }
      reply := registerResponse;
      clientData := registerResponse.value;
      registrationFile := Some(clientData);
      if "debug" !in config {
        return sent, Fail(KeyMissing("debug")), reply;
      }
      o := ReadCredentialsFromFile(parseOk);
    }

    /** Deletes the registration file (raising when there is none), then
        replaces the configuration by the supplied one without the client
        credentials and forgets the in-memory record. */
    method CleanRegistration(newConfig: ConfigRules.Config) returns (o: Outcome<Failure>)
      modifies this
      ensures old(registrationFile).None? ==>
        o == Fail(RemoveFailed) && config == old(config) && clientData == old(clientData) && registrationFile.None?
      ensures old(registrationFile).Some? ==>
        o == Pass && registrationFile.None? && config == WithoutCredentials(newConfig) && clientData == Null
    {
      if registrationFile.None? {
        return Fail(RemoveFailed);
      }
      registrationFile := None;
      clientData := Null;
      config := WithoutCredentials(newConfig);
      o := Pass;
    }

    /** Revokes a token; without a revocation endpoint nothing is sent. The
        reply is discarded. */
    method Revoke(token: string, tokenTypeHint: string, server: Transport) returns (sent: Option<Request>, o: Outcome<Failure>)
      ensures "revocation_endpoint" !in config ==> sent.None? && o == Pass
      ensures "revocation_endpoint" in config ==>
        && (RevocationRequest(config, token, tokenTypeHint).Failure? ==>
              sent.None? && o == Fail(RevocationRequest(config, token, tokenTypeHint).error))
        && (RevocationRequest(config, token, tokenTypeHint).Success? ==>
              sent == Some(RevocationRequest(config, token, tokenTypeHint).value))
      ensures sent.Some? ==> (o.Pass? <==> server(sent.value).Some?)
      ensures sent.Some? && o.Fail? ==> o.error == TransportFailed
    {
      if "revocation_endpoint" !in config {
        return None, Pass;
      }
      var data := RevocationRequest(config, token, tokenTypeHint);
      if data.Failure? {
        return None, Fail(data.error);
      }
      sent := Some(data.value);
      var response := server(data.value);
      o := if response.None? then Fail(TransportFailed) else Pass;
    }

    /** Exchanges a refresh token; returns the token endpoint's reply. */
    method Refresh(refreshToken: string, server: Transport) returns (sent: Option<Request>, r: Result<Json, Failure>)
      ensures RefreshRequest(config, refreshToken).Failure? ==>
        sent.None? && r == Failure(RefreshRequest(config, refreshToken).error)
      ensures RefreshRequest(config, refreshToken).Success? ==>
        sent == Some(RefreshRequest(config, refreshToken).value)
      ensures sent.Some? ==> (r.Success? <==> server(sent.value).Some?)
      ensures sent.Some? && r.Success? ==> server(sent.value) == Some(r.value)
      ensures sent.Some? && r.Failure? ==> r.error == TransportFailed
    {
      var data := RefreshRequest(config, refreshToken);
      if data.Failure? {
        return None, Failure(data.error);
      }
      sent := Some(data.value);
      var tokenResponse := server(data.value);
      r := if tokenResponse.None? then Failure(TransportFailed) else Success(tokenResponse.value);
    }

    /** Builds the authorization URL. The session receives state,
        code_verifier and flow first, and the nonce when one is sent; the
        random strings, the S256 transformation and the URL encoding are
        inputs. */
    method GetAuthnReqUrl(session: Session, acr: Json, forceAuthN: bool, scope: Json, forceConsent: bool,
                          allowConsentOptionDeselection: bool, responseType: string,
                          state: string, codeVerifier: string, nonce: string,
                          s256: string -> string, urlencode: Params -> string)
      returns (r: Result<string, Failure>)
      modifies session
      ensures r == AuthnUrl(config, AuthnRequestArgs(config, scope, responseType, state, s256(codeVerifier), acr, forceAuthN,
                                                     forceConsent, allowConsentOptionDeselection, nonce), urlencode)
      ensures
        var args := AuthnRequestArgs(config, scope, responseType, state, s256(codeVerifier), acr, forceAuthN,
                                     forceConsent, allowConsentOptionDeselection, nonce);
        var stamped := old(session.entries)["state" := Str(state)]["code_verifier" := Str(codeVerifier)]["flow" := Str(responseType)];
        session.entries == if args.Success? && WantsNonce(responseType) then stamped["nonce" := Str(nonce)] else stamped
    {
      session.entries := session.entries["state" := Str(state)];
      session.entries := session.entries["code_verifier" := Str(codeVerifier)];
      session.entries := session.entries["flow" := Str(responseType)];
      var codeChallenge := s256(codeVerifier);
      var requestArgs := RequestArgs(scope, responseType, state, codeChallenge, acr, forceAuthN, forceConsent,
                                     allowConsentOptionDeselection, nonce);
      if requestArgs.Failure? {
        return Failure(requestArgs.error);
      }
      if Find(responseType, "id_token") != 0 {
        session.entries := session.entries["nonce" := Str(nonce)];
      }
      if "authorization_endpoint" !in config {
        return Failure(KeyMissing("authorization_endpoint"));
      }
      var endpoint := config["authorization_endpoint"];
      if !endpoint.Str? {
        return Failure(Malformed);
      }
      var delimiter := Delimiter(endpoint.s);
      r := Success(endpoint.s + delimiter + urlencode(requestArgs.value));
    }

    /** The query parameters of the authorization URL, assembled one step at a
        time: the seven base keys, `authn_parameters` over them, then
        acr_values, the login and consent prompts and the nonce. */
    method RequestArgs(scope: Json, responseType: string, state: string, codeChallenge: string, acr: Json,
                       forceAuthN: bool, forceConsent: bool, allowConsentOptionDeselection: bool, nonce: string)
      returns (r: Result<Params, Failure>)
      ensures r == AuthnRequestArgs(config, scope, responseType, state, codeChallenge, acr, forceAuthN,
                                    forceConsent, allowConsentOptionDeselection, nonce)
    {
      if "client_id" !in config {
        return Failure(KeyMissing("client_id"));
      }
      if "redirect_uri" !in config {
        return Failure(KeyMissing("redirect_uri"));
      }
      var requestArgs := map[
        "scope" := scope,
        "response_type" := Str(responseType),
        "client_id" := config["client_id"],
        "state" := Str(state),
        "code_challenge" := Str(codeChallenge),
        "code_challenge_method" := Str("S256"),
        "redirect_uri" := config["redirect_uri"]];
      assert requestArgs == BaseArgs(config, scope, responseType, state, codeChallenge);
      if "authn_parameters" in config {
        if !config["authn_parameters"].Obj? {
          return Failure(Malformed);
        }
        requestArgs := requestArgs + config["authn_parameters"].fields;
      } else {
        assert requestArgs == requestArgs + AuthnParameters(config).value;
      }
      ghost var merged := requestArgs;
      assert WithLateArgs(merged, acr, forceAuthN, forceConsent, allowConsentOptionDeselection, responseType, nonce)
          == AuthnRequestArgs(config, scope, responseType, state, codeChallenge, acr, forceAuthN,
                              forceConsent, allowConsentOptionDeselection, nonce);
      if Truthy(acr) {
        requestArgs := requestArgs["acr_values" := acr];
      }
      if forceAuthN {
        requestArgs := requestArgs["prompt" := Str("login")];
      }
      if forceConsent {
        var prompt := if "prompt" in requestArgs then requestArgs["prompt"] else Str("");
        if !prompt.Str? {
          return Failure(Malformed);
        }
        requestArgs := requestArgs["prompt" := Str(prompt.s + ConsentSuffix(allowConsentOptionDeselection))];
      }
      if Find(responseType, "id_token") != 0 {
        requestArgs := requestArgs["nonce" := Str(nonce)];
      }
      r := Success(requestArgs);
    }

    /** Exchanges an authorization code and its PKCE verifier for tokens;
        returns the token endpoint's reply. */
    method GetToken(code: string, codeVerifier: string, server: Transport) returns (sent: Option<Request>, r: Result<Json, Failure>)
      ensures AuthorizationCodeRequest(config, code, codeVerifier).Failure? ==>
        sent.None? && r == Failure(AuthorizationCodeRequest(config, code, codeVerifier).error)
      ensures AuthorizationCodeRequest(config, code, codeVerifier).Success? ==>
        sent == Some(AuthorizationCodeRequest(config, code, codeVerifier).value)
      ensures sent.Some? ==> (r.Success? <==> server(sent.value).Some?)
      ensures sent.Some? && r.Success? ==> server(sent.value) == Some(r.value)
      ensures sent.Some? && r.Failure? ==> r.error == TransportFailed
    {
      var data := AuthorizationCodeRequest(config, code, codeVerifier);
      if data.Failure? {
        return None, Failure(data.error);
      }
      sent := Some(data.value);
      var tokenResponse := server(data.value);
      r := if tokenResponse.None? then Failure(TransportFailed) else Success(tokenResponse.value);
    }

    /** The registration record for display, with its secret masked in the
        record itself; the file is read first when no record is held. `Null`
        is Python's None, returned when there is still no record. */
    method GetClientData(parseOk: bool) returns (r: Result<Json, Failure>)
      modifies this
      ensures registrationFile == old(registrationFile)
      ensures
        var loaded := if Truthy(old(clientData)) then Loaded(Pass, old(config), old(clientData))
                      else LoadCredentials(old(config), old(clientData), registrationFile, parseOk);
        && config == loaded.config
        && (loaded.outcome.Fail? ==> r == Failure(loaded.outcome.error) && clientData == loaded.clientData)
        && (loaded.outcome.Pass? && !Truthy(loaded.clientData) ==> r == Success(Null) && clientData == loaded.clientData)
        && (loaded.outcome.Pass? && Truthy(loaded.clientData) ==>
              r == Masked(loaded.clientData)
              && clientData == (if r.Success? then r.value else loaded.clientData))
    {
      if !Truthy(clientData) {
        var o := ReadCredentialsFromFile(parseOk);
        if o.Fail? {
          return Failure(o.error);
        }
      }
      if Truthy(clientData) {
        var masked := Masked(clientData);
        if masked.Failure? {
          return masked;
        }
        clientData := masked.value;
        return masked;
      }
      r := Success(Null);
    }

    /** Obtains a registration access token by the client-credentials grant;
        raises when either DCR credential is missing. Returns the reply's
        access_token. */
    method GetRegistrationToken(server: Transport) returns (sent: Option<Request>, r: Result<Json, Failure>)
      ensures "dcr_client_id" !in config ==> sent.None? && r == Failure(DcrCredentialMissing("dcr_client_id"))
      ensures "dcr_client_id" in config && "dcr_client_secret" !in config ==>
        sent.None? && r == Failure(DcrCredentialMissing("dcr_client_secret"))
      ensures DcrConfigured(config) && ClientCredentialsRequest(config).Failure? ==>
        sent.None? && r == Failure(ClientCredentialsRequest(config).error)
      ensures DcrConfigured(config) && ClientCredentialsRequest(config).Success? ==>
        sent == Some(ClientCredentialsRequest(config).value)
      ensures sent.Some? && server(sent.value).None? ==> r == Failure(TransportFailed)
      ensures sent.Some? && server(sent.value).Some? ==> r == Lookup(server(sent.value).value, "access_token")
      ensures DcrConfigured(config) ==> r == RegistrationToken(config, server)
    {
      if "dcr_client_id" !in config {
        return None, Failure(DcrCredentialMissing("dcr_client_id"));
      }
      if "dcr_client_secret" !in config {
        return None, Failure(DcrCredentialMissing("dcr_client_secret"));
      }
      var data := ClientCredentialsRequest(config);
      if data.Failure? {
        return None, Failure(data.error);
      }
      sent := Some(data.value);
      var tokenResponse := server(data.value);
      if tokenResponse.None? {
        return sent, Failure(TransportFailed);
      }
      r := Lookup(tokenResponse.value, "access_token");
    }

    /** The unused helper that assembles authorization arguments for the code
        flow with a given PKCE method (the source's default is "plain"):
        raises when the client is not registered. */
    method AuthnReqArgs(state: Json, scope: Json, codeChallenge: Json, codeChallengeMethod: Json)
      returns (r: Result<Params, Failure>)
      ensures "client_id" !in config ==> r == Failure(NotRegistered)
      ensures "client_id" in config && "redirect_uri" !in config ==> r == Failure(KeyMissing("redirect_uri"))
      ensures "client_id" in config && "redirect_uri" in config && AuthnParameters(config).Failure? ==>
        r == Failure(Malformed)
      ensures r.Success? <==> "client_id" in config && "redirect_uri" in config && AuthnParameters(config).Success?
      ensures r.Success? ==>
        var extra := AuthnParameters(config).value;
        && r.value.Keys == BaseKeys + extra.Keys
        && (forall k :: k in extra ==> r.value[k] == extra[k])
        && ("scope" !in extra ==> r.value["scope"] == scope)
        && ("response_type" !in extra ==> r.value["response_type"] == Str("code"))
        && ("client_id" !in extra ==> r.value["client_id"] == config["client_id"])
        && ("state" !in extra ==> r.value["state"] == state)
        && ("code_challenge" !in extra ==> r.value["code_challenge"] == codeChallenge)
        && ("code_challenge_method" !in extra ==> r.value["code_challenge_method"] == codeChallengeMethod)
        && ("redirect_uri" !in extra ==> r.value["redirect_uri"] == config["redirect_uri"])
    {
      if "client_id" !in config {
        return Failure(NotRegistered);
      }
      if "redirect_uri" !in config {
        return Failure(KeyMissing("redirect_uri"));
      }
      var args := map[
        "scope" := scope,
        "response_type" := Str("code"),
        "client_id" := config["client_id"],
        "state" := state,
        "code_challenge" := codeChallenge,
        "code_challenge_method" := codeChallengeMethod,
        "redirect_uri" := config["redirect_uri"]];
      if "authn_parameters" in config {
        if !config["authn_parameters"].Obj? {
          return Failure(Malformed);
        }
        args := args + config["authn_parameters"].fields;
      }
      r := Success(args);
    }
  }

  /** The token registration presents as its bearer: none (`Null`) without
      DCR credentials, otherwise the access_token of the client-credentials
      reply, or what obtaining it raises. */
  function RegistrationToken(config: ConfigRules.Config, server: Transport): (r: Result<Json, Failure>)
    ensures !DcrConfigured(config) ==> r == Success(Null)
    ensures DcrConfigured(config) && r.Success? ==>
      && ClientCredentialsRequest(config).Success?
      && server(ClientCredentialsRequest(config).value).Some?
      && Lookup(server(ClientCredentialsRequest(config).value).value, "access_token") == r
    ensures (DcrConfigured(config) && ClientCredentialsRequest(config).Success?
             && server(ClientCredentialsRequest(config).value).None?) ==> r == Failure(TransportFailed)
  {
    if !DcrConfigured(config) then Success(Null)
    else
      var request := ClientCredentialsRequest(config);
      if request.Failure? then Failure(request.error)
      else
        var reply := server(request.value);
        if reply.None? then Failure(TransportFailed) else Lookup(reply.value, "access_token")
  }

  /** A second registration is refused once the first has stored a readable
      record. */
  method RegisterTwice(client: Client, server: Transport, parseOk: bool)
    returns (first: Outcome<Failure>, second: Outcome<Failure>)
    requires "registration_endpoint" in client.config
    modifies client
    ensures first.Pass? && parseOk ==> second == Fail(AlreadyRegistered)
  {
    var sent;
    ghost var reply;
    sent, first, reply := client.Register(server, parseOk);
    sent, second, reply := client.Register(server, parseOk);
  }
}
