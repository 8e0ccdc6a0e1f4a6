/** The rules by which the client builds and changes its configuration map and
    its registration record: discovery, the mandatory endpoints, the scope
    default, copying a stored registration record, the registration payload,
    the reset and the masking of the secret. Each is a function of values; the
    methods of `OidcClient.Client` perform them in place. */
module ConfigRules {
  import opened Values
  import opened Http

  type Config = map<string, Json>

  const WellKnownSuffix := "/.well-known/openid-configuration"
  const DefaultScope := "openid"
  const DemoClientName := "OpenID Connect Demo"
  const CallbackPath := "/callback"
  /** Thirty-five asterisks shown in place of the client secret. */
  const SecretMask := "***********************************"

  /** The three configuration keys a stored registration record sets. */
  const CredentialKeys: set<string> := {"client_id", "client_secret", "redirect_uri"}

  // ---------------------------------------------------------------- discovery

  /** The GET of the issuer's discovery document; the issuer must be a string. */
  function DiscoveryRequest(issuer: Json): (r: Result<Request, Failure>)
    ensures r.Success? <==> issuer.Str?
    ensures r.Success? ==> r.value.url == Str(issuer.s + WellKnownSuffix) && r.value.body == NoBody
  {
    if issuer.Str? then Success(Request(Str(issuer.s + WellKnownSuffix), NoBody, None))
    else Failure(Malformed)
  }

  /** The configuration after the optional discovery step: without an issuer it
      is unchanged; with one, every key of the returned document is written over
      the configuration (last write wins). */
  function Discovered(config: Config, server: Transport): (r: Result<Config, Failure>)
    ensures "issuer" !in config ==> r == Success(config)
    ensures "issuer" in config ==>
      (r.Success? <==>
        DiscoveryRequest(config["issuer"]).Success?
        && server(DiscoveryRequest(config["issuer"]).value).Some?
        && server(DiscoveryRequest(config["issuer"]).value).value.Obj?)
    ensures "issuer" in config && r.Success? ==>
      var doc := server(DiscoveryRequest(config["issuer"]).value).value.fields;
      && r.value.Keys == config.Keys + doc.Keys
      && (forall k :: k in doc ==> r.value[k] == doc[k])
      && (forall k :: k in config && k !in doc ==> r.value[k] == config[k])
  {
    if "issuer" !in config then Success(config)
    else
      var request := DiscoveryRequest(config["issuer"]);
      if request.Failure? then Failure(request.error)
      else
        var reply := server(request.value);
        if reply.None? then Failure(TransportFailed)
        else if !reply.value.Obj? then Failure(Malformed)
        else Success(config + reply.value.fields)
  }

  predicate HasEndpoints(config: Config) {
    "authorization_endpoint" in config && "token_endpoint" in config
  }

  // ------------------------------------------------------------ scope default

  /** `scope` defaults to "openid"; a configured scope is left as it is. */
  function WithDefaultScope(config: Config): (r: Config)
    ensures "scope" in r
    ensures "scope" in config ==> r == config
    ensures "scope" !in config ==> r["scope"] == Str(DefaultScope)
    ensures r.Keys == config.Keys + {"scope"}
    ensures forall k :: k in config ==> r[k] == config[k]
  {
    if "scope" in config then config else config["scope" := Str(DefaultScope)]
  }

  // ------------------------------------------------------- registration record

  /** A record from which all three credentials can be read without raising. */
  predicate Readable(rec: Json) {
    && Lookup(rec, "client_id").Success?
    && Lookup(rec, "client_secret").Success?
    && Lookup(rec, "redirect_uris").Success?
    && FirstItem(Lookup(rec, "redirect_uris").value).Success?
  }

  /** The configuration carries the record's client_id, client_secret and the
      first of its redirect_uris. */
  predicate HoldsCredentials(config: Config, rec: Json) {
    && "client_id" in config && "client_secret" in config && "redirect_uri" in config
    && Lookup(rec, "client_id") == Success(config["client_id"])
    && Lookup(rec, "client_secret") == Success(config["client_secret"])
    && Lookup(rec, "redirect_uris").Success?
    && FirstItem(Lookup(rec, "redirect_uris").value) == Success(config["redirect_uri"])
  }

  /** What reading the registration file leaves behind: the outcome, the
      configuration and the in-memory record. */
  datatype Loaded = Loaded(outcome: Outcome<Failure>, config: Config, clientData: Json)

  /** Reading the registration file. A missing or unparsable file changes
      nothing and raises nothing; a parsed record's three credentials are copied
      into the configuration one by one, so a lookup that raises leaves the
      copies made before it; only a fully read record becomes the in-memory
      record. */
  function LoadCredentials(config: Config, clientData: Json, file: Option<Json>, parseOk: bool): (r: Loaded)
    ensures file.None? || !parseOk ==> r == Loaded(Pass, config, clientData)
    ensures r.outcome.Pass? <==> file.None? || !parseOk || Readable(file.value)
    ensures r.outcome.Pass? && file.Some? && parseOk ==>
      HoldsCredentials(r.config, file.value) && r.clientData == file.value
      && r.config.Keys == config.Keys + CredentialKeys
    ensures r.outcome.Fail? ==> r.clientData == clientData
    ensures file.Some? && parseOk && Lookup(file.value, "client_id").Failure? ==>
      r == Loaded(Fail(Lookup(file.value, "client_id").error), config, clientData)
    ensures file.Some? && parseOk && Lookup(file.value, "client_id").Success?
            && Lookup(file.value, "client_secret").Failure? ==>
      r == Loaded(Fail(Lookup(file.value, "client_secret").error),
                  config["client_id" := Lookup(file.value, "client_id").value], clientData)
    ensures file.Some? && parseOk && Lookup(file.value, "client_id").Success?
            && Lookup(file.value, "client_secret").Success? && !Readable(file.value) ==>
      && r.outcome.Fail?
      && r.config == config["client_id" := Lookup(file.value, "client_id").value]
                           ["client_secret" := Lookup(file.value, "client_secret").value]
    ensures config.Keys <= r.config.Keys
    ensures forall k :: k in config && k !in CredentialKeys ==> r.config[k] == config[k]
  {
    if file.None? || !parseOk then Loaded(Pass, config, clientData)
    else
      var rec := file.value;
      var id := Lookup(rec, "client_id");
      if id.Failure? then Loaded(Fail(id.error), config, clientData)
      else
        var withId := config["client_id" := id.value];
        var secret := Lookup(rec, "client_secret");
        if secret.Failure? then Loaded(Fail(secret.error), withId, clientData)
        else
          var withSecret := withId["client_secret" := secret.value];
          var uris := Lookup(rec, "redirect_uris");
          if uris.Failure? then Loaded(Fail(uris.error), withSecret, clientData)
          else
            var first := FirstItem(uris.value);
            if first.Failure? then Loaded(Fail(first.error), withSecret, clientData)
            else Loaded(Pass, withSecret["redirect_uri" := first.value], rec)
  }

  /** Reading the same file a second time changes nothing more. */
  lemma {:induction false} LoadCredentialsTwice(config: Config, clientData: Json, file: Option<Json>, parseOk: bool)
    ensures
      var once := LoadCredentials(config, clientData, file, parseOk);
      LoadCredentials(once.config, once.clientData, file, parseOk) == once
  {
    var once := LoadCredentials(config, clientData, file, parseOk);
    if file.Some? && parseOk && once.outcome.Pass? {
      var twice := LoadCredentials(once.config, once.clientData, file, parseOk);
      assert twice.config.Keys == once.config.Keys;
      assert forall k :: k in twice.config ==> twice.config[k] == once.config[k];
    }
  }

  // ------------------------------------------------------------- construction

  /** The configuration a successfully constructed client holds, or the
      failure construction raises: discovery, then the two mandatory endpoints
      (authorization first), then the stored record, then the scope default. */
  function Initialized(config: Config, file: Option<Json>, server: Transport, parseOk: bool): (r: Result<Config, Failure>)
    ensures r.Success? ==> HasEndpoints(r.value) && "scope" in r.value
    ensures Discovered(config, server).Success? && "authorization_endpoint" !in Discovered(config, server).value ==>
      r == Failure(EndpointNotSet("authorization_endpoint"))
    ensures
      (Discovered(config, server).Success? && "authorization_endpoint" in Discovered(config, server).value
       && "token_endpoint" !in Discovered(config, server).value) ==>
      r == Failure(EndpointNotSet("token_endpoint"))
    ensures r.Success? <==>
      && Discovered(config, server).Success?
      && HasEndpoints(Discovered(config, server).value)
      && (file.None? || !parseOk || Readable(file.value))
    ensures r.Success? && file.Some? && parseOk ==> HoldsCredentials(r.value, file.value)
  {
    var discovered := Discovered(config, server);
    if discovered.Failure? then Failure(discovered.error)
    else if "authorization_endpoint" !in discovered.value then Failure(EndpointNotSet("authorization_endpoint"))
    else if "token_endpoint" !in discovered.value then Failure(EndpointNotSet("token_endpoint"))
    else
      var loaded := LoadCredentials(discovered.value, Null, file, parseOk);
      if loaded.outcome.Fail? then Failure(loaded.outcome.error)
      else Success(WithDefaultScope(loaded.config))
  }

  /** Without an issuer nothing is discovered, so a configuration that lacks
      either mandatory endpoint cannot construct a client. */
  lemma {:induction false} NoIssuerNeedsEndpoints(config: Config, file: Option<Json>, server: Transport, parseOk: bool)
    requires "issuer" !in config && !HasEndpoints(config)
    ensures Initialized(config, file, server, parseOk).Failure?
    ensures Initialized(config, file, server, parseOk).error.EndpointNotSet?
  {
    assert Discovered(config, server) == Success(config);
  }

  // ------------------------------------------------------------- registration

  /** The registration request body: the template client's software_id when one
      is configured, otherwise the demo client's name, its three grant types
      and the single redirect URI base_url + "/callback". */
  function RegistrationPayload(config: Config): (r: Result<Json, Failure>)
    ensures "template_client" in config ==>
      r.Success? && r.value.Obj? && r.value.fields.Keys == {"software_id"}
      && r.value.fields["software_id"] == config["template_client"]
    ensures "template_client" !in config ==>
      (r.Success? <==> "base_url" in config && config["base_url"].Str?)
    ensures "template_client" !in config && "base_url" !in config ==> r == Failure(KeyMissing("base_url"))
    ensures "template_client" !in config && r.Success? ==>
      && r.value.Obj?
      && r.value.fields.Keys == {"client_name", "grant_types", "redirect_uris"}
      && r.value.fields["client_name"] == Str(DemoClientName)
      && r.value.fields["grant_types"] == Arr([Str("implicit"), Str("authorization_code"), Str("refresh_token")])
      && r.value.fields["redirect_uris"] == Arr([Str(config["base_url"].s + CallbackPath)])
  {
    if "template_client" in config then
      Success(Obj(map["software_id" := config["template_client"]]))
    else if "base_url" !in config then
      Failure(KeyMissing("base_url"))
    else if !config["base_url"].Str? then
      Failure(Malformed)
    else
      Success(Obj(map[
        "client_name" := Str(DemoClientName),
        "grant_types" := Arr([Str("implicit"), Str("authorization_code"), Str("refresh_token")]),
        "redirect_uris" := Arr([Str(config["base_url"].s + CallbackPath)])]))
  }

  /** Both DCR credentials are configured, so registration first obtains a
      client-credentials token. */
  predicate DcrConfigured(config: Config) {
    "dcr_client_id" in config && "dcr_client_secret" in config
  }

  /** The replacement configuration of `clean_registration`: the supplied one
      without client_id and client_secret, every other key kept. */
  function WithoutCredentials(config: Config): (r: Config)
    ensures r.Keys == config.Keys - {"client_id", "client_secret"}
    ensures forall k :: k in r ==> r[k] == config[k]
  {
    config - {"client_id", "client_secret"}
  }

  /** The record shown for display: a dict with client_secret replaced by the
      mask (added when absent); any other value raises. */
  function Masked(rec: Json): (r: Result<Json, Failure>)
    ensures r.Success? <==> rec.Obj?
    ensures r.Success? ==>
      && r.value.Obj?
      && r.value.fields.Keys == rec.fields.Keys + {"client_secret"}
      && r.value.fields["client_secret"] == Str(SecretMask)
      && (forall k :: k in rec.fields && k != "client_secret" ==> r.value.fields[k] == rec.fields[k])
  {
    if rec.Obj? then Success(Obj(rec.fields["client_secret" := Str(SecretMask)])) else Failure(Malformed)
  }
}
