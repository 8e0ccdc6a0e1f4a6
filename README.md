# OpenID Connect demo client: configuration, registration and authorization requests

This project models the `Client` class of the Curity OpenID Connect demo
client (`client.py`). It covers two parts:

- the client's configuration and registration state;
- the assembly of its OAuth 2.0 authorization requests.

**Configuration and registration state.** The class `OidcClient.Client` has three fields, which its methods change in place:

- `config`, the settings map;
- `clientData`, the registration record held in memory;
- `registrationFile`, the stored registration record.

The methods model:

- construction: optional discovery from the issuer's well-known document, merged over the settings with last write winning;
- the check for the two mandatory endpoints;
- copying a stored record into the settings;
- the `scope` default;
- dynamic client registration, with or without a client-credentials token;
- `clean_registration`;
- the masking of the client secret;
- the requests to the token and revocation endpoints.

**Authorization requests.** `GetAuthnReqUrl` writes `state`, `code_verifier` and `flow` into the caller's `Session`. It then builds the query parameters of the authorization request (section 4.1.1 of RFC 6749):

- PKCE with the S256 method (sections 4.2 and 4.3 of RFC 7636);
- `prompt`, `acr_values` and `nonce` (section 3.1.2.1 of OpenID Connect Core 1.0);
- `authn_parameters` written over the seven base keys.

It ends by joining the endpoint, a `?` or `&` delimiter and the encoded parameters into the URL.

Each rule is stated once as a function of values in `ConfigRules`, `AuthnRequest` or `TokenRequests`. The methods of `Client` are proved to perform those functions on their fields. Values are JSON as Python holds it after parsing (`Values.Json`, where `Null` is Python's `None`). Each raised exception is a `Failure` value:

- a `KeyError` on a string key becomes `KeyMissing(key)`;
- indexing `redirect_uris` with 0 gives `Malformed`, whatever Python raises for that value;
- a `TypeError` or `IndexError` on a value of the wrong shape becomes `Malformed`;
- the class's own exceptions have their own constructors.

The nonce condition is modelled as the code writes it, `response_type.find("id_token")` being truthy. A nonce is therefore sent for every response type except those that begin with `"id_token"` (`AuthnRequest.WantsNonce`, `AuthnRequest.NonceByResponseType`). The model keeps that behaviour and does not substitute the intent that the name of the test might suggest.

The HTTP transport is a parameter `server: Request -> Option<Json>`, where `None` means the call raised. Methods that post return the request they sent. A `parseOk` flag stands for whether the registration file parsed. The random strings, the S256 transformation and `urllib.urlencode` are parameters too. Python's default arguments become ordinary parameters:

- `token_type_hint="access_token"` for `revoke`;
- `code_challenge_method="plain"` for `__authn_req_args`.

## Model

| member | source | states |
|---|---|---|
| Values.FirstMissing | client.py:144-149 | the key a dict literal indexing the configuration with keys in order raises KeyError for: none exactly when all are present, otherwise a missing key all of whose predecessors are present |
| PyStr.Find | client.py:204 | `str.find`: -1 or an index at which the substring occurs, with no occurrence at any smaller index (none at all when -1) |
| PyStr.FindChar | client.py:207 | finding a one-character string fails exactly when the character is not in the string |
| PyStr.FindIsZero | client.py:204 | `find` returns 0 exactly when the string starts with the substring |
| Http.BearerFor | client.py:281-282 | the Authorization header is added exactly when the token is truthy, and carries that token |
| ConfigRules.DiscoveryRequest | client.py:39 | the discovery URL is the issuer followed by "/.well-known/openid-configuration" |
| ConfigRules.Discovered | client.py:38-47 | without an issuer the settings are unchanged; with one, the result is every setting overwritten by the discovered document's keys (document keys win), and fails when the fetch fails |
| ConfigRules.WithDefaultScope | client.py:59-60 | "scope" is present afterwards; it is "openid" when it was absent and unchanged when present; every other key is kept |
| ConfigRules.LoadCredentials | client.py:62-75 | a missing or unparsable file changes nothing; success exactly when the record is readable, and then client_id, client_secret and redirect_uris[0] are in the settings and the record is held; a failing lookup raises its own error and leaves exactly the copies made before it (none, client_id, or client_id and client_secret), never changes the held record, and other keys are kept |
| ConfigRules.LoadCredentialsTwice | client.py:62-75 | reading the same file a second time changes nothing more |
| ConfigRules.Initialized | client.py:36-60 | construction fails with the authorization-endpoint error, then the token-endpoint error, when either is missing after discovery; succeeds exactly when discovery succeeds, both endpoints are present and the file is readable, and then holds the endpoints, a scope and the stored credentials |
| ConfigRules.NoIssuerNeedsEndpoints | client.py:46-53 | without an issuer, a configuration lacking either endpoint cannot construct a client |
| ConfigRules.RegistrationPayload | client.py:96-106 | the template client's software_id alone, or the demo client's name, its three grant types and the single redirect URI base_url + "/callback"; KeyError when base_url is missing |
| ConfigRules.WithoutCredentials | client.py:127-131 | the supplied configuration without client_id and client_secret, every other key kept with its value |
| ConfigRules.Masked | client.py:237-240 | the record with client_secret replaced by 35 asterisks, every other field kept; raises for a record that is not a dict |
| AuthnRequest.AuthnParameters | client.py:190-191 | no extra parameters when authn_parameters is absent, its entries when it is a dict |
| AuthnRequest.WantsNonce | client.py:204 | a nonce is sent exactly when the response type does not start with "id_token" |
| AuthnRequest.Delimiter | client.py:207 | "&" exactly when the endpoint already contains "?", otherwise "?" |
| AuthnRequest.BaseArgs | client.py:183-189 | the seven base keys with scope, response type, configured client_id and redirect_uri, state, challenge and method "S256" |
| AuthnRequest.WithLateArgs | client.py:193-205 | acr_values only for a truthy acr; "login" when forced; the consent suffix appended to the prompt present by then or to ""; the nonce by the nonce rule; every other key kept |
| AuthnRequest.AuthnRequestArgs | client.py:183-205 | KeyError for client_id, then redirect_uri; the keys are the base keys, the authn_parameters keys and the late keys; authn_parameters win over base keys; the late parameters win over both |
| AuthnRequest.AuthnUrl | client.py:207-208 | the URL is the endpoint, the delimiter, then the encoded parameters; KeyError when the endpoint is missing |
| AuthnRequest.NonceByResponseType | client.py:204-205 | "code", "code id_token" and "token" get a nonce, "id_token" and "id_token token" do not |
| AuthnRequest.CodeFlowRequest | client.py:183-205 | a registered client's code-flow request holds exactly the base keys and a nonce, with the configured client_id and redirect_uri and method S256 |
| AuthnRequest.DelimiterExamples | client.py:207 | an endpoint without a query gets "?", one with a query gets "&" |
| TokenRequests.ClientCredentialsRequest | client.py:250-258 | posts to the token endpoint the DCR credentials with grant_type client_credentials and scope dcr; KeyError when the token endpoint is missing |
| TokenRequests.RefreshRequest | client.py:159-165 | posts grant_type refresh_token, the token and the client credentials to the token endpoint; KeyError for the first missing of client_id, client_secret, token_endpoint |
| TokenRequests.AuthorizationCodeRequest | client.py:219-225 | posts the code, the code_verifier, the credentials, the redirect_uri and grant_type authorization_code to the token endpoint; KeyError for the first missing key, in the literal's order |
| TokenRequests.RevocationRequest | client.py:144-151 | posts the token, its type hint and the client credentials to the revocation endpoint; KeyError for the first missing credential |
| OidcClient.Session.constructor | client.py:168-179 | a session holds the given entries |
| OidcClient.Client.constructor | client.py:28-34 | the client holds the given settings and file and no record |
| OidcClient.Client.Create | client.py:28-34 | construction fails exactly as initialisation does; on success the settings are the initialised ones and the record is cleared |
| OidcClient.Client.InitConfig | client.py:36-60 | the outcome and the new settings are those of the initialisation rule |
| OidcClient.Client.ReadCredentialsFromFile | client.py:62-75 | the outcome, settings and record are those of the loading rule; the file is unchanged |
| OidcClient.Client.Register | client.py:77-120 | no-op without a registration endpoint; refused when client_id is set; raises what obtaining the DCR token raises, then the payload's KeyError, then KeyError for a missing debug in the non-template branch; otherwise posts exactly the registration payload to the registration endpoint, bearing the obtained access_token when it is truthy; a failed post raises and leaves the state unchanged; the reply is stored as record and file, then debug is looked up again and the file is read as the loading rule says |
| OidcClient.Client.CleanRegistration | client.py:122-131 | without a file it raises and changes nothing; otherwise the file is gone, the settings are the supplied ones without the credentials, and no record is held |
| OidcClient.Client.Revoke | client.py:133-151 | does nothing without a revocation endpoint; otherwise sends the revocation request, raising its KeyError or the transport's failure |
| OidcClient.Client.Refresh | client.py:153-166 | sends the refresh request and returns the reply, or the first KeyError, or the transport's failure |
| OidcClient.Client.GetAuthnReqUrl | client.py:168-212 | the session receives state, code_verifier and flow, and the nonce exactly when the arguments were assembled and the nonce rule holds; the result is the authorization URL of the assembled arguments |
| OidcClient.Client.RequestArgs | client.py:183-205 | the step-by-step argument assembly equals the argument rule |
| OidcClient.Client.GetToken | client.py:214-231 | sends the authorization-code request and returns the reply, or the first KeyError, or the transport's failure |
| OidcClient.Client.GetClientData | client.py:233-240 | the file is read first when no record is held; the held record itself is masked and returned; Python's None when there is still no record |
| OidcClient.Client.GetRegistrationToken | client.py:242-265 | raises for a missing dcr_client_id, then dcr_client_secret; sends the client-credentials request and returns the reply's access_token, as the registration token rule says |
| OidcClient.Client.AuthnReqArgs | client.py:287-305 | raises when not registered; the code-flow base keys with the given challenge method, authn_parameters written over them |
| OidcClient.RegistrationToken | client.py:90-94 | no bearer token without both DCR credentials; otherwise the access_token of the client-credentials reply, or the KeyError or transport failure of obtaining it |
| OidcClient.RegisterTwice | client.py:82-88 | once a registration has stored a readable record, a second registration is refused |

## Left out

- The HTTP transport (`__urlopen`, its User-Agent and Accept headers, `urllib2`) is a function parameter. A reply that does not parse as JSON is not modelled.
- The TLS context from `tools.get_ssl_context` is not part of this model, and neither is the `tools` module.
- File I/O (`os.path.isfile`, `open`, `os.remove`, `json.dumps`) is modelled only as the `registrationFile` field. Whether the file parses is the `parseOk` input. A write that fails is not modelled.
- Random strings, SHA-256 with base64url, and `urllib.urlencode` are inputs. The hash and the percent-encoding are not modelled.
- `print` and `tools.print_json` output is left out. The `debug` lookups that precede them are kept.
- The else branch of the discovery check (`if meta_data:`) is not modelled. A response object is always truthy, so that branch is never taken.
- Floating-point JSON numbers are left out. Numbers are integers.
- An `authn_parameters` value or a discovery document that is not a JSON object is modelled as `Malformed`. Python's `dict.update` would also accept a list of pairs.
- Aliasing of the caller's dict is not modelled. `__init__` keeps the caller's configuration dict and mutates it, and `clean_registration` pops keys from the dict it is given. The model copies values instead.
- `OidcClient.Client.GetAuthnReqUrl` delegates the assembly of `request_args` to `RequestArgs`, and writes the nonce into the session after that assembly. Nothing observable happens between the two writes in the source.
