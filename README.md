# API-key authentication handler

A Dafny model of the gateway's API-key authentication handler
(`ApiKeyAuthenticationHandler`). The handler is one of several authentication
handlers competing for a request. It:

- extracts an API key from the request: the configured header
  (default `X-Gravitee-Api-Key`) first, and, when that header is missing or
  empty, the configured query parameter (default `api-key`);
- decides whether the plan under evaluation (the authentication context) may
  claim the request, asking the API-key repository which plan the key is bound
  to, and failing open when the repository is missing, the context is missing,
  the key is unknown, or the lookup fails with a technical exception;
- contributes the single policy `api-key` once selected, under the name
  `api_key` and order `500`.

Everything is modelled as pure functions in one module, `ApiKeyAuthentication`
(file `api_key_authentication.dfy`). The handler's configuration is a value
`Handler(header, queryParameter, repository)`; the repository is an
`Option` of a lookup function from key to `Found(plan) | NotFound | TechError`,
the authentication context an `Option<AuthenticationContext>`, and a request
two maps (first header value by name, first query-parameter value by name).

The emptiness test applies to the header only. An empty query-parameter value
(`?api-key=`) is still an extracted key and goes on to the plan decision
(`EmptyParameterIsAKey`).

## Model

| member | source | states |
|---|---|---|
| ApiKeyAuthentication.DefaultHandler | gravitee-gateway-security/gravitee-gateway-security-apikey/src/main/java/io/gravitee/gateway/security/apikey/ApiKeyAuthenticationHandler.java:54-58 | the default header name is `X-Gravitee-Api-Key` and the default query parameter `api-key` |
| ApiKeyAuthentication.Get | gravitee-gateway-security/gravitee-gateway-security-apikey/src/main/java/io/gravitee/gateway/security/apikey/ApiKeyAuthenticationHandler.java:94-99 | a mapping lookup yields a value exactly when the name is present, and then that name's value (absent plays the role of `null`) |
| ApiKeyAuthentication.LookForApiKey | gravitee-gateway-security/gravitee-gateway-security-apikey/src/main/java/io/gravitee/gateway/security/apikey/ApiKeyAuthenticationHandler.java:91-103 | a present non-empty header value is the key; otherwise the key is present exactly when the query parameter is, and is then the parameter's value, possibly empty |
| ApiKeyAuthentication.IsMatchingCriteria | gravitee-gateway-security/gravitee-gateway-security-apikey/src/main/java/io/gravitee/gateway/security/apikey/ApiKeyAuthenticationHandler.java:105-122 | true without a repository or a context; with both, true for an unknown key or a technical error, and for a found key exactly when its plan equals the context id |
| ApiKeyAuthentication.CanHandle | gravitee-gateway-security/gravitee-gateway-security-apikey/src/main/java/io/gravitee/gateway/security/apikey/ApiKeyAuthenticationHandler.java:71-74 | false when no key is extracted; true when a key is extracted and the repository or the context is missing |
| ApiKeyAuthentication.Name | gravitee-gateway-security/gravitee-gateway-security-apikey/src/main/java/io/gravitee/gateway/security/apikey/ApiKeyAuthenticationHandler.java:77-79 | the handler's name is always `api_key` |
| ApiKeyAuthentication.Order | gravitee-gateway-security/gravitee-gateway-security-apikey/src/main/java/io/gravitee/gateway/security/apikey/ApiKeyAuthenticationHandler.java:82-84 | the handler's order is always `500` |
| ApiKeyAuthentication.Handle | gravitee-gateway-security/gravitee-gateway-security-apikey/src/main/java/io/gravitee/gateway/security/apikey/ApiKeyAuthenticationHandler.java:86-89 | the contribution is one policy, `api-key`, for any execution context |
| ApiKeyAuthentication.RefusalCharacterization | gravitee-gateway-security/gravitee-gateway-security-apikey/src/main/java/io/gravitee/gateway/security/apikey/ApiKeyAuthenticationHandler.java:71-122 | a request is refused exactly when it carries no key or the repository binds its key to a plan other than the context's |
| ApiKeyAuthentication.HeaderTakesPrecedence | gravitee-gateway-security/gravitee-gateway-security-apikey/src/main/java/io/gravitee/gateway/security/apikey/ApiKeyAuthenticationHandler.java:94-102 | with a present non-empty header, the key and the decision are the same whatever the query parameters hold |
| ApiKeyAuthentication.EmptyParameterIsAKey | gravitee-gateway-security/gravitee-gateway-security-apikey/src/main/java/io/gravitee/gateway/security/apikey/ApiKeyAuthenticationHandler.java:96-102 | with the header missing or empty and the parameter present but empty, the key is `""` and the decision goes on to the plan check |
| ApiKeyAuthentication.NoKeyIgnoresRepository | gravitee-gateway-security/gravitee-gateway-security-apikey/src/main/java/io/gravitee/gateway/security/apikey/ApiKeyAuthenticationHandler.java:72-73 | without a key the decision is false, and replacing the repository by any other leaves it unchanged |
| ApiKeyAuthentication.FoundKeySelectsItsPlan | gravitee-gateway-security/gravitee-gateway-security-apikey/src/main/java/io/gravitee/gateway/security/apikey/ApiKeyAuthenticationHandler.java:112-117 | when the repository finds the key, the plan is selected exactly when it is the key's plan |
| ApiKeyAuthentication.UnknownOrFailingLookupFailsOpen | gravitee-gateway-security/gravitee-gateway-security-apikey/src/main/java/io/gravitee/gateway/security/apikey/ApiKeyAuthenticationHandler.java:113-121 | an unknown key or a technical error selects the plan |
| ApiKeyAuthentication.RepositoryDecides | gravitee-gateway-security/gravitee-gateway-security-apikey/src/main/java/io/gravitee/gateway/security/apikey/ApiKeyAuthenticationHandler.java:105-122 | for any request with a key and any context, some repository content selects the plan and some refuses it, so the fail-open rules do not make the answer constant |
| ApiKeyAuthentication.HandlerIdentity | gravitee-gateway-security/gravitee-gateway-security-apikey/src/main/java/io/gravitee/gateway/security/apikey/ApiKeyAuthenticationHandler.java:49-89 | the name is `api_key`, the order `500`, and the contribution `["api-key"]` whatever the execution context |
| ApiKeyAuthentication.Scenarios | gravitee-gateway-security/gravitee-gateway-security-apikey/src/main/java/io/gravitee/gateway/security/apikey/ApiKeyAuthenticationHandler.java:71-122 | concrete cases on the default configuration: header key without repository selected; parameter key bound to the context's plan selected; header key bound to another plan refused; empty header without parameter refused; technical error selected |

## Left out

- Dependency injection: the `@Value` resolution of the header and parameter names and `afterPropertiesSet` fetching the repository bean; the model takes an already-configured `Handler` whose repository may be missing.
- The repository's storage or network lookup: it is a foreign call, modelled as a function argument from key to outcome; that `canHandle` makes at most one lookup per call is not expressible in this pure model.
- Case-insensitive header matching and multi-valued headers (`getFirst`): library behaviour; the header and parameter maps are taken as already keyed by the configured name and holding the first value.
- Logging: observability only.
- Repository failures other than `TechnicalException`: only that checked exception is modelled (`TechError`, answered fail-open); an unchecked exception thrown by the lookup escapes `canHandle` in the source, and the three-valued `LookupOutcome` cannot express it.
- The `PluginAuthenticationPolicy` lambda: each policy is represented by its identifier string.
- A found key whose plan is `null` (an exception in the source) and a context whose id is `null`: plans and ids are plain strings.
- The value of `GraviteeHttpHeader.X_GRAVITEE_API_KEY`: that class is not part of this model; its value is taken as `X-Gravitee-Api-Key`.
- The downstream full key validation and the handler chain's ordering: not in this code.
