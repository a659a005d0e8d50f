/**
 * The API-key authentication handler of the gateway: it extracts an API key
 * from an inbound request (configured header first, then the configured query
 * parameter), decides whether the plan under evaluation may claim the request,
 * and contributes the fixed "api-key" policy to the chain once selected.
 *
 * Everything here is a pure function of the request, the authentication
 * context and the (already resolved, immutable) handler configuration.
 */
module ApiKeyAuthentication {

  datatype Option<+T> = None | Some(value: T)

  /** Looks a name up in a request mapping; `None` plays the role of Java's `null`. */
  function Get(m: map<string, string>, name: string): (r: Option<string>)
    ensures r.Some? <==> name in m
    ensures r.Some? ==> r.value == m[name]
  {
    if name in m then Some(m[name]) else None
  }

  /**
   * An inbound request, reduced to what the handler reads: the first value of
   * each header (already keyed by the configured header name) and the first
   * value of each query parameter.
   */
  datatype Request = Request(headers: map<string, string>, parameters: map<string, string>)

  /** The plan currently under evaluation, identified by an opaque id. */
  datatype AuthenticationContext = AuthenticationContext(id: string)

  /** What the API-key repository answers when asked for a key. */
  datatype LookupOutcome =
    | Found(plan: string)  // the key exists and is bound to `plan`
    | NotFound             // no such key
    | TechError            // the repository failed with a technical exception

  /** The repository's lookup, as a function from key to outcome. */
  type KeyLookup = string -> LookupOutcome

  /**
   * The handler's configuration: the header and query-parameter names to
   * search, and the repository, which may be missing when it was not wired.
   */
  datatype Handler = Handler(header: string, queryParameter: string, repository: Option<KeyLookup>)

  /** The identifier of the only policy the handler contributes. */
  const ApiKeyPolicy: string := "api-key"

  /** The process-wide policy list returned by `Handle`. */
  const Policies: seq<string> := [ApiKeyPolicy]

  /** Built-in names used when no configuration overrides them. */
  const DefaultHeader: string := "X-Gravitee-Api-Key"
  const DefaultQueryParameter: string := "api-key"

  /** A handler with the default header and parameter names and the given repository. */
  function DefaultHandler(repository: Option<KeyLookup>): (h: Handler)
    ensures h.header == "X-Gravitee-Api-Key" && h.queryParameter == "api-key"
    ensures h.repository == repository
  {
    Handler(DefaultHeader, DefaultQueryParameter, repository)
  }

  /** The name the chain knows this handler by. */
  function Name(): (r: string)
    ensures r == "api_key"
  {
    "api_key"
  }

  /** The handler's priority in the chain. */
  function Order(): (r: int)
    ensures r == 500
  {
    500
  }

  /**
   * The handler's contribution to the chain: one policy identifier, whatever
   * the execution context is.
   */
  function Handle<E>(executionContext: E): (r: seq<string>)
    ensures |r| == 1 && r[0] == "api-key"
  {
    Policies
  }

  /**
   * Key extraction. A non-empty header value wins outright; otherwise the
   * query parameter is taken as it is, so an empty parameter value is still a
   * key, and only a missing parameter yields no key.
   */
  function LookForApiKey(h: Handler, request: Request): (r: Option<string>)
    ensures (h.header in request.headers && request.headers[h.header] != "") ==>
              r == Some(request.headers[h.header])
    ensures (h.header !in request.headers || request.headers[h.header] == "") ==>
              (r.Some? <==> h.queryParameter in request.parameters)
    ensures ((h.header !in request.headers || request.headers[h.header] == "") && r.Some?) ==>
              r.value == request.parameters[h.queryParameter]
  {
    var fromHeader := Get(request.headers, h.header);
    if fromHeader.None? || fromHeader.value == "" then
      Get(request.parameters, h.queryParameter)
    else
      fromHeader
  }

  /**
   * Whether the key is consistent with the plan under evaluation. Without a
   * repository or a context, and when the repository does not know the key or
   * fails, the answer is fail-open; only a key bound to another plan refuses.
   */
  function IsMatchingCriteria(h: Handler, apiKey: string, context: Option<AuthenticationContext>): (r: bool)
    ensures h.repository.None? || context.None? ==> r
    ensures h.repository.Some? && context.Some? ==>
              match h.repository.value(apiKey)
              case Found(plan) => r == (plan == context.value.id)
              case NotFound => r
              case TechError => r
  {
    if h.repository.None? || context.None? then
      true
    else
      match h.repository.value(apiKey)
      case NotFound => true
      case Found(plan) => plan == context.value.id
      case TechError => true
  }

  /**
   * Whether this handler (and the plan in `context`) may claim the request:
   * never without a key, and otherwise as `IsMatchingCriteria` decides.
   */
  function CanHandle(h: Handler, request: Request, context: Option<AuthenticationContext>): (r: bool)
    ensures LookForApiKey(h, request).None? ==> !r
    ensures LookForApiKey(h, request).Some? && (h.repository.None? || context.None?) ==> r
    ensures r ==> LookForApiKey(h, request).Some?
  {
    var apiKey := LookForApiKey(h, request);
    apiKey.Some? && IsMatchingCriteria(h, apiKey.value, context)
  }

  /** The repository binds `apiKey` to a plan other than the one being evaluated. */
  ghost predicate BoundElsewhere(h: Handler, apiKey: string, context: Option<AuthenticationContext>)
  {
    h.repository.Some? && context.Some? &&
    exists plan :: h.repository.value(apiKey) == Found(plan) && plan != context.value.id
  }

  /**
   * The full decision table of `CanHandle`: a request is refused exactly when
   * it carries no key, or when the repository binds its key to another plan.
   */
  lemma RefusalCharacterization(h: Handler, request: Request, context: Option<AuthenticationContext>)
    ensures !CanHandle(h, request, context) <==>
              LookForApiKey(h, request).None? ||
              BoundElsewhere(h, LookForApiKey(h, request).value, context)
  {
  }

  /** A header value that is present and non-empty wins, whatever the query parameters hold. */
  lemma HeaderTakesPrecedence(h: Handler, headers: map<string, string>, p1: map<string, string>, p2: map<string, string>,
                              context: Option<AuthenticationContext>)
    requires h.header in headers && headers[h.header] != ""
    ensures LookForApiKey(h, Request(headers, p1)) == LookForApiKey(h, Request(headers, p2)) == Some(headers[h.header])
    ensures CanHandle(h, Request(headers, p1), context) == CanHandle(h, Request(headers, p2), context)
  {
  }

  /** An empty query-parameter value is a key: the emptiness test applies to the header only. */
  lemma EmptyParameterIsAKey(h: Handler, request: Request, context: Option<AuthenticationContext>)
    requires h.header !in request.headers || request.headers[h.header] == ""
    requires h.queryParameter in request.parameters && request.parameters[h.queryParameter] == ""
    ensures LookForApiKey(h, request) == Some("")
    ensures CanHandle(h, request, context) == IsMatchingCriteria(h, "", context)
  {
  }

  /** Without a key the answer is false and does not depend on the repository at all. */
  lemma NoKeyIgnoresRepository(h: Handler, request: Request, context: Option<AuthenticationContext>,
                               other: Option<KeyLookup>)
    requires LookForApiKey(h, request).None?
    ensures !CanHandle(h, request, context)
    ensures CanHandle(h.(repository := other), request, context) == CanHandle(h, request, context)
  {
  }

  /** A key the repository knows selects exactly the plan it is bound to. */
  lemma FoundKeySelectsItsPlan(h: Handler, request: Request, context: AuthenticationContext, plan: string)
    requires LookForApiKey(h, request).Some?
    requires h.repository.Some? && h.repository.value(LookForApiKey(h, request).value) == Found(plan)
    ensures CanHandle(h, request, Some(context)) <==> plan == context.id
  {
  }

  /** An unknown key and a failing repository both leave the plan selectable. */
  lemma UnknownOrFailingLookupFailsOpen(h: Handler, request: Request, context: Option<AuthenticationContext>)
    requires LookForApiKey(h, request).Some?
    requires h.repository.Some?
    requires h.repository.value(LookForApiKey(h, request).value) in {NotFound, TechError}
    ensures CanHandle(h, request, context)
  {
  }

  /**
   * For a request carrying a key and a plan under evaluation, the repository
   * really decides: some repository content selects the plan and some refuses it.
   */
  lemma RepositoryDecides(h: Handler, request: Request, context: AuthenticationContext)
    requires LookForApiKey(h, request).Some?
    ensures exists lookup: KeyLookup :: CanHandle(h.(repository := Some(lookup)), request, Some(context))
    ensures exists lookup: KeyLookup :: !CanHandle(h.(repository := Some(lookup)), request, Some(context))
  {
    var accept: KeyLookup := k => Found(context.id);
    var refuse: KeyLookup := k => Found(context.id + "'");
    assert |context.id + "'"| != |context.id|;
    assert CanHandle(h.(repository := Some(accept)), request, Some(context));
    assert !CanHandle(h.(repository := Some(refuse)), request, Some(context));
  }

  /** The handler's fixed identity and contribution. */
  lemma HandlerIdentity<E>(e1: E, e2: E)
    ensures Name() == "api_key" && Order() == 500
    ensures Handle(e1) == Handle(e2) == ["api-key"]
  {
  }

  /** Concrete cases on the default configuration. */
  lemma Scenarios(lookup: KeyLookup)
    ensures CanHandle(DefaultHandler(None), Request(map["X-Gravitee-Api-Key" := "abc123"], map[]),
                      Some(AuthenticationContext("planA")))
    ensures lookup("abc123") == Found("planA") ==>
              CanHandle(DefaultHandler(Some(lookup)), Request(map[], map["api-key" := "abc123"]),
                        Some(AuthenticationContext("planA")))
    ensures lookup("abc123") == Found("planB") ==>
              !CanHandle(DefaultHandler(Some(lookup)), Request(map["X-Gravitee-Api-Key" := "abc123"], map[]),
                         Some(AuthenticationContext("planA")))
    ensures !CanHandle(DefaultHandler(Some(lookup)), Request(map["X-Gravitee-Api-Key" := ""], map[]),
                       Some(AuthenticationContext("planA")))
    ensures lookup("abc123") == TechError ==>
              CanHandle(DefaultHandler(Some(lookup)), Request(map["X-Gravitee-Api-Key" := "abc123"], map[]),
                        Some(AuthenticationContext("planA")))
  {
  }
}
