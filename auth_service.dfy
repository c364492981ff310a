/**
 * The login gateway: exchanges an e-mail and password for an access token
 * through the resource-owner password grant (section 4.3 of RFC 6749) and
 * turns every failure into "no token".
 */
module AuthService {
  import opened Wrappers

  /** The provider settings read from configuration; the service never writes them. */
  datatype AuthConfig = AuthConfig(domain: string, clientId: string, clientSecret: string)

  /** The POST the service sends: the endpoint and the JSON form fields. */
  datatype TokenRequest = TokenRequest(
    endpoint: string,
    clientId: string,
    clientSecret: string,
    audience: string,
    grantType: string,
    username: string,
    password: string,
    scope: string)

  /** What the body of a 2xx reply deserialises to. */
  datatype ReplyBody =
    | NullJson                                // the body is `null` or empty
    | JsonObject(accessToken: Option<string>) // an object, with or without `access_token`
    | Unparseable                             // deserialisation throws

  /** What the provider does with the request: throws, or answers with a status and a body. */
  datatype ProviderReply = Threw(message: string) | Replied(status: int, body: ReplyBody)

  function TokenEndpoint(domain: string): string
  {
    "https://" + domain + "/oauth/token"
  }

  function Audience(domain: string): string
  {
    "https://" + domain + "/api/v2/"
  }

  /** HttpResponseMessage.IsSuccessStatusCode. */
  predicate IsSuccessStatusCode(status: int)
  {
    200 <= status <= 299
  }

  /**
   * The password-grant request: the credentials travel verbatim as
   * `username` and `password`, beside the configured client identity, the
   * `password` grant type and the `openid profile email` scope.
   */
  function PasswordGrantRequest(cfg: AuthConfig, email: string, password: string): (r: TokenRequest)
    ensures r.username == email && r.password == password
    ensures r.grantType == "password" && r.scope == "openid profile email"
    ensures r.clientId == cfg.clientId && r.clientSecret == cfg.clientSecret
    ensures r.endpoint == "https://" + cfg.domain + "/oauth/token"
    ensures r.audience == "https://" + cfg.domain + "/api/v2/"
  {
    TokenRequest(TokenEndpoint(cfg.domain), cfg.clientId, cfg.clientSecret, Audience(cfg.domain),
                 "password", email, password, "openid profile email")
  }

  /** The reply carries a token: a 2xx status and an object with `access_token`. */
  predicate GrantsToken(reply: ProviderReply)
  {
    reply.Replied? && IsSuccessStatusCode(reply.status) && reply.body.JsonObject? && reply.body.accessToken.Some?
  }

  /**
   * AuthenticateAsync. `provider` stands for the HTTP call to the token
   * endpoint. The token is returned only when the provider grants one;
   * rejection, a thrown exception and an unusable body all give null.
   */
  function Authenticate(cfg: AuthConfig, email: string, password: string, provider: TokenRequest -> ProviderReply)
    : (token: Option<string>)
    ensures var reply := provider(PasswordGrantRequest(cfg, email, password));
      && (token.Some? <==> GrantsToken(reply))
      && (token.Some? ==> token.value == reply.body.accessToken.value)
  {
    match provider(PasswordGrantRequest(cfg, email, password))
    case Threw(_) => None
    case Replied(status, body) =>
      if !IsSuccessStatusCode(status) then None
      else
        match body
        case NullJson => None
        case Unparseable => None
        case JsonObject(t) => t
  }

  /**
   * Rejected credentials, an unreachable provider and a malformed reply are
   * indistinguishable to the caller: each gives null.
   */
  lemma FailuresLookAlike(cfg: AuthConfig, email: string, password: string,
                          rejecting: TokenRequest -> ProviderReply,
                          throwing: TokenRequest -> ProviderReply,
                          malformed: TokenRequest -> ProviderReply)
    requires var req := PasswordGrantRequest(cfg, email, password);
      && rejecting(req).Replied? && !IsSuccessStatusCode(rejecting(req).status)
      && throwing(req).Threw?
      && malformed(req).Replied? && (malformed(req).body.Unparseable? || malformed(req).body.NullJson?)
    ensures Authenticate(cfg, email, password, rejecting) == None
    ensures Authenticate(cfg, email, password, throwing) == None
    ensures Authenticate(cfg, email, password, malformed) == None
  {
  }

  /** The answer depends only on what the provider says to the request built from the credentials. */
  lemma OnlyTheReplyMatters(cfg: AuthConfig, email: string, password: string,
                            p1: TokenRequest -> ProviderReply, p2: TokenRequest -> ProviderReply)
    requires p1(PasswordGrantRequest(cfg, email, password)) == p2(PasswordGrantRequest(cfg, email, password))
    ensures Authenticate(cfg, email, password, p1) == Authenticate(cfg, email, password, p2)
  {
  }
}
