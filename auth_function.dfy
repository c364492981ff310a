/** The login endpoint: 200 with the token, or 401 with a null token. */
module AuthFunction {
  import opened Wrappers
  import AuthService

  /** What the request body deserialises to; a missing property is "" (C# null). */
  datatype LoginBody = LoginJson(email: string, password: string) | NullLogin | MalformedLogin

  /** The status and the `{token}` payload of the response. */
  datatype LoginResponse = LoginResponse(status: int, token: Option<string>)

  /**
   * The handler's result. A body that deserialises to null or fails to parse
   * makes the handler throw; the hosting runtime answers, not this code.
   */
  datatype LoginResult = Responded(response: LoginResponse) | Unhandled

  /**
   * Run (SuperUserLogin). `authenticate` stands for the injected
   * IAuthService.AuthenticateAsync.
   */
  function Run(body: LoginBody, authenticate: (string, string) -> Option<string>): (r: LoginResult)
    ensures r.Responded? <==> body.LoginJson?
    ensures r.Responded? ==> r.response.token == authenticate(body.email, body.password)
    ensures r.Responded? ==> (r.response.status == 200 <==> r.response.token.Some?)
    ensures r.Responded? ==> (r.response.status == 401 <==> r.response.token.None?)
  {
    match body
    case LoginJson(email, password) =>
      var token := authenticate(email, password);
      Responded(LoginResponse(if token.Some? then 200 else 401, token))
    case NullLogin => Unhandled
    case MalformedLogin => Unhandled
  }

  /**
   * Wired to the real service: the endpoint answers 200 exactly when the
   * provider grants a token for the forwarded credentials, and then returns
   * that token.
   */
  lemma LoginEndToEnd(cfg: AuthService.AuthConfig, email: string, password: string,
                      provider: AuthService.TokenRequest -> AuthService.ProviderReply)
    ensures var r := Run(LoginJson(email, password), (e, p) => AuthService.Authenticate(cfg, e, p, provider));
      var reply := provider(AuthService.PasswordGrantRequest(cfg, email, password));
      && r.Responded?
      && (r.response.status == 200 <==> AuthService.GrantsToken(reply))
      && (r.response.status == 200 ==> r.response.token == reply.body.accessToken)
      && (r.response.status == 401 <==> !AuthService.GrantsToken(reply))
  {
  }
}
