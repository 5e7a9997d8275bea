/** The two services composed: a browser logs in at the authority, follows
    the redirect to the CRM, and the CRM asks the authority to validate.
    As written, neither half of the hand-off reaches the other; the second
    half of this module gives the corrected hand-off and proves it works. */
module Handoff {
  import opened Wrappers
  import opened Wire
  import AuthService
  import CrmService

  /** The authority's /api/validate as the CRM reaches it over the network
      (the network itself always delivers here). */
  function AuthEndpoint(st: AuthService.State): Request -> Reply
  {
    req => Resp(AuthService.Validate(st, req))
  }

  /** The browser's cookies for localhost after it receives `resp`. Cookies
      are scoped by host, not port, so a cookie set by the authority is also
      sent to the CRM. */
  function FollowRedirect(jar: map<string, string>, resp: AuthService.Response): map<string, string>
  {
    if resp.Redirect? then jar + resp.setCookies else jar
  }

  // ---------------------------------------------------------------------
  // As written
  // ---------------------------------------------------------------------

  /** The CRM forwards the token as a cookie, the authority reads it only
      from the query string: whatever the authority's state and whatever
      cookies the browser sends, the CRM's gate denies. */
  lemma CrmValidationAlwaysFails(st: AuthService.State, jar: map<string, string>)
    ensures CrmService.ValidateSession(jar, AuthEndpoint(st)) == None
  {
  }

  /** Even a live token fails: the failure does not depend on the token. */
  lemma LiveTokenDenied(st: AuthService.State, t: AuthService.Token)
    requires t in st.sessions && t != ""
    ensures CrmService.OutboundCall(map[CrmService.AuthCookie := t]).Some?
    ensures CrmService.ValidateSession(map[CrmService.AuthCookie := t], AuthEndpoint(st)) == None
  {
  }

  /** A successful login hands the token over only in the redirect's query
      string and sets no cookie, while the CRM reads only the `auth_token`
      cookie: a browser that had none still has none, and the dashboard
      sends it back to the login page without asking the authority. */
  lemma LoginNeverReachesCrm(st: AuthService.State, username: string, password: string,
                             minted: AuthService.Token, jar: map<string, string>,
                             network: Request -> Reply, store: CrmService.Store)
    requires minted !in st.sessions
    requires AuthService.Matches(st.users, username, password)
    requires CrmService.AuthCookie !in jar
    ensures var step := AuthService.Login(st, AuthService.Submit(username, password), minted);
      var jar' := FollowRedirect(jar, step.response);
      && step.response.Redirect?
      && CrmService.AuthCookie !in jar'
      && CrmService.OutboundCall(jar').None?
      && CrmService.Dashboard(CrmService.ValidateSession(jar', network), store)
           == CrmService.RedirectTo(CrmService.AuthLoginUrl)
  {
  }

  // ---------------------------------------------------------------------
  // Corrected
  // ---------------------------------------------------------------------

  /** The outbound request with the token in the query argument `token`,
      which is where the authority reads it. */
  function OutboundCallFixed(cookies: map<string, string>): (r: Option<Request>)
    ensures r.None? <==> CrmService.OutboundCall(cookies).None?
    ensures r.Some? ==> r.value.args == map["token" := cookies[CrmService.AuthCookie]]
  {
    var token := Get(cookies, CrmService.AuthCookie);
    if token.None? || token.value == "" then None
    else Some(Request(map["token" := token.value], map[]))
  }

  /** `validate_session` with the corrected outbound request; the decision
      on the reply is unchanged. */
  function ValidateSessionFixed(cookies: map<string, string>, network: Request -> Reply): (r: Option<CrmService.Session>)
    ensures OutboundCallFixed(cookies).None? ==> r.None?
    ensures OutboundCallFixed(cookies).Some? ==> r == CrmService.Decide(network(OutboundCallFixed(cookies).value))
  {
    match OutboundCallFixed(cookies)
    case None => None
    case Some(req) => CrmService.Decide(network(req))
  }

  /** With the corrected request the CRM admits exactly the browsers whose
      `auth_token` is a live session, and receives that session's identity. */
  lemma FixedValidationAccepts(st: AuthService.State, jar: map<string, string>)
    ensures ValidateSessionFixed(jar, AuthEndpoint(st)).Some? <==>
      CrmService.AuthCookie in jar && jar[CrmService.AuthCookie] != ""
      && jar[CrmService.AuthCookie] in st.sessions
    ensures ValidateSessionFixed(jar, AuthEndpoint(st)).Some? ==>
      ValidateSessionFixed(jar, AuthEndpoint(st)).value
        == AuthService.IdentityBody(st.sessions[jar[CrmService.AuthCookie]])
  {
  }

  /** Login that also hands the token to the browser as the `auth_token`
      cookie; the authority's state changes exactly as with `Login`. */
  function LoginFixed(st: AuthService.State, form: AuthService.Form, minted: AuthService.Token): (r: AuthService.Step)
    requires minted !in st.sessions
    ensures r.state == AuthService.Login(st, form, minted).state
    ensures r.response.Redirect? <==> AuthService.Login(st, form, minted).response.Redirect?
    ensures r.response.Redirect? ==> r.response.setCookies == map[CrmService.AuthCookie := minted]
    ensures !r.response.Redirect? ==> r == AuthService.Login(st, form, minted)
  {
    var step := AuthService.Login(st, form, minted);
    if step.response.Redirect? then
      step.(response := step.response.(setCookies := map[CrmService.AuthCookie := minted]))
    else step
  }

  /** End to end with both corrections: after a successful login the
      browser's next CRM request is admitted with the user's name and stored
      role, and stays admitted whatever the authority serves meanwhile. */
  lemma FixedHandoffRoundTrip(st: AuthService.State, username: string, password: string,
                              minted: AuthService.Token, jar: map<string, string>,
                              ops: seq<AuthService.Op>)
    requires AuthService.Matches(st.users, username, password)
    requires minted !in st.sessions && minted != ""
    requires AuthService.ValidRun(LoginFixed(st, AuthService.Submit(username, password), minted).state, ops)
    ensures var step := LoginFixed(st, AuthService.Submit(username, password), minted);
      var jar' := FollowRedirect(jar, step.response);
      ValidateSessionFixed(jar', AuthEndpoint(AuthService.Run(step.state, ops)))
        == Some(AuthService.IdentityBody(AuthService.Identity(username, st.users[username].role)))
  {
    var step := LoginFixed(st, AuthService.Submit(username, password), minted);
    var jar' := FollowRedirect(jar, step.response);
    assert jar'[CrmService.AuthCookie] == minted;
    var s := AuthService.Run(step.state, ops);
    AuthService.RunExtends(step.state, ops);
    assert s.sessions[minted] == AuthService.Identity(username, st.users[username].role);
    FixedValidationAccepts(s, jar');
  }

}
