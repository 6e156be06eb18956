/** The per-session flow of the client: the session fields, the four routes
    `/sign_in`, `/sign_out`, `/callback` and `/refresh`, and the dispatcher that
    applies one request to a session. The token endpoint call made through the
    OAuth client library is an input: the outcome the library reports. */
module Flow {
  import opened Wrappers
  import opened StateValidator

  /** The three session keys the routes read and write. */
  datatype Session = Session(state: Option<string>, access: Option<string>, refresh: Option<string>)

  /** A session as the session middleware creates it: every key unset. */
  const EmptySession := Session(None, None, None)

  /** The query parameters of `/callback`. */
  datatype CallbackParams = CallbackParams(error: Option<string>, state: Option<string>, code: Option<string>)

  /** One request. `SignIn` carries the nonce the random source produced for it. */
  datatype Request =
    | SignIn(nonce: string)
    | SignOut
    | Callback(params: CallbackParams)
    | Refresh

  /** What the client library reports after a token endpoint call: the access and
      refresh tokens it then holds, or a raised error. */
  datatype Outcome = Ok(access: Option<string>, refresh: Option<string>) | Fail

  /** The token endpoint call a route made, with what it sent. */
  datatype Exchange =
    | NoExchange
    | CodeGrant(code: Option<string>)
    | RefreshGrant(access: Option<string>, refresh: Option<string>)

  /** The HTTP answer of a route. */
  datatype Response =
    | RedirectToProvider(state: Option<string>)  // 302 to the authorization endpoint
    | RedirectHome                               // redirect '/'
    | CallbackErrorPage                          // the callback_error view
    | ErrorPage                                  // the error view
    | InternalError                              // an exception no route handler rescued

  /** The session after a route, its response and the exchange it made. */
  datatype Step = Step(session: Session, response: Response, exchange: Exchange)

  /** `signed_in?`: the stored access token is not `nil`. */
  function SignedIn(s: Session): (b: bool)
    ensures b <==> s.access.Some?
  {
    s.access != None
  }

  /** `/sign_in`: store the fresh nonce as the session state and send the user
      to the authorization endpoint with that state. */
  function SignInRoute(s: Session, nonce: string): (r: Step)
    ensures r.session.state == Some(nonce)
    ensures r.session.access == s.access && r.session.refresh == s.refresh
    ensures r.response.RedirectToProvider? && r.response.state == r.session.state
    ensures r.exchange == NoExchange
  {
    var s' := s.(state := Some(nonce));
    Step(s', RedirectToProvider(s'.state), NoExchange)
  }

  /** `/sign_out`: forget both tokens, keep the state, go home. */
  function SignOutRoute(s: Session): (r: Step)
    ensures !SignedIn(r.session) && r.session.refresh.None?
    ensures r.session.state == s.state
    ensures r.response == RedirectHome && r.exchange == NoExchange
  {
    Step(s.(access := None, refresh := None), RedirectHome, NoExchange)
  }

  /** `/callback`: a provider error wins over everything; otherwise the state
      check guards the code exchange; the stored state is never cleared. */
  function CallbackRoute(s: Session, p: CallbackParams, o: Outcome): (r: Step)
    ensures r.session.state == s.state
    ensures p.error.Some? ==> r == Step(s, CallbackErrorPage, NoExchange)
    ensures p.error.None? && !StateMatches(s.state, p.state) ==> r == Step(s, RedirectHome, NoExchange)
    ensures r.exchange != NoExchange <==> p.error.None? && StateMatches(s.state, p.state)
    ensures r.exchange != NoExchange ==> r.exchange == CodeGrant(p.code)
    ensures r.exchange != NoExchange && o.Ok? ==>
              r.session.access == o.access && r.session.refresh == o.refresh && r.response == RedirectHome
    ensures r.exchange != NoExchange && o.Fail? ==> r.session == s && r.response == InternalError
  {
    if p.error.Some? then
      Step(s, CallbackErrorPage, NoExchange)
    else if !StateMatches(s.state, p.state) then
      Step(s, RedirectHome, NoExchange)
    else
      match o
      case Ok(a, t) => Step(s.(access := a, refresh := t), RedirectHome, CodeGrant(p.code))
      case Fail => Step(s, InternalError, CodeGrant(p.code))
  }

  /** `/refresh`: send the stored tokens; on success store what the library then
      holds, on any failure render the error view and keep the session. */
  function RefreshRoute(s: Session, o: Outcome): (r: Step)
    ensures r.session.state == s.state
    ensures r.exchange == RefreshGrant(s.access, s.refresh)
    ensures o.Ok? ==> r.session.access == o.access && r.session.refresh == o.refresh && r.response == RedirectHome
    ensures o.Fail? ==> r.session == s && r.response == ErrorPage
  {
    match o
    case Ok(a, t) => Step(s.(access := a, refresh := t), RedirectHome, RefreshGrant(s.access, s.refresh))
    case Fail => Step(s, ErrorPage, RefreshGrant(s.access, s.refresh))
  }

  /** Apply one request to a session; `o` is only consulted by a route that
      calls the token endpoint. */
  function Handle(s: Session, req: Request, o: Outcome): (r: Step)
    // only sign-in writes the state
    ensures r.session.state != s.state ==> req.SignIn? && r.session.state == Some(req.nonce)
    // a code is exchanged only on an error-free callback whose state matches the session's
    ensures r.exchange.CodeGrant? <==> req.Callback? && req.params.error.None? && StateMatches(s.state, req.params.state)
    // without an exchange the tokens are kept, or both cleared by sign-out
    ensures r.exchange == NoExchange ==>
              (r.session.access == s.access && r.session.refresh == s.refresh)
              || (req.SignOut? && r.session.access.None? && r.session.refresh.None?)
    // a failed exchange writes nothing
    ensures r.exchange != NoExchange && o.Fail? ==> r.session == s
    // a successful exchange stores exactly what the library reports
    ensures r.exchange != NoExchange && o.Ok? ==>
              r.session == s.(access := o.access, refresh := o.refresh)
  {
    match req
    case SignIn(n) => SignInRoute(s, n)
    case SignOut => SignOutRoute(s)
    case Callback(p) => CallbackRoute(s, p, o)
    case Refresh => RefreshRoute(s, o)
  }

  // ---- Properties of single routes and short sequences of them ----

  /** After sign-in, a callback carrying the new nonce passes the state check,
      and one carrying any other (for example an earlier) nonce is sent home
      with the session untouched and no exchange. */
  lemma SignInThenCallback(s: Session, nonce: string, p: CallbackParams, o: Outcome)
    requires !Blank(Some(nonce)) && p.error.None?
    ensures var s' := SignInRoute(s, nonce).session;
            var r := CallbackRoute(s', p, o);
            (p.state == Some(nonce) ==> r.exchange == CodeGrant(p.code))
            && (p.state != Some(nonce) ==> r == Step(s', RedirectHome, NoExchange))
  {
  }

  /** Sign-out is idempotent and always leaves the user signed out. */
  lemma SignOutIdempotent(s: Session)
    ensures var once := SignOutRoute(s).session;
            SignOutRoute(once).session == once && !SignedIn(once)
  {
  }

  /** The error-branch clause of `CallbackRoute`'s contract, stated on its own:
      an `error` parameter, even an empty one, takes the error branch before the
      state is looked at, whatever `state` says. */
  lemma ProviderErrorShortCircuits(s: Session, e: string, st: Option<string>, code: Option<string>, o: Outcome)
    ensures CallbackRoute(s, CallbackParams(Some(e), st, code), o) == Step(s, CallbackErrorPage, NoExchange)
  {
  }

  /** The stored state survives a successful callback, so replaying the same
      `state` with a fresh code reaches the token endpoint a second time. */
  lemma CallbackReplayReachesExchange(s: Session, st: Option<string>, code1: Option<string>,
                                      code2: Option<string>, a: Option<string>, t: Option<string>, o: Outcome)
    requires StateMatches(s.state, st)
    ensures var first := CallbackRoute(s, CallbackParams(None, st, code1), Ok(a, t));
            first.exchange == CodeGrant(code1)
            && SignedIn(first.session) == a.Some?
            && CallbackRoute(first.session, CallbackParams(None, st, code2), o).exchange == CodeGrant(code2)
  {
  }

  /** Sign-out does not invalidate a pending nonce: a callback with it still
      reaches the token endpoint afterwards. */
  lemma SignOutKeepsNonceUsable(s: Session, st: Option<string>, code: Option<string>, o: Outcome)
    requires StateMatches(s.state, st)
    ensures CallbackRoute(SignOutRoute(s).session, CallbackParams(None, st, code), o).exchange == CodeGrant(code)
  {
  }

  /** A fresh session has no state, so no callback can reach the token endpoint
      before a sign-in. */
  lemma NoExchangeBeforeSignIn(p: CallbackParams, o: Outcome)
    ensures CallbackRoute(EmptySession, p, o).exchange == NoExchange
    ensures CallbackRoute(EmptySession, p, o).session == EmptySession
  {
  }

  /** The route stores whatever refresh token the library reports: when the
      library reports `nil`, `nil` is stored. Whether the library reports the
      previous token back is up to the library. */
  lemma RefreshStoresReportedTokens(s: Session, a: string)
    ensures RefreshRoute(s, Ok(Some(a), None)).session == Session(s.state, Some(a), None)
    ensures s.refresh.Some? ==> RefreshRoute(s, Ok(Some(a), None)).session.refresh != s.refresh
  {
  }

  /** The end-to-end happy path: sign in with a nonce, come back with it and a
      code, get signed in with the tokens returned and be sent home. */
  lemma HappyPath(nonce: string, code: string, a: string, t: Option<string>)
    requires !Blank(Some(nonce))
    ensures var s1 := SignInRoute(EmptySession, nonce);
            var s2 := CallbackRoute(s1.session, CallbackParams(None, Some(nonce), Some(code)), Ok(Some(a), t));
            s1.response == RedirectToProvider(Some(nonce))
            && s2.exchange == CodeGrant(Some(code))
            && s2.response == RedirectHome
            && s2.session == Session(Some(nonce), Some(a), t)
            && SignedIn(s2.session)
  {
  }

  /** A forged callback: after sign-in with one nonce, a callback with a
      different state is sent home, no exchange is made, tokens stay unset. */
  lemma ForgedCallbackRejected(nonce: string, forged: Option<string>, code: Option<string>, o: Outcome)
    requires forged != Some(nonce)
    ensures var s1 := SignInRoute(EmptySession, nonce).session;
            var s2 := CallbackRoute(s1, CallbackParams(None, forged, code), o);
            s2 == Step(s1, RedirectHome, NoExchange) && !SignedIn(s2.session) && s2.session.refresh.None?
  {
  }
}
