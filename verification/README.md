# doorkeeper-sinatra-client: the OAuth2 client flow, in Dafny

This project models the client side of the OAuth2 Authorization Code grant
(section 4.1 of RFC 6749) as `doorkeeper_client.rb` implements it. It covers
the `state` CSRF defence of section 10.12 of RFC 6749 and the token refresh
of section 6 of RFC 6749.

- `wrappers.dfy` (`Wrappers`): `Option`, standing for Ruby's `nil`-or-value.
- `state_validator.dfy` (`StateValidator`): `blank?` and `state_matches?`.
  - `Blank` is defined the way the pattern `\A[[:space:]]*\z` matches: `SpaceStar` consumes one whitespace character at a time.
  - `Blank`'s contract gives the meaning "nil, or every character is whitespace".
  - The same file describes the nonce that `SecureRandom.hex` produces: 32 lower-case hex digits.
- `flow.dfy` (`Flow`): the session with its three keys `state`, `access_token` and `refresh_token`.
  - Each of the routes `/sign_in`, `/sign_out`, `/callback` and `/refresh` is a pure function from a session to a `Step`.
  - A `Step` holds the new session, the response and the token-endpoint exchange the route made.
  - `Handle` dispatches one request.
  - The call to the token endpoint through the OAuth client library is an input `Outcome`. It is either `Ok(access, refresh)`, the tokens the library holds afterwards, or `Fail`, a raised error.
- `trace.dfy` (`Trace`): sequences of requests handled against one session.
  - Lemmas state where the stored state and access token can come from.
  - They state the CSRF guarantee: from a fresh session, a code is exchanged only for a callback whose `state` is the nonce of the latest sign-in of that session, so a nonce replaced by a later sign-in is dead.

Notes on the code's behaviour:
- `/callback` has no `rescue`. A failed code exchange is an uncaught exception, modelled as the `InternalError` response, and not an error view.
- `params[:error]` is truthy for any present value, the empty string included. So any `error` parameter takes the error branch (`Flow.ProviderErrorShortCircuits`).
- The stored `state` is never cleared. Neither a callback nor sign-out clears it, so a replayed callback reaches the token endpoint again (`Flow.CallbackReplayReachesExchange`, `Flow.SignOutKeepsNonceUsable`).

## Model

| member | source | states |
|---|---|---|
| StateValidator.SpaceStarIffAllSpace | doorkeeper_client.rb:60 | the anchored whitespace-only pattern accepts a string exactly when every character of it is whitespace |
| StateValidator.Blank | doorkeeper_client.rb:57-61 | `nil` is blank; a string is blank iff all its characters are whitespace, so `""` is blank |
| StateValidator.StateMatches | doorkeeper_client.rb:50-55 | true iff the stored state is present, not all whitespace, and exactly equal to the received one; a match implies both sides are non-blank |
| StateValidator.StateMatchesSymmetric | doorkeeper_client.rb:50-55 | the predicate does not depend on the order of its arguments |
| StateValidator.StateMatchesSelf | doorkeeper_client.rb:50-55 | a state matches itself iff it is not blank |
| StateValidator.DistinctStatesDoNotMatch | doorkeeper_client.rb:54 | two different states never match |
| StateValidator.BlankStatesNeverMatch | doorkeeper_client.rb:51-52 | `nil`, `""` and `"  "` match nothing, on either side |
| StateValidator.StateMatchingIsCaseSensitive | doorkeeper_client.rb:54 | comparison is exact: `abc123` does not match `ABC123` |
| StateValidator.HexNonceNotBlank | doorkeeper_client.rb:94-96 | a nonce of 32 hex digits is non-blank and matches itself |
| Flow.SignedIn | doorkeeper_client.rb:46-48 | signed in iff an access token is stored |
| Flow.SignInRoute | doorkeeper_client.rb:106-109 | sign-in overwrites the state with the fresh nonce, keeps both tokens, makes no exchange and redirects to the provider carrying that state |
| Flow.SignOutRoute | doorkeeper_client.rb:111-115 | sign-out clears both tokens (so the user is signed out), keeps the state and redirects home |
| Flow.CallbackRoute | doorkeeper_client.rb:117-134 | an error parameter wins first; an exchange happens iff there is no error and the state matches; a mismatch redirects home with the session unchanged; on success the tokens become the reported ones; on failure the session is unchanged; the state is never changed |
| Flow.RefreshRoute | doorkeeper_client.rb:136-147 | refresh sends the stored tokens; on success both tokens become the reported ones; on failure the session is unchanged and the error view is shown; the state is untouched |
| Flow.Handle | doorkeeper_client.rb:106-147 | across all routes, only sign-in writes the state; a code exchange happens iff an error-free callback's state matches; without an exchange the tokens are kept or both cleared by sign-out; a failed exchange writes nothing |
| Flow.SignInThenCallback | doorkeeper_client.rb:106-128 | for any non-blank nonce, right after sign-in a callback with that nonce reaches the exchange, and any other state is rejected with no change |
| Flow.SignOutIdempotent | doorkeeper_client.rb:111-115 | signing out twice equals signing out once, and the session is not signed in |
| Flow.ProviderErrorShortCircuits | doorkeeper_client.rb:118-119 | restates the error-branch clause of `CallbackRoute` on its own: any `error` parameter, even empty, gives the error view with no exchange and the session unchanged, whatever the state |
| Flow.CallbackReplayReachesExchange | doorkeeper_client.rb:121-133 | after a successful callback, the same state with a new code reaches the token endpoint again |
| Flow.SignOutKeepsNonceUsable | doorkeeper_client.rb:111-115 | sign-out leaves a pending nonce usable by a later callback |
| Flow.NoExchangeBeforeSignIn | doorkeeper_client.rb:121-124 | a fresh session rejects every callback without an exchange |
| Flow.RefreshStoresReportedTokens | doorkeeper_client.rb:142-143 | the route stores the tokens the library reports; when the library reports no refresh token, `nil` is stored |
| Flow.HappyPath | doorkeeper_client.rb:106-133 | for any non-blank nonce, sign-in then a callback with the nonce and a code exchanges that code, stores the tokens, signs in and redirects home |
| Flow.ForgedCallbackRejected | doorkeeper_client.rb:121-124 | after sign-in, a callback with any other state is sent home with no exchange and tokens still unset |
| Trace.IssuedFromSignIn | doorkeeper_client.rb:94-96 | every issued nonce is the nonce of some sign-in request of the run |
| Trace.StateProvenance | doorkeeper_client.rb:94-96 | after any run the stored state is exactly the nonce of the latest sign-in of that run, or the initial state when there was none (and so the initial state or an issued nonce) |
| Trace.AccessProvenance | doorkeeper_client.rb:111-143 | after any run the access token is the initial one, unset, or one reported by a token endpoint call that a step of the run actually made |
| Trace.CodeExchangedOnlyForIssuedState | doorkeeper_client.rb:121-128 | from a fresh session, a code is exchanged only for a callback whose non-blank state equals the nonce of the latest sign-in before it |
| Trace.SupersededNonceRejected | doorkeeper_client.rb:94-124 | once a sign-in has replaced a nonce, and no sign-in since has issued it again, a callback carrying that nonce makes no exchange, whatever other requests came in between |
| Trace.SignedInOnlyThroughOutcome | doorkeeper_client.rb:46-48 | from a fresh session, being signed in means holding an access token reported by a token endpoint call that a step of the run made |

## Left out

- Refresh-token retention: the model does not assume the library keeps the previous refresh token when the server omits one; the route stores whatever the library reports (`Flow.RefreshStoresReportedTokens`). The route hands the stored refresh token to the client before the call, so whether it survives is the library's behaviour, which is not part of this model.
- The OAuth client library (`generate_client`, `authorization_uri`, `fetch_access_token!`, `refresh!`) is foreign code. Its effect is the `Outcome` input, and the redirect carries only the state, not the built URI.
- `SecureRandom.hex` is a random source. The nonce is an input to `SignIn`. Lemmas that need it non-blank require just that; `StateValidator.HexNonceNotBlank` shows the 32-hex-digit form meets it. No entropy claim is made.
- `IsSpace` is given the Unicode White_Space set as the membership of `[[:space:]]`. The lemmas only rely on hex digits not being whitespace and on `' '` being whitespace.
- `blank?` raising on a string with an invalid encoding, and `to_s` of non-string parameters (arrays, hashes), are not modelled. Parameters are strings or absent.
- Configuration loading (`App`, the environment variables) and error reporting (Rollbar) are left out; configuration is assumed present.
- Presentation is left out: the views, `pretty_json`, `markdown`, `markdown_readme` (a file read), `site_host` (URI parsing) and the `/` route.
- Concurrent requests against one session are left out. Runs handle requests one at a time.
- Session cookie persistence when an exception escapes a route is not modelled. It does not matter here, since no route writes the session before the call that can raise.
