/** Runs of requests against one session, handled one after another, and the
    properties that hold of every run: where the stored state and tokens can
    come from, and that a code is only exchanged for a state the session issued. */
module Trace {
  import opened Wrappers
  import opened StateValidator
  import opened Flow

  /** One handled request together with the outcome the token endpoint would give. */
  datatype Event = Event(request: Request, outcome: Outcome)

  /** The session after handling `evs` in order, starting from `s`. */
  function Run(s: Session, evs: seq<Event>): (r: Session)
    decreases |evs|
  {
    if |evs| == 0 then s
    else
      var last := evs[|evs| - 1];
      Handle(Run(s, evs[..|evs| - 1]), last.request, last.outcome).session
  }

  /** The nonces handed out by the sign-in requests of `evs`. */
  function Issued(evs: seq<Event>): (nonces: set<string>)
    decreases |evs|
  {
    if |evs| == 0 then {}
    else
      var last := evs[|evs| - 1];
      Issued(evs[..|evs| - 1]) + (if last.request.SignIn? then {last.request.nonce} else {})
  }

  /** The nonce of the last sign-in request of `evs`, or `init` when there is none. */
  function LastNonce(init: Option<string>, evs: seq<Event>): (r: Option<string>)
    decreases |evs|
  {
    if |evs| == 0 then init
    else
      var last := evs[|evs| - 1];
      if last.request.SignIn? then Some(last.request.nonce) else LastNonce(init, evs[..|evs| - 1])
  }

  /** The access tokens reported by the token endpoint calls that the steps of
      `evs`, run from `s`, actually made: an outcome is only collected when its
      step called the token endpoint and the call succeeded. */
  function Reported(s: Session, evs: seq<Event>): (tokens: set<Option<string>>)
    decreases |evs|
  {
    if |evs| == 0 then {}
    else
      var last := evs[|evs| - 1];
      var step := Handle(Run(s, evs[..|evs| - 1]), last.request, last.outcome);
      Reported(s, evs[..|evs| - 1])
        + (if step.exchange != NoExchange && last.outcome.Ok? then {last.outcome.access} else {})
  }

  /** Every issued nonce comes from a sign-in request of the run. */
  lemma {:induction false} IssuedFromSignIn(evs: seq<Event>, n: string)
    requires n in Issued(evs)
    ensures exists i :: 0 <= i < |evs| && evs[i].request == SignIn(n)
    decreases |evs|
  {
    var k := |evs| - 1;
    if evs[k].request == SignIn(n) {
    } else {
      IssuedFromSignIn(evs[..k], n);
      var i :| 0 <= i < k && evs[..k][i].request == SignIn(n);
      assert evs[i] == evs[..k][i];
    }
  }

  /** The stored state is exactly the nonce of the latest sign-in of the run (the
      initial state when there was none): no other route writes it, and each
      sign-in overwrites the previous nonce. */
  lemma {:induction false} StateProvenance(s: Session, evs: seq<Event>)
    ensures Run(s, evs).state == LastNonce(s.state, evs)
    ensures var st := Run(s, evs).state;
            st == s.state || (st.Some? && st.value in Issued(evs))
    decreases |evs|
  {
    if |evs| > 0 {
      StateProvenance(s, evs[..|evs| - 1]);
    }
  }

  /** When the run contains a sign-in at index `i`, the latest nonce is the nonce
      of a sign-in at `i` or later. */
  lemma {:induction false} LastNonceFrom(init: Option<string>, evs: seq<Event>, i: nat)
    requires i < |evs| && evs[i].request.SignIn?
    ensures exists m :: i <= m < |evs| && evs[m].request.SignIn? && LastNonce(init, evs) == Some(evs[m].request.nonce)
    decreases |evs|
  {
    var k := |evs| - 1;
    if !evs[k].request.SignIn? {
      LastNonceFrom(init, evs[..k], i);
      var m :| i <= m < k && evs[..k][m].request.SignIn? && LastNonce(init, evs[..k]) == Some(evs[..k][m].request.nonce);
      assert evs[m] == evs[..k][m];
    }
  }

  /** The stored access token is the initial one, unset, or one that a token
      endpoint call made during the run reported. */
  lemma {:induction false} AccessProvenance(s: Session, evs: seq<Event>)
    ensures var at := Run(s, evs).access;
            at == s.access || at.None? || at in Reported(s, evs)
    decreases |evs|
  {
    if |evs| > 0 {
      AccessProvenance(s, evs[..|evs| - 1]);
    }
  }

  /** The CSRF guarantee over a whole run from a fresh session: whenever a step
      exchanges a code, its callback carried a non-blank state equal to the nonce
      of the latest sign-in before that step. */
  lemma CodeExchangedOnlyForIssuedState(evs: seq<Event>, k: nat)
    requires k < |evs|
    requires Handle(Run(EmptySession, evs[..k]), evs[k].request, evs[k].outcome).exchange.CodeGrant?
    ensures evs[k].request.Callback?
    ensures var st := evs[k].request.params.state;
            !Blank(st) && st.value in Issued(evs[..k])
    ensures evs[k].request.params.state == LastNonce(None, evs[..k])
    ensures exists i :: 0 <= i < k && evs[i].request == SignIn(evs[k].request.params.state.value)
  {
    StateProvenance(EmptySession, evs[..k]);
    var n := evs[k].request.params.state.value;
    IssuedFromSignIn(evs[..k], n);
    var i :| 0 <= i < k && evs[..k][i].request == SignIn(n);
    assert evs[i] == evs[..k][i];
  }

  /** A replaced nonce is dead: once the sign-in at `i` has replaced it, and no
      sign-in from `i` up to step `k` issues it again, a callback carrying it at
      step `k` makes no exchange, whatever other requests came in between. */
  lemma SupersededNonceRejected(s: Session, evs: seq<Event>, i: nat, k: nat, n: string)
    requires i < k < |evs| && evs[i].request.SignIn?
    requires forall m :: i <= m < k && evs[m].request.SignIn? ==> evs[m].request.nonce != n
    requires evs[k].request.Callback? && evs[k].request.params.state == Some(n)
    ensures Handle(Run(s, evs[..k]), evs[k].request, evs[k].outcome).exchange == NoExchange
  {
    StateProvenance(s, evs[..k]);
    LastNonceFrom(s.state, evs[..k], i);
    var m :| i <= m < k && evs[..k][m].request.SignIn? && LastNonce(s.state, evs[..k]) == Some(evs[..k][m].request.nonce);
    assert evs[m] == evs[..k][m];
  }

  /** From a fresh session, a signed-in session holds an access token that a
      token endpoint call made during the run reported. */
  lemma SignedInOnlyThroughOutcome(evs: seq<Event>)
    requires SignedIn(Run(EmptySession, evs))
    ensures Run(EmptySession, evs).access in Reported(EmptySession, evs)
  {
    AccessProvenance(EmptySession, evs);
  }
}
