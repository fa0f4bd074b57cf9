/** Sequences of requests against one store: the state machine a token's
    record goes through (pending, then verified for good) and the end-to-end
    flow from issuance to gated use. The signer is fixed for the whole run,
    since the process reads its secret once. */
module Lifecycle {
  import opened Wrappers
  import opened Text
  import opened Clock
  import opened Http
  import opened Signing
  import opened Models
  import opened Views

  /** One request to one of the views, with the inputs the view cannot
      compute itself (the signer's random nonce, the mail outcome). */
  datatype Action =
    | SubmitEmailCall(request: Request, nonce: Nonce, delivered: bool)
    | VerifyEmailCall(request: Request)
    | SubmitFeedbackCall(request: Request)
    | BadJsonCall(request: Request)
    | CheckTokenCall(request: Request)

  datatype Event = Event(now: Time, action: Action)

  function Step(store: Store, crypto: Crypto, event: Event): Store {
    match event.action
    case SubmitEmailCall(request, nonce, delivered) =>
      SubmitEmail(store, request, event.now, crypto, nonce, delivered).store
    case VerifyEmailCall(request) => VerifyEmail(store, request, event.now, crypto).store
    case SubmitFeedbackCall(request) => SubmitFeedback(store, request, event.now).store
    case BadJsonCall(_) => store
    case CheckTokenCall(_) => store
  }

  function Run(store: Store, crypto: Crypto, events: seq<Event>): Store
    decreases |events|
  {
    if events == [] then store else Run(Step(store, crypto, events[0]), crypto, events[1..])
  }

  /** How a store may move on: no record disappears, no field of a record
      but `verified` changes, `verified` never goes back to false, and the
      feedback only grows at its end. */
  ghost predicate Evolves(store: Store, store': Store) {
    && (forall t :: t in store.verifications ==>
          && t in store'.verifications
          && store'.verifications[t].(verified := false) == store.verifications[t].(verified := false)
          && (store.verifications[t].verified ==> store'.verifications[t].verified))
    && store.feedback <= store'.feedback
  }

  lemma EvolvesTransitive(s1: Store, s2: Store, s3: Store)
    requires Evolves(s1, s2) && Evolves(s2, s3)
    ensures Evolves(s1, s3)
  {
  }

  lemma StepEvolves(store: Store, crypto: Crypto, event: Event)
    ensures Evolves(store, Step(store, crypto, event))
  {
  }

  /** Over any run of requests, records are never lost, only their
      `verified` flag ever changes, and VERIFIED is terminal. */
  lemma {:induction false} RunEvolves(store: Store, crypto: Crypto, events: seq<Event>)
    ensures Evolves(store, Run(store, crypto, events))
    decreases |events|
  {
    if events != [] {
      var next := Step(store, crypto, events[0]);
      StepEvolves(store, crypto, events[0]);
      RunEvolves(next, crypto, events[1..]);
      EvolvesTransitive(store, next, Run(next, crypto, events[1..]));
    }
  }

  lemma StepKeepsValid(store: Store, crypto: Crypto, event: Event)
    requires Valid(store)
    ensures Valid(Step(store, crypto, event))
  {
  }

  /** Every run keeps the store valid: tokens unique and in their columns,
      no record expiring before its creation, feedback within its columns. */
  lemma {:induction false} RunKeepsValid(store: Store, crypto: Crypto, events: seq<Event>)
    requires Valid(store)
    ensures Valid(Run(store, crypto, events))
    decreases |events|
  {
    if events != [] {
      StepKeepsValid(store, crypto, events[0]);
      RunKeepsValid(Step(store, crypto, events[0]), crypto, events[1..]);
    }
  }

  /** Every stored feedback row names a stored, verified token. */
  ghost predicate FeedbackAuthorized(store: Store) {
    forall i :: 0 <= i < |store.feedback| ==>
      && store.feedback[i].token in store.verifications
      && store.verifications[store.feedback[i].token].verified
  }

  lemma StepKeepsFeedbackAuthorized(store: Store, crypto: Crypto, event: Event)
    requires FeedbackAuthorized(store)
    ensures FeedbackAuthorized(Step(store, crypto, event))
  {

  }

  /** Over any run from a store whose feedback names verified tokens, every
      feedback row, old or new, names a stored, verified token. */
  lemma {:induction false} RunKeepsFeedbackAuthorized(store: Store, crypto: Crypto, events: seq<Event>)
    requires FeedbackAuthorized(store)
    ensures FeedbackAuthorized(Run(store, crypto, events))
    decreases |events|
  {
    if events != [] {
      StepKeepsFeedbackAuthorized(store, crypto, events[0]);
      RunKeepsFeedbackAuthorized(Step(store, crypto, events[0]), crypto, events[1..]);
    }
  }

  /** Once a token is verified, no later request makes the gate refuse it:
      the probe keeps answering 200 and the gate keeps passing. */
  lemma VerifiedStaysAuthorized(store: Store, crypto: Crypto, events: seq<Event>, request: Request)
    requires Authorize(store, request).Success?
    ensures Authorize(Run(store, crypto, events), request).Success?
  {
    RunEvolves(store, crypto, events);
  }

  /** The whole flow for one e-mail. After issuance the probe reports 403;
      confirming from a request with the same headers within 24 hours
      succeeds; the probe then reports 200 and a complete feedback is stored
      under the token; a second confirmation is refused with 409. */
  lemma IssueConfirmUse(
    store: Store, crypto: Crypto, nonce: Nonce, issue: Request, issuedAt: Time, confirmedAt: Time,
    line: string, destination: string, geoLocation: string, submittedAt: Time)
    requires Valid(store)
    requires issue.verb == Post && Truthy(Field(issue.data, "email"))
    requires IssuedRecord(issue, issuedAt, crypto, nonce).FitsSchema()
    requires IssuedRecord(issue, issuedAt, crypto, nonce).token !in store.verifications
    requires issuedAt <= confirmedAt <= issuedAt + Hours(TokenExpiryHours)
    requires line != "" && destination != "" && geoLocation != ""
    requires |line| <= 100 && |destination| <= 100 && |geoLocation| <= 100
    ensures var token := IssuedRecord(issue, issuedAt, crypto, nonce).token;
            var s1 := SubmitEmail(store, issue, issuedAt, crypto, nonce, true).store;
            var probe := Request(Get, map["token" := token], map[], map[]);
            var confirm := Request(Post, map[], map["token" := token], issue.meta);
            var s2 := VerifyEmail(s1, confirm, confirmedAt, crypto).store;
            var use := Request(Post, map[], map["token" := token, "line" := line,
                                             "destination" := destination, "geo_location" := geoLocation], map[]);
            && SubmitEmail(store, issue, issuedAt, crypto, nonce, true).reply == VerificationEmailSent
            && CheckToken(s1, probe) == NotVerified
            && VerifyEmail(s1, confirm, confirmedAt, crypto).reply == EmailVerified
            && CheckToken(s2, probe) == TokenOk
            && SubmitFeedback(s2, use, submittedAt).reply == FeedbackSubmitted
            && SubmitFeedback(s2, use, submittedAt).store.feedback
                 == store.feedback + [Feedback(token, submittedAt, line, destination, geoLocation)]
            && VerifyEmail(s2, confirm, confirmedAt, crypto).reply == AlreadyVerified
  {
  }
}
