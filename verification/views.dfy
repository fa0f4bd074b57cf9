/** The request handlers of feedback/views.py as pure transitions: each takes
    the store, the request and the injected clock and collaborators, and
    returns the reply together with the store afterwards. Read-only handlers
    return only the reply. */
module Views {
  import opened Wrappers
  import opened Text
  import opened Clock
  import opened Http
  import opened Signing
  import opened Models

  /** Why `IsValidTokenPermission` refuses a request. */
  datatype GateError = TokenAbsent | TokenNotFound | EmailUnverified
  {
    /** `AuthenticationFailed` (401) for a missing or unknown token,
        `PermissionDenied` (403) for an unverified one. */
    function Status(): int {
      if EmailUnverified? then 403 else 401
    }
  }

  /** A failure the views do not catch: a refused insert, or a failed
      `send_mail`. */
  datatype ServerFault = StoreFault(error: StoreError) | MailFault

  /** Every reply the views produce, one constructor per distinct message. */
  datatype Reply =
    | VerificationEmailSent | EmailRequired
    | TokenRequired | InvalidTokenFormat | InvalidToken | AlreadyVerified
    | TokenExpired | DeviceMismatch | EmailVerified
    | Denied(reason: GateError) | AllFieldsRequired | FeedbackSubmitted | BadJsonReceived
    | UnknownToken | NotVerified | TokenOk
    | MethodNotAllowed | ServerError(fault: ServerFault)
  {
    function Status(): int {
      match this
      case VerificationEmailSent | EmailVerified | FeedbackSubmitted | BadJsonReceived | TokenOk => 200
      case EmailRequired | TokenRequired | InvalidTokenFormat | DeviceMismatch | AllFieldsRequired => 400
      case Denied(reason) => reason.Status()
      case NotVerified => 403
      case InvalidToken | UnknownToken => 404
      case MethodNotAllowed => 405
      case AlreadyVerified => 409
      case TokenExpired => 410
      case ServerError(_) => 500
    }
  }

  datatype Outcome = Outcome(reply: Reply, store: Store)

  /** The e-mail handed to the mail transport: its recipient and the token
      its verification link carries. */
  datatype VerificationMail = VerificationMail(recipient: string, token: string)

  datatype Issuance = Issuance(reply: Reply, store: Store, mail: Option<VerificationMail>)

  /** Python's `all([...])` over the named request fields. */
  predicate AllTruthy(params: Params, keys: seq<string>) {
    forall i :: 0 <= i < |keys| ==> Truthy(Field(params, keys[i]))
  }

  // ---------------------------------------------------------------------
  // The token gate
  // ---------------------------------------------------------------------

  /** Where the gate finds the token: the query string of a GET, the body of
      anything else. */
  function GateToken(request: Request): Option<string> {
    if request.verb == Get then Field(request.query, "token") else Field(request.data, "token")
  }

  /** `IsValidTokenPermission.has_permission`: passes exactly when the token
      is present, stored and verified, handing back the record; it never
      changes the store. */
  function Authorize(store: Store, request: Request): (r: Result<EmailVerification, GateError>)
    ensures r.Success? <==>
      && Truthy(GateToken(request))
      && GateToken(request).value in store.verifications
      && store.verifications[GateToken(request).value].verified
    ensures r.Success? ==> r.value == store.verifications[GateToken(request).value]
    ensures r == Failure(TokenAbsent) <==> !Truthy(GateToken(request))
    ensures r == Failure(TokenNotFound) <==>
      Truthy(GateToken(request)) && GateToken(request).value !in store.verifications
  {
    var token := GateToken(request);
    if !Truthy(token) then Failure(TokenAbsent)
    else if token.value !in store.verifications then Failure(TokenNotFound)
    else if !store.verifications[token.value].verified then Failure(EmailUnverified)
    else Success(store.verifications[token.value])
  }

  // ---------------------------------------------------------------------
  // Issuance
  // ---------------------------------------------------------------------

  /** `SubmitEmailView.TOKEN_EXPIRY_HOURS`. */
  const TokenExpiryHours := 24

  /** `request.data.get('platform') or 'web'`. */
  function RequestedPlatform(request: Request): string {
    var platform := Field(request.data, "platform");
    if Truthy(platform) then platform.value else DefaultPlatform
  }

  /** The record SubmitEmail asks the store to insert. */
  function IssuedRecord(request: Request, now: Time, crypto: Crypto, nonce: Nonce): EmailVerification
    requires Truthy(Field(request.data, "email"))
  {
    var email := request.data["email"];
    var deviceId := DeviceId(request.meta, crypto);
    EmailVerification(
      email, GenerateToken(crypto, email, deviceId, now, nonce), deviceId,
      RequestedPlatform(request), now, now + Hours(TokenExpiryHours), false)
  }

  /** `SubmitEmailView.post`. `nonce` is the random draw of the signer and
      `delivered` whether the mail transport accepted the message. The mail is
      sent only after the insert, and a failed delivery does not undo it. */
  function SubmitEmail(store: Store, request: Request, now: Time, crypto: Crypto, nonce: Nonce, delivered: bool): (r: Issuance)
    ensures request.verb != Post ==> r == Issuance(MethodNotAllowed, store, None)
    ensures request.verb == Post && !Truthy(Field(request.data, "email")) ==>
      r == Issuance(EmailRequired, store, None)
    ensures r.store != store <==> r.mail.Some?
    ensures r.store != store ==>
      && Truthy(Field(request.data, "email"))
      && Inserted(store, r.store, IssuedRecord(request, now, crypto, nonce))
    ensures r.mail.Some? ==>
      r.mail.value == VerificationMail(request.data["email"], IssuedRecord(request, now, crypto, nonce).token)
    ensures r.reply == VerificationEmailSent <==> r.mail.Some? && delivered
  {
    if request.verb != Post then Issuance(MethodNotAllowed, store, None)
    else if !Truthy(Field(request.data, "email")) then Issuance(EmailRequired, store, None)
    else
      var ev := IssuedRecord(request, now, crypto, nonce);
      match CreateVerification(store, ev)
      case Failure(e) => Issuance(ServerError(StoreFault(e)), store, None)
      case Success(store') =>
        var mail := VerificationMail(ev.email, ev.token);
        if delivered then Issuance(VerificationEmailSent, store', Some(mail))
        else Issuance(ServerError(MailFault), store', Some(mail))
  }

  /** What a stored issuance looks like: a single new record under a fresh
      64-character hex token, pending, carrying the e-mail, the given platform
      or `web`, the request's device id (never blank, so always bound), and an
      expiry 24 hours after its creation. It fails, leaving the store as it
      was, only when a value is too long or the token is taken. */
  lemma SubmitEmailAddsPendingRecord(store: Store, request: Request, now: Time, crypto: Crypto, nonce: Nonce, delivered: bool)
    requires request.verb == Post && Truthy(Field(request.data, "email"))
    ensures var r := SubmitEmail(store, request, now, crypto, nonce, delivered);
            var token := IssuedRecord(request, now, crypto, nonce).token;
            && (r.store == store <==>
                  !IssuedRecord(request, now, crypto, nonce).FitsSchema() || token in store.verifications)
            && (r.store != store ==>
                  && token !in store.verifications
                  && r.store.verifications.Keys == store.verifications.Keys + {token}
                  && (forall t :: t in store.verifications ==> r.store.verifications[t] == store.verifications[t])
                  && r.store.feedback == store.feedback
                  && |token| == HexDigestLength && IsLowerHex(token)
                  && var ev := r.store.verifications[token];
                     && ev.token == token
                     && ev.email == request.data["email"]
                     && !ev.verified
                     && ev.platform == (if Truthy(Field(request.data, "platform")) then request.data["platform"] else "web")
                     && ev.deviceId == DeviceId(request.meta, crypto)
                     && ev.IsBound()
                     && ev.createdAt == now
                     && ev.expiresAt == now + 24 * 3600 * 1_000_000)
  {
  }

  lemma SubmitEmailKeepsValid(store: Store, request: Request, now: Time, crypto: Crypto, nonce: Nonce, delivered: bool)
    requires Valid(store)
    ensures Valid(SubmitEmail(store, request, now, crypto, nonce, delivered).store)
  {
  }

  // ---------------------------------------------------------------------
  // Confirmation
  // ---------------------------------------------------------------------

  /** When a confirmation succeeds, stated without the order of the checks:
      a well-formed token of a stored, pending, unexpired record whose device
      binding, if any, matches the confirming device. */
  ghost predicate Confirmable(store: Store, now: Time, token: string, device: string) {
    && |token| == HexDigestLength
    && token in store.verifications
    && !store.verifications[token].verified
    && !IsExpired(now, store.verifications[token].expiresAt)
    && (!store.verifications[token].IsBound() || store.verifications[token].deviceId == device)
  }

  /** `VerifyEmailView.post`: a chain of rejections, none of which touches
      the store, then the one-way flip of `verified`. */
  function VerifyEmail(store: Store, request: Request, now: Time, crypto: Crypto): (r: Outcome)
    ensures r.reply == EmailVerified <==>
      && request.verb == Post
      && Truthy(Field(request.data, "token"))
      && Confirmable(store, now, request.data["token"], DeviceId(request.meta, crypto))
    ensures r.reply == EmailVerified ==> Flipped(store, r.store, request.data["token"])
    ensures r.reply != EmailVerified ==> r.store == store
  {
    if request.verb != Post then Outcome(MethodNotAllowed, store)
    else
      var token := Field(request.data, "token");
      if !Truthy(token) then Outcome(TokenRequired, store)
      else if |token.value| != HexDigestLength then Outcome(InvalidTokenFormat, store)
      else if token.value !in store.verifications then Outcome(InvalidToken, store)
      else
        var ev := store.verifications[token.value];
        if ev.verified then Outcome(AlreadyVerified, store)
        else if IsExpired(now, ev.expiresAt) then Outcome(TokenExpired, store)
        else if ev.IsBound() && ev.deviceId != DeviceId(request.meta, crypto) then Outcome(DeviceMismatch, store)
        else Outcome(EmailVerified, MarkVerified(store, token.value))
  }

  /** The malformed-request rejections come first, in this order, each with
      status 400 or 404 and no change to the store. */
  lemma VerifyRejectsMalformed(store: Store, request: Request, now: Time, crypto: Crypto)
    requires request.verb == Post
    ensures var token := Field(request.data, "token");
            var r := VerifyEmail(store, request, now, crypto);
            && (!Truthy(token) ==> r == Outcome(TokenRequired, store) && r.reply.Status() == 400)
            && (Truthy(token) && |token.value| != 64 ==>
                  r == Outcome(InvalidTokenFormat, store) && r.reply.Status() == 400)
            && (Truthy(token) && |token.value| == 64 && token.value !in store.verifications ==>
                  r == Outcome(InvalidToken, store) && r.reply.Status() == 404)
  {
  }

  /** A verified record is refused with 409 before expiry or device are
      looked at, and stays verified. */
  lemma VerifyRejectsReplay(store: Store, request: Request, now: Time, crypto: Crypto)
    requires request.verb == Post && Truthy(Field(request.data, "token"))
    requires |request.data["token"]| == 64
    requires request.data["token"] in store.verifications
    requires store.verifications[request.data["token"]].verified
    ensures VerifyEmail(store, request, now, crypto) == Outcome(AlreadyVerified, store)
    ensures VerifyEmail(store, request, now, crypto).reply.Status() == 409
  {
  }

  /** Expiry is strict: a pending record is refused with 410 and left pending
      once the clock is past its expiry, whatever the device; at exactly the
      expiry instant it is still confirmed. */
  lemma VerifyExpiryIsStrict(store: Store, request: Request, now: Time, crypto: Crypto)
    requires request.verb == Post && Truthy(Field(request.data, "token"))
    requires |request.data["token"]| == 64
    requires request.data["token"] in store.verifications
    requires !store.verifications[request.data["token"]].verified
    ensures var ev := store.verifications[request.data["token"]];
            && (now > ev.expiresAt ==>
                  && VerifyEmail(store, request, now, crypto) == Outcome(TokenExpired, store)
                  && VerifyEmail(store, request, now, crypto).reply.Status() == 410)
            && (now == ev.expiresAt && (!ev.IsBound() || ev.deviceId == DeviceId(request.meta, crypto)) ==>
                  VerifyEmail(store, request, now, crypto).reply == EmailVerified)
  {
  }

  /** Device binding applies only to records with a stored device id: for a
      bound record another device is refused with 400, an unbound record is
      confirmed from any device. */
  lemma VerifyDeviceBinding(store: Store, request: Request, now: Time, crypto: Crypto)
    requires request.verb == Post && Truthy(Field(request.data, "token"))
    requires |request.data["token"]| == 64
    requires request.data["token"] in store.verifications
    requires !store.verifications[request.data["token"]].verified
    requires !IsExpired(now, store.verifications[request.data["token"]].expiresAt)
    ensures var ev := store.verifications[request.data["token"]];
            && (ev.deviceId != "" && ev.deviceId != DeviceId(request.meta, crypto) ==>
                  && VerifyEmail(store, request, now, crypto) == Outcome(DeviceMismatch, store)
                  && VerifyEmail(store, request, now, crypto).reply.Status() == 400)
            && (ev.deviceId == "" ==> VerifyEmail(store, request, now, crypto).reply == EmailVerified)
  {
  }

  /** A successful confirmation changes one field of one record, `verified`,
      from false to true; every other record, every other field and the
      feedback are as before. */
  lemma VerifyChangesOnlyVerifiedFlag(store: Store, request: Request, now: Time, crypto: Crypto)
    requires VerifyEmail(store, request, now, crypto).reply == EmailVerified
    ensures var token := request.data["token"];
            var store' := VerifyEmail(store, request, now, crypto).store;
            && store'.verifications.Keys == store.verifications.Keys
            && (forall t :: t in store.verifications && t != token ==> store'.verifications[t] == store.verifications[t])
            && !store.verifications[token].verified
            && store'.verifications[token].verified
            && store'.verifications[token].(verified := false) == store.verifications[token]
            && store'.feedback == store.feedback
  {
  }

  /** Confirming the same token twice: once the first call succeeds, any
      later confirmation of that token, from any device at any time, is
      refused with 409. */
  lemma VerifyTwice(store: Store, first: Request, second: Request, now: Time, later: Time, crypto: Crypto)
    requires VerifyEmail(store, first, now, crypto).reply == EmailVerified
    requires second.verb == Post && Field(second.data, "token") == Field(first.data, "token")
    ensures var store' := VerifyEmail(store, first, now, crypto).store;
            VerifyEmail(store', second, later, crypto) == Outcome(AlreadyVerified, store')
  {
  }

  /** The link in the verification e-mail is opened with a GET carrying the
      token in its query string; the confirmation view only handles POST, so
      following the link is refused with 405 and confirms nothing. */
  lemma VerificationLinkIsRefused(store: Store, token: string, meta: Params, now: Time, crypto: Crypto)
    ensures var link := Request(Get, map["token" := token], map[], meta);
            && VerifyEmail(store, link, now, crypto) == Outcome(MethodNotAllowed, store)
            && VerifyEmail(store, link, now, crypto).reply.Status() == 405
  {
  }

  lemma VerifyEmailKeepsValid(store: Store, request: Request, now: Time, crypto: Crypto)
    requires Valid(store)
    ensures Valid(VerifyEmail(store, request, now, crypto).store)
  {
  }

  // ---------------------------------------------------------------------
  // Gated actions and the status probe
  // ---------------------------------------------------------------------

  const FeedbackFields := ["token", "line", "destination", "geo_location"]

  /** `SubmitFeedbackView.post` behind the gate. The gate runs before the
      method is dispatched, so a refused token wins over a wrong method. */
  function SubmitFeedback(store: Store, request: Request, now: Time): (r: Outcome)
    ensures Authorize(store, request).Failure? ==>
      r == Outcome(Denied(Authorize(store, request).error), store)
    ensures r.reply == FeedbackSubmitted <==>
      && Authorize(store, request).Success?
      && request.verb == Post
      && AllTruthy(request.data, FeedbackFields)
      && |request.data["line"]| <= FeedbackTextMaxLength
      && |request.data["destination"]| <= FeedbackTextMaxLength
      && |request.data["geo_location"]| <= FeedbackTextMaxLength
      && |request.data["token"]| <= TokenMaxLength
    ensures r.reply == FeedbackSubmitted ==>
      && r.store.verifications == store.verifications
      && r.store.feedback == store.feedback + [Feedback(
           request.data["token"], now, request.data["line"],
           request.data["destination"], request.data["geo_location"])]
    ensures r.reply != FeedbackSubmitted ==> r.store == store
  {
    match Authorize(store, request)
    case Failure(e) => Outcome(Denied(e), store)
    case Success(_) =>
      if request.verb != Post then Outcome(MethodNotAllowed, store)
      else if !AllTruthy(request.data, FeedbackFields) then Outcome(AllFieldsRequired, store)
      else
        assert Truthy(Field(request.data, FeedbackFields[1]));
        assert Truthy(Field(request.data, FeedbackFields[2]));
        assert Truthy(Field(request.data, FeedbackFields[3]));
        var fb := Feedback(
          request.data["token"], now, request.data["line"],
          request.data["destination"], request.data["geo_location"]);
        match CreateFeedback(store, fb)
        case Failure(e) => Outcome(ServerError(StoreFault(e)), store)
        case Success(store') => Outcome(FeedbackSubmitted, store')
  }

  /** Stored feedback always names a verified token: the gate reads the
      token from the same body field the handler stores. */
  lemma FeedbackNamesVerifiedToken(store: Store, request: Request, now: Time)
    requires SubmitFeedback(store, request, now).reply == FeedbackSubmitted
    ensures var store' := SubmitFeedback(store, request, now).store;
            && |store'.feedback| == |store.feedback| + 1
            && store'.feedback[|store.feedback|].token in store.verifications
            && store.verifications[store'.feedback[|store.feedback|].token].verified
  {
  }

  lemma SubmitFeedbackKeepsValid(store: Store, request: Request, now: Time)
    requires Valid(store)
    ensures Valid(SubmitFeedback(store, request, now).store)
  {
  }

  const BadJsonFields := ["token", "json", "target"]

  /** `BadJsonView.post`: the same gate, a presence check on three fields,
      and nothing stored. */
  function BadJson(store: Store, request: Request): (r: Reply)
    ensures Authorize(store, request).Failure? ==> r == Denied(Authorize(store, request).error)
    ensures r == BadJsonReceived <==>
      Authorize(store, request).Success? && request.verb == Post && AllTruthy(request.data, BadJsonFields)
  {
    match Authorize(store, request)
    case Failure(e) => Denied(e)
    case Success(_) =>
      if request.verb != Post then MethodNotAllowed
      else if !AllTruthy(request.data, BadJsonFields) then AllFieldsRequired
      else BadJsonReceived
  }

  /** The two gated views share the gate: on any request one is refused by
      it exactly when the other is, for the same reason. */
  lemma BadJsonSharesGate(store: Store, request: Request, now: Time)
    ensures BadJson(store, request).Denied? <==> SubmitFeedback(store, request, now).reply.Denied?
    ensures BadJson(store, request).Denied? ==> BadJson(store, request) == SubmitFeedback(store, request, now).reply
  {
  }

  /** `CheckTokenView.get`: a read-only probe of a query-string token. */
  function CheckToken(store: Store, request: Request): (r: Reply)
    ensures request.verb != Get ==> r == MethodNotAllowed
    ensures request.verb == Get ==>
      var token := Field(request.query, "token");
      && (r == TokenRequired <==> !Truthy(token))
      && (r == UnknownToken <==> Truthy(token) && token.value !in store.verifications)
      && (r == NotVerified <==>
            Truthy(token) && token.value in store.verifications && !store.verifications[token.value].verified)
      && (r == TokenOk <==>
            Truthy(token) && token.value in store.verifications && store.verifications[token.value].verified)
  {
    if request.verb != Get then MethodNotAllowed
    else
      var token := Field(request.query, "token");
      if !Truthy(token) then TokenRequired
      else if token.value !in store.verifications then UnknownToken
      else if !store.verifications[token.value].verified then NotVerified
      else TokenOk
  }

  /** On a GET the probe and the gate agree: the probe answers 200 exactly
      when the gate passes, and each refusal of the gate has its own probe
      reply (400, 404, 403). */
  lemma CheckTokenMatchesGate(store: Store, request: Request)
    requires request.verb == Get
    ensures CheckToken(store, request) == TokenOk <==> Authorize(store, request).Success?
    ensures CheckToken(store, request) == TokenRequired <==> Authorize(store, request) == Failure(TokenAbsent)
    ensures CheckToken(store, request) == UnknownToken <==> Authorize(store, request) == Failure(TokenNotFound)
    ensures CheckToken(store, request) == NotVerified <==> Authorize(store, request) == Failure(EmailUnverified)
  {
  }
}
