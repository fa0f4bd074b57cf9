/** The two tables of feedback/models.py and the store that holds them.

    Verification records are keyed by token, which is how the unique index on
    `EmailVerification.token` shows up here: the map cannot hold two records
    under one token, and an insert under a token already present fails. The
    `max_length` limits of the schema are treated as enforced by the store, as
    a database with bounded character columns does. */
module Models {
  import opened Wrappers
  import opened Text
  import opened Clock

  /** Column limits: `EmailField` (default 254), the two token columns,
      `device_id`, `platform`, and the three free-text feedback columns. */
  const EmailMaxLength := 254
  const TokenMaxLength := 64
  const DeviceIdMaxLength := 100
  const PlatformMaxLength := 20
  const FeedbackTextMaxLength := 100

  const DefaultPlatform := "web"

  datatype EmailVerification = EmailVerification(
    email: string,
    token: string,
    deviceId: string,
    platform: string,
    createdAt: Time,
    expiresAt: Time,
    verified: bool)
  {
    /** A record is device-bound when a device id was stored; a blank one
        means confirmation may come from any device. */
    predicate IsBound() {
      deviceId != ""
    }

    predicate FitsSchema() {
      && |email| <= EmailMaxLength
      && |token| <= TokenMaxLength
      && |deviceId| <= DeviceIdMaxLength
      && |platform| <= PlatformMaxLength
    }

    function StatusText(): string {
      if verified then "verified" else "pending"
    }

    /** `EmailVerification.__str__`. */
    function Render(): string {
      email + " (" + platform + ") - " + StatusText()
    }
  }

  /** A record built from the field defaults alone: blank device id, platform
      `web`, not verified, and the default expiry read from the same clock
      instant as its creation time. */
  function NewEmailVerification(email: string, token: string, now: Time): EmailVerification {
    EmailVerification(email, token, "", DefaultPlatform, now, now, false)
  }

  datatype Feedback = Feedback(
    token: string,
    timestamp: Time,
    line: string,
    destination: string,
    geoLocation: string)
  {
    predicate FitsSchema() {
      && |token| <= TokenMaxLength
      && |line| <= FeedbackTextMaxLength
      && |destination| <= FeedbackTextMaxLength
      && |geoLocation| <= FeedbackTextMaxLength
    }
  }

  datatype Store = Store(verifications: map<string, EmailVerification>, feedback: seq<Feedback>)

  /** A stored record sits under its own token, fits its columns, and does
      not expire before it was created. */
  predicate RecordValid(key: string, ev: EmailVerification) {
    ev.token == key && ev.FitsSchema() && ev.createdAt <= ev.expiresAt
  }

  ghost predicate Valid(store: Store) {
    && (forall t :: t in store.verifications ==> RecordValid(t, store.verifications[t]))
    && (forall i :: 0 <= i < |store.feedback| ==> store.feedback[i].FitsSchema())
  }

  datatype StoreError = IntegrityError | DataError

  /** `store'` is `store` with `ev` added under a token that was free, and
      nothing else changed. */
  ghost predicate Inserted(store: Store, store': Store, ev: EmailVerification) {
    && ev.token !in store.verifications
    && store'.verifications == store.verifications[ev.token := ev]
    && store'.feedback == store.feedback
  }

  /** `store'` is `store` with the pending record under `token` now verified,
      and nothing else changed: no other field, no other record, no feedback. */
  ghost predicate Flipped(store: Store, store': Store, token: string) {
    && token in store.verifications
    && !store.verifications[token].verified
    && store'.verifications == store.verifications[token := store.verifications[token].(verified := true)]
    && store'.feedback == store.feedback
  }

  /** `EmailVerification.objects.create(...)`. An over-long value is refused
      first (the row cannot be formed), then a token already present (the
      unique index). */
  function CreateVerification(store: Store, ev: EmailVerification): (r: Result<Store, StoreError>)
    ensures r.Success? <==> ev.FitsSchema() && ev.token !in store.verifications
    ensures r == Failure(DataError) <==> !ev.FitsSchema()
    ensures r == Failure(IntegrityError) <==> ev.FitsSchema() && ev.token in store.verifications
    ensures r.Success? ==> Inserted(store, r.value, ev) && |r.value.verifications| == |store.verifications| + 1
  {
    if !ev.FitsSchema() then Failure(DataError)
    else if ev.token in store.verifications then Failure(IntegrityError)
    else Success(store.(verifications := store.verifications[ev.token := ev]))
  }

  /** `Feedback.objects.create(...)`: appends one row unless a value is too
      long for its column. */
  function CreateFeedback(store: Store, fb: Feedback): (r: Result<Store, StoreError>)
    ensures r.Success? <==> fb.FitsSchema()
    ensures r.Failure? ==> r.error == DataError
    ensures r.Success? ==> r.value.verifications == store.verifications
    ensures r.Success? ==> |r.value.feedback| == |store.feedback| + 1
    ensures r.Success? ==> r.value.feedback[..|store.feedback|] == store.feedback
    ensures r.Success? ==> r.value.feedback[|store.feedback|] == fb
  {
    if fb.FitsSchema() then Success(store.(feedback := store.feedback + [fb])) else Failure(DataError)
  }

  /** `ev.verified = True; ev.save()` on the record found under `token`. */
  function MarkVerified(store: Store, token: string): (store': Store)
    requires token in store.verifications && !store.verifications[token].verified
    ensures Flipped(store, store', token)
    ensures store'.verifications.Keys == store.verifications.Keys
    ensures store'.verifications[token].verified
  {
    store.(verifications := store.verifications[token := store.verifications[token].(verified := true)])
  }

  /** Tokens are unique across stored records: two keys whose records carry
      the same token are the same key. */
  lemma TokensUnique(store: Store, t1: string, t2: string)
    requires Valid(store)
    requires t1 in store.verifications && t2 in store.verifications
    requires store.verifications[t1].token == store.verifications[t2].token
    ensures t1 == t2
  {
  }

  /** Inserting keeps the store valid when the record does not expire before
      it is created. */
  lemma CreateVerificationKeepsValid(store: Store, ev: EmailVerification)
    requires Valid(store)
    requires ev.createdAt <= ev.expiresAt
    ensures CreateVerification(store, ev).Success? ==> Valid(CreateVerification(store, ev).value)
  {
  }

  lemma CreateFeedbackKeepsValid(store: Store, fb: Feedback)
    requires Valid(store)
    ensures CreateFeedback(store, fb).Success? ==> Valid(CreateFeedback(store, fb).value)
  {
  }

  lemma MarkVerifiedKeepsValid(store: Store, token: string)
    requires Valid(store)
    requires token in store.verifications && !store.verifications[token].verified
    ensures Valid(MarkVerified(store, token))
  {
  }

  /** The rendered status reads "verified" exactly when the record is
      verified, and "pending" exactly when it is not. */
  lemma {:induction false} RenderShowsStatus(ev: EmailVerification)
    ensures EndsWith(ev.Render(), "verified") <==> ev.verified
    ensures EndsWith(ev.Render(), "pending") <==> !ev.verified
  {
    var s := ev.Render();
    if ev.verified {
      assert s[|s| - 1] == 'd';
      assert s[|s| - 7..][6] == s[|s| - 1];
    } else {
      assert s[|s| - 1] == 'g';
      assert s[|s| - 8..][7] == s[|s| - 1];
    }
  }

  /** A record made from the field defaults is pending, platform `web` and
      unbound; its default expiry is the instant it was given, which the
      strict expiry test still admits and one microsecond later does not. */
  lemma NewEmailVerificationDefaults(email: string, token: string, now: Time)
    ensures !NewEmailVerification(email, token, now).verified
    ensures NewEmailVerification(email, token, now).platform == "web"
    ensures !NewEmailVerification(email, token, now).IsBound()
    ensures EndsWith(NewEmailVerification(email, token, now).Render(), "pending")
    ensures !IsExpired(now, NewEmailVerification(email, token, now).expiresAt)
    ensures IsExpired(now + 1, NewEmailVerification(email, token, now).expiresAt)
  {
    RenderShowsStatus(NewEmailVerification(email, token, now));
  }
}
