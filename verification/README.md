# Email-verification token lifecycle — a Dafny model

This project models the core of a small Django REST backend that gates feedback
submission behind e-mail verification. A client submits an e-mail address. The
server signs a token, stores a pending `EmailVerification` record bound to the
client's device, and mails a link. Confirming the token flips the record to
verified, once and for good. A verified token then admits the client to the
gated views, which store `Feedback` rows.

The model is functional. Each view is a pure function from (store, clock,
request, injected collaborators) to (reply, new store). Read-only views return
only the reply. The store is a `map<string, EmailVerification>` keyed by token,
plus a `seq<Feedback>`.

Modules:

- `Wrappers` (wrappers.dfy): `Option` and `Result`.
- `Text` (text.dfy): lower-case hex digests, suffix tests, and Python's `str(int)` with its inverse.
- `Clock` (clock.dfy): time in microseconds, `int(t.timestamp())` truncation, and the strict expiry test.
- `Http` (http.dfy): the request fields the views read. The HTTP method is the field `verb`.
- `Signing` (signing.dfy): device fingerprinting, the signed message, and token generation.
- `Models` (models.dfy): the two tables, their column limits, the field defaults, `__str__`, and the store's inserts and update.
- `Views` (views.dfy): the token gate, `SubmitEmail`, `VerifyEmail`, `SubmitFeedback`, `BadJson` and `CheckToken`.
- `Lifecycle` (lifecycle.dfy): runs of many requests, the PENDING → VERIFIED state machine, and the end-to-end flow.

Injected collaborators:

- SHA-256, HMAC-SHA256 and the secret key are fields of a `Crypto` value. The two hash functions are function values whose result type is a 64-character lower-case hex digest. Nothing else is known about them.
- The clock is a `Time` argument. The model reads it once per request.
- The random nonce of `secrets.token_urlsafe(8)` is an argument of type `Nonce` (11 URL-safe characters).
- The mail transport's result is the boolean `delivered`. The mail itself is a `VerificationMail(recipient, token)` event.

Behaviour of the code worth knowing:

- **One record per submission.** `SubmitEmail` inserts a new record every time. It never overwrites an earlier record for the same e-mail. A second insert under a token that is already stored fails at the unique index (an uncaught `IntegrityError`, so a 500).
- **Device binding is always on for issued records.** `get_device_id` never returns a blank id: a missing or empty header falls back to a 32-character hash. So every record `SubmitEmail` creates is device-bound (`Views.SubmitEmailAddsPendingRecord`). The unbound state (blank `device_id`) only occurs for records created by other means, such as the field default (`Models.NewEmailVerificationDefaults`).
- **Confirmation is POST-only.** The e-mailed link is `/api/verify-email/?token=…`, which a mail client opens with a GET. `VerifyEmailView` only defines `post`, so following the link gets 405 (`Views.VerificationLinkIsRefused`).
- **Gate failures.** A missing or unknown token raises `AuthenticationFailed` (status 401). An unverified token raises `PermissionDenied` (status 403). The model uses those statuses. The gate runs before method dispatch, so a refused token takes precedence over a wrong method.

## Model

| member | source | states |
|---|---|---|
| `Text.Decimal` | feedback/views.py:95 | `str(n)` of the signing timestamp is a non-empty digit string with no leading zero unless `n` is 0 |
| `Text.ParseDecimalOfDecimal` | feedback/views.py:95 | reading the decimal rendering back gives the original number |
| `Text.IntToStringRoundTrip` | feedback/views.py:95 | `str(i)` of any integer, sign included, is a well-formed integer literal that parses back to `i` |
| `Clock.UnixSeconds` | feedback/views.py:95 | `int(now.timestamp())` is the whole seconds truncated toward zero: `s*10^6 <= t < (s+1)*10^6` for `t >= 0`, mirrored for negative `t` |
| `Signing.WebFingerprint` | feedback/views.py:46-51 | the web fingerprint is 32 lower-case hex characters, a prefix of SHA-256 over `user_agent + "\|" + accept_language`, with absent headers read as `""` |
| `Signing.DeviceId` | feedback/views.py:40-53 | a non-empty `X-Device-Id` header is returned verbatim, otherwise the web fingerprint; the result is never blank |
| `Signing.DeviceIdSources` | feedback/views.py:42-53 | the header always wins; without it, equal browser headers give equal ids, 32 characters long |
| `Signing.GenerateToken` | feedback/views.py:92-108 | the token is a 64-character lower-case hex digest: HMAC-SHA256, under the secret key, of `email\|device_id\|str(int(now.timestamp()))\|nonce`, with the nonce an 11-character `token_urlsafe(8)` string |
| `Signing.DistinctSecondsDistinctMessages` | feedback/views.py:94-98 | for the same e-mail, device and nonce, different whole seconds give different signing messages, which is what the timestamp is included for |
| `Signing.SameSecondSameToken` | feedback/views.py:92-108 | the token sees the clock only in whole seconds: the same e-mail, device and nonce within one second give the same token |
| `Models.CreateVerification` | feedback/models.py:13-21 | an insert succeeds iff the values fit their columns and the token is not yet stored; an over-long value fails with a data error and a taken token with an integrity error (unique index); on success exactly one record is added and nothing else changes |
| `Models.CreateFeedback` | feedback/models.py:4-9 | a feedback insert succeeds iff token ≤ 64 and line, destination and geo_location ≤ 100 characters; it appends exactly that row and leaves verification records alone |
| `Models.MarkVerified` | feedback/views.py:137-138 | `ev.verified = True; ev.save()` flips only that record's `verified` from false to true; the set of tokens is unchanged |
| `Models.TokensUnique` | feedback/models.py:16 | in a valid store, two records carrying the same token are the same record |
| `Models.CreateVerificationKeepsValid` | feedback/models.py:15-21 | a successful insert keeps every record under its own token, within its columns, and not expiring before its creation |
| `Models.CreateFeedbackKeepsValid` | feedback/models.py:4-9 | a successful feedback insert keeps every feedback row within its columns |
| `Models.MarkVerifiedKeepsValid` | feedback/views.py:137-138 | the verified flip keeps the store valid |
| `Models.RenderShowsStatus` | feedback/models.py:30-32 | `__str__` ends in "verified" iff the record is verified, and in "pending" iff it is not |
| `Models.NewEmailVerificationDefaults` | feedback/models.py:17-21 | a record built from the field defaults is unverified, platform `web`, unbound (blank device id) and renders as pending; its default expiry is the clock instant it was given, which the strict expiry test admits and one microsecond later does not |
| `Views.Authorize` | feedback/views.py:17-33 | the gate reads the token from the query on GET and the body otherwise; it passes iff the token is non-empty, stored and verified, returning that record; missing → authentication failure, unknown → authentication failure, unverified → permission denied |
| `Views.SubmitEmail` | feedback/views.py:58-90 | non-POST → 405; a missing or empty e-mail → 400 with no change and no mail; the store changes iff a mail is sent, and then by exactly the issued record; the mail goes to the e-mail with that record's token; 200 iff the record was stored and the mail delivered |
| `Views.SubmitEmailAddsPendingRecord` | feedback/views.py:59-80 | with an e-mail, the store is unchanged iff a value is too long or the token is taken; otherwise exactly one new record is added under a fresh 64-hex token, with `verified=false`, the given platform or `web`, the request's device id (bound), `created_at = now` and `expires_at = now + 24h`; no other record or feedback changes |
| `Views.SubmitEmailKeepsValid` | feedback/views.py:69-80 | issuance keeps the store valid |
| `Views.VerifyEmail` | feedback/views.py:111-140 | 200 iff the request is a POST whose token is 64 characters long and names a stored, pending, unexpired record whose device binding, if any, matches the request's device; on 200 exactly the `verified` flag of that record flips; on any other reply the store is unchanged |
| `Views.VerifyRejectsMalformed` | feedback/views.py:112-121 | the first checks, in order: missing token → 400, length ≠ 64 → 400, unknown token → 404, each with no store change |
| `Views.VerifyRejectsReplay` | feedback/views.py:123-124 | a verified record is refused with 409 before expiry or device are consulted, and the store is unchanged |
| `Views.VerifyExpiryIsStrict` | feedback/views.py:126-127 | a pending record past its expiry is refused with 410 and stays pending, whatever the device; at exactly the expiry instant it is still confirmed |
| `Views.VerifyDeviceBinding` | feedback/views.py:129-135 | for a pending, unexpired record: a stored device id that differs from the request's gives 400 with no change; a blank stored device id is confirmed from any device |
| `Views.VerifyChangesOnlyVerifiedFlag` | feedback/views.py:137-138 | a successful confirmation keeps every other record, every other field of the matched record and all feedback, and changes `verified` from false to true |
| `Views.VerifyTwice` | feedback/views.py:123-138 | after a successful confirmation, any later confirmation of the same token, at any time and from any device, is refused with 409 |
| `Views.VerificationLinkIsRefused` | feedback/views.py:82-111 | the e-mailed link (a GET with the token in the query) gets 405 from the confirmation view and changes nothing |
| `Views.VerifyEmailKeepsValid` | feedback/views.py:111-140 | confirmation keeps the store valid |
| `Views.SubmitFeedback` | feedback/views.py:142-160 | a gate refusal is returned as is, with no change; 200 iff the gate passes, the method is POST, token, line, destination and geo_location are all non-empty, and they fit their columns; on 200 exactly that feedback row, stamped with the clock, is appended and verification records are unchanged; otherwise nothing changes |
| `Views.FeedbackNamesVerifiedToken` | feedback/views.py:143-159 | the feedback row just appended names a token that is stored and verified, because the gate and the handler read the same body field |
| `Views.BadJsonSharesGate` | feedback/views.py:143-163 | on any request, `BadJson` is refused by the gate exactly when `SubmitFeedback` is, with the same refusal |
| `Views.SubmitFeedbackKeepsValid` | feedback/views.py:154-159 | feedback submission keeps the store valid |
| `Views.BadJson` | feedback/views.py:162-174 | the same gate, then 200 iff the method is POST and token, json and target are all non-empty; never changes the store |
| `Views.CheckToken` | feedback/views.py:176-190 | non-GET → 405; on GET: missing token → 400, unknown → 404, unverified → 403, verified → 200, each iff its condition; never changes the store |
| `Views.CheckTokenMatchesGate` | feedback/views.py:17-33 | on a GET the probe answers 200 iff the gate passes, and missing / unknown / unverified tokens correspond one-to-one to 400 / 404 / 403 |
| `Lifecycle.RunEvolves` | feedback/views.py:72-138 | over any run of requests, no record is removed, no field but `verified` changes, `verified` never reverts to false (VERIFIED is terminal), and feedback only grows at its end |
| `Lifecycle.RunKeepsValid` | feedback/models.py:4-21 | every run keeps tokens unique and within 64 characters, all values within their columns, and expiry no earlier than creation |
| `Lifecycle.RunKeepsFeedbackAuthorized` | feedback/views.py:142-159 | over any run from a store whose feedback rows all name verified tokens, every feedback row, old or new, names a stored, verified token |
| `Lifecycle.VerifiedStaysAuthorized` | feedback/views.py:17-33 | once the gate admits a request's token, it admits it after any further run of requests |
| `Lifecycle.IssueConfirmUse` | feedback/views.py:58-190 | issuance is answered 200; the probe then says 403; confirmation with the same headers within 24 hours gives 200; the probe then says 200; a complete feedback is stored under the token; a second confirmation gives 409 |

## Left out

- E-mail sending (`send_mail`) and link construction are I/O. They appear only as the `VerificationMail(recipient, token)` event and the `delivered` outcome. Subject, body, sender and the link's domain are not modelled. The link's domain comes from a settings module that is not part of this model.
- The internals of SHA-256 and HMAC-SHA256 are left out. They are function values known only to return 64 lower-case hex characters. So the model cannot state that distinct messages give distinct tokens. A token collision is modelled only through its effect, the unique index refusing the insert.
- The unused `token_data` and `secret_key` computed at feedback/views.py:64-65 are left out. They have no effect.
- The `print` in `BadJsonView.post` is output only. `Views.BadJson` models the view's reply and nothing else.
- Django REST framework plumbing is not modelled: `Response` objects, content negotiation, HEAD and OPTIONS handling, and `request.email_verification`. Each reply is one `Reply` constructor with its status code.
- Request values are modelled as strings. A JSON body can also carry numbers or lists. For example, `len()` of a numeric token raises, giving a 500. That path is not modelled.
- Views.Authorize: a missing or unknown token is given the status of `AuthenticationFailed`, 401. DRF rewrites this to 403 when the first authentication class gives no `WWW-Authenticate` header, as session authentication does. The project settings that decide this are not part of this model.
- Models.CreateVerification: column limits are treated as enforced by the store, with over-long values refused before the unique index is consulted. This is how a database with bounded character columns behaves. A backend that does not enforce `max_length`, such as SQLite, would accept the row. `EmailField` format validation is not run by `objects.create` and is not modelled.
- One clock reading per request. The source calls `timezone.now()` separately for the token timestamp, `expires_at` and `created_at`, and these may differ by microseconds. The model uses one instant for all three.
- Clock.UnixSeconds: `timestamp()` is a float. Its rounding for instants far from the epoch is not modelled. Truncation toward zero is modelled exactly.
- The `created_at` `auto_now_add` and `Feedback.timestamp` behaviour is modelled only as "the clock of the request".
- Models.NewEmailVerificationDefaults: the model reads one clock instant for both `expires_at` and `created_at`. In Django the default `expires_at` is read when the instance is built and `auto_now_add` sets `created_at` later, at insert. So a record built from the defaults alone is already past its expiry when created, and would break the model's "expiry no earlier than creation" invariant. The lemma does not show this.
- `Feedback.__str__` uses the auto-increment `id`, which the model does not represent.
- Database indexes other than the unique token index only affect performance.
- Concurrent requests, the check-then-act race between two confirmations, and transaction isolation are not modelled. Each request is one atomic step of `Lifecycle.Run`.
- Routing is left out. feedback/urls.py routes only submit-email, verify-email and submit-feedback, so `CheckTokenView` and `BadJsonView` are unreachable as written. They are modelled as handlers regardless.
- tratroubleBackend/server_config.py and tratroubleBackend/email_credentials.py only read environment variables and are left out.
