# FitFlex one-time passcodes, modelled in Dafny

The FitFlex backend (`Fitflex/server.js`) lets a registering user prove they
own a phone number. `POST /api/send-otp` generates a six-digit passcode and
stores it in an in-memory map keyed by phone with an expiry five minutes
ahead. It then texts the code through an SMS provider or, in demo mode,
returns it in the reply. `POST /api/verify-otp` checks a submitted code
against that map. There are four outcomes:

- no record: "No OTP requested";
- an expired record is deleted: "OTP expired";
- a wrong code keeps the record: "Invalid OTP";
- a right code consumes the record: success.

The model is split into three modules:

- `otp_code.dfy`, module `OtpCode`: the pure `generateOTP`. It covers decimal
  rendering of numbers (`Decimal`) and its inverse reading (`ValueOf`). It
  proves that every draw yields a six-digit code without a leading zero, and
  that draws and codes are in one-to-one correspondence.
- `otp_store.dfy`, module `OtpStore`: the store as a value. A `Record` holds
  a code and its expiry. `Put` is `setOtp`'s transition and `VerifyStep` is
  `verifyOtp`'s. The module has lemmas for single use, lazy expiry, the
  strict expiry boundary, retry after a mismatch, and replacement on
  re-request. Histories of calls (`Replay`) get three more lemmas: each
  record grants at most one success, phones a history never names are left
  alone, and a record survives wrong guesses.
- `server.dfy`, module `Server`: class `OtpServer`, whose field `store` is the
  module-level `otpStore` map. `SetOtp` and `VerifyOtp` change it in place
  with the source's early returns. Each one is proved equal to the matching
  transition function. The two route handlers validate their input, call
  these methods and build the HTTP reply. A demo-mode client, `DemoFlow`,
  shows request, success, then "No OTP requested".

Inputs from the environment are parameters:

- the clock `Date.now()` is `now`, in milliseconds;
- the random draw `floor(Math.random() * 900000)` is `r` with
  `0 <= r < 900000`;
- the SMS provider is a `Delivery` value: demo mode, or SMS together with
  whether the provider's send call succeeded;
- the message handed to the provider is returned as an out-parameter.

A request-body field is `Absent` (undefined or null) or `Text(s)`. The
source's `!phone` test is `!Truthy(...)`: the field is missing or the empty
string.

Two facts about `server.js` that the model keeps:

- The failure reasons are the code's own strings ("No OTP requested",
  "OTP expired", "Invalid OTP"). They reach the client with status 400
  (`Fitflex/server.js:81`).
- A failed SMS send gives status 500 and "Failed to send OTP". The record
  stays, because `setOtp` (line 52) runs before the send (line 57).

## Model

| member | source | states |
|---|---|---|
| `OtpCode.Decimal` | Fitflex/server.js:26 | The rendering `toString` gives a non-negative integer below 10^21 (which covers every generated value): a non-empty digit string with no leading zero. |
| `OtpCode.ValueOfDecimal` | Fitflex/server.js:26 | Reading a rendering back gives the number rendered. |
| `OtpCode.DecimalOfValue` | Fitflex/server.js:26 | Rendering the value of any canonical digit string gives that string back, so rendering is a bijection onto canonical strings. |
| `OtpCode.ValueOfBounds` | Fitflex/server.js:26 | A canonical digit string of k characters denotes a number n with 10^(k-1) <= n < 10^k (for k > 1). |
| `OtpCode.DecimalLength` | Fitflex/server.js:26 | A number with k decimal digits renders to exactly k characters. |
| `OtpCode.GenerateOtp` | Fitflex/server.js:25-27 | For a draw r in [0, 900000), the code has exactly 6 digit characters and a non-zero first digit. It denotes 100000 + r, which lies in [100000, 999999]. |
| `OtpCode.GenerateOtpInjective` | Fitflex/server.js:26 | Distinct draws give distinct codes. |
| `OtpCode.GenerateOtpOnto` | Fitflex/server.js:26 | Every 6-digit code without a leading zero is generated by the draw (its value - 100000). |
| `OtpStore.Put` | Fitflex/server.js:29-31 | After setOtp the phone's record is exactly {otp, now + ttlMs}, replacing any earlier one. The key set gains only that phone, and every other phone keeps its record. |
| `OtpStore.VerifyStep` | Fitflex/server.js:33-43 | Each verdict holds if and only if its condition holds. No record gives "No OTP requested". now > expiresAt gives "OTP expired". A live record with the same code gives ok, and one with another code gives "Invalid OTP". The record survives exactly on a mismatch, and then unchanged. No other phone's entry changes. |
| `OtpStore.RequestThenVerifyOnce` | Fitflex/server.js:29-43 | A stored code checked before expiry succeeds. The identical check repeated right after gives "No OTP requested" (single use). |
| `OtpStore.ExpiredEvenIfMatching` | Fitflex/server.js:36-39 | After the expiry instant the correct code gives "OTP expired" and the record is removed. |
| `OtpStore.LiveAtExpiryInstant` | Fitflex/server.js:36 | At now == expiresAt the record is still live and the correct code succeeds (the test is strict). |
| `OtpStore.RetryAfterMismatch` | Fitflex/server.js:40 | A wrong code on a live record gives "Invalid OTP" and leaves the store unchanged. The correct code later, still before expiry, succeeds. |
| `OtpStore.ReRequestReplaces` | Fitflex/server.js:29-42 | After setOtp(p, c1) then setOtp(p, c2) with c1 != c2, a live check with c1 gives "Invalid OTP" and one with c2 succeeds. |
| `OtpStore.SingleUse` | Fitflex/server.js:29-43 | Over any history of setOtp/verifyOtp calls, a phone's successes plus its pending record at the end never exceed its requests plus its record at the start. |
| `OtpStore.SuccessesBoundedByRequests` | Fitflex/server.js:29-43 | From an empty store, no phone is verified more often than it requested a code. |
| `OtpStore.OtherPhonesUnaffected` | Fitflex/server.js:23-43 | A history that never names phone p leaves p's entry (present or absent, and its record) as it was, and grants p no success. |
| `OtpStore.SurvivesMismatches` | Fitflex/server.js:36-40 | Suppose p gets no new request and only wrong codes while its record is live. Then the record is kept unchanged and p has no success. |
| `Server.OtpServer.constructor` | Fitflex/server.js:23 | The store starts empty. |
| `Server.OtpServer.SetOtp` | Fitflex/server.js:29-31 | The in-place update of the store field equals `Put` on the old store, with a default TTL of 300000 ms. |
| `Server.OtpServer.VerifyOtp` | Fitflex/server.js:33-43 | The early-return method's verdict and new store equal `VerifyStep` on the old store. |
| `Server.OtpServer.SendOtp` | Fitflex/server.js:46-72 | A missing or empty phone gives 400 "Phone is required" and the store is untouched, with nothing sent. Otherwise the generated code is stored with the default TTL before delivery. SMS mode sends "Your FitFlex OTP is: <code>" to the phone and replies 200 "OTP sent via SMS", or 500 "Failed to send OTP" with the record kept. Demo mode replies 200 with the code in `demoOtp`. |
| `Server.OtpServer.VerifyOtpRoute` | Fitflex/server.js:75-82 | A missing phone or code gives 400 "Phone & OTP required" and the store is untouched. Otherwise the store becomes `VerifyStep`'s. The reply is 200 "OTP verified" on success, or 400 with the verdict's reason. |
| `Server.DemoFlow` | Fitflex/server.js:46-82 | In demo mode, a code requested at t0 and submitted from the send reply at t1, with t0 <= t1 <= t0 + 300000, gives 200 "OTP verified". Submitting it again at any later t2 gives 400 "No OTP requested". |

## Left out

- HTTP plumbing: Express setup, CORS, body parsing, static files, the `/`
  route, the 404 handler and `app.listen` (`Fitflex/server.js:1-4`, `14-20`,
  `84-97`). These are I/O and not part of the passcode logic.
- The Twilio client itself, its construction from environment variables, and
  the `from` number (`Fitflex/server.js:6-12`, `56`). They are a third-party
  network call. The model keeps only the message handed to the provider and
  whether the send succeeded.
- A failure thrown by `twilioClient.messages.create` is modelled as
  `Sms(false)`. The model does not say which error occurred.
- `console.log` / `console.error` output (`Fitflex/server.js:65`, `69`,
  `95-96`).
- `USE_TWILIO` and `PORT` parsing (`Fitflex/server.js:7`, `15`). The mode is
  the `Delivery` parameter instead.
- `Decimal` follows `toString` only below 10^21, where JavaScript switches
  to exponent form, and Numbers above 2^53 lose precision. `generateOTP`
  only renders six-digit values, so neither case arises.
- `Math.random`'s floating point and the uniformity of its distribution. The
  draw is a bounded integer `r`. Uniformity becomes the one-to-one
  correspondence between draws and codes (`GenerateOtpInjective`,
  `GenerateOtpOnto`).
- `Date.now()`: the clock is the `now` parameter. Times are unbounded
  integers. The 2^53 precision limit of JavaScript numbers in
  `now + ttlMs` is not modelled.
- Non-string JSON values in the request body are not modelled. Examples are
  a numeric `otp`, which never `===` a stored string, and a numeric `phone`,
  which is a different Map key from its string. Fields are absent or
  strings.
- Concurrency: Node runs each handler's map operations on one event-loop
  thread, so `setOtp` and `verifyOtp` run without interleaving. The `await`
  on SMS delivery comes after the store update, so no interleaving inside
  the store logic is lost.
