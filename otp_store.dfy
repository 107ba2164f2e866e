/**
 * The in-memory passcode store of Fitflex/server.js and its two transitions,
 * as functions on the map's value: Put (setOtp) and VerifyStep (verifyOtp).
 * The store holds at most one record per phone; a record is created by a
 * request, consumed by a successful check, and dropped the first time it is
 * looked up after its expiry instant (there is no background sweep).
 *
 * The clock reading Date.now() is the parameter `now`, in milliseconds.
 */
module OtpStore {

  /** The value kept per phone: the code and the instant after which it is void. */
  datatype Record = Record(otp: string, expiresAt: int)

  /** otpStore: phone -> { otp, expiresAt }. */
  type Store = map<string, Record>

  /** setOtp's default lifetime: five minutes, in milliseconds. */
  const DefaultTtlMs: int := 5 * 60 * 1000

  /** The four results verifyOtp can return: { ok: true } or { ok: false, reason }. */
  datatype Verdict = Verified | NoOtpRequested | OtpExpired | InvalidOtp {

    /** The `ok` field of the result object. */
    predicate Ok() {
      Verified?
    }

    /** The `reason` field of a failed result. */
    function Reason(): string
      requires !Verified?
    {
      match this
      case NoOtpRequested => "No OTP requested"
      case OtpExpired => "OTP expired"
      case InvalidOtp => "Invalid OTP"
    }
  }

  /** A record still accepts its code at `now`: expiry is tested with a strict `>`. */
  predicate Live(rec: Record, now: int) {
    now <= rec.expiresAt
  }

  /**
   * setOtp(phone, otp, ttlMs) at time now: the phone's record is exactly the
   * new code expiring at now + ttlMs, any earlier record for it is gone, and
   * every other phone keeps what it had.
   */
  function Put(store: Store, phone: string, otp: string, ttlMs: int, now: int): (s: Store)
    ensures phone in s && s[phone] == Record(otp, now + ttlMs)
    ensures s.Keys == store.Keys + {phone}
    ensures forall q :: q in store && q != phone ==> s[q] == store[q]
  {
    store[phone := Record(otp, now + ttlMs)]
  }

  /** What verifyOtp returns, together with the store it leaves behind. */
  datatype Checked = Checked(verdict: Verdict, store: Store)

  /**
   * verifyOtp(phone, input) at time now. The verdict is determined by the
   * phone's record alone: none, expired, live with the same code, or live
   * with another code. Only a mismatch keeps the record, untouched; every
   * other outcome leaves the phone without one; no other phone is affected.
   */
  function VerifyStep(store: Store, phone: string, input: string, now: int): (c: Checked)
    ensures c.verdict == NoOtpRequested <==> phone !in store
    ensures c.verdict == OtpExpired <==> phone in store && !Live(store[phone], now)
    ensures c.verdict == Verified <==> phone in store && Live(store[phone], now) && store[phone].otp == input
    ensures c.verdict == InvalidOtp <==> phone in store && Live(store[phone], now) && store[phone].otp != input
    ensures phone in c.store <==> c.verdict == InvalidOtp
    ensures phone in c.store ==> c.store[phone] == store[phone]
    ensures c.store - {phone} == store - {phone}
  {
    if phone !in store then Checked(NoOtpRequested, store)
    else if now > store[phone].expiresAt then Checked(OtpExpired, store - {phone})
    else if store[phone].otp != input then Checked(InvalidOtp, store)
    else Checked(Verified, store - {phone})
  }

  // ---------------------------------------------------------------------
  // Single calls, as setOtp's and verifyOtp's control flow gives them
  // ---------------------------------------------------------------------

  /**
   * A code checked while its record is live succeeds once; the identical check
   * repeated right after finds no record.
   */
  lemma RequestThenVerifyOnce(store: Store, phone: string, otp: string, ttlMs: int, t0: int, now: int)
    requires t0 <= now <= t0 + ttlMs
    ensures var first := VerifyStep(Put(store, phone, otp, ttlMs, t0), phone, otp, now);
            first.verdict == Verified && VerifyStep(first.store, phone, otp, now).verdict == NoOtpRequested
  {
  }

  /** Past the expiry instant even the right code is refused, and the record is dropped. */
  lemma ExpiredEvenIfMatching(store: Store, phone: string, otp: string, ttlMs: int, t0: int, now: int)
    requires now > t0 + ttlMs
    ensures var c := VerifyStep(Put(store, phone, otp, ttlMs, t0), phone, otp, now);
            c.verdict == OtpExpired && phone !in c.store
  {
  }

  /** At the expiry instant itself the record is still live. */
  lemma LiveAtExpiryInstant(store: Store, phone: string, otp: string, ttlMs: int, t0: int)
    requires ttlMs >= 0
    ensures VerifyStep(Put(store, phone, otp, ttlMs, t0), phone, otp, t0 + ttlMs).verdict == Verified
  {
  }

  /** A wrong code leaves the record in place, so the right code still succeeds before expiry. */
  lemma RetryAfterMismatch(store: Store, phone: string, wrong: string, t1: int, t2: int)
    requires phone in store && store[phone].otp != wrong
    requires t1 <= store[phone].expiresAt && t2 <= store[phone].expiresAt
    ensures var c := VerifyStep(store, phone, wrong, t1);
            c.verdict == InvalidOtp && c.store == store &&
            VerifyStep(c.store, phone, store[phone].otp, t2).verdict == Verified
  {
  }

  /** A second request for the same phone voids the first code and arms the second. */
  lemma ReRequestReplaces(store: Store, phone: string, c1: string, c2: string, ttlMs: int, t1: int, t2: int, now: int)
    requires c1 != c2 && t2 <= now <= t2 + ttlMs
    ensures var s := Put(Put(store, phone, c1, ttlMs, t1), phone, c2, ttlMs, t2);
            VerifyStep(s, phone, c1, now).verdict == InvalidOtp &&
            VerifyStep(s, phone, c2, now).verdict == Verified
  {
  }

  // ---------------------------------------------------------------------
  // Histories: sequences of requests and checks against one store
  // ---------------------------------------------------------------------

  /** One call into the store: a setOtp or a verifyOtp, with its clock reading. */
  datatype Event =
    | Request(phone: string, otp: string, ttlMs: int, now: int)
    | Attempt(phone: string, input: string, now: int)

  function Apply(store: Store, e: Event): Store {
    match e
    case Request(p, otp, ttl, now) => Put(store, p, otp, ttl, now)
    case Attempt(p, input, now) => VerifyStep(store, p, input, now).store
  }

  /** The store after a whole history. */
  function Replay(store: Store, events: seq<Event>): Store
    decreases |events|
  {
    if events == [] then store else Replay(Apply(store, events[0]), events[1..])
  }

  /** How many checks for phone p in the history succeed. */
  function Successes(store: Store, events: seq<Event>, p: string): nat
    decreases |events|
  {
    if events == [] then 0
    else
      var e := events[0];
      (if e.Attempt? && e.phone == p && VerifyStep(store, p, e.input, e.now).verdict == Verified then 1 else 0)
      + Successes(Apply(store, e), events[1..], p)
  }

  /** How many requests for phone p the history holds. */
  function Requests(events: seq<Event>, p: string): nat
    decreases |events|
  {
    if events == [] then 0
    else (if events[0].Request? && events[0].phone == p then 1 else 0) + Requests(events[1..], p)
  }

  /** 1 when the store holds a record for p, 0 otherwise. */
  function Held(store: Store, p: string): nat {
    if p in store then 1 else 0
  }

  /**
   * Single use over any history: each record, whether present at the start
   * or created by a request, yields at most one success, and a record still
   * pending at the end has yielded none.
   */
  lemma {:induction false} SingleUse(store: Store, events: seq<Event>, p: string)
    ensures Successes(store, events, p) + Held(Replay(store, events), p) <= Requests(events, p) + Held(store, p)
    decreases |events|
  {
    if events != [] {
      var e := events[0];
      var next := Apply(store, e);
      SingleUse(next, events[1..], p);
      if e.phone == p && e.Attempt? {
        assert VerifyStep(store, p, e.input, e.now).verdict == Verified ==> Held(store, p) == 1 && Held(next, p) == 0;
        assert Held(next, p) <= Held(store, p);
      } else if e.phone != p {
        assert Held(next, p) == Held(store, p);
      }
    }
  }

  /** From an empty store, a phone never gets more successful checks than requests. */
  lemma SuccessesBoundedByRequests(events: seq<Event>, p: string)
    ensures Successes(map[], events, p) <= Requests(events, p)
  {
    SingleUse(map[], events, p);
  }

  /**
   * A history that never names phone p leaves p's slot as it was (present or
   * absent, and with the same record) and grants p no success.
   */
  lemma {:induction false} OtherPhonesUnaffected(store: Store, events: seq<Event>, p: string)
    requires forall i :: 0 <= i < |events| ==> events[i].phone != p
    ensures p in Replay(store, events) <==> p in store
    ensures p in store ==> Replay(store, events)[p] == store[p]
    ensures Successes(store, events, p) == 0
    decreases |events|
  {
    if events != [] {
      var next := Apply(store, events[0]);
      assert p in next <==> p in store;
      assert p in store ==> next[p] == store[p];
      OtherPhonesUnaffected(next, events[1..], p);
    }
  }

  /**
   * A record is kept through any history in which p sees no new request and
   * only wrong codes while the record is live: the record is kept unchanged.
   */
  lemma {:induction false} SurvivesMismatches(store: Store, events: seq<Event>, p: string)
    requires p in store
    requires forall i :: 0 <= i < |events| && events[i].phone == p ==>
               events[i].Attempt? && events[i].input != store[p].otp && Live(store[p], events[i].now)
    ensures p in Replay(store, events) && Replay(store, events)[p] == store[p]
    ensures Successes(store, events, p) == 0
    decreases |events|
  {
    if events != [] {
      var next := Apply(store, events[0]);
      assert p in next && next[p] == store[p];
      SurvivesMismatches(next, events[1..], p);
    }
  }
}
