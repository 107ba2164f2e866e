/**
 * The passcode half of Fitflex/server.js as a stateful object: the
 * module-level Map otpStore becomes the field `store`, setOtp and verifyOtp
 * update it in place, and the two JSON routes /api/send-otp and
 * /api/verify-otp are methods that validate their input, call those two and
 * build the reply.
 *
 * The clock is the parameter `now`, the random draw is `r`, and the SMS
 * provider is reduced to the `Delivery` parameter (which mode the server
 * runs in, and whether the provider's send call succeeds); the message the
 * server hands to the provider is returned as `sms`.
 */
module Server {
  import opened OtpCode
  import opened OtpStore

  /** A field of the JSON request body: missing (undefined or null) or a string. */
  datatype Field = Absent | Text(value: string)

  /** JavaScript truthiness of the field: present and not the empty string. */
  predicate Truthy(f: Field) {
    f.Text? && f.value != ""
  }

  /** How the server delivers a code: shown in the reply, or sent by SMS with the provider's outcome. */
  datatype Delivery = DemoMode | Sms(delivered: bool)

  /** The message handed to the SMS provider. */
  datatype Message = Message(to: string, body: string)

  /** The HTTP status and JSON body of a reply; `demoOtp` only in demo mode. */
  datatype Reply = Reply(status: int, success: bool, message: string, demoOtp: Option<string>)

  datatype Option<T> = None | Some(value: T)

  /** The SMS text for a code. */
  function SmsBody(otp: string): string {
    "Your FitFlex OTP is: " + otp
  }

  class OtpServer {
    /** otpStore: at most one pending record per phone. */
    var store: Store

    /** The process starts with no pending codes. */
    constructor ()
      ensures store == map[]
    {
      store := map[];
    }

    /** setOtp: store the code for phone, replacing any earlier one. */
    method SetOtp(phone: string, otp: string, now: int, ttlMs: int := DefaultTtlMs)
      modifies this
      ensures store == Put(old(store), phone, otp, ttlMs, now)
    {
      store := store[phone := Record(otp, now + ttlMs)];
    }

    /** verifyOtp: check a submitted code against the phone's record. */
    method VerifyOtp(phone: string, otpInput: string, now: int) returns (v: Verdict)
      modifies this
      ensures Checked(v, store) == VerifyStep(old(store), phone, otpInput, now)
    {
      if phone !in store {
        return NoOtpRequested;
      }
      var rec := store[phone];
      if now > rec.expiresAt {
        store := store - {phone};
        return OtpExpired;
      }
      if rec.otp != otpInput {
        return InvalidOtp;
      }
      store := store - {phone};
      return Verified;
    }

    /**
     * POST /api/send-otp. A missing phone is refused before the store is
     * touched. Otherwise the code for draw r is stored first, with the
     * default lifetime, and only then delivered: a failed SMS send still
     * leaves the new record in place.
     */
    method SendOtp(phone: Field, r: nat, now: int, delivery: Delivery) returns (reply: Reply, sms: Option<Message>)
      requires r < DrawRange
      modifies this
      ensures !Truthy(phone) ==>
                reply == Reply(400, false, "Phone is required", None) && sms == None && store == old(store)
      ensures Truthy(phone) ==> store == Put(old(store), phone.value, GenerateOtp(r), DefaultTtlMs, now)
      ensures Truthy(phone) && delivery.Sms? ==> sms == Some(Message(phone.value, SmsBody(GenerateOtp(r))))
      ensures Truthy(phone) && delivery == Sms(true) ==> reply == Reply(200, true, "OTP sent via SMS", None)
      ensures Truthy(phone) && delivery == Sms(false) ==> reply == Reply(500, false, "Failed to send OTP", None)
      ensures Truthy(phone) && delivery == DemoMode ==>
                sms == None && reply == Reply(200, true, "OTP generated (demo mode)", Some(GenerateOtp(r)))
    {
      if !Truthy(phone) {
        return Reply(400, false, "Phone is required", None), None;
      }
      var otp := GenerateOtp(r);
      SetOtp(phone.value, otp, now);
      match delivery
      case Sms(delivered) =>
        sms := Some(Message(phone.value, SmsBody(otp)));
        if delivered {
          reply := Reply(200, true, "OTP sent via SMS", None);
        } else {
          reply := Reply(500, false, "Failed to send OTP", None);
        }
      case DemoMode =>
        sms := None;
        reply := Reply(200, true, "OTP generated (demo mode)", Some(otp));
    }

    /**
     * POST /api/verify-otp. A missing phone or code is refused without a
     * lookup; otherwise the reply carries verifyOtp's verdict: 200 on
     * success, 400 with the verdict's reason on failure.
     */
    method VerifyOtpRoute(phone: Field, otp: Field, now: int) returns (reply: Reply)
      modifies this
      ensures !(Truthy(phone) && Truthy(otp)) ==>
                reply == Reply(400, false, "Phone & OTP required", None) && store == old(store)
      ensures Truthy(phone) && Truthy(otp) ==>
                var c := VerifyStep(old(store), phone.value, otp.value, now);
                store == c.store &&
                reply == if c.verdict.Ok() then Reply(200, true, "OTP verified", None)
                         else Reply(400, false, c.verdict.Reason(), None)
    {
      if !Truthy(phone) || !Truthy(otp) {
        return Reply(400, false, "Phone & OTP required", None);
      }
      var v := VerifyOtp(phone.value, otp.value, now);
      if v.Ok() {
        reply := Reply(200, true, "OTP verified", None);
      } else {
        reply := Reply(400, false, v.Reason(), None);
      }
    }
  }

  /**
   * The example flow in demo mode: request a code at t0, submit the code from
   * the reply at t1 within the default lifetime, then submit it again at any
   * later t2. The first check is accepted and the second finds nothing pending.
   */
  method DemoFlow(phone: string, r: nat, t0: int, t1: int, t2: int) returns (first: Reply, second: Reply)
    requires phone != "" && r < DrawRange
    requires t0 <= t1 <= t0 + DefaultTtlMs && t1 <= t2
    ensures first == Reply(200, true, "OTP verified", None)
    ensures second == Reply(400, false, "No OTP requested", None)
  {
    var server := new OtpServer();
    var sent, _ := server.SendOtp(Text(phone), r, t0, DemoMode);
    var code := sent.demoOtp.value;
    first := server.VerifyOtpRoute(Text(phone), Text(code), t1);
    second := server.VerifyOtpRoute(Text(phone), Text(code), t2);
  }
}
