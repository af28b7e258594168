/** The server's one-time-password store as values: a map from the phone string exactly
    as the client sent it to a pending record, and the transitions the routes apply to it.
    Time is the explicit parameter `now` (milliseconds) and the random code is a `Code`. */
module Otp {
  import opened Strings
  import Whatsapp

  const ResendCooldownMs := 30000
  const TtlMs := 5 * 60 * 1000
  const MaxAttempts := 3
  const SendFailedDefault := "Failed to send OTP. Please try again."

  /** `Math.floor(1000 + Math.random() * 9000)` lies in this range. */
  type Code = c: nat | 1000 <= c <= 9999 witness 1000

  datatype OtpRecord = OtpRecord(otp: string, expiresAt: int, createdAt: int, attempts: int, verified: bool)

  type Store = map<string, OtpRecord>

  /** The record a send writes: the code as text, five minutes of validity, no attempts. */
  function Issue(code: Code, now: int): OtpRecord
  {
    OtpRecord(DecimalString(code), now + TtlMs, now, 0, false)
  }

  /** What every record in the store satisfies between requests. */
  predicate WellFormedRecord(r: OtpRecord)
  {
    && 0 <= r.attempts <= MaxAttempts
    && r.expiresAt == r.createdAt + TtlMs
    && |r.otp| == 4 && AllDigits(r.otp)
  }

  predicate WellFormed(s: Store)
  {
    forall p :: p in s ==> WellFormedRecord(s[p])
  }

  // ----- POST /api/otp/send -----

  /** A present phone with at least ten digits once non-digits are stripped. */
  predicate AcceptablePhone(phone: string)
  {
    phone != "" && |DigitsOnly(phone)| >= 10
  }

  /** A record for `phone` created less than thirty seconds before `now`. */
  predicate CoolingDown(s: Store, phone: string, now: int)
  {
    phone in s && now - s[phone].createdAt < ResendCooldownMs
  }

  /** The WhatsApp text carrying the code (its decoration is not modelled). */
  function OtpMessage(otp: string): string
  {
    "Your OTP is: " + otp
  }

  datatype SendOutcome = OtpSent | InvalidPhone | RateLimited | DeliveryFailed(error: string)

  /** Validate, rate-limit, store a fresh record, deliver it, and drop the record again when
      delivery fails. */
  function Send(s: Store, settings: map<string, string>, phone: string, now: int, code: Code,
                remote: Whatsapp.Remote): (SendOutcome, Store)
  {
    if !AcceptablePhone(phone) then (InvalidPhone, s)
    else if CoolingDown(s, phone, now) then (RateLimited, s)
    else
      var record := Issue(code, now);
      var delivery := Whatsapp.SendMessage(settings, phone, OtpMessage(record.otp), "", remote);
      match delivery.outcome
      case Sent => (OtpSent, s[phone := record])
      case Failed(e) => (DeliveryFailed(if e != "" then e else SendFailedDefault), s - {phone})
  }

  // ----- POST /api/otp/verify -----

  datatype VerifyOutcome =
    | Verified
    | MissingFields
    | NotFound
    | Expired
    | TooManyAttempts
    | Incorrect(remaining: int)

  /** Check expiry, count the attempt, give up after three, compare the code. */
  function Verify(s: Store, phone: string, otp: string, now: int): (VerifyOutcome, Store)
  {
    if phone == "" || otp == "" then (MissingFields, s)
    else if phone !in s then (NotFound, s)
    else
      var r := s[phone];
      if now > r.expiresAt then (Expired, s - {phone})
      else
        var attempts := r.attempts + 1;
        if attempts > MaxAttempts then (TooManyAttempts, s - {phone})
        else if r.otp != otp then (Incorrect(MaxAttempts - attempts), s[phone := r.(attempts := attempts)])
        else (Verified, s[phone := r.(attempts := attempts, verified := true)])
  }

  // ----- consumption by login, phone change and guest orders -----

  /** The check every consumer makes: a record is present and verified. Expiry is not
      looked at. */
  predicate Consumable(s: Store, phone: string)
  {
    phone in s && s[phone].verified
  }

  /** A successful check deletes the record; a failed one leaves the store alone. */
  function Consume(s: Store, phone: string): Store
  {
    if Consumable(s, phone) then s - {phone} else s
  }

  // ----- the periodic sweep -----

  /** The records that `now` has not passed the expiry of. */
  function Sweep(s: Store, now: int): Store
  {
    map p | p in s && now <= s[p].expiresAt :: s[p]
  }

  // =====================================================================
  // Properties of the send route
  // =====================================================================

  /** A record as issued: the code as four digits that read back as the code, no attempts,
      not verified, created now and expiring five minutes later. */
  lemma IssuedRecord(code: Code, now: int)
    ensures var r := Issue(code, now);
            && |r.otp| == 4 && AllDigits(r.otp) && DecimalValue(r.otp) == code
            && r.attempts == 0 && !r.verified
            && r.createdAt == now && r.expiresAt == now + 300000
            && WellFormedRecord(r)
  {
    FourDigits(code);
    DecimalRoundTrip(code);
  }

  /** Fewer than ten digits (or no phone): rejected, store unchanged. */
  lemma SendRejectsShortPhone(s: Store, settings: map<string, string>, phone: string, now: int,
                              code: Code, remote: Whatsapp.Remote)
    requires |DigitsOnly(phone)| < 10
    ensures Send(s, settings, phone, now, code, remote) == (InvalidPhone, s)
  {
  }

  /** A record younger than thirty seconds: refused, store unchanged. */
  lemma SendRateLimited(s: Store, settings: map<string, string>, phone: string, now: int,
                        code: Code, remote: Whatsapp.Remote)
    requires AcceptablePhone(phone)
    requires phone in s && now - s[phone].createdAt < 30000
    ensures Send(s, settings, phone, now, code, remote) == (RateLimited, s)
  {
  }

  /** Delivered: the phone maps to exactly the freshly issued record, overwriting any earlier
      one, and nothing else changes. */
  lemma SendDeliveredStoresFreshRecord(s: Store, settings: map<string, string>, phone: string,
                                       now: int, code: Code, remote: Whatsapp.Remote)
    requires AcceptablePhone(phone) && !CoolingDown(s, phone, now)
    requires Whatsapp.Deliverable(settings, remote)
    ensures Send(s, settings, phone, now, code, remote) == (OtpSent, s[phone := Issue(code, now)])
  {
  }

  /** Not delivered (no token, remote error, exception): no record remains for the phone,
      every other record is kept. */
  lemma SendUndeliveredLeavesNoRecord(s: Store, settings: map<string, string>, phone: string,
                                      now: int, code: Code, remote: Whatsapp.Remote)
    requires AcceptablePhone(phone) && !CoolingDown(s, phone, now)
    requires !Whatsapp.Deliverable(settings, remote)
    ensures var (outcome, s') := Send(s, settings, phone, now, code, remote);
            outcome.DeliveryFailed? && s' == s - {phone}
  {
    Whatsapp.SuccessIffDeliverable(settings, phone, OtpMessage(Issue(code, now).otp), "", remote);
  }

  /** Without a token the failure is the configuration error and no record remains. */
  lemma SendWithoutTokenFails(s: Store, settings: map<string, string>, phone: string,
                              now: int, code: Code, remote: Whatsapp.Remote)
    requires AcceptablePhone(phone) && !CoolingDown(s, phone, now)
    requires Whatsapp.Token(settings).None?
    ensures Send(s, settings, phone, now, code, remote)
            == (DeliveryFailed(Whatsapp.NotConfiguredError), s - {phone})
  {
  }

  /** Sending touches no phone other than its own. */
  lemma SendTouchesOnlyItsPhone(s: Store, settings: map<string, string>, phone: string,
                                now: int, code: Code, remote: Whatsapp.Remote, q: string)
    requires q != phone
    ensures var s' := Send(s, settings, phone, now, code, remote).1;
            (q in s' <==> q in s) && (q in s ==> s'[q] == s[q])
  {
  }

  lemma SendKeepsWellFormed(s: Store, settings: map<string, string>, phone: string,
                            now: int, code: Code, remote: Whatsapp.Remote)
    requires WellFormed(s)
    ensures WellFormed(Send(s, settings, phone, now, code, remote).1)
  {
    IssuedRecord(code, now);
  }

  /** Two sends for one phone: within thirty seconds of a delivered code a second is refused;
      from thirty seconds on, a delivered second code replaces the first. */
  lemma ResendCooldown(s: Store, settings: map<string, string>, phone: string,
                       t1: int, c1: Code, r1: Whatsapp.Remote,
                       t2: int, c2: Code, r2: Whatsapp.Remote)
    requires AcceptablePhone(phone) && !CoolingDown(s, phone, t1)
    requires Whatsapp.Deliverable(settings, r1)
    ensures var (o1, s1) := Send(s, settings, phone, t1, c1, r1);
            && o1 == OtpSent
            && (t2 < t1 + 30000 ==> Send(s1, settings, phone, t2, c2, r2) == (RateLimited, s1))
            && (t2 >= t1 + 30000 && Whatsapp.Deliverable(settings, r2) ==>
                  Send(s1, settings, phone, t2, c2, r2) == (OtpSent, s[phone := Issue(c2, t2)]))
  {
    var s1 := s[phone := Issue(c1, t1)];
    assert s1[phone := Issue(c2, t2)] == s[phone := Issue(c2, t2)];
  }

  // =====================================================================
  // Properties of the verify route
  // =====================================================================

  /** No record: NotFound, store unchanged. */
  lemma VerifyWithoutRecord(s: Store, phone: string, otp: string, now: int)
    requires phone != "" && otp != "" && phone !in s
    ensures Verify(s, phone, otp, now) == (NotFound, s)
  {
  }

  /** Past its expiry a record is deleted, whatever its attempts, and nothing is counted. */
  lemma VerifyAfterExpiry(s: Store, phone: string, otp: string, now: int)
    requires phone != "" && otp != "" && phone in s && now > s[phone].expiresAt
    ensures Verify(s, phone, otp, now) == (Expired, s - {phone})
  {
  }

  /** Before expiry the attempt is counted first: past the third the record is deleted
      (even for the right code); otherwise a wrong code reports the attempts left and keeps
      the verified flag as it was, and the right code sets the flag and keeps the record. */
  lemma VerifyCountsBeforeComparing(s: Store, phone: string, otp: string, now: int)
    requires phone != "" && otp != "" && phone in s && now <= s[phone].expiresAt
    ensures var r := s[phone];
            var (outcome, s') := Verify(s, phone, otp, now);
            && (r.attempts + 1 > 3 ==> outcome == TooManyAttempts && s' == s - {phone})
            && (r.attempts + 1 <= 3 && r.otp != otp ==>
                  outcome == Incorrect(3 - (r.attempts + 1))
                  && s' == s[phone := r.(attempts := r.attempts + 1)])
            && (r.attempts + 1 <= 3 && r.otp == otp ==>
                  outcome == Verified
                  && s' == s[phone := r.(attempts := r.attempts + 1, verified := true)])
  {
  }

  /** Verification succeeds exactly when both fields are present, a record exists, it has
      not expired, fewer than three attempts were used and the code matches. */
  lemma VerifiedIff(s: Store, phone: string, otp: string, now: int)
    ensures Verify(s, phone, otp, now).0 == Verified
            <==> phone != "" && otp != "" && phone in s && now <= s[phone].expiresAt
                 && s[phone].attempts < 3 && s[phone].otp == otp
  {
  }

  /** After a successful verification the record can be consumed. */
  lemma VerifiedIsConsumable(s: Store, phone: string, otp: string, now: int)
    requires Verify(s, phone, otp, now).0 == Verified
    ensures Consumable(Verify(s, phone, otp, now).1, phone)
  {
  }

  lemma VerifyKeepsWellFormed(s: Store, phone: string, otp: string, now: int)
    requires WellFormed(s)
    ensures WellFormed(Verify(s, phone, otp, now).1)
  {
  }

  /** A verify call that compares codes. */
  predicate Compared(o: VerifyOutcome)
  {
    o.Verified? || o.Incorrect?
  }

  datatype Attempt = Attempt(otp: string, now: int)

  /** How many of a run of verify calls for `phone` (with no send in between) compare codes. */
  function Comparisons(s: Store, phone: string, run: seq<Attempt>): nat
  {
    if run == [] then 0
    else
      var (o, s') := Verify(s, phone, run[0].otp, run[0].now);
      (if Compared(o) then 1 else 0) + Comparisons(s', phone, run[1..])
  }

  /** The comparisons a record still allows. */
  function Allowance(s: Store, phone: string): int
  {
    if phone in s then MaxAttempts - s[phone].attempts else 0
  }

  /** However verify is called, a record allows no more comparisons than `3 - attempts`. */
  lemma {:induction false} ComparisonsBounded(s: Store, phone: string, run: seq<Attempt>)
    requires phone in s ==> 0 <= s[phone].attempts <= MaxAttempts
    ensures Comparisons(s, phone, run) <= Allowance(s, phone)
  {
    if run != [] {
      var (o, s') := Verify(s, phone, run[0].otp, run[0].now);
      ComparisonsBounded(s', phone, run[1..]);
      if Compared(o) {
        assert phone in s' && s'[phone].attempts == s[phone].attempts + 1;
      } else {
        assert Allowance(s', phone) <= Allowance(s, phone);
      }
    }
  }

  /** So a freshly issued code is compared at most three times. */
  lemma AtMostThreeComparisons(s: Store, phone: string, now: int, code: Code, run: seq<Attempt>)
    ensures Comparisons(s[phone := Issue(code, now)], phone, run) <= 3
  {
    ComparisonsBounded(s[phone := Issue(code, now)], phone, run);
  }

  /** Three wrong codes report 2, then 1, then 0 attempts remaining; the fourth call is
      refused even with the right code, and the record is gone. */
  lemma WrongCodesCountDown(s: Store, phone: string, code: Code, t0: int, wrong: string,
                            t1: int, t2: int, t3: int, t4: int)
    requires phone != "" && wrong != "" && wrong != DecimalString(code)
    requires t1 <= t0 + TtlMs && t2 <= t0 + TtlMs && t3 <= t0 + TtlMs && t4 <= t0 + TtlMs
    ensures var s0 := s[phone := Issue(code, t0)];
            var (o1, s1) := Verify(s0, phone, wrong, t1);
            var (o2, s2) := Verify(s1, phone, wrong, t2);
            var (o3, s3) := Verify(s2, phone, wrong, t3);
            var (o4, s4) := Verify(s3, phone, DecimalString(code), t4);
            && o1 == Incorrect(2) && o2 == Incorrect(1) && o3 == Incorrect(0)
            && o4 == TooManyAttempts && phone !in s4
  {
    IssuedRecord(code, t0);
  }

  /** A successful verification does not remove the record, so the right code verifies again
      until the record has been consumed or its attempts are used up: three successes, then
      the fourth call is refused and the record is gone. */
  lemma RightCodeVerifiesUntilAttemptsRunOut(s: Store, phone: string, code: Code, t0: int,
                                             t1: int, t2: int, t3: int, t4: int)
    requires phone != ""
    requires t1 <= t0 + TtlMs && t2 <= t0 + TtlMs && t3 <= t0 + TtlMs && t4 <= t0 + TtlMs
    ensures var otp := DecimalString(code);
            var s0 := s[phone := Issue(code, t0)];
            var (o1, s1) := Verify(s0, phone, otp, t1);
            var (o2, s2) := Verify(s1, phone, otp, t2);
            var (o3, s3) := Verify(s2, phone, otp, t3);
            var (o4, s4) := Verify(s3, phone, otp, t4);
            && o1 == Verified && o2 == Verified && o3 == Verified
            && Consumable(s3, phone)
            && o4 == TooManyAttempts && phone !in s4
  {
    IssuedRecord(code, t0);
  }

  // =====================================================================
  // Properties of consumption and of the sweep
  // =====================================================================

  /** A second consumption of the same phone always fails, and changes nothing. */
  lemma ConsumeIsSingleUse(s: Store, phone: string)
    requires Consumable(s, phone)
    ensures !Consumable(Consume(s, phone), phone)
    ensures Consume(Consume(s, phone), phone) == Consume(s, phone)
  {
  }

  lemma ConsumeKeepsWellFormed(s: Store, phone: string)
    requires WellFormed(s)
    ensures WellFormed(Consume(s, phone))
  {
  }

  /** Issue a code, verify it, consume it: the first consumption succeeds and leaves no
      record behind, and a second one fails. */
  lemma IssueVerifyConsume(s: Store, settings: map<string, string>, phone: string, now: int,
                           code: Code, remote: Whatsapp.Remote, later: int)
    requires AcceptablePhone(phone) && !CoolingDown(s, phone, now)
    requires Whatsapp.Deliverable(settings, remote)
    requires now <= later <= now + TtlMs
    ensures var (o1, s1) := Send(s, settings, phone, now, code, remote);
            var (o2, s2) := Verify(s1, phone, DecimalString(code), later);
            && o1 == OtpSent && o2 == Verified
            && Consumable(s2, phone)
            && phone !in Consume(s2, phone)
            && !Consumable(Consume(s2, phone), phone)
  {
    IssuedRecord(code, now);
  }

  /** A later sweep subsumes an earlier one: sweeping at `t1` and then at `t2 >= t1` leaves
      what one sweep at `t2` leaves. In particular sweeping twice at once changes nothing. */
  lemma SweepsCompose(s: Store, t1: int, t2: int)
    requires t1 <= t2
    ensures Sweep(Sweep(s, t1), t2) == Sweep(s, t2)
  {
  }

  /** The sweep deletes only what verify would refuse as expired anyway: any record it
      removes gets `Expired` (and is deleted) from a verify call at the same instant rather
      than a code comparison. */
  lemma SweptRecordsWereExpired(s: Store, now: int, phone: string, otp: string)
    requires phone != "" && otp != ""
    requires phone in s && phone !in Sweep(s, now)
    ensures Verify(s, phone, otp, now) == (Expired, s - {phone})
  {
  }

  lemma SweepKeepsWellFormed(s: Store, now: int)
    requires WellFormed(s)
    ensures WellFormed(Sweep(s, now))
  {
  }
}
