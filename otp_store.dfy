// The server's one-time-password store: a map from e-mail address to the last code sent
// there and its expiry time; a code is good once, before it expires.

module OtpStore {
  import opened JsText

  /** `Math.floor(100000 + Math.random() * 900000)` for a draw `rnd` in [0, 1). */
  function OtpNumber(rnd: real): (n: nat)
    requires 0.0 <= rnd < 1.0
    ensures 100000 <= n <= 999999
  {
    var x := 100000.0 + rnd * 900000.0;
    assert rnd * 900000.0 < 900000.0;
    x.Floor
  }

  /** `generateOtp`: the decimal digits of the drawn number, always six of them. */
  function GenerateOtp(rnd: real): (otp: string)
    requires 0.0 <= rnd < 1.0
    ensures |otp| == 6 && AllDigits(otp)
    ensures 100000 <= DecimalValue(otp) <= 999999
  {
    var n := OtpNumber(rnd);
    assert Pow10(5) == 100000 && Pow10(6) == 1000000;
    DecimalLength(n, 6);
    DecimalRoundTrip(n);
    Decimal(n)
  }

  datatype Entry = Entry(otp: string, expiresAt: int)

  /** Codes stay good for five minutes, in milliseconds. */
  const LifetimeMs: int := 5 * 60 * 1000

  /** `verify`'s verdict on a store: there is an entry, its code is the one given, and it has not expired. */
  function Verdict(store: map<string, Entry>, email: string, otp: string, now: int): (valid: bool)
    ensures valid ==> email in store
    ensures email !in store ==> !valid
  {
    email in store && store[email].otp == otp && now < store[email].expiresAt
  }

  /** The store after `verify`: a successful check deletes the entry; a failed one changes nothing. */
  function AfterVerify(store: map<string, Entry>, email: string, otp: string, now: int): (r: map<string, Entry>)
    ensures Verdict(store, email, otp, now) ==> r == store - {email}
    ensures !Verdict(store, email, otp, now) ==> r == store
  {
    if Verdict(store, email, otp, now) then store - {email} else store
  }

  /** A code is good once: straight after it is accepted, the same check fails. */
  lemma SingleUse(store: map<string, Entry>, email: string, otp: string, now: int, later: int)
    requires Verdict(store, email, otp, now)
    ensures !Verdict(AfterVerify(store, email, otp, now), email, otp, later)
  {
  }

  /** A fresh code is accepted until it expires, and the store keeps everyone else's entries. */
  lemma FreshCodeAccepted(store: map<string, Entry>, email: string, otp: string, issued: int, now: int)
    requires issued <= now < issued + LifetimeMs
    ensures Verdict(store[email := Entry(otp, issued + LifetimeMs)], email, otp, now)
    ensures forall other :: other in store && other != email ==> store[email := Entry(otp, issued + LifetimeMs)][other] == store[other]
  {
  }

  /** Once the lifetime has passed, even the right code is refused. */
  lemma ExpiredCodeRefused(store: map<string, Entry>, email: string, otp: string, issued: int, now: int)
    requires now >= issued + LifetimeMs
    ensures !Verdict(store[email := Entry(otp, issued + LifetimeMs)], email, otp, now)
  {
  }

  /** A new code for an address replaces the earlier one: the old code no longer passes. */
  lemma NewCodeReplacesOld(store: map<string, Entry>, email: string, first: string, second: string,
                           issued: int, now: int)
    requires first != second
    ensures !Verdict(store[email := Entry(first, issued)][email := Entry(second, issued + LifetimeMs)],
                     email, first, now)
  {
  }

  /** The module-level `Map` of the store, with `generate` and `verify`. */
  class Store {
    var entries: map<string, Entry>

    constructor ()
      ensures entries == map[]
    {
      entries := map[];
    }

    /** `otpStore.generate`: draw a code, record it for the address with a five-minute expiry, return it. */
    method Generate(email: string, rnd: real, now: int) returns (otp: string)
      requires 0.0 <= rnd < 1.0
      modifies this
      ensures otp == GenerateOtp(rnd) && |otp| == 6
      ensures entries == old(entries)[email := Entry(otp, now + LifetimeMs)]
    {
      otp := GenerateOtp(rnd);
      entries := entries[email := Entry(otp, now + LifetimeMs)];
    }

    /** `otpStore.verify`: the verdict for the address and the code at time `now`, deleting the entry on success. */
    method Verify(email: string, otp: string, now: int) returns (valid: bool)
      modifies this
      ensures valid == Verdict(old(entries), email, otp, now)
      ensures entries == AfterVerify(old(entries), email, otp, now)
    {
      if email !in entries {
        return false;
      }
      var entry := entries[email];
      valid := entry.otp == otp && now < entry.expiresAt;
      if valid {
        entries := entries - {email};
      }
    }
  }
}
