/** Accounts (`login.js`): the e-mail code that confirms an account or resets
    its password, the rate limit on asking for a new code, and the role and
    first-time setup a login reports. The password hash is left to `bcrypt`:
    an account keeps the password its hash accepts. */
module Login {
  import opened Base
  import opened Text

  // ---------------------------------------------------------------------------
  // Rate limit
  // ---------------------------------------------------------------------------

  /** Minutes to wait after the first, second, third and every later code. */
  const ResendLimits: seq<int> := [1, 2, 5, 10]

  const MinuteMs: int := 60000

  /** `getResendWaitTime`: the wait, in minutes, before the next code may be sent. */
  function ResendWaitTime(attempts: nat): (w: int)
    ensures w == 1 || w == 2 || w == 5 || w == 10
    ensures attempts < |ResendLimits| ==> w == ResendLimits[attempts]
    ensures attempts >= |ResendLimits| ==> w == 10
  {
    if attempts >= |ResendLimits| then ResendLimits[|ResendLimits| - 1] else ResendLimits[attempts]
  }

  /** The more codes were sent, the longer the wait. */
  lemma WaitNonDecreasing(a: nat, b: nat)
    requires a <= b
    ensures ResendWaitTime(a) <= ResendWaitTime(b)
  {
  }

  /** The answer to a request for a new code. */
  datatype RateDecision = Allowed | Refused(retryMinutes: int)

  /** The rate-limit check at time `now`: a missing `last_code_request` counts as 0. */
  function RateLimit(lastRequest: Option<int>, now: int, attempts: nat): (d: RateDecision)
    ensures var elapsed := now - lastRequest.GetOr(0);
      var required := ResendWaitTime(attempts) * MinuteMs;
      (d.Refused? <==> elapsed < required)
      && (d.Refused? ==>
            d.retryMinutes >= 1
            && (d.retryMinutes - 1) * MinuteMs < required - elapsed <= d.retryMinutes * MinuteMs)
  {
    var elapsed := now - lastRequest.GetOr(0);
    var required := ResendWaitTime(attempts) * MinuteMs;
    if elapsed < required then Refused(CeilDiv(required - elapsed, MinuteMs)) else Allowed
  }

  /** `Math.ceil(a / b)` for positive `a` and `b`. */
  function CeilDiv(a: int, b: int): (q: int)
    requires a > 0 && b > 0
    ensures q >= 1 && (q - 1) * b < a <= q * b
  {
    (a + b - 1) / b
  }

  // ---------------------------------------------------------------------------
  // Accounts
  // ---------------------------------------------------------------------------

  /** The address fields a buyer must fill in; an id of 0 and an empty text count as missing. */
  datatype Address = Address(cityId: Option<int>, districtId: Option<int>, street: string, whatsapp: string)

  datatype Account = Account(
    id: int,
    password: string,
    isVerified: bool,
    confirmationCode: Option<string>,
    lastCodeRequest: Option<int>,
    attempts: nat,
    isAdmin: bool,
    isSeller: bool,
    address: Address)

  datatype AuthError = BadRequest | Unauthorized | NotFound | TooManyRequests(retryMinutes: int) | NotVerified

  /** Whether a code is pending: `confirmation_code` is neither `NULL` nor empty. */
  predicate CodePending(acc: Account) {
    acc.confirmationCode.Some? && acc.confirmationCode.value != ""
  }

  /** The `UPDATE` of `/register/verify` on the account the e-mail names:
      it applies only to an unverified account whose code is `upper`. */
  function VerifyAccount(acc: Account, upper: string): (r: Result<Account, AuthError>)
    ensures r.Ok? <==> !acc.isVerified && acc.confirmationCode == Some(upper)
    ensures r.Err? ==> r.error == Unauthorized
    ensures r.Ok? ==> r.value == acc.(isVerified := true, confirmationCode := None)
  {
    if !acc.isVerified && acc.confirmationCode == Some(upper) then Ok(acc.(isVerified := true, confirmationCode := None))
    else Err(Unauthorized)
  }

  /** A code confirms an account once: the confirmed account accepts no code. */
  lemma VerifyOnce(acc: Account, upper: string, again: string)
    requires VerifyAccount(acc, upper).Ok?
    ensures VerifyAccount(VerifyAccount(acc, upper).value, again).Err?
  {
  }

  /** A new code sent at time `now`, after the rate limit: the code, the time and the count are updated. */
  function RequestCode(acc: Account, now: int, newCode: string): (r: Result<Account, AuthError>)
    ensures RateLimit(acc.lastCodeRequest, now, acc.attempts).Refused? ==>
      r == Err(TooManyRequests(RateLimit(acc.lastCodeRequest, now, acc.attempts).retryMinutes))
    ensures RateLimit(acc.lastCodeRequest, now, acc.attempts).Allowed? ==>
      r == Ok(acc.(confirmationCode := Some(newCode), lastCodeRequest := Some(now), attempts := acc.attempts + 1))
  {
    match RateLimit(acc.lastCodeRequest, now, acc.attempts)
    case Refused(minutes) => Err(TooManyRequests(minutes))
    case Allowed => Ok(acc.(confirmationCode := Some(newCode), lastCodeRequest := Some(now), attempts := acc.attempts + 1))
  }

  /** Right after a code is sent, another one is refused for the next wait, which is no shorter than the last. */
  lemma RequestCodeBacksOff(acc: Account, now: int, newCode: string, later: int, another: string)
    requires RequestCode(acc, now, newCode).Ok?
    requires now <= later < now + ResendWaitTime(acc.attempts + 1) * MinuteMs
    ensures RequestCode(RequestCode(acc, now, newCode).value, later, another).Err?
    ensures ResendWaitTime(acc.attempts) <= ResendWaitTime(acc.attempts + 1)
  {
    WaitNonDecreasing(acc.attempts, acc.attempts + 1);
  }

  /** The `UPDATE` of `/reset-password`: the new password, no code, and the rate limit started over. */
  function ResetAccount(acc: Account, upper: string, newPassword: string): (r: Result<Account, AuthError>)
    ensures r.Ok? <==> acc.confirmationCode == Some(upper)
    ensures r.Err? ==> r.error == Unauthorized
    ensures r.Ok? ==>
      r.value == acc.(password := newPassword, confirmationCode := None, attempts := 0, lastCodeRequest := None)
  {
    if acc.confirmationCode == Some(upper) then
      Ok(acc.(password := newPassword, confirmationCode := None, attempts := 0, lastCodeRequest := None))
    else Err(Unauthorized)
  }

  /** After a reset the code cannot be used again, and a new code may be asked for a minute after the epoch. */
  lemma ResetStartsOver(acc: Account, upper: string, newPassword: string, now: int, again: string)
    requires ResetAccount(acc, upper, newPassword).Ok?
    requires now >= MinuteMs
    ensures var after := ResetAccount(acc, upper, newPassword).value;
      ResetAccount(after, again, newPassword).Err?
      && RateLimit(after.lastCodeRequest, now, after.attempts).Allowed?
  {
  }

  // ---------------------------------------------------------------------------
  // Login
  // ---------------------------------------------------------------------------

  datatype Role = Admin | Seller | Buyer

  datatype Setup = StoreSetup | AddressSetup

  datatype Session = Session(id: int, role: Role, needsSetup: Option<Setup>)

  predicate HasAddress(a: Address) {
    a.cityId.Some? && a.cityId.value != 0 && a.districtId.Some? && a.districtId.value != 0
    && a.street != "" && a.whatsapp != ""
  }

  /** The role and the setup a login reports: admin before seller before buyer;
      a seller without a store must set one up, a buyer without a full address must give one. */
  function RoleAndSetup(acc: Account, hasStore: bool): (r: (Role, Option<Setup>))
    ensures acc.isAdmin <==> r.0 == Admin
    ensures r.0 == Seller <==> !acc.isAdmin && acc.isSeller
    ensures r.0 == Admin ==> r.1.None?
    ensures r.0 == Seller ==> (r.1 == Some(StoreSetup) <==> !hasStore) && (hasStore ==> r.1.None?)
    ensures r.0 == Buyer ==> (r.1 == Some(AddressSetup) <==> !HasAddress(acc.address)) && (HasAddress(acc.address) ==> r.1.None?)
  {
    if acc.isAdmin then (Admin, None)
    else if acc.isSeller then (Seller, if hasStore then None else Some(StoreSetup))
    else (Buyer, if HasAddress(acc.address) then None else Some(AddressSetup))
  }

  // ---------------------------------------------------------------------------
  // The users table
  // ---------------------------------------------------------------------------

  /** `users`, keyed by e-mail, and the sellers that have a store. */
  class Users {
    var accounts: map<string, Account>
    var sellersWithStore: set<int>

    constructor (accounts: map<string, Account>, sellersWithStore: set<int>)
      ensures this.accounts == accounts && this.sellersWithStore == sellersWithStore
    {
      this.accounts := accounts;
      this.sellersWithStore := sellersWithStore;
    }

    /** `POST /register/verify`: a code of exactly 6 characters, compared upper-cased. */
    method Verify(email: string, code: string) returns (r: Result<(), AuthError>)
      modifies this
      ensures email == "" || |code| != 6 ==> r == Err(BadRequest) && accounts == old(accounts)
      ensures email != "" && |code| == 6 && email !in old(accounts) ==> r == Err(Unauthorized) && accounts == old(accounts)
      ensures email != "" && |code| == 6 && email in old(accounts) ==>
        var v := VerifyAccount(old(accounts)[email], ToUpper(code));
        (v.Ok? ==> r == Ok(()) && accounts == old(accounts)[email := v.value])
        && (v.Err? ==> r == Err(v.error) && accounts == old(accounts))
      ensures sellersWithStore == old(sellersWithStore)
    {
      if email == "" || |code| != 6 {
        return Err(BadRequest);
      }
      var upperCaseCode := ToUpper(code);
      if email !in accounts {
        return Err(Unauthorized);
      }
      var v := VerifyAccount(accounts[email], upperCaseCode);
      if v.Err? {
        return Err(v.error);
      }
      accounts := accounts[email := v.value];
      r := Ok(());
    }

    /** `POST /resend-code` at time `now`, sending `newCode`: the request type
        must be `register` or `forgot-password`, the account must have a code
        pending, and the rate limit must allow it; the answer is the next wait. */
    method ResendCode(email: string, requestType: string, now: int, newCode: string) returns (r: Result<int, AuthError>)
      modifies this
      ensures email == "" || (requestType != "register" && requestType != "forgot-password") ==>
        r == Err(BadRequest) && accounts == old(accounts)
      ensures email != "" && (requestType == "register" || requestType == "forgot-password") ==>
        (email !in old(accounts) || !CodePending(old(accounts)[email]) ==> r == Err(NotFound) && accounts == old(accounts))
        && (email in old(accounts) && CodePending(old(accounts)[email]) ==>
              var q := RequestCode(old(accounts)[email], now, newCode);
              (q.Ok? ==> r == Ok(ResendWaitTime(q.value.attempts)) && accounts == old(accounts)[email := q.value])
              && (q.Err? ==> r == Err(q.error) && accounts == old(accounts)))
      ensures sellersWithStore == old(sellersWithStore)
    {
      if email == "" || (requestType != "register" && requestType != "forgot-password") {
        return Err(BadRequest);
      }
      if email !in accounts || !CodePending(accounts[email]) {
        return Err(NotFound);
      }
      var q := RequestCode(accounts[email], now, newCode);
      if q.Err? {
        return Err(q.error);
      }
      accounts := accounts[email := q.value];
      r := Ok(ResendWaitTime(q.value.attempts));
    }

    /** `POST /forgot-password` at time `now`: an unknown e-mail gets the same
        success answer and nothing is sent; otherwise the rate limit applies. */
    method ForgotPassword(email: string, now: int, resetCode: string) returns (r: Result<bool, AuthError>)
      modifies this
      ensures email == "" ==> r == Err(BadRequest) && accounts == old(accounts)
      ensures email != "" && email !in old(accounts) ==> r == Ok(false) && accounts == old(accounts)
      ensures email != "" && email in old(accounts) ==>
        var q := RequestCode(old(accounts)[email], now, resetCode);
        (q.Ok? ==> r == Ok(true) && accounts == old(accounts)[email := q.value])
        && (q.Err? ==> r == Err(q.error) && accounts == old(accounts))
      ensures sellersWithStore == old(sellersWithStore)
    {
      if email == "" {
        return Err(BadRequest);
      }
      if email !in accounts {
        return Ok(false);
      }
      var q := RequestCode(accounts[email], now, resetCode);
      if q.Err? {
        return Err(q.error);
      }
      accounts := accounts[email := q.value];
      r := Ok(true);
    }

    /** `POST /reset-password`: a new password of at least 6 characters and the pending code, upper-cased. */
    method ResetPassword(email: string, code: string, newPassword: string) returns (r: Result<(), AuthError>)
      modifies this
      ensures email == "" || code == "" || |newPassword| < 6 ==> r == Err(BadRequest) && accounts == old(accounts)
      ensures email != "" && code != "" && |newPassword| >= 6 ==>
        (email !in old(accounts) ==> r == Err(Unauthorized) && accounts == old(accounts))
        && (email in old(accounts) ==>
              var q := ResetAccount(old(accounts)[email], ToUpper(code), newPassword);
              (q.Ok? ==> r == Ok(()) && accounts == old(accounts)[email := q.value])
              && (q.Err? ==> r == Err(q.error) && accounts == old(accounts)))
      ensures sellersWithStore == old(sellersWithStore)
    {
      if email == "" || code == "" || |newPassword| < 6 {
        return Err(BadRequest);
      }
      var upperCaseCode := ToUpper(code);
      if email !in accounts {
        return Err(Unauthorized);
      }
      var q := ResetAccount(accounts[email], upperCaseCode, newPassword);
      if q.Err? {
        return Err(q.error);
      }
      accounts := accounts[email := q.value];
      r := Ok(());
    }

    /** `POST /login`: a wrong e-mail or password is refused, then an
        unverified account, even with the right password. */
    function LoginOutcome(email: string, password: string): (r: Result<Session, AuthError>)
      reads this
      ensures email == "" || password == "" ==> r == Err(BadRequest)
      ensures email != "" && password != "" ==>
        (r.Ok? <==> email in accounts && accounts[email].password == password && accounts[email].isVerified)
      ensures (email != "" && password != "" && email in accounts && accounts[email].password == password
               && !accounts[email].isVerified) ==> r == Err(NotVerified)
      ensures r.Ok? ==>
        var acc := accounts[email];
        r.value.id == acc.id && (r.value.role, r.value.needsSetup) == RoleAndSetup(acc, acc.id in sellersWithStore)
    {
      if email == "" || password == "" then Err(BadRequest)
      else if email !in accounts || accounts[email].password != password then Err(Unauthorized)
      else
        var acc := accounts[email];
        if !acc.isVerified then Err(NotVerified)
        else
          var (role, setup) := RoleAndSetup(acc, acc.id in sellersWithStore);
          Ok(Session(acc.id, role, setup))
    }
  }

  /** Once an account is confirmed, its right password logs in. */
  lemma VerifiedCanLogin(users: Users, email: string, password: string)
    requires email != "" && password != "" && email in users.accounts
    requires users.accounts[email].isVerified && users.accounts[email].password == password
    ensures users.LoginOutcome(email, password).Ok?
  {
  }
}
