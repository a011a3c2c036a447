/**
 * UserService: registration, login with an optional SMS second factor,
 * phone verification and the 2FA switch, over a user table and a table of
 * one-time codes.
 *
 * What the service calls but does not own is passed in: the password
 * hash and its check, the token signer and the expiry test are functions
 * fixed at construction; the clock (`now`), the random draws of the code
 * generator and whether the SMS gateway accepted a message are arguments
 * of each call.
 */
module Service {
  import opened Wrappers
  import opened UserEntity
  import opened OtpEntity
  import CodeGenerator

  /** The exceptions a service method ends with. */
  datatype Error =
    | BadRequest(message: string)
    | Unauthorized(message: string)
    | NotFound(message: string)
    | Forbidden(message: string)
    | InternalServerError(message: string)
      /** A failed database query, with its SQLSTATE code and the database's detail text. */
    | QueryFailed(code: string, detail: string)
      /** The SMS gateway's error, which sendSMS rethrows with statusCode 400. */
    | SmsFailed(statusCode: int)

  /** What a successful call answers. */
  datatype Reply =
      /** `{...user, access_token}`: the user without password, and a signed token. */
    | Session(user: Profile, accessToken: string)
      /** `{success: true}`, with the message when there is one. */
    | Acknowledged(message: Option<string>)

  /** A message handed to the SMS gateway. */
  datatype Sms = Sms(to: string, body: string)

  const OtpLength := 6
  const UniqueViolation := "23505"
  const ServerError := "Server error - check logs"
  const BadCredentials := "Incorrect email or password"
  const InvalidCode := "Invalid code"
  const ExpiredCode := "Expired code"
  const InvalidCodeShape := "Invalid Code"
  const NoUser := "Unauthorized"
  const SmsStatus := 400

  /**
   * handleErrors: a unique violation reported by the database becomes a
   * BadRequest carrying the database's detail; every other error, the
   * service's own exceptions included, becomes a generic InternalServerError.
   */
  function HandleErrors(e: Error): (r: Error)
    ensures r.BadRequest? <==> e.QueryFailed? && e.code == UniqueViolation
    ensures r.BadRequest? ==> r.message == e.detail
    ensures !r.BadRequest? ==> r == InternalServerError(ServerError)
  {
    if e.QueryFailed? && e.code == UniqueViolation then BadRequest(e.detail) else InternalServerError(ServerError)
  }

  /** The detail PostgreSQL gives for a unique violation on `column`. */
  function DuplicateKeyDetail(column: string, value: string): string {
    "Key (" + column + ")=(" + value + ") already exists."
  }

  /** The SMS texts of sendOTP, keyed by use case; every use case has one. */
  function Messages(otp: string): (m: map<UseCase, string>)
    ensures LOGIN in m && D2FA in m && PHV in m
  {
    map[
      D2FA := "Use this code " + otp + " to disable multifactor authentication on your account",
      PHV := "Use this code " + otp + " to verify the phone number registered on your account",
      LOGIN := "Use this code " + otp + " to log in to your account"]
  }

  /**
   * The filter of getOTPRecord: code, owner and use case all equal. A row it
   * lets through always belongs to the given owner, which is why the owner
   * check of validateLoginOTP never fires.
   */
  predicate Matches(rec: OtpRecord, userId: Id, code: string, useCase: UseCase): (b: bool)
    ensures b ==> rec.userId == userId && rec.code == code && rec.useCase == useCase
  {
    rec.code == code && rec.userId == userId && rec.useCase == useCase
  }

  ghost predicate AnyMatch(otps: map<Id, OtpRecord>, userId: Id, code: string, useCase: UseCase) {
    exists id :: id in otps && Matches(otps[id], userId, code, useCase)
  }

  /**
   * `s.length` in JavaScript: the number of UTF-16 code units, where a
   * character above U+FFFF takes two (a surrogate pair).
   */
  function Utf16Length(s: string): (n: nat)
    ensures |s| <= n <= 2 * |s|
  {
    if s == [] then 0 else Utf16Length(s[..|s| - 1]) + (if s[|s| - 1] as int > 0xFFFF then 2 else 1)
  }

  /** A string of characters up to U+FFFF has one code unit per character. */
  lemma {:induction false} OneUnitEach(s: string)
    requires forall i :: 0 <= i < |s| ==> s[i] as int <= 0xFFFF
    ensures Utf16Length(s) == |s|
  {
    if s != [] {
      OneUnitEach(s[..|s| - 1]);
    }
  }

  /** A character above U+FFFF counts twice: this six-character string has JavaScript length 7. */
  lemma SurrogatePairCountsTwice()
    ensures |"12345\U{1F600}"| == 6 && Utf16Length("12345\U{1F600}") == 7
  {
    var s := "12345\U{1F600}";
    assert s[..|s| - 1] == "12345";
    OneUnitEach("12345");
  }

  /** A code of six decimal digits. */
  ghost predicate IsOtpCode(code: string) {
    |code| == OtpLength && forall i :: 0 <= i < |code| ==> CodeGenerator.IsDigit(code[i])
  }

  /** Enough draws of Math.random for one code. */
  predicate Oracle(draws: seq<real>) {
    |draws| >= OtpLength && CodeGenerator.AreDraws(draws)
  }

  class UserService {
    var users: map<Id, User>
    var otps: map<Id, OtpRecord>
    /** Every key either table has handed out is below its counter. */
    var nextUserId: nat
    var nextOtpId: nat
    /** Every message handed to the SMS gateway, oldest first. */
    var outbox: seq<Sms>

    const hashPassword: string -> string
    /** verifyPassword(password, hashedPassword) */
    const verifyPassword: (string, string) -> bool
    /** signJWT(id) */
    const signJwt: Id -> string
    /** isTokenExpired(expiresAt), read at time `now`: isTokenExpired(expiresAt, now) */
    const isTokenExpired: (Time, Time) -> bool
    /** The lifetime getExpiry gives a new code. */
    const ttl: nat

    ghost predicate UsersValid()
      reads this
    {
      WellFormed(users) && forall id :: id in users ==> id < nextUserId
    }

    /** Each code row sits under its own key, belongs to a stored user and holds six digits. */
    ghost predicate OtpsValid()
      reads this
    {
      forall id :: id in otps ==>
        otps[id].id == id && id < nextOtpId && otps[id].userId in users && IsOtpCode(otps[id].code)
    }

    ghost predicate Valid()
      reads this
    {
      UsersValid() && OtpsValid()
    }

    /** The request user, if any, is a stored user (the authentication guard resolves it from the store). */
    predicate Resolved(user: Option<User>)
      reads this
    {
      user.Some? ==> user.value.id in users
    }

    ghost predicate Usable(m: map<Id, OtpRecord>, id: Id, userId: Id, code: string, useCase: UseCase, now: Time) {
      id in m && Matches(m[id], userId, code, useCase) && !isTokenExpired(m[id].expiresAt, now)
    }

    ghost predicate ExpiredMatch(m: map<Id, OtpRecord>, id: Id, userId: Id, code: string, useCase: UseCase, now: Time) {
      id in m && Matches(m[id], userId, code, useCase) && isTokenExpired(m[id].expiresAt, now)
    }

    /**
     * The two ways getOTPRecord fails: no matching row (nothing changes), or
     * a matching row that has expired (that row, and only it, is deleted).
     */
    ghost predicate LookupFailed(before: map<Id, OtpRecord>, after: map<Id, OtpRecord>,
                                 userId: Id, code: string, useCase: UseCase, now: Time, e: Error)
    {
      || (e == NotFound(InvalidCode) && !AnyMatch(before, userId, code, useCase) && after == before)
      || (e == NotFound(ExpiredCode) &&
          exists id :: ExpiredMatch(before, id, userId, code, useCase, now) && after == before - {id})
    }

    /** The row sendOTP inserts under key `id`. */
    function Issued(id: Id, userId: Id, useCase: UseCase, draws: seq<real>, now: Time): OtpRecord
      requires Oracle(draws)
    {
      OtpRecord(id, userId, CodeGenerator.Code(draws[..OtpLength]), useCase, now, now, Expiry(now, ttl))
    }

    /**
     * sendOTP's effect: exactly one new row, under a fresh key, every older
     * row kept (older codes for the same user and use case included), and
     * one SMS with the code to the user's phone.
     */
    twostate predicate IssuedOne(user: User, useCase: UseCase, draws: seq<real>, now: Time)
      reads this
      requires Oracle(draws)
    {
      && old(nextOtpId) !in old(otps)
      && nextOtpId == old(nextOtpId) + 1
      && otps == old(otps)[old(nextOtpId) := Issued(old(nextOtpId), user.id, useCase, draws, now)]
      && var code := CodeGenerator.Code(draws[..OtpLength]);
         assert useCase == LOGIN || useCase == D2FA || useCase == PHV;
         outbox == old(outbox) + [Sms(user.phone, Messages(code)[useCase])]
    }

    constructor (hashPassword: string -> string, verifyPassword: (string, string) -> bool,
                 signJwt: Id -> string, isTokenExpired: (Time, Time) -> bool, ttl: nat)
      ensures Valid()
      ensures users == map[] && otps == map[] && outbox == [] && nextUserId == 0 && nextOtpId == 0
      ensures this.hashPassword == hashPassword && this.verifyPassword == verifyPassword
      ensures this.signJwt == signJwt && this.isTokenExpired == isTokenExpired && this.ttl == ttl
    {
      this.hashPassword := hashPassword;
      this.verifyPassword := verifyPassword;
      this.signJwt := signJwt;
      this.isTokenExpired := isTokenExpired;
      this.ttl := ttl;
      users, otps := map[], map[];
      nextUserId, nextOtpId := 0, 0;
      outbox := [];
    }

    /**
     * register. The body runs inside try/catch → handleErrors, so a taken
     * email (the service's own BadRequest) surfaces as an
     * InternalServerError, while a taken phone, caught only by the phone
     * unique constraint when the row is saved, surfaces as a BadRequest
     * with the database's detail. Otherwise exactly one user is added, with
     * the hashed password and both flags off, and the reply is that user
     * without password plus a token for its id.
     */
    method Register(fullName: string, email: string, password: string, phone: string, now: Time)
      returns (r: Result<Reply, Error>)
      requires Valid()
      modifies this`users, this`nextUserId
      ensures Valid()
      ensures EmailTaken(old(users), email) ==>
        r == Err(HandleErrors(BadRequest("User already exist"))) && unchanged(this)
      ensures !EmailTaken(old(users), email) && PhoneTaken(old(users), phone) ==>
        r == Err(HandleErrors(QueryFailed(UniqueViolation, DuplicateKeyDetail("phone", phone)))) && unchanged(this)
      ensures !EmailTaken(old(users), email) && !PhoneTaken(old(users), phone) ==>
        var u := NewUser(old(nextUserId), fullName, phone, email, hashPassword(password), now);
        && old(nextUserId) !in old(users)
        && users == old(users)[u.id := u]
        && nextUserId == old(nextUserId) + 1
        && r == Ok(Session(Public(u), signJwt(u.id)))
    {
      var found := FindByEmail(users, email);
      if found.Some? {
        return Err(HandleErrors(BadRequest("User already exist")));
      }
      var hashed := hashPassword(password);
      var newUser := NewUser(nextUserId, fullName, phone, email, hashed, now);
      // save: the email constraint cannot fire here, the phone constraint can
      if PhoneTaken(users, phone) {
        return Err(HandleErrors(QueryFailed(UniqueViolation, DuplicateKeyDetail("phone", phone))));
      }
      InsertKeepsWellFormed(users, newUser);
      users := users[newUser.id := newUser];
      nextUserId := nextUserId + 1;
      return Ok(Session(Public(newUser), signJwt(newUser.id)));
    }

    /**
     * login. An unknown email and a wrong password end with the same
     * error (both are the service's own Unauthorized, rewrapped by
     * handleErrors) and change nothing. With twoFA off the reply is the
     * user without password plus a token and no code is issued; with twoFA
     * on exactly one LOGIN code is issued and the reply carries no token.
     */
    method Login(email: string, password: string, now: Time, draws: seq<real>, delivered: bool)
      returns (r: Result<Reply, Error>)
      requires Valid() && Oracle(draws)
      modifies this`otps, this`nextOtpId, this`outbox
      ensures Valid()
      ensures !EmailTaken(old(users), email) ==>
        r == Err(HandleErrors(Unauthorized(BadCredentials))) && unchanged(this)
      ensures EmailTaken(old(users), email) ==>
        var u := FindByEmail(old(users), email).value;
        && (!verifyPassword(password, u.password) ==>
              r == Err(HandleErrors(Unauthorized(BadCredentials))) && unchanged(this))
        && (verifyPassword(password, u.password) && !u.twoFA ==>
              r == Ok(Session(Public(u).(twoFA := false), signJwt(u.id))) && unchanged(this))
        && (verifyPassword(password, u.password) && u.twoFA ==>
              && IssuedOne(u, LOGIN, draws, now)
              && r == if delivered then Ok(Acknowledged(Some("Code for login sent,check inbox")))
                      else Err(HandleErrors(SmsFailed(SmsStatus))))
    {
      var found := FindByEmail(users, email);
      if found.None? {
        return Err(HandleErrors(Unauthorized(BadCredentials)));
      }
      var user := found.value;
      var passwordsMatch := verifyPassword(password, user.password);
      if !passwordsMatch {
        return Err(HandleErrors(Unauthorized(BadCredentials)));
      }
      if !user.twoFA {
        return Ok(Session(Public(user).(twoFA := false), signJwt(user.id)));
      }
      var sent := SendOtp(user, LOGIN, "Code for login sent,check inbox", now, draws, delivered);
      if sent.Err? {
        return Err(HandleErrors(sent.error));
      }
      return sent;
    }

    /**
     * sendCodeToVerifyPhone. No request user is a NotFound; an already
     * verified phone is answered without issuing anything; otherwise one
     * PHV code is issued.
     */
    method SendCodeToVerifyPhone(user: Option<User>, now: Time, draws: seq<real>, delivered: bool)
      returns (r: Result<Reply, Error>)
      requires Valid() && Resolved(user) && Oracle(draws)
      modifies this`otps, this`nextOtpId, this`outbox
      ensures Valid()
      ensures user.None? ==> r == Err(NotFound("User not found")) && unchanged(this)
      ensures user.Some? && user.value.isPhoneVerified ==>
        r == Ok(Acknowledged(Some("Phone number already verified"))) && unchanged(this)
      ensures user.Some? && !user.value.isPhoneVerified ==>
        && IssuedOne(user.value, PHV, draws, now)
        && r == if delivered then Ok(Acknowledged(Some("Code sent,check your inbox"))) else Err(SmsFailed(SmsStatus))
    {
      if user.None? {
        return Err(NotFound("User not found"));
      }
      if user.value.isPhoneVerified {
        return Ok(Acknowledged(Some("Phone number already verified")));
      }
      r := SendOtp(user.value, PHV, "Code sent,check your inbox", now, draws, delivered);
    }

    /**
     * validatePhoneCode. A code whose length is not six is refused before
     * anything else, the request user is checked next. On success the
     * stored user's phone is marked verified and the matched code row stays
     * in the table.
     */
    method ValidatePhoneCode(user: Option<User>, code: string, now: Time) returns (r: Result<Reply, Error>)
      requires Valid() && Resolved(user)
      modifies this`users, this`otps
      ensures Valid()
      ensures Utf16Length(code) != OtpLength ==> r == Err(BadRequest(InvalidCodeShape)) && unchanged(this)
      ensures Utf16Length(code) == OtpLength && user.None? ==> r == Err(Unauthorized(NoUser)) && unchanged(this)
      ensures Utf16Length(code) == OtpLength && user.Some? ==>
        var id := user.value.id;
        && (r.Ok? ==>
              && r.value == Acknowledged(Some("Phone number validated correctly"))
              && (exists k :: Usable(old(otps), k, id, code, PHV, now))
              && otps == old(otps)
              && users == old(users)[id := WithPhoneVerified(old(users)[id], now)])
        && (r.Err? ==> LookupFailed(old(otps), otps, id, code, PHV, now, r.error) && users == old(users))
        && (r == Err(NotFound(InvalidCode)) <==> !AnyMatch(old(otps), id, code, PHV))
    {
      if Utf16Length(code) != OtpLength {
        return Err(BadRequest(InvalidCodeShape));
      }
      if user.None? {
        return Err(Unauthorized(NoUser));
      }
      var u := user.value;
      var found := GetOtpRecord(u, code, PHV, now);
      if found.Err? {
        return Err(found.error);
      }
      var updated := WithPhoneVerified(users[u.id], now);
      UpdateKeepsWellFormed(users, updated);
      users := users[u.id := updated];
      return Ok(Acknowledged(Some("Phone number validated correctly")));
    }

    /**
     * set2FA. Asking for the current value changes nothing. Switching off
     * only issues a D2FA code, twoFA stays on until disable2FA confirms it.
     * Switching on takes effect at once, with no code.
     */
    method Set2FA(user: Option<User>, set2FA: bool, now: Time, draws: seq<real>, delivered: bool)
      returns (r: Result<Reply, Error>)
      requires Valid() && Resolved(user) && Oracle(draws)
      modifies this`users, this`otps, this`nextOtpId, this`outbox
      ensures Valid()
      ensures user.None? ==> r == Err(Unauthorized(NoUser)) && unchanged(this)
      ensures user.Some? && user.value.twoFA == set2FA ==> r == Ok(Acknowledged(None)) && unchanged(this)
      ensures user.Some? && user.value.twoFA && !set2FA ==>
        && users == old(users)
        && IssuedOne(user.value, D2FA, draws, now)
        && r == if delivered then Ok(Acknowledged(Some("The code to disable 2 Factor Authentication , was sent")))
                else Err(SmsFailed(SmsStatus))
      ensures user.Some? && !user.value.twoFA && set2FA ==>
        var id := user.value.id;
        && users == old(users)[id := WithTwoFA(old(users)[id], true, now)]
        && otps == old(otps) && nextOtpId == old(nextOtpId) && outbox == old(outbox)
        && r == Ok(Acknowledged(None))
    {
      if user.None? {
        return Err(Unauthorized(NoUser));
      }
      var u := user.value;
      if u.twoFA == set2FA {
        return Ok(Acknowledged(None));
      }
      if u.twoFA && !set2FA {
        r := SendOtp(u, D2FA, "The code to disable 2 Factor Authentication , was sent", now, draws, delivered);
        return;
      }
      var updated := WithTwoFA(users[u.id], set2FA, now);
      UpdateKeepsWellFormed(users, updated);
      users := users[u.id := updated];
      return Ok(Acknowledged(None));
    }

    /**
     * disable2FA. The only operation that consumes a code: on success the
     * matched D2FA row is deleted and the stored user's twoFA is switched
     * off.
     */
    method Disable2FA(user: Option<User>, code: string, now: Time) returns (r: Result<Reply, Error>)
      requires Valid() && Resolved(user)
      modifies this`users, this`otps
      ensures Valid()
      ensures user.None? ==> r == Err(Unauthorized(NoUser)) && unchanged(this)
      ensures user.Some? && Utf16Length(code) != OtpLength ==> r == Err(BadRequest(InvalidCodeShape)) && unchanged(this)
      ensures user.Some? && Utf16Length(code) == OtpLength ==>
        var id := user.value.id;
        && (r.Ok? ==>
              && r.value == Acknowledged(None)
              && (exists k :: Usable(old(otps), k, id, code, D2FA, now) && otps == old(otps) - {k})
              && users == old(users)[id := WithTwoFA(old(users)[id], false, now)])
        && (r.Err? ==> LookupFailed(old(otps), otps, id, code, D2FA, now, r.error) && users == old(users))
        && (r == Err(NotFound(InvalidCode)) <==> !AnyMatch(old(otps), id, code, D2FA))
    {
      if user.None? {
        return Err(Unauthorized(NoUser));
      }
      if Utf16Length(code) != OtpLength {
        return Err(BadRequest(InvalidCodeShape));
      }
      var u := user.value;
      var found := GetOtpRecord(u, code, D2FA, now);
      if found.Err? {
        return Err(found.error);
      }
      var updated := WithTwoFA(users[u.id], false, now);
      otps := otps - {found.value.id};
      UpdateKeepsWellFormed(users, updated);
      users := users[u.id := updated];
      return Ok(Acknowledged(None));
    }

    /**
     * validateLoginOTP. On success the reply is the request user with
     * twoFA on plus a token, and both tables are as before: the LOGIN row
     * is not consumed. The owner check after the lookup never fires: the
     * answer "Invalid code" comes exactly when no row matches.
     */
    method ValidateLoginOtp(user: Option<User>, code: string, now: Time) returns (r: Result<Reply, Error>)
      requires Valid() && Resolved(user)
      modifies this`otps
      ensures Valid()
      ensures user.None? ==> r == Err(Unauthorized(NoUser)) && unchanged(this)
      ensures user.Some? && Utf16Length(code) != OtpLength ==> r == Err(BadRequest(InvalidCodeShape)) && unchanged(this)
      ensures user.Some? && Utf16Length(code) == OtpLength ==>
        var u := user.value;
        && (r.Ok? ==>
              && r.value == Session(Public(u).(twoFA := true), signJwt(u.id))
              && (exists k :: Usable(old(otps), k, u.id, code, LOGIN, now))
              && otps == old(otps))
        && (r.Err? ==> LookupFailed(old(otps), otps, u.id, code, LOGIN, now, r.error))
        && (r == Err(NotFound(InvalidCode)) <==> !AnyMatch(old(otps), u.id, code, LOGIN))
    {
      if user.None? {
        return Err(Unauthorized(NoUser));
      }
      if Utf16Length(code) != OtpLength {
        return Err(BadRequest(InvalidCodeShape));
      }
      var u := user.value;
      var found := GetOtpRecord(u, code, LOGIN, now);
      if found.Err? {
        return Err(found.error);
      }
      if u.id != found.value.userId {
        return Err(NotFound(InvalidCode));
      }
      return Ok(Session(Public(u).(twoFA := true), signJwt(u.id)));
    }

    /**
     * sendOTP. The row is saved before the message is chosen and sent, so
     * neither the (unreachable) Forbidden branch nor a failed SMS removes it.
     */
    method SendOtp(user: User, useCase: UseCase, messageSuccess: string, now: Time, draws: seq<real>, delivered: bool)
      returns (r: Result<Reply, Error>)
      requires Valid() && user.id in users && Oracle(draws)
      modifies this`otps, this`nextOtpId, this`outbox
      ensures Valid()
      ensures IssuedOne(user, useCase, draws, now)
      ensures r == if delivered then Ok(Acknowledged(Some(messageSuccess))) else Err(SmsFailed(SmsStatus))
    {
      var otp := CodeGenerator.GenerateOtp(OtpLength, draws);
      var entity := new Otp(user.id, otp, useCase);
      entity.BeforeInsert(now, ttl);
      var row := entity.Row(nextOtpId);
      assert row == Issued(nextOtpId, user.id, useCase, draws, now);
      SavedCodeKeepsValid(row);
      otps := otps[nextOtpId := row];
      nextOtpId := nextOtpId + 1;
      var messages := Messages(otp);
      if useCase !in messages {
        return Err(Forbidden("Invalid use case"));
      }
      outbox := outbox + [Sms(user.phone, messages[useCase])];
      if !delivered {
        return Err(SmsFailed(SmsStatus));
      }
      return Ok(Acknowledged(Some(messageSuccess)));
    }

    /** Inserting a six-digit code of a stored user under the next key keeps the invariant. */
    lemma SavedCodeKeepsValid(row: OtpRecord)
      requires Valid() && row.id == nextOtpId && row.userId in users && IsOtpCode(row.code)
      ensures nextOtpId !in otps
      ensures var otps' := otps[nextOtpId := row];
        forall id :: id in otps' ==>
          otps'[id].id == id && id < nextOtpId + 1 && otps'[id].userId in users && IsOtpCode(otps'[id].code)
    {
    }

    /**
     * getOTPRecord. Answers only a row whose code, owner and use case all
     * match. No match: NotFound "Invalid code", nothing changes. The match
     * found has expired: exactly that row is deleted, NotFound "Expired
     * code". Otherwise the row is returned and nothing changes. When several
     * rows match, which one the query returns is not fixed.
     */
    method GetOtpRecord(user: User, code: string, useCase: UseCase, now: Time) returns (r: Result<OtpRecord, Error>)
      requires Valid()
      modifies this`otps
      ensures Valid()
      ensures r.Ok? ==>
        && Usable(old(otps), r.value.id, user.id, code, useCase, now)
        && old(otps)[r.value.id] == r.value
        && otps == old(otps)
      ensures r.Err? ==> LookupFailed(old(otps), otps, user.id, code, useCase, now, r.error)
      ensures r == Err(NotFound(InvalidCode)) <==> !AnyMatch(old(otps), user.id, code, useCase)
    {
      if !exists id :: id in otps && Matches(otps[id], user.id, code, useCase) {
        return Err(NotFound(InvalidCode));
      }
      var id :| id in otps && Matches(otps[id], user.id, code, useCase);
      var rec := otps[id];
      if isTokenExpired(rec.expiresAt, now) {
        otps := otps - {id};
        return Err(NotFound(ExpiredCode));
      }
      return Ok(rec);
    }
  }
}
