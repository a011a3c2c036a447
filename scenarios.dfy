/**
 * Flows through a fresh service, proved from the method contracts alone:
 * the login challenge of an account with 2FA on, and switching 2FA off with
 * its confirmation code.
 */
module Scenarios {
  import opened Wrappers
  import opened UserEntity
  import opened OtpEntity
  import opened Service
  import CodeGenerator

  /**
   * A fresh service; Alice registers and switches 2FA on (no code needed).
   * Her account is then the only user and no code is outstanding.
   */
  method AccountWithTwoFactor(hash: string -> string, verify: (string, string) -> bool, sign: Id -> string,
                              expired: (Time, Time) -> bool, ttl: nat, password: string, now: Time, draws: seq<real>)
    returns (svc: UserService, alice: User)
    requires Oracle(draws)
    ensures fresh(svc) && svc.Valid()
    ensures svc.hashPassword == hash && svc.verifyPassword == verify && svc.signJwt == sign
    ensures svc.isTokenExpired == expired && svc.ttl == ttl
    ensures svc.users == map[0 := alice] && svc.otps == map[] && svc.nextOtpId == 0
    ensures alice.id == 0 && alice.twoFA && alice.email == "alice@example.com" && alice.password == hash(password)
  {
    svc := new UserService(hash, verify, sign, expired, ttl);
    assert !EmailTaken(svc.users, "alice@example.com") && !PhoneTaken(svc.users, "+15550100");
    var registered := svc.Register("Alice", "alice@example.com", password, "+15550100", now);
    alice := NewUser(0, "Alice", "+15550100", "alice@example.com", hash(password), now);
    assert svc.users == map[0 := alice];
    var enabled := svc.Set2FA(Some(alice), true, now, draws, true);
    alice := alice.(twoFA := true, updatedAt := now);
  }

  /**
   * Alice, with 2FA on, logs in: the answer is a pending acknowledgement
   * without a token, and exactly one LOGIN code is outstanding.
   */
  method LoginChallenge(hash: string -> string, verify: (string, string) -> bool, sign: Id -> string,
                        expired: (Time, Time) -> bool, ttl: nat, password: string, now: Time, draws: seq<real>)
    returns (svc: UserService, alice: User, challenge: Result<Reply, Error>)
    requires verify(password, hash(password))
    requires Oracle(draws)
    ensures fresh(svc) && svc.Valid()
    ensures svc.signJwt == sign && svc.isTokenExpired == expired && svc.ttl == ttl
    ensures alice.id == 0 && svc.users == map[0 := alice] && svc.otps == map[0 := svc.Issued(0, 0, LOGIN, draws, now)]
    ensures challenge == Ok(Acknowledged(Some("Code for login sent,check inbox")))
  {
    svc, alice := AccountWithTwoFactor(hash, verify, sign, expired, ttl, password, now, draws);
    assert EmailTaken(svc.users, alice.email) by { assert svc.users[0] == alice; }
    assert FindByEmail(svc.users, "alice@example.com") == Some(alice);
    challenge := svc.Login("alice@example.com", password, now, draws, true);
  }

  /**
   * After the challenge, a wrong code is refused as "Invalid code"; the
   * code that was sent, before it expires, yields the session token, and
   * yields it again on a second use because validateLoginOTP does not
   * consume it.
   */
  method TwoFactorLogin(hash: string -> string, verify: (string, string) -> bool, sign: Id -> string,
                        expired: (Time, Time) -> bool, ttl: nat,
                        password: string, wrongCode: string, now: Time, draws: seq<real>)
    returns (challenge: Result<Reply, Error>, wrong: Result<Reply, Error>,
             accepted: Result<Reply, Error>, again: Result<Reply, Error>)
    requires verify(password, hash(password))
    requires !expired(now + ttl, now)
    requires Oracle(draws)
    requires Utf16Length(wrongCode) == OtpLength && wrongCode != CodeGenerator.Code(draws[..OtpLength])
    ensures challenge == Ok(Acknowledged(Some("Code for login sent,check inbox")))
    ensures wrong == Err(NotFound(InvalidCode))
    ensures accepted.Ok? && accepted.value.Session? && accepted.value.accessToken == sign(0)
    ensures accepted.value.user.twoFA
    ensures again == accepted
  {
    var svc, alice;
    svc, alice, challenge := LoginChallenge(hash, verify, sign, expired, ttl, password, now, draws);
    var code := CodeGenerator.Code(draws[..OtpLength]);
    OneUnitEach(code);
    assert !AnyMatch(svc.otps, 0, wrongCode, LOGIN);
    wrong := svc.ValidateLoginOtp(Some(alice), wrongCode, now);
    assert svc.Usable(svc.otps, 0, 0, code, LOGIN, now);
    assert forall k :: !svc.ExpiredMatch(svc.otps, k, 0, code, LOGIN, now);
    accepted := svc.ValidateLoginOtp(Some(alice), code, now);
    again := svc.ValidateLoginOtp(Some(alice), code, now);
  }

  /**
   * Alice, with 2FA on, asks to switch it off: a D2FA code is sent and 2FA
   * stays on. Confirming with that code switches it off and consumes the
   * code, so replaying it is refused as "Invalid code".
   */
  method DisableTwoFactor(hash: string -> string, verify: (string, string) -> bool, sign: Id -> string,
                          expired: (Time, Time) -> bool, ttl: nat, password: string, now: Time, draws: seq<real>)
    returns (pending: Result<Reply, Error>, stillOn: bool, confirmed: Result<Reply, Error>,
             nowOn: bool, replay: Result<Reply, Error>)
    requires !expired(now + ttl, now)
    requires Oracle(draws)
    ensures pending == Ok(Acknowledged(Some("The code to disable 2 Factor Authentication , was sent")))
    ensures stillOn
    ensures confirmed == Ok(Acknowledged(None))
    ensures !nowOn
    ensures replay == Err(NotFound(InvalidCode))
  {
    var svc, alice := AccountWithTwoFactor(hash, verify, sign, expired, ttl, password, now, draws);
    pending := svc.Set2FA(Some(alice), false, now, draws, true);
    stillOn := svc.users[0].twoFA;
    var code := CodeGenerator.Code(draws[..OtpLength]);
    OneUnitEach(code);
    assert svc.otps == map[0 := svc.Issued(0, 0, D2FA, draws, now)];
    assert svc.Usable(svc.otps, 0, 0, code, D2FA, now);
    assert forall k :: !svc.ExpiredMatch(svc.otps, k, 0, code, D2FA, now);
    confirmed := svc.Disable2FA(Some(alice), code, now);
    nowOn := svc.users[0].twoFA;
    assert svc.otps == map[];
    replay := svc.Disable2FA(Some(alice), code, now);
  }
}
