# Two-factor authentication service, modelled in Dafny

This project models the account service of a small NestJS back end. Users
register and log in with email and password. An account can switch on a
second factor: a six-digit code sent by SMS. The service issues and checks
codes for three use cases:

- `LOGIN`: the login challenge, when 2FA is on.
- `D2FA`: confirming that 2FA should be switched off.
- `PHV`: verifying the account's phone number.

`UserService` is a class with two mutable tables: `users`, the User rows,
and `otps`, the One-Time-Password rows. Both are maps keyed by their
generated primary key. Generated keys come from two counters. The class also
records every message it hands to the SMS gateway (`outbox`). Each service
method becomes a method that returns `Result<Reply, Error>`: an `Err` is the
exception the TypeScript method throws. Each contract states:

- what the call answers;
- which rows it inserts, deletes or rewrites;
- that the rest of the state stays the same.

Each method also preserves `Valid()`, which holds that:

- keys are fresh;
- emails and phones are unique;
- every code row belongs to a stored user and holds six digits.

The collaborators the service calls but does not own are plain function
values fixed when the service is built: the password hash and its check, the
token signer, and the expiry test `isTokenExpired(expiresAt, now)`. The code
lifetime is a constructor argument `ttl`, so `getExpiry()` is `now + ttl`.
The clock is an argument `now` of each call. Two more arguments stand in for
outside events: `draws`, the values `Math.random` returns, and `delivered`,
whether the SMS gateway accepted the message.

The model follows the code as written, including behaviour that a cleaner
design would change:

- Only `disable2FA` deletes the code it accepts. `validatePhoneCode` and
  `validateLoginOTP` leave that code usable until it expires.
- Issuing a code never removes older codes for the same user and use case.
- `register` and `login` run inside `try/catch → handleErrors`. That
  handler keeps only a database unique violation (SQLSTATE `23505`), as a
  BadRequest with the database's detail text. So a taken email, an unknown
  login email and a wrong password all end as
  `InternalServerError("Server error - check logs")`. A taken phone is not
  checked by the service; the phone unique constraint catches it when the row
  is saved, and it ends as a BadRequest.
- `sendOTP` saves the row before it picks the SMS text and before it sends.
  A failed send leaves the code stored and usable. The `Forbidden` branch
  for an unknown use case cannot run for the three typed use cases.
- The owner check in `validateLoginOTP` (`user.id !== otpRecord.userId`)
  never fires, because the lookup already filters on the owner.
- When several stored rows match a code, the method's contract allows any
  one of them to be the row the lookup returns.

## Model

| member | source | states |
|---|---|---|
| `CodeGenerator.DigitIndex` | src/common/utils/codeGenerator.ts:7 | for a draw in [0, 1), `Math.floor(draw * digits.length)` is a valid index of `"0123456789"` |
| `CodeGenerator.DigitOf` | src/common/utils/codeGenerator.ts:3-7 | the character one draw picks is a decimal digit |
| `CodeGenerator.Code` | src/common/utils/codeGenerator.ts:6-8 | the code built from k draws has exactly k characters, all digits |
| `CodeGenerator.CodeAt` | src/common/utils/codeGenerator.ts:6-8 | character i of the code is decided by draw i alone (characters are appended, never changed) |
| `CodeGenerator.GenerateOtp` | src/common/utils/codeGenerator.ts:2-11 | the loop: for n <= 0 the result is ""; otherwise it has length n, every character is a digit, character i comes from draw i, and the result equals `Code` of the first n draws |
| `UserEntity.Public` | src/user/user.service.ts:56-60 | `delete user.password` and the spread copy every column but the password hash unchanged |
| `UserEntity.NewUser` | src/user/entities/user.entity.ts:28-38 | a new user row has twoFA and isPhoneVerified false (the column defaults), and its create and update dates are the insert time |
| `UserEntity.FindByEmail` | src/user/user.service.ts:39 | `findOne({where: {email}})` finds a user exactly when some stored user has that email, and what it finds is that stored row |
| `UserEntity.WithTwoFA` | src/user/user.service.ts:165-170 | `preload({id, twoFA})` + `save` sets twoFA to the given value and changes nothing else but the update date, which moves, to the update time, only when the value differs |
| `UserEntity.WithPhoneVerified` | src/user/user.service.ts:137-142 | `preload({id, isPhoneVerified: true})` + `save` sets the flag and changes nothing else but the update date, which moves, to the update time, only when the flag was off |
| `UserEntity.InsertKeepsWellFormed` | src/user/entities/user.entity.ts:19-23 | inserting a row with a new key, a new email and a new phone keeps both unique constraints |
| `UserEntity.UpdateKeepsWellFormed` | src/user/entities/user.entity.ts:19-23 | rewriting a row without changing its key, email or phone keeps both unique constraints |
| `OtpEntity.Otp.constructor` | src/user/entities/otp.entity.ts:19-35 | `otpRepository.create` holds the owner, the code and the use case, with no timestamp set yet |
| `OtpEntity.Otp.SetExpireDate` | src/user/entities/otp.entity.ts:37-40 | the hook sets expiresAt to `now + ttl` whatever it held before |
| `OtpEntity.Otp.SetCurrentDate` | src/user/entities/otp.entity.ts:42-46 | the hook sets createdAt and updatedAt to the current time |
| `OtpEntity.Otp.BeforeInsert` | src/user/entities/otp.entity.ts:37-46 | both insert hooks together: expiry `now + ttl`, both dates `now` |
| `Service.HandleErrors` | src/user/user.service.ts:278-283 | the result is a BadRequest exactly when the error is a database error with code `23505`, and then carries its detail; every other error becomes `InternalServerError("Server error - check logs")` |
| `Service.Messages` | src/user/user.service.ts:235-239 | there is an SMS text for each of LOGIN, D2FA and PHV |
| `Service.Matches` | src/user/user.service.ts:258-260 | the `where: { code, userId, useCase }` filter lets a row through only when it belongs to the given owner and has the given code and use case |
| `Service.Utf16Length` | src/user/user.service.ts:132 | JavaScript's `code.length`: a string of k characters has between k and 2k UTF-16 code units |
| `Service.OneUnitEach` | src/user/user.service.ts:132 | a string with no character above U+FFFF has one code unit per character, so a six-digit code passes the length gate |
| `Service.SurrogatePairCountsTwice` | src/user/user.service.ts:132 | `"12345😀"` has six characters but JavaScript length 7, so the length gate refuses it |
| `Service.UserService.constructor` | src/user/user.service.ts:29-35 | a new service has empty tables, keeps the collaborators it is given, and satisfies the invariant |
| `Service.UserService.Register` | src/user/user.service.ts:37-65 | taken email: no user is created, and the rewrapped BadRequest surfaces as InternalServerError; taken phone: no user is created, and the unique violation surfaces as BadRequest with the database's detail; otherwise exactly one user is added under a fresh key, with password `hash(password)` and both flags off, and the reply is that user without password plus `sign(id)` |
| `Service.UserService.Login` | src/user/user.service.ts:67-113 | unknown email and wrong password give the same error and change nothing; twoFA off gives the user without password (twoFA false) plus a token, and no code is issued; twoFA on issues exactly one LOGIN code and replies with a message and no token (a failed SMS is rewrapped to InternalServerError); the user table is never written |
| `Service.UserService.SendCodeToVerifyPhone` | src/user/user.service.ts:116-127 | no request user: NotFound, nothing changes; phone already verified: acknowledged, nothing issued; otherwise exactly one PHV code is issued |
| `Service.UserService.ValidatePhoneCode` | src/user/user.service.ts:131-148 | a code whose JavaScript length (UTF-16 code units) is not 6 is refused before anything else, with nothing changed; then a missing user is refused; on success a usable PHV row matched, it stays stored, and the stored user's phone becomes verified; on failure it is the lookup's failure and users are unchanged |
| `Service.UserService.Set2FA` | src/user/user.service.ts:150-173 | same value: nothing changes; on→off: one D2FA code is issued and twoFA stays on; off→on: twoFA is set on at once and no code is issued |
| `Service.UserService.Disable2FA` | src/user/user.service.ts:175-190 | a missing user, then a code whose JavaScript length (UTF-16 code units) is not 6, are refused with nothing changed; on success exactly the matched usable D2FA row is deleted and the stored user's twoFA is set off; on failure it is the lookup's failure and users are unchanged |
| `Service.UserService.ValidateLoginOtp` | src/user/user.service.ts:193-207 | a missing user, then a code whose JavaScript length (UTF-16 code units) is not 6, are refused with nothing changed; on success a usable LOGIN row matched, both tables are unchanged (the row is not consumed), and the reply is the request user with twoFA on plus `sign(id)`; "Invalid code" is answered exactly when no row matches, so the owner check never fires |
| `Service.UserService.SendOtp` | src/user/user.service.ts:210-250 | exactly one row is added under a fresh key, with the generated six-digit code, the user's id, the use case, both dates `now` and expiry `now + ttl`; every existing row is kept; one SMS with the use case's text goes to the user's phone, so the Forbidden branch for a use case without a text never runs; the row stays even when the SMS fails |
| `Service.UserService.SavedCodeKeepsValid` | src/user/user.service.ts:227-231 | saving a six-digit code of a stored user under the next key keeps the code-table invariant |
| `Service.UserService.GetOtpRecord` | src/user/user.service.ts:253-272 | answers only a row whose code, owner and use case all match; no match: "Invalid code", nothing changes; a matched row that has expired: exactly that row is deleted, "Expired code"; otherwise the row is returned and nothing changes |
| `Scenarios.AccountWithTwoFactor` | src/user/user.service.ts:150-173 | after register and `set2FA(true)` on a fresh service, the account is the only user, with twoFA on, and no code was issued |
| `Scenarios.LoginChallenge` | src/user/user.service.ts:87-109 | that account's login answers "Code for login sent,check inbox" without a token, and leaves exactly one LOGIN code |
| `Scenarios.TwoFactorLogin` | src/user/user.service.ts:193-207 | after the challenge, a wrong code is "Invalid code"; the code sent, before expiry, yields the token for the account; a second use yields it again |
| `Scenarios.DisableTwoFactor` | src/user/user.service.ts:157-190 | `set2FA(false)` sends a D2FA code and twoFA stays on; confirming with that code sets twoFA off; replaying the code is "Invalid code" |

## Left out

- Password hashing and checking (bcrypt), JWT signing and the expiry test are function values with no further properties assumed. Being functions, `hashPassword(p)` and `signJwt(id)` give the same result on every call, whereas bcrypt salts each hash at random and `jwtService.sign` adds the issue time `iat`. Only `Scenarios.TwoFactorLogin`'s `again == accepted` relies on this: its two token signings happen at the same `now`. `getExpiry` is `now + ttl` for a configured `ttl`.
- The SMS gateway (Twilio) is reduced to a recorded message and a boolean outcome. A failure is `SmsFailed(400)`, because `sendSMS` rethrows the gateway's error with statusCode 400. What the gateway does with the message is not modelled.
- `Math.random` is a sequence of draws in [0, 1). Draws are exact reals, so floating-point rounding in `Math.random() * 10` is not modelled.
- Database keys are numbers handed out in order, standing in for generated uuids. The tables are maps. Database failures other than the phone unique violation in `register` (lost connections, failed OTP inserts) are not modelled.
- The authenticated methods take the request user as an `Option<User>`, where `None` is the `!user` check. The request user must be a stored user: the token strategy that resolves it is not part of this model. Flags are read from that request user, as in the code. Writes go through the stored row with the same id, as `preload` does.
- Service.UserService.ValidateLoginOtp: the reply carries the request user without its password field. Whether the request user carries a password depends on the token strategy, which is not part of this model.
- Service.UserService.SendCodeToVerifyPhone: "Phone number already verified" is returned under the key `successMessage`, where every other reply uses `messageSuccess`. The model does not keep the key names of the JSON replies.
- The `user` relation object on an Otp row, and User's `otp` list, are represented only by `userId`.
- HTTP routing, the `GetUser` decorator, the class-validator DTO annotations, module wiring, logging and `console.log` are left out. The one DTO check that matters, code length 6, is repeated in the service and modelled there.
- Concurrency between requests is not modelled: each method runs to completion on its own.
