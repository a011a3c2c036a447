/**
 * The One-Time-Password table: one row per issued code, owned by a user
 * through `userId`. Its timestamps are written by the @BeforeInsert hooks.
 */
module OtpEntity {
  import opened Wrappers
  import opened UserEntity

  /** What a code was issued for: logging in, disabling 2FA, verifying the phone. */
  datatype UseCase = LOGIN | D2FA | PHV

  /** A stored row. */
  datatype OtpRecord = OtpRecord(
    id: Id,
    userId: Id,
    code: string,
    useCase: UseCase,
    createdAt: Time,
    updatedAt: Time,
    expiresAt: Time)

  /** getExpiry(): the expiry of a code issued at `now`. */
  function Expiry(now: Time, ttl: nat): Time {
    now + ttl
  }

  /** The entity object `otpRepository.create(...)` builds; a timestamp is None until a hook sets it. */
  class Otp {
    var userId: Id
    var code: string
    var useCase: UseCase
    var createdAt: Option<Time>
    var updatedAt: Option<Time>
    var expiresAt: Option<Time>

    constructor (userId: Id, code: string, useCase: UseCase)
      ensures this.userId == userId && this.code == code && this.useCase == useCase
      ensures createdAt == None && updatedAt == None && expiresAt == None
    {
      this.userId := userId;
      this.code := code;
      this.useCase := useCase;
      createdAt := None;
      updatedAt := None;
      expiresAt := None;
    }

    /** The setExpireDate hook: whatever `expiresAt` held, it becomes getExpiry(). */
    method SetExpireDate(now: Time, ttl: nat)
      modifies this`expiresAt
      ensures expiresAt == Some(Expiry(now, ttl))
    {
      expiresAt := Some(Expiry(now, ttl));
    }

    /** The setCurrentDate hook: both dates become the current time. */
    method SetCurrentDate(now: Time)
      modifies this`createdAt, this`updatedAt
      ensures createdAt == Some(now) && updatedAt == Some(now)
    {
      createdAt := Some(now);
      updatedAt := Some(now);
    }

    /** The two @BeforeInsert hooks, in the order they are declared. */
    method BeforeInsert(now: Time, ttl: nat)
      modifies this`createdAt, this`updatedAt, this`expiresAt
      ensures expiresAt == Some(Expiry(now, ttl))
      ensures createdAt == Some(now) && updatedAt == Some(now)
    {
      SetExpireDate(now, ttl);
      SetCurrentDate(now);
    }

    predicate Ready()
      reads this
    {
      createdAt.Some? && updatedAt.Some? && expiresAt.Some?
    }

    /** The row the INSERT writes under the generated key `id`. */
    function Row(id: Id): OtpRecord
      reads this
      requires Ready()
    {
      OtpRecord(id, userId, code, useCase, createdAt.value, updatedAt.value, expiresAt.value)
    }
  }
}
