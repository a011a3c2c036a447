/**
 * The User table: one row per registered account. `id` is generated on
 * insert, `phone` and `email` carry unique constraints, and both flags
 * default to false.
 */
module UserEntity {
  import opened Wrappers

  /** A generated primary key (a uuid in the database; here a number the store hands out once). */
  type Id = nat

  /** A timestamp in milliseconds. */
  type Time = int

  /** A stored row; `password` holds the password hash. */
  datatype User = User(
    id: Id,
    fullName: string,
    phone: string,
    email: string,
    password: string,
    twoFA: bool,
    isPhoneVerified: bool,
    createdAt: Time,
    updatedAt: Time)

  /** A user as handed back to a client, after `delete user.password`. */
  datatype Profile = Profile(
    id: Id,
    fullName: string,
    phone: string,
    email: string,
    twoFA: bool,
    isPhoneVerified: bool,
    createdAt: Time,
    updatedAt: Time)

  /**
   * `delete user.password` on a found or saved row: every column but the
   * password hash is handed back unchanged.
   */
  function Public(u: User): (p: Profile)
    ensures p.id == u.id && p.fullName == u.fullName && p.phone == u.phone && p.email == u.email
    ensures p.twoFA == u.twoFA && p.isPhoneVerified == u.isPhoneVerified
    ensures p.createdAt == u.createdAt && p.updatedAt == u.updatedAt
  {
    Profile(u.id, u.fullName, u.phone, u.email, u.twoFA, u.isPhoneVerified, u.createdAt, u.updatedAt)
  }

  /**
   * The row `userRepository.create({fullName, email, phone, password})`
   * becomes once saved at time `now`: both flags take their column default,
   * and the create and update date columns are set to `now`.
   */
  function NewUser(id: Id, fullName: string, phone: string, email: string, password: string, now: Time): (u: User)
    ensures !u.twoFA && !u.isPhoneVerified
    ensures u.createdAt == now && u.updatedAt == now
  {
    User(id, fullName, phone, email, password, false, false, now, now)
  }

  /**
   * `preload({id, twoFA})` and `save`: the stored row with its twoFA column
   * replaced and nothing else changed except the update date column, which
   * moves only when the value actually differs (an update that changes no
   * column is not written).
   */
  function WithTwoFA(stored: User, twoFA: bool, now: Time): (u: User)
    ensures u.twoFA == twoFA
    ensures u.(twoFA := stored.twoFA, updatedAt := stored.updatedAt) == stored
    ensures u == stored <==> stored.twoFA == twoFA
    ensures u != stored ==> u.updatedAt == now
  {
    if stored.twoFA == twoFA then stored else stored.(twoFA := twoFA, updatedAt := now)
  }

  /** `preload({id, isPhoneVerified: true})` and `save`, in the same way. */
  function WithPhoneVerified(stored: User, now: Time): (u: User)
    ensures u.isPhoneVerified
    ensures u.(isPhoneVerified := stored.isPhoneVerified, updatedAt := stored.updatedAt) == stored
    ensures u == stored <==> stored.isPhoneVerified
    ensures u != stored ==> u.updatedAt == now
  {
    if stored.isPhoneVerified then stored else stored.(isPhoneVerified := true, updatedAt := now)
  }

  predicate EmailTaken(users: map<Id, User>, email: string) {
    exists id :: id in users && users[id].email == email
  }

  predicate PhoneTaken(users: map<Id, User>, phone: string) {
    exists id :: id in users && users[id].phone == phone
  }

  ghost predicate KeyedById(users: map<Id, User>) {
    forall id :: id in users ==> users[id].id == id
  }

  /** The unique constraint on `email`. */
  ghost predicate UniqueEmails(users: map<Id, User>) {
    forall a, b :: a in users && b in users && users[a].email == users[b].email ==> a == b
  }

  /** The unique constraint on `phone`. */
  ghost predicate UniquePhones(users: map<Id, User>) {
    forall a, b :: a in users && b in users && users[a].phone == users[b].phone ==> a == b
  }

  ghost predicate WellFormed(users: map<Id, User>) {
    KeyedById(users) && UniqueEmails(users) && UniquePhones(users)
  }

  /** `userRepository.findOne({where: {email}})`: the unique constraint leaves at most one answer. */
  function FindByEmail(users: map<Id, User>, email: string): (r: Option<User>)
    requires WellFormed(users)
    ensures r.Some? <==> EmailTaken(users, email)
    ensures r.Some? ==> r.value.id in users && users[r.value.id] == r.value && r.value.email == email
  {
    if EmailTaken(users, email) then
      var id :| id in users && users[id].email == email;
      Some(users[id])
    else
      None
  }

  /** Inserting a row whose key, email and phone are all new keeps both unique constraints. */
  lemma InsertKeepsWellFormed(users: map<Id, User>, u: User)
    requires WellFormed(users)
    requires u.id !in users && !EmailTaken(users, u.email) && !PhoneTaken(users, u.phone)
    ensures WellFormed(users[u.id := u])
  {
  }

  /** Rewriting a row without touching its key, email or phone keeps both unique constraints. */
  lemma UpdateKeepsWellFormed(users: map<Id, User>, u: User)
    requires WellFormed(users) && u.id in users
    requires u.email == users[u.id].email && u.phone == users[u.id].phone
    ensures WellFormed(users[u.id := u])
  {
  }
}
