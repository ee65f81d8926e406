/**
 * The state the authentication controller reads and writes: the users
 * table, the personal access tokens Passport stores, and an append-only
 * outbox of the events and notifications the controller dispatches.
 * Framework code the controller calls but does not own is gathered in
 * `Services`, a record of functions the model leaves uninterpreted.
 */
module AuthState {
  import opened Wrappers
  import opened ApiResponse

  /** Primary key of the users table (auto-increment, from 1). */
  type UserId = int

  /** A point in time, in seconds. */
  type Time = int

  /** Lifetime of a personal access token: fifteen minutes. */
  const TokenLifetime: int := 15 * 60

  /** A value of `Str::random(60)`. */
  type RememberToken = s: string | |s| == 60
    witness "000000000000000000000000000000000000000000000000000000000000"

  /** A row of the users table; `verifiedAt` is `email_verified_at`, None while it is null. */
  datatype User = User(
    name: string,
    email: string,
    passwordHash: string,
    verifiedAt: Option<Time>,
    rememberToken: Option<string>)

  /** A personal access token minted by `createToken('auth_token')`. */
  datatype AccessToken = AccessToken(serial: nat, owner: UserId, expiresAt: Time)

  /** What the controller dispatches: the three events and the direct verification mail. */
  datatype Notification =
    | RegisteredEvent(user: UserId)
    | VerificationMail(user: UserId)
    | VerifiedEvent(user: UserId)
    | PasswordResetEvent(user: UserId)

  datatype State = State(
    users: map<UserId, User>,
    tokens: multiset<AccessToken>,
    outbox: seq<Notification>,
    nextUserId: UserId,
    nextTokenSerial: nat)

  /**
   * The framework collaborators, uninterpreted: `Hash::make`, `Hash::check`,
   * `sha1`, the validator's `email` rule, the translator `__()`, the
   * validator's messages for a failing field, the summary line of a
   * validation exception, and the string form of a minted token.
   */
  datatype Services = Services(
    hash: string -> string,
    check: (string, string) -> bool,
    sha1: string -> string,
    isEmail: string -> bool,
    translate: string -> string,
    fieldErrors: string -> Json,
    errorSummary: Json -> Json,
    encodeToken: AccessToken -> string)

  /** The empty store. */
  function Empty(): (st: State)
    ensures Valid(st)
    ensures st.users == map[] && st.tokens == multiset{} && st.outbox == []
  {
    State(map[], multiset{}, [], 1, 0)
  }

  /**
   * The store invariant: ids are below the next auto-increment value,
   * emails are unique, and every token belongs to a user and has a serial
   * below the next one (so a freshly minted token is new).
   */
  ghost predicate Valid(st: State) {
    && 1 <= st.nextUserId
    && (forall id :: id in st.users ==> 1 <= id < st.nextUserId)
    && (forall i, j :: i in st.users && j in st.users && st.users[i].email == st.users[j].email ==> i == j)
    && (forall t :: t in st.tokens ==> t.owner in st.users && t.serial < st.nextTokenSerial)
  }

  /** Whether some user has this email (the `unique:users` rule and the login lookup). */
  predicate EmailTaken(users: map<UserId, User>, email: string) {
    exists id :: id in users && users[id].email == email
  }

  /** `User::where('email', $email)->first()`. */
  ghost function FindByEmail(users: map<UserId, User>, email: string): (r: Option<UserId>)
    ensures r.Some? <==> EmailTaken(users, email)
    ensures r.Some? ==> r.value in users && users[r.value].email == email
  {
    if EmailTaken(users, email) then Some(var id :| id in users && users[id].email == email; id) else None
  }

  /** With unique emails, the lookup finds the one user who has the email. */
  lemma FindByEmailUnique(st: State, email: string, id: UserId)
    requires Valid(st)
    requires id in st.users && st.users[id].email == email
    ensures FindByEmail(st.users, email) == Some(id)
  {
  }

  /** The token minted for `owner` at time `now`. */
  function MintFor(st: State, owner: UserId, now: Time): (t: AccessToken)
    requires Valid(st)
    ensures t !in st.tokens
    ensures t.owner == owner && t.expiresAt == now + TokenLifetime
  {
    AccessToken(st.nextTokenSerial, owner, now + TokenLifetime)
  }

  /** What of a user never changes: name and email, and a verification time once set. */
  ghost predicate Persists(u: User, u': User) {
    && u'.name == u.name
    && u'.email == u.email
    && (u.verifiedAt.Some? ==> u'.verifiedAt == u.verifiedAt)
  }

  /**
   * How the store may evolve under any handler: no user disappears or
   * loses its identity or verification, tokens are only added, and the
   * outbox is only appended to.
   */
  ghost predicate Evolves(st: State, st': State) {
    && (forall id :: id in st.users ==> id in st'.users && Persists(st.users[id], st'.users[id]))
    && st.tokens <= st'.tokens
    && st.outbox <= st'.outbox
  }

  /** No existing user's verification state changes, and new users start unverified. */
  ghost predicate KeepsVerification(st: State, st': State) {
    && (forall id :: id in st.users && id in st'.users ==> st'.users[id].verifiedAt == st.users[id].verifiedAt)
    && (forall id :: id in st'.users && id !in st.users ==> st'.users[id].verifiedAt.None?)
  }

  /** No existing user's password hash or remember token changes. */
  ghost predicate KeepsCredentials(st: State, st': State) {
    forall id :: id in st.users && id in st'.users ==>
      st'.users[id].passwordHash == st.users[id].passwordHash
      && st'.users[id].rememberToken == st.users[id].rememberToken
  }

  /** Two evolutions in a row are an evolution, and keeping verification or credentials composes too. */
  lemma EvolvesTransitive(s0: State, s1: State, s2: State)
    requires Evolves(s0, s1) && Evolves(s1, s2)
    ensures Evolves(s0, s2)
    ensures KeepsVerification(s0, s1) && KeepsVerification(s1, s2) ==> KeepsVerification(s0, s2)
    ensures KeepsCredentials(s0, s1) && KeepsCredentials(s1, s2) ==> KeepsCredentials(s0, s2)
  {
  }

  // ---- the four ways a handler changes the store, each keeping the invariant

  /** `User::create`: insert `u` under the next auto-increment id; the `unique:users` rule has passed. */
  function InsertUser(st: State, u: User): (st': State)
    requires Valid(st) && !EmailTaken(st.users, u.email) && u.verifiedAt.None?
    ensures Valid(st') && Evolves(st, st') && KeepsVerification(st, st') && KeepsCredentials(st, st')
    ensures st.nextUserId !in st.users
    ensures st'.users == st.users[st.nextUserId := u] && st'.tokens == st.tokens && st'.outbox == st.outbox
    ensures st'.nextTokenSerial == st.nextTokenSerial
  {
    st.(users := st.users[st.nextUserId := u], nextUserId := st.nextUserId + 1)
  }

  /** `createToken`: store a new token for `owner`, expiring TokenLifetime after `now`. */
  function Mint(st: State, owner: UserId, now: Time): (st': State)
    requires Valid(st) && owner in st.users
    ensures Valid(st') && Evolves(st, st') && KeepsVerification(st, st') && KeepsCredentials(st, st')
    ensures st'.users == st.users && st'.outbox == st.outbox
    ensures st'.tokens == st.tokens + multiset{MintFor(st, owner, now)}
    ensures st'.nextUserId == st.nextUserId
  {
    st.(tokens := st.tokens + multiset{MintFor(st, owner, now)}, nextTokenSerial := st.nextTokenSerial + 1)
  }

  /** Dispatch an event or a notification: appended to the outbox. */
  function Dispatch(st: State, n: Notification): (st': State)
    requires Valid(st)
    ensures Valid(st') && Evolves(st, st') && KeepsVerification(st, st') && KeepsCredentials(st, st')
    ensures st'.users == st.users && st'.tokens == st.tokens
    ensures st'.outbox == st.outbox + [n] && st'.outbox[..|st.outbox|] == st.outbox
  {
    st.(outbox := st.outbox + [n])
  }

  /** `save()` of an existing user whose name, email and verification persist. */
  function UpdateUser(st: State, id: UserId, u: User): (st': State)
    requires Valid(st) && id in st.users && Persists(st.users[id], u)
    ensures Valid(st') && Evolves(st, st')
    ensures st'.users == st.users[id := u] && st'.users.Keys == st.users.Keys
    ensures st'.tokens == st.tokens && st'.outbox == st.outbox
  {
    st.(users := st.users[id := u])
  }

  /** The `user` object in a response body; the password hash and remember token are hidden attributes. */
  function UserJson(id: UserId, u: User): (j: Json)
    ensures j.JObj? && j.fields.Keys == {"id", "name", "email", "email_verified_at"}
    ensures j.fields["id"] == JInt(id) && j.fields["email"] == JStr(u.email)
    ensures j.fields["name"] == JStr(u.name)
    ensures j.fields["email_verified_at"] == (if u.verifiedAt.Some? then JInt(u.verifiedAt.value) else JNull)
  {
    JObj(map[
      "id" := JInt(id),
      "name" := JStr(u.name),
      "email" := JStr(u.email),
      "email_verified_at" := match u.verifiedAt case Some(t) => JInt(t) case None => JNull])
  }

  /** The `data` of a successful register or login: the user and the token string. */
  function Credentials(svc: Services, id: UserId, u: User, t: AccessToken): (j: Json)
    ensures j.JObj? && j.fields.Keys == {"user", "token"}
    ensures j.fields["user"] == UserJson(id, u)
    ensures j.fields["token"] == JStr(svc.encodeToken(t))
  {
    JObj(map["user" := UserJson(id, u), "token" := JStr(svc.encodeToken(t))])
  }
}
