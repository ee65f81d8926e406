/**
 * Properties of the controller that relate several calls: what a client
 * can and cannot learn, what a repeated call answers, and what holds
 * along any sequence of calls.
 */
module AuthProperties {
  import opened Wrappers
  import opened ApiResponse
  import opened AuthState
  import opened AuthRules
  import opened AuthHandlers

  // ---------------------------------------------------------------- single steps compared

  /** An unknown email and a wrong password get the same answer and leave the same (unchanged) store. */
  lemma LoginDoesNotRevealAccounts(st1: State, st2: State, svc: Services, req: Request, now: Time, fault: Option<Fault<LoginStage>>, id: UserId)
    requires Valid(st1) && Valid(st2)
    requires LoginFailures(svc, req) == {} && !FaultAt(fault, AtLookup)
    requires !EmailTaken(st1.users, StringAt(req, "email"))
    requires id in st2.users && st2.users[id].email == StringAt(req, "email")
    requires !svc.check(StringAt(req, "password"), st2.users[id].passwordHash)
    ensures Login(st1, svc, req, now, fault).response == Login(st2, svc, req, now, fault).response == InvalidCredentials()
    ensures Login(st1, svc, req, now, fault).state == st1 && Login(st2, svc, req, now, fault).state == st2
  {
  }

  /** Malformed login input is answered before the users table is read: the answer is the same whatever the table holds. */
  lemma LoginValidationIgnoresUsers(st1: State, st2: State, svc: Services, req: Request, now: Time, fault: Option<Fault<LoginStage>>)
    requires Valid(st1) && Valid(st2)
    requires LoginFailures(svc, req) != {}
    ensures Login(st1, svc, req, now, fault).response == Login(st2, svc, req, now, fault).response
    ensures Login(st1, svc, req, now, fault).response.httpStatus == JInt(400)
  {
  }

  /** The hash is checked before the verification state: a wrong hash on a verified user is 404, not 400. */
  lemma WrongHashBeatsAlreadyVerified(st: State, svc: Services, id: UserId, hash: string, now: Time)
    requires Valid(st) && id in st.users && st.users[id].verifiedAt.Some?
    requires hash != svc.sha1(st.users[id].email)
    ensures VerifyEmail(st, svc, id, hash, now, None) == Outcome(st, ErrorResponse(JInt(404), JStr("Invalid verification link")))
  {
  }

  /** A link that verified answers 400 'Email already verified' the second time, and changes nothing then. */
  lemma VerifyTwice(st: State, svc: Services, id: UserId, hash: string, now: Time, later: Time)
    requires Valid(st)
    requires VerifyEmail(st, svc, id, hash, now, None).response.httpStatus == JInt(200)
    ensures
      var st1 := VerifyEmail(st, svc, id, hash, now, None).state;
      && st1.users[id].verifiedAt == Some(now)
      && VerifyEmail(st1, svc, id, hash, later, None) == Outcome(st1, ErrorResponse(JInt(400), JStr("Email already verified")))
  {
  }

  /** A registered email cannot be registered again: the second attempt fails on `email` and changes nothing. */
  lemma RegisterTwice(st: State, svc: Services, req: Request, req2: Request, now: Time, now2: Time,
                                         fault2: Option<Fault<RegisterStage>>)
    requires Valid(st)
    requires Register(st, svc, req, now, None).response.httpStatus == JInt(201)
    requires "email" in req2 && req2["email"] == req["email"]
    ensures
      var st1 := Register(st, svc, req, now, None).state;
      var o := Register(st1, svc, req2, now2, fault2);
      && "email" in RegisterFailures(svc, st1.users, req2)
      && o.state == st1 && o.response.httpStatus == JInt(400)
  {
  }

  /**
   * After registering, logging in with the same email and password
   * succeeds, provided the hasher checks a password against its own hash;
   * the new user is unverified, so the login also sends a verification mail.
   */
  lemma LoginAfterRegister(st: State, svc: Services, req: Request, loginReq: Request, now: Time, later: Time)
    requires Valid(st)
    requires Register(st, svc, req, now, None).response.httpStatus == JInt(201)
    requires "email" in loginReq && "password" in loginReq
    requires loginReq["email"] == req["email"] && loginReq["password"] == req["password"]
    requires svc.check(StringAt(req, "password"), svc.hash(StringAt(req, "password")))
    ensures
      var st1 := Register(st, svc, req, now, None).state;
      var o := Login(st1, svc, loginReq, later, None);
      && o.response.httpStatus == JInt(200)
      && o.state.tokens == st1.tokens + multiset{MintFor(st1, st.nextUserId, later)}
      && o.state.outbox == st1.outbox + [VerificationMail(st.nextUserId)]
  {
  }

  /**
   * After a reset, the new password logs in and an old one that does not
   * check against the new hash is refused with the anti-enumeration 401.
   */
  lemma LoginAfterReset(st: State, svc: Services, req: Request, rememberToken: RememberToken,
                                           loginReq: Request, now: Time)
    requires Valid(st)
    requires BrokerConsistent(st, svc, req, Returned(PasswordReset))
    requires ResetPassword(st, svc, req, Returned(PasswordReset), rememberToken).response.httpStatus == JInt(200)
    requires "email" in loginReq && loginReq["email"] == req["email"] && LoginFailures(svc, loginReq) == {}
    ensures
      var st1 := ResetPassword(st, svc, req, Returned(PasswordReset), rememberToken).state;
      var hashed := svc.hash(StringAt(req, "password"));
      && (svc.check(StringAt(loginReq, "password"), hashed) ==> Login(st1, svc, loginReq, now, None).response.httpStatus == JInt(200))
      && (!svc.check(StringAt(loginReq, "password"), hashed) ==> Login(st1, svc, loginReq, now, None).response == InvalidCredentials())
  {
  }

  /** Only PASSWORD_RESET changes anything; any other broker answer is 400 and leaves the store as it was. */
  lemma ResetRefusedChangesNothing(st: State, svc: Services, req: Request, status: BrokerStatus, rememberToken: RememberToken)
    requires Valid(st) && ResetFailures(svc, req) == {} && status != PasswordReset
    ensures BrokerConsistent(st, svc, req, Returned(status))
    ensures ResetPassword(st, svc, req, Returned(status), rememberToken).state == st
    ensures ResetPassword(st, svc, req, Returned(status), rememberToken).response.httpStatus == JInt(400)
  {
  }

  // ---------------------------------------------------------------- sequences of calls

  /** One request to one of the controller's actions, with what the framework does in it. */
  datatype Call =
    | RegisterCall(req: Request, now: Time, registerFault: Option<Fault<RegisterStage>>)
    | LoginCall(req: Request, now: Time, loginFault: Option<Fault<LoginStage>>)
    | VerifyEmailCall(id: int, hash: string, now: Time, verifyFault: Option<Fault<VerifyStage>>)
    | ResendCall(user: UserId, resendFault: Option<string>)
    | ResetLinkCall(req: Request, linkBroker: BrokerOutcome)
    | ResetCall(req: Request, resetBroker: BrokerOutcome, rememberToken: RememberToken)

  /**
   * The store after one call. A resend for a user who is not there never
   * reaches the controller (the route requires an authenticated user),
   * and a reset the broker could not have answered does not occur; both
   * leave the store as it is.
   */
  ghost function Step(st: State, svc: Services, c: Call): (st': State)
    requires Valid(st)
    ensures Valid(st') && Evolves(st, st')
    ensures !c.VerifyEmailCall? ==> KeepsVerification(st, st')
    ensures !c.ResetCall? ==> KeepsCredentials(st, st')
  {
    match c
    case RegisterCall(req, now, fault) => Register(st, svc, req, now, fault).state
    case LoginCall(req, now, fault) => Login(st, svc, req, now, fault).state
    case VerifyEmailCall(id, hash, now, fault) => VerifyEmail(st, svc, id, hash, now, fault).state
    case ResendCall(id, fault) => if id in st.users then ResendVerification(st, id, fault).state else st
    case ResetLinkCall(_, _) => st
    case ResetCall(req, broker, token) =>
      if BrokerConsistent(st, svc, req, broker) then ResetPassword(st, svc, req, broker, token).state else st
  }

  /** The store after a sequence of calls; it stays valid and only evolves. */
  ghost function Run(st: State, svc: Services, calls: seq<Call>): (st': State)
    requires Valid(st)
    ensures Valid(st') && Evolves(st, st')
    decreases |calls|
  {
    if calls == [] then st
    else
      var next := Step(st, svc, calls[0]);
      var last := Run(next, svc, calls[1..]);
      EvolvesTransitive(st, next, last);
      last
  }

  /** Verification is never cleared: a verified user stays verified, with the same time, whatever calls follow. */
  lemma VerificationIsPermanent(st: State, svc: Services, calls: seq<Call>, id: UserId)
    requires Valid(st) && id in st.users && st.users[id].verifiedAt.Some?
    ensures id in Run(st, svc, calls).users
    ensures Run(st, svc, calls).users[id].verifiedAt == st.users[id].verifiedAt
  {
  }

  /** Only verifyEmail verifies: calls that include none leave every user's verification as it was. */
  lemma {:induction false} OnlyVerifyEmailVerifies(st: State, svc: Services, calls: seq<Call>)
    requires Valid(st)
    requires forall i :: 0 <= i < |calls| ==> !calls[i].VerifyEmailCall?
    ensures KeepsVerification(st, Run(st, svc, calls))
    decreases |calls|
  {
    if calls != [] {
      var next := Step(st, svc, calls[0]);
      OnlyVerifyEmailVerifies(next, svc, calls[1..]);
      EvolvesTransitive(st, next, Run(next, svc, calls[1..]));
    }
  }

  /** Only resetPassword changes credentials: calls that include none leave every password hash and remember token as it was. */
  lemma {:induction false} OnlyResetChangesCredentials(st: State, svc: Services, calls: seq<Call>)
    requires Valid(st)
    requires forall i :: 0 <= i < |calls| ==> !calls[i].ResetCall?
    ensures KeepsCredentials(st, Run(st, svc, calls))
    decreases |calls|
  {
    if calls != [] {
      var next := Step(st, svc, calls[0]);
      OnlyResetChangesCredentials(next, svc, calls[1..]);
      EvolvesTransitive(st, next, Run(next, svc, calls[1..]));
    }
  }
}
