/**
 * What each action of AuthController does, as a function from the store
 * and the request to the new store and the response. These functions are
 * the specification the imperative handlers of `AuthController.AuthStore`
 * are proved against; their contracts state what the controller promises.
 *
 * An exception the framework may throw is a parameter: the stage at which
 * it is thrown and its message.
 */
module AuthHandlers {
  import opened Wrappers
  import opened ApiResponse
  import opened AuthState
  import opened AuthRules

  datatype Outcome = Outcome(state: State, response: Response)

  /** An exception thrown at `stage` with message `message`. */
  datatype Fault<Stage> = Fault(stage: Stage, message: string)

  predicate FaultAt<Stage(==)>(fault: Option<Fault<Stage>>, stage: Stage) {
    fault.Some? && fault.value.stage == stage
  }

  /** Where register's transaction can throw: at the insert, the token, the Registered event, or the commit. */
  datatype RegisterStage = AtCreate | AtCreateToken | AtRegisteredEvent | AtCommit

  /** Where login can throw: at the lookup or password check, the token, or the verification mail. */
  datatype LoginStage = AtLookup | AtLoginToken | AtVerificationMail

  /** Where verifyEmail can throw: at the lookup, at markEmailAsVerified, or at the Verified event. */
  datatype VerifyStage = AtFind | AtMarkVerified | AtVerifiedEvent

  // ---------------------------------------------------------------- register

  /** The row register inserts: the plaintext password never reaches the table, only its hash. */
  function NewUser(svc: Services, req: Request): (u: User)
    requires IsString(req, "name") && IsString(req, "email") && IsString(req, "password")
    ensures u.passwordHash == svc.hash(StringAt(req, "password"))
    ensures u.email == StringAt(req, "email") && u.name == StringAt(req, "name")
    ensures u.verifiedAt.None? && u.rememberToken.None?
  {
    User(StringAt(req, "name"), StringAt(req, "email"), svc.hash(StringAt(req, "password")), None, None)
  }

  /** register (AuthController.php:22-72). */
  ghost function Register(st: State, svc: Services, req: Request, now: Time, fault: Option<Fault<RegisterStage>>): (o: Outcome)
    requires Valid(st)
    ensures Valid(o.state) && Evolves(st, o.state)
    ensures KeepsVerification(st, o.state) && KeepsCredentials(st, o.state)
    ensures IsEnvelope(o.response) && ValidHttpStatus(o.response.httpStatus)
    // a validation failure answers 400 and changes nothing
    ensures RegisterFailures(svc, st.users, req) != {} ==>
      o.state == st && o.response == BadRequest(svc, RegisterFailures(svc, st.users, req))
    // an exception inside the transaction answers 500 and the rollback restores users and tokens
    ensures RegisterFailures(svc, st.users, req) == {} && fault.Some? ==>
      && o.state.users == st.users && o.state.tokens == st.tokens
      && o.response == InternalError(fault.value.message)
    ensures o.response.httpStatus == JInt(201) <==> RegisterFailures(svc, st.users, req) == {} && fault.None?
    // success: exactly one new user, holding the hash of the password, and one new token for it
    ensures o.response.httpStatus == JInt(201) ==>
      var id := st.nextUserId;
      var t := MintFor(st, id, now);
      && id !in st.users
      && o.state.users == st.users[id := NewUser(svc, req)]
      && o.state.tokens == st.tokens + multiset{t}
      && o.state.outbox == st.outbox + [RegisteredEvent(id)]
      && o.response.body["message"] == JStr("User registered successfully")
      && o.response.body["data"] == Credentials(svc, id, NewUser(svc, req), t)
  {
    var failed := RegisterFailures(svc, st.users, req);
    if failed != {} then Outcome(st, BadRequest(svc, failed))
    else
      var id := st.nextUserId;
      var user := NewUser(svc, req);
      var t := MintFor(st, id, now);
      match fault
      case Some(f) =>
        // DB::rollBack(): what was dispatched before the commit failed stays dispatched
        Outcome(if f.stage == AtCommit then Dispatch(st, RegisteredEvent(id)) else st, InternalError(f.message))
      case None =>
        var created := InsertUser(st, user);
        var minted := Mint(created, id, now);
        var registered := Dispatch(minted, RegisteredEvent(id));
        EvolvesTransitive(st, created, minted);
        EvolvesTransitive(st, minted, registered);
        Outcome(registered, SuccessResponse(JInt(201), JStr("User registered successfully"), Credentials(svc, id, user, t)))
  }

  /**
   * An exception at any stage of the transaction answers 500 with its message;
   * the rollback undoes the user and the token, and the Registered event stays
   * dispatched exactly when it was the commit that failed.
   */
  lemma RegisterRollback(st: State, svc: Services, req: Request, now: Time, f: Fault<RegisterStage>)
    requires Valid(st) && RegisterFailures(svc, st.users, req) == {}
    ensures Register(st, svc, req, now, Some(f)) ==
      Outcome(if f.stage == AtCommit then Dispatch(st, RegisteredEvent(st.nextUserId)) else st, InternalError(f.message))
  {
  }

  // ---------------------------------------------------------------- login

  /** Some user has this email and the password checks against its hash. */
  ghost predicate Authenticates(svc: Services, users: map<UserId, User>, email: string, password: string) {
    exists id :: id in users && users[id].email == email && svc.check(password, users[id].passwordHash)
  }

  /** login (AuthController.php:74-121). */
  ghost function Login(st: State, svc: Services, req: Request, now: Time, fault: Option<Fault<LoginStage>>): (o: Outcome)
    requires Valid(st)
    ensures Valid(o.state) && Evolves(st, o.state)
    // login never modifies a user record
    ensures o.state.users == st.users
    ensures IsEnvelope(o.response) && ValidHttpStatus(o.response.httpStatus)
    // malformed input is refused before the users table is consulted
    ensures LoginFailures(svc, req) != {} ==> o == Outcome(st, BadRequest(svc, LoginFailures(svc, req)))
    // one answer for an unknown email and for a wrong password
    ensures LoginFailures(svc, req) == {} && !FaultAt(fault, AtLookup)
            && !Authenticates(svc, st.users, StringAt(req, "email"), StringAt(req, "password")) ==>
      o == Outcome(st, InvalidCredentials())
    ensures LoginFailures(svc, req) == {} && fault.None? ==>
      (o.response.httpStatus == JInt(200) <==> Authenticates(svc, st.users, StringAt(req, "email"), StringAt(req, "password")))
    // an exception answers 500 with its message; login has no transaction, so a
    // failing verification mail leaves the token already minted in place
    ensures LoginFailures(svc, req) == {} && FaultAt(fault, AtLookup) ==>
      o == Outcome(st, InternalError(fault.value.message))
    ensures LoginFailures(svc, req) == {} && FaultAt(fault, AtLoginToken)
            && Authenticates(svc, st.users, StringAt(req, "email"), StringAt(req, "password")) ==>
      o == Outcome(st, InternalError(fault.value.message))
    ensures LoginFailures(svc, req) == {} && FaultAt(fault, AtVerificationMail)
            && Authenticates(svc, st.users, StringAt(req, "email"), StringAt(req, "password")) ==>
      && FindByEmail(st.users, StringAt(req, "email")).Some?
      && var id := FindByEmail(st.users, StringAt(req, "email")).value;
         // the mail is sent only to an unverified user; for a verified one that stage is never reached
         && (st.users[id].verifiedAt.None? ==> o == Outcome(Mint(st, id, now), InternalError(fault.value.message)))
         && (st.users[id].verifiedAt.Some? ==> o.state == Mint(st, id, now) && o.response.httpStatus == JInt(200))
    // only a failing verification mail leaves a change behind a non-200 answer: the token already minted
    ensures o.response.httpStatus != JInt(200) && !FaultAt(fault, AtVerificationMail) ==> o.state == st
    // success: a new token for the user, and a verification mail exactly when the user is unverified
    ensures o.response.httpStatus == JInt(200) ==>
      && LoginFailures(svc, req) == {}
      && FindByEmail(st.users, StringAt(req, "email")).Some?
      && var id := FindByEmail(st.users, StringAt(req, "email")).value;
         var t := MintFor(st, id, now);
         && svc.check(StringAt(req, "password"), st.users[id].passwordHash)
         && o.state.tokens == st.tokens + multiset{t}
         && (o.state.outbox == st.outbox + [VerificationMail(id)] <==> st.users[id].verifiedAt.None?)
         && (st.users[id].verifiedAt.Some? ==> o.state.outbox == st.outbox)
         && o.response == SuccessResponse(JInt(200), JStr("User logged in successfully"), Credentials(svc, id, st.users[id], t))
  {
    var failed := LoginFailures(svc, req);
    if failed != {} then Outcome(st, BadRequest(svc, failed))
    else if FaultAt(fault, AtLookup) then Outcome(st, InternalError(fault.value.message))
    else
      var email, password := StringAt(req, "email"), StringAt(req, "password");
      var found := FindByEmail(st.users, email);
      if found.None? || !svc.check(password, st.users[found.value].passwordHash) then
        Outcome(st, InvalidCredentials())
      else if FaultAt(fault, AtLoginToken) then Outcome(st, InternalError(fault.value.message))
      else
        var id := found.value;
        var t := MintFor(st, id, now);
        var minted := Mint(st, id, now);
        var response := SuccessResponse(JInt(200), JStr("User logged in successfully"), Credentials(svc, id, st.users[id], t));
        if st.users[id].verifiedAt.Some? then Outcome(minted, response)
        else if FaultAt(fault, AtVerificationMail) then Outcome(minted, InternalError(fault.value.message))
        else
          var mailed := Dispatch(minted, VerificationMail(id));
          EvolvesTransitive(st, minted, mailed);
          Outcome(mailed, response)
  }

  // ---------------------------------------------------------------- verifyEmail

  /** The link names a user, its hash is the sha1 of that user's email, and the user is unverified. */
  ghost predicate Verifies(st: State, svc: Services, id: int, hash: string) {
    id in st.users && hash == svc.sha1(st.users[id].email) && st.users[id].verifiedAt.None?
  }

  /** verifyEmail (AuthController.php:123-169). */
  ghost function VerifyEmail(st: State, svc: Services, id: int, hash: string, now: Time, fault: Option<Fault<VerifyStage>>): (o: Outcome)
    requires Valid(st)
    ensures Valid(o.state) && Evolves(st, o.state) && KeepsCredentials(st, o.state)
    ensures o.state.tokens == st.tokens && o.state.users.Keys == st.users.Keys
    ensures IsEnvelope(o.response) && ValidHttpStatus(o.response.httpStatus)
    // an exception answers 500 with its message; one thrown by the Verified
    // event comes after the mark was saved, so the mark stays
    ensures FaultAt(fault, AtFind) ==> o == Outcome(st, InternalError(fault.value.message))
    ensures Verifies(st, svc, id, hash) && FaultAt(fault, AtMarkVerified) ==>
      o == Outcome(st, InternalError(fault.value.message))
    ensures Verifies(st, svc, id, hash) && FaultAt(fault, AtVerifiedEvent) ==>
      o == Outcome(st.(users := st.users[id := st.users[id].(verifiedAt := Some(now))]), InternalError(fault.value.message))
    // the checks, in their order, none of which changes anything
    ensures !FaultAt(fault, AtFind) && id !in st.users ==>
      o == Outcome(st, ErrorResponse(JInt(404), JStr("User Not Found")))
    ensures !FaultAt(fault, AtFind) && id in st.users && hash != svc.sha1(st.users[id].email) ==>
      o == Outcome(st, ErrorResponse(JInt(404), JStr("Invalid verification link")))
    ensures !FaultAt(fault, AtFind) && id in st.users && hash == svc.sha1(st.users[id].email) && st.users[id].verifiedAt.Some? ==>
      o == Outcome(st, ErrorResponse(JInt(400), JStr("Email already verified")))
    ensures o.response.httpStatus == JInt(200) <==> fault.None? && Verifies(st, svc, id, hash)
    ensures o.response.httpStatus == JInt(200) ==>
      o.response == SuccessResponse(JInt(200), JStr("Email verified successfully"), JNull)
      && o.state.outbox == st.outbox + [VerifiedEvent(id)]
    // the one transition: this user, from unverified to verified now
    ensures o.state != st ==>
      && Verifies(st, svc, id, hash)
      && o.state.users == st.users[id := st.users[id].(verifiedAt := Some(now))]
    ensures Verifies(st, svc, id, hash) && !FaultAt(fault, AtFind) && !FaultAt(fault, AtMarkVerified) ==>
      o.state.users[id].verifiedAt == Some(now)
  {
    if FaultAt(fault, AtFind) then Outcome(st, InternalError(fault.value.message))
    else if id !in st.users then Outcome(st, ErrorResponse(JInt(404), JStr("User Not Found")))
    else if hash != svc.sha1(st.users[id].email) then Outcome(st, ErrorResponse(JInt(404), JStr("Invalid verification link")))
    else if st.users[id].verifiedAt.Some? then Outcome(st, ErrorResponse(JInt(400), JStr("Email already verified")))
    else if FaultAt(fault, AtMarkVerified) then Outcome(st, InternalError(fault.value.message))
    else
      var marked := UpdateUser(st, id, st.users[id].(verifiedAt := Some(now)));
      match fault
      // the only fault left is one at the Verified event: the mark is already saved
      case Some(f) => Outcome(marked, InternalError(f.message))
      case None =>
        var announced := Dispatch(marked, VerifiedEvent(id));
        EvolvesTransitive(st, marked, announced);
        Outcome(announced, SuccessResponse(JInt(200), JStr("Email verified successfully"), JNull))
  }

  // ---------------------------------------------------------------- resendEmailVerification

  const ResendFailedMessage: string := "An error occurred while resending the verification email."

  /** resendEmailVerification (AuthController.php:171-198) for the authenticated user `id`. */
  ghost function ResendVerification(st: State, id: UserId, fault: Option<string>): (o: Outcome)
    requires Valid(st) && id in st.users
    ensures Valid(o.state) && Evolves(st, o.state)
    ensures o.state.users == st.users && o.state.tokens == st.tokens
    ensures IsEnvelope(o.response) && ValidHttpStatus(o.response.httpStatus)
    ensures st.users[id].verifiedAt.Some? ==>
      o == Outcome(st, ErrorResponse(JInt(400), JStr("Email is already verified.")))
    ensures st.users[id].verifiedAt.None? && fault.Some? ==>
      o == Outcome(st, InternalError(fault.value, ResendFailedMessage))
    ensures o.response.httpStatus == JInt(200) <==> st.users[id].verifiedAt.None? && fault.None?
    ensures o.response.httpStatus == JInt(200) ==>
      o.state.outbox == st.outbox + [VerificationMail(id)]
      && o.response.body["message"] == JStr("Verification email has been resent. Please check your inbox.")
      && o.response.body["data"] == JNull
  {
    if st.users[id].verifiedAt.Some? then Outcome(st, ErrorResponse(JInt(400), JStr("Email is already verified.")))
    else match fault
      case Some(message) => Outcome(st, InternalError(message, ResendFailedMessage))
      case None =>
        Outcome(Dispatch(st, VerificationMail(id)),
                SuccessResponse(JInt(200), JStr("Verification email has been resent. Please check your inbox."), JNull))
  }

  // ---------------------------------------------------------------- sendResetPasswordLink

  /**
   * sendResetPasswordLink (AuthController.php:200-238). It reads and
   * writes nothing of the store: what the broker stores and sends is the
   * broker's, and only its answer reaches the controller.
   */
  function SendResetPasswordLink(svc: Services, req: Request, broker: BrokerOutcome): (r: Response)
    ensures IsEnvelope(r) && ValidHttpStatus(r.httpStatus)
    ensures ResetLinkFailures(svc, req) != {} ==> r == BadRequest(svc, ResetLinkFailures(svc, req))
    ensures r.httpStatus == JInt(200) <==> ResetLinkFailures(svc, req) == {} && broker == Returned(ResetLinkSent)
    ensures r.httpStatus == JInt(500) <==> ResetLinkFailures(svc, req) == {} && broker.Threw?
    ensures ResetLinkFailures(svc, req) == {} && broker.Threw? ==> r == InternalError(broker.message)
    // invalid input, and every status other than RESET_LINK_SENT, answer 400
    ensures r.httpStatus == JInt(400) <==>
      ResetLinkFailures(svc, req) != {} || (broker.Returned? && broker.status != ResetLinkSent)
    ensures ResetLinkFailures(svc, req) == {} && broker.Returned? ==>
      r.body["message"] == JStr(svc.translate(broker.status.Key())) && r.body["data"] == JNull
  {
    var failed := ResetLinkFailures(svc, req);
    if failed != {} then BadRequest(svc, failed)
    else match broker
      case Threw(message) => InternalError(message)
      case Returned(status) => BrokerResponse(svc, status, ResetLinkSent)
  }

  // ---------------------------------------------------------------- resetPassword

  /** The broker reports PASSWORD_RESET only after it found the user the email names. */
  ghost predicate BrokerConsistent(st: State, svc: Services, req: Request, broker: BrokerOutcome) {
    ResetFailures(svc, req) == {} && broker == Returned(PasswordReset) ==>
      EmailTaken(st.users, StringAt(req, "email"))
  }

  /** The reset callback (AuthController.php:251-259) applied to user `id`. */
  ghost function ApplyReset(st: State, svc: Services, id: UserId, password: string, rememberToken: RememberToken): (st': State)
    requires Valid(st) && id in st.users
    ensures Valid(st') && Evolves(st, st') && KeepsVerification(st, st')
    ensures st'.users.Keys == st.users.Keys && st'.tokens == st.tokens
    ensures st'.users[id].passwordHash == svc.hash(password)
    ensures st'.users[id].rememberToken == Some(rememberToken)
    ensures |st'.users[id].rememberToken.value| == 60
    ensures forall other :: other in st.users && other != id ==> st'.users[other] == st.users[other]
    ensures st'.outbox == st.outbox + [PasswordResetEvent(id)]
  {
    var updated := UpdateUser(st, id, st.users[id].(passwordHash := svc.hash(password), rememberToken := Some(rememberToken)));
    var announced := Dispatch(updated, PasswordResetEvent(id));
    EvolvesTransitive(st, updated, announced);
    announced
  }

  /** resetPassword (AuthController.php:240-287). */
  ghost function ResetPassword(st: State, svc: Services, req: Request, broker: BrokerOutcome, rememberToken: RememberToken): (o: Outcome)
    requires Valid(st)
    requires BrokerConsistent(st, svc, req, broker)
    ensures Valid(o.state) && Evolves(st, o.state) && KeepsVerification(st, o.state)
    ensures o.state.tokens == st.tokens && o.state.users.Keys == st.users.Keys
    // invalid input is answered by the framework, outside the envelope
    ensures ResetFailures(svc, req) != {} ==> o == Outcome(st, UnprocessableEntity(svc, ResetFailures(svc, req)))
    ensures ResetFailures(svc, req) == {} ==> IsEnvelope(o.response) && ValidHttpStatus(o.response.httpStatus)
    ensures ResetFailures(svc, req) == {} && broker.Threw? ==> o == Outcome(st, InternalError(broker.message))
    ensures ResetFailures(svc, req) == {} && broker.Returned? ==>
      o.response.body["message"] == JStr(svc.translate(broker.status.Key())) && o.response.body["data"] == JNull
    ensures o.response.httpStatus == JInt(200) <==> ResetFailures(svc, req) == {} && broker == Returned(PasswordReset)
    ensures o.response.httpStatus == JInt(400) <==>
      ResetFailures(svc, req) == {} && broker.Returned? && broker.status != PasswordReset
    ensures o.response.httpStatus != JInt(200) ==> o.state == st
    // success: only the named user's password hash and remember token change
    ensures o.response.httpStatus == JInt(200) ==>
      var id := FindByEmail(st.users, StringAt(req, "email")).value;
      && o.state.users == st.users[id := st.users[id].(passwordHash := svc.hash(StringAt(req, "password")),
                                                       rememberToken := Some(rememberToken))]
      && o.state.outbox == st.outbox + [PasswordResetEvent(id)]
  {
    var failed := ResetFailures(svc, req);
    if failed != {} then Outcome(st, UnprocessableEntity(svc, failed))
    else match broker
      case Threw(message) => Outcome(st, InternalError(message))
      case Returned(status) =>
        var st' := if status == PasswordReset
                   then ApplyReset(st, svc, FindByEmail(st.users, StringAt(req, "email")).value, StringAt(req, "password"), rememberToken)
                   else st;
        Outcome(st', BrokerResponse(svc, status, PasswordReset))
  }
}
