/**
 * AuthController (app/Http/Controllers/Api/V1/AuthController.php) as a
 * store whose fields are the tables the actions update in place. Each
 * action follows the source step by step and is proved to produce the
 * store and the response its specification in `AuthHandlers` gives.
 * sendResetPasswordLink touches no table and is `AuthHandlers.SendResetPasswordLink`.
 */
module AuthController {
  import opened Wrappers
  import opened ApiResponse
  import opened AuthState
  import opened AuthRules
  import opened AuthHandlers

  class AuthStore {
    var users: map<UserId, User>
    var tokens: multiset<AccessToken>
    var outbox: seq<Notification>
    var nextUserId: UserId
    var nextTokenSerial: nat
    const svc: Services

    /** The store as a value. */
    ghost function Snapshot(): State
      reads this
    {
      State(users, tokens, outbox, nextUserId, nextTokenSerial)
    }

    ghost predicate Valid()
      reads this
    {
      AuthState.Valid(Snapshot())
    }

    constructor (svc: Services)
      ensures Valid() && Snapshot() == Empty()
      ensures this.svc == svc
    {
      users, tokens, outbox := map[], multiset{}, [];
      nextUserId, nextTokenSerial := 1, 0;
      this.svc := svc;
    }

    /** register (AuthController.php:22-72); `fault` is the exception thrown inside the transaction, if any. */
    method Register(req: Request, now: Time, fault: Option<Fault<RegisterStage>>) returns (response: Response)
      requires Valid()
      modifies this
      ensures Valid()
      ensures Outcome(Snapshot(), response) == AuthHandlers.Register(old(Snapshot()), svc, req, now, fault)
    {
      var failed := RegisterFailures(svc, users, req);
      if failed != {} {
        return BadRequest(svc, failed);
      }
      // DB::beginTransaction(): what a rollback restores
      var savedUsers, savedTokens, savedNextUserId, savedNextTokenSerial := users, tokens, nextUserId, nextTokenSerial;
      ghost var st := Snapshot();
      var thrown, data := Transaction(req, now, fault);
      if thrown.None? {
        response := SuccessResponse(JInt(201), JStr("User registered successfully"), data);
        assert AuthHandlers.Register(st, svc, req, now, fault) == Outcome(Snapshot(), response);
        return;
      }
      // catch (\Exception $e): DB::rollBack()
      users, tokens, nextUserId, nextTokenSerial := savedUsers, savedTokens, savedNextUserId, savedNextTokenSerial;
      assert Snapshot() == if fault.value.stage == AtCommit then Dispatch(st, RegisteredEvent(st.nextUserId)) else st;
      response := InternalError(thrown.value);
      RegisterRollback(st, svc, req, now, fault.value);
    }

    /**
     * The try block of register (AuthController.php:38-56): create the user,
     * mint its token, dispatch Registered, commit. It stops at the first
     * exception and returns its message, leaving what was done in place for
     * the caller to roll back.
     */
    method Transaction(req: Request, now: Time, fault: Option<Fault<RegisterStage>>) returns (thrown: Option<string>, data: Json)
      requires Valid() && RegisterFailures(svc, users, req) == {}
      modifies this
      ensures thrown.None? <==> fault.None?
      ensures fault.None? ==>
        var user := NewUser(svc, req);
        var id := old(nextUserId);
        && Snapshot() == Dispatch(Mint(InsertUser(old(Snapshot()), user), id, now), RegisteredEvent(id))
        && data == Credentials(svc, id, user, MintFor(old(Snapshot()), id, now))
      ensures fault.Some? ==>
        && thrown == Some(fault.value.message)
        && outbox == if fault.value.stage == AtCommit then old(outbox) + [RegisteredEvent(old(nextUserId))] else old(outbox)
    {
      data := JNull;
      if FaultAt(fault, AtCreate) {
        return Some(fault.value.message), data;
      }
      var id := nextUserId;
      var user := NewUser(svc, req);
      users, nextUserId := users[id := user], nextUserId + 1;
      ghost var created := InsertUser(old(Snapshot()), user);
      assert Snapshot() == created;
      if FaultAt(fault, AtCreateToken) {
        return Some(fault.value.message), data;
      }
      var token := AccessToken(nextTokenSerial, id, now + TokenLifetime);
      tokens, nextTokenSerial := tokens + multiset{token}, nextTokenSerial + 1;
      ghost var minted := Mint(created, id, now);
      assert Snapshot() == minted;
      data := Credentials(svc, id, user, token);
      if FaultAt(fault, AtRegisteredEvent) {
        return Some(fault.value.message), data;
      }
      outbox := outbox + [RegisteredEvent(id)];
      // FaultAt is generic in the stage type, so the verifier needs to be told that
      // the four stages above are all there are: after them, any fault is at the commit
      assert fault.Some? ==>
        (fault.value.stage.AtCreate? || fault.value.stage.AtCreateToken?
         || fault.value.stage.AtRegisteredEvent? || fault.value.stage.AtCommit?);
      if FaultAt(fault, AtCommit) {
        return Some(fault.value.message), data;
      }
      thrown := None;
    }

    /** login (AuthController.php:74-121). */
    method Login(req: Request, now: Time, fault: Option<Fault<LoginStage>>) returns (response: Response)
      requires Valid()
      modifies this
      ensures Valid()
      ensures Outcome(Snapshot(), response) == AuthHandlers.Login(old(Snapshot()), svc, req, now, fault)
    {
      var failed := LoginFailures(svc, req);
      if failed != {} {
        return BadRequest(svc, failed);
      }
      if FaultAt(fault, AtLookup) {
        return InternalError(fault.value.message);
      }
      var email, password := StringAt(req, "email"), StringAt(req, "password");
      var found: Option<UserId> := None;
      if exists id :: id in users && users[id].email == email {
        var id :| id in users && users[id].email == email;
        FindByEmailUnique(Snapshot(), email, id);
        found := Some(id);
      }
      if found.None? || !svc.check(password, users[found.value].passwordHash) {
        return InvalidCredentials();
      }
      if FaultAt(fault, AtLoginToken) {
        return InternalError(fault.value.message);
      }
      var id := found.value;
      var token := AccessToken(nextTokenSerial, id, now + TokenLifetime);
      tokens := tokens + multiset{token};
      nextTokenSerial := nextTokenSerial + 1;
      ghost var minted := Mint(old(Snapshot()), id, now);
      assert Snapshot() == minted;
      var data := Credentials(svc, id, users[id], token);
      if users[id].verifiedAt.None? {
        if FaultAt(fault, AtVerificationMail) {
          return InternalError(fault.value.message);
        }
        outbox := outbox + [VerificationMail(id)];
        assert Snapshot() == Dispatch(minted, VerificationMail(id));
      }
      return SuccessResponse(JInt(200), JStr("User logged in successfully"), data);
    }

    /** verifyEmail (AuthController.php:123-169) for the link's `id` and `hash`. */
    method VerifyEmail(id: int, hash: string, now: Time, fault: Option<Fault<VerifyStage>>) returns (response: Response)
      requires Valid()
      modifies this
      ensures Valid()
      ensures Outcome(Snapshot(), response) == AuthHandlers.VerifyEmail(old(Snapshot()), svc, id, hash, now, fault)
    {
      if FaultAt(fault, AtFind) {
        return InternalError(fault.value.message);
      }
      if id !in users {
        return ErrorResponse(JInt(404), JStr("User Not Found"));
      }
      var user := users[id];
      if hash != svc.sha1(user.email) {
        return ErrorResponse(JInt(404), JStr("Invalid verification link"));
      }
      if user.verifiedAt.Some? {
        return ErrorResponse(JInt(400), JStr("Email already verified"));
      }
      if FaultAt(fault, AtMarkVerified) {
        return InternalError(fault.value.message);
      }
      // markEmailAsVerified()
      users := users[id := user.(verifiedAt := Some(now))];
      if fault.Some? {
        // thrown by the Verified event, after the mark was saved
        return InternalError(fault.value.message);
      }
      outbox := outbox + [VerifiedEvent(id)];
      return SuccessResponse(JInt(200), JStr("Email verified successfully"), JNull);
    }

    /** resendEmailVerification (AuthController.php:171-198) for the authenticated user `id`. */
    method ResendVerification(id: UserId, fault: Option<string>) returns (response: Response)
      requires Valid() && id in users
      modifies this
      ensures Valid()
      ensures Outcome(Snapshot(), response) == AuthHandlers.ResendVerification(old(Snapshot()), id, fault)
    {
      if users[id].verifiedAt.Some? {
        return ErrorResponse(JInt(400), JStr("Email is already verified."));
      }
      if fault.Some? {
        return InternalError(fault.value, ResendFailedMessage);
      }
      outbox := outbox + [VerificationMail(id)];
      return SuccessResponse(JInt(200), JStr("Verification email has been resent. Please check your inbox."), JNull);
    }

    /**
     * resetPassword (AuthController.php:240-287). `broker` is what
     * `Password::reset` returns or throws; on PASSWORD_RESET it has run the
     * callback for the user the email names, with `rememberToken` as the
     * value of `Str::random(60)`.
     */
    method ResetPassword(req: Request, broker: BrokerOutcome, rememberToken: RememberToken) returns (response: Response)
      requires Valid() && BrokerConsistent(Snapshot(), svc, req, broker)
      modifies this
      ensures Valid()
      ensures Outcome(Snapshot(), response) == AuthHandlers.ResetPassword(old(Snapshot()), svc, req, broker, rememberToken)
    {
      var failed := ResetFailures(svc, req);
      if failed != {} {
        return UnprocessableEntity(svc, failed);
      }
      if broker.Threw? {
        return InternalError(broker.message);
      }
      var status := broker.status;
      if status == PasswordReset {
        // the callback: forceFill the password hash, setRememberToken, save
        var email := StringAt(req, "email");
        var id :| id in users && users[id].email == email;
        FindByEmailUnique(Snapshot(), email, id);
        users := users[id := users[id].(passwordHash := svc.hash(StringAt(req, "password")), rememberToken := Some(rememberToken))];
        outbox := outbox + [PasswordResetEvent(id)];
        return SuccessResponse(JInt(200), JStr(svc.translate(status.Key())), JNull);
      }
      return ErrorResponse(JInt(400), JStr(svc.translate(status.Key())));
    }
  }
}
