/**
 * The decision logic the controller owns apart from state: the
 * validation rules of each action (AuthController.php:24-28, 76-79,
 * 202-204, 242-246), the password broker's statuses, and the fixed
 * responses the actions return.
 */
module AuthRules {
  import opened ApiResponse
  import opened AuthState

  /** `$request->all()`: the request's input fields. */
  type Request = map<string, Json>

  /** Characters PHP's `trim` strips. */
  const TrimmedChars: set<char> := {' ', '\t', '\n', '\r', '\0', '\U{000B}'}

  predicate Blank(s: string) {
    forall i :: 0 <= i < |s| ==> s[i] in TrimmedChars
  }

  /** The `required` rule: present, not null, not a blank string, not an empty array or object. */
  predicate Required(req: Request, field: string) {
    && field in req
    && match req[field]
       case JNull => false
       case JStr(s) => !Blank(s)
       case JArr(items) => items != []
       case JObj(fields) => fields != map[]
       case _ => true
  }

  /** The `string` rule. */
  predicate IsString(req: Request, field: string) {
    field in req && req[field].JStr?
  }

  function StringAt(req: Request, field: string): string
    requires IsString(req, field)
  {
    req[field].s
  }

  /** The `email` rule: a string the framework's address validator accepts. */
  predicate IsEmailField(svc: Services, req: Request, field: string) {
    IsString(req, field) && svc.isEmail(StringAt(req, field))
  }

  /** `required|string|min:8` on the password. */
  predicate PasswordOk(req: Request) {
    Required(req, "password") && IsString(req, "password") && |StringAt(req, "password")| >= 8
  }

  /** The validator's error bag: one entry per failing field. */
  function ValidationErrors(svc: Services, failed: set<string>): (errors: Json)
    ensures errors.JObj? && errors.fields.Keys == failed
  {
    JObj(map f | f in failed :: svc.fieldErrors(f))
  }

  // ---- register: name required|string, email required|string|email|max:255|unique:users, password required|string|min:8

  const RegisterFields: set<string> := {"name", "email", "password"}

  predicate RegisterEmailOk(svc: Services, users: map<UserId, User>, req: Request) {
    && Required(req, "email")
    && IsEmailField(svc, req, "email")
    && |StringAt(req, "email")| <= 255
    && !EmailTaken(users, StringAt(req, "email"))
  }

  /** The fields that fail register's rules against the current users table. */
  function RegisterFailures(svc: Services, users: map<UserId, User>, req: Request): (failed: set<string>)
    ensures failed <= RegisterFields
    ensures failed == {} <==>
      && Required(req, "name") && IsString(req, "name")
      && Required(req, "email") && IsString(req, "email") && svc.isEmail(StringAt(req, "email"))
      && |StringAt(req, "email")| <= 255 && !EmailTaken(users, StringAt(req, "email"))
      && Required(req, "password") && IsString(req, "password") && |StringAt(req, "password")| >= 8
    ensures !Required(req, "name") ==> "name" in failed
    ensures IsString(req, "email") && !svc.isEmail(StringAt(req, "email")) ==> "email" in failed
    ensures "email" in req && req["email"].JStr? && EmailTaken(users, req["email"].s) ==> "email" in failed
  {
    (if Required(req, "name") && IsString(req, "name") then {} else {"name"})
    + (if RegisterEmailOk(svc, users, req) then {} else {"email"})
    + (if PasswordOk(req) then {} else {"password"})
  }

  // ---- login: email required|email, password required|string|min:8

  /** The fields that fail login's rules; the users table plays no part. */
  function LoginFailures(svc: Services, req: Request): (failed: set<string>)
    ensures failed <= {"email", "password"}
    ensures failed == {} <==>
      && Required(req, "email") && IsString(req, "email") && svc.isEmail(StringAt(req, "email"))
      && Required(req, "password") && IsString(req, "password") && |StringAt(req, "password")| >= 8
    ensures IsString(req, "password") && |StringAt(req, "password")| < 8 ==> "password" in failed
    ensures IsString(req, "email") && !svc.isEmail(StringAt(req, "email")) ==> "email" in failed
  {
    (if Required(req, "email") && IsEmailField(svc, req, "email") then {} else {"email"})
    + (if PasswordOk(req) then {} else {"password"})
  }

  // ---- sendResetPasswordLink: email required|email

  function ResetLinkFailures(svc: Services, req: Request): (failed: set<string>)
    ensures failed <= {"email"}
    ensures failed == {} <==> Required(req, "email") && IsEmailField(svc, req, "email")
  {
    if Required(req, "email") && IsEmailField(svc, req, "email") then {} else {"email"}
  }

  // ---- resetPassword: token required, email required|email, password required|min:8|confirmed

  /** `confirmed`: `password_confirmation` is present and identical to `password`. */
  predicate Confirmed(req: Request) {
    "password" in req && "password_confirmation" in req && req["password_confirmation"] == req["password"]
  }

  function ResetFailures(svc: Services, req: Request): (failed: set<string>)
    ensures failed <= {"token", "email", "password"}
    ensures failed == {} <==>
      && Required(req, "token")
      && Required(req, "email") && IsString(req, "email") && svc.isEmail(StringAt(req, "email"))
      && Required(req, "password") && IsString(req, "password") && |StringAt(req, "password")| >= 8
      && Confirmed(req)
    ensures !Confirmed(req) ==> "password" in failed
    ensures IsString(req, "password") && |StringAt(req, "password")| < 8 ==> "password" in failed
    ensures IsString(req, "email") && !svc.isEmail(StringAt(req, "email")) ==> "email" in failed
  {
    (if Required(req, "token") then {} else {"token"})
    + (if Required(req, "email") && IsEmailField(svc, req, "email") then {} else {"email"})
    + (if PasswordOk(req) && Confirmed(req) then {} else {"password"})
  }

  // ---- the password broker

  /** The statuses `Password::sendResetLink` and `Password::reset` return. */
  datatype BrokerStatus = ResetLinkSent | PasswordReset | InvalidUser | InvalidToken | ResetThrottled
  {
    /** The status string, which is also the translation key of its message. */
    function Key(): string {
      match this
      case ResetLinkSent => "passwords.sent"
      case PasswordReset => "passwords.reset"
      case InvalidUser => "passwords.user"
      case InvalidToken => "passwords.token"
      case ResetThrottled => "passwords.throttled"
    }
  }

  /** What a broker call does: return a status, or throw. */
  datatype BrokerOutcome = Returned(status: BrokerStatus) | Threw(message: string)

  /**
   * The broker answer mapped to a response: `ok` (RESET_LINK_SENT for the
   * link, PASSWORD_RESET for the reset) gives 200, any other status 400,
   * both with the translated status as message and no data.
   */
  function BrokerResponse(svc: Services, status: BrokerStatus, ok: BrokerStatus): (r: Response)
    ensures IsEnvelope(r) && ValidHttpStatus(r.httpStatus)
    ensures r.httpStatus == JInt(200) <==> status == ok
    ensures r.httpStatus == JInt(400) <==> status != ok
    ensures r.body["message"] == JStr(svc.translate(status.Key())) && r.body["data"] == JNull
  {
    if status == ok then SuccessResponse(JInt(200), JStr(svc.translate(status.Key())), JNull)
    else ErrorResponse(JInt(400), JStr(svc.translate(status.Key())))
  }

  // ---- the fixed responses

  function BadRequest(svc: Services, failed: set<string>): (r: Response)
    ensures IsEnvelope(r) && r.httpStatus == JInt(400)
    ensures r.body["message"] == JStr("Bad Request") && r.body["data"] == ValidationErrors(svc, failed)
  {
    ErrorResponse(JInt(400), JStr("Bad Request"), ValidationErrors(svc, failed))
  }

  /** The catch-all of an action: 500 with the exception's message as data. */
  function InternalError(message: string, summary: string := "Internal Server Error"): (r: Response)
    ensures IsEnvelope(r) && r.httpStatus == JInt(500)
    ensures r.body["message"] == JStr(summary) && r.body["data"] == JStr(message)
  {
    ErrorResponse(JInt(500), JStr(summary), JStr(message))
  }

  /** The one answer for an unknown email and for a wrong password. */
  function InvalidCredentials(): (r: Response)
    ensures IsEnvelope(r) && r.httpStatus == JInt(401)
    ensures r.body["message"] == JStr("Invalid username or password") && r.body["data"] == JNull
  {
    ErrorResponse(JInt(401), JStr("Invalid username or password"))
  }

  /**
   * The framework's answer to a failed `$request->validate(...)`: 422 with
   * a `message` and an `errors` object, not the controller's envelope.
   */
  function UnprocessableEntity(svc: Services, failed: set<string>): (r: Response)
    ensures r.httpStatus == JInt(422) && ValidHttpStatus(r.httpStatus)
    ensures r.body.Keys == {"message", "errors"} && !IsEnvelope(r)
    ensures r.body["errors"] == ValidationErrors(svc, failed)
  {
    var errors := ValidationErrors(svc, failed);
    Response(JInt(422), map["message" := svc.errorSummary(errors), "errors" := errors])
  }
}
