# Authentication controller of a Laravel 11 API starter, in Dafny

This project models the API's authentication controller
(`app/Http/Controllers/Api/V1/AuthController.php`) and the response
envelope it answers with (`app/Traits/ApiResponse.php`). The actions are
register, login, email verification, resending the verification mail,
requesting a password-reset link, and resetting the password.

The model is a small state machine over:

- the users table, `map<UserId, User>`;
- the personal access tokens, a multiset;
- an append-only outbox of the events and mails the controller dispatches.

Framework code that the controller calls but does not own is uninterpreted.
This covers `Hash::make`, `Hash::check`, `sha1`, the validator's `email` rule,
the translator `__()`, the validator's messages and the token's string form.
These are the function-typed fields of `AuthState.Services`. Other framework
behaviour becomes a parameter of the action:

- an exception thrown at a given stage (`AuthHandlers.Fault`);
- the password broker's answer (`AuthRules.BrokerOutcome`);
- the clock (`now`);
- the value of `Str::random(60)` (`AuthState.RememberToken`).

Modules:

- `ApiResponse`: JSON values, responses, and the three envelope builders.
- `AuthState`: the store, its invariant `Valid`, and the four changes a handler makes to the store (insert a user, mint a token, dispatch, update a user). Each change keeps `Valid`. `Evolves` says how the store may change at all: users are never lost or renamed, verification is never cleared, and tokens and the outbox only grow.
- `AuthRules`: each action's validation rules, the broker statuses, and the fixed responses.
- `AuthHandlers`: one function per action, from store and request to new store and response. Its contract states what the action promises.
- `AuthController`: the class `AuthStore`. Its fields are the tables, and its methods run each action step by step, updating the fields in place. Each method is proved to produce exactly the store and response that the `AuthHandlers` function gives. `Register` saves what a rollback restores, runs the try block (`Transaction`), and restores the saved fields in the catch path.
- `AuthProperties`: properties that span several calls. This includes a sequence of calls (`Run`) and inductive lemmas over such sequences.

In these points the model follows the code as written:

- A 500 answer echoes the exception's message as `data`.
- The verification hash is `sha1(email)`, with no server secret and no user id.
- A duplicate email at registration is a 400 validation failure, not a separate conflict outcome.
- For an unknown email, `sendResetPasswordLink` answers whatever the broker reports (usually 400); it does not always report success.
- Reset-token storage, expiry and single use belong to Laravel's broker. They are not part of this model.

## Model

| member | source | states |
|---|---|---|
| ApiResponse.SuccessResponse | app/Traits/ApiResponse.php:17-24 | the body has exactly the keys status, message and data; its status is the HTTP status the response is sent with; message and data are echoed unchanged |
| ApiResponse.ErrorResponse | app/Traits/ApiResponse.php:34-49 | the same three-key envelope, with status equal to the HTTP status and message and data echoed |
| ApiResponse.ErrorDataDefaultsToNull | app/Traits/ApiResponse.php:34 | with no data argument, the error envelope carries data null |
| ApiResponse.SuccessAndErrorShareEnvelope | app/Traits/ApiResponse.php:17-49 | success and error envelopes built from the same arguments are the same response with the same key set; only the logging differs |
| ApiResponse.NotFoundResponseAsWritten | app/Traits/ApiResponse.php:57-62 | as written, the message lands in the status slot and in the HTTP status, and 404 lands in the message slot |
| ApiResponse.NotFoundAsWrittenSwapsCodeAndMessage | app/Traits/ApiResponse.php:61 | with the default message, the as-written call passes the string "Resource not found" as the status argument, which is not a valid HTTP status, and 404 as the message, so it differs from the intended response |
| ApiResponse.NotFoundResponse | app/Traits/ApiResponse.php:57-62 | the corrected builder: a valid 404 envelope that echoes the message and has data null |
| AuthState.FindByEmail | app/Http/Controllers/Api/V1/AuthController.php:90 | the lookup finds a user exactly when some user has the email, and the user it finds has that email |
| AuthState.MintFor | app/Http/Controllers/Api/V1/AuthController.php:47 | a minted token is new (not among the stored tokens), belongs to the user, and expires fifteen minutes after issue |
| AuthState.InsertUser | app/Http/Controllers/Api/V1/AuthController.php:41-45 | inserting a user whose email is free adds exactly that row under a fresh id and keeps the store invariant (unique emails, tokens owned by users) |
| AuthState.Mint | app/Http/Controllers/Api/V1/AuthController.php:99 | minting adds exactly one token for an existing user, changes no user, and keeps the invariant |
| AuthState.Dispatch | app/Http/Controllers/Api/V1/AuthController.php:54 | dispatching only appends to the outbox; users and tokens are unchanged |
| AuthState.UpdateUser | app/Http/Controllers/Api/V1/AuthController.php:151 | saving a user whose name, email and verification persist keeps the invariant and changes only that row |
| AuthState.UserJson | app/Http/Controllers/Api/V1/AuthController.php:48-51 | the user object in a response has the keys id, name, email and email_verified_at only, so neither the password hash nor the remember token is returned; they hold the user's id, name, email, and verification time or null |
| AuthState.Credentials | app/Http/Controllers/Api/V1/AuthController.php:100-103 | the data of a successful register or login has the keys user and token: the user is that user's JSON object, and the token is the minted token's string |
| AuthRules.ValidationErrors | app/Http/Controllers/Api/V1/AuthController.php:34 | the error bag has exactly one entry per failing field |
| AuthRules.RegisterFailures | app/Http/Controllers/Api/V1/AuthController.php:24-28 | register's rules pass exactly when name is a present, non-blank string, email is a present string the address validator accepts, has at most 255 characters and no user has it yet, and password is a present string of at least 8 characters; a missing, null or blank name fails on `name`, and a malformed or taken email fails on `email` |
| AuthRules.LoginFailures | app/Http/Controllers/Api/V1/AuthController.php:76-79 | login's rules depend on the request alone, and they pass exactly when the email is a present string the address validator accepts and the password is a present string of at least 8 characters; a malformed email fails on `email` and a shorter password on `password` |
| AuthRules.ResetLinkFailures | app/Http/Controllers/Api/V1/AuthController.php:202-204 | the reset-link request passes exactly when the email is present and well formed |
| AuthRules.ResetFailures | app/Http/Controllers/Api/V1/AuthController.php:242-246 | the reset rules pass exactly when a token is present, the email is a present string the address validator accepts, and the password is a present string of at least 8 characters equal to its confirmation; an unconfirmed or shorter password fails on `password`, and a malformed email fails on `email` |
| AuthRules.BrokerResponse | app/Http/Controllers/Api/V1/AuthController.php:219-229 | the expected broker status maps to 200 and every other status to 400; the message is the translated status and data is null |
| AuthRules.BadRequest | app/Http/Controllers/Api/V1/AuthController.php:30-35 | a validation failure is a 400 envelope with message "Bad Request" and the error bag as data |
| AuthRules.InternalError | app/Http/Controllers/Api/V1/AuthController.php:63-71 | an exception is a 500 envelope whose data is the exception's message |
| AuthRules.InvalidCredentials | app/Http/Controllers/Api/V1/AuthController.php:92-97 | the 401 envelope "Invalid username or password", with data null |
| AuthRules.UnprocessableEntity | app/Http/Controllers/Api/V1/AuthController.php:242-246 | a failed reset validation is the framework's 422 answer, with message and errors, not the envelope |
| AuthHandlers.NewUser | app/Http/Controllers/Api/V1/AuthController.php:41-45 | the inserted row stores Hash(password), never the plaintext, and starts unverified with no remember token |
| AuthHandlers.Register | app/Http/Controllers/Api/V1/AuthController.php:22-72 | a validation failure gives 400 and changes nothing. An exception inside the transaction gives 500, and the rollback restores users and tokens. 201 happens exactly when validation passes and nothing throws; it adds exactly one user (with the hashed password) and one fresh token for that user, and returns both. The store invariant is kept. |
| AuthHandlers.RegisterRollback | app/Http/Controllers/Api/V1/AuthController.php:63-71 | an exception at any stage of register's transaction answers 500 with its message; the store keeps its users, tokens and counters, and the Registered event stays in the outbox exactly when the commit was what failed |
| AuthHandlers.Login | app/Http/Controllers/Api/V1/AuthController.php:74-121 | malformed input gives 400 before any lookup. An unknown email and a wrong password give the identical 401. Without faults, 200 happens exactly when the credentials check. On success: a new token, no user record modified, and a verification mail exactly when the user is unverified. An exception answers 500 with its message: at the lookup or at token creation nothing changes, and at the verification mail of an unverified user the minted token stays, since login has no transaction. A fault placed at the mail for a verified user is never reached, and login succeeds. |
| AuthHandlers.VerifyEmail | app/Http/Controllers/Api/V1/AuthController.php:123-169 | the checks run in order: unknown id gives 404 "User Not Found", then a wrong hash gives 404 "Invalid verification link", then an already verified user gives 400. None of these changes the store. An exception answers 500 with its message: at the lookup or at markEmailAsVerified nothing changes, and at the Verified event the saved verification time stays. 200 happens exactly when all three checks pass and nothing throws, and then the user is verified now and a VerifiedEvent is appended to the outbox. No user changes except this one's verification time. |
| AuthHandlers.ResendVerification | app/Http/Controllers/Api/V1/AuthController.php:171-198 | a verified user gets 400 "Email is already verified."; otherwise the verification mail is sent with 200 and null data, or a throwing mailer gives 500 with the resend message and the exception text; users and tokens never change |
| AuthHandlers.SendResetPasswordLink | app/Http/Controllers/Api/V1/AuthController.php:200-238 | invalid input gives 400 "Bad Request". 200 happens exactly for RESET_LINK_SENT, 500 exactly when the broker throws ("Internal Server Error" with the exception message as data), and every other status gives 400 with the translated status as message |
| AuthHandlers.ApplyReset | app/Http/Controllers/Api/V1/AuthController.php:251-259 | the reset callback changes only the target user's password hash, setting it to Hash(new password), and its remember token, setting it to a new 60-character string; every other user and all tokens are unchanged |
| AuthHandlers.ResetPassword | app/Http/Controllers/Api/V1/AuthController.php:240-287 | invalid input gives the framework 422 and no change. 200 happens exactly for PASSWORD_RESET and 400 exactly for any other status; a thrown exception gives 500. Only 200 changes anything, and then only the named user's password hash and remember token. |
| AuthController.AuthStore.Register | app/Http/Controllers/Api/V1/AuthController.php:22-72 | run in place with a transaction and rollback, it leaves exactly the store and response that AuthHandlers.Register gives |
| AuthController.AuthStore.Transaction | app/Http/Controllers/Api/V1/AuthController.php:38-56 | with no exception, the try block inserts the new user, mints its token and dispatches Registered, and returns the user and the token; at an exception it returns that message, and the outbox holds the Registered event only if the commit threw |
| AuthController.AuthStore.Login | app/Http/Controllers/Api/V1/AuthController.php:74-121 | run in place, it leaves exactly the store and response that AuthHandlers.Login gives |
| AuthController.AuthStore.VerifyEmail | app/Http/Controllers/Api/V1/AuthController.php:123-169 | run in place, it leaves exactly the store and response that AuthHandlers.VerifyEmail gives |
| AuthController.AuthStore.ResendVerification | app/Http/Controllers/Api/V1/AuthController.php:171-198 | run in place, it leaves exactly the store and response that AuthHandlers.ResendVerification gives |
| AuthController.AuthStore.ResetPassword | app/Http/Controllers/Api/V1/AuthController.php:240-287 | run in place, with the callback applied to the user that the email names, it leaves exactly the store and response that AuthHandlers.ResetPassword gives |
| AuthProperties.LoginDoesNotRevealAccounts | app/Http/Controllers/Api/V1/AuthController.php:90-97 | an unknown email and a known email with a wrong password give the same response and leave the store unchanged |
| AuthProperties.LoginValidationIgnoresUsers | app/Http/Controllers/Api/V1/AuthController.php:76-87 | for malformed login input, the 400 response is the same whatever the users table holds |
| AuthProperties.WrongHashBeatsAlreadyVerified | app/Http/Controllers/Api/V1/AuthController.php:131-149 | a wrong hash on a verified user gives 404 "Invalid verification link", not 400 |
| AuthProperties.VerifyTwice | app/Http/Controllers/Api/V1/AuthController.php:141-158 | after a successful verification, the same link gives 400 "Email already verified" and changes nothing |
| AuthProperties.RegisterTwice | app/Http/Controllers/Api/V1/AuthController.php:26 | once an email is registered, registering it again fails on the email field with 400 and changes nothing |
| AuthProperties.LoginAfterRegister | app/Http/Controllers/Api/V1/AuthController.php:41-112 | if the hasher checks a password against its own hash, logging in with the registered email and password succeeds, mints a token for the new user, and sends a verification mail |
| AuthProperties.LoginAfterReset | app/Http/Controllers/Api/V1/AuthController.php:251-256 | after a reset, a password that checks against the new hash logs in, and any other password gets the 401 |
| AuthProperties.ResetRefusedChangesNothing | app/Http/Controllers/Api/V1/AuthController.php:262-272 | any broker status other than PASSWORD_RESET gives 400 and leaves the store unchanged |
| AuthProperties.Step | app/Http/Controllers/Api/V1/AuthController.php:18-288 | every action keeps the store invariant and only lets the store evolve; only verifyEmail changes verification, and only resetPassword changes credentials |
| AuthProperties.Run | app/Http/Controllers/Api/V1/AuthController.php:18-288 | any sequence of calls keeps the invariant and only lets the store evolve |
| AuthProperties.VerificationIsPermanent | app/Http/Controllers/Api/V1/AuthController.php:141-151 | after any sequence of calls, a verified user is still verified, with the same time |
| AuthProperties.OnlyVerifyEmailVerifies | app/Http/Controllers/Api/V1/AuthController.php:151 | a sequence of calls without verifyEmail changes no user's verification |
| AuthProperties.OnlyResetChangesCredentials | app/Http/Controllers/Api/V1/AuthController.php:252-256 | a sequence of calls without resetPassword changes no password hash and no remember token |

## Left out

- Laravel and Passport internals are uninterpreted functions or parameters: bcrypt hashing and checking, token signing, the translator, the validator's message texts, and the `email` rule's address grammar. `Hash::make` is salted in the source but is a deterministic function here.
- The password broker's reset-token storage, expiry, throttling, single use and mail are not modelled. Its answer (a status, or an exception) is a parameter. `AuthHandlers.ResetPassword` and `AuthController.AuthStore.ResetPassword` require that the broker reports PASSWORD_RESET only for an email a user has.
- `sendResetPasswordLink` changes nothing in the model, because whatever it stores and sends happens inside the broker.
- Events and notifications are entries in an append-only outbox. Listeners and mail transport are not modelled.
- `AuthRules.ValidationErrors`: each message comes from `Services.fieldErrors`, which depends only on the field name. The model gives the same error bag for a taken email and a malformed one, while the source's `unique:users` message tells the caller at register time that the email is already registered.
- Logging (`Log::error` in errorResponse, `Log::warning` in notFoundResponse) is not modelled.
- `response()->json` serialisation and HTTP transport are not modelled. A response is the status argument plus the body map.
- An exception is placed at one stage of an action. `AuthHandlers.Register`: an exception thrown after the Registered event leaves that event in the outbox, and the ids and counters are rolled back with the tables. That is a modelling choice: MySQL/InnoDB does not roll back AUTO_INCREMENT, so the real next id after a failed registration depends on the database.
- Exceptions thrown after a reset's `save()` are not modelled: a thrown broker outcome changes nothing.
- Request values follow JSON. `Required` models `required`, including PHP's `trim`. A non-string reset password counts as failing `min:8`; Laravel would measure its string form instead.
- `TrimStrings` and the other middleware that rewrite input are not modelled. Email comparison is exact, whatever the database collation is.
- The route parameter `id` of verifyEmail is an integer. Non-numeric ids are not modelled.
- `AuthState.UserJson`: the serialised user follows Laravel's default `User` model, which hides the password and remember token. That model file, the timestamps and the exact attribute set of a freshly created row are not part of this model.
- Concurrency is not modelled: transaction isolation, and the race between the `unique:users` check and the insert.
- routes/api.php is not part of this model: the route wiring and the `signed`, `throttle`, `auth:api` and `guest` middleware. `AuthProperties.Step` treats a resend for a missing user as turned away by `auth:api`.
- The route at routes/api.php:15 names `sendResetLinkEmail`, a method the controller does not have. That wiring defect is outside the model.
- app/Providers/AppServiceProvider.php is not part of this model, apart from the fifteen-minute token lifetime (`AuthState.TokenLifetime`). Its reset-URL building and the Telescope registration are out of scope.
- The `ValidationException` catch in resetPassword (AuthController.php:274-279) never runs for its own `validate` call, which sits before the `try`. The model answers invalid input with the framework's 422 instead.

## Findings

| source | as written | input that shows it | evidently intended | confidence | as-written member | corrected member |
|---|---|---|---|---|---|---|
| app/Traits/ApiResponse.php:61 | `errorResponse($message, 404)` passes the message as the status code and 404 as the message | `notFoundResponse()` with its default message: the status argument becomes the string "Resource not found" and the message becomes 404; the body's `status` holds that string, and `JsonResponse` expects an integer status, so the call raises a TypeError instead of sending a 404 | `errorResponse(404, $message)`: a 404 envelope that echoes the message | high (not executed; the argument order is visible in the text) | ApiResponse.NotFoundResponseAsWritten | ApiResponse.NotFoundResponse |
