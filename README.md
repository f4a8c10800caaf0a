# OTP sender backend: a Dafny model of the verification lifecycle

This project models the core of a small Express/mongoose backend. Users
register with a mobile number. A one-time passcode (OTP) is issued to that
number by SMS and archived as a message. The user then submits the OTP, and a
match marks them verified.

The three MongoDB collections are held in one object, `Database.Db`, which
the handlers update in place:

- `users` maps a user id to `{firstName, lastName, mobileNumber, isVerified}`;
- `sessions` holds the UserVerification records `{mobileNumber, mobileOtp}` in insertion order;
- `messages` holds the archived `{message, user}` records in insertion order.

The handlers of `controllers/userController.js` are methods over that object:
`CreateUser`, `DeleteUser`, `SendOtp`, `MobileOtpHandler`,
`ResendMobileOtpHandler` and `VerifyUserMobile`. Each method returns the JSON
reply: status, `success` flag, message text and optional data. Its contract
states the whole new state of all three collections. `getUsers`,
`getSingleUser` and `getMessages` only read, so they are functions.
`Db.Valid()` is the invariant that every handler keeps:

- no two users share a mobile number;
- every user id is below the id generator;
- every stored session and message passed its schema's `required` checks.

Modelling decisions:

- **The SMS gateway** is not modelled. A handler returns the dispatch attempt
  as an `Sms(to, body)` value, and the outcome comes in as the boolean
  `delivered`.
- **`findOne` on sessions.** Nothing makes `mobileNumber` unique among
  sessions, and the source leaves `findOne`'s choice open. The model takes
  the first session in insertion order (`Database.FindSession`).
- **Consequence of that choice.** A number issued an OTP twice keeps both
  sessions. The older OTP then shadows the newer one: the newest OTP gets
  400 and the oldest verifies (`Scenarios.StaleSessionShadows`). So "verify
  after issue succeeds" holds only for a number that had no session before
  (`Scenarios.IssueThenVerify`).
- **Mongoose `required` on a String path** rejects an absent value and also
  the empty string. Issuing an OTP with an empty or missing mobile number
  therefore fails with 500 before anything is stored or sent.
- **An omitted OTP** takes the schema default `""`. The SMS text then reads
  "undefined", which is how the template literal renders it, and the empty
  string verifies (`Scenarios.OmittedOtp`).
- **Resend** sends its provisional 299 reply before it reissues. The reply of
  the reissue can no longer reach the client. The model returns the 299 and
  keeps every state effect of the reissue.
- **Store faults** come in as `storeError` on the handlers where a fault
  leaves the collections unchanged: the three reads, `createUser` and
  `deleteUser`.

Three behaviours of the code worth stating:

- A resend with no session is not an unhandled fault. The null dereference
  is caught, and the reply is 500.
- Nothing checks that a message's user reference resolves. `deleteUser`
  leaves that user's messages in place, and reading them resolves the
  reference to null (`None`).
- The 404 body of `verifyUserMobile` has `status: "Fail"` where every other
  failure has `success: false`.

## Model

| member | source | states |
|---|---|---|
| `UserVerificationModel.NewSession` | models/userVerificationModel.js:3-13 | creation fails exactly when `mobileNumber` is absent or empty, and the error names that path; otherwise the session holds that number, and `mobileOtp` is the supplied OTP or `""` when it is omitted |
| `UserVerificationModel.NewSessionRoundTrip` | models/userVerificationModel.js:5-10 | every valid session is exactly what creating it from its own two fields yields |
| `MessageModel.NewMessage` | models/messageModel.js:4-17 | creation succeeds exactly when the body is present and non-empty and a user reference is given; a failure names each missing path and only those; nothing checks that the user exists |
| `Database.FindSession` | controllers/userController.js:242 | finds the first session in insertion order whose number matches, with no earlier match; None exactly when no session has that number |
| `Database.RemoveAt` | controllers/userController.js:253 | `deleteOne` on a found session removes exactly that one session (as a multiset) and keeps the order of the rest |
| `Database.FindSessionAppend` | controllers/userController.js:192-195 | appending a session never changes which session `findOne` returns for a number that already had one; for a number without one, it returns the new session exactly when the numbers match |
| `Database.RemoveOnlySession` | controllers/userController.js:251-253 | once the only session for a number is deleted, `findOne` finds no session for it |
| `Database.MarkVerified` | controllers/userController.js:256-259 | the holder of the number gets `isVerified = true`; all other users are untouched and the key set is the same; with no holder the user map is unchanged (a silent no-op) |
| `Database.MarkVerifiedTouchesOne` | controllers/userController.js:256-259 | when numbers are unique, the update changes at most one user and numbers stay unique |
| `Database.InsertKeepsUnique` | controllers/userController.js:22-40 | adding a user whose number nobody holds keeps mobile numbers unique |
| `UserController.OtpBodyRoundTrip` | controllers/userController.js:158 | the source never reads a body back; this lemma, with its helper `OtpFromBody`, only shows that every archived OTP message reveals the OTP in clear text |
| `UserController.PhoneNumberInjective` | controllers/userController.js:159 | the SMS recipient `+91` + number determines the number |
| `UserController.OtpMessageValid` | controllers/userController.js:172-177 | an OTP message body always passes the Message schema, so archiving never fails validation |
| `UserController.CreateUser` | controllers/userController.js:17-56 | a number already held gives 400 and leaves users unchanged; a fresh number adds exactly one user with `isVerified = false` under a fresh id and returns 201 with that record; sessions and messages are never touched; a store fault gives 500 with no change; the unique-number invariant is kept |
| `UserController.GetUsers` | controllers/userController.js:61-84 | 404 exactly when there are no users; otherwise 200 with every user; a store fault gives 500; nothing changes |
| `UserController.GetSingleUser` | controllers/userController.js:89-119 | success exactly when the id exists: 200 with that user, otherwise 404; a store fault gives 500; nothing changes |
| `UserController.DeleteUser` | controllers/userController.js:124-153 | an absent id gives 404 and no change; otherwise 200 and exactly that user is removed; sessions and messages (including the user's own) are kept |
| `UserController.SendOtp` | controllers/userController.js:157-183 | the SMS goes to `+91` + number with body `Your mobile verification otp is ` + otp; exactly one message with that body, linked to the route id, is archived exactly when dispatch succeeded; nothing else changes |
| `UserController.MobileOtpHandler` | controllers/userController.js:186-213 | an absent or empty number gives 500, and nothing is stored or sent; otherwise exactly one session with the supplied OTP is appended and the SMS is attempted; on delivery, 200 with the OTP echoed and one message archived; on failure, 500 and the session is not rolled back; users never change |
| `UserController.ResendMobileOtpHandler` | controllers/userController.js:215-237 | no session for the number gives 500 and no change; otherwise the session `findOne` returns is deleted, a new one is appended for the request's number and OTP, the SMS is attempted and archived as in issuance, and the client gets 299 |
| `UserController.VerifyUserMobile` | controllers/userController.js:239-279 | no session gives 404 and no change; a session whose OTP differs from the entered one (exact equality) gives 400 and no change, and the session is kept; a match gives 200, deletes exactly that session and marks the holder of the number verified; messages never change |
| `MessageController.GetMessages` | controllers/messageController.js:3-27 | an empty archive gives 404 "No messages found"; otherwise 200 with every message in order, each user reference resolved to that user's record, or to null when the user no longer exists; a store fault gives 500 with `success` false; nothing changes |
| `Scenarios.IssueThenVerify` | controllers/userController.js:186-279 | issuing for a number with no session and then verifying with the same OTP gives 200, marks the holder verified and leaves no session, so a second verify gives 404 |
| `Scenarios.WrongThenRightOtp` | controllers/userController.js:251-269 | a wrong OTP gives 400, and the right one still verifies afterwards (no attempt limit) |
| `Scenarios.CreateThenGet` | controllers/userController.js:17-119 | a new user reads back with `isVerified = false`, and registering the same number again gives 400 without adding a user |
| `Scenarios.DeleteThenGet` | controllers/userController.js:89-153 | after a delete, reading the user gives 404 and deleting it again gives 404 |
| `Scenarios.EndToEnd` | controllers/userController.js:17-279 | register A B 9999999999, issue OTP "1234", verify "1234": the reply is 200, the user is verified, and the archive holds exactly one message linked to that user |
| `Scenarios.StaleSessionShadows` | controllers/userController.js:192-195 | after two issuances for one number, the newest OTP gets 400 and the oldest gets 200, which leaves the newer session behind |
| `Scenarios.OmittedOtp` | models/userVerificationModel.js:10 | with no OTP, the SMS reads "…otp is undefined", it goes to `+919999999999`, and the empty string verifies |
| `Scenarios.FailedDispatchThenResend` | controllers/userController.js:179-227 | a failed dispatch gives 500, leaves its session orphaned and archives nothing; a resend then returns 299, replaces the orphan with a session for the new OTP, and archives exactly the new OTP message |
| `Scenarios.ResendWithoutSession` | controllers/userController.js:218-235 | a resend with no session gives 500, attempts no SMS, and leaves both sessions and messages empty |

## Left out

- The SMS gateway (client construction, credentials, sender number and the network call) is not modelled. Only the recipient and body of each attempt are modelled, with its outcome as an input.
- Store faults in the issuance, resend and verify handlers are not modelled. A fault between their steps leaves partial state, for example a deleted session whose user was never marked verified.
- SendOtp: a failure to save the archived message after the SMS was delivered is not modelled; the source would reply 500 to an SMS that was actually sent.
- VerifyUserMobile: the 404 body carries `status: "Fail"` instead of a `success` field; the model reports it as `success` false.
- ResendMobileOtpHandler: what happens after the 299 is not modelled beyond the state effects. The reissue's own reply throws "headers already sent" inside `mobileOtpHandler`'s try block, its catch block throws again, and resend's catch block (controllers/userController.js:229-235) throws a third time. So every resend that finds a session ends in an unhandled promise rejection, after all the state effects the model keeps.
- Request fields are strings. Only an absent field is modelled, and only at issuance, where the session schema gives it meaning; elsewhere the query semantics of an `undefined` filter belong to mongoose, which is not part of this model. Values that are not strings are not modelled: a numeric OTP such as 1234 is cast to "1234" when the session is stored, but a numeric `enteredOtp` never equals it under `===` at verify (controllers/userController.js:251), so it gets 400 even when the digits match.
- Concurrent requests for the same number can race. Every request here runs to completion before the next one starts.
- ObjectId format checks, timestamps, logging, environment configuration, the database connection, the HTTP server and route wiring are not modelled.
- The `error` text of 500 replies is not modelled. It is the message of whichever JavaScript error was raised.
- models/userModel.js and utils/generateOtp.js are not part of this model. User is reconstructed from the controller, which applies no validation beyond the duplicate-number check. `generateOtp` is imported but never called.
