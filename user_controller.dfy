/**
  The user handlers and the OTP verification lifecycle. Each state-changing
  handler is a method on the shared `Db`; the two pure reads are functions.

  The SMS gateway is outside the model: a dispatch attempt is returned as an
  `Sms` value and its outcome comes in as the `delivered` parameter. Store
  faults come in as `storeError` on the handlers whose fault leaves the stores
  unchanged.
 */
module UserController {
  import opened Documents
  import opened UserVerificationModel
  import opened MessageModel
  import opened Database
  import opened Http

  /** One SMS dispatch attempt: the recipient's phone number and the body. */
  datatype Sms = Sms(to: string, body: string)

  const OtpBodyPrefix: string := "Your mobile verification otp is "
  const CountryCode: string := "+91"

  /** The SMS body, which is also the archived message body. */
  function OtpMessageBody(otp: Option<string>): string {
    OtpBodyPrefix + Render(otp)
  }

  /** The recipient: the Indian country code put in front of the number, unconditionally. */
  function PhoneNumber(mobileNumber: string): string {
    CountryCode + mobileNumber
  }

  /** Reads the OTP back out of an archived message body; None if the body is not an OTP message. */
  function OtpFromBody(body: string): (r: Option<string>)
    ensures r.Some? ==> body == OtpBodyPrefix + r.value
  {
    if |body| >= |OtpBodyPrefix| && body[..|OtpBodyPrefix|] == OtpBodyPrefix then
      Some(body[|OtpBodyPrefix|..])
    else
      None
  }

  /** Every archived OTP message reveals the OTP it carried. */
  lemma OtpBodyRoundTrip(otp: string)
    ensures OtpFromBody(OtpMessageBody(Some(otp))) == Some(otp)
  {
  }

  /** The local number is recovered from the phone number the SMS is addressed to. */
  lemma PhoneNumberInjective(a: string, b: string)
    ensures PhoneNumber(a) == PhoneNumber(b) ==> a == b
  {
    if PhoneNumber(a) == PhoneNumber(b) {
      assert a == PhoneNumber(a)[|CountryCode|..];
      assert b == PhoneNumber(b)[|CountryCode|..];
    }
  }

  /** Every OTP message body passes the Message schema's `required` check. */
  lemma OtpMessageValid(otp: Option<string>, userId: UserId)
    ensures NewMessage(Some(OtpMessageBody(otp)), Some(userId)) == Ok(Message(OtpMessageBody(otp), userId))
  {
  }

  /** POST /api/users */
  method CreateUser(db: Db, firstName: string, lastName: string, mobileNumber: string, storeError: bool)
      returns (reply: Reply<(UserId, User)>)
    requires db.Valid()
    modifies db
    ensures db.Valid()
    ensures db.sessions == old(db.sessions) && db.messages == old(db.messages)
    ensures storeError ==>
      && reply == Reply(500, false, "Failed to create user", None)
      && db.users == old(db.users) && db.nextId == old(db.nextId)
    ensures !storeError && old(HoldsMobile(db.users, mobileNumber)) ==>
      && reply == Reply(400, false, "User with this mobile number already exists", None)
      && db.users == old(db.users) && db.nextId == old(db.nextId)
    ensures !storeError && !old(HoldsMobile(db.users, mobileNumber)) ==>
      var created := User(firstName, lastName, mobileNumber, false);
      && old(db.nextId) !in old(db.users)
      && db.users == old(db.users)[old(db.nextId) := created]
      && db.nextId == old(db.nextId) + 1
      && reply == Reply(201, true, "User created successfully", Some((old(db.nextId), created)))
  {
    if storeError {
      return Reply(500, false, "Failed to create user", None);
    }
    if HoldsMobile(db.users, mobileNumber) {
      return Reply(400, false, "User with this mobile number already exists", None);
    }
    var id := db.nextId;
    var saved := User(firstName, lastName, mobileNumber, false);
    InsertKeepsUnique(db.users, id, saved);
    db.users := db.users[id := saved];
    db.nextId := db.nextId + 1;
    reply := Reply(201, true, "User created successfully", Some((id, saved)));
  }

  /** GET /api/users: read-only. */
  function GetUsers(db: Db, storeError: bool): (r: Reply<map<UserId, User>>)
    reads db
    ensures storeError ==> r == Reply(500, false, "Failed to retrieve users", None)
    ensures !storeError ==> (r.status == 404 <==> db.users == map[])
    ensures !storeError && db.users == map[] ==> r == Reply(404, false, "No users found", None)
    ensures !storeError && db.users != map[] ==> r == Reply(200, true, "Users retrieved successfully", Some(db.users))
  {
    if storeError then Reply(500, false, "Failed to retrieve users", None)
    else if db.users == map[] then Reply(404, false, "No users found", None)
    else Reply(200, true, "Users retrieved successfully", Some(db.users))
  }

  /** GET /api/users/:id: read-only. */
  function GetSingleUser(db: Db, id: UserId, storeError: bool): (r: Reply<User>)
    reads db
    ensures storeError ==> r == Reply(500, false, "Failed to retrieve user", None)
    ensures !storeError ==> (r.success <==> id in db.users)
    ensures !storeError && id !in db.users ==> r == Reply(404, false, "User not found", None)
    ensures !storeError && id in db.users ==> r == Reply(200, true, "User retrieved successfully", Some(db.users[id]))
  {
    if storeError then Reply(500, false, "Failed to retrieve user", None)
    else if id !in db.users then Reply(404, false, "User not found", None)
    else Reply(200, true, "User retrieved successfully", Some(db.users[id]))
  }

  /** DELETE /api/users/:id: archived messages that reference the user are kept. */
  method DeleteUser(db: Db, id: UserId, storeError: bool) returns (reply: Reply<()>)
    requires db.Valid()
    modifies db
    ensures db.Valid()
    ensures db.sessions == old(db.sessions) && db.messages == old(db.messages) && db.nextId == old(db.nextId)
    ensures storeError ==> reply == Reply(500, false, "Failed to delete user", None) && db.users == old(db.users)
    ensures !storeError && id !in old(db.users) ==>
      reply == Reply(404, false, "User not found", None) && db.users == old(db.users)
    ensures !storeError && id in old(db.users) ==>
      reply == Reply(200, true, "User deleted successfully", None) && db.users == old(db.users) - {id}
  {
    if storeError {
      return Reply(500, false, "Failed to delete user", None);
    }
    if id !in db.users {
      return Reply(404, false, "User not found", None);
    }
    db.users := db.users - {id};
    reply := Reply(200, true, "User deleted successfully", None);
  }

  /**
    `sendOtp`: attempt the SMS, and archive the body as a message linked to
    `userId` only when the attempt succeeded. Reports whether it succeeded.
   */
  method SendOtp(db: Db, mobileNumber: string, otp: Option<string>, userId: UserId, delivered: bool)
      returns (ok: bool, sms: Sms)
    requires db.Valid()
    modifies db
    ensures db.Valid()
    ensures db.users == old(db.users) && db.sessions == old(db.sessions) && db.nextId == old(db.nextId)
    ensures sms == Sms(PhoneNumber(mobileNumber), OtpMessageBody(otp))
    ensures ok == delivered
    ensures delivered ==> db.messages == old(db.messages) + [Message(OtpMessageBody(otp), userId)]
    ensures !delivered ==> db.messages == old(db.messages)
  {
    var body := OtpMessageBody(otp);
    sms := Sms(PhoneNumber(mobileNumber), body);
    if !delivered {
      return false, sms;
    }
    var archived := NewMessage(Some(body), Some(userId));
    OtpMessageValid(otp, userId);
    db.messages := db.messages + [archived.value];
    ok := true;
  }

  /** The reply of a successful issuance, which echoes the OTP. */
  function IssuedReply(mobileNumber: string, otp: Option<string>): Reply<()> {
    Reply(200, true, "added credentials in user verification , and otp " + Render(otp) + " sent to +91 " + mobileNumber, None)
  }

  const SendFailedReply: Reply<()> := Reply(500, false, "Failed to send otp", None)

  /**
    POST /api/users/:id/send-otp (`mobileOtpHandler`): store a session for
    the number with the supplied OTP, then dispatch and archive. A failed
    dispatch still leaves the new session in place.
   */
  method MobileOtpHandler(db: Db, mobileNumber: Option<string>, otp: Option<string>, id: UserId, delivered: bool)
      returns (reply: Reply<()>, sms: Option<Sms>)
    requires db.Valid()
    modifies db
    ensures db.Valid()
    ensures db.users == old(db.users) && db.nextId == old(db.nextId)
    ensures !RequiredString(mobileNumber) ==>
      && reply == SendFailedReply && sms == None
      && db.sessions == old(db.sessions) && db.messages == old(db.messages)
    ensures RequiredString(mobileNumber) ==>
      && db.sessions == old(db.sessions) + [NewSession(mobileNumber, otp).value]
      && sms == Some(Sms(PhoneNumber(mobileNumber.value), OtpMessageBody(otp)))
    ensures RequiredString(mobileNumber) && delivered ==>
      && reply == IssuedReply(mobileNumber.value, otp)
      && db.messages == old(db.messages) + [Message(OtpMessageBody(otp), id)]
    ensures RequiredString(mobileNumber) && !delivered ==>
      reply == SendFailedReply && db.messages == old(db.messages)
  {
    var created := NewSession(mobileNumber, otp);
    if created.Err? {
      return SendFailedReply, None;
    }
    db.sessions := db.sessions + [created.value];
    var ok, attempt := SendOtp(db, mobileNumber.value, otp, id, delivered);
    sms := Some(attempt);
    if ok {
      reply := IssuedReply(mobileNumber.value, otp);
    } else {
      reply := SendFailedReply;
    }
  }

  /**
    POST /api/users/:id/resend-otp: delete the session `findOne` returns and
    issue again with the request's number and OTP. With no session the null
    dereference is caught and nothing changes. Otherwise the client receives
    the provisional 299 reply, whatever the reissue's outcome.
   */
  method ResendMobileOtpHandler(db: Db, mobileNumber: string, otp: Option<string>, id: UserId, delivered: bool)
      returns (reply: Reply<()>, sms: Option<Sms>)
    requires db.Valid()
    modifies db
    ensures db.Valid()
    ensures db.users == old(db.users) && db.nextId == old(db.nextId)
    ensures FindSession(old(db.sessions), mobileNumber).None? ==>
      && reply == Reply(500, false, "Some error occured while resending otp ", None) && sms == None
      && db.sessions == old(db.sessions) && db.messages == old(db.messages)
    ensures FindSession(old(db.sessions), mobileNumber).Some? ==>
      var k := FindSession(old(db.sessions), mobileNumber).value;
      && reply == Reply(299, true, "A new otp has been sent to " + mobileNumber, None)
      && db.sessions == RemoveAt(old(db.sessions), k) + [NewSession(Some(mobileNumber), otp).value]
      && sms == Some(Sms(PhoneNumber(mobileNumber), OtpMessageBody(otp)))
      && db.messages == if delivered then old(db.messages) + [Message(OtpMessageBody(otp), id)] else old(db.messages)
  {
    var found := FindSession(db.sessions, mobileNumber);
    if found.None? {
      return Reply(500, false, "Some error occured while resending otp ", None), None;
    }
    var k := found.value;
    assert ValidSession(db.sessions[k]);
    db.sessions := RemoveAt(db.sessions, k);
    reply := Reply(299, true, "A new otp has been sent to " + mobileNumber, None);
    // The handler's own reply cannot reach the client: the 299 was already sent.
    var _, attempt := MobileOtpHandler(db, Some(mobileNumber), otp, id, delivered);
    sms := attempt;
  }

  /**
    POST /api/users/:id/verify-otp: compare the OTP of the session `findOne`
    returns with the entered one by exact string equality. On a match the
    session is deleted and the user holding the number is marked verified; on
    a mismatch or a missing session nothing changes.
   */
  method VerifyUserMobile(db: Db, mobileNumber: string, enteredOtp: string) returns (reply: Reply<()>)
    requires db.Valid()
    modifies db
    ensures db.Valid()
    ensures db.messages == old(db.messages) && db.nextId == old(db.nextId)
    ensures FindSession(old(db.sessions), mobileNumber).None? ==>
      && reply == Reply(404, false, "User verification record not found", None)
      && db.sessions == old(db.sessions) && db.users == old(db.users)
    ensures FindSession(old(db.sessions), mobileNumber).Some? ==>
      var k := FindSession(old(db.sessions), mobileNumber).value;
      old(db.sessions)[k].mobileOtp != enteredOtp ==>
        && reply == Reply(400, false, "Incorrect OTP", None)
        && db.sessions == old(db.sessions) && db.users == old(db.users)
    ensures FindSession(old(db.sessions), mobileNumber).Some? ==>
      var k := FindSession(old(db.sessions), mobileNumber).value;
      old(db.sessions)[k].mobileOtp == enteredOtp ==>
        && reply == Reply(200, true, "Mobile verified successfully", None)
        && db.sessions == RemoveAt(old(db.sessions), k)
        && db.users == MarkVerified(old(db.users), mobileNumber)
  {
    var found := FindSession(db.sessions, mobileNumber);
    if found.None? {
      return Reply(404, false, "User verification record not found", None);
    }
    var k := found.value;
    if db.sessions[k].mobileOtp == enteredOtp {
      db.sessions := RemoveAt(db.sessions, k);
      MarkVerifiedTouchesOne(db.users, mobileNumber);
      db.users := MarkVerified(db.users, mobileNumber);
      reply := Reply(200, true, "Mobile verified successfully", None);
    } else {
      reply := Reply(400, false, "Incorrect OTP", None);
    }
  }
}
