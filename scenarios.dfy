/**
  Properties of sequences of requests: the OTP lifecycle from issuance to
  verification, and what the first-in-insertion-order `findOne` means when a
  number has more than one session.
 */
module Scenarios {
  import opened Documents
  import opened UserVerificationModel
  import opened MessageModel
  import opened Database
  import opened Http
  import opened UserController
  import opened MessageController

  /**
    Issuing an OTP for a number with no session and then verifying it with
    that OTP succeeds, marks the holder of the number verified and leaves no
    session behind, so a second verification finds nothing.
   */
  method IssueThenVerify(db: Db, mobileNumber: string, otp: string, id: UserId, delivered: bool)
      returns (verified: Reply<()>, again: Reply<()>)
    requires db.Valid()
    requires |mobileNumber| > 0
    requires FindSession(db.sessions, mobileNumber).None?
    modifies db
    ensures db.Valid()
    ensures verified.status == 200 && verified.success
    ensures again.status == 404
    ensures FindSession(db.sessions, mobileNumber).None?
    ensures db.users == MarkVerified(old(db.users), mobileNumber)
    ensures forall u :: u in db.users && db.users[u].mobileNumber == mobileNumber ==> db.users[u].isVerified
  {
    ghost var before := db.sessions;
    var _, _ := MobileOtpHandler(db, Some(mobileNumber), Some(otp), id, delivered);
    FindSessionAppend(before, Session(mobileNumber, otp), mobileNumber);
    assert FindSession(db.sessions, mobileNumber) == Some(|before|);
    verified := VerifyUserMobile(db, mobileNumber, otp);
    RemoveOnlySession(before + [Session(mobileNumber, otp)], |before|, mobileNumber);
    again := VerifyUserMobile(db, mobileNumber, otp);
  }

  /**
    A wrong OTP is refused and changes nothing, and the right OTP still
    verifies afterwards: there is no attempt limit.
   */
  method WrongThenRightOtp(db: Db, mobileNumber: string, wrong: string)
      returns (first: Reply<()>, second: Reply<()>)
    requires db.Valid()
    requires FindSession(db.sessions, mobileNumber).Some?
    requires db.sessions[FindSession(db.sessions, mobileNumber).value].mobileOtp != wrong
    modifies db
    ensures db.Valid()
    ensures first == Reply(400, false, "Incorrect OTP", None)
    ensures second == Reply(200, true, "Mobile verified successfully", None)
    ensures db.users == MarkVerified(old(db.users), mobileNumber)
  {
    first := VerifyUserMobile(db, mobileNumber, wrong);
    var k := FindSession(db.sessions, mobileNumber).value;
    second := VerifyUserMobile(db, mobileNumber, db.sessions[k].mobileOtp);
  }

  /** A new user reads back unverified, and a second registration of the number is refused. */
  method CreateThenGet(db: Db, firstName: string, lastName: string, mobileNumber: string)
      returns (created: Reply<(UserId, User)>, read: Reply<User>, duplicate: Reply<(UserId, User)>)
    requires db.Valid()
    requires !HoldsMobile(db.users, mobileNumber)
    modifies db
    ensures db.Valid()
    ensures created.status == 201 && created.data.Some?
    ensures read == Reply(200, true, "User retrieved successfully", Some(User(firstName, lastName, mobileNumber, false)))
    ensures duplicate.status == 400 && !duplicate.success
    ensures |db.users| == |old(db.users)| + 1
  {
    created := CreateUser(db, firstName, lastName, mobileNumber, false);
    read := GetSingleUser(db, created.data.value.0, false);
    ghost var afterCreate := db.users;
    assert HoldsMobile(db.users, mobileNumber) by {
      assert db.users[created.data.value.0].mobileNumber == mobileNumber;
    }
    duplicate := CreateUser(db, firstName, lastName, mobileNumber, false);
    assert db.users == afterCreate;
  }

  /** Deleting a user makes it unreadable, and deleting it again reports 404. */
  method DeleteThenGet(db: Db, id: UserId) returns (deleted: Reply<()>, read: Reply<User>, again: Reply<()>)
    requires db.Valid()
    requires id in db.users
    modifies db
    ensures db.Valid()
    ensures deleted.status == 200 && read.status == 404 && again.status == 404
    ensures db.sessions == old(db.sessions) && db.messages == old(db.messages)
  {
    deleted := DeleteUser(db, id, false);
    read := GetSingleUser(db, id, false);
    again := DeleteUser(db, id, false);
  }

  /**
    The end-to-end flow: register a user, issue OTP "1234" for them, verify
    it; the user is then verified and the archive holds exactly one message,
    linked to that user.
   */
  method EndToEnd() returns (id: UserId, verified: Reply<()>, user: Reply<User>, archive: Reply<seq<PopulatedMessage>>)
    ensures verified == Reply(200, true, "Mobile verified successfully", None)
    ensures user.data == Some(User("A", "B", "9999999999", true))
    ensures archive.status == 200
    ensures archive.data == Some([PopulatedMessage("Your mobile verification otp is 1234",
                                                   Some((id, User("A", "B", "9999999999", true))))])
  {
    var db := new Db();
    var created := CreateUser(db, "A", "B", "9999999999", false);
    id := created.data.value.0;
    assert db.users == map[id := User("A", "B", "9999999999", false)];
    var _, _ := MobileOtpHandler(db, Some("9999999999"), Some("1234"), id, true);
    assert db.sessions == [Session("9999999999", "1234")];
    assert db.messages == [Message(OtpMessageBody(Some("1234")), id)];
    verified := VerifyUserMobile(db, "9999999999", "1234");
    assert db.users == map[id := User("A", "B", "9999999999", true)];
    user := GetSingleUser(db, id, false);
    archive := GetMessages(db, false);
    assert OtpMessageBody(Some("1234")) == "Your mobile verification otp is 1234";
    var expected := PopulatedMessage("Your mobile verification otp is 1234", Some((id, User("A", "B", "9999999999", true))));
    assert |archive.data.value| == 1 && archive.data.value[0] == expected;
    assert archive.data.value == [expected];
  }

  /**
    Issuing twice for one number keeps both sessions, and `findOne` returns
    the older one: the newest OTP is refused and the first one verifies.
   */
  method StaleSessionShadows() returns (newest: Reply<()>, oldest: Reply<()>, sessionsLeft: seq<Session>)
    ensures newest == Reply(400, false, "Incorrect OTP", None)
    ensures oldest == Reply(200, true, "Mobile verified successfully", None)
    ensures sessionsLeft == [Session("9999999999", "2222")]
  {
    var db := new Db();
    var _, _ := MobileOtpHandler(db, Some("9999999999"), Some("1111"), 0, true);
    var _, _ := MobileOtpHandler(db, Some("9999999999"), Some("2222"), 0, true);
    newest := VerifyUserMobile(db, "9999999999", "2222");
    oldest := VerifyUserMobile(db, "9999999999", "1111");
    sessionsLeft := db.sessions;
  }

  /**
    Issuing without an OTP stores the default empty OTP and sends the text
    "undefined"; the empty string then verifies.
   */
  method OmittedOtp() returns (sent: Option<Sms>, verified: Reply<()>)
    ensures sent == Some(Sms("+919999999999", "Your mobile verification otp is undefined"))
    ensures verified.status == 200
  {
    var db := new Db();
    var _, s := MobileOtpHandler(db, Some("9999999999"), None, 0, true);
    sent := s;
    assert PhoneNumber("9999999999") == "+919999999999";
    assert OtpMessageBody(None) == "Your mobile verification otp is undefined";
    verified := VerifyUserMobile(db, "9999999999", "");
  }

  /**
    A failed dispatch leaves its session behind and archives nothing; a
    resend then replaces that session.
   */
  method FailedDispatchThenResend()
      returns (failed: Reply<()>, orphan: seq<Session>, archivedAfterFail: seq<Message>,
               resent: Reply<()>, sessionsAfterResend: seq<Session>, archivedAfterResend: seq<Message>)
    ensures failed == Reply(500, false, "Failed to send otp", None)
    ensures orphan == [Session("9999999999", "1111")]
    ensures archivedAfterFail == []
    ensures resent == Reply(299, true, "A new otp has been sent to 9999999999", None)
    ensures sessionsAfterResend == [Session("9999999999", "2222")]
    ensures archivedAfterResend == [Message("Your mobile verification otp is 2222", 0)]
  {
    var db := new Db();
    var f, _ := MobileOtpHandler(db, Some("9999999999"), Some("1111"), 0, false);
    failed := f;
    orphan := db.sessions;
    archivedAfterFail := db.messages;
    assert db.sessions == [Session("9999999999", "1111")] && db.messages == [];
    assert FindSession(db.sessions, "9999999999") == Some(0);
    assert RemoveAt(db.sessions, 0) == [];
    var r, _ := ResendMobileOtpHandler(db, "9999999999", Some("2222"), 0, true);
    resent := r;
    assert db.sessions == [Session("9999999999", "2222")];
    sessionsAfterResend := db.sessions;
    archivedAfterResend := db.messages;
    assert OtpMessageBody(Some("2222")) == "Your mobile verification otp is 2222";
  }

  /** A resend with no session for the number fails with 500 instead of crashing, and stores nothing. */
  method ResendWithoutSession() returns (reply: Reply<()>, sms: Option<Sms>, sessions: seq<Session>, archived: seq<Message>)
    ensures reply == Reply(500, false, "Some error occured while resending otp ", None)
    ensures sms == None
    ensures sessions == [] && archived == []
  {
    var db := new Db();
    reply, sms := ResendMobileOtpHandler(db, "9999999999", Some("1234"), 0, true);
    sessions := db.sessions;
    archived := db.messages;
  }
}
