/**
  The verification-session schema: a mobile number paired with the OTP issued
  for it. A session carries no user id; it is linked to a user only through
  the mobile number, and nothing makes the mobile number unique among
  sessions.
 */
module UserVerificationModel {
  import opened Documents

  datatype Session = Session(mobileNumber: string, mobileOtp: string)

  /** What every stored session satisfies: it passed the `required` check. */
  predicate ValidSession(s: Session) {
    RequiredString(Some(s.mobileNumber))
  }

  /** The value `mobileOtp` takes when the field is omitted. */
  const DefaultOtp: string := ""

  /**
    `UserVerification.create({ mobileNumber, mobileOtp })`: validation fails
    exactly when `mobileNumber` is absent or empty; an omitted `mobileOtp`
    takes its default.
   */
  function NewSession(mobileNumber: Option<string>, mobileOtp: Option<string>): (r: Result<Session>)
    ensures r.Ok? <==> RequiredString(mobileNumber)
    ensures r.Ok? ==> ValidSession(r.value) && r.value.mobileNumber == mobileNumber.value
    ensures r.Ok? && mobileOtp.Some? ==> r.value.mobileOtp == mobileOtp.value
    ensures r.Ok? && mobileOtp.None? ==> r.value.mobileOtp == DefaultOtp
    ensures r.Err? ==> r.error == ValidationError({"mobileNumber"})
  {
    if !RequiredString(mobileNumber) then
      Err(ValidationError({"mobileNumber"}))
    else
      Ok(Session(mobileNumber.value, match mobileOtp case Some(otp) => otp case None => DefaultOtp))
  }

  /** Every valid session is exactly what creating it from its own fields yields. */
  lemma NewSessionRoundTrip(s: Session)
    requires ValidSession(s)
    ensures NewSession(Some(s.mobileNumber), Some(s.mobileOtp)) == Ok(s)
  {
  }
}
