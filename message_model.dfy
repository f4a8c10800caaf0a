/**
  The archived-message schema: a message body and a reference to the User it
  was sent for. The reference is only an identifier; the schema does not
  check that such a user exists, and it is resolved only when messages are
  read.
 */
module MessageModel {
  import opened Documents

  datatype Message = Message(message: string, user: UserId)

  /** What every stored message satisfies: its body passed the `required` check. */
  predicate ValidMessage(m: Message) {
    RequiredString(Some(m.message))
  }

  /** The schema paths whose `required` check fails. */
  function MissingPaths(message: Option<string>, user: Option<UserId>): set<string> {
    (if RequiredString(message) then {} else {"message"}) + (if user.Some? then {} else {"user"})
  }

  /**
    `new Message({ message, user }).save()`: validation fails exactly when the
    body is absent or empty or the user reference is absent, and then names
    every failing path.
   */
  function NewMessage(message: Option<string>, user: Option<UserId>): (r: Result<Message>)
    ensures r.Ok? <==> RequiredString(message) && user.Some?
    ensures r.Ok? ==> ValidMessage(r.value) && r.value == Message(message.value, user.value)
    ensures r.Err? ==> ("message" in r.error.paths <==> !RequiredString(message))
    ensures r.Err? ==> ("user" in r.error.paths <==> user.None?)
    ensures r.Err? ==> r.error.paths <= {"message", "user"}
  {
    if RequiredString(message) && user.Some? then
      Ok(Message(message.value, user.value))
    else
      Err(ValidationError(MissingPaths(message, user)))
  }
}
