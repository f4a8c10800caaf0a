/**
  GET /api/messages: every archived message with its user reference resolved
  to the referenced user's record (mongoose `populate`). A reference to a
  user that no longer exists resolves to null.
 */
module MessageController {
  import opened Documents
  import opened MessageModel
  import opened Database
  import opened Http

  /** A message as returned to the client: the body and the resolved user, if any. */
  datatype PopulatedMessage = PopulatedMessage(message: string, user: Option<(UserId, User)>)

  function Populate(users: map<UserId, User>, m: Message): PopulatedMessage {
    PopulatedMessage(m.message, if m.user in users then Some((m.user, users[m.user])) else None)
  }

  /** The read-only query: no store changes, whatever the outcome. */
  function GetMessages(db: Db, storeError: bool): (r: Reply<seq<PopulatedMessage>>)
    reads db
    ensures storeError ==> r == Reply(500, false, "Failed to retrieve messages", None)
    ensures !storeError && db.messages == [] ==> r == Reply(404, false, "No messages found", None)
    ensures !storeError && db.messages != [] ==>
      && r.status == 200 && r.success && r.message == "Messages retrieved successfully"
      && r.data.Some? && |r.data.value| == |db.messages|
    ensures !storeError && r.data.Some? ==> forall i :: 0 <= i < |r.data.value| ==>
      && r.data.value[i].message == db.messages[i].message
      && (r.data.value[i].user.Some? <==> db.messages[i].user in db.users)
      && (r.data.value[i].user.Some? ==> r.data.value[i].user.value == (db.messages[i].user, db.users[db.messages[i].user]))
  {
    if storeError then
      Reply(500, false, "Failed to retrieve messages", None)
    else if |db.messages| == 0 then
      Reply(404, false, "No messages found", None)
    else
      var msgs := db.messages;
      var users := db.users;
      Reply(200, true, "Messages retrieved successfully",
            Some(seq(|msgs|, i requires 0 <= i < |msgs| => Populate(users, msgs[i]))))
  }
}
