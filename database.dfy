/**
  The three collections the controllers work on, held in one object that the
  handlers update in place: the User collection keyed by id, the
  UserVerification (session) collection in insertion order, and the Message
  collection in insertion order.

  `findOne` on the session collection is not ordered by the source; this
  model fixes it to the first session in insertion order.
 */
module Database {
  import opened Documents
  import opened UserVerificationModel
  import opened MessageModel

  class Db {
    var users: map<UserId, User>
    var sessions: seq<Session>
    var messages: seq<Message>
    /** Source of fresh ids for new users: every id in use is below it. */
    var nextId: UserId

    /**
      The invariant every handler keeps: no two users share a mobile number,
      ids in use are below `nextId`, and every stored session and message
      passed its schema's validation.
     */
    ghost predicate Valid()
      reads this
    {
      && UniqueMobiles(users)
      && (forall id :: id in users ==> id < nextId)
      && (forall i :: 0 <= i < |sessions| ==> ValidSession(sessions[i]))
      && (forall i :: 0 <= i < |messages| ==> ValidMessage(messages[i]))
    }

    constructor ()
      ensures Valid()
      ensures users == map[] && sessions == [] && messages == []
    {
      users := map[];
      sessions := [];
      messages := [];
      nextId := 0;
    }
  }

  /** No two users hold the same mobile number. */
  ghost predicate UniqueMobiles(users: map<UserId, User>) {
    forall a, b :: a in users && b in users && users[a].mobileNumber == users[b].mobileNumber ==> a == b
  }

  /** `User.findOne({ mobileNumber })` finds a user. */
  predicate HoldsMobile(users: map<UserId, User>, mobileNumber: string) {
    exists id :: id in users && users[id].mobileNumber == mobileNumber
  }

  /** Adding a user whose mobile number nobody holds keeps the numbers unique. */
  lemma InsertKeepsUnique(users: map<UserId, User>, id: UserId, u: User)
    requires UniqueMobiles(users)
    requires !HoldsMobile(users, u.mobileNumber)
    ensures UniqueMobiles(users[id := u])
  {
  }

  /**
    `UserVerification.findOne({ mobileNumber })`: the index of the first
    session, in insertion order, for that number; None when there is none.
   */
  function FindSession(sessions: seq<Session>, mobileNumber: string): (r: Option<nat>)
    ensures r.Some? ==> r.value < |sessions| && sessions[r.value].mobileNumber == mobileNumber
    ensures r.Some? ==> forall j :: 0 <= j < r.value ==> sessions[j].mobileNumber != mobileNumber
    ensures r.None? <==> forall j :: 0 <= j < |sessions| ==> sessions[j].mobileNumber != mobileNumber
  {
    if |sessions| == 0 then None
    else if sessions[0].mobileNumber == mobileNumber then Some(0)
    else
      match FindSession(sessions[1..], mobileNumber)
      case None => None
      case Some(i) => Some(i + 1)
  }

  /** `session.deleteOne()`: the sequence without the session at index k, order kept. */
  function RemoveAt(sessions: seq<Session>, k: nat): (r: seq<Session>)
    requires k < |sessions|
    ensures |r| == |sessions| - 1
    ensures forall j :: 0 <= j < k ==> r[j] == sessions[j]
    ensures forall j :: k <= j < |r| ==> r[j] == sessions[j + 1]
    ensures multiset(r) + multiset{sessions[k]} == multiset(sessions)
  {
    assert sessions == sessions[..k] + [sessions[k]] + sessions[k + 1..];
    sessions[..k] + sessions[k + 1..]
  }

  /**
    Appending a session never changes which session `findOne` returns for a
    number that already had one: an older session shadows every newer one.
   */
  lemma FindSessionAppend(sessions: seq<Session>, s: Session, mobileNumber: string)
    ensures FindSession(sessions, mobileNumber).Some? ==>
      FindSession(sessions + [s], mobileNumber) == FindSession(sessions, mobileNumber)
    ensures FindSession(sessions, mobileNumber).None? ==>
      FindSession(sessions + [s], mobileNumber) == if s.mobileNumber == mobileNumber then Some(|sessions|) else None
  {
    var t := sessions + [s];
    assert forall j :: 0 <= j < |sessions| ==> t[j] == sessions[j];
    assert t[|sessions|] == s;
  }

  /**
    Removing the first session for a number that has no later session leaves
    no session for that number.
   */
  lemma RemoveOnlySession(sessions: seq<Session>, k: nat, mobileNumber: string)
    requires FindSession(sessions, mobileNumber) == Some(k)
    requires forall j :: k < j < |sessions| ==> sessions[j].mobileNumber != mobileNumber
    ensures FindSession(RemoveAt(sessions, k), mobileNumber).None?
  {
  }

  /**
    `User.findOneAndUpdate({ mobileNumber }, { $set: { isVerified: true } })`:
    the user holding the number is marked verified; no user is added or
    removed and every other user is untouched. Under UniqueMobiles at most
    one user holds the number, so updating every holder is updating the one
    `findOneAndUpdate` finds; with no holder nothing changes.
   */
  function MarkVerified(users: map<UserId, User>, mobileNumber: string): (r: map<UserId, User>)
    ensures r.Keys == users.Keys
    ensures forall id :: id in users && users[id].mobileNumber != mobileNumber ==> r[id] == users[id]
    ensures forall id :: id in users && users[id].mobileNumber == mobileNumber ==>
      r[id].isVerified && r[id] == users[id].(isVerified := true)
    ensures !HoldsMobile(users, mobileNumber) ==> r == users
  {
    map id | id in users :: if users[id].mobileNumber == mobileNumber then users[id].(isVerified := true) else users[id]
  }

  /** Marking a number verified touches at most one user and keeps the numbers unique. */
  lemma MarkVerifiedTouchesOne(users: map<UserId, User>, mobileNumber: string)
    requires UniqueMobiles(users)
    ensures UniqueMobiles(MarkVerified(users, mobileNumber))
    ensures forall a, b ::
      (a in users && b in users && MarkVerified(users, mobileNumber)[a] != users[a] &&
       MarkVerified(users, mobileNumber)[b] != users[b]) ==> a == b
  {
  }
}
