/** The dashboard page: the list of people the current user can start a
    room with, and the createRoom request issued when one is clicked. */
module DashboardPage {
  import opened Common

  datatype UserSummary = UserSummary(id: string, fullName: string)

  /** The entries the user list renders: `users.map` returns an item for
      every user whose id differs (`!==`) from the current user's, and
      `null`, which renders nothing, for the others. */
  function Recipients(users: seq<UserSummary>, meId: string): (r: seq<UserSummary>)
    ensures |r| <= |users|
    ensures forall u :: u in r ==> u in users && u.id != meId
  {
    if users == [] then []
    else
      var last := users[|users| - 1];
      Recipients(users[..|users| - 1], meId) + (if last.id != meId then [last] else [])
  }

  /** The positions, in ascending order, of the users that are not the
      current user. */
  function KeptIndices(users: seq<UserSummary>, meId: string): (idx: seq<nat>)
    ensures forall k :: 0 <= k < |idx| ==> idx[k] < |users| && users[idx[k]].id != meId
    ensures forall k, l :: 0 <= k < l < |idx| ==> idx[k] < idx[l]
    ensures forall i :: 0 <= i < |users| && users[i].id != meId ==> i in idx
  {
    if users == [] then []
    else
      var n := |users| - 1;
      KeptIndices(users[..n], meId) + (if users[n].id != meId then [n] else [])
  }

  /** The rendered list is the user list at exactly the kept positions, in
      their original order. */
  lemma {:induction false} RecipientsInOrder(users: seq<UserSummary>, meId: string)
    ensures |Recipients(users, meId)| == |KeptIndices(users, meId)|
    ensures forall k :: 0 <= k < |KeptIndices(users, meId)| ==>
              Recipients(users, meId)[k] == users[KeptIndices(users, meId)[k]]
  {
    if users != [] {
      var n := |users| - 1;
      var earlier := users[..n];
      RecipientsInOrder(earlier, meId);
      var recipients, idx := Recipients(earlier, meId), KeptIndices(earlier, meId);
      var kept := users[n].id != meId;
      var tail := if kept then [users[n]] else [];
      var tailIdx := if kept then [n] else [];
      assert Recipients(users, meId) == recipients + tail;
      assert KeptIndices(users, meId) == idx + tailIdx;
      forall k | 0 <= k < |idx| + |tailIdx|
        ensures (recipients + tail)[k] == users[(idx + tailIdx)[k]]
      {
        if k < |idx| {
          assert earlier[idx[k]] == users[idx[k]];
        }
      }
    }
  }

  /** A user is listed exactly when it is in the user list and is not the
      current user. */
  lemma RecipientsMembers(users: seq<UserSummary>, meId: string, u: UserSummary)
    ensures u in Recipients(users, meId) <==> u in users && u.id != meId
  {
    RecipientsInOrder(users, meId);
    var r, idx := Recipients(users, meId), KeptIndices(users, meId);
    if u in r {
      var k :| 0 <= k < |r| && r[k] == u;
      assert users[idx[k]] == u;
    }
    if u in users && u.id != meId {
      var i :| 0 <= i < |users| && users[i] == u;
      var k :| 0 <= k < |idx| && idx[k] == i;
      assert r[k] == u;
    }
  }

  /** The variables of the createRoom mutation. */
  datatype CreateRoomVariables = CreateRoomVariables(users: seq<string>)

  /** `createRoom(recipient)`: the pair of the current user and the
      recipient, current user first. */
  function CreateRoomRequest(meId: string, recipient: string): (r: CreateRoomVariables)
    ensures |r.users| == 2 && r.users[0] == meId && r.users[1] == recipient
  {
    CreateRoomVariables([meId, recipient])
  }

  /** Clicking the `k`-th rendered entry asks for a room with that user,
      who is never the current user. */
  function ClickRecipient(users: seq<UserSummary>, meId: string, k: nat): (r: CreateRoomVariables)
    requires k < |Recipients(users, meId)|
    ensures |r.users| == 2 && r.users[0] == meId && r.users[1] != meId
    ensures r.users[1] == Recipients(users, meId)[k].id
    ensures exists u :: u in users && u.id == r.users[1]
  {
    var recipient := Recipients(users, meId)[k];
    RecipientsMembers(users, meId, recipient);
    CreateRoomRequest(meId, recipient.id)
  }

  /** The `error` of a created room. The createRoom document is not part
      of this model; the error is assumed to be an object carrying its
      `__typename`, as the `error` of the app's other mutations is, so when
      present it is truthy, whatever it holds. */
  datatype RoomError = RoomError(typename: string)

  /** `response.data.createRoom.room`: the new room's id and its error
      object (None for a null or missing `error`); the room itself is None
      when null. */
  datatype CreatedRoom = CreatedRoom(id: string, error: Option<RoomError>)

  datatype CreateRoomResult = CreateRoomResult(room: Option<CreatedRoom>)

  /** The callback's observable effects: a `history.push` or a `console.log`. */
  datatype Effect = Navigate(path: string) | Log(error: RoomError)

  const DashboardPrefix: string := "dashboard/"

  /** The `.then` callback of createRoom: `!room.error` holds exactly when
      there is no error object, since an object is never falsy; then the
      page navigates to the new room, otherwise it only logs the error. A
      null room makes reading `error` throw, which rejects the promise. */
  function OnCreateRoomResult(result: CreateRoomResult): (r: (seq<Effect>, Completion))
    ensures result.room.None? ==> r == ([], Rejected)
    ensures result.room.Some? ==> r.1 == Resolved && |r.0| == 1
    ensures result.room.Some? && result.room.value.error.None? ==>
      r.0[0].Navigate? && |r.0[0].path| >= |DashboardPrefix|
      && r.0[0].path[..|DashboardPrefix|] == DashboardPrefix
      && r.0[0].path[|DashboardPrefix|..] == result.room.value.id
    ensures result.room.Some? && result.room.value.error.Some? ==>
      r.0 == [Log(result.room.value.error.value)]
  {
    match result.room
    case None => ([], Rejected)
    case Some(room) =>
      match room.error
      case None => ([Navigate(DashboardPrefix + room.id)], Resolved)
      case Some(e) => ([Log(e)], Resolved)
  }
}
