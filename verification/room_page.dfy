/** The chat room page: how a pushed `newMessage` event is folded into the
    cached result of the getRoom query, and the small derivations the page
    makes from that cached room (which edit modal is open, the id sent with
    a delete request, whose profile is shown). */
module RoomPage {
  import opened Common
  import JsParseInt

  datatype User = User(id: string, fullName: string)

  datatype Message = Message(id: string, text: string, sender: User, time: string)

  /** The cached `room` object: the two fields the getRoom query selects
      and the `__typename` the cache adds. An entry of `messages` is None
      where a push delivered a null `newMessage`, which is stored as it
      came. */
  datatype Room = Room(messages: seq<Option<Message>>, users: seq<User>, typename: string)

  /** The cached result of the getRoom query: its `room` entry (None for a
      null room) and every other top-level entry, kept opaque. */
  datatype CacheState = CacheState(room: Option<Room>, rest: map<string, string>)

  /** The `subscriptionData` handed to `updateQuery`; `data` is None when
      the push carried no data. */
  datatype SubscriptionData = SubscriptionData(data: Option<NewMessage>)

  /** `subscriptionData.data`: its `newMessage` field is None when the
      server sent null for it (a failing resolver does). */
  datatype NewMessage = NewMessage(newMessage: Option<Message>)

  /** What `updateQuery` does: return a new cache value, or throw the
      TypeError raised by reading `messages` of a null room. */
  datatype Update = Updated(state: CacheState) | TypeError

  /** The `updateQuery` reducer: without data the previous value is
      returned as it is; otherwise the room is rebuilt with the pushed
      message appended at the tail, the users and `__typename` carried over,
      and every other top-level entry left alone. Nothing checks the id of
      the pushed message nor the room it was posted in. */
  function UpdateQuery(prev: CacheState, event: SubscriptionData): (r: Update)
    ensures event.data.None? ==> r == Updated(prev)
    ensures event.data.Some? && prev.room.None? ==> r == TypeError
    ensures event.data.Some? && prev.room.Some? ==>
      var before := prev.room.value;
      && r.Updated? && r.state.rest == prev.rest && r.state.room.Some?
      && var after := r.state.room.value;
      && |after.messages| == |before.messages| + 1
      && after.messages[..|before.messages|] == before.messages
      && after.messages[|before.messages|] == event.data.value.newMessage
      && after.users == before.users
      && after.typename == before.typename
  {
    match event.data
    case None => Updated(prev)
    case Some(payload) =>
      match prev.room
      case None => TypeError
      case Some(room) =>
        Updated(CacheState(Some(Room(room.messages + [payload.newMessage], room.users, room.typename)), prev.rest))
  }

  /** The messages carried by a sequence of pushes, in receipt order:
      one entry per push with data (null messages included), none for a
      push without data. */
  function Delivered(events: seq<SubscriptionData>): (ms: seq<Option<Message>>)
    ensures |ms| <= |events|
    ensures (forall i :: 0 <= i < |events| ==> events[i].data.Some?) ==> |ms| == |events|
    ensures (forall i :: 0 <= i < |events| ==> events[i].data.None?) ==> ms == []
  {
    if events == [] then []
    else
      var last := events[|events| - 1];
      Delivered(events[..|events| - 1]) + (if last.data.Some? then [last.data.value.newMessage] else [])
  }

  /** The cache after `updateQuery` has run once per push, in receipt
      order, starting from a loaded (non-null) room: the pushed messages
      follow the previous ones in the order received, nothing is dropped
      or merged, and users, `__typename` and the other entries stay. */
  function ApplyAll(prev: CacheState, events: seq<SubscriptionData>): (r: CacheState)
    requires prev.room.Some?
    ensures r.rest == prev.rest
    ensures r.room == Some(Room(prev.room.value.messages + Delivered(events), prev.room.value.users, prev.room.value.typename))
  {
    if events == [] then
      assert prev.room.value.messages + Delivered(events) == prev.room.value.messages;
      prev
    else
      var earlier := events[..|events| - 1];
      var last := events[|events| - 1];
      var before := ApplyAll(prev, earlier);
      assert last.data.None? ==> Delivered(events) == Delivered(earlier);
      assert last.data.Some? ==>
        prev.room.value.messages + Delivered(events)
        == (prev.room.value.messages + Delivered(earlier)) + [last.data.value.newMessage];
      UpdateQuery(before, last).state
  }

  function HasId(id: string): Option<Message> -> bool {
    (m: Option<Message>) => m.Some? && m.value.id == id
  }

  /** Number of cached messages whose id is `id`. */
  function CountId(messages: seq<Option<Message>>, id: string): nat {
    CountWhere(messages, HasId(id))
  }

  lemma DeliveredTwice(event: SubscriptionData)
    requires event.data.Some?
    ensures Delivered([event, event]) == [event.data.value.newMessage, event.data.value.newMessage]
  {
    assert [event, event][..1] == [event];
    assert [event][..0] == [];
  }

  /** There is no de-duplication: the same push received twice leaves two
      more entries in the room, and two more with its id when the pushed
      message is not null. */
  lemma DuplicatePushKeptTwice(prev: CacheState, event: SubscriptionData)
    requires prev.room.Some? && event.data.Some?
    ensures |ApplyAll(prev, [event, event]).room.value.messages| == |prev.room.value.messages| + 2
    ensures var pushed := event.data.value.newMessage;
      pushed.Some? ==>
      CountId(ApplyAll(prev, [event, event]).room.value.messages, pushed.value.id) == CountId(prev.room.value.messages, pushed.value.id) + 2
  {
    var m := event.data.value.newMessage;
    var messages := prev.room.value.messages;
    DeliveredTwice(event);
    var after := ApplyAll(prev, [event, event]).room.value.messages;
    assert after == messages + [m, m];
    if m.Some? {
      var p := HasId(m.value.id);
      CountWhereAppend(messages, [m, m], p);
      assert CountWhere([m, m], p) == 2 by {
        CountWhereAppend([m], [m], p);
        assert [m] + [m] == [m, m];
        assert [m][..0] == [];
      }
    }
  }

  /** `i.id === modal`: a message's edit modal is open exactly when the
      modal state holds that message's id; the state is undefined until an
      Edit button is clicked. */
  function IsModalActive(m: Message, modal: Option<string>): (active: bool)
    ensures modal.None? ==> !active
  {
    modal == Some(m.id)
  }

  /** Clicking Edit on a message stores its id as the modal state, which
      opens that message's modal. */
  function ClickEdit(m: Message): (modal: Option<string>)
    ensures IsModalActive(m, modal)
  {
    Some(m.id)
  }

  /** After Edit is clicked on message `k`, the modals that are open are
      exactly those of the messages sharing its id (so with a duplicated
      push, both copies open); before any click, none is open. */
  lemma EditOpensModalsOfSameId(messages: seq<Message>, k: nat)
    requires k < |messages|
    ensures IsModalActive(messages[k], ClickEdit(messages[k]))
    ensures forall i :: 0 <= i < |messages| ==>
      (IsModalActive(messages[i], ClickEdit(messages[k])) <==> messages[i].id == messages[k].id)
    ensures forall i :: 0 <= i < |messages| ==> !IsModalActive(messages[i], None)
  {
  }

  /** The variables of the delete request. For an id that is not numeric
      they hold NaN, which the JSON encoding of the variables sends as
      null. */
  datatype DeleteVariables = DeleteVariables(messageId: JsParseInt.Parsed)

  /** `{ messageId: parseInt(i.id) }`: a number is sent only for an id
      holding a decimal digit, and a negative one only for an id whose
      first non-blank character is a minus sign. */
  function DeleteRequest(m: Message): (r: DeleteVariables)
    ensures r.messageId.Num? ==> exists c :: c in m.id && '0' <= c <= '9'
    ensures r.messageId.Num? && r.messageId.value < 0 ==> JsParseInt.StartsWithMinus(m.id)
  {
    JsParseInt.NumberNeedsDigit(m.id);
    DeleteVariables(JsParseInt.ParseInt(m.id))
  }

  /** For the decimal ids the server hands out, the delete request carries
      the integer the id encodes. */
  lemma DeleteRequestOfDecimalId(m: Message, n: nat)
    requires m.id == JsParseInt.DecimalString(n)
    ensures DeleteRequest(m).messageId == JsParseInt.Num(n)
  {
    JsParseInt.ParseDecimal(n, []);
    assert JsParseInt.DecimalString(n) + [] == JsParseInt.DecimalString(n);
  }

  /** The profile panel shows `users[1]`, the second participant; with
      fewer than two users it receives undefined. */
  function Counterpart(room: Room): (u: Option<User>)
    ensures u.Some? <==> |room.users| >= 2
    ensures u.Some? ==> u.value == room.users[1]
  {
    if |room.users| >= 2 then Some(room.users[1]) else None
  }

  /** Pushed messages never change whose profile is shown. */
  lemma CounterpartStable(prev: CacheState, events: seq<SubscriptionData>)
    requires prev.room.Some?
    ensures Counterpart(ApplyAll(prev, events).room.value) == Counterpart(prev.room.value)
  {
  }
}
