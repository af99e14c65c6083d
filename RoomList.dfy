/**
 * The chat-room preview list of the `useChatRooms` hook, as values: the
 * comparator that orders rooms newest first, the stable sort the hook applies
 * after every change, and the three list transforms (`updateChatRoom`,
 * `addChatRoom` and the filter applied to the fetched rooms), together with
 * the decoding of the two transport events that feed them.
 */
module RoomList {
  import opened Wrappers

  /** The summary of a room's most recent message. `createdAt` is the parsed
      `created_at` time; None stands for a missing or empty (falsy) one. */
  datatype LastMessage = LastMessage(message: string, createdAt: Option<int>, senderId: string)

  /** A room of the preview list. An empty `id` stands for a missing or falsy
      `chat_room_id`. */
  datatype Room = Room(id: string, user1: string, user2: string, lastMessage: Option<LastMessage>)

  /** The argument of `updateChatRoom`. */
  datatype MessageUpdate = MessageUpdate(roomId: string, message: string, createdAt: Option<int>, senderId: string)

  /** The time the comparator sorts by: epoch 0 when the room has no last
      message or the last message has no time. */
  function Timestamp(r: Room): int {
    match r.lastMessage
    case None => 0
    case Some(m) => m.createdAt.GetOr(0)
  }

  /** Newest first: the order the comparator `dateB - dateA` asks for. */
  predicate SortedDesc(s: seq<Room>) {
    forall i, j :: 0 <= i < j < |s| ==> Timestamp(s[i]) >= Timestamp(s[j])
  }

  /** The room ids, in list order. */
  function Ids(s: seq<Room>): seq<string> {
    seq(|s|, i requires 0 <= i < |s| => s[i].id)
  }

  /** No id occurs twice in the list. */
  predicate UniqueIds(s: seq<Room>) {
    forall id :: id in Ids(s) ==> multiset(Ids(s))[id] <= 1
  }

  // ---------------------------------------------------------------------
  // The stable sort
  // ---------------------------------------------------------------------

  /** Inserts `x` into a newest-first list, in front of every room that is
      not newer than it, so that `x` stays ahead of the rooms it tied with. */
  function Insert(x: Room, s: seq<Room>): (r: seq<Room>)
    ensures |r| == |s| + 1
    ensures multiset(r) == multiset(s) + multiset{x}
  {
    if s == [] || Timestamp(x) >= Timestamp(s[0]) then
      [x] + s
    else
      var t := Insert(x, s[1..]);
      assert s == [s[0]] + s[1..];
      [s[0]] + t
  }

  /** `Array.prototype.sort` with the shared comparator: a stable sort, newest
      first (an insertion sort). */
  function SortRooms(s: seq<Room>): (r: seq<Room>)
    ensures |r| == |s|
    ensures multiset(r) == multiset(s)
  {
    if s == [] then []
    else
      assert s == [s[0]] + s[1..];
      Insert(s[0], SortRooms(s[1..]))
  }

  lemma {:induction false} InsertIds(x: Room, s: seq<Room>)
    ensures multiset(Ids(Insert(x, s))) == multiset(Ids(s)) + multiset{x.id}
  {
    if s == [] || Timestamp(x) >= Timestamp(s[0]) {
      IdsCons(x, s);
    } else {
      InsertIds(x, s[1..]);
      IdsCons(s[0], s[1..]);
      IdsCons(s[0], Insert(x, s[1..]));
      assert s == [s[0]] + s[1..];
    }
  }

  lemma {:induction false} SortRoomsIds(s: seq<Room>)
    ensures multiset(Ids(SortRooms(s))) == multiset(Ids(s))
  {
    if s != [] {
      SortRoomsIds(s[1..]);
      InsertIds(s[0], SortRooms(s[1..]));
      IdsCons(s[0], s[1..]);
      assert s == [s[0]] + s[1..];
    }
  }

  /** The rooms of `s` whose time is `t`, in list order: two lists agree on
      it for every `t` when they order tied rooms the same way. */
  function WithTimestamp(s: seq<Room>, t: int): seq<Room> {
    if s == [] then []
    else (if Timestamp(s[0]) == t then [s[0]] else []) + WithTimestamp(s[1..], t)
  }

  lemma {:induction false} InsertSorted(x: Room, s: seq<Room>)
    requires SortedDesc(s)
    ensures SortedDesc(Insert(x, s))
  {
    var r := Insert(x, s);
    if s == [] || Timestamp(x) >= Timestamp(s[0]) {
      forall i, j | 0 <= i < j < |r| ensures Timestamp(r[i]) >= Timestamp(r[j]) {
        assert r[j] == s[j - 1];
        if i > 0 { assert r[i] == s[i - 1]; }
        else if j - 1 > 0 { assert Timestamp(s[0]) >= Timestamp(s[j - 1]); }
      }
    } else {
      var t := Insert(x, s[1..]);
      InsertSorted(x, s[1..]);
      assert r == [s[0]] + t;
      forall k | 0 <= k < |t| ensures Timestamp(t[k]) <= Timestamp(s[0]) {
        assert t[k] in multiset(t);
        if t[k] != x {
          assert t[k] in multiset(s[1..]);
          var m :| 0 <= m < |s[1..]| && s[1..][m] == t[k];
          assert s[m + 1] == t[k];
        }
      }
      forall i, j | 0 <= i < j < |r| ensures Timestamp(r[i]) >= Timestamp(r[j]) {
        assert r[j] == t[j - 1];
        if i > 0 { assert r[i] == t[i - 1]; }
      }
    }
  }

  /** The result of the sort is newest first. */
  lemma {:induction false} SortRoomsSorted(s: seq<Room>)
    ensures SortedDesc(SortRooms(s))
  {
    if s != [] {
      SortRoomsSorted(s[1..]);
      InsertSorted(s[0], SortRooms(s[1..]));
    }
  }

  /** Sorting a list that is already newest first changes nothing: the sort
      is stable, so rooms that tie keep their places. */
  lemma {:induction false} SortRoomsOfSorted(s: seq<Room>)
    requires SortedDesc(s)
    ensures SortRooms(s) == s
  {
    if s != [] {
      assert SortedDesc(s[1..]) by {
        forall i, j | 0 <= i < j < |s[1..]| ensures Timestamp(s[1..][i]) >= Timestamp(s[1..][j]) {
          assert s[1..][i] == s[i + 1] && s[1..][j] == s[j + 1];
        }
      }
      SortRoomsOfSorted(s[1..]);
      assert s == [s[0]] + s[1..];
    }
  }

  lemma {:induction false} InsertStable(x: Room, s: seq<Room>, t: int)
    requires SortedDesc(s)
    ensures WithTimestamp(Insert(x, s), t) == (if Timestamp(x) == t then [x] else []) + WithTimestamp(s, t)
  {
    if s == [] || Timestamp(x) >= Timestamp(s[0]) {
      assert ([x] + s)[1..] == s;
    } else {
      var u := Insert(x, s[1..]);
      assert SortedDesc(s[1..]) by {
        forall i, j | 0 <= i < j < |s[1..]| ensures Timestamp(s[1..][i]) >= Timestamp(s[1..][j]) {
          assert s[1..][i] == s[i + 1] && s[1..][j] == s[j + 1];
        }
      }
      InsertStable(x, s[1..], t);
      assert ([s[0]] + u)[1..] == u;
      calc {
        WithTimestamp(Insert(x, s), t);
        (if Timestamp(s[0]) == t then [s[0]] else []) + WithTimestamp(u, t);
        (if Timestamp(s[0]) == t then [s[0]] else []) + ((if Timestamp(x) == t then [x] else []) + WithTimestamp(s[1..], t));
        // s[0] is strictly newer than x, so at most one of the two is kept
        (if Timestamp(x) == t then [x] else []) + ((if Timestamp(s[0]) == t then [s[0]] else []) + WithTimestamp(s[1..], t));
        (if Timestamp(x) == t then [x] else []) + WithTimestamp(s, t);
      }
    }
  }

  /** Stability: among rooms with the same time, the sort keeps the input's
      order. */
  lemma {:induction false} SortRoomsStable(s: seq<Room>, t: int)
    ensures WithTimestamp(SortRooms(s), t) == WithTimestamp(s, t)
  {
    if s != [] {
      SortRoomsStable(s[1..], t);
      SortRoomsSorted(s[1..]);
      InsertStable(s[0], SortRooms(s[1..]), t);
    }
  }

  // ---------------------------------------------------------------------
  // updateChatRoom
  // ---------------------------------------------------------------------

  /** The last message an update installs. */
  function MessageOf(u: MessageUpdate): LastMessage {
    LastMessage(u.message, u.createdAt, u.senderId)
  }

  /** One step of the `map`: the room with the update's id gets the new last
      message; every other field is copied. */
  function Refresh(room: Room, u: MessageUpdate): Room {
    if room.id == u.roomId then room.(lastMessage := Some(MessageOf(u))) else room
  }

  function RefreshAll(rooms: seq<Room>, u: MessageUpdate): (r: seq<Room>)
    ensures |r| == |rooms|
    ensures forall i :: 0 <= i < |rooms| ==> r[i] == Refresh(rooms[i], u)
  {
    if rooms == [] then [] else [Refresh(rooms[0], u)] + RefreshAll(rooms[1..], u)
  }

  /** `updateChatRoom`: install the new last message, then re-sort. */
  function UpdateChatRoom(rooms: seq<Room>, u: MessageUpdate): seq<Room> {
    SortRooms(RefreshAll(rooms, u))
  }

  lemma {:induction false} RefreshAllKeepsOthers(rooms: seq<Room>, u: MessageUpdate, x: Room)
    requires x.id != u.roomId
    ensures multiset(RefreshAll(rooms, u))[x] == multiset(rooms)[x]
  {
    if rooms != [] {
      RefreshAllKeepsOthers(rooms[1..], u, x);
      assert rooms == [rooms[0]] + rooms[1..];
      assert RefreshAll(rooms, u) == [Refresh(rooms[0], u)] + RefreshAll(rooms[1..], u);
      assert (Refresh(rooms[0], u) == x) == (rooms[0] == x);
    }
  }

  /** After `updateChatRoom` the list is newest first, and it has the same
      length and the same ids (with their multiplicities) as before. */
  lemma UpdateChatRoomSorted(rooms: seq<Room>, u: MessageUpdate)
    ensures SortedDesc(UpdateChatRoom(rooms, u))
    ensures |UpdateChatRoom(rooms, u)| == |rooms|
    ensures multiset(Ids(UpdateChatRoom(rooms, u))) == multiset(Ids(rooms))
    ensures UniqueIds(rooms) ==> UniqueIds(UpdateChatRoom(rooms, u))
  {
    SortRoomsSorted(RefreshAll(rooms, u));
    SortRoomsIds(RefreshAll(rooms, u));
    assert Ids(RefreshAll(rooms, u)) == Ids(rooms);
    var r := UpdateChatRoom(rooms, u);
    if UniqueIds(rooms) {
      forall id | id in Ids(r) ensures multiset(Ids(r))[id] <= 1 {
        assert id in multiset(Ids(r));
        assert id in Ids(rooms);
      }
    }
  }

  /** `updateChatRoom` changes only the rooms with the update's id, and in
      those only the last message: every room with another id occurs exactly
      as often as before, and every room with the update's id is a room of
      the input with `last_message := {message, created_at, sender_id}`. */
  lemma UpdateChatRoomOnlyTarget(rooms: seq<Room>, u: MessageUpdate)
    ensures forall x: Room :: x.id != u.roomId ==> multiset(UpdateChatRoom(rooms, u))[x] == multiset(rooms)[x]
    ensures forall x :: x in UpdateChatRoom(rooms, u) && x.id == u.roomId ==>
      x.lastMessage == Some(MessageOf(u)) &&
      exists y :: y in rooms && y.id == u.roomId && x == y.(lastMessage := Some(MessageOf(u)))
  {
    var refreshed := RefreshAll(rooms, u);
    forall x: Room | x.id != u.roomId ensures multiset(UpdateChatRoom(rooms, u))[x] == multiset(rooms)[x] {
      RefreshAllKeepsOthers(rooms, u, x);
    }
    forall x | x in UpdateChatRoom(rooms, u) && x.id == u.roomId
      ensures x.lastMessage == Some(MessageOf(u))
      ensures exists y :: y in rooms && y.id == u.roomId && x == y.(lastMessage := Some(MessageOf(u)))
    {
      assert x in multiset(UpdateChatRoom(rooms, u));
      assert x in multiset(refreshed);
      var i :| 0 <= i < |refreshed| && refreshed[i] == x;
      assert rooms[i] in rooms;
    }
  }

  /** An update for an id that no room has only re-sorts: the result is a
      permutation of the input, and the input itself when it was already
      newest first. */
  lemma UpdateChatRoomUnknownId(rooms: seq<Room>, u: MessageUpdate)
    requires u.roomId !in Ids(rooms)
    ensures multiset(UpdateChatRoom(rooms, u)) == multiset(rooms)
    ensures SortedDesc(rooms) ==> UpdateChatRoom(rooms, u) == rooms
  {
    assert RefreshAll(rooms, u) == rooms by {
      forall i | 0 <= i < |rooms| ensures RefreshAll(rooms, u)[i] == rooms[i] {
        assert Ids(rooms)[i] == rooms[i].id;
      }
    }
    if SortedDesc(rooms) {
      SortRoomsOfSorted(rooms);
    }
  }

  // ---------------------------------------------------------------------
  // addChatRoom
  // ---------------------------------------------------------------------

  /** `addChatRoom`: when some room already has the new room's id, the
      previous list itself; otherwise the new room in front, then re-sorted. */
  function AddChatRoom(rooms: seq<Room>, newRoom: Room): seq<Room> {
    if newRoom.id in Ids(rooms) then rooms else SortRooms([newRoom] + rooms)
  }

  lemma IdsCons(x: Room, s: seq<Room>)
    ensures Ids([x] + s) == [x.id] + Ids(s)
  {
  }

  /** A duplicate insert returns the previous list exactly, and inserting a
      room twice is the same as inserting it once. */
  lemma AddChatRoomIdempotent(rooms: seq<Room>, newRoom: Room)
    ensures newRoom.id in Ids(rooms) ==> AddChatRoom(rooms, newRoom) == rooms
    ensures AddChatRoom(AddChatRoom(rooms, newRoom), newRoom) == AddChatRoom(rooms, newRoom)
  {
    if newRoom.id !in Ids(rooms) {
      var r := AddChatRoom(rooms, newRoom);
      IdsCons(newRoom, rooms);
      SortRoomsIds([newRoom] + rooms);
      assert newRoom.id in multiset(Ids(r));
    }
  }

  /** A room with a new id: the list grows by one, holds exactly the old rooms
      and the new one, is newest first, and keeps ids unique. */
  lemma AddChatRoomNew(rooms: seq<Room>, newRoom: Room)
    requires newRoom.id !in Ids(rooms)
    ensures |AddChatRoom(rooms, newRoom)| == |rooms| + 1
    ensures newRoom in AddChatRoom(rooms, newRoom)
    ensures multiset(AddChatRoom(rooms, newRoom)) == multiset(rooms) + multiset{newRoom}
    ensures SortedDesc(AddChatRoom(rooms, newRoom))
    ensures UniqueIds(rooms) ==> UniqueIds(AddChatRoom(rooms, newRoom))
  {
    var r := AddChatRoom(rooms, newRoom);
    SortRoomsSorted([newRoom] + rooms);
    SortRoomsIds([newRoom] + rooms);
    IdsCons(newRoom, rooms);
    assert newRoom in multiset(r);
    if UniqueIds(rooms) {
      UniqueIdsExtend(rooms, r, newRoom.id);
    }
  }

  /** A list whose ids are those of a list with unique ids plus one id that
      list lacks has unique ids. */
  lemma UniqueIdsExtend(s: seq<Room>, r: seq<Room>, id: string)
    requires UniqueIds(s) && id !in Ids(s)
    requires multiset(Ids(r)) == multiset(Ids(s)) + multiset{id}
    ensures UniqueIds(r)
  {
    assert multiset(Ids(s))[id] == 0;
    forall x | x in Ids(r) ensures multiset(Ids(r))[x] <= 1 {
      if x != id {
        assert x in multiset(Ids(r));
        assert x in Ids(s);
      }
    }
  }

  /** `addChatRoom` keeps a list newest first with unique ids, whatever room is added. */
  lemma AddChatRoomKeepsInvariants(rooms: seq<Room>, newRoom: Room)
    requires SortedDesc(rooms) && UniqueIds(rooms)
    ensures SortedDesc(AddChatRoom(rooms, newRoom)) && UniqueIds(AddChatRoom(rooms, newRoom))
  {
    if newRoom.id !in Ids(rooms) {
      AddChatRoomNew(rooms, newRoom);
    }
  }

  /** A sequence of `addChatRoom` calls, first to last. */
  function AddAll(rooms: seq<Room>, news: seq<Room>): seq<Room>
    decreases |news|
  {
    if news == [] then rooms else AddAll(AddChatRoom(rooms, news[0]), news[1..])
  }

  /** However many rooms are added, no two entries share an id and the list
      is newest first. */
  lemma {:induction false} AddAllKeepsInvariants(rooms: seq<Room>, news: seq<Room>)
    requires SortedDesc(rooms) && UniqueIds(rooms)
    ensures SortedDesc(AddAll(rooms, news)) && UniqueIds(AddAll(rooms, news))
    decreases |news|
  {
    if news != [] {
      AddChatRoomKeepsInvariants(rooms, news[0]);
      AddAllKeepsInvariants(AddChatRoom(rooms, news[0]), news[1..]);
    }
  }

  /** Unique ids in the multiset sense imply that no two positions share an id. */
  lemma UniqueIdsDistinct(s: seq<Room>, i: int, j: int)
    requires UniqueIds(s)
    requires 0 <= i < j < |s|
    ensures s[i].id != s[j].id
  {
    var t := Ids(s);
    assert t == t[..j] + t[j..];
    assert t[j] in multiset(t[j..]) by { assert t[j..][0] == t[j]; }
    assert multiset(t)[t[j]] == multiset(t[..j])[t[j]] + multiset(t[j..])[t[j]];
    assert t[j] in t;
    assert t[j] !in multiset(t[..j]);
    assert t[..j][i] == t[i];
  }

  /** Conversely, ids that are pairwise distinct by position are unique. */
  lemma DistinctIdsUnique(s: seq<Room>)
    requires forall i, j :: 0 <= i < j < |s| ==> s[i].id != s[j].id
    ensures UniqueIds(s)
  {
    var t := Ids(s);
    forall id | id in t ensures multiset(t)[id] <= 1 {
      var i :| 0 <= i < |t| && t[i] == id;
      assert t == t[..i] + [t[i]] + t[i + 1..];
      assert id !in t[..i] by {
        forall k | 0 <= k < i ensures t[..i][k] != id { assert s[k].id != s[i].id; }
      }
      assert id !in t[i + 1..] by {
        forall k | i + 1 <= k < |t| ensures t[k] != id { assert s[i].id != s[k].id; }
      }
    }
  }

  // ---------------------------------------------------------------------
  // The initial load
  // ---------------------------------------------------------------------

  /** The `filter` of the fetched rooms: those with a truthy id, in order. */
  function ValidRooms(s: seq<Room>): (r: seq<Room>)
    ensures forall x :: multiset(r)[x] == if x.id != "" then multiset(s)[x] else 0
  {
    if s == [] then []
    else
      assert s == [s[0]] + s[1..];
      (if s[0].id != "" then [s[0]] else []) + ValidRooms(s[1..])
  }

  /** What a successful fetch stores: the valid rooms, sorted. */
  function LoadRooms(fetched: seq<Room>): seq<Room> {
    SortRooms(ValidRooms(fetched))
  }

  /** The stored list holds exactly the fetched rooms with a truthy id (with
      their multiplicities), newest first, ties in fetch order. */
  lemma LoadRoomsSpec(fetched: seq<Room>)
    ensures SortedDesc(LoadRooms(fetched))
    ensures forall x :: multiset(LoadRooms(fetched))[x] == if x.id != "" then multiset(fetched)[x] else 0
    ensures forall x :: x in LoadRooms(fetched) <==> x in fetched && x.id != ""
    ensures forall t :: WithTimestamp(LoadRooms(fetched), t) == WithTimestamp(ValidRooms(fetched), t)
  {
    var r := LoadRooms(fetched);
    SortRoomsSorted(ValidRooms(fetched));
    forall x ensures x in r <==> x in fetched && x.id != "" {
      assert (x in r) == (x in multiset(r));
      assert (x in fetched) == (x in multiset(fetched));
    }
    forall t ensures WithTimestamp(r, t) == WithTimestamp(ValidRooms(fetched), t) {
      SortRoomsStable(ValidRooms(fetched), t);
    }
  }

  // ---------------------------------------------------------------------
  // Transport events
  // ---------------------------------------------------------------------

  /** `data.message` of a "new-message" event. */
  datatype MessagePayload = MessagePayload(chatRoomId: string, message: string, createdAt: Option<int>, senderId: string)

  /** `data` of a "new-message" event; `message` None when absent or falsy. */
  datatype NewMessageData = NewMessageData(message: Option<MessagePayload>)

  /** `data` of a "room-created" event. */
  datatype RoomCreatedData = RoomCreatedData(chatRoomId: string, user1: string, user2: string, lastMessage: Option<LastMessage>)

  /** The update a "new-message" event asks for, if any. */
  function DecodeNewMessage(data: Option<NewMessageData>): (r: Option<MessageUpdate>)
    ensures r.None? <==> data.None? || data.value.message.None?
    ensures r.Some? ==> r.value.roomId == data.value.message.value.chatRoomId
  {
    match data
    case None => None
    case Some(d) =>
      match d.message
      case None => None
      case Some(m) => Some(MessageUpdate(m.chatRoomId, m.message, m.createdAt, m.senderId))
  }

  /** The room a "room-created" event asks to add, if any. */
  function DecodeRoomCreated(data: Option<RoomCreatedData>): (r: Option<Room>)
    ensures r.None? <==> data.None?
    ensures r.Some? ==> r.value.id == data.value.chatRoomId && r.value.lastMessage == data.value.lastMessage
  {
    match data
    case None => None
    case Some(d) => Some(Room(d.chatRoomId, d.user1, d.user2, d.lastMessage))
  }

  /** The "new-message" handler bound on the channel of room `channelRoomId`. */
  function OnNewMessage(rooms: seq<Room>, channelRoomId: string, data: Option<NewMessageData>): seq<Room> {
    match DecodeNewMessage(data)
    case None => rooms
    case Some(u) => UpdateChatRoom(rooms, u)
  }

  /** The "room-created" handler bound on the user's channel. */
  function OnRoomCreated(rooms: seq<Room>, data: Option<RoomCreatedData>): seq<Room> {
    match DecodeRoomCreated(data)
    case None => rooms
    case Some(room) => AddChatRoom(rooms, room)
  }

  /** A "new-message" event without `data.message` is ignored; otherwise it
      updates the room named inside the message, not the channel's room: a
      room whose id differs from the message's keeps its last message even
      when it is the channel's own room. */
  lemma OnNewMessageSpec(rooms: seq<Room>, channelRoomId: string, data: Option<NewMessageData>)
    ensures data.None? || data.value.message.None? ==> OnNewMessage(rooms, channelRoomId, data) == rooms
    ensures data.Some? && data.value.message.Some? ==>
      var target := data.value.message.value.chatRoomId;
      && SortedDesc(OnNewMessage(rooms, channelRoomId, data))
      && (forall x: Room :: x.id != target ==> multiset(OnNewMessage(rooms, channelRoomId, data))[x] == multiset(rooms)[x])
    ensures data.Some? && data.value.message.Some? ==>
      var m := data.value.message.value;
      forall x :: x in OnNewMessage(rooms, channelRoomId, data) && x.id == m.chatRoomId ==>
        x.lastMessage == Some(LastMessage(m.message, m.createdAt, m.senderId))
  {
    match DecodeNewMessage(data)
    case None =>
    case Some(u) =>
      UpdateChatRoomSorted(rooms, u);
      UpdateChatRoomOnlyTarget(rooms, u);
  }

  /** A "room-created" event with falsy data is ignored; otherwise the decoded
      room is added unless its id is already present. The list stays newest
      first, and ids that were unique stay unique. */
  lemma OnRoomCreatedSpec(rooms: seq<Room>, data: Option<RoomCreatedData>)
    requires SortedDesc(rooms)
    ensures data.None? ==> OnRoomCreated(rooms, data) == rooms
    ensures data.Some? && data.value.chatRoomId in Ids(rooms) ==> OnRoomCreated(rooms, data) == rooms
    ensures SortedDesc(OnRoomCreated(rooms, data))
    ensures UniqueIds(rooms) ==> UniqueIds(OnRoomCreated(rooms, data))
    ensures data.Some? && data.value.chatRoomId !in Ids(rooms) ==>
      var room := Room(data.value.chatRoomId, data.value.user1, data.value.user2, data.value.lastMessage);
      && |OnRoomCreated(rooms, data)| == |rooms| + 1
      && room in OnRoomCreated(rooms, data)
      && multiset(OnRoomCreated(rooms, data)) == multiset(rooms) + multiset{room}
  {
    match DecodeRoomCreated(data)
    case None =>
    case Some(room) =>
      if room.id !in Ids(rooms) {
        AddChatRoomNew(rooms, room);
      }
  }
}
