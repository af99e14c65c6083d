/**
 * The state of the `useChatRooms` hook and its subscription effect. The
 * hook's state (`chatRooms`, `loading`) is a class whose methods apply the
 * list transforms of RoomList; the publish/subscribe client is an abstract
 * transport holding the set of open channels and the bound handlers; one run
 * of the subscription effect is an object that remembers what it opened, so
 * that its cleanup can close exactly that.
 */
module ChatRoomsHook {
  import opened Wrappers
  import opened RoomList

  // ---------------------------------------------------------------------
  // The hook's state
  // ---------------------------------------------------------------------

  /** What the load produced: the fetched rooms, or a failure. A failure is
      a rejected request, a response without a `data` list, or a `null` entry
      in that list, whose `chat_room_id` lookup throws inside the filter and
      so fails the whole load rather than skipping the entry. */
  datatype FetchResult = Fetched(data: seq<Room>) | FetchFailed

  class ChatRoomsState {
    var rooms: seq<Room>
    var loading: bool

    /** The list is newest first in every state the hook can be in. */
    predicate Valid()
      reads this
    {
      SortedDesc(rooms)
    }

    constructor()
      ensures Valid() && rooms == [] && loading
    {
      rooms := [];
      loading := true;
    }

    /** The load effect: on success the valid fetched rooms, sorted; on
        failure the list stays as it was; `loading` ends false either way. */
    method FetchChatRooms(res: FetchResult)
      requires Valid()
      modifies this
      ensures Valid() && !loading
      ensures res.Fetched? ==> rooms == LoadRooms(res.data)
      ensures res.FetchFailed? ==> rooms == old(rooms)
    {
      loading := true;
      match res {
        case Fetched(data) =>
          LoadRoomsSpec(data);
          rooms := LoadRooms(data);
        case FetchFailed =>
      }
      loading := false;
    }

    method UpdateChatRoom(u: MessageUpdate)
      requires Valid()
      modifies this`rooms
      ensures Valid()
      ensures rooms == RoomList.UpdateChatRoom(old(rooms), u)
      ensures UniqueIds(old(rooms)) ==> UniqueIds(rooms)
    {
      UpdateChatRoomSorted(rooms, u);
      rooms := RoomList.UpdateChatRoom(rooms, u);
    }

    method AddChatRoom(newRoom: Room)
      requires Valid()
      modifies this`rooms
      ensures Valid()
      ensures rooms == RoomList.AddChatRoom(old(rooms), newRoom)
      ensures UniqueIds(old(rooms)) ==> UniqueIds(rooms)
    {
      if newRoom.id !in Ids(rooms) {
        AddChatRoomNew(rooms, newRoom);
      }
      rooms := RoomList.AddChatRoom(rooms, newRoom);
    }

    /** The "new-message" handler of the channel of room `channelRoomId`. */
    method HandleNewMessage(channelRoomId: string, data: Option<NewMessageData>)
      requires Valid()
      modifies this`rooms
      ensures Valid()
      ensures rooms == OnNewMessage(old(rooms), channelRoomId, data)
      ensures UniqueIds(old(rooms)) ==> UniqueIds(rooms)
    {
      var update := DecodeNewMessage(data);
      if update.Some? {
        UpdateChatRoom(update.value);
      }
    }

    /** The "room-created" handler of the user's channel. */
    method HandleRoomCreated(data: Option<RoomCreatedData>)
      requires Valid()
      modifies this`rooms
      ensures Valid()
      ensures rooms == OnRoomCreated(old(rooms), data)
      ensures UniqueIds(old(rooms)) ==> UniqueIds(rooms)
    {
      var room := DecodeRoomCreated(data);
      if room.Some? {
        AddChatRoom(room.value);
      }
    }
  }

  // ---------------------------------------------------------------------
  // Channel names
  // ---------------------------------------------------------------------

  /** The user's channel, which carries "room-created". */
  function UserChannel(userId: string): string {
    "chat-room." + userId
  }

  /** A room's channel, which carries "new-message". */
  function RoomChannel(roomId: string): string {
    "chat-room-message." + roomId
  }

  /** A user channel is never a room channel, and distinct rooms have distinct
      channels. */
  lemma ChannelNamesDistinct(userId: string, roomId: string, otherId: string)
    ensures UserChannel(userId) != RoomChannel(roomId)
    ensures roomId != otherId ==> RoomChannel(roomId) != RoomChannel(otherId)
  {
    assert UserChannel(userId)[9] == '.';
    assert RoomChannel(roomId)[9] == '-';
    if RoomChannel(roomId) == RoomChannel(otherId) {
      var n := |"chat-room-message."|;
      assert roomId == RoomChannel(roomId)[n..];
      assert otherId == RoomChannel(otherId)[n..];
    }
  }

  /** The keys of the `channels` object after the effect's `forEach`: one per
      room with a truthy id, in order of first occurrence (assigning to a key
      that is already there keeps its place). */
  function ChannelKeys(rooms: seq<Room>): seq<string>
    decreases |rooms|
  {
    if rooms == [] then []
    else
      var keys := ChannelKeys(rooms[..|rooms| - 1]);
      var last := rooms[|rooms| - 1];
      if last.id == "" || RoomChannel(last.id) in keys then keys else keys + [RoomChannel(last.id)]
  }

  /** The "new-message" handlers the `forEach` binds: one per room with a
      truthy id, keyed by channel. */
  function RoomBindings(rooms: seq<Room>): multiset<string> {
    BindingsUpTo(rooms, |rooms|)
  }

  /** The handlers bound by the first `n` steps of the `forEach`. */
  function BindingsUpTo(rooms: seq<Room>, n: nat): multiset<string>
    requires n <= |rooms|
  {
    if n == 0 then multiset{}
    else BindingsUpTo(rooms, n - 1) + (if rooms[n - 1].id == "" then multiset{} else multiset{RoomChannel(rooms[n - 1].id)})
  }

  function Elements(s: seq<string>): set<string> {
    set c | c in s
  }

  /** The channels one run of the effect opens. */
  function Opened(userId: string, rooms: seq<Room>): set<string> {
    if userId == "" then {} else {UserChannel(userId)} + Elements(ChannelKeys(rooms))
  }

  /** The effect subscribes to a room's channel exactly when some room with a
      truthy id has that channel, skipping the rest; each channel is a single
      key. */
  lemma {:induction false} ChannelKeysSpec(rooms: seq<Room>)
    ensures forall c :: c in ChannelKeys(rooms) <==> exists i :: 0 <= i < |rooms| && rooms[i].id != "" && c == RoomChannel(rooms[i].id)
    ensures forall i, j :: 0 <= i < j < |ChannelKeys(rooms)| ==> ChannelKeys(rooms)[i] != ChannelKeys(rooms)[j]
    decreases |rooms|
  {
    if rooms != [] {
      var init := rooms[..|rooms| - 1];
      ChannelKeysSpec(init);
      forall c ensures c in ChannelKeys(rooms) <==> exists i :: 0 <= i < |rooms| && rooms[i].id != "" && c == RoomChannel(rooms[i].id) {
        if c in ChannelKeys(init) {
          var i :| 0 <= i < |init| && init[i].id != "" && c == RoomChannel(init[i].id);
          assert rooms[i] == init[i];
        }
        if exists i :: 0 <= i < |rooms| && rooms[i].id != "" && c == RoomChannel(rooms[i].id) {
          var i :| 0 <= i < |rooms| && rooms[i].id != "" && c == RoomChannel(rooms[i].id);
          if i < |init| { assert init[i] == rooms[i]; }
        }
      }
    }
  }

  /** With no user id nothing is opened; otherwise the user channel and one
      channel per room with a truthy id. */
  lemma OpenedSpec(userId: string, rooms: seq<Room>, c: string)
    ensures userId == "" ==> Opened(userId, rooms) == {}
    ensures userId != "" ==>
      (c in Opened(userId, rooms) <==>
        c == UserChannel(userId) || exists i :: 0 <= i < |rooms| && rooms[i].id != "" && c == RoomChannel(rooms[i].id))
  {
    ChannelKeysSpec(rooms);
  }

  // ---------------------------------------------------------------------
  // The transport and one run of the subscription effect
  // ---------------------------------------------------------------------

  /** The publish/subscribe client: the channels it has open and, per
      channel, how many handlers are bound on it. */
  class Transport {
    var open: set<string>
    var handlers: multiset<string>

    constructor()
      ensures open == {} && handlers == multiset{}
    {
      open := {};
      handlers := multiset{};
    }

    method Subscribe(name: string)
      modifies this
      ensures open == old(open) + {name} && handlers == old(handlers)
    {
      open := open + {name};
    }

    method Bind(name: string)
      modifies this
      ensures open == old(open) && handlers == old(handlers) + multiset{name}
    {
      handlers := handlers + multiset{name};
    }

    /** `unbind_all` on the channel `name`. */
    method UnbindAll(name: string)
      modifies this
      ensures open == old(open) && handlers == old(handlers)[name := 0]
    {
      handlers := handlers[name := 0];
    }

    method Unsubscribe(name: string)
      modifies this
      ensures open == old(open) - {name} && handlers == old(handlers)
    {
      open := open - {name};
    }
  }

  /** One run of the subscription effect: the user channel it opened (None
      when there was no user id, in which case it registered no cleanup) and
      the keys of its `channels` object. */
  class SubscriptionEffect {
    const transport: Transport
    var userChannel: Option<string>
    var channels: seq<string>

    constructor(transport: Transport)
      ensures this.transport == transport && userChannel == None && channels == []
    {
      this.transport := transport;
      userChannel := None;
      channels := [];
    }

    /** The effect body, for the current user id ("" when absent) and the
        current room list. */
    method Subscribe(userId: string, rooms: seq<Room>)
      requires userChannel == None && channels == []
      modifies this, transport
      ensures userId == "" ==> userChannel == None && channels == []
      ensures userId != "" ==> userChannel == Some(UserChannel(userId)) && channels == ChannelKeys(rooms)
      ensures transport.open == old(transport.open) + Opened(userId, rooms)
      ensures transport.handlers == old(transport.handlers) +
        (if userId == "" then multiset{} else multiset{UserChannel(userId)} + RoomBindings(rooms))
    {
      if userId == "" {
        return;
      }
      var user := UserChannel(userId);
      transport.Subscribe(user);
      transport.Bind(user);
      userChannel := Some(user);
      SubscribeRooms(rooms);
    }

    /** The effect's `forEach` over the rooms: subscribe to and bind on the
        channel of every room with a truthy id, recording it in `channels`. */
    method SubscribeRooms(rooms: seq<Room>)
      requires channels == []
      modifies this`channels, transport
      ensures channels == ChannelKeys(rooms)
      ensures transport.open == old(transport.open) + Elements(ChannelKeys(rooms))
      ensures transport.handlers == old(transport.handlers) + RoomBindings(rooms)
    {
      var i := 0;
      while i < |rooms|
        invariant 0 <= i <= |rooms|
        invariant channels == ChannelKeys(rooms[..i])
        invariant transport.open == old(transport.open) + Elements(ChannelKeys(rooms[..i]))
        invariant transport.handlers == old(transport.handlers) + BindingsUpTo(rooms, i)
      {
        ChannelKeysSnoc(rooms, i);
        ElementsSnoc(channels, RoomChannel(rooms[i].id));
        SubscribeRoom(rooms[i]);
        i := i + 1;
      }
      assert rooms[..i] == rooms;
    }

    /** One step of the `forEach`: skip a room without id; otherwise
        subscribe to its channel, store it under its name and bind the
        "new-message" handler on it. */
    method SubscribeRoom(room: Room)
      modifies this`channels, transport
      ensures room.id == "" ==>
        channels == old(channels) && transport.open == old(transport.open) && transport.handlers == old(transport.handlers)
      ensures room.id != "" ==>
        var name := RoomChannel(room.id);
        && channels == (if name in old(channels) then old(channels) else old(channels) + [name])
        && transport.open == old(transport.open) + {name}
        && transport.handlers == old(transport.handlers) + multiset{name}
    {
      if room.id == "" {
        return;
      }
      var name := RoomChannel(room.id);
      transport.Subscribe(name);
      if name !in channels {
        channels := channels + [name];
      }
      transport.Bind(name);
    }

    /** The cleanup the effect returns: unbind and unsubscribe every key of
        `channels`, then the user channel. */
    method Cleanup()
      modifies this, transport
      ensures userChannel == None && channels == []
      ensures transport.open == old(transport.open) - Elements(old(channels)) -
        (if old(userChannel).Some? then {old(userChannel).value} else {})
      ensures forall c :: c in old(channels) || old(userChannel) == Some(c) ==> transport.handlers[c] == 0
      ensures forall c :: c !in old(channels) && old(userChannel) != Some(c) ==> transport.handlers[c] == old(transport.handlers)[c]
    {
      var keys := channels;
      var i := 0;
      while i < |keys|
        invariant 0 <= i <= |keys|
        invariant userChannel == old(userChannel)
        invariant transport.open == old(transport.open) - Elements(keys[..i])
        invariant forall c :: transport.handlers[c] == if c in keys[..i] then 0 else old(transport.handlers)[c]
      {
        assert keys[..i + 1] == keys[..i] + [keys[i]];
        transport.UnbindAll(keys[i]);
        transport.Unsubscribe(keys[i]);
        i := i + 1;
      }
      assert keys[..i] == keys;
      if userChannel.Some? {
        transport.UnbindAll(userChannel.value);
        transport.Unsubscribe(userChannel.value);
      }
      userChannel := None;
      channels := [];
    }
  }

  /** The effect re-running after the room list changed: the previous run's
      cleanup, then a fresh run over the new list. Handlers do not pile up:
      every channel the previous run recorded loses all its handlers before
      the new run binds again. */
  method Rerun(previous: SubscriptionEffect, userId: string, rooms: seq<Room>) returns (next: SubscriptionEffect)
    modifies previous, previous.transport
    ensures fresh(next) && next.transport == previous.transport
    ensures previous.transport.open ==
      old(previous.transport.open) - Elements(old(previous.channels)) -
        (if old(previous.userChannel).Some? then {old(previous.userChannel).value} else {})
      + Opened(userId, rooms)
    ensures forall c :: (previous.transport.handlers[c] ==
      (if c in old(previous.channels) || old(previous.userChannel) == Some(c) then 0 else old(previous.transport.handlers)[c]) +
      (if userId == "" then multiset{} else multiset{UserChannel(userId)} + RoomBindings(rooms))[c])
    ensures previous.userChannel == None && previous.channels == []
    ensures next.userChannel == (if userId == "" then None else Some(UserChannel(userId)))
    ensures next.channels == (if userId == "" then [] else ChannelKeys(rooms))
  {
    previous.Cleanup();
    next := new SubscriptionEffect(previous.transport);
    next.Subscribe(userId, rooms);
  }

  /** A run followed by its cleanup closes every channel the run opened and
      leaves no handler bound on them; channels it did not open are untouched. */
  method SubscribeThenCleanup(transport: Transport, userId: string, rooms: seq<Room>)
    modifies transport
    ensures transport.open == old(transport.open) - Opened(userId, rooms)
    ensures forall c :: c in Opened(userId, rooms) ==> transport.handlers[c] == 0
    ensures forall c :: c !in Opened(userId, rooms) ==> transport.handlers[c] == old(transport.handlers)[c]
  {
    var effect := new SubscriptionEffect(transport);
    effect.Subscribe(userId, rooms);
    ghost var openedByRun := Opened(userId, rooms);
    effect.Cleanup();
    forall c | c !in openedByRun ensures transport.handlers[c] == old(transport.handlers)[c] {
      if userId != "" {
        assert c !in ChannelKeys(rooms);
        RoomBindingsOutside(rooms, c);
      }
    }
  }

  lemma RoomBindingsOutside(rooms: seq<Room>, c: string)
    requires c !in ChannelKeys(rooms)
    ensures RoomBindings(rooms)[c] == 0
  {
    ChannelKeysSpec(rooms);
    BindingsUpToOutside(rooms, |rooms|, c);
  }

  lemma {:induction false} BindingsUpToOutside(rooms: seq<Room>, n: nat, c: string)
    requires n <= |rooms|
    requires forall i :: 0 <= i < n ==> rooms[i].id == "" || c != RoomChannel(rooms[i].id)
    ensures BindingsUpTo(rooms, n)[c] == 0
  {
    if n > 0 {
      BindingsUpToOutside(rooms, n - 1, c);
    }
  }

  lemma ChannelKeysSnoc(rooms: seq<Room>, i: int)
    requires 0 <= i < |rooms|
    ensures ChannelKeys(rooms[..i + 1]) ==
      var keys := ChannelKeys(rooms[..i]);
      if rooms[i].id == "" || RoomChannel(rooms[i].id) in keys then keys else keys + [RoomChannel(rooms[i].id)]
  {
    assert rooms[..i + 1][..i] == rooms[..i];
  }

  lemma ElementsSnoc(s: seq<string>, c: string)
    ensures Elements(s + [c]) == Elements(s) + {c}
  {
  }

  /** Deactivating after subscribing to the rooms r1 and r2 and to the user
      channel of u1 closes all three channels and leaves no handler bound. */
  method DeactivationScenario()
  {
    var transport := new Transport();
    var rooms := [Room("r1", "u1", "u2", None), Room("r2", "u1", "u3", None)];
    var effect := new SubscriptionEffect(transport);
    effect.Subscribe("u1", rooms);
    ChannelKeysSnoc(rooms, 0);
    ChannelKeysSnoc(rooms, 1);
    assert rooms[..0] == [] && rooms[..2] == rooms;
    ChannelNamesDistinct("u1", "r2", "r1");
    assert ChannelKeys(rooms) == [RoomChannel("r1"), RoomChannel("r2")];
    assert transport.open == {UserChannel("u1"), RoomChannel("r1"), RoomChannel("r2")};
    effect.Cleanup();
    assert transport.open == {};
    assert transport.handlers == multiset{};
  }
}
