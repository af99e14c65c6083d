# Chat-room preview list and review form, modelled in Dafny

This project models the two pieces of state logic in the easygo web front end:

- **The chat-room preview list** kept by the `useChatRooms` hook
  (`src/hooks/useChatRooms.js`). The hook holds a list of rooms kept newest
  first by the time of each room's last message; a room with no last message
  counts as epoch 0. The list is seeded from the fetched rooms that have an
  id. It is kept live by two transport events: "new-message" goes through
  `updateChatRoom` and "room-created" through `addChatRoom`. A subscription
  effect opens the channel `chat-room.<userId>` and one channel
  `chat-room-message.<roomId>` per room, and its cleanup closes exactly those.
  Without a user id it opens nothing, and it skips rooms without an id.
- **The add-review form** (`src/pages/AddReview.jsx`). This covers the
  facility tags preselected from the place and toggled by the user, the photo
  list (at most five), the previews kept beside it, the checks made before
  submitting, the fields of the multipart request, and the message shown when
  submitting fails.

Files:

- `Wrappers.dfy`: `Option`, which stands for JavaScript's `undefined`/`null`.
- `RoomList.dfy` (module `RoomList`): the pure part of the hook. It has the
  comparator, the stable sort (an insertion sort, since
  `Array.prototype.sort` is stable), `updateChatRoom`, `addChatRoom`, the
  load-time filter and the decoding of the two events. Each comes with lemmas.
- `ChatRoomsHook.dfy` (module `ChatRoomsHook`): the hook's state
  (`ChatRoomsState`: `rooms`, `loading`) and an abstract transport
  (`Transport`: the set of open channels and the bound handlers per channel).
  It also has one run of the subscription effect (`SubscriptionEffect`), with
  loop methods that subscribe and clean up.
- `AddReview.dfy` (module `AddReview`): the form's pure rules, plus the
  class `ReviewForm` whose methods are the page's handlers.

Modelling conventions:

- A missing or falsy `chat_room_id`, `user_id` or `placeId` is the empty
  string. The model merges `undefined`, `null` and `""` into that one value,
  so two missing ids always compare equal (see "## Left out").
- Times are integers. `created_at` is `Option<int>`, with None for a missing
  or empty value, which the comparator reads as `new Date(0)`.
- Inputs from outside the page are parameters:
  - the result of `getChatRooms` (`FetchResult`);
  - the `user_id` and the presence of the `auth_header` token read from
    `localStorage`;
  - the URL that `URL.createObjectURL` makes for each file;
  - the outcome of `api.post` (`RequestOutcome`);
  - the facility catalogue `FACILITIES` (`src/constants/facilities` is not
    part of this model).

Behaviour of the code worth knowing:

- After a failed fetch (src/hooks/useChatRooms.js:80-84) the list is left
  as it was. It is empty only when no event has changed it yet.
- A "room-created" event whose data has no `chat_room_id` is not dropped.
  `addChatRoom` only checks that no room has the same id, so such a room is
  inserted once, and the subscription loop then skips it.
- The list is always newest first. Unique ids are kept by `addChatRoom` and
  `updateChatRoom` but not established by the load: the filter at
  src/hooks/useChatRooms.js:62-68 keeps fetched rooms that repeat an id.
- A "new-message" event for an unknown room still re-sorts the list. Because
  the sort is stable, this leaves a newest-first list unchanged
  (`UpdateChatRoomUnknownId`).

## Model

| member | source | states |
|---|---|---|
| `RoomList.Insert` | src/hooks/useChatRooms.js:24-32 | Inserting a room into the list adds exactly that room: the length grows by one, and the rooms and ids gain exactly that one entry. |
| `RoomList.SortRooms` | src/hooks/useChatRooms.js:24-32 | The sort is a permutation: the result has the same length and the same rooms with the same multiplicities. |
| `RoomList.SortRoomsIds` | src/hooks/useChatRooms.js:24-32 | The sort keeps the multiset of room ids. |
| `RoomList.InsertSorted` | src/hooks/useChatRooms.js:24-32 | Inserting into a newest-first list gives a newest-first list. |
| `RoomList.SortRoomsSorted` | src/hooks/useChatRooms.js:24-32 | `Timestamp` is the comparator's time. Every sorted result is ordered by last-message time, newest first, with a missing last message or time counting as 0. |
| `RoomList.SortRoomsOfSorted` | src/hooks/useChatRooms.js:24-32 | Sorting a list that is already newest first returns it unchanged. |
| `RoomList.SortRoomsStable` | src/hooks/useChatRooms.js:24-32 | Stability: for every time t, the rooms with time t come out in the order they went in. |
| `RoomList.UpdateChatRoomSorted` | src/hooks/useChatRooms.js:9-33 | `UpdateChatRoom` is the `map` followed by the sort. After `updateChatRoom` the list is newest first, has the same length, and has the same multiset of ids, so unique ids stay unique. |
| `RoomList.UpdateChatRoomOnlyTarget` | src/hooks/useChatRooms.js:11-23 | Rooms with another id occur exactly as often as before. Every room with the event's id has `last_message := {message, created_at, sender_id}` and otherwise equals a room of the input with that id. |
| `RoomList.UpdateChatRoomUnknownId` | src/hooks/useChatRooms.js:11-32 | An update for an id no room has gives a permutation of the input, and gives the input itself when the input was newest first. |
| `RoomList.AddChatRoomIdempotent` | src/hooks/useChatRooms.js:38-43 | `AddChatRoom`: when the id is already present, the previous list is returned exactly, with no re-sort. Adding the same room twice equals adding it once. |
| `RoomList.AddChatRoomNew` | src/hooks/useChatRooms.js:44-53 | A room with a new id: the length grows by one, the list is exactly the old rooms plus the new one, it is newest first, and unique ids stay unique. |
| `RoomList.AddChatRoomKeepsInvariants` | src/hooks/useChatRooms.js:36-55 | From a newest-first list with unique ids, any `addChatRoom` gives a newest-first list with unique ids. |
| `RoomList.AddAllKeepsInvariants` | src/hooks/useChatRooms.js:36-55 | Any sequence of `addChatRoom` calls keeps the list newest first with no two entries sharing an id. |
| `RoomList.UniqueIdsDistinct` | src/hooks/useChatRooms.js:38-40 | Unique ids imply that no two positions of the list hold the same id. |
| `RoomList.DistinctIdsUnique` | src/hooks/useChatRooms.js:38-40 | Conversely, a list in which no two positions hold the same id has unique ids. |
| `RoomList.ValidRooms` | src/hooks/useChatRooms.js:62-68 | The filter keeps each fetched room with a non-empty id, as often as it was fetched, and drops every room whose id is missing. |
| `RoomList.LoadRoomsSpec` | src/hooks/useChatRooms.js:62-79 | `LoadRooms` is the filter followed by the sort. The stored list is exactly the fetched rooms with an id, with their multiplicities. It is newest first, and tied rooms keep the fetch order. |
| `RoomList.DecodeNewMessage` | src/hooks/useChatRooms.js:133-140 | A "new-message" event yields an update exactly when `data` and `data.message` are present, and the update's room id is `data.message.chat_room_id`. |
| `RoomList.DecodeRoomCreated` | src/hooks/useChatRooms.js:107-114 | A "room-created" event yields a room exactly when `data` is present, and that room carries the event's id and last message. |
| `RoomList.OnNewMessageSpec` | src/hooks/useChatRooms.js:127-141 | `OnNewMessage` is the "new-message" handler. An event without `data.message` leaves the list as it is. Otherwise the list stays newest first, and every room whose id differs from the message's room id is untouched, even the channel's own room. Every room carrying the message's room id gets `last_message` = {message, created_at, sender_id} from the message. |
| `RoomList.OnRoomCreatedSpec` | src/hooks/useChatRooms.js:102-115 | `OnRoomCreated` is the "room-created" handler, on any newest-first list. Falsy data, or an id already present, leaves the list as it is. A new id adds exactly the decoded room, and the list grows by one. The list stays newest first, and ids that were unique stay unique. |
| `ChatRoomsHook.ChatRoomsState.constructor` | src/hooks/useChatRooms.js:6-7 | The hook starts with an empty room list, which is trivially newest first, and `loading` true. |
| `ChatRoomsHook.ChatRoomsState.FetchChatRooms` | src/hooks/useChatRooms.js:57-88 | On success the list becomes the filtered, sorted fetched rooms; on failure it is left as it was. `loading` ends false in both cases, and the list stays newest first. |
| `ChatRoomsHook.ChatRoomsState.UpdateChatRoom` | src/hooks/useChatRooms.js:9-34 | The state becomes `updateChatRoom` of the old list and stays newest first. Unique ids stay unique. |
| `ChatRoomsHook.ChatRoomsState.AddChatRoom` | src/hooks/useChatRooms.js:36-55 | The state becomes `addChatRoom` of the old list and stays newest first. Unique ids stay unique. |
| `ChatRoomsHook.ChatRoomsState.HandleNewMessage` | src/hooks/useChatRooms.js:127-141 | The "new-message" handler: the state becomes the decoded update applied to the old list, or stays unchanged when the event is ignored. Unique ids stay unique. |
| `ChatRoomsHook.ChatRoomsState.HandleRoomCreated` | src/hooks/useChatRooms.js:102-115 | The "room-created" handler: the state becomes the decoded room added to the old list, or stays unchanged when the event is ignored. Unique ids stay unique. |
| `ChatRoomsHook.ChannelNamesDistinct` | src/hooks/useChatRooms.js:101-124 | `UserChannel` builds `chat-room.<userId>` and `RoomChannel` builds `chat-room-message.<roomId>`. A user channel name is never a room channel name, and distinct room ids give distinct channel names. |
| `ChatRoomsHook.ChannelKeysSpec` | src/hooks/useChatRooms.js:118-125 | `ChannelKeys`: the `channels` object gets a key exactly for each room with an id: the key is `chat-room-message.<id>`, rooms without an id are skipped, and no key repeats. |
| `ChatRoomsHook.OpenedSpec` | src/hooks/useChatRooms.js:92-125 | `Opened` is the set of channels one run opens. With no `user_id` nothing is opened. Otherwise the effect opens `chat-room.<userId>` plus one room channel per room with an id, and nothing else. |
| `ChatRoomsHook.SubscriptionEffect.Subscribe` | src/hooks/useChatRooms.js:90-145 | The effect body, stated with `Opened` (the channels a run opens) and `RoomBindings` (one handler per room with an id). With no user id, nothing changes and no cleanup is recorded. Otherwise the transport gains exactly the channels opened, plus one bound handler on the user channel and one per room with an id. |
| `ChatRoomsHook.SubscriptionEffect.SubscribeRooms` | src/hooks/useChatRooms.js:118-144 | The `forEach` loop: `channels` ends as the channel keys of the rooms, and the transport gains those channels and one handler per room with an id. |
| `ChatRoomsHook.SubscriptionEffect.SubscribeRoom` | src/hooks/useChatRooms.js:119-141 | One step of the loop: a room without an id changes nothing. Otherwise its channel is opened, stored under its name (kept in place when already there), and gets one handler. |
| `ChatRoomsHook.SubscriptionEffect.Cleanup` | src/hooks/useChatRooms.js:146-155 | Every key of `channels` and the user channel is unbound and unsubscribed. Exactly those channels close and lose all handlers; no other channel or handler is touched. |
| `ChatRoomsHook.Rerun` | src/hooks/useChatRooms.js:90-156 | A re-run after the room list changes. The previous run's channels close and lose all their handlers before the new run subscribes and binds again, so handlers never pile up. Each channel's handler count is its old count (0 for a channel the previous run recorded) plus the new run's bindings. The previous run is reset. The new run records the user channel, or none when there is no user id, and the channel keys of the new list. |
| `ChatRoomsHook.SubscribeThenCleanup` | src/hooks/useChatRooms.js:90-156 | A run followed by its cleanup closes exactly the channels the run opened and leaves no handler bound on them; other channels and handlers are unchanged. |
| `AddReview.FindFacilityId` | src/pages/AddReview.jsx:41 | `FACILITIES.find(...)?.id`: there is no id exactly when no catalogue entry has the name; otherwise the id of the first entry with that name. |
| `AddReview.InitialFacilitiesConcat` | src/pages/AddReview.jsx:40-42 | The mapping keeps the place's order: the names `a + b` give the ids for `a` followed by the ids for `b`. |
| `AddReview.InitialFacilitiesMembers` | src/pages/AddReview.jsx:40-42 | `InitialFacilities`: an id is preselected exactly when some place facility's name maps to it; unmatched names are dropped, so there are never more ids than names. |
| `AddReview.ReviewForm.constructor` | src/pages/AddReview.jsx:18-35 | The form starts with rating 0, empty review text, no selected facilities, no photos, no previews, no error message and `isLoading` false, for the given place id and place facilities. |
| `AddReview.ReviewForm.ApplyPlaceFacilities` | src/pages/AddReview.jsx:38-49 | The selection becomes the mapped ids when the place lists facilities; otherwise it is left unchanged. |
| `AddReview.RemoveAll` | src/pages/AddReview.jsx:65 | The filter keeps exactly the ids other than the one removed. |
| `AddReview.ToggleFlipsMembership` | src/pages/AddReview.jsx:59-74 | `ToggleFacility`: the toggle flips the membership of the toggled id and of no other id. |
| `AddReview.ToggleKeepsOthersInOrder` | src/pages/AddReview.jsx:59-74 | With the toggled id taken out, the list is the same before and after, so the other ids keep their relative order. |
| `AddReview.ToggleTwiceRestores` | src/pages/AddReview.jsx:59-74 | Toggling an absent id twice restores the original list. |
| `AddReview.ToggleKeepsDistinct` | src/pages/AddReview.jsx:59-74 | A selection without repeated ids keeps that property after a toggle. |
| `AddReview.ReviewForm.HandleFacilityToggle` | src/pages/AddReview.jsx:59-74 | The selection becomes the toggle of the old one, and the toggled id is present exactly when it was absent. |
| `AddReview.ReviewForm.HandleFotoChange` | src/pages/AddReview.jsx:87-104 | More than 5 photos in total sets "Maksimal 5 foto yang dapat diunggah." and leaves the photos and previews as they were. Otherwise the files and their previews are appended in order. At most 5 photos, each with its preview, is preserved. |
| `AddReview.SpliceStart` | src/pages/AddReview.jsx:109 | `splice(index, 1)` removes an element exactly when the list is non-empty and the index is below its length. An index in range is used as is. A negative index counts from the end, and one before the front removes the first element. |
| `AddReview.SpliceCopy` | src/pages/AddReview.jsx:108-114 | Copying a list and splicing one element out of the copy in place gives the list without the element at the start position. |
| `AddReview.SplicedOutSpec` | src/pages/AddReview.jsx:106-121 | `SplicedOut`: a valid index removes exactly that element and keeps the rest in order; an index past the end removes nothing; an index before the front removes the first element. Two lists of equal length stay of equal length. |
| `AddReview.ReviewForm.HandleRemoveImage` | src/pages/AddReview.jsx:106-121 | The same element is removed from both the photos and the previews, so they stay in lock-step and at most 5. |
| `AddReview.ReviewForm.HandleClearReview` | src/pages/AddReview.jsx:123-128 | Only the review text changes, and it becomes empty. |
| `AddReview.ReviewForm.HandleRatingChange` | src/pages/AddReview.jsx:76-81 | Only the rating changes, and it becomes the chosen star. |
| `AddReview.ReviewForm.HandleInputChange` | src/pages/AddReview.jsx:51-57 | Only the review text changes, and it becomes the typed value. |
| `AddReview.DecimalInjective` | src/pages/AddReview.jsx:168 | Distinct indices have distinct decimal texts. |
| `AddReview.ImageFieldDistinct` | src/pages/AddReview.jsx:167-169 | Distinct photos go under distinct field names `images[i]`. |
| `AddReview.ValidationError` | src/pages/AddReview.jsx:133-141 | A missing place is checked first and gives "Data tempat tidak ditemukan.", whatever the rating. Then a rating of 0 gives "Silakan berikan rating terlebih dahulu.". Otherwise there is no error. |
| `AddReview.BuildPayload` | src/pages/AddReview.jsx:154-169 | The fields are `place_id`, `rating` and `comment` in that order, then `facilities` exactly when some are selected, then each photo as `images[i]` in list order, and nothing else. |
| `AddReview.ReviewForm.BeginSubmit` | src/pages/AddReview.jsx:130-169 | A failed check sets its message, sends nothing and leaves `isLoading` as it was. Otherwise `isLoading` becomes true, the error is cleared, and the payload is built from the current form. |
| `AddReview.ErrorMessage` | src/pages/AddReview.jsx:213-233 | Every failure shows a non-empty message. Status 401 gives the login message, no response gives "Tidak dapat terhubung ke server", and a setup error shows its own message. |
| `AddReview.ErrorMessageCases` | src/pages/AddReview.jsx:173-233 | Any other status shows `data.error`, else `data.message`, else "Gagal menambahkan ulasan". A setup error without a message shows the generic setup failure. A missing token reads the same as a 401. |
| `AddReview.ReviewForm.FinishSubmit` | src/pages/AddReview.jsx:171-240 | Without a token no request is made and the login message is shown. A rejected request shows its classified, non-empty message. `isLoading` ends false in every case. |

## Left out

- `src/components/Rating.jsx` is rendering only. The rating it passes to `handleRatingChange` is any integer here; the star bound 1..5 is not imposed.
- The Pusher client (subscribe, bind, unbind_all, unsubscribe), `getChatRooms`, `api.post` and `localStorage` are foreign calls. They are replaced by the abstract `Transport` and by parameters. Event names are not tracked: each channel kind carries one event, so handlers are counted per channel.
- The model merges `undefined`, `null` and `""` ids into one missing id. In JavaScript `null === undefined` is false. So when a stored room's id is `undefined` and a "room-created" event carries `null`, the `some` at src/hooks/useChatRooms.js:39 is false and the room is inserted; the model ignores it. The `===` at src/hooks/useChatRooms.js:12 differs in the same way.
- `new Date(...)` parsing, including the NaN of a malformed timestamp, is left out; times are integers.
- Fetched rooms may carry fields other than `user1`/`user2`. The `...room` spread copies them, and the model carries only these two.
- `URL.createObjectURL`/`revokeObjectURL`, `setTimeout`, `navigate`, the notification banner and all `console` logging are browser side effects and are left out. Preview URLs are inputs to `HandleFotoChange`.
- React scheduling is not modelled: batching, effect timing, and the stale `formData` and `notification.type` closures (src/pages/AddReview.jsx:237). Each handler is one atomic transition. The subscription effect is an explicit subscribe/cleanup pair, and its re-run is the method `Rerun`.
- `handleInputChange` is modelled for its one use, the review text field.
- `JSON.stringify` of the facility ids and the string conversion `FormData` applies to the rating are kept as structured field values (`FacilitiesJson`, `Number`). Their text is not modelled.
- `AddReview.ReviewForm.HandleRemoveImage`: a non-integer or non-numeric index, which `splice` would convert, is not modelled; the index is an integer.
- JSX layout and styling are left out.
