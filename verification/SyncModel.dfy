/** The values that src/sync-accumulator.js works on, and what each of its operations does to
    them. JSON objects whose members the accumulator never inspects are kept as their text. */
module SyncModel {
  import opened Common

  datatype Json = Json(text: string)

  // Identifiers and tokens are only ever compared with one another.
  type RoomId(==, !new, 0)
  type UserId(==, !new, 0)
  type GroupId(==, !new, 0)
  type EventId(==, !new, 0)
  type EventType(==, !new, 0)
  type KeyName(==, !new, 0)
  type Token(==, !new, 0)

  /** A raw event. An event without a type, or with the empty one, has no `evType`. `prevContent` and
      `prevSender` are the members of `unsigned`; `rest` is everything else (event id, timestamps, ...). */
  datatype Event = Event(
    evType: Option<EventType>,
    stateKey: Option<KeyName>,
    content: Json,
    sender: UserId,
    prevContent: Option<Json>,
    prevSender: Option<UserId>,
    rest: Json)

  // ---------- room state: $event_type -> $state_key -> event ----------

  type StateKey = (EventType, KeyName)
  type RoomState = map<StateKey, Event>

  /** `setState` ignores an event unless it has a state key and a non-empty type. */
  predicate IsState(e: Event) {
    e.stateKey.Some? && e.evType.Some?
  }

  function KeyOf(e: Event): StateKey
    requires IsState(e)
  {
    (e.evType.value, e.stateKey.value)
  }

  function SetState(state: RoomState, e: Event): RoomState {
    if IsState(e) then state[KeyOf(e) := e] else state
  }

  /** Rolls `state` forward over `events`, first to last. */
  function Apply(state: RoomState, events: seq<Event>): RoomState {
    if events == [] then state
    else SetState(Apply(state, events[..|events| - 1]), events[|events| - 1])
  }

  /** The state event that `e` replaced, as far as `e` tells. */
  function Previous(e: Event): Event {
    e.(content := if e.prevContent.Some? then e.prevContent.value else e.content,
       sender := if e.prevSender.Some? then e.prevSender.value else e.sender)
  }

  /** Reverse clobbering: the timeline is walked from its end to its start. */
  function RollBack(events: seq<Event>): RoomState {
    if events == [] then map[]
    else SetState(RollBack(events[1..]), Previous(events[0]))
  }

  /** The state that a snapshot emits: current state rolled back over the emitted timeline. */
  function EmittedState(state: RoomState, events: seq<Event>): RoomState {
    var back := RollBack(events);
    map k | k in state :: if k in back then back[k] else state[k]
  }

  // ---------- timeline ----------

  datatype Entry = Entry(event: Event, token: Option<Token>)

  function Events(timeline: seq<Entry>): (events: seq<Event>)
    ensures |events| == |timeline|
  {
    seq(|timeline|, i requires 0 <= i < |timeline| => timeline[i].event)
  }

  /** The entries one response contributes: only the first can carry a token. */
  function Entries(events: seq<Event>, prevBatch: Option<Token>): (entries: seq<Entry>)
    ensures |entries| == |events|
  {
    seq(|events|, i requires 0 <= i < |events| => Entry(events[i], if i == 0 then prevBatch else None))
  }

  /** The first index from `i` on that has a token, or the length. */
  function FirstToken(timeline: seq<Entry>, i: nat): (j: nat)
    requires i <= |timeline|
    ensures i <= j <= |timeline|
    ensures forall k :: i <= k < j ==> timeline[k].token.None?
    ensures j < |timeline| ==> timeline[j].token.Some?
    decreases |timeline| - i
  {
    if i == |timeline| || timeline[i].token.Some? then i else FirstToken(timeline, i + 1)
  }

  /** Drops old entries by jumping between the ones that have a token. */
  function Prune(timeline: seq<Entry>, max: nat): seq<Entry> {
    if |timeline| <= max then timeline else
      var j := FirstToken(timeline, |timeline| - max);
      if j < |timeline| then timeline[j..] else timeline
  }

  /** The part of the timeline that a snapshot emits: entries before the first token are skipped. */
  function Emitted(timeline: seq<Entry>): seq<Entry> {
    timeline[FirstToken(timeline, 0)..]
  }

  function PrevBatch(timeline: seq<Entry>): Option<Token> {
    var j := FirstToken(timeline, 0);
    if j < |timeline| then timeline[j].token else None
  }

  // ---------- the rest of a joined room ----------

  datatype Receipt = Receipt(data: Json, eventId: EventId)

  datatype Summary = Summary(heroes: Option<Json>, joined: Option<int>, invited: Option<int>)

  const EMPTY_SUMMARY := Summary(None, None, None)

  /** `sum[key] || acc[key]` on a member count, where a count of zero is falsy. */
  function PickCount(sum: Option<int>, acc: Option<int>): Option<int> {
    if sum.Some? && sum.value != 0 then sum else acc
  }

  function MergeSummary(acc: Summary, sum: Option<Summary>): Summary {
    if sum.None? then acc else
      Summary(if sum.value.heroes.Some? then sum.value.heroes else acc.heroes,
              PickCount(sum.value.joined, acc.joined),
              PickCount(sum.value.invited, acc.invited))
  }

  /** `m.read` receipts: $event_id -> optional ($user_id -> json), in the order they are listed. */
  type Readers = seq<(UserId, Json)>
  type ReceiptContent = seq<(EventId, Option<Readers>)>

  /** Ephemeral events other than `m.receipt` are dropped. */
  datatype Ephemeral = ReceiptEvent(content: Option<ReceiptContent>) | OtherEphemeral

  type Receipts = map<UserId, Receipt>

  function AddReaders(receipts: Receipts, eventId: EventId, readers: Readers): Receipts {
    if readers == [] then receipts else
      var last := readers[|readers| - 1];
      AddReaders(receipts, eventId, readers[..|readers| - 1])[last.0 := Receipt(last.1, eventId)]
  }

  function AddContent(receipts: Receipts, content: ReceiptContent): Receipts {
    if content == [] then receipts else
      var last := content[|content| - 1];
      var before := AddContent(receipts, content[..|content| - 1]);
      if last.1.None? then before else AddReaders(before, last.0, last.1.value)
  }

  function AddEphemeral(receipts: Receipts, events: seq<Ephemeral>): Receipts {
    if events == [] then receipts else
      var last := events[|events| - 1];
      var before := AddEphemeral(receipts, events[..|events| - 1]);
      if last.OtherEphemeral? || last.content.None? then before
      else AddContent(before, last.content.value)
  }

  type AccountData = map<Option<EventType>, Event>

  /** Account data clobbers on the event type. */
  function Clobber(data: AccountData, events: seq<Event>): AccountData {
    if events == [] then data else
      var last := events[|events| - 1];
      Clobber(data, events[..|events| - 1])[last.evType := last]
  }

  datatype Room = Room(
    state: RoomState,
    timeline: seq<Entry>,
    accountData: AccountData,
    unread: Json,
    summary: Summary,
    receipts: Receipts)

  const EMPTY_ROOM := Room(map[], [], map[], Json("{}"), EMPTY_SUMMARY, map[])

  /** One room under `rooms.join` of a /sync response, and of a snapshot. A section that is
      absent behaves as one with no events. */
  datatype JoinData = JoinData(
    accountData: seq<Event>,
    unread: Option<Json>,
    summary: Option<Summary>,
    ephemeral: seq<Ephemeral>,
    limited: bool,
    stateEvents: seq<Event>,
    timelineEvents: seq<Event>,
    prevBatch: Option<Token>)

  /** The timeline before pruning. */
  function Extended(room: Room, d: JoinData): seq<Entry> {
    (if d.limited then [] else room.timeline) + Entries(d.timelineEvents, d.prevBatch)
  }

  /** `_accumulateJoinState` */
  function AccumulateJoin(room: Room, d: JoinData, max: nat): Room {
    Room(Apply(Apply(room.state, d.stateEvents), d.timelineEvents),
         Prune(Extended(room, d), max),
         Clobber(room.accountData, d.accountData),
         if d.unread.Some? then d.unread.value else room.unread,
         MergeSummary(room.summary, d.summary),
         AddEphemeral(room.receipts, d.ephemeral))
  }

  /** A room after all the data accumulated for it since it was (re)joined. */
  function RunRoom(history: seq<JoinData>, max: nat): Room {
    if history == [] then EMPTY_ROOM
    else AccumulateJoin(RunRoom(history[..|history| - 1], max), history[|history| - 1], max)
  }

  // ---------- invites ----------

  predicate SameInviteKey(a: Event, b: Event) {
    a.evType == b.evType && a.stateKey == b.stateKey
  }

  /** Every event with the key of `e` is replaced; `e` is appended if there is none. */
  function ClobberInvite(events: seq<Event>, e: Event): seq<Event> {
    if exists i :: 0 <= i < |events| && SameInviteKey(events[i], e)
    then seq(|events|, i requires 0 <= i < |events| => if SameInviteKey(events[i], e) then e else events[i])
    else events + [e]
  }

  function ClobberInvites(events: seq<Event>, more: seq<Event>): seq<Event> {
    if more == [] then events
    else ClobberInvite(ClobberInvites(events, more[..|more| - 1]), more[|more| - 1])
  }

  // ---------- the accumulator ----------

  datatype Rooms = Rooms(invite: map<RoomId, seq<Event>>, join: map<RoomId, Room>)

  datatype RoomUpdate =
    | Invite(roomId: RoomId, inviteState: Option<seq<Event>>)
    | Join(roomId: RoomId, data: JoinData)
    | Leave(roomId: RoomId)

  /** `_accumulateRoom` */
  function UpdateRoom(rooms: Rooms, u: RoomUpdate, max: nat): Rooms {
    match u
    case Invite(r, state) =>
      if state.None? then rooms
      else if r !in rooms.invite then rooms.(invite := rooms.invite[r := state.value])
      else rooms.(invite := rooms.invite[r := ClobberInvites(rooms.invite[r], state.value)])
    case Join(r, data) =>
      var room := if r in rooms.join then rooms.join[r] else EMPTY_ROOM;
      Rooms(rooms.invite - {r}, rooms.join[r := AccumulateJoin(room, data, max)])
    case Leave(r) =>
      if r in rooms.invite then rooms.(invite := rooms.invite - {r})
      else rooms.(join := rooms.join - {r})
  }

  function UpdateRooms(rooms: Rooms, updates: seq<RoomUpdate>, max: nat): Rooms {
    if updates == [] then rooms
    else UpdateRoom(UpdateRooms(rooms, updates[..|updates| - 1], max), updates[|updates| - 1], max)
  }

  datatype Groups = Groups(invite: map<GroupId, Json>, join: map<GroupId, Json>, leave: map<GroupId, Json>)

  datatype GroupUpdate = GroupUpdate(category: GroupCategory, groupId: GroupId, data: Json)

  datatype GroupCategory = GroupInvite | GroupJoin | GroupLeave

  /** `_accumulateGroup` */
  function UpdateGroup(groups: Groups, u: GroupUpdate): Groups {
    var g := Groups(groups.invite - {u.groupId}, groups.join - {u.groupId}, groups.leave - {u.groupId});
    match u.category
    case GroupInvite => g.(invite := g.invite[u.groupId := u.data])
    case GroupJoin => g.(join := g.join[u.groupId := u.data])
    case GroupLeave => g.(leave := g.leave[u.groupId := u.data])
  }

  function UpdateGroups(groups: Groups, updates: seq<GroupUpdate>): Groups {
    if updates == [] then groups
    else UpdateGroup(UpdateGroups(groups, updates[..|updates| - 1]), updates[|updates| - 1])
  }

  datatype Accumulator = Accumulator(
    accountData: AccountData,
    rooms: Rooms,
    groups: Groups,
    nextBatch: Option<Token>)

  const FRESH := Accumulator(map[], Rooms(map[], map[]), Groups(map[], map[], map[]), None)

  /** A /sync response. Members of a JSON object are listed in their order. */
  datatype SyncResponse = SyncResponse(
    nextBatch: Option<Token>,
    invite: seq<(RoomId, Option<seq<Event>>)>,
    join: seq<(RoomId, JoinData)>,
    leave: seq<RoomId>,
    groupInvite: seq<(GroupId, Json)>,
    groupJoin: seq<(GroupId, Json)>,
    groupLeave: seq<(GroupId, Json)>,
    accountData: seq<Event>)

  /** Room updates in the order in which they are accumulated: invite, join, leave. */
  function RoomUpdates(res: SyncResponse): seq<RoomUpdate> {
    seq(|res.invite|, i requires 0 <= i < |res.invite| => Invite(res.invite[i].0, res.invite[i].1))
    + seq(|res.join|, i requires 0 <= i < |res.join| => Join(res.join[i].0, res.join[i].1))
    + seq(|res.leave|, i requires 0 <= i < |res.leave| => Leave(res.leave[i]))
  }

  function Tagged(category: GroupCategory, groups: seq<(GroupId, Json)>): (r: seq<GroupUpdate>)
    ensures |r| == |groups|
  {
    seq(|groups|, i requires 0 <= i < |groups| => GroupUpdate(category, groups[i].0, groups[i].1))
  }

  function GroupUpdates(res: SyncResponse): seq<GroupUpdate> {
    Tagged(GroupInvite, res.groupInvite) + Tagged(GroupJoin, res.groupJoin) + Tagged(GroupLeave, res.groupLeave)
  }

  /** `accumulate` */
  function Accumulate(acc: Accumulator, res: SyncResponse, max: nat): Accumulator {
    Accumulator(
      Clobber(acc.accountData, res.accountData),
      UpdateRooms(acc.rooms, RoomUpdates(res), max),
      UpdateGroups(acc.groups, GroupUpdates(res)),
      res.nextBatch)
  }

  /** A fresh accumulator after any number of responses. */
  function Run(responses: seq<SyncResponse>, max: nat): Accumulator {
    if responses == [] then FRESH
    else Accumulate(Run(responses[..|responses| - 1], max), responses[|responses| - 1], max)
  }
}
