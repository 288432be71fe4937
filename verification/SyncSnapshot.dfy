/** Snapshots of the accumulator, and the round trip of a snapshot through a fresh accumulator. */
module SyncSnapshot {
  import opened Common
  import opened SyncModel
  import opened SyncInvariants
  import SyncReplay

  /** What `getJSON` returns. Members of a JSON object are listed in some order. */
  datatype Snapshot = Snapshot(
    nextBatch: Option<Token>,
    invite: seq<(RoomId, seq<Event>)>,
    join: seq<(RoomId, JoinData)>,
    groupInvite: seq<(GroupId, Json)>,
    groupJoin: seq<(GroupId, Json)>,
    groupLeave: seq<(GroupId, Json)>,
    accountData: seq<Event>)

  // ---------- what a snapshot of an accumulator is, up to the order of object members ----------

  /** `events` are the values of `m`, each once. */
  ghost predicate Lists<K>(events: seq<Event>, m: map<K, Event>) {
    && |events| == |m|
    && (forall k :: k in m ==> m[k] in events)
    && (forall i :: 0 <= i < |events| ==> events[i] in m.Values)
  }

  /** `pairs` are the members of `m`, each once. */
  ghost predicate ListsPairs<K, V>(pairs: seq<(K, V)>, m: map<K, V>) {
    && (forall i, j :: 0 <= i < j < |pairs| ==> pairs[i].0 != pairs[j].0)
    && (forall i :: 0 <= i < |pairs| ==> pairs[i].0 in m && m[pairs[i].0] == pairs[i].1)
    && (forall k :: k in m ==> (k, m[k]) in pairs)
  }

  /** `content` is the receipt map turned around: keyed by event, then by user. */
  ghost predicate Inverts(content: ReceiptContent, receipts: Receipts) {
    && (forall i, j :: 0 <= i < j < |content| ==> content[i].0 != content[j].0)
    && (forall i :: 0 <= i < |content| ==> content[i].1.Some? && ListsReaders(content[i].0, content[i].1.value, receipts))
    && (forall u :: u in receipts ==>
          exists i :: 0 <= i < |content| && content[i].1.Some? && content[i].0 == receipts[u].eventId &&
                      (u, receipts[u].data) in content[i].1.value)
  }

  ghost predicate ListsReaders(eventId: EventId, readers: Readers, receipts: Receipts) {
    && readers != []
    && (forall i, j :: 0 <= i < j < |readers| ==> readers[i].0 != readers[j].0)
    && (forall i :: 0 <= i < |readers| ==>
          readers[i].0 in receipts && receipts[readers[i].0] == Receipt(readers[i].1, eventId))
  }

  /** There is a receipt event only if there are receipts. */
  ghost predicate EmitsReceipts(events: seq<Ephemeral>, receipts: Receipts) {
    if receipts == map[] then events == []
    else |events| == 1 && events[0].ReceiptEvent? && events[0].content.Some? &&
         Inverts(events[0].content.value, receipts)
  }

  ghost predicate RoomJson(room: Room, d: JoinData) {
    && Lists(d.accountData, room.accountData)
    && d.unread == Some(room.unread)
    && d.summary == Some(room.summary)
    && EmitsReceipts(d.ephemeral, room.receipts)
    && !d.limited
    && d.timelineEvents == Events(Emitted(room.timeline))
    && d.prevBatch == PrevBatch(room.timeline)
    && Lists(d.stateEvents, EmittedState(room.state, d.timelineEvents))
  }

  ghost predicate ListsRooms(pairs: seq<(RoomId, JoinData)>, rooms: map<RoomId, Room>) {
    && (forall i, j :: 0 <= i < j < |pairs| ==> pairs[i].0 != pairs[j].0)
    && (forall i :: 0 <= i < |pairs| ==> pairs[i].0 in rooms && RoomJson(rooms[pairs[i].0], pairs[i].1))
    && (forall r :: r in rooms ==> Names(pairs, r))
  }

  ghost predicate Names(pairs: seq<(RoomId, JoinData)>, r: RoomId) {
    exists i :: 0 <= i < |pairs| && pairs[i].0 == r
  }

  ghost predicate SnapshotOf(acc: Accumulator, s: Snapshot) {
    && s.nextBatch == acc.nextBatch
    && ListsPairs(s.invite, acc.rooms.invite)
    && ListsRooms(s.join, acc.rooms.join)
    && ListsPairs(s.groupInvite, acc.groups.invite)
    && ListsPairs(s.groupJoin, acc.groups.join)
    && ListsPairs(s.groupLeave, acc.groups.leave)
    && Lists(s.accountData, acc.accountData)
  }

  /** A stored snapshot is processed like a response (src/sync.js); `leave` is always empty. */
  function AsResponse(s: Snapshot): SyncResponse {
    SyncResponse(
      s.nextBatch,
      seq(|s.invite|, i requires 0 <= i < |s.invite| => (s.invite[i].0, Some(s.invite[i].1))),
      s.join, [],
      s.groupInvite, s.groupJoin, s.groupLeave,
      s.accountData)
  }

  // ---------- folding the lists back ----------

  lemma {:induction false} ClobberSome(m: AccountData, events: seq<Event>)
    requires forall i :: 0 <= i < |events| ==> events[i].evType in m && m[events[i].evType] == events[i]
    ensures var c := Clobber(map[], events);
            (forall t :: t in c ==> t in m && c[t] == m[t]) &&
            (forall i :: 0 <= i < |events| ==> events[i].evType in c)
  {
    if events != [] {
      var before := events[..|events| - 1];
      assert forall i :: 0 <= i < |before| ==> before[i] == events[i];
      ClobberSome(m, before);
    }
  }

  lemma ClobberLists(m: AccountData, events: seq<Event>)
    requires AccountKeyed(m) && Lists(events, m)
    ensures Clobber(map[], events) == m
  {
    ClobberSome(m, events);
    var c := Clobber(map[], events);
    assert c.Keys == m.Keys by {
      forall t | t in m ensures t in c {
        var i :| 0 <= i < |events| && events[i] == m[t];
      }
    }
  }

  lemma {:induction false} ApplySome(m: RoomState, events: seq<Event>)
    requires forall i :: 0 <= i < |events| ==> IsState(events[i]) && KeyOf(events[i]) in m && m[KeyOf(events[i])] == events[i]
    ensures var c := Apply(map[], events);
            (forall k :: k in c ==> k in m && c[k] == m[k]) &&
            (forall i :: 0 <= i < |events| ==> KeyOf(events[i]) in c)
  {
    if events != [] {
      var before := events[..|events| - 1];
      assert forall i :: 0 <= i < |before| ==> before[i] == events[i];
      ApplySome(m, before);
    }
  }

  lemma ApplyLists(m: RoomState, events: seq<Event>)
    requires StateKeyed(m) && Lists(events, m)
    ensures Apply(map[], events) == m
  {
    ApplySome(m, events);
    var c := Apply(map[], events);
    assert c.Keys == m.Keys by {
      forall k | k in m ensures k in c {
        var i :| 0 <= i < |events| && events[i] == m[k];
      }
    }
  }

  /** `part` agrees with `receipts`. */
  ghost predicate Within(part: Receipts, receipts: Receipts) {
    forall u :: u in part ==> u in receipts && part[u] == receipts[u]
  }

  lemma {:induction false} AddReadersWithin(part: Receipts, eventId: EventId, readers: Readers, receipts: Receipts)
    requires Within(part, receipts)
    requires forall i :: 0 <= i < |readers| ==>
               readers[i].0 in receipts && receipts[readers[i].0] == Receipt(readers[i].1, eventId)
    ensures var r := AddReaders(part, eventId, readers);
            Within(r, receipts) && part.Keys <= r.Keys &&
            forall i :: 0 <= i < |readers| ==> readers[i].0 in r
  {
    if readers != [] {
      var before := readers[..|readers| - 1];
      assert forall i :: 0 <= i < |before| ==> before[i] == readers[i];
      AddReadersWithin(part, eventId, before, receipts);
    }
  }

  lemma {:induction false} AddContentWithin(content: ReceiptContent, receipts: Receipts)
    requires forall i :: 0 <= i < |content| ==> content[i].1.Some? && ListsReaders(content[i].0, content[i].1.value, receipts)
    ensures var r := AddContent(map[], content);
            Within(r, receipts) &&
            forall i, u, data :: 0 <= i < |content| && (u, data) in content[i].1.value ==> u in r
  {
    if content != [] {
      var before, last := content[..|content| - 1], content[|content| - 1];
      assert forall i :: 0 <= i < |before| ==> before[i] == content[i];
      AddContentWithin(before, receipts);
      AddReadersWithin(AddContent(map[], before), last.0, last.1.value, receipts);
    }
  }

  /** Inverting the receipt map and folding it back gives the same map. */
  lemma ReceiptsRoundTrip(events: seq<Ephemeral>, receipts: Receipts)
    requires EmitsReceipts(events, receipts)
    ensures AddEphemeral(map[], events) == receipts
  {
    if receipts != map[] {
      var content := events[0].content.value;
      AddContentWithin(content, receipts);
      assert events[..0] == [];
      var r := AddContent(map[], content);
      assert AddEphemeral(map[], events) == r;
      assert r.Keys == receipts.Keys;
    }
  }

  // ---------- one room ----------

  /** The emitted timeline of a room, fed to an empty room, is kept and emitted unchanged. */
  lemma TimelineRoundTrip(timeline: seq<Entry>, max: nat)
    ensures var again := Prune(Entries(Events(Emitted(timeline)), PrevBatch(timeline)), max);
            Events(Emitted(again)) == Events(Emitted(timeline)) && PrevBatch(again) == PrevBatch(timeline)
  {
    var fed := Entries(Events(Emitted(timeline)), PrevBatch(timeline));
    if |fed| > max {
      var j := FirstToken(fed, |fed| - max);
      assert j == |fed|;
    }
    assert Prune(fed, max) == fed;
    assert fed != [] ==> fed[0].token.Some?;
    assert FirstToken(fed, 0) == 0;
  }

  /** Rolling forward over a timeline does not change what is emitted for its start. */
  lemma EmittedStateRoundTrip(state: RoomState, events: seq<Event>)
    requires Covers(state, events)
    ensures var emitted := EmittedState(state, events);
            EmittedState(Apply(emitted, events), events) == emitted
  {
    var emitted := EmittedState(state, events);
    var again := Apply(emitted, events);
    forall k: StateKey
      ensures k in again <==> k in emitted
      ensures k in emitted && k !in RollBack(events) ==> again[k] == emitted[k]
    {
      SyncReplay.RollBackIsFirst(events, k);
      if SyncReplay.Touches(events, k) {
        SyncReplay.ApplyTouched(emitted, emitted, events, k);
      } else {
        SyncReplay.ApplyUntouched(emitted, events, k);
      }
    }
  }

  lemma EmittedStateKeyed(state: RoomState, events: seq<Event>)
    requires StateKeyed(state)
    ensures StateKeyed(EmittedState(state, events))
  {
    forall k: StateKey | k in RollBack(events)
      ensures IsState(RollBack(events)[k]) && KeyOf(RollBack(events)[k]) == k
    {
      SyncReplay.RollBackIsFirst(events, k);
    }
  }

  lemma EmittedCovered(room: Room)
    requires RoomOk(room)
    ensures Covers(room.state, Events(Emitted(room.timeline)))
  {
    var n := FirstToken(room.timeline, 0);
    var kept := Events(Emitted(room.timeline));
    assert forall i :: 0 <= i < |kept| ==> kept[i] == Events(room.timeline)[n + i];
  }

  /** A fresh room that is fed what a room emits has exactly the same snapshots. */
  lemma {:induction false} RoomRoundTrip(room: Room, d: JoinData, max: nat, e: JoinData)
    requires RoomOk(room) && RoomJson(room, d)
    ensures RoomJson(AccumulateJoin(EMPTY_ROOM, d, max), e) <==> RoomJson(room, e)
  {
    var again := AccumulateJoin(EMPTY_ROOM, d, max);
    assert Extended(EMPTY_ROOM, d) == Entries(d.timelineEvents, d.prevBatch);
    TimelineRoundTrip(room.timeline, max);
    EmittedCovered(room);
    EmittedStateKeyed(room.state, d.timelineEvents);
    ApplyLists(EmittedState(room.state, d.timelineEvents), d.stateEvents);
    EmittedStateRoundTrip(room.state, d.timelineEvents);
    ClobberLists(room.accountData, d.accountData);
    ReceiptsRoundTrip(d.ephemeral, room.receipts);
    assert again.summary == room.summary;
  }

  // ---------- the whole accumulator ----------

  /** The object with the given members; a later one wins. */
  function MapOf<K, V>(pairs: seq<(K, V)>): map<K, V> {
    if pairs == [] then map[] else
      var last := pairs[|pairs| - 1];
      MapOf(pairs[..|pairs| - 1])[last.0 := last.1]
  }

  lemma {:induction false} MapOfWithin<K, V>(pairs: seq<(K, V)>, m: map<K, V>)
    requires forall i :: 0 <= i < |pairs| ==> pairs[i].0 in m && m[pairs[i].0] == pairs[i].1
    ensures forall k :: k in MapOf(pairs) ==> k in m && MapOf(pairs)[k] == m[k]
    ensures forall i :: 0 <= i < |pairs| ==> pairs[i].0 in MapOf(pairs)
  {
    if pairs != [] {
      var before := pairs[..|pairs| - 1];
      assert forall i :: 0 <= i < |before| ==> before[i] == pairs[i];
      MapOfWithin(before, m);
    }
  }

  lemma MapOfLists<K, V>(pairs: seq<(K, V)>, m: map<K, V>)
    requires ListsPairs(pairs, m)
    ensures MapOf(pairs) == m
  {
    MapOfWithin(pairs, m);
    forall k | k in m ensures k in MapOf(pairs) {
      var i :| 0 <= i < |pairs| && pairs[i] == (k, m[k]);
    }
    assert MapOf(pairs).Keys == m.Keys;
  }

  function Invites(pairs: seq<(RoomId, seq<Event>)>): (updates: seq<RoomUpdate>)
    ensures |updates| == |pairs|
  {
    seq(|pairs|, i requires 0 <= i < |pairs| => Invite(pairs[i].0, Some(pairs[i].1)))
  }

  function Joins(pairs: seq<(RoomId, JoinData)>): (updates: seq<RoomUpdate>)
    ensures |updates| == |pairs|
  {
    seq(|pairs|, i requires 0 <= i < |pairs| => Join(pairs[i].0, pairs[i].1))
  }

  ghost predicate DistinctKeys<K, V>(pairs: seq<(K, V)>) {
    forall i, j :: 0 <= i < j < |pairs| ==> pairs[i].0 != pairs[j].0
  }

  lemma {:induction false} MapOfKeys<K, V>(pairs: seq<(K, V)>, k: K)
    requires k in MapOf(pairs)
    ensures exists i :: 0 <= i < |pairs| && pairs[i].0 == k
  {
    var n := |pairs| - 1;
    if pairs[n].0 != k {
      MapOfKeys(pairs[..n], k);
      var i :| 0 <= i < n && pairs[..n][i].0 == k;
      assert pairs[i].0 == k;
    }
  }

  /** Feeding invitations to an accumulator without rooms. */
  lemma {:induction false} FeedInvites(pairs: seq<(RoomId, seq<Event>)>, max: nat)
    requires DistinctKeys(pairs)
    ensures UpdateRooms(NO_ROOMS, Invites(pairs), max) == Rooms(MapOf(pairs), map[])
  {
    if pairs != [] {
      var n := |pairs| - 1;
      assert Invites(pairs)[..n] == Invites(pairs[..n]);
      FeedInvites(pairs[..n], max);
      if pairs[n].0 in MapOf(pairs[..n]) {
        MapOfKeys(pairs[..n], pairs[n].0);
        assert false;
      }
    }
  }

  /** The object with the given members, each value turned into another by `f`. */
  function MapWith<K, V, W>(pairs: seq<(K, V)>, f: V -> W): map<K, W> {
    if pairs == [] then map[] else
      var last := pairs[|pairs| - 1];
      MapWith(pairs[..|pairs| - 1], f)[last.0 := f(last.1)]
  }

  lemma {:induction false} MapWithKeys<K, V, W>(pairs: seq<(K, V)>, f: V -> W, k: K)
    ensures k in MapWith(pairs, f) <==> exists i :: 0 <= i < |pairs| && pairs[i].0 == k
  {
    if pairs != [] {
      var n := |pairs| - 1;
      MapWithKeys(pairs[..n], f, k);
      if i :| 0 <= i < |pairs| && pairs[i].0 == k && i < n {
        assert pairs[..n][i].0 == k;
      }
    }
  }

  lemma {:induction false} MapWithAt<K, V, W>(pairs: seq<(K, V)>, f: V -> W, i: nat)
    requires DistinctKeys(pairs) && i < |pairs|
    ensures pairs[i].0 in MapWith(pairs, f)
    ensures MapWith(pairs, f)[pairs[i].0] == f(pairs[i].1)
  {
    var n := |pairs| - 1;
    if i < n {
      MapWithAt(pairs[..n], f, i);
    }
  }

  /** A joined room as a fresh accumulator with limit `max` holds it. */
  function FromEmpty(max: nat): JoinData -> Room {
    d => AccumulateJoin(EMPTY_ROOM, d, max)
  }

  /** Feeding joined rooms withdraws their invitations. */
  lemma {:induction false} FeedJoins(invite: map<RoomId, seq<Event>>, pairs: seq<(RoomId, JoinData)>, max: nat)
    requires DistinctKeys(pairs)
    ensures UpdateRooms(Rooms(invite, map[]), Joins(pairs), max) ==
            Rooms(invite - MapWith(pairs, FromEmpty(max)).Keys, MapWith(pairs, FromEmpty(max)))
  {
    if pairs != [] {
      var n, f := |pairs| - 1, FromEmpty(max);
      assert Joins(pairs)[..n] == Joins(pairs[..n]);
      FeedJoins(invite, pairs[..n], max);
      MapWithKeys(pairs[..n], f, pairs[n].0);
      var before := MapWith(pairs[..n], f);
      assert pairs[n].0 !in before;
      assert invite - before.Keys - {pairs[n].0} == invite - (before.Keys + {pairs[n].0});
      assert MapWith(pairs, f).Keys == before.Keys + {pairs[n].0};
    }
  }

  lemma MapWithSameKeys(pairs: seq<(RoomId, JoinData)>, f: JoinData -> Room, rooms: map<RoomId, Room>)
    requires ListsRooms(pairs, rooms)
    ensures MapWith(pairs, f).Keys == rooms.Keys
  {
    forall r ensures r in MapWith(pairs, f) <==> r in rooms {
      MapWithKeys(pairs, f, r);
      assert r in rooms ==> Names(pairs, r);
    }
  }

  lemma FedUpdates(s: Snapshot)
    ensures RoomUpdates(AsResponse(s)) == Invites(s.invite) + Joins(s.join)
  {
  }

  /** The fresh accumulator's rooms: the invitations of rooms that are not joined, and the joined
      rooms one by one. */
  lemma FedRooms(acc: Accumulator, s: Snapshot, max: nat)
    requires ListsPairs(s.invite, acc.rooms.invite) && ListsRooms(s.join, acc.rooms.join)
    ensures UpdateRooms(NO_ROOMS, RoomUpdates(AsResponse(s)), max) ==
            Rooms(acc.rooms.invite - acc.rooms.join.Keys, MapWith(s.join, FromEmpty(max)))
    ensures MapWith(s.join, FromEmpty(max)).Keys == acc.rooms.join.Keys
  {
    FedUpdates(s);
    UpdateRoomsConcat(NO_ROOMS, Invites(s.invite), Joins(s.join), max);
    FeedInvites(s.invite, max);
    MapOfLists(s.invite, acc.rooms.invite);
    FeedJoins(acc.rooms.invite, s.join, max);
    MapWithSameKeys(s.join, FromEmpty(max), acc.rooms.join);
  }

  /** Adding groups to one category. */
  lemma {:induction false} FeedGroups(groups: Groups, category: GroupCategory, pairs: seq<(GroupId, Json)>)
    requires category != GroupInvite ==> groups.invite.Keys !! MapOf(pairs).Keys
    requires category != GroupJoin ==> groups.join.Keys !! MapOf(pairs).Keys
    requires category != GroupLeave ==> groups.leave.Keys !! MapOf(pairs).Keys
    ensures UpdateGroups(groups, Tagged(category, pairs)) == With(groups, category, MapOf(pairs))
  {
    if pairs == [] {
      assert groups.invite + map[] == groups.invite && groups.join + map[] == groups.join &&
             groups.leave + map[] == groups.leave;
    } else {
      var n := |pairs| - 1;
      var before := pairs[..n];
      assert MapOf(pairs) == MapOf(before)[pairs[n].0 := pairs[n].1];
      FeedGroups(groups, category, before);
      assert Tagged(category, pairs)[..n] == Tagged(category, before);
      OneMoreGroup(groups, category, MapOf(before), pairs[n].0, pairs[n].1);
    }
  }

  function With(groups: Groups, category: GroupCategory, m: map<GroupId, Json>): Groups {
    match category
    case GroupInvite => groups.(invite := groups.invite + m)
    case GroupJoin => groups.(join := groups.join + m)
    case GroupLeave => groups.(leave := groups.leave + m)
  }

  lemma OneMoreGroup(groups: Groups, category: GroupCategory, m: map<GroupId, Json>, id: GroupId, data: Json)
    requires category != GroupInvite ==> id !in groups.invite
    requires category != GroupJoin ==> id !in groups.join
    requires category != GroupLeave ==> id !in groups.leave
    ensures UpdateGroup(With(groups, category, m), GroupUpdate(category, id, data)) ==
            With(groups, category, m[id := data])
  {
    match category
    case GroupInvite => OneMoreMember(groups.invite, m, id, data);
    case GroupJoin => OneMoreMember(groups.join, m, id, data);
    case GroupLeave => OneMoreMember(groups.leave, m, id, data);
  }

  lemma OneMoreMember(category: map<GroupId, Json>, m: map<GroupId, Json>, id: GroupId, data: Json)
    ensures (category + m - {id})[id := data] == category + m[id := data]
  {
  }

  lemma {:induction false} UpdateGroupsConcat(groups: Groups, a: seq<GroupUpdate>, b: seq<GroupUpdate>)
    ensures UpdateGroups(groups, a + b) == UpdateGroups(UpdateGroups(groups, a), b)
  {
    if b == [] {
      assert a + b == a;
    } else {
      UpdateGroupsConcat(groups, a, b[..|b| - 1]);
      assert (a + b)[..|a + b| - 1] == a + b[..|b| - 1];
    }
  }

  lemma FedGroups(acc: Accumulator, s: Snapshot, max: nat)
    requires GroupsOk(acc.groups) && SnapshotOf(acc, s)
    ensures Accumulate(FRESH, AsResponse(s), max).groups == acc.groups
  {
    var g := acc.groups;
    MapOfLists(s.groupInvite, g.invite);
    MapOfLists(s.groupJoin, g.join);
    MapOfLists(s.groupLeave, g.leave);
    FeedAll(g, s.groupInvite, s.groupJoin, s.groupLeave);
  }

  lemma FeedAll(g: Groups, i: seq<(GroupId, Json)>, j: seq<(GroupId, Json)>, l: seq<(GroupId, Json)>)
    requires GroupsOk(g)
    requires MapOf(i) == g.invite && MapOf(j) == g.join && MapOf(l) == g.leave
    ensures UpdateGroups(FRESH.groups, Tagged(GroupInvite, i) + Tagged(GroupJoin, j) + Tagged(GroupLeave, l)) == g
  {
    UpdateGroupsConcat(FRESH.groups, Tagged(GroupInvite, i) + Tagged(GroupJoin, j), Tagged(GroupLeave, l));
    UpdateGroupsConcat(FRESH.groups, Tagged(GroupInvite, i), Tagged(GroupJoin, j));
    FeedGroups(FRESH.groups, GroupInvite, i);
    var one := With(FRESH.groups, GroupInvite, g.invite);
    FeedGroups(one, GroupJoin, j);
    var two := With(one, GroupJoin, g.join);
    FeedGroups(two, GroupLeave, l);
    AllCategories(g);
  }

  lemma AllCategories(g: Groups)
    ensures With(With(With(FRESH.groups, GroupInvite, g.invite), GroupJoin, g.join), GroupLeave, g.leave) == g
  {
    assert map[] + g.invite == g.invite && map[] + g.join == g.join && map[] + g.leave == g.leave;
  }

  lemma ListsRoomsSame(pairs: seq<(RoomId, JoinData)>, a: map<RoomId, Room>, b: map<RoomId, Room>)
    requires a.Keys == b.Keys
    requires forall r, e :: r in a ==> (RoomJson(a[r], e) <==> RoomJson(b[r], e))
    requires ListsRooms(pairs, a)
    ensures ListsRooms(pairs, b)
  {
  }

  lemma FedJoinsSame(rooms: map<RoomId, Room>, fed: seq<(RoomId, JoinData)>, max: nat, pairs: seq<(RoomId, JoinData)>)
    requires forall r :: r in rooms ==> RoomOk(rooms[r])
    requires ListsRooms(fed, rooms)
    ensures ListsRooms(pairs, MapWith(fed, FromEmpty(max))) <==> ListsRooms(pairs, rooms)
  {
    MapWithSameKeys(fed, FromEmpty(max), rooms);
    forall r, e | r in rooms
      ensures RoomJson(MapWith(fed, FromEmpty(max))[r], e) <==> RoomJson(rooms[r], e)
    {
      var i :| 0 <= i < |fed| && fed[i].0 == r;
      MapWithAt(fed, FromEmpty(max), i);
      RoomRoundTrip(rooms[r], fed[i].1, max, e);
    }
    if ListsRooms(pairs, rooms) {
      ListsRoomsSame(pairs, rooms, MapWith(fed, FromEmpty(max)));
    } else if ListsRooms(pairs, MapWith(fed, FromEmpty(max))) {
      ListsRoomsSame(pairs, MapWith(fed, FromEmpty(max)), rooms);
    }
  }

  /** Snapshot round trip. After any run, a fresh accumulator that is fed a snapshot has exactly the
      same snapshots as the original one, if and only if no room is both invited and joined. */
  lemma {:induction false} SnapshotRoundTrip(acc: Accumulator, s: Snapshot, max: nat)
    requires Consistent(acc) && SnapshotOf(acc, s)
    ensures NotBoth(acc.rooms) <==>
            forall t :: SnapshotOf(Accumulate(FRESH, AsResponse(s), max), t) <==> SnapshotOf(acc, t)
  {
    if NotBoth(acc.rooms) {
      Fed(acc, s, max);
      forall t ensures SnapshotOf(Accumulate(FRESH, AsResponse(s), max), t) <==> SnapshotOf(acc, t) {
        SameSnapshots(acc, s.join, max, Accumulate(FRESH, AsResponse(s), max), t);
      }
    } else {
      InvitationLost(acc, s, max);
    }
  }

  /** What a fresh accumulator that is fed a snapshot holds. */
  lemma {:induction false} Fed(acc: Accumulator, s: Snapshot, max: nat)
    requires Consistent(acc) && SnapshotOf(acc, s)
    ensures Accumulate(FRESH, AsResponse(s), max) ==
            acc.(rooms := Rooms(acc.rooms.invite - acc.rooms.join.Keys, MapWith(s.join, FromEmpty(max))))
  {
    FedRooms(acc, s, max);
    FedGroups(acc, s, max);
    ClobberLists(acc.accountData, s.accountData);
  }

  lemma SameButJoins(acc: Accumulator, joined: map<RoomId, Room>, t: Snapshot)
    requires ListsRooms(t.join, joined) <==> ListsRooms(t.join, acc.rooms.join)
    ensures SnapshotOf(acc.(rooms := Rooms(acc.rooms.invite, joined)), t) <==> SnapshotOf(acc, t)
  {
  }

  lemma SameSnapshots(acc: Accumulator, joins: seq<(RoomId, JoinData)>, max: nat, fed: Accumulator, t: Snapshot)
    requires RoomsOk(acc.rooms) && NotBoth(acc.rooms) && ListsRooms(joins, acc.rooms.join)
    requires fed == acc.(rooms := Rooms(acc.rooms.invite - acc.rooms.join.Keys, MapWith(joins, FromEmpty(max))))
    ensures SnapshotOf(fed, t) <==> SnapshotOf(acc, t)
  {
    var joined := MapWith(joins, FromEmpty(max));
    FedJoinsSame(acc.rooms.join, joins, max, t.join);
    assert acc.rooms.invite - acc.rooms.join.Keys == acc.rooms.invite;
    SameButJoins(acc, joined, t);
  }

  lemma NeedsInvitation(acc: Accumulator, s: Snapshot, r: RoomId, events: seq<Event>)
    requires (r, events) in s.invite && r !in acc.rooms.invite
    ensures !SnapshotOf(acc, s)
  {
    var i :| 0 <= i < |s.invite| && s.invite[i] == (r, events);
  }

  /** A room that is invited and joined loses its invitation. */
  lemma InvitationLost(acc: Accumulator, s: Snapshot, max: nat)
    requires Consistent(acc) && SnapshotOf(acc, s) && !NotBoth(acc.rooms)
    ensures !SnapshotOf(Accumulate(FRESH, AsResponse(s), max), s)
  {
    Fed(acc, s, max);
    var r :| r in acc.rooms.invite && r in acc.rooms.join;
    NeedsInvitation(Accumulate(FRESH, AsResponse(s), max), s, r, acc.rooms.invite[r]);
  }

  /** The round trip on every run that follows the transition diagram. */
  lemma {:induction false} RunRoundTrip(responses: seq<SyncResponse>, s: Snapshot, max: nat)
    requires FollowsDiagram(AllUpdates(responses))
    requires SnapshotOf(Run(responses, max), s)
    ensures forall t :: SnapshotOf(Accumulate(FRESH, AsResponse(s), max), t) <==> SnapshotOf(Run(responses, max), t)
  {
    RunOk(responses, max);
    RunIsUpdates(responses, max);
    DiagramSeparates(AllUpdates(responses), max);
    SnapshotRoundTrip(Run(responses, max), s, max);
  }

  /** What a snapshot says of one room, in terms of what was sent for that room. */
  lemma SnapshotOfRun(responses: seq<SyncResponse>, s: Snapshot, max: nat, i: nat)
    requires SnapshotOf(Run(responses, max), s) && i < |s.join|
    ensures s.join[i].0 in Run(responses, max).rooms.join
    ensures var room := RunRoom(JoinHistory(AllUpdates(responses), s.join[i].0), max);
            Run(responses, max).rooms.join[s.join[i].0] == room && RoomOk(room) && RoomJson(room, s.join[i].1)
  {
    RunOk(responses, max);
    RunIsUpdates(responses, max);
    JoinedRoomIsItsRun(AllUpdates(responses), s.join[i].0, max);
  }

  /** Replay of a snapshot after any run: processing the state and the timeline that the snapshot holds
      for a room gives exactly the state that was accumulated for it, if and only if no `state` section
      had the last word on a key of that timeline. */
  lemma {:induction false} SnapshotReplays(responses: seq<SyncResponse>, s: Snapshot, max: nat, i: nat)
    requires SnapshotOf(Run(responses, max), s) && i < |s.join|
    ensures s.join[i].0 in Run(responses, max).rooms.join
    ensures Apply(Apply(map[], s.join[i].1.stateEvents), s.join[i].1.timelineEvents) ==
            Run(responses, max).rooms.join[s.join[i].0].state <==>
            SyncReplay.Confirmed(JoinHistory(AllUpdates(responses), s.join[i].0), max)
  {
    var history := JoinHistory(AllUpdates(responses), s.join[i].0);
    SnapshotOfRun(responses, s, max, i);
    SyncReplay.Replay(history, max);
    JsonReplays(RunRoom(history, max), s.join[i].1);
  }

  lemma JsonReplays(room: Room, d: JoinData)
    requires RoomOk(room) && RoomJson(room, d)
    ensures Apply(Apply(map[], d.stateEvents), d.timelineEvents) == room.state <==> SyncReplay.Replays(room)
  {
    EmittedStateKeyed(room.state, d.timelineEvents);
    ApplyLists(EmittedState(room.state, d.timelineEvents), d.stateEvents);
  }
}
