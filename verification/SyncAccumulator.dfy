/** src/sync-accumulator.js as it is written: fields that loops update in place, proved against the
    operations of `SyncModel` and the snapshots of `SyncSnapshot`. */
module SyncAccumulatorClass {
  import opened Common
  import opened SyncModel
  import opened SyncSnapshot

  class SyncAccumulator {
    const maxTimelineEntries: nat
    var accountData: AccountData
    var inviteRooms: map<RoomId, seq<Event>>
    var joinRooms: map<RoomId, Room>
    var groups: Groups
    var nextBatch: Option<Token>

    ghost function Contents(): Accumulator
      reads this
    {
      Accumulator(accountData, Rooms(inviteRooms, joinRooms), groups, nextBatch)
    }

    constructor (maxTimelineEntries: nat)
      ensures Contents() == FRESH
      ensures this.maxTimelineEntries == if maxTimelineEntries == 0 then 50 else maxTimelineEntries
    {
      this.maxTimelineEntries := if maxTimelineEntries == 0 then 50 else maxTimelineEntries;
      accountData, inviteRooms, joinRooms, nextBatch := map[], map[], map[], None;
      groups := Groups(map[], map[], map[]);
    }

    method Accumulate(res: SyncResponse)
      modifies this
      ensures Contents() == SyncModel.Accumulate(old(Contents()), res, maxTimelineEntries)
    {
      AccumulateRooms(RoomUpdates(res));
      AccumulateGroups(GroupUpdates(res));
      accountData := ClobberAll(accountData, res.accountData);
      nextBatch := res.nextBatch;
    }

    method AccumulateRooms(updates: seq<RoomUpdate>)
      modifies this
      ensures Contents() == old(Contents()).(rooms := UpdateRooms(old(Contents()).rooms, updates, maxTimelineEntries))
    {
      ghost var start := Contents();
      for i := 0 to |updates|
        invariant Contents() == start.(rooms := UpdateRooms(start.rooms, updates[..i], maxTimelineEntries))
      {
        assert updates[..i + 1][..i] == updates[..i];
        AccumulateRoom(updates[i]);
      }
      assert updates[..|updates|] == updates;
    }

    method AccumulateRoom(u: RoomUpdate)
      modifies this
      ensures Contents() == old(Contents()).(rooms := UpdateRoom(old(Contents()).rooms, u, maxTimelineEntries))
    {
      match u {
        case Invite(roomId, inviteState) =>
          if inviteState.Some? {
            AccumulateInviteState(roomId, inviteState.value);
          }
        case Join(roomId, data) =>
          inviteRooms := inviteRooms - {roomId};
          AccumulateJoinState(roomId, data);
        case Leave(roomId) =>
          if roomId in inviteRooms {
            inviteRooms := inviteRooms - {roomId};
          } else {
            joinRooms := joinRooms - {roomId};
          }
      }
    }

    method AccumulateInviteState(roomId: RoomId, events: seq<Event>)
      modifies this`inviteRooms
      ensures inviteRooms == old(inviteRooms)[roomId :=
                if roomId in old(inviteRooms) then ClobberInvites(old(inviteRooms)[roomId], events) else events]
    {
      if roomId !in inviteRooms {
        inviteRooms := inviteRooms[roomId := events];
        return;
      }
      var current := inviteRooms[roomId];
      for n := 0 to |events|
        invariant current == ClobberInvites(inviteRooms[roomId], events[..n])
      {
        assert events[..n + 1][..n] == events[..n];
        var e, hasAdded, before := events[n], false, current;
        for i := 0 to |before|
          invariant |current| == |before|
          invariant hasAdded <==> exists j :: 0 <= j < i && SameInviteKey(before[j], e)
          invariant forall j :: 0 <= j < |before| ==>
                      current[j] == if j < i && SameInviteKey(before[j], e) then e else before[j]
        {
          if SameInviteKey(current[i], e) {
            current := current[i := e];
            hasAdded := true;
          }
        }
        if !hasAdded {
          assert current == before;
          current := current + [e];
        }
        assert current == ClobberInvite(before, e);
      }
      assert events[..|events|] == events;
      inviteRooms := inviteRooms[roomId := current];
    }

    method AccumulateJoinState(roomId: RoomId, data: JoinData)
      modifies this`joinRooms
      ensures joinRooms == old(joinRooms)[roomId :=
                AccumulateJoin(if roomId in old(joinRooms) then old(joinRooms)[roomId] else EMPTY_ROOM,
                               data, maxTimelineEntries)]
    {
      var room := if roomId in joinRooms then joinRooms[roomId] else EMPTY_ROOM;
      var account := ClobberAll(room.accountData, data.accountData);
      var unread := if data.unread.Some? then data.unread.value else room.unread;
      var summary := MergeSummary(room.summary, data.summary);
      var receipts := AccumulateReceipts(room.receipts, data.ephemeral);
      var timeline := if data.limited then [] else room.timeline;
      var state := SetStates(room.state, data.stateEvents);
      state, timeline := AccumulateTimeline(state, timeline, data.timelineEvents, data.prevBatch);
      assert timeline == Extended(room, data);
      timeline := PruneTimeline(timeline);
      joinRooms := joinRooms[roomId := Room(state, timeline, account, unread, summary, receipts)];
    }

    /** Cuts the timeline at the first token that leaves no more entries than the limit. */
    method PruneTimeline(timeline: seq<Entry>) returns (kept: seq<Entry>)
      ensures kept == Prune(timeline, maxTimelineEntries)
    {
      kept := timeline;
      if |timeline| > maxTimelineEntries {
        var startIndex := |timeline| - maxTimelineEntries;
        var i := startIndex;
        while i < |timeline|
          invariant startIndex <= i <= |timeline|
          invariant FirstToken(timeline, startIndex) == FirstToken(timeline, i)
        {
          if timeline[i].token.Some? {
            kept := timeline[i..];
            return;
          }
          i := i + 1;
        }
      }
    }

    method AccumulateGroups(updates: seq<GroupUpdate>)
      modifies this`groups
      ensures groups == UpdateGroups(old(groups), updates)
    {
      for i := 0 to |updates|
        invariant groups == UpdateGroups(old(groups), updates[..i])
      {
        assert updates[..i + 1][..i] == updates[..i];
        groups := UpdateGroup(groups, updates[i]);
      }
      assert updates[..|updates|] == updates;
    }

    /** `getJSON`: any enumeration order of the objects' members gives a snapshot. */
    method GetJSON() returns (s: Snapshot)
      ensures SnapshotOf(Contents(), s)
    {
      var invite := ListPairs(inviteRooms);
      var join := ListRooms(joinRooms);
      var groupInvite := ListPairs(groups.invite);
      var groupJoin := ListPairs(groups.join);
      var groupLeave := ListPairs(groups.leave);
      var account := ListAccountData(accountData);
      s := Snapshot(nextBatch, invite, join, groupInvite, groupJoin, groupLeave, account);
    }
  }

  // ---------- the loops of accumulate ----------

  method ClobberAll(data: AccountData, events: seq<Event>) returns (r: AccountData)
    ensures r == Clobber(data, events)
  {
    r := data;
    for i := 0 to |events|
      invariant r == Clobber(data, events[..i])
    {
      assert events[..i + 1][..i] == events[..i];
      r := r[events[i].evType := events[i]];
    }
    assert events[..|events|] == events;
  }

  method SetStates(state: RoomState, events: seq<Event>) returns (r: RoomState)
    ensures r == Apply(state, events)
  {
    r := state;
    for i := 0 to |events|
      invariant r == Apply(state, events[..i])
    {
      assert events[..i + 1][..i] == events[..i];
      r := SetState(r, events[i]);
    }
    assert events[..|events|] == events;
  }

  method AccumulateTimeline(state: RoomState, timeline: seq<Entry>, events: seq<Event>, prevBatch: Option<Token>)
    returns (s: RoomState, t: seq<Entry>)
    ensures s == Apply(state, events)
    ensures t == timeline + Entries(events, prevBatch)
  {
    s, t := state, timeline;
    for i := 0 to |events|
      invariant s == Apply(state, events[..i])
      invariant t == timeline + Entries(events, prevBatch)[..i]
    {
      assert events[..i + 1][..i] == events[..i];
      s := SetState(s, events[i]);
      t := t + [Entry(events[i], if i == 0 then prevBatch else None)];
    }
    assert events[..|events|] == events;
  }

  method AccumulateReceipts(receipts: Receipts, events: seq<Ephemeral>) returns (r: Receipts)
    ensures r == AddEphemeral(receipts, events)
  {
    r := receipts;
    for i := 0 to |events|
      invariant r == AddEphemeral(receipts, events[..i])
    {
      assert events[..i + 1][..i] == events[..i];
      if events[i].ReceiptEvent? && events[i].content.Some? {
        r := AccumulateContent(r, events[i].content.value);
      }
    }
    assert events[..|events|] == events;
  }

  method AccumulateContent(receipts: Receipts, content: ReceiptContent) returns (r: Receipts)
    ensures r == AddContent(receipts, content)
  {
    r := receipts;
    for i := 0 to |content|
      invariant r == AddContent(receipts, content[..i])
    {
      assert content[..i + 1][..i] == content[..i];
      if content[i].1.Some? {
        var before, readers := r, content[i].1.value;
        for j := 0 to |readers|
          invariant r == AddReaders(before, content[i].0, readers[..j])
        {
          assert readers[..j + 1][..j] == readers[..j];
          r := r[readers[j].0 := Receipt(readers[j].1, content[i].0)];
        }
        assert readers[..|readers|] == readers;
      }
    }
    assert content[..|content|] == content;
  }

  // ---------- the loops of getJSON ----------

  method ListPairs<K(==), V>(m: map<K, V>) returns (pairs: seq<(K, V)>)
    ensures ListsPairs(pairs, m)
  {
    pairs := [];
    var todo := m.Keys;
    while todo != {}
      invariant todo <= m.Keys
      invariant forall i, j :: 0 <= i < j < |pairs| ==> pairs[i].0 != pairs[j].0
      invariant forall i :: 0 <= i < |pairs| ==>
                  pairs[i].0 in m && pairs[i].0 !in todo && m[pairs[i].0] == pairs[i].1
      invariant forall k :: k in m && k !in todo ==> (k, m[k]) in pairs
      decreases todo
    {
      var k :| k in todo;
      todo := todo - {k};
      pairs := pairs + [(k, m[k])];
    }
  }

  method ListAccountData(m: AccountData) returns (events: seq<Event>)
    ensures Lists(events, m)
  {
    events := [];
    var todo := m.Keys;
    while todo != {}
      invariant todo <= m.Keys
      invariant |events| + |todo| == |m|
      invariant forall i :: 0 <= i < |events| ==> events[i] in m.Values
      invariant forall k :: k in m && k !in todo ==> m[k] in events
      decreases todo
    {
      var k :| k in todo;
      todo := todo - {k};
      events := events + [m[k]];
    }
  }

  method ListRooms(rooms: map<RoomId, Room>) returns (pairs: seq<(RoomId, JoinData)>)
    ensures ListsRooms(pairs, rooms)
  {
    pairs := [];
    var todo := rooms.Keys;
    while todo != {}
      invariant todo <= rooms.Keys
      invariant ListsRooms(pairs, rooms - todo)
      decreases todo
    {
      var r :| r in todo;
      var d := GetRoomJSON(rooms[r]);
      OneMoreRoom(pairs, rooms, todo, r, d);
      todo := todo - {r};
      pairs := pairs + [(r, d)];
    }
    assert rooms - todo == rooms;
  }

  lemma OneMoreName(pairs: seq<(RoomId, JoinData)>, r: RoomId, d: JoinData, q: RoomId)
    requires q == r || Names(pairs, q)
    ensures Names(pairs + [(r, d)], q)
  {
    var more := pairs + [(r, d)];
    if q == r {
      assert more[|pairs|].0 == q;
    } else {
      var i :| 0 <= i < |pairs| && pairs[i].0 == q;
      assert more[i].0 == q;
    }
  }

  lemma OneMoreRoom(pairs: seq<(RoomId, JoinData)>, rooms: map<RoomId, Room>, todo: set<RoomId>, r: RoomId, d: JoinData)
    requires todo <= rooms.Keys && r in todo && ListsRooms(pairs, rooms - todo) && RoomJson(rooms[r], d)
    ensures ListsRooms(pairs + [(r, d)], rooms - (todo - {r}))
  {
    var more, before, listed := pairs + [(r, d)], rooms - todo, rooms - (todo - {r});
    assert listed == before[r := rooms[r]];
    forall q | q in listed ensures Names(more, q) {
      OneMoreName(pairs, r, d, q);
    }
  }

  method GetRoomJSON(room: Room) returns (d: JoinData)
    ensures RoomJson(room, d)
  {
    var account := ListAccountData(room.accountData);
    var ephemeral := EmitReceipts(room.receipts);
    var events, prevBatch := EmitTimeline(room.timeline);
    var state := EmitState(room.state, events);
    d := JoinData(account, Some(room.unread), Some(room.summary), ephemeral, false, state, events, prevBatch);
  }

  /** Everything before the first token is left out, since no `prev_batch` could go with it. */
  method EmitTimeline(timeline: seq<Entry>) returns (events: seq<Event>, prevBatch: Option<Token>)
    ensures events == Events(Emitted(timeline))
    ensures prevBatch == PrevBatch(timeline)
  {
    events, prevBatch := [], None;
    var first := FirstToken(timeline, 0);
    for i := 0 to |timeline|
      invariant prevBatch == if i <= first then None else PrevBatch(timeline)
      invariant events == if i <= first then [] else Events(timeline[first..i])
    {
      if prevBatch.None? {
        if timeline[i].token.None? {
          continue;
        }
        prevBatch := timeline[i].token;
      }
      events := events + [timeline[i].event];
    }
  }

  /** Rolls the current state back to the start of the timeline, from its end to its start. */
  method EmitState(state: RoomState, events: seq<Event>) returns (r: seq<Event>)
    ensures Lists(r, EmittedState(state, events))
  {
    var back: RoomState := map[];
    var i := |events|;
    while i > 0
      invariant 0 <= i <= |events|
      invariant back == RollBack(events[i..])
    {
      i := i - 1;
      assert events[i..][1..] == events[i + 1..];
      if events[i].stateKey.Some? {
        back := SetState(back, Previous(events[i]));
      }
    }
    r := [];
    ghost var emitted := EmittedState(state, events);
    var todo := state.Keys;
    while todo != {}
      invariant todo <= state.Keys
      invariant |r| + |todo| == |state|
      invariant forall i :: 0 <= i < |r| ==> r[i] in emitted.Values
      invariant forall k :: k in state && k !in todo ==> emitted[k] in r
      decreases todo
    {
      var k :| k in todo;
      todo := todo - {k};
      assert emitted[k] in emitted.Values;
      r := r + [if k in back then back[k] else state[k]];
    }
    assert emitted.Keys == state.Keys;
    assert |emitted| == |state|;
  }

  /** Turns the receipts around: keyed by event, then by user. */
  method EmitReceipts(receipts: Receipts) returns (events: seq<Ephemeral>)
    ensures EmitsReceipts(events, receipts)
  {
    var content: ReceiptContent := [];
    var todo := receipts.Keys;
    while todo != {}
      invariant todo <= receipts.Keys
      invariant Inverts(content, receipts - todo)
      decreases todo
    {
      var u :| u in todo;
      var done := receipts - todo;
      todo := todo - {u};
      content := AddReceipt(content, done, u, receipts[u]);
      assert receipts - todo == done[u := receipts[u]];
    }
    assert receipts - todo == receipts;
    if content == [] {
      events := [];
    } else {
      assert content[0].1.value[0].0 in receipts;
      events := [ReceiptEvent(Some(content))];
    }
  }

  method AddReceipt(content: ReceiptContent, ghost done: Receipts, u: UserId, receipt: Receipt)
    returns (r: ReceiptContent)
    requires Inverts(content, done) && u !in done
    ensures Inverts(r, done[u := receipt])
  {
    var i := 0;
    while i < |content| && content[i].0 != receipt.eventId
      invariant 0 <= i <= |content|
      invariant forall j :: 0 <= j < i ==> content[j].0 != receipt.eventId
    {
      i := i + 1;
    }
    if i == |content| {
      r := content + [(receipt.eventId, Some([(u, receipt.data)]))];
    } else {
      assert content[i].1.Some?;
      r := content[i := (receipt.eventId, Some(content[i].1.value + [(u, receipt.data)]))];
    }
    ReceiptAdded(content, done, u, receipt, i, r);
  }

  lemma ReceiptAdded(content: ReceiptContent, done: Receipts, u: UserId, receipt: Receipt, i: nat, r: ReceiptContent)
    requires Inverts(content, done) && u !in done
    requires i <= |content| && (forall j :: 0 <= j < i ==> content[j].0 != receipt.eventId)
    requires if i == |content| then r == content + [(receipt.eventId, Some([(u, receipt.data)]))]
             else content[i].1.Some? && content[i].0 == receipt.eventId &&
                  r == content[i := (receipt.eventId, Some(content[i].1.value + [(u, receipt.data)]))]
    ensures Inverts(r, done[u := receipt])
  {
    var all := done[u := receipt];
    forall j | 0 <= j < |r|
      ensures r[j].1.Some? && ListsReaders(r[j].0, r[j].1.value, all)
    {
      if j != i {
        assert r[j] == content[j];
      }
    }
    forall v | v in all
      ensures exists j :: 0 <= j < |r| && r[j].1.Some? && r[j].0 == all[v].eventId && (v, all[v].data) in r[j].1.value
    {
      if v == u {
        assert (u, receipt.data) in r[i].1.value;
      } else {
        var j :| 0 <= j < |content| && content[j].1.Some? && content[j].0 == done[v].eventId &&
                 (v, done[v].data) in content[j].1.value;
        assert (v, all[v].data) in r[j].1.value;
      }
    }
  }
}
