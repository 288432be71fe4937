/** What holds of the accumulator after any run of responses, whatever the server sends. */
module SyncInvariants {
  import opened Common
  import opened SyncModel
  import opened SyncClobber

  ghost predicate AccountKeyed(m: AccountData) {
    forall t :: t in m ==> m[t].evType == t
  }

  ghost predicate StateKeyed(state: RoomState) {
    forall k :: k in state ==> IsState(state[k]) && KeyOf(state[k]) == k
  }

  /** Every state event of the list has an entry in the state. */
  ghost predicate Covers(state: RoomState, events: seq<Event>) {
    forall i :: 0 <= i < |events| && IsState(events[i]) ==> KeyOf(events[i]) in state
  }

  ghost predicate RoomOk(room: Room) {
    && StateKeyed(room.state)
    && Covers(room.state, Events(room.timeline))
    && AccountKeyed(room.accountData)
    && room.summary.joined != Some(0) && room.summary.invited != Some(0)
  }

  /** A group is in at most one category. */
  ghost predicate GroupsOk(g: Groups) {
    g.invite.Keys !! g.join.Keys && g.invite.Keys !! g.leave.Keys && g.join.Keys !! g.leave.Keys
  }

  ghost predicate RoomsOk(rooms: Rooms) {
    forall r :: r in rooms.join ==> RoomOk(rooms.join[r])
  }

  ghost predicate Consistent(acc: Accumulator) {
    AccountKeyed(acc.accountData) && RoomsOk(acc.rooms) && GroupsOk(acc.groups)
  }

  lemma {:induction false} ClobberKeyed(m: AccountData, events: seq<Event>)
    requires AccountKeyed(m)
    ensures AccountKeyed(Clobber(m, events))
  {
    if events != [] {
      ClobberKeyed(m, events[..|events| - 1]);
    }
  }

  lemma {:induction false} ApplyKeyed(state: RoomState, events: seq<Event>)
    requires StateKeyed(state)
    ensures StateKeyed(Apply(state, events))
    ensures state.Keys <= Apply(state, events).Keys
    ensures Covers(Apply(state, events), events)
  {
    if events != [] {
      ApplyKeyed(state, events[..|events| - 1]);
      assert forall i :: 0 <= i < |events| - 1 ==> events[..|events| - 1][i] == events[i];
    }
  }

  lemma SuffixCovered(state: RoomState, events: seq<Event>, n: nat)
    requires Covers(state, events) && n <= |events|
    ensures Covers(state, events[n..])
  {
    forall i | 0 <= i < |events| - n && IsState(events[n..][i])
      ensures KeyOf(events[n..][i]) in state
    {
      assert events[n..][i] == events[n + i];
    }
  }

  lemma PruneCovered(state: RoomState, timeline: seq<Entry>, max: nat)
    requires Covers(state, Events(timeline))
    ensures Covers(state, Events(Prune(timeline, max)))
  {
    var n := |timeline| - |Prune(timeline, max)|;
    assert Events(Prune(timeline, max)) == Events(timeline)[n..];
    SuffixCovered(state, Events(timeline), n);
  }

  lemma JoinKeepsOk(room: Room, d: JoinData, max: nat)
    requires RoomOk(room)
    ensures RoomOk(AccumulateJoin(room, d, max))
  {
    ApplyKeyed(room.state, d.stateEvents);
    var middle := Apply(room.state, d.stateEvents);
    ApplyKeyed(middle, d.timelineEvents);
    ClobberKeyed(room.accountData, d.accountData);
    var state, timeline := Apply(middle, d.timelineEvents), Extended(room, d);
    var k := if d.limited then 0 else |room.timeline|;
    assert forall i :: 0 <= i < |timeline| ==>
      Events(timeline)[i] == (if i < k then Events(room.timeline)[i] else d.timelineEvents[i - k]);
    assert Covers(state, Events(timeline));
    PruneCovered(state, timeline, max);
  }

  lemma {:induction false} UpdateRoomsOk(rooms: Rooms, updates: seq<RoomUpdate>, max: nat)
    requires RoomsOk(rooms)
    ensures RoomsOk(UpdateRooms(rooms, updates, max))
  {
    if updates != [] {
      UpdateRoomsOk(rooms, updates[..|updates| - 1], max);
      var before, u := UpdateRooms(rooms, updates[..|updates| - 1], max), updates[|updates| - 1];
      if u.Join? {
        JoinKeepsOk(if u.roomId in before.join then before.join[u.roomId] else EMPTY_ROOM, u.data, max);
      }
    }
  }

  lemma {:induction false} UpdateGroupsOk(groups: Groups, updates: seq<GroupUpdate>)
    requires GroupsOk(groups)
    ensures GroupsOk(UpdateGroups(groups, updates))
  {
    if updates != [] {
      UpdateGroupsOk(groups, updates[..|updates| - 1]);
    }
  }

  /** Every run keeps the invariant. */
  lemma {:induction false} RunOk(responses: seq<SyncResponse>, max: nat)
    ensures Consistent(Run(responses, max))
  {
    if responses != [] {
      var before, res := Run(responses[..|responses| - 1], max), responses[|responses| - 1];
      RunOk(responses[..|responses| - 1], max);
      ClobberKeyed(before.accountData, res.accountData);
      UpdateRoomsOk(before.rooms, RoomUpdates(res), max);
      UpdateGroupsOk(before.groups, GroupUpdates(res));
    }
  }

  // ---------- each joined room is the run of its own history ----------

  const NO_ROOMS := Rooms(map[], map[])

  function AllUpdates(responses: seq<SyncResponse>): seq<RoomUpdate> {
    if responses == [] then []
    else AllUpdates(responses[..|responses| - 1]) + RoomUpdates(responses[|responses| - 1])
  }

  lemma {:induction false} UpdateRoomsConcat(rooms: Rooms, a: seq<RoomUpdate>, b: seq<RoomUpdate>, max: nat)
    ensures UpdateRooms(rooms, a + b, max) == UpdateRooms(UpdateRooms(rooms, a, max), b, max)
  {
    if b == [] {
      assert a + b == a;
    } else {
      UpdateRoomsConcat(rooms, a, b[..|b| - 1], max);
      assert (a + b)[..|a + b| - 1] == a + b[..|b| - 1];
    }
  }

  lemma {:induction false} RunIsUpdates(responses: seq<SyncResponse>, max: nat)
    ensures Run(responses, max).rooms == UpdateRooms(NO_ROOMS, AllUpdates(responses), max)
  {
    if responses != [] {
      var before := responses[..|responses| - 1];
      RunIsUpdates(before, max);
      UpdateRoomsConcat(NO_ROOMS, AllUpdates(before), RoomUpdates(responses[|responses| - 1]), max);
    }
  }

  /** The invite states sent for room `r` since it was last joined or left. */
  function InviteHistory(updates: seq<RoomUpdate>, r: RoomId): seq<seq<Event>> {
    if updates == [] then [] else
      var before, u := updates[..|updates| - 1], updates[|updates| - 1];
      if u.roomId != r then InviteHistory(before, r)
      else match u
        case Invite(_, state) => if state.None? then InviteHistory(before, r) else InviteHistory(before, r) + [state.value]
        case Join(_, _) => []
        case Leave(_) => []
  }

  /** The data sent for room `r` since it was last (re)joined. A `leave` for a room that is also
      invited only withdraws the invitation. */
  function JoinHistory(updates: seq<RoomUpdate>, r: RoomId): seq<JoinData> {
    if updates == [] then [] else
      var before, u := updates[..|updates| - 1], updates[|updates| - 1];
      if u.roomId != r then JoinHistory(before, r)
      else match u
        case Invite(_, _) => JoinHistory(before, r)
        case Join(_, data) => JoinHistory(before, r) + [data]
        case Leave(_) => if InviteHistory(before, r) != [] then JoinHistory(before, r) else []
  }

  function Flatten(lists: seq<seq<Event>>): seq<Event> {
    if lists == [] then [] else Flatten(lists[..|lists| - 1]) + lists[|lists| - 1]
  }

  lemma {:induction false} InvitesAreClobbered(updates: seq<RoomUpdate>, r: RoomId, max: nat)
    ensures var rooms, history := UpdateRooms(NO_ROOMS, updates, max), InviteHistory(updates, r);
            (r in rooms.invite <==> history != []) &&
            (r in rooms.invite ==> rooms.invite[r] == ClobberInvites(history[0], Flatten(history[1..])))
  {
    if updates != [] {
      var before, u := updates[..|updates| - 1], updates[|updates| - 1];
      InvitesAreClobbered(before, r, max);
      var history, after := InviteHistory(before, r), InviteHistory(updates, r);
      if u.roomId == r && u.Invite? && u.inviteState.Some? && history != [] {
        assert after[1..] == history[1..] + [u.inviteState.value];
        assert after[1..][..|history| - 1] == history[1..];
        ClobberConcat(history[0], Flatten(history[1..]), u.inviteState.value);
      } else if u.roomId == r && u.Invite? && u.inviteState.Some? {
        assert after == [u.inviteState.value] && after[1..] == [];
      }
    }
  }

  /** A room is invited after a run exactly if invite state was sent for it since its last join or leave; and
      what is held for it is the first such list in its order, then new keys as they arrived, with the newest
      event for each key. */
  lemma InvitedRoomIsItsHistory(updates: seq<RoomUpdate>, r: RoomId, max: nat)
    ensures var rooms, history := UpdateRooms(NO_ROOMS, updates, max), InviteHistory(updates, r);
            (r in rooms.invite <==> history != []) &&
            (r in rooms.invite ==> IsInviteState(history[0], Flatten(history[1..]), rooms.invite[r]))
  {
    InvitesAreClobbered(updates, r, max);
    var history := InviteHistory(updates, r);
    if history != [] {
      ClobberedIs(history[0], Flatten(history[1..]));
    }
  }

  /** What is accumulated for a room depends on that room's own data since its last join and on
      nothing else, so that the results about `RunRoom` hold of every joined room. */
  lemma {:induction false} JoinedRoomIsItsRun(updates: seq<RoomUpdate>, r: RoomId, max: nat)
    ensures var rooms, history := UpdateRooms(NO_ROOMS, updates, max), JoinHistory(updates, r);
            (r in rooms.join <==> history != []) &&
            (r in rooms.join ==> rooms.join[r] == RunRoom(history, max))
  {
    if updates != [] {
      var before, u := updates[..|updates| - 1], updates[|updates| - 1];
      JoinedRoomIsItsRun(before, r, max);
      InvitesAreClobbered(before, r, max);
      if u.roomId == r && u.Join? {
        var history := JoinHistory(before, r);
        assert (history + [u.data])[..|history|] == history;
      }
    }
  }

  // ---------- what one response does to the categories ----------

  ghost predicate Concerns(updates: seq<RoomUpdate>, r: RoomId) {
    exists i :: 0 <= i < |updates| && updates[i].roomId == r && (updates[i].Invite? ==> updates[i].inviteState.Some?)
  }

  lemma ConcernsOneMore(updates: seq<RoomUpdate>, r: RoomId)
    requires updates != []
    ensures var n := |updates| - 1;
            Concerns(updates, r) <==>
              Concerns(updates[..n], r) || (updates[n].roomId == r && (updates[n].Invite? ==> updates[n].inviteState.Some?))
  {
    var n := |updates| - 1;
    if i :| 0 <= i < n && updates[..n][i].roomId == r && (updates[..n][i].Invite? ==> updates[..n][i].inviteState.Some?) {
      assert updates[i] == updates[..n][i];
    }
    if i :| 0 <= i < n && updates[i].roomId == r && (updates[i].Invite? ==> updates[i].inviteState.Some?) {
      assert updates[i] == updates[..n][i];
    }
  }

  lemma {:induction false} OnlyInvites(rooms: Rooms, updates: seq<RoomUpdate>, r: RoomId, max: nat)
    requires forall i :: 0 <= i < |updates| ==> updates[i].Invite?
    ensures var after := UpdateRooms(rooms, updates, max);
            (r in after.invite <==> r in rooms.invite || Concerns(updates, r)) && (r in after.join <==> r in rooms.join)
  {
    if updates != [] {
      OnlyInvites(rooms, updates[..|updates| - 1], r, max);
      ConcernsOneMore(updates, r);
    }
  }

  lemma {:induction false} OnlyJoins(rooms: Rooms, updates: seq<RoomUpdate>, r: RoomId, max: nat)
    requires forall i :: 0 <= i < |updates| ==> updates[i].Join?
    ensures var after := UpdateRooms(rooms, updates, max);
            (r in after.invite <==> r in rooms.invite && !Concerns(updates, r)) &&
            (r in after.join <==> r in rooms.join || Concerns(updates, r))
  {
    if updates != [] {
      OnlyJoins(rooms, updates[..|updates| - 1], r, max);
      ConcernsOneMore(updates, r);
    }
  }

  lemma {:induction false} OnlyLeaves(rooms: Rooms, updates: seq<RoomUpdate>, r: RoomId, max: nat)
    requires forall i :: 0 <= i < |updates| ==> updates[i].Leave?
    requires forall i, j :: 0 <= i < j < |updates| ==> updates[i].roomId != updates[j].roomId
    ensures var after := UpdateRooms(rooms, updates, max);
            (r in after.invite <==> r in rooms.invite && !Concerns(updates, r)) &&
            (r in after.join <==> r in rooms.join && (r in rooms.invite || !Concerns(updates, r)))
  {
    if updates != [] {
      var n := |updates| - 1;
      OnlyLeaves(rooms, updates[..n], r, max);
      ConcernsOneMore(updates, r);
      assert updates[n].roomId == r ==> !Concerns(updates[..n], r);
    }
  }

  ghost predicate InvitedBy(res: SyncResponse, r: RoomId) {
    exists i :: 0 <= i < |res.invite| && res.invite[i].0 == r && res.invite[i].1.Some?
  }

  ghost predicate JoinedBy(res: SyncResponse, r: RoomId) {
    exists i :: 0 <= i < |res.join| && res.join[i].0 == r
  }

  /** Which rooms are invited and joined after a response, in terms of what it lists: joining accepts an
      invitation, also one of the same response; leaving rejects an invitation if there is one then, and
      leaves the room otherwise. */
  lemma ResponseMoves(acc: Accumulator, res: SyncResponse, max: nat, r: RoomId)
    requires forall i, j :: 0 <= i < j < |res.leave| ==> res.leave[i] != res.leave[j]
    ensures var before, after := acc.rooms, Accumulate(acc, res, max).rooms;
            var invited := (r in before.invite || InvitedBy(res, r)) && !JoinedBy(res, r);
            (r in after.invite <==> invited && r !in res.leave) &&
            (r in after.join <==> (r in before.join || JoinedBy(res, r)) && (invited || r !in res.leave))
  {
    Concerned(res, r);
    ThreeParts(acc.rooms, InviteUpdates(res), JoinUpdates(res), LeaveUpdates(res), r, max);
  }

  lemma ThreeParts(rooms: Rooms, i: seq<RoomUpdate>, j: seq<RoomUpdate>, l: seq<RoomUpdate>, r: RoomId, max: nat)
    requires forall k :: 0 <= k < |i| ==> i[k].Invite?
    requires forall k :: 0 <= k < |j| ==> j[k].Join?
    requires forall k :: 0 <= k < |l| ==> l[k].Leave?
    requires forall k, m :: 0 <= k < m < |l| ==> l[k].roomId != l[m].roomId
    ensures var after := UpdateRooms(rooms, i + j + l, max);
            var invited := (r in rooms.invite || Concerns(i, r)) && !Concerns(j, r);
            (r in after.invite <==> invited && !Concerns(l, r)) &&
            (r in after.join <==> (r in rooms.join || Concerns(j, r)) && (invited || !Concerns(l, r)))
  {
    UpdateRoomsConcat(rooms, i + j, l, max);
    UpdateRoomsConcat(rooms, i, j, max);
    OnlyInvites(rooms, i, r, max);
    OnlyJoins(UpdateRooms(rooms, i, max), j, r, max);
    OnlyLeaves(UpdateRooms(rooms, i + j, max), l, r, max);
  }

  function InviteUpdates(res: SyncResponse): seq<RoomUpdate> {
    seq(|res.invite|, i requires 0 <= i < |res.invite| => Invite(res.invite[i].0, res.invite[i].1))
  }

  function JoinUpdates(res: SyncResponse): seq<RoomUpdate> {
    seq(|res.join|, i requires 0 <= i < |res.join| => Join(res.join[i].0, res.join[i].1))
  }

  function LeaveUpdates(res: SyncResponse): seq<RoomUpdate> {
    seq(|res.leave|, i requires 0 <= i < |res.leave| => Leave(res.leave[i]))
  }

  lemma Concerned(res: SyncResponse, r: RoomId)
    ensures Concerns(InviteUpdates(res), r) <==> InvitedBy(res, r)
    ensures Concerns(JoinUpdates(res), r) <==> JoinedBy(res, r)
    ensures Concerns(LeaveUpdates(res), r) <==> r in res.leave
  {
    if k :| 0 <= k < |res.invite| && res.invite[k].0 == r && res.invite[k].1.Some? {
      assert InviteUpdates(res)[k] == Invite(r, res.invite[k].1);
    }
    if k :| 0 <= k < |res.join| && res.join[k].0 == r {
      assert JoinUpdates(res)[k] == Join(r, res.join[k].1);
    }
    if k :| 0 <= k < |res.leave| && res.leave[k] == r {
      assert LeaveUpdates(res)[k] == Leave(r);
    }
  }

  // ---------- the transition diagram ----------

  /** Every update is one the transition diagram allows: no invitation to a joined room. */
  ghost predicate FollowsDiagram(updates: seq<RoomUpdate>) {
    forall i :: 0 <= i < |updates| && updates[i].Invite? ==> JoinHistory(updates[..i], updates[i].roomId) == []
  }

  ghost predicate NotBoth(rooms: Rooms) {
    rooms.invite.Keys !! rooms.join.Keys
  }

  lemma {:induction false} DiagramSeparates(updates: seq<RoomUpdate>, max: nat)
    requires FollowsDiagram(updates)
    ensures NotBoth(UpdateRooms(NO_ROOMS, updates, max))
  {
    if updates != [] {
      var before, u := updates[..|updates| - 1], updates[|updates| - 1];
      assert forall i :: 0 <= i < |before| ==> before[i] == updates[i] && before[..i] == updates[..i];
      DiagramSeparates(before, max);
      JoinedRoomIsItsRun(before, u.roomId, max);
    }
  }
}
