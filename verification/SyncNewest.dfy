/** What the accumulator holds after a run, member by member, in terms of what it was sent: of all that
    came under one name, the newest. */
module SyncNewest {
  import opened Common
  import opened SyncModel
  import opened SyncInvariants
  import opened SyncSnapshot
  import SyncClobber

  // ---------- account data and receipts ----------

  function OfType(events: seq<Event>, t: Option<EventType>): (r: seq<Option<Event>>)
    ensures |r| == |events|
  {
    seq(|events|, i requires 0 <= i < |events| => if events[i].evType == t then Some(events[i]) else None)
  }

  lemma {:induction false} ClobberIsNewest(data: AccountData, events: seq<Event>, t: Option<EventType>)
    ensures Lookup(Clobber(data, events), t) == Newer(Lookup(data, t), Newest(OfType(events, t)))
  {
    if events != [] {
      var n := |events| - 1;
      ClobberIsNewest(data, events[..n], t);
      assert OfType(events, t)[..n] == OfType(events[..n], t);
    }
  }

  lemma NewestOfType(a: seq<Event>, b: seq<Event>, t: Option<EventType>)
    ensures Newest(OfType(a + b, t)) == Newer(Newest(OfType(a, t)), Newest(OfType(b, t)))
  {
    NewestConcat(OfType(a, t), OfType(b, t));
    assert OfType(a + b, t) == OfType(a, t) + OfType(b, t);
  }

  function OfUser(mentions: seq<SyncClobber.Mention>, u: UserId): (r: seq<Option<Receipt>>)
    ensures |r| == |mentions|
  {
    seq(|mentions|, i requires 0 <= i < |mentions| => if mentions[i].0 == u then Some(mentions[i].1) else None)
  }

  lemma {:induction false} RecordIsNewest(receipts: Receipts, mentions: seq<SyncClobber.Mention>, u: UserId)
    ensures Lookup(SyncClobber.Record(receipts, mentions), u) == Newer(Lookup(receipts, u), Newest(OfUser(mentions, u)))
  {
    if mentions != [] {
      var n := |mentions| - 1;
      RecordIsNewest(receipts, mentions[..n], u);
      assert OfUser(mentions, u)[..n] == OfUser(mentions[..n], u);
    }
  }

  lemma NewestOfUser(a: seq<SyncClobber.Mention>, b: seq<SyncClobber.Mention>, u: UserId)
    ensures Newest(OfUser(a + b, u)) == Newer(Newest(OfUser(a, u)), Newest(OfUser(b, u)))
  {
    NewestConcat(OfUser(a, u), OfUser(b, u));
    assert OfUser(a + b, u) == OfUser(a, u) + OfUser(b, u);
  }

  // ---------- one room ----------

  /** All account data, and all receipts, that were sent for a room. */
  function RoomAccountData(history: seq<JoinData>): seq<Event> {
    if history == [] then [] else RoomAccountData(history[..|history| - 1]) + history[|history| - 1].accountData
  }

  function RoomMentions(history: seq<JoinData>): seq<SyncClobber.Mention> {
    if history == [] then [] else
      RoomMentions(history[..|history| - 1]) + SyncClobber.Mentions(history[|history| - 1].ephemeral)
  }

  /** The members of the summaries and the unread notifications that were sent; a count of zero is as none. */
  function Heroes(history: seq<JoinData>): (r: seq<Option<Json>>)
    ensures |r| == |history|
  {
    seq(|history|, i requires 0 <= i < |history| => if history[i].summary.Some? then history[i].summary.value.heroes else None)
  }

  function NonZero(count: Option<int>): Option<int> {
    if count == Some(0) then None else count
  }

  function JoinedCounts(history: seq<JoinData>): (r: seq<Option<int>>)
    ensures |r| == |history|
  {
    seq(|history|, i requires 0 <= i < |history| =>
      if history[i].summary.Some? then NonZero(history[i].summary.value.joined) else None)
  }

  function InvitedCounts(history: seq<JoinData>): (r: seq<Option<int>>)
    ensures |r| == |history|
  {
    seq(|history|, i requires 0 <= i < |history| =>
      if history[i].summary.Some? then NonZero(history[i].summary.value.invited) else None)
  }

  function Unreads(history: seq<JoinData>): (r: seq<Option<Json>>)
    ensures |r| == |history|
  {
    seq(|history|, i requires 0 <= i < |history| => history[i].unread)
  }

  lemma {:induction false} AccountDataIsNewest(history: seq<JoinData>, max: nat, t: Option<EventType>)
    ensures Lookup(RunRoom(history, max).accountData, t) == Newest(OfType(RoomAccountData(history), t))
  {
    if history != [] {
      var before, d := history[..|history| - 1], history[|history| - 1];
      AccountDataIsNewest(before, max, t);
      ClobberIsNewest(RunRoom(before, max).accountData, d.accountData, t);
      NewestOfType(RoomAccountData(before), d.accountData, t);
    }
  }

  lemma {:induction false} ReceiptIsNewest(history: seq<JoinData>, max: nat, u: UserId)
    ensures Lookup(RunRoom(history, max).receipts, u) == Newest(OfUser(RoomMentions(history), u))
  {
    if history != [] {
      var before, d := history[..|history| - 1], history[|history| - 1];
      var receipts, mentions := RunRoom(before, max).receipts, SyncClobber.Mentions(d.ephemeral);
      ReceiptIsNewest(before, max, u);
      SyncClobber.EphemeralIsRecorded(receipts, d.ephemeral);
      RecordIsNewest(receipts, mentions, u);
      NewestOfUser(RoomMentions(before), mentions, u);
    }
  }

  lemma {:induction false} SummaryIsNewest(history: seq<JoinData>, max: nat)
    ensures RunRoom(history, max).summary ==
            Summary(Newest(Heroes(history)), Newest(JoinedCounts(history)), Newest(InvitedCounts(history)))
  {
    if history != [] {
      var n := |history| - 1;
      SummaryIsNewest(history[..n], max);
      assert Heroes(history)[..n] == Heroes(history[..n]);
      assert JoinedCounts(history)[..n] == JoinedCounts(history[..n]);
      assert InvitedCounts(history)[..n] == InvitedCounts(history[..n]);
    }
  }

  lemma {:induction false} UnreadIsNewest(history: seq<JoinData>, max: nat)
    ensures RunRoom(history, max).unread == Or(Newest(Unreads(history)), Json("{}"))
  {
    if history != [] {
      var n := |history| - 1;
      UnreadIsNewest(history[..n], max);
      assert Unreads(history)[..n] == Unreads(history[..n]);
    }
  }

  /** Whatever is sent for a room: it holds the newest account data of each type, each user's newest receipt,
      the newest of each member of the summary, and the newest unread notifications. */
  lemma RoomHoldsNewest(updates: seq<RoomUpdate>, r: RoomId, max: nat, t: Option<EventType>, u: UserId)
    requires r in UpdateRooms(NO_ROOMS, updates, max).join
    ensures var room, history := UpdateRooms(NO_ROOMS, updates, max).join[r], JoinHistory(updates, r);
            && Lookup(room.accountData, t) == Newest(OfType(RoomAccountData(history), t))
            && Lookup(room.receipts, u) == Newest(OfUser(RoomMentions(history), u))
            && room.summary.heroes == Newest(Heroes(history))
            && room.summary.joined == Newest(JoinedCounts(history))
            && room.summary.invited == Newest(InvitedCounts(history))
            && room.unread == Or(Newest(Unreads(history)), Json("{}"))
  {
    var history := JoinHistory(updates, r);
    JoinedRoomIsItsRun(updates, r, max);
    AccountDataIsNewest(history, max, t);
    ReceiptIsNewest(history, max, u);
    SummaryIsNewest(history, max);
    UnreadIsNewest(history, max);
  }

  // ---------- the whole accumulator ----------

  function AllAccountData(responses: seq<SyncResponse>): seq<Event> {
    if responses == [] then []
    else AllAccountData(responses[..|responses| - 1]) + responses[|responses| - 1].accountData
  }

  /** What the responses said about a group: invitations, joins and leaves, in this order for each. */
  function OfGroup(category: GroupCategory, groups: seq<(GroupId, Json)>, g: GroupId): (r: seq<Option<(GroupCategory, Json)>>)
    ensures |r| == |groups|
  {
    seq(|groups|, i requires 0 <= i < |groups| => if groups[i].0 == g then Some((category, groups[i].1)) else None)
  }

  function GroupNews(responses: seq<SyncResponse>, g: GroupId): seq<Option<(GroupCategory, Json)>> {
    if responses == [] then [] else
      var res := responses[|responses| - 1];
      GroupNews(responses[..|responses| - 1], g) + OfGroup(GroupInvite, res.groupInvite, g) +
      OfGroup(GroupJoin, res.groupJoin, g) + OfGroup(GroupLeave, res.groupLeave, g)
  }

  /** Where a group is, and with what data. */
  function PlaceOf(groups: Groups, g: GroupId): Option<(GroupCategory, Json)> {
    if g in groups.invite then Some((GroupInvite, groups.invite[g]))
    else if g in groups.join then Some((GroupJoin, groups.join[g]))
    else if g in groups.leave then Some((GroupLeave, groups.leave[g]))
    else None
  }

  lemma {:induction false} TaggedIsNewest(groups: Groups, category: GroupCategory, more: seq<(GroupId, Json)>, g: GroupId)
    ensures PlaceOf(UpdateGroups(groups, Tagged(category, more)), g) ==
            Newer(PlaceOf(groups, g), Newest(OfGroup(category, more, g)))
  {
    if more != [] {
      var n := |more| - 1;
      TaggedIsNewest(groups, category, more[..n], g);
      assert Tagged(category, more)[..n] == Tagged(category, more[..n]);
      assert OfGroup(category, more, g)[..n] == OfGroup(category, more[..n], g);
      GroupPlaced(UpdateGroups(groups, Tagged(category, more[..n])), GroupUpdate(category, more[n].0, more[n].1), g);
    }
  }

  lemma GroupPlaced(groups: Groups, u: GroupUpdate, g: GroupId)
    ensures PlaceOf(UpdateGroup(groups, u), g) == if u.groupId == g then Some((u.category, u.data)) else PlaceOf(groups, g)
  {
  }

  lemma GroupsOfResponse(groups: Groups, res: SyncResponse, g: GroupId)
    ensures PlaceOf(UpdateGroups(groups, GroupUpdates(res)), g) ==
            Newer(PlaceOf(groups, g), Newest(OfGroup(GroupInvite, res.groupInvite, g) +
                                             OfGroup(GroupJoin, res.groupJoin, g) +
                                             OfGroup(GroupLeave, res.groupLeave, g)))
  {
    var i, j, l := Tagged(GroupInvite, res.groupInvite), Tagged(GroupJoin, res.groupJoin), Tagged(GroupLeave, res.groupLeave);
    UpdateGroupsConcat(groups, i + j, l);
    UpdateGroupsConcat(groups, i, j);
    TaggedIsNewest(groups, GroupInvite, res.groupInvite, g);
    TaggedIsNewest(UpdateGroups(groups, i), GroupJoin, res.groupJoin, g);
    TaggedIsNewest(UpdateGroups(groups, i + j), GroupLeave, res.groupLeave, g);
    NewestConcat(OfGroup(GroupInvite, res.groupInvite, g), OfGroup(GroupJoin, res.groupJoin, g));
    NewestConcat(OfGroup(GroupInvite, res.groupInvite, g) + OfGroup(GroupJoin, res.groupJoin, g),
                 OfGroup(GroupLeave, res.groupLeave, g));
  }

  lemma {:induction false} GroupsAreNewest(responses: seq<SyncResponse>, max: nat, g: GroupId)
    ensures PlaceOf(Run(responses, max).groups, g) == Newest(GroupNews(responses, g))
  {
    if responses != [] {
      var before, res := responses[..|responses| - 1], responses[|responses| - 1];
      GroupsAreNewest(before, max, g);
      GroupsOfResponse(Run(before, max).groups, res, g);
      var i, j, l := OfGroup(GroupInvite, res.groupInvite, g), OfGroup(GroupJoin, res.groupJoin, g),
                     OfGroup(GroupLeave, res.groupLeave, g);
      NewestConcat(GroupNews(before, g), i + j + l);
      assert GroupNews(responses, g) == GroupNews(before, g) + (i + j + l);
    }
  }

  lemma {:induction false} ClientDataIsNewest(responses: seq<SyncResponse>, max: nat, t: Option<EventType>)
    ensures Lookup(Run(responses, max).accountData, t) == Newest(OfType(AllAccountData(responses), t))
  {
    if responses != [] {
      var before, res := responses[..|responses| - 1], responses[|responses| - 1];
      ClientDataIsNewest(before, max, t);
      ClobberIsNewest(Run(before, max).accountData, res.accountData, t);
      NewestOfType(AllAccountData(before), res.accountData, t);
    }
  }

  /** After any run the accumulator holds the newest account data of each type, each group where the newest
      news about it put it and nowhere else, and the newest token. */
  lemma RunHoldsNewest(responses: seq<SyncResponse>, max: nat, t: Option<EventType>, g: GroupId)
    ensures var acc := Run(responses, max);
            && Lookup(acc.accountData, t) == Newest(OfType(AllAccountData(responses), t))
            && PlaceOf(acc.groups, g) == Newest(GroupNews(responses, g)) && GroupsOk(acc.groups)
            && acc.nextBatch == if responses == [] then None else responses[|responses| - 1].nextBatch
  {
    RunOk(responses, max);
    ClientDataIsNewest(responses, max, t);
    GroupsAreNewest(responses, max, g);
  }
}
