/** What clobbering means: of all that a room or the client is sent under one key, the newest counts. */
module SyncClobber {
  import opened Common
  import opened SyncModel

  // ---------- account data ----------

  /** Event `j` is the last one of its type. */
  ghost predicate LastOfType(events: seq<Event>, t: Option<EventType>, j: int) {
    0 <= j < |events| && events[j].evType == t && forall k :: j < k < |events| ==> events[k].evType != t
  }

  ghost predicate HasType(events: seq<Event>, t: Option<EventType>) {
    exists i :: 0 <= i < |events| && events[i].evType == t
  }

  /** The newest account data of each type is kept, and nothing else changes. */
  lemma {:induction false} NewestAccountData(data: AccountData, events: seq<Event>, t: Option<EventType>)
    ensures HasType(events, t) ==>
              exists j :: LastOfType(events, t, j) && t in Clobber(data, events) && Clobber(data, events)[t] == events[j]
    ensures !HasType(events, t) ==>
              (t in Clobber(data, events) <==> t in data) && (t in data ==> Clobber(data, events)[t] == data[t])
  {
    if events != [] {
      var n := |events| - 1;
      var before := events[..n];
      assert forall i :: 0 <= i < n ==> before[i] == events[i];
      NewestAccountData(data, before, t);
      if events[n].evType == t {
        assert LastOfType(events, t, n);
      } else if HasType(events, t) {
        var i :| 0 <= i < |events| && events[i].evType == t;
        assert before[i].evType == t;
        var j :| LastOfType(before, t, j) && Clobber(data, before)[t] == before[j];
        assert LastOfType(events, t, j);
      }
    }
  }

  // ---------- receipts ----------

  type Mention = (UserId, Receipt)

  function ReaderMentions(eventId: EventId, readers: Readers): (r: seq<Mention>)
    ensures |r| == |readers|
  {
    seq(|readers|, i requires 0 <= i < |readers| => (readers[i].0, Receipt(readers[i].1, eventId)))
  }

  function ContentMentions(content: ReceiptContent): seq<Mention> {
    if content == [] then [] else
      var last := content[|content| - 1];
      ContentMentions(content[..|content| - 1]) + if last.1.Some? then ReaderMentions(last.0, last.1.value) else []
  }

  /** Every receipt in a list of ephemeral events, in the order in which they come. */
  function Mentions(events: seq<Ephemeral>): seq<Mention> {
    if events == [] then [] else
      var last := events[|events| - 1];
      Mentions(events[..|events| - 1]) +
      if last.ReceiptEvent? && last.content.Some? then ContentMentions(last.content.value) else []
  }

  /** The receipts after a list of mentions, where a later one replaces an earlier one of the same user. */
  function Record(receipts: Receipts, mentions: seq<Mention>): Receipts {
    if mentions == [] then receipts else
      var last := mentions[|mentions| - 1];
      Record(receipts, mentions[..|mentions| - 1])[last.0 := last.1]
  }

  lemma {:induction false} RecordConcat(receipts: Receipts, a: seq<Mention>, b: seq<Mention>)
    ensures Record(receipts, a + b) == Record(Record(receipts, a), b)
  {
    if b == [] {
      assert a + b == a;
    } else {
      RecordConcat(receipts, a, b[..|b| - 1]);
      assert (a + b)[..|a + b| - 1] == a + b[..|b| - 1];
    }
  }

  lemma {:induction false} ReadersAreRecorded(receipts: Receipts, eventId: EventId, readers: Readers)
    ensures AddReaders(receipts, eventId, readers) == Record(receipts, ReaderMentions(eventId, readers))
  {
    if readers != [] {
      var n := |readers| - 1;
      ReadersAreRecorded(receipts, eventId, readers[..n]);
      assert ReaderMentions(eventId, readers)[..n] == ReaderMentions(eventId, readers[..n]);
    }
  }

  lemma {:induction false} ContentIsRecorded(receipts: Receipts, content: ReceiptContent)
    ensures AddContent(receipts, content) == Record(receipts, ContentMentions(content))
  {
    if content != [] {
      var before, last := content[..|content| - 1], content[|content| - 1];
      ContentIsRecorded(receipts, before);
      if last.1.Some? {
        ReadersAreRecorded(AddContent(receipts, before), last.0, last.1.value);
        RecordConcat(receipts, ContentMentions(before), ReaderMentions(last.0, last.1.value));
      } else {
        assert ContentMentions(content) == ContentMentions(before);
      }
    }
  }

  lemma {:induction false} EphemeralIsRecorded(receipts: Receipts, events: seq<Ephemeral>)
    ensures AddEphemeral(receipts, events) == Record(receipts, Mentions(events))
  {
    if events != [] {
      var before, last := events[..|events| - 1], events[|events| - 1];
      EphemeralIsRecorded(receipts, before);
      if last.ReceiptEvent? && last.content.Some? {
        ContentIsRecorded(AddEphemeral(receipts, before), last.content.value);
        RecordConcat(receipts, Mentions(before), ContentMentions(last.content.value));
      } else {
        assert Mentions(events) == Mentions(before);
      }
    }
  }

  ghost predicate LastOfUser(mentions: seq<Mention>, u: UserId, j: int) {
    0 <= j < |mentions| && mentions[j].0 == u && forall k :: j < k < |mentions| ==> mentions[k].0 != u
  }

  ghost predicate IsMentioned(mentions: seq<Mention>, u: UserId) {
    exists i :: 0 <= i < |mentions| && mentions[i].0 == u
  }

  lemma {:induction false} LastIsRecorded(receipts: Receipts, mentions: seq<Mention>, u: UserId)
    ensures IsMentioned(mentions, u) ==>
              exists j :: LastOfUser(mentions, u, j) && u in Record(receipts, mentions) &&
                          Record(receipts, mentions)[u] == mentions[j].1
    ensures !IsMentioned(mentions, u) ==>
              (u in Record(receipts, mentions) <==> u in receipts) &&
              (u in receipts ==> Record(receipts, mentions)[u] == receipts[u])
  {
    if mentions != [] {
      var n := |mentions| - 1;
      var before := mentions[..n];
      assert forall i :: 0 <= i < n ==> before[i] == mentions[i];
      LastIsRecorded(receipts, before, u);
      if mentions[n].0 == u {
        assert LastOfUser(mentions, u, n);
      } else if IsMentioned(mentions, u) {
        var i :| 0 <= i < |mentions| && mentions[i].0 == u;
        assert before[i].0 == u;
        var j :| LastOfUser(before, u, j) && Record(receipts, before)[u] == before[j].1;
        assert LastOfUser(mentions, u, j);
      }
    }
  }

  /** A user's read receipt is the newest one that any ephemeral event held for the user. */
  lemma NewestReceipt(receipts: Receipts, events: seq<Ephemeral>, u: UserId)
    ensures var after, mentions := AddEphemeral(receipts, events), Mentions(events);
            (IsMentioned(mentions, u) ==>
               exists j :: LastOfUser(mentions, u, j) && u in after && after[u] == mentions[j].1) &&
            (!IsMentioned(mentions, u) ==> (u in after <==> u in receipts) && (u in receipts ==> after[u] == receipts[u]))
  {
    EphemeralIsRecorded(receipts, events);
    LastIsRecorded(receipts, Mentions(events), u);
  }

  // ---------- invite state ----------

  ghost predicate DistinctInvites(events: seq<Event>) {
    forall i, j :: 0 <= i < j < |events| ==> !SameTypeAndKey(events[i], events[j])
  }

  ghost predicate HasInvite(events: seq<Event>, e: Event) {
    exists i :: 0 <= i < |events| && SameTypeAndKey(events[i], e)
  }

  /** Invite state is keyed by the type and the state key of an event, and by nothing else. */
  ghost predicate SameTypeAndKey(a: Event, b: Event) {
    a.evType == b.evType && a.stateKey == b.stateKey
  }

  ghost predicate LastInvite(events: seq<Event>, e: Event, j: int) {
    0 <= j < |events| && SameTypeAndKey(events[j], e) && forall k :: j < k < |events| ==> !SameTypeAndKey(events[k], e)
  }

  /** `after` has the keys of `before` in the same places, and possibly more behind them. */
  ghost predicate SamePlaces(before: seq<Event>, after: seq<Event>) {
    |before| <= |after| && forall i :: 0 <= i < |before| ==> SameTypeAndKey(before[i], after[i])
  }

  lemma OneInvite(events: seq<Event>, e: Event)
    ensures SamePlaces(events, ClobberInvite(events, e))
    ensures DistinctInvites(events) ==> DistinctInvites(ClobberInvite(events, e))
    ensures HasInvite(ClobberInvite(events, e), e)
    ensures forall i :: 0 <= i < |ClobberInvite(events, e)| && SameTypeAndKey(ClobberInvite(events, e)[i], e) ==>
              ClobberInvite(events, e)[i] == e
    ensures forall i :: 0 <= i < |ClobberInvite(events, e)| && !SameTypeAndKey(ClobberInvite(events, e)[i], e) ==>
              i < |events| && ClobberInvite(events, e)[i] == events[i]
  {
    var after := ClobberInvite(events, e);
    if i :| 0 <= i < |events| && SameTypeAndKey(events[i], e) {
      assert SameTypeAndKey(after[i], e);
    } else {
      assert after[|events|] == e;
    }
  }

  /** Invite state keeps its order and one event for each key. */
  lemma {:induction false} InviteOrder(events: seq<Event>, more: seq<Event>)
    requires DistinctInvites(events)
    ensures DistinctInvites(ClobberInvites(events, more)) && SamePlaces(events, ClobberInvites(events, more))
  {
    if more != [] {
      InviteOrder(events, more[..|more| - 1]);
      OneInvite(ClobberInvites(events, more[..|more| - 1]), more[|more| - 1]);
    }
  }

  /** `after` has an event with the key of `e`, and it is `newest`. */
  ghost predicate HoldsInvite(after: seq<Event>, e: Event, newest: Event) {
    HasInvite(after, e) && forall i :: 0 <= i < |after| && SameTypeAndKey(after[i], e) ==> after[i] == newest
  }

  /** For a key that was sent again, the newest event with the key is held. */
  lemma {:induction false} NewestInvite(events: seq<Event>, more: seq<Event>, e: Event) returns (j: nat)
    requires HasInvite(more, e)
    ensures LastInvite(more, e, j) && HoldsInvite(ClobberInvites(events, more), e, more[j])
  {
    var n := |more| - 1;
    var before, last, state := more[..n], more[n], ClobberInvites(events, more[..n]);
    assert more == before + [last];
    OneInvite(state, last);
    if SameTypeAndKey(last, e) {
      j := n;
      var i :| 0 <= i < |ClobberInvite(state, last)| && SameTypeAndKey(ClobberInvite(state, last)[i], last);
      assert SameTypeAndKey(ClobberInvite(state, last)[i], e);
    } else {
      OtherInvite(events, before, last, e);
      j := NewestInvite(events, before, e);
    }
  }

  /** For all other keys the events are as before. */
  lemma {:induction false} OtherInvitesKept(events: seq<Event>, more: seq<Event>, e: Event)
    requires !HasInvite(more, e)
    ensures forall i :: 0 <= i < |ClobberInvites(events, more)| && SameTypeAndKey(ClobberInvites(events, more)[i], e) ==>
              i < |events| && ClobberInvites(events, more)[i] == events[i]
  {
    if more != [] {
      var n := |more| - 1;
      assert more == more[..n] + [more[n]];
      assert !SameTypeAndKey(more[n], e);
      OtherInvite(events, more[..n], more[n], e);
      OtherInvitesKept(events, more[..n], e);
    }
  }

  /** An event with another key changes nothing for the key of `e`. */
  lemma OtherInvite(events: seq<Event>, before: seq<Event>, last: Event, e: Event)
    requires !SameTypeAndKey(last, e)
    ensures HasInvite(before + [last], e) <==> HasInvite(before, e)
    ensures forall j :: LastInvite(before, e, j) ==> LastInvite(before + [last], e, j)
    ensures HasInvite(ClobberInvites(events, before), e) ==>
              HasInvite(ClobberInvite(ClobberInvites(events, before), last), e)
    ensures forall i :: 0 <= i < |ClobberInvite(ClobberInvites(events, before), last)| &&
                        SameTypeAndKey(ClobberInvite(ClobberInvites(events, before), last)[i], e) ==>
              i < |ClobberInvites(events, before)| &&
              ClobberInvite(ClobberInvites(events, before), last)[i] == ClobberInvites(events, before)[i]
  {
    var all, state := before + [last], ClobberInvites(events, before);
    OneInvite(state, last);
    if i :| 0 <= i < |before| && SameTypeAndKey(before[i], e) {
      assert SameTypeAndKey(all[i], e);
    }
    if i :| 0 <= i < |all| && SameTypeAndKey(all[i], e) {
      assert SameTypeAndKey(before[i], e);
    }
    if i :| 0 <= i < |state| && SameTypeAndKey(state[i], e) {
      assert SameTypeAndKey(ClobberInvite(state, last)[i], e);
    }
  }

  /** The events whose key is new when they arrive. */
  ghost function NewKeys(first: seq<Event>, more: seq<Event>): seq<Event> {
    if more == [] then [] else
      var before, last := more[..|more| - 1], more[|more| - 1];
      NewKeys(first, before) + if HasInvite(first, last) || HasInvite(before, last) then [] else [last]
  }

  /** The first list keeps its order, new keys follow in the order of their arrival, and each place holds the
      newest event with its key. */
  ghost predicate IsInviteState(first: seq<Event>, more: seq<Event>, after: seq<Event>) {
    var places := first + NewKeys(first, more);
    && |after| == |places|
    && forall i :: 0 <= i < |after| ==>
         && SameTypeAndKey(after[i], places[i])
         && (HasInvite(more, after[i]) ==> exists j :: LastInvite(more, after[i], j) && after[i] == more[j])
         && (!HasInvite(more, after[i]) ==> i < |first| && after[i] == first[i])
  }

  lemma {:induction false} ClobberedPlaces(first: seq<Event>, more: seq<Event>)
    ensures var after, places := ClobberInvites(first, more), first + NewKeys(first, more);
            |after| == |places| && forall i :: 0 <= i < |after| ==> SameTypeAndKey(after[i], places[i])
    ensures forall e :: HasInvite(ClobberInvites(first, more), e) <==> HasInvite(first, e) || HasInvite(more, e)
  {
    if more != [] {
      var before, last := more[..|more| - 1], more[|more| - 1];
      ClobberedPlaces(first, before);
      var state, after := ClobberInvites(first, before), ClobberInvites(first, more);
      OneInvite(state, last);
      forall e ensures HasInvite(after, e) <==> HasInvite(first, e) || HasInvite(more, e) {
        HasOneMore(state, last, e);
        HasInviteLast(before, last, e);
        assert before + [last] == more;
      }
    }
  }

  lemma HasInviteLast(before: seq<Event>, last: Event, e: Event)
    ensures HasInvite(before + [last], e) <==> HasInvite(before, e) || SameTypeAndKey(last, e)
  {
    var all := before + [last];
    if i :| 0 <= i < |before| && SameTypeAndKey(before[i], e) {
      assert SameTypeAndKey(all[i], e);
    }
    if SameTypeAndKey(last, e) {
      assert SameTypeAndKey(all[|before|], e);
    }
  }

  lemma HasOneMore(events: seq<Event>, last: Event, e: Event)
    ensures HasInvite(ClobberInvite(events, last), e) <==> HasInvite(events, e) || SameTypeAndKey(last, e)
  {
    var after := ClobberInvite(events, last);
    OneInvite(events, last);
    if i :| 0 <= i < |events| && SameTypeAndKey(events[i], e) {
      assert SameTypeAndKey(after[i], e);
    }
  }

  /** What clobbering makes of invite state, in full. */
  lemma ClobberedIs(first: seq<Event>, more: seq<Event>)
    ensures IsInviteState(first, more, ClobberInvites(first, more))
  {
    var after := ClobberInvites(first, more);
    ClobberedPlaces(first, more);
    forall i | 0 <= i < |after|
      ensures HasInvite(more, after[i]) ==> exists j :: LastInvite(more, after[i], j) && after[i] == more[j]
      ensures !HasInvite(more, after[i]) ==> i < |first| && after[i] == first[i]
    {
      if HasInvite(more, after[i]) {
        var j := NewestInvite(first, more, after[i]);
      } else {
        OtherInvitesKept(first, more, after[i]);
      }
    }
  }

  lemma {:induction false} ClobberConcat(events: seq<Event>, a: seq<Event>, b: seq<Event>)
    ensures ClobberInvites(events, a + b) == ClobberInvites(ClobberInvites(events, a), b)
  {
    if b == [] {
      assert a + b == a;
    } else {
      ClobberConcat(events, a, b[..|b| - 1]);
      assert (a + b)[..|a + b| - 1] == a + b[..|b| - 1];
    }
  }
}
