/** Megolm sessions over whole runs: the room of a session, the first index it knows, and what the
    check of message indexes rules out. */
module Megolm {
  import opened Common
  import opened MegolmModel

  // ---------- the keys of message indexes are injective ----------

  predicate Barless(s: string) {
    forall i :: 0 <= i < |s| ==> s[i] != '|'
  }

  lemma DigitInjective(a: nat, b: nat)
    requires a < 10 && b < 10 && Digit(a) == Digit(b)
    ensures a == b
  {
  }

  lemma {:induction false} DecimalInjective(m: nat, n: nat)
    requires Decimal(m) == Decimal(n)
    ensures m == n
  {
    DecimalNotEmpty(m / 10);
    DecimalNotEmpty(n / 10);
    var a, b := Decimal(m), Decimal(n);
    assert a[|a| - 1] == Digit(m % 10) && b[|b| - 1] == Digit(n % 10);
    DigitInjective(m % 10, n % 10);
    if m >= 10 {
      assert a[..|a| - 1] == Decimal(m / 10);
      if n >= 10 {
        assert b[..|b| - 1] == Decimal(n / 10);
        DecimalInjective(m / 10, n / 10);
      }
    }
  }

  lemma DecimalNotEmpty(n: nat)
    ensures |Decimal(n)| > 0
  {
  }

  /** What stands before the first bar, and after it. */
  lemma BarSplits(a: string, x: string, b: string, y: string)
    requires Barless(a) && Barless(b) && a + "|" + x == b + "|" + y
    ensures a == b && x == y
  {
    var s, t := a + "|" + x, b + "|" + y;
    assert s[|a|] == '|' && t[|b|] == '|';
    assert forall i :: 0 <= i < |a| ==> s[i] == a[i];
    assert forall i :: 0 <= i < |b| ==> t[i] == b[i];
    assert |a| == |b|;
    assert s[..|a|] == a && t[..|b|] == b;
    assert s[|a| + 1..] == x && t[|b| + 1..] == y;
  }

  ghost predicate BarlessId(id: Id) {
    Barless(id.senderKey) && Barless(id.sessionId)
  }

  lemma IndexKeyInjective(a: Id, m: nat, b: Id, n: nat)
    requires BarlessId(a) && BarlessId(b) && IndexKey(a, m) == IndexKey(b, n)
    ensures a == b && m == n
  {
    var x, y := a.sessionId + "|" + Decimal(m), b.sessionId + "|" + Decimal(n);
    assert a.senderKey + "|" + x == IndexKey(a, m);
    assert b.senderKey + "|" + y == IndexKey(b, n);
    BarSplits(a.senderKey, x, b.senderKey, y);
    BarSplits(a.sessionId, Decimal(m), b.sessionId, Decimal(n));
    DecimalInjective(m, n);
  }

  // ---------- the first known index ----------

  ghost predicate IsMin(x: nat, offers: seq<nat>) {
    x in offers && forall i :: 0 <= i < |offers| ==> x <= offers[i]
  }

  /** A stored session has its own id and knows the lowest index of all accepted offers. */
  ghost predicate SessionsOk(olm: Olm, s: State) {
    forall id :: SessionOk(olm, s, id)
  }

  ghost predicate SessionOk(olm: Olm, s: State, id: Id) {
    if id in s.sessions
    then olm.sessionId(s.sessions[id].session) == id.sessionId &&
         IsMin(olm.firstKnownIndex(s.sessions[id].session), Offers(s, id))
    else Offers(s, id) == []
  }

  lemma MinOfMore(x: nat, offers: seq<nat>, y: nat)
    requires offers == [] || IsMin(x, offers)
    ensures IsMin(if offers == [] || y < x then y else x, offers + [y])
  {
    var all := offers + [y];
    assert all[|offers|] == y;
    forall i | 0 <= i < |offers| ensures offers[i] in all {
      assert all[i] == offers[i];
    }
  }

  lemma AddKeepsSessions(olm: Olm, s: State, roomId: Option<RoomId>, id: Id, offered: Option<Session>, extra: Json)
    requires SessionsOk(olm, s)
    ensures SessionsOk(olm, Add(olm, s, roomId, id, offered, extra))
  {
    if Accepted(olm, s, roomId, id, offered) {
      assert SessionOk(olm, s, id);
      var known := if id in s.sessions then olm.firstKnownIndex(s.sessions[id].session) else 0;
      MinOfMore(known, Offers(s, id), olm.firstKnownIndex(offered.value));
      var t := Add(olm, s, roomId, id, offered, extra);
      forall other ensures SessionOk(olm, t, other) {
        assert SessionOk(olm, s, other);
      }
    }
  }

  lemma StepKeepsSessions(olm: Olm, s: State, a: Action)
    requires Steady(olm) && SessionsOk(olm, s)
    ensures SessionsOk(olm, Step(olm, s, a))
  {
    if a.DoAdd? {
      AddKeepsSessions(olm, s, a.addRoom, a.id, olm.create(a.key, a.exportFormat), a.extra);
    } else {
      forall id ensures SessionOk(olm, Step(olm, s, a), id) {
        assert SessionOk(olm, s, id);
      }
    }
  }

  /** Over any run a stored session's first known index is the lowest that any accepted offer for it had,
      so that it can decrypt whatever any of them could. */
  lemma {:induction false} KnowsLowestIndex(olm: Olm, actions: seq<Action>)
    requires Steady(olm)
    ensures SessionsOk(olm, Run(olm, actions))
  {
    if actions != [] {
      KnowsLowestIndex(olm, actions[..|actions| - 1]);
      StepKeepsSessions(olm, Run(olm, actions[..|actions| - 1]), actions[|actions| - 1]);
    }
  }

  // ---------- the room ----------

  /** A step changes the room of a stored session exactly if a better session is offered without a room
      for one that has a room. */
  lemma RoomChangesExactly(olm: Olm, s: State, a: Action, id: Id)
    requires id in s.sessions
    ensures id in Step(olm, s, a).sessions
    ensures Step(olm, s, a).sessions[id].roomId != s.sessions[id].roomId <==>
              a.DoAdd? && a.id == id && a.addRoom.None? && s.sessions[id].roomId.Some? &&
              Accepted(olm, s, None, id, olm.create(a.key, a.exportFormat)) &&
              Stores(olm, s, id, olm.create(a.key, a.exportFormat).value)
  {
  }

  /** As long as sessions are offered with a room, a session never changes its room. */
  lemma {:induction false} RoomNeverChanges(olm: Olm, actions: seq<Action>, n: nat, id: Id)
    requires n <= |actions| && id in Run(olm, actions[..n]).sessions
    requires forall i :: n <= i < |actions| && actions[i].DoAdd? ==> actions[i].addRoom.Some?
    ensures id in Run(olm, actions).sessions
    ensures Run(olm, actions).sessions[id].roomId == Run(olm, actions[..n]).sessions[id].roomId
  {
    if n == |actions| {
      assert actions[..n] == actions;
    } else {
      var before := actions[..|actions| - 1];
      assert before[..n] == actions[..n];
      RoomNeverChanges(olm, before, n, id);
      RoomChangesExactly(olm, Run(olm, before), actions[|actions| - 1], id);
    }
  }

  /** Whatever is offered: a session that is stored for a room can only lose its room, and one without a
      room never gets one. */
  lemma {:induction false} RoomOnlyLost(olm: Olm, actions: seq<Action>, n: nat, id: Id)
    requires n <= |actions| && id in Run(olm, actions[..n]).sessions
    ensures id in Run(olm, actions).sessions
    ensures Run(olm, actions).sessions[id].roomId.Some? ==>
              Run(olm, actions).sessions[id].roomId == Run(olm, actions[..n]).sessions[id].roomId
  {
    if n == |actions| {
      assert actions[..n] == actions;
    } else {
      var before := actions[..|actions| - 1];
      assert before[..n] == actions[..n];
      RoomOnlyLost(olm, before, n, id);
      RoomChangesExactly(olm, Run(olm, before), actions[|actions| - 1], id);
    }
  }

  /** The `i`-th action of a run decrypts a message of a session for a room. */
  ghost predicate DecryptsFor(olm: Olm, actions: seq<Action>, i: nat, roomId: RoomId, id: Id) {
    i < |actions| && actions[i].DoDecrypt? && actions[i].room == Some(roomId) && actions[i].id == id &&
    DecryptOutcome(olm, Run(olm, actions[..i]), Some(roomId), id, actions[i].body, actions[i].info).Plain?
  }

  /** No server can pass off one room's messages as another's: over any run, all messages of a session
      that are decrypted for a room are decrypted for the same room. */
  lemma OneRoomPerSession(olm: Olm, actions: seq<Action>, i: nat, j: nat, a: RoomId, b: RoomId, id: Id)
    requires DecryptsFor(olm, actions, i, a, id) && DecryptsFor(olm, actions, j, b, id)
    ensures a == b
  {
    if i <= j {
      assert actions[..j][..i] == actions[..i];
      RoomOnlyLost(olm, actions[..j], i, id);
    } else {
      OneRoomPerSession(olm, actions, j, i, b, a, id);
    }
  }

  // ---------- replays ----------

  /** The index map holds what the successful decryptions said, and nothing else. */
  ghost predicate IndexesOk(s: State) {
    && (forall i :: 0 <= i < |s.successes| ==>
          IndexKey(s.successes[i].id, s.successes[i].index) in s.indexes &&
          s.indexes[IndexKey(s.successes[i].id, s.successes[i].index)] == s.successes[i].info)
    && (forall k :: k in s.indexes ==>
          exists i :: 0 <= i < |s.successes| && k == IndexKey(s.successes[i].id, s.successes[i].index))
  }

  /** One more success, which either is the first with its key or agrees with those before. */
  lemma OneMoreSuccess(s: State, success: Success)
    requires IndexesOk(s)
    requires !IsReplay(s, success.id, Some(success.index), success.info)
    ensures IndexesOk(s.(indexes := s.indexes[IndexKey(success.id, success.index) := success.info],
                         successes := s.successes + [success]))
  {
    var key, n := IndexKey(success.id, success.index), |s.successes|;
    var indexes, successes := s.indexes[key := success.info], s.successes + [success];
    assert successes[n] == success;
    forall k | k in indexes
      ensures exists i :: 0 <= i < |successes| && k == IndexKey(successes[i].id, successes[i].index)
    {
      if k != key {
        var i :| 0 <= i < n && k == IndexKey(s.successes[i].id, s.successes[i].index);
        assert successes[i] == s.successes[i];
      }
    }
  }

  lemma StepKeepsIndexes(olm: Olm, s: State, a: Action)
    requires IndexesOk(s)
    ensures IndexesOk(Step(olm, s, a))
  {
    if a.DoDecrypt? && DecryptOutcome(olm, s, a.room, a.id, a.body, a.info).Plain? {
      var r := olm.decrypt(s.sessions[a.id].session, a.body);
      if r.index.Some? {
        OneMoreSuccess(s, Success(a.id, r.index.value, a.info));
      }
    }
  }

  lemma {:induction false} RunKeepsIndexes(olm: Olm, actions: seq<Action>)
    ensures IndexesOk(Run(olm, actions))
  {
    if actions != [] {
      RunKeepsIndexes(olm, actions[..|actions| - 1]);
      StepKeepsIndexes(olm, Run(olm, actions[..|actions| - 1]), actions[|actions| - 1]);
    }
  }

  /** All successful decryptions that report the same message index of the same session are of the same
      event: they have the same event id and timestamp. */
  lemma OneEventPerIndex(olm: Olm, actions: seq<Action>, i: nat, j: nat)
    requires var done := Run(olm, actions).successes;
             i < |done| && j < |done| && done[i].id == done[j].id && done[i].index == done[j].index
    ensures Run(olm, actions).successes[i].info == Run(olm, actions).successes[j].info
  {
    RunKeepsIndexes(olm, actions);
  }

  ghost predicate AllBarless(actions: seq<Action>) {
    forall i :: 0 <= i < |actions| ==> BarlessId(actions[i].id)
  }

  lemma {:induction false} SuccessesBarless(olm: Olm, actions: seq<Action>, i: nat)
    requires AllBarless(actions) && i < |Run(olm, actions).successes|
    ensures BarlessId(Run(olm, actions).successes[i].id)
  {
    if actions != [] {
      var before := actions[..|actions| - 1];
      assert forall k :: 0 <= k < |before| ==> before[k] == actions[k];
      if i < |Run(olm, before).successes| {
        SuccessesBarless(olm, before, i);
      }
    }
  }

  /** And no message is taken for a replay without cause: if keys and session ids are without bars, the
      check fails exactly if another event was decrypted under the same index of the same session. */
  lemma ReplayExactly(olm: Olm, actions: seq<Action>, roomId: Option<RoomId>, id: Id, body: Ciphertext, info: MsgInfo)
    requires AllBarless(actions) && BarlessId(id)
    requires id in Run(olm, actions).sessions && RoomMatches(Run(olm, actions), roomId, id)
    ensures var s := Run(olm, actions);
            var r := olm.decrypt(s.sessions[id].session, body);
            DecryptOutcome(olm, s, roomId, id, body, info).Replay? <==>
            r.Decrypted? && r.index.Some? &&
            exists i :: 0 <= i < |s.successes| && s.successes[i].id == id &&
                        s.successes[i].index == r.index.value && s.successes[i].info != info
  {
    RunKeepsIndexes(olm, actions);
    var s := Run(olm, actions);
    var r := olm.decrypt(s.sessions[id].session, body);
    if DecryptOutcome(olm, s, roomId, id, body, info).Replay? {
      var index := r.index.value;
      var i :| 0 <= i < |s.successes| && IndexKey(id, index) == IndexKey(s.successes[i].id, s.successes[i].index);
      SuccessesBarless(olm, actions, i);
      IndexKeyInjective(id, index, s.successes[i].id, s.successes[i].index);
    }
  }

  /** The `n`-th step of a run decrypts a message, and Olm reports its index. */
  ghost predicate DecryptsAt(olm: Olm, actions: seq<Action>, n: nat, id: Id, index: nat, info: MsgInfo) {
    n < |actions| && actions[n].DoDecrypt? && actions[n].id == id && actions[n].info == info &&
    var s := Run(olm, actions[..n]);
    DecryptOutcome(olm, s, actions[n].room, id, actions[n].body, info).Plain? &&
    olm.decrypt(s.sessions[id].session, actions[n].body).index == Some(index)
  }

  /** The successes are those steps, in order. */
  lemma {:induction false} SuccessesAre(olm: Olm, actions: seq<Action>, success: Success)
    ensures success in Run(olm, actions).successes <==>
            exists n :: 0 <= n < |actions| && DecryptsAt(olm, actions, n, success.id, success.index, success.info)
  {
    if actions != [] {
      var before, last := actions[..|actions| - 1], |actions| - 1;
      SuccessesAre(olm, before, success);
      forall n: nat | n < last
        ensures DecryptsAt(olm, actions, n, success.id, success.index, success.info) <==>
                DecryptsAt(olm, before, n, success.id, success.index, success.info)
      {
        assert before[..n] == actions[..n];
      }
      assert success in Run(olm, actions).successes <==>
             success in Run(olm, before).successes ||
             DecryptsAt(olm, actions, last, success.id, success.index, success.info);
    }
  }

  /** In terms of the steps of a run: messages that are decrypted under one index of one session are of one event. */
  lemma OneEventPerIndexInSteps(olm: Olm, actions: seq<Action>, m: nat, n: nat, id: Id, index: nat, a: MsgInfo, b: MsgInfo)
    requires DecryptsAt(olm, actions, m, id, index, a) && DecryptsAt(olm, actions, n, id, index, b)
    ensures a == b
  {
    SuccessesAre(olm, actions, Success(id, index, a));
    SuccessesAre(olm, actions, Success(id, index, b));
    var done := Run(olm, actions).successes;
    var i :| 0 <= i < |done| && done[i] == Success(id, index, a);
    var j :| 0 <= j < |done| && done[j] == Success(id, index, b);
    OneEventPerIndex(olm, actions, i, j);
  }

  /** Which offers are accepted after a run: those which Olm takes under the right id, and which are for no room,
      for the room of the stored session, or the first that is accepted. */
  lemma AcceptsExactly(olm: Olm, actions: seq<Action>, a: Action)
    requires Steady(olm) && a.DoAdd?
    ensures var s := Run(olm, actions);
            var offered, before, after := olm.create(a.key, a.exportFormat), Offers(s, a.id), Offers(Step(olm, s, a), a.id);
            (before != [] ==> a.id in s.sessions) &&
            after == if offered.Some? && olm.sessionId(offered.value) == a.id.sessionId &&
                        (a.addRoom.None? || before == [] || s.sessions[a.id].roomId == a.addRoom)
                     then before + [olm.firstKnownIndex(offered.value)] else before
  {
    KnowsLowestIndex(olm, actions);
    assert SessionOk(olm, Run(olm, actions), a.id);
  }

  /** What an accepted offer does: it takes the place of the stored session, with its room and the rest, if it
      knows an earlier index than every accepted offer before; else it changes nothing. */
  lemma OnlyBetterReplaces(olm: Olm, actions: seq<Action>, a: Action)
    requires Steady(olm) && a.DoAdd? && Accepted(olm, Run(olm, actions), a.addRoom, a.id, olm.create(a.key, a.exportFormat))
    ensures var s, offered := Run(olm, actions), olm.create(a.key, a.exportFormat).value;
            Step(olm, s, a).sessions ==
            if forall i :: 0 <= i < |Offers(s, a.id)| ==> olm.firstKnownIndex(offered) < Offers(s, a.id)[i]
            then s.sessions[a.id := SessionData(a.addRoom, offered, a.extra)] else s.sessions
  {
    KnowsLowestIndex(olm, actions);
    assert SessionOk(olm, Run(olm, actions), a.id);
  }

  // ---------- what can be decrypted ----------

  /** The sessions that were offered and the messages that were decrypted, without what senders withheld. */
  function Shared(actions: seq<Action>): seq<Action> {
    if actions == [] then [] else
      var n := |actions| - 1;
      Shared(actions[..n]) + if actions[n].DoWithhold? then [] else [actions[n]]
  }

  lemma SharedAdd(olm: Olm, s: State, roomId: Option<RoomId>, id: Id, offered: Option<Session>, extra: Json)
    ensures Add(olm, s.(withheld := map[]), roomId, id, offered, extra) ==
            Add(olm, s, roomId, id, offered, extra).(withheld := map[])
  {
    var t := s.(withheld := map[]);
    assert Accepted(olm, t, roomId, id, offered) == Accepted(olm, s, roomId, id, offered);
  }

  lemma SharedDecrypt(olm: Olm, s: State, roomId: Option<RoomId>, id: Id, body: Ciphertext, info: MsgInfo)
    ensures Decrypt(olm, s.(withheld := map[]), roomId, id, body, info) ==
            Decrypt(olm, s, roomId, id, body, info).(withheld := map[])
  {
    var t := s.(withheld := map[]);
    assert DecryptOutcome(olm, t, roomId, id, body, info).Plain? == DecryptOutcome(olm, s, roomId, id, body, info).Plain?;
  }

  lemma SharedStep(olm: Olm, s: State, a: Action)
    requires !a.DoWithhold?
    ensures Step(olm, s.(withheld := map[]), a) == Step(olm, s, a).(withheld := map[])
  {
    if a.DoAdd? {
      SharedAdd(olm, s, a.addRoom, a.id, olm.create(a.key, a.exportFormat), a.extra);
    } else {
      SharedDecrypt(olm, s, a.room, a.id, a.body, a.info);
    }
  }

  /** That a session was withheld changes nothing but what is said when a message cannot be decrypted: once it
      is shared after all, everything is as if it had never been withheld. */
  lemma {:induction false} WithholdingChangesNothing(olm: Olm, actions: seq<Action>)
    ensures Run(olm, actions).(withheld := map[]) == Run(olm, Shared(actions))
  {
    if actions != [] {
      var n := |actions| - 1;
      WithholdingChangesNothing(olm, actions[..n]);
      if actions[n].DoWithhold? {
        assert Shared(actions) == Shared(actions[..n]);
      } else {
        SharedStep(olm, Run(olm, actions[..n]), actions[n]);
        assert Shared(actions)[..|Shared(actions)| - 1] == Shared(actions[..n]);
      }
    }
  }

  /** What a sender said about a session, in order. */
  function SaidWithheld(actions: seq<Action>, id: Id): (r: seq<Option<Withheld>>)
    ensures |r| == |actions|
  {
    seq(|actions|, i requires 0 <= i < |actions| =>
      if actions[i].DoWithhold? && actions[i].id == id then Some(actions[i].why) else None)
  }

  lemma {:induction false} NewestReason(olm: Olm, actions: seq<Action>, id: Id)
    ensures Lookup(Run(olm, actions).withheld, id) == Newest(SaidWithheld(actions, id))
  {
    if actions != [] {
      var n := |actions| - 1;
      NewestReason(olm, actions[..n], id);
      assert SaidWithheld(actions, id)[..n] == SaidWithheld(actions[..n], id);
    }
  }

  /** No other event was decrypted under an index of a session. */
  ghost predicate NoOtherEvent(s: State, id: Id, index: nat, info: MsgInfo) {
    forall i :: 0 <= i < |s.successes| && s.successes[i].id == id && s.successes[i].index == index ==>
      s.successes[i].info == info
  }

  /** After any run, with keys and session ids without bars: a message is decrypted if and only if some offer of
      its session was accepted, it is for the session's room or for none, Olm decrypts it, and no other event
      has had its index. The user is told why the session was withheld if and only if it was withheld, and there
      is no session for the message, or none that reaches back far enough. */
  lemma DecryptsExactly(olm: Olm, actions: seq<Action>, roomId: Option<RoomId>, id: Id, body: Ciphertext, info: MsgInfo)
    requires Steady(olm) && AllBarless(actions) && BarlessId(id)
    ensures var s := Run(olm, actions);
            var outcome, offered := DecryptOutcome(olm, s, roomId, id, body, info), Offers(s, id) != [];
            var inRoom := offered ==> id in s.sessions && (roomId.None? || s.sessions[id].roomId == roomId);
            (offered ==> id in s.sessions) &&
            (forall text :: outcome == Plain(text) <==>
               && offered && inRoom
               && olm.decrypt(s.sessions[id].session, body).Decrypted?
               && olm.decrypt(s.sessions[id].session, body).plaintext == text
               && (olm.decrypt(s.sessions[id].session, body).index.Some? ==>
                     NoOtherEvent(s, id, olm.decrypt(s.sessions[id].session, body).index.value, info))) &&
            (forall message :: outcome == NotShared(message) <==>
               && Newest(SaidWithheld(actions, id)).Some?
               && message == WithheldMessage(Newest(SaidWithheld(actions, id)).value)
               && (offered ==> inRoom && olm.decrypt(s.sessions[id].session, body).UnknownMessageIndex?))
  {
    KnowsLowestIndex(olm, actions);
    NewestReason(olm, actions, id);
    var s := Run(olm, actions);
    assert SessionOk(olm, s, id);
    if id in s.sessions && RoomMatches(s, roomId, id) {
      ReplayExactly(olm, actions, roomId, id, body, info);
    }
  }

  // ---------- the code ----------

  class OlmDevice {
    const olm: Olm
    var inboundGroupSessions: map<Id, SessionData>
    var inboundGroupSessionsWithheld: map<Id, Withheld>
    var inboundGroupSessionMessageIndexes: map<string, MsgInfo>
    ghost var offers: map<Id, seq<nat>>
    ghost var successes: seq<Success>

    ghost function Contents(): State
      reads this
    {
      State(inboundGroupSessions, inboundGroupSessionsWithheld, inboundGroupSessionMessageIndexes, offers, successes)
    }

    constructor (olm: Olm)
      ensures Contents() == INITIAL && this.olm == olm
    {
      this.olm := olm;
      inboundGroupSessions, inboundGroupSessionsWithheld, inboundGroupSessionMessageIndexes := map[], map[], map[];
      offers, successes := map[], [];
    }

    /** `_getInboundGroupSession` */
    method GetInboundGroupSession(roomId: Option<RoomId>, id: Id) returns (r: Result<Option<SessionData>>)
      ensures r.Throws? <==> !RoomMatches(Contents(), roomId, id)
      ensures r.Ok? ==> r.value == if id in inboundGroupSessions then Some(inboundGroupSessions[id]) else None
    {
      if id !in inboundGroupSessions {
        return Ok(None);
      }
      if roomId.Some? && roomId != inboundGroupSessions[id].roomId {
        return Throws;
      }
      r := Ok(Some(inboundGroupSessions[id]));
    }

    method AddInboundGroupSession(roomId: Option<RoomId>, id: Id, key: SessionKey, exportFormat: bool, extra: Json)
      returns (r: Result<()>)
      modifies this
      ensures Contents() == Step(olm, old(Contents()), DoAdd(roomId, id, key, exportFormat, extra))
      ensures r.Ok? <==> Accepted(olm, old(Contents()), roomId, id, olm.create(key, exportFormat))
    {
      var existing := GetInboundGroupSession(roomId, id);
      if existing.Throws? {
        return Throws;
      }
      var session := olm.create(key, exportFormat);
      if session.None? || olm.sessionId(session.value) != id.sessionId {
        return Throws;
      }
      offers := offers[id := Offers(Contents(), id) + [olm.firstKnownIndex(session.value)]];
      if existing.value.Some? {
        if olm.firstKnownIndex(existing.value.value.session) <= olm.firstKnownIndex(session.value) {
          return Ok(());
        }
      }
      inboundGroupSessions := inboundGroupSessions[id := SessionData(roomId, session.value, extra)];
      r := Ok(());
    }

    /** Only the newest reason is kept. */
    method AddInboundGroupSessionWithheld(roomId: RoomId, id: Id, code: Option<string>, reason: Option<string>)
      modifies this`inboundGroupSessionsWithheld
      ensures Contents() == Step(olm, old(Contents()), DoWithhold(id, Withheld(roomId, code, reason)))
    {
      inboundGroupSessionsWithheld := inboundGroupSessionsWithheld[id := Withheld(roomId, code, reason)];
    }

    method DecryptGroupMessage(roomId: Option<RoomId>, id: Id, body: Ciphertext, eventId: EventId, timestamp: int)
      returns (r: Outcome)
      modifies this
      ensures Contents() == Step(olm, old(Contents()), DoDecrypt(roomId, id, body, MsgInfo(eventId, timestamp)))
      ensures r == DecryptOutcome(olm, old(Contents()), roomId, id, body, MsgInfo(eventId, timestamp))
    {
      var data := GetInboundGroupSession(roomId, id);
      if data.Throws? {
        return WrongRoom;
      }
      var withheld := if id in inboundGroupSessionsWithheld then Some(inboundGroupSessionsWithheld[id]) else None;
      if data.value.None? {
        if withheld.Some? {
          return NotShared(WithheldMessage(withheld.value));
        }
        return UnknownSession;
      }
      var res := olm.decrypt(data.value.value.session, body);
      if !res.Decrypted? {
        if res.UnknownMessageIndex? && withheld.Some? {
          return NotShared(WithheldMessage(withheld.value));
        }
        return Undecryptable;
      }
      if res.index.Some? {
        var messageIndexKey := IndexKey(id, res.index.value);
        if messageIndexKey in inboundGroupSessionMessageIndexes {
          var msgInfo := inboundGroupSessionMessageIndexes[messageIndexKey];
          if msgInfo.eventId != eventId || msgInfo.timestamp != timestamp {
            return Replay;
          }
        }
        inboundGroupSessionMessageIndexes := inboundGroupSessionMessageIndexes[messageIndexKey := MsgInfo(eventId, timestamp)];
        successes := successes + [Success(id, res.index.value, MsgInfo(eventId, timestamp))];
      }
      inboundGroupSessions := inboundGroupSessions[id := data.value.value.(session := res.session)];
      r := Plain(res.plaintext);
    }
  }
}
