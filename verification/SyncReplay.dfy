/** State resolution of the sync accumulator: what a snapshot says about the state at the start
    of its timeline is right, and rolling it forward again gives the current state. */
module SyncReplay {
  import opened Common
  import opened SyncModel

  ghost predicate Touches(events: seq<Event>, k: StateKey) {
    exists i :: 0 <= i < |events| && IsState(events[i]) && KeyOf(events[i]) == k
  }

  // ---------- rolling forward ----------

  lemma {:induction false} ApplyConcat(state: RoomState, a: seq<Event>, b: seq<Event>)
    ensures Apply(state, a + b) == Apply(Apply(state, a), b)
  {
    if b == [] {
      assert a + b == a;
    } else {
      ApplyConcat(state, a, b[..|b| - 1]);
      assert (a + b)[..|a + b| - 1] == a + b[..|b| - 1];
    }
  }

  /** A key that no event touches keeps its value. */
  lemma {:induction false} ApplyUntouched(state: RoomState, events: seq<Event>, k: StateKey)
    requires !Touches(events, k)
    ensures k in Apply(state, events) <==> k in state
    ensures k in state ==> Apply(state, events)[k] == state[k]
  {
    if events != [] {
      assert forall i :: 0 <= i < |events| - 1 ==> events[..|events| - 1][i] == events[i];
      ApplyUntouched(state, events[..|events| - 1], k);
      assert events[|events| - 1] == events[|events| - 1];
    }
  }

  /** A key that some event touches ends with the same event, whatever the state before. */
  lemma {:induction false} ApplyTouched(s: RoomState, t: RoomState, events: seq<Event>, k: StateKey)
    requires Touches(events, k)
    ensures k in Apply(s, events) && k in Apply(t, events)
    ensures Apply(s, events)[k] == Apply(t, events)[k]
    ensures IsState(Apply(s, events)[k]) && KeyOf(Apply(s, events)[k]) == k
  {
    var n := |events| - 1;
    if !(IsState(events[n]) && KeyOf(events[n]) == k) {
      var i :| 0 <= i < |events| && IsState(events[i]) && KeyOf(events[i]) == k;
      assert events[..n][i] == events[i];
      ApplyTouched(s, t, events[..n], k);
    }
  }

  /** Two lists of events on different keys can be applied in either order. */
  lemma Commute(state: RoomState, a: seq<Event>, b: seq<Event>)
    requires forall k :: Touches(a, k) ==> !Touches(b, k)
    ensures Apply(Apply(state, a), b) == Apply(Apply(state, b), a)
  {
    var ab, ba := Apply(Apply(state, a), b), Apply(Apply(state, b), a);
    forall k: StateKey
      ensures k in ab <==> k in ba
      ensures k in ab ==> ab[k] == ba[k]
    {
      if Touches(a, k) {
        ApplyTouched(state, Apply(state, b), a, k);
        ApplyUntouched(Apply(state, a), b, k);
      } else {
        ApplyUntouched(state, a, k);
        ApplyUntouched(Apply(state, b), a, k);
        if Touches(b, k) {
          ApplyTouched(state, Apply(state, a), b, k);
        } else {
          ApplyUntouched(state, b, k);
          ApplyUntouched(Apply(state, a), b, k);
        }
      }
    }
    assert ab.Keys == ba.Keys;
  }

  // ---------- the state at the start of the kept timeline ----------

  /** The `state` section of a response that is not limited leaves the kept timeline's keys alone. */
  ghost predicate StateAvoids(room: Room, d: JoinData) {
    d.limited || forall k :: Touches(d.stateEvents, k) ==> !Touches(Events(room.timeline), k)
  }

  ghost predicate Avoids(history: seq<JoinData>, max: nat) {
    history == [] ||
    (Avoids(history[..|history| - 1], max) &&
     StateAvoids(RunRoom(history[..|history| - 1], max), history[|history| - 1]))
  }

  /** How the state at the start of the kept timeline moves with one response: a `state` section is
      the delta up to the start of the timeline, and dropped entries are rolled over. */
  ghost function NextStart(start: RoomState, room: Room, d: JoinData, max: nat): RoomState {
    var timeline := Extended(room, d);
    Apply(Apply(if d.limited then room.state else start, d.stateEvents),
          Events(timeline[..|timeline| - |Prune(timeline, max)|]))
  }

  /** The room's state at the start of the kept timeline, followed along a run. */
  ghost function StartState(history: seq<JoinData>, max: nat): RoomState {
    if history == [] then map[] else
      var before := history[..|history| - 1];
      NextStart(StartState(before, max), RunRoom(before, max), history[|history| - 1], max)
  }

  /** Pruning keeps a suffix. */
  lemma PruneIsSuffix(timeline: seq<Entry>, max: nat)
    ensures |Prune(timeline, max)| <= |timeline|
    ensures var n := |timeline| - |Prune(timeline, max)|;
            Prune(timeline, max) == timeline[n..] &&
            Events(timeline) == Events(timeline[..n]) + Events(Prune(timeline, max))
  {
  }

  lemma ExtendedEvents(room: Room, d: JoinData)
    ensures Events(Extended(room, d)) ==
            (if d.limited then [] else Events(room.timeline)) + d.timelineEvents
  {
  }

  /** One response, before pruning. */
  lemma ExtendedFromStart(start: RoomState, room: Room, d: JoinData, max: nat)
    requires room.state == Apply(start, Events(room.timeline))
    requires StateAvoids(room, d)
    ensures AccumulateJoin(room, d, max).state ==
            Apply(Apply(if d.limited then room.state else start, d.stateEvents), Events(Extended(room, d)))
  {
    ExtendedEvents(room, d);
    if d.limited {
      assert Events(Extended(room, d)) == d.timelineEvents;
    } else {
      Commute(start, Events(room.timeline), d.stateEvents);
      ApplyConcat(Apply(start, d.stateEvents), Events(room.timeline), d.timelineEvents);
    }
  }

  /** One response keeps the relation between start, timeline and current state. */
  lemma NextStartThenTimeline(start: RoomState, room: Room, d: JoinData, max: nat)
    requires room.state == Apply(start, Events(room.timeline))
    requires StateAvoids(room, d)
    ensures AccumulateJoin(room, d, max).state ==
            Apply(NextStart(start, room, d, max), Events(AccumulateJoin(room, d, max).timeline))
  {
    ExtendedFromStart(start, room, d, max);
    var timeline := Extended(room, d);
    PruneIsSuffix(timeline, max);
    ApplyConcat(Apply(if d.limited then room.state else start, d.stateEvents),
                Events(timeline[..|timeline| - |Prune(timeline, max)|]), Events(Prune(timeline, max)));
  }

  /** On every run, the state at the start of the kept timeline rolled forward is the current state. */
  lemma {:induction false} StartThenTimeline(history: seq<JoinData>, max: nat)
    requires Avoids(history, max)
    ensures RunRoom(history, max).state ==
            Apply(StartState(history, max), Events(RunRoom(history, max).timeline))
  {
    if history != [] {
      var before := history[..|history| - 1];
      StartThenTimeline(before, max);
      NextStartThenTimeline(StartState(before, max), RunRoom(before, max), history[|history| - 1], max);
    }
  }

  // ---------- rolling back ----------

  /** The first event that touches `k`. */
  ghost function First(events: seq<Event>, k: StateKey): (i: nat)
    requires Touches(events, k)
    ensures i < |events| && IsState(events[i]) && KeyOf(events[i]) == k
    ensures !Touches(events[..i], k)
  {
    if IsState(events[0]) && KeyOf(events[0]) == k then 0 else
      var i :| 0 <= i < |events| && IsState(events[i]) && KeyOf(events[i]) == k;
      assert events[1..][i - 1] == events[i];
      var j := First(events[1..], k);
      assert events[..j + 1] == [events[0]] + events[1..][..j];
      j + 1
  }

  /** Reverse clobbering keeps, for each key, what the first event on it replaced. */
  lemma {:induction false} RollBackIsFirst(events: seq<Event>, k: StateKey)
    ensures k in RollBack(events) <==> Touches(events, k)
    ensures Touches(events, k) ==> RollBack(events)[k] == Previous(events[First(events, k)])
  {
    if events != [] {
      RollBackIsFirst(events[1..], k);
      assert Touches(events, k) <==>
        (IsState(events[0]) && KeyOf(events[0]) == k) || Touches(events[1..], k) by {
        if Touches(events[1..], k) {
          var i :| 0 <= i < |events| - 1 && IsState(events[1..][i]) && KeyOf(events[1..][i]) == k;
          assert events[i + 1] == events[1..][i];
        }
        if Touches(events, k) && !(IsState(events[0]) && KeyOf(events[0]) == k) {
          var i :| 0 <= i < |events| && IsState(events[i]) && KeyOf(events[i]) == k;
          assert events[1..][i - 1] == events[i];
        }
      }
    }
  }

  // ---------- when a snapshot replays ----------

  /** The last event that touches `k`. */
  ghost function Last(events: seq<Event>, k: StateKey): (e: Event)
    requires Touches(events, k)
    ensures IsState(e) && KeyOf(e) == k
  {
    var n := |events| - 1;
    if IsState(events[n]) && KeyOf(events[n]) == k then events[n] else
      var i :| 0 <= i < |events| && IsState(events[i]) && KeyOf(events[i]) == k;
      assert events[..n][i] == events[i];
      Last(events[..n], k)
  }

  lemma TouchesConcat(a: seq<Event>, b: seq<Event>, k: StateKey)
    ensures Touches(a + b, k) <==> Touches(a, k) || Touches(b, k)
  {
    if Touches(a, k) {
      var i :| 0 <= i < |a| && IsState(a[i]) && KeyOf(a[i]) == k;
      assert (a + b)[i] == a[i];
    } else if Touches(b, k) {
      var i :| 0 <= i < |b| && IsState(b[i]) && KeyOf(b[i]) == k;
      assert (a + b)[|a| + i] == b[i];
    }
  }

  lemma {:induction false} LastOfConcat(a: seq<Event>, b: seq<Event>, k: StateKey)
    requires Touches(a + b, k)
    ensures Touches(b, k) ==> Last(a + b, k) == Last(b, k)
    ensures !Touches(b, k) ==> Touches(a, k) && Last(a + b, k) == Last(a, k)
  {
    TouchesConcat(a, b, k);
    if b == [] {
      assert a + b == a;
    } else {
      var n := |b| - 1;
      assert (a + b)[..|a + b| - 1] == a + b[..n];
      assert b == b[..n] + [b[n]];
      TouchesConcat(b[..n], [b[n]], k);
      if !(IsState(b[n]) && KeyOf(b[n]) == k) {
        assert !Touches([b[n]], k);
        TouchesConcat(a, b[..n], k);
        LastOfConcat(a, b[..n], k);
      }
    }
  }

  lemma {:induction false} ApplyIsLast(state: RoomState, events: seq<Event>, k: StateKey)
    requires Touches(events, k)
    ensures k in Apply(state, events) && Apply(state, events)[k] == Last(events, k)
  {
    var n := |events| - 1;
    if !(IsState(events[n]) && KeyOf(events[n]) == k) {
      var i :| 0 <= i < |events| && IsState(events[i]) && KeyOf(events[i]) == k;
      assert events[..n][i] == events[i];
      ApplyIsLast(state, events[..n], k);
    }
  }

  /** A room's snapshot replays: an empty room that is given the emitted state and then the emitted
      timeline ends in exactly the room's state. */
  ghost predicate Replays(room: Room) {
    var events := Events(Emitted(room.timeline));
    Apply(EmittedState(room.state, events), events) == room.state
  }

  /** For every key that the timeline touches, the state is the last timeline event on it. */
  ghost predicate Agrees(state: RoomState, events: seq<Event>) {
    forall k :: Touches(events, k) ==> k in state && state[k] == Last(events, k)
  }

  lemma ReplaysIffAgrees(state: RoomState, events: seq<Event>)
    ensures Apply(EmittedState(state, events), events) == state <==> Agrees(state, events)
  {
    var emitted := EmittedState(state, events);
    var replayed := Apply(emitted, events);
    forall k: StateKey
      ensures Touches(events, k) ==> k in replayed && replayed[k] == Last(events, k)
      ensures !Touches(events, k) ==> (k in replayed <==> k in state) && (k in state ==> replayed[k] == state[k])
    {
      RollBackIsFirst(events, k);
      if Touches(events, k) {
        ApplyIsLast(emitted, events, k);
      } else {
        ApplyUntouched(emitted, events, k);
      }
    }
    if Agrees(state, events) {
      assert replayed.Keys == state.Keys;
    }
  }

  // ---------- one response ----------

  /** The part of the emitted timeline that was in the room before the response. */
  ghost function CarriedOver(room: Room, d: JoinData, max: nat): seq<Event> {
    Front(Events(Emitted(AccumulateJoin(room, d, max).timeline)), |d.timelineEvents|)
  }

  /** All but the last `n` events, if there are that many. */
  ghost function Front(events: seq<Event>, n: nat): seq<Event> {
    if n <= |events| then events[..|events| - n] else []
  }

  lemma FrontOfConcat(a: seq<Event>, b: seq<Event>)
    ensures Front(a + b, |b|) == a
  {
  }

  /** Where the timeline starts that is emitted after pruning: at a token, or nowhere. */
  lemma EmittedFrom(timeline: seq<Entry>, max: nat) returns (m: nat)
    ensures m <= |timeline| && Emitted(Prune(timeline, max)) == timeline[m..]
    ensures m < |timeline| ==> timeline[m].token.Some?
  {
    PruneIsSuffix(timeline, max);
    var kept := Prune(timeline, max);
    var n := |timeline| - |kept|;
    m := n + FirstToken(kept, 0);
    assert m < |timeline| ==> kept[m - n] == timeline[m];
  }

  lemma SuffixOfEmitted(timeline: seq<Entry>, m: nat)
    requires m < |timeline| && timeline[m].token.Some?
    ensures var n := FirstToken(timeline, 0);
            n <= m && Events(timeline[m..]) == Events(Emitted(timeline))[m - n..]
  {
  }

  /** A timeline is cut at a token: not within the events of the newest response. */
  lemma CutOfExtended(room: Room, d: JoinData, m: nat)
    requires m < |Extended(room, d)| && Extended(room, d)[m].token.Some?
    ensures d.limited ==> m == 0
    ensures m <= |room.timeline| || d.limited
    ensures !d.limited && m < |room.timeline| ==> room.timeline[m].token.Some?
    ensures Events(Extended(room, d)[m..]) ==
            (if d.limited then [] else Events(room.timeline[m..])) + d.timelineEvents
  {
  }

  /** After a response either all its timeline is emitted, behind a part of what was emitted before, or
      nothing is. */
  lemma EmittedAfter(room: Room, d: JoinData, max: nat)
    ensures var events := Events(Emitted(AccumulateJoin(room, d, max).timeline));
            var carried, before := CarriedOver(room, d, max), Events(Emitted(room.timeline));
            (events == carried + d.timelineEvents || (events == [] && carried == [])) &&
            |carried| <= |before| && carried == before[|before| - |carried|..]
  {
    var timeline := Extended(room, d);
    var m := EmittedFrom(timeline, max);
    var before := Events(Emitted(room.timeline));
    if m < |timeline| {
      CutOfExtended(room, d, m);
      var carried := if d.limited then [] else Events(room.timeline[m..]);
      FrontOfConcat(carried, d.timelineEvents);
      if carried != [] {
        SuffixOfEmitted(room.timeline, m);
      }
    }
  }

  /** One response, exactly. If a room's snapshots replay, they still do after a response if and only if
      its `state` section does not disagree with what is carried over: for each key that both touch, and
      that the response's timeline does not, the last events of both are the same. */
  lemma StepReplaysExactly(room: Room, d: JoinData, max: nat)
    requires Replays(room)
    ensures var carried := CarriedOver(room, d, max);
            Replays(AccumulateJoin(room, d, max)) <==>
            forall k :: Touches(carried, k) && Touches(d.stateEvents, k) && !Touches(d.timelineEvents, k) ==>
              Last(d.stateEvents, k) == Last(carried, k)
  {
    var after, carried := AccumulateJoin(room, d, max), CarriedOver(room, d, max);
    var events, before := Events(Emitted(after.timeline)), Events(Emitted(room.timeline));
    EmittedAfter(room, d, max);
    ReplaysIffAgrees(room.state, before);
    ReplaysIffAgrees(after.state, events);
    if events == carried + d.timelineEvents {
      forall k | Touches(events, k)
        ensures k in after.state
        ensures after.state[k] == Last(events, k) <==>
                (Touches(carried, k) && Touches(d.stateEvents, k) && !Touches(d.timelineEvents, k) ==>
                   Last(d.stateEvents, k) == Last(carried, k))
      {
        AgreesAt(room.state, before, carried, d, k);
      }
      forall k | Touches(carried, k) ensures Touches(events, k) {
        TouchesConcat(carried, d.timelineEvents, k);
      }
    }
  }

  lemma AgreesAt(state: RoomState, before: seq<Event>, carried: seq<Event>, d: JoinData, k: StateKey)
    requires Agrees(state, before) && |carried| <= |before| && carried == before[|before| - |carried|..]
    requires Touches(carried + d.timelineEvents, k)
    ensures var after, events := Apply(Apply(state, d.stateEvents), d.timelineEvents), carried + d.timelineEvents;
            k in after &&
            (after[k] == Last(events, k) <==>
               (Touches(carried, k) && Touches(d.stateEvents, k) && !Touches(d.timelineEvents, k) ==>
                  Last(d.stateEvents, k) == Last(carried, k)))
  {
    LastOfConcat(carried, d.timelineEvents, k);
    if Touches(d.timelineEvents, k) {
      ApplyIsLast(Apply(state, d.stateEvents), d.timelineEvents, k);
    } else {
      ApplyUntouched(Apply(state, d.stateEvents), d.timelineEvents, k);
      var dropped := before[..|before| - |carried|];
      assert before == dropped + carried;
      TouchesConcat(dropped, carried, k);
      LastOfConcat(dropped, carried, k);
      if Touches(d.stateEvents, k) {
        ApplyIsLast(state, d.stateEvents, k);
      } else {
        ApplyUntouched(state, d.stateEvents, k);
      }
    }
  }

  // ---------- whole runs ----------

  /** All timeline events of a run. */
  function Timelines(history: seq<JoinData>): seq<Event> {
    if history == [] then [] else Timelines(history[..|history| - 1]) + history[|history| - 1].timelineEvents
  }

  /** The newest event on a key that came in a `state` section after the newest timeline event on it. */
  ghost function Late(history: seq<JoinData>, k: StateKey): Option<Event> {
    if history == [] then None else
      var d := history[|history| - 1];
      if Touches(d.timelineEvents, k) then None
      else if Touches(d.stateEvents, k) then Some(Last(d.stateEvents, k))
      else Late(history[..|history| - 1], k)
  }

  /** The state holds, for each key, the newest event that came for it. */
  lemma {:induction false} StateIsNewest(history: seq<JoinData>, max: nat, k: StateKey)
    ensures var state := RunRoom(history, max).state;
            (Late(history, k).Some? ==> k in state && state[k] == Late(history, k).value) &&
            (Late(history, k).None? && Touches(Timelines(history), k) ==>
               k in state && state[k] == Last(Timelines(history), k))
  {
    if history != [] {
      var before, d := history[..|history| - 1], history[|history| - 1];
      var state := RunRoom(before, max).state;
      StateIsNewest(before, max, k);
      TouchesConcat(Timelines(before), d.timelineEvents, k);
      if Touches(Timelines(history), k) {
        LastOfConcat(Timelines(before), d.timelineEvents, k);
      }
      if Touches(d.timelineEvents, k) {
        ApplyIsLast(Apply(state, d.stateEvents), d.timelineEvents, k);
      } else {
        ApplyUntouched(Apply(state, d.stateEvents), d.timelineEvents, k);
        if Touches(d.stateEvents, k) {
          ApplyIsLast(state, d.stateEvents, k);
        } else {
          ApplyUntouched(state, d.stateEvents, k);
        }
      }
    }
  }

  /** One response drops events at the start of the timeline only. */
  lemma KeptAfter(room: Room, d: JoinData, max: nat) returns (cut: seq<Event>)
    ensures (if d.limited then [] else Events(room.timeline)) + d.timelineEvents ==
            cut + Events(AccumulateJoin(room, d, max).timeline)
  {
    var timeline := Extended(room, d);
    ExtendedEvents(room, d);
    PruneIsSuffix(timeline, max);
    cut := Events(timeline[..|timeline| - |Prune(timeline, max)|]);
  }

  lemma Regroup(a: seq<Event>, b: seq<Event>, c: seq<Event>, cut: seq<Event>, kept: seq<Event>)
    requires b + c == cut + kept
    ensures (a + b) + c == (a + cut) + kept
  {
    assert (a + b) + c == a + (b + c);
  }

  /** The kept timeline ends all timeline events of the run. */
  lemma {:induction false} KeptIsSuffix(history: seq<JoinData>, max: nat) returns (dropped: seq<Event>)
    ensures Timelines(history) == dropped + Events(RunRoom(history, max).timeline)
  {
    if history == [] {
      dropped := [];
    } else {
      var before, d := history[..|history| - 1], history[|history| - 1];
      var kept, after := Events(RunRoom(before, max).timeline), Events(RunRoom(history, max).timeline);
      var earlier := KeptIsSuffix(before, max);
      var cut := KeptAfter(RunRoom(before, max), d, max);
      if d.limited {
        Regroup(earlier + kept, [], d.timelineEvents, cut, after);
        assert earlier + kept + [] == earlier + kept;
        dropped := earlier + kept + cut;
      } else {
        Regroup(earlier, kept, d.timelineEvents, cut, after);
        dropped := earlier + cut;
      }
    }
  }

  /** No `state` section has the last word on a key of the emitted timeline, unless with the same event. */
  ghost predicate Confirmed(history: seq<JoinData>, max: nat) {
    var events := Events(Emitted(RunRoom(history, max).timeline));
    forall k :: Touches(events, k) && Late(history, k).Some? ==> Late(history, k).value == Last(events, k)
  }

  // ---------- main results ----------

  /** Replay over whole runs, exactly: despite roll-back, limited resets and pruning, an empty room that is
      given the emitted state and then the emitted timeline ends in the current state, if and only if for
      each key that the emitted timeline touches the newest event that came for it, in a timeline or in a
      `state` section, is the last one of that timeline. */
  lemma Replay(history: seq<JoinData>, max: nat)
    ensures Replays(RunRoom(history, max)) <==> Confirmed(history, max)
  {
    var room := RunRoom(history, max);
    var events := Events(Emitted(room.timeline));
    ReplaysIffAgrees(room.state, events);
    var dropped := KeptIsSuffix(history, max);
    EmittedSplit(room.timeline);
    var before := dropped + Events(room.timeline[..FirstToken(room.timeline, 0)]);
    assert Timelines(history) == before + events;
    forall k | Touches(events, k)
      ensures k in room.state
      ensures room.state[k] == Last(events, k) <==>
              (Late(history, k).Some? ==> Late(history, k).value == Last(events, k))
    {
      TouchesConcat(before, events, k);
      LastOfConcat(before, events, k);
      StateIsNewest(history, max, k);
    }
  }

  /** The state at the start of the emitted part of a timeline that starts at `start`: entries
      before the first token are skipped. */
  ghost function SkippedTo(start: RoomState, timeline: seq<Entry>): RoomState {
    Apply(start, Events(timeline[..FirstToken(timeline, 0)]))
  }

  ghost function EmittedStart(history: seq<JoinData>, max: nat): RoomState {
    SkippedTo(StartState(history, max), RunRoom(history, max).timeline)
  }

  lemma EmittedSplit(timeline: seq<Entry>)
    ensures Events(timeline) == Events(timeline[..FirstToken(timeline, 0)]) + Events(Emitted(timeline))
  {
  }

  lemma SkippedThenEmitted(start: RoomState, timeline: seq<Entry>)
    ensures Apply(start, Events(timeline)) == Apply(SkippedTo(start, timeline), Events(Emitted(timeline)))
  {
    EmittedSplit(timeline);
    ApplyConcat(start, Events(timeline[..FirstToken(timeline, 0)]), Events(Emitted(timeline)));
  }

  /** In particular every run replays in which the `state` sections of responses that are not limited
      leave the keys of the kept timeline alone. */
  lemma AvoidingRunReplays(history: seq<JoinData>, max: nat)
    requires Avoids(history, max)
    ensures Confirmed(history, max)
  {
    StartThenTimeline(history, max);
    var start, room := StartState(history, max), RunRoom(history, max);
    var events := Events(Emitted(room.timeline));
    SkippedThenEmitted(start, room.timeline);
    forall k | Touches(events, k) ensures k in room.state && room.state[k] == Last(events, k) {
      ApplyIsLast(SkippedTo(start, room.timeline), events, k);
    }
    ReplaysIffAgrees(room.state, events);
    Replay(history, max);
  }

  /** Two responses: a timeline event on a key, and then a `state` section with one event on the key. */
  function TimelineThenState(e: Event, f: Event, token: Token): seq<JoinData> {
    [JoinData([], None, None, [], false, [], [e], Some(token)), JoinData([], None, None, [], false, [f], [], None)]
  }

  /** Such a run replays if and only if both are the same event. */
  lemma StateAfterTimeline(e: Event, f: Event, token: Token)
    requires IsState(e) && IsState(f) && KeyOf(e) == KeyOf(f)
    ensures Replays(RunRoom(TimelineThenState(e, f, token), 50)) <==> e == f
    ensures !Avoids(TimelineThenState(e, f, token), 50)
  {
    var history, k := TimelineThenState(e, f, token), KeyOf(e);
    var d := history[0];
    assert history[..1] == [d] && [d][..0] == [];
    assert Extended(EMPTY_ROOM, d) == [Entry(e, Some(token))];
    var first := RunRoom([d], 50);
    assert first == AccumulateJoin(RunRoom([d][..0], 50), d, 50);
    assert first.timeline == [Entry(e, Some(token))];
    var room := RunRoom(history, 50);
    assert Extended(first, history[1]) == first.timeline;
    assert room.timeline == first.timeline;
    assert Events(Emitted(room.timeline)) == [e] && Events(first.timeline) == [e];
    assert Touches([f], k) by { assert IsState([f][0]); }
    assert Touches([e], k) by { assert IsState([e][0]); }
    assert !Touches([], k);
    assert Late(history, k) == Some(Last([f], k)) == Some(f);
    assert Last([e], k) == e;
    Replay(history, 50);
    if e == f {
      forall q | Touches([e], q) && Late(history, q).Some? ensures Late(history, q).value == Last([e], q) {
        assert q == k;
      }
    }
  }

  /** Each state event tells the content and sender of the value it replaced. */
  ghost predicate Truthful(state: RoomState, events: seq<Event>) {
    forall i :: 0 <= i < |events| && IsState(events[i]) && KeyOf(events[i]) in Apply(state, events[..i]) ==>
      var was := Apply(state, events[..i])[KeyOf(events[i])];
      events[i].prevContent == Some(was.content) && events[i].prevSender == Some(was.sender)
  }

  ghost predicate TruthfulRun(history: seq<JoinData>, max: nat) {
    history == [] ||
    var d := history[|history| - 1];
    TruthfulRun(history[..|history| - 1], max) &&
    Truthful(Apply(RunRoom(history[..|history| - 1], max).state, d.stateEvents), d.timelineEvents)
  }

  lemma TruthfulSuffix(state: RoomState, a: seq<Event>, b: seq<Event>)
    requires Truthful(state, a + b)
    ensures Truthful(Apply(state, a), b)
  {
    forall i | 0 <= i < |b|
      ensures Apply(Apply(state, a), b[..i]) == Apply(state, (a + b)[..|a| + i])
      ensures (a + b)[|a| + i] == b[i]
    {
      ApplyConcat(state, a, b[..i]);
      assert (a + b)[..|a| + i] == a + b[..i];
    }
  }

  lemma TruthfulConcat(state: RoomState, a: seq<Event>, b: seq<Event>)
    requires Truthful(state, a) && Truthful(Apply(state, a), b)
    ensures Truthful(state, a + b)
  {
    forall i | 0 <= i < |a + b|
      ensures i < |a| ==> (a + b)[..i] == a[..i]
      ensures |a| <= i ==> Apply(state, (a + b)[..i]) == Apply(Apply(state, a), b[..i - |a|])
    {
      if |a| <= i {
        ApplyConcat(state, a, b[..i - |a|]);
        assert (a + b)[..i] == a + b[..i - |a|];
      }
    }
  }

  /** Changing keys that a timeline does not touch keeps it truthful. */
  lemma TruthfulElsewhere(state: RoomState, delta: seq<Event>, events: seq<Event>)
    requires Truthful(state, events)
    requires forall k :: Touches(delta, k) ==> !Touches(events, k)
    ensures Truthful(Apply(state, delta), events)
  {
    forall i | 0 <= i < |events| && IsState(events[i]) && KeyOf(events[i]) in Apply(Apply(state, delta), events[..i])
      ensures KeyOf(events[i]) in Apply(state, events[..i])
      ensures Apply(state, events[..i])[KeyOf(events[i])] == Apply(Apply(state, delta), events[..i])[KeyOf(events[i])]
    {
      var k := KeyOf(events[i]);
      assert Touches(events, k);
      ApplyUntouched(state, delta, k);
      if Touches(events[..i], k) {
        ApplyTouched(state, Apply(state, delta), events[..i], k);
      } else {
        ApplyUntouched(state, events[..i], k);
        ApplyUntouched(Apply(state, delta), events[..i], k);
      }
    }
  }

  /** One response keeps the kept timeline truthful from the state at its start. */
  lemma NextTruthful(start: RoomState, room: Room, d: JoinData, max: nat)
    requires room.state == Apply(start, Events(room.timeline))
    requires Truthful(start, Events(room.timeline))
    requires StateAvoids(room, d)
    requires Truthful(Apply(room.state, d.stateEvents), d.timelineEvents)
    ensures Truthful(NextStart(start, room, d, max), Events(AccumulateJoin(room, d, max).timeline))
  {
    var timeline := Extended(room, d);
    var base := Apply(if d.limited then room.state else start, d.stateEvents);
    ExtendedEvents(room, d);
    assert Truthful(base, Events(timeline)) by {
      if d.limited {
        assert Events(timeline) == d.timelineEvents;
      } else {
        TruthfulElsewhere(start, d.stateEvents, Events(room.timeline));
        Commute(start, Events(room.timeline), d.stateEvents);
        TruthfulConcat(base, Events(room.timeline), d.timelineEvents);
      }
    }
    PruneIsSuffix(timeline, max);
    TruthfulSuffix(base, Events(timeline[..|timeline| - |Prune(timeline, max)|]), Events(Prune(timeline, max)));
  }

  /** On every run, the kept timeline is truthful from the state at its start. */
  lemma {:induction false} TruthfulTimeline(history: seq<JoinData>, max: nat)
    requires Avoids(history, max) && TruthfulRun(history, max)
    ensures Truthful(StartState(history, max), Events(RunRoom(history, max).timeline))
  {
    if history != [] {
      var before := history[..|history| - 1];
      TruthfulTimeline(before, max);
      StartThenTimeline(before, max);
      NextTruthful(StartState(before, max), RunRoom(before, max), history[|history| - 1], max);
    }
  }

  /** Over a truthful timeline, rolling back restores the content and sender of every key that had
      a value at its start. */
  lemma RollBackRestores(start: RoomState, events: seq<Event>, k: StateKey)
    requires Truthful(start, events) && k in start
    ensures var state := Apply(start, events);
            k in state &&
            EmittedState(state, events)[k].content == start[k].content &&
            EmittedState(state, events)[k].sender == start[k].sender
  {
    var state := Apply(start, events);
    RollBackIsFirst(events, k);
    if Touches(events, k) {
      ApplyTouched(start, start, events, k);
      var i := First(events, k);
      ApplyUntouched(start, events[..i], k);
    } else {
      ApplyUntouched(start, events, k);
    }
  }

  lemma EmittedRestores(start: RoomState, room: Room, k: StateKey)
    requires room.state == Apply(start, Events(room.timeline))
    requires Truthful(start, Events(room.timeline))
    requires k in SkippedTo(start, room.timeline)
    ensures var emitted := EmittedState(room.state, Events(Emitted(room.timeline)));
            k in emitted &&
            emitted[k].content == SkippedTo(start, room.timeline)[k].content &&
            emitted[k].sender == SkippedTo(start, room.timeline)[k].sender
  {
    SkippedThenEmitted(start, room.timeline);
    EmittedSplit(room.timeline);
    TruthfulSuffix(start, Events(room.timeline[..FirstToken(room.timeline, 0)]), Events(Emitted(room.timeline)));
    RollBackRestores(SkippedTo(start, room.timeline), Events(Emitted(room.timeline)), k);
  }

  /** Roll-back is right over whole runs, for any number of overwrites, resets and prunes. */
  lemma RollBackIsRight(history: seq<JoinData>, max: nat, k: StateKey)
    requires Avoids(history, max) && TruthfulRun(history, max)
    requires k in EmittedStart(history, max)
    ensures var room := RunRoom(history, max);
            var emitted := EmittedState(room.state, Events(Emitted(room.timeline)));
            k in emitted &&
            emitted[k].content == EmittedStart(history, max)[k].content &&
            emitted[k].sender == EmittedStart(history, max)[k].sender
  {
    TruthfulTimeline(history, max);
    StartThenTimeline(history, max);
    EmittedRestores(StartState(history, max), RunRoom(history, max), k);
  }

  // ---------- roll-back on any run ----------

  /** The room's state just before each timeline event of a run, in order. */
  ghost function StatesBefore(history: seq<JoinData>, max: nat): seq<RoomState> {
    if history == [] then [] else
      var before, d := history[..|history| - 1], history[|history| - 1];
      var state := Apply(RunRoom(before, max).state, d.stateEvents);
      StatesBefore(before, max) +
      seq(|d.timelineEvents|, i requires 0 <= i < |d.timelineEvents| => Apply(state, d.timelineEvents[..i]))
  }

  ghost predicate TellsReplaced(e: Event, before: RoomState) {
    IsState(e) && KeyOf(e) in before ==>
      e.prevContent == Some(before[KeyOf(e)].content) && e.prevSender == Some(before[KeyOf(e)].sender)
  }

  lemma {:induction false} TruthfulEvents(history: seq<JoinData>, max: nat)
    requires TruthfulRun(history, max)
    ensures |StatesBefore(history, max)| == |Timelines(history)|
    ensures forall n :: 0 <= n < |Timelines(history)| ==> TellsReplaced(Timelines(history)[n], StatesBefore(history, max)[n])
  {
    if history != [] {
      TruthfulEvents(history[..|history| - 1], max);
    }
  }

  /** Whatever the `state` sections say: on any truthful run, a key that the emitted timeline touches is
      emitted with the content and sender that it had when the first emitted event on it came. */
  lemma RollBackOnAnyRun(history: seq<JoinData>, max: nat, k: StateKey)
    requires TruthfulRun(history, max) && Touches(Events(Emitted(RunRoom(history, max).timeline)), k)
    ensures |StatesBefore(history, max)| == |Timelines(history)|
    ensures var room := RunRoom(history, max);
            var events := Events(Emitted(room.timeline));
            var emitted := EmittedState(room.state, events);
            var n := |Timelines(history)| - |events| + First(events, k);
            0 <= n < |Timelines(history)| && Timelines(history)[n] == events[First(events, k)] &&
            k in emitted &&
            (k in StatesBefore(history, max)[n] ==>
               emitted[k].content == StatesBefore(history, max)[n][k].content &&
               emitted[k].sender == StatesBefore(history, max)[n][k].sender)
  {
    TruthfulEvents(history, max);
    var room := RunRoom(history, max);
    var events := Events(Emitted(room.timeline));
    var dropped := KeptIsSuffix(history, max);
    EmittedSplit(room.timeline);
    var before := dropped + Events(room.timeline[..FirstToken(room.timeline, 0)]);
    assert Timelines(history) == before + events;
    var n := |before| + First(events, k);
    assert TellsReplaced(Timelines(history)[n], StatesBefore(history, max)[n]);
    RollBackIsFirst(events, k);
    TouchesConcat(before, events, k);
    StateIsNewest(history, max, k);
  }
}
