/** src/timeline-window.js over the timelines of src/models/event-timeline.js, as objects that are
    updated in place: a window with two cursors refines a slice of the flattened chain. */
module TimelineWindowClass {
  import opened Common
  import opened WindowModel

  /** Timelines are referred to by identity and hold references to their neighbours. */
  type TimelineId(==, !new, 0)

  datatype Timeline = Timeline(
    events: seq<MatrixEvent>,
    baseIndex: int,
    prev: Option<TimelineId>,
    next: Option<TimelineId>)

  type Timelines = map<TimelineId, Timeline>

  class EventTimelineSet {
    var timelines: Timelines

    constructor ()
      ensures timelines == map[]
    {
      timelines := map[];
    }

    /** `EventTimeline.setNeighbouringTimeline`, which throws if there is a neighbour already. */
    method SetNeighbouringTimeline(id: TimelineId, neighbour: TimelineId, direction: Direction) returns (r: Result<()>)
      requires id in timelines
      modifies this
      ensures r.Throws? <==> Neighbour(old(timelines)[id], direction).Some?
      ensures timelines == if r.Ok? then WithNeighbour(old(timelines), id, neighbour, direction) else old(timelines)
    {
      var t := timelines[id];
      if direction == Backwards {
        if t.prev.Some? {
          return Throws;
        }
        t := t.(prev := Some(neighbour));
      } else {
        if t.next.Some? {
          return Throws;
        }
        t := t.(next := Some(neighbour));
      }
      timelines := timelines[id := t];
      r := Ok(());
    }

    /** `EventTimeline.addEvent`: the index of an event relative to the base index never changes. */
    method AddEvent(id: TimelineId, event: MatrixEvent, atStart: bool)
      requires id in timelines
      modifies this
      ensures timelines == WithEvent(old(timelines), id, event, atStart)
    {
      var t := timelines[id];
      if atStart {
        t := t.(events := [event] + t.events, baseIndex := t.baseIndex + 1);
      } else {
        t := t.(events := t.events + [event]);
      }
      timelines := timelines[id := t];
    }
  }

  datatype Direction = Backwards | Forwards

  function Neighbour(t: Timeline, direction: Direction): Option<TimelineId> {
    if direction == Backwards then t.prev else t.next
  }

  function WithNeighbour(timelines: Timelines, id: TimelineId, neighbour: TimelineId, direction: Direction): Timelines
    requires id in timelines
  {
    var t := timelines[id];
    timelines[id := if direction == Backwards then t.(prev := Some(neighbour)) else t.(next := Some(neighbour))]
  }

  /** Two timelines that are neighbours of one another. */
  function Linked(timelines: Timelines, last: TimelineId, first: TimelineId): Timelines
    requires last in timelines && first in timelines
  {
    WithNeighbour(WithNeighbour(timelines, last, first, Forwards), first, last, Backwards)
  }

  function WithEvent(timelines: Timelines, id: TimelineId, event: MatrixEvent, atStart: bool): Timelines
    requires id in timelines
  {
    var t := timelines[id];
    timelines[id :=
      if atStart then t.(events := [event] + t.events, baseIndex := t.baseIndex + 1)
      else t.(events := t.events + [event])]
  }

  // ---------- chains ----------

  /** A doubly linked list of timelines, from its first to its last element. */
  ghost predicate IsChain(timelines: Timelines, chain: seq<TimelineId>) {
    && (forall i, j :: 0 <= i < j < |chain| ==> chain[i] != chain[j])
    && (forall i :: 0 <= i < |chain| ==> chain[i] in timelines)
    && (forall i :: 0 <= i < |chain| ==> timelines[chain[i]].next == if i + 1 < |chain| then Some(chain[i + 1]) else None)
    && (forall i :: 0 <= i < |chain| ==> timelines[chain[i]].prev == if i > 0 then Some(chain[i - 1]) else None)
  }

  lemma Neighbours(timelines: Timelines, chain: seq<TimelineId>, i: nat)
    requires IsChain(timelines, chain) && i < |chain|
    ensures chain[i] in timelines
    ensures timelines[chain[i]].next == if i + 1 < |chain| then Some(chain[i + 1]) else None
    ensures timelines[chain[i]].prev == if i > 0 then Some(chain[i - 1]) else None
  {
  }

  ghost function EventLists(timelines: Timelines, chain: seq<TimelineId>): (lists: Lists)
    requires IsChain(timelines, chain)
    ensures |lists| == |chain|
    ensures forall i :: 0 <= i < |chain| ==> lists[i] == timelines[chain[i]].events
  {
    seq(|chain|, i requires 0 <= i < |chain| => timelines[chain[i]].events)
  }

  ghost function Bases(timelines: Timelines, chain: seq<TimelineId>): (bases: seq<int>)
    requires IsChain(timelines, chain)
    ensures |bases| == |chain|
    ensures forall i :: 0 <= i < |chain| ==> bases[i] == timelines[chain[i]].baseIndex
  {
    seq(|chain|, i requires 0 <= i < |chain| => timelines[chain[i]].baseIndex)
  }

  // ---------- cursors ----------

  class TimelineIndex {
    var timeline: TimelineId
    var index: int

    constructor (timeline: TimelineId, index: int)
      ensures this.timeline == timeline && this.index == index
    {
      this.timeline, this.index := timeline, index;
    }

    /** The index of the cursor in the array of events. */
    ghost function ArrayIndex(timelines: Timelines): int
      requires timeline in timelines
      reads this
    {
      index + timelines[timeline].baseIndex
    }

    /** The cursor is in timeline `at` of the chain, at one of its events or at its end. */
    ghost predicate In(timelines: Timelines, chain: seq<TimelineId>, at: nat)
      reads this
    {
      at < |chain| && timeline == chain[at] && timeline in timelines &&
      0 <= ArrayIndex(timelines) <= |timelines[timeline].events|
    }

    /** The cursor's position in the flattened chain. */
    ghost function Position(timelines: Timelines, chain: seq<TimelineId>, at: nat): nat
      requires IsChain(timelines, chain) && In(timelines, chain, at)
      reads this
    {
      Offset(EventLists(timelines, chain), at) + ArrayIndex(timelines)
    }

    /** Moves the cursor by `delta`, but not beyond the end of the first timeline in that direction which has
        events there: exactly by the number it returns. Timelines without events are passed over. */
    method Advance(timelines: Timelines, delta: int, ghost chain: seq<TimelineId>, ghost at: nat)
      returns (count: int, ghost to: nat)
      requires IsChain(timelines, chain) && In(timelines, chain, at)
      modifies this
      ensures In(timelines, chain, to)
      ensures Position(timelines, chain, to) == old(Position(timelines, chain, at)) + count
      ensures 0 <= delta ==>
                count == Min(delta, Ahead(EventLists(timelines, chain), at, old(ArrayIndex(timelines)))) && at <= to
      ensures delta <= 0 ==>
                -count == Min(-delta, Behind(EventLists(timelines, chain), at, old(ArrayIndex(timelines)))) && to <= at
      ensures count > 0 ==> 0 < ArrayIndex(timelines)
      ensures count < 0 ==> ArrayIndex(timelines) < |timelines[timeline].events|
      decreases if delta > 0 then |chain| - at else at
    {
      if delta == 0 {
        return 0, at;
      }
      to := at;
      count := MoveWithin(timelines, delta);
      if count != 0 {
        return;
      }
      Neighbours(timelines, chain, at);
      var neighbour := if delta < 0 then timelines[timeline].prev else timelines[timeline].next;
      if neighbour.Some? {
        ghost var near: nat := if delta < 0 then at - 1 else at + 1;
        timeline := neighbour.value;
        index := if delta < 0 then MaxIndex(timelines) else MinIndex(timelines);
        count, to := Advance(timelines, delta, chain, near);
      } else {
        count, to := 0, at;
      }
    }

    /** Moves the cursor within its timeline, as far as there is room. */
    method MoveWithin(timelines: Timelines, delta: int) returns (moved: int)
      requires timeline in timelines && 0 <= ArrayIndex(timelines) <= |timelines[timeline].events|
      modifies this`index
      ensures index == old(index) + moved
      ensures delta >= 0 ==> moved == Min(delta, |timelines[timeline].events| - old(ArrayIndex(timelines)))
      ensures delta < 0 ==> -moved == Min(-delta, old(ArrayIndex(timelines)))
    {
      moved := if delta < 0 then Max(delta, MinIndex(timelines) - index) else Min(delta, MaxIndex(timelines) - index);
      index := index + moved;
    }

    method Retreat(timelines: Timelines, delta: int, ghost chain: seq<TimelineId>, ghost at: nat)
      returns (count: int, ghost to: nat)
      requires IsChain(timelines, chain) && In(timelines, chain, at)
      modifies this
      ensures In(timelines, chain, to)
      ensures Position(timelines, chain, to) == old(Position(timelines, chain, at)) - count
      ensures 0 <= delta ==>
                count == Min(delta, Behind(EventLists(timelines, chain), at, old(ArrayIndex(timelines)))) && to <= at
      ensures delta <= 0 ==>
                -count == Min(-delta, Ahead(EventLists(timelines, chain), at, old(ArrayIndex(timelines)))) && at <= to
      ensures count < 0 ==> 0 < ArrayIndex(timelines)
      ensures count > 0 ==> ArrayIndex(timelines) < |timelines[timeline].events|
    {
      count, to := Advance(timelines, -delta, chain, at);
      count := -count;
    }

    function MinIndex(timelines: Timelines): int
      requires timeline in timelines
      reads this
    {
      -timelines[timeline].baseIndex
    }

    function MaxIndex(timelines: Timelines): int
      requires timeline in timelines
      reads this
    {
      |timelines[timeline].events| - timelines[timeline].baseIndex
    }
  }

  // ---------- the window ----------

  class TimelineWindow {
    const timelineSet: EventTimelineSet
    const windowLimit: nat
    var start: TimelineIndex?
    var end: TimelineIndex?
    var eventCount: int

    /** The chain that the window moves in, and where in it the two cursors are. */
    ghost var chain: seq<TimelineId>
    ghost var startAt: nat
    ghost var endAt: nat

    ghost predicate Loaded()
      reads this, start, end, timelineSet
    {
      && start != null && end != null && start != end
      && IsChain(timelineSet.timelines, chain)
      && start.In(timelineSet.timelines, chain, startAt)
      && end.In(timelineSet.timelines, chain, endAt)
      && startAt <= endAt
    }

    ghost function StartPosition(): nat
      requires Loaded()
      reads this, start, end, timelineSet
    {
      start.Position(timelineSet.timelines, chain, startAt)
    }

    ghost function EndPosition(): nat
      requires Loaded()
      reads this, start, end, timelineSet
    {
      end.Position(timelineSet.timelines, chain, endAt)
    }

    ghost predicate Valid()
      reads this, start, end, timelineSet
    {
      if start == null then end == null && eventCount == 0
      else Loaded() && StartPosition() <= EndPosition() && eventCount == EndPosition() - StartPosition()
    }

    /** The number of events in the chain. */
    ghost function Total(): nat
      requires Loaded()
      reads this, start, end, timelineSet
    {
      Offset(EventLists(timelineSet.timelines, chain), |chain|)
    }

    /** How far the window can grow in one step at its end, and at its start. */
    ghost function RoomAfter(): nat
      requires Loaded()
      reads this, start, end, timelineSet
    {
      Ahead(EventLists(timelineSet.timelines, chain), endAt, end.ArrayIndex(timelineSet.timelines))
    }

    ghost function RoomBefore(): nat
      requires Loaded()
      reads this, start, end, timelineSet
    {
      Behind(EventLists(timelineSet.timelines, chain), startAt, start.ArrayIndex(timelineSet.timelines))
    }

    /** There is room exactly if the window does not reach the end of the chain, or its start. */
    lemma RoomIs()
      requires Loaded()
      ensures RoomAfter() > 0 <==> EndPosition() < Total()
      ensures RoomBefore() > 0 <==> StartPosition() > 0
    {
      var timelines := timelineSet.timelines;
      var lists := EventLists(timelines, chain);
      AheadIs(lists, endAt, end.ArrayIndex(timelines), endAt);
      BehindIs(lists, startAt, start.ArrayIndex(timelines), startAt);
      OffsetMonotone(lists, endAt + 1, |lists|);
    }

    /** What the window stands for: a slice of the flattened chain. */
    ghost function View(): seq<MatrixEvent>
      requires Valid()
      reads this, start, end, timelineSet
    {
      if start == null then [] else
        var lists := EventLists(timelineSet.timelines, chain);
        PositionsInBounds(lists, startAt, start.ArrayIndex(timelineSet.timelines),
                          endAt, end.ArrayIndex(timelineSet.timelines));
        Flat(lists)[StartPosition()..EndPosition()]
    }

    constructor (timelineSet: EventTimelineSet, windowLimit: nat)
      ensures Valid() && View() == [] && start == null
      ensures this.timelineSet == timelineSet
      ensures this.windowLimit == if windowLimit == 0 then 1000 else windowLimit
    {
      this.timelineSet := timelineSet;
      this.windowLimit := if windowLimit == 0 then 1000 else windowLimit;
      start, end, eventCount := null, null, 0;
      chain, startAt, endAt := [], 0, 0;
    }

    /** Puts new cursors at two indexes of one timeline. */
    method InitFields(timeline: TimelineId, startIndex: nat, endIndex: nat, ghost chain: seq<TimelineId>, ghost at: nat)
      requires IsChain(timelineSet.timelines, chain) && at < |chain| && timeline == chain[at]
      requires startIndex <= endIndex <= |timelineSet.timelines[timeline].events|
      modifies this
      ensures Loaded() && fresh(start) && fresh(end) && this.chain == chain && startAt == endAt == at
      ensures start.ArrayIndex(timelineSet.timelines) == startIndex
      ensures end.ArrayIndex(timelineSet.timelines) == endIndex
      ensures eventCount == endIndex - startIndex
    {
      var base := timelineSet.timelines[timeline].baseIndex;
      start := new TimelineIndex(timeline, startIndex - base);
      end := new TimelineIndex(timeline, endIndex - base);
      eventCount := endIndex - startIndex;
      this.chain, startAt, endAt := chain, at, at;
    }

    /** A window within one timeline shows a part of it. */
    lemma ViewInOne(from: nat, to: nat)
      requires Loaded() && startAt == endAt && eventCount == to - from
      requires start.ArrayIndex(timelineSet.timelines) == from && end.ArrayIndex(timelineSet.timelines) == to
      requires from <= to
      ensures Valid() && to <= |timelineSet.timelines[chain[startAt]].events|
      ensures View() == timelineSet.timelines[chain[startAt]].events[from..to]
    {
      PartAt(EventLists(timelineSet.timelines, chain), startAt, from, to);
    }

    /** `load` with the timeline that holds the event, or the live timeline if no event is asked for:
        the window then shows events `from` up to `to` of that timeline. */
    method Load(timeline: TimelineId, eventId: Option<EventId>, size: nat,
                ghost chain: seq<TimelineId>, ghost at: nat)
      returns (r: Result<()>, ghost from: nat, ghost to: nat)
      requires IsChain(timelineSet.timelines, chain) && at < |chain| && timeline == chain[at]
      modifies this
      ensures r.Throws? <==> eventId.Some? && !HasEvent(timelineSet.timelines[timeline].events, eventId.value)
      ensures r.Throws? ==> unchanged(this)
      ensures r.Ok? ==> Valid() && start != null && fresh(start) && fresh(end) && this.chain == chain
      ensures r.Ok? ==> Chosen(timelineSet.timelines[timeline].events, eventId, WindowSize(size), from, to)
      ensures r.Ok? ==> View() == timelineSet.timelines[timeline].events[from..to]
    {
      from, to := 0, 0;
      var n := if size == 0 then 20 else size;
      var events := timelineSet.timelines[timeline].events;
      var eventIndex := |events|;
      if eventId.Some? {
        eventIndex := FindEvent(events, eventId.value);
        if eventIndex == |events| {
          return Throws, from, to;
        }
      }
      var endIndex := Min(|events|, eventIndex + (n + 1) / 2);
      var startIndex := Max(0, endIndex - n);
      InitFields(timeline, startIndex, endIndex, chain, at);
      from, to := startIndex, endIndex;
      ViewInOne(from, to);
      assert eventId.Some? ==> IsFirst(events, eventId.value, eventIndex);
      r := Ok(());
    }

    /** Tries to extend the window with events that are in the chain already. The window grows by `size`, or
        up to the end of the first timeline that has events there; what exceeds the limit is dropped at the
        other end. */
    method Extend(direction: Direction, size: nat) returns (extended: bool)
      requires Valid()
      modifies this`eventCount, this`startAt, this`endAt, start, end
      ensures Valid()
      ensures start == null ==> !extended
      ensures start != null && direction == Forwards ==>
                && EndPosition() == old(EndPosition()) + Min(size, old(RoomAfter()))
                && (extended <==> size > 0 && old(EndPosition()) < Total())
                && (extended <==> EndPosition() > old(EndPosition()))
                && StartPosition() == (if extended then Max(old(StartPosition()), EndPosition() - windowLimit)
                                       else old(StartPosition()))
      ensures start != null && direction == Backwards ==>
                && StartPosition() == old(StartPosition()) - Min(size, old(RoomBefore()))
                && (extended <==> size > 0 && old(StartPosition()) > 0)
                && (extended <==> StartPosition() < old(StartPosition()))
                && EndPosition() == (if extended then Min(old(EndPosition()), StartPosition() + windowLimit)
                                     else old(EndPosition()))
      ensures extended ==> eventCount <= windowLimit
    {
      if start == null {
        return false;
      }
      RoomIs();
      if direction == Backwards {
        extended := ExtendBackwards(size);
      } else {
        extended := ExtendForwards(size);
      }
    }

    method ExtendForwards(size: nat) returns (extended: bool)
      requires Valid() && start != null
      modifies this`eventCount, this`startAt, this`endAt, start, end
      ensures Valid() && (extended <==> size > 0 && old(RoomAfter()) > 0)
      ensures EndPosition() == old(EndPosition()) + Min(size, old(RoomAfter()))
      ensures StartPosition() == if extended then Max(old(StartPosition()), EndPosition() - windowLimit)
                                 else old(StartPosition())
    {
      var count := MoveEnd(size);
      if count == 0 {
        return false;
      }
      DropExcess(true);
      return true;
    }

    method ExtendBackwards(size: nat) returns (extended: bool)
      requires Valid() && start != null
      modifies this`eventCount, this`startAt, this`endAt, start, end
      ensures Valid() && (extended <==> size > 0 && old(RoomBefore()) > 0)
      ensures StartPosition() == old(StartPosition()) - Min(size, old(RoomBefore()))
      ensures EndPosition() == if extended then Min(old(EndPosition()), StartPosition() + windowLimit)
                               else old(EndPosition())
    {
      var count := MoveStart(size);
      if count == 0 {
        return false;
      }
      DropExcess(false);
      return true;
    }

    /** What exceeds the limit is dropped. */
    method DropExcess(startOfTimeline: bool)
      requires Valid() && start != null
      modifies this`eventCount, this`startAt, this`endAt, start, end
      ensures Valid() && eventCount == Min(old(eventCount), windowLimit)
      ensures StartPosition() == old(StartPosition()) + (if startOfTimeline then old(eventCount) - eventCount else 0)
      ensures EndPosition() == old(EndPosition()) - (if startOfTimeline then 0 else old(eventCount) - eventCount)
    {
      var excess := eventCount - windowLimit;
      if excess > 0 {
        var r := Unpaginate(excess, startOfTimeline);
      }
    }

    method MoveStart(size: nat) returns (count: int)
      requires Valid() && start != null
      modifies this`eventCount, this`startAt, start
      ensures Valid()
      ensures count == Min(size, old(RoomBefore()))
      ensures StartPosition() == old(StartPosition()) - count && EndPosition() == old(EndPosition())
    {
      ghost var to;
      count, to := start.Retreat(timelineSet.timelines, size, chain, startAt);
      startAt := to;
      eventCount := eventCount + count;
    }

    method MoveEnd(size: nat) returns (count: int)
      requires Valid() && start != null
      modifies this`eventCount, this`endAt, end
      ensures Valid()
      ensures count == Min(size, old(RoomAfter()))
      ensures EndPosition() == old(EndPosition()) + count && StartPosition() == old(StartPosition())
    {
      ghost var to;
      count, to := end.Advance(timelineSet.timelines, size, chain, endAt);
      endAt := to;
      eventCount := eventCount + count;
      EndInBounds(timelineSet.timelines, chain, to, end.ArrayIndex(timelineSet.timelines));
    }

    /** Drops `delta` events from the start or the end of the window. It throws exactly when there are
        not that many; in particular the source's "Unable to unpaginate any further" cannot happen. */
    method Unpaginate(delta: int, startOfTimeline: bool) returns (r: Result<()>)
      requires Valid()
      modifies this`eventCount, this`startAt, this`endAt, start, end
      ensures Valid()
      ensures r.Ok? <==> 0 <= delta <= old(eventCount)
      ensures r.Throws? ==> eventCount == old(eventCount)
      ensures r.Ok? ==> eventCount == old(eventCount) - delta
      ensures start != null ==>
                StartPosition() == old(StartPosition()) + (if r.Ok? && startOfTimeline then delta else 0)
      ensures start != null ==>
                EndPosition() == old(EndPosition()) - (if r.Ok? && !startOfTimeline then delta else 0)
    {
      if delta > eventCount || delta < 0 {
        return Throws;
      }
      var left := delta;
      while left > 0
        invariant Valid() && 0 <= left <= delta
        invariant eventCount == old(eventCount) - (delta - left) && left <= eventCount
        invariant start != null ==>
                    StartPosition() == old(StartPosition()) + (if startOfTimeline then delta - left else 0)
        invariant start != null ==>
                    EndPosition() == old(EndPosition()) - (if startOfTimeline then 0 else delta - left)
      {
        var count := DropSome(left, startOfTimeline);
        left := left - count;
      }
      return Ok(());
    }

    /** One round of the loop in `unpaginate`; it always makes progress. */
    method DropSome(delta: int, startOfTimeline: bool) returns (count: int)
      requires Valid() && 0 < delta <= eventCount
      modifies this`eventCount, this`startAt, this`endAt, start, end
      ensures Valid()
      ensures 0 < count <= delta && eventCount == old(eventCount) - count
      ensures StartPosition() == old(StartPosition()) + (if startOfTimeline then count else 0)
      ensures EndPosition() == old(EndPosition()) - (if startOfTimeline then 0 else count)
    {
      if startOfTimeline {
        count := DropAtStart(delta);
      } else {
        count := DropAtEnd(delta);
      }
    }

    method DropAtStart(delta: int) returns (count: int)
      requires Valid() && 0 < delta <= eventCount
      modifies this`eventCount, this`startAt, start
      ensures Valid()
      ensures 0 < count <= delta && eventCount == old(eventCount) - count
      ensures StartPosition() == old(StartPosition()) + count && EndPosition() == old(EndPosition())
    {
      ghost var to;
      EndInBounds(timelineSet.timelines, chain, endAt, end.ArrayIndex(timelineSet.timelines));
      AheadIs(EventLists(timelineSet.timelines, chain), startAt, start.ArrayIndex(timelineSet.timelines), startAt);
      count, to := start.Advance(timelineSet.timelines, delta, chain, startAt);
      StaysBefore(EventLists(timelineSet.timelines, chain), to, start.ArrayIndex(timelineSet.timelines),
                  endAt, end.ArrayIndex(timelineSet.timelines));
      startAt := to;
      eventCount := eventCount - count;
    }

    method DropAtEnd(delta: int) returns (count: int)
      requires Valid() && 0 < delta <= eventCount
      modifies this`eventCount, this`endAt, end
      ensures Valid()
      ensures 0 < count <= delta && eventCount == old(eventCount) - count
      ensures StartPosition() == old(StartPosition()) && EndPosition() == old(EndPosition()) - count
    {
      ghost var to;
      BehindIs(EventLists(timelineSet.timelines, chain), endAt, end.ArrayIndex(timelineSet.timelines), endAt);
      count, to := end.Retreat(timelineSet.timelines, delta, chain, endAt);
      StaysAfter(EventLists(timelineSet.timelines, chain), startAt, start.ArrayIndex(timelineSet.timelines),
                 to, end.ArrayIndex(timelineSet.timelines));
      endAt := to;
      eventCount := eventCount - count;
    }

    /** Reads the timelines one by one from the start cursor to the end cursor. */
    method GetEvents() returns (result: seq<MatrixEvent>)
      requires Valid()
      ensures result == View()
      ensures |result| == eventCount
    {
      if start == null {
        return [];
      }
      ViewIsShown(this);
      result := ReadChain(timelineSet.timelines, start.timeline, start.index, end.timeline, end.index,
                          chain, startAt, endAt);
    }
  }

  /** The loop of `getEvents` over the timelines from the one of the start cursor to the one of the
      end cursor. */
  method ReadChain(timelines: Timelines, first: TimelineId, startIndex: int, last: TimelineId, endIndex: int,
                   ghost chain: seq<TimelineId>, ghost i: nat, ghost j: nat) returns (result: seq<MatrixEvent>)
    requires IsChain(timelines, chain) && i <= j < |chain| && first == chain[i] && last == chain[j]
    requires 0 <= startIndex + timelines[first].baseIndex <= |timelines[first].events|
    requires 0 <= endIndex + timelines[last].baseIndex <= |timelines[last].events|
    requires i == j ==> startIndex <= endIndex
    ensures result == Between(EventLists(timelines, chain), i, startIndex + timelines[first].baseIndex,
                              j, endIndex + timelines[last].baseIndex)
  {
    result := [];
    var timeline := first;
    ghost var lists, at := EventLists(timelines, chain), i;
    ghost var a := startIndex + timelines[first].baseIndex;
    while true
      invariant i <= at <= j && timeline == chain[at]
      invariant result == Before(lists, i, a, at)
      decreases j - at
    {
      Neighbours(timelines, chain, at);
      var events := timelines[timeline].events;
      var from := if timeline == first then startIndex + timelines[timeline].baseIndex else 0;
      var to := if timeline == last then endIndex + timelines[timeline].baseIndex else |events|;
      assert (timeline == first <==> at == i) && (timeline == last <==> at == j);
      var copied := CopyRange(events, from, to);
      result := result + copied;
      if timeline == last {
        break;
      }
      timeline := timelines[timeline].next.value;
      at := at + 1;
    }
  }

  /** What has been copied when timeline `at` is reached. */
  ghost function Before(lists: Lists, i: nat, a: int, at: nat): seq<MatrixEvent>
    requires i <= at <= |lists| && i < |lists| && 0 <= a <= |lists[i]|
  {
    if at == i then [] else Between(lists, i, a, at - 1, |lists[at - 1]|)
  }

  method FindEvent(events: seq<MatrixEvent>, id: EventId) returns (i: nat)
    ensures i <= |events| && (i < |events| ==> events[i].id == id)
    ensures forall j :: 0 <= j < i ==> events[j].id != id
  {
    i := 0;
    while i < |events| && events[i].id != id
      invariant i <= |events|
      invariant forall j :: 0 <= j < i ==> events[j].id != id
    {
      i := i + 1;
    }
  }

  method CopyRange(events: seq<MatrixEvent>, startIndex: int, endIndex: int) returns (copy: seq<MatrixEvent>)
    requires 0 <= startIndex <= endIndex <= |events|
    ensures copy == events[startIndex..endIndex]
  {
    copy := [];
    for i := startIndex to endIndex
      invariant copy == events[startIndex..i]
    {
      copy := copy + [events[i]];
    }
  }

  ghost predicate HasEvent(events: seq<MatrixEvent>, id: EventId) {
    exists i :: 0 <= i < |events| && events[i].id == id
  }

  /** The first event with an id. */
  ghost predicate IsFirst(events: seq<MatrixEvent>, id: EventId, i: int) {
    0 <= i < |events| && events[i].id == id && forall j :: 0 <= j < i ==> events[j].id != id
  }

  /** What `load` promises of the part of a timeline that it chooses: the requested event is in it, with
      as many events before and after it as there are on either side of the middle; or it is the newest
      events if none is requested. */
  ghost predicate Chosen(events: seq<MatrixEvent>, eventId: Option<EventId>, size: nat, from: nat, to: nat) {
    && from <= to <= |events| && from == Max(0, to - size)
    && match eventId {
         case None => to == |events|
         case Some(id) => exists i :: IsFirst(events, id, i) && from <= i < to && to == Min(|events|, i + (size + 1) / 2)
       }
  }

  lemma EndInBounds(timelines: Timelines, chain: seq<TimelineId>, at: nat, k: int)
    requires IsChain(timelines, chain) && at < |chain| && k <= |timelines[chain[at]].events|
    ensures Offset(EventLists(timelines, chain), at) + k <= Offset(EventLists(timelines, chain), |chain|)
  {
    OffsetMonotone(EventLists(timelines, chain), at + 1, |chain|);
  }

  function WindowSize(size: nat): nat { if size == 0 then 20 else size }

  lemma PositionsInBounds(lists: Lists, i: nat, a: int, j: nat, b: int)
    requires i < |lists| && j < |lists| && 0 <= a <= |lists[i]| && 0 <= b <= |lists[j]|
    requires i <= j && Offset(lists, i) + a <= Offset(lists, j) + b
    ensures Offset(lists, j) + b <= |Flat(lists)|
    ensures i == j ==> a <= b
  {
    FlatAt(lists, j, |lists|);
  }

  /** A cursor that has just moved forwards over an event, and is not past another one, is not in a
      later timeline than that one. */
  lemma StaysBefore(lists: Lists, i: nat, a: int, j: nat, b: int)
    requires i < |lists| && j < |lists| && 0 < a <= |lists[i]| && 0 <= b <= |lists[j]|
    requires Offset(lists, i) + a <= Offset(lists, j) + b
    ensures i <= j
  {
    if j < i {
      OffsetMonotone(lists, j + 1, i);
    }
  }

  lemma StaysAfter(lists: Lists, i: nat, a: int, j: nat, b: int)
    requires i < |lists| && j < |lists| && 0 <= a <= |lists[i]| && 0 <= b < |lists[j]|
    requires Offset(lists, i) + a <= Offset(lists, j) + b
    ensures i <= j
  {
    if j < i {
      OffsetMonotone(lists, j + 1, i);
    }
  }

  // ---------- the environment ----------

  /** On values: two cursors are in order in a chain, and `view` lies between them. */
  ghost predicate Holds(timelines: Timelines, chain: seq<TimelineId>, s: Cursor, e: Cursor, view: seq<MatrixEvent>) {
    IsChain(timelines, chain) &&
    InOrder(EventLists(timelines, chain), Bases(timelines, chain), s, e) &&
    Shown(EventLists(timelines, chain), Bases(timelines, chain), s, e) == view
  }

  ghost function StartCursor(w: TimelineWindow): Cursor
    requires w.start != null
    reads w, w.start
  {
    Cursor(w.startAt, w.start.index)
  }

  ghost function EndCursor(w: TimelineWindow): Cursor
    requires w.end != null
    reads w, w.end
  {
    Cursor(w.endAt, w.end.index)
  }

  /** What a window shows lies between its cursors, and is as long as it counts. */
  lemma ViewIsShown(w: TimelineWindow)
    requires w.Valid() && w.start != null
    ensures Holds(w.timelineSet.timelines, w.chain, StartCursor(w), EndCursor(w), w.View())
    ensures |w.View()| == w.eventCount
  {
    var timelines := w.timelineSet.timelines;
    var lists, a, b := EventLists(timelines, w.chain), w.start.ArrayIndex(timelines), w.end.ArrayIndex(timelines);
    PositionsInBounds(lists, w.startAt, a, w.endAt, b);
    BetweenIsSlice(lists, w.startAt, a, w.endAt, b);
  }

  /** And the other way round: if something lies between the cursors, the window is loaded, and it is valid
      and shows just that if it counts as many events. */
  lemma ShownIsView(w: TimelineWindow, view: seq<MatrixEvent>)
    requires w.start != null && w.end != null && w.start != w.end
    requires Holds(w.timelineSet.timelines, w.chain, StartCursor(w), EndCursor(w), view)
    requires w.start.timeline == w.chain[w.startAt] && w.end.timeline == w.chain[w.endAt]
    ensures w.Loaded() && w.EndPosition() - w.StartPosition() == |view|
    ensures w.Valid() <==> w.eventCount == |view|
    ensures w.Valid() ==> w.View() == view
  {
    var timelines := w.timelineSet.timelines;
    var lists, a, b := EventLists(timelines, w.chain), w.start.ArrayIndex(timelines), w.end.ArrayIndex(timelines);
    BetweenIsSlice(lists, w.startAt, a, w.endAt, b);
  }

  lemma ChainWithEvent(timelines: Timelines, chain: seq<TimelineId>, k: nat, event: MatrixEvent, atStart: bool)
    requires IsChain(timelines, chain) && k < |chain|
    ensures var after := WithEvent(timelines, chain[k], event, atStart);
            var lists, bases := EventLists(timelines, chain), Bases(timelines, chain);
            IsChain(after, chain) &&
            EventLists(after, chain) == (if atStart then Prepended(lists, k, event) else Appended(lists, k, event)) &&
            Bases(after, chain) == (if atStart then bases[k := bases[k] + 1] else bases)
  {
  }

  /** The window runs past the end of timeline `k`, or into its start. */
  predicate RunsThrough(s: Cursor, e: Cursor, k: nat, atStart: bool) {
    if atStart then s.at < k <= e.at else s.at <= k < e.at
  }

  /** An event in timeline `k` of a chain, on values. */
  lemma EventShows(timelines: Timelines, chain: seq<TimelineId>, s: Cursor, e: Cursor, view: seq<MatrixEvent>,
                   k: nat, event: MatrixEvent, atStart: bool) returns (after: seq<MatrixEvent>)
    requires Holds(timelines, chain, s, e, view) && k < |chain|
    ensures Holds(WithEvent(timelines, chain[k], event, atStart), chain, s, e, after)
    ensures if RunsThrough(s, e, k, atStart) then |after| == |view| + 1 else after == view
  {
    var lists, bases := EventLists(timelines, chain), Bases(timelines, chain);
    ChainWithEvent(timelines, chain, k, event, atStart);
    if atStart {
      PrependShows(lists, bases, s, e, k, event);
      after := Shown(Prepended(lists, k, event), bases[k := bases[k] + 1], s, e);
    } else {
      AppendShows(lists, bases, s, e, k, event);
      after := Shown(Appended(lists, k, event), bases, s, e);
    }
  }

  /** An event arrives in a timeline of a window's chain. The window stays loaded and shows what it did, if
      and only if it does not run through that end of the timeline; else its count is one short. */
  method Deliver(w: TimelineWindow, timeline: TimelineId, ghost k: nat, event: MatrixEvent, atStart: bool)
    requires w.Valid() && w.start != null && k < |w.chain| && timeline == w.chain[k]
    modifies w.timelineSet
    ensures w.timelineSet.timelines == WithEvent(old(w.timelineSet.timelines), timeline, event, atStart)
    ensures w.Loaded() && w.eventCount == old(w.eventCount)
    ensures w.Valid() <==> !RunsThrough(StartCursor(w), EndCursor(w), k, atStart)
    ensures w.Valid() ==> w.View() == old(w.View())
    ensures !w.Valid() ==> w.EndPosition() - w.StartPosition() == w.eventCount + 1
  {
    ViewIsShown(w);
    ghost var after := EventShows(w.timelineSet.timelines, w.chain, StartCursor(w), EndCursor(w), w.View(), k, event, atStart);
    w.timelineSet.AddEvent(timeline, event, atStart);
    ShownIsView(w, after);
  }

  lemma HoldsElsewhere(timelines: Timelines, changed: Timelines, chain: seq<TimelineId>, s: Cursor, e: Cursor, view: seq<MatrixEvent>)
    requires Holds(timelines, chain, s, e, view)
    requires forall id :: id in chain ==> id in changed && id in timelines && changed[id] == timelines[id]
    ensures Holds(changed, chain, s, e, view)
  {
    assert EventLists(changed, chain) == EventLists(timelines, chain);
    assert Bases(changed, chain) == Bases(timelines, chain);
  }

  /** An event arrives in a timeline that is not in the window's chain: nothing changes for the window. */
  method DeliverElsewhere(w: TimelineWindow, timeline: TimelineId, event: MatrixEvent, atStart: bool)
    requires w.Valid() && w.start != null && timeline in w.timelineSet.timelines && timeline !in w.chain
    modifies w.timelineSet
    ensures w.timelineSet.timelines == WithEvent(old(w.timelineSet.timelines), timeline, event, atStart)
    ensures w.Valid() && w.View() == old(w.View())
  {
    ViewIsShown(w);
    ghost var view := w.View();
    HoldsElsewhere(w.timelineSet.timelines, WithEvent(w.timelineSet.timelines, timeline, event, atStart),
                   w.chain, StartCursor(w), EndCursor(w), view);
    w.timelineSet.AddEvent(timeline, event, atStart);
    ShownIsView(w, view);
  }

  /** Linking the last timeline of one chain to the first of another makes one chain of both. */
  lemma LinkedChain(timelines: Timelines, a: seq<TimelineId>, b: seq<TimelineId>)
    requires IsChain(timelines, a) && IsChain(timelines, b) && a != [] && b != []
    requires forall i, j :: 0 <= i < |a| && 0 <= j < |b| ==> a[i] != b[j]
    ensures a[|a| - 1] in timelines && b[0] in timelines && a[|a| - 1] != b[0]
    ensures var after := Linked(timelines, a[|a| - 1], b[0]);
            IsChain(after, a + b) &&
            EventLists(after, a + b) == EventLists(timelines, a) + EventLists(timelines, b) &&
            Bases(after, a + b) == Bases(timelines, a) + Bases(timelines, b)
  {
    var after := Linked(timelines, a[|a| - 1], b[0]);
    forall i | 0 <= i < |a + b|
      ensures (a + b)[i] in after
      ensures after[(a + b)[i]].events == timelines[(a + b)[i]].events
      ensures after[(a + b)[i]].baseIndex == timelines[(a + b)[i]].baseIndex
    {
    }
    forall i | 0 <= i < |a + b|
      ensures after[(a + b)[i]].next == if i + 1 < |a + b| then Some((a + b)[i + 1]) else None
    {
      LinkedNeighbours(timelines, a, b, i);
    }
    forall i | 0 <= i < |a + b|
      ensures after[(a + b)[i]].prev == if i > 0 then Some((a + b)[i - 1]) else None
    {
      LinkedNeighbours(timelines, a, b, i);
    }
  }

  lemma LinkedNeighbours(timelines: Timelines, a: seq<TimelineId>, b: seq<TimelineId>, i: nat)
    requires IsChain(timelines, a) && IsChain(timelines, b) && a != [] && b != [] && i < |a + b|
    requires forall i, j :: 0 <= i < |a| && 0 <= j < |b| ==> a[i] != b[j]
    ensures a[|a| - 1] in timelines && b[0] in timelines && a[|a| - 1] != b[0] && (a + b)[i] in timelines
    ensures var t := Linked(timelines, a[|a| - 1], b[0])[(a + b)[i]];
            t.next == (if i + 1 < |a + b| then Some((a + b)[i + 1]) else None) &&
            t.prev == (if i > 0 then Some((a + b)[i - 1]) else None)
  {
    if i < |a| {
      Neighbours(timelines, a, i);
    } else {
      Neighbours(timelines, b, i - |a|);
    }
  }

  lemma HoldsBy(timelines: Timelines, chain: seq<TimelineId>, lists: Lists, bases: seq<int>, s: Cursor, e: Cursor,
                view: seq<MatrixEvent>)
    requires IsChain(timelines, chain) && EventLists(timelines, chain) == lists && Bases(timelines, chain) == bases
    requires InOrder(lists, bases, s, e) && Shown(lists, bases, s, e) == view
    ensures Holds(timelines, chain, s, e, view)
  {
  }

  /** Linking another chain to the end of a chain, on values. */
  lemma HoldsLinkedAtEnd(timelines: Timelines, chain: seq<TimelineId>, other: seq<TimelineId>, s: Cursor, e: Cursor,
                         view: seq<MatrixEvent>)
    requires Holds(timelines, chain, s, e, view) && IsChain(timelines, other) && other != []
    requires forall i, j :: 0 <= i < |chain| && 0 <= j < |other| ==> chain[i] != other[j]
    ensures chain[|chain| - 1] in timelines && other[0] in timelines
    ensures Holds(Linked(timelines, chain[|chain| - 1], other[0]), chain + other, s, e, view)
  {
    LinkedChain(timelines, chain, other);
    LinkAtEndShows(EventLists(timelines, chain), Bases(timelines, chain), EventLists(timelines, other), Bases(timelines, other), s, e);
  }

  /** And to its start. */
  lemma HoldsLinkedAtStart(timelines: Timelines, chain: seq<TimelineId>, other: seq<TimelineId>, s: Cursor, e: Cursor,
                           view: seq<MatrixEvent>)
    requires Holds(timelines, chain, s, e, view) && IsChain(timelines, other) && other != []
    requires forall i, j :: 0 <= i < |other| && 0 <= j < |chain| ==> other[i] != chain[j]
    ensures other[|other| - 1] in timelines && chain[0] in timelines
    ensures Holds(Linked(timelines, other[|other| - 1], chain[0]), other + chain,
                  Shifted(s, |other|), Shifted(e, |other|), view)
  {
    LinkedChain(timelines, other, chain);
    var more, moreBases := EventLists(timelines, other), Bases(timelines, other);
    LinkAtStartShows(EventLists(timelines, chain), Bases(timelines, chain), more, moreBases, s, e);
    HoldsBy(Linked(timelines, other[|other| - 1], chain[0]), other + chain, more + EventLists(timelines, chain),
            moreBases + Bases(timelines, chain), Shifted(s, |other|), Shifted(e, |other|), view);
  }

  /** The last timeline of a chain and the first one of another become neighbours. */
  method Link(timelineSet: EventTimelineSet, last: TimelineId, first: TimelineId)
    requires last in timelineSet.timelines && first in timelineSet.timelines && last != first
    requires timelineSet.timelines[last].next.None? && timelineSet.timelines[first].prev.None?
    modifies timelineSet
    ensures timelineSet.timelines == Linked(old(timelineSet.timelines), last, first)
  {
    var r := timelineSet.SetNeighbouringTimeline(last, first, Forwards);
    r := timelineSet.SetNeighbouringTimeline(first, last, Backwards);
  }

  /** The window's cursors are in a longer chain now, `shift` timelines further on. */
  ghost method Rechain(w: TimelineWindow, chain: seq<TimelineId>, shift: nat, view: seq<MatrixEvent>)
    requires w.start != null && w.end != null && w.start != w.end && w.eventCount == |view|
    requires Holds(w.timelineSet.timelines, chain, Shifted(StartCursor(w), shift), Shifted(EndCursor(w), shift), view)
    requires w.start.timeline == chain[shift + w.startAt] && w.end.timeline == chain[shift + w.endAt]
    modifies w`chain, w`startAt, w`endAt
    ensures w.chain == chain && w.Valid() && w.View() == view
  {
    w.chain, w.startAt, w.endAt := chain, shift + w.startAt, shift + w.endAt;
    ShownIsView(w, view);
  }

  /** Another chain is linked to the end of a window's chain, as after a pagination that reaches a timeline
      which was there already. The window shows the same events; it can be extended further. */
  method LinkAtEnd(w: TimelineWindow, last: TimelineId, first: TimelineId, ghost other: seq<TimelineId>)
    requires w.Valid() && w.start != null && IsChain(w.timelineSet.timelines, other) && other != []
    requires forall i, j :: 0 <= i < |w.chain| && 0 <= j < |other| ==> w.chain[i] != other[j]
    requires last == w.chain[|w.chain| - 1] && first == other[0]
    modifies w.timelineSet, w`chain, w`startAt, w`endAt
    ensures w.chain == old(w.chain) + other && w.Valid() && w.View() == old(w.View())
  {
    ViewIsShown(w);
    ghost var view := w.View();
    Neighbours(w.timelineSet.timelines, w.chain, |w.chain| - 1);
    Neighbours(w.timelineSet.timelines, other, 0);
    HoldsLinkedAtEnd(w.timelineSet.timelines, w.chain, other, StartCursor(w), EndCursor(w), view);
    Link(w.timelineSet, last, first);
    Rechain(w, w.chain + other, 0, view);
  }

  /** And the same at its start. */
  method LinkAtStart(w: TimelineWindow, last: TimelineId, first: TimelineId, ghost other: seq<TimelineId>)
    requires w.Valid() && w.start != null && IsChain(w.timelineSet.timelines, other) && other != []
    requires forall i, j :: 0 <= i < |other| && 0 <= j < |w.chain| ==> other[i] != w.chain[j]
    requires last == other[|other| - 1] && first == w.chain[0]
    modifies w.timelineSet, w`chain, w`startAt, w`endAt
    ensures w.chain == other + old(w.chain) && w.Valid() && w.View() == old(w.View())
  {
    ViewIsShown(w);
    ghost var view := w.View();
    Neighbours(w.timelineSet.timelines, w.chain, 0);
    Neighbours(w.timelineSet.timelines, other, |other| - 1);
    HoldsLinkedAtStart(w.timelineSet.timelines, w.chain, other, StartCursor(w), EndCursor(w), view);
    Link(w.timelineSet, last, first);
    Rechain(w, other + w.chain, |other|, view);
  }
}
