/** The kept timeline of a room: how long it is, where it starts, and that it has no gaps. */
module SyncTimeline {
  import opened Common
  import opened SyncModel

  function Contribution(d: JoinData): seq<Entry> {
    Entries(d.timelineEvents, d.prevBatch)
  }

  /** Everything the responses from index `j` on contributed, in order. */
  function Tail(history: seq<JoinData>, j: nat): seq<Entry>
    requires j <= |history|
  {
    if j == |history| then []
    else Tail(history[..|history| - 1], j) + Contribution(history[|history| - 1])
  }

  /** The last limited response, or the join. */
  function LastReset(history: seq<JoinData>): (r: nat)
    ensures r <= |history|
  {
    if history == [] then 0
    else if history[|history| - 1].limited then |history| - 1
    else LastReset(history[..|history| - 1])
  }

  /** Where the longest run of whole responses starts that ends the history, has no limited
      response after its first one, and contributes at most `room` entries. */
  function Cut(history: seq<JoinData>, room: nat): (j: nat)
    ensures j <= |history|
  {
    if history == [] then 0 else
      var d := history[|history| - 1];
      if |d.timelineEvents| > room then |history|
      else if d.limited then |history| - 1
      else Cut(history[..|history| - 1], room - |d.timelineEvents|)
  }

  function Fit(history: seq<JoinData>, room: nat): seq<Entry> {
    Tail(history, Cut(history, room))
  }

  /** What the comments in the source ask of the server: the /sync limit is within the
      accumulator's limit, and a timeline with events comes with a token. */
  predicate WithinLimit(d: JoinData, max: nat) {
    |d.timelineEvents| <= max && (d.timelineEvents != [] ==> d.prevBatch.Some?)
  }

  predicate AllWithinLimit(history: seq<JoinData>, max: nat) {
    forall i :: 0 <= i < |history| ==> WithinLimit(history[i], max)
  }

  /** `g` is what remains of `f` when there is room for `less` entries: the suffix that starts at
      the first token within that room. */
  ghost predicate Shrinks(f: seq<Entry>, g: seq<Entry>, less: nat, room: nat) {
    |f| <= room && |g| <= less && |g| <= |f| && g == f[|f| - |g|..] &&
    (|f| <= less ==> g == f) &&
    (g != [] ==> g[0].token.Some?) &&
    (forall i :: 0 <= i < |f| && |f| - less <= i < |f| - |g| ==> f[i].token.None?)
  }

  lemma ShrinksAppend(f: seq<Entry>, g: seq<Entry>, less: nat, room: nat, d: JoinData)
    requires Shrinks(f, g, less, room)
    requires d.timelineEvents != [] ==> d.prevBatch.Some?
    ensures Shrinks(f + Contribution(d), g + Contribution(d), less + |d.timelineEvents|, room + |d.timelineEvents|)
  {
    var c := Contribution(d);
    assert |c| == |d.timelineEvents|;
  }

  /** No whole response fits: only the last one's later entries are within the room. */
  lemma ShrinksToNothing(f: seq<Entry>, less: nat, room: nat, d: JoinData)
    requires less < |d.timelineEvents| && |f| + |d.timelineEvents| <= room
    ensures Shrinks(f + Contribution(d), [], less, room)
  {
  }

  lemma FitAppend(history: seq<JoinData>, room: nat)
    requires history != []
    ensures var d, before := history[|history| - 1], history[..|history| - 1];
            Fit(history, room) ==
            if |d.timelineEvents| > room then []
            else if d.limited then Contribution(d)
            else Fit(before, room - |d.timelineEvents|) + Contribution(d)
  {
    var before := history[..|history| - 1];
    assert Tail(before, |before|) == [];
  }

  /** Less room keeps a shorter suffix of whole responses. */
  lemma {:induction false} FitShrinks(history: seq<JoinData>, less: nat, room: nat)
    requires less <= room
    requires forall i :: 0 <= i < |history| && history[i].timelineEvents != [] ==> history[i].prevBatch.Some?
    ensures Shrinks(Fit(history, room), Fit(history, less), less, room)
  {
    if history != [] {
      var d, before := history[|history| - 1], history[..|history| - 1];
      var n := |d.timelineEvents|;
      FitAppend(history, less);
      FitAppend(history, room);
      if n > room {
        assert Fit(history, room) == [] && Fit(history, less) == [];
      } else if d.limited {
        ShrinksStart(less, room, d);
      } else {
        var l := if n <= less then less - n else room - n;
        FitShrinks(before, l, room - n);
        ShrinksStep(Fit(before, room - n), Fit(before, l), less, room, d);
      }
    }
  }

  lemma ShrinksStart(less: nat, room: nat, d: JoinData)
    requires less <= room
    requires d.timelineEvents != [] ==> d.prevBatch.Some?
    ensures |d.timelineEvents| <= less ==> Shrinks(Contribution(d), Contribution(d), less, room)
    ensures less < |d.timelineEvents| <= room ==> Shrinks(Contribution(d), [], less, room)
  {
  }

  lemma ShrinksStep(f: seq<Entry>, g: seq<Entry>, less: nat, room: nat, d: JoinData)
    requires |d.timelineEvents| <= room && less <= room
    requires d.timelineEvents != [] ==> d.prevBatch.Some?
    requires Shrinks(f, g, if |d.timelineEvents| <= less then less - |d.timelineEvents| else room - |d.timelineEvents|,
                     room - |d.timelineEvents|)
    ensures |d.timelineEvents| <= less ==> Shrinks(f + Contribution(d), g + Contribution(d), less, room)
    ensures |d.timelineEvents| > less ==> Shrinks(f + Contribution(d), [], less, room)
  {
    if |d.timelineEvents| <= less {
      ShrinksAppend(f, g, less - |d.timelineEvents|, room - |d.timelineEvents|, d);
    } else {
      ShrinksToNothing(f, less, room, d);
    }
  }

  lemma PruneAt(timeline: seq<Entry>, max: nat, start: nat)
    requires max < |timeline| && |timeline| - max <= start < |timeline|
    requires timeline[start].token.Some?
    requires forall i :: |timeline| - max <= i < start ==> timeline[i].token.None?
    ensures Prune(timeline, max) == timeline[start..]
  {
    assert FirstToken(timeline, |timeline| - max) == start;
  }

  /** Pruning finds the first token within the limit. */
  lemma PruneShrinks(f: seq<Entry>, g: seq<Entry>, d: JoinData, max: nat)
    requires WithinLimit(d, max)
    requires Shrinks(f, g, max - |d.timelineEvents|, max)
    ensures Prune(f + Contribution(d), max) == g + Contribution(d)
  {
    var c := Contribution(d);
    if |f| + |c| > max {
      var start := |f| - |g|;
      assert (f + c)[start] == if start < |f| then f[start] else c[0];
      assert f[start..] == g;
      assert (f + c)[start..] == g + c;
      PruneAt(f + c, max, start);
    }
  }

  /** On every run within the limit, the kept timeline is exactly the longest suffix of whole
      responses since the last reset that fits. */
  lemma {:induction false} TimelineIsFit(history: seq<JoinData>, max: nat)
    requires AllWithinLimit(history, max)
    ensures RunRoom(history, max).timeline == Fit(history, max)
  {
    if history != [] {
      var d, before := history[|history| - 1], history[..|history| - 1];
      TimelineIsFit(before, max);
      if d.limited {
        assert Extended(RunRoom(before, max), d) == Contribution(d);
        assert Tail(before, |before|) == [];
      } else {
        FitShrinks(before, max - |d.timelineEvents|, max);
        PruneShrinks(Fit(before, max), Fit(before, max - |d.timelineEvents|), d, max);
        FitAppend(history, max);
      }
    }
  }

  lemma {:induction false} CutIsLongest(history: seq<JoinData>, room: nat, i: nat)
    requires LastReset(history) <= i < Cut(history, room)
    ensures |Tail(history, i)| > room
  {
    var d := history[|history| - 1];
    if |d.timelineEvents| <= room {
      CutIsLongest(history[..|history| - 1], room - |d.timelineEvents|, i);
    }
  }

  lemma {:induction false} CutAfterReset(history: seq<JoinData>, room: nat)
    ensures LastReset(history) <= Cut(history, room)
  {
    if history != [] && |history[|history| - 1].timelineEvents| <= room {
      CutAfterReset(history[..|history| - 1], room - |history[|history| - 1].timelineEvents|);
    }
  }

  /** A non-empty suffix of whole responses starts with the first event of one of them. */
  lemma {:induction false} TailStart(history: seq<JoinData>, j: nat) returns (i: nat)
    requires j <= |history| && Tail(history, j) != []
    ensures j <= i < |history| && history[i].timelineEvents != []
    ensures Tail(history, j) == Tail(history, i)
    ensures Tail(history, j)[0] == Entry(history[i].timelineEvents[0], history[i].prevBatch)
  {
    var n := |history| - 1;
    var before := history[..n];
    if Tail(before, j) == [] {
      i := n;
      assert Tail(before, n) == [];
    } else {
      i := TailStart(before, j);
    }
  }

  /** The newest response is a suffix of what is kept. */
  lemma NewestIsKept(history: seq<JoinData>, j: nat)
    requires j < |history|
    ensures var newest, timeline := history[|history| - 1].timelineEvents, Tail(history, j);
            |newest| <= |timeline| && Events(timeline)[|timeline| - |newest|..] == newest
  {
    assert Tail(history, j) == Tail(history[..|history| - 1], j) + Contribution(history[|history| - 1]);
  }

  /** Bound and contiguity. After any run within the limit the kept timeline
      - is within the limit,
      - is everything from response `j` on, with no limited response after `j`, so it has no gaps,
      - cannot reach further back without a gap or without exceeding the limit, and
      - contains every event of the newest response. */
  lemma BoundAndContiguity(history: seq<JoinData>, max: nat) returns (j: nat)
    requires AllWithinLimit(history, max)
    ensures var timeline := RunRoom(history, max).timeline;
            |timeline| <= max &&
            LastReset(history) <= j <= |history| && timeline == Tail(history, j) &&
            (forall k :: LastReset(history) <= k < j ==> |Tail(history, k)| > max) &&
            (history != [] ==>
               var newest := history[|history| - 1].timelineEvents;
               |newest| <= |timeline| && Events(timeline)[|timeline| - |newest|..] == newest)
  {
    TimelineIsFit(history, max);
    FitShrinks(history, max, max);
    j := Cut(history, max);
    CutAfterReset(history, max);
    forall k | LastReset(history) <= k < j
      ensures |Tail(history, k)| > max
    {
      CutIsLongest(history, max, k);
    }
    if j < |history| {
      NewestIsKept(history, j);
    } else if history != [] {
      assert WithinLimit(history[|history| - 1], max);
      CutOfFitting(history, max);
    }
  }

  lemma CutOfFitting(history: seq<JoinData>, room: nat)
    requires history != [] && |history[|history| - 1].timelineEvents| <= room
    ensures Cut(history, room) < |history|
  {
  }

  /** The timeline starts with the first event of response `i`, whose token is the emitted `prev_batch`,
      and is everything from that response on. */
  ghost predicate StartsAt(history: seq<JoinData>, timeline: seq<Entry>, i: nat) {
    i < |history| && history[i].timelineEvents != [] && timeline != [] &&
    timeline == Tail(history, i) &&
    timeline[0].event == history[i].timelineEvents[0] &&
    PrevBatch(timeline) == history[i].prevBatch
  }

  ghost predicate EmittedFrom(history: seq<JoinData>, timeline: seq<Entry>, i: nat) {
    Emitted(timeline) == timeline && (timeline != [] ==> StartsAt(history, timeline, i))
  }

  /** Where the emitted timeline starts: after any run within the limit the whole kept timeline is
      emitted, and if it is not empty it starts at the token of some response. */
  lemma {:induction false} StartsAtToken(history: seq<JoinData>, max: nat) returns (i: nat)
    requires AllWithinLimit(history, max)
    ensures EmittedFrom(history, RunRoom(history, max).timeline, i)
  {
    TimelineIsFit(history, max);
    var timeline := RunRoom(history, max).timeline;
    i := 0;
    if timeline != [] {
      i := TailStart(history, Cut(history, max));
      assert WithinLimit(history[i], max);
    }
    EmittedInFull(timeline);
  }

  lemma EmittedInFull(timeline: seq<Entry>)
    requires timeline != [] ==> timeline[0].token.Some?
    ensures Emitted(timeline) == timeline
    ensures timeline != [] ==> PrevBatch(timeline) == timeline[0].token
  {
  }

  /** Without those assumptions: after pruning, the limit is met exactly when there was nothing to
      prune or one of the last `max` entries has a token. */
  lemma PruneMeetsLimit(timeline: seq<Entry>, max: nat)
    ensures |timeline| <= max ==> Prune(timeline, max) == timeline
    ensures |Prune(timeline, max)| <= max <==>
            |timeline| <= max || exists i :: |timeline| - max <= i < |timeline| && timeline[i].token.Some?
  {
    if |timeline| > max {
      var j := FirstToken(timeline, |timeline| - max);
    }
  }
}
