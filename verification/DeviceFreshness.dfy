/** The device list protocol over all interleavings: one query at a time, results in order, and a user
    is up to date only after a query that was sent after the user's last invalidation. */
module DeviceFreshness {
  import opened Common
  import opened DeviceProtocol

  // ---------- the serialiser ----------

  /** `t` is a later state of the serialiser than `z`: what was sent and settled is remembered, and
      what was sent in between was sent no earlier than `now`. */
  ghost predicate Later(z: Serialiser, t: Serialiser, now: nat) {
    && z.sends <= t.sends
    && (forall b :: b in z.outcome ==> b in t.outcome && t.outcome[b] == z.outcome[b])
    && (forall i :: |z.sends| <= i < |t.sends| ==> now <= t.sends[i].at)
  }

  lemma EnqueueOk(z: Serialiser, users: set<User>, now: nat)
    requires SerialiserOk(z, now)
    ensures SerialiserOk(Enqueue(z, users), now)
    ensures Enqueue(z, users).queuedBatch.value == BatchFor(z) == |z.sends|
  {
  }

  lemma SendQueuedOk(z: Serialiser, now: nat)
    requires SerialiserOk(z, now) && !z.downloadInProgress && z.queuedBatch.Some?
    ensures SerialiserOk(SendQueued(z, now), now + 1)
    ensures Later(z, SendQueued(z, now), now)
  {
    var t := SendQueued(z, now);
    assert z.queuedBatch.value in t.queries;
    assert forall i :: 0 <= i < |z.sends| ==> t.sends[i] == z.sends[i];
  }

  lemma SerialiserTick(z: Serialiser, now: nat)
    requires SerialiserOk(z, now)
    ensures SerialiserOk(z, now + 1)
  {
  }

  lemma UpdateOk(z: Serialiser, users: set<User>, now: nat)
    requires SerialiserOk(z, now)
    ensures SerialiserOk(Update(z, users, now), now + 1)
    ensures Later(z, Update(z, users, now), now)
    ensures DownloadOk(Update(z, users, now), Download(users, BatchFor(z)))
  {
    EnqueueOk(z, users, now);
    var e := Enqueue(z, users);
    if e.downloadInProgress {
      SerialiserTick(e, now);
    } else {
      SendQueuedOk(e, now);
    }
  }

  lemma SettleOk(z: Serialiser, b: BatchId, success: bool, now: nat)
    requires SerialiserOk(z, now) && b in z.queries
    ensures SerialiserOk(Settle(z, b, success, now), now + 1)
    ensures Later(z, Settle(z, b, success, now), now)
  {
    var t := z.(downloadInProgress := false, queries := z.queries - {b}, outcome := z.outcome[b := success]);
    assert t.queries == map[];
    assert SerialiserOk(t, now);
    if success && t.queuedBatch.Some? {
      SendQueuedOk(t, now);
    } else {
      SerialiserTick(t, now);
    }
  }

  /** The queued batch is not lost: it stays queued, or it is the next one that is sent. */
  ghost predicate QueueKept(z: Serialiser, t: Serialiser) {
    && z.sends <= t.sends
    && (z.queuedBatch.Some? ==>
          if |t.sends| == |z.sends| then t.queuedBatch == z.queuedBatch && z.queued <= t.queued
          else z.queued <= t.sends[|z.sends|].users)
  }

  lemma UpdateKeepsQueue(z: Serialiser, users: set<User>, now: nat)
    requires SerialiserOk(z, now)
    ensures QueueKept(z, Update(z, users, now))
  {
  }

  lemma SettleKeepsQueue(z: Serialiser, b: BatchId, success: bool, now: nat)
    requires SerialiserOk(z, now) && b in z.queries
    ensures QueueKept(z, Settle(z, b, success, now))
  {
  }

  /** Downloads keep waiting for a batch with all their users. */
  lemma DownloadsKept(k: Tracker, z: Serialiser, t: Serialiser, now: nat)
    requires SerialiserOk(z, now) && DownloadsOk(k, z) && QueueKept(z, t)
    ensures DownloadsOk(k, t)
  {
    forall d | d in k.downloads ensures DownloadOk(t, k.downloads[d]) {
      if k.downloads[d].batch < |z.sends| {
        assert t.sends[k.downloads[d].batch] == z.sends[k.downloads[d].batch];
      }
    }
  }

  // ---------- users that a step does not concern ----------

  ghost predicate SameSince(k: Tracker, l: Tracker, u: User) {
    (u in l.since <==> u in k.since) && (u in k.since ==> l.since[u] == k.since[u])
  }

  lemma FreshKept(k: Tracker, z: Serialiser, l: Tracker, t: Serialiser, now: nat, u: User)
    requires Later(z, t, now) && SameSince(k, l, u) && l.loaded == k.loaded && IsFresh(k, z, u)
    ensures IsFresh(l, t, u)
  {
    if b: BatchId :| FreshQuery(k, z, u, b) {
      assert t.sends[b] == z.sends[b];
      assert FreshQuery(l, t, u, b);
    }
  }

  lemma StatusKept(k: Tracker, z: Serialiser, l: Tracker, t: Serialiser, now: nat, u: User)
    requires StatusOk(k, z, u) && Later(z, t, now) && (u in k.since ==> k.since[u] < now)
    requires SameSince(k, l, u) && l.loaded == k.loaded && StatusOf(l, u) == StatusOf(k, u)
    requires StatusOf(k, u) == InProgress ==>
               u in l.current && l.current[u] == k.current[u] && l.current[u] in l.downloads &&
               l.downloads[l.current[u]] == k.downloads[k.current[u]]
    ensures StatusOk(l, t, u)
  {
    if StatusOf(k, u) == UpToDate {
      FreshKept(k, z, l, t, now, u);
    } else if StatusOf(k, u) == InProgress {
      var b := k.downloads[k.current[u]].batch;
      if b < |z.sends| {
        assert t.sends[b] == z.sends[b];
      }
    }
  }

  // ---------- each step keeps the invariant ----------

  lemma LaterItself(z: Serialiser, now: nat)
    ensures Later(z, z, now)
  {
  }

  /** Only the tracker changes, and for one user at most that user becomes outdated or untracked. */
  lemma TrackingKeeps(s: State, a: Action)
    requires Inv(s)
    requires a.StartTracking? || a.StopTracking? || a.StopTrackingAll? || a.Invalidate?
    ensures Inv(Step(s, a))
  {
    var k, z, l := s.tracker, s.serialiser, Step(s, a).tracker;
    SerialiserTick(z, s.clock);
    assert l.downloads == k.downloads && l.current == k.current;
    assert DownloadsOk(l, z);
    forall u: User ensures StatusOk(l, z, u) {
      TrackedStatus(s, a, u);
    }
  }

  lemma TrackedStatus(s: State, a: Action, u: User)
    requires Inv(s)
    requires a.StartTracking? || a.StopTracking? || a.StopTrackingAll? || a.Invalidate?
    ensures StatusOk(Step(s, a).tracker, s.serialiser, u)
  {
    var k, z, l := s.tracker, s.serialiser, Step(s, a).tracker;
    assert StatusOk(k, z, u);
    LaterItself(z, s.clock);
    if StatusOf(l, u) == StatusOf(k, u) && SameSince(k, l, u) {
      StatusKept(k, z, l, z, s.clock, u);
    }
  }

  lemma RecordOk(k: Tracker, z: Serialiser, users: set<User>, b: BatchId)
    requires DownloadsOk(k, z) && DownloadOk(z, Download(users, b))
    ensures DownloadsOk(Record(k, users, b), z)
  {
    var l := Record(k, users, b);
    forall u | u in l.current
      ensures l.current[u] in l.downloads && u in l.downloads[l.current[u]].users
    {
      if u !in users {
        assert l.current[u] == k.current[u];
      }
    }
  }

  /** A user of a new download waits for a query that is sent now or later. */
  lemma RecordedStatus(k: Tracker, z: Serialiser, users: set<User>, b: BatchId, t: Serialiser, now: nat, u: User)
    requires StatusOk(k, z, u) && Later(z, t, now) && (u in k.since ==> k.since[u] < now)
    requires b == |z.sends| && DownloadsOk(k, z)
    ensures StatusOk(Record(k, users, b), t, u)
  {
    var l := Record(k, users, b);
    if u in users {
      assert l.current[u] == k.nextDownload && l.downloads[k.nextDownload] == Download(users, b);
      if StatusOf(k, u) == UpToDate {
        FreshKept(k, z, l, t, now, u);
      }
    } else {
      StatusKept(k, z, l, t, now, u);
    }
  }

  lemma StoredKept(z: Serialiser, t: Serialiser)
    requires StoredInOrder(z) && t.stored == z.stored && |z.sends| <= |t.sends|
    ensures StoredInOrder(t)
  {
  }

  lemma DownloadKeeps(s: State, users: set<User>)
    requires Inv(s)
    ensures Inv(DoKeyDownload(s, users).(clock := s.clock + 1))
  {
    var k, z := s.tracker, s.serialiser;
    if users == {} {
      SerialiserTick(z, s.clock);
    } else {
      var b, t := BatchFor(z), Update(z, users, s.clock);
      UpdateOk(z, users, s.clock);
      EnqueueOk(z, users, s.clock);
      UpdateKeepsQueue(z, users, s.clock);
      DownloadsKept(k, z, t, s.clock);
      RecordOk(k, t, users, b);
      StoredKept(z, t);
      forall u: User ensures StatusOk(Record(k, users, b), t, u) {
        assert StatusOk(k, z, u);
        RecordedStatus(k, z, users, b, t, s.clock, u);
      }
    }
  }

  lemma StoreKeeps(s: State, b: BatchId, u: User)
    requires Inv(s) && b in s.serialiser.queries && u in s.serialiser.queries[b]
    ensures Inv(Step(s, StoreResult(b, u)))
  {
    var k, z := s.tracker, s.serialiser;
    var t := Store(z, b, u);
    assert SerialiserOk(t, s.clock) by {
      assert b in t.queries;
    }
    SerialiserTick(t, s.clock);
    forall v: User ensures StatusOk(k, t, v) {
      assert StatusOk(k, z, v);
      StatusKept(k, z, k, t, s.clock, v);
    }
    assert StoredInOrder(t);
    DownloadsKept(k, z, t, s.clock);
  }

  lemma SettleKeeps(s: State, b: BatchId, success: bool)
    requires Inv(s) && b in s.serialiser.queries
    ensures Inv(State(s.tracker, Settle(s.serialiser, b, success, s.clock), s.clock + 1))
  {
    var k, z := s.tracker, s.serialiser;
    var t := Settle(z, b, success, s.clock);
    SettleOk(z, b, success, s.clock);
    SettleKeepsQueue(z, b, success, s.clock);
    DownloadsKept(k, z, t, s.clock);
    StoredKept(z, t);
    forall u: User ensures StatusOk(k, t, u) {
      assert StatusOk(k, z, u);
      StatusKept(k, z, k, t, s.clock, u);
    }
  }

  lemma FinishOk(k: Tracker, z: Serialiser, d: DownloadId, success: bool)
    requires DownloadsOk(k, z) && d in k.downloads
    ensures DownloadsOk(Finish(k, d, success), z)
  {
    var l := Finish(k, d, success);
    forall u | u in l.current ensures l.current[u] in l.downloads {
      assert l.current[u] == k.current[u];
      assert u in k.downloads[k.current[u]].users;
    }
  }

  /** A user whose download has finished is up to date only through a query that is fresh for it. */
  lemma FinishedStatus(k: Tracker, z: Serialiser, d: DownloadId, u: User)
    requires StatusOk(k, z, u) && DownloadsOk(k, z) && d in k.downloads && k.downloads[d].batch in z.outcome
    requires forall b :: b in z.outcome ==> b < |z.sends|
    ensures StatusOk(Finish(k, d, z.outcome[k.downloads[d].batch]), z, u)
  {
    var b := k.downloads[d].batch;
    var l := Finish(k, d, z.outcome[b]);
    LaterItself(z, 0);
    if u in Mine(k, d) && StatusOf(k, u) == InProgress {
      assert DownloadOk(z, k.downloads[d]);
      if z.outcome[b] {
        assert FreshQuery(l, z, u, b);
      }
    } else if StatusOf(k, u) == UpToDate {
      FreshKept(k, z, l, z, 0, u);
    } else if StatusOf(k, u) == InProgress {
      assert k.current[u] != d;
    }
  }

  lemma FinishKeeps(s: State, d: DownloadId)
    requires Inv(s) && Enabled(s, Finished(d))
    ensures Inv(Step(s, Finished(d)))
  {
    var k, z := s.tracker, s.serialiser;
    SerialiserTick(z, s.clock);
    FinishOk(k, z, d, z.outcome[k.downloads[d].batch]);
    forall u: User ensures StatusOk(Step(s, Finished(d)).tracker, z, u) {
      assert StatusOk(k, z, u);
      FinishedStatus(k, z, d, u);
    }
  }

  /** Every step keeps the invariant. */
  lemma StepKeeps(s: State, a: Action)
    requires Inv(s) && Enabled(s, a)
    ensures Inv(Step(s, a))
  {
    match a
    case StartTracking(_) => TrackingKeeps(s, a);
    case StopTracking(_) => TrackingKeeps(s, a);
    case StopTrackingAll => TrackingKeeps(s, a);
    case Invalidate(_) => TrackingKeeps(s, a);
    case Refresh => DownloadKeeps(s, PendingUsers(s.tracker));
    case DownloadKeys(users, force) => DownloadKeeps(s, UsersToDownload(s.tracker, users, force));
    case StoreResult(b, u) => StoreKeeps(s, b, u);
    case Complete(b) => SettleKeeps(s, b, true);
    case Fail(b) => SettleKeeps(s, b, false);
    case Finished(d) => FinishKeeps(s, d);
  }

  lemma LoadOk(stored: map<User, Status>)
    ensures Inv(Load(stored))
  {
  }

  /** The invariant holds after every interleaving of steps. */
  lemma {:induction false} RunKeeps(stored: map<User, Status>, actions: seq<Action>)
    requires Run(stored, actions).Some?
    ensures Inv(Run(stored, actions).value)
  {
    if actions == [] {
      LoadOk(stored);
    } else {
      var before := actions[..|actions| - 1];
      RunKeeps(stored, before);
      StepKeeps(Run(stored, before).value, actions[|actions| - 1]);
    }
  }

  // ---------- main results ----------

  /** Freshness: in every interleaving, a user becomes up to date only when the callback of a download
      runs whose query succeeded, was made for the user, and was sent after the user's last
      invalidation or (re)start of tracking. */
  lemma BecomesUpToDate(stored: map<User, Status>, actions: seq<Action>, a: Action, u: User)
    requires Run(stored, actions).Some? && Enabled(Run(stored, actions).value, a)
    requires var s := Run(stored, actions).value;
             StatusOf(s.tracker, u) != UpToDate && StatusOf(Step(s, a).tracker, u) == UpToDate
    ensures var s := Run(stored, actions).value;
            a.Finished? && StatusOf(s.tracker, u) == InProgress && u in s.tracker.current &&
            s.tracker.current[u] == a.download &&
            FreshQuery(s.tracker, s.serialiser, u, s.tracker.downloads[a.download].batch)
  {
    RunKeeps(stored, actions);
    var s := Run(stored, actions).value;
    assert StatusOk(s.tracker, s.serialiser, u);
    OnlyFinishes(s, a, u);
    assert DownloadOk(s.serialiser, s.tracker.downloads[a.download]);
  }

  lemma OnlyFinishes(s: State, a: Action, u: User)
    requires Enabled(s, a)
    requires StatusOf(s.tracker, u) != UpToDate && StatusOf(Step(s, a).tracker, u) == UpToDate
    ensures a.Finished? && StatusOf(s.tracker, u) == InProgress
    ensures u in Mine(s.tracker, a.download) && s.serialiser.outcome[s.tracker.downloads[a.download].batch]
  {
  }

  /** And as long as a user is up to date, no invalidation has come after that query was sent. */
  lemma StaysFresh(stored: map<User, Status>, actions: seq<Action>, u: User)
    requires Run(stored, actions).Some?
    ensures var s := Run(stored, actions).value;
            StatusOf(s.tracker, u) == UpToDate ==> IsFresh(s.tracker, s.serialiser, u)
  {
    RunKeeps(stored, actions);
    assert StatusOk(Run(stored, actions).value.tracker, Run(stored, actions).value.serialiser, u);
  }

  /** A download in progress is never forgotten: the recorded promise of the user belongs to a batch
      that contains the user and is queued, in flight, or settled with the callback still to run. */
  lemma InProgressIsBacked(stored: map<User, Status>, actions: seq<Action>, u: User)
    requires Run(stored, actions).Some?
    requires StatusOf(Run(stored, actions).value.tracker, u) == InProgress
    ensures var k, z := Run(stored, actions).value.tracker, Run(stored, actions).value.serialiser;
            u in k.current && k.current[u] in k.downloads &&
            var b := k.downloads[k.current[u]].batch;
            || (z.queuedBatch == Some(b) && u in z.queued)
            || (b < |z.sends| && u in z.sends[b].users && b in z.queries)
            || (b < |z.sends| && u in z.sends[b].users && b in z.outcome)
  {
    RunKeeps(stored, actions);
    var k, z := Run(stored, actions).value.tracker, Run(stored, actions).value.serialiser;
    assert StatusOk(k, z, u);
    assert DownloadOk(z, k.downloads[k.current[u]]);
  }

  /** At most one query is being sent or processed at a time, and the flag says whether there is one. */
  lemma OneQueryAtATime(stored: map<User, Status>, actions: seq<Action>)
    requires Run(stored, actions).Some?
    ensures var z := Run(stored, actions).value.serialiser;
            (forall b, c :: b in z.queries && c in z.queries ==> b == c) &&
            (z.downloadInProgress <==> exists b :: b in z.queries)
  {
    RunKeeps(stored, actions);
    var z := Run(stored, actions).value.serialiser;
    if z.queries != map[] {
      var b :| b in z.queries;
    }
  }

  lemma OrderOfSends(z: Serialiser, now: nat, i: nat, j: nat)
    requires SerialiserOk(z, now) && StoredInOrder(z) && i <= j < |z.stored|
    ensures z.stored[j] < |z.sends| && z.stored[i] < |z.sends|
    ensures z.sends[z.stored[i]].at <= z.sends[z.stored[j]].at
  {
    assert z.stored[i] <= z.stored[j];
  }

  /** Results are stored in the order in which their queries were sent. */
  lemma ResultsInOrder(stored: map<User, Status>, actions: seq<Action>, i: nat, j: nat)
    requires Run(stored, actions).Some?
    requires i <= j < |Run(stored, actions).value.serialiser.stored|
    ensures var z := Run(stored, actions).value.serialiser;
            z.stored[j] < |z.sends| && z.stored[i] < |z.sends| &&
            z.sends[z.stored[i]].at <= z.sends[z.stored[j]].at
  {
    RunKeeps(stored, actions);
    var s := Run(stored, actions).value;
    OrderOfSends(s.serialiser, s.clock, i, j);
  }

  // ---------- every user of a query is processed ----------

  /** The steps of a run that stored the result of a query for a user. */
  function ResultsOf(actions: seq<Action>, b: BatchId, u: User): seq<nat> {
    if actions == [] then [] else
      var n := |actions| - 1;
      ResultsOf(actions[..n], b, u) + if actions[n] == StoreResult(b, u) then [n] else []
  }

  /** The step in which a query was completed, or the length of the run. */
  function CompletedAt(actions: seq<Action>, b: BatchId): (n: nat)
    ensures n <= |actions|
    ensures n < |actions| ==> actions[n] == Complete(b)
  {
    if actions == [] then 0 else
      var n := |actions| - 1;
      if CompletedAt(actions[..n], b) < n then CompletedAt(actions[..n], b)
      else if actions[n] == Complete(b) then n else |actions|
  }

  lemma {:induction false} ResultsAre(actions: seq<Action>, b: BatchId, u: User, i: nat)
    ensures i in ResultsOf(actions, b, u) <==> i < |actions| && actions[i] == StoreResult(b, u)
  {
    if actions != [] {
      ResultsAre(actions[..|actions| - 1], b, u, i);
    }
  }

  /** What the serialiser knows about a query, compared with the steps of the run. */
  ghost predicate Booked(z: Serialiser, actions: seq<Action>, b: BatchId, u: User) {
    var results, done := ResultsOf(actions, b, u), CompletedAt(actions, b);
    && (if b < |z.sends| && u in z.sends[b].users
        then if b in z.queries then |results| == (if u in z.queries[b] then 0 else 1)
             else if b in z.outcome && z.outcome[b] then |results| == 1 else |results| <= 1
        else results == [])
    && (forall k :: 0 <= k < |results| ==> b < |z.sends| && z.sends[b].at < results[k] < done)
    && (done < |actions| <==> b in z.outcome && z.outcome[b])
  }

  lemma MoreSteps(actions: seq<Action>, a: Action, b: BatchId, u: User)
    ensures ResultsOf(actions + [a], b, u) == ResultsOf(actions, b, u) + if a == StoreResult(b, u) then [|actions|] else []
    ensures CompletedAt(actions + [a], b) ==
            if CompletedAt(actions, b) < |actions| || a == Complete(b) then CompletedAt(actions, b) else |actions| + 1
  {
    assert (actions + [a])[..|actions|] == actions;
  }

  /** What was sent, settled and stored does not change for a query that a step does not concern. */
  ghost predicate SameQuery(z: Serialiser, t: Serialiser, b: BatchId) {
    && z.sends <= t.sends
    && (b in z.outcome <==> b in t.outcome) && (b in z.outcome ==> z.outcome[b] == t.outcome[b])
    && (b < |z.sends| ==> (b in z.queries <==> b in t.queries) && (b in z.queries ==> z.queries[b] == t.queries[b]))
    && (|z.sends| <= b < |t.sends| ==> b in t.queries && t.queries[b] == t.sends[b].users)
  }

  lemma OtherSteps(s: State, a: Action, b: BatchId)
    requires Inv(s) && Enabled(s, a)
    requires a.StoreResult? || a.Complete? || a.Fail? ==> a.batch != b
    ensures SameQuery(s.serialiser, Step(s, a).serialiser, b)
  {
    match a
    case Refresh => OtherUpdate(s.serialiser, PendingUsers(s.tracker), s.clock, b);
    case DownloadKeys(users, force) => OtherUpdate(s.serialiser, UsersToDownload(s.tracker, users, force), s.clock, b);
    case Complete(c) => OtherSettled(s.serialiser, c, true, s.clock, b);
    case Fail(c) => OtherSettled(s.serialiser, c, false, s.clock, b);
    case _ =>
  }

  lemma OtherUpdate(z: Serialiser, users: set<User>, now: nat, b: BatchId)
    requires SerialiserOk(z, now)
    ensures SameQuery(z, Update(z, users, now), b)
  {
  }

  lemma OtherSettled(z: Serialiser, c: BatchId, success: bool, now: nat, b: BatchId)
    requires SerialiserOk(z, now) && c in z.queries && c != b
    ensures SameQuery(z, Settle(z, c, success, now), b)
  {
  }

  lemma OtherBooks(z: Serialiser, t: Serialiser, actions: seq<Action>, a: Action, b: BatchId, u: User)
    requires SameQuery(z, t, b) && Booked(z, actions, b, u) && a != StoreResult(b, u) && a != Complete(b)
    requires b >= |z.sends| ==> b !in z.outcome
    ensures Booked(t, actions + [a], b, u)
  {
    MoreSteps(actions, a, b, u);
    assert b < |z.sends| ==> t.sends[b] == z.sends[b];
  }

  lemma StoreBooks(z: Serialiser, actions: seq<Action>, b: BatchId, v: User, u: User)
    requires SerialiserOk(z, |actions|) && b in z.queries && v in z.queries[b] && Booked(z, actions, b, u)
    ensures Booked(Store(z, b, v), actions + [StoreResult(b, v)], b, u)
  {
    MoreSteps(actions, StoreResult(b, v), b, u);
  }

  lemma SettleBooks(z: Serialiser, actions: seq<Action>, b: BatchId, success: bool, u: User)
    requires SerialiserOk(z, |actions|) && b in z.queries && Booked(z, actions, b, u)
    requires success ==> z.queries[b] == {}
    ensures Booked(Settle(z, b, success, |actions|), actions + [if success then Complete(b) else Fail(b)], b, u)
  {
    MoreSteps(actions, if success then Complete(b) else Fail(b), b, u);
    var t := Settle(z, b, success, |actions|);
    assert b < |z.sends| && t.sends[b] == z.sends[b] && b !in t.queries;
  }

  lemma StepBooks(s: State, actions: seq<Action>, a: Action, b: BatchId, u: User)
    requires Inv(s) && Enabled(s, a) && s.clock == |actions| && Booked(s.serialiser, actions, b, u)
    ensures Booked(Step(s, a).serialiser, actions + [a], b, u)
  {
    var z, t := s.serialiser, Step(s, a).serialiser;
    if a.StoreResult? && a.batch == b {
      StoreBooks(z, actions, b, a.user, u);
    } else if (a.Complete? || a.Fail?) && a.batch == b {
      SettleBooks(z, actions, b, a.Complete?, u);
    } else {
      OtherSteps(s, a, b);
      OtherBooks(z, t, actions, a, b, u);
    }
  }

  lemma LoadBooks(stored: map<User, Status>, b: BatchId, u: User)
    ensures Booked(Load(stored).serialiser, [], b, u)
  {
  }

  lemma {:induction false} RunBooks(stored: map<User, Status>, actions: seq<Action>, b: BatchId, u: User)
    requires Run(stored, actions).Some?
    ensures Run(stored, actions).value.clock == |actions|
    ensures Booked(Run(stored, actions).value.serialiser, actions, b, u)
  {
    if actions == [] {
      LoadBooks(stored, b, u);
    } else {
      var before, a := actions[..|actions| - 1], actions[|actions| - 1];
      RunBooks(stored, before, b, u);
      RunKeeps(stored, before);
      StepBooks(Run(stored, before).value, before, a, b, u);
      assert before + [a] == actions;
    }
  }

  /** No user is left out: if a query succeeded, then for each user it was sent for exactly one step stored
      a result, after the query was sent and before it was completed. */
  lemma ProcessesEveryUser(stored: map<User, Status>, actions: seq<Action>, b: BatchId, u: User) returns (i: nat)
    requires Run(stored, actions).Some?
    requires var z := Run(stored, actions).value.serialiser;
             b in z.outcome && z.outcome[b] && b < |z.sends| && u in z.sends[b].users
    ensures i < |actions| && actions[i] == StoreResult(b, u)
    ensures forall j :: 0 <= j < |actions| && actions[j] == StoreResult(b, u) ==> j == i
    ensures Run(stored, actions).value.serialiser.sends[b].at < i < CompletedAt(actions, b) < |actions|
  {
    RunBooks(stored, actions, b, u);
    RunKeeps(stored, actions);
    var results := ResultsOf(actions, b, u);
    i := results[0];
    assert i in results;
    ResultsAre(actions, b, u, i);
    forall j: nat | j < |actions| && actions[j] == StoreResult(b, u) ensures j == i {
      ResultsAre(actions, b, u, j);
    }
  }

  /** An invalidation is remembered for as long as the user is tracked. */
  ghost predicate Remembered(k: Tracker, actions: seq<Action>, u: User) {
    StatusOf(k, u) != NotTracked ==>
      forall q :: 0 <= q < |actions| && actions[q] == Invalidate(u) ==> u in k.since && q <= k.since[u]
  }

  lemma StepRemembers(s: State, actions: seq<Action>, a: Action, u: User)
    requires Inv(s) && Enabled(s, a) && s.clock == |actions| && Remembered(s.tracker, actions, u)
    ensures Remembered(Step(s, a).tracker, actions + [a], u)
  {
    var k, l := s.tracker, Step(s, a).tracker;
    if StatusOf(l, u) != NotTracked {
      forall q | 0 <= q < |actions| + 1 && (actions + [a])[q] == Invalidate(u) ensures u in l.since && q <= l.since[u] {
        assert q < |actions| ==> actions[q] == Invalidate(u);
      }
    }
  }

  lemma {:induction false} RunRemembers(stored: map<User, Status>, actions: seq<Action>, u: User)
    requires Run(stored, actions).Some?
    ensures Run(stored, actions).value.clock == |actions|
    ensures Remembered(Run(stored, actions).value.tracker, actions, u)
  {
    if actions != [] {
      var before, a := actions[..|actions| - 1], actions[|actions| - 1];
      RunRemembers(stored, before, u);
      RunKeeps(stored, before);
      StepRemembers(Run(stored, before).value, before, a, u);
      assert before + [a] == actions;
    }
  }

  /** Freshness in terms of the steps of a run: when a user becomes up to date, a result was stored for this
      user, exactly once, by a query that was sent after every invalidation of the user's list. */
  lemma UpToDateAfterResult(stored: map<User, Status>, actions: seq<Action>, a: Action, u: User)
    returns (b: BatchId, i: nat)
    requires Run(stored, actions).Some? && Enabled(Run(stored, actions).value, a)
    requires var s := Run(stored, actions).value;
             StatusOf(s.tracker, u) != UpToDate && StatusOf(Step(s, a).tracker, u) == UpToDate
    ensures i < |actions| && actions[i] == StoreResult(b, u)
    ensures forall j :: 0 <= j < |actions| && actions[j] == StoreResult(b, u) ==> j == i
    ensures var z := Run(stored, actions).value.serialiser;
            b < |z.sends| && z.sends[b].at < i < CompletedAt(actions, b) < |actions| &&
            forall q :: 0 <= q < |actions| && actions[q] == Invalidate(u) ==> q < z.sends[b].at
  {
    BecomesUpToDate(stored, actions, a, u);
    var s := Run(stored, actions).value;
    b := s.tracker.downloads[a.download].batch;
    i := ProcessesEveryUser(stored, actions, b, u);
    RunRemembers(stored, actions, u);
  }

  /** When the promise of a caller settles, the query that settles it was made for all the caller's users. */
  lemma SettlesWithAllUsers(stored: map<User, Status>, actions: seq<Action>, d: DownloadId)
    requires Run(stored, actions).Some? && Enabled(Run(stored, actions).value, Finished(d))
    ensures var k, z := Run(stored, actions).value.tracker, Run(stored, actions).value.serialiser;
            k.downloads[d].batch < |z.sends| && z.sends[k.downloads[d].batch].batch == k.downloads[d].batch &&
            k.downloads[d].users <= z.sends[k.downloads[d].batch].users
  {
    RunKeeps(stored, actions);
    var k, z := Run(stored, actions).value.tracker, Run(stored, actions).value.serialiser;
    assert DownloadOk(z, k.downloads[d]);
  }

  /** Queries are only ever added, later ones at later steps, and a download stays as it is until its
      callback runs. */
  ghost predicate Grown(s: State, t: State) {
    var y, z := s.serialiser.sends, t.serialiser.sends;
    && s.clock <= t.clock
    && s.tracker.nextDownload <= t.tracker.nextDownload
    && |y| <= |z| && z[..|y|] == y
    && (forall i :: |y| <= i < |z| ==> s.clock <= z[i].at)
    && (forall d :: d in t.tracker.downloads && d < s.tracker.nextDownload ==>
          d in s.tracker.downloads && t.tracker.downloads[d] == s.tracker.downloads[d])
  }

  lemma UpdateGrows(z: Serialiser, users: set<User>, now: nat)
    ensures var y := Update(z, users, now).sends;
            y == z.sends || (|y| == |z.sends| + 1 && y[..|z.sends|] == z.sends && y[|z.sends|].at == now)
  {
  }

  lemma StepGrows(s: State, a: Action)
    requires Enabled(s, a)
    ensures Grown(s, Step(s, a))
  {
    match a
    case Refresh => UpdateGrows(s.serialiser, PendingUsers(s.tracker), s.clock);
    case DownloadKeys(users, force) => UpdateGrows(s.serialiser, UsersToDownload(s.tracker, users, force), s.clock);
    case _ =>
  }

  lemma GrownTransitive(r: State, s: State, t: State)
    requires Grown(r, s) && Grown(s, t)
    ensures Grown(r, t)
  {
    var x, y, z := r.serialiser.sends, s.serialiser.sends, t.serialiser.sends;
    assert z[..|x|] == y[..|x|];
    forall i | |x| <= i < |z| ensures r.clock <= z[i].at {
      assert i < |y| ==> z[i] == y[i];
    }
  }

  lemma {:induction false} Grows(stored: map<User, Status>, actions: seq<Action>, n: nat)
    requires n <= |actions| && Run(stored, actions).Some?
    ensures Run(stored, actions[..n]).Some?
    ensures Grown(Run(stored, actions[..n]).value, Run(stored, actions).value)
  {
    if n == |actions| {
      assert actions[..n] == actions;
    } else {
      var before := actions[..|actions| - 1];
      assert before[..n] == actions[..n];
      Grows(stored, before, n);
      StepGrows(Run(stored, before).value, actions[|actions| - 1]);
      GrownTransitive(Run(stored, actions[..n]).value, Run(stored, before).value, Run(stored, actions).value);
    }
  }

  /** What a caller waits for on behalf of a user is a download for this user. */
  lemma PromisedFor(s: State, users: set<User>, force: bool, u: User)
    requires Inv(s) && WaitsFor(s.tracker, users, force, u)
    ensures var t, d := Step(s, DownloadKeys(users, force)), PromiseFor(s.tracker, u);
            d < t.tracker.nextDownload && d in t.tracker.downloads && u in t.tracker.downloads[d].users
  {
  }

  /** And it stays that download until its callback runs. */
  lemma PromiseStays(stored: map<User, Status>, actions: seq<Action>, n: nat, u: User)
    requires n < |actions| && Run(stored, actions).Some? && Run(stored, actions[..n]).Some? && actions[n].DownloadKeys?
    requires WaitsFor(Run(stored, actions[..n]).value.tracker, actions[n].users, actions[n].force, u)
    ensures Grown(Run(stored, actions[..n]).value, Run(stored, actions).value)
    ensures var d, k := PromiseFor(Run(stored, actions[..n]).value.tracker, u), Run(stored, actions).value.tracker;
            d in k.downloads ==> u in k.downloads[d].users
  {
    var s, t := Run(stored, actions[..n]).value, Run(stored, actions).value;
    Grows(stored, actions, n);
    RunKeeps(stored, actions[..n]);
    PromisedFor(s, actions[n].users, actions[n].force, u);
    Grows(stored, actions, n + 1);
    assert actions[..n + 1][..n] == actions[..n];
    assert Run(stored, actions[..n + 1]) == Some(Step(s, actions[n]));
  }

  lemma SentAtIsKept(s: State, t: State, b: BatchId, u: User)
    requires Inv(s) && Grown(s, t) && b < |t.serialiser.sends|
    ensures SentAfter(s.tracker, t.serialiser, b, u) <==>
            b >= |s.serialiser.sends| || SentAfter(s.tracker, s.serialiser, b, u)
  {
    if b < |s.serialiser.sends| {
      assert t.serialiser.sends[b] == t.serialiser.sends[..|s.serialiser.sends|][b];
    }
  }

  /** A caller of `downloadKeys` is served: for each user that is not simply up to date it waits for a
      promise, and when that settles, a query was made for this user. The query was made after the last
      invalidation before the call, if and only if it had not been sent at the time of the call, or was
      sent after that invalidation; a download that is joined may be older. */
  lemma CallerIsServed(stored: map<User, Status>, actions: seq<Action>, n: nat, u: User)
    requires n < |actions| && Run(stored, actions).Some? && Run(stored, actions[..n]).Some? && actions[n].DownloadKeys?
    requires WaitsFor(Run(stored, actions[..n]).value.tracker, actions[n].users, actions[n].force, u)
    requires Enabled(Run(stored, actions).value, Finished(PromiseFor(Run(stored, actions[..n]).value.tracker, u)))
    ensures var s, t := Run(stored, actions[..n]).value, Run(stored, actions).value;
            var b := t.tracker.downloads[PromiseFor(s.tracker, u)].batch;
            b < |t.serialiser.sends| && u in t.serialiser.sends[b].users &&
            (SentAfter(s.tracker, t.serialiser, b, u) <==>
               b >= |s.serialiser.sends| || SentAfter(s.tracker, s.serialiser, b, u))
  {
    var s, t := Run(stored, actions[..n]).value, Run(stored, actions).value;
    var d := PromiseFor(s.tracker, u);
    PromiseStays(stored, actions, n, u);
    SettlesWithAllUsers(stored, actions, d);
    RunKeeps(stored, actions[..n]);
    SentAtIsKept(s, t, t.tracker.downloads[d].batch, u);
  }

  lemma OneMore(stored: map<User, Status>, actions: seq<Action>, a: Action)
    requires Run(stored, actions).Some? && Enabled(Run(stored, actions).value, a)
    ensures Run(stored, actions + [a]) == Some(Step(Run(stored, actions).value, a))
  {
    assert (actions + [a])[..|actions|] == actions;
  }

  /** A device list is invalidated while a query for it is under way. */
  function OutdatedRun(u: User): seq<Action> {
    [StartTracking(u)] + [Action.DownloadKeys({u}, false)] + [Invalidate(u)]
  }

  lemma Outdated(u: User)
    ensures Run(map[], OutdatedRun(u)).Some?
    ensures var s := Run(map[], OutdatedRun(u)).value;
            s.tracker.current == map[u := 0] && s.tracker.downloads == map[0 := Download({u}, 0)] &&
            s.tracker.since == map[u := 2] && s.serialiser.sends == [Sent(0, {u}, 1)] &&
            s.serialiser.queries == map[0 := {u}]
  {
    var start := Load(map[]);
    OneMore(map[], [], StartTracking(u));
    var s := Step(start, StartTracking(u));
    OneMore(map[], [StartTracking(u)], Action.DownloadKeys({u}, false));
    assert UsersToDownload(s.tracker, {u}, false) == {u};
    assert s.serialiser == start.serialiser && Enqueue(s.serialiser, {u}).queued == {u};
    var t := Step(s, Action.DownloadKeys({u}, false));
    assert t.tracker.downloads == map[0 := Download({u}, 0)];
    OneMore(map[], [StartTracking(u)] + [Action.DownloadKeys({u}, false)], Invalidate(u));
  }

  /** Such a run: a second caller joins the download that was started before the invalidation, and is
      served with the old list. */
  lemma JoinsOlderDownload(u: User)
    ensures var actions := OutdatedRun(u) + [Action.DownloadKeys({u}, false)] + [StoreResult(0, u)] + [Complete(0)];
            Run(map[], OutdatedRun(u)).Some? && Run(map[], actions).Some? &&
            var s, t := Run(map[], OutdatedRun(u)).value, Run(map[], actions).value;
            Awaited(s.tracker, {u}, false) == {0} && Enabled(t, Finished(0)) &&
            t.tracker.downloads[0].batch == 0 && !SentAfter(s.tracker, t.serialiser, 0, u)
  {
    Outdated(u);
    var s := Run(map[], OutdatedRun(u)).value;
    var call := Action.DownloadKeys({u}, false);
    assert WaitsFor(s.tracker, {u}, false, u) && PromiseFor(s.tracker, u) == 0;
    assert UsersToDownload(s.tracker, {u}, false) == {};
    OneMore(map[], OutdatedRun(u), call);
    OneMore(map[], OutdatedRun(u) + [call], StoreResult(0, u));
    var processed := Step(Step(s, call), StoreResult(0, u));
    assert processed.serialiser.queries[0] == {};
    OneMore(map[], OutdatedRun(u) + [call] + [StoreResult(0, u)], Complete(0));
  }

  // ---------- the status diagram ----------

  /** How a user's status may change in a step. */
  ghost predicate Moves(s: State, a: Action, u: User, before: Status, after: Status) {
    match a
    case StartTracking(v) => u == v && before == NotTracked && after == Pending
    case StopTracking(v) => u == v && before != NotTracked && after == NotTracked
    case StopTrackingAll => before != NotTracked && after == NotTracked
    case Invalidate(v) => u == v && before != NotTracked && after == Pending
    case Refresh => before == Pending && after == InProgress
    case DownloadKeys(users, _) => u in users && before == Pending && after == InProgress
    case Finished(d) =>
      d in s.tracker.downloads && u in s.tracker.downloads[d].users && before == InProgress &&
      s.tracker.downloads[d].batch in s.serialiser.outcome &&
      after == if s.serialiser.outcome[s.tracker.downloads[d].batch] then UpToDate else Pending
    case _ => false
  }

  /** Each user's status moves along the status diagram only; and a call that asks for it has its effect:
      whoever is started is tracked, whoever is stopped is not, an invalidated list that is tracked is
      pending, and a refresh leaves no list pending. */
  lemma StatusDiagram(s: State, a: Action, u: User)
    requires Enabled(s, a)
    ensures var before, after := StatusOf(s.tracker, u), StatusOf(Step(s, a).tracker, u);
            (before == after || Moves(s, a, u, before, after)) &&
            (a == StartTracking(u) ==> after != NotTracked) &&
            (a == StopTracking(u) || a.StopTrackingAll? ==> after == NotTracked) &&
            (a == Invalidate(u) && before != NotTracked ==> after == Pending) &&
            (a.Refresh? ==> after != Pending)
  {
    var users := PendingUsers(s.tracker);
    if a.Refresh? && u in s.tracker.status && s.tracker.status[u] == Pending {
      assert u in users;
    }
  }

  /** After `downloadKeys`, each of the users is up to date or has a download recorded; and has one in any
      case if the download was forced. A download that is recorded already is kept, and one is started for
      no other user: not for one that is up to date, unless forced. */
  lemma DownloadKeysCovers(s: State, users: set<User>, force: bool, u: User)
    ensures var k, l := s.tracker, Step(s, DownloadKeys(users, force)).tracker;
            (u in users ==> (u in l.current || StatusOf(l, u) == UpToDate) && (force ==> u in l.current)) &&
            (u in k.current ==> u in l.current && l.current[u] == k.current[u]) &&
            (u !in k.current && u in l.current ==>
               u in users && (force || StatusOf(k, u) != UpToDate) && l.current[u] == k.nextDownload)
  {
    if u in users && u !in s.tracker.current && (force || StatusOf(s.tracker, u) != UpToDate) {
      assert u in UsersToDownload(s.tracker, users, force);
    }
  }

  /** Refreshing starts one download, for exactly the users whose lists are pending, whether or not they have
      an older one recorded; and nothing else happens. */
  lemma RefreshExactly(s: State, u: User)
    ensures var k, l := s.tracker, Step(s, Refresh).tracker;
            if StatusOf(k, u) == Pending
            then StatusOf(l, u) == InProgress && u in l.current && l.current[u] == k.nextDownload
            else StatusOf(l, u) == StatusOf(k, u) && Lookup(l.current, u) == Lookup(k.current, u)
  {
    if StatusOf(s.tracker, u) == Pending {
      assert u in PendingUsers(s.tracker);
    }
  }

  /** A restart: what was saved is loaded again, and only a download that was in progress is to be made anew. */
  lemma RestartKeeps(stored: map<User, Status>, actions: seq<Action>, u: User)
    requires Run(stored, actions).Some?
    ensures var before := Run(stored, actions).value.tracker;
            var after := Load(before.status);
            Inv(after) && after.tracker.current == map[] &&
            StatusOf(after.tracker, u) == if StatusOf(before, u) == InProgress then Pending else StatusOf(before, u)
  {
    LoadOk(Run(stored, actions).value.tracker.status);
  }

  // ---------- the queue ----------

  /** Users are queued and no query is under way that would start them. */
  predicate Stranded(s: State) {
    s.serialiser.queuedBatch.Some? && !s.serialiser.downloadInProgress
  }

  /** The steps that start a download, which also sends what is queued. */
  predicate StartsDownload(s: State, a: Action) {
    (a.Refresh? && PendingUsers(s.tracker) != {}) ||
    (a.DownloadKeys? && UsersToDownload(s.tracker, a.users, a.force) != {})
  }

  /** The queue is stranded after a step if and only if the step is the failure of a query behind which
      users are queued, or the queue was stranded before and no download is started. */
  lemma StrandedExactly(stored: map<User, Status>, actions: seq<Action>, a: Action)
    requires Run(stored, actions).Some? && Enabled(Run(stored, actions).value, a)
    ensures var s := Run(stored, actions).value;
            Stranded(Step(s, a)) <==>
            (a.Fail? && s.serialiser.queuedBatch.Some?) || (Stranded(s) && !StartsDownload(s, a))
  {
    RunKeeps(stored, actions);
    var s := Run(stored, actions).value;
    if a.Complete? || a.Fail? || a.StoreResult? {
      assert s.serialiser.downloadInProgress;
    }
  }

  /** In runs without failures a queued batch always has a query in flight ahead of it. */
  lemma {:induction false} NeverStranded(stored: map<User, Status>, actions: seq<Action>)
    requires Run(stored, actions).Some?
    requires forall i :: 0 <= i < |actions| ==> !actions[i].Fail?
    ensures !Stranded(Run(stored, actions).value)
  {
    if actions != [] {
      var before := actions[..|actions| - 1];
      assert forall i :: 0 <= i < |before| ==> before[i] == actions[i];
      NeverStranded(stored, before);
      StrandedExactly(stored, before, actions[|actions| - 1]);
    }
  }
}
