/** The protocol of src/crypto/DeviceList.js that decides when a user's device list is up to date:
    invalidations, key queries that are serialised, and completions that run later. Each call and
    each promise callback is one step. */
module DeviceProtocol {
  import opened Common

  type User(==, !new, 0)

  datatype Status = NotTracked | Pending | InProgress | UpToDate

  /** A deferred of the serialiser, and the query that will settle it. */
  type BatchId = nat

  /** A promise returned by `_doKeyDownload`. */
  type DownloadId = nat

  // ---------- DeviceListUpdateSerialiser ----------

  /** A query that was sent: for which deferred, for whom, and at which step. */
  datatype Sent = Sent(batch: BatchId, users: set<User>, at: nat)

  datatype Serialiser = Serialiser(
    downloadInProgress: bool,
    queued: set<User>,                // _keyDownloadsQueuedByUser
    queuedBatch: Option<BatchId>,     // _queuedQueryDeferred
    nextBatch: BatchId,
    queries: map<BatchId, set<User>>, // queries being sent or processed, and the users still to process
    outcome: map<BatchId, bool>,      // settled deferreds
    sends: seq<Sent>,                 // history: the queries in the order they were sent
    stored: seq<BatchId>)             // history: the query of each stored result, in order

  /** `_doQueuedQueries`; it throws if a request is active. */
  function SendQueued(z: Serialiser, now: nat): Serialiser
    requires !z.downloadInProgress && z.queuedBatch.Some?
  {
    var b := z.queuedBatch.value;
    z.(queued := {}, queuedBatch := None, downloadInProgress := true,
       queries := z.queries[b := z.queued], sends := z.sends + [Sent(b, z.queued, now)])
  }

  /** Users join the queued batch, for which there is a deferred. */
  function Enqueue(z: Serialiser, users: set<User>): (r: Serialiser)
    ensures r.queuedBatch.Some?
  {
    if z.queuedBatch.Some? then z.(queued := z.queued + users)
    else z.(queued := z.queued + users, queuedBatch := Some(z.nextBatch), nextBatch := z.nextBatch + 1)
  }

  /** `updateDevicesForUsers`, which returns the promise of the deferred `BatchFor`. */
  function Update(z: Serialiser, users: set<User>, now: nat): Serialiser {
    var e := Enqueue(z, users);
    if e.downloadInProgress then e else SendQueued(e, now)
  }

  function BatchFor(z: Serialiser): BatchId {
    if z.queuedBatch.Some? then z.queuedBatch.value else z.nextBatch
  }

  /** The device list of one user of a response is stored. */
  function Store(z: Serialiser, b: BatchId, u: User): Serialiser
    requires b in z.queries
  {
    z.(queries := z.queries[b := z.queries[b] - {u}], stored := z.stored + [b])
  }

  /** A query is done: after a failure the queued batch is not started. */
  function Settle(z: Serialiser, b: BatchId, success: bool, now: nat): Serialiser {
    var t := z.(downloadInProgress := false, queries := z.queries - {b}, outcome := z.outcome[b := success]);
    if success && t.queuedBatch.Some? then SendQueued(t, now) else t
  }

  // ---------- DeviceList ----------

  /** A call of `_doKeyDownload` whose `finished` has not run yet. */
  datatype Download = Download(users: set<User>, batch: BatchId)

  datatype Tracker = Tracker(
    status: map<User, Status>,            // _deviceTrackingStatus
    current: map<User, DownloadId>,       // _keyDownloadsInProgressByUser
    downloads: map<DownloadId, Download>,
    nextDownload: DownloadId,
    loaded: set<User>,                    // history: up to date when loaded from storage
    since: map<User, nat>)                // history: last invalidation or (re)start of tracking

  function StatusOf(k: Tracker, u: User): Status {
    if u in k.status then k.status[u] else NotTracked
  }

  /** The user's list is outdated from now on. */
  function Outdate(k: Tracker, u: User, now: nat): Tracker {
    k.(status := k.status[u := Pending], since := k.since[u := now])
  }

  /** The second half of `_doKeyDownload`: a new promise that waits for the batch is recorded. */
  function Record(k: Tracker, users: set<User>, batch: BatchId): Tracker {
    k.(downloads := k.downloads[k.nextDownload := Download(users, batch)],
       nextDownload := k.nextDownload + 1,
       current := k.current + map u | u in users :: k.nextDownload,
       status := map u | u in k.status :: if u in users && k.status[u] == Pending then InProgress else k.status[u])
  }

  function PendingUsers(k: Tracker): set<User> {
    set u | u in k.status && k.status[u] == Pending
  }

  /** The users that `downloadKeys` starts a download for: it joins downloads that are under way. */
  function UsersToDownload(k: Tracker, users: set<User>, force: bool): set<User> {
    set u | u in users && u !in k.current && (force || StatusOf(k, u) != UpToDate)
  }

  /** The promise that `downloadKeys` waits for on behalf of a user. */
  function PromiseFor(k: Tracker, u: User): DownloadId {
    if u in k.current then k.current[u] else k.nextDownload
  }

  /** It waits for the downloads it joins, and for the one it starts. */
  predicate WaitsFor(k: Tracker, users: set<User>, force: bool, u: User) {
    u in users && (u in k.current || u in UsersToDownload(k, users, force))
  }

  function Awaited(k: Tracker, users: set<User>, force: bool): set<DownloadId> {
    set u | u in users && WaitsFor(k, users, force, u) :: PromiseFor(k, u)
  }

  /** The users of a download whose recorded promise is that of this download. */
  function Mine(k: Tracker, d: DownloadId): set<User>
    requires d in k.downloads
  {
    set u | u in k.downloads[d].users && u in k.current && k.current[u] == d
  }

  /** The callback `finished` of a download. */
  function Finish(k: Tracker, d: DownloadId, success: bool): Tracker
    requires d in k.downloads
  {
    k.(downloads := k.downloads - {d},
       current := k.current - Mine(k, d),
       status := map u | u in k.status ::
         if u in Mine(k, d) && k.status[u] == InProgress then (if success then UpToDate else Pending) else k.status[u])
  }

  // ---------- steps ----------

  datatype State = State(tracker: Tracker, serialiser: Serialiser, clock: nat)

  datatype Action =
    | StartTracking(user: User)
    | StopTracking(user: User)
    | StopTrackingAll
    | Invalidate(user: User)
    | Refresh
    | DownloadKeys(users: set<User>, force: bool)
    | StoreResult(batch: BatchId, user: User)   // one user of a successful response is processed
    | Complete(batch: BatchId)                  // all users of the response are processed
    | Fail(batch: BatchId)
    | Finished(download: DownloadId)            // the callback of a settled promise

  predicate Enabled(s: State, a: Action) {
    match a
    case StoreResult(b, u) => b in s.serialiser.queries && u in s.serialiser.queries[b]
    case Complete(b) => b in s.serialiser.queries && s.serialiser.queries[b] == {}
    case Fail(b) => b in s.serialiser.queries
    case Finished(d) => d in s.tracker.downloads && s.tracker.downloads[d].batch in s.serialiser.outcome
    case _ => true
  }

  /** `_doKeyDownload` */
  function DoKeyDownload(s: State, users: set<User>): State {
    if users == {} then s
    else State(Record(s.tracker, users, BatchFor(s.serialiser)), Update(s.serialiser, users, s.clock), s.clock)
  }

  function Effect(s: State, a: Action): State
    requires Enabled(s, a)
  {
    var k, z := s.tracker, s.serialiser;
    match a
    case StartTracking(u) => if StatusOf(k, u) == NotTracked then s.(tracker := Outdate(k, u, s.clock)) else s
    case StopTracking(u) =>
      if StatusOf(k, u) != NotTracked then s.(tracker := k.(status := k.status[u := NotTracked])) else s
    case StopTrackingAll => s.(tracker := k.(status := map u | u in k.status :: NotTracked))
    case Invalidate(u) => if StatusOf(k, u) != NotTracked then s.(tracker := Outdate(k, u, s.clock)) else s
    case Refresh => DoKeyDownload(s, PendingUsers(k))
    case DownloadKeys(users, force) => DoKeyDownload(s, UsersToDownload(k, users, force))
    case StoreResult(b, u) => s.(serialiser := Store(z, b, u))
    case Complete(b) => s.(serialiser := Settle(z, b, true, s.clock))
    case Fail(b) => s.(serialiser := Settle(z, b, false, s.clock))
    case Finished(d) => s.(tracker := Finish(k, d, z.outcome[k.downloads[d].batch]))
  }

  function Step(s: State, a: Action): State
    requires Enabled(s, a)
  {
    Effect(s, a).(clock := s.clock + 1)
  }

  /** `load`: a download that was in progress when the client was shut down is not any more. */
  function Load(stored: map<User, Status>): State {
    State(Tracker(map u | u in stored :: if stored[u] == InProgress then Pending else stored[u],
                  map[], map[], 0, set u | u in stored && stored[u] == UpToDate, map[]),
          Serialiser(false, {}, None, 0, map[], map[], [], []), 0)
  }

  /** Any interleaving of steps after `load`. */
  function Run(stored: map<User, Status>, actions: seq<Action>): Option<State> {
    if actions == [] then Some(Load(stored)) else
      var before := Run(stored, actions[..|actions| - 1]);
      if before.Some? && Enabled(before.value, actions[|actions| - 1])
      then Some(Step(before.value, actions[|actions| - 1])) else None
  }

  // ---------- the invariant ----------

  /** The serialiser: the flag is set exactly while there is a query, and then there is exactly one, the
      last that was sent; deferreds are queued, sent and settled in the order of their creation. */
  ghost predicate SerialiserOk(z: Serialiser, clock: nat) {
    var n := |z.sends|;
    && (z.downloadInProgress <==> z.queries != map[])
    && (forall b :: b in z.queries ==> b == n - 1 && z.queries[b] <= z.sends[b].users)
    && (if z.queuedBatch.Some? then z.queuedBatch.value == n && z.nextBatch == n + 1
        else z.queued == {} && z.nextBatch == n)
    && (forall b :: b in z.outcome ==> b < n)
    && (forall i :: 0 <= i < n ==> z.sends[i].batch == i && z.sends[i].at < clock)
    && (forall i :: 0 <= i < n ==> (i in z.outcome <==> i !in z.queries))
    && (forall i, j :: 0 <= i < j < n ==> z.sends[i].at < z.sends[j].at)
  }

  /** Results are stored for queries that were sent, in the order in which they were sent. */
  ghost predicate StoredInOrder(z: Serialiser) {
    && (forall i :: 0 <= i < |z.stored| ==> z.stored[i] < |z.sends|)
    && (forall i, j :: 0 <= i < j < |z.stored| ==> z.stored[i] <= z.stored[j])
  }

  /** A download waits for a batch that contains all its users. */
  ghost predicate DownloadOk(z: Serialiser, d: Download) {
    if d.batch < |z.sends| then d.users <= z.sends[d.batch].users
    else z.queuedBatch == Some(d.batch) && d.users <= z.queued
  }

  ghost predicate DownloadsOk(k: Tracker, z: Serialiser) {
    && (forall d :: d in k.downloads ==> d < k.nextDownload && DownloadOk(z, k.downloads[d]))
    && (forall u :: u in k.current ==> k.current[u] in k.downloads && u in k.downloads[k.current[u]].users)
  }

  /** The query was sent after the user's last invalidation or (re)start of tracking. */
  ghost predicate SentAfter(k: Tracker, z: Serialiser, b: BatchId, u: User) {
    b < |z.sends| && (u in k.since ==> k.since[u] < z.sends[b].at)
  }

  /** A successful query for the user that was sent after the user's last invalidation. */
  ghost predicate FreshQuery(k: Tracker, z: Serialiser, u: User, b: BatchId) {
    b in z.outcome && z.outcome[b] && SentAfter(k, z, b, u) && u in z.sends[b].users
  }

  /** Nothing is known to have changed since the user's list was known to be up to date. */
  ghost predicate IsFresh(k: Tracker, z: Serialiser, u: User) {
    (u in k.loaded && u !in k.since) || exists b :: FreshQuery(k, z, u, b)
  }

  ghost predicate StatusOk(k: Tracker, z: Serialiser, u: User) {
    && (StatusOf(k, u) == InProgress ==>
          u in k.current && k.current[u] in k.downloads &&
          var b := k.downloads[k.current[u]].batch;
          (b < |z.sends| ==> SentAfter(k, z, b, u)))
    && (StatusOf(k, u) == UpToDate ==> IsFresh(k, z, u))
  }

  ghost predicate Inv(s: State) {
    && SerialiserOk(s.serialiser, s.clock)
    && StoredInOrder(s.serialiser)
    && DownloadsOk(s.tracker, s.serialiser)
    && (forall u :: u in s.tracker.since ==> s.tracker.since[u] < s.clock)
    && (forall u :: StatusOk(s.tracker, s.serialiser, u))
  }
}
