/** src/crypto/DeviceList.js as it is written: `DeviceList` and its `DeviceListUpdateSerialiser`, whose
    methods and promise callbacks update fields in place. Every method is one step of `DeviceProtocol`. */
module DeviceListClass {
  import opened Common
  import opened DeviceProtocol

  function SetOf(users: seq<User>): set<User> {
    set u | u in users
  }

  function Joined(current: map<User, DownloadId>, users: set<User>): set<DownloadId> {
    set u | u in users && u in current :: current[u]
  }

  lemma OneMoreUser(k: Tracker, users: set<User>, force: bool, u: User)
    ensures Joined(k.current, users + {u}) == Joined(k.current, users) + if u in k.current then {k.current[u]} else {}
    ensures UsersToDownload(k, users + {u}, force) ==
            UsersToDownload(k, users, force) + if u !in k.current && (force || StatusOf(k, u) != UpToDate) then {u} else {}
  {
  }

  lemma AwaitedIs(k: Tracker, users: set<User>, force: bool)
    ensures Awaited(k, users, force) ==
            Joined(k.current, users) + if UsersToDownload(k, users, force) == {} then {} else {k.nextDownload}
  {
    var downloaded := UsersToDownload(k, users, force);
    forall u | u in downloaded ensures k.nextDownload in Awaited(k, users, force) {
      assert WaitsFor(k, users, force, u) && PromiseFor(k, u) == k.nextDownload;
    }
    forall u | u in users && u in k.current ensures k.current[u] in Awaited(k, users, force) {
      assert WaitsFor(k, users, force, u) && PromiseFor(k, u) == k.current[u];
    }
  }

  class DeviceListUpdateSerialiser {
    var downloadInProgress: bool
    var queued: set<User>
    var queuedBatch: Option<BatchId>
    var nextBatch: BatchId

    // what the promise machinery holds: the queries under way and the deferreds that are settled
    var queries: map<BatchId, set<User>>
    var outcome: map<BatchId, bool>

    ghost var sends: seq<Sent>
    ghost var stored: seq<BatchId>

    ghost function Contents(): Serialiser
      reads this
    {
      Serialiser(downloadInProgress, queued, queuedBatch, nextBatch, queries, outcome, sends, stored)
    }

    constructor ()
      ensures Contents() == Serialiser(false, {}, None, 0, map[], map[], [], [])
    {
      downloadInProgress, queued, queuedBatch, nextBatch := false, {}, None, 0;
      queries, outcome, sends, stored := map[], map[], [], [];
    }

    method UpdateDevicesForUsers(users: seq<User>, ghost now: nat) returns (promise: BatchId)
      modifies this
      ensures Contents() == Update(old(Contents()), SetOf(users), now)
      ensures promise == BatchFor(old(Contents()))
    {
      for i := 0 to |users|
        invariant Contents() == old(Contents()).(queued := old(queued) + SetOf(users[..i]))
      {
        assert SetOf(users[..i + 1]) == SetOf(users[..i]) + {users[i]};
        queued := queued + {users[i]};
      }
      assert users[..|users|] == users;
      if queuedBatch.None? {
        queuedBatch := Some(nextBatch);
        nextBatch := nextBatch + 1;
      }
      promise := queuedBatch.value;
      if !downloadInProgress {
        DoQueuedQueries(now);
      }
    }

    /** The guard against an active request is this method's precondition: no call violates it. */
    method DoQueuedQueries(ghost now: nat)
      requires !downloadInProgress && queuedBatch.Some?
      modifies this
      ensures Contents() == SendQueued(old(Contents()), now)
    {
      var downloadUsers, batch := queued, queuedBatch.value;
      queued, queuedBatch := {}, None;
      downloadInProgress := true;
      queries := queries[batch := downloadUsers];
      sends := sends + [Sent(batch, downloadUsers, now)];
    }

    /** One round of the loop over the users of a response. */
    method ProcessUser(batch: BatchId, user: User)
      requires batch in queries && user in queries[batch]
      modifies this
      ensures Contents() == Store(old(Contents()), batch, user)
    {
      queries := queries[batch := queries[batch] - {user}];
      stored := stored + [batch];
    }

    /** The handler after the loop, and the handler of a failed request. */
    method Settled(batch: BatchId, success: bool, ghost now: nat)
      requires batch in queries
      modifies this
      ensures Contents() == Settle(old(Contents()), batch, success, now)
    {
      queries := queries - {batch};
      downloadInProgress := false;
      outcome := outcome[batch := success];
      if success && queuedBatch.Some? {
        DoQueuedQueries(now);
      }
    }
  }

  class DeviceList {
    const serialiser: DeviceListUpdateSerialiser
    var status: map<User, Status>
    var current: map<User, DownloadId>

    // the `finished` closures that have not run
    var downloads: map<DownloadId, Download>
    var nextDownload: DownloadId

    ghost var loaded: set<User>
    ghost var since: map<User, nat>
    ghost var clock: nat

    ghost function Tracking(): Tracker
      reads this
    {
      Tracker(status, current, downloads, nextDownload, loaded, since)
    }

    ghost function Contents(): State
      reads this, serialiser
    {
      State(Tracking(), serialiser.Contents(), clock)
    }

    /** `load` */
    constructor (trackingStatus: map<User, Status>)
      ensures Contents() == Load(trackingStatus) && fresh(serialiser)
    {
      serialiser := new DeviceListUpdateSerialiser();
      status := map u | u in trackingStatus :: if trackingStatus[u] == InProgress then Pending else trackingStatus[u];
      current, downloads, nextDownload := map[], map[], 0;
      loaded := set u | u in trackingStatus && trackingStatus[u] == UpToDate;
      since, clock := map[], 0;
    }

    method StartTrackingDeviceList(u: User)
      modifies this
      ensures Contents() == Step(old(Contents()), StartTracking(u))
    {
      if u !in status || status[u] == NotTracked {
        status := status[u := Pending];
        since := since[u := clock];
      }
      clock := clock + 1;
    }

    method StopTrackingDeviceList(u: User)
      modifies this
      ensures Contents() == Step(old(Contents()), StopTracking(u))
    {
      if u in status && status[u] != NotTracked {
        status := status[u := NotTracked];
      }
      clock := clock + 1;
    }

    method StopTrackingAllDeviceLists()
      modifies this
      ensures Contents() == Step(old(Contents()), StopTrackingAll)
    {
      var todo, before := status.Keys, status;
      while todo != {}
        invariant todo <= before.Keys == status.Keys
        invariant forall u :: u in before ==> status[u] == if u in todo then before[u] else NotTracked
        invariant Contents() == old(Contents()).(tracker := old(Tracking()).(status := status))
        decreases todo
      {
        var u :| u in todo;
        todo := todo - {u};
        status := status[u := NotTracked];
      }
      clock := clock + 1;
    }

    method InvalidateUserDeviceList(u: User)
      modifies this
      ensures Contents() == Step(old(Contents()), Invalidate(u))
    {
      if u in status && status[u] != NotTracked {
        status := status[u := Pending];
        since := since[u := clock];
      }
      clock := clock + 1;
    }

    method RefreshOutdatedDeviceLists()
      modifies this, serialiser
      ensures Contents() == Step(old(Contents()), Refresh)
    {
      var usersToDownload: seq<User> := [];
      var todo := status.Keys;
      while todo != {}
        invariant todo <= status.Keys
        invariant SetOf(usersToDownload) == PendingUsers(Tracking()) - todo
        invariant Contents() == old(Contents())
        decreases todo
      {
        var u :| u in todo;
        todo := todo - {u};
        if status[u] == Pending {
          assert SetOf(usersToDownload + [u]) == SetOf(usersToDownload) + {u};
          usersToDownload := usersToDownload + [u];
        }
      }
      assert SetOf(usersToDownload) == PendingUsers(Tracking());
      var _ := DoKeyDownload(usersToDownload);
      clock := clock + 1;
    }

    method DownloadKeys(userIds: seq<User>, forceDownload: bool) returns (promises: set<DownloadId>)
      modifies this, serialiser
      ensures Contents() == Step(old(Contents()), Action.DownloadKeys(SetOf(userIds), forceDownload))
      ensures promises == Awaited(old(Tracking()), SetOf(userIds), forceDownload)
    {
      AwaitedIs(Tracking(), SetOf(userIds), forceDownload);
      var usersToDownload;
      usersToDownload, promises := ChooseDownloads(userIds, forceDownload);
      if |usersToDownload| != 0 {
        assert usersToDownload[0] in SetOf(usersToDownload);
        var downloadPromise := DoKeyDownload(usersToDownload);
        promises := promises + {downloadPromise.value};
      }
      clock := clock + 1;
    }

    /** The loop of `downloadKeys`. */
    method ChooseDownloads(userIds: seq<User>, forceDownload: bool)
      returns (usersToDownload: seq<User>, promises: set<DownloadId>)
      ensures SetOf(usersToDownload) == UsersToDownload(Tracking(), SetOf(userIds), forceDownload)
      ensures promises == Joined(current, SetOf(userIds))
    {
      usersToDownload, promises := [], {};
      for i := 0 to |userIds|
        invariant SetOf(usersToDownload) == UsersToDownload(Tracking(), SetOf(userIds[..i]), forceDownload)
        invariant promises == Joined(current, SetOf(userIds[..i]))
      {
        var u := userIds[i];
        assert SetOf(userIds[..i + 1]) == SetOf(userIds[..i]) + {u};
        OneMoreUser(Tracking(), SetOf(userIds[..i]), forceDownload, u);
        if u in current {
          promises := promises + {current[u]};
        } else if forceDownload || u !in status || status[u] != UpToDate {
          assert SetOf(usersToDownload + [u]) == SetOf(usersToDownload) + {u};
          usersToDownload := usersToDownload + [u];
        }
      }
      assert userIds[..|userIds|] == userIds;
    }

    /** There is nothing to wait for if there are no users. */
    method DoKeyDownload(users: seq<User>) returns (promise: Option<DownloadId>)
      modifies this`status, this`current, this`downloads, this`nextDownload, serialiser
      ensures Contents() == DeviceProtocol.DoKeyDownload(old(Contents()), SetOf(users))
      ensures promise == if |users| == 0 then None else Some(old(nextDownload))
    {
      if |users| == 0 {
        return None;
      }
      assert users[0] in SetOf(users);
      var batch := serialiser.UpdateDevicesForUsers(users, clock);
      var prom := nextDownload;
      downloads := downloads[prom := Download(SetOf(users), batch)];
      nextDownload := nextDownload + 1;
      MarkInProgress(users, prom);
      promise := Some(prom);
    }

    /** The loop of `_doKeyDownload` that records the promise for each user. */
    method MarkInProgress(users: seq<User>, prom: DownloadId)
      modifies this`status, this`current
      ensures current == old(current) + map u | u in SetOf(users) :: prom
      ensures status == map u | u in old(status) ::
                          if u in SetOf(users) && old(status)[u] == Pending then InProgress else old(status)[u]
    {
      for i := 0 to |users|
        invariant status.Keys == old(status).Keys
        invariant forall u :: u in status ==>
                    status[u] == if u in SetOf(users[..i]) && old(status)[u] == Pending then InProgress else old(status)[u]
        invariant current == old(current) + map u | u in SetOf(users[..i]) :: prom
      {
        var u := users[i];
        assert SetOf(users[..i + 1]) == SetOf(users[..i]) + {u};
        current := current[u := prom];
        if u in status && status[u] == Pending {
          status := status[u := InProgress];
        }
      }
      assert users[..|users|] == users;
    }

    /** The rest of `_doQueuedQueries`: its steps when the server has answered. */
    method OnUserProcessed(batch: BatchId, user: User)
      requires Enabled(Contents(), StoreResult(batch, user))
      modifies this, serialiser
      ensures Contents() == Step(old(Contents()), StoreResult(batch, user))
    {
      serialiser.ProcessUser(batch, user);
      clock := clock + 1;
    }

    method OnCompleted(batch: BatchId)
      requires Enabled(Contents(), Complete(batch))
      modifies this, serialiser
      ensures Contents() == Step(old(Contents()), Complete(batch))
    {
      serialiser.Settled(batch, true, clock);
      clock := clock + 1;
    }

    method OnFailed(batch: BatchId)
      requires Enabled(Contents(), Fail(batch))
      modifies this, serialiser
      ensures Contents() == Step(old(Contents()), Fail(batch))
    {
      serialiser.Settled(batch, false, clock);
      clock := clock + 1;
    }

    /** The callback `finished` of a download whose promise is settled. */
    method OnFinished(prom: DownloadId)
      requires Enabled(Contents(), Finished(prom))
      modifies this
      ensures Contents() == Step(old(Contents()), Finished(prom))
    {
      var success := serialiser.outcome[downloads[prom].batch];
      Release(prom, downloads[prom].users, success);
      downloads := downloads - {prom};
      clock := clock + 1;
    }

    /** The loop of `finished`: users for whom another download has been recorded are left alone. */
    method Release(prom: DownloadId, users: set<User>, success: bool)
      modifies this`status, this`current
      ensures var mine := set u | u in users && u in old(current) && old(current)[u] == prom;
              current == old(current) - mine &&
              status == map u | u in old(status) ::
                          if u in mine && old(status)[u] == InProgress
                          then (if success then UpToDate else Pending) else old(status)[u]
    {
      var todo := users;
      ghost var mine := set u | u in users && u in current && current[u] == prom;
      while todo != {}
        invariant todo <= users
        invariant current == old(current) - (mine - todo)
        invariant status.Keys == old(status).Keys
        invariant forall u :: u in status ==>
                    status[u] == if u in mine - todo && old(status)[u] == InProgress
                                 then (if success then UpToDate else Pending) else old(status)[u]
        decreases todo
      {
        var u :| u in todo;
        todo := todo - {u};
        if u in current && current[u] == prom {
          current := current - {u};
          if u in status && status[u] == InProgress {
            status := status[u := if success then UpToDate else Pending];
          }
        }
      }
    }
  }
}
