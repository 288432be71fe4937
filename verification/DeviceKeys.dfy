/** The device keys that src/crypto/DeviceList.js stores: the index from identity keys to users, and
    the checks under which a key query may change what is stored for a device. */
module DeviceKeys {
  import opened Common

  type User(==, !new, 0)
  type DeviceId(==, !new, 0)
  type Key(==, !new, 0)
  type Json(==, !new, 0)

  datatype KeyName = Curve25519(device: DeviceId) | Ed25519(device: DeviceId) | OtherKey(name: string)
  type Keys = map<KeyName, Key>

  datatype Verification = Verified | Unverified | Blocked

  /** A device as it is stored, under its id. */
  datatype Stored = Stored(
    algorithms: Option<Json>,
    keys: Keys,
    verified: Verification,
    known: bool,
    unsigned: Option<Json>,
    signatures: Option<Json>)

  type Devices = map<DeviceId, Stored>

  function KeyAt(keys: Keys, name: KeyName): Option<Key> {
    if name in keys then Some(keys[name]) else None
  }

  // ---------- the index of identity keys ----------

  /** The property names under which a user's devices are indexed; a device without an identity key is
      indexed under the name `undefined`, here `None`. */
  function IdentityKeys(devices: Devices): set<Option<Key>> {
    set d | d in devices :: KeyAt(devices[d].keys, Curve25519(d))
  }

  type Index = map<Option<Key>, User>

  datatype Store = Store(devices: map<User, Devices>, index: Index)

  function DevicesOf(s: Store, u: User): Devices {
    if u in s.devices then s.devices[u] else map[]
  }

  /** The index with all the keys of a set assigned to one user. */
  function WithKeys(index: Index, keys: set<Option<Key>>, u: User): Index {
    index + map k | k in keys :: u
  }

  /** `storeDevicesForUser` and `_setRawStoredDevicesForUser` */
  function Replace(s: Store, u: User, devices: Devices): Store {
    Store(s.devices[u := devices],
          WithKeys(s.index - IdentityKeys(DevicesOf(s, u)), IdentityKeys(devices), u))
  }

  /** Every entry names a user who owns a device with that key. */
  ghost predicate Sound(s: Store) {
    forall k :: k in s.index ==> k in IdentityKeys(DevicesOf(s, s.index[k]))
  }

  /** Every key of a device has an entry. */
  ghost predicate Complete(s: Store) {
    forall u, k :: u in s.devices && k in IdentityKeys(s.devices[u]) ==> k in s.index
  }

  /** An index as `load` builds it: the defined keys, each with one of its owners. */
  ghost predicate IsLoaded(devices: map<User, Devices>, index: Index) {
    forall k :: k in index <==> k.Some? && IsOwned(devices, k)
  }

  ghost predicate IsOwned(devices: map<User, Devices>, k: Option<Key>) {
    exists u :: u in devices && k in IdentityKeys(devices[u])
  }

  ghost predicate Owners(devices: map<User, Devices>, index: Index) {
    forall k :: k in index ==> index[k] in devices && k in IdentityKeys(devices[index[k]])
  }

  /** Every device has an identity key, and no two users share one. */
  ghost predicate Separate(devices: map<User, Devices>) {
    && (forall u :: u in devices ==> None !in IdentityKeys(devices[u]))
    && (forall u, v, k :: u in devices && v in devices && k in IdentityKeys(devices[u]) && k in IdentityKeys(devices[v])
          ==> u == v)
  }

  lemma ReplaceSound(s: Store, u: User, devices: Devices)
    requires Sound(s)
    ensures Sound(Replace(s, u, devices))
  {
    var t := Replace(s, u, devices);
    forall k | k in t.index
      ensures k in IdentityKeys(DevicesOf(t, t.index[k]))
    {
      if k !in IdentityKeys(devices) {
        assert s.index[k] == t.index[k];
        assert s.index[k] != u;
      }
    }
  }

  /** Replacing a user's devices keeps the index complete, if and only if no other user has a key that
      this user had and no longer has. */
  lemma ReplaceComplete(s: Store, u: User, devices: Devices)
    requires Complete(s)
    ensures Complete(Replace(s, u, devices)) <==>
            forall v, k :: v in s.devices && v != u && k in IdentityKeys(s.devices[v]) && k in IdentityKeys(DevicesOf(s, u))
              ==> k in IdentityKeys(devices)
  {
    var t := Replace(s, u, devices);
    forall v, k | v in s.devices && v != u && k in IdentityKeys(s.devices[v])
      ensures k in t.index <==> (k in IdentityKeys(DevicesOf(s, u)) ==> k in IdentityKeys(devices))
    {
    }
    if Complete(t) {
      forall v, k | v in s.devices && v != u && k in IdentityKeys(s.devices[v]) && k in IdentityKeys(DevicesOf(s, u))
        ensures k in IdentityKeys(devices)
      {
        assert v in t.devices && t.devices[v] == s.devices[v];
      }
    }
  }

  lemma SeparateStaysComplete(s: Store, u: User, devices: Devices)
    requires Complete(s) && Separate(s.devices)
    ensures Complete(Replace(s, u, devices))
  {
    ReplaceComplete(s, u, devices);
  }

  datatype Update = Update(user: User, devices: Devices)

  function RunUpdates(s: Store, updates: seq<Update>): Store {
    if updates == [] then s else
      var last := updates[|updates| - 1];
      Replace(RunUpdates(s, updates[..|updates| - 1]), last.user, last.devices)
  }

  /** Users' keys are separate throughout a run. */
  ghost predicate StaysSeparate(s: Store, updates: seq<Update>) {
    forall i :: 0 <= i <= |updates| ==> Separate(RunUpdates(s, updates[..i]).devices)
  }

  /** Over any run of replacements every entry is right. */
  lemma {:induction false} RunSound(s: Store, updates: seq<Update>)
    requires Sound(s)
    ensures Sound(RunUpdates(s, updates))
  {
    if updates != [] {
      var last, before := updates[|updates| - 1], updates[..|updates| - 1];
      RunSound(s, before);
      ReplaceSound(RunUpdates(s, before), last.user, last.devices);
    }
  }

  /** Over any run in which users' keys stay separate, the index is complete too. */
  lemma {:induction false} RunComplete(s: Store, updates: seq<Update>)
    requires Sound(s) && Complete(s)
    requires StaysSeparate(s, updates)
    ensures Complete(RunUpdates(s, updates))
  {
    if updates != [] {
      var n := |updates| - 1;
      var last, before := updates[n], updates[..n];
      assert Separate(RunUpdates(s, updates[..n]).devices);
      forall i | 0 <= i <= n ensures Separate(RunUpdates(s, before[..i]).devices) {
        assert before[..i] == updates[..i];
      }
      RunComplete(s, before);
      SeparateStaysComplete(RunUpdates(s, before), last.user, last.devices);
    }
  }

  /** A sound and complete index is the one that `load` would build from the same devices. */
  lemma LoadedIsUnique(s: Store, index: Index)
    requires Sound(s) && Complete(s) && Separate(s.devices)
    requires IsLoaded(s.devices, index) && Owners(s.devices, index)
    ensures index == s.index
  {
    forall k
      ensures k in index <==> k in s.index
      ensures k in index ==> index[k] == s.index[k]
    {
      if k in s.index {
        assert k in IdentityKeys(DevicesOf(s, s.index[k]));
      }
    }
  }

  /** Over any run in which users' keys stay separate, the index equals the one `load` rebuilds from
      scratch. */
  lemma {:induction false} RunIsLoaded(s: Store, updates: seq<Update>, index: Index)
    requires Sound(s) && Complete(s)
    requires StaysSeparate(s, updates)
    requires IsLoaded(RunUpdates(s, updates).devices, index) && Owners(RunUpdates(s, updates).devices, index)
    ensures index == RunUpdates(s, updates).index
  {
    RunSound(s, updates);
    RunComplete(s, updates);
    assert updates[..|updates|] == updates;
    LoadedIsUnique(RunUpdates(s, updates), index);
  }

  /** What `load` builds is sound, and complete if every device has an identity key. */
  lemma LoadedOk(devices: map<User, Devices>, index: Index)
    requires IsLoaded(devices, index) && Owners(devices, index)
    ensures Sound(Store(devices, index))
    ensures Separate(devices) ==> Complete(Store(devices, index))
  {
    if Separate(devices) {
      forall u, k | u in devices && k in IdentityKeys(devices[u]) ensures k in index {
        assert IsOwned(devices, k);
      }
    }
  }

  /** From `load` on: over any run of replacements every entry of the index names an owner of the key; and
      if users' keys stay separate throughout, the index is the one that `load` would build again. */
  lemma FromLoad(devices: map<User, Devices>, index: Index, updates: seq<Update>, again: Index)
    requires IsLoaded(devices, index) && Owners(devices, index)
    ensures Sound(RunUpdates(Store(devices, index), updates))
    ensures var t := RunUpdates(Store(devices, index), updates);
            StaysSeparate(Store(devices, index), updates) && IsLoaded(t.devices, again) && Owners(t.devices, again) ==>
              again == t.index
  {
    var s := Store(devices, index);
    LoadedOk(devices, index);
    RunSound(s, updates);
    if StaysSeparate(s, updates) && IsLoaded(RunUpdates(s, updates).devices, again) &&
       Owners(RunUpdates(s, updates).devices, again)
    {
      assert updates[..0] == [];
      assert Separate(RunUpdates(s, updates[..0]).devices);
      RunIsLoaded(s, updates, again);
    }
  }

  // ---------- what a key query may change ----------

  /** One device of a /keys/query response. */
  datatype DeviceResult = DeviceResult(
    userId: Option<User>,
    deviceId: Option<DeviceId>,
    keys: Option<Keys>,
    algorithms: Option<Json>,
    unsigned: Option<Json>,
    signatures: Option<Json>)

  type Response = map<DeviceId, DeviceResult>

  /** Whether a device's object is signed by the given key (`olmlib.verifySignature`). */
  type Verifier = (DeviceResult, User, DeviceId, Key) -> bool

  function Fingerprint(d: Stored, id: DeviceId): Option<Key> {
    KeyAt(d.keys, Ed25519(id))
  }

  /** The conditions under which the result for a device is stored: its ids match, it has a signing key
      that verifies its signature, and a device that is known already has that same signing key. */
  predicate Accepted(verify: Verifier, user: User, id: DeviceId, r: DeviceResult, devices: Devices) {
    && r.userId == Some(user) && r.deviceId == Some(id)
    && r.keys.Some? && Ed25519(id) in r.keys.value
    && verify(r, user, id, r.keys.value[Ed25519(id)])
    && (id in devices ==> Fingerprint(devices[id], id) == Some(r.keys.value[Ed25519(id)]))
  }

  /** What the store holds for an accepted device: the user's own decisions about it are kept. */
  function Merged(id: DeviceId, r: DeviceResult, devices: Devices): Stored
    requires r.keys.Some?
  {
    Stored(r.algorithms, r.keys.value,
           if id in devices then devices[id].verified else Unverified,
           if id in devices then devices[id].known else false,
           r.unsigned, r.signatures)
  }

  /** The devices stored after a response: those of the response that are accepted, or known already. */
  function Updated(verify: Verifier, user: User, devices: Devices, response: Response): Devices {
    map id | id in response.Keys && (Accepted(verify, user, id, response[id], devices) || id in devices) ::
      if Accepted(verify, user, id, response[id], devices) then Merged(id, response[id], devices) else devices[id]
  }

  /** A device that stays is pinned to its signing key and keeps what the user decided about it. */
  lemma Pinned(verify: Verifier, user: User, devices: Devices, response: Response, id: DeviceId)
    requires id in devices && id in Updated(verify, user, devices, response)
    ensures var after := Updated(verify, user, devices, response)[id];
            Fingerprint(after, id) == Fingerprint(devices[id], id) &&
            after.verified == devices[id].verified && after.known == devices[id].known
  {
  }

  /** A device that appears was in the response under its own ids, with a signature by the signing key
      that is stored for it, and nobody has vouched for it yet. */
  lemma NewIsSigned(verify: Verifier, user: User, devices: Devices, response: Response, id: DeviceId)
    requires id !in devices && id in Updated(verify, user, devices, response)
    ensures id in response && response[id].userId == Some(user) && response[id].deviceId == Some(id)
    ensures var after := Updated(verify, user, devices, response)[id];
            Fingerprint(after, id).Some? && verify(response[id], user, id, Fingerprint(after, id).value) &&
            after.verified == Unverified && !after.known
  {
  }

  /** A device that is stored stays if and only if it is in the response, whether or not what the response
      says of it is accepted; and a device that appears was accepted. */
  lemma StaysExactly(verify: Verifier, user: User, devices: Devices, response: Response, id: DeviceId)
    ensures id in devices ==> (id in Updated(verify, user, devices, response) <==> id in response)
    ensures id !in devices ==>
              (id in Updated(verify, user, devices, response) <==>
                 id in response && Accepted(verify, user, id, response[id], devices))
  {
  }

  /** All that is stored for a device after a response. It is dropped if it is not in the response; it takes on
      what the response says, but for the user's decisions, exactly if the ids are right and there is a signing
      key under which the device is signed and which is the one known, if one is; else it stays as it is. */
  lemma StoredExactly(verify: Verifier, user: User, devices: Devices, response: Response, id: DeviceId)
    ensures var after := Lookup(Updated(verify, user, devices, response), id);
            if id !in response then after == None
            else
              var r := response[id];
              if r.userId == Some(user) && r.deviceId == Some(id) && r.keys.Some? &&
                 exists key :: KeyAt(r.keys.value, Ed25519(id)) == Some(key) && verify(r, user, id, key) &&
                               (id in devices ==> KeyAt(devices[id].keys, Ed25519(id)) == Some(key))
              then after == Some(Stored(r.algorithms, r.keys.value,
                                        if id in devices then devices[id].verified else Unverified,
                                        id in devices && devices[id].known, r.unsigned, r.signatures))
              else after == Lookup(devices, id)
  {
    if id in response && response[id].keys.Some? && Ed25519(id) in response[id].keys.value {
      assert KeyAt(response[id].keys.value, Ed25519(id)) == Some(response[id].keys.value[Ed25519(id)]);
    }
  }

  function RunResponses(verify: Verifier, user: User, devices: Devices, responses: seq<Response>): Devices {
    if responses == [] then devices
    else Updated(verify, user, RunResponses(verify, user, devices, responses[..|responses| - 1]), responses[|responses| - 1])
  }

  /** Over any number of responses, a device that is never dropped keeps its fingerprint and what the
      user decided about it. */
  lemma {:induction false} PinnedForever(verify: Verifier, user: User, devices: Devices, responses: seq<Response>, id: DeviceId)
    requires forall i :: 0 <= i <= |responses| ==> id in RunResponses(verify, user, devices, responses[..i])
    ensures id in devices && id in RunResponses(verify, user, devices, responses)
    ensures var after := RunResponses(verify, user, devices, responses)[id];
            Fingerprint(after, id) == Fingerprint(devices[id], id) &&
            after.verified == devices[id].verified && after.known == devices[id].known
  {
    assert responses[..0] == [] && responses[..|responses|] == responses;
    assert id in RunResponses(verify, user, devices, responses[..0]);
    assert id in RunResponses(verify, user, devices, responses[..|responses|]);
    if responses != [] {
      var before := responses[..|responses| - 1];
      assert forall i :: 0 <= i <= |before| ==> before[..i] == responses[..i];
      PinnedForever(verify, user, devices, before, id);
      Pinned(verify, user, RunResponses(verify, user, devices, before), responses[|responses| - 1], id);
    }
  }

  // ---------- decisions while a response is processed ----------

  /** `Crypto.setDeviceVerification`: `None` leaves a status as it is. */
  datatype Decision = Decision(id: DeviceId, verified: Option<bool>, blocked: Option<bool>, known: Option<bool>)

  function Decided(d: Stored, c: Decision): Stored {
    var v :=
      if c.verified == Some(true) then Verified
      else if c.verified.Some? && d.verified == Verified then Unverified
      else d.verified;
    var b :=
      if c.blocked == Some(true) then Blocked
      else if c.blocked.Some? && v == Blocked then Unverified
      else v;
    d.(verified := b, known := if c.known.Some? then c.known.value else d.known)
  }

  /** It throws if the device is unknown. */
  function Decide(devices: Devices, c: Decision): Devices {
    if c.id in devices then devices[c.id := Decided(devices[c.id], c)] else devices
  }

  function DecideAll(devices: Devices, decisions: seq<Decision>): Devices {
    if decisions == [] then devices
    else Decide(DecideAll(devices, decisions[..|decisions| - 1]), decisions[|decisions| - 1])
  }

  /** What a decision says about one device: whether it is blocked, verified and known; `None` is nothing. */
  function SaysBlocked(c: Decision, id: DeviceId): Option<bool> {
    if c.id != id then None
    else if c.blocked.Some? then c.blocked
    else if c.verified == Some(true) then Some(false)
    else None
  }

  function SaysVerified(c: Decision, id: DeviceId): Option<bool> {
    if c.id != id then None
    else if c.blocked == Some(true) then Some(false)
    else c.verified
  }

  function SaysKnown(c: Decision, id: DeviceId): Option<bool> {
    if c.id != id then None else c.known
  }

  function Said(decisions: seq<Decision>, says: (Decision, DeviceId) -> Option<bool>, id: DeviceId): (r: seq<Option<bool>>)
    ensures |r| == |decisions|
  {
    seq(|decisions|, i requires 0 <= i < |decisions| => says(decisions[i], id))
  }

  lemma OneDecision(devices: Devices, c: Decision, id: DeviceId)
    requires id in devices
    ensures var before, after := devices[id], Decide(devices, c)[id];
            (after.verified == Blocked <==> Or(SaysBlocked(c, id), before.verified == Blocked)) &&
            (after.verified == Verified <==> Or(SaysVerified(c, id), before.verified == Verified)) &&
            after.known == Or(SaysKnown(c, id), before.known)
  {
  }

  lemma SaidMore(decisions: seq<Decision>, says: (Decision, DeviceId) -> Option<bool>, id: DeviceId)
    requires decisions != []
    ensures var n := |decisions| - 1;
            Newest(Said(decisions, says, id)) == Newer(Newest(Said(decisions[..n], says, id)), says(decisions[n], id))
  {
    assert Said(decisions, says, id)[..|decisions| - 1] == Said(decisions[..|decisions| - 1], says, id);
  }

  /** After any decisions a device is blocked, verified and known as the newest decision that says something
      about it said, or as it was before. */
  lemma {:induction false} NewestDecision(devices: Devices, decisions: seq<Decision>, id: DeviceId)
    requires id in devices
    ensures id in DecideAll(devices, decisions)
    ensures var before, after := devices[id], DecideAll(devices, decisions)[id];
            (after.verified == Blocked <==> Or(Newest(Said(decisions, SaysBlocked, id)), before.verified == Blocked)) &&
            (after.verified == Verified <==> Or(Newest(Said(decisions, SaysVerified, id)), before.verified == Verified)) &&
            after.known == Or(Newest(Said(decisions, SaysKnown, id)), before.known)
  {
    if decisions != [] {
      var n := |decisions| - 1;
      NewestDecision(devices, decisions[..n], id);
      OneDecision(DecideAll(devices, decisions[..n]), decisions[n], id);
      SaidMore(decisions, SaysBlocked, id);
      SaidMore(decisions, SaysVerified, id);
      SaidMore(decisions, SaysKnown, id);
    }
  }

  /** A response is applied to a copy of the devices, which is written back when all signatures have been
      checked; the user may decide something in between. One response is processed at a time. */
  datatype Step = Copied | Deciding(decision: Decision) | Finished(response: Response)

  datatype Processing = Processing(devices: Devices, copy: Option<Devices>)

  function NextStep(verify: Verifier, user: User, s: Processing, step: Step): Option<Processing> {
    match step
    case Copied => if s.copy.None? then Some(s.(copy := Some(s.devices))) else None
    case Deciding(c) => Some(s.(devices := Decide(s.devices, c)))
    case Finished(response) =>
      if s.copy.Some? then Some(Processing(Updated(verify, user, s.copy.value, response), None)) else None
  }

  function RunSteps(verify: Verifier, user: User, devices: Devices, steps: seq<Step>): Option<Processing> {
    if steps == [] then Some(Processing(devices, None)) else
      var before := RunSteps(verify, user, devices, steps[..|steps| - 1]);
      if before.Some? then NextStep(verify, user, before.value, steps[|steps| - 1]) else None
  }

  /** Where the last copy was made. */
  function LastCopy(steps: seq<Step>): (n: nat)
    ensures n <= |steps| && (steps != [] ==> n < |steps|)
  {
    if steps == [] then 0
    else if steps[|steps| - 1].Copied? then |steps| - 1
    else LastCopy(steps[..|steps| - 1])
  }

  /** The decisions that are not lost: when a response is written back, those are that had been made
      before its copy. */
  function Kept(steps: seq<Step>): seq<Decision>
    decreases |steps|
  {
    if steps == [] then [] else
      match steps[|steps| - 1]
      case Copied => Kept(steps[..|steps| - 1])
      case Deciding(c) => Kept(steps[..|steps| - 1]) + [c]
      case Finished(_) => Kept(steps[..LastCopy(steps)])
  }

  lemma {:induction false} CopyIsOlder(verify: Verifier, user: User, devices: Devices, steps: seq<Step>)
    requires RunSteps(verify, user, devices, steps).Some? && RunSteps(verify, user, devices, steps).value.copy.Some?
    ensures var s := RunSteps(verify, user, devices, steps[..LastCopy(steps)]);
            s.Some? && RunSteps(verify, user, devices, steps).value.copy == Some(s.value.devices)
  {
    var before := steps[..|steps| - 1];
    if !steps[|steps| - 1].Copied? {
      CopyIsOlder(verify, user, devices, before);
      assert before[..LastCopy(before)] == steps[..LastCopy(steps)];
    }
  }

  predicate SameTrust(a: Stored, b: Stored) {
    a.verified == b.verified && a.known == b.known
  }

  /** A device is still pinned to its signing key, and is stored with what some decisions make of it. */
  ghost predicate IsPinned(devices: Devices, decisions: seq<Decision>, after: Devices, id: DeviceId) {
    && id in devices && id in after && id in DecideAll(devices, decisions)
    && Fingerprint(after[id], id) == Fingerprint(devices[id], id)
    && SameTrust(after[id], DecideAll(devices, decisions)[id])
  }

  lemma DecidingPins(devices: Devices, decisions: seq<Decision>, after: Devices, c: Decision, id: DeviceId)
    requires IsPinned(devices, decisions, after, id)
    ensures IsPinned(devices, decisions + [c], Decide(after, c), id)
  {
    assert (decisions + [c])[..|decisions|] == decisions;
  }

  ghost predicate NeverDropped(verify: Verifier, user: User, devices: Devices, steps: seq<Step>, id: DeviceId) {
    forall i :: 0 <= i <= |steps| && RunSteps(verify, user, devices, steps[..i]).Some? ==>
      id in RunSteps(verify, user, devices, steps[..i]).value.devices
  }

  lemma NotDroppedBefore(verify: Verifier, user: User, devices: Devices, steps: seq<Step>, id: DeviceId, n: nat)
    requires NeverDropped(verify, user, devices, steps, id) && n <= |steps|
    ensures NeverDropped(verify, user, devices, steps[..n], id)
    ensures RunSteps(verify, user, devices, steps).Some? ==> id in RunSteps(verify, user, devices, steps).value.devices
  {
    assert steps[..|steps|] == steps;
    assert forall i :: 0 <= i <= n ==> steps[..n][..i] == steps[..i];
  }

  /** Over any number of responses, with decisions at any time: a device that is never dropped stays pinned
      to its signing key; and what is stored about it is what the decisions make of it that are not lost. */
  lemma {:induction false} PinnedWhileDeciding(verify: Verifier, user: User, devices: Devices, steps: seq<Step>, id: DeviceId)
    requires RunSteps(verify, user, devices, steps).Some? && NeverDropped(verify, user, devices, steps, id)
    ensures IsPinned(devices, Kept(steps), RunSteps(verify, user, devices, steps).value.devices, id)
    decreases |steps|
  {
    NotDroppedBefore(verify, user, devices, steps, id, |steps|);
    if steps != [] {
      var before, last := steps[..|steps| - 1], steps[|steps| - 1];
      var s := RunSteps(verify, user, devices, before).value;
      if last.Finished? {
        CopyIsOlder(verify, user, devices, before);
        assert before[..LastCopy(before)] == steps[..LastCopy(steps)];
        NotDroppedBefore(verify, user, devices, steps, id, LastCopy(steps));
        PinnedWhileDeciding(verify, user, devices, steps[..LastCopy(steps)], id);
        Pinned(verify, user, s.copy.value, last.response, id);
      } else {
        NotDroppedBefore(verify, user, devices, steps, id, |steps| - 1);
        PinnedWhileDeciding(verify, user, devices, before, id);
        if last.Deciding? {
          DecidingPins(devices, Kept(before), s.devices, last.decision, id);
        }
      }
    }
  }

  /** Such a loss: what the user decides between the copy and the writing back. */
  lemma DecisionLost(verify: Verifier, user: User, devices: Devices, c: Decision, response: Response)
    requires c.id in devices && c.id in response
    ensures var steps := [Copied, Deciding(c), Finished(response)];
            var s := RunSteps(verify, user, devices, steps);
            Kept(steps) == [] && s.Some? && c.id in s.value.devices && SameTrust(s.value.devices[c.id], devices[c.id])
  {
    var steps := [Copied, Deciding(c), Finished(response)];
    assert steps[..2] == [Copied, Deciding(c)] && [Copied, Deciding(c)][..1] == [Copied] && [Copied][..0] == [];
    assert RunSteps(verify, user, devices, [Copied]) == Some(Processing(devices, Some(devices)));
    assert RunSteps(verify, user, devices, [Copied, Deciding(c)]) == Some(Processing(Decide(devices, c), Some(devices)));
    assert LastCopy([Copied, Deciding(c)]) == 0 && steps[..LastCopy(steps)] == [];
  }

  // ---------- the code ----------

  /** A device while a response is processed; `fromStorage` and `toStorage` convert. */
  datatype DeviceInfo = DeviceInfo(deviceId: DeviceId, stored: Stored)

  function FromStorage(obj: Stored, deviceId: DeviceId): DeviceInfo {
    DeviceInfo(deviceId, obj)
  }

  function ToStorage(d: DeviceInfo): Stored {
    d.stored
  }

  class DeviceStore {
    var devices: map<User, Devices>
    var userByIdentityKey: Index

    ghost function Contents(): Store
      reads this
    {
      Store(devices, userByIdentityKey)
    }

    /** `load` */
    constructor (devices: map<User, Devices>)
      ensures this.devices == devices
      ensures IsLoaded(devices, userByIdentityKey) && Owners(devices, userByIdentityKey)
    {
      this.devices := devices;
      var index := BuildIndex(devices);
      userByIdentityKey := index;
    }

    method SetRawStoredDevicesForUser(u: User, devs: Devices)
      modifies this
      ensures Contents() == Replace(old(Contents()), u, devs)
    {
      var index := userByIdentityKey;
      if u in devices {
        index := Unindex(index, devices[u]);
      }
      assert index == userByIdentityKey - IdentityKeys(DevicesOf(Contents(), u));
      devices := devices[u := devs];
      index := AddToIndex(index, u, devs);
      userByIdentityKey := index;
    }

    /** The device half of `_processQueryResponseForUser`, up to the first signature that is checked. */
    method CopyDevices(u: User) returns (userStore: UserStore)
      ensures Listed(userStore) && AsStored(userStore) == DevicesOf(Contents(), u)
    {
      var devs := if u in devices then devices[u] else map[];
      userStore := map d | d in devs :: FromStorage(devs[d], d);
      assert AsStored(userStore) == devs;
    }

    /** And from then on: the copy is updated and replaces what is stored by now. */
    method FinishQueryResponse(verify: Verifier, u: User, copy: UserStore, response: Response)
      requires Listed(copy)
      modifies this
      ensures Contents() == Replace(old(Contents()), u, Updated(verify, u, AsStored(copy), response))
    {
      var userStore := UpdateStoredDeviceKeysForUser(verify, u, copy, response);
      var storage := map d | d in userStore :: ToStorage(userStore[d]);
      assert storage == AsStored(userStore);
      SetRawStoredDevicesForUser(u, storage);
    }

    /** Both, if nothing else happens while signatures are checked. */
    method ProcessQueryResponseForUser(verify: Verifier, u: User, response: Response)
      modifies this
      ensures Contents() ==
              Replace(old(Contents()), u, Updated(verify, u, DevicesOf(old(Contents()), u), response))
    {
      var copy := CopyDevices(u);
      FinishQueryResponse(verify, u, copy, response);
    }

    /** The store's part of `Crypto.setDeviceVerification`. */
    method SetDeviceVerification(u: User, decision: Decision) returns (r: Result<()>)
      modifies this
      ensures r.Throws? <==> decision.id !in DevicesOf(old(Contents()), u)
      ensures devices == if r.Throws? then old(devices) else old(devices)[u := Decide(old(devices)[u], decision)]
      ensures r.Ok? && devices == old(devices) ==> Contents() == old(Contents())
      ensures r.Ok? && devices != old(devices) ==> Contents() == Replace(old(Contents()), u, devices[u])
      ensures r.Throws? ==> Contents() == old(Contents())
    {
      if u !in devices || decision.id !in devices[u] {
        return Throws;
      }
      var dev := devices[u][decision.id];
      var verificationStatus := dev.verified;
      if decision.verified == Some(true) {
        verificationStatus := Verified;
      } else if decision.verified.Some? && verificationStatus == Verified {
        verificationStatus := Unverified;
      }
      if decision.blocked == Some(true) {
        verificationStatus := Blocked;
      } else if decision.blocked.Some? && verificationStatus == Blocked {
        verificationStatus := Unverified;
      }
      var knownStatus := if decision.known.Some? then decision.known.value else dev.known;
      if dev.verified != verificationStatus || dev.known != knownStatus {
        var devs := devices[u][decision.id := dev.(verified := verificationStatus, known := knownStatus)];
        assert devs == Decide(devices[u], decision);
        assert devs[decision.id] != devices[u][decision.id];
        SetRawStoredDevicesForUser(u, devs);
      } else {
        assert Decide(devices[u], decision) == devices[u];
      }
      r := Ok(());
    }
  }

  /** The loops of `load`. */
  method BuildIndex(devices: map<User, Devices>) returns (index: Index)
    ensures IsLoaded(devices, index) && Owners(devices, index)
  {
    index := map[];
    var users := devices.Keys;
    while users != {}
      invariant users <= devices.Keys
      invariant IsLoaded(devices - users, index) && Owners(devices, index)
      decreases users
    {
      var u :| u in users;
      ghost var before := index;
      index := IndexUser(index, u, devices[u]);
      OneMoreUser(devices, users, u, before);
      users := users - {u};
    }
    assert devices - users == devices;
  }

  lemma OneMoreUser(devices: map<User, Devices>, users: set<User>, u: User, index: Index)
    requires users <= devices.Keys && u in users
    requires IsLoaded(devices - users, index) && Owners(devices, index)
    ensures IsLoaded(devices - (users - {u}), WithKeys(index, IdentityKeys(devices[u]) - {None}, u))
    ensures Owners(devices, WithKeys(index, IdentityKeys(devices[u]) - {None}, u))
  {
    var before, after := devices - users, devices - (users - {u});
    assert after == before[u := devices[u]];
    forall k ensures IsOwned(after, k) <==> IsOwned(before, k) || k in IdentityKeys(devices[u]) {
      OneMoreOwner(before, u, devices[u], k);
    }
  }

  lemma OneMoreOwner(before: map<User, Devices>, u: User, added: Devices, k: Option<Key>)
    requires u !in before
    ensures IsOwned(before[u := added], k) <==> IsOwned(before, k) || k in IdentityKeys(added)
  {
    var after := before[u := added];
    if k in IdentityKeys(added) {
      assert u in after && k in IdentityKeys(after[u]);
    } else if IsOwned(before, k) {
      var v :| v in before && k in IdentityKeys(before[v]);
      assert v in after && k in IdentityKeys(after[v]);
    }
  }

  /** Visiting one more device. */
  lemma OneMoreDevice(devices: Devices, todo: set<DeviceId>, d: DeviceId)
    requires d in devices && d in todo
    ensures IdentityKeys(devices - (todo - {d})) ==
            IdentityKeys(devices - todo) + {KeyAt(devices[d].keys, Curve25519(d))}
  {
    var more, fewer := devices - (todo - {d}), devices - todo;
    assert more.Keys == fewer.Keys + {d};
  }

  lemma OneMoreKey(index: Index, keys: set<Option<Key>>, k: Option<Key>, u: User)
    ensures WithKeys(index, keys, u)[k := u] == WithKeys(index, keys + {k}, u)
  {
  }

  method Unindex(start: Index, devices: Devices) returns (index: Index)
    ensures index == start - IdentityKeys(devices)
  {
    index := start;
    var todo := devices.Keys;
    ghost var removed: set<Option<Key>> := {};
    while todo != {}
      invariant todo <= devices.Keys
      invariant removed == IdentityKeys(devices - todo)
      invariant index == start - removed
      decreases todo
    {
      var d :| d in todo;
      OneMoreDevice(devices, todo, d);
      todo := todo - {d};
      index := index - {KeyAt(devices[d].keys, Curve25519(d))};
      removed := removed + {KeyAt(devices[d].keys, Curve25519(d))};
    }
    assert devices - todo == devices;
  }

  method AddToIndex(start: Index, u: User, devices: Devices) returns (index: Index)
    ensures index == WithKeys(start, IdentityKeys(devices), u)
  {
    index := start;
    var todo := devices.Keys;
    ghost var added: set<Option<Key>> := {};
    while todo != {}
      invariant todo <= devices.Keys
      invariant added == IdentityKeys(devices - todo)
      invariant index == WithKeys(start, added, u)
      decreases todo
    {
      var d :| d in todo;
      OneMoreDevice(devices, todo, d);
      todo := todo - {d};
      OneMoreKey(start, added, KeyAt(devices[d].keys, Curve25519(d)), u);
      index := index[KeyAt(devices[d].keys, Curve25519(d)) := u];
      added := added + {KeyAt(devices[d].keys, Curve25519(d))};
    }
    assert devices - todo == devices;
  }

  /** The inner loop of `load`, which skips devices without an identity key. */
  method IndexUser(start: Index, u: User, devices: Devices) returns (index: Index)
    ensures index == WithKeys(start, IdentityKeys(devices) - {None}, u)
  {
    index := start;
    var todo := devices.Keys;
    ghost var added: set<Option<Key>> := {};
    while todo != {}
      invariant todo <= devices.Keys
      invariant added == IdentityKeys(devices - todo) - {None}
      invariant index == WithKeys(start, added, u)
      decreases todo
    {
      var d :| d in todo;
      var idKey := KeyAt(devices[d].keys, Curve25519(d));
      OneMoreDevice(devices, todo, d);
      todo := todo - {d};
      if idKey.Some? {
        OneMoreKey(start, added, idKey, u);
        index := index[idKey := u];
        added := added + {idKey};
      }
    }
    assert devices - todo == devices;
  }

  type UserStore = map<DeviceId, DeviceInfo>

  /** A store in which each device is listed under its own id. */
  predicate Listed(store: UserStore) {
    forall d :: d in store ==> store[d].deviceId == d
  }

  function AsStored(store: UserStore): Devices {
    map d | d in store :: store[d].stored
  }

  method UpdateStoredDeviceKeysForUser(verify: Verifier, u: User, userStore: UserStore, response: Response)
    returns (r: UserStore)
    requires Listed(userStore)
    ensures Listed(r) && AsStored(r) == Updated(verify, u, AsStored(userStore), response)
  {
    r := userStore;
    // first the devices that the response does not list
    var todo := userStore.Keys;
    while todo != {}
      invariant todo <= userStore.Keys
      invariant r == userStore - (userStore.Keys - todo - response.Keys)
      decreases todo
    {
      var d :| d in todo;
      todo := todo - {d};
      if d !in response {
        r := r - {d};
      }
    }
    ghost var kept := r;
    assert kept.Keys == userStore.Keys * response.Keys;
    todo := response.Keys;
    while todo != {}
      invariant todo <= response.Keys
      invariant r.Keys <= response.Keys
      invariant forall d :: d in response ==>
                  if d in todo then (d in r <==> d in kept) && (d in r ==> r[d] == kept[d])
                  else StoredFor(verify, u, d, response, AsStored(userStore), r)
      decreases todo
    {
      var d :| d in todo;
      todo := todo - {d};
      if response[d].userId == Some(u) && response[d].deviceId == Some(d) {
        var changed;
        changed, r := StoreDeviceKeys(verify, u, d, response[d], r);
      }
    }
    StoredForAll(verify, u, response, AsStored(userStore), r);
  }

  /** What the store holds for one device of the response. */
  ghost predicate StoredFor(verify: Verifier, u: User, d: DeviceId, response: Response, before: Devices, r: UserStore)
    requires d in response
  {
    var updated := Updated(verify, u, before, response);
    (d in r <==> d in updated) && (d in r ==> r[d] == DeviceInfo(d, updated[d]))
  }

  lemma StoredForAll(verify: Verifier, u: User, response: Response, before: Devices, r: UserStore)
    requires r.Keys <= response.Keys
    requires forall d :: d in response ==> StoredFor(verify, u, d, response, before, r)
    ensures Listed(r) && AsStored(r) == Updated(verify, u, before, response)
  {
    assert AsStored(r).Keys == Updated(verify, u, before, response).Keys;
  }

  method StoreDeviceKeys(verify: Verifier, u: User, d: DeviceId, result: DeviceResult, userStore: UserStore)
    returns (changed: bool, r: UserStore)
    requires result.userId == Some(u) && result.deviceId == Some(d)
    requires d in userStore ==> userStore[d].deviceId == d
    ensures var devices: Devices := if d in userStore then map[d := userStore[d].stored] else map[];
            changed == Accepted(verify, u, d, result, devices) &&
            r == if changed then userStore[d := DeviceInfo(d, Merged(d, result, devices))] else userStore
  {
    changed, r := false, userStore;
    if result.keys.None? {
      return;
    }
    var signKey := KeyAt(result.keys.value, Ed25519(d));
    if signKey.None? {
      return;
    }
    if !verify(result, u, d, signKey.value) {
      return;
    }
    var device: DeviceInfo;
    if d in userStore {
      device := userStore[d];
      if Fingerprint(device.stored, device.deviceId) != signKey {
        return;
      }
    } else {
      device := DeviceInfo(d, Stored(None, map[], Unverified, false, None, None));
    }
    var stored := device.stored.(keys := result.keys.value, algorithms := result.algorithms,
                                 unsigned := result.unsigned, signatures := result.signatures);
    changed, r := true, userStore[d := DeviceInfo(d, stored)];
  }
}
