/** The keys that src/crypto/CrossSigning.js keeps for a user, and what they say about the user's
    devices. Olm's signatures are uninterpreted functions. */
module CrossSigningModel {
  import opened Common

  type UserId(==, !new, 0)
  type DeviceId(==, !new, 0)
  type PubKey(==, !new, 0)
  type PrivKey(==, !new, 0)
  type Signature(==, !new, 0)
  type Json(==, !new, 0)

  datatype Usage = Master | SelfSigning | UserSigning

  /** What is signed: an object without its signatures. */
  datatype Body =
    | KeyBody(userId: UserId, usage: Usage, key: PubKey, rest: Json)
    | DeviceBody(userId: UserId, deviceId: DeviceId, keys: Json, algorithms: Json)

  type Signatures = map<(UserId, PubKey), Signature>

  /** A public key of a user. Key infos hold a single key. */
  datatype KeyInfo = KeyInfo(userId: UserId, usage: Usage, key: PubKey, rest: Json, signatures: Signatures)

  datatype Device = Device(deviceId: DeviceId, keys: Json, algorithms: Json, signatures: Signatures)

  /** `Olm.PkSigning` and `ed25519_verify`. */
  datatype Crypto = Crypto(
    pub: PrivKey -> PubKey,
    sign: (PrivKey, Body) -> Signature,
    verify: (PubKey, Body, Signature) -> bool)

  /** The one assumption about it: what a private key signs verifies under its public key. */
  ghost predicate Genuine(c: Crypto) {
    forall priv, body :: c.verify(c.pub(priv), body, c.sign(priv, body))
  }

  function BodyOf(k: KeyInfo): Body {
    KeyBody(k.userId, k.usage, k.key, k.rest)
  }

  /** `pkVerify`, true where the source does not throw. */
  predicate PkVerify(c: Crypto, body: Body, signatures: Signatures, key: PubKey, signer: UserId) {
    (signer, key) in signatures && c.verify(key, body, signatures[(signer, key)])
  }

  predicate KeyVerifies(c: Crypto, k: KeyInfo, key: PubKey, signer: UserId) {
    PkVerify(c, BodyOf(k), k.signatures, key, signer)
  }

  /** `pkSign` */
  function PkSign(c: Crypto, k: KeyInfo, priv: PrivKey, signer: UserId, key: PubKey): KeyInfo {
    k.(signatures := k.signatures[(signer, key) := c.sign(priv, BodyOf(k))])
  }

  // ---------- the keys of one user ----------

  datatype Keys = Keys(master: Option<KeyInfo>, selfSigning: Option<KeyInfo>, userSigning: Option<KeyInfo>)

  const NO_KEYS := Keys(None, None, None)

  datatype Info = Info(userId: UserId, keys: Keys, firstUse: bool, crossSigningVerifiedBefore: bool)

  function NewInfo(userId: UserId): Info {
    Info(userId, NO_KEYS, true, false)
  }

  /** `getId` */
  function GetId(k: Option<KeyInfo>): Option<PubKey> {
    if k.Some? then Some(k.value.key) else None
  }

  /** An offered signing key is the user's own and is signed by the master key. */
  predicate GoodKey(c: Crypto, userId: UserId, k: Option<KeyInfo>, master: PubKey) {
    k.Some? ==> k.value.userId == userId && KeyVerifies(c, k.value, master, userId)
  }

  /** The first half of `setKeys`: the master key to check signatures with, and whether it is used for
      the first time. */
  function MasterFor(info: Info, offered: Keys): Option<KeyInfo> {
    if offered.master.Some? then (if offered.master.value.userId == info.userId then offered.master else None)
    else info.keys.master
  }

  function FirstUse(info: Info, offered: Keys): bool {
    if offered.master.None? || offered.master.value.userId != info.userId then info.firstUse
    else if info.keys.master.None? then true
    else if offered.master.value.key != info.keys.master.value.key then false
    else info.firstUse
  }

  predicate Acceptable(c: Crypto, info: Info, offered: Keys) {
    var master := MasterFor(info, offered);
    master.Some? && GoodKey(c, info.userId, offered.userSigning, master.value.key) &&
    GoodKey(c, info.userId, offered.selfSigning, master.value.key)
  }

  /** A new master key makes the old signing keys obsolete. */
  function Merge(keys: Keys, offered: Keys): Keys {
    var base := if offered.master.Some? then Keys(offered.master, None, None) else keys;
    Keys(base.master,
         if offered.selfSigning.Some? then offered.selfSigning else base.selfSigning,
         if offered.userSigning.Some? then offered.userSigning else base.userSigning)
  }

  /** `setKeys`; when it throws, only `firstUse` may have changed. */
  function SetKeys(c: Crypto, info: Info, offered: Keys): Info {
    var seen := info.(firstUse := FirstUse(info, offered));
    if Acceptable(c, info, offered) then seen.(keys := Merge(info.keys, offered)) else seen
  }

  // ---------- resetting keys ----------

  datatype Level = Level(master: bool, userSigning: bool, selfSigning: bool)

  const ALL := Level(true, true, true)

  /** The key types that `resetKeys` resets; no level stands for all. */
  function EffectiveLevel(info: Info, level: Option<Level>): Level {
    if level.None? || level.value.master || info.keys.master.None? then ALL else level.value
  }

  /** Freshly generated seeds. */
  datatype Seeds = Seeds(master: PrivKey, selfSigning: PrivKey, userSigning: PrivKey)

  function NewKey(c: Crypto, userId: UserId, usage: Usage, seed: PrivKey, blank: Json): KeyInfo {
    KeyInfo(userId, usage, c.pub(seed), blank, map[])
  }

  function SignedKey(c: Crypto, userId: UserId, usage: Usage, seed: PrivKey, master: PrivKey, blank: Json): KeyInfo {
    PkSign(c, NewKey(c, userId, usage, seed, blank), master, userId, c.pub(master))
  }

  /** The second half of `resetKeys`: new signing keys, signed with a master key, replace the old ones. */
  function FinishReset(c: Crypto, info: Info, level: Level, seeds: Seeds, master: PrivKey, blank: Json): Info {
    info.(keys := Keys(
      if level.master then Some(NewKey(c, info.userId, Master, seeds.master, blank)) else info.keys.master,
      if level.selfSigning then Some(SignedKey(c, info.userId, SelfSigning, seeds.selfSigning, master, blank))
      else info.keys.selfSigning,
      if level.userSigning then Some(SignedKey(c, info.userId, UserSigning, seeds.userSigning, master, blank))
      else info.keys.userSigning))
  }

  /** The app's callbacks: whether it can save and whether it can be asked for private keys; and what
      the cache and the app answer when they are asked for one. */
  datatype App = App(canSave: bool, canAsk: bool, cached: Option<PrivKey>, answer: Option<PrivKey>)

  /** `getCrossSigningKey("master")`: the key from the cache or else from the app, if it is the right one.
      It throws without even looking at the cache if the app cannot be asked. */
  function PrivateKeyFor(c: Crypto, expected: PubKey, app: App): Option<PrivKey> {
    if !app.canAsk then None
    else if app.cached.Some? && c.pub(app.cached.value) == expected then app.cached
    else if app.answer.Some? && c.pub(app.answer.value) == expected then app.answer
    else None
  }

  /** `resetKeys` when nothing else happens while the private key is fetched. */
  function ResetKeys(c: Crypto, info: Info, level: Option<Level>, seeds: Seeds, app: App, blank: Json): Info {
    var l := EffectiveLevel(info, level);
    if !app.canSave then info
    else if l.master then FinishReset(c, info, l, seeds, seeds.master, blank)
    else if !l.selfSigning && !l.userSigning then info
    else
      var priv := PrivateKeyFor(c, info.keys.master.value.key, app);
      if priv.None? then info else FinishReset(c, info, l, seeds, priv.value, blank)
  }

  // ---------- trust ----------

  datatype UserTrustLevel = UserTrustLevel(crossSigningVerified: bool, verifiedBefore: bool, tofu: bool)

  datatype DeviceTrustLevel = DeviceTrustLevel(crossSigningVerified: bool, tofu: bool, localVerified: bool,
                                               trustCrossSigned: bool)
  {
    predicate IsVerified() {
      localVerified || (trustCrossSigned && crossSigningVerified)
    }
  }

  predicate SameIdentity(own: Info, their: Info) {
    && own.userId == their.userId
    && own.keys.master.Some? && GetId(own.keys.master) == GetId(their.keys.master)
    && own.keys.selfSigning.Some? && GetId(own.keys.selfSigning) == GetId(their.keys.selfSigning)
  }

  /** `checkUserTrust` */
  function CheckUserTrust(c: Crypto, own: Info, their: Info): UserTrustLevel {
    if SameIdentity(own, their) then UserTrustLevel(true, true, own.firstUse)
    else if own.keys.userSigning.None? then UserTrustLevel(false, false, their.firstUse)
    else UserTrustLevel(
      their.keys.master.Some? && KeyVerifies(c, their.keys.master.value, own.keys.userSigning.value.key, own.userId),
      their.crossSigningVerifiedBefore, their.firstUse)
  }

  function DeviceObject(device: Device, userId: UserId): Body {
    DeviceBody(userId, device.deviceId, device.keys, device.algorithms)
  }

  /** `checkDeviceTrust` */
  function CheckDeviceTrust(c: Crypto, own: Info, their: Info, device: Device, local: bool, trustCrossSigned: bool)
    : DeviceTrustLevel
  {
    var user, ssk, none :=
      CheckUserTrust(c, own, their), their.keys.selfSigning, DeviceTrustLevel(false, false, local, trustCrossSigned);
    if ssk.None? || their.keys.master.None? then none
    else if !KeyVerifies(c, ssk.value, their.keys.master.value.key, their.userId) then none
    else if !PkVerify(c, DeviceObject(device, their.userId), device.signatures, ssk.value.key, their.userId) then none
    else DeviceTrustLevel(user.crossSigningVerified, user.tofu, local, trustCrossSigned)
  }

  // ---------- runs ----------

  /** What can happen to the keys of a user. `FinishedReset` is the end of a `resetKeys` for signing keys
      only, which fetched the private key of `masterWas`, the master key when it was called. */
  datatype Action =
    | DoSetKeys(offered: Keys)
    | DoResetKeys(wanted: Option<Level>, seeds: Seeds, app: App, blank: Json)
    | FinishedReset(level: Level, seeds: Seeds, masterWas: PubKey, priv: PrivKey, blank: Json)
    | DoClearKeys
    | UpdateVerifiedBefore(verified: bool)

  predicate Enabled(c: Crypto, a: Action) {
    a.FinishedReset? ==> !a.level.master && (a.level.selfSigning || a.level.userSigning) && c.pub(a.priv) == a.masterWas
  }

  function Step(c: Crypto, info: Info, a: Action): Info {
    match a
    case DoSetKeys(offered) => SetKeys(c, info, offered)
    case DoResetKeys(level, seeds, app, blank) => ResetKeys(c, info, level, seeds, app, blank)
    case FinishedReset(level, seeds, _, priv, blank) => FinishReset(c, info, level, seeds, priv, blank)
    case DoClearKeys => info.(keys := NO_KEYS)
    case UpdateVerifiedBefore(verified) =>
      if !info.crossSigningVerifiedBefore && verified then info.(crossSigningVerifiedBefore := true) else info
  }

  /** The master key is still the one with which a reset began. */
  predicate SameMaster(info: Info, a: Action) {
    a.FinishedReset? ==> GetId(info.keys.master) == Some(a.masterWas)
  }

  function Run(c: Crypto, userId: UserId, actions: seq<Action>): Option<Info> {
    if actions == [] then Some(NewInfo(userId)) else
      var before := Run(c, userId, actions[..|actions| - 1]);
      if before.Some? && Enabled(c, actions[|actions| - 1])
      then Some(Step(c, before.value, actions[|actions| - 1])) else None
  }

  /** A run in which the master key does not change while signing keys are being reset. */
  ghost predicate Undisturbed(c: Crypto, userId: UserId, actions: seq<Action>) {
    actions == [] ||
    (Undisturbed(c, userId, actions[..|actions| - 1]) &&
     (Run(c, userId, actions[..|actions| - 1]).Some? ==>
        SameMaster(Run(c, userId, actions[..|actions| - 1]).value, actions[|actions| - 1])))
  }

  // ---------- the chain of keys ----------

  /** The stored keys are the user's own, and the signing keys verify under the stored master key. */
  ghost predicate Chain(c: Crypto, info: Info) {
    && (info.keys.master.Some? ==> info.keys.master.value.userId == info.userId)
    && (info.keys.selfSigning.Some? || info.keys.userSigning.Some? ==> info.keys.master.Some?)
    && (info.keys.master.Some? ==>
          GoodKey(c, info.userId, info.keys.selfSigning, info.keys.master.value.key) &&
          GoodKey(c, info.userId, info.keys.userSigning, info.keys.master.value.key))
  }

  lemma SignedVerifies(c: Crypto, userId: UserId, usage: Usage, seed: PrivKey, master: PrivKey, blank: Json)
    requires Genuine(c)
    ensures var k := SignedKey(c, userId, usage, seed, master, blank);
            KeyVerifies(c, k, c.pub(master), userId) &&
            forall key :: KeyVerifies(c, k, key, userId) ==> key == c.pub(master)
  {
    var plain := NewKey(c, userId, usage, seed, blank);
    assert BodyOf(PkSign(c, plain, master, userId, c.pub(master))) == BodyOf(plain);
  }

  /** The end of a reset of signing keys keeps the chain, if and only if the master key is still the one
      with which the reset began. */
  lemma ResetKeepsChainExactly(c: Crypto, info: Info, a: Action)
    requires Genuine(c) && Chain(c, info) && a.FinishedReset? && Enabled(c, a)
    ensures Chain(c, Step(c, info, a)) <==> SameMaster(info, a)
  {
    SignedVerifies(c, info.userId, SelfSigning, a.seeds.selfSigning, a.priv, a.blank);
    SignedVerifies(c, info.userId, UserSigning, a.seeds.userSigning, a.priv, a.blank);
  }

  lemma ResetAllHasChain(c: Crypto, info: Info, seeds: Seeds, blank: Json)
    requires Genuine(c)
    ensures Chain(c, FinishReset(c, info, ALL, seeds, seeds.master, blank))
  {
    SignedVerifies(c, info.userId, SelfSigning, seeds.selfSigning, seeds.master, blank);
    SignedVerifies(c, info.userId, UserSigning, seeds.userSigning, seeds.master, blank);
  }

  /** A reset that nothing interrupts keeps the chain. */
  lemma ResetKeysKeeps(c: Crypto, info: Info, level: Option<Level>, seeds: Seeds, app: App, blank: Json)
    requires Genuine(c) && Chain(c, info)
    ensures Chain(c, ResetKeys(c, info, level, seeds, app, blank))
  {
    var l := EffectiveLevel(info, level);
    if !app.canSave {
    } else if l.master {
      ResetAllHasChain(c, info, seeds, blank);
    } else if l.selfSigning || l.userSigning {
      var priv := PrivateKeyFor(c, info.keys.master.value.key, app);
      if priv.Some? {
        ResetKeepsChainExactly(c, info, FinishedReset(l, seeds, info.keys.master.value.key, priv.value, blank));
      }
    }
  }

  /** Over any run, as long as the master key does not change while signing keys are being reset, the
      stored signing keys verify under the stored master key. */
  lemma {:induction false} RunKeepsChain(c: Crypto, userId: UserId, actions: seq<Action>)
    requires Genuine(c) && Run(c, userId, actions).Some? && Undisturbed(c, userId, actions)
    ensures Chain(c, Run(c, userId, actions).value) && Run(c, userId, actions).value.userId == userId
  {
    if actions != [] {
      var n := |actions| - 1;
      RunKeepsChain(c, userId, actions[..n]);
      var info, a := Run(c, userId, actions[..n]).value, actions[n];
      match a
      case DoResetKeys(level, seeds, app, blank) => ResetKeysKeeps(c, info, level, seeds, app, blank);
      case FinishedReset(_, _, _, _, _) => ResetKeepsChainExactly(c, info, a);
      case _ =>
    }
  }

  /** The keys as they would be: offered keys take the place of stored ones, and a new master key leaves none
      of the old ones in place. */
  function WouldBe(stored: Keys, offered: Keys): Keys {
    if offered.master.Some? then offered
    else Keys(stored.master,
              if offered.selfSigning.Some? then offered.selfSigning else stored.selfSigning,
              if offered.userSigning.Some? then offered.userSigning else stored.userSigning)
  }

  /** After any such run, `setKeys` accepts offered keys if and only if there would be a master key and the
      keys would form a chain; and then it stores just these keys. */
  lemma AcceptsExactlyChains(c: Crypto, userId: UserId, actions: seq<Action>, offered: Keys)
    requires Genuine(c) && Run(c, userId, actions).Some? && Undisturbed(c, userId, actions)
    ensures var info := Run(c, userId, actions).value;
            var would := WouldBe(info.keys, offered);
            SetKeys(c, info, offered).keys ==
            if would.master.Some? && Chain(c, info.(keys := would)) then would else info.keys
  {
    RunKeepsChain(c, userId, actions);
  }

  /** The private key of the stored master key is at hand. */
  ghost predicate CanFetch(c: Crypto, info: Info, app: App) {
    app.canAsk && info.keys.master.Some? &&
    exists priv :: (app.cached == Some(priv) || app.answer == Some(priv)) && c.pub(priv) == info.keys.master.value.key
  }

  /** Which keys a reset replaces: all of them if there is no level, if the level has the master key, or if there
      is no master key yet; else those of the level, as far as they can be signed. All others stay. */
  lemma ResetsExactly(c: Crypto, info: Info, level: Option<Level>, seeds: Seeds, app: App, blank: Json)
    ensures var keys := ResetKeys(c, info, level, seeds, app, blank).keys;
            var all := level.None? || level.value.master || info.keys.master.None?;
            if !app.canSave then keys == info.keys
            else if all then
              GetId(keys.master) == Some(c.pub(seeds.master)) &&
              GetId(keys.selfSigning) == Some(c.pub(seeds.selfSigning)) &&
              GetId(keys.userSigning) == Some(c.pub(seeds.userSigning))
            else
              keys.master == info.keys.master &&
              (if level.value.selfSigning && CanFetch(c, info, app)
               then GetId(keys.selfSigning) == Some(c.pub(seeds.selfSigning))
               else keys.selfSigning == info.keys.selfSigning) &&
              (if level.value.userSigning && CanFetch(c, info, app)
               then GetId(keys.userSigning) == Some(c.pub(seeds.userSigning))
               else keys.userSigning == info.keys.userSigning)
  {
    if app.canSave && level.Some? && !level.value.master && info.keys.master.Some? {
      var priv := PrivateKeyFor(c, info.keys.master.value.key, app);
      assert priv.Some? <==> CanFetch(c, info, app);
    }
  }

  /** When `setKeys` throws, the keys are as before. Only `firstUse` may differ, and it does exactly when
      the offered master key is the user's own and changes what was known: it is a first key while
      `firstUse` was off, or another key while `firstUse` was on. */
  lemma ThrowingSetKeys(c: Crypto, info: Info, offered: Keys)
    requires !Acceptable(c, info, offered)
    ensures SetKeys(c, info, offered) == info.(firstUse := SetKeys(c, info, offered).firstUse)
    ensures SetKeys(c, info, offered) != info <==>
              offered.master.Some? && offered.master.value.userId == info.userId &&
              (if info.firstUse then info.keys.master.Some? && info.keys.master.value.key != offered.master.value.key
               else info.keys.master.None?)
  {
  }

  function SetAll(c: Crypto, userId: UserId, offers: seq<Keys>): Info {
    if offers == [] then NewInfo(userId)
    else SetKeys(c, SetAll(c, userId, offers[..|offers| - 1]), offers[|offers| - 1])
  }

  /** The user's own master keys that were offered, accepted or not, from the first accepted one on. */
  function MastersSeen(c: Crypto, userId: UserId, offers: seq<Keys>): seq<KeyInfo> {
    if offers == [] then [] else
      var before, last := MastersSeen(c, userId, offers[..|offers| - 1]), offers[|offers| - 1];
      if last.master.Some? && last.master.value.userId == userId &&
         (before != [] || Acceptable(c, NewInfo(userId), last))
      then before + [last.master.value] else before
  }

  ghost predicate SameKeys(masters: seq<KeyInfo>) {
    forall i, j :: 0 <= i < j < |masters| ==> masters[i].key == masters[j].key
  }

  lemma SameKeysMore(masters: seq<KeyInfo>, k: KeyInfo)
    requires masters != []
    ensures SameKeys(masters + [k]) <==> SameKeys(masters) && masters[|masters| - 1].key == k.key
  {
    var more := masters + [k];
    if SameKeys(more) {
      assert more[|masters| - 1].key == more[|masters|].key;
      assert forall i :: 0 <= i < |masters| ==> more[i] == masters[i];
    }
  }

  /** First use: for a user whose keys are only ever set, and whether or not `setKeys` throws, `firstUse`
      holds if and only if all master keys offered from the first accepted one on are the same key, which is
      then the stored one. A key that is rejected counts from there on, but not before. */
  lemma {:induction false} FirstUseIffOneKey(c: Crypto, userId: UserId, offers: seq<Keys>)
    ensures var info, masters := SetAll(c, userId, offers), MastersSeen(c, userId, offers);
            info.userId == userId &&
            (info.firstUse <==> SameKeys(masters)) &&
            (info.keys.master.None? <==> masters == []) &&
            (info.firstUse && masters != [] ==> info.keys.master.value.key == masters[|masters| - 1].key)
  {
    if offers != [] {
      var before, last := offers[..|offers| - 1], offers[|offers| - 1];
      FirstUseIffOneKey(c, userId, before);
      if last.master.Some? && MastersSeen(c, userId, before) != [] {
        SameKeysMore(MastersSeen(c, userId, before), last.master.value);
      }
    }
  }

  /** The latch never goes back. */
  lemma {:induction false} LatchStays(c: Crypto, userId: UserId, actions: seq<Action>, n: nat)
    requires n <= |actions| && Run(c, userId, actions).Some?
    ensures Run(c, userId, actions[..n]).Some?
    ensures Run(c, userId, actions[..n]).value.crossSigningVerifiedBefore ==>
              Run(c, userId, actions).value.crossSigningVerifiedBefore
  {
    if n == |actions| {
      assert actions[..n] == actions;
    } else {
      LatchStays(c, userId, actions[..|actions| - 1], n);
      assert actions[..|actions| - 1][..n] == actions[..n];
    }
  }

  /** Whether a user was ever verified. */
  ghost predicate WasVerified(actions: seq<Action>) {
    exists i :: 0 <= i < |actions| && actions[i] == UpdateVerifiedBefore(true)
  }

  lemma {:induction false} LatchIsHistory(c: Crypto, userId: UserId, actions: seq<Action>)
    requires Run(c, userId, actions).Some?
    ensures Run(c, userId, actions).value.crossSigningVerifiedBefore <==> WasVerified(actions)
    ensures Run(c, userId, actions).value.userId == userId
  {
    if actions != [] {
      var n := |actions| - 1;
      LatchIsHistory(c, userId, actions[..n]);
      if i :| 0 <= i < n && actions[i] == UpdateVerifiedBefore(true) {
        assert actions[..n][i] == UpdateVerifiedBefore(true);
      }
      if WasVerified(actions[..n]) {
        var i :| 0 <= i < n && actions[..n][i] == UpdateVerifiedBefore(true);
        assert actions[i] == UpdateVerifiedBefore(true);
      }
    }
  }

  // ---------- main results about users and devices ----------

  /** Both are the same user with the same public master and self-signing keys. */
  ghost predicate SameOwner(own: Info, their: Info) {
    own.userId == their.userId &&
    exists m, s :: GetId(own.keys.master) == Some(m) && GetId(their.keys.master) == Some(m) &&
                   GetId(own.keys.selfSigning) == Some(s) && GetId(their.keys.selfSigning) == Some(s)
  }

  /** An object has a signature under a user's public key, and the signature is good. */
  ghost predicate SignedWith(c: Crypto, body: Body, signatures: Signatures, key: PubKey, signer: UserId) {
    exists sig :: Lookup(signatures, (signer, key)) == Some(sig) && c.verify(key, body, sig)
  }

  /** A public key is signed, with everything that is said of it. */
  ghost predicate KeySignedWith(c: Crypto, k: KeyInfo, key: PubKey, signer: UserId) {
    SignedWith(c, KeyBody(k.userId, k.usage, k.key, k.rest), k.signatures, key, signer)
  }

  lemma VerifiesIfSigned(c: Crypto, body: Body, signatures: Signatures, key: PubKey, signer: UserId)
    ensures PkVerify(c, body, signatures, key, signer) <==> SignedWith(c, body, signatures, key, signer)
  {
    if (signer, key) in signatures {
      assert Lookup(signatures, (signer, key)) == Some(signatures[(signer, key)]);
    }
  }

  /** Our master key has signed our user-signing key, and that the user's master key. */
  ghost predicate WeSigned(c: Crypto, own: Info, their: Info) {
    && own.keys.master.Some? && own.keys.userSigning.Some? && their.keys.master.Some?
    && KeySignedWith(c, own.keys.userSigning.value, own.keys.master.value.key, own.userId)
    && KeySignedWith(c, their.keys.master.value, own.keys.userSigning.value.key, own.userId)
  }

  lemma WeSignedIs(c: Crypto, own: Info, their: Info)
    requires Chain(c, own) && own.keys.userSigning.Some? && their.keys.master.Some?
    ensures WeSigned(c, own, their) <==> KeyVerifies(c, their.keys.master.value, own.keys.userSigning.value.key, own.userId)
  {
    var master, usk, other := own.keys.master.value, own.keys.userSigning.value, their.keys.master.value;
    VerifiesIfSigned(c, BodyOf(usk), usk.signatures, master.key, own.userId);
    VerifiesIfSigned(c, BodyOf(other), other.signatures, usk.key, own.userId);
  }

  lemma SameOwnerIs(own: Info, their: Info)
    ensures SameOwner(own, their) <==> SameIdentity(own, their)
  {
    if SameIdentity(own, their) {
      assert GetId(own.keys.master) == Some(own.keys.master.value.key);
      assert GetId(own.keys.selfSigning) == Some(own.keys.selfSigning.value.key);
    }
  }

  /** Trust in a user, after any run of the user's keys and any such run of ours: the user is verified if and
      only if it is us, or we signed the user's master key; was verified before if and only if it is us, or
      we can sign users and the user was ever verified; and is in its first use as the identity that counts is. */
  lemma UserTrustExactly(c: Crypto, userId: UserId, actions: seq<Action>, theirId: UserId, theirs: seq<Action>)
    requires Genuine(c) && Run(c, userId, actions).Some? && Undisturbed(c, userId, actions)
    requires Run(c, theirId, theirs).Some?
    ensures var own, their := Run(c, userId, actions).value, Run(c, theirId, theirs).value;
            var level := CheckUserTrust(c, own, their);
            (level.crossSigningVerified <==> SameOwner(own, their) || WeSigned(c, own, their)) &&
            (level.verifiedBefore <==>
               SameOwner(own, their) || (own.keys.userSigning.Some? && WasVerified(theirs))) &&
            (level.tofu <==> if SameOwner(own, their) then own.firstUse else their.firstUse)
  {
    RunKeepsChain(c, userId, actions);
    LatchIsHistory(c, theirId, theirs);
    var own, their := Run(c, userId, actions).value, Run(c, theirId, theirs).value;
    SameOwnerIs(own, their);
    if own.keys.userSigning.Some? && their.keys.master.Some? {
      WeSignedIs(c, own, their);
    }
  }

  /** The user's self-signing key has signed the device, and the user's master key the self-signing key. */
  ghost predicate SignedByOwner(c: Crypto, their: Info, device: Device) {
    && their.keys.master.Some? && their.keys.selfSigning.Some?
    && KeySignedWith(c, their.keys.selfSigning.value, their.keys.master.value.key, their.userId)
    && SignedWith(c, DeviceBody(their.userId, device.deviceId, device.keys, device.algorithms), device.signatures,
                  their.keys.selfSigning.value.key, their.userId)
  }

  lemma SignedByOwnerIs(c: Crypto, their: Info, device: Device)
    requires their.keys.master.Some? && their.keys.selfSigning.Some?
    ensures var ssk := their.keys.selfSigning.value;
            SignedByOwner(c, their, device) <==>
              KeyVerifies(c, ssk, their.keys.master.value.key, their.userId) &&
              PkVerify(c, DeviceObject(device, their.userId), device.signatures, ssk.key, their.userId)
  {
    var ssk := their.keys.selfSigning.value;
    VerifiesIfSigned(c, BodyOf(ssk), ssk.signatures, their.keys.master.value.key, their.userId);
    VerifiesIfSigned(c, DeviceObject(device, their.userId), device.signatures, ssk.key, their.userId);
  }

  /** An unbroken chain of signatures from our own master key to a user's device: through our
      user-signing key and the user's master key, or through our own identity. */
  ghost predicate UnbrokenChain(c: Crypto, own: Info, their: Info, device: Device) {
    (SameOwner(own, their) || WeSigned(c, own, their)) && SignedByOwner(c, their, device)
  }

  /** A device is trusted on first use if and only if its owner has signed it and the identity that vouches
      for it (ours, if it is the same one) has not changed since it was first seen. */
  lemma TofuIffFirstUse(c: Crypto, own: Info, their: Info, device: Device, local: bool, trustCrossSigned: bool)
    ensures CheckDeviceTrust(c, own, their, device, local, trustCrossSigned).tofu <==>
              SignedByOwner(c, their, device) && (if SameOwner(own, their) then own.firstUse else their.firstUse)
  {
    SameOwnerIs(own, their);
    if their.keys.selfSigning.Some? && their.keys.master.Some? {
      SignedByOwnerIs(c, their, device);
    }
  }

  /** After any such run of our own keys, and whatever the other user's keys are, a device is reported as
      verified by cross-signing if and only if there is an unbroken chain from our master key to it. */
  lemma VerifiedIffChain(c: Crypto, userId: UserId, actions: seq<Action>, their: Info, device: Device,
                         local: bool, trustCrossSigned: bool)
    requires Genuine(c) && Run(c, userId, actions).Some? && Undisturbed(c, userId, actions)
    ensures var own := Run(c, userId, actions).value;
            var level := CheckDeviceTrust(c, own, their, device, local, trustCrossSigned);
            (level.crossSigningVerified <==> UnbrokenChain(c, own, their, device)) &&
            (level.IsVerified() <==> local || (trustCrossSigned && UnbrokenChain(c, own, their, device)))
  {
    RunKeepsChain(c, userId, actions);
    var own := Run(c, userId, actions).value;
    SameOwnerIs(own, their);
    if own.keys.userSigning.Some? && their.keys.master.Some? {
      WeSignedIs(c, own, their);
    }
    if their.keys.selfSigning.Some? && their.keys.master.Some? {
      SignedByOwnerIs(c, their, device);
    }
  }

  /** The condition on resets is needed: if all keys are reset while a user-signing key is being reset,
      the new user-signing key does not verify under the new master key. */
  lemma DisturbedReset(c: Crypto, userId: UserId, app: App, s: Seeds, t: Seeds, blank: Json)
    requires Genuine(c) && app.canSave && c.pub(s.master) != c.pub(t.master)
    ensures var actions := [DoResetKeys(None, s, app, blank), DoResetKeys(None, t, app, blank),
                            FinishedReset(Level(false, true, false), s, c.pub(s.master), s.master, blank)];
            Run(c, userId, actions).Some? && !Undisturbed(c, userId, actions) &&
            !Chain(c, Run(c, userId, actions).value)
  {
    var a, b := DoResetKeys(None, s, app, blank), DoResetKeys(None, t, app, blank);
    var f := FinishedReset(Level(false, true, false), s, c.pub(s.master), s.master, blank);
    assert [a, b, f][..2] == [a, b] && [a, b][..1] == [a] && [a][..0] == [];
    var first := Step(c, NewInfo(userId), a);
    assert Run(c, userId, [a]) == Some(first);
    var second := Step(c, first, b);
    assert Run(c, userId, [a, b]) == Some(second);
    ResetAllHasChain(c, first, t, blank);
    assert GetId(second.keys.master) == Some(c.pub(t.master));
    ResetKeepsChainExactly(c, second, f);
    assert Run(c, userId, [a, b, f]) == Some(Step(c, second, f));
  }
}
