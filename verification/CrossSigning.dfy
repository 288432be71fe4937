/** src/crypto/CrossSigning.js as it is written: `CrossSigningInfo`, whose methods update its fields in
    place and may throw after having done so. */
module CrossSigning {
  import opened Common
  import opened CrossSigningModel

  class CrossSigningInfo {
    const crypto: Crypto
    const userId: UserId
    var keys: Keys
    var firstUse: bool
    var crossSigningVerifiedBefore: bool

    function Contents(): Info
      reads this
    {
      Info(userId, keys, firstUse, crossSigningVerifiedBefore)
    }

    constructor (crypto: Crypto, userId: UserId)
      ensures Contents() == NewInfo(userId) && this.crypto == crypto
    {
      this.crypto, this.userId := crypto, userId;
      keys, firstUse, crossSigningVerifiedBefore := NO_KEYS, true, false;
    }

    method SetKeys(offered: Keys) returns (r: Result<()>)
      modifies this`keys, this`firstUse
      ensures Contents() == Step(crypto, old(Contents()), DoSetKeys(offered))
      ensures r.Ok? <==> Acceptable(crypto, old(Contents()), offered)
      ensures r.Throws? ==> keys == old(keys)
      ensures r.Ok? && offered.master.Some? ==> keys == offered
      ensures r.Ok? && offered.master.None? ==>
                keys.master == old(keys).master &&
                keys.selfSigning == (if offered.selfSigning.Some? then offered.selfSigning else old(keys).selfSigning) &&
                keys.userSigning == (if offered.userSigning.Some? then offered.userSigning else old(keys).userSigning)
    {
      var master;
      if offered.master.Some? {
        if offered.master.value.userId != userId {
          return Throws;
        }
        if keys.master.None? {
          firstUse := true;
        } else if offered.master.value.key != keys.master.value.key {
          firstUse := false;
        }
        master := offered.master.value;
      } else if keys.master.Some? {
        master := keys.master.value;
      } else {
        return Throws;
      }
      var masterKey := master.key;
      if offered.userSigning.Some? {
        if offered.userSigning.value.userId != userId || !KeyVerifies(crypto, offered.userSigning.value, masterKey, userId) {
          return Throws;
        }
      }
      if offered.selfSigning.Some? {
        if offered.selfSigning.value.userId != userId || !KeyVerifies(crypto, offered.selfSigning.value, masterKey, userId) {
          return Throws;
        }
      }
      if offered.master.Some? {
        keys := Keys(offered.master, None, None);
      }
      if offered.selfSigning.Some? {
        keys := keys.(selfSigning := offered.selfSigning);
      }
      if offered.userSigning.Some? {
        keys := keys.(userSigning := offered.userSigning);
      }
      r := Ok(());
    }

    method ClearKeys()
      modifies this`keys
      ensures Contents() == Step(crypto, old(Contents()), DoClearKeys)
      ensures keys.master.None? && keys.selfSigning.None? && keys.userSigning.None?
    {
      keys := NO_KEYS;
    }

    method ResetKeys(level: Option<Level>, seeds: Seeds, app: App, blank: Json) returns (r: Result<()>)
      modifies this`keys
      ensures Contents() == Step(crypto, old(Contents()), DoResetKeys(level, seeds, app, blank))
      ensures r.Throws? ==> keys == old(keys)
      ensures r.Throws? <==>
                var l := EffectiveLevel(old(Contents()), level);
                !app.canSave ||
                (!l.master && (l.selfSigning || l.userSigning) &&
                 PrivateKeyFor(crypto, old(keys).master.value.key, app).None?)
    {
      if !app.canSave {
        return Throws;
      }
      var l := EffectiveLevel(Contents(), level);
      if !l.master && !l.selfSigning && !l.userSigning {
        return Ok(());
      }
      if l.master {
        var masterPub := crypto.pub(seeds.master);
        FinishResetKeys(l, seeds, masterPub, seeds.master, blank);
      } else {
        var masterPub := keys.master.value.key;
        var priv := PrivateKeyFor(crypto, masterPub, app);
        if priv.None? {
          return Throws;
        }
        FinishResetKeys(l, seeds, masterPub, priv.value, blank);
      }
      r := Ok(());
    }

    /** The rest of `resetKeys` when the master key's private key is there. Unless the master key itself is
        reset this runs later, and the stored keys may have changed since. */
    method FinishResetKeys(level: Level, seeds: Seeds, masterPub: PubKey, masterSigning: PrivKey, blank: Json)
      requires crypto.pub(masterSigning) == masterPub
      modifies this`keys
      ensures Contents() == FinishReset(crypto, old(Contents()), level, seeds, masterSigning, blank)
    {
      var created := keys;
      if level.master {
        created := created.(master := Some(NewKey(crypto, userId, Master, seeds.master, blank)));
      }
      if level.selfSigning {
        var ssk := NewKey(crypto, userId, SelfSigning, seeds.selfSigning, blank);
        created := created.(selfSigning := Some(PkSign(crypto, ssk, masterSigning, userId, masterPub)));
      }
      if level.userSigning {
        var usk := NewKey(crypto, userId, UserSigning, seeds.userSigning, blank);
        created := created.(userSigning := Some(PkSign(crypto, usk, masterSigning, userId, masterPub)));
      }
      keys := created;
    }

    method UpdateCrossSigningVerifiedBefore(isCrossSigningVerified: bool)
      modifies this`crossSigningVerifiedBefore
      ensures Contents() == Step(crypto, old(Contents()), UpdateVerifiedBefore(isCrossSigningVerified))
    {
      if !crossSigningVerifiedBefore && isCrossSigningVerified {
        crossSigningVerifiedBefore := true;
      }
    }
  }
}
