/** manager.go: the Manager object over the in-memory store. Every method's effect is the function of
    the same name in `ManagerSpec`; locks are taken and released around each session update. */
module Manager {
  import opened Basics
  import opened Types
  import opened Signal
  import opened StoreModel
  import opened MemStore
  import opened SessionObject
  import opened ManagerSpec

  /** sync.Mutex as one thread sees it: locking a held mutex would block for ever. */
  class Mutex {
    var locked: bool

    constructor ()
      ensures !locked
    {
      locked := false;
    }

    method Lock()
      requires !locked
      modifies this
      ensures locked
    {
      locked := true;
    }

    method Unlock()
      requires locked
      modifies this
      ensures !locked
    {
      locked := false;
    }
  }

  /** The application's transport: a board of device lists and bundles. */
  class Transport {
    var lists: map<string, seq<U32>>
    var bundles: map<Device, Bundle>

    ghost function Board(): Net
      reads this
    {
      Net(lists, bundles)
    }

    constructor ()
      ensures Board() == Net(map[], map[])
    {
      lists, bundles := map[], map[];
    }

    method FetchDeviceList(jid: string) returns (r: Result<seq<U32>, Error>)
      ensures r == if jid in lists then Ok(lists[jid]) else Err(DeviceListUnavailable)
    {
      r := if jid in lists then Ok(lists[jid]) else Err(DeviceListUnavailable);
    }

    method FetchBundle(dev: Device) returns (r: Result<Bundle, Error>)
      ensures r == if dev in bundles then Ok(bundles[dev]) else Err(BundleUnavailable)
    {
      r := if dev in bundles then Ok(bundles[dev]) else Err(BundleUnavailable);
    }

    method PublishBundle(b: Bundle)
      modifies this
      ensures Board() == Net(old(lists), old(bundles)[b.device := b])
    {
      bundles := bundles[b.device := b];
    }
  }

  /** crypto/rand: every draw is a scalar never drawn before. */
  class Entropy {
    var next: nat

    constructor ()
      ensures next == 0
    {
      next := 0;
    }

    method Draw() returns (n: nat)
      modifies this
      ensures n == old(next) && next == n + 1
    {
      n := next;
      next := next + 1;
    }
  }

  class Manager {
    const store: Store
    const transport: Transport
    const entropy: Entropy
    const protocol: Protocol
    const identityKey: PrivKey
    const localDevice: Device
    const trustResolver: Option<(Device, PubKey) -> bool>
    var locks: map<Device, Mutex>

    ghost function Cfg(): Config {
      Config(protocol, identityKey, localDevice, trustResolver)
    }

    /** One mutex per device, never shared, none held between calls. */
    ghost predicate Valid()
      reads this, store, locks.Values
    {
      && PoolKeyed(store.preKeys)
      && (forall d1, d2 :: d1 in locks && d2 in locks && locks[d1] == locks[d2] ==> d1 == d2)
      && (forall d :: d in locks ==> !locks[d].locked)
    }

    /** The caller holds `dev`'s mutex. */
    ghost predicate Holds(dev: Device)
      reads this`locks, locks.Values
    {
      dev in locks && locks[dev].locked
    }

    /** Locks are created, never replaced. */
    twostate predicate LocksKept()
      reads this
    {
      && (forall d :: d in old(locks) ==> d in locks && locks[d] == old(locks)[d])
      && (forall d :: d in locks && d !in old(locks) ==> fresh(locks[d]))
    }

    constructor (store: Store, transport: Transport, entropy: Entropy, protocol: Protocol,
                 resolver: Option<(Device, PubKey) -> bool>)
      requires PoolKeyed(store.preKeys)
      ensures Valid() && locks == map[]
      ensures this.store == store && this.transport == transport && this.entropy == entropy
      ensures Cfg() == Config(protocol, store.identityKey, store.localDevice, resolver)
    {
      this.store, this.transport, this.entropy, this.protocol := store, transport, entropy, protocol;
      identityKey, localDevice, trustResolver := store.identityKey, store.localDevice, resolver;
      locks := map[];
    }

    static method InitIdentity(store: Store, entropy: Entropy, jid: string, id: U32)
      modifies store, entropy
      ensures store.State() == Initialised(old(store.State()), Device(jid, id), old(entropy.next))
      ensures entropy.next == old(entropy.next) + 2 + DEFAULT_PRE_KEY_COUNT
      ensures PoolKeyed(old(store.preKeys)) ==> PoolKeyed(store.preKeys)
    {
      var idKey := entropy.Draw();
      store.SetIdentityKeyPair(Priv(idKey));
      store.SetLocalDevice(Device(jid, id));
      var spk := entropy.Draw();
      store.RotateSignedPreKey(SignedPreKeyRecord(1, Pub(spk), Priv(spk), SignPreKey(Priv(idKey), Pub(spk))));
      GenerateInto(store, entropy, DEFAULT_PRE_KEY_COUNT);
      if PoolKeyed(old(store.preKeys)) {
        FiledKeyed(old(store.preKeys),
            NewPreKeys(old(store.nextPreKeyID), DEFAULT_PRE_KEY_COUNT, old(entropy.next) + 2));
      }
    }

    method DeviceLock(dev: Device) returns (l: Mutex)
      requires Valid()
      modifies this`locks
      ensures Valid() && LocksKept()
      ensures locks.Keys == old(locks).Keys + {dev} && locks[dev] == l
    {
      if dev in locks {
        return locks[dev];
      }
      l := new Mutex();
      locks := locks[dev := l];
    }

    /** Advertises exactly the live pool and the current signed prekey. */
    method Bundle() returns (r: Result<Bundle, Error>)
      requires Valid()
      ensures r.Ok? <==> identityKey.Priv?
      ensures r.Ok? ==> IsBundle(Cfg(), store.State(), r.value)
    {
      var spk := store.currentSPK;
      var recs := store.PreKeys();
      var preKeys: seq<PreKey> := [];
      var i := 0;
      while i < |recs|
        invariant 0 <= i <= |recs| && |preKeys| == i
        invariant forall k :: 0 <= k < i ==> preKeys[k] == PreKey(recs[k].id, recs[k].pub)
      {
        preKeys := preKeys + [PreKey(recs[i].id, recs[i].pub)];
        i := i + 1;
      }
      match IdentityPublicKey(identityKey)
      case Err(e) => r := Err(e);
      case Ok(pub) => r := Ok(Types.Bundle(localDevice, pub, SignedPreKey(spk.id, spk.pub, spk.sig), preKeys));
    }

    method PublishBundle() returns (err: Option<Error>)
      requires Valid()
      modifies transport
      ensures err.None? <==> identityKey.Priv?
      ensures err.Some? ==> transport.Board() == old(transport.Board())
      ensures err.None? ==>
              localDevice in transport.bundles && IsBundle(Cfg(), store.State(), transport.bundles[localDevice])
                            && transport.Board() ==
                               Net(old(transport.lists),
                                   old(transport.bundles)[localDevice := transport.bundles[localDevice]])
    {
      var b := Bundle();
      if b.Err? {
        return Some(b.error);
      }
      transport.PublishBundle(b.value);
      err := None;
    }

    method RotateSignedPreKey() returns (err: Option<Error>)
      requires Valid()
      modifies store, entropy
      ensures Valid()
      ensures err.None? <==> identityKey.Priv?
      ensures err.Some? ==> store.State() == old(store.State())
      ensures err.None? ==> store.State() == RotatedSigned(identityKey, old(store.State()), old(entropy.next))
      ensures entropy.next == old(entropy.next) + if err.None? then 1 else 0
    {
      var nextID := WrapAdd(store.currentSPK.id, 1);
      if identityKey.NoPriv? {
        return Some(BadIdentityKey);
      }
      var n := entropy.Draw();
      store.RotateSignedPreKey(SignedPreKeyRecord(nextID, Pub(n), Priv(n), SignPreKey(identityKey, Pub(n))));
      err := None;
    }

    method GenerateOneTimePreKeys(n: nat)
      requires Valid()
      modifies store, entropy
      ensures Valid()
      ensures store.State() == Generated(old(store.State()), n, old(entropy.next))
      ensures entropy.next == old(entropy.next) + n
    {
      GenerateInto(store, entropy, n);
      FiledKeyed(old(store.preKeys), NewPreKeys(old(store.nextPreKeyID), n, old(entropy.next)));
    }

    /** `generateOneTimePreKeys`: allocate and generate one by one, then file them all. */
    static method GenerateInto(store: Store, entropy: Entropy, n: nat)
      modifies store, entropy
      ensures store.State() == Generated(old(store.State()), n, old(entropy.next))
      ensures entropy.next == old(entropy.next) + n
    {
      var recs: seq<PreKeyRecord> := [];
      ghost var watermark := store.nextPreKeyID;
      var i := 0;
      while i < n
        invariant 0 <= i <= n
        invariant entropy.next == old(entropy.next) + i
        invariant store.State() == old(store.State()).(nextPreKeyID := WrapAdd(watermark, i))
        invariant recs == NewPreKeys(watermark, i, old(entropy.next))
      {
        var id := store.NextPreKeyID();
        var k := entropy.Draw();
        recs := recs + [PreKeyRecord(id, Pub(k), Priv(k))];
        i := i + 1;
      }
      store.PutPreKeys(recs);
    }

    method NeedsMorePreKeys() returns (needs: bool)
      ensures needs <==> |store.preKeys| <= MIN_PRE_KEY_COUNT
    {
      var count := store.PreKeyCount();
      needs := count <= MIN_PRE_KEY_COUNT;
    }

    method SyncDevices(jid: string) returns (err: Option<Error>)
      requires Valid()
      modifies store
      ensures Valid()
      ensures err == if jid in transport.lists then None else Some(DeviceListUnavailable)
      ensures store.State() == if jid in transport.lists
                               then old(store.State()).(devices := old(store.devices)[jid := transport.lists[jid]])
                               else old(store.State())
    {
      var list := transport.FetchDeviceList(jid);
      if list.Err? {
        return Some(list.error);
      }
      store.SetDevices(jid, list.value);
      err := None;
    }

    method DevicesFor(jid: string) returns (r: Result<seq<U32>, Error>)
      requires Valid()
      modifies store
      ensures Valid()
      ensures (store.State(), r) == ManagerSpec.DevicesFor(transport.Board(), old(store.State()), jid)
    {
      var ids := store.Devices(jid);
      if |ids| > 0 {
        return Ok(ids);
      }
      var err := SyncDevices(jid);
      if err.Some? {
        return Err(err.value);
      }
      ids := store.Devices(jid);
      r := Ok(ids);
    }

    method RecipientDevices(jid: string) returns (r: Result<seq<Device>, Error>)
      requires Valid()
      modifies store
      ensures Valid()
      ensures (store.State(), r) == ManagerSpec.RecipientDevices(Cfg(), transport.Board(), old(store.State()), jid)
    {
      var ids := DevicesFor(jid);
      if ids.Err? {
        return Err(ids.error);
      }
      var devices: seq<Device> := [];
      var i := 0;
      while i < |ids.value|
        invariant 0 <= i <= |ids.value|
        invariant devices == Addressed(jid, ids.value[..i])
      {
        devices := devices + [Device(jid, ids.value[i])];
        i := i + 1;
      }
      assert ids.value[..|ids.value|] == ids.value;
      if jid == localDevice.jid {
        return Ok(devices);
      }
      var own := DevicesFor(localDevice.jid);
      if own.Err? {
        return Ok(devices);
      }
      i := 0;
      while i < |own.value|
        invariant 0 <= i <= |own.value|
        invariant devices == Addressed(jid, ids.value) + Addressed(localDevice.jid, own.value[..i])
      {
        devices := devices + [Device(localDevice.jid, own.value[i])];
        i := i + 1;
      }
      assert own.value[..|own.value|] == own.value;
      r := Ok(devices);
    }

    method ResetSession(dev: Device)
      requires Valid()
      modifies this`locks, store, locks.Values
      ensures Valid() && LocksKept()
      ensures store.State() == old(store.State()).(sessions := old(store.sessions) - {dev})
    {
      var lock := DeviceLock(dev);
      lock.Lock();
      assert Holds(dev);
      store.DeleteSession(dev);
      lock.Unlock();
    }

    method EncryptMessage(jid: string, plaintext: Option<Bytes>)
      returns (msg: Option<EncryptedMessage>, deviceErrs: seq<DeviceError>, err: Option<Error>)
      requires Valid()
      modifies this`locks, store, entropy, locks.Values
      ensures Valid() && LocksKept()
      ensures Encrypted(store.State(), entropy.next, msg, deviceErrs, err)
              == Encrypt(Cfg(), transport.Board(), old(store.State()), old(entropy.next), jid, plaintext)
    {
      var devices := RecipientDevices(jid);
      if devices.Err? {
        return None, [], Some(devices.error);
      }
      msg, deviceErrs, err := EncryptTo(devices.value, plaintext);
    }

    /** `encrypt` once the recipient list is known. */
    method EncryptTo(devices: seq<Device>, plaintext: Option<Bytes>)
      returns (msg: Option<EncryptedMessage>, deviceErrs: seq<DeviceError>, err: Option<Error>)
      requires Valid()
      modifies this`locks, store, entropy, locks.Values
      ensures Valid() && LocksKept()
      ensures Encrypted(store.State(), entropy.next, msg, deviceErrs, err)
              == EncryptToDevices(Cfg(), transport.Board(), old(store.State()), old(entropy.next), devices, plaintext)
    {
      hide FanOut;
      var keyMaterial := entropy.Draw();
      var ivDraw := entropy.Draw();
      var iv: Option<nat>, payload: Option<Payload> := None, None;
      if plaintext.Some? {
        var (v, ct) := EncryptPayload(protocol, plaintext.value, keyMaterial, ivDraw);
        iv, payload := v, Some(ct);
      }

      var keys;
      keys, deviceErrs := EncryptForEach(devices, keyMaterial);
      if |keys| == 0 {
        return None, deviceErrs, Some(ErrNoRecipients);
      }
      msg, err := Some(EncryptedMessage(localDevice, keys, payload, iv)), None;
    }

    /** The loop of `encrypt`: best effort over the recipient list, skipping the local device. */
    method EncryptForEach(devices: seq<Device>, keyMaterial: nat)
            returns (keys: seq<RecipientKey>, deviceErrs: seq<DeviceError>)
      requires Valid()
      modifies this`locks, store, entropy, locks.Values
      ensures Valid() && LocksKept()
      ensures entropy.next == old(entropy.next) + |devices|
      ensures var (s', outs) := FanOut(Cfg(), transport.Board(), old(store.State()),
              WorkFor(devices, old(entropy.next)), keyMaterial);
              store.State() == s' && keys == KeysOf(outs) && deviceErrs == ErrorsOf(devices, outs)
    {
      hide FanOutOne, ManagerSpec.EncryptForDevice;
      keys, deviceErrs := [], [];
      ghost var cfg, net, s0, base := Cfg(), transport.Board(), store.State(), entropy.next;
      ghost var work := WorkFor(devices, base);
      ghost var outs: seq<Outcome> := [];
      var i := 0;
      while i < |devices|
        invariant 0 <= i <= |devices| && |outs| == i
        invariant Valid() && LocksKept()
        invariant entropy.next == base + i && transport.Board() == net
        invariant (store.State(), outs) == FanOut(cfg, net, s0, work[..i], keyMaterial)
        invariant keys == KeysOf(outs)
        invariant deviceErrs == ErrorsOf(devices, outs)
      {
        var o := EncryptForEntry(devices[i], keyMaterial);
        FanOutStep(cfg, net, s0, work, keyMaterial, i);
        TalliesStep(devices, outs, o);
        outs := outs + [o];
        match o {
          case Skipped =>
          case Failed(e) => deviceErrs := deviceErrs + [DeviceError(devices[i], e)];
          case Sealed(key) => keys := keys + [key];
        }
        i := i + 1;
      }
      assert work[..i] == work;
    }

    method EncryptForEntry(dev: Device, keyMaterial: nat) returns (o: Outcome)
      requires Valid()
      modifies this`locks, store, entropy, locks.Values
      ensures Valid() && LocksKept()
      ensures entropy.next == old(entropy.next) + 1
      ensures (store.State(), o) ==
              FanOutOne(Cfg(), transport.Board(), old(store.State()), dev, keyMaterial, old(entropy.next))
    {
      var ek := entropy.Draw();
      if dev == localDevice {
        return Skipped;
      }
      var key := EncryptForDevice(dev, keyMaterial, ek);
      o := if key.Err? then Failed(key.error) else Sealed(key.value);
    }

    method EncryptForDevice(dev: Device, keyMaterial: nat, ek: nat) returns (r: Result<RecipientKey, Error>)
      requires Valid()
      modifies this`locks, store, locks.Values
      ensures Valid() && LocksKept()
      ensures (store.State(), r) ==
              ManagerSpec.EncryptForDevice(Cfg(), transport.Board(), old(store.State()), dev, keyMaterial, ek)
    {
      var lock := DeviceLock(dev);
      lock.Lock();
      r := EncryptLocked(dev, keyMaterial, ek);
      lock.Unlock();
    }

    /** The critical section of `encryptForDevice`. */
    method EncryptLocked(dev: Device, keyMaterial: nat, ek: nat) returns (r: Result<RecipientKey, Error>)
      requires Holds(dev)
      requires PoolKeyed(store.preKeys)
      modifies store
      ensures PoolKeyed(store.preKeys)
      ensures (store.State(), r) ==
              ManagerSpec.EncryptForDevice(Cfg(), transport.Board(), old(store.State()), dev, keyMaterial, ek)
    {
      var active, kx := GetOrCreateActiveSession(dev, ek);
      if active.Err? {
        return Err(active.error);
      }
      if dev !in store.remoteID {
        return Err(NoKnownIdentityKey);
      }
      var refusal := CheckTrust(dev, store.remoteID[dev]);
      if refusal.Some? {
        return Err(refusal.value);
      }
      var sess := active.value;
      var data := sess.Encrypt(keyMaterial);
      if data.Err? {
        return Err(data.error);
      }
      PutSession(dev, sess);
      r := Ok(RecipientKey(dev.id, data.value, kx));
    }

    method CheckTrust(dev: Device, key: PubKey) returns (refusal: Option<Error>)
      requires Holds(dev)
      requires PoolKeyed(store.preKeys)
      modifies store
      ensures PoolKeyed(store.preKeys)
      ensures (store.State(), refusal) == ManagerSpec.CheckTrust(Cfg(), old(store.State()), dev, key)
    {
      var state := store.Trust(key);
      match state
      case TrustTrusted => return None;
      case TrustUntrusted => return Some(ErrBlockedDevice);
      case TrustUndecided =>
        if trustResolver.None? {
          return Some(ErrUntrustedDevice);
        }
        if !trustResolver.value(dev, key) {
          return Some(ResolverDeclined);
        }
        store.SetTrust(key, TrustTrusted);
        refusal := None;
    }

    method GetOrCreateActiveSession(dev: Device, ek: nat) returns (r: Result<Session, Error>, kx: Option<KeyExchange>)
      requires Holds(dev)
      requires PoolKeyed(store.preKeys)
      modifies store
      ensures PoolKeyed(store.preKeys)
      ensures r.Ok? ==> fresh(r.value)
      ensures var (s', active) := ActiveSession(Cfg(), transport.Board(), old(store.State()), dev, ek);
              && store.State() == s'
              && (r.Ok? <==> active.Ok?)
              && (r.Err? ==> r.error == active.error)
              && (r.Ok? ==> (r.value.State(), kx) == active.value)
    {
      kx := None;
      if dev in store.sessions {
        match LoadSession(protocol, store.sessions[dev])
        case Err(e) => return Err(e), None;
        case Ok(loaded) =>
          var sess := new Session(loaded);
          return Ok(sess), None;
      }
      var fetched := transport.FetchBundle(dev);
      if fetched.Err? {
        return Err(fetched.error), None;
      }
      var bundle := fetched.value;
      if |bundle.preKeys| == 0 {
        return Err(NoPreKeysInBundle), None;
      }
      var preKey := bundle.preKeys[0];
      match NewActiveSession(protocol, identityKey, bundle.identityKey, bundle.signedPreKey.pub,
          bundle.signedPreKey.sig,
                             preKey.pub, bundle.signedPreKey.id, preKey.id, localDevice.id, ek)
      case Err(e) => return Err(e), None;
      case Ok((state, ekPub)) =>
        store.PutRemoteIdentityKey(dev, bundle.identityKey);
        // X3DH succeeded, so the identity key is well formed.
        var ownPub := IdentityPublicKey(identityKey).value;
        var sess := new Session(state);
        r, kx := Ok(sess), Some(KeyExchange(ownPub, ekPub, bundle.signedPreKey.id, preKey.id));
    }

    method PutSession(dev: Device, sess: Session)
      requires Holds(dev)
      modifies store
      ensures store.State() == old(store.State()).(sessions := old(store.sessions)[dev := Marshal(sess.State())])
    {
      var data := sess.MarshalBinary();
      store.PutSession(dev, data);
    }

    method DecryptMessage(msg: EncryptedMessage) returns (r: Result<Option<Bytes>, Error>)
      requires Valid()
      modifies this`locks, store, locks.Values
      ensures Valid() && LocksKept()
      ensures (store.State(), r) == ManagerSpec.DecryptMessage(Cfg(), old(store.State()), msg)
    {
      var key: Option<RecipientKey> := None;
      var i := 0;
      while i < |msg.keys| && key.None?
        invariant 0 <= i <= |msg.keys|
        invariant KeyFor(msg.keys, localDevice.id) == if key.Some? then key else KeyFor(msg.keys[i..], localDevice.id)
        decreases |msg.keys| - i, if key.None? then 1 else 0
      {
        if msg.keys[i].device == localDevice.id {
          key := Some(msg.keys[i]);
        } else {
          assert msg.keys[i..][1..] == msg.keys[i + 1..];
          i := i + 1;
        }
      }
      if key.None? {
        return Err(ErrOwnDeviceKeyMissing);
      }
      var lock := DeviceLock(msg.sender);
      lock.Lock();
      var keyMaterial := DecryptLocked(msg.sender, key.value);
      lock.Unlock();
      if keyMaterial.Err? {
        return Err(keyMaterial.error);
      }
      if msg.payload.None? {
        return Ok(None);
      }
      match DecryptPayload(protocol, keyMaterial.value, msg.iv, msg.payload.value)
      case Err(e) => r := Err(e);
      case Ok(plaintext) => r := Ok(Some(plaintext));
    }

    /** The critical section of `DecryptMessage`. */
    method DecryptLocked(sender: Device, key: RecipientKey) returns (r: Result<nat, Error>)
      requires Holds(sender)
      requires PoolKeyed(store.preKeys)
      modifies store
      ensures PoolKeyed(store.preKeys)
      ensures (store.State(), r) == DecryptKey(Cfg(), old(store.State()), sender, key)
    {
      var incoming, data := GetOrCreateSessionForIncoming(sender, key);
      if incoming.Err? {
        return Err(incoming.error);
      }
      var sess := incoming.value;
      r := sess.Decrypt(data);
      if r.Err? {
        return;
      }
      PutSession(sender, sess);
    }

    method GetOrCreateSessionForIncoming(sender: Device, key: RecipientKey)
            returns (r: Result<Session, Error>, data: Wire)
      requires Holds(sender)
      requires PoolKeyed(store.preKeys)
      modifies store
      ensures PoolKeyed(store.preKeys)
      ensures r.Ok? ==> fresh(r.value)
      ensures var (s', incoming) := SessionForIncoming(Cfg(), old(store.State()), sender, key);
              && store.State() == s'
              && (r.Ok? <==> incoming.Ok?)
              && (r.Err? ==> r.error == incoming.error)
              && (r.Ok? ==> (r.value.State(), data) == incoming.value)
    {
      data := Junk;
      if key.keyExchange.None? {
        if sender !in store.sessions {
          return Err(ErrUnknownSession), Junk;
        }
        match LoadSession(protocol, store.sessions[sender])
        case Err(e) => return Err(e), Junk;
        case Ok(loaded) =>
          var sess := new Session(loaded);
          return Ok(sess), key.data;
      }

      if protocol == ProtocolV1 {
        var ids := PeekLegacyPreKeyIDs(key.data);
        if ids.Err? {
          return Err(ids.error), Junk;
        }
        var spk := SignedPreKeyByID(ids.value.0);
        if spk.Err? {
          return Err(spk.error), Junk;
        }
        var preKey := store.ConsumePreKey(ids.value.1);
        if preKey.Err? {
          return Err(preKey.error), Junk;
        }
        match NewPassiveSessionFromPreKeyBlob(identityKey, spk.value.pub, spk.value.priv, preKey.value.priv, key.data)
        case Err(e) => return Err(e), Junk;
        case Ok((state, peerIdentityKey, inner)) =>
          store.PutRemoteIdentityKey(sender, peerIdentityKey);
          var sess := new Session(state);
          return Ok(sess), inner;
      }

      var kx := key.keyExchange.value;
      var spk := SignedPreKeyByID(kx.signedPreKeyID);
      if spk.Err? {
        return Err(spk.error), Junk;
      }
      var preKey := store.ConsumePreKey(kx.preKeyID);
      if preKey.Err? {
        return Err(preKey.error), Junk;
      }
      match NewPassive(protocol, identityKey, kx.identityKey, spk.value.pub, spk.value.priv, preKey.value.priv,
          kx.ephemeralKey)
      case Err(e) => return Err(e), Junk;
      case Ok(state) =>
        store.PutRemoteIdentityKey(sender, kx.identityKey);
        var sess := new Session(state);
        r, data := Ok(sess), key.data;
    }

    method SignedPreKeyByID(id: U32) returns (r: Result<SignedPreKeyRecord, Error>)
      ensures r == ManagerSpec.SignedPreKeyByID(store.State(), id)
      ensures store.currentSPK.id == id ==> r == Ok(store.currentSPK)
      ensures store.currentSPK.id != id && store.staleSPK.Some? && store.staleSPK.value.id == id ==>
                r == Ok(store.staleSPK.value)
    {
      var cur := store.currentSPK;
      if cur.id == id {
        return Ok(cur);
      }
      var stale := store.staleSPK;
      if stale.Some? && stale.value.id == id {
        return Ok(stale.value);
      }
      r := Err(UnknownSignedPreKey);
    }
  }
}
