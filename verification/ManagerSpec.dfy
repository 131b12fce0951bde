/** What each Manager operation does to the store, as functions on values. `Manager.Manager`'s methods
    are proved against these; every other module reasons about them. */
module ManagerSpec {
  import opened Basics
  import opened Types
  import opened Signal
  import opened StoreModel

  const DEFAULT_PRE_KEY_COUNT: nat := 100
  const MIN_PRE_KEY_COUNT: nat := 25

  /** The fields of a Manager that never change. A resolver says whether it approves a device's key. */
  datatype Config = Config(protocol: Protocol, identityKey: PrivKey, localDevice: Device,
                           resolver: Option<(Device, PubKey) -> bool>)

  /** What Transport would answer during one call; an absent entry is a failed fetch. */
  datatype Net = Net(lists: map<string, seq<U32>>, bundles: map<Device, Bundle>)

  // ---------- trust ----------

  function CheckTrust(cfg: Config, s: StoreState, dev: Device, key: PubKey): (StoreState, Option<Error>) {
    match TrustOf(s, key)
    case TrustTrusted => (s, None)
    case TrustUntrusted => (s, Some(ErrBlockedDevice))
    case TrustUndecided =>
      if cfg.resolver.None? then (s, Some(ErrUntrustedDevice))
      else if !cfg.resolver.value(dev, key) then (s, Some(ResolverDeclined))
      else (s.(trust := s.trust[key := TrustTrusted]), None)
  }

  // ---------- sending ----------

  /** X3DH against a fetched bundle, always with its first one-time prekey. */
  function BuildActive(cfg: Config, b: Bundle, ek: nat): Result<(SessionState, KeyExchange), Error> {
    if b.preKeys == [] then Err(NoPreKeysInBundle)
    else
      var pk := b.preKeys[0];
      match NewActiveSession(cfg.protocol, cfg.identityKey, b.identityKey, b.signedPreKey.pub, b.signedPreKey.sig,
          pk.pub,
                             b.signedPreKey.id, pk.id, cfg.localDevice.id, ek)
      case Err(e) => Err(e)
      case Ok((sess, ekPub)) =>
        Ok((sess, KeyExchange(Pub(cfg.identityKey.n), ekPub, b.signedPreKey.id, pk.id)))
  }

  function ActiveSession(cfg: Config, net: Net, s: StoreState, dev: Device, ek: nat)
    : (StoreState, Result<(SessionState, Option<KeyExchange>), Error>)
  {
    if dev in s.sessions then
      (s, match LoadSession(cfg.protocol, s.sessions[dev]) case Ok(sess) => Ok((sess, None)) case Err(e) => Err(e))
    else if dev !in net.bundles then (s, Err(BundleUnavailable))
    else
      match BuildActive(cfg, net.bundles[dev], ek)
      case Err(e) => (s, Err(e))
      case Ok((sess, kx)) => (s.(remoteID := s.remoteID[dev := net.bundles[dev].identityKey]), Ok((sess, Some(kx))))
  }

  /** Ratchet-encrypt, then persist the advanced session; only then is there a key to return. */
  function SealKey(s: StoreState, dev: Device, sess: SessionState, kx: Option<KeyExchange>, keyMaterial: nat)
    : (StoreState, Result<RecipientKey, Error>)
  {
    var (sess', data) := Seal(sess, keyMaterial);
    if data.Err? then (s, Err(data.error))
    else (s.(sessions := s.sessions[dev := Marshal(sess')]), Ok(RecipientKey(dev.id, data.value, kx)))
  }

  function EncryptForDevice(cfg: Config, net: Net, s: StoreState, dev: Device, keyMaterial: nat, ek: nat)
    : (StoreState, Result<RecipientKey, Error>)
  {
    var (s1, active) := ActiveSession(cfg, net, s, dev, ek);
    if active.Err? then (s1, Err(active.error))
    else if dev !in s1.remoteID then (s1, Err(NoKnownIdentityKey))
    else
      var (s2, refusal) := CheckTrust(cfg, s1, dev, s1.remoteID[dev]);
      if refusal.Some? then (s2, Err(refusal.value))
      else SealKey(s2, dev, active.value.0, active.value.1, keyMaterial)
  }

  /** What the fan-out loop records for one entry of the recipient list. */
  datatype Outcome = Skipped | Sealed(key: RecipientKey) | Failed(error: Error)

  function FanOutOne(cfg: Config, net: Net, s: StoreState, dev: Device, keyMaterial: nat, ek: nat)
    : (StoreState, Outcome)
  {
    if dev == cfg.localDevice then (s, Skipped)
    else
      var (s', r) := EncryptForDevice(cfg, net, s, dev, keyMaterial, ek);
      (s', if r.Ok? then Sealed(r.value) else Failed(r.error))
  }

  /** The loop of `encrypt` over recipient entries, each with the ephemeral scalar it may use. */
  function FanOut(cfg: Config, net: Net, s: StoreState, work: seq<(Device, nat)>, keyMaterial: nat)
    : (r: (StoreState, seq<Outcome>))
    ensures |r.1| == |work|
  {
    if work == [] then (s, [])
    else
      var n := |work| - 1;
      var (s1, outs) := FanOut(cfg, net, s, work[..n], keyMaterial);
      var (s2, o) := FanOutOne(cfg, net, s1, work[n].0, keyMaterial, work[n].1);
      (s2, outs + [o])
  }

  function KeysOf(outs: seq<Outcome>): seq<RecipientKey> {
    if outs == [] then []
    else var n := |outs| - 1;
         KeysOf(outs[..n]) + if outs[n].Sealed? then [outs[n].key] else []
  }

  function ErrorsOf(devices: seq<Device>, outs: seq<Outcome>): seq<DeviceError>
    requires |outs| <= |devices|
  {
    if outs == [] then []
    else var n := |outs| - 1;
         ErrorsOf(devices, outs[..n]) + if outs[n].Failed? then [DeviceError(devices[n], outs[n].error)] else []
  }

  lemma FanOutStep(cfg: Config, net: Net, s: StoreState, work: seq<(Device, nat)>, keyMaterial: nat, i: nat)
    requires i < |work|
    ensures var (s1, outs) := FanOut(cfg, net, s, work[..i], keyMaterial);
            var (s2, o) := FanOutOne(cfg, net, s1, work[i].0, keyMaterial, work[i].1);
            FanOut(cfg, net, s, work[..i + 1], keyMaterial) == (s2, outs + [o])
  {
    assert work[..i + 1][..i] == work[..i];
  }

  lemma TalliesStep(devices: seq<Device>, outs: seq<Outcome>, o: Outcome)
    requires |outs| < |devices|
    ensures KeysOf(outs + [o]) == KeysOf(outs) + if o.Sealed? then [o.key] else []
    ensures ErrorsOf(devices, outs + [o])
            == ErrorsOf(devices, outs) + if o.Failed? then [DeviceError(devices[|outs|], o.error)] else []
  {
    assert (outs + [o])[..|outs|] == outs;
  }

  function DevicesFor(net: Net, s: StoreState, jid: string): (StoreState, Result<seq<U32>, Error>) {
    if |DevicesOf(s, jid)| > 0 then (s, Ok(DevicesOf(s, jid)))
    else if jid !in net.lists then (s, Err(DeviceListUnavailable))
    else (s.(devices := s.devices[jid := net.lists[jid]]), Ok(net.lists[jid]))
  }

  function Addressed(jid: string, ids: seq<U32>): (ds: seq<Device>)
    ensures |ds| == |ids|
  {
    seq(|ids|, i requires 0 <= i < |ids| => Device(jid, ids[i]))
  }

  function RecipientDevices(cfg: Config, net: Net, s: StoreState, jid: string): (StoreState, Result<seq<Device>, Error>)
  {
    var (s1, ids) := DevicesFor(net, s, jid);
    if ids.Err? then (s1, Err(ids.error))
    else if jid == cfg.localDevice.jid then (s1, Ok(Addressed(jid, ids.value)))
    else
      var (s2, own) := DevicesFor(net, s1, cfg.localDevice.jid);
      if own.Err? then (s2, Ok(Addressed(jid, ids.value)))
      else (s2, Ok(Addressed(jid, ids.value) + Addressed(cfg.localDevice.jid, own.value)))
  }

  /** Recipient `i` is handed the `i`-th fresh scalar from `base` on. */
  function WorkFor(devices: seq<Device>, base: nat): (work: seq<(Device, nat)>)
    ensures |work| == |devices|
  {
    seq(|devices|, i requires 0 <= i < |devices| => (devices[i], base + i))
  }

  datatype Encrypted = Encrypted(store: StoreState, rnd: nat, msg: Option<EncryptedMessage>,
                                 deviceErrs: seq<DeviceError>, err: Option<Error>)

  /** `encrypt`; a nil plaintext makes a key-transport message. `rnd` is the next unused scalar. */
  function Encrypt(cfg: Config, net: Net, s: StoreState, rnd: nat, jid: string, plaintext: Option<Bytes>): Encrypted {
    var (s1, devices) := RecipientDevices(cfg, net, s, jid);
    if devices.Err? then Encrypted(s1, rnd, None, [], Some(devices.error))
    else EncryptToDevices(cfg, net, s1, rnd, devices.value, plaintext)
  }

  function EncryptToDevices(cfg: Config, net: Net, s: StoreState, rnd: nat, devices: seq<Device>,
          plaintext: Option<Bytes>): Encrypted
  {
    var (s', outs) := FanOut(cfg, net, s, WorkFor(devices, rnd + 2), rnd);
    var rnd' := rnd + 2 + |devices|;
    var errs := ErrorsOf(devices, outs);
    if KeysOf(outs) == [] then Encrypted(s', rnd', None, errs, Some(ErrNoRecipients))
    else Encrypted(s', rnd', Some(MessageFor(cfg, plaintext, rnd, KeysOf(outs))), errs, None)
  }

  function MessageFor(cfg: Config, plaintext: Option<Bytes>, rnd: nat, keys: seq<RecipientKey>): EncryptedMessage {
    if plaintext.None? then EncryptedMessage(cfg.localDevice, keys, None, None)
    else var (iv, payload) := EncryptPayload(cfg.protocol, plaintext.value, rnd, rnd + 1);
         EncryptedMessage(cfg.localDevice, keys, Some(payload), iv)
  }

  // ---------- receiving ----------

  function SignedPreKeyByID(s: StoreState, id: U32): Result<SignedPreKeyRecord, Error> {
    if s.currentSPK.id == id then Ok(s.currentSPK)
    else if s.staleSPK.Some? && s.staleSPK.value.id == id then Ok(s.staleSPK.value)
    else Err(UnknownSignedPreKey)
  }

  /** Look up the signed prekey, consume the one-time prekey, derive the session, record the peer key. */
  function AcceptKeyExchange(cfg: Config, s: StoreState, sender: Device, kx: KeyExchange)
    : (StoreState, Result<SessionState, Error>)
  {
    var spk := SignedPreKeyByID(s, kx.signedPreKeyID);
    if spk.Err? then (s, Err(spk.error))
    else
      var (s1, pk) := Consumed(s, kx.preKeyID);
      if pk.Err? then (s1, Err(pk.error))
      else
        var sess := NewPassive(cfg.protocol, cfg.identityKey, kx.identityKey, spk.value.pub, spk.value.priv,
                               pk.value.priv, kx.ephemeralKey);
        if sess.Err? then (s1, Err(sess.error))
        else (s1.(remoteID := s1.remoteID[sender := kx.identityKey]), Ok(sess.value))
  }

  /** The key exchange a receiver reads: ProtocolV1 takes it from the blob, ProtocolV2 from the attribute. */
  function OfferedExchange(cfg: Config, key: RecipientKey): Result<(KeyExchange, Wire), Error>
    requires key.keyExchange.Some?
  {
    if cfg.protocol == ProtocolV2 then Ok((key.keyExchange.value, key.data))
    else if !key.data.PreKeyWhisper? then Err(BadPreKeyMessage)
    else Ok((KeyExchange(key.data.identityKey, key.data.baseKey, key.data.signedPreKeyID, key.data.preKeyID),
        key.data.inner))
  }

  function SessionForIncoming(cfg: Config, s: StoreState, sender: Device, key: RecipientKey)
    : (StoreState, Result<(SessionState, Wire), Error>)
  {
    if key.keyExchange.None? then
      if sender !in s.sessions then (s, Err(ErrUnknownSession))
      else match LoadSession(cfg.protocol, s.sessions[sender])
        case Err(e) => (s, Err(e))
        case Ok(sess) => (s, Ok((sess, key.data)))
    else
      match OfferedExchange(cfg, key)
      case Err(e) => (s, Err(e))
      case Ok((kx, data)) =>
        var (s', sess) := AcceptKeyExchange(cfg, s, sender, kx);
        if sess.Err? then (s', Err(sess.error)) else (s', Ok((sess.value, data)))
  }

  /** Unwrap one recipient key, persisting the advanced session before the key material is used. */
  function DecryptKey(cfg: Config, s: StoreState, sender: Device, key: RecipientKey): (StoreState, Result<nat, Error>) {
    var (s1, incoming) := SessionForIncoming(cfg, s, sender, key);
    if incoming.Err? then (s1, Err(incoming.error))
    else
      var (sess', km) := Open(incoming.value.0, incoming.value.1);
      if km.Err? then (s1, Err(km.error))
      else (s1.(sessions := s1.sessions[sender := Marshal(sess')]), Ok(km.value))
  }

  /** The first key addressed to device `id`. */
  function KeyFor(keys: seq<RecipientKey>, id: U32): Option<RecipientKey> {
    if keys == [] then None
    else if keys[0].device == id then Some(keys[0])
    else KeyFor(keys[1..], id)
  }

  function OpenPayload(cfg: Config, msg: EncryptedMessage, keyMaterial: nat): Result<Option<Bytes>, Error> {
    if msg.payload.None? then Ok(None)
    else match DecryptPayload(cfg.protocol, keyMaterial, msg.iv, msg.payload.value)
      case Ok(pt) => Ok(Some(pt))
      case Err(e) => Err(e)
  }

  function DecryptMessage(cfg: Config, s: StoreState, msg: EncryptedMessage): (StoreState, Result<Option<Bytes>, Error>)
  {
    var key := KeyFor(msg.keys, cfg.localDevice.id);
    if key.None? then (s, Err(ErrOwnDeviceKeyMissing))
    else
      var (s', km) := DecryptKey(cfg, s, msg.sender, key.value);
      if km.Err? then (s', Err(km.error)) else (s', OpenPayload(cfg, msg, km.value))
  }

  // ---------- own key material ----------

  /** The records `generateOneTimePreKeys` makes: consecutive IDs after the watermark, fresh scalars. */
  function NewPreKeys(watermark: U32, n: nat, rnd: nat): (recs: seq<PreKeyRecord>)
    ensures |recs| == n
  {
    seq(n, i requires 0 <= i < n => PreKeyRecord(WrapAdd(watermark, i + 1), Pub(rnd + i), Priv(rnd + i)))
  }

  function Generated(s: StoreState, n: nat, rnd: nat): StoreState {
    s.(nextPreKeyID := WrapAdd(s.nextPreKeyID, n), preKeys := Filed(s.preKeys, NewPreKeys(s.nextPreKeyID, n, rnd)))
  }

  function NewSignedPreKey(idKey: PrivKey, id: U32, rnd: nat): SignedPreKeyRecord {
    SignedPreKeyRecord(id, Pub(rnd), Priv(rnd), SignPreKey(idKey, Pub(rnd)))
  }

  function RotatedSigned(idKey: PrivKey, s: StoreState, rnd: nat): StoreState {
    Rotated(s, NewSignedPreKey(idKey, WrapAdd(s.currentSPK.id, 1), rnd))
  }

  /** `InitIdentity`: draws the identity scalar, then the signed prekey's, then the pool's. */
  function Initialised(s: StoreState, dev: Device, rnd: nat): StoreState {
    var s1 := s.(identityKey := Priv(rnd), localDevice := dev);
    Generated(Rotated(s1, NewSignedPreKey(Priv(rnd), 1, rnd + 1)), DEFAULT_PRE_KEY_COUNT, rnd + 2)
  }

  /** `b` is a bundle this device may publish now: the pool in any order, the current signed prekey. */
  ghost predicate IsBundle(cfg: Config, s: StoreState, b: Bundle) {
    && cfg.identityKey.Priv?
    && b.device == cfg.localDevice
    && b.identityKey == Pub(cfg.identityKey.n)
    && b.signedPreKey == SignedPreKey(s.currentSPK.id, s.currentSPK.pub, s.currentSPK.sig)
    && |b.preKeys| == |s.preKeys|
    && (forall i :: 0 <= i < |b.preKeys| ==>
          b.preKeys[i].id in s.preKeys && b.preKeys[i].pub == s.preKeys[b.preKeys[i].id].pub)
    && (forall i, j :: 0 <= i < j < |b.preKeys| ==> b.preKeys[i].id != b.preKeys[j].id)
  }
}
