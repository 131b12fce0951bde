/** Whole runs of one device: any sequence of Manager calls and application trust decisions, one at a time. */
module Runs {
  import opened Basics
  import opened Types
  import opened Signal
  import opened StoreModel
  import opened ManagerSpec
  import opened Sections

  /** A device's store and the next unused scalar. */
  datatype Local = Local(store: StoreState, rnd: nat)

  /** One call, with whatever the transport would answer during it. */
  datatype Action =
    | DoEncrypt(net: Net, jid: string, plaintext: Option<Bytes>)
    | DoDecrypt(msg: EncryptedMessage)
    | DoReset(dev: Device)
    | DoGenerate(n: nat)
    | DoRotate
    | DoSync(net: Net, jid: string)
    | AppSetTrust(key: PubKey, trust: TrustState)

  function Apply(cfg: Config, l: Local, a: Action): Local {
    match a
    case DoEncrypt(net, jid, plaintext) =>
      var e := Encrypt(cfg, net, l.store, l.rnd, jid, plaintext);
      Local(e.store, e.rnd)
    case DoDecrypt(msg) => l.(store := DecryptMessage(cfg, l.store, msg).0)
    case DoReset(dev) => l.(store := l.store.(sessions := l.store.sessions - {dev}))
    case DoGenerate(n) => Local(Generated(l.store, n, l.rnd), l.rnd + n)
    case DoRotate => Local(RotatedSigned(cfg.identityKey, l.store, l.rnd), l.rnd + 1)
    case DoSync(net, jid) =>
      if jid in net.lists then l.(store := l.store.(devices := l.store.devices[jid := net.lists[jid]])) else l
    case AppSetTrust(key, trust) => l.(store := l.store.(trust := l.store.trust[key := trust]))
  }

  function Run(cfg: Config, l: Local, acts: seq<Action>): Local {
    if acts == [] then l else Apply(cfg, Run(cfg, l, acts[..|acts| - 1]), acts[|acts| - 1])
  }

  /** A fresh device: the state NewManager finds after InitIdentity on a new store. */
  ghost predicate FreshDevice(cfg: Config, l: Local) {
    exists rnd: nat ::
      && l == Local(Initialised(EmptyStore, cfg.localDevice, rnd), rnd + 2 + DEFAULT_PRE_KEY_COUNT)
      && cfg.identityKey == Priv(rnd)
  }

  /** The store after the device-list reads of one `encrypt` call: only `devices` can differ. */
  lemma RecipientDevicesFrame(cfg: Config, net: Net, s: StoreState, jid: string)
    ensures var (s', _) := RecipientDevices(cfg, net, s, jid);
            s' == s.(devices := s'.devices)
  {
  }

  /** What no fan-out touches. */
  lemma {:induction false} FanOutFrame(cfg: Config, net: Net, s: StoreState, work: seq<(Device, nat)>, keyMaterial: nat)
    ensures var s' := FanOut(cfg, net, s, work, keyMaterial).0;
            s' == s.(sessions := s'.sessions, remoteID := s'.remoteID, trust := s'.trust)
  {
    hide EncryptForDevice, EncryptSection, Verdict;
    if work != [] {
      var n := |work| - 1;
      FanOutFrame(cfg, net, s, work[..n], keyMaterial);
      var (s1, outs) := FanOut(cfg, net, s, work[..n], keyMaterial);
      EncryptIsSection(cfg, net, s1, work[n].0, keyMaterial, work[n].1);
    }
  }

  /** What no `encrypt` call touches: the device's own key material. */
  lemma EncryptFrame(cfg: Config, net: Net, s: StoreState, rnd: nat, jid: string, plaintext: Option<Bytes>)
    ensures var e := Encrypt(cfg, net, s, rnd, jid, plaintext);
            && e.store == s.(sessions := e.store.sessions, remoteID := e.store.remoteID, trust := e.store.trust,
               devices := e.store.devices)
            && e.rnd >= rnd
  {
    hide FanOut, RecipientDevices;
    RecipientDevicesFrame(cfg, net, s, jid);
    var (s1, devices) := RecipientDevices(cfg, net, s, jid);
    if devices.Ok? {
      FanOutFrame(cfg, net, s1, WorkFor(devices.value, rnd + 2), rnd);
    }
  }

  /** What no generation touches: everything but the pool. */
  lemma GeneratedFrame(s: StoreState, n: nat, rnd: nat)
    ensures var s' := Generated(s, n, rnd);
            s' == s.(nextPreKeyID := s'.nextPreKeyID, preKeys := s'.preKeys)
  {
    hide Filed, NewPreKeys;
  }

  /** The key exchange a message offers this device, if it offers one it can read. */
  function OfferIn(cfg: Config, msg: EncryptedMessage): Option<KeyExchange> {
    var key := KeyFor(msg.keys, cfg.localDevice.id);
    if key.None? || key.value.keyExchange.None? || OfferedExchange(cfg, key.value).Err? then None
    else Some(OfferedExchange(cfg, key.value).value.0)
  }

  /** Decrypting `msg` takes a one-time prekey out of the pool. */
  predicate Consumes(cfg: Config, s: StoreState, msg: EncryptedMessage) {
    var kx := OfferIn(cfg, msg);
    kx.Some? && SignedPreKeyByID(s, kx.value.signedPreKeyID).Ok? && kx.value.preKeyID in s.preKeys
  }

  /** A decryption touches the sender's session and identity, and the pool exactly when it consumes. */
  lemma DecryptFrame(cfg: Config, s: StoreState, msg: EncryptedMessage)
    ensures var (s', r) := DecryptMessage(cfg, s, msg);
            && s' == s.(sessions := s'.sessions, remoteID := s'.remoteID, preKeys := s'.preKeys)
            && s'.preKeys == (if Consumes(cfg, s, msg) then s.preKeys - {OfferIn(cfg, msg).value.preKeyID}
               else s.preKeys)
            && (OfferIn(cfg, msg).Some? && !Consumes(cfg, s, msg) ==> s' == s && r.Err?)
  {
    hide DecryptKey, FindsBoth, OfferedExchange;
    var key := KeyFor(msg.keys, cfg.localDevice.id);
    if key.Some? {
      DecryptKeyPool(cfg, s, msg.sender, key.value);
      ConsumesBoth(cfg, s, msg);
    }
  }

  /** The exchange in `key` finds both its records. */
  predicate FindsBoth(cfg: Config, s: StoreState, key: RecipientKey) {
    && key.keyExchange.Some? && OfferedExchange(cfg, key).Ok?
    && var kx := OfferedExchange(cfg, key).value.0;
       SignedPreKeyByID(s, kx.signedPreKeyID).Ok? && kx.preKeyID in s.preKeys
  }

  lemma ConsumesBoth(cfg: Config, s: StoreState, msg: EncryptedMessage)
    requires KeyFor(msg.keys, cfg.localDevice.id).Some?
    ensures Consumes(cfg, s, msg) <==> FindsBoth(cfg, s, KeyFor(msg.keys, cfg.localDevice.id).value)
  {
    hide SignedPreKeyByID, OfferedExchange;
  }

  lemma DecryptKeyPool(cfg: Config, s: StoreState, sender: Device, key: RecipientKey)
    ensures var (s', r) := DecryptKey(cfg, s, sender, key);
            && s' == s.(sessions := s'.sessions, remoteID := s'.remoteID, preKeys := s'.preKeys)
            && s'.preKeys == (if FindsBoth(cfg, s, key) then s.preKeys - {OfferedExchange(cfg, key).value.0.preKeyID}
                              else s.preKeys)
            && (key.keyExchange.Some? && OfferedExchange(cfg, key).Ok? && !FindsBoth(cfg, s, key) ==> s' == s && r.Err?)
  {
    hide SignedPreKeyByID, NewPassive, Open, LoadSession, OfferedExchange;
  }

  /** After a reset a message from the device without a key exchange does not force a new session: it fails,
      and changes nothing. */
  lemma ResetRefusesPlain(cfg: Config, s: StoreState, dev: Device, msg: EncryptedMessage)
    requires msg.sender == dev
    requires var key := KeyFor(msg.keys, cfg.localDevice.id); key.Some? && key.value.keyExchange.None?
    ensures var reset := s.(sessions := s.sessions - {dev});
            DecryptMessage(cfg, reset, msg) == (reset, Err(ErrUnknownSession))
  {
  }
}
