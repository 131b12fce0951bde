/** The critical sections that run under one device's lock, as functions of that device's part of the
    store and of what the section observes elsewhere: the fetched bundle, a trust state, the resolver's
    verdict, its own prekey records, and at most one failing store call. */
module Sections {
  import opened Basics
  import opened Types
  import opened Signal
  import opened StoreModel
  import opened ManagerSpec

  /** The per-device part of the store. */
  datatype View = View(session: Option<Blob>, remote: Option<PubKey>)

  function ViewOf(s: StoreState, dev: Device): View {
    View(Lookup(s.sessions, dev), Lookup(s.remoteID, dev))
  }

  /** The store calls a section makes; a failing call has no effect and ends the section. */
  datatype StoreCall = LoadSessionCall | PutRemoteCall | LoadRemoteCall | LoadTrustCall | SetTrustCall | PutSessionCall
                     | DeleteSessionCall

  datatype EncryptOracle = EncryptOracle(bundle: Option<Bundle>, ek: nat, trust: TrustState, approved: bool,
      fault: Option<StoreCall>)

  datatype DecryptOracle = DecryptOracle(spk: Result<SignedPreKeyRecord, Error>, preKey: Result<PreKeyRecord, Error>,
                                         fault: Option<StoreCall>)

  /** Load the stored session or build one against the bundle, recording the peer's identity. */
  function OpenActive(cfg: Config, v: View, o: EncryptOracle)
    : (View, Result<(SessionState, Option<KeyExchange>), Error>)
  {
    if o.fault == Some(LoadSessionCall) then (v, Err(StoreFailed))
    else if v.session.Some? then
      (v, match LoadSession(cfg.protocol, v.session.value) case Ok(sess) => Ok((sess, None)) case Err(e) => Err(e))
    else if o.bundle.None? then (v, Err(BundleUnavailable))
    else
      match BuildActive(cfg, o.bundle.value, o.ek)
      case Err(e) => (v, Err(e))
      case Ok((sess, kx)) =>
        if o.fault == Some(PutRemoteCall) then (v, Err(StoreFailed))
        else (v.(remote := Some(o.bundle.value.identityKey)), Ok((sess, Some(kx))))
  }

  /** Whether the section may go on to encrypt; `SetTrust` happens only for an undecided, approved key. */
  function Verdict(cfg: Config, o: EncryptOracle): Option<Error> {
    if o.fault == Some(LoadTrustCall) then Some(StoreFailed)
    else match o.trust
      case TrustTrusted => None
      case TrustUntrusted => Some(ErrBlockedDevice)
      case TrustUndecided =>
        if cfg.resolver.None? then Some(ErrUntrustedDevice)
        else if !o.approved then Some(ResolverDeclined)
        else if o.fault == Some(SetTrustCall) then Some(StoreFailed)
        else None
  }

  function SealView(v: View, dev: Device, sess: SessionState, kx: Option<KeyExchange>, keyMaterial: nat,
          fault: Option<StoreCall>)
    : (View, Result<RecipientKey, Error>)
  {
    var (sess', data) := Seal(sess, keyMaterial);
    if data.Err? then (v, Err(data.error))
    else if fault == Some(PutSessionCall) then (v, Err(StoreFailed))
    else (v.(session := Some(Marshal(sess'))), Ok(RecipientKey(dev.id, data.value, kx)))
  }

  function EncryptSection(cfg: Config, dev: Device, v: View, keyMaterial: nat, o: EncryptOracle)
    : (View, Result<RecipientKey, Error>)
  {
    var (v1, active) := OpenActive(cfg, v, o);
    if active.Err? then (v1, Err(active.error))
    else if o.fault == Some(LoadRemoteCall) then (v1, Err(StoreFailed))
    else if v1.remote.None? then (v1, Err(NoKnownIdentityKey))
    else if Verdict(cfg, o).Some? then (v1, Err(Verdict(cfg, o).value))
    else SealView(v1, dev, active.value.0, active.value.1, keyMaterial, o.fault)
  }

  function OpenIncoming(cfg: Config, v: View, key: RecipientKey, o: DecryptOracle)
    : (View, Result<(SessionState, Wire), Error>)
  {
    if key.keyExchange.None? then
      if o.fault == Some(LoadSessionCall) then (v, Err(StoreFailed))
      else if v.session.None? then (v, Err(ErrUnknownSession))
      else match LoadSession(cfg.protocol, v.session.value)
        case Err(e) => (v, Err(e))
        case Ok(sess) => (v, Ok((sess, key.data)))
    else
      match OfferedExchange(cfg, key)
      case Err(e) => (v, Err(e))
      case Ok((kx, data)) =>
        if o.spk.Err? then (v, Err(o.spk.error))
        else if o.preKey.Err? then (v, Err(o.preKey.error))
        else
          match PassiveFrom(cfg, kx, o.spk.value, o.preKey.value)
          case Err(e) => (v, Err(e))
          case Ok(sess) =>
            if o.fault == Some(PutRemoteCall) then (v, Err(StoreFailed))
            else (v.(remote := Some(kx.identityKey)), Ok((sess, data)))
  }

  function PassiveFrom(cfg: Config, kx: KeyExchange, spk: SignedPreKeyRecord, pk: PreKeyRecord)
    : Result<SessionState, Error>
  {
    NewPassive(cfg.protocol, cfg.identityKey, kx.identityKey, spk.pub, spk.priv, pk.priv, kx.ephemeralKey)
  }

  function DecryptSection(cfg: Config, v: View, key: RecipientKey, o: DecryptOracle): (View, Result<nat, Error>) {
    var (v1, incoming) := OpenIncoming(cfg, v, key, o);
    if incoming.Err? then (v1, Err(incoming.error))
    else OpenView(v1, incoming.value.0, incoming.value.1, o.fault)
  }

  function OpenView(v: View, sess: SessionState, data: Wire, fault: Option<StoreCall>): (View, Result<nat, Error>) {
    var (sess', km) := Open(sess, data);
    if km.Err? then (v, Err(km.error))
    else if fault == Some(PutSessionCall) then (v, Err(StoreFailed))
    else (v.(session := Some(Marshal(sess'))), Ok(km.value))
  }

  function ResetSection(v: View, fault: Option<StoreCall>): View {
    if fault == Some(DeleteSessionCall) then v else v.(session := None)
  }

  // ---------- a device's history, section by section ----------

  datatype Entry =
    | EncryptEntry(keyMaterial: nat, encryptOracle: EncryptOracle)
    | DecryptEntry(key: RecipientKey, decryptOracle: DecryptOracle)
    | ResetEntry(fault: Option<StoreCall>)

  datatype Output =
    KeyOut(key: Result<RecipientKey, Error>) | MaterialOut(material: Result<nat, Error>) | ResetOut(failed: bool)

  function EntryEffect(cfg: Config, dev: Device, v: View, e: Entry): (View, Output) {
    match e
    case EncryptEntry(km, o) => var (v', r) := EncryptSection(cfg, dev, v, km, o); (v', KeyOut(r))
    case DecryptEntry(key, o) => var (v', r) := DecryptSection(cfg, v, key, o); (v', MaterialOut(r))
    case ResetEntry(fault) => (ResetSection(v, fault), ResetOut(fault == Some(DeleteSessionCall)))
  }

  /** Executing a device's sections one after the other. */
  function Replay(cfg: Config, dev: Device, v: View, log: seq<Entry>): (r: (View, seq<Output>))
    ensures |r.1| == |log|
  {
    if log == [] then (v, [])
    else
      var (v1, outs) := Replay(cfg, dev, v, log[..|log| - 1]);
      var (v2, out) := EntryEffect(cfg, dev, v1, log[|log| - 1]);
      (v2, outs + [out])
  }

  // ---------- the Manager's operations are their sections ----------

  /** The identity key whose trust an encryption to `dev` can consult or record. */
  function ConsultedKey(net: Net, s: StoreState, dev: Device): Option<PubKey> {
    if dev in s.sessions then Lookup(s.remoteID, dev)
    else if dev in net.bundles then Some(net.bundles[dev].identityKey)
    else None
  }

  /** What one encryption observes when nothing fails and nothing interleaves. */
  function ObservedByEncrypt(cfg: Config, net: Net, s: StoreState, dev: Device, ek: nat): EncryptOracle {
    var k := ConsultedKey(net, s, dev);
    EncryptOracle(Lookup(net.bundles, dev), ek, if k.Some? then TrustOf(s, k.value) else TrustUndecided,
                  k.Some? && cfg.resolver.Some? && cfg.resolver.value(dev, k.value), None)
  }

  function ObservedByDecrypt(cfg: Config, s: StoreState, key: RecipientKey): DecryptOracle {
    if key.keyExchange.None?
        || OfferedExchange(cfg, key).Err? then DecryptOracle(Err(UnknownSignedPreKey), Err(PreKeyNotFound), None)
    else
      var kx := OfferedExchange(cfg, key).value.0;
      DecryptOracle(SignedPreKeyByID(s, kx.signedPreKeyID), Consumed(s, kx.preKeyID).1, None)
  }

  /** `s` with `dev`'s part replaced. */
  function WithView(s: StoreState, dev: Device, v: View): StoreState {
    s.(sessions := if v.session.Some? then s.sessions[dev := v.session.value] else s.sessions - {dev},
       remoteID := if v.remote.Some? then s.remoteID[dev := v.remote.value] else s.remoteID - {dev})
  }

  /** Opening a session, as a whole and as its section. */
  lemma OpeningIsSection(cfg: Config, net: Net, s: StoreState, dev: Device, ek: nat)
    ensures var (s1, a) := ActiveSession(cfg, net, s, dev, ek);
            var (v1, b) := OpenActive(cfg, ViewOf(s, dev), ObservedByEncrypt(cfg, net, s, dev, ek));
            && a == b && s1 == WithView(s, dev, v1) && s1.trust == s.trust
            && Lookup(s1.remoteID, dev) == v1.remote
            && (a.Ok? ==> ConsultedKey(net, s, dev) == v1.remote)
  {
    hide BuildActive, LoadSession;
    SameView(s, dev);
  }

  lemma SealingIsView(s: StoreState, dev: Device, v: View, trust: map<PubKey, TrustState>, sess: SessionState,
          kx: Option<KeyExchange>, keyMaterial: nat)
    ensures var (s3, r) := SealKey(WithView(s, dev, v).(trust := trust), dev, sess, kx, keyMaterial);
            var (v3, q) := SealView(v, dev, sess, kx, keyMaterial, None);
            r == q && s3 == WithView(s, dev, v3).(trust := trust)
  {
    hide Seal;
  }

  /** `encryptForDevice` is its section on `dev`'s part of the store, plus recording an approved key. */
  lemma EncryptIsSection(cfg: Config, net: Net, s: StoreState, dev: Device, keyMaterial: nat, ek: nat)
    ensures var (s', r) := EncryptForDevice(cfg, net, s, dev, keyMaterial, ek);
            var o := ObservedByEncrypt(cfg, net, s, dev, ek);
            var (v', q) := EncryptSection(cfg, dev, ViewOf(s, dev), keyMaterial, o);
            var (v1, active) := OpenActive(cfg, ViewOf(s, dev), o);
            && r == q
            && s' == WithView(s, dev, v').(trust :=
                 if active.Ok? && v1.remote.Some? && o.trust == TrustUndecided && Verdict(cfg, o).None?
                 then s.trust[v1.remote.value := TrustTrusted] else s.trust)
  {
    hide ActiveSession, OpenActive, ConsultedKey, SealKey, SealView, WithView;
    var o := ObservedByEncrypt(cfg, net, s, dev, ek);
    var (s1, a) := ActiveSession(cfg, net, s, dev, ek);
    var (v1, b) := OpenActive(cfg, ViewOf(s, dev), o);
    OpeningIsSection(cfg, net, s, dev, ek);
    if a.Ok? && dev in s1.remoteID {
      var key := s1.remoteID[dev];
      var (s2, refusal) := CheckTrust(cfg, s1, dev, key);
      assert refusal == Verdict(cfg, o);
      assert s2 == s1.(trust := if o.trust == TrustUndecided && refusal.None? then s.trust[key := TrustTrusted]
          else s.trust);
      if refusal.None? {
        SealingIsView(s, dev, v1, s2.trust, a.value.0, a.value.1, keyMaterial);
      }
    }
  }

  lemma SameView(s: StoreState, dev: Device)
    ensures WithView(s, dev, ViewOf(s, dev)) == s
  {
    assert dev !in s.sessions ==> s.sessions - {dev} == s.sessions;
    assert dev !in s.remoteID ==> s.remoteID - {dev} == s.remoteID;
  }

  lemma ViewWith(s: StoreState, dev: Device, v: View, trust: map<PubKey, TrustState>)
    ensures ViewOf(WithView(s, dev, v).(trust := trust), dev) == v
    ensures forall d :: d != dev ==> ViewOf(WithView(s, dev, v).(trust := trust), d) == ViewOf(s, d)
  {
  }

  /** The decrypting half of `DecryptMessage` is its section, plus consuming the named prekey. */
  lemma DecryptIsSection(cfg: Config, s: StoreState, sender: Device, key: RecipientKey)
    ensures var (s', r) := DecryptKey(cfg, s, sender, key);
            var o := ObservedByDecrypt(cfg, s, key);
            var (v', q) := DecryptSection(cfg, ViewOf(s, sender), key, o);
            && r == q
            && s' == WithView(s, sender, v').(preKeys :=
                 if key.keyExchange.Some? && OfferedExchange(cfg, key).Ok? && o.spk.Ok? && o.preKey.Ok?
                 then s.preKeys - {OfferedExchange(cfg, key).value.0.preKeyID} else s.preKeys)
  {
    hide NewPassive, Open, LoadSession, SignedPreKeyByID;
    var o := ObservedByDecrypt(cfg, s, key);
    var v := ViewOf(s, sender);
    SameView(s, sender);
    var (s1, a) := SessionForIncoming(cfg, s, sender, key);
    var (v1, b) := OpenIncoming(cfg, v, key, o);
    var consumed := key.keyExchange.Some? && OfferedExchange(cfg, key).Ok? && o.spk.Ok? && o.preKey.Ok?;
    assert a == b;
    assert s1 == WithView(s, sender, v1).(preKeys := if consumed
        then s.preKeys - {OfferedExchange(cfg, key).value.0.preKeyID} else s.preKeys);
  }

  lemma ResetIsSection(s: StoreState, dev: Device)
    ensures WithView(s, dev, ResetSection(ViewOf(s, dev), None)) == s.(sessions := s.sessions - {dev})
  {
    SameView(s, dev);
  }
}
