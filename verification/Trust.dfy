/** Trust decisions and stored sessions over whole runs. */
module Trust {
  import opened Basics
  import opened Types
  import opened Signal
  import opened StoreModel
  import opened ManagerSpec
  import opened Sections
  import opened Runs

  // ---------- what was trusted when a key left ----------

  /** A returned RecipientKey, with the identity recorded for its device at that moment and the decision on record
      about it. */
  datatype Emission = Emission(device: Device, key: RecipientKey, identity: Option<PubKey>, trust: Option<TrustState>)

  function EmissionAt(s: StoreState, dev: Device, key: RecipientKey): Emission {
    var k := Lookup(s.remoteID, dev);
    Emission(dev, key, k, if k.Some? then Lookup(s.trust, k.value) else None)
  }

  function FanOutEmissions(cfg: Config, net: Net, s: StoreState, work: seq<(Device, nat)>, keyMaterial: nat)
    : seq<Emission>
  {
    if work == [] then []
    else
      var n := |work| - 1;
      var s1 := FanOut(cfg, net, s, work[..n], keyMaterial).0;
      var (s2, o) := FanOutOne(cfg, net, s1, work[n].0, keyMaterial, work[n].1);
      FanOutEmissions(cfg, net, s, work[..n], keyMaterial) + if o.Sealed? then [EmissionAt(s2, work[n].0, o.key)]
          else []
  }

  function ActionEmissions(cfg: Config, l: Local, a: Action): seq<Emission> {
    if !a.DoEncrypt? then []
    else
      var (s1, devices) := RecipientDevices(cfg, a.net, l.store, a.jid);
      if devices.Err? then []
      else FanOutEmissions(cfg, a.net, s1, WorkFor(devices.value, l.rnd + 2), l.rnd)
  }

  /** Every key a run returned, in order. */
  function Transcript(cfg: Config, l: Local, acts: seq<Action>): seq<Emission> {
    if acts == [] then []
    else
      var init := acts[..|acts| - 1];
      Transcript(cfg, l, init) + ActionEmissions(cfg, Run(cfg, l, init), acts[|acts| - 1])
  }

  /** The recipient keys of emissions, in order. */
  function KeysIn(es: seq<Emission>): (keys: seq<RecipientKey>)
    ensures |keys| == |es|
  {
    seq(|es|, i requires 0 <= i < |es| => es[i].key)
  }

  /** The recipient keys of every message a run returned, in order. */
  function ReturnedKeys(cfg: Config, l: Local, acts: seq<Action>): seq<RecipientKey> {
    if acts == [] then []
    else
      var init, a := acts[..|acts| - 1], acts[|acts| - 1];
      ReturnedKeys(cfg, l, init) + if a.DoEncrypt? then KeysReturnedBy(cfg, Run(cfg, l, init), a) else []
  }

  function KeysReturnedBy(cfg: Config, l: Local, a: Action): seq<RecipientKey>
    requires a.DoEncrypt?
  {
    var e := Encrypt(cfg, a.net, l.store, l.rnd, a.jid, a.plaintext);
    if e.msg.Some? then e.msg.value.keys else []
  }

  lemma {:induction false} EmissionsAreKeys(cfg: Config, net: Net, s: StoreState, work: seq<(Device, nat)>,
          keyMaterial: nat)
    ensures KeysIn(FanOutEmissions(cfg, net, s, work, keyMaterial)) == KeysOf(FanOut(cfg, net, s, work, keyMaterial).1)
  {
    hide FanOutOne;
    if work != [] {
      var n := |work| - 1;
      EmissionsAreKeys(cfg, net, s, work[..n], keyMaterial);
      var (s1, outs) := FanOut(cfg, net, s, work[..n], keyMaterial);
      var (s2, o) := FanOutOne(cfg, net, s1, work[n].0, keyMaterial, work[n].1);
      assert (outs + [o])[..n] == outs;
    }
  }

  /** The transcript lists exactly the keys of the returned messages. */
  lemma {:induction false} TranscriptIsReturned(cfg: Config, l: Local, acts: seq<Action>)
    ensures KeysIn(Transcript(cfg, l, acts)) == ReturnedKeys(cfg, l, acts)
  {
    hide ActionEmissions, KeysReturnedBy, Apply;
    if acts != [] {
      var init, a := acts[..|acts| - 1], acts[|acts| - 1];
      TranscriptIsReturned(cfg, l, init);
      ActionKeys(cfg, Run(cfg, l, init), a);
      KeysInConcat(Transcript(cfg, l, init), ActionEmissions(cfg, Run(cfg, l, init), a));
    }
  }

  lemma KeysInConcat(a: seq<Emission>, b: seq<Emission>)
    ensures KeysIn(a + b) == KeysIn(a) + KeysIn(b)
  {
  }

  lemma ActionKeys(cfg: Config, l: Local, a: Action)
    ensures KeysIn(ActionEmissions(cfg, l, a)) == if a.DoEncrypt? then KeysReturnedBy(cfg, l, a) else []
  {
    hide FanOut, FanOutEmissions, RecipientDevices;
    if a.DoEncrypt? {
      var (s1, devices) := RecipientDevices(cfg, a.net, l.store, a.jid);
      if devices.Ok? { EmissionsAreKeys(cfg, a.net, s1, WorkFor(devices.value, l.rnd + 2), l.rnd); }
    }
  }

  /** The trust store says "trusted" of `k`. */
  predicate OnRecordTrusted(s: StoreState, k: PubKey) {
    Lookup(s.trust, k) == Some(TrustTrusted)
  }

  /** The resolver would approve `k` for some device. */
  ghost predicate Approvable(cfg: Config, k: PubKey) {
    cfg.resolver.Some? && exists dev :: cfg.resolver.value(dev, k)
  }

  /** How a Manager call may change trust: not at all, or from undecided to trusted with approval. */
  ghost predicate TrustStep(cfg: Config, s: StoreState, s': StoreState) {
    forall k :: Lookup(s'.trust, k) != Lookup(s.trust, k) ==>
      Undecided(s, k) && OnRecordTrusted(s', k) && Approvable(cfg, k)
  }

  // ---------- the stages of one encryption ----------

  /** Opening a session can only set the device's own recorded identity. */
  lemma ActiveStage(cfg: Config, net: Net, s: StoreState, dev: Device, ek: nat)
    ensures var (s1, active) := ActiveSession(cfg, net, s, dev, ek);
            && s1 == s.(remoteID := s1.remoteID)
            && (s1.remoteID == s.remoteID || (dev !in s.sessions && dev in net.bundles
                                              && s1.remoteID == s.remoteID[dev := net.bundles[dev].identityKey]))
            && (active.Ok? && dev in s.sessions ==>
                  s1 == s && LoadSession(cfg.protocol, s.sessions[dev]) == Ok(active.value.0) && active.value.1.None?)
            && (active.Ok? && dev !in s.sessions ==>
                  && dev in net.bundles && dev in s1.remoteID && s1.remoteID[dev] == net.bundles[dev].identityKey
                  && BuildActive(cfg, net.bundles[dev], ek).Ok?
                  && BuildActive(cfg, net.bundles[dev], ek).value.0 == active.value.0
                  && active.value.1 == Some(BuildActive(cfg, net.bundles[dev], ek).value.1))
            && (active.Err? ==> active.error in {BundleUnavailable, NoPreKeysInBundle, X3DHFailed}
                                || (dev in s.sessions && LoadSession(cfg.protocol, s.sessions[dev]).Err?))
  {
  }

  lemma BuiltSession(cfg: Config, b: Bundle, ek: nat)
    ensures var r := BuildActive(cfg, b, ek);
            r.Ok? ==> var sess := r.value.0;
                      && sess.protocol == cfg.protocol && sess.ratchet.canSend && sess.ratchet.role == Active
                      && sess.ratchet.root.responder == b.identityKey
  {
  }

  lemma TrustStage(cfg: Config, s: StoreState, dev: Device, key: PubKey)
    ensures var (s', refusal) := CheckTrust(cfg, s, dev, key);
            && s' == s.(trust := s'.trust)
            && TrustStep(cfg, s, s')
            && (refusal.None? ==> OnRecordTrusted(s', key) && Lookup(s.trust, key) != Some(TrustUntrusted))
            && (refusal.Some? ==> s' == s && refusal.value in {ErrBlockedDevice, ErrUntrustedDevice, ResolverDeclined})
  {
  }

  lemma SealStage(s: StoreState, dev: Device, sess: SessionState, kx: Option<KeyExchange>, keyMaterial: nat)
    ensures var (s', r) := SealKey(s, dev, sess, kx, keyMaterial);
            && (r.Err? ==> s' == s && !sess.ratchet.canSend)
            && (r.Ok? ==> sess.ratchet.canSend
                          && s' == s.(sessions := s.sessions[dev := Blob(sess.protocol,
                             sess.ratchet.(sent := sess.ratchet.sent + 1))]))
  {
  }

  lemma EntryTrust(cfg: Config, net: Net, s: StoreState, dev: Device, keyMaterial: nat, ek: nat)
    ensures var (s', o) := FanOutOne(cfg, net, s, dev, keyMaterial, ek);
            && TrustStep(cfg, s, s')
            && (o.Sealed? ==> dev in s'.remoteID && OnRecordTrusted(s', s'.remoteID[dev]))
            && (o.Sealed? ==> Lookup(s.trust, s'.remoteID[dev]) != Some(TrustUntrusted))
  {
    hide ActiveSession, CheckTrust, SealKey, BuildActive;
    if dev != cfg.localDevice {
      ActiveStage(cfg, net, s, dev, ek);
      var (s1, active) := ActiveSession(cfg, net, s, dev, ek);
      assert s1.trust == s.trust;
      if active.Ok? && dev in s1.remoteID {
        TrustStage(cfg, s1, dev, s1.remoteID[dev]);
        var (s2, refusal) := CheckTrust(cfg, s1, dev, s1.remoteID[dev]);
        if refusal.None? {
          SealStage(s2, dev, active.value.0, active.value.1, keyMaterial);
          assert EncryptForDevice(cfg, net, s, dev, keyMaterial, ek) ==
              SealKey(s2, dev, active.value.0, active.value.1, keyMaterial);
        }
      }
    }
  }

  lemma {:induction false} FanOutTrust(cfg: Config, net: Net, s: StoreState, work: seq<(Device, nat)>, keyMaterial: nat)
    ensures TrustStep(cfg, s, FanOut(cfg, net, s, work, keyMaterial).0)
    ensures forall e :: e in FanOutEmissions(cfg, net, s, work, keyMaterial) ==>
              && e.identity.Some? && e.trust == Some(TrustTrusted)
              && Lookup(s.trust, e.identity.value) != Some(TrustUntrusted)
              && (OnRecordTrusted(s, e.identity.value) || Approvable(cfg, e.identity.value))
  {
    hide FanOutOne;
    if work != [] {
      var n := |work| - 1;
      FanOutTrust(cfg, net, s, work[..n], keyMaterial);
      EntryTrust(cfg, net, FanOut(cfg, net, s, work[..n], keyMaterial).0, work[n].0, keyMaterial, work[n].1);
    }
  }

  lemma ActionTrust(cfg: Config, l: Local, a: Action)
    ensures !a.AppSetTrust? ==> TrustStep(cfg, l.store, Apply(cfg, l, a).store)
    ensures a.AppSetTrust? ==> Apply(cfg, l, a).store.trust == l.store.trust[a.key := a.trust]
    ensures forall e :: e in ActionEmissions(cfg, l, a) ==>
              && e.identity.Some? && e.trust == Some(TrustTrusted)
              && Lookup(l.store.trust, e.identity.value) != Some(TrustUntrusted)
              && (OnRecordTrusted(l.store, e.identity.value) || Approvable(cfg, e.identity.value))
  {
    hide FanOut, FanOutEmissions, DecryptMessage, Generated, RecipientDevices;
    match a {
      case DoEncrypt(net, jid, plaintext) =>
        RecipientDevicesFrame(cfg, net, l.store, jid);
        var (s1, devices) := RecipientDevices(cfg, net, l.store, jid);
        if devices.Ok? {
          FanOutTrust(cfg, net, s1, WorkFor(devices.value, l.rnd + 2), l.rnd);
        }
      case DoDecrypt(msg) => DecryptFrame(cfg, l.store, msg);
      case DoGenerate(n) => GeneratedFrame(l.store, n, l.rnd);
      case _ =>
    }
  }

  /** Over every run: each key of each returned message left while the trust store said "trusted" of the identity
      recorded for its device, and Manager calls change what it says only from nothing or undecided to trusted, with
      the resolver's approval. */
  lemma {:induction false} EveryKeyLeftTrusted(cfg: Config, l: Local, acts: seq<Action>)
    ensures KeysIn(Transcript(cfg, l, acts)) == ReturnedKeys(cfg, l, acts)
    ensures forall e :: e in Transcript(cfg, l, acts) ==> e.identity.Some? && e.trust == Some(TrustTrusted)
    ensures (forall i :: 0 <= i < |acts| ==> !acts[i].AppSetTrust?) ==>
              forall k :: Lookup(Run(cfg, l, acts).store.trust, k) != Lookup(l.store.trust, k) ==>
                Undecided(l.store, k) && OnRecordTrusted(Run(cfg, l, acts).store, k) && Approvable(cfg, k)
  {
    hide Apply, ActionEmissions, ReturnedKeys;
    TranscriptIsReturned(cfg, l, acts);
    if acts != [] {
      var init, a := acts[..|acts| - 1], acts[|acts| - 1];
      EveryKeyLeftTrusted(cfg, l, init);
      ActionTrust(cfg, Run(cfg, l, init), a);
    }
  }

  /** The application marked `k` trusted in the course of the run. */
  ghost predicate MarkedTrusted(acts: seq<Action>, k: PubKey) {
    AppSetTrust(k, TrustTrusted) in acts
  }

  /** Whoever got a key had its identity trusted by somebody: it was on record to begin with, the application marked
      it, or the resolver approves it. */
  lemma {:induction false} TrustHasASource(cfg: Config, l: Local, acts: seq<Action>, k: PubKey)
    ensures OnRecordTrusted(Run(cfg, l, acts).store, k) ==>
              OnRecordTrusted(l.store, k) || MarkedTrusted(acts, k) || Approvable(cfg, k)
    ensures forall e :: e in Transcript(cfg, l, acts) && e.identity == Some(k) ==>
              OnRecordTrusted(l.store, k) || MarkedTrusted(acts, k) || Approvable(cfg, k)
  {
    hide Apply, ActionEmissions, Approvable;
    if acts != [] {
      var init, a := acts[..|acts| - 1], acts[|acts| - 1];
      TrustHasASource(cfg, l, init, k);
      ActionTrust(cfg, Run(cfg, l, init), a);
    }
  }

  /** Without a resolver a new device sends nothing to anybody until the application has marked a key trusted,
      whatever bundles it fetches and whoever writes to it. */
  lemma NothingLeavesUndecided(cfg: Config, l: Local, acts: seq<Action>)
    requires FreshDevice(cfg, l) && cfg.resolver.None?
    requires forall a :: a in acts && a.AppSetTrust? ==> a.trust != TrustTrusted
    ensures ReturnedKeys(cfg, l, acts) == []
  {
    hide Run, Transcript, ReturnedKeys;
    assert l.store.trust == map[] by { hide Filed, NewPreKeys; }
    EveryKeyLeftTrusted(cfg, l, acts);
    var es := Transcript(cfg, l, acts);
    if es != [] { TrustHasASource(cfg, l, acts, es[0].identity.value); }
  }

  /** A key marked untrusted stays untrusted, and no device recorded under it gets anything, until the
      application itself changes the decision. */
  lemma {:induction false} UntrustedGetsNothing(cfg: Config, l: Local, acts: seq<Action>, key: PubKey)
    requires Lookup(l.store.trust, key) == Some(TrustUntrusted)
    requires forall i :: 0 <= i < |acts| ==> !(acts[i].AppSetTrust? && acts[i].key == key)
    ensures Lookup(Run(cfg, l, acts).store.trust, key) == Some(TrustUntrusted)
    ensures KeysIn(Transcript(cfg, l, acts)) == ReturnedKeys(cfg, l, acts)
    ensures forall e :: e in Transcript(cfg, l, acts) ==> e.identity != Some(key)
  {
    hide Apply, ActionEmissions, ReturnedKeys;
    TranscriptIsReturned(cfg, l, acts);
    if acts != [] {
      var init, a := acts[..|acts| - 1], acts[|acts| - 1];
      UntrustedGetsNothing(cfg, l, init, key);
      ActionTrust(cfg, Run(cfg, l, init), a);
    }
  }

  // ---------- stored sessions ----------

  /** Every stored session loads, can send, and has a recorded remote identity. */
  ghost predicate StoredInv(cfg: Config, s: StoreState) {
    forall d :: d in s.sessions ==>
      && d in s.remoteID
      && LoadSession(cfg.protocol, s.sessions[d]).Ok?
      && s.sessions[d].ratchet.canSend
  }

  lemma OpeningStored(cfg: Config, net: Net, s: StoreState, dev: Device, ek: nat)
    requires StoredInv(cfg, s)
    ensures var (s1, active) := ActiveSession(cfg, net, s, dev, ek);
            && StoredInv(cfg, s1)
            && (active.Ok? ==>
                  dev in s1.remoteID && active.value.0.protocol == cfg.protocol && active.value.0.ratchet.canSend)
            && (active.Err? ==> active.error !in {NoKnownIdentityKey, BadSessionBlob, RatchetFailed})
  {
    ActiveStage(cfg, net, s, dev, ek);
    if dev in net.bundles { BuiltSession(cfg, net.bundles[dev], ek); }
    hide ActiveSession, BuildActive;
  }

  lemma EntryStored(cfg: Config, net: Net, s: StoreState, dev: Device, keyMaterial: nat, ek: nat)
    requires StoredInv(cfg, s)
    ensures var (s', o) := FanOutOne(cfg, net, s, dev, keyMaterial, ek);
            && StoredInv(cfg, s')
            && (o.Failed? ==> o.error != NoKnownIdentityKey && o.error != BadSessionBlob && o.error != RatchetFailed)
  {
    hide ActiveSession, CheckTrust, SealKey, TrustStep;
    if dev != cfg.localDevice {
      OpeningStored(cfg, net, s, dev, ek);
      var (s1, active) := ActiveSession(cfg, net, s, dev, ek);
      if active.Ok? {
        TrustStage(cfg, s1, dev, s1.remoteID[dev]);
        var (s2, refusal) := CheckTrust(cfg, s1, dev, s1.remoteID[dev]);
        if refusal.None? {
          SealStage(s2, dev, active.value.0, active.value.1, keyMaterial);
          assert EncryptForDevice(cfg, net, s, dev, keyMaterial, ek) ==
              SealKey(s2, dev, active.value.0, active.value.1, keyMaterial);
        }
      }
    }
  }

  /** Some entry of a fan-out failed for a reason a healthy store rules out. */
  ghost predicate ImpossibleFailure(o: Outcome) {
    o.Failed? && o.error in {NoKnownIdentityKey, BadSessionBlob, RatchetFailed}
  }

  lemma {:induction false} FanOutStored(cfg: Config, net: Net, s: StoreState, work: seq<(Device, nat)>,
          keyMaterial: nat)
    requires StoredInv(cfg, s)
    ensures var (s', outs) := FanOut(cfg, net, s, work, keyMaterial);
            StoredInv(cfg, s') && forall o :: o in outs ==> !ImpossibleFailure(o)
  {
    hide FanOutOne;
    if work != [] {
      var n := |work| - 1;
      FanOutStored(cfg, net, s, work[..n], keyMaterial);
      EntryStored(cfg, net, FanOut(cfg, net, s, work[..n], keyMaterial).0, work[n].0, keyMaterial, work[n].1);
    }
  }

  lemma IncomingStored(cfg: Config, s: StoreState, sender: Device, key: RecipientKey)
    requires StoredInv(cfg, s)
    ensures var (s1, incoming) := SessionForIncoming(cfg, s, sender, key);
            StoredInv(cfg, s1) && (incoming.Ok? ==> sender in s1.remoteID && incoming.value.0.protocol == cfg.protocol)
  {
    hide SignedPreKeyByID;
  }

  lemma DecryptStored(cfg: Config, s: StoreState, msg: EncryptedMessage)
    requires StoredInv(cfg, s)
    ensures StoredInv(cfg, DecryptMessage(cfg, s, msg).0)
  {
    hide SessionForIncoming, Open;
    var key := KeyFor(msg.keys, cfg.localDevice.id);
    if key.Some? {
      IncomingStored(cfg, s, msg.sender, key.value);
      var (s1, incoming) := SessionForIncoming(cfg, s, msg.sender, key.value);
      if incoming.Ok? {
        OpenedCanSend(incoming.value.0, incoming.value.1);
        var (sess', km) := Open(incoming.value.0, incoming.value.1);
        if km.Ok? {
          assert DecryptMessage(cfg, s, msg).0 == s1.(sessions := s1.sessions[msg.sender := Marshal(sess')]);
        } else {
          assert DecryptMessage(cfg, s, msg).0 == s1;
        }
      } else {
        assert DecryptMessage(cfg, s, msg).0 == s1;
      }
    }
  }

  lemma OpenedCanSend(sess: SessionState, data: Wire)
    ensures var (sess', km) := Open(sess, data);
            km.Ok? ==> sess'.protocol == sess.protocol && sess'.ratchet.canSend
  {
  }

  lemma ActionStored(cfg: Config, l: Local, a: Action)
    requires StoredInv(cfg, l.store)
    ensures StoredInv(cfg, Apply(cfg, l, a).store)
  {
    hide FanOut, DecryptMessage, Generated, RecipientDevices;
    match a {
      case DoEncrypt(net, jid, plaintext) =>
        RecipientDevicesFrame(cfg, net, l.store, jid);
        var (s1, devices) := RecipientDevices(cfg, net, l.store, jid);
        if devices.Ok? {
          FanOutStored(cfg, net, s1, WorkFor(devices.value, l.rnd + 2), l.rnd);
        }
      case DoDecrypt(msg) => DecryptStored(cfg, l.store, msg);
      case DoGenerate(n) => GeneratedFrame(l.store, n, l.rnd);
      case _ =>
    }
  }

  /** In every state a fresh device can reach, every stored session has a recorded identity and can send;
      so no encryption ever fails for want of an identity key, a readable session or a sending chain. */
  lemma {:induction false} StoredSessionsUsable(cfg: Config, l: Local, acts: seq<Action>, net: Net,
          work: seq<(Device, nat)>, keyMaterial: nat)
    requires FreshDevice(cfg, l)
    ensures StoredInv(cfg, Run(cfg, l, acts).store)
    ensures forall o :: o in FanOut(cfg, net, Run(cfg, l, acts).store, work, keyMaterial).1 ==> !ImpossibleFailure(o)
  {
    hide Apply, FanOut;
    if acts == [] {
      hide Filed, NewPreKeys;
      assert l.store.sessions == map[];
    } else {
      StoredSessionsUsable(cfg, l, acts[..|acts| - 1], net, work, keyMaterial);
      ActionStored(cfg, Run(cfg, l, acts[..|acts| - 1]), acts[|acts| - 1]);
    }
    FanOutStored(cfg, net, Run(cfg, l, acts).store, work, keyMaterial);
  }

  // ---------- whose key is recorded ----------

  /** The peer's identity key a session was derived from. */
  function PeerKey(r: Ratchet): PubKey {
    if r.role == Active then r.root.responder else r.root.initiator
  }

  /** The identity recorded for `dev` is the one its stored session was derived from. */
  predicate RecordMatches(s: StoreState, dev: Device) {
    dev in s.sessions ==>
        s.sessions[dev].Blob? && dev in s.remoteID && s.remoteID[dev] == PeerKey(s.sessions[dev].ratchet)
  }

  /** No key that X3DH needs at the responder is nil. */
  predicate Derivable(cfg: Config, kx: KeyExchange, spk: SignedPreKeyRecord, pk: PreKeyRecord) {
    && cfg.identityKey.Priv? && kx.identityKey.Pub? && kx.ephemeralKey.Pub?
    && spk.pub.Pub? && spk.priv.Priv? && pk.priv.Priv?
  }

  /** The secret the responder derives from these halves. */
  function DerivedRoot(cfg: Config, kx: KeyExchange, spk: SignedPreKeyRecord, pk: PreKeyRecord): Root
    requires Derivable(cfg, kx, spk, pk)
  {
    Root(Agree(spk.priv.n, kx.identityKey.n), Agree(cfg.identityKey.n, kx.ephemeralKey.n),
        Agree(spk.priv.n, kx.ephemeralKey.n),
         Agree(pk.priv.n, kx.ephemeralKey.n), kx.identityKey, Pub(cfg.identityKey.n), spk.pub)
  }

  /** This device holds usable halves under both IDs of the exchange. */
  predicate Acceptable(cfg: Config, s: StoreState, kx: KeyExchange) {
    var spk := SignedPreKeyByID(s, kx.signedPreKeyID);
    spk.Ok? && kx.preKeyID in s.preKeys && Derivable(cfg, kx, spk.value, s.preKeys[kx.preKeyID])
  }

  /** `data` is an initiator's message under the secret the exchange leads to. */
  predicate OpensUnder(cfg: Config, s: StoreState, kx: KeyExchange, data: Wire)
    requires Acceptable(cfg, s, kx)
  {
    && data.Whisper? && data.sender == Active
    && data.root == DerivedRoot(cfg, kx, SignedPreKeyByID(s, kx.signedPreKeyID).value, s.preKeys[kx.preKeyID])
  }

  /** The failing family: a key exchange under another identity key, naming prekeys this device holds, whose
      first message is not one of the session it leads to. The new key is recorded while the old session
      stays. */
  predicate OrphansRecord(cfg: Config, s: StoreState, sender: Device, key: RecipientKey) {
    && key.keyExchange.Some?
    && sender in s.sessions && sender in s.remoteID
    && OfferedExchange(cfg, key).Ok?
    && var (kx, data) := OfferedExchange(cfg, key).value;
       && kx.identityKey != s.remoteID[sender]
       && Acceptable(cfg, s, kx) && !OpensUnder(cfg, s, kx, data)
  }

  /** An exchange is accepted exactly when `Acceptable`, and its first message then opens exactly when
      `OpensUnder`. */
  lemma AcceptedExactly(cfg: Config, s: StoreState, sender: Device, key: RecipientKey)
    requires key.keyExchange.Some? && OfferedExchange(cfg, key).Ok?
    ensures var (kx, data) := OfferedExchange(cfg, key).value;
            var incoming := SessionForIncoming(cfg, s, sender, key).1;
            && (incoming.Ok? <==> Acceptable(cfg, s, kx))
            && (incoming.Ok? ==>
                  incoming.value.1 == data && (Open(incoming.value.0, data).1.Ok? <==> OpensUnder(cfg, s, kx, data)))
  {
    hide SignedPreKeyByID;
  }

  /** Receiving keeps record and session in step, except exactly in the failing family. */
  lemma DecryptKeepsRecordIff(cfg: Config, s: StoreState, sender: Device, key: RecipientKey)
    requires RecordMatches(s, sender)
    ensures RecordMatches(DecryptKey(cfg, s, sender, key).0, sender) <==> !OrphansRecord(cfg, s, sender, key)
  {
    hide SignedPreKeyByID, Acceptable, OpensUnder;
    var (s1, incoming) := SessionForIncoming(cfg, s, sender, key);
    if key.keyExchange.Some? && OfferedExchange(cfg, key).Ok? { AcceptedExactly(cfg, s, sender, key); }
    if incoming.Ok? {
      var sess := incoming.value.0;
      var (sess', km) := Open(sess, incoming.value.1);
      assert PeerKey(sess'.ratchet) == PeerKey(sess.ratchet);
      if key.keyExchange.Some? {
        assert PeerKey(sess.ratchet) == OfferedExchange(cfg, key).value.0.identityKey == s1.remoteID[sender];
      }
    }
  }

  /** One such input: a well-formed key exchange under another identity key, naming prekeys this device
      holds, with an unreadable body. */
  lemma UnreadableFirstMessageOrphansRecord(cfg: Config, s: StoreState, sender: Device, other: nat, id: U32)
    requires cfg.protocol == ProtocolV2 && cfg.identityKey.Priv?
    requires sender in s.sessions && RecordMatches(s, sender) && s.remoteID[sender] != Pub(other)
    requires s.currentSPK.pub.Pub? && s.currentSPK.priv.Priv? && id in s.preKeys && s.preKeys[id].priv.Priv?
    ensures var key := RecipientKey(cfg.localDevice.id, Junk,
            Some(KeyExchange(Pub(other), Pub(0), s.currentSPK.id, id)));
            var (s', r) := DecryptKey(cfg, s, sender, key);
            && r == Err(RatchetFailed)
            && s'.sessions == s.sessions && s'.remoteID[sender] == Pub(other) != PeerKey(s'.sessions[sender].ratchet)
            && id !in s'.preKeys
  {
  }

  /** Exactly which messages build a session where there is none, after a reset for instance: those with a key
      exchange whose halves this device holds and whose first message is of the session it leads to. */
  lemma BuildsSessionIff(cfg: Config, s: StoreState, msg: EncryptedMessage)
    requires msg.sender !in s.sessions
    ensures msg.sender in DecryptMessage(cfg, s, msg).0.sessions
            <==> var key := KeyFor(msg.keys, cfg.localDevice.id);
                 && key.Some? && key.value.keyExchange.Some? && OfferedExchange(cfg, key.value).Ok?
                 && var (kx, data) := OfferedExchange(cfg, key.value).value;
                    Acceptable(cfg, s, kx) && OpensUnder(cfg, s, kx, data)
  {
    hide Acceptable, OpensUnder, OfferedExchange, AcceptKeyExchange, Open;
    var key := KeyFor(msg.keys, cfg.localDevice.id);
    if key.Some? && key.value.keyExchange.Some? {
      IncomingSessions(cfg, s, msg.sender, key.value);
      if OfferedExchange(cfg, key.value).Ok? { AcceptedExactly(cfg, s, msg.sender, key.value); }
    }
  }

  lemma IncomingSessions(cfg: Config, s: StoreState, sender: Device, key: RecipientKey)
    ensures SessionForIncoming(cfg, s, sender, key).0.sessions == s.sessions
  {
    hide SignedPreKeyByID, NewPassive, LoadSession;
  }

  /** Each device has one identity key for life, as seen through bundles and key exchanges. */
  ghost predicate OneKeyForLife(cfg: Config, owner: Device -> PubKey, a: Action) {
    match a
    case DoEncrypt(net, jid, plaintext) => forall d :: d in net.bundles ==> net.bundles[d].identityKey == owner(d)
    case DoDecrypt(msg) => OfferIn(cfg, msg).Some? ==> OfferIn(cfg, msg).value.identityKey == owner(msg.sender)
    case _ => true
  }

  ghost predicate RecordInv(owner: Device -> PubKey, s: StoreState) {
    && (forall d :: d in s.sessions ==> RecordMatches(s, d) && d in s.remoteID)
    && (forall d :: d in s.remoteID ==> s.remoteID[d] == owner(d))
  }

  lemma OpeningRecord(cfg: Config, owner: Device -> PubKey, net: Net, s: StoreState, dev: Device, ek: nat)
    requires RecordInv(owner, s)
    requires dev in net.bundles ==> net.bundles[dev].identityKey == owner(dev)
    ensures var (s1, active) := ActiveSession(cfg, net, s, dev, ek);
            && RecordInv(owner, s1)
            && (active.Ok? ==> dev in s1.remoteID && PeerKey(active.value.0.ratchet) == s1.remoteID[dev])
  {
    ActiveStage(cfg, net, s, dev, ek);
    if dev in net.bundles { BuiltSession(cfg, net.bundles[dev], ek); }
    hide ActiveSession, BuildActive;
    if dev in s.sessions { assert RecordMatches(s, dev); }
  }

  lemma EntryRecord(cfg: Config, owner: Device -> PubKey, net: Net, s: StoreState, dev: Device, keyMaterial: nat,
          ek: nat)
    requires RecordInv(owner, s)
    requires forall d :: d in net.bundles ==> net.bundles[d].identityKey == owner(d)
    ensures RecordInv(owner, FanOutOne(cfg, net, s, dev, keyMaterial, ek).0)
  {
    hide ActiveSession, CheckTrust, SealKey, TrustStep;
    if dev != cfg.localDevice {
      OpeningRecord(cfg, owner, net, s, dev, ek);
      var (s1, active) := ActiveSession(cfg, net, s, dev, ek);
      if active.Ok? {
        TrustStage(cfg, s1, dev, s1.remoteID[dev]);
        var (s2, refusal) := CheckTrust(cfg, s1, dev, s1.remoteID[dev]);
        assert RecordInv(owner, s2);
        if refusal.None? {
          SealStage(s2, dev, active.value.0, active.value.1, keyMaterial);
          assert EncryptForDevice(cfg, net, s, dev, keyMaterial, ek) ==
              SealKey(s2, dev, active.value.0, active.value.1, keyMaterial);
        }
      }
    }
  }

  lemma {:induction false} FanOutRecord(cfg: Config, owner: Device -> PubKey, net: Net, s: StoreState,
          work: seq<(Device, nat)>, keyMaterial: nat)
    requires RecordInv(owner, s)
    requires forall d :: d in net.bundles ==> net.bundles[d].identityKey == owner(d)
    ensures RecordInv(owner, FanOut(cfg, net, s, work, keyMaterial).0)
  {
    hide FanOutOne;
    if work != [] {
      var n := |work| - 1;
      FanOutRecord(cfg, owner, net, s, work[..n], keyMaterial);
      EntryRecord(cfg, owner, net, FanOut(cfg, net, s, work[..n], keyMaterial).0, work[n].0, keyMaterial, work[n].1);
    }
  }

  lemma DecryptRecord(cfg: Config, owner: Device -> PubKey, s: StoreState, msg: EncryptedMessage)
    requires RecordInv(owner, s)
    requires OneKeyForLife(cfg, owner, DoDecrypt(msg))
    ensures RecordInv(owner, DecryptMessage(cfg, s, msg).0)
  {
    hide DecryptKey, OfferedExchange;
    var key := KeyFor(msg.keys, cfg.localDevice.id);
    if key.Some? {
      assert !OrphansRecord(cfg, s, msg.sender, key.value);
      hide OrphansRecord;
      DecryptKeyFrame(cfg, s, msg.sender, key.value);
      DecryptKeepsRecordIff(cfg, s, msg.sender, key.value);
      var s' := DecryptKey(cfg, s, msg.sender, key.value).0;
      forall d | d in s'.sessions ensures RecordMatches(s', d) && d in s'.remoteID {
        if d != msg.sender { assert ViewOf(s', d) == ViewOf(s, d) && RecordMatches(s, d); }
      }
      forall d | d in s'.remoteID ensures s'.remoteID[d] == owner(d) {
        if d != msg.sender { assert ViewOf(s', d) == ViewOf(s, d); }
      }
    }
  }

  /** Decrypting for `sender` leaves other devices alone and records only the offered identity. */
  lemma DecryptKeyFrame(cfg: Config, s: StoreState, sender: Device, key: RecipientKey)
    ensures var s' := DecryptKey(cfg, s, sender, key).0;
            && (forall d :: d != sender ==> ViewOf(s', d) == ViewOf(s, d))
            && (Lookup(s'.remoteID, sender) == Lookup(s.remoteID, sender)
                || (key.keyExchange.Some? && OfferedExchange(cfg, key).Ok?
                    && Lookup(s'.remoteID, sender) == Some(OfferedExchange(cfg, key).value.0.identityKey)))
            && (sender in s'.sessions && sender !in s.sessions ==> sender in s'.remoteID)
  {
    hide SignedPreKeyByID, NewPassive, Open, LoadSession, OfferedExchange;
  }

  /** If every device keeps one identity key for life, then in every reachable state each stored session's
      peer key is the recorded identity, and it is that device's own key. */
  lemma {:induction false} RecordsAreSessionPeers(cfg: Config, owner: Device -> PubKey, l: Local, acts: seq<Action>)
    requires FreshDevice(cfg, l)
    requires forall i :: 0 <= i < |acts| ==> OneKeyForLife(cfg, owner, acts[i])
    ensures var s := Run(cfg, l, acts).store;
            && (forall d :: d in s.sessions ==>
                  d in s.remoteID && s.sessions[d].Blob? && s.remoteID[d] == PeerKey(s.sessions[d].ratchet) == owner(d))
            && RecordInv(owner, s)
  {
    hide Encrypt, DecryptMessage, Filed, NewPreKeys;
    if acts == [] {
      assert l.store.sessions == map[] && l.store.remoteID == map[];
    } else {
      hide Generated;
      var init, a := acts[..|acts| - 1], acts[|acts| - 1];
      RecordsAreSessionPeers(cfg, owner, l, init);
      var m := Run(cfg, l, init);
      match a {
        case DoEncrypt(net, jid, plaintext) => EncryptRecord(cfg, owner, net, m.store, m.rnd, jid, plaintext);
        case DoDecrypt(msg) => DecryptRecord(cfg, owner, m.store, msg);
        case DoGenerate(n) => GeneratedFrame(m.store, n, m.rnd);
        case DoReset(dev) =>
          var s' := m.store.(sessions := m.store.sessions - {dev});
          forall d | d in s'.sessions
              ensures RecordMatches(s', d) && d in s'.remoteID { assert RecordMatches(m.store, d); }
        case _ =>
      }
    }
  }

  lemma EncryptRecord(cfg: Config, owner: Device -> PubKey, net: Net, s: StoreState, rnd: nat, jid: string,
          plaintext: Option<Bytes>)
    requires RecordInv(owner, s)
    requires forall d :: d in net.bundles ==> net.bundles[d].identityKey == owner(d)
    ensures RecordInv(owner, Encrypt(cfg, net, s, rnd, jid, plaintext).store)
  {
    hide FanOut, RecipientDevices;
    RecipientDevicesFrame(cfg, net, s, jid);
    var (s1, devices) := RecipientDevices(cfg, net, s, jid);
    forall d | d in s1.sessions ensures RecordMatches(s1, d) && d in s1.remoteID { assert RecordMatches(s, d); }
    if devices.Ok? {
      FanOutRecord(cfg, owner, net, s1, WorkFor(devices.value, rnd + 2), rnd);
    }
  }
}
