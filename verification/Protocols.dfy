/** ProtocolV1 and ProtocolV2 agree: a V1 device fed honest messages behaves, over whole runs, exactly as
    the V2 device obtained by unwrapping the first-message blobs and re-tagging the stored sessions. */
module Protocols {
  import opened Basics
  import opened Types
  import opened Signal
  import opened StoreModel
  import opened ManagerSpec
  import opened Sections
  import opened Runs

  // ---------- the translation ----------

  function V2Config(cfg: Config): Config {
    cfg.(protocol := ProtocolV2)
  }

  function V2Blob(b: Blob): Blob {
    if b.Blob? then Blob(ProtocolV2, b.ratchet) else b
  }

  function V2View(v: View): View {
    View(if v.session.Some? then Some(V2Blob(v.session.value)) else None, v.remote)
  }

  function V2Store(s: StoreState): StoreState {
    s.(sessions := map d | d in s.sessions :: V2Blob(s.sessions[d]))
  }

  function V2Key(key: RecipientKey): RecipientKey {
    if key.data.PreKeyWhisper? then key.(data := key.data.inner) else key
  }

  function V2Keys(keys: seq<RecipientKey>): (ks: seq<RecipientKey>)
    ensures |ks| == |keys|
  {
    seq(|keys|, i requires 0 <= i < |keys| => V2Key(keys[i]))
  }

  function V2Message(msg: EncryptedMessage): EncryptedMessage {
    EncryptedMessage(msg.sender, V2Keys(msg.keys),
                     if msg.payload.Some? then Some(msg.payload.value.(iv := None)) else None, None)
  }

  function V2Result(r: Result<RecipientKey, Error>): Result<RecipientKey, Error> {
    if r.Ok? then Ok(V2Key(r.value)) else r
  }

  function V2Outcome(o: Outcome): Outcome {
    if o.Sealed? then Sealed(V2Key(o.key)) else o
  }

  function V2Outcomes(outs: seq<Outcome>): (os: seq<Outcome>)
    ensures |os| == |outs|
  {
    seq(|outs|, i requires 0 <= i < |outs| => V2Outcome(outs[i]))
  }

  function V2Action(a: Action): Action {
    if a.DoDecrypt? then DoDecrypt(V2Message(a.msg)) else a
  }

  function V2Actions(acts: seq<Action>): (as2: seq<Action>)
    ensures |as2| == |acts|
  {
    seq(|acts|, i requires 0 <= i < |acts| => V2Action(acts[i]))
  }

  /** Every stored session is in V1's format. */
  ghost predicate V1Store(s: StoreState) {
    forall d :: d in s.sessions ==> s.sessions[d].Blob? && s.sessions[d].protocol == ProtocolV1
  }

  ghost predicate V1View(v: View) {
    v.session.Some? ==> v.session.value.Blob? && v.session.value.protocol == ProtocolV1
  }

  /** A V1 key as honest senders make it: the attribute is present exactly when the data is wrapped, and
      the blob repeats the attribute's keys and IDs, unswapped. */
  predicate HonestKey(key: RecipientKey) {
    && (key.keyExchange.Some? <==> key.data.PreKeyWhisper?)
    && (key.keyExchange.Some? ==>
          && key.data.identityKey == key.keyExchange.value.identityKey
          && key.data.baseKey == key.keyExchange.value.ephemeralKey
          && key.data.signedPreKeyID == key.keyExchange.value.signedPreKeyID
          && key.data.preKeyID == key.keyExchange.value.preKeyID)
  }

  ghost predicate HonestMessage(msg: EncryptedMessage) {
    && (forall key :: key in msg.keys ==> HonestKey(key))
    && (msg.payload.Some? ==> msg.payload.value.iv.Some? && msg.payload.value.iv == msg.iv)
  }

  // ---------- one section ----------

  lemma SendSectionAgrees(cfg: Config, dev: Device, v: View, keyMaterial: nat, o: EncryptOracle)
    requires cfg.protocol == ProtocolV1 && V1View(v)
    ensures var (v1, r1) := EncryptSection(cfg, dev, v, keyMaterial, o);
            && EncryptSection(V2Config(cfg), dev, V2View(v), keyMaterial, o) == (V2View(v1), V2Result(r1))
            && V1View(v1)
            && (r1.Ok? ==> HonestKey(r1.value))
            && (r1.Ok? && r1.value.keyExchange.Some? ==> r1.value.data.registrationID == cfg.localDevice.id)
  {
    var cfg2 := V2Config(cfg);
    var (w1, a1) := OpenActive(cfg, v, o);
    var (w2, a2) := OpenActive(cfg2, V2View(v), o);
    assert w2 == V2View(w1) && (a1.Ok? <==> a2.Ok?) && (a1.Err? ==> a1 == a2);
    if a1.Ok? {
      var (s1, kx1) := a1.value;
      var (s2, kx2) := a2.value;
      assert s1.protocol == ProtocolV1 && s2 == SessionState(ProtocolV2, s1.ratchet, None) && kx1 == kx2;
      assert s1.pending.Some? <==> kx1.Some?;
      assert kx1.Some? ==>
               && kx1.value.identityKey == s1.ratchet.root.initiator
               && s1.pending.value.ekPub == kx1.value.ephemeralKey
               && s1.pending.value.preKeyID == kx1.value.preKeyID
               && s1.pending.value.signedPreKeyID == kx1.value.signedPreKeyID
               && s1.pending.value.registrationID == cfg.localDevice.id;
    }
  }

  lemma ReceiveSectionAgrees(cfg: Config, v: View, key: RecipientKey, o: DecryptOracle)
    requires cfg.protocol == ProtocolV1 && V1View(v) && HonestKey(key)
    ensures var (v1, r1) := DecryptSection(cfg, v, key, o);
            && DecryptSection(V2Config(cfg), V2View(v), V2Key(key), o) == (V2View(v1), r1)
            && V1View(v1)
  {
    var cfg2 := V2Config(cfg);
    assert key.keyExchange.Some? ==> OfferedExchange(cfg, key) == OfferedExchange(cfg2, V2Key(key));
    var (w1, a1) := OpenIncoming(cfg, v, key, o);
    var (w2, a2) := OpenIncoming(cfg2, V2View(v), V2Key(key), o);
    assert w2 == V2View(w1) && (a1.Ok? <==> a2.Ok?) && (a1.Err? ==> a1 == a2);
    if a1.Ok? {
      assert a1.value.0.protocol == ProtocolV1
             && a2.value.0 == SessionState(ProtocolV2, a1.value.0.ratchet, None) && a1.value.1 == a2.value.1;
    }
  }

  // ---------- one call ----------

  lemma TranslatedView(s: StoreState, dev: Device, v: View)
    ensures ViewOf(V2Store(s), dev) == V2View(ViewOf(s, dev))
    ensures WithView(V2Store(s), dev, V2View(v)) == V2Store(WithView(s, dev, v))
    ensures V1Store(s) && V1View(v) ==> V1Store(WithView(s, dev, v))
  {
    assert WithView(V2Store(s), dev, V2View(v)).sessions == V2Store(WithView(s, dev, v)).sessions;
  }

  /** Whether a session opens, what identity is then on record and whether it passes are the same for both. */
  lemma OpeningsAgree(cfg: Config, v: View, o: EncryptOracle)
    requires cfg.protocol == ProtocolV1 && V1View(v)
    ensures OpenActive(cfg, v, o).0.remote == OpenActive(V2Config(cfg), V2View(v), o).0.remote
    ensures OpenActive(cfg, v, o).1.Ok? <==> OpenActive(V2Config(cfg), V2View(v), o).1.Ok?
    ensures Verdict(cfg, o) == Verdict(V2Config(cfg), o)
  {
  }

  lemma EntryAgrees(cfg: Config, net: Net, s: StoreState, dev: Device, keyMaterial: nat, ek: nat)
    requires cfg.protocol == ProtocolV1 && V1Store(s)
    ensures var (s1, o1) := FanOutOne(cfg, net, s, dev, keyMaterial, ek);
            && FanOutOne(V2Config(cfg), net, V2Store(s), dev, keyMaterial, ek) == (V2Store(s1), V2Outcome(o1))
            && V1Store(s1)
            && (o1.Sealed? ==> HonestKey(o1.key))
  {
    hide EncryptForDevice, EncryptSection, Verdict, OpenActive, WithView;
    var cfg2, t := V2Config(cfg), V2Store(s);
    var o := ObservedByEncrypt(cfg, net, s, dev, ek);
    assert ObservedByEncrypt(cfg2, net, t, dev, ek) == o;
    var v := ViewOf(s, dev);
    var v' := EncryptSection(cfg, dev, v, keyMaterial, o).0;
    TranslatedView(s, dev, v');
    EncryptIsSection(cfg, net, s, dev, keyMaterial, ek);
    EncryptIsSection(cfg2, net, t, dev, keyMaterial, ek);
    SendSectionAgrees(cfg, dev, v, keyMaterial, o);
    OpeningsAgree(cfg, v, o);
  }

  lemma {:induction false} FanOutAgrees(cfg: Config, net: Net, s: StoreState, work: seq<(Device, nat)>,
          keyMaterial: nat)
    requires cfg.protocol == ProtocolV1 && V1Store(s)
    ensures var (s1, outs) := FanOut(cfg, net, s, work, keyMaterial);
            && FanOut(V2Config(cfg), net, V2Store(s), work, keyMaterial) == (V2Store(s1), V2Outcomes(outs))
            && V1Store(s1)
            && (forall o :: o in outs && o.Sealed? ==> HonestKey(o.key))
  {
    hide FanOutOne, V1Store, V2Store;
    if work != [] {
      var n := |work| - 1;
      FanOutAgrees(cfg, net, s, work[..n], keyMaterial);
      var (s1, outs) := FanOut(cfg, net, s, work[..n], keyMaterial);
      EntryAgrees(cfg, net, s1, work[n].0, keyMaterial, work[n].1);
      var o := FanOutOne(cfg, net, s1, work[n].0, keyMaterial, work[n].1).1;
      assert V2Outcomes(outs + [o]) == V2Outcomes(outs) + [V2Outcome(o)];
    }
  }

  lemma {:induction false} TalliesAgree(devices: seq<Device>, outs: seq<Outcome>)
    requires |outs| <= |devices|
    ensures KeysOf(V2Outcomes(outs)) == V2Keys(KeysOf(outs))
    ensures ErrorsOf(devices, V2Outcomes(outs)) == ErrorsOf(devices, outs)
    ensures forall k :: k in KeysOf(outs) ==> exists o :: o in outs && o == Sealed(k)
  {
    if outs != [] {
      var n := |outs| - 1;
      TalliesAgree(devices, outs[..n]);
      assert V2Outcomes(outs)[..n] == V2Outcomes(outs[..n]);
      forall k | k in KeysOf(outs) ensures exists o :: o in outs && o == Sealed(k) {
        if k in KeysOf(outs[..n]) {
          var o :| o in outs[..n] && o == Sealed(k);
          assert o in outs;
        } else {
          assert outs[n] in outs && outs[n] == Sealed(k);
        }
      }
    }
  }

  /** Sending: the V2 call returns the unwrapped message and the re-tagged store, and what the V1 call
      returns is honest. */
  lemma SendAgrees(cfg: Config, net: Net, s: StoreState, rnd: nat, jid: string, plaintext: Option<Bytes>)
    requires cfg.protocol == ProtocolV1 && V1Store(s)
    ensures var e1 := Encrypt(cfg, net, s, rnd, jid, plaintext);
            var e2 := Encrypt(V2Config(cfg), net, V2Store(s), rnd, jid, plaintext);
            && V1Store(e1.store)
            && e2.store == V2Store(e1.store) && e2.rnd == e1.rnd && e2.deviceErrs == e1.deviceErrs && e2.err == e1.err
            && (e1.msg.Some? <==> e2.msg.Some?)
            && (e1.msg.Some? ==> HonestMessage(e1.msg.value) && e2.msg.value == V2Message(e1.msg.value))
  {
    hide EncryptToDevices, RecipientDevices, V2Message, HonestMessage;
    RecipientsAgree(cfg, net, s, jid);
    var (s1, devices) := RecipientDevices(cfg, net, s, jid);
    if devices.Ok? {
      SendToAgrees(cfg, net, s1, rnd, devices.value, plaintext);
    }
  }

  lemma RecipientsAgree(cfg: Config, net: Net, s: StoreState, jid: string)
    requires V1Store(s)
    ensures var (s1, devices) := RecipientDevices(cfg, net, s, jid);
            RecipientDevices(V2Config(cfg), net, V2Store(s), jid) == (V2Store(s1), devices) && V1Store(s1)
  {
    DevicesAgree(net, s, jid);
    var s1 := DevicesFor(net, s, jid).0;
    DevicesAgree(net, s1, cfg.localDevice.jid);
    hide DevicesFor, V2Store, V1Store;
  }

  lemma DevicesAgree(net: Net, s: StoreState, jid: string)
    ensures var (s1, ids) := DevicesFor(net, s, jid);
            DevicesFor(net, V2Store(s), jid) == (V2Store(s1), ids) && (V1Store(s) ==> V1Store(s1))
  {
  }

  lemma SendToAgrees(cfg: Config, net: Net, s: StoreState, rnd: nat, devices: seq<Device>, plaintext: Option<Bytes>)
    requires cfg.protocol == ProtocolV1 && V1Store(s)
    ensures var e1 := EncryptToDevices(cfg, net, s, rnd, devices, plaintext);
            var e2 := EncryptToDevices(V2Config(cfg), net, V2Store(s), rnd, devices, plaintext);
            && V1Store(e1.store)
            && e2.store == V2Store(e1.store) && e2.rnd == e1.rnd && e2.deviceErrs == e1.deviceErrs && e2.err == e1.err
            && (e1.msg.Some? <==> e2.msg.Some?)
            && (e1.msg.Some? ==> HonestMessage(e1.msg.value) && e2.msg.value == V2Message(e1.msg.value))
  {
    hide FanOut, V1Store, V2Store;
    var work := WorkFor(devices, rnd + 2);
    FanOutAgrees(cfg, net, s, work, rnd);
    var outs := FanOut(cfg, net, s, work, rnd).1;
    TalliesAgree(devices, outs);
    hide KeysOf, ErrorsOf;
    assert |V2Keys(KeysOf(outs))| == |KeysOf(outs)|;
  }

  lemma {:induction false} KeyForAgrees(keys: seq<RecipientKey>, id: U32)
    ensures KeyFor(V2Keys(keys), id) == (if KeyFor(keys, id).Some? then Some(V2Key(KeyFor(keys, id).value)) else None)
    ensures KeyFor(keys, id).Some? ==> KeyFor(keys, id).value in keys
  {
    if keys != [] {
      KeyForAgrees(keys[1..], id);
      assert V2Keys(keys)[1..] == V2Keys(keys[1..]);
    }
  }

  /** Receiving an honest message: both branches consume the same records, record the same identity, derive
      the same ratchet and return the same plaintext or error. */
  lemma ReceiveAgrees(cfg: Config, s: StoreState, msg: EncryptedMessage)
    requires cfg.protocol == ProtocolV1 && V1Store(s) && HonestMessage(msg)
    ensures var (s1, r1) := DecryptMessage(cfg, s, msg);
            && DecryptMessage(V2Config(cfg), V2Store(s), V2Message(msg)) == (V2Store(s1), r1)
            && V1Store(s1)
  {
    hide DecryptKey, V1Store;
    KeyForAgrees(msg.keys, cfg.localDevice.id);
    var found := KeyFor(msg.keys, cfg.localDevice.id);
    if found.Some? {
      assert HonestKey(found.value);
      ReceiveKeyAgrees(cfg, s, msg.sender, found.value);
    }
  }

  lemma ReceiveKeyAgrees(cfg: Config, s: StoreState, sender: Device, key: RecipientKey)
    requires cfg.protocol == ProtocolV1 && V1Store(s) && HonestKey(key)
    ensures var (s1, r1) := DecryptKey(cfg, s, sender, key);
            && DecryptKey(V2Config(cfg), V2Store(s), sender, V2Key(key)) == (V2Store(s1), r1)
            && V1Store(s1)
  {
    hide DecryptKey, DecryptSection, WithView;
    var cfg2, t := V2Config(cfg), V2Store(s);
    assert key.keyExchange.Some? ==> OfferedExchange(cfg, key) == OfferedExchange(cfg2, V2Key(key));
    var o := ObservedByDecrypt(cfg, s, key);
    assert ObservedByDecrypt(cfg2, t, V2Key(key)) == o;
    DecryptIsSection(cfg, s, sender, key);
    DecryptIsSection(cfg2, t, sender, V2Key(key));
    var v' := DecryptSection(cfg, ViewOf(s, sender), key, o).0;
    TranslatedView(s, sender, v');
    ReceiveSectionAgrees(cfg, ViewOf(s, sender), key, o);
  }

  // ---------- whole runs ----------

  /** Over every run in which the messages received are honest, the V1 device and its V2 translation stay
      in step. */
  lemma {:induction false} ProtocolsAgreeOverRuns(cfg: Config, l: Local, acts: seq<Action>)
    requires cfg.protocol == ProtocolV1 && V1Store(l.store)
    requires forall i :: 0 <= i < |acts| && acts[i].DoDecrypt? ==> HonestMessage(acts[i].msg)
    ensures var m := Run(cfg, l, acts);
            && V1Store(m.store)
            && Run(V2Config(cfg), Local(V2Store(l.store), l.rnd), V2Actions(acts)) == Local(V2Store(m.store), m.rnd)
  {
    hide Apply;
    if acts != [] {
      var init, a := acts[..|acts| - 1], acts[|acts| - 1];
      ProtocolsAgreeOverRuns(cfg, l, init);
      assert V2Actions(acts)[..|acts| - 1] == V2Actions(init);
      StepAgrees(cfg, Run(cfg, l, init), a);
    }
  }

  /** So at any point of such a run the two return the same: each message sent is honest and its translation,
      with the same per-device errors, and each honest message received gives the same plaintext or error. */
  lemma ResultsAgreeAfterRuns(cfg: Config, l: Local, acts: seq<Action>, net: Net, jid: string, plaintext: Option<Bytes>,
                              msg: EncryptedMessage)
    requires cfg.protocol == ProtocolV1 && V1Store(l.store) && HonestMessage(msg)
    requires forall i :: 0 <= i < |acts| && acts[i].DoDecrypt? ==> HonestMessage(acts[i].msg)
    ensures var m1 := Run(cfg, l, acts);
            var m2 := Run(V2Config(cfg), Local(V2Store(l.store), l.rnd), V2Actions(acts));
            var e1 := Encrypt(cfg, net, m1.store, m1.rnd, jid, plaintext);
            var e2 := Encrypt(V2Config(cfg), net, m2.store, m2.rnd, jid, plaintext);
            && e2.deviceErrs == e1.deviceErrs && e2.err == e1.err && (e1.msg.Some? <==> e2.msg.Some?)
            && (e1.msg.Some? ==> HonestMessage(e1.msg.value) && e2.msg.value == V2Message(e1.msg.value))
            && DecryptMessage(V2Config(cfg), m2.store, V2Message(msg)).1 == DecryptMessage(cfg, m1.store, msg).1
  {
    hide Encrypt, DecryptMessage, V1Store, V2Store, HonestMessage, V2Message;
    ProtocolsAgreeOverRuns(cfg, l, acts);
    var m := Run(cfg, l, acts);
    SendAgrees(cfg, net, m.store, m.rnd, jid, plaintext);
    ReceiveAgrees(cfg, m.store, msg);
  }

  lemma StepAgrees(cfg: Config, l: Local, a: Action)
    requires cfg.protocol == ProtocolV1 && V1Store(l.store)
    requires a.DoDecrypt? ==> HonestMessage(a.msg)
    ensures var m := Apply(cfg, l, a);
            && V1Store(m.store)
            && Apply(V2Config(cfg), Local(V2Store(l.store), l.rnd), V2Action(a)) == Local(V2Store(m.store), m.rnd)
  {
    hide Encrypt, DecryptMessage, Filed, NewPreKeys;
    var s := l.store;
    match a {
      case DoEncrypt(net, jid, plaintext) => SendAgrees(cfg, net, s, l.rnd, jid, plaintext);
      case DoDecrypt(msg) => ReceiveAgrees(cfg, s, msg);
      case DoReset(dev) =>
        assert V2Store(s.(sessions := s.sessions - {dev})).sessions == V2Store(s).sessions - {dev};
      case _ =>
    }
  }
}
