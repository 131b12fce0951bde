/** The fan-out loop of `encrypt`: what one entry touches, that entries do not interfere, that order does
    not matter, and that every entry is accounted for exactly once. */
module FanOutProofs {
  import opened Basics
  import opened Types
  import opened Signal
  import opened StoreModel
  import opened ManagerSpec
  import opened Sections

  /** Nothing but sessions, remote identities and trust differs. */
  ghost predicate SameElsewhere(s: StoreState, t: StoreState) {
    t == s.(sessions := t.sessions, remoteID := t.remoteID, trust := t.trust)
  }

  /** `m'` is `m`, or `m` with key `k` set. */
  ghost predicate SetAtMost<K, V>(m: map<K, V>, m': map<K, V>, k: K) {
    m' == m || (k in m' && m' == m[k := m'[k]])
  }

  /** An encryption sets at most its own device's session and identity, and one key's trust. */
  lemma EncryptShape(cfg: Config, net: Net, s: StoreState, dev: Device, keyMaterial: nat, ek: nat)
    ensures var (s', r) := EncryptForDevice(cfg, net, s, dev, keyMaterial, ek);
            && SameElsewhere(s, s')
            && SetAtMost(s.sessions, s'.sessions, dev)
            && SetAtMost(s.remoteID, s'.remoteID, dev)
            && (s'.trust == s.trust
               || (ConsultedKey(net, s, dev).Some? && SetAtMost(s.trust, s'.trust, ConsultedKey(net, s, dev).value)))
            && (r.Err? ==> s'.sessions == s.sessions)
  {
    hide EncryptForDevice, EncryptSection, Verdict, BuildActive, LoadSession;
    EncryptIsSection(cfg, net, s, dev, keyMaterial, ek);
    SectionFailsCleanly(cfg, dev, ViewOf(s, dev), keyMaterial, ObservedByEncrypt(cfg, net, s, dev, ek));
    SameView(s, dev);
  }

  /** A section that returns no key leaves the stored session as it was, and never forgets an identity. */
  lemma SectionFailsCleanly(cfg: Config, dev: Device, v: View, keyMaterial: nat, o: EncryptOracle)
    ensures var (v', r) := EncryptSection(cfg, dev, v, keyMaterial, o);
            && (r.Err? ==> v'.session == v.session)
            && (r.Ok? ==> v'.session.Some?)
            && (v'.remote == v.remote || v'.remote.Some?)
  {
  }

  /** One entry writes only its own device's view and its own consulted key's trust; a failed entry
      leaves every stored session as it was. */
  lemma EntryFrame(cfg: Config, net: Net, s: StoreState, dev: Device, keyMaterial: nat, ek: nat)
    ensures var (s', o) := FanOutOne(cfg, net, s, dev, keyMaterial, ek);
            && SameElsewhere(s, s')
            && (forall d :: d != dev ==> ViewOf(s', d) == ViewOf(s, d))
            && (forall k :: ConsultedKey(net, s, dev) != Some(k) ==> Lookup(s'.trust, k) == Lookup(s.trust, k))
            && (!o.Sealed? ==> s'.sessions == s.sessions)
            && (dev == cfg.localDevice ==> s' == s)
  {
    EncryptShape(cfg, net, s, dev, keyMaterial, ek);
    hide EncryptForDevice;
    var (s', r) := EncryptForDevice(cfg, net, s, dev, keyMaterial, ek);
    assert FanOutOne(cfg, net, s, dev, keyMaterial, ek)
           == if dev == cfg.localDevice then (s, Skipped) else (s', if r.Ok? then Sealed(r.value) else Failed(r.error));
  }

  /** The key a section checks is the one `ConsultedKey` predicts. */
  lemma ConsultedAfterOpening(cfg: Config, net: Net, s: StoreState, dev: Device, ek: nat)
    ensures var (v1, active) := OpenActive(cfg, ViewOf(s, dev), ObservedByEncrypt(cfg, net, s, dev, ek));
            active.Ok? ==> v1.remote == ConsultedKey(net, s, dev)
  {
  }

  // ---------- when entries interfere ----------

  /** No device occurs twice in the recipient list. */
  ghost predicate DistinctDevices(work: seq<(Device, nat)>) {
    forall i, j :: 0 <= i < j < |work| ==> work[i].0 != work[j].0
  }

  /** Entry `w` gets as far as asking for the trust of `k`: it is not the local device, and its stored
      session loads or X3DH accepts its bundle. */
  predicate Consults(cfg: Config, net: Net, s: StoreState, w: (Device, nat), k: PubKey) {
    && w.0 != cfg.localDevice
    && ConsultedKey(net, s, w.0) == Some(k)
    && if w.0 in s.sessions then LoadSession(cfg.protocol, s.sessions[w.0]).Ok?
       else BuildActive(cfg, net.bundles[w.0], w.1).Ok?
  }

  /** Entry `w` asks the resolver about `k`, and the resolver's answer is `verdict`. */
  predicate Resolves(cfg: Config, net: Net, s: StoreState, w: (Device, nat), k: PubKey, verdict: bool) {
    && Consults(cfg, net, s, w, k)
    && Undecided(s, k)
    && cfg.resolver.Some? && cfg.resolver.value(w.0, k) == verdict
  }

  /** `a` and `b` ask about one undecided identity key, and the resolver approves it for `a` but not for `b`. */
  predicate Clash(cfg: Config, net: Net, s: StoreState, a: (Device, nat), b: (Device, nat)) {
    var k := ConsultedKey(net, s, a.0);
    k.Some? && Resolves(cfg, net, s, a, k.value, true) && Resolves(cfg, net, s, b, k.value, false)
  }

  /** Some earlier entry clashes with entry `i`. */
  ghost predicate Overtaken(cfg: Config, net: Net, s: StoreState, work: seq<(Device, nat)>, i: nat)
    requires i < |work|
  {
    exists j :: 0 <= j < i && Clash(cfg, net, s, work[j], work[i])
  }

  /** Some entry of the list has `k` approved. */
  ghost predicate ApprovedBy(cfg: Config, net: Net, s: StoreState, work: seq<(Device, nat)>, k: PubKey) {
    exists i :: 0 <= i < |work| && Resolves(cfg, net, s, work[i], k, true)
  }

  /** Trust afterwards: what it was, plus the keys some entry had approved. */
  ghost predicate TrustGrown(cfg: Config, net: Net, s: StoreState, work: seq<(Device, nat)>, s': StoreState) {
    forall k :: Lookup(s'.trust, k) == if ApprovedBy(cfg, net, s, work, k) then Some(TrustTrusted)
        else Lookup(s.trust, k)
  }

  /** Entry `w` ended, in `s'` and with outcome `o`, as if it had been the only one. */
  ghost predicate AloneAt(cfg: Config, net: Net, s: StoreState, w: (Device, nat), keyMaterial: nat, s': StoreState,
          o: Outcome)
  {
    var (alone, p) := FanOutOne(cfg, net, s, w.0, keyMaterial, w.1);
    o == p && ViewOf(s', w.0) == ViewOf(alone, w.0)
  }

  /** What a list of entries leaves outside the views of its own devices. */
  ghost predicate Elsewhere(cfg: Config, net: Net, s: StoreState, work: seq<(Device, nat)>, s': StoreState) {
    && SameElsewhere(s, s')
    && TrustGrown(cfg, net, s, work, s')
    && (forall d :: (forall i :: 0 <= i < |work| ==> work[i].0 != d) ==> ViewOf(s', d) == ViewOf(s, d))
  }

  /** `s'` is `s` with each entry's own effect, computed from `s` alone, and nothing else. */
  ghost predicate EachAlone(cfg: Config, net: Net, s: StoreState, work: seq<(Device, nat)>, keyMaterial: nat,
                            s': StoreState, outs: seq<Outcome>)
  {
    && |outs| == |work|
    && Elsewhere(cfg, net, s, work, s')
    && (forall i :: 0 <= i < |work| ==> AloneAt(cfg, net, s, work[i], keyMaterial, s', outs[i]))
  }

  /** The trust decision, told from the trust map: an entry is blocked exactly when the key it consults is on record as
      untrusted, refused for want of a resolver exactly when it is undecided and there is none, declined exactly when
      the resolver declines it; it never fails so otherwise. */
  lemma TrustDecides(cfg: Config, net: Net, s: StoreState, w: (Device, nat), keyMaterial: nat)
    ensures var (s', o) := FanOutOne(cfg, net, s, w.0, keyMaterial, w.1);
            var k := ConsultedKey(net, s, w.0);
            var asks := k.Some? && Consults(cfg, net, s, w, k.value);
            && (o == Failed(ErrBlockedDevice) <==> asks && Lookup(s.trust, k.value) == Some(TrustUntrusted))
            && (o == Failed(ErrUntrustedDevice) <==> asks && Undecided(s, k.value) && cfg.resolver.None?)
            && (o == Failed(ResolverDeclined) <==>
                  asks && Undecided(s, k.value) && cfg.resolver.Some? && !cfg.resolver.value(w.0, k.value))
            && (o.Sealed? ==>
                  asks && (Lookup(s.trust, k.value) == Some(TrustTrusted)
                           || (Undecided(s, k.value) && cfg.resolver.Some? && cfg.resolver.value(w.0, k.value))))
  {
    hide FanOutOne, BuildActive, LoadSession, Seal;
    if w.0 == cfg.localDevice {
      LocalIsSkipped(cfg, net, s, w, keyMaterial);
    } else {
      EntryIsSection(cfg, net, s, w.0, keyMaterial, w.1);
      ConsultedAfterOpening(cfg, net, s, w.0, w.1);
      if ConsultedKey(net, s, w.0).Some? { OpensWhenConsulting(cfg, net, s, w); }
      EarlyErrors(cfg, ViewOf(s, w.0), ObservedByEncrypt(cfg, net, s, w.0, w.1));
      SealErrors();
    }
  }

  /** A bundle X3DH accepts: nothing missing, and the signed prekey signed by the identity key. */
  predicate Verifies(cfg: Config, b: Bundle) {
    && cfg.identityKey.Priv? && b.identityKey.Pub?
    && b.preKeys != [] && b.preKeys[0].pub.Pub?
    && b.signedPreKey.pub.Pub? && b.signedPreKey.sig == Sig(b.identityKey.n, b.signedPreKey.pub)
  }

  /** A session is built exactly on such a bundle, and the exchange names its signed prekey and its first one-time
      prekey. */
  lemma BuildsExactly(cfg: Config, b: Bundle, ek: nat)
    ensures var r := BuildActive(cfg, b, ek);
            && (r.Ok? <==> Verifies(cfg, b))
            && (r.Ok? ==> r.value.1 == KeyExchange(Pub(cfg.identityKey.n), Pub(ek), b.signedPreKey.id, b.preKeys[0].id))
            && (r.Err? ==> r.error == if b.preKeys == [] then NoPreKeysInBundle else X3DHFailed)
  {
  }

  /** Why an entry failed before its trust was asked for, told from the store and the board. */
  lemma OpeningDecides(cfg: Config, net: Net, s: StoreState, w: (Device, nat), keyMaterial: nat)
    requires w.0 != cfg.localDevice
    ensures var o := FanOutOne(cfg, net, s, w.0, keyMaterial, w.1).1;
            var known, listed := w.0 in s.sessions, w.0 in net.bundles;
            && (o == Failed(BundleUnavailable) <==> !known && !listed)
            && (o == Failed(NoPreKeysInBundle) <==> !known && listed && net.bundles[w.0].preKeys == [])
            && (o == Failed(X3DHFailed) <==>
                  !known && listed && net.bundles[w.0].preKeys != [] && !Verifies(cfg, net.bundles[w.0]))
            && (o == Failed(BadSessionBlob) <==>
                  known && !(s.sessions[w.0].Blob? && s.sessions[w.0].protocol == cfg.protocol))
            && (o == Failed(NoKnownIdentityKey) <==>
                  known && s.sessions[w.0].Blob? && s.sessions[w.0].protocol == cfg.protocol && w.0 !in s.remoteID)
  {
    hide FanOutOne, EncryptSection, Verifies;
    SectionFailures(cfg, w.0, ViewOf(s, w.0), keyMaterial, ObservedByEncrypt(cfg, net, s, w.0, w.1));
    EntryIsSection(cfg, net, s, w.0, keyMaterial, w.1);
  }

  lemma SectionFailures(cfg: Config, dev: Device, v: View, keyMaterial: nat, o: EncryptOracle)
    requires o.fault.None?
    ensures var r := EncryptSection(cfg, dev, v, keyMaterial, o).1;
            var usable := v.session.Some? && v.session.value.Blob? && v.session.value.protocol == cfg.protocol;
            && (r == Err(BundleUnavailable) <==> v.session.None? && o.bundle.None?)
            && (r == Err(NoPreKeysInBundle) <==> v.session.None? && o.bundle.Some? && o.bundle.value.preKeys == [])
            && (r == Err(X3DHFailed) <==>
                  v.session.None? && o.bundle.Some? && o.bundle.value.preKeys != [] && !Verifies(cfg, o.bundle.value))
            && (r == Err(BadSessionBlob) <==> v.session.Some? && !usable)
            && (r == Err(NoKnownIdentityKey) <==> usable && v.remote.None?)
  {
    if o.bundle.Some? { BuildsExactly(cfg, o.bundle.value, o.ek); }
    hide BuildActive, Verifies;
  }

  lemma SectionRecords(cfg: Config, dev: Device, v: View, keyMaterial: nat, o: EncryptOracle)
    requires o.fault.None?
    ensures EncryptSection(cfg, dev, v, keyMaterial, o).0.remote
            == if v.session.None? && o.bundle.Some? && Verifies(cfg, o.bundle.value)
               then Some(o.bundle.value.identityKey) else v.remote
  {
    if o.bundle.Some? { BuildsExactly(cfg, o.bundle.value, o.ek); }
    hide BuildActive, Verifies, LoadSession, Seal;
  }

  /** What is recorded about identities: an entry records its device's announced key exactly when there is no session
      yet and the fetched bundle verifies, whatever the trust decision then is; all other records stay. */
  lemma RecordsExactly(cfg: Config, net: Net, s: StoreState, w: (Device, nat), keyMaterial: nat)
    ensures var s' := FanOutOne(cfg, net, s, w.0, keyMaterial, w.1).0;
            var learns := w.0 != cfg.localDevice && w.0 !in s.sessions
                          && w.0 in net.bundles && Verifies(cfg, net.bundles[w.0]);
            forall d :: Lookup(s'.remoteID, d) ==
                        if d == w.0 && learns then Some(net.bundles[d].identityKey) else Lookup(s.remoteID, d)
  {
    EntryFrame(cfg, net, s, w.0, keyMaterial, w.1);
    hide FanOutOne, EncryptSection, Verifies;
    SectionRecords(cfg, w.0, ViewOf(s, w.0), keyMaterial, ObservedByEncrypt(cfg, net, s, w.0, w.1));
    var s' := FanOutOne(cfg, net, s, w.0, keyMaterial, w.1).0;
    forall d | d != w.0 ensures Lookup(s'.remoteID, d) ==
        Lookup(s.remoteID, d) { assert ViewOf(s', d) == ViewOf(s, d); }
    if w.0 != cfg.localDevice {
      EntryIsSection(cfg, net, s, w.0, keyMaterial, w.1);
      assert Lookup(s'.remoteID, w.0) == ViewOf(s', w.0).remote;
    }
  }

  /** Opening a session and sealing have errors of their own. */
  lemma EarlyErrors(cfg: Config, v: View, o: EncryptOracle)
    ensures OpenActive(cfg, v, o).1 !in {Err(ErrBlockedDevice), Err(ErrUntrustedDevice), Err(ResolverDeclined)}
  {
  }

  lemma SealErrors()
    ensures forall sess, km :: Seal(sess, km).1 !in {Err(ErrBlockedDevice), Err(ErrUntrustedDevice),
            Err(ResolverDeclined)}
  {
  }

  /** One entry sets its consulted key trusted exactly when it has it approved. */
  lemma EntryApproval(cfg: Config, net: Net, s: StoreState, w: (Device, nat), keyMaterial: nat)
    ensures forall k :: Lookup(FanOutOne(cfg, net, s, w.0, keyMaterial, w.1).0.trust, k)
                        == if Resolves(cfg, net, s, w, k, true) then Some(TrustTrusted) else Lookup(s.trust, k)
  {
    var dev, ek := w.0, w.1;
    EncryptIsSection(cfg, net, s, dev, keyMaterial, ek);
    ConsultedAfterOpening(cfg, net, s, dev, ek);
    if dev != cfg.localDevice && ConsultedKey(net, s, dev).Some? { OpensWhenConsulting(cfg, net, s, w); }
    hide EncryptForDevice, EncryptSection, OpenActive, BuildActive, LoadSession;
  }

  /** A section opens its session exactly when its entry gets to consult the key. */
  lemma OpensWhenConsulting(cfg: Config, net: Net, s: StoreState, w: (Device, nat))
    requires w.0 != cfg.localDevice && ConsultedKey(net, s, w.0).Some?
    ensures OpenActive(cfg, ViewOf(s, w.0), ObservedByEncrypt(cfg, net, s, w.0, w.1)).1.Ok?
            <==> Consults(cfg, net, s, w, ConsultedKey(net, s, w.0).value)
  {
    hide BuildActive, LoadSession;
  }

  /** `t` differs from `s`, as far as entry `w` can see, at most in that the key it consults was approved. */
  ghost predicate AgreeOrApproved(cfg: Config, net: Net, s: StoreState, t: StoreState, w: (Device, nat)) {
    && ViewOf(t, w.0) == ViewOf(s, w.0)
    && var k := ConsultedKey(net, s, w.0);
       k.Some? ==>
         || Lookup(t.trust, k.value) == Lookup(s.trust, k.value)
         || (Undecided(s, k.value) && cfg.resolver.Some? && Lookup(t.trust, k.value) == Some(TrustTrusted))
  }

  /** An entry handled in `t` instead of `s` ends as it would in `s`, except exactly when it would have been
      declined in `s` and its key is trusted in `t`. */
  lemma EntryAfterOthers(cfg: Config, net: Net, s: StoreState, t: StoreState, w: (Device, nat), keyMaterial: nat)
    requires AgreeOrApproved(cfg, net, s, t, w)
    ensures var (t', o) := FanOutOne(cfg, net, t, w.0, keyMaterial, w.1);
            var (s', p) := FanOutOne(cfg, net, s, w.0, keyMaterial, w.1);
            var k := ConsultedKey(net, s, w.0);
            var lifted := k.Some? && Resolves(cfg, net, s, w, k.value, false)
                && Lookup(t.trust, k.value) == Some(TrustTrusted);
            && (o == p <==> !lifted)
            && (o == p ==> ViewOf(t', w.0) == ViewOf(s', w.0))
  {
    hide FanOutOne, OpenActive, EncryptSection, Consults, ConsultedKey, Verdict;
    var dev, ek := w.0, w.1;
    if dev != cfg.localDevice {
      var os, ot := ObservedByEncrypt(cfg, net, s, dev, ek), ObservedByEncrypt(cfg, net, t, dev, ek);
      SameConsultedKey(net, s, t, dev);
      EntryIsSection(cfg, net, s, dev, keyMaterial, ek);
      EntryIsSection(cfg, net, t, dev, keyMaterial, ek);
      ConsultedAfterOpening(cfg, net, s, dev, ek);
      if ConsultedKey(net, s, dev).Some? { OpensWhenConsulting(cfg, net, s, w); }
      TrustAside(cfg, dev, ViewOf(s, dev), keyMaterial, os, ot.trust);
      VerdictOf(cfg, os);
      VerdictOf(cfg, ot);
    } else {
      LocalIsSkipped(cfg, net, s, w, keyMaterial);
      LocalIsSkipped(cfg, net, t, w, keyMaterial);
    }
  }

  lemma SameConsultedKey(net: Net, s: StoreState, t: StoreState, dev: Device)
    requires ViewOf(t, dev) == ViewOf(s, dev)
    ensures ConsultedKey(net, t, dev) == ConsultedKey(net, s, dev)
  {
    assert dev in s.sessions <==> dev in t.sessions;
  }

  lemma LocalIsSkipped(cfg: Config, net: Net, s: StoreState, w: (Device, nat), keyMaterial: nat)
    requires w.0 == cfg.localDevice
    ensures FanOutOne(cfg, net, s, w.0, keyMaterial, w.1) == (s, Skipped)
    ensures forall k, verdict :: !Resolves(cfg, net, s, w, k, verdict)
  {
  }

  lemma VerdictOf(cfg: Config, o: EncryptOracle)
    requires o.fault.None?
    ensures o.trust == TrustTrusted ==> Verdict(cfg, o).None?
    ensures o.trust == TrustUndecided && cfg.resolver.Some? ==>
              Verdict(cfg, o) == if o.approved then None else Some(ResolverDeclined)
  {
  }

  /** One entry is its section: what it returns and what it leaves of its own device. */
  lemma EntryIsSection(cfg: Config, net: Net, s: StoreState, dev: Device, keyMaterial: nat, ek: nat)
    requires dev != cfg.localDevice
    ensures var observed := ObservedByEncrypt(cfg, net, s, dev, ek);
            var (v', r) := EncryptSection(cfg, dev, ViewOf(s, dev), keyMaterial, observed);
            var (s', o) := FanOutOne(cfg, net, s, dev, keyMaterial, ek);
            && o == (if r.Ok? then Sealed(r.value) else Failed(r.error))
            && ViewOf(s', dev) == v'
  {
    hide EncryptForDevice, EncryptSection, OpenActive, WithView;
    EncryptIsSection(cfg, net, s, dev, keyMaterial, ek);
    var v' := EncryptSection(cfg, dev, ViewOf(s, dev), keyMaterial, ObservedByEncrypt(cfg, net, s, dev, ek)).0;
    ViewWith(s, dev, v', EncryptForDevice(cfg, net, s, dev, keyMaterial, ek).0.trust);
  }

  /** A section run with another trust answer: the same unless that answer changes the verdict. */
  lemma TrustAside(cfg: Config, dev: Device, v: View, keyMaterial: nat, o: EncryptOracle, trust: TrustState)
    requires o.fault.None?
    ensures var o' := o.(trust := trust);
            var same := EncryptSection(cfg, dev, v, keyMaterial, o') == EncryptSection(cfg, dev, v, keyMaterial, o);
            var consulted := OpenActive(cfg, v, o).1.Ok? && OpenActive(cfg, v, o).0.remote.Some?;
            && (!consulted || Verdict(cfg, o) == Verdict(cfg, o') ==> same)
            && (consulted && Verdict(cfg, o) == Some(ResolverDeclined) && Verdict(cfg, o').None? ==>
                  EncryptSection(cfg, dev, v, keyMaterial, o).1 == Err(ResolverDeclined)
                  && EncryptSection(cfg, dev, v, keyMaterial, o').1 != Err(ResolverDeclined))
  {
    assert OpenActive(cfg, v, o.(trust := trust)) == OpenActive(cfg, v, o);
    hide OpenActive, Verdict;
  }

  /** Over distinct devices, whatever identity keys they share: everything but the views of overtaken entries
      is determined entry by entry, and an entry ends as if alone exactly when it was not overtaken. */
  lemma {:induction false} FanOutEffects(cfg: Config, net: Net, s: StoreState, work: seq<(Device, nat)>,
          keyMaterial: nat)
    requires DistinctDevices(work)
    ensures var (s', outs) := FanOut(cfg, net, s, work, keyMaterial);
            && Elsewhere(cfg, net, s, work, s')
            && (forall i :: 0 <= i < |work| ==>
                  && (AloneAt(cfg, net, s, work[i], keyMaterial, s', outs[i]) <==> !Overtaken(cfg, net, s, work, i))
                  && (Overtaken(cfg, net, s, work, i) ==>
                     outs[i] != FanOutOne(cfg, net, s, work[i].0, keyMaterial, work[i].1).1))
  {
    hide FanOutOne, Clash, Elsewhere, TrustGrown, Overtaken, AloneAt;
    if work == [] {
      NobodyApproves(cfg, net, s);
    } else {
      var n := |work| - 1;
      var init, w := work[..n], work[n];
      FanOutEffects(cfg, net, s, init, keyMaterial);
      var (s1, outs1) := FanOut(cfg, net, s, init, keyMaterial);
      var (s2, o) := FanOutOne(cfg, net, s1, w.0, keyMaterial, w.1);
      EntryFrame(cfg, net, s1, w.0, keyMaterial, w.1);
      LastEntry(cfg, net, s, init, w, s1, keyMaterial);
      assert init + [w] == work;
      ElsewhereGrows(cfg, net, s, init, w, s1, s2);
      forall i | 0 <= i < n
        ensures AloneAt(cfg, net, s, work[i], keyMaterial, s2, outs1[i]) <==> !Overtaken(cfg, net, s, work, i)
        ensures Overtaken(cfg, net, s, work, i) ==>
                  outs1[i] != FanOutOne(cfg, net, s, work[i].0, keyMaterial, work[i].1).1
      {
        OvertakenEarly(cfg, net, s, work, n, i);
        assert init[i] == work[i] && ViewOf(s2, work[i].0) == ViewOf(s1, work[i].0);
        AloneKept(cfg, net, s, work[i], keyMaterial, s1, s2, outs1[i]);
      }
      OvertakenLast(cfg, net, s, init, w);
    }
  }

  lemma AloneKept(cfg: Config, net: Net, s: StoreState, w: (Device, nat), keyMaterial: nat, s1: StoreState,
                  s2: StoreState, o: Outcome)
    requires ViewOf(s2, w.0) == ViewOf(s1, w.0)
    ensures AloneAt(cfg, net, s, w, keyMaterial, s2, o) <==> AloneAt(cfg, net, s, w, keyMaterial, s1, o)
  {
    hide FanOutOne;
  }

  lemma ElsewhereGrows(cfg: Config, net: Net, s: StoreState, init: seq<(Device, nat)>, w: (Device, nat),
                       s1: StoreState, s2: StoreState)
    requires Elsewhere(cfg, net, s, init, s1) && SameElsewhere(s1, s2) && TrustGrown(cfg, net, s, init + [w], s2)
    requires forall d :: d != w.0 ==> ViewOf(s2, d) == ViewOf(s1, d)
    ensures Elsewhere(cfg, net, s, init + [w], s2)
  {
    hide TrustGrown;
    var work := init + [w];
    forall d | forall i :: 0 <= i < |work| ==> work[i].0 != d ensures ViewOf(s2, d) == ViewOf(s, d) {
      assert work[|init|] == w;
      forall i | 0 <= i < |init| ensures init[i].0 != d { assert work[i] == init[i]; }
    }
  }

  lemma OvertakenEarly(cfg: Config, net: Net, s: StoreState, work: seq<(Device, nat)>, n: nat, i: nat)
    requires i < n <= |work|
    ensures Overtaken(cfg, net, s, work[..n], i) <==> Overtaken(cfg, net, s, work, i)
  {
    hide Clash;
    assert forall j :: 0 <= j < n ==> work[..n][j] == work[j];
  }

  lemma OvertakenLast(cfg: Config, net: Net, s: StoreState, init: seq<(Device, nat)>, w: (Device, nat))
    ensures Overtaken(cfg, net, s, init + [w], |init|)
            <==> exists j :: 0 <= j < |init| && Clash(cfg, net, s, init[j], w)
  {
    hide Clash;
    var work := init + [w];
    assert work[|init|] == w && forall j :: 0 <= j < |init| ==> work[j] == init[j];
  }

  lemma NobodyApproves(cfg: Config, net: Net, s: StoreState)
    ensures Elsewhere(cfg, net, s, [], s)
  {
  }

  /** The last entry, handled in the state the others left. */
  lemma LastEntry(cfg: Config, net: Net, s: StoreState, init: seq<(Device, nat)>, w: (Device, nat), s1: StoreState,
          keyMaterial: nat)
    requires Elsewhere(cfg, net, s, init, s1) && forall i :: 0 <= i < |init| ==> init[i].0 != w.0
    ensures var (s2, o) := FanOutOne(cfg, net, s1, w.0, keyMaterial, w.1);
            var overtaken := exists j :: 0 <= j < |init| && Clash(cfg, net, s, init[j], w);
            && TrustGrown(cfg, net, s, init + [w], s2)
            && (AloneAt(cfg, net, s, w, keyMaterial, s2, o) <==> !overtaken)
            && (overtaken ==> o != FanOutOne(cfg, net, s, w.0, keyMaterial, w.1).1)
  {
    hide FanOutOne;
    var k := ConsultedKey(net, s, w.0);
    assert ViewOf(s1, w.0) == ViewOf(s, w.0);
    assert w.0 in s1.sessions <==> w.0 in s.sessions;
    assert ConsultedKey(net, s1, w.0) == k;
    hide Consults;
    if k.Some? && ApprovedBy(cfg, net, s, init, k.value) { ApprovalNeedsResolver(cfg, net, s, init, k.value); }
    EntryAfterOthers(cfg, net, s, s1, w, keyMaterial);
    EntryApproval(cfg, net, s1, w, keyMaterial);
    SameConsultation(cfg, net, s, s1, w);
    forall x ensures ApprovedBy(cfg, net, s, init + [w], x)
                     <==> ApprovedBy(cfg, net, s, init, x) || Resolves(cfg, net, s, w, x, true)
    {
      ApprovedStep(cfg, net, s, init, w, x);
    }
    hide Resolves;
    if k.Some? && ApprovedBy(cfg, net, s, init, k.value) {
      var j :| 0 <= j < |init| && Resolves(cfg, net, s, init[j], k.value, true);
      ResolvesOwnKey(cfg, net, s, init[j], k.value, true);
    }
    if j :| 0 <= j < |init| && Clash(cfg, net, s, init[j], w) {
      ResolvesOwnKey(cfg, net, s, w, ConsultedKey(net, s, init[j].0).value, false);
    }
  }

  lemma ApprovalNeedsResolver(cfg: Config, net: Net, s: StoreState, work: seq<(Device, nat)>, k: PubKey)
    requires ApprovedBy(cfg, net, s, work, k)
    ensures cfg.resolver.Some? && Undecided(s, k)
  {
  }

  lemma ResolvesOwnKey(cfg: Config, net: Net, s: StoreState, w: (Device, nat), k: PubKey, verdict: bool)
    requires Resolves(cfg, net, s, w, k, verdict)
    ensures ConsultedKey(net, s, w.0) == Some(k)
  {
  }

  lemma SameConsultation(cfg: Config, net: Net, s: StoreState, t: StoreState, w: (Device, nat))
    requires ViewOf(s, w.0) == ViewOf(t, w.0)
    ensures forall k :: Consults(cfg, net, s, w, k) <==> Consults(cfg, net, t, w, k)
  {
    assert w.0 in s.sessions <==> w.0 in t.sessions;
    hide BuildActive, LoadSession;
  }

  lemma ApprovedStep(cfg: Config, net: Net, s: StoreState, init: seq<(Device, nat)>, w: (Device, nat), k: PubKey)
    ensures ApprovedBy(cfg, net, s, init + [w], k)
            <==> ApprovedBy(cfg, net, s, init, k) || Resolves(cfg, net, s, w, k, true)
  {
    hide Resolves;
    var work := init + [w];
    if i :| 0 <= i < |init| && Resolves(cfg, net, s, init[i], k, true) { assert work[i] == init[i]; }
    assert work[|init|] == w;
  }

  /** Exactly when devices do not interfere: over distinct devices, every outcome and every final per-device
      state is that of encrypting to the device alone if and only if no entry is preceded by one it clashes
      with. Trust only ever grows by the approved keys, clash or not. */
  lemma FanOutNonInterference(cfg: Config, net: Net, s: StoreState, work: seq<(Device, nat)>, keyMaterial: nat)
    requires DistinctDevices(work)
    ensures var (s', outs) := FanOut(cfg, net, s, work, keyMaterial);
            && Elsewhere(cfg, net, s, work, s')
            && (EachAlone(cfg, net, s, work, keyMaterial, s', outs)
                <==> forall i, j :: 0 <= i < j < |work| ==> !Clash(cfg, net, s, work[i], work[j]))
  {
    hide FanOutOne, Clash, Elsewhere;
    FanOutEffects(cfg, net, s, work, keyMaterial);
    var (s', outs) := FanOut(cfg, net, s, work, keyMaterial);
    if EachAlone(cfg, net, s, work, keyMaterial, s', outs) {
      forall i, j | 0 <= i < j < |work| ensures !Clash(cfg, net, s, work[i], work[j]) {
        assert !Overtaken(cfg, net, s, work, j);
      }
    }
  }

  /** Distinct devices whose consulted identity keys are distinct too. */
  ghost predicate Independent(net: Net, s: StoreState, work: seq<(Device, nat)>) {
    forall i, j :: 0 <= i < j < |work| ==>
      && work[i].0 != work[j].0
      && (ConsultedKey(net, s, work[i].0).Some? ==> ConsultedKey(net, s, work[i].0) != ConsultedKey(net, s, work[j].0))
  }

  /** With distinct keys nothing clashes, and each key's trust too is that of its entry alone. */
  lemma DistinctKeysNeverClash(cfg: Config, net: Net, s: StoreState, work: seq<(Device, nat)>, keyMaterial: nat)
    requires Independent(net, s, work)
    ensures var (s', outs) := FanOut(cfg, net, s, work, keyMaterial);
            && EachAlone(cfg, net, s, work, keyMaterial, s', outs)
            && (forall i :: 0 <= i < |work| && ConsultedKey(net, s, work[i].0).Some? ==>
                  var k := ConsultedKey(net, s, work[i].0).value;
                  Lookup(s'.trust, k) == Lookup(FanOutOne(cfg, net, s, work[i].0, keyMaterial, work[i].1).0.trust, k))
  {
    hide FanOut, FanOutOne, Consults, EachAlone;
    forall i, j | 0 <= i < j < |work| ensures !Clash(cfg, net, s, work[i], work[j]) {
      if Clash(cfg, net, s, work[i], work[j]) {
        ResolvesOwnKey(cfg, net, s, work[j], ConsultedKey(net, s, work[i].0).value, false);
      }
    }
    FanOutNonInterference(cfg, net, s, work, keyMaterial);
    forall i | 0 <= i < |work| && ConsultedKey(net, s, work[i].0).Some?
      ensures var k := ConsultedKey(net, s, work[i].0).value;
              Lookup(FanOut(cfg, net, s, work, keyMaterial).0.trust, k)
              == Lookup(FanOutOne(cfg, net, s, work[i].0, keyMaterial, work[i].1).0.trust, k)
    {
      EntryApproval(cfg, net, s, work[i], keyMaterial);
      var k := ConsultedKey(net, s, work[i].0).value;
      hide Resolves;
      if j :| 0 <= j < |work| && Resolves(cfg, net, s, work[j], k, true) {
        ResolvesOwnKey(cfg, net, s, work[j], k, true);
        assert j == i;
      }
    }
  }

  /** Two stores with equal views, equal trust and equal other fields are equal. */
  lemma StoresEqual(s: StoreState, t: StoreState)
    requires SameElsewhere(s, t)
    requires forall d :: ViewOf(s, d) == ViewOf(t, d)
    requires forall k :: Lookup(s.trust, k) == Lookup(t.trust, k)
    ensures s == t
  {
    assert forall d :: Lookup(s.sessions, d) == ViewOf(s, d).session && Lookup(s.remoteID, d) == ViewOf(s, d).remote;
    assert forall d :: Lookup(t.sessions, d) == ViewOf(t, d).session && Lookup(t.remoteID, d) == ViewOf(t, d).remote;
    SameLookups(s.sessions, t.sessions);
    SameLookups(s.remoteID, t.remoteID);
    SameLookups(s.trust, t.trust);
  }

  lemma SameLookups<K(!new), V>(m: map<K, V>, n: map<K, V>)
    requires forall k :: Lookup(m, k) == Lookup(n, k)
    ensures m == n
  {
    forall k ensures k in m <==> k in n { assert Lookup(m, k) == Lookup(n, k); }
    forall k | k in m ensures m[k] == n[k] { assert Lookup(m, k) == Lookup(n, k); }
  }

  // ---------- order ----------

  /** `other` gives the store and, entry for entry, the outcomes that `work` gives. */
  ghost predicate SameResults(cfg: Config, net: Net, s: StoreState, work: seq<(Device, nat)>, other: seq<(Device, nat)>,
          keyMaterial: nat)
  {
    var (s1, outs1) := FanOut(cfg, net, s, work, keyMaterial);
    var (s2, outs2) := FanOut(cfg, net, s, other, keyMaterial);
    && s1 == s2
    && (forall i, j :: 0 <= i < |work| && 0 <= j < |other| && work[i] == other[j] ==> outs1[i] == outs2[j])
  }

  /** No two entries clash, in either order. */
  ghost predicate Compatible(cfg: Config, net: Net, s: StoreState, work: seq<(Device, nat)>) {
    forall a, b :: a in work && b in work ==> !Clash(cfg, net, s, a, b)
  }

  /** Exactly when order does not matter: every permutation of the recipient list gives the same store and
      the same outcome per device if and only if no two entries clash. */
  lemma FanOutOrderIndependent(cfg: Config, net: Net, s: StoreState, work: seq<(Device, nat)>, keyMaterial: nat)
    requires DistinctDevices(work)
    ensures (forall other :: multiset(other) == multiset(work) ==> SameResults(cfg, net, s, work, other, keyMaterial))
            <==> Compatible(cfg, net, s, work)
  {
    hide SameResults, Compatible, Clash;
    if Compatible(cfg, net, s, work) {
      forall other | multiset(other) == multiset(work) ensures SameResults(cfg, net, s, work, other, keyMaterial) {
        CompatibleOrders(cfg, net, s, work, other, keyMaterial);
      }
    } else {
      var other := ClashShows(cfg, net, s, work, keyMaterial);
    }
  }

  lemma CompatibleOrders(cfg: Config, net: Net, s: StoreState, work: seq<(Device, nat)>, other: seq<(Device, nat)>,
          keyMaterial: nat)
    requires DistinctDevices(work) && multiset(other) == multiset(work) && Compatible(cfg, net, s, work)
    ensures SameResults(cfg, net, s, work, other, keyMaterial)
  {
    PermutedDistinct(work, other);
    SameMembers(work, other);
    forall i, j | 0 <= i < j < |work|
        ensures !Clash(cfg, net, s, work[i], work[j]) { assert work[i] in work && work[j] in work; }
    forall i, j | 0 <= i < j < |other|
        ensures !Clash(cfg, net, s, other[i], other[j]) { assert other[i] in other && other[j] in other; }
    hide FanOut, EachAlone, DistinctDevices, Clash, Compatible;
    FanOutNonInterference(cfg, net, s, work, keyMaterial);
    FanOutNonInterference(cfg, net, s, other, keyMaterial);
    var (s1, outs1) := FanOut(cfg, net, s, work, keyMaterial);
    var (s2, outs2) := FanOut(cfg, net, s, other, keyMaterial);
    EachAloneDetermines(cfg, net, s, work, other, keyMaterial, s1, outs1, s2, outs2);
  }

  /** The list with entry `i` moved to the front. */
  function Fronted(work: seq<(Device, nat)>, i: nat): (other: seq<(Device, nat)>)
    requires i < |work|
    ensures multiset(other) == multiset(work)
  {
    assert work == work[..i] + [work[i]] + work[i + 1..];
    [work[i]] + work[..i] + work[i + 1..]
  }

  /** Where two entries clash some permutation gives another outcome. */
  lemma ClashShows(cfg: Config, net: Net, s: StoreState, work: seq<(Device, nat)>, keyMaterial: nat)
          returns (other: seq<(Device, nat)>)
    requires DistinctDevices(work) && !Compatible(cfg, net, s, work)
    ensures multiset(other) == multiset(work) && !SameResults(cfg, net, s, work, other, keyMaterial)
  {
    var x, y :| x in work && y in work && Clash(cfg, net, s, x, y);
    var a :| 0 <= a < |work| && work[a] == x;
    var b :| 0 <= b < |work| && work[b] == y;
    hide Clash, Compatible, SameResults;
    other := Fronted(work, b);
    if SameResults(cfg, net, s, work, other, keyMaterial) {
      FirstIsAlone(cfg, net, s, work, other, keyMaterial, b);
      other := Fronted(work, a);
      ClashIsIrreflexive(cfg, net, s, x);
      SecondIsOvertaken(cfg, net, s, work, other, keyMaterial, a, b);
    }
  }

  lemma ClashIsIrreflexive(cfg: Config, net: Net, s: StoreState, x: (Device, nat))
    ensures !Clash(cfg, net, s, x, x)
  {
  }

  /** If moving an entry to the front changes nothing, it ended as if alone. */
  lemma FirstIsAlone(cfg: Config, net: Net, s: StoreState, work: seq<(Device, nat)>, other: seq<(Device, nat)>,
          keyMaterial: nat, b: nat)
    requires DistinctDevices(work) && b < |work| && other == Fronted(work, b)
    requires SameResults(cfg, net, s, work, other, keyMaterial)
    ensures FanOut(cfg, net, s, work, keyMaterial).1[b] == FanOutOne(cfg, net, s, work[b].0, keyMaterial, work[b].1).1
  {
    PermutedDistinct(work, other);
    hide FanOut, FanOutOne, Clash, Elsewhere, DistinctDevices;
    FanOutEffects(cfg, net, s, other, keyMaterial);
    assert !Overtaken(cfg, net, s, other, 0);
    assert AloneAt(cfg, net, s, other[0], keyMaterial, FanOut(cfg, net, s, other, keyMaterial).0,
        FanOut(cfg, net, s, other, keyMaterial).1[0]);
    assert work[b] == other[0];
  }

  lemma SecondIsOvertaken(cfg: Config, net: Net, s: StoreState, work: seq<(Device, nat)>, other: seq<(Device, nat)>,
          keyMaterial: nat, a: nat, b: nat)
    requires DistinctDevices(work) && a < |work| && b < |work| && a != b && other == Fronted(work, a)
    requires Clash(cfg, net, s, work[a], work[b])
    requires FanOut(cfg, net, s, work, keyMaterial).1[b] == FanOutOne(cfg, net, s, work[b].0, keyMaterial, work[b].1).1
    ensures !SameResults(cfg, net, s, work, other, keyMaterial)
  {
    PermutedDistinct(work, other);
    var j := if b < a then b + 1 else b;
    assert other[0] == work[a] && other[j] == work[b];
    hide FanOut, FanOutOne, Clash, Elsewhere, DistinctDevices;
    FanOutEffects(cfg, net, s, other, keyMaterial);
    assert Overtaken(cfg, net, s, other, j);
  }

  /** `EachAlone` pins the final store down, whatever the order of the entries. */
  lemma EachAloneDetermines(cfg: Config, net: Net, s: StoreState, work: seq<(Device, nat)>, other: seq<(Device, nat)>,
          keyMaterial: nat,
                            s1: StoreState, outs1: seq<Outcome>, s2: StoreState, outs2: seq<Outcome>)
    requires EachAlone(cfg, net, s, work, keyMaterial, s1, outs1)
    requires EachAlone(cfg, net, s, other, keyMaterial, s2, outs2)
    requires forall w :: w in work <==> w in other
    ensures s1 == s2
    ensures forall i, j :: 0 <= i < |work| && 0 <= j < |other| && work[i] == other[j] ==> outs1[i] == outs2[j]
  {
    hide FanOutOne, Resolves;
    forall i, j | 0 <= i < |work| && 0 <= j < |other| && work[i] == other[j] ensures outs1[i] == outs2[j] {
      assert AloneAt(cfg, net, s, work[i], keyMaterial, s1, outs1[i]);
      assert AloneAt(cfg, net, s, other[j], keyMaterial, s2, outs2[j]);
    }
    forall d ensures ViewOf(s1, d) == ViewOf(s2, d) {
      if i :| 0 <= i < |work| && work[i].0 == d {
        assert AloneAt(cfg, net, s, work[i], keyMaterial, s1, outs1[i]);
        assert work[i] in other;
        var j :| 0 <= j < |other| && other[j] == work[i];
        assert AloneAt(cfg, net, s, other[j], keyMaterial, s2, outs2[j]);
      } else {
        forall j | 0 <= j < |other| ensures other[j].0 != d { assert other[j] in work; }
      }
    }
    forall k ensures ApprovedBy(cfg, net, s, work, k) <==> ApprovedBy(cfg, net, s, other, k) {
      if i :| 0 <= i < |work| && Resolves(cfg, net, s, work[i], k, true) { assert work[i] in other; }
      if j :| 0 <= j < |other| && Resolves(cfg, net, s, other[j], k, true) { assert other[j] in work; }
    }
    StoresEqual(s1, s2);
  }

  lemma SameMembers<T>(a: seq<T>, b: seq<T>)
    requires multiset(a) == multiset(b)
    ensures |a| == |b|
    ensures forall x :: x in a <==> x in b
  {
    assert |multiset(a)| == |a| && |multiset(b)| == |b|;
    forall x ensures x in a <==> x in b {
      assert x in a <==> x in multiset(a);
      assert x in b <==> x in multiset(b);
    }
  }

  lemma PermutedDistinct(work: seq<(Device, nat)>, other: seq<(Device, nat)>)
    requires DistinctDevices(work) && multiset(other) == multiset(work)
    ensures DistinctDevices(other)
  {
    SameMembers(work, other);
    forall i, j | 0 <= i < j < |other| ensures other[i].0 != other[j].0 {
      assert other[i] in work && other[j] in work;
      var a :| 0 <= a < |work| && work[a] == other[i];
      var b :| 0 <= b < |work| && work[b] == other[j];
      if a == b {
        TwiceInSeq(other, i, j);
        OnceInDistinct(work, a);
      }
    }
  }

  lemma OnceInDistinct<A, B>(w: seq<(A, B)>, a: nat)
    requires a < |w|
    requires forall i, j :: 0 <= i < j < |w| ==> w[i].0 != w[j].0
    ensures multiset(w)[w[a]] == 1
  {
    assert w == w[..a] + [w[a]] + w[a + 1..];
    assert w[a] !in w[..a] && w[a] !in w[a + 1..];
    assert multiset(w) == multiset(w[..a]) + multiset{w[a]} + multiset(w[a + 1..]);
  }

  lemma TwiceInSeq<T>(w: seq<T>, i: nat, j: nat)
    requires i < j < |w| && w[i] == w[j]
    ensures multiset(w)[w[i]] >= 2
  {
    assert w == w[..j] + [w[j]] + w[j + 1..];
    assert multiset(w) == multiset(w[..j]) + multiset{w[j]} + multiset(w[j + 1..]);
    assert w[i] in w[..j];
  }

  /** Distinct devices are not enough. Two devices announce one undecided identity key and the resolver
      approves it for the first only: whichever goes first decides whether the second is refused. */
  lemma SharedIdentityKeyOrderMatters(cfg: Config, net: Net, s: StoreState, d1: Device, d2: Device, e1: nat, e2: nat)
    requires d1 != d2 && d1 != cfg.localDevice && d2 != cfg.localDevice
    requires FreshlyReachable(cfg, net, s, d1, e1) && FreshlyReachable(cfg, net, s, d2, e2)
    requires net.bundles[d1].identityKey == net.bundles[d2].identityKey
    requires Undecided(s, net.bundles[d1].identityKey) && cfg.resolver.Some?
    requires cfg.resolver.value(d1, net.bundles[d1].identityKey) && !cfg.resolver.value(d2, net.bundles[d2].identityKey)
    ensures FanOut(cfg, net, s, [(d1, e1), (d2, e2)], 0).1[1].Sealed?
    ensures FanOut(cfg, net, s, [(d2, e2), (d1, e1)], 0).1[0] == Failed(ResolverDeclined)
  {
    EntryFrame(cfg, net, s, d1, 0, e1);
    var s1 := FanOutOne(cfg, net, s, d1, 0, e1).0;
    FirstContact(cfg, net, s, d1, e1);
    assert ViewOf(s1, d2) == ViewOf(s, d2);
    FirstContact(cfg, net, s1, d2, e2);
    FirstContact(cfg, net, s, d2, e2);
    hide FanOutOne;
    TwoEntries(cfg, net, s, (d1, e1), (d2, e2));
    TwoEntries(cfg, net, s, (d2, e2), (d1, e1));
  }

  /** No session yet, and a bundle X3DH accepts. */
  ghost predicate FreshlyReachable(cfg: Config, net: Net, s: StoreState, dev: Device, ek: nat) {
    dev !in s.sessions && dev in net.bundles && BuildActive(cfg, net.bundles[dev], ek).Ok?
  }

  /** First contact gets a key exactly when the announced identity key ends up trusted. */
  lemma FirstContact(cfg: Config, net: Net, s: StoreState, dev: Device, ek: nat)
    requires dev != cfg.localDevice && FreshlyReachable(cfg, net, s, dev, ek)
    ensures var (s', o) := FanOutOne(cfg, net, s, dev, 0, ek);
            var key := net.bundles[dev].identityKey;
            && (o.Sealed? <==> Lookup(s'.trust, key) == Some(TrustTrusted))
            && (Lookup(s.trust, key) == Some(TrustTrusted) ==> o.Sealed?)
            && (Undecided(s, key) && cfg.resolver.Some? ==>
                  if cfg.resolver.value(dev, key) then o.Sealed? else o == Failed(ResolverDeclined))
  {
    var b := net.bundles[dev];
    var (sess, kx) := BuildActive(cfg, b, ek).value;
    assert sess.ratchet.canSend;
    var (s1, active) := ActiveSession(cfg, net, s, dev, ek);
    assert active == Ok((sess, Some(kx))) && s1.remoteID[dev] == b.identityKey && s1.trust == s.trust;
    hide BuildActive;
    var (s2, refusal) := CheckTrust(cfg, s1, dev, b.identityKey);
    assert refusal.None? <==> Lookup(s2.trust, b.identityKey) == Some(TrustTrusted);
  }

  lemma TwoEntries(cfg: Config, net: Net, s: StoreState, a: (Device, nat), b: (Device, nat))
    ensures var (s1, o1) := FanOutOne(cfg, net, s, a.0, 0, a.1);
            var (s2, o2) := FanOutOne(cfg, net, s1, b.0, 0, b.1);
            FanOut(cfg, net, s, [a, b], 0) == (s2, [o1, o2])
  {
    hide FanOutOne;
    var w: seq<(Device, nat)> := [a, b];
    assert w[..1][..0] == [] && w[..1][0] == a;
    var (s1, o1) := FanOutOne(cfg, net, s, a.0, 0, a.1);
    assert FanOut(cfg, net, s, w[..1], 0) == (s1, [] + [o1]);
    var (s2, o2) := FanOutOne(cfg, net, s1, b.0, 0, b.1);
    assert [] + [o1] + [o2] == [o1, o2];
    assert FanOut(cfg, net, s, w, 0) == (s2, [o1, o2]);
  }

  // ---------- accounting ----------

  /** The positions of the entries that got a key, and of those that failed, in list order. */
  function SealedAt(outs: seq<Outcome>): (ix: seq<nat>)
    ensures Increasing(ix, |outs|)
    ensures forall i :: i in ix <==> 0 <= i < |outs| && outs[i].Sealed?
  {
    if outs == [] then []
    else var n := |outs| - 1;
         SealedAt(outs[..n]) + if outs[n].Sealed? then [n] else []
  }

  function FailedAt(outs: seq<Outcome>): (ix: seq<nat>)
    ensures Increasing(ix, |outs|)
    ensures forall i :: i in ix <==> 0 <= i < |outs| && outs[i].Failed?
  {
    if outs == [] then []
    else var n := |outs| - 1;
         FailedAt(outs[..n]) + if outs[n].Failed? then [n] else []
  }

  predicate Increasing(ix: seq<nat>, bound: nat) {
    && (forall a :: 0 <= a < |ix| ==> ix[a] < bound)
    && (forall a, b :: 0 <= a < b < |ix| ==> ix[a] < ix[b])
  }

  lemma {:induction false} KeysInOrder(outs: seq<Outcome>)
    ensures |KeysOf(outs)| == |SealedAt(outs)|
    ensures forall a :: 0 <= a < |KeysOf(outs)| ==> outs[SealedAt(outs)[a]] == Sealed(KeysOf(outs)[a])
  {
    hide Increasing;
    if outs == [] { return; }
    var n := |outs| - 1;
    var ix, keys := SealedAt(outs[..n]), KeysOf(outs[..n]);
    assert SealedAt(outs) == ix + if outs[n].Sealed? then [n] else [];
    assert KeysOf(outs) == keys + if outs[n].Sealed? then [outs[n].key] else [];
    hide SealedAt, KeysOf;
    KeysInOrder(outs[..n]);
    forall a | 0 <= a < |KeysOf(outs)| ensures outs[SealedAt(outs)[a]] == Sealed(KeysOf(outs)[a]) {
      if a < |ix| { assert outs[..n][ix[a]] == outs[ix[a]]; }
    }
  }

  lemma {:induction false} ErrorsInOrder(devices: seq<Device>, outs: seq<Outcome>)
    requires |outs| <= |devices|
    ensures |ErrorsOf(devices, outs)| == |FailedAt(outs)|
    ensures forall a :: 0 <= a < |FailedAt(outs)| ==>
              var i := FailedAt(outs)[a];
              i < |outs| && outs[i].Failed? && ErrorsOf(devices, outs)[a] == DeviceError(devices[i], outs[i].error)
  {
    hide Increasing;
    if outs == [] { return; }
    var n := |outs| - 1;
    var ix, errors := FailedAt(outs[..n]), ErrorsOf(devices, outs[..n]);
    assert FailedAt(outs) == ix + if outs[n].Failed? then [n] else [];
    assert ErrorsOf(devices, outs) == errors + if outs[n].Failed? then [DeviceError(devices[n], outs[n].error)] else [];
    hide FailedAt, ErrorsOf;
    ErrorsInOrder(devices, outs[..n]);
    forall a | 0 <= a < |FailedAt(outs)|
      ensures var i := FailedAt(outs)[a];
              i < |outs| && outs[i].Failed? && ErrorsOf(devices, outs)[a] == DeviceError(devices[i], outs[i].error)
    {
      if a < |ix| { assert outs[..n][ix[a]] == outs[ix[a]]; }
    }
  }

  /** Each outcome names its own entry: a key carries that entry's device ID, only the local device is skipped. */
  lemma {:induction false} OutcomesMatchEntries(cfg: Config, net: Net, s: StoreState, work: seq<(Device, nat)>,
          keyMaterial: nat)
    ensures var outs := FanOut(cfg, net, s, work, keyMaterial).1;
            forall i :: 0 <= i < |work| ==>
              && (outs[i].Skipped? <==> work[i].0 == cfg.localDevice)
              && (outs[i].Sealed? ==> outs[i].key.device == work[i].0.id)
  {
    if work != [] { OutcomesMatchEntries(cfg, net, s, work[..|work| - 1], keyMaterial); }
  }

  /** Accounting for one call: keys and device errors are order-preserving selections of the recipient list,
      together covering every entry except the local device exactly once; a message is returned exactly
      when some entry got a key, carrying exactly those keys. */
  lemma FanOutAccounting(cfg: Config, net: Net, s: StoreState, rnd: nat, devices: seq<Device>, plaintext: Option<Bytes>)
    ensures var e := EncryptToDevices(cfg, net, s, rnd, devices, plaintext);
            var outs := FanOut(cfg, net, s, WorkFor(devices, rnd + 2), rnd).1;
            var sealedAt, failedAt := SealedAt(outs), FailedAt(outs);
            && (forall i :: 0 <= i < |devices| ==>
                  ((i in sealedAt || i in failedAt) <==> devices[i] != cfg.localDevice)
                      && !(i in sealedAt && i in failedAt))
            && |e.deviceErrs| == |failedAt|
            && (forall a :: 0 <= a < |failedAt| ==> e.deviceErrs[a].device == devices[failedAt[a]])
            && (e.msg.Some? <==> sealedAt != [])
            && (e.msg.None? <==> e.err == Some(ErrNoRecipients))
            && (e.msg.Some? ==> |e.msg.value.keys| == |sealedAt|
                                && forall a :: 0 <= a < |sealedAt| ==>
                                   e.msg.value.keys[a].device == devices[sealedAt[a]].id)
  {
    hide FanOut;
    var work := WorkFor(devices, rnd + 2);
    var outs := FanOut(cfg, net, s, work, rnd).1;
    OutcomesMatchEntries(cfg, net, s, work, rnd);
    KeysInOrder(outs);
    ErrorsInOrder(devices, outs);
  }
}
