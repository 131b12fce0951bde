/** Key agreement through IDs: X3DH names prekeys by number, and the numbers find the right halves. */
module Agreement {
  import opened Basics
  import opened Types
  import opened Signal
  import opened StoreModel
  import opened ManagerSpec
  import opened Runs
  import opened PreKeys

  /** A signed prekey as this device makes them: both halves of one pair, signed by its own identity. */
  predicate OwnSigned(cfg: Config, r: SignedPreKeyRecord) {
    cfg.identityKey.Priv? && r.pub.Pub? && r.priv == Priv(r.pub.n) && r.sig == Sig(cfg.identityKey.n, r.pub)
  }

  lemma {:induction false} HistoryOwnSigned(cfg: Config, l: Local, acts: seq<Action>)
    requires FreshDevice(cfg, l)
    ensures forall k :: 0 <= k < |SignedPreKeys(cfg, l, acts)| ==> OwnSigned(cfg, SignedPreKeys(cfg, l, acts)[k])
  {
    hide Encrypt, DecryptMessage, Filed, NewPreKeys;
    if acts == [] {
      assert OwnSigned(cfg, l.store.currentSPK);
    } else {
      hide Generated;
      HistoryOwnSigned(cfg, l, acts[..|acts| - 1]);
      assert cfg.identityKey.Priv?;
    }
  }

  /** A run cut in two. */
  lemma {:induction false} RunInTwo(cfg: Config, l: Local, first: seq<Action>, later: seq<Action>)
    ensures Run(cfg, l, first + later) == Run(cfg, Run(cfg, l, first), later)
    ensures GeneratedIn(first + later) == GeneratedIn(first) + GeneratedIn(later)
    ensures |SignedPreKeys(cfg, l, first + later)| == |SignedPreKeys(cfg, l, first)| + RotationsIn(later)
    ensures SignedPreKeys(cfg, l, first) <= SignedPreKeys(cfg, l, first + later)
  {
    hide Apply;
    if later == [] {
      assert first + later == first;
    } else {
      var n := |later| - 1;
      RunInTwo(cfg, l, first, later[..n]);
      assert (first + later)[..|first + later| - 1] == first + later[..n];
    }
  }

  function RotationsIn(acts: seq<Action>): nat {
    if acts == [] then 0 else RotationsIn(acts[..|acts| - 1]) + if acts[|acts| - 1].DoRotate? then 1 else 0
  }

  /** The publisher's side of an exchange against `bundle`: what it finds under the IDs the bundle named. */
  ghost predicate FindsHalves(s: StoreState, bundle: Bundle, spkID: U32, pkID: U32) {
    && (var spk := SignedPreKeyByID(s, spkID);
        spk.Ok? && spk.value.pub == bundle.signedPreKey.pub && spk.value.pub.Pub?
            && spk.value.priv == Priv(spk.value.pub.n))
    && bundle.preKeys != []
    && pkID in s.preKeys && s.preKeys[pkID].pub == bundle.preKeys[0].pub && Paired(s.preKeys[pkID])
  }

  /** The records an exchange built from a once-published bundle names: whatever happened since, if an ID
      still finds a record it finds the one the bundle advertised; the signed prekey is found exactly while
      at most one rotation has passed. */
  lemma LookupsFindAdvertised(cfg: Config, l: Local, first: seq<Action>, later: seq<Action>, bundle: Bundle)
    requires FreshDevice(cfg, l)
    requires DEFAULT_PRE_KEY_COUNT + GeneratedIn(first) + GeneratedIn(later) < TWO_TO_THE_32
    requires |SignedPreKeys(cfg, l, first)| + RotationsIn(later) < TWO_TO_THE_32
    requires IsBundle(cfg, Run(cfg, l, first).store, bundle) && bundle.preKeys != []
    ensures var s := Run(cfg, l, first + later).store;
            && (SignedPreKeyByID(s, bundle.signedPreKey.id).Ok? <==> RotationsIn(later) <= 1)
            && (RotationsIn(later) <= 1 && bundle.preKeys[0].id in s.preKeys ==>
                  FindsHalves(s, bundle, bundle.signedPreKey.id, bundle.preKeys[0].id))
            && bundle.signedPreKey.sig == Sig(cfg.identityKey.n, bundle.signedPreKey.pub)
            && bundle.signedPreKey.pub.Pub? && bundle.preKeys[0].pub.Pub?
  {
    hide Run, SignedPreKeys, FreshDevice, RotationsIn, GeneratedIn, SignedPreKeyByID, OwnSigned;
    AdvertisedSigned(cfg, l, first, later);
    AdvertisedOneTime(cfg, l, first, later, bundle.preKeys[0].id);
    hide IsBundle;
    OwnSignedHalves(cfg, Run(cfg, l, first).store.currentSPK);
  }

  lemma OwnSignedHalves(cfg: Config, r: SignedPreKeyRecord)
    requires OwnSigned(cfg, r)
    ensures cfg.identityKey.Priv? && r.pub.Pub? && r.priv == Priv(r.pub.n) && r.sig == Sig(cfg.identityKey.n, r.pub)
  {
  }

  /** The signed prekey current at some point is found later exactly while at most one rotation has passed. */
  lemma AdvertisedSigned(cfg: Config, l: Local, first: seq<Action>, later: seq<Action>)
    requires FreshDevice(cfg, l) && |SignedPreKeys(cfg, l, first)| + RotationsIn(later) < TWO_TO_THE_32
    ensures var spk := Run(cfg, l, first).store.currentSPK;
            var found := SignedPreKeyByID(Run(cfg, l, first + later).store, spk.id);
            && OwnSigned(cfg, spk)
            && (found.Ok? <==> RotationsIn(later) <= 1) && (found.Ok? ==> found.value == spk)
  {
    hide Run, SignedPreKeys, FreshDevice, RotationsIn, OwnSigned, SignedPreKeyByID;
    RunInTwo(cfg, l, first, later);
    var h1, h := SignedPreKeys(cfg, l, first), SignedPreKeys(cfg, l, first + later);
    HistoryOwnSigned(cfg, l, first);
    InitialPool(cfg, l);
    RunWindow(cfg, l, first);
    SignedPreKeyWindow(cfg, l, first + later, |h1|);
    assert h[|h1| - 1] == h1[|h1| - 1];
  }

  /** A live one-time prekey keeps its record as long as it stays live. */
  lemma AdvertisedOneTime(cfg: Config, l: Local, first: seq<Action>, later: seq<Action>, id: U32)
    requires FreshDevice(cfg, l) && DEFAULT_PRE_KEY_COUNT + GeneratedIn(first) + GeneratedIn(later) < TWO_TO_THE_32
    requires id in Run(cfg, l, first).store.preKeys
    ensures var s1, s := Run(cfg, l, first).store, Run(cfg, l, first + later).store;
            Paired(s1.preKeys[id]) && (id in s.preKeys ==> s.preKeys[id] == s1.preKeys[id])
  {
    hide Run, FreshDevice, GeneratedIn, ConsumedIn;
    RunInTwo(cfg, l, first, later);
    InitialPool(cfg, l);
    RunPool(cfg, l, first, DEFAULT_PRE_KEY_COUNT);
    RunPool(cfg, Run(cfg, l, first), later, DEFAULT_PRE_KEY_COUNT + GeneratedIn(first));
  }

  /** Key agreement through IDs. Take any bundle the device ever published, any later run of it - other
      senders, duplicates, forgeries, rotations, generations - and any initiator that built an exchange from
      that bundle. The device accepts the exchange exactly when at most one rotation has passed and the
      prekey was not consumed meanwhile; and then both ends derive the same root, so the first message
      decrypts to the initiator's key material. */
  lemma KeyAgreementThroughIDs(cfg: Config, l: Local, first: seq<Action>, later: seq<Action>, bundle: Bundle,
                               peer: Config, ek: nat, km: nat)
    requires FreshDevice(cfg, l)
    requires DEFAULT_PRE_KEY_COUNT + GeneratedIn(first) + GeneratedIn(later) < TWO_TO_THE_32
    requires |SignedPreKeys(cfg, l, first)| + RotationsIn(later) < TWO_TO_THE_32
    requires IsBundle(cfg, Run(cfg, l, first).store, bundle)
    requires peer.protocol == cfg.protocol && BuildActive(peer, bundle, ek).Ok?
    ensures var s := Run(cfg, l, first + later).store;
            var (sess, kx) := BuildActive(peer, bundle, ek).value;
            var accepted := AcceptKeyExchange(cfg, s, peer.localDevice, kx).1;
            && (accepted.Ok? <==> RotationsIn(later) <= 1 && kx.preKeyID in s.preKeys)
            && (accepted.Ok? ==> accepted.value.ratchet.root == sess.ratchet.root)
            && (accepted.Ok? ==>
                  Seal(sess, km).1.Ok?
                  && DecryptKey(cfg, s, peer.localDevice,
                     RecipientKey(cfg.localDevice.id, Seal(sess, km).1.value, Some(kx))).1 == Ok(km))
  {
    hide Run, SignedPreKeys, FreshDevice;
    assert bundle.preKeys != [];
    LookupsFindAdvertised(cfg, l, first, later, bundle);
    ExchangeAgrees(cfg, Run(cfg, l, first + later).store, bundle, peer, ek, km);
  }

  /** One exchange against a store that finds the advertised halves. */
  lemma ExchangeAgrees(cfg: Config, s: StoreState, bundle: Bundle, peer: Config, ek: nat, km: nat)
    requires cfg.identityKey.Priv? && bundle.identityKey == Pub(cfg.identityKey.n) && bundle.preKeys != []
    requires bundle.signedPreKey.pub.Pub? && bundle.preKeys[0].pub.Pub?
    requires peer.protocol == cfg.protocol && BuildActive(peer, bundle, ek).Ok?
    requires SignedPreKeyByID(s, bundle.signedPreKey.id).Ok? && bundle.preKeys[0].id in s.preKeys ==>
               FindsHalves(s, bundle, bundle.signedPreKey.id, bundle.preKeys[0].id)
    ensures var (sess, kx) := BuildActive(peer, bundle, ek).value;
            var accepted := AcceptKeyExchange(cfg, s, peer.localDevice, kx).1;
            && (accepted.Ok? <==> SignedPreKeyByID(s, kx.signedPreKeyID).Ok? && kx.preKeyID in s.preKeys)
            && (accepted.Ok? ==> accepted.value.ratchet.root == sess.ratchet.root)
            && (accepted.Ok? ==>
                  Seal(sess, km).1.Ok?
                  && DecryptKey(cfg, s, peer.localDevice,
                     RecipientKey(cfg.localDevice.id, Seal(sess, km).1.value, Some(kx))).1 == Ok(km))
            && kx.signedPreKeyID == bundle.signedPreKey.id && kx.preKeyID == bundle.preKeys[0].id
  {
    hide SignedPreKeyByID;
    var (sess, kx) := BuildActive(peer, bundle, ek).value;
    var spk, pk := bundle.signedPreKey.pub.n, bundle.preKeys[0].pub.n;
    X3DHAgreement(peer.identityKey.n, ek, cfg.identityKey.n, spk, pk);
    assert sess.ratchet == Ratchet(sess.ratchet.root, Active, 0, {}, true);
    var w := Whisper(sess.ratchet.root, Active, 0, km);
    var key := RecipientKey(cfg.localDevice.id, Seal(sess, km).1.value, Some(kx));
    assert OfferedExchange(cfg, key) == Ok((kx, w));
    var (s', accepted) := AcceptKeyExchange(cfg, s, peer.localDevice, kx);
    if accepted.Ok? {
      assert accepted.value == SessionState(cfg.protocol, Ratchet(sess.ratchet.root, Passive, 0, {}, false), None);
      assert SessionForIncoming(cfg, s, peer.localDevice, key) == (s', Ok((accepted.value, w)));
    }
  }
}
