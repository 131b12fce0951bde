/** Two managers over in-order channels: the whole-run round trip. Both may have any number of other devices
    in their recipient lists. */
module Pair {
  import opened Basics
  import opened Types
  import opened Signal
  import opened StoreModel
  import opened ManagerSpec
  import opened Sections
  import opened FanOutProofs
  import opened Runs
  import opened PreKeys
  import opened Trust
  import opened Agreement

  datatype Party = Party(cfg: Config, store: StoreState)

  /** A message in a channel, with what its sender meant. */
  datatype Sent = Sent(msg: EncryptedMessage, plaintext: Option<Bytes>)

  datatype World = World(a: Party, b: Party, net: Net, toB: seq<Sent>, toA: seq<Sent>, rnd: nat)

  function Swap(w: World): World {
    World(w.b, w.a, w.net, w.toA, w.toB, w.rnd)
  }

  // ---------- what does not change during a run ----------

  /** `me` can address `peer`: its recipient list for the peer's account has the peer's device, and no
      device ID occurs twice in it (a RecipientKey carries nothing but the ID). */
  ghost predicate Addresses(me: Party, peer: Party, net: Net) {
    var ds := RecipientDevices(me.cfg, net, me.store, peer.cfg.localDevice.jid).1;
    && ds.Ok? && peer.cfg.localDevice in ds.value
    && (forall i, j :: 0 <= i < j < |ds.value| ==> ds.value[i].id != ds.value[j].id)
  }

  /** The peer's identity key is trusted, or still undecided and the resolver approves it. */
  ghost predicate Trusts(me: Party, peer: Party) {
    var key := IdentityOf(peer);
    Lookup(me.store.trust, key) == Some(TrustTrusted)
    || (Undecided(me.store, key) && me.cfg.resolver.Some?
        && me.cfg.resolver.value(peer.cfg.localDevice, key))
  }

  function IdentityOf(p: Party): PubKey {
    if p.cfg.identityKey.Priv? then Pub(p.cfg.identityKey.n) else NoPub
  }

  /** `me` can encrypt to `peer`. */
  ghost predicate Reaches(me: Party, peer: Party, net: Net) {
    && me.cfg.identityKey.Priv? && me.cfg.protocol == peer.cfg.protocol
    && me.cfg.localDevice != peer.cfg.localDevice
    && Addresses(me, peer, net) && Trusts(me, peer)
  }

  ghost predicate Ready(me: Party, peer: Party, net: Net) {
    Reaches(me, peer, net) && PoolInv(me.store, me.store.nextPreKeyID)
  }

  ghost predicate Setting(w: World) {
    Ready(w.a, w.b, w.net) && Ready(w.b, w.a, w.net)
  }

  // ---------- keys in flight ----------

  /** `sent` opens, for `to`, to what was meant, once the ratchet yields `km`. */
  ghost predicate Carries(sent: Sent, from: Party, to: Party, key: RecipientKey, km: nat) {
    && sent.msg.sender == from.cfg.localDevice
    && KeyFor(sent.msg.keys, to.cfg.localDevice.id) == Some(key)
    && OpenPayload(to.cfg, sent.msg, km) == Ok(sent.plaintext)
  }

  /** `sent` carries a plain ratchet message of session `r` at `index`. */
  ghost predicate PlainAt(sent: Sent, from: Party, to: Party, r: Ratchet, index: nat) {
    exists km: nat :: Carries(sent, from, to,
        RecipientKey(to.cfg.localDevice.id, Whisper(r.root, r.role, index, km), None), km)
  }

  /** `received` is the indices below `k`. */
  ghost predicate UpTo(received: set<nat>, k: nat) {
    forall i: nat :: i in received <==> i < k
  }

  /** The session `me` stores for `peer`. */
  function SessionWith(me: Party, peer: Party): Option<Ratchet> {
    var d := peer.cfg.localDevice;
    if d in me.store.sessions && me.store.sessions[d].Blob? && me.store.sessions[d].protocol == me.cfg.protocol
    then Some(me.store.sessions[d].ratchet) else None
  }

  function NoSession(me: Party, peer: Party): bool {
    peer.cfg.localDevice !in me.store.sessions
  }

  function Records(me: Party, peer: Party): bool {
    peer.cfg.localDevice in me.store.remoteID && me.store.remoteID[peer.cfg.localDevice] == IdentityOf(peer)
  }

  /** One direction of an established pair: what `chan` holds is exactly the tail `to` has not received. */
  ghost predicate Flow(chan: seq<Sent>, from: Party, to: Party, rf: Ratchet, rt: Ratchet) {
    && |chan| <= rf.sent
    && UpTo(rt.received, rf.sent - |chan|)
    && (forall k :: 0 <= k < |chan| ==> PlainAt(chan[k], from, to, rf, rf.sent - |chan| + k))
  }

  /** Both sides hold the two ends of one session. */
  ghost predicate Matched(ra: Ratchet, rb: Ratchet) {
    ra.root == rb.root && ra.role == Other(rb.role) && ra.canSend && rb.canSend
  }

  ghost predicate Established(w: World) {
    && SessionWith(w.a, w.b).Some? && SessionWith(w.b, w.a).Some? && Records(w.a, w.b) && Records(w.b, w.a)
    && var ra, rb := SessionWith(w.a, w.b).value, SessionWith(w.b, w.a).value;
       Matched(ra, rb) && Flow(w.toB, w.a, w.b, ra, rb) && Flow(w.toA, w.b, w.a, rb, ra)
  }

  /** `bundle` is `b`'s, names records `b` still holds both halves of, and carries its own signature. */
  ghost predicate Live(b: Party, bundle: Bundle) {
    && b.cfg.identityKey.Priv? && bundle.identityKey == IdentityOf(b)
    && bundle.preKeys != []
    && Holds(b, bundle.signedPreKey.id, bundle.signedPreKey.pub, bundle.preKeys[0].id, bundle.preKeys[0].pub)
    && bundle.signedPreKey.sig == Sig(b.cfg.identityKey.n, bundle.signedPreKey.pub)
  }

  /** `b` still holds the private halves of these two prekeys under these IDs. */
  ghost predicate Holds(b: Party, spkID: U32, spkPub: PubKey, pkID: U32, pkPub: PubKey) {
    && spkPub.Pub? && pkPub.Pub?
    && (var spk := SignedPreKeyByID(b.store, spkID);
       spk.Ok? && spk.value.pub == spkPub && spk.value.priv == Priv(spkPub.n))
    && pkID in b.store.preKeys && b.store.preKeys[pkID].priv == Priv(pkPub.n)
  }

  /** `sent` carries the key exchange that opens session `r` of `a` with `b`, both prekeys still held. */
  ghost predicate Opens(sent: Sent, a: Party, b: Party, r: Ratchet) {
    exists km, ek: nat, spkID, spk: nat, pkID, pk: nat :: OpensWith(sent, a, b, r, km, ek, spkID, spk, pkID, pk)
  }

  ghost predicate OpensWith(sent: Sent, a: Party, b: Party, r: Ratchet, km: nat, ek: nat, spkID: U32, spk: nat,
          pkID: U32, pk: nat)
  {
    && a.cfg.identityKey.Priv? && b.cfg.identityKey.Priv?
    && Holds(b, spkID, Pub(spk), pkID, Pub(pk))
    && InitiateX3DH(a.cfg.identityKey, IdentityOf(b), Pub(spk), Sig(b.cfg.identityKey.n, Pub(spk)), Pub(pk), ek) ==
       Ok(r.root)
    && Carries(sent, a, b, FirstKey(a, b, r, km, ek, spkID, pkID), km)
  }

  /** The recipient key of a session's first message, in the protocol both speak. */
  function FirstKey(a: Party, b: Party, r: Ratchet, km: nat, ek: nat, spkID: U32, pkID: U32): RecipientKey {
    var w := Whisper(r.root, Active, 0, km);
    RecipientKey(b.cfg.localDevice.id,
                 if a.cfg.protocol == ProtocolV1
                     then PreKeyWhisper(IdentityOf(a), Pub(ek), pkID, spkID, a.cfg.localDevice.id, w) else w,
                 Some(KeyExchange(IdentityOf(a), Pub(ek), spkID, pkID)))
  }

  /** `a` has opened a session `b` has not heard of: the key exchange is first in the channel. */
  ghost predicate Opening(w: World) {
    && SessionWith(w.a, w.b).Some? && Records(w.a, w.b) && w.toA == [] && w.toB != []
    && var ra := SessionWith(w.a, w.b).value;
       && ra.role == Active && ra.canSend && ra.received == {} && ra.sent == |w.toB|
       && Opens(w.toB[0], w.a, w.b, ra)
       && (forall k :: 1 <= k < |w.toB| ==> PlainAt(w.toB[k], w.a, w.b, ra, k))
  }

  /** Nothing in flight and at least one side without a session. */
  ghost predicate Vacant(w: World) {
    w.toA == [] && w.toB == [] && (NoSession(w.a, w.b) || NoSession(w.b, w.a))
  }

  ghost predicate Inv(w: World) {
    Setting(w) && (Vacant(w) || Opening(w) || Opening(Swap(w)) || Established(w))
  }

  // ---------- what may happen ----------

  /** What `a` may do next. Besides its dealings with `b` it may hear a message from a third device, tell another
      account something, sync an account's devices and take a trust decision; and somebody may publish a new
      device list. */
  datatype Action =
    | Send(plaintext: Option<Bytes>)
    | Receive
    | Reset
    | Rotate
    | Generate(n: nat)
    | Publish(bundle: Bundle)
    | Hear(msg: EncryptedMessage)
    | Tell(jid: string, plaintext: Option<Bytes>)
    | Sync(jid: string)
    | Decide(key: PubKey, trust: TrustState)
    | Relist(jid: string, ids: seq<U32>)

  /** `sent` carries a key exchange for `to`. */
  predicate CarriesExchange(sent: Sent, to: Party) {
    var key := KeyFor(sent.msg.keys, to.cfg.localDevice.id);
    key.Some? && key.value.keyExchange.Some?
  }

  /** The hypotheses of the round trip on `a`'s next action. Sending: no key exchange is on its way to `a`
      (none cross); without a session, nothing is in flight and the peer's published bundle is live; with
      one, the peer has a session too or `a`'s key exchange is on its way. A reset waits until nothing is in
      flight, a rotation until the exchanges on their way name the current signed prekey, and no allocation
      wraps. A third device's message leaves the prekeys named by exchanges on their way; what is told to
      others does not go to `b`; new device lists and trust decisions leave the two able to encrypt to each
      other. */
  ghost predicate Allowed(w: World, act: Action) {
    match act
    case Send(_) =>
      && (forall k :: 0 <= k < |w.toA| ==> !CarriesExchange(w.toA[k], w.a))
      && (NoSession(w.a, w.b) ==>
            w.toA == [] && w.toB == [] && w.b.cfg.localDevice in w.net.bundles
                && Live(w.b, w.net.bundles[w.b.cfg.localDevice]))
      && (!NoSession(w.a, w.b) ==>
            !NoSession(w.b, w.a) || exists k :: 0 <= k < |w.toB| && CarriesExchange(w.toB[k], w.b))
    case Receive => w.toA != []
    case Reset => w.toA == [] && w.toB == []
    case Rotate =>
      forall k :: 0 <= k < |w.toA| && CarriesExchange(w.toA[k], w.a) ==>
        KeyFor(w.toA[k].msg.keys, w.a.cfg.localDevice.id).value.keyExchange.value.signedPreKeyID ==
            w.a.store.currentSPK.id
    case Generate(n) => w.a.store.nextPreKeyID + n < TWO_TO_THE_32
    case Publish(bundle) => IsBundle(w.a.cfg, w.a.store, bundle)
    case Hear(msg) =>
      && msg.sender != w.b.cfg.localDevice
      && (forall k :: 0 <= k < |w.toA| && CarriesExchange(w.toA[k], w.a) && Consumes(w.a.cfg, w.a.store, msg) ==>
            OfferIn(w.a.cfg, msg).value.preKeyID
            != KeyFor(w.toA[k].msg.keys, w.a.cfg.localDevice.id).value.keyExchange.value.preKeyID)
    case Tell(jid, _) =>
      var devices := RecipientDevices(w.a.cfg, w.net, w.a.store, jid).1;
      devices.Ok? ==> w.b.cfg.localDevice !in devices.value
    case Sync(jid) => Addresses(Act(w, act).a, w.b, w.net)
    case Decide(_, _) => Trusts(Act(w, act).a, w.b)
    case Relist(_, _) => Addresses(w.a, w.b, Act(w, act).net) && Addresses(w.b, w.a, Act(w, act).net)
  }

  /** `a` acts. */
  function Act(w: World, act: Action): World
    requires act.Receive? ==> w.toA != []
  {
    match act
    case Send(plaintext) =>
      var e := Encrypt(w.a.cfg, w.net, w.a.store, w.rnd, w.b.cfg.localDevice.jid, plaintext);
      var w1 := w.(a := w.a.(store := e.store), rnd := e.rnd);
      if e.msg.Some? then w1.(toB := w.toB + [Sent(e.msg.value, plaintext)]) else w1
    case Receive => w.(a := w.a.(store := DecryptMessage(w.a.cfg, w.a.store, w.toA[0].msg).0), toA := w.toA[1..])
    case Reset => w.(a := w.a.(store := w.a.store.(sessions := w.a.store.sessions - {w.b.cfg.localDevice})))
    case Rotate => w.(a := w.a.(store := RotatedSigned(w.a.cfg.identityKey, w.a.store, w.rnd)), rnd := w.rnd + 1)
    case Generate(n) => w.(a := w.a.(store := Generated(w.a.store, n, w.rnd)), rnd := w.rnd + n)
    case Publish(bundle) => w.(net := w.net.(bundles := w.net.bundles[w.a.cfg.localDevice := bundle]))
    case Hear(msg) => w.(a := w.a.(store := DecryptMessage(w.a.cfg, w.a.store, msg).0))
    case Tell(jid, plaintext) =>
      var e := Encrypt(w.a.cfg, w.net, w.a.store, w.rnd, jid, plaintext);
      w.(a := w.a.(store := e.store), rnd := e.rnd)
    case Sync(jid) =>
      if jid in w.net.lists
      then w.(a := w.a.(store := w.a.store.(devices := w.a.store.devices[jid := w.net.lists[jid]]))) else w
    case Decide(key, trust) => w.(a := w.a.(store := w.a.store.(trust := w.a.store.trust[key := trust])))
    case Relist(jid, ids) => w.(net := w.net.(lists := w.net.lists[jid := ids]))
  }

  /** What `a`'s action returned was right: a Receive gave exactly the plaintext, a Send gave a message. */
  ghost predicate Right(w: World, act: Action)
    requires act.Receive? ==> w.toA != []
  {
    match act
    case Receive => DecryptMessage(w.a.cfg, w.a.store, w.toA[0].msg).1 == Ok(w.toA[0].plaintext)
    case Send(plaintext) => Encrypt(w.a.cfg, w.net, w.a.store, w.rnd, w.b.cfg.localDevice.jid, plaintext).msg.Some?
    case _ => true
  }

  datatype Side = A | B

  datatype Turn = Turn(side: Side, act: Action)

  function Facing(w: World, side: Side): World {
    if side == A then w else Swap(w)
  }

  /** A run: each turn allowed when it comes. */
  ghost predicate AllowedRun(w: World, turns: seq<Turn>)
    decreases |turns|
  {
    turns == [] || (Allowed(Facing(w, turns[0].side), turns[0].act) && AllowedRun(After(w, turns[0]), turns[1..]))
  }

  ghost function After(w: World, t: Turn): World
    requires Allowed(Facing(w, t.side), t.act)
  {
    Facing(Act(Facing(w, t.side), t.act), t.side)
  }

  /** Every turn of the run returned what it should. */
  ghost predicate AllRight(w: World, turns: seq<Turn>)
    requires AllowedRun(w, turns)
    decreases |turns|
  {
    turns == [] || (Right(Facing(w, turns[0].side), turns[0].act) && AllRight(After(w, turns[0]), turns[1..]))
  }

  ghost function Final(w: World, turns: seq<Turn>): World
    requires AllowedRun(w, turns)
    decreases |turns|
  {
    if turns == [] then w else Final(After(w, turns[0]), turns[1..])
  }

  // ---------- one encryption inside a fan-out ----------

  /** The verdict on `key` for `dev` will be favourable. */
  ghost predicate TrustsKey(cfg: Config, s: StoreState, dev: Device, key: PubKey) {
    Lookup(s.trust, key) == Some(TrustTrusted)
    || (Undecided(s, key) && cfg.resolver.Some? && cfg.resolver.value(dev, key))
  }

  lemma SealOnSession(cfg: Config, net: Net, s: StoreState, dev: Device, r: Ratchet, key: PubKey, km: nat, ek: nat)
    requires dev != cfg.localDevice && ViewOf(s, dev) == View(Some(Blob(cfg.protocol, r)), Some(key)) && r.canSend
    requires TrustsKey(cfg, s, dev, key)
    ensures var (s', o) := FanOutOne(cfg, net, s, dev, km, ek);
            && o == Sealed(RecipientKey(dev.id, Whisper(r.root, r.role, r.sent, km), None))
            && ViewOf(s', dev) == View(Some(Blob(cfg.protocol, r.(sent := r.sent + 1))), Some(key))
  {
  }

  lemma SealOnNewSession(cfg: Config, net: Net, s: StoreState, dev: Device, km: nat, ek: nat)
    requires dev != cfg.localDevice && dev !in s.sessions && dev in net.bundles
             && BuildActive(cfg, net.bundles[dev], ek).Ok?
    requires TrustsKey(cfg, s, dev, net.bundles[dev].identityKey)
    ensures var (s', o) := FanOutOne(cfg, net, s, dev, km, ek);
            var (sess, kx) := BuildActive(cfg, net.bundles[dev], ek).value;
            && Seal(sess, km).1.Ok?
            && o == Sealed(RecipientKey(dev.id, Seal(sess, km).1.value, Some(kx)))
            && ViewOf(s', dev) ==
               View(Some(Blob(cfg.protocol, sess.ratchet.(sent := 1))), Some(net.bundles[dev].identityKey))
  {
    BuiltSession(cfg, net.bundles[dev], ek);
    var (sess, kx) := BuildActive(cfg, net.bundles[dev], ek).value;
    assert sess.ratchet.sent == 0;
    ActiveStage(cfg, net, s, dev, ek);
    var (s1, active) := ActiveSession(cfg, net, s, dev, ek);
    assert active == Ok((sess, Some(kx)));
    hide BuildActive, ActiveSession;
    var (s2, refusal) := CheckTrust(cfg, s1, dev, s1.remoteID[dev]);
    assert refusal.None? && s2 == s1.(trust := s2.trust);
  }

  /** In a fan-out over distinct devices, entry `i` is handled in a state that has `dev`'s view unchanged and
      trust only improved, and later entries leave `dev` alone. */
  lemma {:induction false} FanOutAt(cfg: Config, net: Net, s: StoreState, work: seq<(Device, nat)>, km: nat, i: nat)
    requires i < |work| && forall a, b :: 0 <= a < b < |work| ==> work[a].0 != work[b].0
    ensures var (s', outs) := FanOut(cfg, net, s, work, km);
            var si := FanOut(cfg, net, s, work[..i], km).0;
            var (si', o) := FanOutOne(cfg, net, si, work[i].0, km, work[i].1);
            && outs[i] == o && ViewOf(s', work[i].0) == ViewOf(si', work[i].0)
            && ViewOf(si, work[i].0) == ViewOf(s, work[i].0) && TrustStep(cfg, s, si)
    decreases |work|
  {
    hide FanOutOne, TrustStep;
    var n := |work| - 1;
    if i < n {
      FanOutAt(cfg, net, s, work[..n], km, i);
      assert work[..n][..i] == work[..i];
      EntryFrame(cfg, net, FanOut(cfg, net, s, work[..n], km).0, work[n].0, km, work[n].1);
    } else {
      FanOutTrust(cfg, net, s, work[..n], km);
      FanOutElsewhere(cfg, net, s, work[..n], km, work[n].0);
    }
  }

  lemma {:induction false} FanOutElsewhere(cfg: Config, net: Net, s: StoreState, work: seq<(Device, nat)>, km: nat,
          d: Device)
    requires forall a :: 0 <= a < |work| ==> work[a].0 != d
    ensures ViewOf(FanOut(cfg, net, s, work, km).0, d) == ViewOf(s, d)
  {
    hide FanOutOne;
    if work != [] {
      var n := |work| - 1;
      FanOutElsewhere(cfg, net, s, work[..n], km, d);
      EntryFrame(cfg, net, FanOut(cfg, net, s, work[..n], km).0, work[n].0, km, work[n].1);
    }
  }

  /** With distinct IDs the receiver's first match is the key made for it. */
  lemma {:induction false} FirstMatch(devices: seq<Device>, outs: seq<Outcome>, i: nat)
    requires |outs| <= |devices| && i < |outs| && outs[i].Sealed?
    requires forall a, b :: 0 <= a < b < |devices| ==> devices[a].id != devices[b].id
    requires forall a :: 0 <= a < |outs| && outs[a].Sealed? ==> outs[a].key.device == devices[a].id
    ensures KeyFor(KeysOf(outs), devices[i].id) == Some(outs[i].key)
    decreases |outs|
  {
    var n := |outs| - 1;
    var rest := if outs[n].Sealed? then [outs[n].key] else [];
    KeyForConcat(KeysOf(outs[..n]), rest, devices[i].id);
    if i < n {
      FirstMatch(devices, outs[..n], i);
    } else {
      NoMatch(devices, outs[..n], devices[i].id);
    }
  }

  lemma {:induction false} NoMatch(devices: seq<Device>, outs: seq<Outcome>, id: U32)
    requires |outs| <= |devices|
    requires forall a :: 0 <= a < |outs| ==>
             devices[a].id != id && (outs[a].Sealed? ==> outs[a].key.device == devices[a].id)
    ensures KeyFor(KeysOf(outs), id) == None
  {
    if outs != [] {
      var n := |outs| - 1;
      NoMatch(devices, outs[..n], id);
      KeyForConcat(KeysOf(outs[..n]), if outs[n].Sealed? then [outs[n].key] else [], id);
    }
  }

  lemma {:induction false} KeyForConcat(xs: seq<RecipientKey>, ys: seq<RecipientKey>, id: U32)
    ensures KeyFor(xs + ys, id) == if KeyFor(xs, id).Some? then KeyFor(xs, id) else KeyFor(ys, id)
  {
    if xs == [] {
      assert xs + ys == ys;
    } else {
      KeyForConcat(xs[1..], ys, id);
      assert (xs + ys)[1..] == xs[1..] + ys;
    }
  }

  // ---------- sending ----------

  /** Asking again for an account's devices gives the same answer, and other accounts are untouched. */
  lemma DevicesForStable(net: Net, s: StoreState, jid: string, t: StoreState)
    requires DevicesOf(t, jid) == DevicesOf(DevicesFor(net, s, jid).0, jid)
    ensures DevicesFor(net, t, jid).1 == DevicesFor(net, s, jid).1
    ensures forall j :: j != jid ==> DevicesOf(DevicesFor(net, s, jid).0, j) == DevicesOf(s, j)
    ensures forall j :: j != jid ==> DevicesOf(DevicesFor(net, t, jid).0, j) == DevicesOf(t, j)
  {
  }

  /** Asking for the recipient list again gives the same list. */
  lemma RecipientsStable(cfg: Config, net: Net, s: StoreState, jid: string, t: StoreState)
    requires t.devices == RecipientDevices(cfg, net, s, jid).0.devices
    ensures RecipientDevices(cfg, net, t, jid).1 == RecipientDevices(cfg, net, s, jid).1
  {
    var own := cfg.localDevice.jid;
    var s1, t1 := DevicesFor(net, s, jid).0, DevicesFor(net, t, jid).0;
    SameDevices(t, RecipientDevices(cfg, net, s, jid).0);
    hide DevicesFor, DevicesOf;
    if jid != own && DevicesFor(net, s, jid).1.Ok? {
      DevicesForStable(net, s1, own, t);
      DevicesForStable(net, s, jid, t);
      DevicesForStable(net, s1, own, t1);
    } else {
      DevicesForStable(net, s, jid, t);
    }
  }

  lemma SameDevices(s: StoreState, t: StoreState)
    requires s.devices == t.devices
    ensures forall jid :: DevicesOf(s, jid) == DevicesOf(t, jid)
  {
  }

  /** The key `peer` will read from `me`'s next message, and the session `me` then stores. */
  ghost predicate Sends(me: Party, peer: Party, net: Net, rnd: nat, plaintext: Option<Bytes>, key: RecipientKey,
          v: View)
  {
    var e := Encrypt(me.cfg, net, me.store, rnd, peer.cfg.localDevice.jid, plaintext);
    && e.msg.Some?
    && Carries(Sent(e.msg.value, plaintext), me, peer, key, rnd)
    && ViewOf(e.store, peer.cfg.localDevice) == v
    && Reaches(me.(store := e.store), peer, net)
  }

  /** What a Send does, given what its entry for the peer does in any state that agrees on the peer. */
  lemma SendVia(me: Party, peer: Party, net: Net, rnd: nat, plaintext: Option<Bytes>, i: nat, key: RecipientKey,
          v: View)
    requires Reaches(me, peer, net)
    requires var ds := RecipientDevices(me.cfg, net, me.store, peer.cfg.localDevice.jid).1.value;
             i < |ds| && ds[i] == peer.cfg.localDevice
    requires forall t: StoreState ::
               ViewOf(t, peer.cfg.localDevice) == ViewOf(me.store, peer.cfg.localDevice)
               && TrustsKey(me.cfg, t, peer.cfg.localDevice, IdentityOf(peer)) ==>
               var (t', o) := FanOutOne(me.cfg, net, t, peer.cfg.localDevice, rnd, rnd + 2 + i);
               o == Sealed(key) && ViewOf(t', peer.cfg.localDevice) == v
    ensures Sends(me, peer, net, rnd, plaintext, key, v)
  {
    hide FanOut, FanOutOne, RecipientDevices, KeysOf, ErrorsOf;
    var dev := peer.cfg.localDevice;
    var (s1, devices) := RecipientDevices(me.cfg, net, me.store, dev.jid);
    RecipientDevicesFrame(me.cfg, net, me.store, dev.jid);
    var ds := devices.value;
    var work := WorkFor(ds, rnd + 2);
    var (s2, outs) := FanOut(me.cfg, net, s1, work, rnd);
    FanOutAt(me.cfg, net, s1, work, rnd, i);
    var si := FanOut(me.cfg, net, s1, work[..i], rnd).0;
    assert TrustsKey(me.cfg, si, dev, IdentityOf(peer));
    assert outs[i] == Sealed(key) && ViewOf(s2, dev) == v;
    OutcomesMatchEntries(me.cfg, net, s1, work, rnd);
    FirstMatch(ds, outs, i);
    KeysNonEmpty(outs, ds[i].id);
    var e := Encrypt(me.cfg, net, me.store, rnd, dev.jid, plaintext);
    assert e.msg == Some(MessageFor(me.cfg, plaintext, rnd, KeysOf(outs))) && e.store == s2;
    assert ds[i].id == dev.id && key.device == dev.id;
    StillReaches(me, peer, net, rnd, plaintext);
  }

  lemma KeysNonEmpty(outs: seq<Outcome>, id: U32)
    requires KeyFor(KeysOf(outs), id).Some?
    ensures KeysOf(outs) != []
  {
  }

  lemma StillReaches(me: Party, peer: Party, net: Net, rnd: nat, plaintext: Option<Bytes>)
    requires Reaches(me, peer, net)
    ensures Reaches(me.(store := Encrypt(me.cfg, net, me.store, rnd, peer.cfg.localDevice.jid, plaintext).store), peer,
            net)
  {
    hide FanOut, RecipientDevices;
    var jid := peer.cfg.localDevice.jid;
    var s := me.store;
    EncryptFrame(me.cfg, net, s, rnd, jid, plaintext);
    RecipientDevicesFrame(me.cfg, net, s, jid);
    var (s1, devices) := RecipientDevices(me.cfg, net, s, jid);
    var work := WorkFor(devices.value, rnd + 2);
    FanOutTrust(me.cfg, net, s1, work, rnd);
    FanOutFrame(me.cfg, net, s1, work, rnd);
    var t := FanOut(me.cfg, net, s1, work, rnd).0;
    RecipientsStable(me.cfg, net, s, jid, t);
    assert Encrypt(me.cfg, net, s, rnd, jid, plaintext).store == t;
    assert Lookup(s1.trust, IdentityOf(peer)) == Lookup(s.trust, IdentityOf(peer));
  }

  /** Sending on a stored session: the next index of that session. */
  lemma SendOnSession(me: Party, peer: Party, net: Net, rnd: nat, plaintext: Option<Bytes>, r: Ratchet)
    requires Reaches(me, peer, net) && SessionWith(me, peer) == Some(r) && r.canSend && Records(me, peer)
    ensures Sends(me, peer, net, rnd, plaintext,
            RecipientKey(peer.cfg.localDevice.id, Whisper(r.root, r.role, r.sent, rnd), None),
                  View(Some(Blob(me.cfg.protocol, r.(sent := r.sent + 1))), Some(IdentityOf(peer))))
  {
    hide FanOutOne, Sends, RecipientDevices;
    var dev := peer.cfg.localDevice;
    var ds := RecipientDevices(me.cfg, net, me.store, dev.jid).1.value;
    var i :| 0 <= i < |ds| && ds[i] == dev;
    var key := RecipientKey(dev.id, Whisper(r.root, r.role, r.sent, rnd), None);
    var v := View(Some(Blob(me.cfg.protocol, r.(sent := r.sent + 1))), Some(IdentityOf(peer)));
    assert ViewOf(me.store, dev) == View(Some(Blob(me.cfg.protocol, r)), Some(IdentityOf(peer)));
    forall t: StoreState | ViewOf(t, dev) == ViewOf(me.store, dev) && TrustsKey(me.cfg, t, dev, IdentityOf(peer))
      ensures var (t', o) := FanOutOne(me.cfg, net, t, dev, rnd, rnd + 2 + i);
              o == Sealed(key) && ViewOf(t', dev) == v
    {
      SealOnSession(me.cfg, net, t, dev, r, IdentityOf(peer), rnd, rnd + 2 + i);
    }
    SendVia(me, peer, net, rnd, plaintext, i, key, v);
  }

  /** The initiator's first ratchet against `peer`'s prekeys. */
  ghost predicate FirstRatchet(me: Party, peer: Party, r: Ratchet, ek: nat, spk: nat, pk: nat) {
    && me.cfg.identityKey.Priv? && peer.cfg.identityKey.Priv?
    && InitiateX3DH(me.cfg.identityKey, IdentityOf(peer), Pub(spk), Sig(peer.cfg.identityKey.n, Pub(spk)), Pub(pk),
       ek) == Ok(r.root)
    && r == Ratchet(r.root, Active, 1, {}, true)
  }

  /** Sending without a session: X3DH against the live bundle, and a first message that names its prekeys. */
  lemma SendOnBundle(me: Party, peer: Party, net: Net, rnd: nat, plaintext: Option<Bytes>) returns (r: Ratchet, ek: nat)
    requires Reaches(me, peer, net) && NoSession(me, peer)
    requires peer.cfg.localDevice in net.bundles && Live(peer, net.bundles[peer.cfg.localDevice])
    ensures var b := net.bundles[peer.cfg.localDevice];
            && ek >= rnd && FirstRatchet(me, peer, r, ek, b.signedPreKey.pub.n, b.preKeys[0].pub.n)
            && Sends(me, peer, net, rnd, plaintext, FirstKey(me, peer, r, rnd, ek, b.signedPreKey.id, b.preKeys[0].id),
                     View(Some(Blob(me.cfg.protocol, r)), Some(IdentityOf(peer))))
  {
    hide FanOutOne, Sends, RecipientDevices;
    var dev := peer.cfg.localDevice;
    var b := net.bundles[dev];
    var ds := RecipientDevices(me.cfg, net, me.store, dev.jid).1.value;
    var i :| 0 <= i < |ds| && ds[i] == dev;
    ek := rnd + 2 + i;
    var (sess, kx) := BuildActive(me.cfg, b, ek).value;
    r := sess.ratchet.(sent := 1);
    var key := FirstKey(me, peer, r, rnd, ek, b.signedPreKey.id, b.preKeys[0].id);
    assert Seal(sess, rnd).1 == Ok(key.data) && Some(kx) == key.keyExchange;
    var v := View(Some(Blob(me.cfg.protocol, r)), Some(IdentityOf(peer)));
    hide BuildActive, Seal;
    forall t: StoreState | ViewOf(t, dev) == ViewOf(me.store, dev) && TrustsKey(me.cfg, t, dev, IdentityOf(peer))
      ensures var (t', o) := FanOutOne(me.cfg, net, t, dev, rnd, rnd + 2 + i);
              o == Sealed(key) && ViewOf(t', dev) == v
    {
      assert Lookup(t.sessions, dev) == None;
      SealOnNewSession(me.cfg, net, t, dev, rnd, ek);
    }
    SendVia(me, peer, net, rnd, plaintext, i, key, v);
  }

  lemma SendKeeps(w: World, plaintext: Option<Bytes>)
    requires Inv(w) && Allowed(w, Send(plaintext))
    ensures Inv(Act(w, Send(plaintext))) && Right(w, Send(plaintext))
  {
    hide Reaches, PoolInv, Sends, Encrypt, Opens, PlainAt, Live;
    NoExchangeInPlain(w);
    if Established(w) {
      SendEstablished(w, plaintext);
    } else if Opening(w) {
      SendOpening(w, plaintext);
    } else {
      assert Vacant(w) && NoSession(w.a, w.b);
      SendFirst(w, plaintext);
    }
  }

  /** Plain messages carry no exchange, opening ones do; this is what the Send guard tells apart. */
  lemma NoExchangeInPlain(w: World)
    ensures Opening(w) ==> CarriesExchange(w.toB[0], w.b)
    ensures Opening(Swap(w)) ==> CarriesExchange(w.toA[0], w.a)
  {
  }

  /** What a Send leaves whose new view of the peer is `v`. */
  lemma SentEnd(w: World, plaintext: Option<Bytes>, key: RecipientKey, v: View)
    requires Sends(w.a, w.b, w.net, w.rnd, plaintext, key, v)
    ensures var w' := Act(w, Send(plaintext));
            && w'.b == w.b && w'.toA == w.toA && w'.net == w.net && w'.a.cfg == w.a.cfg
            && |w'.toB| == |w.toB| + 1 && w'.toB[..|w.toB|] == w.toB
            && Carries(w'.toB[|w.toB|], w.a, w.b, key, w.rnd)
            && ViewOf(w'.a.store, w.b.cfg.localDevice) == v
            && Reaches(w'.a, w.b, w.net)
            && Right(w, Send(plaintext))
  {
    hide Encrypt, Carries, Reaches;
  }

  /** A Send keeps both sides ready. */
  lemma SentReady(w: World, plaintext: Option<Bytes>, key: RecipientKey, v: View)
    requires Setting(w) && Sends(w.a, w.b, w.net, w.rnd, plaintext, key, v)
    ensures Setting(Act(w, Send(plaintext)))
  {
    hide Sends, Reaches, Encrypt;
    SentEnd(w, plaintext, key, v);
    EncryptFrame(w.a.cfg, w.net, w.a.store, w.rnd, w.b.cfg.localDevice.jid, plaintext);
    var w' := Act(w, Send(plaintext));
    PoolElsewhere(w.a.store, w'.a.store, w.a.store.nextPreKeyID);
    hide PoolInv;
    PeerReaches(w.b, w.a, w'.a, w.net);
    PeerReaches(w'.a, w.b, w'.b, w.net);
  }

  lemma SendEstablished(w: World, plaintext: Option<Bytes>)
    requires Setting(w) && Established(w)
    ensures var w' := Act(w, Send(plaintext)); Setting(w') && Established(w') && Right(w, Send(plaintext))
  {
    hide Reaches, PoolInv, Sends, Encrypt, Act, Carries, Right;
    var ra := SessionWith(w.a, w.b).value;
    SendOnSession(w.a, w.b, w.net, w.rnd, plaintext, ra);
    var key := RecipientKey(w.b.cfg.localDevice.id, Whisper(ra.root, ra.role, ra.sent, w.rnd), None);
    SentEnd(w, plaintext, key, View(Some(Blob(w.a.cfg.protocol, ra.(sent := ra.sent + 1))), Some(IdentityOf(w.b))));
    SentReady(w, plaintext, key, View(Some(Blob(w.a.cfg.protocol, ra.(sent := ra.sent + 1))), Some(IdentityOf(w.b))));
    var w' := Act(w, Send(plaintext));
    var ra' := ra.(sent := ra.sent + 1);
    assert SessionWith(w'.a, w'.b) == Some(ra');
    CarriesSame(w, w');
    forall k | 0 <= k < |w'.toB| ensures PlainAt(w'.toB[k], w'.a, w'.b, ra', ra'.sent - |w'.toB| + k) {
      if k < |w.toB| { assert w'.toB[k] == w.toB[k] && PlainAt(w.toB[k], w.a, w.b, ra, ra.sent - |w.toB| + k); }
    }
    forall k | 0 <= k < |w'.toA|
        ensures PlainAt(w'.toA[k], w'.b, w'.a, SessionWith(w.b, w.a).value,
                SessionWith(w.b, w.a).value.sent - |w'.toA| + k) {
      assert PlainAt(w.toA[k], w.b, w.a, SessionWith(w.b, w.a).value, SessionWith(w.b, w.a).value.sent - |w.toA| + k);
    }
  }

  /** What a message carries depends on the parties' configurations only. */
  lemma CarriesSame(w: World, w': World)
    requires w'.a.cfg == w.a.cfg && w'.b.cfg == w.b.cfg
    ensures forall sent, key, km :: Carries(sent, w'.a, w'.b, key, km) <==> Carries(sent, w.a, w.b, key, km)
    ensures forall sent, key, km :: Carries(sent, w'.b, w'.a, key, km) <==> Carries(sent, w.b, w.a, key, km)
    ensures IdentityOf(w'.a) == IdentityOf(w.a) && IdentityOf(w'.b) == IdentityOf(w.b)
  {
  }

  lemma SendOpening(w: World, plaintext: Option<Bytes>)
    requires Setting(w) && Opening(w)
    ensures var w' := Act(w, Send(plaintext)); Setting(w') && Opening(w') && Right(w, Send(plaintext))
  {
    hide Reaches, PoolInv, Sends, Encrypt, Act, Carries, Right, Opens;
    var ra := SessionWith(w.a, w.b).value;
    SendOnSession(w.a, w.b, w.net, w.rnd, plaintext, ra);
    var key := RecipientKey(w.b.cfg.localDevice.id, Whisper(ra.root, ra.role, ra.sent, w.rnd), None);
    SentEnd(w, plaintext, key, View(Some(Blob(w.a.cfg.protocol, ra.(sent := ra.sent + 1))), Some(IdentityOf(w.b))));
    SentReady(w, plaintext, key, View(Some(Blob(w.a.cfg.protocol, ra.(sent := ra.sent + 1))), Some(IdentityOf(w.b))));
    var w' := Act(w, Send(plaintext));
    var ra' := ra.(sent := ra.sent + 1);
    assert SessionWith(w'.a, w'.b) == Some(ra');
    CarriesSame(w, w');
    OpensSame(w.toB[0], w.a, w.b, w'.a, w'.b, ra, ra');
    forall k | 1 <= k < |w'.toB| ensures PlainAt(w'.toB[k], w'.a, w'.b, ra', k) {
      if k < |w.toB| { assert w'.toB[k] == w.toB[k] && PlainAt(w.toB[k], w.a, w.b, ra, k); }
    }
  }

  /** An opening stays one while configurations, root and the responder's two records stay. */
  lemma OpensSame(sent: Sent, a: Party, b: Party, a': Party, b': Party, r: Ratchet, r': Ratchet)
    requires Opens(sent, a, b, r) && a'.cfg == a.cfg && b'.cfg == b.cfg && r'.root == r.root
    requires forall spkID, spkPub, pkID, pkPub ::
               Holds(b, spkID, spkPub, pkID, pkPub) && ExchangeNames(sent, b, spkID, pkID) ==>
               Holds(b', spkID, spkPub, pkID, pkPub)
    ensures Opens(sent, a', b', r')
  {
    hide Holds;
    var km, ek: nat, spkID, spk: nat, pkID, pk: nat :| OpensWith(sent, a, b, r, km, ek, spkID, spk, pkID, pk);
    assert ExchangeNames(sent, b, spkID, pkID);
    assert Carries(sent, a', b', FirstKey(a', b', r', km, ek, spkID, pkID), km);
    assert OpensWith(sent, a', b', r', km, ek, spkID, spk, pkID, pk);
  }

  /** The exchange in `sent` names these prekeys of `to`. */
  predicate ExchangeNames(sent: Sent, to: Party, spkID: U32, pkID: U32) {
    CarriesExchange(sent, to)
    && var kx := KeyFor(sent.msg.keys, to.cfg.localDevice.id).value.keyExchange.value;
       kx.signedPreKeyID == spkID && kx.preKeyID == pkID
  }

  lemma HeldKeysUsable(b: Party, spkID: U32, spkPub: PubKey, pkID: U32, pkPub: PubKey)
    requires Holds(b, spkID, spkPub, pkID, pkPub)
    ensures spkPub.Pub? && pkPub.Pub?
  {
  }

  /** The first message, whatever the receiver thinks of the sender: an opening. */
  lemma SendFirst(w: World, plaintext: Option<Bytes>)
    requires Reaches(w.a, w.b, w.net) && w.toA == [] && w.toB == [] && NoSession(w.a, w.b)
    requires w.b.cfg.localDevice in w.net.bundles && Live(w.b, w.net.bundles[w.b.cfg.localDevice])
    ensures var w' := Act(w, Send(plaintext));
            && Opening(w') && Right(w, Send(plaintext))
            && (Setting(w) ==> Setting(w'))
  {
    hide Reaches, Ready, Sends, Encrypt, Act, Carries, Right, Holds;
    var b := w.net.bundles[w.b.cfg.localDevice];
    var r, ek := SendOnBundle(w.a, w.b, w.net, w.rnd, plaintext);
    var key := FirstKey(w.a, w.b, r, w.rnd, ek, b.signedPreKey.id, b.preKeys[0].id);
    var v := View(Some(Blob(w.a.cfg.protocol, r)), Some(IdentityOf(w.b)));
    SentEnd(w, plaintext, key, v);
    if Setting(w) { SentReady(w, plaintext, key, v); }
    var w' := Act(w, Send(plaintext));
    assert SessionWith(w'.a, w'.b) == Some(r);
    CarriesSame(w, w');
    HeldKeysUsable(w.b, b.signedPreKey.id, b.signedPreKey.pub, b.preKeys[0].id, b.preKeys[0].pub);
    assert FirstKey(w'.a, w'.b, r, w.rnd, ek, b.signedPreKey.id, b.preKeys[0].id) == key;
    assert OpensWith(w'.toB[0], w'.a, w'.b, r, w.rnd, ek, b.signedPreKey.id, b.signedPreKey.pub.n, b.preKeys[0].id,
                     b.preKeys[0].pub.n);
  }

  // ---------- receiving ----------

  /** What these ask of the other side is in its configuration. */
  lemma PeerReaches(me: Party, peer: Party, peer': Party, net: Net)
    requires Reaches(me, peer, net) && peer'.cfg == peer.cfg
    ensures Reaches(me, peer', net)
  {
    hide RecipientDevices;
  }

  lemma PeerReady(me: Party, peer: Party, peer': Party, net: Net)
    requires Ready(me, peer, net) && peer'.cfg == peer.cfg
    ensures Ready(me, peer', net)
  {
    hide PoolInv, Reaches;
    PeerReaches(me, peer, peer', net);
  }

  /** A store with the same device lists and trust reaches the same peers. */
  lemma SameReach(me: Party, s': StoreState, peer: Party, net: Net)
    requires Reaches(me, peer, net) && s'.devices == me.store.devices && s'.trust == me.store.trust
    ensures Reaches(me.(store := s'), peer, net)
  {
    hide RecipientDevices;
    SameRecipients(me.cfg, net, me.store, s', peer.cfg.localDevice.jid);
  }

  /** Receiving leaves both in place. */
  lemma ReceiveReaches(me: Party, peer: Party, net: Net, msg: EncryptedMessage)
    requires Reaches(me, peer, net)
    ensures Reaches(me.(store := DecryptMessage(me.cfg, me.store, msg).0), peer, net)
  {
    hide DecryptMessage, Reaches;
    DecryptFrame(me.cfg, me.store, msg);
    SameReach(me, DecryptMessage(me.cfg, me.store, msg).0, peer, net);
  }

  lemma ReceiveReady(me: Party, peer: Party, net: Net, msg: EncryptedMessage)
    requires Ready(me, peer, net)
    ensures Ready(me.(store := DecryptMessage(me.cfg, me.store, msg).0), peer, net)
  {
    hide DecryptMessage, PoolInv, Reaches;
    ReceiveReaches(me, peer, net, msg);
    DecryptFrame(me.cfg, me.store, msg);
    DecryptPool(me.cfg, me.store, msg, me.store.nextPreKeyID);
  }

  lemma SameRecipients(cfg: Config, net: Net, s: StoreState, t: StoreState, jid: string)
    requires t.devices == s.devices
    ensures RecipientDevices(cfg, net, t, jid).1 == RecipientDevices(cfg, net, s, jid).1
  {
  }

  /** A plain message at an unseen index of the matched session decrypts to what was meant. */
  lemma ReceivePlain(me: Party, peer: Party, sent: Sent, r: Ratchet, rp: Ratchet, index: nat)
    requires SessionWith(me, peer) == Some(r) && Matched(rp, r) && index !in r.received
    requires PlainAt(sent, peer, me, rp, index)
    ensures var (s', got) := DecryptMessage(me.cfg, me.store, sent.msg);
            && got == Ok(sent.plaintext)
            && SessionWith(me.(store := s'), peer) == Some(r.(received := r.received + {index}))
            && s'.remoteID == me.store.remoteID
  {
    var km: nat :| Carries(sent, peer, me,
        RecipientKey(me.cfg.localDevice.id, Whisper(rp.root, rp.role, index, km), None), km);
  }

  /** The key exchange that opens `rp` is accepted, yields the same root, and decrypts to what was meant. */
  lemma ReceiveOpening(me: Party, peer: Party, sent: Sent, rp: Ratchet)
    requires Opens(sent, peer, me, rp) && me.cfg.protocol == peer.cfg.protocol
    ensures var (s', got) := DecryptMessage(me.cfg, me.store, sent.msg);
            && got == Ok(sent.plaintext)
            && SessionWith(me.(store := s'), peer) == Some(Ratchet(rp.root, Passive, 0, {0}, true))
            && Records(me.(store := s'), peer)
  {
    var km, ek: nat, spkID, spk: nat, pkID, pk: nat :| OpensWith(sent, peer, me, rp, km, ek, spkID, spk, pkID, pk);
    var key := FirstKey(peer, me, rp, km, ek, spkID, pkID);
    var kx := KeyExchange(IdentityOf(peer), Pub(ek), spkID, pkID);
    var w := Whisper(rp.root, Active, 0, km);
    assert OfferedExchange(me.cfg, key) == Ok((kx, w));
    X3DHAgreement(peer.cfg.identityKey.n, ek, me.cfg.identityKey.n, spk, pk);
    var (s1, sess) := AcceptKeyExchange(me.cfg, me.store, peer.cfg.localDevice, kx);
    assert sess == Ok(SessionState(me.cfg.protocol, Ratchet(rp.root, Passive, 0, {}, false), None));
    assert {} + {0 as nat} == {0};
    assert SessionForIncoming(me.cfg, me.store, peer.cfg.localDevice, key) == (s1, Ok((sess.value, w)));
  }

  lemma ReceiveKeeps(w: World)
    requires Inv(w) && w.toA != []
    ensures Inv(Act(w, Receive)) && Right(w, Receive)
  {
    hide Ready, DecryptMessage, Opens, PlainAt;
    ReceiveReady(w.a, w.b, w.net, w.toA[0].msg);
    var w' := Act(w, Receive);
    PeerReady(w.b, w.a, w'.a, w.net);
    if Established(w) {
      ReceiveEstablished(w);
    } else {
      ReceiveFirst(w);
    }
  }

  lemma ReceiveEstablished(w: World)
    requires Established(w) && w.toA != []
    ensures Established(Act(w, Receive)) && Right(w, Receive)
  {
    hide DecryptMessage, Carries;
    var ra, rb := SessionWith(w.a, w.b).value, SessionWith(w.b, w.a).value;
    var n := rb.sent - |w.toA|;
    assert PlainAt(w.toA[0], w.b, w.a, rb, n + 0);
    ReceivePlain(w.a, w.b, w.toA[0], ra, rb, n);
    var w' := Act(w, Receive);
    var ra' := ra.(received := ra.received + {n});
    assert SessionWith(w'.a, w'.b) == Some(ra');
    CarriesSame(w, w');
    forall k | 0 <= k < |w'.toA| ensures PlainAt(w'.toA[k], w'.b, w'.a, rb, rb.sent - |w'.toA| + k) {
      assert w'.toA[k] == w.toA[k + 1] && PlainAt(w.toA[k + 1], w.b, w.a, rb, rb.sent - |w.toA| + (k + 1));
    }
    forall k | 0 <= k < |w'.toB| ensures PlainAt(w'.toB[k], w'.a, w'.b, ra', ra'.sent - |w'.toB| + k) {
      assert PlainAt(w.toB[k], w.a, w.b, ra, ra.sent - |w.toB| + k);
    }
  }

  lemma ReceiveFirst(w: World)
    requires Setting(w) && Opening(Swap(w))
    ensures Established(Act(w, Receive)) && Right(w, Receive)
  {
    hide DecryptMessage, Carries, Opens;
    var rb := SessionWith(w.b, w.a).value;
    ReceiveOpening(w.a, w.b, w.toA[0], rb);
    var w' := Act(w, Receive);
    var ra' := Ratchet(rb.root, Passive, 0, {0}, true);
    assert SessionWith(w'.a, w'.b) == Some(ra');
    CarriesSame(w, w');
    assert UpTo(ra'.received, rb.sent - |w'.toA|);
    forall k | 0 <= k < |w'.toA| ensures PlainAt(w'.toA[k], w'.b, w'.a, rb, rb.sent - |w'.toA| + k) {
      assert w'.toA[k] == w.toA[k + 1] && PlainAt(w.toA[k + 1], w.b, w.a, rb, k + 1);
    }
  }

  // ---------- resets and own prekeys ----------

  /** A change to `a`'s own store that leaves its session with `b` alone. */
  lemma OwnChangeKeeps(w: World, w': World)
    requires Inv(w) && Setting(w')
    requires w'.a.cfg == w.a.cfg && w'.b == w.b && w'.toA == w.toA && w'.toB == w.toB
    requires ViewOf(w'.a.store, w.b.cfg.localDevice) == ViewOf(w.a.store, w.b.cfg.localDevice)
    requires forall k, spkID, spkPub, pkID, pkPub ::
               0 <= k < |w.toA| && Holds(w.a, spkID, spkPub, pkID, pkPub)
               && ExchangeNames(w.toA[k], w.a, spkID, pkID) ==>
               Holds(w'.a, spkID, spkPub, pkID, pkPub)
    ensures Inv(w')
  {
    hide Ready, Carries, Opens, Holds, ExchangeNames;
    CarriesSame(w, w');
    assert SessionWith(w'.a, w'.b) == SessionWith(w.a, w.b) && Records(w'.a, w'.b) == Records(w.a, w.b);
    assert NoSession(w'.a, w'.b) == NoSession(w.a, w.b);
    if Established(w) {
      PlainSame(w, w');
      assert Established(w');
    } else if Opening(w) {
      PlainSame(w, w');
      OpensSame(w.toB[0], w.a, w.b, w'.a, w'.b, SessionWith(w.a, w.b).value, SessionWith(w.a, w.b).value);
      assert Opening(w');
    } else if Opening(Swap(w)) {
      PlainSame(w, w');
      OpensSame(w.toA[0], w.b, w.a, w'.b, w'.a, SessionWith(w.b, w.a).value, SessionWith(w.b, w.a).value);
      assert Opening(Swap(w'));
    }
  }

  lemma PlainSame(w: World, w': World)
    requires w'.a.cfg == w.a.cfg && w'.b.cfg == w.b.cfg
    ensures forall sent, r, n :: PlainAt(sent, w.a, w.b, r, n) ==> PlainAt(sent, w'.a, w'.b, r, n)
    ensures forall sent, r, n :: PlainAt(sent, w.b, w.a, r, n) ==> PlainAt(sent, w'.b, w'.a, r, n)
  {
    hide Carries;
    CarriesSame(w, w');
    forall sent, r, n | PlainAt(sent, w.a, w.b, r, n) ensures PlainAt(sent, w'.a, w'.b, r, n) {
      var km: nat :| Carries(sent, w.a, w.b, RecipientKey(w.b.cfg.localDevice.id, Whisper(r.root, r.role, n, km), None),
          km);
      assert Carries(sent, w'.a, w'.b, RecipientKey(w'.b.cfg.localDevice.id, Whisper(r.root, r.role, n, km), None), km);
    }
    forall sent, r, n | PlainAt(sent, w.b, w.a, r, n) ensures PlainAt(sent, w'.b, w'.a, r, n) {
      var km: nat :| Carries(sent, w.b, w.a, RecipientKey(w.a.cfg.localDevice.id, Whisper(r.root, r.role, n, km), None),
          km);
      assert Carries(sent, w'.b, w'.a, RecipientKey(w'.a.cfg.localDevice.id, Whisper(r.root, r.role, n, km), None), km);
    }
  }

  function Unsessioned(me: Party, peer: Party): Party {
    me.(store := me.store.(sessions := me.store.sessions - {peer.cfg.localDevice}))
  }

  lemma ResetReaches(me: Party, peer: Party, net: Net)
    requires Reaches(me, peer, net)
    ensures Reaches(Unsessioned(me, peer), peer, net)
  {
    hide Reaches;
    SameReach(me, Unsessioned(me, peer).store, peer, net);
  }

  lemma ResetReady(me: Party, peer: Party, net: Net)
    requires Ready(me, peer, net)
    ensures Ready(Unsessioned(me, peer), peer, net)
  {
    ResetReaches(me, peer, net);
    hide Reaches;
  }

  lemma ResetKeeps(w: World)
    requires Inv(w) && w.toA == [] && w.toB == []
    ensures Inv(Act(w, Reset))
  {
    ResetReady(w.a, w.b, w.net);
    hide Ready;
    var w' := Act(w, Reset);
    PeerReady(w.b, w.a, w'.a, w.net);
    assert Vacant(w');
  }

  lemma RotateKeeps(w: World)
    requires Inv(w) && Allowed(w, Rotate)
    ensures Inv(Act(w, Rotate))
  {
    hide RecipientDevices;
    var w' := Act(w, Rotate);
    SameRecipients(w.a.cfg, w.net, w.a.store, w'.a.store, w.b.cfg.localDevice.jid);
    assert Setting(w');
    forall k, spkID, spkPub, pkID, pkPub | 0 <= k < |w.toA| && Holds(w.a, spkID, spkPub, pkID, pkPub)
        && ExchangeNames(w.toA[k], w.a, spkID, pkID)
      ensures Holds(w'.a, spkID, spkPub, pkID, pkPub)
    {
      assert spkID == w.a.store.currentSPK.id;
    }
    OwnChangeKeeps(w, w');
  }

  lemma PoolCounter(s: StoreState, total: nat)
    requires PoolInv(s, total)
    ensures s.nextPreKeyID == total
  {
  }

  lemma GenerateKeeps(w: World, n: nat)
    requires Inv(w) && Allowed(w, Generate(n))
    ensures Inv(Act(w, Generate(n)))
  {
    hide Generated, Ready;
    var w' := Act(w, Generate(n));
    GenerateReady(w.a, w.b, w.net, n, w.rnd);
    PeerReady(w.b, w.a, w'.a, w.net);
    GenerationAdds(w.a.store, w.a.store.nextPreKeyID, n, w.rnd) by { ReadyPool(w.a, w.b, w.net); }
    GeneratedFrame(w.a.store, n, w.rnd);
    hide PoolInv, Inv;
    OwnChangeKeeps(w, w');
  }

  lemma ReadyPool(me: Party, peer: Party, net: Net)
    requires Ready(me, peer, net)
    ensures PoolInv(me.store, me.store.nextPreKeyID)
  {
  }

  lemma GenerateReady(me: Party, peer: Party, net: Net, n: nat, rnd: nat)
    requires Ready(me, peer, net) && me.store.nextPreKeyID + n < TWO_TO_THE_32
    ensures Ready(me.(store := Generated(me.store, n, rnd)), peer, net)
  {
    hide Generated, PoolInv, RecipientDevices;
    GenerationAdds(me.store, me.store.nextPreKeyID, n, rnd);
    GeneratedFrame(me.store, n, rnd);
    SameRecipients(me.cfg, net, me.store, Generated(me.store, n, rnd), peer.cfg.localDevice.jid);
    PoolCounter(Generated(me.store, n, rnd), me.store.nextPreKeyID + n);
  }

  lemma PublishKeeps(w: World, bundle: Bundle)
    requires Inv(w)
    ensures Inv(Act(w, Publish(bundle)))
  {
    hide PoolInv;
    var w' := Act(w, Publish(bundle));
    SameLists(w.a.cfg, w.net, w'.net, w.a.store, w.b.cfg.localDevice.jid);
    SameLists(w.b.cfg, w.net, w'.net, w.b.store, w.a.cfg.localDevice.jid);
    hide RecipientDevices;
    assert Setting(w');
    OwnChangeKeeps(w, w');
  }

  lemma SameLists(cfg: Config, net: Net, net': Net, s: StoreState, jid: string)
    requires net'.lists == net.lists
    ensures RecipientDevices(cfg, net', s, jid) == RecipientDevices(cfg, net, s, jid)
  {
  }

  // ---------- dealings with others ----------

  /** A change that leaves `a`'s own prekeys and its view of `b` alone. */
  lemma SideChangeKeeps(w: World, w': World)
    requires Inv(w) && Setting(w')
    requires w'.a.cfg == w.a.cfg && w'.b == w.b && w'.toA == w.toA && w'.toB == w.toB
    requires ViewOf(w'.a.store, w.b.cfg.localDevice) == ViewOf(w.a.store, w.b.cfg.localDevice)
    requires w'.a.store.preKeys == w.a.store.preKeys
    requires w'.a.store.currentSPK == w.a.store.currentSPK && w'.a.store.staleSPK == w.a.store.staleSPK
    ensures Inv(w')
  {
    hide Inv, Setting, ExchangeNames;
    OwnChangeKeeps(w, w');
  }

  lemma HearKeeps(w: World, msg: EncryptedMessage)
    requires Inv(w) && Allowed(w, Hear(msg))
    ensures Inv(Act(w, Hear(msg)))
  {
    hide DecryptMessage, Ready, Consumes, OfferIn, PlainAt, Opens;
    var w' := Act(w, Hear(msg));
    ReceiveReady(w.a, w.b, w.net, msg);
    PeerReady(w.b, w.a, w'.a, w.net);
    DecryptFrame(w.a.cfg, w.a.store, msg);
    ThirdView(w.a.cfg, w.a.store, msg, w.b.cfg.localDevice);
    forall k, spkID, spkPub, pkID, pkPub | 0 <= k < |w.toA| && Holds(w.a, spkID, spkPub, pkID, pkPub)
        && ExchangeNames(w.toA[k], w.a, spkID, pkID)
      ensures Holds(w'.a, spkID, spkPub, pkID, pkPub)
    {
      assert CarriesExchange(w.toA[k], w.a);
    }
    hide Inv;
    OwnChangeKeeps(w, w');
  }

  /** A message from another device leaves `dev` alone. */
  lemma ThirdView(cfg: Config, s: StoreState, msg: EncryptedMessage, dev: Device)
    requires msg.sender != dev
    ensures ViewOf(DecryptMessage(cfg, s, msg).0, dev) == ViewOf(s, dev)
  {
    hide DecryptKey, OfferedExchange;
    var key := KeyFor(msg.keys, cfg.localDevice.id);
    if key.Some? { DecryptKeyFrame(cfg, s, msg.sender, key.value); }
  }

  /** Looking accounts up changes no answer. */
  lemma LookupsSteady(net: Net, s: StoreState, jid: string)
    ensures forall j :: DevicesFor(net, DevicesFor(net, s, jid).0, j).1 == DevicesFor(net, s, j).1
  {
    forall j ensures DevicesFor(net, DevicesFor(net, s, jid).0, j).1 == DevicesFor(net, s, j).1 {
      DevicesForStable(net, s, jid, DevicesFor(net, s, jid).0);
    }
  }

  /** The recipient list is told by two lookups. */
  lemma SameAnswers(cfg: Config, net: Net, s: StoreState, t: StoreState, jid: string)
    requires forall j :: DevicesFor(net, t, j).1 == DevicesFor(net, s, j).1
    ensures RecipientDevices(cfg, net, t, jid).1 == RecipientDevices(cfg, net, s, jid).1
  {
    LookupsSteady(net, s, jid);
    LookupsSteady(net, t, jid);
    hide DevicesFor;
  }

  lemma AnswersAfter(cfg: Config, net: Net, s: StoreState, jid: string, t: StoreState)
    requires t.devices == RecipientDevices(cfg, net, s, jid).0.devices
    ensures forall j :: DevicesFor(net, t, j).1 == DevicesFor(net, s, j).1
  {
    var s1 := DevicesFor(net, s, jid).0;
    LookupsSteady(net, s, jid);
    LookupsSteady(net, s1, cfg.localDevice.jid);
    forall j ensures DevicesFor(net, t, j).1 == DevicesFor(net, RecipientDevices(cfg, net, s, jid).0, j).1 {
      SameDevices(t, RecipientDevices(cfg, net, s, jid).0);
    }
    hide DevicesFor;
  }

  /** Encrypting to another account leaves `me` able to encrypt to `peer`. */
  lemma TellReaches(me: Party, peer: Party, net: Net, rnd: nat, jid: string, plaintext: Option<Bytes>)
    requires Reaches(me, peer, net)
    ensures Reaches(me.(store := Encrypt(me.cfg, net, me.store, rnd, jid, plaintext).store), peer, net)
  {
    hide FanOut, RecipientDevices, WorkFor;
    var s := me.store;
    var (s1, devices) := RecipientDevices(me.cfg, net, s, jid);
    var t := Encrypt(me.cfg, net, s, rnd, jid, plaintext).store;
    RecipientDevicesFrame(me.cfg, net, s, jid);
    if devices.Ok? {
      FanOutTrust(me.cfg, net, s1, WorkFor(devices.value, rnd + 2), rnd);
      FanOutFrame(me.cfg, net, s1, WorkFor(devices.value, rnd + 2), rnd);
    }
    assert TrustStep(me.cfg, s1, t) && t.devices == s1.devices;
    AnswersAfter(me.cfg, net, s, jid, t);
    SameAnswers(me.cfg, net, s, t, peer.cfg.localDevice.jid);
    assert Lookup(s1.trust, IdentityOf(peer)) == Lookup(s.trust, IdentityOf(peer));
  }

  /** It leaves a device that is not among the recipients alone. */
  lemma TellView(cfg: Config, net: Net, s: StoreState, rnd: nat, jid: string, plaintext: Option<Bytes>, dev: Device)
    requires var devices := RecipientDevices(cfg, net, s, jid).1; devices.Ok? ==> dev !in devices.value
    ensures ViewOf(Encrypt(cfg, net, s, rnd, jid, plaintext).store, dev) == ViewOf(s, dev)
  {
    hide FanOut, RecipientDevices;
    var (s1, devices) := RecipientDevices(cfg, net, s, jid);
    RecipientDevicesFrame(cfg, net, s, jid);
    if devices.Ok? {
      var work := WorkFor(devices.value, rnd + 2);
      forall a | 0 <= a < |work| ensures work[a].0 != dev { assert work[a].0 == devices.value[a]; }
      FanOutElsewhere(cfg, net, s1, work, rnd, dev);
    }
  }

  lemma TellKeeps(w: World, jid: string, plaintext: Option<Bytes>)
    requires Inv(w) && Allowed(w, Tell(jid, plaintext))
    ensures Inv(Act(w, Tell(jid, plaintext)))
  {
    hide Encrypt, Reaches, RecipientDevices;
    var w' := Act(w, Tell(jid, plaintext));
    TellReaches(w.a, w.b, w.net, w.rnd, jid, plaintext);
    TellView(w.a.cfg, w.net, w.a.store, w.rnd, jid, plaintext, w.b.cfg.localDevice);
    EncryptFrame(w.a.cfg, w.net, w.a.store, w.rnd, jid, plaintext);
    PoolElsewhere(w.a.store, w'.a.store, w.a.store.nextPreKeyID);
    hide PoolInv;
    PeerReaches(w.b, w.a, w'.a, w.net);
    assert Setting(w');
    hide Inv;
    SideChangeKeeps(w, w');
  }

  /** A change of device lists or trust that leaves the two able to encrypt to each other. */
  lemma ReachChangeKeeps(w: World, w': World)
    requires Inv(w) && w'.b == w.b && w'.toA == w.toA && w'.toB == w.toB && w'.a.cfg == w.a.cfg
    requires w'.a.store == w.a.store.(devices := w'.a.store.devices, trust := w'.a.store.trust)
    requires Addresses(w'.a, w'.b, w'.net) && Addresses(w'.b, w'.a, w'.net) && Trusts(w'.a, w'.b)
    ensures Inv(w')
  {
    hide Addresses;
    PoolElsewhere(w.a.store, w'.a.store, w.a.store.nextPreKeyID);
    hide PoolInv;
    assert Setting(w');
    hide Inv;
    SideChangeKeeps(w, w');
  }

  lemma AddressesSame(me: Party, me': Party, peer: Party, peer': Party, net: Net, net': Net)
    requires me'.cfg == me.cfg && peer'.cfg == peer.cfg && net'.lists == net.lists
    requires me'.store.devices == me.store.devices && Addresses(me, peer, net)
    ensures Addresses(me', peer', net')
  {
    SameLists(me.cfg, net, net', me'.store, peer.cfg.localDevice.jid);
    SameRecipients(me.cfg, net, me.store, me'.store, peer.cfg.localDevice.jid);
    hide RecipientDevices;
  }

  lemma SettlingKeeps(w: World, act: Action)
    requires Inv(w) && Allowed(w, act) && (act.Sync? || act.Decide? || act.Relist?)
    ensures Inv(Act(w, act))
  {
    hide Addresses, PoolInv, Vacant, Opening, Established;
    var w' := Act(w, act);
    if !act.Relist? { AddressesSame(w.b, w'.b, w.a, w'.a, w.net, w'.net); }
    if act.Decide? { AddressesSame(w.a, w'.a, w.b, w'.b, w.net, w'.net); }
    hide Inv;
    ReachChangeKeeps(w, w');
  }

  // ---------- whole runs ----------

  lemma ActKeeps(w: World, act: Action)
    requires Inv(w) && Allowed(w, act)
    ensures Inv(Act(w, act)) && Right(w, act)
  {
    hide Inv, Act;
    match act {
      case Send(plaintext) => hide Allowed; SendKeeps(w, plaintext);
      case Receive => ReceiveKeeps(w);
      case Reset => ResetKeeps(w);
      case Rotate => hide Allowed; RotateKeeps(w);
      case Generate(n) => hide Allowed; GenerateKeeps(w, n);
      case Publish(bundle) => hide Allowed; PublishKeeps(w, bundle);
      case Hear(msg) => hide Allowed; HearKeeps(w, msg);
      case Tell(jid, plaintext) => hide Allowed; TellKeeps(w, jid, plaintext);
      case _ => hide Allowed; SettlingKeeps(w, act);
    }
  }

  lemma InvSwap(w: World)
    requires Inv(w)
    ensures Inv(Swap(w))
  {
    hide Ready;
    assert Swap(Swap(w)) == w;
    if Established(w) { assert Established(Swap(w)); }
  }

  lemma ReceivesSomething(w: World, act: Action)
    requires Allowed(w, act)
    ensures act.Receive? ==> w.toA != []
  {
  }

  lemma {:induction false} InvOverRun(w: World, turns: seq<Turn>)
    requires Inv(w) && AllowedRun(w, turns)
    ensures AllRight(w, turns) && Inv(Final(w, turns))
    decreases |turns|
  {
    hide Inv, Allowed, Act, Right;
    if turns != [] {
      var t := turns[0];
      if t.side == B { InvSwap(w); }
      ReceivesSomething(Facing(w, t.side), t.act);
      ActKeeps(Facing(w, t.side), t.act);
      if t.side == B { InvSwap(Act(Swap(w), t.act)); }
      InvOverRun(After(w, t), turns[1..]);
    }
  }

  /** Whole-run round trip. Two managers that can address and trust each other start with nothing in flight
      and at least one of them without a session. Then in every allowed run, of any length and in both
      directions, every Send yields a message and every Receive returns exactly the plaintext sent (nil for
      key transport). Whenever both hold a session and nothing is in flight, these are the two ends of one
      session and each has received exactly the indices the other has sent. */
  lemma RoundTrip(w: World, turns: seq<Turn>)
    requires Setting(w) && Vacant(w) && AllowedRun(w, turns)
    ensures AllRight(w, turns)
    ensures var end := Final(w, turns);
            end.toA == [] && end.toB == [] && !NoSession(end.a, end.b) && !NoSession(end.b, end.a) ==>
              && SessionWith(end.a, end.b).Some? && SessionWith(end.b, end.a).Some?
              && var ra, rb := SessionWith(end.a, end.b).value, SessionWith(end.b, end.a).value;
                 Matched(ra, rb) && UpTo(ra.received, rb.sent) && UpTo(rb.received, ra.sent)
  {
    hide Setting, AllowedRun, AllRight, Final;
    InvOverRun(w, turns);
  }

  // ---------- where the hypotheses come from ----------

  /** A bundle once published is live as long as at most one rotation has passed and its first prekey was
      not consumed. */
  lemma PublishedIsLive(cfg: Config, l: Local, first: seq<Runs.Action>, later: seq<Runs.Action>, bundle: Bundle)
    requires FreshDevice(cfg, l)
    requires DEFAULT_PRE_KEY_COUNT + GeneratedIn(first) + GeneratedIn(later) < TWO_TO_THE_32
    requires |SignedPreKeys(cfg, l, first)| + RotationsIn(later) < TWO_TO_THE_32
    requires IsBundle(cfg, Run(cfg, l, first).store, bundle) && bundle.preKeys != []
    requires RotationsIn(later) <= 1 && bundle.preKeys[0].id in Run(cfg, l, first + later).store.preKeys
    ensures Live(Party(cfg, Run(cfg, l, first + later).store), bundle)
  {
    hide Run, SignedPreKeys, FreshDevice;
    LookupsFindAdvertised(cfg, l, first, later, bundle);
  }

  /** Two fresh devices of two accounts, with their bundles and device lists on the board, distinct IDs and
      approving resolvers, meet every hypothesis of the round trip; either may send first. */
  lemma FreshPairMayStart(cfgA: Config, la: Local, cfgB: Config, lb: Local, net: Net, rnd: nat,
          plaintext: Option<Bytes>)
    requires FreshDevice(cfgA, la) && FreshDevice(cfgB, lb) && cfgA.protocol == cfgB.protocol
    requires cfgA.localDevice.jid != cfgB.localDevice.jid && cfgA.localDevice.id != cfgB.localDevice.id
    requires net.lists ==
             map[cfgA.localDevice.jid := [cfgA.localDevice.id], cfgB.localDevice.jid := [cfgB.localDevice.id]]
    requires cfgA.localDevice in net.bundles && IsBundle(cfgA, la.store, net.bundles[cfgA.localDevice])
    requires cfgB.localDevice in net.bundles && IsBundle(cfgB, lb.store, net.bundles[cfgB.localDevice])
    requires cfgA.resolver.Some? && cfgB.resolver.Some?
    requires cfgA.identityKey.Priv? && cfgA.resolver.value(cfgB.localDevice, net.bundles[cfgB.localDevice].identityKey)
    requires cfgB.identityKey.Priv? && cfgB.resolver.value(cfgA.localDevice, net.bundles[cfgA.localDevice].identityKey)
    ensures var w := World(Party(cfgA, la.store), Party(cfgB, lb.store), net, [], [], rnd);
            Setting(w) && Vacant(w) && Allowed(w, Send(plaintext)) && Allowed(Swap(w), Send(plaintext))
  {
    hide Live, PoolInv, Ready;
    FreshStore(cfgA, la);
    FreshStore(cfgB, lb);
    FreshIsLive(cfgA, la, net.bundles[cfgA.localDevice]);
    FreshIsLive(cfgB, lb, net.bundles[cfgB.localDevice]);
    FreshReady(Party(cfgA, la.store), Party(cfgB, lb.store), net);
    FreshReady(Party(cfgB, lb.store), Party(cfgA, la.store), net);
  }

  lemma FreshStore(cfg: Config, l: Local)
    requires FreshDevice(cfg, l)
    ensures l.store.sessions == map[] && l.store.devices == map[] && l.store.trust == map[] && cfg.identityKey.Priv?
    ensures PoolInv(l.store, l.store.nextPreKeyID) && |l.store.preKeys| == DEFAULT_PRE_KEY_COUNT
  {
    InitialPool(cfg, l);
    hide Filed, NewPreKeys;
  }

  lemma FreshIsLive(cfg: Config, l: Local, bundle: Bundle)
    requires FreshDevice(cfg, l) && IsBundle(cfg, l.store, bundle)
    ensures Live(Party(cfg, l.store), bundle)
  {
    FreshStore(cfg, l);
    hide FreshDevice, Live;
    var none: seq<Runs.Action> := [];
    assert none + none == none;
    assert Run(cfg, l, none) == l;
    PublishedIsLive(cfg, l, none, none, bundle);
  }

  lemma FreshReady(me: Party, peer: Party, net: Net)
    requires me.cfg.identityKey.Priv? && peer.cfg.identityKey.Priv? && me.cfg.protocol == peer.cfg.protocol
    requires me.cfg.localDevice.jid != peer.cfg.localDevice.jid && me.cfg.localDevice.id != peer.cfg.localDevice.id
    requires net.lists ==
             map[me.cfg.localDevice.jid := [me.cfg.localDevice.id],
                 peer.cfg.localDevice.jid := [peer.cfg.localDevice.id]]
    requires me.store.devices == map[] && me.store.trust == map[] && PoolInv(me.store, me.store.nextPreKeyID)
    requires me.cfg.resolver.Some? && me.cfg.resolver.value(peer.cfg.localDevice, IdentityOf(peer))
    ensures Ready(me, peer, net)
  {
    hide PoolInv;
    var jid, own := peer.cfg.localDevice.jid, me.cfg.localDevice.jid;
    var s1 := DevicesFor(net, me.store, jid).0;
    assert DevicesFor(net, me.store, jid).1 == Ok([peer.cfg.localDevice.id]);
    assert DevicesFor(net, s1, own).1 == Ok([me.cfg.localDevice.id]);
    var ds := RecipientDevices(me.cfg, net, me.store, jid).1;
    assert Addressed(jid, [peer.cfg.localDevice.id]) == [peer.cfg.localDevice];
    assert Addressed(own, [me.cfg.localDevice.id]) == [me.cfg.localDevice];
    assert ds.value == [peer.cfg.localDevice, me.cfg.localDevice];
    assert ds.value[0] == peer.cfg.localDevice;
  }
}
