/** Healing a broken session: reset, key transport, delivery - with whatever was in flight delivered too, in
    order, before the healing message at one end and after the reset at the other. */
module Healing {
  import opened Basics
  import opened Types
  import opened Signal
  import opened ManagerSpec
  import opened Sections
  import opened Runs
  import opened Trust
  import opened Pair

  // ---------- in-order delivery ----------

  /** `a` receives everything in flight to it, in order. */
  function Drained(w: World): World
    decreases |w.toA|
  {
    if w.toA == [] then w else Drained(Act(w, Receive))
  }

  /** `me` after receiving `chan` in order, whatever each call returned. */
  function Delivered(me: Party, chan: seq<Sent>): Party {
    if chan == [] then me
    else
      var before := Delivered(me, chan[..|chan| - 1]);
      before.(store := DecryptMessage(before.cfg, before.store, chan[|chan| - 1].msg).0)
  }

  lemma {:induction false} DrainedDelivers(w: World)
    ensures Drained(w) == w.(a := Delivered(w.a, w.toA), toA := [])
    decreases |w.toA|
  {
    hide DecryptMessage;
    if w.toA != [] {
      DrainedDelivers(Act(w, Receive));
      FirstFirst(w.a, w.toA);
    }
  }

  lemma {:induction false} FirstFirst(me: Party, chan: seq<Sent>)
    requires chan != []
    ensures Delivered(me, chan) == Delivered(me.(store := DecryptMessage(me.cfg, me.store, chan[0].msg).0), chan[1..])
    decreases |chan|
  {
    hide DecryptMessage;
    var n := |chan| - 1;
    if n == 0 {
      assert chan[..0] == [] && chan[1..] == [];
    } else {
      FirstFirst(me, chan[..n]);
      assert chan[..n][1..] == chan[1..][..n - 1] && chan[..n][0] == chan[0];
    }
  }

  lemma {:induction false} DeliveredConcat(me: Party, chan: seq<Sent>, last: Sent)
    ensures var before := Delivered(me, chan);
            Delivered(me, chan + [last]) == before.(store := DecryptMessage(before.cfg, before.store, last.msg).0)
  {
    assert (chan + [last])[..|chan|] == chan;
  }

  // ---------- what delivery does to prekeys and readiness ----------

  /** Receiving `sent` consumes one-time prekey `id` if `me` still has it. */
  predicate Takes(me: Party, sent: Sent, id: U32) {
    var kx := OfferIn(me.cfg, sent.msg);
    kx.Some? && kx.value.preKeyID == id && SignedPreKeyByID(me.store, kx.value.signedPreKeyID).Ok?
  }

  /** Delivery leaves everything but sessions, identities and prekeys, and a prekey is gone exactly when some
      message takes it. */
  lemma {:induction false} DeliveredPool(me: Party, chan: seq<Sent>)
    ensures var after := Delivered(me, chan);
            && after.cfg == me.cfg
            && after.store == me.store.(sessions := after.store.sessions, remoteID := after.store.remoteID,
               preKeys := after.store.preKeys)
            && (forall id :: id in after.store.preKeys <==>
                  id in me.store.preKeys && forall k :: 0 <= k < |chan| ==> !Takes(me, chan[k], id))
            && (forall id :: id in after.store.preKeys ==> after.store.preKeys[id] == me.store.preKeys[id])
  {
    hide DecryptMessage, OfferIn;
    if chan != [] {
      var n := |chan| - 1;
      DeliveredPool(me, chan[..n]);
      var before := Delivered(me, chan[..n]);
      DecryptFrame(before.cfg, before.store, chan[n].msg);
      var after := Delivered(me, chan);
      forall id ensures id in after.store.preKeys <==>
                          id in me.store.preKeys && forall k :: 0 <= k < |chan| ==> !Takes(me, chan[k], id)
      {
        assert forall k :: 0 <= k < n ==> chan[..n][k] == chan[k];
        assert SignedPreKeyByID(before.store, 0) == SignedPreKeyByID(me.store, 0);
      }
    }
  }

  lemma {:induction false} DeliveredReady(me: Party, peer: Party, net: Net, chan: seq<Sent>)
    requires Ready(me, peer, net)
    ensures Ready(Delivered(me, chan), peer, net)
  {
    hide Ready, DecryptMessage;
    if chan != [] {
      DeliveredReady(me, peer, net, chan[..|chan| - 1]);
      ReceiveReady(Delivered(me, chan[..|chan| - 1]), peer, net, chan[|chan| - 1].msg);
    }
  }

  // ---------- the healing message ----------

  /** `a` resets its session and sends a key transport. */
  function Renewed(w: World): World {
    Act(Act(w, Reset), Send(None))
  }

  /** `a` can encrypt to `b`, and the bundle it will use is live. Nothing is asked of what `b` thinks of `a`. */
  ghost predicate Healable(w: World) {
    Reaches(w.a, w.b, w.net) && w.b.cfg.localDevice in w.net.bundles && Live(w.b, w.net.bundles[w.b.cfg.localDevice])
  }

  /** Same device, same own prekeys. */
  ghost predicate SameKeys(me: Party, me': Party) {
    && me'.cfg == me.cfg && me'.store.currentSPK == me.store.currentSPK && me'.store.staleSPK == me.store.staleSPK
    && me'.store.preKeys == me.store.preKeys
  }

  ghost function FirstPreKey(w: World): U32
    requires Healable(w)
  {
    w.net.bundles[w.b.cfg.localDevice].preKeys[0].id
  }

  /** Nothing in flight to `b` takes the prekey the healing message will name. */
  ghost predicate FirstPreKeySurvives(w: World)
    requires Healable(w)
  {
    forall k :: 0 <= k < |w.toB| ==> !Takes(w.b, w.toB[k], FirstPreKey(w))
  }

  /** What `a` holds after the reset and the key transport: one message more in flight, and its end of a fresh
      session, derived from a scalar never drawn before. */
  lemma RenewedEnd(w: World)
    requires Healable(w)
    ensures var w2 := Renewed(w);
            && |w2.toB| == |w.toB| + 1 && w2.toB[..|w.toB|] == w.toB
            && w2.toA == w.toA && w2.b == w.b && w2.net == w.net && w2.a.cfg == w.a.cfg
            && SameKeys(w.a, w2.a)
            && Reaches(w2.a, w.b, w.net) && Records(w2.a, w.b) && (Ready(w.a, w.b, w.net) ==> Ready(w2.a, w.b, w.net))
            && SessionWith(w2.a, w.b).Some?
            && (var r := SessionWith(w2.a, w.b).value;
                r == Ratchet(r.root, Active, 1, {}, true) && r.root.dh4.hi >= w.rnd)
            && CarriesExchange(w2.toB[|w.toB|], w.b)
            && OfferIn(w.b.cfg, w2.toB[|w.toB|].msg).Some?
            && OfferIn(w.b.cfg, w2.toB[|w.toB|].msg).value.preKeyID == FirstPreKey(w)
  {
    hide Reaches, Ready, Encrypt, Holds, Sends;
    var w1 := Act(w, Reset);
    ResetReaches(w.a, w.b, w.net);
    var b := w.net.bundles[w.b.cfg.localDevice];
    var r, ek := SendOnBundle(w1.a, w1.b, w1.net, w1.rnd, None);
    var key := FirstKey(w1.a, w1.b, r, w1.rnd, ek, b.signedPreKey.id, b.preKeys[0].id);
    SentEnd(w1, None, key, View(Some(Blob(w1.a.cfg.protocol, r)), Some(IdentityOf(w1.b))));
    RenewedKeys(w);
    hide Act;
    SameProtocol(w.a, w.b, w.net);
  }

  /** Neither call touches `a`'s own keys. */
  lemma RenewedKeys(w: World)
    ensures SameKeys(w.a, Renewed(w).a)
    ensures Reaches(Renewed(w).a, w.b, w.net) && Ready(w.a, w.b, w.net) ==> Ready(Renewed(w).a, w.b, w.net)
  {
    hide Reaches, Encrypt;
    var w1 := Act(w, Reset);
    EncryptFrame(w1.a.cfg, w1.net, w1.a.store, w1.rnd, w1.b.cfg.localDevice.jid, None);
  }

  lemma SameProtocol(me: Party, peer: Party, net: Net)
    requires Reaches(me, peer, net)
    ensures me.cfg.protocol == peer.cfg.protocol
  {
  }

  /** `b` after everything sent before the healing message arrived, and what it makes of that message. */
  function AtHealing(w: World): (Party, Result<Option<Bytes>, Error>) {
    var before, chan := Delivered(w.b, w.toB), Renewed(w).toB;
    if |chan| <= |w.toB| then (before, Err(ErrNoRecipients))
    else
      var (s, got) := DecryptMessage(before.cfg, before.store, chan[|w.toB|].msg);
      (before.(store := s), got)
  }

  /** Healing with the channel kept. Whatever the two stores hold - `b` may have lost its sessions, or may
      distrust `a` - and whatever is in flight to `b`, delivered in order before it: the healing message is
      accepted if and only if none of those messages takes the prekey it names. Accepted, it leaves the two
      ends of one fresh session; refused, it leaves `b` as it was. */
  lemma HealingInOrder(w: World)
    requires Healable(w)
    ensures var (b', got) := AtHealing(w);
            var ra := SessionWith(Renewed(w).a, w.b);
            && ra.Some?
            && (got.Ok? <==> FirstPreKeySurvives(w))
            && (got.Ok? ==> && got == Ok(None) && Records(b', w.a)
                            && SessionWith(b', w.a) == Some(Ratchet(ra.value.root, Passive, 0, {0}, true)))
            && (got.Err? ==> b' == Delivered(w.b, w.toB))
  {
    hide Act, DecryptMessage, Live, Reaches, Ready, OfferIn, SignedPreKeyByID;
    RenewedEnd(w);
    DeliveredPool(w.b, w.toB);
    FirstPreKeyHeld(w);
    if FirstPreKeySurvives(w) {
      Survived(w);
    } else {
      hide Takes;
      var before := Delivered(w.b, w.toB);
      assert FirstPreKey(w) !in before.store.preKeys;
      DecryptFrame(before.cfg, before.store, Renewed(w).toB[|w.toB|].msg);
    }
  }

  lemma FirstPreKeyHeld(w: World)
    requires Healable(w)
    ensures w.net.bundles[w.b.cfg.localDevice].preKeys != [] && FirstPreKey(w) in w.b.store.preKeys
  {
  }

  lemma LiveAfter(b: Party, b': Party, bundle: Bundle)
    requires Live(b, bundle) && bundle.preKeys != [] && b'.cfg == b.cfg
    requires b'.store == b.store.(sessions := b'.store.sessions, remoteID := b'.store.remoteID,
             preKeys := b'.store.preKeys)
    requires bundle.preKeys[0].id in b'.store.preKeys
             && b'.store.preKeys[bundle.preKeys[0].id] == b.store.preKeys[bundle.preKeys[0].id]
    ensures Live(b', bundle)
  {
  }

  /** `a`'s calls see nothing of `b` but its address. */
  lemma RenewedSees(w: World, w': World)
    requires w'.a == w.a && w'.net == w.net && w'.rnd == w.rnd && w'.b.cfg == w.b.cfg && w'.toB == []
    requires |Renewed(w).toB| == |w.toB| + 1 && |Renewed(w').toB| == 1
    ensures Renewed(w').a == Renewed(w).a && Renewed(w').toB[0] == Renewed(w).toB[|w.toB|]
    ensures Renewed(w').b == w'.b && Renewed(w').net == w'.net && Renewed(w').toA == w'.toA
  {
    hide Encrypt;
  }

  lemma Survived(w: World)
    requires Healable(w) && FirstPreKeySurvives(w) && |Renewed(w).toB| == |w.toB| + 1
    ensures var (b', got) := AtHealing(w);
            var ra := SessionWith(Renewed(w).a, w.b);
            && ra.Some? && got == Ok(None) && Records(b', w.a)
            && SessionWith(b', w.a) == Some(Ratchet(ra.value.root, Passive, 0, {0}, true))
  {
    hide Reaches, Live, DecryptMessage, Opens, Takes, Carries;
    DeliveredPool(w.b, w.toB);
    var b1 := Delivered(w.b, w.toB);
    PeerReaches(w.a, w.b, b1, w.net);
    FirstPreKeyHeld(w);
    LiveAfter(w.b, b1, w.net.bundles[w.b.cfg.localDevice]);
    var quiet := World(w.a, b1, w.net, [], [], w.rnd);
    RenewedEnd(quiet);
    RenewedSees(w, quiet);
    var w1 := Act(quiet, Reset);
    ResetReaches(w.a, b1, w.net);
    SendFirst(w1, None);
    var w2 := Renewed(quiet);
    hide Act;
    assert w2 == Act(w1, Send(None)) && Opening(w2);
    var ra := SessionWith(w2.a, w2.b).value;
    SameProtocol(w.a, w.b, w.net);
    ReceiveOpening(b1, w2.a, w2.toB[0], ra);
  }

  // ---------- stale messages to the party that healed ----------

  /** Receiving `sent` replaces or advances the session `me` has with `peer`: it is a message of that session at
      an unseen index, or the first message of a session its exchange leads to. */
  predicate Displaces(me: Party, peer: Party, sent: Sent) {
    var key := KeyFor(sent.msg.keys, me.cfg.localDevice.id);
    && sent.msg.sender == peer.cfg.localDevice && key.Some?
    && if key.value.keyExchange.None? then
         SessionWith(me, peer).Some? && RatchetDecrypt(SessionWith(me, peer).value, key.value.data).Ok?
       else
         OfferedExchange(me.cfg, key.value).Ok?
         && var (kx, data) := OfferedExchange(me.cfg, key.value).value;
            Acceptable(me.cfg, me.store, kx) && OpensUnder(me.cfg, me.store, kx, data)
  }

  function Received(me: Party, sent: Sent): Party {
    me.(store := DecryptMessage(me.cfg, me.store, sent.msg).0)
  }

  /** One received message: the session stays exactly unless displaced; displaced, it is a responder's or has
      received one index more. */
  lemma ReceiveStale(me: Party, peer: Party, sent: Sent)
    requires SessionWith(me, peer).Some?
    ensures var was, now := SessionWith(me, peer).value, SessionWith(Received(me, sent), peer);
            && now.Some?
            && (!Displaces(me, peer, sent) ==> now.value == was)
            && (Displaces(me, peer, sent) ==>
                  now.value.role == Passive
                  || (now.value.role == was.role
                      && exists i :: i !in was.received && now.value.received == was.received + {i}))
  {
    hide Acceptable, OpensUnder, NewPassive;
    var key := KeyFor(sent.msg.keys, me.cfg.localDevice.id);
    if key.Some? {
      DecryptKeyFrame(me.cfg, me.store, sent.msg.sender, key.value);
      if sent.msg.sender == peer.cfg.localDevice {
        if key.value.keyExchange.None? {
          PlainAtEnd(me, peer, key.value);
        } else {
          ExchangeAtEnd(me, peer, key.value);
        }
      } else {
        assert ViewOf(Received(me, sent).store, peer.cfg.localDevice) == ViewOf(me.store, peer.cfg.localDevice);
        assert Lookup(Received(me, sent).store.sessions, peer.cfg.localDevice) ==
            Lookup(me.store.sessions, peer.cfg.localDevice);
      }
    }
  }

  lemma PlainAtEnd(me: Party, peer: Party, key: RecipientKey)
    requires SessionWith(me, peer).Some? && key.keyExchange.None?
    ensures var was := SessionWith(me, peer).value;
            var now := SessionWith(me.(store := DecryptKey(me.cfg, me.store, peer.cfg.localDevice, key).0), peer);
            now == Some(if RatchetDecrypt(was, key.data).Ok? then RatchetDecrypt(was, key.data).value.0 else was)
  {
  }

  lemma ExchangeAtEnd(me: Party, peer: Party, key: RecipientKey)
    requires SessionWith(me, peer).Some? && key.keyExchange.Some?
    ensures var now := SessionWith(me.(store := DecryptKey(me.cfg, me.store, peer.cfg.localDevice, key).0), peer);
            if OfferedExchange(me.cfg, key).Ok?
               && Acceptable(me.cfg, me.store, OfferedExchange(me.cfg, key).value.0)
               && OpensUnder(me.cfg, me.store, OfferedExchange(me.cfg, key).value.0,
                  OfferedExchange(me.cfg, key).value.1)
            then now.Some? && now.value.role == Passive
            else now == SessionWith(me, peer)
  {
    hide Acceptable, OpensUnder, SignedPreKeyByID, LoadSession;
    if OfferedExchange(me.cfg, key).Ok? { AcceptedExactly(me.cfg, me.store, peer.cfg.localDevice, key); }
  }

  /** The key exchange `me` reads in `sent`, with the ratchet message that comes with it. */
  function ExchangeIn(me: Party, sent: Sent): Option<(KeyExchange, Wire)> {
    var key := KeyFor(sent.msg.keys, me.cfg.localDevice.id);
    if key.None? || key.value.keyExchange.None? || OfferedExchange(me.cfg, key.value).Err? then None
    else Some(OfferedExchange(me.cfg, key.value).value)
  }

  /** Message `k` of `chan` is an exchange in `peer`'s name whose halves `me` holds, and no message before it
      takes the prekey. */
  predicate Lands(me: Party, peer: Party, chan: seq<Sent>, k: nat)
    requires k < |chan|
  {
    var offer := ExchangeIn(me, chan[k]);
    && chan[k].msg.sender == peer.cfg.localDevice && offer.Some?
    && Acceptable(me.cfg, me.store, offer.value.0)
    && forall j :: 0 <= j < k ==> !Takes(me, chan[j], offer.value.0.preKeyID)
  }

  /** Message `k` of `chan` ends or advances session `r` with `peer`: it is a message of that session, or the
      first message of one that lands. */
  predicate Harms(me: Party, peer: Party, r: Ratchet, chan: seq<Sent>, k: nat)
    requires k < |chan|
  {
    || PlainOf(me, peer, r, chan[k])
    || (Lands(me, peer, chan, k)
        && OpensUnder(me.cfg, me.store, ExchangeIn(me, chan[k]).value.0, ExchangeIn(me, chan[k]).value.1))
  }

  /** `sent` is a plain message in `peer`'s name that opens under `r`. */
  predicate PlainOf(me: Party, peer: Party, r: Ratchet, sent: Sent) {
    var key := KeyFor(sent.msg.keys, me.cfg.localDevice.id);
    && sent.msg.sender == peer.cfg.localDevice
    && key.Some? && key.value.keyExchange.None? && RatchetDecrypt(r, key.value.data).Ok?
  }

  ghost predicate Harmless(me: Party, peer: Party, r: Ratchet, chan: seq<Sent>) {
    forall k :: 0 <= k < |chan| ==> !Harms(me, peer, r, chan, k)
  }

  /** What a message does on arrival, told from the store before any of them was delivered. */
  lemma OnArrival(me: Party, peer: Party, chan: seq<Sent>, k: nat)
    requires k < |chan|
    ensures var mid, offer := Delivered(me, chan[..k]), ExchangeIn(me, chan[k]);
            && ExchangeIn(mid, chan[k]) == offer
            && (offer.Some? && chan[k].msg.sender == peer.cfg.localDevice ==>
                  && (Acceptable(mid.cfg, mid.store, offer.value.0) <==> Lands(me, peer, chan, k))
                  && (Lands(me, peer, chan, k) ==>
                        (OpensUnder(mid.cfg, mid.store, offer.value.0, offer.value.1)
                         <==> OpensUnder(me.cfg, me.store, offer.value.0, offer.value.1))))
  {
    hide OfferedExchange, Takes, Derivable;
    DeliveredPool(me, chan[..k]);
    var mid := Delivered(me, chan[..k]);
    assert forall id :: SignedPreKeyByID(mid.store, id) == SignedPreKeyByID(me.store, id);
    assert forall j :: 0 <= j < k ==> chan[..k][j] == chan[j];
  }

  lemma DisplacesOnArrival(me: Party, peer: Party, r: Ratchet, chan: seq<Sent>, k: nat)
    requires k < |chan| && SessionWith(Delivered(me, chan[..k]), peer) == Some(r)
    ensures Displaces(Delivered(me, chan[..k]), peer, chan[k]) <==> Harms(me, peer, r, chan, k)
  {
    hide OfferedExchange, Acceptable, OpensUnder, Lands, SessionWith;
    OnArrival(me, peer, chan, k);
    LandsOffers(me, peer, chan, k);
    DeliveredPool(me, chan[..k]);
  }

  /** Once displaced, an initiator's session never comes back. */
  ghost predicate MovedOn(was: Ratchet, now: Ratchet) {
    now.role == Passive || exists i :: i in now.received && i !in was.received
  }

  lemma HarmlessStep(me: Party, peer: Party, r: Ratchet, chan: seq<Sent>, n: nat)
    requires |chan| == n + 1
    ensures Harmless(me, peer, r, chan) <==> Harmless(me, peer, r, chan[..n]) && !Harms(me, peer, r, chan, n)
  {
    hide PlainOf, Takes, OpensUnder, Acceptable;
    forall k | 0 <= k < n ensures Harms(me, peer, r, chan[..n], k) <==> Harms(me, peer, r, chan, k) {
      assert chan[..n][k] == chan[k] && forall j :: 0 <= j < k ==> chan[..n][j] == chan[j];
    }
  }

  /** Exactly which stale messages leave a healed end alone: it is what it was after all of them were delivered
      if and only if none of them is a plain message of that session, or lands with a first message that opens.
      All of that is in the messages and in the store before delivery. */
  lemma {:induction false} StaleLeavesEnd(me: Party, peer: Party, chan: seq<Sent>)
    requires SessionWith(me, peer).Some? && SessionWith(me, peer).value.role == Active
    ensures var was, now := SessionWith(me, peer).value, SessionWith(Delivered(me, chan), peer);
            && now.Some?
            && (Harmless(me, peer, was, chan) <==> now.value == was)
            && (!Harmless(me, peer, was, chan) ==> MovedOn(was, now.value))
  {
    hide DecryptMessage, Displaces, Harms, Harmless, SessionWith;
    var was := SessionWith(me, peer).value;
    if chan == [] {
      NothingHarms(me, peer, was);
    } else {
      var n := |chan| - 1;
      StaleLeavesEnd(me, peer, chan[..n]);
      var mid := Delivered(me, chan[..n]);
      ReceiveStale(mid, peer, chan[n]);
      assert Delivered(me, chan) == Received(mid, chan[n]);
      HarmlessStep(me, peer, was, chan, n);
      if Harmless(me, peer, was, chan[..n]) { DisplacesOnArrival(me, peer, was, chan, n); }
    }
  }

  lemma NothingHarms(me: Party, peer: Party, r: Ratchet)
    ensures Harmless(me, peer, r, [])
  {
  }

  // ---------- whose identity is on record afterwards ----------

  /** The last of the first `n` messages that lands. */
  function LastLanding(me: Party, peer: Party, chan: seq<Sent>, n: nat): (last: Option<nat>)
    requires n <= |chan|
    ensures last.Some? ==> && last.value < n && Lands(me, peer, chan, last.value)
                           && forall j :: last.value < j < n ==> !Lands(me, peer, chan, j)
    ensures last.None? ==> forall j :: 0 <= j < n ==> !Lands(me, peer, chan, j)
  {
    if n == 0 then None
    else if Lands(me, peer, chan, n - 1) then Some(n - 1)
    else LastLanding(me, peer, chan, n - 1)
  }

  /** The identity recorded for `peer` after delivery: that of the last exchange that lands, or the one before. */
  function RecordAfter(me: Party, peer: Party, chan: seq<Sent>, n: nat): Option<PubKey>
    requires n <= |chan|
  {
    var last := LastLanding(me, peer, chan, n);
    if last.None? then Lookup(me.store.remoteID, peer.cfg.localDevice)
    else Some(ExchangeIn(me, chan[last.value]).value.0.identityKey)
  }

  /** One received message records an identity for `peer` exactly when it is an acceptable exchange in its name. */
  lemma ReceiveRecords(me: Party, peer: Party, sent: Sent)
    ensures var offer := ExchangeIn(me, sent);
            Lookup(Received(me, sent).store.remoteID, peer.cfg.localDevice)
            == if sent.msg.sender == peer.cfg.localDevice && offer.Some? && Acceptable(me.cfg, me.store, offer.value.0)
               then Some(offer.value.0.identityKey) else Lookup(me.store.remoteID, peer.cfg.localDevice)
  {
    hide DecryptKey, Acceptable, OfferedExchange;
    var key := KeyFor(sent.msg.keys, me.cfg.localDevice.id);
    if key.Some? {
      DecryptKeyFrame(me.cfg, me.store, sent.msg.sender, key.value);
      if sent.msg.sender == peer.cfg.localDevice {
        KeyRecords(me, peer.cfg.localDevice, key.value);
      } else {
        assert ViewOf(Received(me, sent).store, peer.cfg.localDevice) == ViewOf(me.store, peer.cfg.localDevice);
      }
    }
  }

  lemma KeyRecords(me: Party, sender: Device, key: RecipientKey)
    ensures var s' := DecryptKey(me.cfg, me.store, sender, key).0;
            Lookup(s'.remoteID, sender)
            == if key.keyExchange.Some? && OfferedExchange(me.cfg, key).Ok?
                  && Acceptable(me.cfg, me.store, OfferedExchange(me.cfg, key).value.0)
               then Some(OfferedExchange(me.cfg, key).value.0.identityKey) else Lookup(me.store.remoteID, sender)
  {
    hide Acceptable, OpensUnder, SignedPreKeyByID, LoadSession, Open, NewPassive;
    if key.keyExchange.Some? && OfferedExchange(me.cfg, key).Ok? { AcceptedExactly(me.cfg, me.store, sender, key); }
  }

  /** The record after delivery, told from the messages and the store before it. */
  lemma {:induction false} RecordOnInputs(me: Party, peer: Party, chan: seq<Sent>, n: nat)
    requires n <= |chan|
    ensures Lookup(Delivered(me, chan[..n]).store.remoteID, peer.cfg.localDevice) == RecordAfter(me, peer, chan, n)
  {
    hide DecryptMessage, Lands, Acceptable, OpensUnder, ExchangeIn;
    if n == 0 {
      assert chan[..0] == [];
    } else {
      RecordOnInputs(me, peer, chan, n - 1);
      assert chan[..n][..n - 1] == chan[..n - 1];
      var mid := Delivered(me, chan[..n - 1]);
      assert Delivered(me, chan[..n]) == Received(mid, chan[n - 1]);
      ReceiveRecords(mid, peer, chan[n - 1]);
      OnArrival(me, peer, chan, n - 1);
      LandsOffers(me, peer, chan, n - 1);
    }
  }

  lemma LandsOffers(me: Party, peer: Party, chan: seq<Sent>, k: nat)
    requires k < |chan|
    ensures Lands(me, peer, chan, k) ==> chan[k].msg.sender == peer.cfg.localDevice && ExchangeIn(me, chan[k]).Some?
  {
  }

  /** In particular a record of `peer`'s own identity is kept when every exchange delivered in its name carries
      it. */
  lemma OwnIdentityKept(me: Party, peer: Party, chan: seq<Sent>)
    requires Records(me, peer)
    requires forall k ::
               0 <= k < |chan| && chan[k].msg.sender == peer.cfg.localDevice && ExchangeIn(me, chan[k]).Some? ==>
               ExchangeIn(me, chan[k]).value.0.identityKey == IdentityOf(peer)
    ensures Records(Delivered(me, chan), peer)
  {
    hide ExchangeIn, DecryptMessage;
    RecordOnInputs(me, peer, chan, |chan|);
    assert chan[..|chan|] == chan;
    var last := LastLanding(me, peer, chan, |chan|);
    if last.Some? { LandsOffers(me, peer, chan, last.value); }
  }

  // ---------- both channels ----------

  /** Reset, key transport, and then everything in flight is delivered in order at both ends. */
  function HealInOrder(w: World): World {
    Swap(Drained(Swap(Drained(Renewed(w)))))
  }

  lemma HealedEnds(w: World)
    requires Healable(w)
    ensures var w' := HealInOrder(w);
            && w' == World(Delivered(Renewed(w).a, w.toA), w'.b, w.net, [], [], Renewed(w).rnd)
            && |Renewed(w).toB| == |w.toB| + 1
            && w'.b == AtHealing(w).0
            && (Setting(w) ==> Setting(w'))
  {
    hide Act, DecryptMessage, Reaches, Ready;
    RenewedEnd(w);
    var w2 := Renewed(w);
    DrainedDelivers(w2);
    DrainedDelivers(Swap(Drained(w2)));
    assert w2.toB == w.toB + [w2.toB[|w.toB|]];
    DeliveredConcat(w.b, w.toB, w2.toB[|w.toB|]);
    DeliveredPool(w2.a, w.toA);
    DeliveredPool(w.b, w2.toB);
    if Setting(w) {
      DeliveredReady(w2.a, w.b, w.net, w.toA);
      DeliveredReady(w.b, w.a, w.net, w2.toB);
      var w' := HealInOrder(w);
      PeerReady(w'.a, w.b, w'.b, w.net);
      PeerReady(w'.b, w.a, w'.a, w.net);
    }
  }

  /** What is in flight does the same to a device with the same own keys. */
  lemma SameKeysSame(me: Party, me': Party, peer: Party, r: Ratchet, chan: seq<Sent>)
    requires SameKeys(me, me')
    ensures Harmless(me', peer, r, chan) <==> Harmless(me, peer, r, chan)
    ensures LastLanding(me', peer, chan, |chan|) == LastLanding(me, peer, chan, |chan|)
    ensures forall k :: 0 <= k < |chan| ==> ExchangeIn(me', chan[k]) == ExchangeIn(me, chan[k])
  {
    forall k | 0 <= k < |chan|
      ensures Lands(me', peer, chan, k) <==> Lands(me, peer, chan, k)
      ensures Harms(me', peer, r, chan, k) <==> Harms(me, peer, r, chan, k)
    {
      LandsSame(me, me', peer, r, chan, k);
    }
    hide Lands, Harms;
    LastSame(me, me', peer, chan, |chan|);
  }

  lemma LandsSame(me: Party, me': Party, peer: Party, r: Ratchet, chan: seq<Sent>, k: nat)
    requires SameKeys(me, me') && k < |chan|
    ensures Lands(me', peer, chan, k) <==> Lands(me, peer, chan, k)
    ensures Harms(me', peer, r, chan, k) <==> Harms(me, peer, r, chan, k)
  {
    hide OfferedExchange, Derivable, RatchetDecrypt;
    assert forall id :: SignedPreKeyByID(me'.store, id) == SignedPreKeyByID(me.store, id);
    forall j | 0 <= j < k ensures forall id :: Takes(me', chan[j], id) <==> Takes(me, chan[j], id) {}
  }

  lemma {:induction false} LastSame(me: Party, me': Party, peer: Party, chan: seq<Sent>, n: nat)
    requires n <= |chan| && forall k :: 0 <= k < |chan| ==> (Lands(me', peer, chan, k) <==> Lands(me, peer, chan, k))
    ensures LastLanding(me', peer, chan, n) == LastLanding(me, peer, chan, n)
  {
    hide Lands;
    if n > 0 { LastSame(me, me', peer, chan, n - 1); }
  }

  /** Every exchange in `b`'s name that lands last carries `b`'s own identity. */
  predicate LastIsOwn(w: World) {
    var last := LastLanding(w.a, w.b, w.toA, |w.toA|);
    last.Some? ==> ExchangeIn(w.a, w.toA[last.value]).value.0.identityKey == IdentityOf(w.b)
  }

  /** Healing with both channels kept: after everything in flight was delivered in order, the two hold the healed
      session and each other's identity if and only if nothing in flight to `b` takes the prekey, nothing in
      flight to `a` is a message of the new session or the first message of an exchange that lands, and the last
      exchange in `b`'s name that lands, if any, carries `b`'s identity. If each could also encrypt to the other
      before, they are ready for a round-trip run. */
  lemma HealedPairMatched(w: World)
    requires Healable(w)
    ensures var w' := HealInOrder(w);
            var ra := SessionWith(Renewed(w).a, w.b);
            && ra.Some?
            && (Setting(w) ==> Setting(w'))
            && (AtHealing(w).1.Ok? && Established(w')
                <==> FirstPreKeySurvives(w) && Harmless(w.a, w.b, ra.value, w.toA) && LastIsOwn(w))
  {
    hide Reaches, Ready, Act, DecryptMessage, Live, Harmless, LastIsOwn;
    HealingInOrder(w);
    RenewedEnd(w);
    HealedEnds(w);
    var w', a2 := HealInOrder(w), Renewed(w).a;
    SameKeysSame(w.a, a2, w.b, SessionWith(a2, w.b).value, w.toA);
    StaleLeavesEnd(a2, w.b, w.toA);
    SameIdentity(w);
    RecordIffOwn(w);
    DeliveredPool(a2, w.toA);
    hide HealInOrder, FirstPreKeySurvives;
    if FirstPreKeySurvives(w) {
      BothEnds(w', SessionWith(a2, w.b).value);
    }
  }

  /** With `b`'s end of session `r` fresh, the pair is established exactly when `a`'s end is untouched. */
  lemma BothEnds(w: World, r: Ratchet)
    requires w.toA == [] && w.toB == [] && r == Ratchet(r.root, Active, 1, {}, true)
    requires SessionWith(w.b, w.a) == Some(Ratchet(r.root, Passive, 0, {0}, true)) && Records(w.b, w.a)
    requires SessionWith(w.a, w.b).Some?
    requires SessionWith(w.a, w.b).value == r || MovedOn(r, SessionWith(w.a, w.b).value)
    ensures Established(w) <==> SessionWith(w.a, w.b).value == r && Records(w.a, w.b)
  {
    var ra, rb := SessionWith(w.a, w.b).value, SessionWith(w.b, w.a).value;
    hide SessionWith, PlainAt;
    assert UpTo(rb.received, 1) && rb.sent == 0;
    if Established(w) { assert !MovedOn(r, ra); }
  }

  lemma RecordIffOwn(w: World)
    requires Healable(w)
    ensures Records(HealInOrder(w).a, w.b) <==> LastIsOwn(w)
  {
    hide Reaches, Act, DecryptMessage, Live, Harmless, Takes, LastLanding, ExchangeIn;
    RenewedEnd(w);
    HealedEnds(w);
    var a2 := Renewed(w).a;
    SameKeysSame(w.a, a2, w.b, SessionWith(a2, w.b).value, w.toA);
    RecordOnInputs(a2, w.b, w.toA, |w.toA|);
    assert w.toA[..|w.toA|] == w.toA;
  }

  lemma SameIdentity(w: World)
    requires Healable(w)
    ensures IdentityOf(HealInOrder(w).b) == IdentityOf(w.b) && HealInOrder(w).b.cfg == w.b.cfg
  {
    hide Act, DecryptMessage, Reaches, Live;
    RenewedEnd(w);
    HealedEnds(w);
    DeliveredPool(w.b, w.toB);
  }

  /** Made for `me` before scalar `rnd` was drawn: no exchange, and no ratchet message of a younger session. */
  predicate PlainAndOld(me: Party, sent: Sent, rnd: nat) {
    var key := KeyFor(sent.msg.keys, me.cfg.localDevice.id);
    key.Some? ==> key.value.keyExchange.None? && (key.value.data.Whisper? ==> key.value.data.root.dh4.hi < rnd)
  }

  /** In particular plain messages of earlier sessions do no harm in either direction: the pair is healed. */
  lemma OldMessagesHarmless(w: World)
    requires Healable(w)
    requires forall k :: 0 <= k < |w.toA| ==> PlainAndOld(w.a, w.toA[k], w.rnd)
    requires forall k :: 0 <= k < |w.toB| ==> PlainAndOld(w.b, w.toB[k], w.rnd)
    ensures Established(HealInOrder(w)) && AtHealing(w).1 == Ok(None) && (Setting(w) ==> Setting(HealInOrder(w)))
  {
    hide Reaches, Ready, Act, DecryptMessage, Live, SessionWith, HealInOrder, AtHealing;
    RenewedEnd(w);
    HealingInOrder(w);
    HealedPairMatched(w);
    forall k | 0 <= k < |w.toB| ensures !Takes(w.b, w.toB[k], FirstPreKey(w)) {
      assert PlainAndOld(w.b, w.toB[k], w.rnd);
    }
    forall k | 0 <= k < |w.toA|
      ensures !Harms(w.a, w.b, SessionWith(Renewed(w).a, w.b).value, w.toA, k) && !Lands(w.a, w.b, w.toA, k)
    {
      assert PlainAndOld(w.a, w.toA[k], w.rnd);
    }
  }

  // ---------- nothing else delivered ----------

  /** `a` resets, sends a key transport, and `b` gets it; whatever was in flight is lost. */
  function Heal(w: World): (World, Result<Option<Bytes>, Error>) {
    var a1 := w.a.(store := w.a.store.(sessions := w.a.store.sessions - {w.b.cfg.localDevice}));
    var e := Encrypt(a1.cfg, w.net, a1.store, w.rnd, w.b.cfg.localDevice.jid, None);
    if e.msg.None? then (World(a1, w.b, w.net, [], [], e.rnd), Err(ErrNoRecipients))
    else
      var (sb, got) := DecryptMessage(w.b.cfg, w.b.store, e.msg.value);
      (World(a1.(store := e.store), w.b.(store := sb), w.net, [], [], e.rnd), got)
  }

  /** Healing when what was in flight is lost. From any two stores, however their sessions and recorded
      identities disagree and whatever the peer thinks of `a`: if the peer's bundle is trusted and its first
      prekey and signed prekey are still held, a reset followed by a delivered key transport leaves the two
      ends of one fresh session; ready for a round-trip run if each could encrypt to the other. */
  lemma HealingRematches(w: World)
    requires Healable(w)
    ensures var (w', got) := Heal(w);
            && got == Ok(None)
            && Established(w') && (Setting(w) ==> Setting(w'))
            && SessionWith(w'.a, w'.b).value.role == Active
  {
    hide Reaches, Ready, Live, DecryptMessage;
    var quiet := w.(toA := [], toB := []);
    HealingInOrder(quiet);
    HealedEnds(quiet);
    HealedPairMatched(quiet);
    RenewedEnd(quiet);
    assert HealInOrder(quiet).a == Renewed(quiet).a;
    LostIsQuiet(w);
  }

  lemma LostIsQuiet(w: World)
    requires |Renewed(w.(toA := [], toB := [])).toB| == 1
    ensures var quiet := w.(toA := [], toB := []);
            && Heal(w).1 == AtHealing(quiet).1
            && Heal(w).0 == World(Renewed(quiet).a, AtHealing(quiet).0, w.net, [], [], Renewed(quiet).rnd)
  {
    hide Encrypt, DecryptMessage;
  }
}
