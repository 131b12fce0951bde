/** No message is read twice: over whole runs of one device, whatever is delivered again, wrapped again or sent under
    another name, and across resets and replaced sessions. */
module Once {
  import opened Basics
  import opened Types
  import opened Signal
  import opened StoreModel
  import opened ManagerSpec
  import opened Sections
  import opened Runs
  import opened PreKeys
  import opened Interleaving
  import opened Positions
  import opened Trust
  import opened Freshness

  /** The place of a ratchet message in its session. */
  datatype Spot = Spot(root: Root, sender: Role, index: nat)

  function SpotOf(w: Wire): Spot
    requires w.Whisper?
  {
    Spot(w.root, w.sender, w.index)
  }

  /** The ratchet message a recipient key asks this device to read. */
  function Asked(cfg: Config, key: RecipientKey): Wire {
    if key.keyExchange.None? || OfferedExchange(cfg, key).Err? then key.data else OfferedExchange(cfg, key).value.1
  }

  /** The place of the message a call read, if it read one. */
  function ReadBy(cfg: Config, l: Local, a: Runs.Action): Option<Spot> {
    if !a.DoDecrypt? then None
    else
      var key := KeyFor(a.msg.keys, cfg.localDevice.id);
      if key.None? || DecryptKey(cfg, l.store, a.msg.sender, key.value).1.Err? || !Asked(cfg, key.value).Whisper?
      then None
      else Some(SpotOf(Asked(cfg, key.value)))
  }

  /** Every place read in the course of a run. */
  function Read(cfg: Config, l: Local, acts: seq<Runs.Action>): set<Spot> {
    if acts == [] then {}
    else
      var init, a := acts[..|acts| - 1], acts[|acts| - 1];
      Read(cfg, l, init) + SpotsOf(ReadBy(cfg, Run(cfg, l, init), a))
  }

  function SpotsOf(x: Option<Spot>): set<Spot> {
    if x.Some? then {x.value} else {}
  }

  // ---------- the invariant ----------

  /** No session with this tag will be made again: its scalar is drawn, and no longer in the pool. */
  predicate Spent(s: StoreState, rnd: nat, tag: Tag) {
    tag.seed < rnd && (tag.role == Passive ==> forall id :: id in s.preKeys ==> s.preKeys[id].priv != Priv(tag.seed))
  }

  /** The stored session of a device. */
  function SessionOf(s: StoreState, d: Device): Option<Ratchet> {
    if d in s.sessions && s.sessions[d].Blob? then Some(s.sessions[d].ratchet) else None
  }

  function SpotTag(x: Spot): Tag {
    RootTag(x.root, Other(x.sender))
  }

  /** Stored sessions are spent and different, and what was read is marked in its session or that is gone for good. */
  ghost predicate OnceInv(s: StoreState, rnd: nat, read: set<Spot>) {
    && (forall d :: SessionOf(s, d).Some? ==> Spent(s, rnd, TagOf(SessionOf(s, d).value)))
    && (forall d, e :: d != e && SessionOf(s, d).Some? && SessionOf(s, e).Some? ==>
          TagOf(SessionOf(s, d).value) != TagOf(SessionOf(s, e).value))
    && (forall x :: x in read ==> Spent(s, rnd, SpotTag(x)))
    && (forall x, d :: x in read && SessionOf(s, d).Some? ==> MarkedIn(x, SessionOf(s, d).value))
  }

  predicate MarkedIn(x: Spot, r: Ratchet) {
    x.root == r.root && x.sender == Other(r.role) ==> x.index in r.received
  }

  /** The pool holds different pairs of scalars drawn so far, each under its own ID. */
  ghost predicate PoolOk(s: StoreState, rnd: nat) {
    && PoolKeyed(s.preKeys)
    && (forall id :: id in s.preKeys ==> Paired(s.preKeys[id]) && s.preKeys[id].pub.n < rnd)
    && (forall a, b :: a in s.preKeys && b in s.preKeys && s.preKeys[a].pub == s.preKeys[b].pub ==> a == b)
  }

  // ---------- how sessions change ----------

  /** `s'` has `d`'s session replaced by `r`. */
  ghost predicate Replaced(s: StoreState, s': StoreState, d: Device, r: Ratchet) {
    SessionOf(s', d) == Some(r) && forall e :: e != d ==> SessionOf(s', e) == SessionOf(s, e)
  }

  /** Nothing new: sessions stay or go, the pool only loses records or gains new scalars. */
  lemma CalmKeeps(s: StoreState, rnd: nat, s': StoreState, rnd': nat, read: set<Spot>)
    requires OnceInv(s, rnd, read) && rnd <= rnd'
    requires forall d :: SessionOf(s', d).None? || SessionOf(s', d) == SessionOf(s, d)
    requires forall id :: id in s'.preKeys ==>
               s'.preKeys[id] in s.preKeys.Values || (s'.preKeys[id].priv.Priv? && s'.preKeys[id].priv.n >= rnd)
    ensures OnceInv(s', rnd', read)
  {
    hide TagOf, SpotTag, MarkedIn, SessionOf;
    forall tag | Spent(s, rnd, tag) ensures Spent(s', rnd', tag) {}
    hide Spent;
  }

  /** A device's session goes on: same secret and role, and nothing it marked is forgotten. */
  lemma ContinuedKeeps(s: StoreState, s': StoreState, rnd: nat, read: set<Spot>, d: Device, r: Ratchet, r': Ratchet)
    requires OnceInv(s, rnd, read) && SessionOf(s, d) == Some(r) && Replaced(s, s', d, r')
    requires s'.preKeys == s.preKeys && r'.root == r.root && r'.role == r.role && r.received <= r'.received
    ensures OnceInv(s', rnd, read)
  {
    hide SpotTag, SessionOf, RootTag;
    forall tag ensures Spent(s', rnd, tag) == Spent(s, rnd, tag) {}
    hide Spent;
  }

  /** A new session, under a tag that was not spent before and is now. */
  lemma NewKeeps(s: StoreState, rnd: nat, s': StoreState, rnd': nat, read: set<Spot>, d: Device, r: Ratchet)
    requires OnceInv(s, rnd, read) && Replaced(s, s', d, r)
    requires !Spent(s, rnd, TagOf(r)) && Spent(s', rnd', TagOf(r))
    requires rnd <= rnd' && forall id :: id in s'.preKeys ==> id in s.preKeys && s'.preKeys[id] == s.preKeys[id]
    ensures OnceInv(s', rnd', read)
    ensures forall x :: x in read ==> SpotTag(x) != TagOf(r)
  {
    hide SessionOf, RootTag;
    forall tag | Spent(s, rnd, tag) ensures Spent(s', rnd', tag) {}
    hide Spent;
    forall x, e | x in read && SessionOf(s', e).Some? ensures MarkedIn(x, SessionOf(s', e).value) {
      if e == d { assert SpotTag(x) != TagOf(r); }
    }
  }

  /** A place is read in a session that has it marked now. */
  lemma ReadKeeps(s: StoreState, rnd: nat, read: set<Spot>, d: Device, x: Spot)
    requires OnceInv(s, rnd, read) && SessionOf(s, d).Some?
    requires var r := SessionOf(s, d).value; x.root == r.root && x.sender == Other(r.role) && x.index in r.received
    ensures OnceInv(s, rnd, read + {x})
  {
    hide SessionOf, RootTag, Spent;
    forall y, e | y in read + {x} && SessionOf(s, e).Some? ensures MarkedIn(y, SessionOf(s, e).value) {
      if y == x && e != d { assert TagOf(SessionOf(s, e).value) != TagOf(SessionOf(s, d).value); }
    }
  }

  // ---------- decrypting ----------

  lemma ReadShape(cfg: Config, s: StoreState, sender: Device, key: RecipientKey)
    ensures var (s', r) := DecryptKey(cfg, s, sender, key);
            var w := Asked(cfg, key);
            && (r.Err? ==> s'.sessions == s.sessions)
            && (forall id :: id in s'.preKeys ==> id in s.preKeys && s'.preKeys[id] == s.preKeys[id])
            && (r.Ok? && key.keyExchange.None? ==>
                  && w.Whisper? && s'.preKeys == s.preKeys && SessionOf(s, sender).Some?
                  && var was := SessionOf(s, sender).value;
                     && w.root == was.root && w.sender == Other(was.role) && w.index !in was.received
                     && Replaced(s, s', sender, was.(received := was.received + {w.index}, canSend := true)))
            && (r.Ok? && key.keyExchange.Some? ==>
                  && w.Whisper? && w.sender == Active && OfferedExchange(cfg, key).Ok?
                  && var id := OfferedExchange(cfg, key).value.0.preKeyID;
                     && id in s.preKeys && s'.preKeys == s.preKeys - {id} && s.preKeys[id].priv.Priv?
                     && SessionOf(s', sender).Some?
                     && var r := SessionOf(s', sender).value;
                        && Replaced(s, s', sender, r) && w.root == r.root && r.role == Passive
                        && w.index in r.received && TagOf(r) == Tag(Passive, s.preKeys[id].priv.n))
  {
    hide TagOf, SignedPreKeyByID, OfferedExchange;
    if key.keyExchange.Some? && OfferedExchange(cfg, key).Ok? {
      var kx := OfferedExchange(cfg, key).value.0;
      var spk := SignedPreKeyByID(s, kx.signedPreKeyID);
      if spk.Ok? && kx.preKeyID in s.preKeys {
        PassiveTag(cfg, kx, spk.value, s.preKeys[kx.preKeyID]);
        if DecryptKey(cfg, s, sender, key).1.Ok? { SameTag(cfg, s, sender, key); }
      }
    }
  }

  /** Opening the first message does not change a session's tag. */
  lemma SameTag(cfg: Config, s: StoreState, sender: Device, key: RecipientKey)
    requires key.keyExchange.Some? && OfferedExchange(cfg, key).Ok? && DecryptKey(cfg, s, sender, key).1.Ok?
    ensures var kx := OfferedExchange(cfg, key).value.0;
            var spk := SignedPreKeyByID(s, kx.signedPreKeyID);
            && spk.Ok? && kx.preKeyID in s.preKeys && PassiveFrom(cfg, kx, spk.value, s.preKeys[kx.preKeyID]).Ok?
            && SessionOf(DecryptKey(cfg, s, sender, key).0, sender).Some?
            && TagOf(SessionOf(DecryptKey(cfg, s, sender, key).0, sender).value)
               == TagOf(PassiveFrom(cfg, kx, spk.value, s.preKeys[kx.preKeyID]).value.ratchet)
  {
  }

  /** One decryption: what it reads was not read before. */
  lemma DecryptKeeps(cfg: Config, s: StoreState, rnd: nat, read: set<Spot>, sender: Device, key: RecipientKey)
    requires OnceInv(s, rnd, read) && PoolOk(s, rnd)
    ensures var (s', r) := DecryptKey(cfg, s, sender, key);
            var w := Asked(cfg, key);
            && (r.Err? ==> OnceInv(s', rnd, read))
            && (r.Ok? ==> w.Whisper? && SpotOf(w) !in read && OnceInv(s', rnd, read + {SpotOf(w)}))
  {
    ReadShape(cfg, s, sender, key);
    var (s', r) := DecryptKey(cfg, s, sender, key);
    var w := Asked(cfg, key);
    if r.Err? {
      hide DecryptKey, OnceInv;
      CalmKeeps(s, rnd, s', rnd, read);
    } else if key.keyExchange.None? {
      var was, now := SessionOf(s, sender).value, SessionOf(s', sender).value;
      hide DecryptKey, SessionOf, Spent, RootTag;
      assert SpotOf(w) in read ==> MarkedIn(SpotOf(w), was);
      ContinuedKeeps(s, s', rnd, read, sender, was, now);
      ReadKeeps(s', rnd, read, sender, SpotOf(w));
    } else {
      var now := SessionOf(s', sender).value;
      hide DecryptKey, SessionOf, OnceInv, RootTag, OfferedExchange;
      NewKeeps(s, rnd, s', rnd, read, sender, now);
      ReadKeeps(s', rnd, read, sender, SpotOf(w));
    }
  }

  // ---------- encrypting ----------

  /** One entry of the loop continues its device's session, opens one of its own scalar, or changes none. */
  lemma EntryShape(cfg: Config, net: Net, s: StoreState, w: (Device, nat), keyMaterial: nat)
    ensures var s' := FanOutOne(cfg, net, s, w.0, keyMaterial, w.1).0;
            && s'.preKeys == s.preKeys
            && (s'.sessions == s.sessions
                || (SessionOf(s', w.0).Some? && Replaced(s, s', w.0, SessionOf(s', w.0).value)
                    && var now := SessionOf(s', w.0).value;
                       if w.0 in s.sessions then
                         && SessionOf(s, w.0).Some?
                         && var was := SessionOf(s, w.0).value;
                            now.root == was.root && now.role == was.role && now.received == was.received
                       else TagOf(now) == Tag(Active, w.1)))
  {
    hide ActiveSession, CheckTrust, SealKey, BuildActive, RootTag, TrustStep;
    var dev, ek := w.0, w.1;
    if dev in net.bundles { ActiveTag(cfg, net.bundles[dev], ek); }
    if dev != cfg.localDevice {
      ActiveStage(cfg, net, s, dev, ek);
      var (s1, active) := ActiveSession(cfg, net, s, dev, ek);
      if active.Ok? && dev in s1.remoteID {
        TrustStage(cfg, s1, dev, s1.remoteID[dev]);
        var (s2, refusal) := CheckTrust(cfg, s1, dev, s1.remoteID[dev]);
        if refusal.None? {
          SealStage(s2, dev, active.value.0, active.value.1, keyMaterial);
          assert EncryptForDevice(cfg, net, s, dev, keyMaterial, ek) ==
              SealKey(s2, dev, active.value.0, active.value.1, keyMaterial);
        }
      }
    }
  }

  lemma EntryKeeps(cfg: Config, net: Net, s: StoreState, w: (Device, nat), keyMaterial: nat, read: set<Spot>)
    requires OnceInv(s, w.1, read)
    ensures OnceInv(FanOutOne(cfg, net, s, w.0, keyMaterial, w.1).0, w.1 + 1, read)
  {
    EntryShape(cfg, net, s, w, keyMaterial);
    var s' := FanOutOne(cfg, net, s, w.0, keyMaterial, w.1).0;
    hide FanOutOne, OnceInv, TagOf;
    if s'.sessions != s.sessions {
      var now := SessionOf(s', w.0).value;
      if w.0 in s.sessions {
        ContinuedKeeps(s, s', w.1, read, w.0, SessionOf(s, w.0).value, now);
        CalmKeeps(s', w.1, s', w.1 + 1, read);
      } else {
        NewKeeps(s, w.1, s', w.1 + 1, read, w.0, now);
      }
    } else {
      CalmKeeps(s, w.1, s', w.1 + 1, read);
    }
  }

  lemma {:induction false} FanOutKeeps(cfg: Config, net: Net, s: StoreState, work: seq<(Device, nat)>, keyMaterial: nat,
                                       lo: nat, read: set<Spot>)
    requires OnceInv(s, lo, read) && forall i :: 0 <= i < |work| ==> work[i].1 == lo + i
    ensures OnceInv(FanOut(cfg, net, s, work, keyMaterial).0, lo + |work|, read)
  {
    hide FanOutOne, OnceInv;
    if work != [] {
      var n := |work| - 1;
      FanOutKeeps(cfg, net, s, work[..n], keyMaterial, lo, read);
      EntryKeeps(cfg, net, FanOut(cfg, net, s, work[..n], keyMaterial).0, work[n], keyMaterial, read);
    }
  }

  // ---------- whole runs ----------

  lemma CallKeeps(cfg: Config, l: Local, a: Runs.Action, read: set<Spot>)
    requires OnceInv(l.store, l.rnd, read) && PoolOk(l.store, l.rnd) && cfg.identityKey.Priv?
    ensures var l' := Apply(cfg, l, a);
            var x := ReadBy(cfg, l, a);
            OnceInv(l'.store, l'.rnd, read + SpotsOf(x)) && (x.Some? ==> x.value !in read)
  {
    hide OnceInv, FanOut, DecryptKey, Generated, RecipientDevices, Asked, PoolOk;
    var l' := Apply(cfg, l, a);
    assert read + {} == read;
    match a {
      case DoEncrypt(net, jid, plaintext) =>
        RecipientDevicesFrame(cfg, net, l.store, jid);
        var (s1, devices) := RecipientDevices(cfg, net, l.store, jid);
        CalmKeeps(l.store, l.rnd, s1, l.rnd + 2, read);
        if devices.Ok? {
          FanOutKeeps(cfg, net, s1, WorkFor(devices.value, l.rnd + 2), l.rnd, l.rnd + 2, read);
        } else {
          CalmKeeps(l.store, l.rnd, s1, l.rnd, read);
        }
      case DoDecrypt(msg) =>
        var key := KeyFor(msg.keys, cfg.localDevice.id);
        if key.Some? { DecryptKeeps(cfg, l.store, l.rnd, read, msg.sender, key.value); }
      case DoGenerate(n) =>
        GeneratedFrame(l.store, n, l.rnd);
        CallDraws(cfg, l, a);
        CalmKeeps(l.store, l.rnd, l'.store, l'.rnd, read);
      case _ => CalmKeeps(l.store, l.rnd, l'.store, l'.rnd, read);
    }
  }

  lemma {:induction false} KeyedOverRuns(cfg: Config, l: Local, acts: seq<Runs.Action>)
    requires FreshDevice(cfg, l)
    ensures PoolKeyed(Run(cfg, l, acts).store.preKeys)
  {
    if acts == [] {
      hide Filed;
      InitialPool(cfg, l);
    } else {
      hide Encrypt, DecryptMessage, FreshDevice, Filed;
      var init, a := acts[..|acts| - 1], acts[|acts| - 1];
      KeyedOverRuns(cfg, l, init);
      var m := Run(cfg, l, init);
      match a
      case DoEncrypt(net, jid, plaintext) => EncryptFrame(cfg, net, m.store, m.rnd, jid, plaintext);
      case DoDecrypt(msg) => DecryptFrame(cfg, m.store, msg);
      case DoGenerate(n) => FiledKeyed(m.store.preKeys, NewPreKeys(m.store.nextPreKeyID, n, m.rnd));
      case _ =>
    }
  }

  lemma PoolOkOverRuns(cfg: Config, l: Local, acts: seq<Runs.Action>)
    requires FreshDevice(cfg, l)
    ensures PoolOk(Run(cfg, l, acts).store, Run(cfg, l, acts).rnd) && cfg.identityKey.Priv?
  {
    hide FreshDevice, Run, SignedPreKeys, Issued, Ephemerals;
    DistinctOverRuns(cfg, l, acts);
    KeyedOverRuns(cfg, l, acts);
    var m := Run(cfg, l, acts);
    forall id | id in m.store.preKeys ensures m.store.preKeys[id] in Issued(cfg, l, acts) {
      assert m.store.preKeys[id] in m.store.preKeys.Values;
    }
  }

  lemma {:induction false} OnceOverRuns(cfg: Config, l: Local, acts: seq<Runs.Action>)
    requires FreshDevice(cfg, l)
    ensures OnceInv(Run(cfg, l, acts).store, Run(cfg, l, acts).rnd, Read(cfg, l, acts))
  {
    if acts == [] {
      hide Filed, NewPreKeys;
      assert l.store.sessions == map[];
    } else {
      hide Apply, ReadBy, OnceInv, PoolOk, FreshDevice;
      var init, a := acts[..|acts| - 1], acts[|acts| - 1];
      OnceOverRuns(cfg, l, init);
      PoolOkOverRuns(cfg, l, init);
      CallKeeps(cfg, Run(cfg, l, init), a, Read(cfg, l, init));
    }
  }

  lemma {:induction false} ReadEarlier(cfg: Config, l: Local, acts: seq<Runs.Action>, i: nat)
    requires i < |acts| && ReadBy(cfg, Run(cfg, l, acts[..i]), acts[i]).Some?
    ensures ReadBy(cfg, Run(cfg, l, acts[..i]), acts[i]).value in Read(cfg, l, acts)
  {
    hide ReadBy, Run;
    var n := |acts| - 1;
    if i < n {
      assert acts[..n][..i] == acts[..i];
      ReadEarlier(cfg, l, acts[..n], i);
    }
  }

  /** No ratchet message is read twice. Over every run of a new device - any messages from anybody, resets, sessions
      that replace each other, counters that wrap - two calls that got key material out of a message read different
      places: another secret, the other direction or another index. */
  lemma NoMessageReadTwice(cfg: Config, l: Local, acts: seq<Runs.Action>, i: nat, j: nat)
    requires FreshDevice(cfg, l) && i < j < |acts|
    requires ReadBy(cfg, Run(cfg, l, acts[..i]), acts[i]).Some? && ReadBy(cfg, Run(cfg, l, acts[..j]), acts[j]).Some?
    ensures ReadBy(cfg, Run(cfg, l, acts[..i]), acts[i]) != ReadBy(cfg, Run(cfg, l, acts[..j]), acts[j])
  {
    hide ReadBy, Run, OnceInv, PoolOk, FreshDevice, Read;
    var init := acts[..j];
    assert init[..i] == acts[..i];
    ReadEarlier(cfg, l, init, i);
    OnceOverRuns(cfg, l, init);
    PoolOkOverRuns(cfg, l, init);
    CallKeeps(cfg, Run(cfg, l, init), acts[j], Read(cfg, l, init));
  }

  /** What a successful call read. */
  lemma SuccessReads(cfg: Config, l: Local, msg: EncryptedMessage)
    requires DecryptMessage(cfg, l.store, msg).1.Ok?
    ensures var key := KeyFor(msg.keys, cfg.localDevice.id);
            key.Some? && Asked(cfg, key.value).Whisper?
            && ReadBy(cfg, l, DoDecrypt(msg)) == Some(SpotOf(Asked(cfg, key.value)))
  {
    var key := KeyFor(msg.keys, cfg.localDevice.id).value;
    ReadShape(cfg, l.store, msg.sender, key);
    hide DecryptKey, SessionOf, Asked;
  }

  /** So a message that was decrypted fails whenever it is delivered again. */
  lemma NeverDecryptedAgain(cfg: Config, l: Local, first: seq<Runs.Action>, msg: EncryptedMessage,
          later: seq<Runs.Action>)
    requires FreshDevice(cfg, l) && DecryptMessage(cfg, Run(cfg, l, first).store, msg).1.Ok?
    ensures DecryptMessage(cfg, Run(cfg, l, first + [DoDecrypt(msg)] + later).store, msg).1.Err?
  {
    hide DecryptMessage, ReadBy, Run, FreshDevice;
    var before := first + [DoDecrypt(msg)] + later;
    var acts := before + [DoDecrypt(msg)];
    assert acts[..|first|] == first && acts[..|before|] == before;
    if DecryptMessage(cfg, Run(cfg, l, before).store, msg).1.Ok? {
      SuccessReads(cfg, Run(cfg, l, first), msg);
      SuccessReads(cfg, Run(cfg, l, before), msg);
      NoMessageReadTwice(cfg, l, acts, |first|, |before|);
    }
  }
}
