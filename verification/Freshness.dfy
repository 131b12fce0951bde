/** A device never uses a key pair twice: over whole runs, every signed prekey, every one-time prekey, every ephemeral
    key it returned and the identity key are different pairs. */
module Freshness {
  import opened Basics
  import opened Types
  import opened Signal
  import opened StoreModel
  import opened ManagerSpec
  import opened Runs
  import opened PreKeys
  import opened Agreement
  import opened FanOutProofs
  import opened Trust

  /** Every one-time prekey record the pool held at some point of the run. */
  function Issued(cfg: Config, l: Local, acts: seq<Action>): set<PreKeyRecord> {
    if acts == [] then l.store.preKeys.Values
    else Issued(cfg, l, acts[..|acts| - 1]) + Run(cfg, l, acts).store.preKeys.Values
  }

  /** The public half of a scalar drawn from `lo` on and before `hi`. */
  predicate Drawn(p: PubKey, lo: nat, hi: nat) {
    p.Pub? && lo <= p.n < hi
  }

  /** What one call may add: a rotation makes its own pair of a scalar drawn during the call, a generation makes
      different pairs of such scalars; nothing else is added anywhere. */
  lemma CallDraws(cfg: Config, l: Local, a: Action)
    requires cfg.identityKey.Priv?
    ensures var l' := Apply(cfg, l, a);
            && l.rnd <= l'.rnd
            && (a.DoRotate? ==>
                  OwnSigned(cfg, l'.store.currentSPK) && Drawn(l'.store.currentSPK.pub, l.rnd, l'.rnd)
                  && l'.store.preKeys == l.store.preKeys)
            && (!a.DoRotate? ==> l'.store.currentSPK == l.store.currentSPK)
            && (forall r :: r in l'.store.preKeys.Values && r !in l.store.preKeys.Values ==>
                  a.DoGenerate? && Paired(r) && Drawn(r.pub, l.rnd, l'.rnd))
            && (forall r, q :: r in l'.store.preKeys.Values && r !in l.store.preKeys.Values
                               && q in l'.store.preKeys.Values && q !in l.store.preKeys.Values && r.pub == q.pub ==>
                  r == q)
  {
    hide Encrypt, DecryptMessage, Generated;
    match a {
      case DoEncrypt(net, jid, plaintext) => EncryptFrame(cfg, net, l.store, l.rnd, jid, plaintext);
      case DoDecrypt(msg) => DecryptFrame(cfg, l.store, msg);
      case DoGenerate(n) =>
        GeneratedFrame(l.store, n, l.rnd);
        forall r | r in Generated(l.store, n, l.rnd).preKeys.Values && r !in l.store.preKeys.Values
          ensures r in NewPreKeys(l.store.nextPreKeyID, n, l.rnd)
        {
          NewlyFiled(l.store, n, l.rnd, r);
        }
      case _ =>
    }
  }

  lemma NewlyFiled(s: StoreState, n: nat, rnd: nat, r: PreKeyRecord)
    requires r in Generated(s, n, rnd).preKeys.Values && r !in s.preKeys.Values
    ensures r in NewPreKeys(s.nextPreKeyID, n, rnd)
  {
    hide Filed, NewPreKeys;
    var recs := NewPreKeys(s.nextPreKeyID, n, rnd);
    var id :| id in Filed(s.preKeys, recs) && Filed(s.preKeys, recs)[id] == r;
    FiledOrKept(s.preKeys, recs, id);
    if !(exists i :: 0 <= i < |recs| && recs[i].id == id) { assert Lookup(s.preKeys, id) == Some(r); }
  }

  // ---------- ephemeral keys ----------

  /** The ephemeral keys of the exchanges in `keys`, in order. */
  function EphemeralsIn(keys: seq<RecipientKey>): seq<PubKey> {
    if keys == [] then []
    else
      var n := |keys| - 1;
      EphemeralsIn(keys[..n])
      + if keys[n].keyExchange.Some? then [keys[n].keyExchange.value.ephemeralKey] else []
  }

  /** Public halves of ever later scalars from `lo` on and before `hi`. */
  predicate Ascending(ps: seq<PubKey>, lo: nat, hi: nat) {
    && (forall i :: 0 <= i < |ps| ==> Drawn(ps[i], lo, hi))
    && (forall i, j :: 0 <= i < j < |ps| ==> ps[i].n < ps[j].n)
  }

  lemma {:induction false} EphemeralsConcat(a: seq<RecipientKey>, b: seq<RecipientKey>)
    ensures EphemeralsIn(a + b) == EphemeralsIn(a) + EphemeralsIn(b)
  {
    if b == [] {
      assert a + b == a;
    } else {
      var n := |b| - 1;
      assert (a + b)[..|a + b| - 1] == a + b[..n];
      EphemeralsConcat(a, b[..n]);
    }
  }

  lemma AscendingConcat(a: seq<PubKey>, b: seq<PubKey>, lo: nat, mid: nat, hi: nat)
    requires Ascending(a, lo, mid) && Ascending(b, mid, hi) && lo <= mid <= hi
    ensures Ascending(a + b, lo, hi)
  {
  }

  /** An entry of the loop sends an ephemeral key made of its own scalar, or none. */
  lemma EntryEphemeral(cfg: Config, net: Net, s: StoreState, w: (Device, nat), keyMaterial: nat)
    ensures var o := FanOutOne(cfg, net, s, w.0, keyMaterial, w.1).1;
            o.Sealed? && o.key.keyExchange.Some? ==> o.key.keyExchange.value.ephemeralKey == Pub(w.1)
  {
    if w.0 in net.bundles { BuildsExactly(cfg, net.bundles[w.0], w.1); }
    hide CheckTrust, BuildActive, Seal, LoadSession;
  }

  lemma {:induction false} FanOutEphemerals(cfg: Config, net: Net, s: StoreState, work: seq<(Device, nat)>,
          keyMaterial: nat, lo: nat)
    requires forall i :: 0 <= i < |work| ==> work[i].1 == lo + i
    ensures Ascending(EphemeralsIn(KeysOf(FanOut(cfg, net, s, work, keyMaterial).1)), lo, lo + |work|)
  {
    hide FanOutOne, Ascending, EphemeralsIn, KeysOf;
    if work == [] {
      NoEphemerals(lo);
    } else {
      var n := |work| - 1;
      FanOutEphemerals(cfg, net, s, work[..n], keyMaterial, lo);
      var (s1, outs) := FanOut(cfg, net, s, work[..n], keyMaterial);
      EntryEphemeral(cfg, net, s1, work[n], keyMaterial);
      var o := FanOutOne(cfg, net, s1, work[n].0, keyMaterial, work[n].1).1;
      assert FanOut(cfg, net, s, work, keyMaterial).1 == outs + [o];
      hide FanOut;
      NextEphemeral(outs, o, lo, lo + n);
    }
  }

  lemma NoEphemerals(lo: nat)
    ensures Ascending(EphemeralsIn(KeysOf([])), lo, lo)
  {
  }

  lemma NextEphemeral(outs: seq<Outcome>, o: Outcome, lo: nat, n: nat)
    requires lo <= n && Ascending(EphemeralsIn(KeysOf(outs)), lo, n)
    requires o.Sealed? && o.key.keyExchange.Some? ==> o.key.keyExchange.value.ephemeralKey == Pub(n)
    ensures Ascending(EphemeralsIn(KeysOf(outs + [o])), lo, n + 1)
  {
    assert (outs + [o])[..|outs|] == outs;
    var last := if o.Sealed? then [o.key] else [];
    assert KeysOf(outs + [o]) == KeysOf(outs) + last;
    hide KeysOf;
    EphemeralsConcat(KeysOf(outs), last);
    assert last != [] ==> last[..0] == [];
    AscendingConcat(EphemeralsIn(KeysOf(outs)), EphemeralsIn(last), lo, n, n + 1);
  }

  lemma CallEphemerals(cfg: Config, l: Local, a: Action)
    requires a.DoEncrypt?
    ensures Ascending(EphemeralsIn(KeysReturnedBy(cfg, l, a)), l.rnd, Apply(cfg, l, a).rnd)
  {
    var (s1, devices) := RecipientDevices(cfg, a.net, l.store, a.jid);
    hide RecipientDevices, FanOut;
    if devices.Ok? { FanOutEphemerals(cfg, a.net, s1, WorkFor(devices.value, l.rnd + 2), l.rnd, l.rnd + 2); }
  }

  // ---------- whole runs ----------

  /** Everything made so far is its own pair of a scalar drawn so far, and no two of these are the same. */
  ghost predicate AllDistinct(cfg: Config, rnd: nat, h: seq<SignedPreKeyRecord>, issued: set<PreKeyRecord>,
                              eph: seq<PubKey>)
  {
    && cfg.identityKey.Priv? && cfg.identityKey.n < rnd
    && (forall k :: 0 <= k < |h| ==> OwnSigned(cfg, h[k]) && Drawn(h[k].pub, cfg.identityKey.n + 1, rnd))
    && (forall r :: r in issued ==> Paired(r) && Drawn(r.pub, cfg.identityKey.n + 1, rnd))
    && (forall j, k :: 0 <= j < k < |h| ==> h[j].pub != h[k].pub)
    && (forall k, r :: 0 <= k < |h| && r in issued ==> h[k].pub != r.pub)
    && (forall r, q :: r in issued && q in issued && r.pub == q.pub ==> r == q)
    && Ascending(eph, cfg.identityKey.n + 1, rnd)
    && (forall k, p :: 0 <= k < |h| && p in eph ==> h[k].pub != p)
    && (forall r, p :: r in issued && p in eph ==> r.pub != p)
  }

  /** The ephemeral keys of every message a run returned. */
  function Ephemerals(cfg: Config, l: Local, acts: seq<Action>): seq<PubKey> {
    EphemeralsIn(ReturnedKeys(cfg, l, acts))
  }

  lemma {:induction false} DistinctOverRuns(cfg: Config, l: Local, acts: seq<Action>)
    requires FreshDevice(cfg, l)
    ensures AllDistinct(cfg, Run(cfg, l, acts).rnd, SignedPreKeys(cfg, l, acts), Issued(cfg, l, acts),
              Ephemerals(cfg, l, acts))
    ensures Run(cfg, l, acts).store.preKeys.Values <= Issued(cfg, l, acts)
  {
    if acts == [] {
      InitialDistinct(cfg, l);
    } else {
      hide Apply, FreshDevice, AllDistinct;
      var init, a := acts[..|acts| - 1], acts[|acts| - 1];
      DistinctOverRuns(cfg, l, init);
      EphemeralsGrow(cfg, l, init, a);
      assert acts == init + [a];
      hide Ephemerals;
      CallKeepsDistinct(cfg, Run(cfg, l, init), a, SignedPreKeys(cfg, l, init), Issued(cfg, l, init),
          Ephemerals(cfg, l, init));
    }
  }

  /** What a call adds to the ephemeral keys returned. */
  function EphemeralsOf(cfg: Config, l: Local, a: Action): seq<PubKey> {
    if a.DoEncrypt? then EphemeralsIn(KeysReturnedBy(cfg, l, a)) else []
  }

  lemma EphemeralsGrow(cfg: Config, l: Local, init: seq<Action>, a: Action)
    ensures Ephemerals(cfg, l, init + [a]) == Ephemerals(cfg, l, init) + EphemeralsOf(cfg, Run(cfg, l, init), a)
  {
    hide EphemeralsIn, KeysReturnedBy, Run;
    assert (init + [a])[..|init|] == init;
    var before := ReturnedKeys(cfg, l, init);
    assert before + [] == before;
    if a.DoEncrypt? { EphemeralsConcat(before, KeysReturnedBy(cfg, Run(cfg, l, init), a)); }
  }

  lemma CallKeepsDistinct(cfg: Config, l: Local, a: Action, h: seq<SignedPreKeyRecord>, issued: set<PreKeyRecord>,
          eph: seq<PubKey>)
    requires AllDistinct(cfg, l.rnd, h, issued, eph) && l.store.preKeys.Values <= issued
    ensures var l' := Apply(cfg, l, a);
            AllDistinct(cfg, l'.rnd, h + if a.DoRotate? then [l'.store.currentSPK] else [],
              issued + l'.store.preKeys.Values, eph + EphemeralsOf(cfg, l, a))
  {
    var l' := Apply(cfg, l, a);
    CallDraws(cfg, l, a);
    if a.DoEncrypt? { CallEphemerals(cfg, l, a); }
    hide Apply, OwnSigned, AllDistinct, EphemeralsIn, KeysReturnedBy, Ascending;
    assert h + [] == h && eph + [] == eph;
    if a.DoRotate? {
      HistoryGrows(cfg, l.rnd, l'.rnd, h, issued, eph, l'.store.currentSPK);
      assert issued + l'.store.preKeys.Values == issued;
    } else if a.DoEncrypt? {
      SentGrows(cfg, l.rnd, l'.rnd, h, issued, eph, EphemeralsOf(cfg, l, a));
      assert issued + l'.store.preKeys.Values == issued;
    } else {
      PoolGrows(cfg, l.rnd, l'.rnd, h, issued, eph, l.store.preKeys.Values, l'.store.preKeys.Values);
    }
  }

  lemma PoolGrows(cfg: Config, rnd: nat, rnd': nat, h: seq<SignedPreKeyRecord>, issued: set<PreKeyRecord>,
          eph: seq<PubKey>, pool: set<PreKeyRecord>, pool': set<PreKeyRecord>)
    requires AllDistinct(cfg, rnd, h, issued, eph) && pool <= issued && rnd <= rnd'
    requires forall r :: r in pool' && r !in pool ==> Paired(r) && Drawn(r.pub, rnd, rnd')
    requires forall r, q :: r in pool' && r !in pool && q in pool' && q !in pool && r.pub == q.pub ==> r == q
    ensures AllDistinct(cfg, rnd', h, issued + pool', eph)
  {
    hide OwnSigned;
  }

  lemma HistoryGrows(cfg: Config, rnd: nat, rnd': nat, h: seq<SignedPreKeyRecord>, issued: set<PreKeyRecord>,
          eph: seq<PubKey>, spk: SignedPreKeyRecord)
    requires AllDistinct(cfg, rnd, h, issued, eph) && OwnSigned(cfg, spk) && Drawn(spk.pub, rnd, rnd')
    ensures AllDistinct(cfg, rnd', h + [spk], issued, eph)
  {
    hide OwnSigned;
  }

  lemma SentGrows(cfg: Config, rnd: nat, rnd': nat, h: seq<SignedPreKeyRecord>, issued: set<PreKeyRecord>,
          eph: seq<PubKey>, sent: seq<PubKey>)
    requires AllDistinct(cfg, rnd, h, issued, eph) && Ascending(sent, rnd, rnd') && rnd <= rnd'
    ensures AllDistinct(cfg, rnd', h, issued, eph + sent)
  {
    hide OwnSigned;
    AscendingConcat(eph, sent, cfg.identityKey.n + 1, rnd, rnd');
  }

  lemma InitialDistinct(cfg: Config, l: Local)
    requires FreshDevice(cfg, l)
    ensures AllDistinct(cfg, l.rnd, [l.store.currentSPK], l.store.preKeys.Values, [])
  {
    hide Filed, NewPreKeys;
    InitialPool(cfg, l);
    InitialRecords(cfg, l);
    assert l.store.currentSPK.pub.Pub? && l.store.currentSPK.pub.n == cfg.identityKey.n + 1;
    assert l.rnd == cfg.identityKey.n + 102;
  }

  /** No key pair is used twice. Over every run of a new device, whatever it receives and however its counters wrap:
      each record holds both halves of one pair, and a signed prekey its own signature;
          no two signed prekeys, no two one-time
      prekeys the pool ever held, no two ephemeral keys in returned messages, and no two keys of different kinds, the
      identity key included, share a public half. */
  lemma NoKeyPairReused(cfg: Config, l: Local, acts: seq<Action>)
    requires FreshDevice(cfg, l)
    ensures var h, issued, eph := SignedPreKeys(cfg, l, acts), Issued(cfg, l, acts), Ephemerals(cfg, l, acts);
            && cfg.identityKey.Priv?
            && (forall j, k :: 0 <= j < k < |h| ==> h[j].pub != h[k].pub)
            && (forall r, q :: r in issued && q in issued && r.pub == q.pub ==> r == q)
            && (forall j, k :: 0 <= j < k < |eph| ==> eph[j] != eph[k])
            && (forall k, r :: 0 <= k < |h| && r in issued ==> h[k].pub != r.pub)
            && (forall k, p :: 0 <= k < |h| && p in eph ==> h[k].pub != p)
            && (forall r, p :: r in issued && p in eph ==> r.pub != p)
            && (forall k :: 0 <= k < |h| ==>
                  h[k].pub.Pub? && h[k].pub.n != cfg.identityKey.n && h[k].priv == Priv(h[k].pub.n)
                  && h[k].sig == Sig(cfg.identityKey.n, h[k].pub))
            && (forall r :: r in issued ==> r.pub.Pub? && r.pub.n != cfg.identityKey.n && r.priv == Priv(r.pub.n))
            && (forall p :: p in eph ==> p.Pub? && p.n != cfg.identityKey.n)
  {
    hide SignedPreKeys, Issued, Ephemerals, FreshDevice, Run;
    DistinctOverRuns(cfg, l, acts);
  }

  /** Rotating does rotate: the new signed prekey is a new pair, different from every key made before. */
  lemma RotationIsNew(cfg: Config, l: Local, acts: seq<Action>)
    requires FreshDevice(cfg, l)
    ensures var spk := Run(cfg, l, acts + [DoRotate]).store.currentSPK;
            && Drawn(spk.pub, Run(cfg, l, acts).rnd, Run(cfg, l, acts + [DoRotate]).rnd)
            && (forall k :: 0 <= k < |SignedPreKeys(cfg, l, acts)| ==> SignedPreKeys(cfg, l, acts)[k].pub != spk.pub)
            && (forall r :: r in Issued(cfg, l, acts) ==> r.pub != spk.pub)
  {
    hide Apply, FreshDevice, OwnSigned;
    var all := acts + [DoRotate];
    assert all[..|all| - 1] == acts && all[|all| - 1] == DoRotate;
    DistinctOverRuns(cfg, l, acts);
    CallDraws(cfg, Run(cfg, l, acts), DoRotate);
  }
}
