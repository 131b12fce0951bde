/** A device's own prekeys over whole runs: pool size, the bundle it advertises, redelivery of a
    key exchange and the two-record signed-prekey window. */
module PreKeys {
  import opened Basics
  import opened Types
  import opened Signal
  import opened StoreModel
  import opened ManagerSpec
  import opened Runs

  // ---------- the pool ----------

  /** One-time prekeys generated by the run's calls. */
  function GeneratedIn(acts: seq<Action>): nat {
    if acts == [] then 0
    else GeneratedIn(acts[..|acts| - 1]) + if acts[|acts| - 1].DoGenerate? then acts[|acts| - 1].n else 0
  }

  /** One-time prekeys consumed by the run's calls. */
  function ConsumedIn(cfg: Config, l: Local, acts: seq<Action>): nat {
    if acts == [] then 0
    else
      var init, a := acts[..|acts| - 1], acts[|acts| - 1];
      ConsumedIn(cfg, l, init)
      + if a.DoDecrypt? && Consumes(cfg, Run(cfg, l, init).store, a.msg) then 1 else 0
  }

  /** The record holds both halves of one key pair. */
  predicate Paired(r: PreKeyRecord) {
    r.pub.Pub? && r.priv == Priv(r.pub.n)
  }

  /** `total` IDs have been allocated, none twice, and the pool holds only allocated ones. */
  ghost predicate PoolInv(s: StoreState, total: nat) {
    && s.nextPreKeyID == total
    && PoolKeyed(s.preKeys)
    && forall id :: id in s.preKeys ==> 1 <= id <= total && Paired(s.preKeys[id])
  }

  /** Filing records under new, distinct IDs grows the pool by their number. */
  lemma {:induction false} FiledSize(pool: map<U32, PreKeyRecord>, recs: seq<PreKeyRecord>)
    requires forall i :: 0 <= i < |recs| ==> recs[i].id !in pool
    requires forall i, j :: 0 <= i < j < |recs| ==> recs[i].id != recs[j].id
    ensures |Filed(pool, recs)| == |pool| + |recs|
  {
    if recs != [] {
      var n := |recs| - 1;
      FiledSize(pool, recs[..n]);
      FiledContents(pool, recs[..n]);
      assert recs[n].id !in Filed(pool, recs[..n]);
    }
  }

  /** Below 2^32 allocations a generation adds exactly `n` records and overwrites none. */
  lemma GenerationAdds(s: StoreState, total: nat, n: nat, rnd: nat)
    requires PoolInv(s, total) && total + n < TWO_TO_THE_32
    ensures var s' := Generated(s, n, rnd);
            && PoolInv(s', total + n)
            && |s'.preKeys| == |s.preKeys| + n
            && (forall id :: id in s.preKeys ==> id in s'.preKeys && s'.preKeys[id] == s.preKeys[id])
            && (forall id :: id in s'.preKeys && id !in s.preKeys ==> total < id <= total + n)
  {
    NewIDs(s.nextPreKeyID, n, rnd);
    FilingAdds(s.preKeys, NewPreKeys(s.nextPreKeyID, n, rnd), total);
  }

  lemma FilingAdds(pool: map<U32, PreKeyRecord>, recs: seq<PreKeyRecord>, total: nat)
    requires PoolKeyed(pool) && forall id :: id in pool ==> 1 <= id <= total && Paired(pool[id])
    requires forall i :: 0 <= i < |recs| ==> recs[i].id == total + 1 + i && Paired(recs[i])
    ensures var pool' := Filed(pool, recs);
            && PoolKeyed(pool')
            && |pool'| == |pool| + |recs|
            && (forall id :: id in pool ==> id in pool' && pool'[id] == pool[id])
            && (forall id :: id in pool' ==> 1 <= id <= total + |recs| && Paired(pool'[id]))
            && (forall id :: id in pool' && id !in pool ==> total < id)
  {
    hide Filed;
    var pool' := Filed(pool, recs);
    FiledSize(pool, recs);
    FiledKeyed(pool, recs);
    FiledContents(pool, recs);
    forall id | id in pool' && id !in pool ensures total < id <= total + |recs| && Paired(pool'[id]) {
      var i :| 0 <= i < |recs| && recs[i].id == id;
      assert pool'[recs[i].id] == recs[i];
    }
  }

  lemma NewIDs(watermark: U32, n: nat, rnd: nat)
    requires watermark + n < TWO_TO_THE_32
    ensures var recs := NewPreKeys(watermark, n, rnd);
            && (forall i :: 0 <= i < n ==> recs[i].id == watermark + 1 + i && Paired(recs[i]))
            && (forall i, j :: 0 <= i < j < n ==> recs[i].id != recs[j].id)
  {
    var recs := NewPreKeys(watermark, n, rnd);
    forall i | 0 <= i < n ensures recs[i].id == watermark + 1 + i && Paired(recs[i]) {
      assert recs[i] == PreKeyRecord(WrapAdd(watermark, i + 1), Pub(rnd + i), Priv(rnd + i));
    }
  }

  lemma InitialPool(cfg: Config, l: Local)
    requires FreshDevice(cfg, l)
    ensures PoolInv(l.store, DEFAULT_PRE_KEY_COUNT) && |l.store.preKeys| == DEFAULT_PRE_KEY_COUNT
    ensures l.store.currentSPK.id == 1 && l.store.currentSPK.pub.Pub? && l.store.staleSPK.None?
  {
    hide Filed;
    var rnd: nat :| l == Local(Initialised(EmptyStore, cfg.localDevice, rnd), rnd + 2 + DEFAULT_PRE_KEY_COUNT)
                    && cfg.identityKey == Priv(rnd);
    var s1 := Rotated(EmptyStore.(identityKey := Priv(rnd), localDevice := cfg.localDevice),
        NewSignedPreKey(Priv(rnd), 1, rnd + 1));
    GenerationAdds(s1, 0, DEFAULT_PRE_KEY_COUNT, rnd + 2);
  }

  /** The initial records hold distinct scalars already drawn. */
  lemma InitialRecords(cfg: Config, l: Local)
    requires FreshDevice(cfg, l)
    ensures forall id :: id in l.store.preKeys ==>
            l.store.preKeys[id].pub.Pub? && l.store.preKeys[id].pub.n + 101 == l.rnd + id
  {
    var rnd: nat :| l == Local(Initialised(EmptyStore, cfg.localDevice, rnd), rnd + 2 + DEFAULT_PRE_KEY_COUNT)
                    && cfg.identityKey == Priv(rnd);
    var recs := NewPreKeys(0, DEFAULT_PRE_KEY_COUNT, rnd + 2);
    NewIDs(0, DEFAULT_PRE_KEY_COUNT, rnd + 2);
    FiledContents(map[], recs);
    forall id | id in l.store.preKeys ensures l.store.preKeys[id].pub == Pub(rnd + 1 + id) {
      var i :| 0 <= i < |recs| && recs[i].id == id;
      assert Filed(map[], recs)[recs[i].id] == recs[i];
    }
  }

  /** Every step: the pool invariant is kept, and the pool changes by generations and consumptions only. */
  lemma StepPool(cfg: Config, l: Local, a: Action, total: nat)
    requires PoolInv(l.store, total)
    requires total + (if a.DoGenerate? then a.n else 0) < TWO_TO_THE_32
    ensures var s' := Apply(cfg, l, a).store;
            && PoolInv(s', total + if a.DoGenerate? then a.n else 0)
            && |s'.preKeys| == |l.store.preKeys| + (if a.DoGenerate? then a.n else 0)
                              - (if a.DoDecrypt? && Consumes(cfg, l.store, a.msg) then 1 else 0)
            && (forall id :: id in s'.preKeys ==>
               id > total || (id in l.store.preKeys && s'.preKeys[id] == l.store.preKeys[id]))
  {
    hide Encrypt, DecryptMessage, Generated, Consumes, PoolInv;
    PoolElsewhere(l.store, Apply(cfg, l, a).store, total);
    match a {
      case DoEncrypt(net, jid, plaintext) => EncryptFrame(cfg, net, l.store, l.rnd, jid, plaintext);
      case DoDecrypt(msg) => DecryptPool(cfg, l.store, msg, total);
      case DoGenerate(n) => GenerationAdds(l.store, total, n, l.rnd);
      case _ =>
    }
  }

  lemma PoolElsewhere(s: StoreState, s': StoreState, total: nat)
    requires PoolInv(s, total)
    ensures s'.preKeys == s.preKeys && s'.nextPreKeyID == s.nextPreKeyID ==> PoolInv(s', total)
  {
  }

  lemma DecryptPool(cfg: Config, s: StoreState, msg: EncryptedMessage, total: nat)
    requires PoolInv(s, total)
    ensures var s' := DecryptMessage(cfg, s, msg).0;
            && PoolInv(s', total)
            && |s'.preKeys| == |s.preKeys| - (if Consumes(cfg, s, msg) then 1 else 0)
            && (forall id :: id in s'.preKeys ==> id in s.preKeys && s'.preKeys[id] == s.preKeys[id])
  {
    hide DecryptMessage;
    DecryptFrame(cfg, s, msg);
    if Consumes(cfg, s, msg) {
      var id := OfferIn(cfg, msg).value.preKeyID;
      hide Consumes, OfferIn;
      assert (s.preKeys - {id}).Keys == s.preKeys.Keys - {id};
      assert |s.preKeys.Keys| == |s.preKeys| && |(s.preKeys - {id}).Keys| == |s.preKeys - {id}|;
    }
  }

  lemma {:induction false} RunPool(cfg: Config, l: Local, acts: seq<Action>, total: nat)
    requires PoolInv(l.store, total) && total + GeneratedIn(acts) < TWO_TO_THE_32
    ensures PoolInv(Run(cfg, l, acts).store, total + GeneratedIn(acts))
    ensures |Run(cfg, l, acts).store.preKeys| == |l.store.preKeys| + GeneratedIn(acts) - ConsumedIn(cfg, l, acts)
    ensures forall id :: id in Run(cfg, l, acts).store.preKeys ==>
              id > total || (id in l.store.preKeys && Run(cfg, l, acts).store.preKeys[id] == l.store.preKeys[id])
  {
    hide Apply, Consumes, PoolInv;
    if acts != [] {
      var init, a := acts[..|acts| - 1], acts[|acts| - 1];
      RunPool(cfg, l, init, total);
      StepPool(cfg, Run(cfg, l, init), a, total + GeneratedIn(init));
    }
  }

  /** Pool arithmetic: after any run the pool has 100 + generated - consumed records; the top-up signal
      fires exactly when 75 more were consumed than generated. */
  lemma PoolArithmetic(cfg: Config, l: Local, acts: seq<Action>)
    requires FreshDevice(cfg, l)
    requires DEFAULT_PRE_KEY_COUNT + GeneratedIn(acts) < TWO_TO_THE_32
    ensures var s := Run(cfg, l, acts).store;
            && |s.preKeys| == DEFAULT_PRE_KEY_COUNT + GeneratedIn(acts) - ConsumedIn(cfg, l, acts)
            && (|s.preKeys| <= MIN_PRE_KEY_COUNT <==> ConsumedIn(cfg, l, acts) - GeneratedIn(acts) >= 75)
            && (forall id :: id in s.preKeys ==> s.preKeys[id].id == id && Paired(s.preKeys[id]))
  {
    hide PoolInv, Run, ConsumedIn, GeneratedIn, FreshDevice, Paired;
    InitialPool(cfg, l);
    RunPool(cfg, l, acts, DEFAULT_PRE_KEY_COUNT);
    PooledRecords(Run(cfg, l, acts).store, DEFAULT_PRE_KEY_COUNT + GeneratedIn(acts));
  }

  lemma PooledRecords(s: StoreState, total: nat)
    requires PoolInv(s, total)
    ensures forall id :: id in s.preKeys ==> s.preKeys[id].id == id && Paired(s.preKeys[id])
  {
  }

  /** A bundle lists the ID of every live record, once, with that record's public half. */
  lemma BundleAdvertisesPool(cfg: Config, s: StoreState, b: Bundle)
    requires IsBundle(cfg, s, b)
    ensures (set i | 0 <= i < |b.preKeys| :: b.preKeys[i].id) == s.preKeys.Keys
    ensures forall i :: 0 <= i < |b.preKeys| ==> s.preKeys[b.preKeys[i].id].pub == b.preKeys[i].pub
  {
    var ids := seq(|b.preKeys|, i requires 0 <= i < |b.preKeys| => b.preKeys[i].id);
    DistinctCover(ids, s.preKeys.Keys);
    forall id | id in s.preKeys ensures exists i :: 0 <= i < |b.preKeys| && b.preKeys[i].id == id {
      assert id in ids;
      var i :| 0 <= i < |ids| && ids[i] == id;
      assert b.preKeys[i].id == id;
    }
  }

  /** As many distinct members as the set has: they are all of it. */
  lemma {:induction false} DistinctCover(ids: seq<U32>, all: set<U32>)
    requires |ids| == |all|
    requires forall i :: 0 <= i < |ids| ==> ids[i] in all
    requires forall i, j :: 0 <= i < j < |ids| ==> ids[i] != ids[j]
    ensures forall x :: x in all ==> x in ids
  {
    if ids != [] {
      var n := |ids| - 1;
      DistinctCover(ids[..n], all - {ids[n]});
      forall x | x in all ensures x in ids { assert x == ids[n] || x in ids[..n]; }
    }
  }

  /** Wrapping is real: at the 2^32nd allocation the ID is 0 and the next one is 1 again, so filing a
      new record under it overwrites a live record 1. */
  lemma WrappedAllocationOverwrites(s: StoreState, rnd: nat)
    requires s.nextPreKeyID == TWO_TO_THE_32 - 1
    requires 1 in s.preKeys && s.preKeys[1].pub != Pub(rnd + 1)
    ensures Generated(s, 2, rnd).preKeys[1] != s.preKeys[1]
  {
    var recs := NewPreKeys(s.nextPreKeyID, 2, rnd);
    assert recs[0].id == 0 && recs[1].id == 1;
    FiledContents(s.preKeys, recs);
  }

  /** Filing, whatever IDs repeat: an ID of the batch holds some record of the batch, others are untouched. */
  lemma {:induction false} FiledOrKept(pool: map<U32, PreKeyRecord>, recs: seq<PreKeyRecord>, id: U32)
    ensures if exists i :: 0 <= i < |recs| && recs[i].id == id then id in Filed(pool, recs)
            && Filed(pool, recs)[id] in recs
            else Lookup(Filed(pool, recs), id) == Lookup(pool, id)
  {
    if recs != [] {
      var n := |recs| - 1;
      FiledOrKept(pool, recs[..n], id);
      if i :| 0 <= i < |recs| && recs[i].id == id {
        if i < n { assert recs[..n][i].id == id; }
      } else {
        forall i | 0 <= i < n ensures recs[..n][i].id != id { assert recs[i].id != id; }
      }
    }
  }

  /** The `i`-th ID allocated from a watermark on. */
  function AllocatedID(watermark: U32, i: nat): U32 {
    WrapAdd(watermark, i + 1)
  }

  /** Exactly when a generation overwrites nothing, at any watermark and for any count: when none of the IDs it
      will allocate, wrapping included, is live. */
  lemma GenerationKeepsIff(s: StoreState, n: nat, rnd: nat)
    requires forall id :: id in s.preKeys && s.preKeys[id].pub.Pub? ==> s.preKeys[id].pub.n < rnd
    ensures (forall id :: id in s.preKeys ==>
               id in Generated(s, n, rnd).preKeys && Generated(s, n, rnd).preKeys[id] == s.preKeys[id])
            <==> (forall i :: 0 <= i < n ==> AllocatedID(s.nextPreKeyID, i) !in s.preKeys)
  {
    hide Filed;
    var recs := NewPreKeys(s.nextPreKeyID, n, rnd);
    assert forall i :: 0 <= i < n ==> recs[i].id == AllocatedID(s.nextPreKeyID, i) && recs[i].pub == Pub(rnd + i);
    hide WrapAdd, NewPreKeys, AllocatedID;
    forall id | id in s.preKeys
      ensures Lookup(Filed(s.preKeys, recs), id) == Some(s.preKeys[id])
              <==> forall i :: 0 <= i < n ==> AllocatedID(s.nextPreKeyID, i) != id
    {
      FiledOrKept(s.preKeys, recs, id);
      if i :| 0 <= i < n && AllocatedID(s.nextPreKeyID, i) == id { assert recs[i].id == id; }
    }
    if i :| 0 <= i < n && AllocatedID(s.nextPreKeyID, i) in s.preKeys {
      var id := AllocatedID(s.nextPreKeyID, i);
      assert Lookup(Filed(s.preKeys, recs), id) != Some(s.preKeys[id]);
    }
  }

  // ---------- redelivery ----------

  /** Once a one-time prekey is gone it never comes back, so redelivering an accepted key exchange at any
      later time fails and changes nothing. */
  lemma RedeliveryFails(cfg: Config, l: Local, msg: EncryptedMessage, acts: seq<Action>, total: nat)
    requires PoolInv(l.store, total) && total + GeneratedIn(acts) < TWO_TO_THE_32
    requires Consumes(cfg, l.store, msg)
    ensures var later := Run(cfg, Apply(cfg, l, DoDecrypt(msg)), acts).store;
            var (s', r) := DecryptMessage(cfg, later, msg);
            s' == later && r.Err?
  {
    hide DecryptMessage, Run;
    DecryptFrame(cfg, l.store, msg);
    var l1 := Apply(cfg, l, DoDecrypt(msg));
    StepPool(cfg, l, DoDecrypt(msg), total);
    RunPool(cfg, l1, acts, total);
    DecryptFrame(cfg, Run(cfg, l1, acts).store, msg);
  }

  /** A message that carried a key exchange and was accepted did consume its prekey. */
  lemma AcceptedConsumes(cfg: Config, s: StoreState, msg: EncryptedMessage)
    requires DecryptMessage(cfg, s, msg).1.Ok?
    requires var key := KeyFor(msg.keys, cfg.localDevice.id); key.Some? && key.value.keyExchange.Some?
    ensures Consumes(cfg, s, msg)
  {
    hide NewPassive, Open, LoadSession;
  }

  // ---------- the signed-prekey window ----------

  /** Every signed prekey this device has had, oldest first. */
  function SignedPreKeys(cfg: Config, l: Local, acts: seq<Action>): (h: seq<SignedPreKeyRecord>)
    ensures |h| > 0
  {
    if acts == [] then [l.store.currentSPK]
    else
      var init := acts[..|acts| - 1];
      SignedPreKeys(cfg, l, init)
      + if acts[|acts| - 1].DoRotate? then [Apply(cfg, Run(cfg, l, init), DoRotate).store.currentSPK] else []
  }

  /** The store holds exactly the last two signed prekeys, and each has its position as ID. */
  ghost predicate WindowInv(s: StoreState, h: seq<SignedPreKeyRecord>) {
    && |h| > 0
    && (forall k :: 0 <= k < |h| ==> h[k].id == k + 1 && h[k].pub != NoPub)
    && s.currentSPK == h[|h| - 1]
    && s.staleSPK == if |h| == 1 then None else Some(h[|h| - 2])
  }

  lemma {:induction false} RunWindow(cfg: Config, l: Local, acts: seq<Action>)
    requires l.store.currentSPK.id == 1 && l.store.currentSPK.pub != NoPub && l.store.staleSPK.None?
    requires |SignedPreKeys(cfg, l, acts)| < TWO_TO_THE_32
    ensures WindowInv(Run(cfg, l, acts).store, SignedPreKeys(cfg, l, acts))
  {
    hide Encrypt, DecryptMessage, Generated;
    if acts != [] {
      var init, a := acts[..|acts| - 1], acts[|acts| - 1];
      RunWindow(cfg, l, init);
      var m := Run(cfg, l, init);
      match a
      case DoEncrypt(net, jid, plaintext) => EncryptFrame(cfg, net, m.store, m.rnd, jid, plaintext);
      case DoDecrypt(msg) => DecryptFrame(cfg, m.store, msg);
      case DoGenerate(n) => GeneratedFrame(m.store, n, m.rnd);
      case _ =>
    }
  }

  /** After any run with fewer than 2^32 rotations, lookup by ID succeeds exactly for the current and the
      previous rotation and returns that rotation's record. */
  lemma SignedPreKeyWindow(cfg: Config, l: Local, acts: seq<Action>, id: U32)
    requires FreshDevice(cfg, l)
    requires |SignedPreKeys(cfg, l, acts)| < TWO_TO_THE_32
    ensures var s := Run(cfg, l, acts).store;
            var h := SignedPreKeys(cfg, l, acts);
            var found := SignedPreKeyByID(s, id);
            && (found.Ok? <==> id == |h| || (|h| >= 2 && id == |h| - 1))
            && (found.Ok? ==> found.value == h[id - 1])
            && (s.staleSPK.Some? <==> |h| >= 2)
            && (s.staleSPK.Some? ==> s.staleSPK.value.id + 1 == s.currentSPK.id)
  {
    hide Run, SignedPreKeys;
    InitialPool(cfg, l);
    RunWindow(cfg, l, acts);
  }

  /** The bound is needed: the rotation after ID 2^32 - 1 is numbered 0. */
  lemma RotationWraps(cfg: Config, s: StoreState, rnd: nat)
    requires s.currentSPK.pub != NoPub
    ensures var s' := RotatedSigned(cfg.identityKey, s, rnd);
            s'.staleSPK.Some? && (s'.staleSPK.value.id + 1 == s'.currentSPK.id
                <==> s.currentSPK.id != TWO_TO_THE_32 - 1)
  {
  }
}
