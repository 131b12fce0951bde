/** One-time prekeys in the interleaving model: no ID is ever lost, duplicated, overwritten or revived, and
    each backs at most one session. */
module Conservation {
  import opened Basics
  import opened Types
  import opened Signal
  import opened StoreModel
  import opened ManagerSpec
  import opened Runs
  import opened Sections
  import opened Interleaving
  import opened PreKeys
  import opened Serial

  /** IDs a generator has been given and has not filed yet. */
  function InFlight(th: Thread): set<U32> {
    if th.Gen? then IDs(th.recs) else {}
  }

  /** Every record ever issued: filed under its ID, both halves of one pair, no scalar twice. */
  ghost predicate IssuedInv(st: State) {
    && (forall id :: id in st.k.issued ==> 1 <= id <= st.sh.store.nextPreKeyID
                                           && st.k.issued[id].id == id && Paired(st.k.issued[id])
                                              && st.k.issued[id].pub.n < st.sh.rnd)
    && (forall a, b :: a in st.k.issued && b in st.k.issued && a != b ==> st.k.issued[a].pub != st.k.issued[b].pub)
    && (forall id :: id in st.sh.store.preKeys ==> id in st.k.issued && st.sh.store.preKeys[id] == st.k.issued[id])
    && (forall i :: 0 <= i < |st.threads| && st.threads[i].Gen? ==> BatchOk(st, st.threads[i].recs))
  }

  /** A generator's unfiled records: issued, with distinct IDs. */
  ghost predicate BatchOk(st: State, recs: seq<PreKeyRecord>) {
    && (forall a :: 0 <= a < |recs| ==> recs[a].id in st.k.issued && st.k.issued[recs[a].id] == recs[a])
    && (forall a, b :: 0 <= a < b < |recs| ==> recs[a].id != recs[b].id)
  }

  /** The allocated IDs are the disjoint union of pool, consumed, burned and in-flight IDs. */
  ghost predicate Partition(st: State) {
    var pool, k := st.sh.store.preKeys.Keys, st.k;
    && (forall id :: id in pool || id in k.consumed || id in k.burned ==> 1 <= id <= st.sh.store.nextPreKeyID)
    && pool !! k.consumed && pool !! k.burned && k.consumed !! k.burned
    && (forall i :: 0 <= i < |st.threads| ==> FlightOk(st, i))
    && (forall i, j :: 0 <= i < j < |st.threads| ==> InFlight(st.threads[i]) !! InFlight(st.threads[j]))
    && (forall id: U32 :: 1 <= id <= st.sh.store.nextPreKeyID ==> Placed(st, id))
  }

  ghost predicate FlightOk(st: State, i: nat)
    requires i < |st.threads|
  {
    forall id :: id in InFlight(st.threads[i]) ==>
      && 1 <= id <= st.sh.store.nextPreKeyID
      && id !in st.sh.store.preKeys && id !in st.k.consumed && id !in st.k.burned
  }

  ghost predicate Placed(st: State, id: U32) {
    id in st.sh.store.preKeys || id in st.k.consumed || id in st.k.burned
    || exists i :: 0 <= i < |st.threads| && id in InFlight(st.threads[i])
  }

  /** The IDs accepted into sessions: consumed, and none twice. */
  ghost predicate AcceptedInv(k: KeyLog) {
    && (forall a :: 0 <= a < |k.accepted| ==> k.accepted[a] in k.consumed)
    && (forall a, b :: 0 <= a < b < |k.accepted| ==> k.accepted[a] != k.accepted[b])
  }

  ghost predicate PreKeyInv(st: State) {
    IssuedInv(st) && Partition(st) && AcceptedInv(st.k)
  }

  // ---------- steps outside the pool ----------

  /** A step that leaves pool, watermark and every batch alone. */
  lemma PoolUntouched(st: State, st': State)
    requires PreKeyInv(st)
    requires st'.sh.store.preKeys == st.sh.store.preKeys && st'.sh.store.nextPreKeyID == st.sh.store.nextPreKeyID
    requires st'.sh.rnd >= st.sh.rnd
    requires st'.k.issued == st.k.issued && st'.k.consumed == st.k.consumed && st'.k.burned == st.k.burned
             && st'.k.accepted == st.k.accepted
    requires |st'.threads| >= |st.threads|
    requires forall i :: 0 <= i < |st.threads| ==>
               InFlight(st'.threads[i]) == InFlight(st.threads[i])
                   && (st'.threads[i].Gen? ==> st'.threads[i] == st.threads[i])
    requires forall i :: |st.threads| <= i < |st'.threads| ==>
               InFlight(st'.threads[i]) == {} && (st'.threads[i].Gen? ==> st'.threads[i].recs == [])
    ensures PreKeyInv(st')
  {
    forall i | 0 <= i < |st'.threads| ensures FlightOk(st', i) {
      if i < |st.threads| { assert FlightOk(st, i); }
    }
    forall id: U32 | 1 <= id <= st'.sh.store.nextPreKeyID ensures Placed(st', id) {
      assert Placed(st, id);
      if i :| 0 <= i < |st.threads| && id in InFlight(st.threads[i]) { assert id in InFlight(st'.threads[i]); }
    }
    forall i | 0 <= i < |st'.threads| && st'.threads[i].Gen? ensures BatchOk(st', st'.threads[i].recs) {
      if i < |st.threads| { assert BatchOk(st, st.threads[i].recs); }
    }
  }

  /** What a section step does to the pool: nothing, or one consumption. */
  lemma SectionPool(cfg: Config, s: StoreState, rnd: nat, dev: Device, pc: PC, e: Entry, inp: Input)
    ensures var n := SectionStep(cfg, s, rnd, dev, pc, e, inp);
            && n.rnd >= rnd && n.store.nextPreKeyID == s.nextPreKeyID
            && (if pc.AtConsume? && e.DecryptEntry? && !inp.fails && pc.offer.preKeyID in s.preKeys
                then n.store.preKeys == s.preKeys - {pc.offer.preKeyID}
                     && n.entry.DecryptEntry? && n.entry.decryptOracle.preKey == Ok(s.preKeys[pc.offer.preKeyID])
                else
                  && n.store.preKeys == s.preKeys
                  && (pc.AtConsume? && e.DecryptEntry? ==>
                        n.entry.DecryptEntry? && n.entry.decryptOracle.preKey.Err?))
            && (n.entry.DecryptEntry? <==> e.DecryptEntry?)
  {
    hide BuildActive, Seal, LoadSession, PassiveFrom, Open;
    match e {
      case EncryptEntry(km, o) => SealPool(cfg, s, rnd, dev, pc, km, o, inp);
      case DecryptEntry(key, o) => OpenPool(cfg, s, rnd, dev, pc, key, o, inp);
      case ResetEntry(_) =>
    }
  }

  lemma SealPool(cfg: Config, s: StoreState, rnd: nat, dev: Device, pc: PC, km: nat, o: EncryptOracle, inp: Input)
    ensures var n := SealStep(cfg, s, rnd, dev, pc, km, o, inp);
            n.rnd >= rnd && n.store.nextPreKeyID == s.nextPreKeyID && n.store.preKeys == s.preKeys
                && n.entry.EncryptEntry?
  {
    hide BuildActive, Seal, LoadSession;
  }

  lemma OpenPool(cfg: Config, s: StoreState, rnd: nat, dev: Device, pc: PC, key: RecipientKey, o: DecryptOracle,
          inp: Input)
    ensures var n := OpenStep(cfg, s, rnd, dev, pc, key, o, inp);
            && n.rnd == rnd && n.store.nextPreKeyID == s.nextPreKeyID && n.entry.DecryptEntry?
            && (if pc.AtConsume? && !inp.fails && pc.offer.preKeyID in s.preKeys
                then n.store.preKeys == s.preKeys - {pc.offer.preKeyID}
                     && n.entry.decryptOracle.preKey == Ok(s.preKeys[pc.offer.preKeyID])
                else n.store.preKeys == s.preKeys && (pc.AtConsume? ==> n.entry.decryptOracle.preKey.Err?))
  {
    hide PassiveFrom, Open, LoadSession;
  }

  // ---------- the four pool operations ----------

  lemma ConsumeKeeps(cfg: Config, st: State, t: Tid, inp: Input)
    requires PreKeyInv(st) && Enabled(st, t) && st.threads[t].In? && !st.threads[t].pc.AtUnlock?
    ensures PreKeyInv(Advance(cfg, st, t, inp))
  {
    hide SectionStep, TagOf;
    var th, st' := st.threads[t], Advance(cfg, st, t, inp);
    SectionPool(cfg, st.sh.store, st.sh.rnd, th.jobs[0].dev, th.pc, th.entry, inp);
    if th.pc.AtConsume? && th.entry.DecryptEntry? && !inp.fails && th.pc.offer.preKeyID in st.sh.store.preKeys {
      var id := th.pc.offer.preKeyID;
      assert st'.k.consumed == st.k.consumed + {id};
      assert st'.k.accepted == st.k.accepted || st'.k.accepted == st.k.accepted + [id];
      assert id !in st.k.consumed;
      assert st'.sh.store.preKeys.Keys == st.sh.store.preKeys.Keys - {id};
      hide Noted;
      ConsumptionKeeps(st, st', id);
    } else {
      PoolUntouched(st, st');
    }
  }

  lemma ConsumptionKeeps(st: State, st': State, id: U32)
    requires PreKeyInv(st) && id in st.sh.store.preKeys
    requires st'.sh.store.preKeys == st.sh.store.preKeys - {id} && st'.sh.store.nextPreKeyID == st.sh.store.nextPreKeyID
    requires st'.sh.rnd >= st.sh.rnd && st'.k.issued == st.k.issued && st'.k.burned == st.k.burned
    requires st'.k.consumed == st.k.consumed + {id}
    requires st'.k.accepted == st.k.accepted || st'.k.accepted == st.k.accepted + [id]
    requires |st'.threads| == |st.threads|
    requires forall i :: 0 <= i < |st.threads| ==>
               InFlight(st'.threads[i]) == InFlight(st.threads[i])
                   && (st'.threads[i].Gen? ==> st'.threads[i] == st.threads[i])
    ensures PreKeyInv(st')
  {
    forall i | 0 <= i < |st'.threads| ensures FlightOk(st', i) { assert FlightOk(st, i); }
    forall x: U32 | 1 <= x <= st'.sh.store.nextPreKeyID ensures Placed(st', x) {
      assert Placed(st, x);
      if i :| 0 <= i < |st.threads| && x in InFlight(st.threads[i]) { assert x in InFlight(st'.threads[i]); }
    }
    forall i | 0 <= i < |st'.threads| && st'.threads[i].Gen? ensures BatchOk(st', st'.threads[i].recs) {
      assert BatchOk(st, st.threads[i].recs);
    }
  }

  lemma AllocateKeeps(cfg: Config, st: State, t: Tid, inp: Input)
    requires PreKeyInv(st) && Enabled(st, t) && st.threads[t].Gen?
    requires !inp.fails && st.threads[t].left > 0 && st.sh.store.nextPreKeyID < TWO_TO_THE_32 - 1
    ensures PreKeyInv(Advance(cfg, st, t, inp))
  {
    var st' := Advance(cfg, st, t, inp);
    var recs, id := st.threads[t].recs, st.sh.store.nextPreKeyID + 1;
    assert WrapAdd(st.sh.store.nextPreKeyID, 1) == id;
    var rec := PreKeyRecord(id, Pub(st.sh.rnd), Priv(st.sh.rnd));
    assert st'.threads[t] == Gen(st.threads[t].left - 1, recs + [rec]);
    GrownBatch(recs, rec);
    assert InFlight(st'.threads[t]) == InFlight(st.threads[t]) + {id};
    hide IDs;
    AllocationKeeps(st, st', t, rec);
  }

  lemma AllocationKeeps(st: State, st': State, t: Tid, rec: PreKeyRecord)
    requires PreKeyInv(st) && t < |st.threads| && st.threads[t].Gen?
    requires rec.id == st.sh.store.nextPreKeyID + 1 && Paired(rec) && rec.pub.n == st.sh.rnd && st'.sh.rnd > st.sh.rnd
    requires st'.sh.store.preKeys == st.sh.store.preKeys && st'.sh.store.nextPreKeyID == rec.id
    requires st'.k == st.k.(issued := st.k.issued[rec.id := rec])
    requires |st'.threads| == |st.threads|
    requires forall i :: 0 <= i < |st.threads| && i != t ==> st'.threads[i] == st.threads[i]
    requires st'.threads[t].Gen? && st'.threads[t].recs == st.threads[t].recs + [rec]
    requires InFlight(st'.threads[t]) == InFlight(st.threads[t]) + {rec.id}
    ensures PreKeyInv(st')
  {
    hide IDs, InFlight;
    AllocationIssued(st, st', t, rec);
    AllocationPartition(st, st', t, rec.id);
  }

  lemma AllocationIssued(st: State, st': State, t: Tid, rec: PreKeyRecord)
    requires IssuedInv(st) && t < |st.threads| && st.threads[t].Gen?
    requires rec.id == st.sh.store.nextPreKeyID + 1 && Paired(rec) && rec.pub.n == st.sh.rnd && st'.sh.rnd > st.sh.rnd
    requires st'.sh.store.preKeys == st.sh.store.preKeys && st'.sh.store.nextPreKeyID == rec.id
    requires st'.k.issued == st.k.issued[rec.id := rec]
    requires |st'.threads| == |st.threads|
    requires forall i :: 0 <= i < |st.threads| && i != t ==> st'.threads[i] == st.threads[i]
    requires st'.threads[t].Gen? && st'.threads[t].recs == st.threads[t].recs + [rec]
    ensures IssuedInv(st')
  {
    forall i | 0 <= i < |st'.threads| && st'.threads[i].Gen? ensures BatchOk(st', st'.threads[i].recs) {
      assert st.threads[i].Gen? && BatchOk(st, st.threads[i].recs);
      if i == t {
        GrownBatchOk(st, st', st.threads[t].recs, rec);
      } else {
        SameBatchOk(st, st', st.threads[i].recs, rec);
      }
    }
    hide BatchOk, Paired;
    forall a, b | a in st'.k.issued && b in st'.k.issued && a != b ensures st'.k.issued[a].pub != st'.k.issued[b].pub {
      PairedHasPub(rec);
      if b == rec.id { PairedHasPub(st.k.issued[a]); }
      if a == rec.id { PairedHasPub(st.k.issued[b]); }
    }
  }

  lemma PairedHasPub(rec: PreKeyRecord)
    requires Paired(rec)
    ensures rec.pub.Pub?
  {
  }

  lemma GrownBatchOk(st: State, st': State, recs: seq<PreKeyRecord>, rec: PreKeyRecord)
    requires BatchOk(st, recs) && rec.id !in st.k.issued && st'.k.issued == st.k.issued[rec.id := rec]
    ensures BatchOk(st', recs + [rec])
  {
  }

  lemma SameBatchOk(st: State, st': State, recs: seq<PreKeyRecord>, rec: PreKeyRecord)
    requires BatchOk(st, recs) && rec.id !in st.k.issued && st'.k.issued == st.k.issued[rec.id := rec]
    ensures BatchOk(st', recs)
  {
  }

  lemma AllocationPartition(st: State, st': State, t: Tid, id: U32)
    requires Partition(st) && t < |st.threads| && id == st.sh.store.nextPreKeyID + 1
    requires st'.sh.store.preKeys == st.sh.store.preKeys && st'.sh.store.nextPreKeyID == id
    requires st'.k.consumed == st.k.consumed && st'.k.burned == st.k.burned && |st'.threads| == |st.threads|
    requires forall i :: 0 <= i < |st.threads| && i != t ==> st'.threads[i] == st.threads[i]
    requires InFlight(st'.threads[t]) == InFlight(st.threads[t]) + {id}
    ensures Partition(st')
  {
    hide InFlight;
    forall i | 0 <= i < |st'.threads| ensures FlightOk(st', i) { assert FlightOk(st, i); }
    forall i, j | 0 <= i < j < |st'.threads| ensures InFlight(st'.threads[i]) !! InFlight(st'.threads[j]) {
      assert FlightOk(st, i) && FlightOk(st, j);
      assert id !in InFlight(st.threads[i]) && id !in InFlight(st.threads[j]);
    }
    forall x: U32 | 1 <= x <= id ensures Placed(st', x) {
      if x == id {
        assert id in InFlight(st'.threads[t]);
      } else {
        assert Placed(st, x);
        if i :| 0 <= i < |st.threads| && x in InFlight(st.threads[i]) { assert x in InFlight(st'.threads[i]); }
      }
    }
  }

  lemma GrownBatch(recs: seq<PreKeyRecord>, rec: PreKeyRecord)
    ensures IDs(recs + [rec]) == IDs(recs) + {rec.id}
  {
    var all := recs + [rec];
    forall x | x in IDs(recs) ensures x in IDs(all) {
      var i :| 0 <= i < |recs| && recs[i].id == x;
      assert all[i].id == x;
    }
    assert all[|recs|].id == rec.id;
  }

  lemma AbortKeeps(cfg: Config, st: State, t: Tid, inp: Input)
    requires PreKeyInv(st) && Enabled(st, t) && st.threads[t].Gen? && inp.fails
    ensures PreKeyInv(Advance(cfg, st, t, inp))
  {
    var st' := Advance(cfg, st, t, inp);
    assert FlightOk(st, t);
    assert InFlight(st'.threads[t]) == {};
    forall i | 0 <= i < |st'.threads| ensures FlightOk(st', i) {
      assert FlightOk(st, i);
      if i < t { assert InFlight(st.threads[i]) !! InFlight(st.threads[t]); }
      if i > t { assert InFlight(st.threads[t]) !! InFlight(st.threads[i]); }
    }
    forall x: U32 | 1 <= x <= st'.sh.store.nextPreKeyID ensures Placed(st', x) {
      assert Placed(st, x);
      if i :| 0 <= i < |st.threads| && x in InFlight(st.threads[i]) {
        if i != t { assert x in InFlight(st'.threads[i]); }
      }
    }
    forall i | 0 <= i < |st'.threads| && st'.threads[i].Gen? ensures BatchOk(st', st'.threads[i].recs) {
      assert BatchOk(st, st.threads[i].recs);
    }
  }

  /** Filing a batch: no live record is overwritten, no consumed ID comes back, exactly the batch is added. */
  lemma FilingIsSafe(cfg: Config, st: State, t: Tid, inp: Input)
    requires PreKeyInv(st) && Enabled(st, t) && st.threads[t].Gen? && !inp.fails && st.threads[t].left == 0
    ensures var pool, pool' := st.sh.store.preKeys, Advance(cfg, st, t, inp).sh.store.preKeys;
            && (forall id :: id in pool ==> id in pool' && pool'[id] == pool[id])
            && pool'.Keys == pool.Keys + InFlight(st.threads[t])
            && InFlight(st.threads[t]) !! pool.Keys
            && (forall id :: id in pool' ==> id !in st.k.consumed)
            && (forall id :: id in InFlight(st.threads[t]) ==> pool'[id] == st.k.issued[id])
  {
    var recs := st.threads[t].recs;
    assert FlightOk(st, t) && BatchOk(st, recs);
    FiledContents(st.sh.store.preKeys, recs);
    var pool' := Filed(st.sh.store.preKeys, recs);
    hide Filed;
    assert IDs(recs) == InFlight(st.threads[t]);
    forall a | 0 <= a < |recs| ensures recs[a].id in IDs(recs) {}
    forall id | id in InFlight(st.threads[t]) ensures pool'[id] == st.k.issued[id] {
      var a :| 0 <= a < |recs| && recs[a].id == id;
      assert pool'[recs[a].id] == recs[a];
    }
  }

  lemma FileKeeps(cfg: Config, st: State, t: Tid, inp: Input)
    requires PreKeyInv(st) && Enabled(st, t) && st.threads[t].Gen? && !inp.fails && st.threads[t].left == 0
    ensures PreKeyInv(Advance(cfg, st, t, inp))
  {
    hide Filed, IDs;
    FilingIsSafe(cfg, st, t, inp);
    var st' := Advance(cfg, st, t, inp);
    assert FlightOk(st, t);
    assert InFlight(st'.threads[t]) == {};
    forall i | 0 <= i < |st'.threads| ensures FlightOk(st', i) {
      assert FlightOk(st, i);
      if i < t { assert InFlight(st.threads[i]) !! InFlight(st.threads[t]); }
      if i > t { assert InFlight(st.threads[t]) !! InFlight(st.threads[i]); }
    }
    forall x: U32 | 1 <= x <= st'.sh.store.nextPreKeyID ensures Placed(st', x) {
      assert Placed(st, x);
      if i :| 0 <= i < |st.threads| && x in InFlight(st.threads[i]) {
        if i != t { assert x in InFlight(st'.threads[i]); }
      }
    }
    forall i | 0 <= i < |st'.threads| && st'.threads[i].Gen? ensures BatchOk(st', st'.threads[i].recs) {
      assert BatchOk(st, st.threads[i].recs);
    }
    forall id | id in st'.sh.store.preKeys ensures id in st'.k.issued && st'.sh.store.preKeys[id] == st'.k.issued[id] {
      if id !in st.sh.store.preKeys { InFlightIssued(st, t, id); }
    }
  }

  lemma InFlightIssued(st: State, t: Tid, id: U32)
    requires IssuedInv(st) && t < |st.threads| && id in InFlight(st.threads[t])
    ensures id in st.k.issued
  {
    assert BatchOk(st, st.threads[t].recs);
  }

  // ---------- over runs ----------

  lemma StepKeeps(cfg: Config, st: State, ev: Event)
    requires PreKeyInv(st) && Possible(st, ev)
    ensures PreKeyInv(After(cfg, st, ev))
  {
    hide PreKeyInv, SectionStep, Noted, StartPC, StartEntry, Filed;
    var st' := After(cfg, st, ev);
    match ev {
      case Arrive(thread) => PoolUntouched(st, st');
      case Background(sh) => PoolUntouched(st, st');
      case ThreadStep(t, inp) =>
        match st.threads[t] {
          case Next(_) => PoolUntouched(st, st');
          case Want(_, _) => PoolUntouched(st, st');
          case In(pc, _, _) => if pc.AtUnlock? { PoolUntouched(st, st'); } else { ConsumeKeeps(cfg, st, t, inp); }
          case Gen(left, _) =>
            if inp.fails { AbortKeeps(cfg, st, t, inp); }
            else if left == 0 { FileKeeps(cfg, st, t, inp); }
            else { AllocateKeeps(cfg, st, t, inp); }
        }
    }
  }

  /** A device fresh from InitIdentity: its pool is what was issued, nothing consumed. */
  ghost predicate FreshPool(st: State) {
    && Quiet(st) && PoolInv(st.sh.store, |st.sh.store.preKeys|)
    && st.k.issued == st.sh.store.preKeys && st.k.consumed == {} && st.k.claimed == {}
    && st.sh.store.sessions == map[]
    && (forall id :: id in st.sh.store.preKeys ==> st.sh.store.preKeys[id].pub.n < st.sh.rnd)
    && (forall a, b :: a in st.sh.store.preKeys && b in st.sh.store.preKeys && a != b ==>
       st.sh.store.preKeys[a].pub != st.sh.store.preKeys[b].pub)
  }

  /** The interleaving state of a store no call has touched yet. */
  function Start(l: Local): State {
    State(Memory(l.store, map[], map[], l.rnd), [], History(map[], map[], map[], map[], map[]),
          KeyLog([], {}, l.store.preKeys, {}, [], {}))
  }

  lemma FreshDeviceStarts(cfg: Config, l: Local)
    requires FreshDevice(cfg, l)
    ensures FreshPool(Start(l))
  {
    InitialPool(cfg, l);
    InitialRecords(cfg, l);
    assert l.store.sessions == map[] by { hide Filed, NewPreKeys; }
  }

  lemma FreshPoolOk(st: State)
    requires FreshPool(st)
    ensures PreKeyInv(st)
  {
    var pool, n := st.sh.store.preKeys.Keys, |st.sh.store.preKeys|;
    assert |pool| == n;
    forall id: U32 | 1 <= id <= n ensures id in pool { Pigeonhole(pool, n, id); }
    forall id: U32 | 1 <= id <= n ensures Placed(st, id) {}
  }

  /** `n` distinct numbers in 1..n are all of them. */
  lemma {:induction false} Pigeonhole(s: set<U32>, n: nat, x: U32)
    requires |s| == n && 1 <= x <= n && forall y :: y in s ==> 1 <= y <= n
    ensures x in s
  {
    if x !in s {
      AtMost(s + {x}, n);
    }
  }

  lemma {:induction false} AtMost(s: set<U32>, n: nat)
    requires forall y :: y in s ==> 1 <= y <= n
    ensures |s| <= n
  {
    if n == 0 {
      if y :| y in s { assert false; }
      assert s == {};
    } else {
      var rest := s - {n};
      AtMost(rest, n - 1);
    }
  }

  lemma {:induction false} PreKeysConserved(cfg: Config, st0: State, evs: seq<Event>)
    requires PreKeyInv(st0) && Exec(cfg, st0, evs).Some?
    ensures PreKeyInv(Exec(cfg, st0, evs).value)
  {
    hide PreKeyInv, Possible, After;
    if evs != [] {
      PreKeysConserved(cfg, st0, evs[..|evs| - 1]);
      StepKeeps(cfg, Exec(cfg, st0, evs[..|evs| - 1]).value, evs[|evs| - 1]);
    }
  }

  /** Conservation in every interleaving below 2^32 allocations: the IDs 1..watermark are the disjoint union
      of pool, consumed, burned and in-flight; generators hold disjoint IDs. */
  lemma Conserved(cfg: Config, st0: State, evs: seq<Event>, id: U32)
    requires FreshPool(st0) && Exec(cfg, st0, evs).Some?
    ensures var st := Exec(cfg, st0, evs).value;
            var pool, k := st.sh.store.preKeys, st.k;
            var flying := exists i :: 0 <= i < |st.threads| && id in InFlight(st.threads[i]);
            && (1 <= id <= st.sh.store.nextPreKeyID <==> id in pool || id in k.consumed || id in k.burned || flying)
            && !(id in pool && id in k.consumed) && !(id in pool && id in k.burned)
               && !(id in k.consumed && id in k.burned)
            && !(flying && (id in pool || id in k.consumed || id in k.burned))
            && (forall i, j :: 0 <= i < j < |st.threads| && id in InFlight(st.threads[i]) ==>
               id !in InFlight(st.threads[j]))
  {
    hide Exec;
    FreshPoolOk(st0);
    PreKeysConserved(cfg, st0, evs);
    var st := Exec(cfg, st0, evs).value;
    if 1 <= id <= st.sh.store.nextPreKeyID { assert Placed(st, id); }
    if i :| 0 <= i < |st.threads| && id in InFlight(st.threads[i]) { assert FlightOk(st, i); }
    forall i, j | 0 <= i < j < |st.threads| && id in InFlight(st.threads[i]) ensures id !in InFlight(st.threads[j]) {
      assert InFlight(st.threads[i]) !! InFlight(st.threads[j]);
    }
  }

  /** At-most-once acceptance: in every interleaving, with any senders, duplicates and reordering, each
      one-time prekey ID backs at most one passive session, and it is gone from the pool for good. */
  lemma AcceptedAtMostOnce(cfg: Config, st0: State, evs: seq<Event>)
    requires FreshPool(st0) && Exec(cfg, st0, evs).Some?
    ensures var st := Exec(cfg, st0, evs).value;
            && (forall a, b :: 0 <= a < b < |st.k.accepted| ==> st.k.accepted[a] != st.k.accepted[b])
            && (forall a :: 0 <= a < |st.k.accepted| ==> st.k.accepted[a] !in st.sh.store.preKeys)
  {
    hide Exec;
    FreshPoolOk(st0);
    PreKeysConserved(cfg, st0, evs);
  }

  /** Redelivery in any interleaving: a key exchange naming an already consumed prekey fails at its
      ConsumePreKey call, and neither that call nor the lookups before it change the store. */
  lemma RedeliveryRejected(cfg: Config, st0: State, evs: seq<Event>, t: Tid, inp: Input)
    requires FreshPool(st0) && Exec(cfg, st0, evs).Some?
    requires var st := Exec(cfg, st0, evs).value;
             Enabled(st, t) && st.threads[t].In?
             && (st.threads[t].pc.AtConsume? || st.threads[t].pc.AtCurrentSPK? || st.threads[t].pc.AtStaleSPK?)
             && st.threads[t].pc.offer.preKeyID in st.k.consumed
    ensures var st := Exec(cfg, st0, evs).value;
            var st' := Advance(cfg, st, t, inp);
            && st'.sh.store == st.sh.store && st'.k == st.k
            && st'.threads[t].In?
            && (st'.threads[t].pc.AtUnlock?
               || (!st.threads[t].pc.AtConsume? && (st'.threads[t].pc.AtConsume? || st'.threads[t].pc.AtStaleSPK?)
                                                && st'.threads[t].pc.offer == st.threads[t].pc.offer))
            && (st'.threads[t].pc.AtUnlock? ==>
               st'.threads[t].pc.out.MaterialOut? && st'.threads[t].pc.out.material.Err?)
  {
    hide Exec, OpenStep, PreKeyInv, Inv, ThreadLocks, LockInv;
    var st := Exec(cfg, st0, evs).value;
    var th := st.threads[t];
    ConsumedIsGone(cfg, st0, evs, th.pc.offer.preKeyID);
    ReadingAnExchange(cfg, st0, evs, t);
    RejectedStep(cfg, st.sh.store, st.sh.rnd, th.jobs[0].dev, th.pc, th.entry.key, th.entry.decryptOracle, inp);
  }

  lemma ConsumedIsGone(cfg: Config, st0: State, evs: seq<Event>, id: U32)
    requires FreshPool(st0) && Exec(cfg, st0, evs).Some? && id in Exec(cfg, st0, evs).value.k.consumed
    ensures id !in Exec(cfg, st0, evs).value.sh.store.preKeys
  {
    hide Exec;
    FreshPoolOk(st0);
    PreKeysConserved(cfg, st0, evs);
  }

  /** Only a decrypting thread is ever at the prekey calls. */
  lemma ReadingAnExchange(cfg: Config, st0: State, evs: seq<Event>, t: Tid)
    requires Quiet(st0) && Exec(cfg, st0, evs).Some?
    requires var st := Exec(cfg, st0, evs).value;
             t < |st.threads| && st.threads[t].In?
             && (st.threads[t].pc.AtConsume? || st.threads[t].pc.AtCurrentSPK? || st.threads[t].pc.AtStaleSPK?)
    ensures Exec(cfg, st0, evs).value.threads[t].entry.DecryptEntry?
  {
    hide Exec, Replay, PcOk, EntryFor;
    InvOverRuns(cfg, st0, evs);
    var st := Exec(cfg, st0, evs).value;
    var th := st.threads[t];
    assert ThreadLocks(st, t);
    var d := th.jobs[0].dev;
    assert DeviceInv(cfg, st0.sh.store, st, d);
    ReadingPC(cfg, d, SerialView(cfg, st0.sh.store, st, d), th.pc, th.entry, ViewOf(st.sh.store, d));
  }

  lemma ReadingPC(cfg: Config, dev: Device, v0: View, pc: PC, e: Entry, v: View)
    requires PcOk(cfg, dev, v0, pc, e, v) && (pc.AtConsume? || pc.AtCurrentSPK? || pc.AtStaleSPK?)
    ensures e.DecryptEntry?
  {
  }

  lemma RejectedStep(cfg: Config, s: StoreState, rnd: nat, dev: Device, pc: PC, key: RecipientKey, o: DecryptOracle,
          inp: Input)
    requires (pc.AtConsume? || pc.AtCurrentSPK? || pc.AtStaleSPK?) && pc.offer.preKeyID !in s.preKeys
    ensures var n := OpenStep(cfg, s, rnd, dev, pc, key, o, inp);
            && n.store == s && n.rnd == rnd
            && ((n.pc.AtUnlock? && n.pc.out.MaterialOut? && n.pc.out.material.Err?)
                || (!pc.AtConsume? && (n.pc.AtConsume? || n.pc.AtStaleSPK?) && n.pc.offer == pc.offer))
            && (pc.AtConsume? ==> n.entry.DecryptEntry? && n.entry.decryptOracle.preKey.Err?)
  {
  }
}
