/** The contents of memstore.Store as a value, with the effect of each call that is more than a field update. */
module StoreModel {
  import opened Basics
  import opened Types
  import opened Signal

  datatype StoreState = StoreState(
    identityKey: PrivKey,
    localDevice: Device,
    currentSPK: SignedPreKeyRecord,
    staleSPK: Option<SignedPreKeyRecord>,
    preKeys: map<U32, PreKeyRecord>,
    nextPreKeyID: U32,
    sessions: map<Device, Blob>,
    trust: map<PubKey, TrustState>,
    devices: map<string, seq<U32>>,
    remoteID: map<Device, PubKey>)

  const EmptyStore: StoreState :=
    StoreState(NoPriv, Device("", 0), SignedPreKeyRecord(0, NoPub, NoPriv, NoSig), None,
               map[], 0, map[], map[], map[], map[])

  /** Every record is filed under its own ID. */
  ghost predicate PoolKeyed(pool: map<U32, PreKeyRecord>) {
    forall id :: id in pool ==> pool[id].id == id
  }

  /** `recs` lists the pool: each live record once, in some order. */
  ghost predicate Lists(pool: map<U32, PreKeyRecord>, recs: seq<PreKeyRecord>) {
    && |recs| == |pool|
    && (forall i :: 0 <= i < |recs| ==> recs[i].id in pool && pool[recs[i].id] == recs[i])
    && (forall i, j :: 0 <= i < j < |recs| ==> recs[i].id != recs[j].id)
  }

  /** The map after filing `recs` in order. */
  function Filed(pool: map<U32, PreKeyRecord>, recs: seq<PreKeyRecord>): map<U32, PreKeyRecord> {
    if recs == [] then pool
    else var last := recs[|recs| - 1]; Filed(pool, recs[..|recs| - 1])[last.id := last]
  }

  function TrustOf(s: StoreState, key: PubKey): TrustState {
    if key in s.trust then s.trust[key] else TrustUndecided
  }

  /** There is no decision on `key` on record, or the one on record is "undecided". */
  predicate Undecided(s: StoreState, key: PubKey) {
    key !in s.trust || s.trust[key] == TrustUndecided
  }

  function DevicesOf(s: StoreState, jid: string): seq<U32> {
    if jid in s.devices then s.devices[jid] else []
  }

  function Rotated(s: StoreState, next: SignedPreKeyRecord): StoreState {
    s.(staleSPK := if s.currentSPK.pub != NoPub then Some(s.currentSPK) else s.staleSPK, currentSPK := next)
  }

  function Consumed(s: StoreState, id: U32): (StoreState, Result<PreKeyRecord, Error>) {
    if id in s.preKeys then (s.(preKeys := s.preKeys - {id}), Ok(s.preKeys[id])) else (s, Err(PreKeyNotFound))
  }

  lemma {:induction false} FiledKeyed(pool: map<U32, PreKeyRecord>, recs: seq<PreKeyRecord>)
    requires PoolKeyed(pool)
    ensures PoolKeyed(Filed(pool, recs))
  {
    if recs != [] { FiledKeyed(pool, recs[..|recs| - 1]); }
  }

  /** Filing records with distinct IDs: new IDs hold exactly these records, other IDs are untouched. */
  lemma {:induction false} FiledContents(pool: map<U32, PreKeyRecord>, recs: seq<PreKeyRecord>)
    requires forall i, j :: 0 <= i < j < |recs| ==> recs[i].id != recs[j].id
    ensures Filed(pool, recs).Keys == pool.Keys + set i | 0 <= i < |recs| :: recs[i].id
    ensures forall i :: 0 <= i < |recs| ==> Filed(pool, recs)[recs[i].id] == recs[i]
    ensures forall id :: id in pool && (forall i :: 0 <= i < |recs| ==> recs[i].id != id) ==>
            Filed(pool, recs)[id] == pool[id]
  {
    hide Filed;
    FiledIDs(pool, recs);
    forall i | 0 <= i < |recs| ensures Filed(pool, recs)[recs[i].id] == recs[i] { FiledNew(pool, recs, i); }
    forall id | id in pool && (forall i :: 0 <= i < |recs| ==> recs[i].id != id)
      ensures Filed(pool, recs)[id] == pool[id]
    {
      FiledOld(pool, recs, id);
    }
  }

  lemma {:induction false} FiledIDs(pool: map<U32, PreKeyRecord>, recs: seq<PreKeyRecord>)
    ensures Filed(pool, recs).Keys == pool.Keys + set i | 0 <= i < |recs| :: recs[i].id
  {
    if recs != [] {
      var init, last := recs[..|recs| - 1], recs[|recs| - 1];
      FiledIDs(pool, init);
      assert (set i | 0 <= i < |recs| :: recs[i].id) == (set i | 0 <= i < |init| :: init[i].id) + {last.id};
    }
  }

  lemma {:induction false} FiledNew(pool: map<U32, PreKeyRecord>, recs: seq<PreKeyRecord>, i: nat)
    requires i < |recs| && forall a, b :: 0 <= a < b < |recs| ==> recs[a].id != recs[b].id
    ensures recs[i].id in Filed(pool, recs) && Filed(pool, recs)[recs[i].id] == recs[i]
  {
    var n := |recs| - 1;
    if i < n { FiledNew(pool, recs[..n], i); }
  }

  lemma {:induction false} FiledOld(pool: map<U32, PreKeyRecord>, recs: seq<PreKeyRecord>, id: U32)
    requires id in pool && forall i :: 0 <= i < |recs| ==> recs[i].id != id
    ensures id in Filed(pool, recs) && Filed(pool, recs)[id] == pool[id]
  {
    if recs != [] {
      var init := recs[..|recs| - 1];
      assert forall i :: 0 <= i < |init| ==> init[i] == recs[i];
      FiledOld(pool, init, id);
    }
  }
}

/** memstore/memstore.go: the in-memory store, one mutable object. Its mutex makes every method one
    atomic step; the interleaving model takes that as its grain. */
module MemStore {
  import opened Basics
  import opened Types
  import opened Signal
  import opened StoreModel

  class Store {
    var identityKey: PrivKey
    var localDevice: Device
    var currentSPK: SignedPreKeyRecord
    var staleSPK: Option<SignedPreKeyRecord>
    var preKeys: map<U32, PreKeyRecord>
    var nextPreKeyID: U32
    var sessions: map<Device, Blob>
    var trust: map<PubKey, TrustState>
    var devices: map<string, seq<U32>>
    var remoteID: map<Device, PubKey>

    ghost function State(): StoreState
      reads this
    {
      StoreState(identityKey, localDevice, currentSPK, staleSPK, preKeys, nextPreKeyID, sessions, trust, devices,
          remoteID)
    }

    constructor ()
      ensures State() == EmptyStore
    {
      identityKey, localDevice := NoPriv, Device("", 0);
      currentSPK, staleSPK := SignedPreKeyRecord(0, NoPub, NoPriv, NoSig), None;
      preKeys, nextPreKeyID := map[], 0;
      sessions, trust, devices, remoteID := map[], map[], map[], map[];
    }

    method SetIdentityKeyPair(priv: PrivKey)
      modifies this
      ensures State() == old(State()).(identityKey := priv)
    {
      identityKey := priv;
    }

    method SetLocalDevice(dev: Device)
      modifies this
      ensures State() == old(State()).(localDevice := dev)
    {
      localDevice := dev;
    }

    method RotateSignedPreKey(next: SignedPreKeyRecord)
      modifies this
      ensures State() == Rotated(old(State()), next)
    {
      if currentSPK.pub != NoPub {
        staleSPK := Some(currentSPK);
      }
      currentSPK := next;
    }

    method PreKeyCount() returns (n: nat)
      ensures n == |preKeys|
    {
      n := |preKeys|;
    }

    /** Go iterates the map in no particular order. */
    method PreKeys() returns (recs: seq<PreKeyRecord>)
      requires PoolKeyed(preKeys)
      ensures Lists(preKeys, recs)
    {
      recs := [];
      var todo := preKeys;
      while todo != map[]
        invariant todo.Keys <= preKeys.Keys
        invariant |recs| + |todo| == |preKeys|
        invariant forall id :: id in todo ==> todo[id] == preKeys[id]
        invariant forall i :: 0 <= i < |recs| ==>
                  recs[i].id in preKeys && preKeys[recs[i].id] == recs[i] && recs[i].id !in todo
        invariant forall i, j :: 0 <= i < j < |recs| ==> recs[i].id != recs[j].id
        decreases |todo|
      {
        assert todo.Keys != {};
        var id :| id in todo.Keys;
        recs := recs + [todo[id]];
        assert (todo - {id}).Keys == todo.Keys - {id};
        todo := todo - {id};
      }
    }

    method NextPreKeyID() returns (id: U32)
      modifies this
      ensures id == WrapAdd(old(nextPreKeyID), 1)
      ensures State() == old(State()).(nextPreKeyID := id)
    {
      nextPreKeyID := WrapAdd(nextPreKeyID, 1);
      id := nextPreKeyID;
    }

    method PutPreKeys(recs: seq<PreKeyRecord>)
      modifies this
      ensures State() == old(State()).(preKeys := Filed(old(preKeys), recs))
    {
      var i := 0;
      while i < |recs|
        invariant 0 <= i <= |recs|
        invariant State() == old(State()).(preKeys := Filed(old(preKeys), recs[..i]))
      {
        preKeys := preKeys[recs[i].id := recs[i]];
        assert recs[..i + 1][..i] == recs[..i];
        i := i + 1;
      }
      assert recs[..|recs|] == recs;
    }

    method ConsumePreKey(id: U32) returns (r: Result<PreKeyRecord, Error>)
      modifies this
      ensures (State(), r) == Consumed(old(State()), id)
    {
      if id !in preKeys {
        return Err(PreKeyNotFound);
      }
      r := Ok(preKeys[id]);
      preKeys := preKeys - {id};
    }

    method PutSession(dev: Device, data: Blob)
      modifies this
      ensures State() == old(State()).(sessions := old(sessions)[dev := data])
    {
      sessions := sessions[dev := data];
    }

    method DeleteSession(dev: Device)
      modifies this
      ensures State() == old(State()).(sessions := old(sessions) - {dev})
    {
      sessions := sessions - {dev};
    }

    method Trust(key: PubKey) returns (t: TrustState)
      ensures t == TrustOf(State(), key)
      ensures t == TrustUndecided <==> Undecided(State(), key)
      ensures t != TrustUndecided ==> Lookup(trust, key) == Some(t)
    {
      t := if key in trust then trust[key] else TrustUndecided;
    }

    method SetTrust(key: PubKey, t: TrustState)
      modifies this
      ensures State() == old(State()).(trust := old(trust)[key := t])
    {
      trust := trust[key := t];
    }

    method Devices(jid: string) returns (ids: seq<U32>)
      ensures ids == DevicesOf(State(), jid)
      ensures if jid in devices then ids == devices[jid] else ids == []
    {
      ids := if jid in devices then devices[jid] else [];
    }

    method SetDevices(jid: string, ids: seq<U32>)
      modifies this
      ensures State() == old(State()).(devices := old(devices)[jid := ids])
    {
      devices := devices[jid := ids];
    }

    method PutRemoteIdentityKey(dev: Device, key: PubKey)
      modifies this
      ensures State() == old(State()).(remoteID := old(remoteID)[dev := key])
    {
      remoteID := remoteID[dev := key];
    }
  }
}
