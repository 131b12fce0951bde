/** Concurrent Manager calls on one device's store, as a transition system. One step is one store or
    transport call, one mutex operation or one resolver call; local computation rides along with the
    step before it. Any store call may fail, with no effect. */
module Interleaving {
  import opened Basics
  import opened Types
  import opened Signal
  import opened StoreModel
  import opened ManagerSpec
  import opened Sections

  type Tid = nat
  type LockID = nat

  /** One critical section a call has to run. EncryptMessage is a list of SealJobs, DecryptMessage one
      OpenJob, ResetSession one ResetJob. */
  datatype Job =
    | SealJob(dev: Device, keyMaterial: nat)
    | OpenJob(dev: Device, key: RecipientKey)
    | ResetJob(dev: Device)

  /** The next call a thread inside a critical section will make. */
  datatype PC =
    | AtLoad
    | AtFetch
    | AtPutRemote(identity: PubKey, sess: SessionState, newKx: KeyExchange)
    | AtLoadRemote(sess: SessionState, kx: Option<KeyExchange>)
    | AtLoadTrust(sess: SessionState, kx: Option<KeyExchange>, identity: PubKey)
    | AtResolve(sess: SessionState, kx: Option<KeyExchange>, identity: PubKey)
    | AtSetTrust(sess: SessionState, kx: Option<KeyExchange>, identity: PubKey)
    | AtPutSealed(sess: SessionState, kx: Option<KeyExchange>)
    | AtLoadIncoming
    | AtCurrentSPK(offer: KeyExchange, data: Wire)
    | AtStaleSPK(offer: KeyExchange, data: Wire)
    | AtConsume(offer: KeyExchange, data: Wire, spk: SignedPreKeyRecord)
    | AtPutPeer(offer: KeyExchange, data: Wire, sess: SessionState)
    | AtPutOpened(sess: SessionState, data: Wire)
    | AtDelete
    | AtUnlock(out: Output)

  /** `In` holds the lock of `jobs[0]`'s device and collects in `entry` what it has observed so far;
      `Gen` is generateOneTimePreKeys with the records made so far. `Next([])` has returned. */
  datatype Thread =
    | Next(jobs: seq<Job>)
    | Want(lock: LockID, jobs: seq<Job>)
    | In(pc: PC, entry: Entry, jobs: seq<Job>)
    | Gen(left: nat, recs: seq<PreKeyRecord>)

  /** What a step meets from outside: a fetched bundle, the resolver's verdict, a failing store call. */
  datatype Input = Input(bundle: Option<Bundle>, approved: bool, fails: bool)

  /** `locks` is the Manager's map; the mutex created n-th has identity n - 1. `held` says who holds one. */
  datatype Memory = Memory(store: StoreState, locks: map<Device, LockID>, held: map<LockID, Tid>, rnd: nat)

  /** Where a session's key material comes from: the initiator's ephemeral scalar or the responder's
      one-time scalar. */
  datatype Tag = Tag(role: Role, seed: nat)

  /** Per device: finished sections with their jobs and outputs, and who acquired and released its mutex, in
      order. */
  datatype History = History(log: map<Device, seq<Entry>>, jobs: map<Device, seq<Job>>, outs: map<Device, seq<Output>>,
                             acquired: map<Device, seq<Tid>>, finished: map<Device, seq<Tid>>)

  /** What became of key material: recipient keys returned, session tags claimed, prekeys issued, consumed,
      accepted into a session, and burned by an aborted generation. */
  datatype KeyLog = KeyLog(returned: seq<RecipientKey>, claimed: set<Tag>, issued: map<U32, PreKeyRecord>,
                           consumed: set<U32>, accepted: seq<U32>, burned: set<U32>)

  /** No step reads `h` or `k`. */
  datatype State = State(sh: Memory, threads: seq<Thread>, h: History, k: KeyLog)

  function At<T>(m: map<Device, seq<T>>, d: Device): seq<T> {
    if d in m then m[d] else []
  }

  function Appended<T>(m: map<Device, seq<T>>, d: Device, x: T): map<Device, seq<T>> {
    m[d := At(m, d) + [x]]
  }

  // ---------- tags and positions ----------

  function OtherOf(s: Shared, n: nat): nat {
    if s.lo == n then s.hi else s.lo
  }

  /** The initiator's ephemeral scalar of a root. */
  function BaseKey(r: Root): nat {
    if r.responder.NoPub? then 0 else OtherOf(r.dh2, r.responder.n)
  }

  function TagOf(r: Ratchet): Tag {
    RootTag(r.root, r.role)
  }

  function RootTag(root: Root, role: Role): Tag {
    Tag(role, if role == Active then BaseKey(root) else OtherOf(root.dh4, BaseKey(root)))
  }

  // ---------- one step of a critical section ----------

  function NoEncryptOracle(): EncryptOracle {
    EncryptOracle(None, 0, TrustUndecided, false, None)
  }

  function StartEntry(job: Job): Entry {
    match job
    case SealJob(_, km) => EncryptEntry(km, NoEncryptOracle())
    case OpenJob(_, key) => DecryptEntry(key, DecryptOracle(Err(UnknownSignedPreKey), Err(PreKeyNotFound), None))
    case ResetJob(_) => ResetEntry(None)
  }

  function StartPC(cfg: Config, job: Job): PC {
    match job
    case SealJob(_, _) => AtLoad
    case OpenJob(_, key) =>
      if key.keyExchange.None? then AtLoadIncoming
      else
        (match OfferedExchange(cfg, key)
         case Err(e) => AtUnlock(MaterialOut(Err(e)))
         case Ok((kx, data)) => AtCurrentSPK(kx, data))
    case ResetJob(_) => AtDelete
  }

  datatype SecState = SecState(store: StoreState, rnd: nat, pc: PC, entry: Entry)

  function SealFault(e: Entry, call: StoreCall): Entry {
    if e.EncryptEntry? then e.(encryptOracle := e.encryptOracle.(fault := Some(call))) else e
  }

  function OpenFault(e: Entry, call: StoreCall): Entry {
    if e.DecryptEntry? then e.(decryptOracle := e.decryptOracle.(fault := Some(call))) else e
  }

  const SealRefused: PC := AtUnlock(KeyOut(Err(StoreFailed)))
  const OpenRefused: PC := AtUnlock(MaterialOut(Err(StoreFailed)))

  function SealStep(cfg: Config, s: StoreState, rnd: nat, dev: Device, pc: PC, km: nat, o: EncryptOracle, inp: Input)
    : SecState
  {
    var e := EncryptEntry(km, o);
    match pc
    case AtLoad =>
      if inp.fails then SecState(s, rnd, SealRefused, SealFault(e, LoadSessionCall))
      else if dev in s.sessions then
        (match LoadSession(cfg.protocol, s.sessions[dev])
         case Err(x) => SecState(s, rnd, AtUnlock(KeyOut(Err(x))), e)
         case Ok(sess) => SecState(s, rnd, AtLoadRemote(sess, None), e))
      else SecState(s, rnd, AtFetch, e)
    case AtFetch =>
      var e' := EncryptEntry(km, o.(bundle := inp.bundle, ek := rnd));
      if inp.bundle.None? then SecState(s, rnd + 1, AtUnlock(KeyOut(Err(BundleUnavailable))), e')
      else
        (match BuildActive(cfg, inp.bundle.value, rnd)
         case Err(x) => SecState(s, rnd + 1, AtUnlock(KeyOut(Err(x))), e')
         case Ok((sess, kx)) => SecState(s, rnd + 1, AtPutRemote(inp.bundle.value.identityKey, sess, kx), e'))
    case AtPutRemote(identity, sess, kx) =>
      if inp.fails then SecState(s, rnd, SealRefused, SealFault(e, PutRemoteCall))
      else SecState(s.(remoteID := s.remoteID[dev := identity]), rnd, AtLoadRemote(sess, Some(kx)), e)
    case AtLoadRemote(sess, kx) =>
      if inp.fails then SecState(s, rnd, SealRefused, SealFault(e, LoadRemoteCall))
      else if dev !in s.remoteID then SecState(s, rnd, AtUnlock(KeyOut(Err(NoKnownIdentityKey))), e)
      else SecState(s, rnd, AtLoadTrust(sess, kx, s.remoteID[dev]), e)
    case AtLoadTrust(sess, kx, identity) =>
      if inp.fails then SecState(s, rnd, SealRefused, SealFault(e, LoadTrustCall))
      else
        var t := TrustOf(s, identity);
        var e' := EncryptEntry(km, o.(trust := t));
        (match t
         case TrustTrusted => SecState(s, rnd, AtPutSealed(sess, kx), e')
         case TrustUntrusted => SecState(s, rnd, AtUnlock(KeyOut(Err(ErrBlockedDevice))), e')
         case TrustUndecided =>
           if cfg.resolver.None? then SecState(s, rnd, AtUnlock(KeyOut(Err(ErrUntrustedDevice))), e')
           else SecState(s, rnd, AtResolve(sess, kx, identity), e'))
    case AtResolve(sess, kx, identity) =>
      var e' := EncryptEntry(km, o.(approved := inp.approved));
      if !inp.approved then SecState(s, rnd, AtUnlock(KeyOut(Err(ResolverDeclined))), e')
      else SecState(s, rnd, AtSetTrust(sess, kx, identity), e')
    case AtSetTrust(sess, kx, identity) =>
      if inp.fails then SecState(s, rnd, SealRefused, SealFault(e, SetTrustCall))
      else SecState(s.(trust := s.trust[identity := TrustTrusted]), rnd, AtPutSealed(sess, kx), e)
    case AtPutSealed(sess, kx) =>
      var (sess', data) := Seal(sess, km);
      if data.Err? then SecState(s, rnd, AtUnlock(KeyOut(Err(data.error))), e)
      else if inp.fails then SecState(s, rnd, SealRefused, SealFault(e, PutSessionCall))
      else SecState(s.(sessions := s.sessions[dev := Marshal(sess')]), rnd,
          AtUnlock(KeyOut(Ok(RecipientKey(dev.id, data.value, kx)))), e)
    case _ => SecState(s, rnd, pc, e)
  }

  function OpenStep(cfg: Config, s: StoreState, rnd: nat, dev: Device, pc: PC, key: RecipientKey, o: DecryptOracle,
          inp: Input): SecState
  {
    var e := DecryptEntry(key, o);
    match pc
    case AtLoadIncoming =>
      if inp.fails then SecState(s, rnd, OpenRefused, OpenFault(e, LoadSessionCall))
      else if dev !in s.sessions then SecState(s, rnd, AtUnlock(MaterialOut(Err(ErrUnknownSession))), e)
      else
        (match LoadSession(cfg.protocol, s.sessions[dev])
         case Err(x) => SecState(s, rnd, AtUnlock(MaterialOut(Err(x))), e)
         case Ok(sess) => SecState(s, rnd, AtPutOpened(sess, key.data), e))
    case AtCurrentSPK(kx, data) =>
      if inp.fails then SecState(s, rnd, OpenRefused, DecryptEntry(key, o.(spk := Err(StoreFailed))))
      else if s.currentSPK.id == kx.signedPreKeyID then
        SecState(s, rnd, AtConsume(kx, data, s.currentSPK), DecryptEntry(key, o.(spk := Ok(s.currentSPK))))
      else SecState(s, rnd, AtStaleSPK(kx, data), e)
    case AtStaleSPK(kx, data) =>
      if inp.fails then SecState(s, rnd, OpenRefused, DecryptEntry(key, o.(spk := Err(StoreFailed))))
      else if s.staleSPK.Some? && s.staleSPK.value.id == kx.signedPreKeyID then
        SecState(s, rnd, AtConsume(kx, data, s.staleSPK.value), DecryptEntry(key, o.(spk := Ok(s.staleSPK.value))))
      else SecState(s, rnd, AtUnlock(MaterialOut(Err(UnknownSignedPreKey))),
          DecryptEntry(key, o.(spk := Err(UnknownSignedPreKey))))
    case AtConsume(kx, data, spk) =>
      if inp.fails then SecState(s, rnd, OpenRefused, DecryptEntry(key, o.(preKey := Err(StoreFailed))))
      else
        var (s', pk) := Consumed(s, kx.preKeyID);
        var e' := DecryptEntry(key, o.(preKey := pk));
        if pk.Err? then SecState(s', rnd, AtUnlock(MaterialOut(Err(pk.error))), e')
        else
          (match PassiveFrom(cfg, kx, spk, pk.value)
           case Err(x) => SecState(s', rnd, AtUnlock(MaterialOut(Err(x))), e')
           case Ok(sess) => SecState(s', rnd, AtPutPeer(kx, data, sess), e'))
    case AtPutPeer(kx, data, sess) =>
      if inp.fails then SecState(s, rnd, OpenRefused, OpenFault(e, PutRemoteCall))
      else SecState(s.(remoteID := s.remoteID[dev := kx.identityKey]), rnd, AtPutOpened(sess, data), e)
    case AtPutOpened(sess, data) =>
      var (sess', km) := Open(sess, data);
      if km.Err? then SecState(s, rnd, AtUnlock(MaterialOut(Err(km.error))), e)
      else if inp.fails then SecState(s, rnd, OpenRefused, OpenFault(e, PutSessionCall))
      else SecState(s.(sessions := s.sessions[dev := Marshal(sess')]), rnd, AtUnlock(MaterialOut(Ok(km.value))), e)
    case _ => SecState(s, rnd, pc, e)
  }

  function SectionStep(cfg: Config, s: StoreState, rnd: nat, dev: Device, pc: PC, e: Entry, inp: Input): SecState {
    match e
    case EncryptEntry(km, o) => SealStep(cfg, s, rnd, dev, pc, km, o, inp)
    case DecryptEntry(key, o) => OpenStep(cfg, s, rnd, dev, pc, key, o, inp)
    case ResetEntry(_) =>
      if inp.fails then SecState(s, rnd, AtUnlock(ResetOut(true)), ResetEntry(Some(DeleteSessionCall)))
      else SecState(s.(sessions := s.sessions - {dev}), rnd, AtUnlock(ResetOut(false)), e)
  }

  // ---------- one step of the system ----------

  /** A thread can move unless it has returned or waits for a held mutex. */
  predicate Enabled(st: State, t: Tid) {
    && t < |st.threads|
    && match st.threads[t]
       case Next(jobs) => jobs != []
       case Want(lock, jobs) => jobs != [] && lock !in st.sh.held
       case In(pc, e, jobs) => jobs != [] && jobs[0].dev in st.sh.locks
       case Gen(_, _) => true
  }

  /** `deviceLock`: look the mutex up or create it, in one step under locksMu. */
  function WithLock(locks: map<Device, LockID>, dev: Device): map<Device, LockID> {
    if dev in locks then locks else locks[dev := |locks|]
  }

  function Advance(cfg: Config, st: State, t: Tid, inp: Input): State
    requires Enabled(st, t)
  {
    match st.threads[t]
    case Next(jobs) =>
      var locks := WithLock(st.sh.locks, jobs[0].dev);
      st.(sh := st.sh.(locks := locks), threads := st.threads[t := Want(locks[jobs[0].dev], jobs)])
    case Want(lock, jobs) =>
      State(st.sh.(held := st.sh.held[lock := t]),
            st.threads[t := In(StartPC(cfg, jobs[0]), StartEntry(jobs[0]), jobs)],
            st.h.(acquired := Appended(st.h.acquired, jobs[0].dev, t)), st.k)
    case In(pc, e, jobs) =>
      var dev := jobs[0].dev;
      if pc.AtUnlock? then
        State(st.sh.(held := st.sh.held - {st.sh.locks[dev]}),
              st.threads[t := Next(jobs[1..])],
              st.h.(log := Appended(st.h.log, dev, e), jobs := Appended(st.h.jobs, dev, jobs[0]),
                    outs := Appended(st.h.outs, dev, pc.out), finished := Appended(st.h.finished, dev, t)),
              st.k.(returned := st.k.returned + if pc.out.KeyOut? && pc.out.key.Ok? then [pc.out.key.value] else []))
      else
        var n := SectionStep(cfg, st.sh.store, st.sh.rnd, dev, pc, e, inp);
        State(st.sh.(store := n.store, rnd := n.rnd), st.threads[t := In(n.pc, n.entry, jobs)], st.h,
            Noted(st.k, pc, n))
    case Gen(left, recs) =>
      if inp.fails then
        st.(threads := st.threads[t := Next([])], k := st.k.(burned := st.k.burned + IDs(recs)))
      else if left == 0 then
        st.(sh := st.sh.(store := st.sh.store.(preKeys := Filed(st.sh.store.preKeys, recs))),
            threads := st.threads[t := Next([])])
      else
        var id := WrapAdd(st.sh.store.nextPreKeyID, 1);
        var rec := PreKeyRecord(id, Pub(st.sh.rnd), Priv(st.sh.rnd));
        State(st.sh.(store := st.sh.store.(nextPreKeyID := id), rnd := st.sh.rnd + 1),
              st.threads[t := Gen(left - 1, recs + [rec])],
              st.h, st.k.(issued := st.k.issued[id := rec]))
  }

  /** New sessions claim their tag; a successful ConsumePreKey is noted, with what it accepted. */
  function Noted(k: KeyLog, pc: PC, n: SecState): KeyLog {
    if pc.AtFetch? && n.pc.AtPutRemote? then k.(claimed := k.claimed + {TagOf(n.pc.sess.ratchet)})
    else if pc.AtConsume? && n.entry.DecryptEntry? && n.entry.decryptOracle.preKey.Ok? then
      var k1 := k.(consumed := k.consumed + {pc.offer.preKeyID});
      if n.pc.AtPutPeer? then k1.(accepted := k.accepted + [pc.offer.preKeyID],
          claimed := k.claimed + {TagOf(n.pc.sess.ratchet)})
      else k1
    else k
  }

  function IDs(recs: seq<PreKeyRecord>): set<U32> {
    set i | 0 <= i < |recs| :: recs[i].id
  }

  /** A new call arrives. */
  predicate Arrival(t: Thread) {
    t.Next? || (t.Gen? && t.recs == [])
  }

  /** Everything no property here depends on: rotations (even overlapping ones), trust decisions by the
      application and device lists may change at any moment, and scalars may be drawn elsewhere. */
  ghost predicate Ambient(sh: Memory, sh': Memory) {
    && sh'.rnd >= sh.rnd
    && sh' == sh.(rnd := sh'.rnd, store := sh.store.(currentSPK := sh'.store.currentSPK, staleSPK := sh'.store.staleSPK,
                                                   trust := sh'.store.trust, devices := sh'.store.devices))
  }

  datatype Event = ThreadStep(t: Tid, inp: Input) | Arrive(thread: Thread) | Background(sh: Memory)

  ghost predicate Possible(st: State, ev: Event) {
    match ev
    case ThreadStep(t, inp) => Enabled(st, t) && !AllocatesPast(st, t, inp)
    case Arrive(thread) => Arrival(thread)
    case Background(sh) => Ambient(st.sh, sh)
  }

  /** The 32-bit bound: an allocation that would wrap the watermark. */
  predicate AllocatesPast(st: State, t: Tid, inp: Input)
    requires t < |st.threads|
  {
    st.threads[t].Gen? && !inp.fails && st.threads[t].left > 0 && st.sh.store.nextPreKeyID == TWO_TO_THE_32 - 1
  }

  function After(cfg: Config, st: State, ev: Event): State
    requires Possible(st, ev)
  {
    match ev
    case ThreadStep(t, inp) => Advance(cfg, st, t, inp)
    case Arrive(thread) => st.(threads := st.threads + [thread])
    case Background(sh) => st.(sh := sh)
  }

  /** The state after the events, if each was possible when it came. */
  ghost function Exec(cfg: Config, st: State, evs: seq<Event>): Option<State> {
    if evs == [] then Some(st)
    else
      var before, ev := Exec(cfg, st, evs[..|evs| - 1]), evs[|evs| - 1];
      if before.Some? && Possible(before.value, ev) then Some(After(cfg, before.value, ev)) else None
  }

  /** Before any call: a store, no locks, an empty history. */
  ghost predicate Quiet(st: State) {
    && st.threads == [] && st.sh.locks == map[] && st.sh.held == map[]
    && st.h == History(map[], map[], map[], map[], map[])
    && st.k.returned == [] && st.k.accepted == [] && st.k.burned == {}
  }
}
