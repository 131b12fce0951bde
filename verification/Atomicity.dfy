/** The interleaving model's sections, run without interruption and without store failures, are the
    Manager's own operations: the two layers describe one program. */
module Atomicity {
  import opened Basics
  import opened Types
  import opened Signal
  import opened StoreModel
  import opened ManagerSpec
  import opened Sections
  import opened Interleaving
  import opened Serial

  /** What an undisturbed step meets: the board's bundle, the resolver's verdict, a working store. */
  function SteadyInput(cfg: Config, net: Net, dev: Device, pc: PC): Input {
    Input(Lookup(net.bundles, dev), pc.AtResolve? && cfg.resolver.Some? && cfg.resolver.value(dev, pc.identity), false)
  }

  /** At most `n` section steps in a row. */
  function RunAlone(cfg: Config, net: Net, dev: Device, sec: SecState, n: nat): SecState
    decreases n
  {
    if n == 0 || sec.pc.AtUnlock? then sec
    else RunAlone(cfg, net, dev,
        SectionStep(cfg, sec.store, sec.rnd, dev, sec.pc, sec.entry, SteadyInput(cfg, net, dev, sec.pc)), n - 1)
  }

  // ---------- encrypting ----------

  /** What remains to be done at each call of an encryption. */
  function RestOfSeal(cfg: Config, net: Net, s: StoreState, rnd: nat, dev: Device, pc: PC, km: nat)
    : (StoreState, Result<RecipientKey, Error>)
  {
    match pc
    case AtUnlock(out) => (s, if out.KeyOut? then out.key else Err(StoreFailed))
    case AtPutSealed(sess, kx) => SealKey(s, dev, sess, kx, km)
    case AtSetTrust(sess, kx, identity) => SealKey(s.(trust := s.trust[identity := TrustTrusted]), dev, sess, kx, km)
    case AtResolve(sess, kx, identity) =>
      if cfg.resolver.Some? && cfg.resolver.value(dev, identity)
      then SealKey(s.(trust := s.trust[identity := TrustTrusted]), dev, sess, kx, km)
      else (s, Err(ResolverDeclined))
    case AtLoadTrust(sess, kx, identity) => SealIfTrusted(cfg, s, dev, sess, kx, identity, km)
    case AtLoadRemote(sess, kx) =>
      if dev !in s.remoteID then (s, Err(NoKnownIdentityKey))
          else SealIfTrusted(cfg, s, dev, sess, kx, s.remoteID[dev], km)
    case AtPutRemote(identity, sess, kx) =>
      SealIfTrusted(cfg, s.(remoteID := s.remoteID[dev := identity]), dev, sess, Some(kx), identity, km)
    case _ => EncryptForDevice(cfg, net, s, dev, km, rnd)
  }

  function SealIfTrusted(cfg: Config, s: StoreState, dev: Device, sess: SessionState, kx: Option<KeyExchange>,
          identity: PubKey, km: nat)
    : (StoreState, Result<RecipientKey, Error>)
  {
    var (s', refusal) := CheckTrust(cfg, s, dev, identity);
    if refusal.Some? then (s', Err(refusal.value)) else SealKey(s', dev, sess, kx, km)
  }

  predicate SealPC(cfg: Config, s: StoreState, dev: Device, pc: PC) {
    match pc
    case AtUnlock(out) => out.KeyOut?
    case AtLoad => true
    case AtFetch => dev !in s.sessions
    case AtResolve(_, _, _) => cfg.resolver.Some?
    case _ => pc.AtPutSealed? || pc.AtSetTrust? || pc.AtLoadTrust? || pc.AtLoadRemote? || pc.AtPutRemote?
  }

  lemma SealStepRest(cfg: Config, net: Net, s: StoreState, rnd: nat, dev: Device, pc: PC, km: nat, o: EncryptOracle)
    requires SealPC(cfg, s, dev, pc) && !pc.AtUnlock?
    ensures var n := SealStep(cfg, s, rnd, dev, pc, km, o, SteadyInput(cfg, net, dev, pc));
            && n.entry.EncryptEntry? && n.entry.keyMaterial == km
            && SealPC(cfg, n.store, dev, n.pc) && PCRank(n.pc) < PCRank(pc)
            && RestOfSeal(cfg, net, n.store, n.rnd, dev, n.pc, km) == RestOfSeal(cfg, net, s, rnd, dev, pc, km)
  {
    hide BuildActive, Seal, LoadSession;
  }

  lemma {:induction false} SealAlone(cfg: Config, net: Net, dev: Device, sec: SecState, n: nat)
    requires sec.entry.EncryptEntry? && SealPC(cfg, sec.store, dev, sec.pc) && n >= PCRank(sec.pc)
    ensures var end := RunAlone(cfg, net, dev, sec, n);
            && end.pc.AtUnlock? && end.pc.out.KeyOut?
            && (end.store, end.pc.out.key) ==
               RestOfSeal(cfg, net, sec.store, sec.rnd, dev, sec.pc, sec.entry.keyMaterial)
    decreases n
  {
    hide SealStep;
    if !sec.pc.AtUnlock? {
      hide SealPC;
      SealStepRest(cfg, net, sec.store, sec.rnd, dev, sec.pc, sec.entry.keyMaterial, sec.entry.encryptOracle);
      hide RestOfSeal;
      SealAlone(cfg, net, dev,
          SectionStep(cfg, sec.store, sec.rnd, dev, sec.pc, sec.entry, SteadyInput(cfg, net, dev, sec.pc)), n - 1);
    }
  }

  /** An encryption section run alone is `encryptForDevice`, with the next scalar as its ephemeral. */
  lemma SealSectionIsEncryptForDevice(cfg: Config, net: Net, s: StoreState, rnd: nat, dev: Device, km: nat)
    ensures var job := SealJob(dev, km);
            var end := RunAlone(cfg, net, dev, SecState(s, rnd, StartPC(cfg, job), StartEntry(job)), 8);
            && end.pc == AtUnlock(KeyOut(EncryptForDevice(cfg, net, s, dev, km, rnd).1))
            && end.store == EncryptForDevice(cfg, net, s, dev, km, rnd).0
  {
    hide EncryptForDevice, RunAlone;
    SealAlone(cfg, net, dev, SecState(s, rnd, AtLoad, EncryptEntry(km, NoEncryptOracle())), 8);
  }

  // ---------- decrypting ----------

  function RestOfOpen(cfg: Config, s: StoreState, dev: Device, pc: PC, key: RecipientKey)
    : (StoreState, Result<nat, Error>)
  {
    match pc
    case AtUnlock(out) => (s, if out.MaterialOut? then out.material else Err(StoreFailed))
    case AtPutOpened(sess, data) => OpenAndPut(s, dev, sess, data)
    case AtPutPeer(kx, data, sess) => OpenAndPut(s.(remoteID := s.remoteID[dev := kx.identityKey]), dev, sess, data)
    case AtConsume(kx, data, spk) => ConsumeAndOpen(cfg, s, dev, kx, data, spk)
    case AtStaleSPK(kx, data) =>
      if s.staleSPK.Some? && s.staleSPK.value.id == kx.signedPreKeyID
          then ConsumeAndOpen(cfg, s, dev, kx, data, s.staleSPK.value)
      else (s, Err(UnknownSignedPreKey))
    case _ => DecryptKey(cfg, s, dev, key)
  }

  function OpenAndPut(s: StoreState, dev: Device, sess: SessionState, data: Wire): (StoreState, Result<nat, Error>) {
    var (sess', km) := Open(sess, data);
    if km.Err? then (s, Err(km.error)) else (s.(sessions := s.sessions[dev := Marshal(sess')]), Ok(km.value))
  }

  function ConsumeAndOpen(cfg: Config, s: StoreState, dev: Device, kx: KeyExchange, data: Wire, spk: SignedPreKeyRecord)
    : (StoreState, Result<nat, Error>)
  {
    var (s1, pk) := Consumed(s, kx.preKeyID);
    if pk.Err? then (s1, Err(pk.error))
    else
      match PassiveFrom(cfg, kx, spk, pk.value)
      case Err(e) => (s1, Err(e))
      case Ok(sess) => OpenAndPut(s1.(remoteID := s1.remoteID[dev := kx.identityKey]), dev, sess, data)
  }

  predicate OpenPC(cfg: Config, s: StoreState, pc: PC, key: RecipientKey) {
    match pc
    case AtUnlock(out) => out.MaterialOut?
    case AtLoadIncoming => key.keyExchange.None?
    case AtCurrentSPK(kx, data) => key.keyExchange.Some? && OfferedExchange(cfg, key) == Ok((kx, data))
    case AtStaleSPK(kx, data) => s.currentSPK.id != kx.signedPreKeyID
    case _ => pc.AtConsume? || pc.AtPutPeer? || pc.AtPutOpened?
  }

  lemma OpenStepRest(cfg: Config, net: Net, s: StoreState, rnd: nat, dev: Device, pc: PC, key: RecipientKey,
          o: DecryptOracle)
    requires OpenPC(cfg, s, pc, key) && !pc.AtUnlock?
    ensures var n := OpenStep(cfg, s, rnd, dev, pc, key, o, SteadyInput(cfg, net, dev, pc));
            && n.entry.DecryptEntry? && n.entry.key == key
            && OpenPC(cfg, n.store, n.pc, key) && PCRank(n.pc) < PCRank(pc)
            && RestOfOpen(cfg, n.store, dev, n.pc, key) == RestOfOpen(cfg, s, dev, pc, key)
  {
    hide NewPassive, Open, LoadSession, OfferedExchange;
  }

  lemma {:induction false} OpenAlone(cfg: Config, net: Net, dev: Device, sec: SecState, n: nat)
    requires sec.entry.DecryptEntry? && OpenPC(cfg, sec.store, sec.pc, sec.entry.key) && n >= PCRank(sec.pc)
    ensures var end := RunAlone(cfg, net, dev, sec, n);
            && end.pc.AtUnlock? && end.pc.out.MaterialOut?
            && (end.store, end.pc.out.material) == RestOfOpen(cfg, sec.store, dev, sec.pc, sec.entry.key)
    decreases n
  {
    hide OpenStep;
    if !sec.pc.AtUnlock? {
      hide OpenPC;
      OpenStepRest(cfg, net, sec.store, sec.rnd, dev, sec.pc, sec.entry.key, sec.entry.decryptOracle);
      hide RestOfOpen;
      OpenAlone(cfg, net, dev,
          SectionStep(cfg, sec.store, sec.rnd, dev, sec.pc, sec.entry, SteadyInput(cfg, net, dev, sec.pc)), n - 1);
    }
  }

  /** A decryption section run alone is the locked part of `DecryptMessage`. */
  lemma OpenSectionIsDecryptKey(cfg: Config, net: Net, s: StoreState, rnd: nat, dev: Device, key: RecipientKey)
    ensures var job := OpenJob(dev, key);
            var end := RunAlone(cfg, net, dev, SecState(s, rnd, StartPC(cfg, job), StartEntry(job)), 8);
            && end.pc == AtUnlock(MaterialOut(DecryptKey(cfg, s, dev, key).1))
            && end.store == DecryptKey(cfg, s, dev, key).0
  {
    hide RunAlone, SignedPreKeyByID, NewPassive, Open, LoadSession;
    var job := OpenJob(dev, key);
    OpenAlone(cfg, net, dev, SecState(s, rnd, StartPC(cfg, job), StartEntry(job)), 8);
  }

  // ---------- whole threads ----------

  /** What thread `th`'s next step meets when nothing disturbs it. */
  function SoloInput(cfg: Config, net: Net, th: Thread): Input {
    if th.In? && th.jobs != [] then SteadyInput(cfg, net, th.jobs[0].dev, th.pc) else Input(None, false, false)
  }

  /** At most `n` steps of thread `t` in a row. */
  function Solo(cfg: Config, net: Net, st: State, t: Tid, n: nat): State
    decreases n
  {
    if n == 0 || !Enabled(st, t) then st
    else Solo(cfg, net, Advance(cfg, st, t, SoloInput(cfg, net, st.threads[t])), t, n - 1)
  }

  lemma {:induction false} SoloCompose(cfg: Config, net: Net, st: State, t: Tid, a: nat, b: nat)
    ensures Solo(cfg, net, st, t, a + b) == Solo(cfg, net, Solo(cfg, net, st, t, a), t, b)
    decreases a
  {
    hide Advance, SoloInput;
    if a > 0 && Enabled(st, t) {
      SoloCompose(cfg, net, Advance(cfg, st, t, SoloInput(cfg, net, st.threads[t])), t, a - 1, b);
    }
  }

  /** A generator run alone from any point: the rest of its batch continues the watermark and the scalars. */
  lemma {:induction false} GenAlone(cfg: Config, net: Net, st: State, t: Tid, left: nat, recs: seq<PreKeyRecord>)
    requires t < |st.threads| && st.threads[t] == Gen(left, recs)
    ensures var s, end := st.sh.store, Solo(cfg, net, st, t, left + 1);
            && end.threads == st.threads[t := Next([])]
            && end.sh.rnd == st.sh.rnd + left
            && end.sh.store == s.(nextPreKeyID := WrapAdd(s.nextPreKeyID, left),
                                  preKeys := Filed(s.preKeys, recs + NewPreKeys(s.nextPreKeyID, left, st.sh.rnd)))
    decreases left
  {
    hide Filed;
    var next := Advance(cfg, st, t, Input(None, false, false));
    if left == 0 {
      assert recs + NewPreKeys(st.sh.store.nextPreKeyID, 0, st.sh.rnd) == recs;
      assert Solo(cfg, net, next, t, 0) == next;
    } else {
      var s := st.sh.store;
      var rec := PreKeyRecord(WrapAdd(s.nextPreKeyID, 1), Pub(st.sh.rnd), Priv(st.sh.rnd));
      assert next.threads[t] == Gen(left - 1, recs + [rec]);
      GenAlone(cfg, net, next, t, left - 1, recs + [rec]);
      BatchContinues(s.nextPreKeyID, left, st.sh.rnd);
      assert recs + [rec] + NewPreKeys(rec.id, left - 1, st.sh.rnd + 1) ==
          recs + NewPreKeys(s.nextPreKeyID, left, st.sh.rnd);
      assert next.threads[t := Next([])] == st.threads[t := Next([])];
    }
  }

  lemma BatchContinues(watermark: U32, n: nat, rnd: nat)
    requires n > 0
    ensures WrapAdd(WrapAdd(watermark, 1), n - 1) == WrapAdd(watermark, n)
    ensures NewPreKeys(watermark, n, rnd)
            == [PreKeyRecord(WrapAdd(watermark, 1), Pub(rnd), Priv(rnd))] + NewPreKeys(WrapAdd(watermark, 1), n - 1,
                rnd + 1)
  {
    forall i: nat ensures WrapAdd(WrapAdd(watermark, 1), i) == WrapAdd(watermark, i + 1) { WrapTwice(watermark, i); }
    var all, rest := NewPreKeys(watermark, n, rnd), NewPreKeys(WrapAdd(watermark, 1), n - 1, rnd + 1);
    forall i | 0 <= i < n - 1 ensures all[i + 1] == rest[i] {
      assert WrapAdd(WrapAdd(watermark, 1), i + 1) == WrapAdd(watermark, i + 2);
    }
  }

  lemma WrapTwice(x: U32, n: nat)
    ensures WrapAdd(WrapAdd(x, 1), n) == WrapAdd(x, n + 1)
  {
    if x + 1 == TWO_TO_THE_32 {
      assert (x + (n + 1)) % TWO_TO_THE_32 == (n + TWO_TO_THE_32) % TWO_TO_THE_32;
    }
  }

  /** A generator thread run alone is `generateOneTimePreKeys`. */
  lemma GenThreadIsGenerated(cfg: Config, net: Net, st: State, t: Tid, n: nat)
    requires t < |st.threads| && st.threads[t] == Gen(n, [])
    ensures var end := Solo(cfg, net, st, t, n + 1);
            && end.threads == st.threads[t := Next([])]
            && end.sh.store == Generated(st.sh.store, n, st.sh.rnd) && end.sh.rnd == st.sh.rnd + n
  {
    hide Filed, NewPreKeys;
    GenAlone(cfg, net, st, t, n, []);
    assert [] + NewPreKeys(st.sh.store.nextPreKeyID, n, st.sh.rnd) ==
        NewPreKeys(st.sh.store.nextPreKeyID, n, st.sh.rnd);
  }

  /** A scalar is drawn for a device exactly when no session with it is stored. */
  function DrawnFor(s: StoreState, dev: Device): nat {
    if dev in s.sessions then 0 else 1
  }

  /** What is still to be drawn at each call of an encryption. */
  function RestDrawn(s: StoreState, dev: Device, pc: PC): nat {
    if pc.AtLoad? then DrawnFor(s, dev) else if pc.AtFetch? then 1 else 0
  }

  lemma SealStepDraws(cfg: Config, net: Net, s: StoreState, rnd: nat, dev: Device, pc: PC, km: nat, o: EncryptOracle)
    requires SealPC(cfg, s, dev, pc) && !pc.AtUnlock?
    ensures var n := SealStep(cfg, s, rnd, dev, pc, km, o, SteadyInput(cfg, net, dev, pc));
            n.rnd + RestDrawn(n.store, dev, n.pc) == rnd + RestDrawn(s, dev, pc)
  {
    hide BuildActive, Seal, LoadSession;
  }

  /** `st'` is `st` with thread `t` elsewhere; the other threads are where they were, and the same mutexes are held. */
  ghost predicate Apart(st: State, st': State, t: Tid, th: Thread) {
    t < |st.threads| && st'.threads == st.threads[t := th] && st'.sh.held == st.sh.held
  }

  /** One step of such a thread. */
  lemma InsideNext(cfg: Config, net: Net, st: State, t: Tid)
    requires t < |st.threads| && st.threads[t].In? && st.threads[t].jobs != []
    requires st.threads[t].jobs[0].dev in st.sh.locks
    requires st.threads[t].entry.EncryptEntry? && !st.threads[t].pc.AtUnlock?
    ensures var th := st.threads[t];
            var dev := th.jobs[0].dev;
            var n := SealStep(cfg, st.sh.store, st.sh.rnd, dev, th.pc, th.entry.keyMaterial, th.entry.encryptOracle,
                              SteadyInput(cfg, net, dev, th.pc));
            && Enabled(st, t)
            && var next := Advance(cfg, st, t, SoloInput(cfg, net, th));
               && next.sh == st.sh.(store := n.store, rnd := n.rnd)
               && next.threads == st.threads[t := In(n.pc, n.entry, th.jobs)]
               && next.k.returned == st.k.returned
  {
    hide SealStep, Noted;
    var th := st.threads[t];
    var n := SectionStep(cfg, st.sh.store, st.sh.rnd, th.jobs[0].dev, th.pc, th.entry, SoloInput(cfg, net, th));
    NotedReturnsNothing(st.k, th.pc, n);
  }

  /** A thread inside an encryption section, run alone to the end of the section. */
  lemma {:induction false} InsideAlone(cfg: Config, net: Net, st: State, t: Tid, fuel: nat) returns (n: nat)
    requires t < |st.threads| && st.threads[t].In? && st.threads[t].jobs != []
             && st.threads[t].jobs[0].dev in st.sh.locks
    requires st.threads[t].entry.EncryptEntry? && fuel >= PCRank(st.threads[t].pc)
    requires SealPC(cfg, st.sh.store, st.threads[t].jobs[0].dev, st.threads[t].pc)
    ensures var th, end := st.threads[t], Solo(cfg, net, st, t, n);
            var dev := th.jobs[0].dev;
            var (s', key) := RestOfSeal(cfg, net, st.sh.store, st.sh.rnd, dev, th.pc, th.entry.keyMaterial);
            && t < |end.threads| && end.threads[t].In? && end.threads[t].pc == AtUnlock(KeyOut(key))
               && end.threads[t].jobs == th.jobs
            && end.threads[t].entry.EncryptEntry?
            && Apart(st, end, t, end.threads[t])
            && end.sh.store == s' && end.sh.rnd == st.sh.rnd + RestDrawn(st.sh.store, dev, th.pc)
            && end.sh.locks == st.sh.locks && end.k.returned == st.k.returned
    decreases fuel
  {
    hide SealStep, SealPC, RestDrawn, RestOfSeal, PCRank, SoloInput, SteadyInput;
    var th := st.threads[t];
    var dev := th.jobs[0].dev;
    if th.pc.AtUnlock? {
      n := 0;
      hide Advance;
      UnlockPC(cfg, net, st.sh.store, st.sh.rnd, dev, th.pc, th.entry.keyMaterial);
    } else {
      SealStepRest(cfg, net, st.sh.store, st.sh.rnd, dev, th.pc, th.entry.keyMaterial, th.entry.encryptOracle);
      SealStepDraws(cfg, net, st.sh.store, st.sh.rnd, dev, th.pc, th.entry.keyMaterial, th.entry.encryptOracle);
      InsideNext(cfg, net, st, t);
      hide Advance;
      var next := Advance(cfg, st, t, SoloInput(cfg, net, th));
      n := InsideAlone(cfg, net, next, t, fuel - 1);
      n := n + 1;
    }
  }

  lemma UnlockPC(cfg: Config, net: Net, s: StoreState, rnd: nat, dev: Device, pc: PC, km: nat)
    requires SealPC(cfg, s, dev, pc) && pc.AtUnlock?
    ensures pc.out.KeyOut? && RestDrawn(s, dev, pc) == 0
    ensures RestOfSeal(cfg, net, s, rnd, dev, pc, km) == (s, pc.out.key)
  {
  }

  lemma NotedReturnsNothing(k: KeyLog, pc: PC, n: SecState)
    ensures Noted(k, pc, n).returned == k.returned
  {
  }

  /** Taking a free mutex leaves the thread at the start of its section. */
  lemma EnteredAlone(cfg: Config, net: Net, st: State, t: Tid, dev: Device, km: nat, jobs: seq<Job>)
    requires t < |st.threads| && st.threads[t] == Next([SealJob(dev, km)] + jobs) && st.sh.held == map[]
    ensures var inside := Solo(cfg, net, st, t, 2);
            && inside.threads
               == st.threads[t := In(AtLoad, EncryptEntry(km, NoEncryptOracle()), [SealJob(dev, km)] + jobs)]
            && dev in inside.sh.locks && inside.sh.held == map[inside.sh.locks[dev] := t]
            && inside.sh.store == st.sh.store && inside.sh.rnd == st.sh.rnd && inside.k == st.k
  {
    hide Solo, SectionStep, Noted;
    TwoSteps(cfg, net, st, t);
  }

  /** Leaving the section releases the mutex and returns the key. */
  lemma LeftAlone(cfg: Config, net: Net, st: State, t: Tid, jobs: seq<Job>, key: Result<RecipientKey, Error>)
    requires t < |st.threads| && st.threads[t].In? && st.threads[t].pc == AtUnlock(KeyOut(key))
    requires |st.threads[t].jobs| > 0 && st.threads[t].jobs[1..] == jobs && st.threads[t].jobs[0].dev in st.sh.locks
    requires st.sh.held == map[st.sh.locks[st.threads[t].jobs[0].dev] := t]
    ensures var left := Solo(cfg, net, st, t, 1);
            && left.threads == st.threads[t := Next(jobs)] && left.sh.held == map[]
            && left.sh.store == st.sh.store && left.sh.rnd == st.sh.rnd
            && left.k.returned == st.k.returned + if key.Ok? then [key.value] else []
  {
    OneStep(cfg, net, st, t);
    hide Solo, SectionStep, Noted;
  }

  /** One encryption of a thread run alone: take the mutex, run the section, release. */
  lemma JobAlone(cfg: Config, net: Net, st: State, t: Tid, dev: Device, km: nat, jobs: seq<Job>) returns (n: nat)
    requires t < |st.threads| && st.threads[t] == Next([SealJob(dev, km)] + jobs) && st.sh.held == map[]
    ensures var end := Solo(cfg, net, st, t, n);
            var (s', key) := EncryptForDevice(cfg, net, st.sh.store, dev, km, st.sh.rnd);
            && Apart(st, end, t, Next(jobs))
            && end.sh.store == s' && end.sh.rnd == st.sh.rnd + DrawnFor(st.sh.store, dev)
            && end.k.returned == st.k.returned + if key.Ok? then [key.value] else []
  {
    hide EncryptForDevice, Solo, DrawnFor, Advance, Enabled;
    EnteredAlone(cfg, net, st, t, dev, km, jobs);
    var inside := Solo(cfg, net, st, t, 2);
    var m := InsideAlone(cfg, net, inside, t, 8);
    var ended := Solo(cfg, net, inside, t, m);
    var key := EncryptForDevice(cfg, net, st.sh.store, dev, km, st.sh.rnd).1;
    assert ([SealJob(dev, km)] + jobs)[1..] == jobs;
    LeftAlone(cfg, net, ended, t, jobs, key);
    SoloCompose(cfg, net, st, t, 2, m);
    SoloCompose(cfg, net, st, t, 2 + m, 1);
    n := 2 + m + 1;
  }

  lemma OneStep(cfg: Config, net: Net, st: State, t: Tid)
    requires Enabled(st, t)
    ensures Solo(cfg, net, st, t, 1) == Advance(cfg, st, t, SoloInput(cfg, net, st.threads[t]))
  {
    hide Advance;
    assert Solo(cfg, net, Advance(cfg, st, t, SoloInput(cfg, net, st.threads[t])), t, 0) ==
        Advance(cfg, st, t, SoloInput(cfg, net, st.threads[t]));
  }

  lemma TwoSteps(cfg: Config, net: Net, st: State, t: Tid)
    requires t < |st.threads| && st.threads[t].Next? && st.threads[t].jobs != [] && st.sh.held == map[]
    ensures var plain := Input(None, false, false);
            && Enabled(st, t) && Enabled(Advance(cfg, st, t, plain), t)
            && Solo(cfg, net, st, t, 2) == Advance(cfg, Advance(cfg, st, t, plain), t, plain)
  {
    hide StartPC, StartEntry, SectionStep, Noted;
    OneStep(cfg, net, Advance(cfg, st, t, Input(None, false, false)), t);
  }

  /** The entries of a recipient list with the scalars a thread run alone hands them. */
  function Drawn(cfg: Config, net: Net, s: StoreState, rnd: nat, devices: seq<Device>, km: nat)
    : (work: seq<(Device, nat)>)
    ensures |work| == |devices| && forall i :: 0 <= i < |devices| ==> work[i].0 == devices[i]
    decreases |devices|
  {
    if devices == [] then []
    else [(devices[0], rnd)]
         + Drawn(cfg, net, FanOutOne(cfg, net, s, devices[0], km, rnd).0, rnd + DrawnFor(s, devices[0]), devices[1..],
             km)
  }

  function SealJobs(devices: seq<Device>, km: nat): (jobs: seq<Job>)
    ensures |jobs| == |devices|
  {
    seq(|devices|, i requires 0 <= i < |devices| => SealJob(devices[i], km))
  }

  /** The fan-out from its first entry. */
  lemma {:induction false} FanOutFirst(cfg: Config, net: Net, s: StoreState, w: (Device, nat), rest: seq<(Device, nat)>,
          km: nat)
    ensures var (s1, o) := FanOutOne(cfg, net, s, w.0, km, w.1);
            var (s2, outs) := FanOut(cfg, net, s1, rest, km);
            FanOut(cfg, net, s, [w] + rest, km) == (s2, [o] + outs)
    decreases |rest|
  {
    hide FanOutOne;
    var all := [w] + rest;
    if rest == [] {
      assert all[..0] == [] && all[0] == w;
      assert FanOut(cfg, net, s, all[..0], km) == (s, []);
      var o := FanOutOne(cfg, net, s, w.0, km, w.1).1;
      assert [] + [o] == [o] + [];
    } else {
      var n := |rest| - 1;
      FanOutFirst(cfg, net, s, w, rest[..n], km);
      assert all[..|all| - 1] == [w] + rest[..n] && all[|all| - 1] == rest[n];
      var (s1, o) := FanOutOne(cfg, net, s, w.0, km, w.1);
      var (s2, outs) := FanOut(cfg, net, s1, rest[..n], km);
      var (s3, last) := FanOutOne(cfg, net, s2, rest[n].0, km, rest[n].1);
      assert FanOut(cfg, net, s1, rest, km) == (s3, outs + [last]);
      assert FanOut(cfg, net, s, all, km) == (s3, ([o] + outs) + [last]);
      assert ([o] + outs) + [last] == [o] + (outs + [last]);
    }
  }

  lemma {:induction false} KeysFirst(o: Outcome, outs: seq<Outcome>)
    ensures KeysOf([o] + outs) == (if o.Sealed? then [o.key] else []) + KeysOf(outs)
    decreases |outs|
  {
    var all := [o] + outs;
    if outs == [] {
      assert all[..0] == [];
    } else {
      KeysFirst(o, outs[..|outs| - 1]);
      assert all[..|all| - 1] == [o] + outs[..|outs| - 1];
    }
  }

  /** A thread encrypting for a list of devices, run alone, is the fan-out over that list, each entry with the
      scalar it drew; and it returns the fan-out's keys. */
  lemma {:induction false} SealThreadIsFanOut(cfg: Config, net: Net, st: State, t: Tid, devices: seq<Device>, km: nat)
          returns (n: nat)
    requires t < |st.threads| && st.threads[t] == Next(SealJobs(devices, km)) && st.sh.held == map[]
    requires cfg.localDevice !in devices
    ensures var end := Solo(cfg, net, st, t, n);
            var (s', outs) := FanOut(cfg, net, st.sh.store, Drawn(cfg, net, st.sh.store, st.sh.rnd, devices, km), km);
            && end.threads == st.threads[t := Next([])] && end.sh.held == map[]
            && end.sh.store == s' && end.k.returned == st.k.returned + KeysOf(outs)
    decreases |devices|
  {
    hide EncryptForDevice, FanOut, KeysOf, Solo, Drawn, DrawnFor;
    if devices == [] {
      n := 0;
      NothingToDo(cfg, net, st, t, km);
    } else {
      var rest := SealJobs(devices[1..], km);
      assert SealJobs(devices, km) == [SealJob(devices[0], km)] + rest;
      var a := JobAlone(cfg, net, st, t, devices[0], km, rest);
      var mid := Solo(cfg, net, st, t, a);
      var b := SealThreadIsFanOut(cfg, net, mid, t, devices[1..], km);
      SoloCompose(cfg, net, st, t, a, b);
      n := a + b;
      DrawnFirst(cfg, net, st.sh.store, st.sh.rnd, devices, km);
      assert mid.threads[t := Next([])] == st.threads[t := Next([])];
    }
  }

  lemma NothingToDo(cfg: Config, net: Net, st: State, t: Tid, km: nat)
    ensures SealJobs([], km) == []
    ensures Solo(cfg, net, st, t, 0) == st
    ensures FanOut(cfg, net, st.sh.store, Drawn(cfg, net, st.sh.store, st.sh.rnd, [], km), km) == (st.sh.store, [])
    ensures KeysOf([]) == []
  {
  }

  /** The first entry, then the rest from where it left store and scalars. */
  lemma DrawnFirst(cfg: Config, net: Net, s: StoreState, rnd: nat, devices: seq<Device>, km: nat)
    requires devices != []
    ensures var (s1, o) := FanOutOne(cfg, net, s, devices[0], km, rnd);
            var rest := FanOut(cfg, net, s1, Drawn(cfg, net, s1, rnd + DrawnFor(s, devices[0]), devices[1..], km), km);
            var all := FanOut(cfg, net, s, Drawn(cfg, net, s, rnd, devices, km), km);
            && all.0 == rest.0
            && KeysOf(all.1) == (if o.Sealed? then [o.key] else []) + KeysOf(rest.1)
  {
    hide FanOut, FanOutOne, KeysOf, DrawnFor;
    var (s1, o) := FanOutOne(cfg, net, s, devices[0], km, rnd);
    var work := Drawn(cfg, net, s1, rnd + DrawnFor(s, devices[0]), devices[1..], km);
    FanOutFirst(cfg, net, s, (devices[0], rnd), work, km);
    KeysFirst(o, FanOut(cfg, net, s1, work, km).1);
  }
}
