/** Serialisability and lock discipline of the interleaving model. */
module Serial {
  import opened Basics
  import opened Types
  import opened Signal
  import opened StoreModel
  import opened ManagerSpec
  import opened Sections
  import opened Interleaving

  // ---------- a section in progress ----------

  /** `e` is an observation record for `job`. */
  predicate EntryFor(job: Job, e: Entry) {
    match job
    case SealJob(_, km) => e.EncryptEntry? && e.keyMaterial == km
    case OpenJob(_, key) => e.DecryptEntry? && e.key == key
    case ResetJob(_) => e.ResetEntry?
  }

  /** A section started from view `v0`, about to make call `pc` having observed `e`, with the device's
      part of the store now `v`: exactly the state the uninterrupted section passes through there. */
  ghost predicate PcOk(cfg: Config, dev: Device, v0: View, pc: PC, e: Entry, v: View) {
    match pc
    case AtUnlock(out) => EntryEffect(cfg, dev, v0, e) == (v, out)
    case AtDelete => e == ResetEntry(None) && v == v0
    case AtLoad => e.EncryptEntry? && e.encryptOracle.fault.None? && v == v0
    case AtFetch => e.EncryptEntry? && e.encryptOracle.fault.None? && v == v0 && v0.session.None?
    case AtPutRemote(identity, sess, kx) =>
      && e.EncryptEntry? && v == v0 && v0.session.None?
      && (var o := e.encryptOracle;
          o.fault.None? && o.bundle.Some? && identity == o.bundle.value.identityKey
              && BuildActive(cfg, o.bundle.value, o.ek) == Ok((sess, kx)))
    case AtLoadRemote(sess, kx) => Opened(cfg, v0, e, v, sess, kx)
    case AtLoadTrust(sess, kx, identity) => Opened(cfg, v0, e, v, sess, kx) && v.remote == Some(identity)
    case AtResolve(sess, kx, identity) =>
      Opened(cfg, v0, e, v, sess, kx) && v.remote == Some(identity) && e.encryptOracle.trust == TrustUndecided
          && cfg.resolver.Some?
    case AtSetTrust(sess, kx, identity) =>
      && Opened(cfg, v0, e, v, sess, kx) && v.remote == Some(identity)
      && e.encryptOracle.trust == TrustUndecided && cfg.resolver.Some? && e.encryptOracle.approved
    case AtPutSealed(sess, kx) => Opened(cfg, v0, e, v, sess, kx) && v.remote.Some?
        && Verdict(cfg, e.encryptOracle).None?
    case AtLoadIncoming => e.DecryptEntry? && e.decryptOracle.fault.None? && e.key.keyExchange.None? && v == v0
    case AtCurrentSPK(kx, data) => Offered(cfg, e, kx, data) && v == v0
    case AtStaleSPK(kx, data) => Offered(cfg, e, kx, data) && v == v0
    case AtConsume(kx, data, spk) => Offered(cfg, e, kx, data) && v == v0 && e.decryptOracle.spk == Ok(spk)
    case AtPutPeer(kx, data, sess) =>
      && Offered(cfg, e, kx, data) && v == v0
      && e.decryptOracle.spk.Ok? && e.decryptOracle.preKey.Ok?
      && PassiveFrom(cfg, kx, e.decryptOracle.spk.value, e.decryptOracle.preKey.value) == Ok(sess)
    case AtPutOpened(sess, data) =>
      e.DecryptEntry? && e.decryptOracle.fault.None?
          && OpenIncoming(cfg, v0, e.key, e.decryptOracle) == (v, Ok((sess, data)))
  }

  ghost predicate Opened(cfg: Config, v0: View, e: Entry, v: View, sess: SessionState, kx: Option<KeyExchange>) {
    e.EncryptEntry? && e.encryptOracle.fault.None? && OpenActive(cfg, v0, e.encryptOracle) == (v, Ok((sess, kx)))
  }

  ghost predicate Offered(cfg: Config, e: Entry, kx: KeyExchange, data: Wire) {
    && e.DecryptEntry? && e.decryptOracle.fault.None?
    && e.key.keyExchange.Some? && OfferedExchange(cfg, e.key) == Ok((kx, data))
  }

  /** The first call of a section is in order. */
  lemma StartOk(cfg: Config, dev: Device, v: View, job: Job)
    ensures PcOk(cfg, dev, v, StartPC(cfg, job), StartEntry(job), v)
    ensures EntryFor(job, StartEntry(job))
  {
  }

  lemma OpeningStepOk(cfg: Config, dev: Device, v0: View, s: StoreState, rnd: nat, pc: PC, km: nat, o: EncryptOracle,
          inp: Input)
    requires PcOk(cfg, dev, v0, pc, EncryptEntry(km, o), ViewOf(s, dev))
             && (pc.AtLoad? || pc.AtFetch? || pc.AtPutRemote?)
    ensures var n := SealStep(cfg, s, rnd, dev, pc, km, o, inp);
            && PcOk(cfg, dev, v0, n.pc, n.entry, ViewOf(n.store, dev))
            && n.entry.EncryptEntry? && n.entry.keyMaterial == km
  {
    hide BuildActive, Seal, LoadSession, Verdict, SealView;
  }

  /** What is observed after a session was opened does not bear on the opening. */
  lemma OpenedEarlier(cfg: Config, v0: View, o: EncryptOracle)
    requires o.fault.None?
    ensures forall o': EncryptOracle ::
              o'.bundle == o.bundle && o'.ek == o.ek && o'.fault != Some(LoadSessionCall)
                  && o'.fault != Some(PutRemoteCall) ==>
                OpenActive(cfg, v0, o') == OpenActive(cfg, v0, o)
  {
  }

  lemma LoadTrustStepOk(cfg: Config, dev: Device, v0: View, s: StoreState, rnd: nat, pc: PC, km: nat, o: EncryptOracle,
          inp: Input)
    requires PcOk(cfg, dev, v0, pc, EncryptEntry(km, o), ViewOf(s, dev)) && pc.AtLoadTrust?
    ensures var n := SealStep(cfg, s, rnd, dev, pc, km, o, inp);
            && PcOk(cfg, dev, v0, n.pc, n.entry, ViewOf(n.store, dev))
            && n.entry.EncryptEntry? && n.entry.keyMaterial == km
  {
    OpenedEarlier(cfg, v0, o);
    hide BuildActive, Seal, LoadSession, OpenActive, SealView;
  }

  lemma TrustingStepOk(cfg: Config, dev: Device, v0: View, s: StoreState, rnd: nat, pc: PC, km: nat, o: EncryptOracle,
          inp: Input)
    requires PcOk(cfg, dev, v0, pc, EncryptEntry(km, o), ViewOf(s, dev)) && !pc.AtUnlock? && !pc.AtPutSealed?
    requires !(pc.AtLoad? || pc.AtFetch? || pc.AtPutRemote?)
    ensures var n := SealStep(cfg, s, rnd, dev, pc, km, o, inp);
            && PcOk(cfg, dev, v0, n.pc, n.entry, ViewOf(n.store, dev))
            && n.entry.EncryptEntry? && n.entry.keyMaterial == km
  {
    if pc.AtLoadTrust? {
      hide SealStep, PcOk;
      LoadTrustStepOk(cfg, dev, v0, s, rnd, pc, km, o, inp);
    } else {
      OpenedEarlier(cfg, v0, o);
    }
    hide BuildActive, Seal, LoadSession, OpenActive, SealView, TrustOf;
  }

  lemma StoringStepOk(cfg: Config, dev: Device, v0: View, s: StoreState, rnd: nat, pc: PC, km: nat, o: EncryptOracle,
          inp: Input)
    requires PcOk(cfg, dev, v0, pc, EncryptEntry(km, o), ViewOf(s, dev)) && pc.AtPutSealed?
    ensures var n := SealStep(cfg, s, rnd, dev, pc, km, o, inp);
            && PcOk(cfg, dev, v0, n.pc, n.entry, ViewOf(n.store, dev))
            && n.entry.EncryptEntry? && n.entry.keyMaterial == km
  {
    OpenedEarlier(cfg, v0, o);
    hide BuildActive, Seal, LoadSession, OpenActive;
  }

  lemma SealStepOk(cfg: Config, dev: Device, v0: View, s: StoreState, rnd: nat, pc: PC, km: nat, o: EncryptOracle,
          inp: Input)
    requires PcOk(cfg, dev, v0, pc, EncryptEntry(km, o), ViewOf(s, dev)) && !pc.AtUnlock?
    ensures var n := SealStep(cfg, s, rnd, dev, pc, km, o, inp);
            && PcOk(cfg, dev, v0, n.pc, n.entry, ViewOf(n.store, dev))
            && n.entry.EncryptEntry? && n.entry.keyMaterial == km
  {
    hide SealStep, PcOk;
    if pc.AtLoad? || pc.AtFetch? || pc.AtPutRemote? { OpeningStepOk(cfg, dev, v0, s, rnd, pc, km, o, inp); }
    else if pc.AtPutSealed? { StoringStepOk(cfg, dev, v0, s, rnd, pc, km, o, inp); }
    else { TrustingStepOk(cfg, dev, v0, s, rnd, pc, km, o, inp); }
  }

  lemma OpenStepOk(cfg: Config, dev: Device, v0: View, s: StoreState, rnd: nat, pc: PC, key: RecipientKey,
          o: DecryptOracle, inp: Input)
    requires PcOk(cfg, dev, v0, pc, DecryptEntry(key, o), ViewOf(s, dev)) && !pc.AtUnlock?
    ensures var n := OpenStep(cfg, s, rnd, dev, pc, key, o, inp);
            && PcOk(cfg, dev, v0, n.pc, n.entry, ViewOf(n.store, dev))
            && n.entry.DecryptEntry? && n.entry.key == key
  {
    hide PassiveFrom, Open, LoadSession, OfferedExchange;
  }

  lemma SectionStepOk(cfg: Config, dev: Device, v0: View, s: StoreState, rnd: nat, pc: PC, e: Entry, job: Job,
          inp: Input)
    requires PcOk(cfg, dev, v0, pc, e, ViewOf(s, dev)) && !pc.AtUnlock? && EntryFor(job, e)
    ensures var n := SectionStep(cfg, s, rnd, dev, pc, e, inp);
            PcOk(cfg, dev, v0, n.pc, n.entry, ViewOf(n.store, dev)) && EntryFor(job, n.entry)
  {
    hide SealStep, OpenStep;
    match e {
      case EncryptEntry(km, o) => hide PcOk; SealStepOk(cfg, dev, v0, s, rnd, pc, km, o, inp);
      case DecryptEntry(key, o) => hide PcOk; OpenStepOk(cfg, dev, v0, s, rnd, pc, key, o, inp);
      case ResetEntry(_) =>
    }
  }

  /** A section step touches no other device's part of the store. */
  lemma SectionStepFrame(cfg: Config, s: StoreState, rnd: nat, dev: Device, pc: PC, e: Entry, inp: Input)
    ensures var n := SectionStep(cfg, s, rnd, dev, pc, e, inp);
            forall d :: d != dev ==> ViewOf(n.store, d) == ViewOf(s, d)
  {
    hide BuildActive, Seal, LoadSession, PassiveFrom, Open;
    match e {
      case EncryptEntry(km, o) => SealStepFrame(cfg, s, rnd, dev, pc, km, o, inp);
      case DecryptEntry(key, o) => OpenStepFrame(cfg, s, rnd, dev, pc, key, o, inp);
      case ResetEntry(_) =>
    }
  }

  lemma SealStepFrame(cfg: Config, s: StoreState, rnd: nat, dev: Device, pc: PC, km: nat, o: EncryptOracle, inp: Input)
    ensures forall d :: d != dev ==> ViewOf(SealStep(cfg, s, rnd, dev, pc, km, o, inp).store, d) == ViewOf(s, d)
  {
    hide BuildActive, Seal, LoadSession;
  }

  lemma OpenStepFrame(cfg: Config, s: StoreState, rnd: nat, dev: Device, pc: PC, key: RecipientKey, o: DecryptOracle,
          inp: Input)
    ensures forall d :: d != dev ==> ViewOf(OpenStep(cfg, s, rnd, dev, pc, key, o, inp).store, d) == ViewOf(s, d)
  {
    hide PassiveFrom, Open, LoadSession;
  }

  // ---------- locks ----------

  /** Who holds device `d`'s mutex. */
  function Holder(st: State, d: Device): Option<Tid> {
    if d in st.sh.locks && st.sh.locks[d] in st.sh.held then Some(st.sh.held[st.sh.locks[d]]) else None
  }

  /** Lock discipline: one mutex per device, never shared; a waiting thread waits for its device's mutex; a
      thread in a section holds exactly that section's mutex; every held mutex is held by such a thread. */
  ghost predicate LockInv(st: State) {
    && (forall d :: d in st.sh.locks ==> st.sh.locks[d] < |st.sh.locks|)
    && (forall d1, d2 :: d1 in st.sh.locks && d2 in st.sh.locks && st.sh.locks[d1] == st.sh.locks[d2] ==> d1 == d2)
    && (forall i :: 0 <= i < |st.threads| ==> ThreadLocks(st, i))
    && (forall l :: l in st.sh.held ==> HeldInside(st, l))
  }

  ghost predicate ThreadLocks(st: State, i: Tid)
    requires i < |st.threads|
  {
    match st.threads[i]
    case Want(lock, jobs) => jobs != [] && jobs[0].dev in st.sh.locks && lock == st.sh.locks[jobs[0].dev]
    case In(_, _, jobs) => jobs != [] && Holder(st, jobs[0].dev) == Some(i)
    case _ => true
  }

  ghost predicate HeldInside(st: State, l: LockID)
    requires l in st.sh.held
  {
    var i := st.sh.held[l];
    && i < |st.threads| && st.threads[i].In? && st.threads[i].jobs != []
    && st.threads[i].jobs[0].dev in st.sh.locks && st.sh.locks[st.threads[i].jobs[0].dev] == l
  }

  lemma StepLocks(cfg: Config, st: State, ev: Event)
    requires LockInv(st) && Possible(st, ev)
    ensures LockInv(After(cfg, st, ev))
    ensures forall d :: d in st.sh.locks ==>
            d in After(cfg, st, ev).sh.locks && After(cfg, st, ev).sh.locks[d] == st.sh.locks[d]
  {
    var st' := After(cfg, st, ev);
    if ev.ThreadStep? {
      ThreadStepLocks(cfg, st, ev.t, ev.inp);
    } else {
      forall i | 0 <= i < |st'.threads| ensures ThreadLocks(st', i) {
        if i < |st.threads| { assert ThreadLocks(st, i); }
      }
      forall l | l in st'.sh.held ensures HeldInside(st', l) { assert HeldInside(st, l); }
    }
  }

  lemma ThreadStepLocks(cfg: Config, st: State, t: Tid, inp: Input)
    requires LockInv(st) && Enabled(st, t)
    ensures var st' := Advance(cfg, st, t, inp);
            LockInv(st') && forall d :: d in st.sh.locks ==> d in st'.sh.locks && st'.sh.locks[d] == st.sh.locks[d]
  {
    hide SectionStep, Noted, StartPC, StartEntry, Filed;
    var st' := Advance(cfg, st, t, inp);
    assert ThreadLocks(st, t);
    if st.threads[t].In? && st.threads[t].pc.AtUnlock? {
      ReleaseLocks(cfg, st, t, inp);
    } else {
      forall i | 0 <= i < |st'.threads| ensures ThreadLocks(st', i) {
        KeepsThreadLocks(cfg, st, t, inp, i);
      }
      HeldStay(cfg, st, t, inp);
    }
  }

  lemma HeldStay(cfg: Config, st: State, t: Tid, inp: Input)
    requires LockInv(st) && Enabled(st, t) && !(st.threads[t].In? && st.threads[t].pc.AtUnlock?)
    ensures var st' := Advance(cfg, st, t, inp); forall l :: l in st'.sh.held ==> HeldInside(st', l)
  {
    hide SectionStep, Noted, StartPC, StartEntry, Filed;
    var st' := Advance(cfg, st, t, inp);
    assert ThreadLocks(st, t);
    forall l | l in st'.sh.held ensures HeldInside(st', l) {
      if l in st.sh.held { assert HeldInside(st, l); }
    }
  }

  lemma KeepsThreadLocks(cfg: Config, st: State, t: Tid, inp: Input, i: Tid)
    requires LockInv(st) && Enabled(st, t) && !(st.threads[t].In? && st.threads[t].pc.AtUnlock?)
    requires i < |st.threads|
    ensures ThreadLocks(Advance(cfg, st, t, inp), i)
  {
    hide SectionStep, Noted, StartPC, StartEntry, Filed, HeldInside;
    assert ThreadLocks(st, t) && ThreadLocks(st, i);
    hide LockInv;
  }

  lemma ReleaseLocks(cfg: Config, st: State, t: Tid, inp: Input)
    requires LockInv(st) && Enabled(st, t) && st.threads[t].In? && st.threads[t].pc.AtUnlock?
    ensures LockInv(Advance(cfg, st, t, inp))
  {
    var st' := Advance(cfg, st, t, inp);
    assert ThreadLocks(st, t);
    forall i | 0 <= i < |st'.threads| ensures ThreadLocks(st', i) {
      assert ThreadLocks(st, i);
      if i != t { assert st'.threads[i] == st.threads[i]; }
    }
    forall l | l in st'.sh.held ensures HeldInside(st', l) { assert HeldInside(st, l); }
  }

  // ---------- the invariant ----------

  /** `d`'s part of the store after its finished sections, executed one after the other from `s0`. */
  function SerialView(cfg: Config, s0: StoreState, st: State, d: Device): View {
    Replay(cfg, d, ViewOf(s0, d), At(st.h.log, d)).0
  }

  /** Each entry records the job at its position. */
  ghost predicate AllFor(jobs: seq<Job>, log: seq<Entry>) {
    |jobs| == |log| && forall k :: 0 <= k < |log| ==> EntryFor(jobs[k], log[k])
  }

  ghost predicate DeviceInv(cfg: Config, s0: StoreState, st: State, d: Device) {
    var v0 := SerialView(cfg, s0, st, d);
    var holder := Holder(st, d);
    && At(st.h.outs, d) == Replay(cfg, d, ViewOf(s0, d), At(st.h.log, d)).1
    && |At(st.h.finished, d)| == |At(st.h.log, d)|
    && AllFor(At(st.h.jobs, d), At(st.h.log, d))
    && At(st.h.acquired, d) == At(st.h.finished, d) + (if holder.Some? then [holder.value] else [])
    && (holder.None? ==> ViewOf(st.sh.store, d) == v0)
    && (holder.Some? ==>
          && holder.value < |st.threads| && st.threads[holder.value].In?
          && var th := st.threads[holder.value];
             && th.jobs != [] && th.jobs[0].dev == d
             && EntryFor(th.jobs[0], th.entry)
             && PcOk(cfg, d, v0, th.pc, th.entry, ViewOf(st.sh.store, d)))
  }

  ghost predicate Inv(cfg: Config, s0: StoreState, st: State) {
    LockInv(st) && forall d :: DeviceInv(cfg, s0, st, d)
  }

  /** A device nothing happened to keeps its invariant. */
  lemma Untouched(cfg: Config, s0: StoreState, st: State, st': State, d: Device)
    requires DeviceInv(cfg, s0, st, d)
    requires Holder(st', d) == Holder(st, d)
    requires ViewOf(st'.sh.store, d) == ViewOf(st.sh.store, d)
    requires At(st'.h.log, d) == At(st.h.log, d) && At(st'.h.jobs, d) == At(st.h.jobs, d)
             && At(st'.h.outs, d) == At(st.h.outs, d)
    requires At(st'.h.acquired, d) == At(st.h.acquired, d) && At(st'.h.finished, d) == At(st.h.finished, d)
    requires Holder(st, d).Some? ==> var i := Holder(st, d).value;
             i < |st'.threads| && i < |st.threads| && st'.threads[i] == st.threads[i]
    ensures DeviceInv(cfg, s0, st', d)
  {
    hide PcOk, Replay, EntryFor;
  }

  lemma StepDevices(cfg: Config, s0: StoreState, st: State, ev: Event)
    requires Inv(cfg, s0, st) && Possible(st, ev)
    ensures forall d :: DeviceInv(cfg, s0, After(cfg, st, ev), d)
  {
    hide PcOk, Replay, EntryFor, DeviceInv, SectionStep, Noted, StartPC, StartEntry, Filed;
    StepLocks(cfg, st, ev);
    var st' := After(cfg, st, ev);
    forall d ensures DeviceInv(cfg, s0, st', d) {
      assert DeviceInv(cfg, s0, st, d);
      match ev {
        case Arrive(thread) =>
          assert Holder(st, d).Some? ==> HeldInside(st, st.sh.locks[d]);
          Untouched(cfg, s0, st, st', d);
        case Background(sh) =>
          assert Holder(st, d).Some? ==> HeldInside(st, st.sh.locks[d]);
          Untouched(cfg, s0, st, st', d);
        case ThreadStep(t, inp) => ThreadStepDevice(cfg, s0, st, t, inp, d);
      }
    }
  }

  lemma ThreadStepDevice(cfg: Config, s0: StoreState, st: State, t: Tid, inp: Input, d: Device)
    requires Inv(cfg, s0, st) && Enabled(st, t)
    ensures DeviceInv(cfg, s0, Advance(cfg, st, t, inp), d)
  {
    hide PcOk, Replay, EntryFor, DeviceInv, SectionStep, Noted, StartPC, StartEntry, Filed;
    var st' := Advance(cfg, st, t, inp);
    assert ThreadLocks(st, t);
    match st.threads[t] {
      case In(pc, e, jobs) =>
        if d != jobs[0].dev { ElsewhereInside(cfg, s0, st, t, inp, d); }
        else if pc.AtUnlock? { Releases(cfg, s0, st, t, inp); }
        else { Proceeds(cfg, s0, st, t, inp); }
      case Want(lock, jobs) =>
        if d == jobs[0].dev { Acquires(cfg, s0, st, t, inp); } else { OutsideSections(cfg, s0, st, t, inp, d); }
      case _ => OutsideSections(cfg, s0, st, t, inp, d);
    }
  }

  /** Generating, looking a mutex up and waiting for another device's leave `d` alone. */
  lemma OutsideSections(cfg: Config, s0: StoreState, st: State, t: Tid, inp: Input, d: Device)
    requires Inv(cfg, s0, st) && Enabled(st, t) && !st.threads[t].In?
    requires st.threads[t].Want? ==> st.threads[t].jobs[0].dev != d
    ensures DeviceInv(cfg, s0, Advance(cfg, st, t, inp), d)
  {
    hide Advance, PcOk, Replay, EntryFor;
    assert DeviceInv(cfg, s0, st, d) && ThreadLocks(st, t);
    OutsideFrame(cfg, st, t, inp, d);
    OutsideHolder(cfg, st, t, inp, d);
    hide DeviceInv;
    Untouched(cfg, s0, st, Advance(cfg, st, t, inp), d);
  }

  lemma OutsideFrame(cfg: Config, st: State, t: Tid, inp: Input, d: Device)
    requires Enabled(st, t) && !st.threads[t].In?
    requires st.threads[t].Want? ==> st.threads[t].jobs[0].dev != d
    ensures var st' := Advance(cfg, st, t, inp);
            && ViewOf(st'.sh.store, d) == ViewOf(st.sh.store, d)
            && At(st'.h.log, d) == At(st.h.log, d) && At(st'.h.jobs, d) == At(st.h.jobs, d)
               && At(st'.h.outs, d) == At(st.h.outs, d)
            && At(st'.h.acquired, d) == At(st.h.acquired, d) && At(st'.h.finished, d) == At(st.h.finished, d)
            && |st'.threads| == |st.threads|
               && (forall i :: 0 <= i < |st.threads| && i != t ==> st'.threads[i] == st.threads[i])
  {
    hide StartPC, StartEntry, Filed;
    if st.threads[t].Gen? { GenFrame(cfg, st, t, inp); }
  }

  lemma GenFrame(cfg: Config, st: State, t: Tid, inp: Input)
    requires Enabled(st, t) && st.threads[t].Gen?
    ensures var st' := Advance(cfg, st, t, inp);
            && st'.h == st.h && st'.sh.store.sessions == st.sh.store.sessions
            && st'.sh.store.remoteID == st.sh.store.remoteID && |st'.threads| == |st.threads|
            && (forall i :: 0 <= i < |st.threads| && i != t ==> st'.threads[i] == st.threads[i])
  {
    hide Filed;
  }

  lemma OutsideHolder(cfg: Config, st: State, t: Tid, inp: Input, d: Device)
    requires LockInv(st) && Enabled(st, t) && !st.threads[t].In?
    requires st.threads[t].Want? ==> st.threads[t].jobs[0].dev != d
    ensures Holder(Advance(cfg, st, t, inp), d) == Holder(st, d) && Holder(st, d) != Some(t)
  {
    hide StartPC, StartEntry, Filed, Noted, SectionStep;
    assert ThreadLocks(st, t);
    assert Holder(st, d).Some? ==> HeldInside(st, st.sh.locks[d]);
    if st.threads[t].Want? { assert d in st.sh.locks ==> st.sh.locks[d] != st.threads[t].lock; }
  }

  lemma ElsewhereInside(cfg: Config, s0: StoreState, st: State, t: Tid, inp: Input, d: Device)
    requires Inv(cfg, s0, st) && Enabled(st, t) && st.threads[t].In? && st.threads[t].jobs[0].dev != d
    ensures DeviceInv(cfg, s0, Advance(cfg, st, t, inp), d)
  {
    hide PcOk, Replay, EntryFor, Advance;
    assert DeviceInv(cfg, s0, st, d);
    InsideFrame(cfg, st, t, inp, d);
    InsideHolder(cfg, st, t, inp, d);
    hide DeviceInv, Holder;
    Untouched(cfg, s0, st, Advance(cfg, st, t, inp), d);
  }

  lemma InsideFrame(cfg: Config, st: State, t: Tid, inp: Input, d: Device)
    requires Enabled(st, t) && st.threads[t].In? && st.threads[t].jobs[0].dev != d
    ensures var st' := Advance(cfg, st, t, inp);
            && ViewOf(st'.sh.store, d) == ViewOf(st.sh.store, d)
            && At(st'.h.log, d) == At(st.h.log, d) && At(st'.h.jobs, d) == At(st.h.jobs, d)
            && At(st'.h.outs, d) == At(st.h.outs, d)
            && At(st'.h.acquired, d) == At(st.h.acquired, d) && At(st'.h.finished, d) == At(st.h.finished, d)
            && |st'.threads| == |st.threads|
            && (forall i :: 0 <= i < |st.threads| && i != t ==> st'.threads[i] == st.threads[i])
  {
    hide SectionStep, Noted;
    var th := st.threads[t];
    SectionStepFrame(cfg, st.sh.store, st.sh.rnd, th.jobs[0].dev, th.pc, th.entry, inp);
  }

  lemma InsideHolder(cfg: Config, st: State, t: Tid, inp: Input, d: Device)
    requires LockInv(st) && Enabled(st, t) && st.threads[t].In? && st.threads[t].jobs[0].dev != d
    ensures Holder(Advance(cfg, st, t, inp), d) == Holder(st, d) && Holder(st, d) != Some(t)
  {
    hide SectionStep, Noted;
    assert ThreadLocks(st, t);
    assert Holder(st, d).Some? ==> HeldInside(st, st.sh.locks[d]);
    assert d in st.sh.locks ==> st.sh.locks[d] != st.sh.locks[st.threads[t].jobs[0].dev];
  }

  lemma FinishedOk(cfg: Config, dev: Device, v0: View, pc: PC, e: Entry, v: View)
    requires PcOk(cfg, dev, v0, pc, e, v) && pc.AtUnlock?
    ensures EntryEffect(cfg, dev, v0, e) == (v, pc.out)
  {
    hide EntryEffect;
  }

  lemma Acquires(cfg: Config, s0: StoreState, st: State, t: Tid, inp: Input)
    requires Inv(cfg, s0, st) && Enabled(st, t) && st.threads[t].Want?
    ensures DeviceInv(cfg, s0, Advance(cfg, st, t, inp), st.threads[t].jobs[0].dev)
  {
    hide PcOk, Replay, EntryFor, StartPC, StartEntry;
    var job := st.threads[t].jobs[0];
    var d := job.dev;
    assert DeviceInv(cfg, s0, st, d) && ThreadLocks(st, t);
    StartOk(cfg, d, ViewOf(st.sh.store, d), job);
  }

  lemma Proceeds(cfg: Config, s0: StoreState, st: State, t: Tid, inp: Input)
    requires Inv(cfg, s0, st) && Enabled(st, t) && st.threads[t].In? && !st.threads[t].pc.AtUnlock?
    ensures DeviceInv(cfg, s0, Advance(cfg, st, t, inp), st.threads[t].jobs[0].dev)
  {
    hide PcOk, Replay, EntryFor, SectionStep, Noted;
    var th := st.threads[t];
    var d := th.jobs[0].dev;
    assert DeviceInv(cfg, s0, st, d) && ThreadLocks(st, t);
    SectionStepOk(cfg, d, SerialView(cfg, s0, st, d), st.sh.store, st.sh.rnd, th.pc, th.entry, th.jobs[0], inp);
  }

  lemma Releases(cfg: Config, s0: StoreState, st: State, t: Tid, inp: Input)
    requires Inv(cfg, s0, st) && Enabled(st, t) && st.threads[t].In? && st.threads[t].pc.AtUnlock?
    ensures DeviceInv(cfg, s0, Advance(cfg, st, t, inp), st.threads[t].jobs[0].dev)
  {
    hide PcOk, EntryEffect, EntryFor, Replay;
    var th := st.threads[t];
    var d := th.jobs[0].dev;
    assert DeviceInv(cfg, s0, st, d) && ThreadLocks(st, t);
    FinishedOk(cfg, d, SerialView(cfg, s0, st, d), th.pc, th.entry, ViewOf(st.sh.store, d));
    ReplayOneMore(cfg, d, ViewOf(s0, d), At(st.h.log, d), th.entry);
    UnlockHolder(cfg, st, t, inp);
  }

  lemma ReplayOneMore(cfg: Config, dev: Device, v: View, log: seq<Entry>, e: Entry)
    ensures var (v1, outs) := Replay(cfg, dev, v, log);
            var (v2, out) := EntryEffect(cfg, dev, v1, e);
            Replay(cfg, dev, v, log + [e]) == (v2, outs + [out])
  {
    hide EntryEffect;
    assert (log + [e])[..|log|] == log;
  }

  lemma UnlockHolder(cfg: Config, st: State, t: Tid, inp: Input)
    requires LockInv(st) && Enabled(st, t) && st.threads[t].In? && st.threads[t].pc.AtUnlock?
    ensures Holder(st, st.threads[t].jobs[0].dev) == Some(t)
    ensures Holder(Advance(cfg, st, t, inp), st.threads[t].jobs[0].dev).None?
  {
    assert ThreadLocks(st, t);
    hide ThreadLocks, HeldInside;
  }

  lemma {:induction false} InvOverRuns(cfg: Config, st0: State, evs: seq<Event>)
    requires Quiet(st0) && Exec(cfg, st0, evs).Some?
    ensures Inv(cfg, st0.sh.store, Exec(cfg, st0, evs).value)
  {
    hide Possible, After;
    if evs == [] {
      forall d ensures DeviceInv(cfg, st0.sh.store, st0, d) { }
    } else {
      hide DeviceInv;
      var init := evs[..|evs| - 1];
      InvOverRuns(cfg, st0, init);
      StepLocks(cfg, Exec(cfg, st0, init).value, evs[|evs| - 1]);
      StepDevices(cfg, st0.sh.store, Exec(cfg, st0, init).value, evs[|evs| - 1]);
    }
  }

  // ---------- main results ----------

  /** Serialisability. In every interleaving, with any store failures: the sections of device `d` finished
      in the order their threads acquired `d`'s mutex, each was its thread's job and returned what it returns
      when those sections run one after the other, and while nobody holds the mutex `sessions[d]` and
      `remoteID[d]` are exactly what that sequential execution leaves. While somebody does, they are what the
      running section has made of that state so far, and the stored session is still the sequential one or
      already the section's result. */
  lemma Serialisable(cfg: Config, st0: State, evs: seq<Event>, d: Device)
    requires Quiet(st0) && Exec(cfg, st0, evs).Some?
    ensures var st := Exec(cfg, st0, evs).value;
            var (v, outs) := Replay(cfg, d, ViewOf(st0.sh.store, d), At(st.h.log, d));
            && At(st.h.outs, d) == outs
            && At(st.h.finished, d) <= At(st.h.acquired, d) && |At(st.h.acquired, d)| <= |At(st.h.finished, d)| + 1
            && |At(st.h.finished, d)| == |At(st.h.jobs, d)| == |At(st.h.log, d)|
            && (forall k :: 0 <= k < |At(st.h.log, d)| ==> EntryFor(At(st.h.jobs, d)[k], At(st.h.log, d)[k]))
            && (Holder(st, d).None? ==> ViewOf(st.sh.store, d) == v && At(st.h.finished, d) == At(st.h.acquired, d))
            && (Holder(st, d).Some? ==>
                  Holder(st, d).value < |st.threads|
                  && var th := st.threads[Holder(st, d).value];
                     && th.In? && PcOk(cfg, d, v, th.pc, th.entry, ViewOf(st.sh.store, d))
                     && (ViewOf(st.sh.store, d).session == v.session
                         || (th.pc.AtUnlock? && ViewOf(st.sh.store, d) == EntryEffect(cfg, d, v, th.entry).0)))
  {
    hide PcOk, Replay, EntryFor, EntryEffect;
    InvOverRuns(cfg, st0, evs);
    var st := Exec(cfg, st0, evs).value;
    assert DeviceInv(cfg, st0.sh.store, st, d);
    if Holder(st, d).Some? {
      var th := st.threads[Holder(st, d).value];
      if th.pc.AtUnlock? {
        FinishedOk(cfg, d, SerialView(cfg, st0.sh.store, st, d), th.pc, th.entry, ViewOf(st.sh.store, d));
      } else {
        SessionUntouchedBeforeEnd(cfg, d, SerialView(cfg, st0.sh.store, st, d), th.pc, th.entry,
            ViewOf(st.sh.store, d));
      }
    }
  }

  lemma SessionUntouchedBeforeEnd(cfg: Config, dev: Device, v0: View, pc: PC, e: Entry, v: View)
    requires PcOk(cfg, dev, v0, pc, e, v) && !pc.AtUnlock?
    ensures v.session == v0.session
  {
  }

  // ---------- progress ----------

  predicate Returned(th: Thread) {
    th == Next([])
  }

  function PCRank(pc: PC): nat {
    match pc
    case AtUnlock(_) => 0
    case AtDelete => 1
    case AtPutSealed(_, _) => 1
    case AtSetTrust(_, _, _) => 2
    case AtResolve(_, _, _) => 3
    case AtLoadTrust(_, _, _) => 4
    case AtLoadRemote(_, _) => 5
    case AtPutRemote(_, _, _) => 6
    case AtFetch => 7
    case AtLoad => 8
    case AtPutOpened(_, _) => 1
    case AtPutPeer(_, _, _) => 2
    case AtConsume(_, _, _) => 3
    case AtStaleSPK(_, _) => 4
    case AtCurrentSPK(_, _) => 5
    case AtLoadIncoming => 2
  }

  function Rank(th: Thread): nat {
    match th
    case Next(jobs) => 11 * |jobs|
    case Want(_, jobs) => if jobs == [] then 0 else 11 * |jobs| - 1
    case In(pc, _, jobs) => if jobs == [] then 0 else 11 * |jobs| - 10 + PCRank(pc)
    case Gen(left, _) => left + 1
  }

  function TotalRank(threads: seq<Thread>): nat {
    if threads == [] then 0 else TotalRank(threads[..|threads| - 1]) + Rank(threads[|threads| - 1])
  }

  lemma SectionStepDescends(cfg: Config, dev: Device, v0: View, s: StoreState, rnd: nat, pc: PC, e: Entry, inp: Input)
    requires PcOk(cfg, dev, v0, pc, e, ViewOf(s, dev)) && !pc.AtUnlock?
    ensures PCRank(SectionStep(cfg, s, rnd, dev, pc, e, inp).pc) < PCRank(pc)
  {
    hide BuildActive, Seal, LoadSession, PassiveFrom, Open, OfferedExchange, OpenActive, OpenIncoming;
  }

  lemma {:induction false} OneSmaller(threads: seq<Thread>, t: nat, th: Thread)
    requires t < |threads| && Rank(th) < Rank(threads[t])
    ensures TotalRank(threads[t := th]) < TotalRank(threads)
  {
    var n := |threads| - 1;
    if t < n {
      OneSmaller(threads[..n], t, th);
      assert threads[t := th][..n] == threads[..n][t := th];
    } else {
      assert threads[t := th][..n] == threads[..n];
    }
  }

  lemma {:induction false} SomeRank(threads: seq<Thread>, t: nat)
    requires t < |threads|
    ensures TotalRank(threads) >= Rank(threads[t])
  {
    var n := |threads| - 1;
    if t < n { SomeRank(threads[..n], t); }
  }

  /** Every step of a thread makes progress, and some thread can always step until all have returned: no
      reachable state is deadlocked and every schedule ends. Transport and resolver calls are single steps,
      so this is under the assumption that they return without re-entering the Manager. */
  lemma ProgressAndNoDeadlock(cfg: Config, st0: State, evs: seq<Event>)
    requires Quiet(st0) && Exec(cfg, st0, evs).Some?
    ensures var st := Exec(cfg, st0, evs).value;
            && ((exists i :: 0 <= i < |st.threads| && !Returned(st.threads[i])) ==> exists t :: Enabled(st, t))
            && (forall t, inp :: Enabled(st, t) ==> TotalRank(Advance(cfg, st, t, inp).threads) < TotalRank(st.threads))
  {
    hide PcOk, DeviceInv;
    InvOverRuns(cfg, st0, evs);
    var st := Exec(cfg, st0, evs).value;
    if i :| 0 <= i < |st.threads| && !Returned(st.threads[i]) {
      assert ThreadLocks(st, i);
      if st.threads[i].Want? && st.threads[i].lock in st.sh.held {
        assert HeldInside(st, st.threads[i].lock);
        assert Enabled(st, st.sh.held[st.threads[i].lock]);
      } else {
        assert Enabled(st, i);
      }
    }
    forall t, inp | Enabled(st, t) ensures TotalRank(Advance(cfg, st, t, inp).threads) < TotalRank(st.threads) {
      ThreadDescends(cfg, st0.sh.store, st, t, inp);
    }
  }

  lemma ThreadDescends(cfg: Config, s0: StoreState, st: State, t: Tid, inp: Input)
    requires Inv(cfg, s0, st) && Enabled(st, t)
    ensures TotalRank(Advance(cfg, st, t, inp).threads) < TotalRank(st.threads)
  {
    hide PcOk, SectionStep, StartEntry, Replay, Noted, EntryFor, Filed, TotalRank;
    var st' := Advance(cfg, st, t, inp);
    assert ThreadLocks(st, t);
    match st.threads[t] {
      case In(pc, e, jobs) =>
        if !pc.AtUnlock? {
          assert DeviceInv(cfg, s0, st, jobs[0].dev);
          SectionStepDescends(cfg, jobs[0].dev, SerialView(cfg, s0, st, jobs[0].dev), st.sh.store, st.sh.rnd, pc, e,
              inp);
        }
      case Want(_, jobs) => assert PCRank(StartPC(cfg, jobs[0])) <= 8;
      case _ =>
    }
    assert Rank(st'.threads[t]) < Rank(st.threads[t]);
    OneSmaller(st.threads, t, st'.threads[t]);
    assert st'.threads == st.threads[t := st'.threads[t]];
  }

  /** Lock discipline in every reachable state, and stability: a mutex once created stays its device's. */
  lemma LocksInjectiveAndStable(cfg: Config, st0: State, evs: seq<Event>, ev: Event)
    requires Quiet(st0) && Exec(cfg, st0, evs).Some? && Possible(Exec(cfg, st0, evs).value, ev)
    ensures var st := Exec(cfg, st0, evs).value;
            && (forall d1, d2 :: d1 in st.sh.locks && d2 in st.sh.locks && st.sh.locks[d1] == st.sh.locks[d2] ==>
               d1 == d2)
            && (forall l1, l2 :: l1 in st.sh.held && l2 in st.sh.held && st.sh.held[l1] == st.sh.held[l2] ==> l1 == l2)
            && (forall d :: d in st.sh.locks ==>
                  d in After(cfg, st, ev).sh.locks && After(cfg, st, ev).sh.locks[d] == st.sh.locks[d])
  {
    hide DeviceInv;
    InvOverRuns(cfg, st0, evs);
    var st := Exec(cfg, st0, evs).value;
    StepLocks(cfg, st, ev);
    forall l1, l2 | l1 in st.sh.held && l2 in st.sh.held && st.sh.held[l1] == st.sh.held[l2] ensures l1 == l2 {
      assert HeldInside(st, l1) && HeldInside(st, l2);
    }
  }
}
