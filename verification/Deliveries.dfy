/** No message is read twice, in every interleaving: whatever is delivered concurrently, again, wrapped again or under
    another name, across resets, replaced sessions and failing store calls. */
module Deliveries {
  import opened Basics
  import opened Types
  import opened Signal
  import opened StoreModel
  import opened ManagerSpec
  import opened Sections
  import opened Interleaving
  import opened Serial
  import opened Conservation
  import opened Positions
  import opened Acceptance
  import opened Once

  /** The place of the message a section got key material out of, if it did. */
  function SpotRead(cfg: Config, e: Entry, out: Output): Option<Spot> {
    if e.DecryptEntry? && out.MaterialOut? && out.material.Ok? && Asked(cfg, e.key).Whisper?
    then Some(SpotOf(Asked(cfg, e.key))) else None
  }

  /** What a finished section read, or a running one that has only its mutex left to release. */
  function ReadAt(cfg: Config, st: State, slot: Slot): Option<Spot> {
    match slot
    case Done(dev, k) =>
      if k < |At(st.h.log, dev)| && k < |At(st.h.outs, dev)|
      then SpotRead(cfg, At(st.h.log, dev)[k], At(st.h.outs, dev)[k]) else None
    case Running(t) =>
      if t < |st.threads| && st.threads[t].In? && st.threads[t].pc.AtUnlock?
      then SpotRead(cfg, st.threads[t].entry, st.threads[t].pc.out) else None
  }

  /** Every place read belongs to a claimed session; it is marked in that session, stored anywhere, and no unstored
      session is that one; and no two sections read the same place. */
  ghost predicate ReadsInv(cfg: Config, st: State) {
    && (forall slot :: ReadAt(cfg, st, slot).Some? ==> SpotTag(ReadAt(cfg, st, slot).value) in st.k.claimed)
    && (forall slot, d :: ReadAt(cfg, st, slot).Some? && Stored(st, d).Some? ==>
          MarkedIn(ReadAt(cfg, st, slot).value, Stored(st, d).value))
    && (forall slot, i: Tid :: ReadAt(cfg, st, slot).Some? && i < |st.threads| && Unstored(st.threads[i]).Some? ==>
          SpotTag(ReadAt(cfg, st, slot).value) != TagOf(Unstored(st.threads[i]).value))
    && (forall s1, s2 :: ReadAt(cfg, st, s1).Some? && ReadAt(cfg, st, s1) == ReadAt(cfg, st, s2) ==> s1 == s2)
  }

  // ---------- what one event reads ----------

  /** Thread `t` is about to store the session that has just opened the message at `x`. */
  ghost predicate Reads(cfg: Config, st: State, t: Tid, inp: Input, x: Spot) {
    && t < |st.threads| && st.threads[t].In? && st.threads[t].jobs != []
    && var th := st.threads[t];
       && th.pc.AtPutOpened? && th.entry.DecryptEntry? && !inp.fails
       && Open(th.pc.sess, th.pc.data).1.Ok? && th.pc.data == Asked(cfg, th.entry.key) && x == SpotOf(th.pc.data)
  }

  /** The data a section opens is what its key asks for. */
  lemma AskedFor(cfg: Config, dev: Device, v0: View, pc: PC, e: Entry, v: View)
    requires PcOk(cfg, dev, v0, pc, e, v) && pc.AtPutOpened?
    ensures e.DecryptEntry? && pc.data == Asked(cfg, e.key)
  {
    hide PassiveFrom, LoadSession;
  }

  lemma StepReads(cfg: Config, dev: Device, v0: View, s: StoreState, rnd: nat, pc: PC, e: Entry, inp: Input)
    requires PcOk(cfg, dev, v0, pc, e, ViewOf(s, dev)) && !pc.AtUnlock?
    ensures var n := SectionStep(cfg, s, rnd, dev, pc, e, inp);
            n.pc.AtUnlock? && SpotRead(cfg, n.entry, n.pc.out).Some? ==>
              && pc.AtPutOpened? && e.DecryptEntry? && !inp.fails && Open(pc.sess, pc.data).1.Ok?
              && pc.data == Asked(cfg, e.key) && SpotRead(cfg, n.entry, n.pc.out) == Some(SpotOf(pc.data))
  {
    if pc.AtPutOpened? { AskedFor(cfg, dev, v0, pc, e, ViewOf(s, dev)); }
    match e {
      case EncryptEntry(km, o) => SealReadsNothing(cfg, s, rnd, dev, pc, km, o, inp);
      case DecryptEntry(key, o) => OpenReads(cfg, s, rnd, dev, pc, key, o, inp);
      case ResetEntry(_) =>
    }
  }

  lemma SealReadsNothing(cfg: Config, s: StoreState, rnd: nat, dev: Device, pc: PC, km: nat, o: EncryptOracle,
          inp: Input)
    ensures SealStep(cfg, s, rnd, dev, pc, km, o, inp).entry.EncryptEntry?
  {
    hide BuildActive, Seal, LoadSession;
  }

  lemma OpenReads(cfg: Config, s: StoreState, rnd: nat, dev: Device, pc: PC, key: RecipientKey, o: DecryptOracle,
          inp: Input)
    requires !pc.AtUnlock?
    ensures var n := OpenStep(cfg, s, rnd, dev, pc, key, o, inp);
            && n.entry.DecryptEntry? && n.entry.key == key
            && (n.pc.AtUnlock? && n.pc.out.MaterialOut? && n.pc.out.material.Ok? ==>
                  pc.AtPutOpened? && !inp.fails && Open(pc.sess, pc.data).1.Ok?)
  {
    hide PassiveFrom, Open, LoadSession;
  }

  lemma OutsideReads(cfg: Config, st: State, t: Tid, inp: Input, slot: Slot)
    requires LockInv(st) && Enabled(st, t) && !st.threads[t].In?
    requires ReadAt(cfg, Advance(cfg, st, t, inp), slot).Some?
    ensures ReadAt(cfg, st, slot) == ReadAt(cfg, Advance(cfg, st, t, inp), slot)
    ensures Before(st, ThreadStep(t, inp), slot) == slot
  {
    hide Filed, OfferedExchange, LockInv, Asked;
  }

  lemma UnlockReads(cfg: Config, st: State, t: Tid, inp: Input, slot: Slot)
    requires LockInv(st) && Enabled(st, t) && st.threads[t].In? && st.threads[t].pc.AtUnlock?
    requires forall d :: |At(st.h.outs, d)| == |At(st.h.log, d)|
    requires ReadAt(cfg, Advance(cfg, st, t, inp), slot).Some?
    ensures ReadAt(cfg, st, Before(st, ThreadStep(t, inp), slot)) == ReadAt(cfg, Advance(cfg, st, t, inp), slot)
  {
    hide SpotRead, LockInv;
  }

  lemma InsideReads(cfg: Config, s0: StoreState, st: State, t: Tid, inp: Input, slot: Slot)
    requires Inv(cfg, s0, st) && Enabled(st, t) && st.threads[t].In? && !st.threads[t].pc.AtUnlock?
    requires ReadAt(cfg, Advance(cfg, st, t, inp), slot).Some?
    ensures Before(st, ThreadStep(t, inp), slot) == slot
    ensures ReadAt(cfg, st, slot) == ReadAt(cfg, Advance(cfg, st, t, inp), slot)
            || (slot == Running(t) && Reads(cfg, st, t, inp, ReadAt(cfg, Advance(cfg, st, t, inp), slot).value))
  {
    hide PcOk, SectionStep, SpotRead, Asked;
    var th := st.threads[t];
    var dev := th.jobs[0].dev;
    assert ThreadLocks(st, t) && DeviceInv(cfg, s0, st, dev);
    if slot == Running(t) {
      StepReads(cfg, dev, SerialView(cfg, s0, st, dev), st.sh.store, st.sh.rnd, th.pc, th.entry, inp);
    }
  }

  /** What was read after an event was read before, or is being read by this step. */
  lemma EventReads(cfg: Config, s0: StoreState, st: State, ev: Event, slot: Slot)
    requires Inv(cfg, s0, st) && Possible(st, ev) && ReadAt(cfg, After(cfg, st, ev), slot).Some?
    ensures ReadAt(cfg, st, Before(st, ev, slot)) == ReadAt(cfg, After(cfg, st, ev), slot)
            || (ev.ThreadStep? && slot == Running(ev.t)
                && Reads(cfg, st, ev.t, ev.inp, ReadAt(cfg, After(cfg, st, ev), slot).value))
  {
    hide Reads, DeviceInv, PcOk, SectionStep, StartPC, StartEntry, Filed, Holder, Noted, SpotRead;
    if ev.ThreadStep? {
      var t := ev.t;
      assert ThreadLocks(st, t);
      if !st.threads[t].In? { OutsideReads(cfg, st, t, ev.inp, slot); }
      else if st.threads[t].pc.AtUnlock? {
        AsManyOutputs(cfg, s0, st);
        UnlockReads(cfg, st, t, ev.inp, slot);
      }
      else { InsideReads(cfg, s0, st, t, ev.inp, slot); }
    }
  }

  lemma AsManyOutputs(cfg: Config, s0: StoreState, st: State)
    requires Inv(cfg, s0, st)
    ensures forall d :: |At(st.h.outs, d)| == |At(st.h.log, d)|
  {
    forall d ensures |At(st.h.outs, d)| == |At(st.h.log, d)| { assert DeviceInv(cfg, s0, st, d); }
  }

  // ---------- what one event does to sessions ----------

  /** The same session, with nothing it marked forgotten. */
  predicate Continues(r: Ratchet, r': Ratchet) {
    r'.root == r.root && r'.role == r.role && r.received <= r'.received
  }

  /** Stored sessions are those stored before or thread `t`'s own, gone on; unstored ones are the same or newly
      claimed. */
  ghost predicate SessionsGoOn(st: State, st': State, t: Tid) {
    && |st.threads| <= |st'.threads| && st.k.claimed <= st'.k.claimed
    && (forall d :: Stored(st', d).Some? ==>
          || (Stored(st, d).Some? && Continues(Stored(st, d).value, Stored(st', d).value))
          || (t < |st.threads| && Unstored(st.threads[t]).Some?
              && Continues(Unstored(st.threads[t]).value, Stored(st', d).value)))
    && (forall i: Tid :: i < |st'.threads| && Unstored(st'.threads[i]).Some? ==>
          || (i < |st.threads| && Unstored(st.threads[i]) == Unstored(st'.threads[i]))
          || TagOf(Unstored(st'.threads[i]).value) !in st.k.claimed)
  }

  lemma SealGoesOnWith(sess: SessionState, km: nat)
    ensures Continues(sess.ratchet, Seal(sess, km).0.ratchet)
  {
  }

  lemma OpenGoesOnWith(sess: SessionState, data: Wire)
    ensures Continues(sess.ratchet, Open(sess, data).0.ratchet)
    ensures Open(sess, data).1.Ok? ==>
              && data.Whisper? && data.root == sess.ratchet.root && data.sender == Other(sess.ratchet.role)
              && data.index !in sess.ratchet.received && data.index in Open(sess, data).0.ratchet.received
  {
  }

  /** One step inside a section that only stores `r`, a continuation of what it worked on. */
  lemma StoringGoesOn(st: State, st': State, t: Tid, d: Device, was: Ratchet, r: Ratchet)
    requires t < |st.threads| == |st'.threads| && st'.k == st.k
    requires forall i :: 0 <= i < |st.threads| && i != t ==> st'.threads[i] == st.threads[i]
    requires st'.sh.store.sessions == st.sh.store.sessions
             || (d in st'.sh.store.sessions && Stored(st', d) == Some(r)
                 && st'.sh.store.sessions == st.sh.store.sessions[d := st'.sh.store.sessions[d]])
    requires Continues(was, r) && Unstored(st'.threads[t]).None?
    requires if Unstored(st.threads[t]).Some? then Unstored(st.threads[t]) == Some(was) else Stored(st, d) == Some(was)
    ensures SessionsGoOn(st, st', t)
  {
    hide Unstored, TagOf;
    forall x | x != d ensures Stored(st', x) == Stored(st, x) {}
  }

  /** One that stores nothing: its unstored session stays, goes, or is newly claimed. */
  lemma CarryingGoesOn(st: State, st': State, t: Tid)
    requires t < |st.threads| == |st'.threads| && st.k.claimed <= st'.k.claimed
    requires forall i :: 0 <= i < |st.threads| && i != t ==> st'.threads[i] == st.threads[i]
    requires forall d :: d in st'.sh.store.sessions ==>
               d in st.sh.store.sessions && st'.sh.store.sessions[d] == st.sh.store.sessions[d]
    requires Unstored(st'.threads[t]).Some? ==>
               Unstored(st'.threads[t]) == Unstored(st.threads[t])
               || TagOf(Unstored(st'.threads[t]).value) !in st.k.claimed
    ensures SessionsGoOn(st, st', t)
  {
    hide Unstored, TagOf;
    forall d | Stored(st', d).Some? ensures Stored(st', d) == Stored(st, d) {}
  }

  lemma SealGoesOn(cfg: Config, st: State, st': State, t: Tid, inp: Input, n: SecState)
    requires PosInv(st) && Exclusive(st, t) && Sourced(st, t) && Stepped(st, st', t, n)
    requires var th := st.threads[t];
             && th.entry.EncryptEntry? && !th.pc.AtUnlock?
             && n == SealStep(cfg, st.sh.store, st.sh.rnd, th.jobs[0].dev, th.pc, th.entry.keyMaterial,
                th.entry.encryptOracle, inp)
    ensures SessionsGoOn(st, st', t)
  {
    hide SealStep, TagOf, PosInv, Seal, Holder, SessionsGoOn;
    var th := st.threads[t];
    var dev := th.jobs[0].dev;
    SealShape(cfg, st.sh.store, st.sh.rnd, dev, th.pc, th.entry.keyMaterial, th.entry.encryptOracle, inp);
    if th.pc.AtPutSealed? {
      SealGoesOnWith(th.pc.sess, th.entry.keyMaterial);
      StoringGoesOn(st, st', t, dev, th.pc.sess.ratchet, Seal(th.pc.sess, th.entry.keyMaterial).0.ratchet);
    } else {
      ClaimedBelow(st);
      CarryingGoesOn(st, st', t);
    }
  }

  lemma OpenGoesOn(cfg: Config, st: State, st': State, t: Tid, inp: Input, n: SecState)
    requires PreKeyInv(st) && PosInv(st) && Exclusive(st, t) && Sourced(st, t) && Stepped(st, st', t, n)
    requires var th := st.threads[t];
             && th.entry.DecryptEntry? && !th.pc.AtUnlock?
             && n == OpenStep(cfg, st.sh.store, st.sh.rnd, th.jobs[0].dev, th.pc, th.entry.key, th.entry.decryptOracle,
                inp)
    ensures SessionsGoOn(st, st', t)
  {
    hide OpenStep, TagOf, PosInv, PreKeyInv, Open, Holder, SessionsGoOn;
    var th := st.threads[t];
    var dev, pc := th.jobs[0].dev, th.pc;
    OpenShape(cfg, st.sh.store, st.sh.rnd, dev, pc, th.entry.key, th.entry.decryptOracle, inp);
    if pc.AtPutOpened? {
      OpenGoesOnWith(pc.sess, pc.data);
      StoringGoesOn(st, st', t, dev, pc.sess.ratchet, Open(pc.sess, pc.data).0.ratchet);
    } else {
      if pc.AtConsume? && n.pc.AtPutPeer? { NewOneTimeTag(st, pc.offer.preKeyID); }
      CarryingGoesOn(st, st', t);
    }
  }

  lemma InsideGoesOn(cfg: Config, s0: StoreState, st: State, t: Tid, inp: Input)
    requires Inv(cfg, s0, st) && PreKeyInv(st) && PosInv(st) && Enabled(st, t)
    requires st.threads[t].In? && !st.threads[t].pc.AtUnlock?
    ensures SessionsGoOn(st, Advance(cfg, st, t, inp), t)
  {
    hide PosInv, PreKeyInv, Exclusive, Sourced, DeviceInv, LockInv, Advance, SealStep, OpenStep, SessionsGoOn;
    var th := st.threads[t];
    InsideFacts(st, t);
    Context(cfg, s0, st, t);
    InsideStep(cfg, st, t, inp);
    assert th.jobs != [];
    var st' := Advance(cfg, st, t, inp);
    var n := SectionStep(cfg, st.sh.store, st.sh.rnd, th.jobs[0].dev, th.pc, th.entry, inp);
    match th.entry {
      case EncryptEntry(_, _) => SealGoesOn(cfg, st, st', t, inp, n);
      case DecryptEntry(_, _) => OpenGoesOn(cfg, st, st', t, inp, n);
      case ResetEntry(_) => CarryingGoesOn(st, st', t);
    }
  }

  /** Steps outside any section, and releasing a mutex. */
  lemma ElsewhereGoesOn(cfg: Config, st: State, ev: Event)
    requires LockInv(st) && Possible(st, ev)
    requires ev.ThreadStep? ==> !st.threads[ev.t].In? || st.threads[ev.t].pc.AtUnlock?
    ensures SessionsGoOn(st, After(cfg, st, ev), if ev.ThreadStep? then ev.t else 0)
  {
    hide LockInv, Filed, TagOf, StartEntry;
    var st' := After(cfg, st, ev);
    if ev.ThreadStep? {
      assert Unstored(st'.threads[ev.t]).None?;
      hide Unstored;
      CarryingGoesOn(st, st', ev.t);
    } else {
      forall d ensures Stored(st', d) == Stored(st, d) {}
    }
  }

  // ---------- preservation ----------

  /** A place being read was not read before: its session has not marked it, or is new. */
  lemma NotReadBefore(cfg: Config, s0: StoreState, st: State, t: Tid, inp: Input, x: Spot, slot: Slot)
    requires Inv(cfg, s0, st) && ReadsInv(cfg, st) && Reads(cfg, st, t, inp, x)
    ensures ReadAt(cfg, st, slot) != Some(x)
  {
    hide Open, ReadAt, Asked;
    var th := st.threads[t];
    Context(cfg, s0, st, t);
    hide Inv;
    OpenGoesOnWith(th.pc.sess, th.pc.data);
    assert Unstored(th).Some? ==> SpotTag(x) == TagOf(Unstored(th).value);
    assert Unstored(th).None? ==>
             Stored(st, th.jobs[0].dev).Some? && !MarkedIn(x, Stored(st, th.jobs[0].dev).value);
  }

  /** The place just read is marked in the session just stored. */
  lemma MarkedNow(cfg: Config, st: State, t: Tid, inp: Input, x: Spot)
    requires Enabled(st, t) && Reads(cfg, st, t, inp, x)
    ensures var st' := Advance(cfg, st, t, inp);
            var d := st.threads[t].jobs[0].dev;
            && Stored(st', d).Some? && SpotTag(x) == TagOf(Stored(st', d).value) && MarkedIn(x, Stored(st', d).value)
  {
    hide Asked, Open;
    var th := st.threads[t];
    OpenGoesOnWith(th.pc.sess, th.pc.data);
  }

  /** One place, before and after an event. */
  lemma OldReadKept(cfg: Config, st: State, st': State, t: Tid, slot: Slot, x: Spot)
    requires ReadsInv(cfg, st) && ReadAt(cfg, st, slot) == Some(x) && SessionsGoOn(st, st', t)
    ensures SpotTag(x) in st'.k.claimed
    ensures forall d :: Stored(st', d).Some? ==> MarkedIn(x, Stored(st', d).value)
    ensures forall i: Tid :: i < |st'.threads| && Unstored(st'.threads[i]).Some? ==>
              SpotTag(x) != TagOf(Unstored(st'.threads[i]).value)
  {
    hide ReadAt, Stored, Unstored, RootTag;
    forall d | Stored(st', d).Some? ensures MarkedIn(x, Stored(st', d).value) {
      if Stored(st, d).Some? { assert MarkedIn(x, Stored(st, d).value); }
    }
  }

  lemma NewReadKept(cfg: Config, st: State, t: Tid, inp: Input, x: Spot)
    requires Enabled(st, t) && Reads(cfg, st, t, inp, x) && PosInv(Advance(cfg, st, t, inp))
    ensures var st' := Advance(cfg, st, t, inp);
            && SpotTag(x) in st'.k.claimed
            && (forall d :: Stored(st', d).Some? ==> MarkedIn(x, Stored(st', d).value))
            && (forall i: Tid :: i < |st'.threads| && Unstored(st'.threads[i]).Some? ==>
                  SpotTag(x) != TagOf(Unstored(st'.threads[i]).value))
  {
    MarkedNow(cfg, st, t, inp, x);
    hide Advance, Reads, Stored, Unstored, RootTag;
    var st' := Advance(cfg, st, t, inp);
    var dev := st.threads[t].jobs[0].dev;
    forall d | Stored(st', d).Some? ensures MarkedIn(x, Stored(st', d).value) {
      if d != dev { assert TagOf(Stored(st', d).value) != TagOf(Stored(st', dev).value); }
    }
    forall i: Tid | i < |st'.threads| && Unstored(st'.threads[i]).Some?
      ensures SpotTag(x) != TagOf(Unstored(st'.threads[i]).value)
    {
      assert UnstoredOk(st', i);
    }
  }

  lemma ReadsKept(cfg: Config, s0: StoreState, st: State, ev: Event)
    requires Inv(cfg, s0, st) && PreKeyInv(st) && PosInv(st) && ReadsInv(cfg, st) && Possible(st, ev)
    requires PosInv(After(cfg, st, ev))
    ensures ReadsInv(cfg, After(cfg, st, ev))
  {
    hide ReadAt, Stored, Unstored, Inv, PreKeyInv, PosInv, Reads, Advance, SpotTag, TagOf, MarkedIn, SessionsGoOn,
        ReadsInv, Enabled, Before;
    var st' := After(cfg, st, ev);
    var t := if ev.ThreadStep? then ev.t else 0;
    EventGoesOn(cfg, s0, st, ev);
    forall slot | ReadAt(cfg, st', slot).Some? ensures Kept(cfg, st', ReadAt(cfg, st', slot).value) {
      var x := ReadAt(cfg, st', slot).value;
      EventReads(cfg, s0, st, ev, slot);
      if ReadAt(cfg, st, Before(st, ev, slot)) == Some(x) { OldReadKept(cfg, st, st', t, Before(st, ev, slot), x); }
      else { NewReadKept(cfg, st, ev.t, ev.inp, x); }
    }
    forall s1, s2 | ReadAt(cfg, st', s1).Some? && ReadAt(cfg, st', s1) == ReadAt(cfg, st', s2) ensures s1 == s2 {
      SameSlot(cfg, s0, st, ev, s1, s2);
    }
    AllKept(cfg, st');
  }

  /** A place read is accounted for in the sessions of `st`. */
  ghost predicate Kept(cfg: Config, st: State, x: Spot) {
    && SpotTag(x) in st.k.claimed
    && (forall d :: Stored(st, d).Some? ==> MarkedIn(x, Stored(st, d).value))
    && (forall i: Tid :: i < |st.threads| && Unstored(st.threads[i]).Some? ==>
          SpotTag(x) != TagOf(Unstored(st.threads[i]).value))
  }

  lemma AllKept(cfg: Config, st: State)
    requires forall slot :: ReadAt(cfg, st, slot).Some? ==> Kept(cfg, st, ReadAt(cfg, st, slot).value)
    requires forall s1, s2 :: ReadAt(cfg, st, s1).Some? && ReadAt(cfg, st, s1) == ReadAt(cfg, st, s2) ==> s1 == s2
    ensures ReadsInv(cfg, st)
  {
    hide ReadAt, Stored, Unstored, SpotTag, TagOf, MarkedIn;
  }

  lemma EventGoesOn(cfg: Config, s0: StoreState, st: State, ev: Event)
    requires Inv(cfg, s0, st) && PreKeyInv(st) && PosInv(st) && Possible(st, ev)
    ensures SessionsGoOn(st, After(cfg, st, ev), if ev.ThreadStep? then ev.t else 0)
  {
    hide PreKeyInv, PosInv, Advance, DeviceInv, LockInv, SessionsGoOn;
    if ev.ThreadStep? && st.threads[ev.t].In? && !st.threads[ev.t].pc.AtUnlock? {
      InsideGoesOn(cfg, s0, st, ev.t, ev.inp);
    } else {
      ElsewhereGoesOn(cfg, st, ev);
    }
  }

  lemma SameSlot(cfg: Config, s0: StoreState, st: State, ev: Event, s1: Slot, s2: Slot)
    requires Inv(cfg, s0, st) && ReadsInv(cfg, st) && Possible(st, ev)
    requires ReadAt(cfg, After(cfg, st, ev), s1).Some?
             && ReadAt(cfg, After(cfg, st, ev), s1) == ReadAt(cfg, After(cfg, st, ev), s2)
    ensures s1 == s2
  {
    var st' := After(cfg, st, ev);
    ReadSomewhere(cfg, st', s1);
    ReadSomewhere(cfg, st', s2);
    hide ReadAt, After, Inv, Before, Possible, Reads;
    var x := ReadAt(cfg, st', s1).value;
    EventReads(cfg, s0, st, ev, s1);
    EventReads(cfg, s0, st, ev, s2);
    var b1, b2 := Before(st, ev, s1), Before(st, ev, s2);
    if ReadAt(cfg, st, b1) == Some(x) && ReadAt(cfg, st, b2) == Some(x) {
      BeforeInjective(cfg, st, ev, s1, s2);
    } else if ReadAt(cfg, st, b1) == Some(x) {
      NotReadBefore(cfg, s0, st, ev.t, ev.inp, x, b1);
    } else if ReadAt(cfg, st, b2) == Some(x) {
      NotReadBefore(cfg, s0, st, ev.t, ev.inp, x, b2);
    }
  }

  lemma ReadSomewhere(cfg: Config, st: State, slot: Slot)
    requires ReadAt(cfg, st, slot).Some?
    ensures EntryAt(st, slot).Some?
  {
  }

  lemma {:induction false} ReadsOverRuns(cfg: Config, st0: State, evs: seq<Event>)
    requires FreshPool(st0) && Exec(cfg, st0, evs).Some?
    ensures ReadsInv(cfg, Exec(cfg, st0, evs).value)
  {
    hide Inv, PreKeyInv, PosInv, Possible, After, FreshPool;
    if evs == [] {
      NothingReadYet(cfg, st0);
    } else {
      hide ReadsInv;
      var init := evs[..|evs| - 1];
      ReadsOverRuns(cfg, st0, init);
      FreshRuns(cfg, st0, init);
      PositionsOverRuns(cfg, st0, evs);
      ReadsKept(cfg, st0.sh.store, Exec(cfg, st0, init).value, evs[|evs| - 1]);
    }
  }

  lemma NothingReadYet(cfg: Config, st: State)
    requires FreshPool(st)
    ensures ReadsInv(cfg, st)
  {
    hide SpotRead;
    forall slot ensures ReadAt(cfg, st, slot).None? {}
  }

  lemma FreshRuns(cfg: Config, st0: State, evs: seq<Event>)
    requires FreshPool(st0) && Exec(cfg, st0, evs).Some?
    ensures var st := Exec(cfg, st0, evs).value; Inv(cfg, st0.sh.store, st) && PreKeyInv(st) && PosInv(st)
  {
    FreshPoolOk(st0);
    hide Inv, PreKeyInv, PosInv, Exec;
    InvOverRuns(cfg, st0, evs);
    PreKeysConserved(cfg, st0, evs);
    PositionsOverRuns(cfg, st0, evs);
  }

  // ---------- outputs ----------

  /** Section `k` of `d` has finished and returned key material. */
  predicate GaveMaterial(st: State, d: Device, k: nat) {
    && k < |At(st.h.log, d)| && k < |At(st.h.outs, d)|
    && At(st.h.log, d)[k].DecryptEntry? && At(st.h.outs, d)[k].MaterialOut? && At(st.h.outs, d)[k].material.Ok?
  }

  lemma MaterialIsWhisper(cfg: Config, dev: Device, v: View, e: Entry)
    ensures var out := EntryEffect(cfg, dev, v, e).1;
            e.DecryptEntry? && out.MaterialOut? && out.material.Ok? ==> Asked(cfg, e.key).Whisper?
  {
    hide PassiveFrom, LoadSession;
  }

  /** No ratchet message is read twice, in any interleaving. With any number of concurrent calls, senders, duplicates
      and reorderings, resets, sessions that replace each other and failing store calls: two finished `DecryptMessage`
      sections that returned key material read different places. */
  lemma NoMessageReadTwiceAnywhere(cfg: Config, st0: State, evs: seq<Event>, d1: Device, k1: nat, d2: Device, k2: nat)
    requires FreshPool(st0) && Exec(cfg, st0, evs).Some?
    requires GaveMaterial(Exec(cfg, st0, evs).value, d1, k1) && GaveMaterial(Exec(cfg, st0, evs).value, d2, k2)
    requires d1 != d2 || k1 != k2
    ensures var st := Exec(cfg, st0, evs).value;
            var x, y := Asked(cfg, At(st.h.log, d1)[k1].key), Asked(cfg, At(st.h.log, d2)[k2].key);
            x.Whisper? && y.Whisper? && (x.root, x.sender, x.index) != (y.root, y.sender, y.index)
  {
    FinishedReads(cfg, st0, evs, d1, k1);
    FinishedReads(cfg, st0, evs, d2, k2);
    hide Exec, FreshPool, Asked, ReadAt, GaveMaterial;
    ReadsOverRuns(cfg, st0, evs);
    assert Done(d1, k1) != Done(d2, k2);
  }

  lemma FinishedReads(cfg: Config, st0: State, evs: seq<Event>, d: Device, k: nat)
    requires FreshPool(st0) && Exec(cfg, st0, evs).Some? && GaveMaterial(Exec(cfg, st0, evs).value, d, k)
    ensures var st := Exec(cfg, st0, evs).value;
            var w := Asked(cfg, At(st.h.log, d)[k].key);
            w.Whisper? && ReadAt(cfg, st, Done(d, k)) == Some(SpotOf(w))
  {
    hide Exec, Replay, EntryEffect, PcOk, Asked;
    InvOverRuns(cfg, st0, evs);
    var st := Exec(cfg, st0, evs).value;
    assert DeviceInv(cfg, st0.sh.store, st, d);
    var met := ReplayOutput(cfg, d, ViewOf(st0.sh.store, d), At(st.h.log, d), k);
    MaterialIsWhisper(cfg, d, met, At(st.h.log, d)[k]);
  }
}
