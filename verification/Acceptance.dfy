/** At-most-once acceptance as the callers see it: in the outputs of finished `DecryptMessage` sections, over
    every interleaving. */
module Acceptance {
  import opened Basics
  import opened Types
  import opened Signal
  import opened StoreModel
  import opened ManagerSpec
  import opened Sections
  import opened Interleaving
  import opened Serial
  import opened Conservation

  /** The section decrypts a key exchange that names one-time prekey `id`. */
  predicate Names(cfg: Config, e: Entry, id: U32) {
    && e.DecryptEntry? && e.key.keyExchange.Some?
    && OfferedExchange(cfg, e.key).Ok? && OfferedExchange(cfg, e.key).value.0.preKeyID == id
  }

  /** Its ConsumePreKey call returned the record. */
  predicate Took(cfg: Config, e: Entry, id: U32) {
    Names(cfg, e, id) && e.decryptOracle.preKey.Ok?
  }

  /** A finished section, by device and position, or a running one, by thread. */
  datatype Slot = Done(dev: Device, k: nat) | Running(t: Tid)

  function EntryAt(st: State, slot: Slot): Option<Entry> {
    match slot
    case Done(dev, k) => if k < |At(st.h.log, dev)| then Some(At(st.h.log, dev)[k]) else None
    case Running(t) => if t < |st.threads| && st.threads[t].In? then Some(st.threads[t].entry) else None
  }

  predicate TookAt(cfg: Config, st: State, slot: Slot, id: U32) {
    EntryAt(st, slot).Some? && Took(cfg, EntryAt(st, slot).value, id)
  }

  /** Whoever took a prekey consumed it, and nobody else took it. */
  ghost predicate TakersInv(cfg: Config, st: State) {
    && (forall slot, id :: TookAt(cfg, st, slot, id) ==> id in st.k.consumed)
    && (forall s1, s2, id :: TookAt(cfg, st, s1, id) && TookAt(cfg, st, s2, id) ==> s1 == s2)
  }

  /** Where the section now at `slot` was before the event. */
  function Before(st: State, ev: Event, slot: Slot): Slot {
    if slot.Done? && slot.k >= |At(st.h.log, slot.dev)| && ev.ThreadStep? then Running(ev.t) else slot
  }

  /** What a section step does to an entry: only a successful ConsumePreKey makes it a taker. */
  lemma StepTakes(cfg: Config, dev: Device, v0: View, s: StoreState, rnd: nat, pc: PC, e: Entry, inp: Input, id: U32)
    requires PcOk(cfg, dev, v0, pc, e, ViewOf(s, dev)) && !pc.AtUnlock?
    requires Took(cfg, SectionStep(cfg, s, rnd, dev, pc, e, inp).entry, id)
    ensures Took(cfg, e, id)
            || (pc.AtConsume? && pc.offer.preKeyID == id && id in s.preKeys && !inp.fails && e.DecryptEntry?)
  {
    hide OfferedExchange, BuildActive, Seal, LoadSession, PassiveFrom, Open;
    match e {
      case EncryptEntry(km, o) => SealPool(cfg, s, rnd, dev, pc, km, o, inp);
      case DecryptEntry(key, o) => OpenTakes(cfg, s, rnd, dev, pc, key, o, inp);
      case ResetEntry(_) =>
    }
  }

  lemma OpenTakes(cfg: Config, s: StoreState, rnd: nat, dev: Device, pc: PC, key: RecipientKey, o: DecryptOracle,
          inp: Input)
    ensures var n := OpenStep(cfg, s, rnd, dev, pc, key, o, inp);
            && n.entry.DecryptEntry? && n.entry.key == key
            && (n.entry.decryptOracle.preKey.Ok? ==>
                  o.preKey.Ok? || (pc.AtConsume? && pc.offer.preKeyID in s.preKeys && !inp.fails))
  {
    hide PassiveFrom, Open, LoadSession;
  }

  /** A taker after an event was one before, or has just taken a live prekey. */
  lemma EventTakes(cfg: Config, s0: StoreState, st: State, ev: Event, slot: Slot, id: U32)
    requires Inv(cfg, s0, st) && Possible(st, ev)
    requires TookAt(cfg, After(cfg, st, ev), slot, id)
    ensures TookAt(cfg, st, Before(st, ev, slot), id)
            || (ev.ThreadStep? && slot == Running(ev.t) && id in st.sh.store.preKeys
                && id in After(cfg, st, ev).k.consumed)
  {
    hide Took, DeviceInv, PcOk, SectionStep, StartPC, StartEntry, Filed, Holder, Noted;
    if ev.ThreadStep? {
      var t := ev.t;
      assert ThreadLocks(st, t);
      if !st.threads[t].In? { OutsideTakes(cfg, st, t, ev.inp, slot, id); }
      else if st.threads[t].pc.AtUnlock? { UnlockTakes(cfg, st, t, ev.inp, slot, id); }
      else { InsideTakes(cfg, s0, st, t, ev.inp, slot, id); }
    }
  }

  lemma OutsideTakes(cfg: Config, st: State, t: Tid, inp: Input, slot: Slot, id: U32)
    requires LockInv(st) && Enabled(st, t) && !st.threads[t].In?
    requires TookAt(cfg, Advance(cfg, st, t, inp), slot, id)
    ensures TookAt(cfg, st, slot, id) && EntryAt(st, slot).Some?
    ensures Before(st, ThreadStep(t, inp), slot) == slot
  {
    hide StartPC, Filed, OfferedExchange, LockInv;
  }

  lemma UnlockTakes(cfg: Config, st: State, t: Tid, inp: Input, slot: Slot, id: U32)
    requires LockInv(st) && Enabled(st, t) && st.threads[t].In? && st.threads[t].pc.AtUnlock?
    requires TookAt(cfg, Advance(cfg, st, t, inp), slot, id)
    ensures TookAt(cfg, st, Before(st, ThreadStep(t, inp), slot), id)
  {
    hide Took, LockInv;
  }

  lemma InsideTakes(cfg: Config, s0: StoreState, st: State, t: Tid, inp: Input, slot: Slot, id: U32)
    requires Inv(cfg, s0, st) && Enabled(st, t) && st.threads[t].In? && !st.threads[t].pc.AtUnlock?
    requires TookAt(cfg, Advance(cfg, st, t, inp), slot, id)
    ensures Before(st, ThreadStep(t, inp), slot) == slot
    ensures TookAt(cfg, st, slot, id)
            || (slot == Running(t) && id in st.sh.store.preKeys && id in Advance(cfg, st, t, inp).k.consumed)
  {
    hide Took, PcOk, SectionStep;
    var th := st.threads[t];
    var dev := th.jobs[0].dev;
    assert ThreadLocks(st, t) && DeviceInv(cfg, s0, st, dev);
    if slot == Running(t) && !TookAt(cfg, st, slot, id) {
      StepTakes(cfg, dev, SerialView(cfg, s0, st, dev), st.sh.store, st.sh.rnd, th.pc, th.entry, inp, id);
      SectionPool(cfg, st.sh.store, st.sh.rnd, dev, th.pc, th.entry, inp);
    }
  }

  /** Each slot had its own predecessor. */
  lemma BeforeInjective(cfg: Config, st: State, ev: Event, s1: Slot, s2: Slot)
    requires Possible(st, ev)
    requires EntryAt(After(cfg, st, ev), s1).Some? && EntryAt(After(cfg, st, ev), s2).Some?
    requires Before(st, ev, s1) == Before(st, ev, s2)
    ensures s1 == s2
  {
    hide SectionStep, Noted, StartPC, StartEntry, Filed;
  }

  lemma ConsumedGrows(cfg: Config, st: State, ev: Event)
    requires Possible(st, ev)
    ensures st.k.consumed <= After(cfg, st, ev).k.consumed
  {
    hide SectionStep, StartPC, StartEntry, Filed;
  }

  lemma TakersKept(cfg: Config, s0: StoreState, st: State, ev: Event)
    requires Inv(cfg, s0, st) && PreKeyInv(st) && TakersInv(cfg, st) && Possible(st, ev)
    ensures TakersInv(cfg, After(cfg, st, ev))
  {
    hide TookAt, After, Inv, Before, Possible;
    var st' := After(cfg, st, ev);
    ConsumedGrows(cfg, st, ev);
    LiveNotConsumed(st);
    hide PreKeyInv;
    forall slot, id | TookAt(cfg, st', slot, id) ensures id in st'.k.consumed { EventTakes(cfg, s0, st, ev, slot, id); }
    forall s1, s2, id | TookAt(cfg, st', s1, id) && TookAt(cfg, st', s2, id) ensures s1 == s2 {
      EventTakes(cfg, s0, st, ev, s1, id);
      EventTakes(cfg, s0, st, ev, s2, id);
      if TookAt(cfg, st, Before(st, ev, s1), id) && TookAt(cfg, st, Before(st, ev, s2), id) {
        TookSomewhere(cfg, st', s1, id);
        TookSomewhere(cfg, st', s2, id);
        BeforeInjective(cfg, st, ev, s1, s2);
      }
    }
  }

  lemma TookSomewhere(cfg: Config, st: State, slot: Slot, id: U32)
    requires TookAt(cfg, st, slot, id)
    ensures EntryAt(st, slot).Some?
  {
  }

  lemma LiveNotConsumed(st: State)
    requires PreKeyInv(st)
    ensures forall id :: id in st.sh.store.preKeys ==> id !in st.k.consumed
  {
  }

  lemma {:induction false} TakersOverRuns(cfg: Config, st0: State, evs: seq<Event>)
    requires FreshPool(st0) && Exec(cfg, st0, evs).Some?
    ensures TakersInv(cfg, Exec(cfg, st0, evs).value)
  {
    hide Inv, PreKeyInv, Possible, After;
    FreshPoolOk(st0);
    if evs != [] {
      hide TakersInv;
      var init := evs[..|evs| - 1];
      TakersOverRuns(cfg, st0, init);
      InvOverRuns(cfg, st0, init);
      PreKeysConserved(cfg, st0, init);
      TakersKept(cfg, st0.sh.store, Exec(cfg, st0, init).value, evs[|evs| - 1]);
    }
  }

  // ---------- outputs ----------

  /** Section `k` of `d` has finished, decrypted an exchange naming `id`, and returned key material. */
  predicate AcceptedAt(cfg: Config, st: State, d: Device, k: nat, id: U32) {
    && k < |At(st.h.log, d)| && k < |At(st.h.outs, d)|
    && Names(cfg, At(st.h.log, d)[k], id)
    && At(st.h.outs, d)[k].MaterialOut? && At(st.h.outs, d)[k].material.Ok?
  }

  /** The output at `k` is what section `k` returned from the view it met. */
  lemma {:induction false} ReplayOutput(cfg: Config, dev: Device, v: View, log: seq<Entry>, k: nat) returns (met: View)
    requires k < |log|
    ensures Replay(cfg, dev, v, log).1[k] == EntryEffect(cfg, dev, met, log[k]).1
  {
    hide EntryEffect;
    var n := |log| - 1;
    if k < n {
      met := ReplayOutput(cfg, dev, v, log[..n], k);
    } else {
      met := Replay(cfg, dev, v, log[..n]).0;
    }
  }

  lemma RefusedWithoutPreKey(cfg: Config, dev: Device, v: View, e: Entry, id: U32)
    requires Names(cfg, e, id)
    ensures var out := EntryEffect(cfg, dev, v, e).1;
            out.MaterialOut? && (out.material.Ok? ==> Took(cfg, e, id))
  {
    hide PassiveFrom, Open, LoadSession;
  }

  /** Every finished section that names an exchange returned a decryption result, and material only if it took
      the prekey. */
  lemma OutputNeedsPreKey(cfg: Config, st0: State, evs: seq<Event>, d: Device, k: nat, id: U32)
    requires Quiet(st0) && Exec(cfg, st0, evs).Some?
    requires var st := Exec(cfg, st0, evs).value; k < |At(st.h.log, d)| && Names(cfg, At(st.h.log, d)[k], id)
    ensures var st := Exec(cfg, st0, evs).value;
            && k < |At(st.h.outs, d)| && At(st.h.outs, d)[k].MaterialOut?
            && (At(st.h.outs, d)[k].material.Ok? ==> TookAt(cfg, st, Done(d, k), id))
  {
    hide Exec, Replay, EntryEffect, Names, PcOk;
    InvOverRuns(cfg, st0, evs);
    var st := Exec(cfg, st0, evs).value;
    assert DeviceInv(cfg, st0.sh.store, st, d);
    var met := ReplayOutput(cfg, d, ViewOf(st0.sh.store, d), At(st.h.log, d), k);
    RefusedWithoutPreKey(cfg, d, met, At(st.h.log, d)[k], id);
  }

  /** At-most-once acceptance in the outputs: in every interleaving, with any number of senders, duplicates and
      reorderings, at most one finished section returned key material for an exchange naming a given one-time
      prekey. */
  lemma AcceptedOnceInOutputs(cfg: Config, st0: State, evs: seq<Event>, d1: Device, k1: nat, d2: Device, k2: nat,
          id: U32)
    requires FreshPool(st0) && Exec(cfg, st0, evs).Some?
    requires AcceptedAt(cfg, Exec(cfg, st0, evs).value, d1, k1, id)
             && AcceptedAt(cfg, Exec(cfg, st0, evs).value, d2, k2, id)
    ensures d1 == d2 && k1 == k2
  {
    hide Exec, TookAt;
    TakersOverRuns(cfg, st0, evs);
    OutputNeedsPreKey(cfg, st0, evs, d1, k1, id);
    OutputNeedsPreKey(cfg, st0, evs, d2, k2, id);
    assert Done(d1, k1) == Done(d2, k2);
  }

  // ---------- redelivery ----------

  /** Sections that acquire their mutex after `then` and name `id` do not take it. */
  ghost predicate LateRefused(cfg: Config, base: State, st: State, id: U32) {
    && id in st.k.consumed
    && (forall d, k :: k >= |At(base.h.acquired, d)| ==> !TookAt(cfg, st, Done(d, k), id))
    && (forall t: Tid :: t < |st.threads| && st.threads[t].In? && LateRun(base, st, t) ==>
       !TookAt(cfg, st, Running(t), id))
  }

  /** The section thread `t` is running acquired its mutex after `base`. */
  predicate LateRun(base: State, st: State, t: Tid)
    requires t < |st.threads| && st.threads[t].In?
  {
    st.threads[t].jobs != []
        && |At(st.h.log, st.threads[t].jobs[0].dev)| >= |At(base.h.acquired, st.threads[t].jobs[0].dev)|
  }

  lemma LateStep(cfg: Config, s0: StoreState, base: State, st: State, ev: Event, id: U32)
    requires Inv(cfg, s0, st) && PreKeyInv(st) && LateRefused(cfg, base, st, id) && Possible(st, ev)
    ensures LateRefused(cfg, base, After(cfg, st, ev), id)
  {
    hide TookAt, PcOk, SectionStep, Noted, StartPC, StartEntry, Filed, DeviceInv;
    var st' := After(cfg, st, ev);
    ConsumedGrows(cfg, st, ev);
    LiveNotConsumed(st);
    hide PreKeyInv;
    forall d, k | k >= |At(base.h.acquired, d)| && TookAt(cfg, st', Done(d, k), id) ensures false {
      EventTakes(cfg, s0, st, ev, Done(d, k), id);
      if k >= |At(st.h.log, d)| && ev.ThreadStep? { NewlyDone(cfg, st, ev, d, k, id); }
    }
    forall t: Tid | t < |st'.threads| && st'.threads[t].In? && LateRun(base, st', t) && TookAt(cfg, st', Running(t), id)
        ensures false {
      EventTakes(cfg, s0, st, ev, Running(t), id);
      RunningBefore(cfg, st, ev, t, id);
    }
  }

  lemma NewlyDone(cfg: Config, st: State, ev: Event, d: Device, k: nat, id: U32)
    requires LockInv(st) && Possible(st, ev) && ev.ThreadStep? && k >= |At(st.h.log, d)|
    requires TookAt(cfg, After(cfg, st, ev), Done(d, k), id)
    ensures st.threads[ev.t].In? && st.threads[ev.t].jobs != [] && st.threads[ev.t].jobs[0].dev == d
            && k == |At(st.h.log, d)|
  {
    hide Took, SectionStep, Noted, StartPC, StartEntry, Filed;
    assert ThreadLocks(st, ev.t);
  }

  /** A taker still running was running the same section before, and no section of its device has finished. */
  lemma RunningBefore(cfg: Config, st: State, ev: Event, t: Tid, id: U32)
    requires LockInv(st) && Possible(st, ev) && TookAt(cfg, st, Running(t), id)
    requires EntryAt(After(cfg, st, ev), Running(t)).Some?
    ensures t < |st.threads| && st.threads[t].In? && After(cfg, st, ev).threads[t].jobs == st.threads[t].jobs
    ensures st.threads[t].jobs != []
            && At(After(cfg, st, ev).h.log, st.threads[t].jobs[0].dev) == At(st.h.log, st.threads[t].jobs[0].dev)
  {
    hide Took, SectionStep, Noted, StartPC, StartEntry, Filed;
    assert ThreadLocks(st, t);
    if ev.ThreadStep? { assert ThreadLocks(st, ev.t); }
  }

  lemma {:induction false} LateOverRuns(cfg: Config, st0: State, first: seq<Event>, later: seq<Event>, id: U32)
    requires FreshPool(st0) && Exec(cfg, st0, first).Some? && Exec(cfg, st0, first + later).Some?
    requires id in Exec(cfg, st0, first).value.k.consumed
    ensures LateRefused(cfg, Exec(cfg, st0, first).value, Exec(cfg, st0, first + later).value, id)
  {
    hide Possible, After, PreKeyInv;
    var base := Exec(cfg, st0, first).value;
    if later == [] {
      assert first + later == first;
      hide Exec;
      InvOverRuns(cfg, st0, first);
      NoneLate(cfg, st0.sh.store, base, id);
    } else {
      var evs := first + later;
      var init := later[..|later| - 1];
      assert evs[..|evs| - 1] == first + init;
      LateOverRuns(cfg, st0, first, init, id);
      FreshPoolOk(st0);
      InvOverRuns(cfg, st0, first + init);
      PreKeysConserved(cfg, st0, first + init);
      hide LateRefused, Inv;
      LateStep(cfg, st0.sh.store, base, Exec(cfg, st0, first + init).value, evs[|evs| - 1], id);
    }
  }

  lemma NoneLate(cfg: Config, s0: StoreState, base: State, id: U32)
    requires Inv(cfg, s0, base) && id in base.k.consumed
    ensures LateRefused(cfg, base, base, id)
  {
    hide PcOk, Replay, EntryFor, Took;
    forall d, k | k >= |At(base.h.acquired, d)|
        ensures !TookAt(cfg, base, Done(d, k), id) { assert DeviceInv(cfg, s0, base, d); }
    forall t: Tid | t < |base.threads| && base.threads[t].In?
        ensures !LateRun(base, base, t) { NotLateYet(cfg, s0, base, t); }
  }

  lemma NotLateYet(cfg: Config, s0: StoreState, base: State, t: Tid)
    requires Inv(cfg, s0, base) && t < |base.threads| && base.threads[t].In?
    ensures !LateRun(base, base, t)
  {
    hide PcOk, Replay, EntryFor;
    assert ThreadLocks(base, t);
    assert DeviceInv(cfg, s0, base, base.threads[t].jobs[0].dev);
  }

  /** Redelivery, in every interleaving: once a one-time prekey is consumed, every section that acquires its
      mutex after that and decrypts an exchange naming it ends in an error. */
  lemma RedeliveryErrs(cfg: Config, st0: State, first: seq<Event>, later: seq<Event>, id: U32, d: Device, k: nat)
    requires FreshPool(st0) && Exec(cfg, st0, first).Some? && Exec(cfg, st0, first + later).Some?
    requires id in Exec(cfg, st0, first).value.k.consumed
    requires k >= |At(Exec(cfg, st0, first).value.h.acquired, d)|
    requires var st := Exec(cfg, st0, first + later).value; k < |At(st.h.log, d)| && Names(cfg, At(st.h.log, d)[k], id)
    ensures var outs := At(Exec(cfg, st0, first + later).value.h.outs, d);
            k < |outs| && outs[k].MaterialOut? && outs[k].material.Err?
  {
    hide Exec, TookAt, Names;
    LateOverRuns(cfg, st0, first, later, id);
    OutputNeedsPreKey(cfg, st0, first + later, d, k, id);
  }

  /** Accepted in an output means consumed, so `RedeliveryErrs` applies to what was accepted before. */
  lemma AcceptedIsConsumed(cfg: Config, st0: State, evs: seq<Event>, d: Device, k: nat, id: U32)
    requires FreshPool(st0) && Exec(cfg, st0, evs).Some? && AcceptedAt(cfg, Exec(cfg, st0, evs).value, d, k, id)
    ensures id in Exec(cfg, st0, evs).value.k.consumed
  {
    hide Exec, TookAt;
    TakersOverRuns(cfg, st0, evs);
    OutputNeedsPreKey(cfg, st0, evs, d, k, id);
  }
}
