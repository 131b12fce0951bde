/** Stored sessions stay usable in every interleaving, with any store failures and inside running sections. */
module Usable {
  import opened Basics
  import opened Types
  import opened Signal
  import opened ManagerSpec
  import opened Sections
  import opened Interleaving
  import opened Serial
  import opened Conservation

  /** A stored session loads, can send, and has a recorded remote identity. */
  predicate ViewUsable(cfg: Config, v: View) {
    v.session.Some? ==>
      v.remote.Some? && LoadSession(cfg.protocol, v.session.value).Ok? && v.session.value.ratchet.canSend
  }

  /** The output reports a failure that usable sessions rule out. */
  predicate UnusableReported(e: Entry, out: Output) {
    || (out.KeyOut? && out.key.Err? && out.key.error in {NoKnownIdentityKey, BadSessionBlob, RatchetFailed})
    || (e.DecryptEntry? && e.key.keyExchange.None? && out == MaterialOut(Err(BadSessionBlob)))
  }

  /** One section, whatever it observes and whichever of its store calls fails. */
  lemma EntryKeepsUsable(cfg: Config, dev: Device, v: View, e: Entry)
    requires ViewUsable(cfg, v)
    ensures var (v', out) := EntryEffect(cfg, dev, v, e); ViewUsable(cfg, v') && !UnusableReported(e, out)
  {
    match e
    case EncryptEntry(km, o) => EncryptKeepsUsable(cfg, dev, v, km, o);
    case DecryptEntry(key, o) => DecryptKeepsUsable(cfg, v, key, o);
    case ResetEntry(_) =>
  }

  lemma EncryptKeepsUsable(cfg: Config, dev: Device, v: View, km: nat, o: EncryptOracle)
    requires ViewUsable(cfg, v)
    ensures var (v', r) := EncryptSection(cfg, dev, v, km, o);
            ViewUsable(cfg, v') && !UnusableReported(EncryptEntry(km, o), KeyOut(r))
  {
    var (v1, active) := OpenActive(cfg, v, o);
    assert ViewUsable(cfg, v1);
    if active.Ok? {
      assert v1.remote.Some? && active.value.0.protocol == cfg.protocol && active.value.0.ratchet.canSend;
    }
  }

  lemma DecryptKeepsUsable(cfg: Config, v: View, key: RecipientKey, o: DecryptOracle)
    requires ViewUsable(cfg, v)
    ensures var (v', r) := DecryptSection(cfg, v, key, o);
            ViewUsable(cfg, v') && !UnusableReported(DecryptEntry(key, o), MaterialOut(r))
  {
    var (v1, incoming) := OpenIncoming(cfg, v, key, o);
    assert ViewUsable(cfg, v1);
    if incoming.Ok? { assert v1.remote.Some? && incoming.value.0.protocol == cfg.protocol; }
  }

  lemma {:induction false} ReplayKeepsUsable(cfg: Config, dev: Device, v: View, log: seq<Entry>)
    requires ViewUsable(cfg, v)
    ensures var (v', outs) := Replay(cfg, dev, v, log);
            ViewUsable(cfg, v') && forall k :: 0 <= k < |outs| ==> !UnusableReported(log[k], outs[k])
  {
    hide ViewUsable, UnusableReported, EntryEffect;
    if log != [] {
      var n := |log| - 1;
      ReplayKeepsUsable(cfg, dev, v, log[..n]);
      EntryKeepsUsable(cfg, dev, Replay(cfg, dev, v, log[..n]).0, log[n]);
    }
  }

  /** A section in progress, at any of its calls. */
  lemma PartWayUsable(cfg: Config, dev: Device, v0: View, pc: PC, e: Entry, v: View)
    requires PcOk(cfg, dev, v0, pc, e, v) && ViewUsable(cfg, v0)
    ensures ViewUsable(cfg, v)
  {
    if pc.AtUnlock? {
      EntryKeepsUsable(cfg, dev, v0, e);
    } else {
      hide EntryEffect, BuildActive, PassiveFrom, LoadSession;
    }
  }

  /** Every device's stored session is usable when the run begins. */
  ghost predicate AllUsable(cfg: Config, st: State) {
    forall d :: ViewUsable(cfg, ViewOf(st.sh.store, d))
  }

  /** No finished section of `d` failed for want of a usable session. */
  predicate NoneUnusable(st: State, d: Device) {
    && |At(st.h.outs, d)| == |At(st.h.log, d)|
    && forall k :: 0 <= k < |At(st.h.outs, d)| ==> !UnusableReported(At(st.h.log, d)[k], At(st.h.outs, d)[k])
  }

  /** In every interleaving, with any store failures, at every moment: every stored session loads, can send and
      has a recorded identity, and no finished section ever failed for want of one of these. */
  lemma SessionsUsableThroughout(cfg: Config, st0: State, evs: seq<Event>)
    requires Quiet(st0) && AllUsable(cfg, st0) && Exec(cfg, st0, evs).Some?
    ensures var st := Exec(cfg, st0, evs).value;
            && AllUsable(cfg, st)
            && (forall d :: NoneUnusable(st, d))
  {
    hide Exec, Replay, PcOk, EntryEffect, ViewUsable, UnusableReported;
    var st := Exec(cfg, st0, evs).value;
    forall d
      ensures ViewUsable(cfg, ViewOf(st.sh.store, d))
      ensures NoneUnusable(st, d)
    {
      Serialisable(cfg, st0, evs, d);
      assert ViewUsable(cfg, ViewOf(st0.sh.store, d));
      ReplayKeepsUsable(cfg, d, ViewOf(st0.sh.store, d), At(st.h.log, d));
      if Holder(st, d).Some? {
        var th := st.threads[Holder(st, d).value];
        var v0 := Replay(cfg, d, ViewOf(st0.sh.store, d), At(st.h.log, d)).0;
        PartWayUsable(cfg, d, v0, th.pc, th.entry, ViewOf(st.sh.store, d));
      }
    }
  }

  /** A device fresh from InitIdentity begins so: it has no sessions. */
  lemma FreshIsUsable(cfg: Config, st0: State, evs: seq<Event>)
    requires FreshPool(st0) && Exec(cfg, st0, evs).Some?
    ensures var st := Exec(cfg, st0, evs).value;
            && AllUsable(cfg, st)
            && (forall d :: NoneUnusable(st, d))
  {
    hide Exec;
    SessionsUsableThroughout(cfg, st0, evs);
  }
}
