/** Reloading the session for every message gives the same outputs as keeping it in memory, although the
    persisted form has no room for the pending first-message state; and exactly when a failing write
    makes the two part. */
module Persistence {
  import opened Basics
  import opened Types
  import opened Signal
  import opened ManagerSpec
  import opened Sections

  /** A device's part of a store that would hold live session objects. An object it holds is advanced in
      place by the ratchet, whatever happens to the write that follows; a new one is held once written. */
  datatype LiveView = LiveView(session: Option<SessionState>, remote: Option<PubKey>)

  function Persisted(v: LiveView): View {
    View(if v.session.Some? then Some(Marshal(v.session.value)) else None, v.remote)
  }

  /** The loaded session never needed its lost field: nothing was pending when it was put away. */
  ghost predicate Settled(cfg: Config, v: LiveView) {
    v.session.Some? ==> v.session.value.protocol == cfg.protocol && v.session.value.pending.None?
  }

  function OpenActiveLive(cfg: Config, v: LiveView, o: EncryptOracle)
    : (LiveView, Result<(SessionState, Option<KeyExchange>), Error>)
  {
    if o.fault == Some(LoadSessionCall) then (v, Err(StoreFailed))
    else if v.session.Some? then (v, Ok((v.session.value, None)))
    else
      var (v1, r) := OpenActive(cfg, View(None, v.remote), o);
      (v.(remote := v1.remote), r)
  }

  /** The live view after the session object in use became `sess`, its write not having succeeded. */
  function InPlace(v: LiveView, held: bool, sess: SessionState): LiveView {
    if held then v.(session := Some(sess)) else v
  }

  function EncryptLive(cfg: Config, dev: Device, v: LiveView, keyMaterial: nat, o: EncryptOracle)
    : (LiveView, Result<RecipientKey, Error>)
  {
    var (v1, active) := OpenActiveLive(cfg, v, o);
    if active.Err? then (v1, Err(active.error))
    else if o.fault == Some(LoadRemoteCall) then (v1, Err(StoreFailed))
    else if v1.remote.None? then (v1, Err(NoKnownIdentityKey))
    else if Verdict(cfg, o).Some? then (v1, Err(Verdict(cfg, o).value))
    else
      var (sess', data) := Seal(active.value.0, keyMaterial);
      if data.Err? then (InPlace(v1, v.session.Some?, sess'), Err(data.error))
      else if o.fault == Some(PutSessionCall) then (InPlace(v1, v.session.Some?, sess'), Err(StoreFailed))
      else (v1.(session := Some(sess')), Ok(RecipientKey(dev.id, data.value, active.value.1)))
  }

  function OpenIncomingLive(cfg: Config, v: LiveView, key: RecipientKey, o: DecryptOracle)
    : (LiveView, Result<(SessionState, Wire), Error>)
  {
    if key.keyExchange.None? then
      if o.fault == Some(LoadSessionCall) then (v, Err(StoreFailed))
      else if v.session.None? then (v, Err(ErrUnknownSession))
      else (v, Ok((v.session.value, key.data)))
    else
      var (v1, r) := OpenIncoming(cfg, View(None, v.remote), key, o);
      (v.(remote := v1.remote), r)
  }

  function DecryptLive(cfg: Config, v: LiveView, key: RecipientKey, o: DecryptOracle): (LiveView, Result<nat, Error>) {
    var (v1, incoming) := OpenIncomingLive(cfg, v, key, o);
    if incoming.Err? then (v1, Err(incoming.error))
    else
      var (sess', km) := Open(incoming.value.0, incoming.value.1);
      if km.Err? then (InPlace(v1, key.keyExchange.None?, sess'), Err(km.error))
      else if o.fault == Some(PutSessionCall) then (InPlace(v1, key.keyExchange.None?, sess'), Err(StoreFailed))
      else (v1.(session := Some(sess')), Ok(km.value))
  }

  function EntryLive(cfg: Config, dev: Device, v: LiveView, e: Entry): (LiveView, Output) {
    match e
    case EncryptEntry(km, o) => var (v', r) := EncryptLive(cfg, dev, v, km, o); (v', KeyOut(r))
    case DecryptEntry(key, o) => var (v', r) := DecryptLive(cfg, v, key, o); (v', MaterialOut(r))
    case ResetEntry(fault) =>
      (if fault == Some(DeleteSessionCall) then v else v.(session := None), ResetOut(fault == Some(DeleteSessionCall)))
  }

  function ReplayLive(cfg: Config, dev: Device, v: LiveView, log: seq<Entry>): (LiveView, seq<Output>) {
    if log == [] then (v, [])
    else
      var (v1, outs) := ReplayLive(cfg, dev, v, log[..|log| - 1]);
      var (v2, out) := EntryLive(cfg, dev, v1, log[|log| - 1]);
      (v2, outs + [out])
  }

  /** The write of a session already held fails after the ratchet has advanced it. */
  predicate Slips(cfg: Config, v: LiveView, e: Entry) {
    match e
    case EncryptEntry(_, o) =>
      && o.fault == Some(PutSessionCall) && v.session.Some? && v.session.value.ratchet.canSend
      && v.remote.Some? && Verdict(cfg, o).None?
    case DecryptEntry(key, o) =>
      && o.fault == Some(PutSessionCall) && v.session.Some? && key.keyExchange.None?
      && RatchetDecrypt(v.session.value.ratchet, key.data).Ok?
    case ResetEntry(_) => false
  }

  /** One section on the live object and on its reloaded form: the same output, nothing pending afterwards,
      and the same stored form unless, and only unless, the section slips. */
  lemma EntryTransparent(cfg: Config, dev: Device, v: LiveView, e: Entry)
    requires Settled(cfg, v)
    ensures var (v', out) := EntryLive(cfg, dev, v, e);
            var (w', out') := EntryEffect(cfg, dev, Persisted(v), e);
            && Settled(cfg, v') && out == out'
            && (Persisted(v') == w' <==> !Slips(cfg, v, e))
  {
    match e
    case EncryptEntry(km, o) => EncryptTransparent(cfg, dev, v, km, o);
    case DecryptEntry(key, o) => DecryptTransparent(cfg, v, key, o);
    case ResetEntry(fault) =>
  }

  lemma EncryptTransparent(cfg: Config, dev: Device, v: LiveView, keyMaterial: nat, o: EncryptOracle)
    requires Settled(cfg, v)
    ensures var (v', r) := EncryptLive(cfg, dev, v, keyMaterial, o);
            var (w', q) := EncryptSection(cfg, dev, Persisted(v), keyMaterial, o);
            && Settled(cfg, v') && r == q
            && (Persisted(v') == w' <==> !Slips(cfg, v, EncryptEntry(keyMaterial, o)))
  {
    var (v1, active) := OpenActiveLive(cfg, v, o);
    var (w1, loaded) := OpenActive(cfg, Persisted(v), o);
    assert Persisted(v1) == w1 && active == loaded;
    if active.Ok? {
      assert active.value.0.protocol == cfg.protocol;
      assert cfg.protocol == ProtocolV2 ==> active.value.0.pending.None?;
    }
  }

  lemma DecryptTransparent(cfg: Config, v: LiveView, key: RecipientKey, o: DecryptOracle)
    requires Settled(cfg, v)
    ensures var (v', r) := DecryptLive(cfg, v, key, o);
            var (w', q) := DecryptSection(cfg, Persisted(v), key, o);
            && Settled(cfg, v') && r == q
            && (Persisted(v') == w' <==> !Slips(cfg, v, DecryptEntry(key, o)))
  {
    var (v1, incoming) := OpenIncomingLive(cfg, v, key, o);
    var (w1, loaded) := OpenIncoming(cfg, Persisted(v), key, o);
    assert Persisted(v1) == w1 && incoming == loaded;
    if incoming.Ok? {
      assert incoming.value.0.protocol == cfg.protocol && incoming.value.0.pending.None?;
      if v.session.Some? && key.keyExchange.None? { ReceivedGrows(v.session.value.ratchet, incoming.value.1); }
    }
  }

  lemma ReceivedGrows(r: Ratchet, data: Wire)
    ensures RatchetDecrypt(r, data).Ok? ==> RatchetDecrypt(r, data).value.0 != r
  {
    if RatchetDecrypt(r, data).Ok? { assert data.index in RatchetDecrypt(r, data).value.0.received; }
  }

  /** Whether the section at `k` of the live history slips. */
  predicate SlipsAt(cfg: Config, dev: Device, remote: Option<PubKey>, log: seq<Entry>, k: nat)
    requires k < |log|
  {
    Slips(cfg, ReplayLive(cfg, dev, LiveView(None, remote), log[..k]).0, log[k])
  }

  /** After the first `k` sections the stored form is the live session's marshalled form, and all outputs
      were the same. */
  predicate InStep(cfg: Config, dev: Device, remote: Option<PubKey>, log: seq<Entry>, k: nat)
    requires k <= |log|
  {
    var (v, outs) := ReplayLive(cfg, dev, LiveView(None, remote), log[..k]);
    Replay(cfg, dev, View(None, remote), log[..k]) == (Persisted(v), outs)
  }

  /** For every history of a device's sections, with any bundles, verdicts and store failures: reloading per
      message and keeping live sessions stay in step to the end if and only if no section slips. */
  lemma ReloadingIsTransparent(cfg: Config, dev: Device, remote: Option<PubKey>, log: seq<Entry>)
    ensures (forall k :: 0 <= k <= |log| ==> InStep(cfg, dev, remote, log, k))
            <==> (forall k :: 0 <= k < |log| ==> !SlipsAt(cfg, dev, remote, log, k))
  {
    hide InStep, SlipsAt;
    if forall k :: 0 <= k < |log| ==> !SlipsAt(cfg, dev, remote, log, k) {
      forall k | 0 <= k <= |log| ensures InStep(cfg, dev, remote, log, k) { StepsUpTo(cfg, dev, remote, log, k); }
    }
    if forall k :: 0 <= k <= |log| ==> InStep(cfg, dev, remote, log, k) {
      forall k | 0 <= k < |log| ensures !SlipsAt(cfg, dev, remote, log, k) {
        assert InStep(cfg, dev, remote, log, k) && InStep(cfg, dev, remote, log, k + 1);
        OneMore(cfg, dev, remote, log, k);
      }
    }
  }

  lemma {:induction false} StepsUpTo(cfg: Config, dev: Device, remote: Option<PubKey>, log: seq<Entry>, k: nat)
    requires k <= |log| && forall j :: 0 <= j < k ==> !SlipsAt(cfg, dev, remote, log, j)
    ensures InStep(cfg, dev, remote, log, k)
  {
    hide SlipsAt, EntryLive, EntryEffect;
    if k > 0 {
      StepsUpTo(cfg, dev, remote, log, k - 1);
      OneMore(cfg, dev, remote, log, k - 1);
    }
  }

  lemma OneMore(cfg: Config, dev: Device, remote: Option<PubKey>, log: seq<Entry>, k: nat)
    requires k < |log| && InStep(cfg, dev, remote, log, k)
    ensures InStep(cfg, dev, remote, log, k + 1) <==> !SlipsAt(cfg, dev, remote, log, k)
  {
    hide EntryLive, EntryEffect, Slips;
    assert log[..k + 1][..k] == log[..k];
    LiveSettled(cfg, dev, remote, log[..k]);
    EntryTransparent(cfg, dev, ReplayLive(cfg, dev, LiveView(None, remote), log[..k]).0, log[k]);
  }

  /** Whatever failed so far, a live session has nothing pending and reloads to itself. */
  lemma {:induction false} LiveSettled(cfg: Config, dev: Device, remote: Option<PubKey>, log: seq<Entry>)
    ensures var v := ReplayLive(cfg, dev, LiveView(None, remote), log).0;
            && Settled(cfg, v)
            && (v.session.Some? ==> LoadSession(cfg.protocol, Marshal(v.session.value)) == Ok(v.session.value))
  {
    hide EntryLive, EntryEffect, Slips;
    if log != [] {
      var n := |log| - 1;
      LiveSettled(cfg, dev, remote, log[..n]);
      EntryTransparent(cfg, dev, ReplayLive(cfg, dev, LiveView(None, remote), log[..n]).0, log[n]);
    }
  }

  /** A failing session write. */
  predicate PutFails(e: Entry) {
    (e.EncryptEntry? && e.encryptOracle.fault == Some(PutSessionCall))
        || (e.DecryptEntry? && e.decryptOracle.fault == Some(PutSessionCall))
  }

  /** In particular histories without a failing session write are transparent, other failures included. */
  lemma TransparentWithoutPutFaults(cfg: Config, dev: Device, remote: Option<PubKey>, log: seq<Entry>)
    requires forall k :: 0 <= k < |log| ==> !PutFails(log[k])
    ensures var (v, outs) := ReplayLive(cfg, dev, LiveView(None, remote), log);
            Replay(cfg, dev, View(None, remote), log) == (Persisted(v), outs)
  {
    hide ReplayLive, Replay;
    forall k | 0 <= k < |log| ensures !SlipsAt(cfg, dev, remote, log, k) { assert !PutFails(log[k]); }
    hide SlipsAt;
    ReloadingIsTransparent(cfg, dev, remote, log);
    assert InStep(cfg, dev, remote, log, |log|) && log[..|log|] == log;
  }

  /** After a slipped send: the live session skips the index whose key was never returned, the reloaded one
      uses it for the next message. */
  lemma SlippedSendSkipsIndex(cfg: Config, dev: Device, v: LiveView, e: Entry, keyMaterial: nat, o: EncryptOracle)
    requires Settled(cfg, v) && e.EncryptEntry? && Slips(cfg, v, e)
    requires o.fault.None? && Verdict(cfg, o).None?
    ensures var r := v.session.value.ratchet;
            && EncryptLive(cfg, dev, EntryLive(cfg, dev, v, e).0, keyMaterial, o).1
               == Ok(RecipientKey(dev.id, Whisper(r.root, r.role, r.sent + 1, keyMaterial), None))
            && EncryptSection(cfg, dev, EntryEffect(cfg, dev, Persisted(v), e).0, keyMaterial, o).1
               == Ok(RecipientKey(dev.id, Whisper(r.root, r.role, r.sent, keyMaterial), None))
  {
  }

  /** After a slipped receive: delivered again, the message is refused by the live session and decrypts under
      the reloaded one. */
  lemma SlippedReceiveRefusesRetry(cfg: Config, dev: Device, v: LiveView, e: Entry, o: DecryptOracle)
    requires Settled(cfg, v) && e.DecryptEntry? && Slips(cfg, v, e) && o.fault.None?
    ensures DecryptLive(cfg, EntryLive(cfg, dev, v, e).0, e.key, o).1 == Err(RatchetFailed)
    ensures DecryptSection(cfg, EntryEffect(cfg, dev, Persisted(v), e).0, e.key, o).1 == Ok(e.key.data.body)
  {
  }

  /** What would go wrong without that order: a ProtocolV1 session persisted before its first encryption
      reloads without its pending state and emits an unwrapped first message. */
  lemma PersistingEarlyLosesTheWrapper(s: SessionState, keyMaterial: nat)
    requires s.protocol == ProtocolV1 && s.pending.Some? && s.ratchet.canSend
    ensures Seal(s, keyMaterial).1.value.PreKeyWhisper?
    ensures Seal(LoadSession(ProtocolV1, Marshal(s)).value, keyMaterial).1.value == Seal(s, keyMaterial).1.value.inner
  {
  }
}
