/** The Manager's calls made one at a time are the sequential execution that serialisability speaks of: seen
    from one device, a run is the replay of the sections its calls ran for that device. */
module Sequential {
  import opened Basics
  import opened Types
  import opened StoreModel
  import opened ManagerSpec
  import opened Sections
  import opened FanOutProofs
  import opened Runs

  /** The sections a fan-out runs for `d`, with what they observe. */
  function FanOutSections(cfg: Config, net: Net, s: StoreState, work: seq<(Device, nat)>, km: nat, d: Device)
    : seq<Entry>
  {
    if work == [] then []
    else
      var n := |work| - 1;
      var s1 := FanOut(cfg, net, s, work[..n], km).0;
      FanOutSections(cfg, net, s, work[..n], km, d)
      + if work[n].0 == d && d != cfg.localDevice
        then [EncryptEntry(km, ObservedByEncrypt(cfg, net, s1, d, work[n].1))] else []
  }

  /** What the fan-out returned for `d`, entry by entry. */
  function FanOutReturns(cfg: Config, work: seq<(Device, nat)>, outs: seq<Outcome>, d: Device): seq<Output>
    requires |outs| <= |work|
  {
    if outs == [] then []
    else
      var n := |outs| - 1;
      FanOutReturns(cfg, work, outs[..n], d) + if work[n].0 == d then ReturnOf(outs[n]) else []
  }

  function ReturnOf(o: Outcome): seq<Output> {
    match o
    case Skipped => []
    case Sealed(key) => [KeyOut(Ok(key))]
    case Failed(e) => [KeyOut(Err(e))]
  }

  /** The sections one call runs for `d`. */
  function SectionsOf(cfg: Config, l: Local, a: Action, d: Device): seq<Entry> {
    match a
    case DoEncrypt(net, jid, plaintext) =>
      var (s1, devices) := RecipientDevices(cfg, net, l.store, jid);
      if devices.Err? then [] else FanOutSections(cfg, net, s1, WorkFor(devices.value, l.rnd + 2), l.rnd, d)
    case DoDecrypt(msg) =>
      var key := KeyFor(msg.keys, cfg.localDevice.id);
      if key.None? || msg.sender != d then [] else [DecryptEntry(key.value, ObservedByDecrypt(cfg, l.store, key.value))]
    case DoReset(dev) => if dev == d then [ResetEntry(None)] else []
    case _ => []
  }

  /** What they return. */
  function ReturnsOf(cfg: Config, l: Local, a: Action, d: Device): seq<Output> {
    match a
    case DoEncrypt(net, jid, plaintext) =>
      var (s1, devices) := RecipientDevices(cfg, net, l.store, jid);
      if devices.Err? then []
      else
        var work := WorkFor(devices.value, l.rnd + 2);
        FanOutReturns(cfg, work, FanOut(cfg, net, s1, work, l.rnd).1, d)
    case DoDecrypt(msg) =>
      var key := KeyFor(msg.keys, cfg.localDevice.id);
      if key.None? || msg.sender != d then [] else [MaterialOut(DecryptKey(cfg, l.store, d, key.value).1)]
    case DoReset(dev) => if dev == d then [ResetOut(false)] else []
    case _ => []
  }

  lemma {:induction false} ReplayConcat(cfg: Config, d: Device, v: View, a: seq<Entry>, b: seq<Entry>)
    ensures var (v1, outs1) := Replay(cfg, d, v, a);
            var (v2, outs2) := Replay(cfg, d, v1, b);
            Replay(cfg, d, v, a + b) == (v2, outs1 + outs2)
  {
    hide EntryEffect;
    if b == [] {
      assert a + b == a;
      assert Replay(cfg, d, v, a).1 + [] == Replay(cfg, d, v, a).1;
    } else {
      var n := |b| - 1;
      ReplayConcat(cfg, d, v, a, b[..n]);
      assert (a + b)[..|a + b| - 1] == a + b[..n] && (a + b)[|a + b| - 1] == b[n];
      var (v1, outs1) := Replay(cfg, d, v, a);
      var (v2, outs2) := Replay(cfg, d, v1, b[..n]);
      var (v3, out) := EntryEffect(cfg, d, v2, b[n]);
      assert Replay(cfg, d, v1, b) == (v3, outs2 + [out]);
      assert (outs1 + outs2) + [out] == outs1 + (outs2 + [out]);
    }
  }

  lemma ReplayOne(cfg: Config, d: Device, v: View, e: Entry)
    ensures var (v', out) := EntryEffect(cfg, d, v, e); Replay(cfg, d, v, [e]) == (v', [out])
  {
    hide EntryEffect;
    assert [e][..0] == [];
    assert Replay(cfg, d, v, [e][..0]) == (v, []);
    assert [] + [EntryEffect(cfg, d, v, e).1] == [EntryEffect(cfg, d, v, e).1];
  }

  /** One entry of the loop: for its own device a section and its output, for others nothing. */
  lemma EntryReplays(cfg: Config, net: Net, s: StoreState, w: (Device, nat), km: nat, d: Device)
    ensures var (s', o) := FanOutOne(cfg, net, s, w.0, km, w.1);
            var log := if w.0 == d && d != cfg.localDevice
                       then [EncryptEntry(km, ObservedByEncrypt(cfg, net, s, d, w.1))] else [];
            Replay(cfg, d, ViewOf(s, d), log) == (ViewOf(s', d), if w.0 == d then ReturnOf(o) else [])
  {
    hide EncryptForDevice, EncryptSection, ObservedByEncrypt;
    EntryFrame(cfg, net, s, w.0, km, w.1);
    if w.0 == d && d != cfg.localDevice {
      EntryIsSection(cfg, net, s, d, km, w.1);
      ReplayOne(cfg, d, ViewOf(s, d), EncryptEntry(km, ObservedByEncrypt(cfg, net, s, d, w.1)));
    }
  }

  lemma {:induction false} FanOutReplays(cfg: Config, net: Net, s: StoreState, work: seq<(Device, nat)>, km: nat,
                                         d: Device)
    ensures var (s', outs) := FanOut(cfg, net, s, work, km);
            Replay(cfg, d, ViewOf(s, d), FanOutSections(cfg, net, s, work, km, d))
            == (ViewOf(s', d), FanOutReturns(cfg, work, outs, d))
  {
    hide FanOutOne, Replay, ObservedByEncrypt, ReturnOf;
    if work == [] {
      NothingReplays(cfg, d, ViewOf(s, d));
    } else {
      var n := |work| - 1;
      FanOutReplays(cfg, net, s, work[..n], km, d);
      var (s1, outs) := FanOut(cfg, net, s, work[..n], km);
      var (s2, o) := FanOutOne(cfg, net, s1, work[n].0, km, work[n].1);
      EntryReplays(cfg, net, s1, work[n], km, d);
      var log := if work[n].0 == d && d != cfg.localDevice
                 then [EncryptEntry(km, ObservedByEncrypt(cfg, net, s1, d, work[n].1))] else [];
      ReplayConcat(cfg, d, ViewOf(s, d), FanOutSections(cfg, net, s, work[..n], km, d), log);
      ReturnsOfPrefix(cfg, work, n, outs, d);
      assert (outs + [o])[..n] == outs;
    }
  }

  lemma NothingReplays(cfg: Config, d: Device, v: View)
    ensures Replay(cfg, d, v, []) == (v, [])
  {
  }

  lemma {:induction false} ReturnsOfPrefix(cfg: Config, work: seq<(Device, nat)>, n: nat, outs: seq<Outcome>, d: Device)
    requires |outs| <= n <= |work|
    ensures FanOutReturns(cfg, work[..n], outs, d) == FanOutReturns(cfg, work, outs, d)
  {
    if outs != [] { ReturnsOfPrefix(cfg, work, n, outs[..|outs| - 1], d); }
  }

  /** One call, seen from one device. */
  lemma CallReplays(cfg: Config, l: Local, a: Action, d: Device)
    ensures Replay(cfg, d, ViewOf(l.store, d), SectionsOf(cfg, l, a, d))
            == (ViewOf(Apply(cfg, l, a).store, d), ReturnsOf(cfg, l, a, d))
  {
    hide FanOut, FanOutSections, DecryptKey, Replay, WorkFor, RecipientDevices;
    NothingReplays(cfg, d, ViewOf(l.store, d));
    match a {
      case DoEncrypt(net, jid, plaintext) =>
        var (s1, devices) := RecipientDevices(cfg, net, l.store, jid);
        RecipientDevicesFrame(cfg, net, l.store, jid);
        if devices.Ok? { FanOutReplays(cfg, net, s1, WorkFor(devices.value, l.rnd + 2), l.rnd, d); }
      case DoDecrypt(msg) =>
        var key := KeyFor(msg.keys, cfg.localDevice.id);
        if key.Some? { DecryptReplays(cfg, l.store, msg.sender, key.value, d); }
      case DoReset(dev) => ResetReplays(cfg, l.store, dev, d);
      case DoGenerate(n) => GeneratedFrame(l.store, n, l.rnd);
      case _ =>
    }
  }

  lemma DecryptReplays(cfg: Config, s: StoreState, sender: Device, key: RecipientKey, d: Device)
    ensures var (s', r) := DecryptKey(cfg, s, sender, key);
            if sender == d
            then Replay(cfg, d, ViewOf(s, d), [DecryptEntry(key, ObservedByDecrypt(cfg, s, key))])
                 == (ViewOf(s', d), [MaterialOut(r)])
            else ViewOf(s', d) == ViewOf(s, d)
  {
    hide DecryptKey, DecryptSection, ObservedByDecrypt, WithView, Replay;
    DecryptIsSection(cfg, s, sender, key);
    ReplayOne(cfg, d, ViewOf(s, d), DecryptEntry(key, ObservedByDecrypt(cfg, s, key)));
    var v' := DecryptSection(cfg, ViewOf(s, sender), key, ObservedByDecrypt(cfg, s, key)).0;
    ViewWith(s, sender, v', s.trust);
  }

  lemma ResetReplays(cfg: Config, s: StoreState, dev: Device, d: Device)
    ensures var s' := s.(sessions := s.sessions - {dev});
            if dev == d then Replay(cfg, d, ViewOf(s, d), [ResetEntry(None)]) == (ViewOf(s', d), [ResetOut(false)])
            else ViewOf(s', d) == ViewOf(s, d)
  {
    hide WithView, Replay;
    ResetIsSection(s, dev);
    ReplayOne(cfg, d, ViewOf(s, d), ResetEntry(None));
    ViewWith(s, dev, ResetSection(ViewOf(s, dev), None), s.trust);
  }

  /** The sections a run executes for `d`, in order, and what they return. */
  function RunSections(cfg: Config, l: Local, acts: seq<Action>, d: Device): seq<Entry> {
    if acts == [] then []
    else
      var init := acts[..|acts| - 1];
      RunSections(cfg, l, init, d) + SectionsOf(cfg, Run(cfg, l, init), acts[|acts| - 1], d)
  }

  function RunReturns(cfg: Config, l: Local, acts: seq<Action>, d: Device): seq<Output> {
    if acts == [] then []
    else
      var init := acts[..|acts| - 1];
      RunReturns(cfg, l, init, d) + ReturnsOf(cfg, Run(cfg, l, init), acts[|acts| - 1], d)
  }

  /** A run of calls made one at a time is, for every device, the replay of the sections it executed: same final
      session and identity, same results. This is the execution every interleaving is equivalent to. */
  lemma {:induction false} RunIsReplay(cfg: Config, l: Local, acts: seq<Action>, d: Device)
    ensures Replay(cfg, d, ViewOf(l.store, d), RunSections(cfg, l, acts, d))
            == (ViewOf(Run(cfg, l, acts).store, d), RunReturns(cfg, l, acts, d))
  {
    hide Replay, Apply, SectionsOf, ReturnsOf;
    if acts == [] {
      NothingReplays(cfg, d, ViewOf(l.store, d));
    } else {
      var init, a := acts[..|acts| - 1], acts[|acts| - 1];
      RunIsReplay(cfg, l, init, d);
      CallReplays(cfg, Run(cfg, l, init), a, d);
      ReplayConcat(cfg, d, ViewOf(l.store, d), RunSections(cfg, l, init, d), SectionsOf(cfg, Run(cfg, l, init), a, d));
    }
  }
}
