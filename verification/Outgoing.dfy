/** What `encrypt` answers, told from the device lists, the board and the plaintext: who gets a message and what it
    carries. */
module Outgoing {
  import opened Basics
  import opened Types
  import opened Signal
  import opened StoreModel
  import opened ManagerSpec
  import opened FanOutProofs
  import opened Runs

  /** The IDs to use for an account: those on record if there are any, else those on the board. */
  function ListOf(net: Net, s: StoreState, jid: string): Option<seq<U32>> {
    if jid in s.devices && s.devices[jid] != [] then Some(s.devices[jid]) else Lookup(net.lists, jid)
  }

  /** The IDs of the own account a message to `jid` is sent to as well. */
  function OwnListOf(cfg: Config, net: Net, s: StoreState, jid: string): seq<U32> {
    var own := ListOf(net, s, cfg.localDevice.jid);
    if jid == cfg.localDevice.jid || own.None? then [] else own.value
  }

  /** `ds` is the account's devices in list order, then the own account's. */
  predicate IsRecipientList(cfg: Config, net: Net, s: StoreState, jid: string, ds: seq<Device>) {
    && ListOf(net, s, jid).Some?
    && var ids, own := ListOf(net, s, jid).value, OwnListOf(cfg, net, s, jid);
       && |ds| == |ids| + |own|
       && (forall i :: 0 <= i < |ids| ==> ds[i] == Device(jid, ids[i]))
       && (forall i :: |ids| <= i < |ds| ==> ds[i] == Device(cfg.localDevice.jid, own[i - |ids|]))
  }

  /** A message to `jid` asks for the list of account `j`. */
  predicate AsksFor(cfg: Config, net: Net, s: StoreState, jid: string, j: string) {
    j == jid || (j == cfg.localDevice.jid && ListOf(net, s, jid).Some?)
  }

  /** The recipient list: it exists exactly when the account's IDs are known or can be fetched; the own account is
      best effort. Lists fetched on the way are recorded, those on record stay. */
  lemma RecipientsExactly(cfg: Config, net: Net, s: StoreState, jid: string)
    ensures var (s', r) := RecipientDevices(cfg, net, s, jid);
            && (r.Ok? <==> ListOf(net, s, jid).Some?)
            && (r.Ok? ==> IsRecipientList(cfg, net, s, jid, r.value))
            && (r.Err? ==> r.error == DeviceListUnavailable && s' == s)
            && s' == s.(devices := s'.devices)
            && (forall j :: Lookup(s'.devices, j) ==
                            if AsksFor(cfg, net, s, jid, j) && ListOf(net, s, j).Some? then ListOf(net, s, j)
                            else Lookup(s.devices, j))
  {
    var own := cfg.localDevice.jid;
    AskedOnce(net, s, jid);
    var s1 := DevicesFor(net, s, jid).0;
    AskedOnce(net, s1, own);
    if jid != own { assert ListOf(net, s1, own) == ListOf(net, s, own); }
    hide DevicesFor;
  }

  lemma AskedOnce(net: Net, s: StoreState, jid: string)
    ensures var (s', r) := DevicesFor(net, s, jid);
            && r == (if ListOf(net, s, jid).Some? then Ok(ListOf(net, s, jid).value) else Err(DeviceListUnavailable))
            && s' == s.(devices := s'.devices)
            && (r.Err? ==> s' == s)
            && (forall j :: Lookup(s'.devices, j) ==
                            if j == jid && ListOf(net, s, jid).Some? then ListOf(net, s, jid)
                            else Lookup(s.devices, j))
  {
  }

  /** The entries of `ds` at `sealedAt` got the keys, those at `failedAt` the errors, in order; every entry is one
      or the other, once, except the local device, which is neither. */
  ghost predicate Answered(cfg: Config, ds: seq<Device>, e: Encrypted, sealedAt: seq<nat>, failedAt: seq<nat>) {
    && Increasing(sealedAt, |ds|) && Increasing(failedAt, |ds|)
    && (forall i :: 0 <= i < |ds| ==>
          && (ds[i] == cfg.localDevice <==> i !in sealedAt && i !in failedAt)
          && !(i in sealedAt && i in failedAt))
    && |e.deviceErrs| == |failedAt|
    && (forall a :: 0 <= a < |failedAt| ==> e.deviceErrs[a].device == ds[failedAt[a]])
    && (e.msg.None? <==> sealedAt == [])
    && (e.msg.Some? ==> |e.msg.value.keys| == |sealedAt|
                        && forall a :: 0 <= a < |sealedAt| ==> e.msg.value.keys[a].device == ds[sealedAt[a]].id)
    && e.err == if sealedAt == [] then Some(ErrNoRecipients) else None
  }

  /** Every device on the account's list and on the own account's, other than the local one, gets exactly one key or
      one device error; without a list for the account the call fails and changes nothing. */
  lemma EveryDeviceAnswered(cfg: Config, net: Net, s: StoreState, rnd: nat, jid: string, plaintext: Option<Bytes>)
    ensures var e := Encrypt(cfg, net, s, rnd, jid, plaintext);
            if ListOf(net, s, jid).None? then e == Encrypted(s, rnd, None, [], Some(DeviceListUnavailable))
            else exists ds, sealedAt, failedAt ::
                   IsRecipientList(cfg, net, s, jid, ds) && Answered(cfg, ds, e, sealedAt, failedAt)
  {
    RecipientsExactly(cfg, net, s, jid);
    var (s1, devices) := RecipientDevices(cfg, net, s, jid);
    hide RecipientDevices, IsRecipientList, ListOf, EncryptToDevices;
    if devices.Ok? {
      var ds := devices.value;
      var outs := FanOut(cfg, net, s1, WorkFor(ds, rnd + 2), rnd).1;
      FanOutAccounting(cfg, net, s1, rnd, ds, plaintext);
      NoOtherError(cfg, net, s1, rnd, ds, plaintext);
      hide FanOut, SealedAt, FailedAt;
      assert Answered(cfg, ds, Encrypt(cfg, net, s, rnd, jid, plaintext), SealedAt(outs), FailedAt(outs));
    }
  }

  lemma NoOtherError(cfg: Config, net: Net, s: StoreState, rnd: nat, ds: seq<Device>, plaintext: Option<Bytes>)
    ensures var e := EncryptToDevices(cfg, net, s, rnd, ds, plaintext);
            e.err == if e.msg.None? then Some(ErrNoRecipients) else None
  {
    hide FanOut;
  }

  // ---------- what it carries ----------

  /** `key` is a ratchet message, wrapped or not, with `km` in it. */
  predicate Brings(key: RecipientKey, km: nat) {
    Whispered(key.data).Whisper? && Whispered(key.data).body == km
  }

  predicate AllBring(keys: seq<RecipientKey>, km: nat) {
    forall key :: key in keys ==> Brings(key, km)
  }

  lemma {:induction false} EveryKeyBrings(cfg: Config, net: Net, s: StoreState, work: seq<(Device, nat)>, km: nat)
    ensures forall o :: o in FanOut(cfg, net, s, work, km).1 && o.Sealed? ==> Brings(o.key, km)
  {
    hide FanOutOne, Brings;
    if work != [] {
      var n := |work| - 1;
      EveryKeyBrings(cfg, net, s, work[..n], km);
      EntryBrings(cfg, net, FanOut(cfg, net, s, work[..n], km).0, work[n], km);
    }
  }

  lemma EntryBrings(cfg: Config, net: Net, s: StoreState, w: (Device, nat), km: nat)
    ensures var o := FanOutOne(cfg, net, s, w.0, km, w.1).1; o.Sealed? ==> Brings(o.key, km)
  {
    hide ActiveSession, CheckTrust;
  }

  lemma {:induction false} KeysAreSealed(outs: seq<Outcome>)
    ensures forall key :: key in KeysOf(outs) ==> Sealed(key) in outs
  {
    if outs != [] { KeysAreSealed(outs[..|outs| - 1]); }
  }

  /** A returned message comes from this device, has a payload exactly when there was a plaintext and then that
      plaintext, and an explicit IV exactly when it is a ProtocolV1 payload's; every recipient key in it brings the
      one key the payload opens under, a scalar drawn in this call. */
  lemma MessageCarries(cfg: Config, net: Net, s: StoreState, rnd: nat, jid: string, plaintext: Option<Bytes>)
    ensures var msg := Encrypt(cfg, net, s, rnd, jid, plaintext).msg;
            msg.Some? ==>
              && msg.value.sender == cfg.localDevice
              && (msg.value.payload.Some? <==> plaintext.Some?)
              && (msg.value.iv.Some? <==> plaintext.Some? && cfg.protocol == ProtocolV1)
              && (plaintext.Some? ==>
                    msg.value.payload.value.plaintext == plaintext.value && msg.value.payload.value.iv == msg.value.iv)
              && exists km :: rnd <= km < rnd + 2 && AllBring(msg.value.keys, km)
                              && (plaintext.Some? ==> msg.value.payload.value.key == km)
  {
    var (s1, devices) := RecipientDevices(cfg, net, s, jid);
    hide RecipientDevices, Brings, FanOut;
    if devices.Ok? {
      var work := WorkFor(devices.value, rnd + 2);
      EveryKeyBrings(cfg, net, s1, work, rnd);
      KeysAreSealed(FanOut(cfg, net, s1, work, rnd).1);
      assert AllBring(KeysOf(FanOut(cfg, net, s1, work, rnd).1), rnd);
    }
  }

  // ---------- payload keys over runs ----------

  /** The payload key of the message a call returned, if it returned one with a payload. */
  function PayloadKeyOf(cfg: Config, l: Local, a: Action): seq<nat> {
    if !a.DoEncrypt? then []
    else
      var msg := Encrypt(cfg, a.net, l.store, l.rnd, a.jid, a.plaintext).msg;
      if msg.Some? && msg.value.payload.Some? then [msg.value.payload.value.key] else []
  }

  /** The payload keys of every message a run returned, in order. */
  function PayloadKeys(cfg: Config, l: Local, acts: seq<Action>): seq<nat> {
    if acts == [] then []
    else
      var init, a := acts[..|acts| - 1], acts[|acts| - 1];
      PayloadKeys(cfg, l, init) + PayloadKeyOf(cfg, Run(cfg, l, init), a)
  }

  lemma CallDrawsPayloadKey(cfg: Config, l: Local, a: Action)
    ensures l.rnd <= Apply(cfg, l, a).rnd
    ensures |PayloadKeyOf(cfg, l, a)| <= 1
    ensures forall i :: 0 <= i < |PayloadKeyOf(cfg, l, a)| ==>
              l.rnd <= PayloadKeyOf(cfg, l, a)[i] < Apply(cfg, l, a).rnd
  {
    hide EncryptToDevices, DecryptMessage, Generated, RecipientDevices;
    if a.DoEncrypt? {
      MessageCarries(cfg, a.net, l.store, l.rnd, a.jid, a.plaintext);
      EncryptFrame(cfg, a.net, l.store, l.rnd, a.jid, a.plaintext);
      ScalarsDrawn(cfg, a.net, l.store, l.rnd, a.jid, a.plaintext);
    }
  }

  lemma ScalarsDrawn(cfg: Config, net: Net, s: StoreState, rnd: nat, jid: string, plaintext: Option<Bytes>)
    ensures var e := Encrypt(cfg, net, s, rnd, jid, plaintext); e.msg.Some? ==> e.rnd >= rnd + 2
  {
    hide FanOut, RecipientDevices;
  }

  /** No two messages share a payload key. */
  lemma {:induction false} NoPayloadKeyReused(cfg: Config, l: Local, acts: seq<Action>)
    ensures var keys := PayloadKeys(cfg, l, acts);
            && (forall i, j :: 0 <= i < j < |keys| ==> keys[i] < keys[j])
            && (forall i :: 0 <= i < |keys| ==> keys[i] < Run(cfg, l, acts).rnd)
  {
    hide Apply, PayloadKeyOf;
    if acts != [] {
      var init, a := acts[..|acts| - 1], acts[|acts| - 1];
      var m := Run(cfg, l, init);
      NoPayloadKeyReused(cfg, l, init);
      CallDrawsPayloadKey(cfg, m, a);
      assert PayloadKeys(cfg, l, acts) == PayloadKeys(cfg, l, init) + PayloadKeyOf(cfg, m, a);
      assert Run(cfg, l, acts) == Apply(cfg, m, a);
    }
  }
}
