/** From an empty store to a running Manager: what InitIdentity stores is what NewManager finds. */
module Startup {
  import opened Basics
  import opened Types
  import opened StoreModel
  import opened ManagerSpec
  import opened Runs
  import MemStore
  import Manager

  /** InitIdentity on a new store, then NewManager on it: a fresh device. */
  method Start(transport: Manager.Transport, entropy: Manager.Entropy, protocol: Protocol,
               resolver: Option<(Device, PubKey) -> bool>, jid: string, id: U32)
    returns (m: Manager.Manager)
    modifies entropy
    ensures m.Valid() && fresh(m) && fresh(m.store) && m.transport == transport && m.entropy == entropy
    ensures m.Cfg() == Config(protocol, Priv(old(entropy.next)), Device(jid, id), resolver)
    ensures FreshDevice(m.Cfg(), Local(m.store.State(), entropy.next))
  {
    var store := new MemStore.Store();
    Manager.Manager.InitIdentity(store, entropy, jid, id);
    m := new Manager.Manager(store, transport, entropy, protocol, resolver);
    FreshlyStarted(m.Cfg(), Local(store.State(), entropy.next), old(entropy.next));
  }

  lemma FreshlyStarted(cfg: Config, l: Local, rnd: nat)
    requires l == Local(Initialised(EmptyStore, cfg.localDevice, rnd), rnd + 2 + DEFAULT_PRE_KEY_COUNT)
    requires cfg.identityKey == l.store.identityKey
    ensures FreshDevice(cfg, l)
  {
    hide Filed, NewPreKeys;
  }

  /** The store says who the device is. */
  predicate Owns(cfg: Config, s: StoreState) {
    s.identityKey == cfg.identityKey && s.localDevice == cfg.localDevice
  }

  /** Whatever is called, the store keeps the identity key and the device: a Manager made from it later, after a
      restart for instance, is the same device with the same key. */
  lemma {:induction false} IdentityForLife(cfg: Config, l: Local, acts: seq<Action>)
    requires FreshDevice(cfg, l)
    ensures Owns(cfg, l.store)
    ensures Owns(cfg, Run(cfg, l, acts).store)
  {
    hide Filed, NewPreKeys;
    if acts != [] {
      hide Apply, FreshDevice;
      var init, a := acts[..|acts| - 1], acts[|acts| - 1];
      IdentityForLife(cfg, l, init);
      CallKeepsIdentity(cfg, Run(cfg, l, init), a);
    }
  }

  lemma CallKeepsIdentity(cfg: Config, l: Local, a: Action)
    ensures var s' := Apply(cfg, l, a).store;
            s'.identityKey == l.store.identityKey && s'.localDevice == l.store.localDevice
  {
    hide Encrypt, DecryptMessage, Generated;
    match a {
      case DoEncrypt(net, jid, plaintext) => EncryptFrame(cfg, net, l.store, l.rnd, jid, plaintext);
      case DoDecrypt(msg) => DecryptFrame(cfg, l.store, msg);
      case DoGenerate(n) => GeneratedFrame(l.store, n, l.rnd);
      case _ =>
    }
  }

  /** NewManager again on the store of a device that has been running. */
  method Restart(m: Manager.Manager, ghost l: Local, ghost acts: seq<Action>) returns (again: Manager.Manager)
    requires m.Valid() && FreshDevice(m.Cfg(), l)
    requires m.store.State() == Run(m.Cfg(), l, acts).store
    ensures again.Valid() && fresh(again) && again.Cfg() == m.Cfg() && again.store == m.store
  {
    IdentityForLife(m.Cfg(), l, acts);
    again := new Manager.Manager(m.store, m.transport, m.entropy, m.protocol, m.trustResolver);
  }
}
