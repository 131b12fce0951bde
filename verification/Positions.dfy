/** No send-position reuse in the interleaving model: over a whole run, with resets, replaced sessions and
    failing store writes, no two returned recipient keys sit at the same (root, direction, index). */
module Positions {
  import opened Basics
  import opened Types
  import opened Signal
  import opened StoreModel
  import opened ManagerSpec
  import opened Sections
  import opened Interleaving
  import opened Serial
  import opened Conservation

  // ---------- where things stand ----------

  /** A returned key is a ratchet message, wrapped or not. */
  predicate IsWhisper(key: RecipientKey) {
    Whispered(key.data).Whisper?
  }

  function KeyTag(key: RecipientKey): Tag
    requires IsWhisper(key)
  {
    RootTag(Whispered(key.data).root, Whispered(key.data).sender)
  }

  function KeyIndex(key: RecipientKey): nat
    requires IsWhisper(key)
  {
    Whispered(key.data).index
  }

  /** The stored session of a device, as a ratchet. */
  function Stored(st: State, d: Device): Option<Ratchet> {
    if d in st.sh.store.sessions && st.sh.store.sessions[d].Blob? then Some(st.sh.store.sessions[d].ratchet) else None
  }

  /** A session a thread has just derived and not stored yet. */
  function Unstored(th: Thread): Option<Ratchet> {
    if !th.In? then None
    else
      match th.pc
      case AtPutRemote(_, sess, _) => Some(sess.ratchet)
      case AtLoadRemote(sess, kx) => if kx.Some? then Some(sess.ratchet) else None
      case AtLoadTrust(sess, kx, _) => if kx.Some? then Some(sess.ratchet) else None
      case AtResolve(sess, kx, _) => if kx.Some? then Some(sess.ratchet) else None
      case AtSetTrust(sess, kx, _) => if kx.Some? then Some(sess.ratchet) else None
      case AtPutSealed(sess, kx) => if kx.Some? then Some(sess.ratchet) else None
      case AtPutPeer(_, _, sess) => Some(sess.ratchet)
      case AtPutOpened(sess, _) => if th.entry.DecryptEntry? && th.entry.key.keyExchange.Some? then Some(sess.ratchet)
          else None
      case _ => None
  }

  /** A key persisted but not returned yet. */
  function Pending(th: Thread): Option<RecipientKey> {
    if th.In? && th.pc.AtUnlock? && th.pc.out.KeyOut? && th.pc.out.key.Ok? then Some(th.pc.out.key.value) else None
  }

  /** Somebody holding `d`'s mutex has a pending key. */
  predicate PendingHolder(st: State, d: Device) {
    var h := Holder(st, d);
    h.Some? && h.value < |st.threads| && Pending(st.threads[h.value]).Some?
  }

  /** Indices below this have been returned for `d`'s stored session. */
  function Limit(st: State, d: Device, r: Ratchet): int {
    if PendingHolder(st, d) then r.sent - 1 else r.sent
  }

  // ---------- the invariant ----------

  ghost predicate ClaimsInv(st: State) {
    && (forall tag :: tag in st.k.claimed ==> tag.seed < st.sh.rnd)
    && (forall id :: id in st.k.issued && id !in st.k.consumed && st.k.issued[id].pub.Pub? ==>
       Tag(Passive, st.k.issued[id].pub.n) !in st.k.claimed)
  }

  ghost predicate StoredClaimed(st: State) {
    && (forall d :: Stored(st, d).Some? ==> TagOf(Stored(st, d).value) in st.k.claimed)
    && (forall a, b :: a != b && Stored(st, a).Some? && Stored(st, b).Some? ==>
       TagOf(Stored(st, a).value) != TagOf(Stored(st, b).value))
  }

  ghost predicate ReturnedInv(st: State) {
    && (forall a :: 0 <= a < |st.k.returned| ==>
       IsWhisper(st.k.returned[a]) && KeyTag(st.k.returned[a]) in st.k.claimed)
    && (forall a, d :: 0 <= a < |st.k.returned| && Stored(st, d).Some? ==> Behind(st, st.k.returned[a], d))
    && (forall a, b :: 0 <= a < b < |st.k.returned| ==> !SameSpot(st.k.returned[a], st.k.returned[b]))
  }

  /** A returned key of `d`'s stored session is behind its limit. */
  ghost predicate Behind(st: State, key: RecipientKey, d: Device)
    requires Stored(st, d).Some?
  {
    var r := Stored(st, d).value;
    IsWhisper(key) && KeyTag(key) == TagOf(r) ==> KeyIndex(key) < Limit(st, d, r)
  }

  predicate SameSpot(a: RecipientKey, b: RecipientKey) {
    IsWhisper(a) && IsWhisper(b) && KeyTag(a) == KeyTag(b) && KeyIndex(a) == KeyIndex(b)
  }

  /** An unstored session is new: nothing stored, returned or otherwise unstored has its tag. */
  ghost predicate UnstoredOk(st: State, i: Tid)
    requires i < |st.threads|
  {
    var u := Unstored(st.threads[i]);
    u.Some? ==>
      && u.value.sent == 0 && TagOf(u.value) in st.k.claimed
      && (forall d :: Stored(st, d).Some? ==> TagOf(Stored(st, d).value) != TagOf(u.value))
      && (forall a :: 0 <= a < |st.k.returned| && IsWhisper(st.k.returned[a]) ==>
         KeyTag(st.k.returned[a]) != TagOf(u.value))
  }

  ghost predicate UnstoredDistinct(st: State) {
    forall i, j :: 0 <= i < j < |st.threads| && Unstored(st.threads[i]).Some? && Unstored(st.threads[j]).Some? ==>
      TagOf(Unstored(st.threads[i]).value) != TagOf(Unstored(st.threads[j]).value)
  }

  /** A pending key is the last one its device's stored session sent. */
  ghost predicate PendingOk(st: State, i: Tid)
    requires i < |st.threads|
  {
    var p := Pending(st.threads[i]);
    p.Some? ==>
      && st.threads[i].jobs != []
      && var r := Stored(st, st.threads[i].jobs[0].dev);
         && r.Some? && IsWhisper(p.value) && KeyTag(p.value) == TagOf(r.value) && KeyIndex(p.value) == r.value.sent - 1
  }

  ghost predicate PosInv(st: State) {
    && ClaimsInv(st) && StoredClaimed(st) && ReturnedInv(st) && UnstoredDistinct(st)
    && (forall i :: 0 <= i < |st.threads| ==> UnstoredOk(st, i) && PendingOk(st, i))
  }

  // ---------- facts about tags ----------

  lemma ActiveTag(cfg: Config, b: Bundle, ek: nat)
    ensures var r := BuildActive(cfg, b, ek);
            r.Ok? ==> TagOf(r.value.0.ratchet) == Tag(Active, ek) && r.value.0.ratchet.sent == 0
  {
  }

  lemma PassiveTag(cfg: Config, kx: KeyExchange, spk: SignedPreKeyRecord, pk: PreKeyRecord)
    ensures var r := PassiveFrom(cfg, kx, spk, pk);
            r.Ok? ==> pk.priv.Priv? && TagOf(r.value.ratchet) == Tag(Passive, pk.priv.n) && r.value.ratchet.sent == 0
  {
  }

  lemma SealedSpot(sess: SessionState, km: nat)
    ensures var (sess', data) := Seal(sess, km);
            data.Ok? ==>
              && Whispered(data.value) == Whisper(sess.ratchet.root, sess.ratchet.role, sess.ratchet.sent, km)
              && sess'.ratchet == sess.ratchet.(sent := sess.ratchet.sent + 1)
  {
  }

  /** Sealing stays within a session, and its key is that session's. */
  lemma SealedTag(sess: SessionState, km: nat, id: U32, kx: Option<KeyExchange>)
    ensures var (sess', data) := Seal(sess, km);
            data.Ok? ==> && TagOf(sess'.ratchet) == TagOf(sess.ratchet)
                         && IsWhisper(RecipientKey(id, data.value, kx))
                         && KeyTag(RecipientKey(id, data.value, kx)) == TagOf(sess.ratchet)
  {
    SealedSpot(sess, km);
  }

  lemma OpenedSpot(sess: SessionState, data: Wire)
    ensures var (sess', km) := Open(sess, data);
            sess'.ratchet.root == sess.ratchet.root && sess'.ratchet.role == sess.ratchet.role
                && sess'.ratchet.sent == sess.ratchet.sent
            && TagOf(sess'.ratchet) == TagOf(sess.ratchet)
  {
  }

  // ---------- what one section step does to sessions ----------

  function UnstoredAt(pc: PC, e: Entry): Option<Ratchet> {
    Unstored(In(pc, e, []))
  }

  lemma SealShape(cfg: Config, s: StoreState, rnd: nat, dev: Device, pc: PC, km: nat, o: EncryptOracle, inp: Input)
    requires !pc.AtUnlock? && !pc.AtDelete?
    ensures var n := SealStep(cfg, s, rnd, dev, pc, km, o, inp);
            && n.rnd >= rnd
            && (!pc.AtFetch? ==> n.rnd == rnd)
            && (pc.AtFetch? && n.pc.AtPutRemote? ==>
                  n.rnd == rnd + 1 && n.store == s && TagOf(n.pc.sess.ratchet) == Tag(Active, rnd)
                      && n.pc.sess.ratchet.sent == 0)
            && (!(pc.AtFetch? && n.pc.AtPutRemote?) && !pc.AtPutSealed? ==>
                  && n.store.sessions == s.sessions && Pending(In(n.pc, n.entry, [])).None?
                  && (UnstoredAt(n.pc, n.entry).Some? ==>
                        UnstoredAt(n.pc, n.entry) == UnstoredAt(pc, EncryptEntry(km, o))))
            && (pc.AtPutSealed? ==>
                  && UnstoredAt(n.pc, n.entry).None?
                  && var (sess', data) := Seal(pc.sess, km);
                     if data.Err? || inp.fails then n.store == s && Pending(In(n.pc, n.entry, [])).None?
                     else n.store == s.(sessions := s.sessions[dev := Marshal(sess')])
                          && n.pc == AtUnlock(KeyOut(Ok(RecipientKey(dev.id, data.value, pc.kx)))))
  {
    hide BuildActive, Seal, LoadSession, TagOf;
    if pc.AtFetch? && inp.bundle.Some? { ActiveTag(cfg, inp.bundle.value, rnd); }
  }

  lemma OpenShape(cfg: Config, s: StoreState, rnd: nat, dev: Device, pc: PC, key: RecipientKey, o: DecryptOracle,
          inp: Input)
    requires !pc.AtUnlock? && !pc.AtDelete?
    requires pc.AtLoadIncoming? ==> key.keyExchange.None?
    ensures var n := OpenStep(cfg, s, rnd, dev, pc, key, o, inp);
            && n.rnd == rnd
            && Pending(In(n.pc, n.entry, [])).None?
            && (pc.AtConsume? && n.pc.AtPutPeer? ==>
                  && !inp.fails && pc.offer.preKeyID in s.preKeys && s.preKeys[pc.offer.preKeyID].priv.Priv?
                  && n.store.sessions == s.sessions
                  && TagOf(n.pc.sess.ratchet) == Tag(Passive, s.preKeys[pc.offer.preKeyID].priv.n)
                     && n.pc.sess.ratchet.sent == 0)
            && (!(pc.AtConsume? && n.pc.AtPutPeer?) && !pc.AtPutOpened? ==>
                  && n.store.sessions == s.sessions
                  && (UnstoredAt(n.pc, n.entry).Some? ==>
                     UnstoredAt(n.pc, n.entry) == UnstoredAt(pc, DecryptEntry(key, o))))
            && (pc.AtPutOpened? ==>
                  && UnstoredAt(n.pc, n.entry).None?
                  && (n.store == s || n.store == s.(sessions := s.sessions[dev := Marshal(Open(pc.sess, pc.data).0)])))
  {
    hide PassiveFrom, Open, LoadSession, TagOf;
    if pc.AtConsume? && pc.offer.preKeyID in s.preKeys { PassiveTag(cfg, pc.offer, pc.spk,
        s.preKeys[pc.offer.preKeyID]); }
  }

  // ---------- preservation ----------

  /** A step that changes no session, returns nothing and claims nothing. */
  lemma CalmKeeps(st: State, st': State)
    requires PosInv(st) && |st.threads| <= |st'.threads|
    requires st'.sh.store.sessions == st.sh.store.sessions && st'.sh.rnd >= st.sh.rnd
    requires st'.k.returned == st.k.returned && st'.k.claimed == st.k.claimed && st'.k.consumed >= st.k.consumed
    requires forall id :: id in st'.k.issued && id !in st.k.issued && st'.k.issued[id].pub.Pub? ==>
             st'.k.issued[id].pub.n >= st.sh.rnd
    requires forall id :: id in st.k.issued && id in st'.k.issued ==> st'.k.issued[id] == st.k.issued[id]
    requires forall i :: 0 <= i < |st.threads| ==> CalmThread(st.threads[i], st'.threads[i])
    requires forall i :: |st.threads| <= i < |st'.threads| ==>
             Unstored(st'.threads[i]).None? && Pending(st'.threads[i]).None?
    requires forall d :: PendingHolder(st', d) ==> PendingHolder(st, d)
    ensures PosInv(st')
  {
    hide Unstored, Pending, TagOf, RootTag, Whispered, IsWhisper, KeyTag, KeyIndex, PendingHolder;
    forall d ensures Stored(st', d) == Stored(st, d) {}
    forall i | 0 <= i < |st'.threads| ensures UnstoredOk(st', i) && PendingOk(st', i) {
      if i < |st.threads| { assert UnstoredOk(st, i) && PendingOk(st, i) && CalmThread(st.threads[i], st'.threads[i]); }
    }
    forall i, j | 0 <= i < j < |st'.threads| && Unstored(st'.threads[i]).Some? && Unstored(st'.threads[j]).Some?
      ensures TagOf(Unstored(st'.threads[i]).value) != TagOf(Unstored(st'.threads[j]).value)
    {
      assert CalmThread(st.threads[i], st'.threads[i]) && CalmThread(st.threads[j], st'.threads[j]);
    }
    forall a, d | 0 <= a < |st'.k.returned| && Stored(st', d).Some? ensures Behind(st', st'.k.returned[a], d) {
      assert Behind(st, st.k.returned[a], d);
    }
  }

  ghost predicate CalmThread(th: Thread, th': Thread) {
    && (Unstored(th').Some? ==> Unstored(th') == Unstored(th))
    && (Pending(th').Some? ==> th' == th)
  }

  /** A new session: its tag was never claimed. */
  lemma ClaimKeeps(st: State, st': State, t: Tid, r: Ratchet)
    requires PosInv(st) && t < |st.threads| == |st'.threads|
    requires st'.sh.store.sessions == st.sh.store.sessions && st'.sh.rnd >= st.sh.rnd && TagOf(r).seed < st'.sh.rnd
    requires st'.k.returned == st.k.returned && st'.k.issued == st.k.issued && st'.k.consumed >= st.k.consumed
    requires st'.k.claimed == st.k.claimed + {TagOf(r)} && TagOf(r) !in st.k.claimed
    requires forall id :: id in st'.k.issued && id !in st'.k.consumed && st'.k.issued[id].pub.Pub? ==>
             Tag(Passive, st'.k.issued[id].pub.n) != TagOf(r)
    requires forall i :: 0 <= i < |st.threads| && i != t ==> st'.threads[i] == st.threads[i]
    requires Unstored(st'.threads[t]) == Some(r) && r.sent == 0
    requires Pending(st.threads[t]).None? && Pending(st'.threads[t]).None?
    requires forall d :: PendingHolder(st', d) ==> PendingHolder(st, d)
    ensures PosInv(st')
  {
    hide Unstored, Pending, TagOf, RootTag, Whispered, IsWhisper, KeyTag, KeyIndex, PendingHolder;
    forall d ensures Stored(st', d) == Stored(st, d) {}
    forall i | 0 <= i < |st'.threads| ensures UnstoredOk(st', i) && PendingOk(st', i) {
      assert UnstoredOk(st, i) && PendingOk(st, i);
    }
    forall i, j | 0 <= i < j < |st'.threads| && Unstored(st'.threads[i]).Some? && Unstored(st'.threads[j]).Some?
      ensures TagOf(Unstored(st'.threads[i]).value) != TagOf(Unstored(st'.threads[j]).value)
    {
      assert UnstoredOk(st, i) && UnstoredOk(st, j);
    }
    forall a, d | 0 <= a < |st'.k.returned| && Stored(st', d).Some? ensures Behind(st', st'.k.returned[a], d) {
      assert Behind(st, st.k.returned[a], d);
    }
  }

  /** Storing under `d` a session that continues the stored one or is thread `t`'s own new one, possibly
      with a pending key at the index just used. */
  lemma StoreKeeps(st: State, st': State, t: Tid, d: Device, was: Ratchet, r: Ratchet)
    requires PosInv(st) && t < |st.threads| == |st'.threads|
    requires st'.sh.rnd == st.sh.rnd && st'.k == st.k
    requires d in st'.sh.store.sessions && st'.sh.store.sessions == st.sh.store.sessions[d := st'.sh.store.sessions[d]]
    requires Stored(st', d) == Some(r) && TagOf(r) == TagOf(was)
    requires if Unstored(st.threads[t]).Some? then Unstored(st.threads[t]) == Some(was) else Stored(st, d) == Some(was)
    requires forall i :: 0 <= i < |st.threads| && i != t ==> st'.threads[i] == st.threads[i]
    requires Unstored(st'.threads[t]).None? && Pending(st.threads[t]).None?
    requires Holder(st, d) == Some(t) && forall x :: Holder(st', x) == Holder(st, x)
    requires forall x :: Holder(st, x) == Some(t) ==> x == d
    requires forall i :: 0 <= i < |st.threads| && i != t && Pending(st.threads[i]).Some? && st.threads[i].jobs != [] ==>
             st.threads[i].jobs[0].dev != d
    requires if Pending(st'.threads[t]).None? then r.sent == was.sent
             else r.sent == was.sent + 1 && st'.threads[t].jobs != [] && st'.threads[t].jobs[0].dev == d
                  && var p := Pending(st'.threads[t]).value;
                     IsWhisper(p) && KeyTag(p) == TagOf(r) && KeyIndex(p) == was.sent
    ensures PosInv(st')
  {
    hide Unstored, Pending, TagOf, RootTag, Whispered, IsWhisper, KeyTag, KeyIndex;
    forall x | x != d ensures Stored(st', x) == Stored(st, x) && PendingHolder(st', x) == PendingHolder(st, x) {}
    assert UnstoredOk(st, t);
    assert TagOf(was) in st.k.claimed;
    forall x | x != d && Stored(st, x).Some? ensures TagOf(Stored(st, x).value) != TagOf(r) {}
    forall i | 0 <= i < |st'.threads| ensures UnstoredOk(st', i) && PendingOk(st', i) {
      assert UnstoredOk(st, i) && PendingOk(st, i);
    }
    forall a, x | 0 <= a < |st'.k.returned| && Stored(st', x).Some? ensures Behind(st', st'.k.returned[a], x) {
      if x != d {
        assert Behind(st, st.k.returned[a], x);
      } else if Unstored(st.threads[t]).None? {
        assert Behind(st, st.k.returned[a], d);
      }
    }
  }

  /** Dropping a stored session. */
  lemma DropKeeps(st: State, st': State, t: Tid, d: Device)
    requires PosInv(st) && t < |st.threads| == |st'.threads|
    requires st'.sh.rnd == st.sh.rnd && st'.k == st.k
    requires st'.sh.store.sessions == st.sh.store.sessions - {d}
    requires forall i :: 0 <= i < |st.threads| && i != t ==> st'.threads[i] == st.threads[i]
    requires Unstored(st'.threads[t]).None? && Pending(st'.threads[t]).None?
    requires forall i :: 0 <= i < |st.threads| && i != t && Pending(st.threads[i]).Some? && st.threads[i].jobs != [] ==>
             st.threads[i].jobs[0].dev != d
    requires forall x :: PendingHolder(st', x) ==> PendingHolder(st, x)
    ensures PosInv(st')
  {
    hide Unstored, Pending, TagOf, RootTag, Whispered, IsWhisper, KeyTag, KeyIndex, PendingHolder;
    forall x | x != d ensures Stored(st', x) == Stored(st, x) {}
    assert Stored(st', d).None?;
    forall i | 0 <= i < |st'.threads| ensures UnstoredOk(st', i) && PendingOk(st', i) {
      assert UnstoredOk(st, i) && PendingOk(st, i);
    }
    forall a, x | 0 <= a < |st'.k.returned| && Stored(st', x).Some? ensures Behind(st', st'.k.returned[a], x) {
      assert Behind(st, st.k.returned[a], x);
    }
  }

  /** Returning a pending key. */
  lemma ReturnKeeps(st: State, st': State, t: Tid, d: Device, key: RecipientKey)
    requires PosInv(st) && t < |st.threads| == |st'.threads|
    requires st'.sh.store == st.sh.store && st'.sh.rnd == st.sh.rnd
    requires st'.k == st.k.(returned := st.k.returned + [key])
    requires forall i :: 0 <= i < |st.threads| && i != t ==> st'.threads[i] == st.threads[i]
    requires Pending(st.threads[t]) == Some(key) && st.threads[t].jobs != [] && st.threads[t].jobs[0].dev == d
    requires Unstored(st'.threads[t]).None? && Pending(st'.threads[t]).None?
    requires PendingHolder(st, d) && !PendingHolder(st', d)
    requires forall x :: PendingHolder(st', x) ==> PendingHolder(st, x)
    ensures PosInv(st')
  {
    hide Unstored, Pending, TagOf, RootTag, Whispered, PendingHolder;
    forall x ensures Stored(st', x) == Stored(st, x) {}
    assert PendingOk(st, t);
    var r := Stored(st, d).value;
    forall a | 0 <= a < |st.k.returned| ensures !SameSpot(st.k.returned[a], key) {
      assert Behind(st, st.k.returned[a], d);
    }
    forall a, x | 0 <= a < |st'.k.returned| && Stored(st', x).Some? ensures Behind(st', st'.k.returned[a], x) {
      if a < |st.k.returned| { assert Behind(st, st.k.returned[a], x); }
    }
    forall i | 0 <= i < |st'.threads| ensures UnstoredOk(st', i) && PendingOk(st', i) {
      assert UnstoredOk(st, i) && PendingOk(st, i);
    }
    forall a, b | 0 <= a < b < |st'.k.returned| ensures !SameSpot(st'.k.returned[a], st'.k.returned[b]) {
      if b < |st.k.returned| { assert !SameSpot(st.k.returned[a], st.k.returned[b]); }
    }
  }

  // ---------- one step ----------

  /** Thread `t` is inside a section and alone with its device. */
  ghost predicate Exclusive(st: State, t: Tid) {
    && t < |st.threads| && st.threads[t].In? && st.threads[t].jobs != []
    && var d := st.threads[t].jobs[0].dev;
       && Holder(st, d) == Some(t)
       && (forall x :: Holder(st, x) == Some(t) ==> x == d)
       && (forall i :: 0 <= i < |st.threads| && i != t && st.threads[i].In? && st.threads[i].jobs != [] ==>
          st.threads[i].jobs[0].dev != d)
  }

  lemma InsideFacts(st: State, t: Tid)
    requires LockInv(st) && t < |st.threads| && st.threads[t].In?
    ensures Exclusive(st, t)
  {
    assert ThreadLocks(st, t);
    var d := st.threads[t].jobs[0].dev;
    forall x | Holder(st, x) == Some(t) ensures x == d { assert HeldInside(st, st.sh.locks[x]); }
    forall i | 0 <= i < |st.threads| && i != t && st.threads[i].In? && st.threads[i].jobs != []
        ensures st.threads[i].jobs[0].dev != d {
      assert ThreadLocks(st, i);
    }
  }

  /** A loaded session is the stored one. */
  lemma LoadedIsStored(cfg: Config, dev: Device, v0: View, pc: PC, e: Entry, v: View)
    requires PcOk(cfg, dev, v0, pc, e, v)
    requires (pc.AtPutSealed? && pc.kx.None?) || (pc.AtPutOpened? && UnstoredAt(pc, e).None?)
    ensures v.session == Some(Blob(pc.sess.protocol, pc.sess.ratchet))
  {
    hide BuildActive, PassiveFrom;
  }

  lemma EntryMatchesPC(cfg: Config, dev: Device, v0: View, pc: PC, e: Entry, v: View)
    requires PcOk(cfg, dev, v0, pc, e, v)
    ensures pc.AtLoad? || pc.AtFetch? || pc.AtPutSealed? ==> e.EncryptEntry?
    ensures pc.AtLoadIncoming? ==> e.DecryptEntry? && e.key.keyExchange.None?
    ensures pc.AtConsume? || pc.AtPutPeer? || pc.AtPutOpened? ==> e.DecryptEntry?
    ensures pc.AtDelete? <==> e.ResetEntry? && !pc.AtUnlock?
  {
    hide BuildActive, PassiveFrom, OpenActive, OpenIncoming, OfferedExchange, EntryEffect;
  }

  /** Holders' pending keys do not appear while `t` takes a step that leaves it with none. */
  lemma SameHolders(st: State, st': State, t: Tid)
    requires t < |st.threads| == |st'.threads|
    requires forall i :: 0 <= i < |st.threads| && i != t ==> st'.threads[i] == st.threads[i]
    requires Pending(st'.threads[t]).None?
    requires forall x :: Holder(st', x).Some? ==> Holder(st', x) == Holder(st, x) || Holder(st', x) == Some(t)
    ensures forall x :: PendingHolder(st', x) ==> PendingHolder(st, x)
  {
  }

  /** What the serial invariant says about the session a thread works on. */
  ghost predicate Sourced(st: State, t: Tid) {
    && t < |st.threads| && st.threads[t].In?
    && var th := st.threads[t];
       && (th.pc.AtLoadIncoming? ==> th.entry.DecryptEntry? && th.entry.key.keyExchange.None?)
       && (th.pc.AtDelete? <==> th.entry.ResetEntry? && !th.pc.AtUnlock?)
       && (((th.pc.AtPutSealed? && th.pc.kx.None?) || (th.pc.AtPutOpened? && Unstored(th).None?)) ==>
             th.jobs != [] && Stored(st, th.jobs[0].dev) == Some(th.pc.sess.ratchet))
  }

  lemma Context(cfg: Config, s0: StoreState, st: State, t: Tid)
    requires Inv(cfg, s0, st) && t < |st.threads| && st.threads[t].In?
    ensures Sourced(st, t)
  {
    hide PcOk, Replay, EntryFor;
    InsideFacts(st, t);
    var th := st.threads[t];
    var dev := th.jobs[0].dev;
    assert DeviceInv(cfg, s0, st, dev);
    EntryMatchesPC(cfg, dev, SerialView(cfg, s0, st, dev), th.pc, th.entry, ViewOf(st.sh.store, dev));
    if (th.pc.AtPutSealed? && th.pc.kx.None?) || (th.pc.AtPutOpened? && UnstoredAt(th.pc, th.entry).None?) {
      LoadedIsStored(cfg, dev, SerialView(cfg, s0, st, dev), th.pc, th.entry, ViewOf(st.sh.store, dev));
    }
  }

  /** `st'` is `st` after `t`'s section step `n`. */
  ghost predicate Stepped(st: State, st': State, t: Tid, n: SecState) {
    && t < |st.threads| && st.threads[t].In?
    && st'.sh.store == n.store && st'.sh.rnd == n.rnd && st'.k == Noted(st.k, st.threads[t].pc, n)
    && st'.threads == st.threads[t := In(n.pc, n.entry, st.threads[t].jobs)]
    && (forall x :: Holder(st', x) == Holder(st, x))
  }

  lemma InsideStep(cfg: Config, st: State, t: Tid, inp: Input)
    requires Enabled(st, t) && st.threads[t].In? && !st.threads[t].pc.AtUnlock?
    ensures var th := st.threads[t];
            Stepped(st, Advance(cfg, st, t, inp), t,
                SectionStep(cfg, st.sh.store, st.sh.rnd, th.jobs[0].dev, th.pc, th.entry, inp))
  {
    hide SectionStep, Noted;
  }

  lemma ClaimedBelow(st: State)
    requires PosInv(st)
    ensures forall tag :: tag in st.k.claimed ==> tag.seed < st.sh.rnd
  {
  }

  lemma SealKeeps(cfg: Config, st: State, st': State, t: Tid, inp: Input, n: SecState)
    requires PosInv(st) && Exclusive(st, t) && Sourced(st, t) && Stepped(st, st', t, n)
    requires var th := st.threads[t];
             && th.entry.EncryptEntry? && !th.pc.AtUnlock?
             && n == SealStep(cfg, st.sh.store, st.sh.rnd, th.jobs[0].dev, th.pc, th.entry.keyMaterial,
                th.entry.encryptOracle, inp)
    ensures PosInv(st')
  {
    hide SealStep, TagOf, PosInv, Seal, Holder;
    var th := st.threads[t];
    SealShape(cfg, st.sh.store, st.sh.rnd, th.jobs[0].dev, th.pc, th.entry.keyMaterial, th.entry.encryptOracle, inp);
    if th.pc.AtPutSealed? {
      SealStoreKeeps(cfg, st, st', t, inp, n);
    } else {
      SameHolders(st, st', t);
      if th.pc.AtFetch? && n.pc.AtPutRemote? {
        var r := n.pc.sess.ratchet;
        ClaimedBelow(st);
        assert forall id :: Tag(Passive, id) != TagOf(r);
        ClaimKeeps(st, st', t, r);
      } else {
        CalmKeeps(st, st');
      }
    }
  }

  lemma SealStoreKeeps(cfg: Config, st: State, st': State, t: Tid, inp: Input, n: SecState)
    requires PosInv(st) && Exclusive(st, t) && Sourced(st, t) && Stepped(st, st', t, n)
    requires var th := st.threads[t];
             && th.entry.EncryptEntry? && th.pc.AtPutSealed?
             && n == SealStep(cfg, st.sh.store, st.sh.rnd, th.jobs[0].dev, th.pc, th.entry.keyMaterial,
                th.entry.encryptOracle, inp)
    ensures PosInv(st')
  {
    hide SealStep, TagOf, PosInv, Holder;
    var th := st.threads[t];
    var dev, sess, km := th.jobs[0].dev, th.pc.sess, th.entry.keyMaterial;
    SealShape(cfg, st.sh.store, st.sh.rnd, dev, th.pc, km, th.entry.encryptOracle, inp);
    SealedSpot(sess, km);
    SealedTag(sess, km, dev.id, th.pc.kx);
    var (sess', data) := Seal(sess, km);
    hide Seal;
    if data.Err? || inp.fails {
      SameHolders(st, st', t);
      CalmKeeps(st, st');
    } else {
      var key := RecipientKey(dev.id, data.value, th.pc.kx);
      assert Pending(st'.threads[t]) == Some(key);
      StoreKeeps(st, st', t, dev, sess.ratchet, sess'.ratchet);
    }
  }

  lemma OpenKeeps(cfg: Config, st: State, st': State, t: Tid, inp: Input, n: SecState)
    requires PreKeyInv(st) && PosInv(st) && Exclusive(st, t) && Sourced(st, t) && Stepped(st, st', t, n)
    requires var th := st.threads[t];
             && th.entry.DecryptEntry? && !th.pc.AtUnlock?
             && n == OpenStep(cfg, st.sh.store, st.sh.rnd, th.jobs[0].dev, th.pc, th.entry.key, th.entry.decryptOracle,
                inp)
    ensures PosInv(st')
  {
    hide OpenStep, TagOf, PosInv, PreKeyInv, Open, Holder;
    var th := st.threads[t];
    var dev, pc := th.jobs[0].dev, th.pc;
    OpenShape(cfg, st.sh.store, st.sh.rnd, dev, pc, th.entry.key, th.entry.decryptOracle, inp);
    SameHolders(st, st', t);
    if pc.AtConsume? && n.pc.AtPutPeer? {
      OpenPool(cfg, st.sh.store, st.sh.rnd, dev, pc, th.entry.key, th.entry.decryptOracle, inp);
      NewOneTimeTag(st, pc.offer.preKeyID);
      ClaimKeeps(st, st', t, n.pc.sess.ratchet);
    } else if pc.AtPutOpened? && n.store != st.sh.store {
      var sess := pc.sess;
      OpenedSpot(sess, pc.data);
      var sess' := Open(sess, pc.data).0;
      StoreKeeps(st, st', t, dev, sess.ratchet, sess'.ratchet);
    } else {
      CalmKeeps(st, st');
    }
  }

  /** The scalar of a live record was never claimed, and no other record has it. */
  lemma NewOneTimeTag(st: State, id: U32)
    requires PreKeyInv(st) && PosInv(st) && id in st.sh.store.preKeys
    ensures st.sh.store.preKeys[id].priv.Priv?
    ensures var tag := Tag(Passive, st.sh.store.preKeys[id].priv.n);
            && tag !in st.k.claimed && tag.seed < st.sh.rnd
            && (forall x :: x in st.k.issued && x != id && st.k.issued[x].pub.Pub? ==>
               Tag(Passive, st.k.issued[x].pub.n) != tag)
  {
    assert id in st.k.issued && id !in st.k.consumed;
  }

  lemma UnlockKeeps(cfg: Config, st: State, t: Tid, inp: Input)
    requires LockInv(st) && PosInv(st) && Enabled(st, t) && st.threads[t].In? && st.threads[t].pc.AtUnlock?
    ensures PosInv(Advance(cfg, st, t, inp))
  {
    hide PosInv;
    var st' := Advance(cfg, st, t, inp);
    InsideFacts(st, t);
    var d := st.threads[t].jobs[0].dev;
    assert Holder(st', d).None?;
    forall x | x != d ensures Holder(st', x) == Holder(st, x) {
      assert x in st.sh.locks ==> st.sh.locks[x] != st.sh.locks[d];
    }
    SameHolders(st, st', t);
    if Pending(st.threads[t]).Some? {
      ReturnKeeps(st, st', t, d, Pending(st.threads[t]).value);
    } else {
      CalmKeeps(st, st');
    }
  }

  lemma ResetKeeps(cfg: Config, st: State, st': State, t: Tid, inp: Input, n: SecState)
    requires PosInv(st) && Exclusive(st, t) && Sourced(st, t) && Stepped(st, st', t, n)
    requires var th := st.threads[t];
             && th.entry.ResetEntry? && !th.pc.AtUnlock?
             && n == SectionStep(cfg, st.sh.store, st.sh.rnd, th.jobs[0].dev, th.pc, th.entry, inp)
    ensures PosInv(st')
  {
    hide PosInv, Holder;
    SameHolders(st, st', t);
    if inp.fails { CalmKeeps(st, st'); } else { DropKeeps(st, st', t, st.threads[t].jobs[0].dev); }
  }

  lemma InsideKeeps(cfg: Config, s0: StoreState, st: State, t: Tid, inp: Input)
    requires Inv(cfg, s0, st) && PreKeyInv(st) && PosInv(st) && Enabled(st, t)
    requires st.threads[t].In? && !st.threads[t].pc.AtUnlock?
    ensures PosInv(Advance(cfg, st, t, inp))
  {
    hide PosInv, PreKeyInv, Exclusive, Sourced, Stepped, DeviceInv, LockInv, Advance, SealStep, OpenStep;
    var th := st.threads[t];
    InsideFacts(st, t);
    Context(cfg, s0, st, t);
    InsideStep(cfg, st, t, inp);
    assert th.jobs != [];
    var n := SectionStep(cfg, st.sh.store, st.sh.rnd, th.jobs[0].dev, th.pc, th.entry, inp);
    match th.entry {
      case EncryptEntry(_, _) => SealKeeps(cfg, st, Advance(cfg, st, t, inp), t, inp, n);
      case DecryptEntry(_, _) => OpenKeeps(cfg, st, Advance(cfg, st, t, inp), t, inp, n);
      case ResetEntry(_) => ResetKeeps(cfg, st, Advance(cfg, st, t, inp), t, inp, n);
    }
  }

  /** Steps outside any section: taking a mutex, waiting, generating, arriving, background changes. */
  lemma OutsideKeeps(cfg: Config, st: State, ev: Event)
    requires LockInv(st) && PreKeyInv(st) && PosInv(st) && Possible(st, ev)
    requires ev.ThreadStep? ==> !st.threads[ev.t].In?
    ensures PosInv(After(cfg, st, ev))
  {
    hide PosInv, PreKeyInv, Advance;
    var st' := After(cfg, st, ev);
    match ev {
      case ThreadStep(t, inp) => if st.threads[t].Gen? { GenKeeps(cfg, st, t, inp); }
          else { LockingKeeps(cfg, st, t, inp); }
      case _ =>
        forall x | PendingHolder(st', x) ensures PendingHolder(st, x) {
          assert HeldInside(st, st.sh.locks[x]);
        }
        hide LockInv, PendingHolder, Pending, Unstored;
        CalmKeeps(st, st');
    }
  }

  lemma LockingKeeps(cfg: Config, st: State, t: Tid, inp: Input)
    requires LockInv(st) && PosInv(st) && Enabled(st, t) && (st.threads[t].Next? || st.threads[t].Want?)
    ensures PosInv(Advance(cfg, st, t, inp))
  {
    hide PosInv, StartEntry;
    var st' := Advance(cfg, st, t, inp);
    assert ThreadLocks(st, t);
    assert Pending(st'.threads[t]).None? && Unstored(st'.threads[t]).None?;
    forall x | Holder(st', x).Some? ensures Holder(st', x) == Holder(st, x) || Holder(st', x) == Some(t) {}
    SameHolders(st, st', t);
    hide LockInv, PendingHolder, Pending, Unstored;
    CalmKeeps(st, st');
  }

  lemma GenKeeps(cfg: Config, st: State, t: Tid, inp: Input)
    requires PreKeyInv(st) && PosInv(st) && Possible(st, ThreadStep(t, inp)) && st.threads[t].Gen?
    ensures PosInv(Advance(cfg, st, t, inp))
  {
    hide PosInv, Filed;
    var st' := Advance(cfg, st, t, inp);
    assert Pending(st'.threads[t]).None? && Unstored(st'.threads[t]).None?;
    SameHolders(st, st', t);
    hide PendingHolder, Pending, Unstored;
    CalmKeeps(st, st');
  }

  lemma StepKeepsPositions(cfg: Config, s0: StoreState, st: State, ev: Event)
    requires Inv(cfg, s0, st) && PreKeyInv(st) && PosInv(st) && Possible(st, ev)
    ensures PosInv(After(cfg, st, ev))
  {
    hide PreKeyInv, PosInv, Advance, DeviceInv, LockInv;
    if ev.ThreadStep? && st.threads[ev.t].In? {
      var th := st.threads[ev.t];
      if th.pc.AtUnlock? { UnlockKeeps(cfg, st, ev.t, ev.inp); }
      else { InsideKeeps(cfg, s0, st, ev.t, ev.inp); }
    } else {
      OutsideKeeps(cfg, st, ev);
    }
  }

  lemma {:induction false} PositionsOverRuns(cfg: Config, st0: State, evs: seq<Event>)
    requires FreshPool(st0) && Exec(cfg, st0, evs).Some?
    ensures PosInv(Exec(cfg, st0, evs).value)
  {
    hide Inv, PreKeyInv, Possible, After;
    FreshPoolOk(st0);
    if evs == [] {
      assert PosInv(st0);
    } else {
      hide PosInv;
      var init := evs[..|evs| - 1];
      PositionsOverRuns(cfg, st0, init);
      InvOverRuns(cfg, st0, init);
      PreKeysConserved(cfg, st0, init);
      StepKeepsPositions(cfg, st0.sh.store, Exec(cfg, st0, init).value, evs[|evs| - 1]);
    }
  }

  /** No send-position reuse: in every interleaving from a fresh device, any two returned recipient keys are
      ratchet messages at different (root, direction, index). */
  lemma NoPositionReused(cfg: Config, st0: State, evs: seq<Event>, a: nat, b: nat)
    requires FreshPool(st0) && Exec(cfg, st0, evs).Some?
    requires a < b < |Exec(cfg, st0, evs).value.k.returned|
    ensures var k := Exec(cfg, st0, evs).value.k;
            var x, y := Whispered(k.returned[a].data), Whispered(k.returned[b].data);
            x.Whisper? && y.Whisper? && (x.root, x.sender, x.index) != (y.root, y.sender, y.index)
  {
    hide Exec;
    PositionsOverRuns(cfg, st0, evs);
    var st := Exec(cfg, st0, evs).value;
    assert !SameSpot(st.k.returned[a], st.k.returned[b]);
  }
}
