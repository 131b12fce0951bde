/** What `DecryptMessage` answers, told from the message and the store alone. */
module Incoming {
  import opened Basics
  import opened Types
  import opened Signal
  import opened StoreModel
  import opened ManagerSpec
  import opened Runs
  import opened Trust

  /** `keys[i]` is the first key for device `id`. */
  predicate FirstFor(keys: seq<RecipientKey>, id: U32, i: nat) {
    i < |keys| && keys[i].device == id && forall j :: 0 <= j < i ==> keys[j].device != id
  }

  lemma {:induction false} KeyForIsFirst(keys: seq<RecipientKey>, id: U32)
    ensures KeyFor(keys, id).None? <==> forall i :: 0 <= i < |keys| ==> keys[i].device != id
    ensures forall i: nat :: FirstFor(keys, id, i) ==> KeyFor(keys, id) == Some(keys[i])
    ensures KeyFor(keys, id).Some? ==> exists i: nat :: FirstFor(keys, id, i)
  {
    if keys == [] { return; }
    var rest := keys[1..];
    KeyForIsFirst(rest, id);
    if keys[0].device == id {
      assert FirstFor(keys, id, 0);
    } else {
      forall i: nat | FirstFor(keys, id, i)
          ensures KeyFor(keys, id) == Some(keys[i]) { assert FirstFor(rest, id, i - 1); }
      if i: nat :| FirstFor(rest, id, i) { assert FirstFor(keys, id, i + 1); }
      if forall i :: 0 <= i < |rest| ==> rest[i].device != id {
        forall i | 0 <= i < |keys| ensures keys[i].device != id { if i > 0 { assert keys[i] == rest[i - 1]; } }
      }
    }
  }

  /** `key` offers the exchange `kx` with `w` as its first message: ProtocolV2 has them side by side, ProtocolV1 reads
      both from the wrapped message, whatever the attribute says. */
  predicate Offers(cfg: Config, key: RecipientKey, kx: KeyExchange, w: Wire) {
    && key.keyExchange.Some?
    && match cfg.protocol
       case ProtocolV2 => kx == key.keyExchange.value && w == key.data
       case ProtocolV1 =>
         && key.data.PreKeyWhisper? && w == key.data.inner
         && kx == KeyExchange(key.data.identityKey, key.data.baseKey, key.data.signedPreKeyID, key.data.preKeyID)
  }

  lemma OfferedExactly(cfg: Config, key: RecipientKey)
    requires key.keyExchange.Some?
    ensures forall kx, w :: Offers(cfg, key, kx, w) <==> OfferedExchange(cfg, key) == Ok((kx, w))
    ensures OfferedExchange(cfg, key).Err? <==> cfg.protocol == ProtocolV1 && !key.data.PreKeyWhisper?
  {
  }

  /** `key` brings this device the ratchet message `w` it can read: one of the stored session at an unseen index,
      or the first of the session that an acceptable exchange leads to. */
  ghost predicate Readable(cfg: Config, s: StoreState, sender: Device, key: RecipientKey, w: Wire) {
    && w.Whisper?
    && if key.keyExchange.None? then
         && w == key.data && sender in s.sessions
         && s.sessions[sender].Blob? && s.sessions[sender].protocol == cfg.protocol
         && var r := s.sessions[sender].ratchet;
            w.root == r.root && w.sender == Other(r.role) && w.index !in r.received
       else exists kx :: Offers(cfg, key, kx, w) && Acceptable(cfg, s, kx) && OpensUnder(cfg, s, kx, w)
  }

  /** Reading `w` from `sender` leaves its session able to send and its index marked. */
  predicate Marked(cfg: Config, s: StoreState, sender: Device, w: Wire)
    requires w.Whisper?
  {
    && sender in s.sessions && s.sessions[sender].Blob? && s.sessions[sender].protocol == cfg.protocol
    && var r := s.sessions[sender].ratchet;
       r.root == w.root && r.role == Other(w.sender) && w.index in r.received && r.canSend
  }

  /** The locked part yields key material exactly for readable messages, and then their own. */
  lemma ReadsExactly(cfg: Config, s: StoreState, sender: Device, key: RecipientKey)
    ensures var (s', r) := DecryptKey(cfg, s, sender, key);
            && (r.Ok? <==> exists w :: Readable(cfg, s, sender, key, w))
            && (forall w :: Readable(cfg, s, sender, key, w) ==> r == Ok(w.body) && Marked(cfg, s', sender, w))
  {
    hide SignedPreKeyByID, Acceptable, OpensUnder;
    if key.keyExchange.Some? && OfferedExchange(cfg, key).Ok? {
      AcceptedExactly(cfg, s, sender, key);
      OfferedExactly(cfg, key);
      var (kx, data) := OfferedExchange(cfg, key).value;
      if Acceptable(cfg, s, kx) && OpensUnder(cfg, s, kx, data) {
        OpenedIsWhisper(cfg, s, kx, data);
        assert Offers(cfg, key, kx, data);
        assert Readable(cfg, s, sender, key, data);
      }
    } else if DecryptKey(cfg, s, sender, key).1.Ok? {
      assert Readable(cfg, s, sender, key, key.data);
    }
  }

  /** Why the locked part failed, told from the store and the message. */
  lemma FailuresExactly(cfg: Config, s: StoreState, sender: Device, key: RecipientKey)
    ensures var r := DecryptKey(cfg, s, sender, key).1;
            && (r == Err(ErrUnknownSession) <==> key.keyExchange.None? && sender !in s.sessions)
            && (r == Err(BadSessionBlob) <==>
                  key.keyExchange.None? && sender in s.sessions
                  && !(s.sessions[sender].Blob? && s.sessions[sender].protocol == cfg.protocol))
            && (r == Err(BadPreKeyMessage) <==>
                  key.keyExchange.Some? && cfg.protocol == ProtocolV1 && !key.data.PreKeyWhisper?)
            && (r == Err(UnknownSignedPreKey) <==>
                  exists kx, w :: Offers(cfg, key, kx, w) && !HoldsSigned(s, kx.signedPreKeyID))
            && (r == Err(PreKeyNotFound) <==>
                  exists kx, w :: Offers(cfg, key, kx, w) && HoldsSigned(s, kx.signedPreKeyID)
                                  && kx.preKeyID !in s.preKeys)
  {
    if key.keyExchange.Some? {
      OfferedExactly(cfg, key);
      if OfferedExchange(cfg, key).Ok? {
        var (kx, w) := OfferedExchange(cfg, key).value;
        assert Offers(cfg, key, kx, w);
      }
    }
    hide OfferedExchange;
  }

  /** The device's current or previous signed prekey has this ID. */
  predicate HoldsSigned(s: StoreState, id: U32) {
    s.currentSPK.id == id || (s.staleSPK.Some? && s.staleSPK.value.id == id)
  }

  /** The locked part has no error of its callers', and an unknown session changes nothing. */
  lemma ReadingErrors(cfg: Config, s: StoreState, sender: Device, key: RecipientKey)
    ensures DecryptKey(cfg, s, sender, key).1 !in {Err(ErrOwnDeviceKeyMissing), Err(BadPayload)}
    ensures DecryptKey(cfg, s, sender, key).1 == Err(ErrUnknownSession) ==> DecryptKey(cfg, s, sender, key).0 == s
  {
  }

  lemma OpenedIsWhisper(cfg: Config, s: StoreState, kx: KeyExchange, data: Wire)
    requires Acceptable(cfg, s, kx) && OpensUnder(cfg, s, kx, data)
    ensures data.Whisper? && data.sender == Active
  {
  }

  /** The payload opens under `km`, or there is none. */
  predicate PayloadOpens(cfg: Config, msg: EncryptedMessage, km: nat) {
    msg.payload.Some? ==>
      && msg.payload.value.key == km
      && if cfg.protocol == ProtocolV1 then msg.iv.Some? && msg.payload.value.iv == msg.iv
         else msg.payload.value.iv.None?
  }

  /** What the sender put in. */
  function PlaintextOf(msg: EncryptedMessage): Option<Bytes> {
    if msg.payload.Some? then Some(msg.payload.value.plaintext) else None
  }

  /** `DecryptMessage` in full: without a key for this device it fails so and changes nothing; otherwise it goes by
      the first such key, and returns the plaintext - nil exactly when there is no payload - if and only if that key
      is readable and the payload opens under what it carries. It reports an unknown session exactly for a message
      without an exchange from a device there is no session with. */
  lemma DecryptAnswers(cfg: Config, s: StoreState, msg: EncryptedMessage)
    ensures var (s', r) := DecryptMessage(cfg, s, msg);
            var id := cfg.localDevice.id;
            && (r == Err(ErrOwnDeviceKeyMissing) <==> forall i :: 0 <= i < |msg.keys| ==> msg.keys[i].device != id)
            && (r == Err(ErrUnknownSession) <==>
                  msg.sender !in s.sessions
                  && exists i: nat :: FirstFor(msg.keys, id, i) && msg.keys[i].keyExchange.None?)
            && (r == Err(ErrOwnDeviceKeyMissing) || r == Err(ErrUnknownSession) ==> s' == s)
            && (forall i: nat, w :: FirstFor(msg.keys, id, i) && Readable(cfg, s, msg.sender, msg.keys[i], w) ==>
                  && Marked(cfg, s', msg.sender, w)
                  && r == if PayloadOpens(cfg, msg, w.body) then Ok(PlaintextOf(msg)) else Err(BadPayload))
            && (r.Ok? || r == Err(BadPayload) ==>
                  exists i: nat, w :: FirstFor(msg.keys, id, i) && Readable(cfg, s, msg.sender, msg.keys[i], w))
  {
    hide Readable, Marked, DecryptKey;
    var id := cfg.localDevice.id;
    KeyForIsFirst(msg.keys, id);
    var key := KeyFor(msg.keys, id);
    if key.Some? {
      var i: nat :| FirstFor(msg.keys, id, i);
      ReadsExactly(cfg, s, msg.sender, msg.keys[i]);
      ReadingErrors(cfg, s, msg.sender, msg.keys[i]);
      FailuresExactly(cfg, s, msg.sender, msg.keys[i]);
      if DecryptKey(cfg, s, msg.sender, msg.keys[i]).1.Ok? {
        var w :| Readable(cfg, s, msg.sender, msg.keys[i], w);
        assert FirstFor(msg.keys, id, i) && Readable(cfg, s, msg.sender, msg.keys[i], w);
      }
    }
  }

  /** A message that was read is not read again: delivered once more, it fails and changes nothing. */
  lemma ReadOnce(cfg: Config, s: StoreState, msg: EncryptedMessage)
    requires DecryptMessage(cfg, s, msg).1.Ok? || DecryptMessage(cfg, s, msg).1 == Err(BadPayload)
    ensures var s' := DecryptMessage(cfg, s, msg).0;
            DecryptMessage(cfg, s', msg).0 == s' && DecryptMessage(cfg, s', msg).1.Err?
  {
    hide Readable, DecryptKey;
    DecryptAnswers(cfg, s, msg);
    var i: nat, w :| FirstFor(msg.keys, cfg.localDevice.id, i) && Readable(cfg, s, msg.sender, msg.keys[i], w);
    KeyForIsFirst(msg.keys, cfg.localDevice.id);
    ReadKeyOnce(cfg, s, msg.sender, msg.keys[i], w);
  }

  lemma ReadKeyOnce(cfg: Config, s: StoreState, sender: Device, key: RecipientKey, w: Wire)
    requires Readable(cfg, s, sender, key, w)
    ensures var s' := DecryptKey(cfg, s, sender, key).0;
            DecryptKey(cfg, s', sender, key).0 == s' && DecryptKey(cfg, s', sender, key).1.Err?
  {
    ReadsExactly(cfg, s, sender, key);
    if key.keyExchange.Some? {
      hide Readable, DecryptKey, SignedPreKeyByID, OfferedExchange;
      DecryptKeyPool(cfg, s, sender, key);
      DecryptKeyPool(cfg, DecryptKey(cfg, s, sender, key).0, sender, key);
    }
  }
}
