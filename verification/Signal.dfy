/** The seam of internal/signal/signal.go over symbolic primitives: X3DH, the ratchet session and
    the payload cipher. Values only; `SessionObject.Session` is the mutable object. */
module Signal {
  import opened Basics
  import opened Types

  /** One end of a Double Ratchet session. */
  datatype Ratchet = Ratchet(root: Root, role: Role, sent: nat, received: set<nat>, canSend: bool)

  /** `legacyPendingPreKey`: what the first ProtocolV1 message must carry. */
  datatype PendingPreKey = PendingPreKey(ekPub: PubKey, preKeyID: U32, signedPreKeyID: U32, registrationID: U32)

  datatype SessionState = SessionState(protocol: Protocol, ratchet: Ratchet, pending: Option<PendingPreKey>)

  /** A marshalled session: the ratchet in one of two wire formats. It has no room for `pending`. */
  datatype Blob = Blob(protocol: Protocol, ratchet: Ratchet) | BadBlob

  function Other(r: Role): Role {
    if r == Active then Passive else Active
  }

  function IdentityPublicKey(priv: PrivKey): Result<PubKey, Error> {
    if priv.NoPriv? then Err(BadIdentityKey) else Ok(Pub(priv.n))
  }

  function SignPreKey(idKey: PrivKey, pub: PubKey): Signature {
    if idKey.NoPriv? then NoSig else Sig(idKey.n, pub)
  }

  /** X3DH section 3.3: the initiator checks the signature and combines four DH outputs. */
  function InitiateX3DH(idKey: PrivKey, peerIdKey: PubKey, spkPub: PubKey, spkSig: Signature, opkPub: PubKey, ek: nat)
    : Result<Root, Error>
  {
    if idKey.NoPriv? || peerIdKey.NoPub? || spkPub.NoPub? || opkPub.NoPub? || spkSig != Sig(peerIdKey.n, spkPub) then
      Err(X3DHFailed)
    else
      Ok(Root(Agree(idKey.n, spkPub.n), Agree(ek, peerIdKey.n), Agree(ek, spkPub.n), Agree(ek, opkPub.n),
              Pub(idKey.n), peerIdKey, spkPub))
  }

  /** X3DH section 3.4: the responder's side, from its own private halves. */
  function ReceiveX3DH(idKey: PrivKey, peerIdKey: PubKey, spkPub: PubKey, spkPriv: PrivKey, opkPriv: PrivKey,
          ekPub: PubKey)
    : Result<Root, Error>
  {
    if idKey.NoPriv? || peerIdKey.NoPub? || spkPub.NoPub? || spkPriv.NoPriv? || opkPriv.NoPriv? || ekPub.NoPub? then
      Err(X3DHFailed)
    else
      Ok(Root(Agree(spkPriv.n, peerIdKey.n), Agree(idKey.n, ekPub.n), Agree(spkPriv.n, ekPub.n),
          Agree(opkPriv.n, ekPub.n),
              peerIdKey, Pub(idKey.n), spkPub))
  }

  function NewActiveSession(protocol: Protocol, idKey: PrivKey, peerIdKey: PubKey, peerSpkPub: PubKey,
          peerSpkSig: Signature,
                            peerOpkPub: PubKey, peerSignedPreKeyID: U32, peerPreKeyID: U32, registrationID: U32,
                                ek: nat)
    : Result<(SessionState, PubKey), Error>
  {
    match InitiateX3DH(idKey, peerIdKey, peerSpkPub, peerSpkSig, peerOpkPub, ek)
    case Err(e) => Err(e)
    case Ok(root) =>
      var pending := if protocol == ProtocolV1
                     then Some(PendingPreKey(Pub(ek), peerPreKeyID, peerSignedPreKeyID, registrationID))
                     else None;
      Ok((SessionState(protocol, Ratchet(root, Active, 0, {}, true), pending), Pub(ek)))
  }

  function NewPassive(protocol: Protocol, idKey: PrivKey, peerIdKey: PubKey, spkPub: PubKey, spkPriv: PrivKey,
                      opkPriv: PrivKey, ekPub: PubKey): Result<SessionState, Error>
  {
    match ReceiveX3DH(idKey, peerIdKey, spkPub, spkPriv, opkPriv, ekPub)
    case Err(e) => Err(e)
    case Ok(root) => Ok(SessionState(protocol, Ratchet(root, Passive, 0, {}, false), None))
  }

  function PeekLegacyPreKeyIDs(data: Wire): Result<(U32, U32), Error> {
    if data.PreKeyWhisper? then Ok((data.signedPreKeyID, data.preKeyID)) else Err(BadPreKeyMessage)
  }

  function NewPassiveSessionFromPreKeyBlob(idKey: PrivKey, spkPub: PubKey, spkPriv: PrivKey, opkPriv: PrivKey,
          data: Wire)
    : Result<(SessionState, PubKey, Wire), Error>
  {
    if !data.PreKeyWhisper? then Err(BadPreKeyMessage)
    else match NewPassive(ProtocolV1, idKey, data.identityKey, spkPub, spkPriv, opkPriv, data.baseKey)
      case Err(e) => Err(e)
      case Ok(sess) => Ok((sess, data.identityKey, data.inner))
  }

  function LoadSession(protocol: Protocol, data: Blob): Result<SessionState, Error> {
    if data.Blob? && data.protocol == protocol then Ok(SessionState(protocol, data.ratchet, None))
        else Err(BadSessionBlob)
  }

  function Marshal(s: SessionState): Blob {
    Blob(s.protocol, s.ratchet)
  }

  function RatchetEncrypt(r: Ratchet, body: nat): Result<(Ratchet, Wire), Error> {
    if !r.canSend then Err(RatchetFailed)
    else Ok((r.(sent := r.sent + 1), Whisper(r.root, r.role, r.sent, body)))
  }

  function RatchetDecrypt(r: Ratchet, data: Wire): Result<(Ratchet, nat), Error> {
    if data.Whisper? && data.root == r.root && data.sender == Other(r.role) && data.index !in r.received
    then Ok((r.(received := r.received + {data.index}, canSend := true), data.body))
    else Err(RatchetFailed)
  }

  /** `Session.Encrypt`: a ProtocolV1 session clears `pending` even when the ratchet then refuses. */
  function Seal(s: SessionState, body: nat): (SessionState, Result<Wire, Error>) {
    var cleared := if s.protocol == ProtocolV1 then s.(pending := None) else s;
    match RatchetEncrypt(s.ratchet, body)
    case Err(e) => (cleared, Err(e))
    case Ok((r, w)) =>
      var wire := if s.protocol == ProtocolV1 && s.pending.Some?
                  then var p := s.pending.value;
                       PreKeyWhisper(s.ratchet.root.initiator, p.ekPub, p.preKeyID, p.signedPreKeyID, p.registrationID,
                           w)
                  else w;
      (cleared.(ratchet := r), Ok(wire))
  }

  /** `Session.Decrypt`. */
  function Open(s: SessionState, data: Wire): (SessionState, Result<nat, Error>) {
    match RatchetDecrypt(s.ratchet, data)
    case Err(e) => (s, Err(e))
    case Ok((r, body)) => (s.(ratchet := r), Ok(body))
  }

  /** The ratchet message in `data`, wrapped or not. */
  function Whispered(data: Wire): Wire {
    if data.PreKeyWhisper? then data.inner else data
  }

  function EncryptPayload(protocol: Protocol, plaintext: Bytes, key: nat, iv: nat): (Option<nat>, Payload) {
    var v := if protocol == ProtocolV1 then Some(iv) else None;
    (v, Payload(key, v, plaintext))
  }

  function DecryptPayload(protocol: Protocol, key: nat, iv: Option<nat>, p: Payload): Result<Bytes, Error> {
    if p.key == key && (if protocol == ProtocolV1 then p.iv.Some? && p.iv == iv else p.iv.None?)
    then Ok(p.plaintext) else Err(BadPayload)
  }

  /** X3DH section 3: both ends derive the same root whenever the responder holds the private halves
      of the publics the initiator used and the signature is its own. */
  lemma X3DHAgreement(ik: nat, ek: nat, peer: nat, spk: nat, opk: nat)
    ensures InitiateX3DH(Priv(ik), Pub(peer), Pub(spk), Sig(peer, Pub(spk)), Pub(opk), ek)
            == ReceiveX3DH(Priv(peer), Pub(ik), Pub(spk), Priv(spk), Priv(opk), Pub(ek))
    ensures InitiateX3DH(Priv(ik), Pub(peer), Pub(spk), Sig(peer, Pub(spk)), Pub(opk), ek).Ok?
  {
  }
}
