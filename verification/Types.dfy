/** The protocol objects of types.go, envelope.go, store.go and errors.go, with keys made symbolic. */
module Types {
  import opened Basics

  datatype Protocol = ProtocolV2 | ProtocolV1

  datatype Device = Device(jid: string, id: U32)

  /** A private key is a scalar; `NoPriv` is the nil byte slice. */
  datatype PrivKey = NoPriv | Priv(n: nat)

  /** `Pub(n)` is the public half of `Priv(n)`; `NoPub` is the nil byte slice. */
  datatype PubKey = NoPub | Pub(n: nat)

  /** A signature by the identity scalar `signer` over the public key `signed`. */
  datatype Signature = NoSig | Sig(signer: nat, signed: PubKey)

  datatype SignedPreKeyRecord = SignedPreKeyRecord(id: U32, pub: PubKey, priv: PrivKey, sig: Signature)

  datatype PreKeyRecord = PreKeyRecord(id: U32, pub: PubKey, priv: PrivKey)

  datatype SignedPreKey = SignedPreKey(id: U32, pub: PubKey, sig: Signature)

  datatype PreKey = PreKey(id: U32, pub: PubKey)

  datatype Bundle = Bundle(device: Device, identityKey: PubKey, signedPreKey: SignedPreKey, preKeys: seq<PreKey>)

  datatype TrustState = TrustUndecided | TrustTrusted | TrustUntrusted

  /** A Diffie-Hellman output is the unordered pair of the two scalars. */
  datatype Shared = Shared(lo: nat, hi: nat)

  function Agree(a: nat, b: nat): Shared {
    if a <= b then Shared(a, b) else Shared(b, a)
  }

  /** What X3DH and the ratchet set-up bind: the four DH outputs, the two identity keys of the
      associated data and the responder's first ratchet key. */
  datatype Root = Root(dh1: Shared, dh2: Shared, dh3: Shared, dh4: Shared,
                       initiator: PubKey, responder: PubKey, ratchetKey: PubKey)

  datatype Role = Active | Passive

  /** The bytes a ratchet emits. `Whisper` carries its chain position (root, sender, index);
      `PreKeyWhisper` is ProtocolV1's wrapped first message; `Junk` is anything unparsable. */
  datatype Wire =
    | Whisper(root: Root, sender: Role, index: nat, body: nat)
    | PreKeyWhisper(identityKey: PubKey, baseKey: PubKey, preKeyID: U32, signedPreKeyID: U32,
                    registrationID: U32, inner: Wire)
    | Junk

  datatype KeyExchange = KeyExchange(identityKey: PubKey, ephemeralKey: PubKey, signedPreKeyID: U32, preKeyID: U32)

  datatype RecipientKey = RecipientKey(device: U32, data: Wire, keyExchange: Option<KeyExchange>)

  type Byte = x: int | 0 <= x < 256
  type Bytes = seq<Byte>

  /** The shared payload ciphertext under a payload key and, for ProtocolV1, an explicit IV. */
  datatype Payload = Payload(key: nat, iv: Option<nat>, plaintext: Bytes)

  datatype EncryptedMessage = EncryptedMessage(sender: Device, keys: seq<RecipientKey>,
                                               payload: Option<Payload>, iv: Option<nat>)

  datatype Error =
    | ErrUntrustedDevice
    | ErrBlockedDevice
    | ErrNoRecipients
    | ErrUnknownSession
    | ErrOwnDeviceKeyMissing
    | ResolverDeclined
    | DeviceListUnavailable
    | BundleUnavailable
    | NoPreKeysInBundle
    | BadIdentityKey
    | X3DHFailed
    | BadSessionBlob
    | BadPreKeyMessage
    | UnknownSignedPreKey
    | PreKeyNotFound
    | NoKnownIdentityKey
    | RatchetFailed
    | BadPayload
    | StoreFailed

  datatype DeviceError = DeviceError(device: Device, error: Error)
}
