/** `signal.Session` as the mutable object the Manager holds between loading and persisting. */
module SessionObject {
  import opened Basics
  import opened Types
  import opened Signal

  class Session {
    const protocol: Protocol
    var ratchet: Ratchet
    var pending: Option<PendingPreKey>

    ghost function State(): SessionState
      reads this
    {
      SessionState(protocol, ratchet, pending)
    }

    constructor (s: SessionState)
      ensures State() == s
    {
      protocol, ratchet, pending := s.protocol, s.ratchet, s.pending;
    }

    method Encrypt(body: nat) returns (r: Result<Wire, Error>)
      modifies this
      ensures (State(), r) == Seal(old(State()), body)
    {
      var p := None;
      if protocol == ProtocolV1 {
        p, pending := pending, None;
      }
      match RatchetEncrypt(ratchet, body)
      case Err(e) => r := Err(e);
      case Ok((next, w)) =>
        if p.Some? {
          r := Ok(PreKeyWhisper(ratchet.root.initiator, p.value.ekPub, p.value.preKeyID, p.value.signedPreKeyID,
                                p.value.registrationID, w));
        } else {
          r := Ok(w);
        }
        ratchet := next;
    }

    method Decrypt(data: Wire) returns (r: Result<nat, Error>)
      modifies this
      ensures (State(), r) == Open(old(State()), data)
    {
      match RatchetDecrypt(ratchet, data)
      case Err(e) => r := Err(e);
      case Ok((next, body)) =>
        ratchet := next;
        r := Ok(body);
    }

    method MarshalBinary() returns (data: Blob)
      ensures data == Marshal(State())
    {
      data := Blob(protocol, ratchet);
    }
  }
}
