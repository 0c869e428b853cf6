/** NEP-413 message payloads, and why none of them is also a transaction. */
module Nep413 {
  import opened Types
  import opened Borsh
  import Tx = Transactions

  /** 2^31 + 413, the prefix of the Signature subsection of the NEP-413 Specification. */
  const TAG: nat := 2_147_484_061

  datatype Message = Message(text: Bytes, nonce: Bytes, recipient: Bytes, callbackUrl: Option<Bytes>) {
    predicate Valid() {
      |text| < U32_LIMIT && |nonce| == 32 && |recipient| < U32_LIMIT &&
      (callbackUrl.Some? ==> |callbackUrl.value| < U32_LIMIT)
    }
  }

  function EncodeUrl(url: Option<Bytes>): Bytes {
    match url
    case None => [0]
    case Some(u) => [1] + WriteBlob(u)
  }

  function EncodePayload(m: Message): Bytes {
    WriteU32(TAG) + WriteBlob(m.text) + m.nonce + WriteBlob(m.recipient) + EncodeUrl(m.callbackUrl)
  }

  method Payload(text: Bytes, nonce: Bytes, recipient: Bytes, callbackUrl: Option<Bytes>) returns (b: Bytes)
    ensures b == EncodePayload(Message(text, nonce, recipient, callbackUrl))
  {
    b := WriteU32(TAG);
    b := b + WriteBlob(text);
    b := b + nonce;
    b := b + WriteBlob(recipient);
    match callbackUrl {
      case Some(url) =>
        Assoc(b, [1], WriteBlob(url));
        b := b + [1];
        b := b + WriteBlob(url);
      case None =>
        b := b + [0];
    }
  }

  function ReadUrl(b: Bytes): Read<Option<Bytes>> {
    if b == [] || b[0] > 1 then None
    else if b[0] == 0 then Some((None, b[1..]))
    else
      match ReadBlob(b[1..])
      case None => None
      case Some((url, rest)) => Some((Some(url), rest))
  }

  function ReadPayload(b: Bytes): Read<Message> {
    match ReadU32(b)
    case None => None
    case Some((tag, b1)) =>
      if tag != TAG then None
      else
        match ReadBlob(b1)
        case None => None
        case Some((text, b2)) =>
          match ReadFixed(b2, 32)
          case None => None
          case Some((nonce, b3)) =>
            match ReadBlob(b3)
            case None => None
            case Some((recipient, b4)) =>
              match ReadUrl(b4)
              case None => None
              case Some((url, rest)) => Some((Message(text, nonce, recipient, url), rest))
  }

  lemma UrlRoundTrip(url: Option<Bytes>)
    requires url.Some? ==> |url.value| < U32_LIMIT
    ensures ReadUrl(EncodeUrl(url)) == Some((url, []))
  {
    match url
    case None => assert EncodeUrl(url)[1..] == [];
    case Some(u) =>
      TagInFront(1, WriteBlob(u));
      assert WriteBlob(u) + [] == WriteBlob(u);
      ReadBlobForward(u, []);
  }

  lemma TagComesFirst(m: Message)
    ensures EncodePayload(m) ==
      WriteU32(TAG) + (WriteBlob(m.text) + (m.nonce + (WriteBlob(m.recipient) + EncodeUrl(m.callbackUrl))))
  {
    Nest4(WriteU32(TAG), WriteBlob(m.text), m.nonce, WriteBlob(m.recipient), EncodeUrl(m.callbackUrl));
  }

  /** A signed message determines its text, nonce, recipient and callback url. */
  lemma PayloadRoundTrip(m: Message)
    requires m.Valid()
    ensures ReadPayload(EncodePayload(m)) == Some((m, []))
  {
    var b4 := EncodeUrl(m.callbackUrl);
    var b3 := WriteBlob(m.recipient) + b4;
    var b2 := m.nonce + b3;
    var b1 := WriteBlob(m.text) + b2;
    TagComesFirst(m);
    ReadU32Forward(TAG, b1);
    ReadBlobForward(m.text, b2);
    ReadFixedForward(m.nonce, b3);
    ReadBlobForward(m.recipient, b4);
    UrlRoundTrip(m.callbackUrl);
  }

  lemma PayloadInjective(m: Message, m': Message)
    requires m.Valid() && m'.Valid() && EncodePayload(m) == EncodePayload(m')
    ensures m == m'
  {
    PayloadRoundTrip(m);
    PayloadRoundTrip(m');
  }

  // ----- separation from transactions -----

  /** The first four bytes of anything with a transaction header are the signer's length. */
  lemma HeaderLeadsWithLength(h: Tx.Header, count: nat, body: Bytes)
    requires |h.signer| < U32_LIMIT
    ensures ReadU32(Tx.EncodeHeader(h, count) + body).Some?
    ensures ReadU32(Tx.EncodeHeader(h, count) + body).value.0 == |h.signer|
  {
    var k, n := WriteKey(h.publicKey), WriteU64(h.nonce);
    var route := Tx.EncodeRoute(h.receiver, h.blockHash, count);
    var rest := route + body;
    Assoc(Tx.EncodeSender(h.signer, h.publicKey, h.nonce), route, body);
    Nest3(WriteBlob(h.signer), k, n, rest);
    Assoc(WriteU32(|h.signer|), h.signer, k + (n + rest));
    ReadU32Forward(|h.signer|, h.signer + (k + (n + rest)));
  }

  /** A payload can only coincide with header-led bytes whose signer id is TAG bytes long. */
  lemma CollisionNeedsTagLength(m: Message, h: Tx.Header, count: nat, body: Bytes)
    requires |h.signer| < U32_LIMIT
    requires EncodePayload(m) == Tx.EncodeHeader(h, count) + body
    ensures |h.signer| == TAG
  {
    TagComesFirst(m);
    ReadU32Forward(TAG, WriteBlob(m.text) + (m.nonce + (WriteBlob(m.recipient) + EncodeUrl(m.callbackUrl))));
    HeaderLeadsWithLength(h, count, body);
  }

  /**
   Account ids have at most 64 bytes, so a signature on a message is never a signature on a
   transaction, whichever of the two builders made it.
   */
  lemma PayloadIsNeverATransaction(m: Message, h: Tx.Header, actions: seq<Tx.TxAction>, newKey: PublicKey)
    requires |h.signer| <= 64
    ensures EncodePayload(m) != Tx.EncodeTransaction(h, actions)
    ensures EncodePayload(m) != Tx.EncodeAddKey(h, newKey)
  {
    if EncodePayload(m) == Tx.EncodeTransaction(h, actions) {
      CollisionNeedsTagLength(m, h, |actions|, Tx.EncodeActions(actions));
    }
    if EncodePayload(m) == Tx.EncodeAddKey(h, newKey) {
      CollisionNeedsTagLength(m, h, 1, Tx.EncodeAddKeyBody(newKey));
    }
  }
}
