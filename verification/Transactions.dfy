/**
 NEAR transactions as the contracts assemble them: the general builder used by the
 active signer and the one-action `AddKey` transaction used by native recovery.
 */
module Transactions {
  import opened Types
  import opened Borsh

  const ACTION_FUNCTION_CALL: byte := 2
  const ACTION_TRANSFER: byte := 3
  const ACTION_ADD_KEY: byte := 5
  const PERMISSION_FULL_ACCESS: byte := 1

  datatype TxAction =
    | FunctionCall(methodName: Bytes, args: Bytes, gas: nat, deposit: nat)
    | Transfer(deposit: nat)
  {
    /** Field widths of the source types: u64 gas, u128 deposit, 32-bit lengths. */
    predicate Valid() {
      deposit < U128_LIMIT &&
      (FunctionCall? ==> |methodName| < U32_LIMIT && |args| < U32_LIMIT && gas < U64_LIMIT)
    }
  }

  datatype Header = Header(signer: AccountId, publicKey: PublicKey, nonce: nat, receiver: AccountId, blockHash: Bytes)
  {
    predicate Valid() {
      |signer| < U32_LIMIT && publicKey.Valid() && nonce < U64_LIMIT &&
      |receiver| < U32_LIMIT && |blockHash| == 32
    }
  }

  predicate AllValid(actions: seq<TxAction>) {
    forall i :: 0 <= i < |actions| ==> actions[i].Valid()
  }

  predicate ValidActions(actions: seq<TxAction>) {
    |actions| < U32_LIMIT && AllValid(actions)
  }

  // ----- layout -----

  function EncodeSender(signer: AccountId, key: PublicKey, nonce: nat): Bytes {
    WriteBlob(signer) + WriteKey(key) + WriteU64(nonce)
  }

  function EncodeRoute(receiver: AccountId, blockHash: Bytes, actionCount: nat): Bytes {
    WriteBlob(receiver) + blockHash + WriteU32(actionCount)
  }

  function EncodeHeader(h: Header, actionCount: nat): Bytes {
    EncodeSender(h.signer, h.publicKey, h.nonce) + EncodeRoute(h.receiver, h.blockHash, actionCount)
  }

  function EncodeAction(a: TxAction): Bytes {
    match a
    case FunctionCall(name, args, gas, deposit) =>
      [ACTION_FUNCTION_CALL] + WriteBlob(name) + WriteBlob(args) + WriteU64(gas) + WriteU128(deposit)
    case Transfer(deposit) => [ACTION_TRANSFER] + WriteU128(deposit)
  }

  function EncodeActions(actions: seq<TxAction>): Bytes {
    WriteMany(EncodeAction, actions)
  }

  function EncodeTransaction(h: Header, actions: seq<TxAction>): Bytes {
    EncodeHeader(h, |actions|) + EncodeActions(actions)
  }

  /** Appending an action field by field is appending its encoding. */
  lemma Appended(b: Bytes, a: TxAction)
    ensures b + EncodeAction(a) ==
      match a
      case FunctionCall(name, args, gas, deposit) =>
        b + [ACTION_FUNCTION_CALL] + WriteBlob(name) + WriteBlob(args) + WriteU64(gas) + WriteU128(deposit)
      case Transfer(deposit) => b + [ACTION_TRANSFER] + WriteU128(deposit)
  {
    match a
    case Transfer(deposit) => Assoc(b, [ACTION_TRANSFER], WriteU128(deposit));
    case FunctionCall(name, args, gas, deposit) =>
      Nest5(b, [ACTION_FUNCTION_CALL], WriteBlob(name), WriteBlob(args), WriteU64(gas), WriteU128(deposit));
      Nest4([ACTION_FUNCTION_CALL], WriteBlob(name), WriteBlob(args), WriteU64(gas), WriteU128(deposit));
  }

  /** The header's fields one after another. */
  lemma HeaderInPieces(signer: Bytes, key: Bytes, nonce: Bytes, receiver: Bytes, blockHash: Bytes, count: Bytes)
    ensures signer + key + nonce + receiver + blockHash + count == (signer + key + nonce) + (receiver + blockHash + count)
  {
    Assoc(signer + key + nonce + receiver, blockHash, count);
    Assoc(signer + key + nonce, receiver, blockHash + count);
    Assoc(receiver, blockHash, count);
  }

  method WriteHeader(signer: AccountId, publicKey: PublicKey, nonce: nat, receiver: AccountId, blockHash: Bytes,
                     actionCount: nat) returns (b: Bytes)
    ensures b == EncodeHeader(Header(signer, publicKey, nonce, receiver, blockHash), actionCount)
  {
    HeaderInPieces(WriteBlob(signer), WriteKey(publicKey), WriteU64(nonce), WriteBlob(receiver), blockHash, WriteU32(actionCount));
    b := WriteBlob(signer);
    b := b + WriteKey(publicKey);
    b := b + WriteU64(nonce);
    b := b + WriteBlob(receiver);
    b := b + blockHash;
    b := b + WriteU32(actionCount);
  }

  lemma OneMore(header: Bytes, actions: seq<TxAction>, i: nat)
    requires i < |actions|
    ensures header + EncodeActions(actions[..i + 1]) == header + EncodeActions(actions[..i]) + EncodeAction(actions[i])
  {
    assert actions[..i + 1] == actions[..i] + [actions[i]];
    WriteManySnoc(EncodeAction, actions[..i], actions[i]);
    Assoc(header, EncodeActions(actions[..i]), EncodeAction(actions[i]));
  }

  method BuildTransaction(signer: AccountId, publicKey: PublicKey, nonce: nat, receiver: AccountId,
                          blockHash: Bytes, actions: seq<TxAction>) returns (b: Bytes)
    ensures b == EncodeTransaction(Header(signer, publicKey, nonce, receiver, blockHash), actions)
  {
    b := WriteHeader(signer, publicKey, nonce, receiver, blockHash, |actions|);
    ghost var header := b;
    for i := 0 to |actions|
      invariant b == header + EncodeActions(actions[..i])
    {
      ghost var before := b;
      match actions[i] {
        case FunctionCall(name, args, gas, deposit) =>
          b := b + [ACTION_FUNCTION_CALL];
          b := b + WriteBlob(name);
          b := b + WriteBlob(args);
          b := b + WriteU64(gas);
          b := b + WriteU128(deposit);
        case Transfer(deposit) =>
          b := b + [ACTION_TRANSFER];
          b := b + WriteU128(deposit);
      }
      Appended(before, actions[i]);
      OneMore(header, actions, i);
    }
    assert actions[..|actions|] == actions;
  }

  // ----- reading a transaction back -----

  function ReadSender(b: Bytes): Read<(AccountId, PublicKey, nat)> {
    match ReadBlob(b)
    case None => None
    case Some((signer, b1)) =>
      match ReadKey(b1)
      case None => None
      case Some((key, b2)) =>
        match ReadU64(b2)
        case None => None
        case Some((nonce, rest)) => Some(((signer, key, nonce), rest))
  }

  function ReadRoute(b: Bytes): Read<(AccountId, Bytes, nat)> {
    match ReadBlob(b)
    case None => None
    case Some((receiver, b1)) =>
      match ReadFixed(b1, 32)
      case None => None
      case Some((hash, b2)) =>
        match ReadU32(b2)
        case None => None
        case Some((count, rest)) => Some(((receiver, hash, count), rest))
  }

  function ReadHeader(b: Bytes): Read<(Header, nat)> {
    match ReadSender(b)
    case None => None
    case Some(((signer, key, nonce), b1)) =>
      match ReadRoute(b1)
      case None => None
      case Some(((receiver, hash, count), rest)) => Some(((Header(signer, key, nonce, receiver, hash), count), rest))
  }

  function ReadAction(b: Bytes): Read<TxAction> {
    if b == [] then None
    else if b[0] == ACTION_TRANSFER then
      match ReadU128(b[1..])
      case None => None
      case Some((deposit, rest)) => Some((Transfer(deposit), rest))
    else if b[0] == ACTION_FUNCTION_CALL then
      match ReadBlob(b[1..])
      case None => None
      case Some((name, b1)) =>
        match ReadBlob(b1)
        case None => None
        case Some((args, b2)) =>
          match ReadU64(b2)
          case None => None
          case Some((gas, b3)) =>
            match ReadU128(b3)
            case None => None
            case Some((deposit, rest)) => Some((FunctionCall(name, args, gas, deposit), rest))
    else None
  }

  function ReadActions(count: nat, b: Bytes): Read<seq<TxAction>> {
    ReadMany(ReadAction, count, b)
  }

  function ReadTransaction(b: Bytes): Read<(Header, seq<TxAction>)> {
    match ReadHeader(b)
    case None => None
    case Some(((h, count), body)) =>
      match ReadActions(count, body)
      case None => None
      case Some((actions, rest)) => Some(((h, actions), rest))
  }

  lemma ReadSenderForward(signer: AccountId, key: PublicKey, nonce: nat, rest: Bytes)
    requires |signer| < U32_LIMIT && key.Valid() && nonce < U64_LIMIT
    ensures ReadSender(EncodeSender(signer, key, nonce) + rest) == Some(((signer, key, nonce), rest))
  {
    Nest3(WriteBlob(signer), WriteKey(key), WriteU64(nonce), rest);
    ReadBlobForward(signer, WriteKey(key) + (WriteU64(nonce) + rest));
    ReadKeyForward(key, WriteU64(nonce) + rest);
    ReadU64Forward(nonce, rest);
  }

  lemma ReadRouteForward(receiver: AccountId, hash: Bytes, count: nat, rest: Bytes)
    requires |receiver| < U32_LIMIT && |hash| == 32 && count < U32_LIMIT
    ensures ReadRoute(EncodeRoute(receiver, hash, count) + rest) == Some(((receiver, hash, count), rest))
  {
    Nest3(WriteBlob(receiver), hash, WriteU32(count), rest);
    ReadBlobForward(receiver, hash + (WriteU32(count) + rest));
    ReadFixedForward(hash, WriteU32(count) + rest);
    ReadU32Forward(count, rest);
  }

  lemma ReadHeaderForward(h: Header, count: nat, rest: Bytes)
    requires h.Valid() && count < U32_LIMIT
    ensures ReadHeader(EncodeHeader(h, count) + rest) == Some(((h, count), rest))
  {
    var route := EncodeRoute(h.receiver, h.blockHash, count);
    Assoc(EncodeSender(h.signer, h.publicKey, h.nonce), route, rest);
    ReadSenderForward(h.signer, h.publicKey, h.nonce, route + rest);
    ReadRouteForward(h.receiver, h.blockHash, count, rest);
  }

  lemma ReadActionForward(a: TxAction, rest: Bytes)
    requires a.Valid()
    ensures ReadAction(EncodeAction(a) + rest) == Some((a, rest))
  {
    match a
    case Transfer(deposit) =>
      Assoc([ACTION_TRANSFER], WriteU128(deposit), rest);
      TagInFront(ACTION_TRANSFER, WriteU128(deposit) + rest);
      ReadU128Forward(deposit, rest);
    case FunctionCall(name, args, gas, deposit) =>
      var b3 := WriteU128(deposit) + rest;
      var b2 := WriteU64(gas) + b3;
      var b1 := WriteBlob(args) + b2;
      Nest5([ACTION_FUNCTION_CALL], WriteBlob(name), WriteBlob(args), WriteU64(gas),
            WriteU128(deposit), rest);
      TagInFront(ACTION_FUNCTION_CALL, WriteBlob(name) + b1);
      ReadBlobForward(name, b1);
      ReadBlobForward(args, b2);
      ReadU64Forward(gas, b3);
      ReadU128Forward(deposit, rest);
  }

  lemma ReadActionsForward(actions: seq<TxAction>, rest: Bytes)
    requires AllValid(actions)
    ensures ReadActions(|actions|, EncodeActions(actions) + rest) == Some((actions, rest))
  {
    forall a: TxAction, more | a.Valid() ensures ReadAction(EncodeAction(a) + more) == Some((a, more)) {
      ReadActionForward(a, more);
    }
    ReadManyForward(ReadAction, EncodeAction, (a: TxAction) => a.Valid(), actions, rest);
  }

  lemma ReadTransactionParts(b: Bytes, h: Header, count: nat, body: Bytes, actions: seq<TxAction>)
    requires ReadHeader(b) == Some(((h, count), body)) && ReadActions(count, body) == Some((actions, []))
    ensures ReadTransaction(b) == Some(((h, actions), []))
  {}

  /** Every field and every action comes back, and no byte is left over. */
  lemma TransactionRoundTrip(h: Header, actions: seq<TxAction>)
    requires h.Valid() && ValidActions(actions)
    ensures ReadTransaction(EncodeTransaction(h, actions)) == Some(((h, actions), []))
  {
    var body := EncodeActions(actions);
    ReadHeaderForward(h, |actions|, body);
    ReadActionsForward(actions, []);
    assert body + [] == body;
    ReadTransactionParts(EncodeTransaction(h, actions), h, |actions|, body, actions);
  }

  lemma ReadSenderBackward(b: Bytes)
    requires ReadSender(b).Some?
    ensures var ((signer, key, nonce), rest) := ReadSender(b).value;
      && |signer| < U32_LIMIT && key.Valid() && nonce < U64_LIMIT
      && b == EncodeSender(signer, key, nonce) + rest
  {
    var (signer, b1) := ReadBlob(b).value;
    ReadBlobBackward(b);
    var (key, b2) := ReadKey(b1).value;
    ReadKeyBackward(b1);
    var (nonce, rest) := ReadU64(b2).value;
    ReadU64Backward(b2);
    Nest3(WriteBlob(signer), WriteKey(key), WriteU64(nonce), rest);
  }

  lemma ReadRouteBackward(b: Bytes)
    requires ReadRoute(b).Some?
    ensures var ((receiver, hash, count), rest) := ReadRoute(b).value;
      && |receiver| < U32_LIMIT && |hash| == 32 && count < U32_LIMIT
      && b == EncodeRoute(receiver, hash, count) + rest
  {
    var (receiver, b1) := ReadBlob(b).value;
    ReadBlobBackward(b);
    var (hash, b2) := ReadFixed(b1, 32).value;
    ReadFixedBackward(b1, 32);
    var (count, rest) := ReadU32(b2).value;
    ReadU32Backward(b2);
    Nest3(WriteBlob(receiver), hash, WriteU32(count), rest);
  }

  lemma ReadHeaderBackward(b: Bytes)
    requires ReadHeader(b).Some?
    ensures var ((h, count), rest) := ReadHeader(b).value;
      h.Valid() && count < U32_LIMIT && b == EncodeHeader(h, count) + rest
  {
    var ((signer, key, nonce), b1) := ReadSender(b).value;
    ReadSenderBackward(b);
    var ((receiver, hash, count), rest) := ReadRoute(b1).value;
    ReadRouteBackward(b1);
    Assoc(EncodeSender(signer, key, nonce), EncodeRoute(receiver, hash, count), rest);
  }

  lemma ReadActionBackward(b: Bytes)
    requires ReadAction(b).Some?
    ensures var (a, rest) := ReadAction(b).value;
      a.Valid() && b == EncodeAction(a) + rest
  {
    assert b == [b[0]] + b[1..];
    if b[0] == ACTION_TRANSFER {
      var (deposit, rest) := ReadU128(b[1..]).value;
      ReadU128Backward(b[1..]);
      Assoc([ACTION_TRANSFER], WriteU128(deposit), rest);
    } else {
      var (name, b1) := ReadBlob(b[1..]).value;
      ReadBlobBackward(b[1..]);
      var (args, b2) := ReadBlob(b1).value;
      ReadBlobBackward(b1);
      var (gas, b3) := ReadU64(b2).value;
      ReadU64Backward(b2);
      var (deposit, rest) := ReadU128(b3).value;
      ReadU128Backward(b3);
      Nest5([ACTION_FUNCTION_CALL], WriteBlob(name), WriteBlob(args), WriteU64(gas),
            WriteU128(deposit), rest);
    }
  }

  lemma ReadActionsBackward(count: nat, b: Bytes)
    requires ReadActions(count, b).Some?
    ensures var (actions, rest) := ReadActions(count, b).value;
      |actions| == count && AllValid(actions) && b == EncodeActions(actions) + rest
  {
    forall c | ReadAction(c).Some?
      ensures ReadAction(c).value.0.Valid() && c == EncodeAction(ReadAction(c).value.0) + ReadAction(c).value.1
    {
      ReadActionBackward(c);
    }
    ReadManyBackward(ReadAction, EncodeAction, (a: TxAction) => a.Valid(), count, b);
  }

  /** The reader accepts nothing but encodings, so every action it meets has tag 2 or 3. */
  lemma TransactionCanonical(b: Bytes)
    requires ReadTransaction(b).Some? && ReadTransaction(b).value.1 == []
    ensures var (h, actions) := ReadTransaction(b).value.0;
      h.Valid() && ValidActions(actions) && b == EncodeTransaction(h, actions)
  {
    ReadHeaderBackward(b);
    var ((h, count), body) := ReadHeader(b).value;
    ReadActionsBackward(count, body);
    var (actions, rest) := ReadActions(count, body).value;
    assert EncodeActions(actions) + [] == EncodeActions(actions);
  }

  lemma TransactionInjective(h: Header, actions: seq<TxAction>, h': Header, actions': seq<TxAction>)
    requires h.Valid() && ValidActions(actions) && h'.Valid() && ValidActions(actions')
    requires EncodeTransaction(h, actions) == EncodeTransaction(h', actions')
    ensures h == h' && actions == actions'
  {
    TransactionRoundTrip(h, actions);
    TransactionRoundTrip(h', actions');
  }

  // ----- the AddKey transaction of native recovery -----

  function EncodeAddKeyBody(newKey: PublicKey): Bytes {
    [ACTION_ADD_KEY] + WriteKey(newKey) + WriteU64(0) + [PERMISSION_FULL_ACCESS]
  }

  function EncodeAddKey(h: Header, newKey: PublicKey): Bytes {
    EncodeHeader(h, 1) + EncodeAddKeyBody(newKey)
  }

  /** The account signs for itself: it is both the signer and the receiver. */
  method AddKeyTx(account: AccountId, signingKey: PublicKey, nonce: nat, blockHash: Bytes, newKey: PublicKey)
    returns (b: Bytes)
    ensures b == EncodeAddKey(Header(account, signingKey, nonce, account, blockHash), newKey)
  {
    HeaderInPieces(WriteBlob(account), WriteKey(signingKey), WriteU64(nonce), WriteBlob(account), blockHash, WriteU32(1));
    b := WriteBlob(account);
    b := b + WriteKey(signingKey);
    b := b + WriteU64(nonce);
    b := b + WriteBlob(account);
    b := b + blockHash;
    b := b + WriteU32(1);
    BodyInPieces(b, [ACTION_ADD_KEY], WriteKey(newKey), WriteU64(0), [PERMISSION_FULL_ACCESS]);
    b := b + [ACTION_ADD_KEY];
    b := b + WriteKey(newKey);
    b := b + WriteU64(0);
    b := b + [PERMISSION_FULL_ACCESS];
  }

  lemma BodyInPieces(header: Bytes, tag: Bytes, key: Bytes, nonce: Bytes, permission: Bytes)
    ensures header + tag + key + nonce + permission == header + (tag + key + nonce + permission)
  {
    Assoc(header + tag + key, nonce, permission);
    Assoc(header + tag, key, nonce + permission);
    Assoc(header, tag, key + (nonce + permission));
    Assoc(tag + key, nonce, permission);
    Assoc(tag, key, nonce + permission);
  }

  function ReadAddKeyBody(b: Bytes): Read<PublicKey> {
    if b == [] || b[0] != ACTION_ADD_KEY then None
    else
      match ReadKey(b[1..])
      case None => None
      case Some((key, b1)) =>
        match ReadU64(b1)
        case None => None
        case Some((keyNonce, b2)) =>
          if keyNonce != 0 || b2 == [] || b2[0] != PERMISSION_FULL_ACCESS then None
          else Some((key, b2[1..]))
  }

  function ReadAddKey(b: Bytes): Read<(Header, PublicKey)> {
    match ReadHeader(b)
    case None => None
    case Some(((h, count), body)) =>
      if count != 1 then None
      else
        match ReadAddKeyBody(body)
        case None => None
        case Some((key, rest)) => Some(((h, key), rest))
  }

  lemma AddKeyBodyRoundTrip(newKey: PublicKey)
    requires newKey.Valid()
    ensures ReadAddKeyBody(EncodeAddKeyBody(newKey)) == Some((newKey, []))
  {
    var b2: Bytes := [PERMISSION_FULL_ACCESS];
    var b1 := WriteU64(0) + b2;
    Nest3([ACTION_ADD_KEY], WriteKey(newKey), WriteU64(0), b2);
    TagInFront(ACTION_ADD_KEY, WriteKey(newKey) + b1);
    ReadKeyForward(newKey, b1);
    ReadU64Forward(0, b2);
    assert b2[1..] == [];
  }

  /** The account, nonce, block hash and the key being added all come back from the bytes. */
  lemma AddKeyRoundTrip(h: Header, newKey: PublicKey)
    requires h.Valid() && newKey.Valid()
    ensures ReadAddKey(EncodeAddKey(h, newKey)) == Some(((h, newKey), []))
  {
    ReadHeaderForward(h, 1, EncodeAddKeyBody(newKey));
    AddKeyBodyRoundTrip(newKey);
  }

  lemma AddKeyTag(newKey: PublicKey)
    ensures |EncodeAddKeyBody(newKey)| > 0 && EncodeAddKeyBody(newKey)[0] == ACTION_ADD_KEY
  {
    Nest3([ACTION_ADD_KEY], WriteKey(newKey), WriteU64(0), [PERMISSION_FULL_ACCESS]);
  }

  lemma ActionTag(actions: seq<TxAction>)
    requires |actions| > 0
    ensures |EncodeActions(actions)| > 0
    ensures EncodeActions(actions)[0] in {ACTION_FUNCTION_CALL, ACTION_TRANSFER}
  {
    assert EncodeAction(actions[0])[0] in {ACTION_FUNCTION_CALL, ACTION_TRANSFER};
  }

  /** Nothing the active signer builds can be taken for a key-adding transaction. */
  lemma BuiltIsNeverAddKey(h: Header, actions: seq<TxAction>, h': Header, newKey: PublicKey)
    requires h.Valid() && ValidActions(actions) && h'.Valid()
    ensures EncodeTransaction(h, actions) != EncodeAddKey(h', newKey)
  {
    ReadHeaderForward(h, |actions|, EncodeActions(actions));
    ReadHeaderForward(h', 1, EncodeAddKeyBody(newKey));
    AddKeyTag(newKey);
    if |actions| > 0 {
      ActionTag(actions);
    }
  }
}
