/** The byte strings that attestations and watcher verdicts sign. */
module RecoveryMessages {
  import opened Types
  import opened Borsh

  const DOMAIN_REQUEST: byte := 1
  const DOMAIN_VERDICT: byte := 2

  datatype Subject = Subject(contract: AccountId, account: AccountId, newOwner: PublicKey, round: nat) {
    predicate Valid() {
      |contract| < U32_LIMIT && |account| < U32_LIMIT && newOwner.Valid() && round < U64_LIMIT
    }
  }

  function MessageCore(domain: byte, s: Subject): Bytes {
    [domain] + WriteBlob(s.contract) + WriteBlob(s.account) + WriteKey(s.newOwner) + WriteU64(s.round)
  }

  function RequestMessage(s: Subject): Bytes {
    MessageCore(DOMAIN_REQUEST, s)
  }

  function VerdictMessage(s: Subject, silent: bool): Bytes {
    MessageCore(DOMAIN_VERDICT, s) + [if silent then 1 else 0]
  }

  method BuildVerdictMessage(contract: AccountId, account: AccountId, newOwner: PublicKey, round: nat, silent: bool)
    returns (m: Bytes)
    ensures m == VerdictMessage(Subject(contract, account, newOwner, round), silent)
  {
    m := [DOMAIN_VERDICT];
    m := m + WriteBlob(contract);
    m := m + WriteBlob(account);
    m := m + WriteKey(newOwner);
    m := m + WriteU64(round);
    m := m + [if silent then 1 else 0];
  }

  function ReadSubject(b: Bytes): Read<Subject> {
    match ReadBlob(b)
    case None => None
    case Some((contract, b1)) =>
      match ReadBlob(b1)
      case None => None
      case Some((account, b2)) =>
        match ReadKey(b2)
        case None => None
        case Some((key, b3)) =>
          match ReadU64(b3)
          case None => None
          case Some((round, rest)) => Some((Subject(contract, account, key, round), rest))
  }

  /** The subject is recovered from either kind of message, whatever the key's curve. */
  lemma CoreRoundTrip(domain: byte, s: Subject, rest: Bytes)
    requires s.Valid()
    ensures MessageCore(domain, s) + rest != [] && (MessageCore(domain, s) + rest)[0] == domain
    ensures ReadSubject((MessageCore(domain, s) + rest)[1..]) == Some((s, rest))
  {
    var c, a, k, r := WriteBlob(s.contract), WriteBlob(s.account), WriteKey(s.newOwner), WriteU64(s.round);
    Nest5([domain], c, a, k, r, rest);
    TagInFront(domain, c + (a + (k + (r + rest))));
    ReadBlobForward(s.contract, a + (k + (r + rest)));
    ReadBlobForward(s.account, k + (r + rest));
    ReadKeyForward(s.newOwner, r + rest);
    ReadU64Forward(s.round, rest);
  }

  lemma RequestInjective(s: Subject, s': Subject)
    requires s.Valid() && s'.Valid() && RequestMessage(s) == RequestMessage(s')
    ensures s == s'
  {
    CoreRoundTrip(DOMAIN_REQUEST, s, []);
    CoreRoundTrip(DOMAIN_REQUEST, s', []);
    assert RequestMessage(s) + [] == RequestMessage(s') + [];
  }

  lemma VerdictInjective(s: Subject, silent: bool, s': Subject, silent': bool)
    requires s.Valid() && s'.Valid() && VerdictMessage(s, silent) == VerdictMessage(s', silent')
    ensures s == s' && silent == silent'
  {
    var flag: Bytes := [if silent then 1 else 0];
    var flag': Bytes := [if silent' then 1 else 0];
    CoreRoundTrip(DOMAIN_VERDICT, s, flag);
    CoreRoundTrip(DOMAIN_VERDICT, s', flag');
    assert flag[0] == flag'[0];
  }

  lemma RequestIsNeverVerdict(s: Subject, s': Subject, silent: bool)
    requires s.Valid() && s'.Valid()
    ensures RequestMessage(s) != VerdictMessage(s', silent)
  {
    CoreRoundTrip(DOMAIN_REQUEST, s, []);
    CoreRoundTrip(DOMAIN_VERDICT, s', [if silent then 1 else 0]);
    assert RequestMessage(s) + [] == RequestMessage(s);
  }
}
