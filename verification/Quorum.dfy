/** Counting watcher signatures on a verdict. */
module Quorum {
  import opened Types

  /** Signature checking is foreign code: an arbitrary predicate on (message, signature, key). */
  type Verifier = (Bytes, Bytes, PublicKey) -> bool

  type Signature = (PublicKey, Bytes)

  predicate Counts(verify: Verifier, message: Bytes, watchers: seq<PublicKey>, s: Signature) {
    s.0 in watchers && verify(message, s.1, s.0)
  }

  /** The watchers with at least one valid signature in the list. */
  function Signers(verify: Verifier, message: Bytes, signatures: seq<Signature>, watchers: seq<PublicKey>): set<PublicKey> {
    set s <- signatures | Counts(verify, message, watchers, s) :: s.0
  }

  predicate HasQuorum(verify: Verifier, message: Bytes, signatures: seq<Signature>, watchers: seq<PublicKey>,
                      threshold: nat) {
    |Signers(verify, message, signatures, watchers)| >= threshold
  }

  lemma SignersSnoc(verify: Verifier, message: Bytes, signatures: seq<Signature>, s: Signature, watchers: seq<PublicKey>)
    ensures Signers(verify, message, signatures + [s], watchers) ==
            Signers(verify, message, signatures, watchers) + if Counts(verify, message, watchers, s) then {s.0} else {}
  {
    var before := Signers(verify, message, signatures, watchers);
    var after := Signers(verify, message, signatures + [s], watchers);
    forall k | k in before ensures k in after {
      var t :| t in signatures && Counts(verify, message, watchers, t) && t.0 == k;
      assert t in signatures + [s];
    }
    assert s in signatures + [s];
  }

  /** The list may hold duplicates, outsiders and bad signatures; a 32-bit length is the list's own type. */
  method VerifyQuorum(verify: Verifier, message: Bytes, signatures: seq<Signature>, watchers: seq<PublicKey>,
                      threshold: nat) returns (ok: bool)
    requires |signatures| < U32_LIMIT
    ensures ok <==> HasQuorum(verify, message, signatures, watchers, threshold)
  {
    var counted: seq<PublicKey> := [];
    ghost var seen: set<PublicKey> := {};
    for i := 0 to |signatures|
      invariant seen == Signers(verify, message, signatures[..i], watchers)
      invariant forall k :: k in counted <==> k in seen
      invariant |counted| == |seen| <= i
    {
      var (key, signature) := signatures[i];
      SignersSnoc(verify, message, signatures[..i], signatures[i], watchers);
      assert signatures[..i + 1] == signatures[..i] + [signatures[i]];
      if key !in watchers || key in counted {
        assert Signers(verify, message, signatures[..i + 1], watchers) == seen;
      } else if verify(message, signature, key) {
        counted := counted + [key];
        seen := seen + {key};
      }
    }
    assert signatures[..|signatures|] == signatures;
    ok := |counted| % U32_LIMIT >= threshold;
  }

  /** Only which (watcher, valid signature) pairs occur matters: not their order, number or company. */
  lemma QuorumIgnoresNoise(verify: Verifier, message: Bytes, left: seq<Signature>, right: seq<Signature>,
                           watchers: seq<PublicKey>, threshold: nat)
    requires forall s :: Counts(verify, message, watchers, s) ==> (s in left <==> s in right)
    ensures HasQuorum(verify, message, left, watchers, threshold) <==>
            HasQuorum(verify, message, right, watchers, threshold)
  {
    var l, r := Signers(verify, message, left, watchers), Signers(verify, message, right, watchers);
    forall k ensures k in l <==> k in r {
      if k in l {
        var s :| s in left && Counts(verify, message, watchers, s) && s.0 == k;
        assert s in right;
      }
      if k in r {
        var s :| s in right && Counts(verify, message, watchers, s) && s.0 == k;
        assert s in left;
      }
    }
    assert l == r;
  }
}
