/** Sub-account names, the keys built from them, and how account ids split at dots. */
module Names {
  import opened Types

  const DOT: byte := 46
  const DASH: byte := 45
  const UNDERSCORE: byte := 95

  datatype NameCheck = Accepted | LengthOutOfBounds | DisallowedCharacter | EdgeSeparator

  predicate AllowedByte(c: byte) {
    97 <= c <= 122 || 48 <= c <= 57 || c == DASH || c == UNDERSCORE
  }

  predicate Separator(c: byte) {
    c == DASH || c == UNDERSCORE
  }

  /** What the name checks are for: 1 to 60 bytes of [a-z0-9_-] with an alphanumeric at both ends. */
  predicate ValidName(name: Bytes) {
    && 1 <= |name| <= 60
    && (forall i :: 0 <= i < |name| ==> AllowedByte(name[i]))
    && !Separator(name[0]) && !Separator(name[|name| - 1])
  }

  method ValidateName(name: Bytes) returns (r: NameCheck)
    ensures r == Accepted <==> ValidName(name)
    ensures r == LengthOutOfBounds <==> !(1 <= |name| <= 60)
    ensures r == DisallowedCharacter ==> exists i :: 0 <= i < |name| && !AllowedByte(name[i])
    ensures r == EdgeSeparator ==> forall i :: 0 <= i < |name| ==> AllowedByte(name[i])
  {
    if |name| == 0 || |name| > 60 {
      return LengthOutOfBounds;
    }
    for i := 0 to |name|
      invariant forall j :: 0 <= j < i ==> AllowedByte(name[j])
    {
      if !AllowedByte(name[i]) {
        return DisallowedCharacter;
      }
    }
    if Separator(name[0]) || Separator(name[|name| - 1]) {
      return EdgeSeparator;
    }
    return Accepted;
  }

  function SubAccountKey(tla: AccountId, name: Bytes): Bytes {
    name + [DOT] + tla
  }

  predicate NoDot(part: Bytes) {
    forall i :: 0 <= i < |part| ==> part[i] != DOT
  }

  lemma FirstDotDiffers(tla: AccountId, name: Bytes, tla': AccountId, longer: Bytes)
    requires |name| < |longer| && NoDot(longer)
    ensures SubAccountKey(tla, name) != SubAccountKey(tla', longer)
  {
    assert SubAccountKey(tla, name)[|name|] == DOT;
    assert SubAccountKey(tla', longer)[|name|] == longer[|name|];
  }

  /** A dot-free label is cut off at the first dot, so it and the parent are determined. */
  lemma SplitAtFirstDot(tla: AccountId, name: Bytes, tla': AccountId, name': Bytes)
    requires NoDot(name) && NoDot(name') && SubAccountKey(tla, name) == SubAccountKey(tla', name')
    ensures name == name' && tla == tla'
  {
    var key, key' := SubAccountKey(tla, name), SubAccountKey(tla', name');
    if |name| < |name'| {
      FirstDotDiffers(tla, name, tla', name');
    } else if |name'| < |name| {
      FirstDotDiffers(tla', name', tla, name);
    }
    assert key[..|name|] == name && key'[..|name'|] == name';
    assert key[|name| + 1..] == tla && key'[|name'| + 1..] == tla';
  }

  /** Among checked names, two rentals never share a key. */
  lemma KeysDetermineNames(tla: AccountId, name: Bytes, tla': AccountId, name': Bytes)
    requires ValidName(name) && ValidName(name') && SubAccountKey(tla, name) == SubAccountKey(tla', name')
    ensures name == name' && tla == tla'
  {
    SplitAtFirstDot(tla, name, tla', name');
  }

  /** Without the name check a dotted name reaches the key of any TLA nested under the one given: "aa.bb" under "cc" is "aa" under "bb.cc". */
  lemma DottedNamesCollide(tla: AccountId, prefix: Bytes, name: Bytes)
    ensures SubAccountKey(tla, SubAccountKey(prefix, name)) == SubAccountKey(SubAccountKey(tla, prefix), name)
  {
    assert name + [DOT] + prefix + [DOT] + tla == name + [DOT] + (prefix + [DOT] + tla);
  }

  /** Without the check, a key read under `tla` either belongs to it or to a TLA nested under it. */
  lemma NestedOrEqual(tla: AccountId, name: Bytes, own: AccountId, part: Bytes)
    requires NoDot(part) && SubAccountKey(tla, name) == SubAccountKey(own, part)
    ensures own == tla || exists prefix :: own == SubAccountKey(tla, prefix)
  {
    var k := SubAccountKey(tla, name);
    if |name| < |part| {
      FirstDotDiffers(tla, name, own, part);
    } else if |name| == |part| {
      assert k[|name| + 1..] == tla && k[|part| + 1..] == own;
    } else {
      var prefix := name[|part| + 1..];
      assert k[|part|] == DOT && k[|part|] == name[|part|];
      assert k[|part| + 1..] == own;
      assert k[|part| + 1..] == prefix + [DOT] + tla;
      assert own == SubAccountKey(tla, prefix);
    }
  }

  // ----- install authority of a minter -----

  function StripSuffix(s: Bytes, suffix: Bytes): Option<Bytes> {
    if |suffix| <= |s| && s[|s| - |suffix|..] == suffix then Some(s[..|s| - |suffix|]) else None
  }

  predicate IsDirectSubaccount(wallet: AccountId, parent: AccountId) {
    match StripSuffix(wallet, parent)
    case None => false
    case Some(prefix) =>
      match StripSuffix(prefix, [DOT])
      case None => false
      case Some(part) => |part| > 0 && NoDot(part)
  }

  /** The two-step stripping finds exactly the ids of the form label.parent. */
  lemma DirectSubaccountShape(wallet: AccountId, parent: AccountId)
    ensures IsDirectSubaccount(wallet, parent) <==>
            exists part: Bytes :: |part| > 0 && NoDot(part) && wallet == SubAccountKey(parent, part)
  {
    if IsDirectSubaccount(wallet, parent) {
      var prefix := StripSuffix(wallet, parent).value;
      var part := StripSuffix(prefix, [DOT]).value;
      assert wallet == prefix + parent && prefix == part + [DOT];
      assert wallet == SubAccountKey(parent, part);
    }
    if part: Bytes :| |part| > 0 && NoDot(part) && wallet == SubAccountKey(parent, part) {
      var prefix := part + [DOT];
      assert wallet[..|wallet| - |parent|] == prefix && wallet[|wallet| - |parent|..] == parent;
      assert prefix[..|part|] == part && prefix[|part|..] == [DOT];
    }
  }

  /** No wallet has two parents, so no two minters can install a signer for the same wallet. */
  lemma OneParent(wallet: AccountId, parent: AccountId, parent': AccountId)
    requires IsDirectSubaccount(wallet, parent) && IsDirectSubaccount(wallet, parent')
    ensures parent == parent'
  {
    DirectSubaccountShape(wallet, parent);
    DirectSubaccountShape(wallet, parent');
    var part: Bytes :| NoDot(part) && wallet == SubAccountKey(parent, part);
    var part': Bytes :| NoDot(part') && wallet == SubAccountKey(parent', part');
    SplitAtFirstDot(parent, part, parent', part');
  }

  /** A checked name always gives a wallet its own TLA may install. */
  lemma CheckedNamesAreInstallable(tla: AccountId, name: Bytes)
    requires ValidName(name)
    ensures IsDirectSubaccount(SubAccountKey(tla, name), tla)
  {
    DirectSubaccountShape(SubAccountKey(tla, name), tla);
    assert NoDot(name);
  }
}
