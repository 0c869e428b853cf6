/** Runs that show which assumptions the market's guarantees cannot do without, built from legs that hold in any state. */
module MarketExamples {
  import opened Types
  import opened Fees
  import opened RegistryTypes
  import opened RegistryRules
  import opened Names
  import opened Market
  import S = SignerRules

  const ADMIN: AccountId := [97, 98]
  const RENTER: AccountId := [99, 100]
  const NEWCOMER: AccountId := [101, 102]
  const TLA: AccountId := [116, 108, 97]
  const NAME: Bytes := [110]
  const DAY_NS: nat := 86_400_000_000_000

  function Key(n: byte): PublicKey {
    Ed25519(seq(32, _ => n))
  }

  lemma KeysDiffer(m: byte, n: byte)
    requires m != n
    ensures Key(m) != Key(n) && Key(m).Valid() && Key(n).Valid()
  {
    assert Key(m).raw[0] == m && Key(n).raw[0] == n;
  }

  /** Every receipt works; the MPC key is 9, the minter is `tla`, and the signer's current key is 1. */
  function Yes(tla: AccountId): Choice {
    Choice(true, true, true, false, Key(9), Some(Key(1)), {tla})
  }

  /** All rent tiers alike. */
  function Tariff(rent: nat, deposit: nat, noticeNs: nat): FeeConfig {
    FeeConfig(0, rent, rent, rent, rent, 1, deposit, 0, noticeNs, 0)
  }

  function Settings(fees: FeeConfig): Config {
    Config(false, {ADMIN}, {}, {}, Key(2), DAY_NS, fees, map[])
  }

  function Blank(fees: FeeConfig): World {
    World(0, Registry(Settings(fees), map[], map[], Board(map[], map[]), map[], map[], {}, Counts(map[], 0), Money(0, map[], 0)),
          map[], 0, map[], 0, [], {})
  }

  // ----- putting runs together -----

  lemma {:induction false} RunConcat(u: S.Authorities, w: World, first: seq<Step>, second: seq<Step>)
    ensures Run(u, w, first + second) == Run(u, Run(u, w, first), second)
  {
    if second == [] {
      assert first + second == first;
    } else {
      assert (first + second)[..|first + second| - 1] == first + second[..|second| - 1];
      RunConcat(u, w, first, second[..|second| - 1]);
    }
  }

  lemma Join(u: S.Authorities, w: World, first: seq<Step>, mid: World, second: seq<Step>, last: World)
    requires Run(u, w, first) == mid && Run(u, mid, second) == last
    ensures Run(u, w, first + second) == last
  {
    RunConcat(u, w, first, second);
  }

  lemma RunOne(u: S.Authorities, w: World, x: Step)
    ensures Run(u, w, [x]) == Apply(u, w, x)
  {
    assert [x][..0] == [];
  }

  lemma RunTwo(u: S.Authorities, w: World, x: Step, y: Step)
    ensures Run(u, w, [x, y]) == Apply(u, Apply(u, w, x), y)
  {
    assert [x, y][..1] == [x];
    RunOne(u, w, x);
  }

  lemma RunThree(u: S.Authorities, w: World, x: Step, y: Step, z: Step)
    ensures Run(u, w, [x, y, z]) == Apply(u, Apply(u, Apply(u, w, x), y), z)
  {
    assert [x, y, z][..2] == [x, y];
    RunTwo(u, w, x, y);
  }

  function Thrice(id: nat, c: Choice): seq<Step> {
    [Advance(id, c), Advance(id, c), Advance(id, c)]
  }

  // ----- legs of any run -----

  function NewSigner(key: PublicKey): S.SignerEntry {
    S.SignerEntry(key, Key(9), {}, {}, 0, S.Unfrozen)
  }

  /** A mint that meets no failure: key derived, account created, signer installed. */
  function AtStage(w: World, id: nat, stage: MintStage): World
    requires id in w.jobs && w.jobs[id].Mint?
  {
    w.(jobs := w.jobs[id := w.jobs[id].(mint := stage)])
  }

  lemma Derives(u: S.Authorities, w: World, id: nat)
    requires id in w.jobs && w.jobs[id].Mint? && w.jobs[id].mint.Deriving?
    requires w.jobs[id].ownerKey.Ed25519? && IsAccountId(w.jobs[id].key)
    ensures Apply(u, w, Advance(id, Yes(w.jobs[id].tla))) == AtStage(w, id, Creating(Key(9)))
  {}

  lemma Creates(u: S.Authorities, w: World, id: nat)
    requires id in w.jobs && w.jobs[id].Mint? && w.jobs[id].mint == Creating(Key(9))
    ensures Apply(u, w, Advance(id, Yes(w.jobs[id].tla))) == AtStage(w, id, MintStage.Installing(Key(9)))
  {}

  lemma Installs(u: S.Authorities, w: World, id: nat)
    requires id in w.jobs && w.jobs[id].Mint? && w.jobs[id].mint == MintStage.Installing(Key(9))
    requires var j := w.jobs[id]; j.ownerKey.Ed25519? && IsDirectSubaccount(j.key, j.tla) && j.key !in w.signers
    ensures var j := w.jobs[id];
      Apply(u, w, Advance(id, Yes(j.tla))) ==
      AtStage(w, id, Reported(Installed)).(signers := w.signers[j.key := NewSigner(j.ownerKey)])
  {
    KeysDiffer(9, 0);
  }

  /** A mint that meets no failure: key derived, account created, signer installed. */
  lemma MintRuns(u: S.Authorities, w: World, id: nat)
    requires id in w.jobs && w.jobs[id].Mint? && w.jobs[id].mint.Deriving?
    requires var j := w.jobs[id];
      j.ownerKey.Ed25519? && IsAccountId(j.key) && IsDirectSubaccount(j.key, j.tla) && j.key !in w.signers
    ensures var j := w.jobs[id];
      Run(u, w, Thrice(id, Yes(j.tla))) ==
      w.(signers := w.signers[j.key := NewSigner(j.ownerKey)], jobs := w.jobs[id := j.(mint := Reported(Installed))])
  {
    var step := Advance(id, Yes(w.jobs[id].tla));
    RunThree(u, w, step, step, step);
    Derives(u, w, id);
    Creates(u, AtStage(w, id, Creating(Key(9))), id);
    Installs(u, AtStage(w, id, MintStage.Installing(Key(9))), id);
    assert AtStage(AtStage(w, id, Creating(Key(9))), id, MintStage.Installing(Key(9))) == AtStage(w, id, MintStage.Installing(Key(9)));
  }

  /** A transfer of a frozen wallet: the signer refuses, and the extension reports a success that carries false. */
  lemma FrozenRuns(u: S.Authorities, w: World, id: nat, tla: AccountId)
    requires id in w.jobs && w.jobs[id].Chain? && w.jobs[id].stage.AtExtension?
    requires w.jobs[id].stage.newKey.Ed25519? && w.jobs[id].stage.expected.None?
    requires w.jobs[id].task.key in w.signers && w.signers[w.jobs[id].task.key].frozen != S.Unfrozen
    ensures var t, newKey := w.jobs[id].task, w.jobs[id].stage.newKey;
      Run(u, w, Thrice(id, Yes(tla))) == w.(jobs := w.jobs[id := Chain(t, Answered(newKey, Returned(false)))])
  {
    var t, newKey, step := w.jobs[id].task, w.jobs[id].stage.newKey, Advance(id, Yes(tla));
    RunThree(u, w, step, step, step);
    var w1 := w.(jobs := w.jobs[id := Chain(t, AtSigner(newKey, None))]);
    assert Apply(u, w, step) == w1;
    var w2 := w.(jobs := w.jobs[id := Chain(t, Stage.Swapped(newKey, Failed))]);
    assert w1.moves + [] == w1.moves;
    assert Apply(u, w1, step) == w2;
  }

  // ----- a first rental -----

  function Entry(owner: AccountId, tla: AccountId, now: nat): SubEntry {
    SubEntry(owner, tla, owner, now, now + ONE_YEAR_NS, None)
  }

  function Leased(fees: FeeConfig, premium: Premium): World {
    var w := Blank(fees);
    w.(registry := w.registry.(tlas := map[TLA := TlaEntry(Open, Active, None, premium, 0, ONE_YEAR_NS)]))
  }

  function Opening(premium: Premium): seq<Step> {
    [DoRegisterTla(ADMIN, TLA, Open, premium, None), DoActivateOpenTla(ADMIN, TLA)]
  }

  lemma Opens(u: S.Authorities, fees: FeeConfig, premium: Premium)
    ensures Run(u, Blank(fees), Opening(premium)) == Leased(fees, premium)
  {
    var listed := Blank(fees).(registry := Blank(fees).registry.(tlas := map[TLA := TlaEntry(Open, Registered, None, premium, 0, 0)]));
    RunTwo(u, Blank(fees), DoRegisterTla(ADMIN, TLA, Open, premium, None), DoActivateOpenTla(ADMIN, TLA));
    assert ApplyTla(Blank(fees), DoRegisterTla(ADMIN, TLA, Open, premium, None)) == listed;
    assert ApplyTla(listed, DoActivateOpenTla(ADMIN, TLA)) == Leased(fees, premium);
  }

  function FullName(): Bytes {
    SubAccountKey(TLA, NAME)
  }

  lemma NameFacts()
    ensures ValidName(NAME) && IsAccountId(FullName()) && |FullName()| == 5 && FullName() != RENTER && FullName() != NEWCOMER
    ensures IsDirectSubaccount(FullName(), TLA)
  {
    CheckedNamesAreInstallable(TLA, NAME);
  }

  function Minting(fees: FeeConfig, rent: nat, attached: nat, stage: MintStage): Job {
    Mint(TLA, FullName(), RENTER, Key(1), rent, attached, fees.creationDeposit, false, stage)
  }

  function Rented(fees: FeeConfig, premium: Premium, rent: nat, attached: nat): World
    requires fees.creationDeposit <= attached
  {
    var w := Leased(fees, premium);
    w.(registry := w.registry.(subs := map[FullName() := Entry(RENTER, TLA, 0)]), balance := attached - fees.creationDeposit,
       jobs := map[0 := Minting(fees, rent, attached, Deriving)], nextId := 1)
  }

  lemma Rents(u: S.Authorities, fees: FeeConfig, premium: Premium, rent: nat, attached: nat)
    requires rent == SubAccountRent(5, premium, fees) && attached == rent + fees.creationDeposit < U128_LIMIT
    ensures Apply(u, Leased(fees, premium), DoRent(RENTER, attached, TLA, NAME, Key(1), RENTER)) ==
            Rented(fees, premium, rent, attached)
  {
    NameFacts();
  }

  function MovingIn(premium: Premium, attached: nat): seq<Step> {
    Opening(premium) + [DoRent(RENTER, attached, TLA, NAME, Key(1), RENTER)]
  }

  lemma MovesIn(u: S.Authorities, fees: FeeConfig, premium: Premium, rent: nat, attached: nat)
    requires rent == SubAccountRent(5, premium, fees) && attached == rent + fees.creationDeposit < U128_LIMIT
    ensures Run(u, Blank(fees), MovingIn(premium, attached)) == Rented(fees, premium, rent, attached)
  {
    var step := DoRent(RENTER, attached, TLA, NAME, Key(1), RENTER);
    Opens(u, fees, premium);
    Rents(u, fees, premium, rent, attached);
    RunOne(u, Leased(fees, premium), step);
    Join(u, Blank(fees), Opening(premium), Leased(fees, premium), [step], Rented(fees, premium, rent, attached));
  }
}
