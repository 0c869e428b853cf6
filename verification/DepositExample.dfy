/** Lowering the creation deposit while a mint is in flight leaves the registry owing more than it holds. */
module DepositExample {
  import opened Fees
  import opened RegistryRules
  import opened Market
  import opened MarketExamples
  import S = SignerRules

  function Before(): FeeConfig { Tariff(2, 10, 0) }

  function After(): FeeConfig { Tariff(2, 1, 0) }

  function Pending(stage: MintStage): World {
    var w := Rented(Before(), Community, 0, 10);
    w.(registry := w.registry.(config := Settings(After())),
       signers := if stage.Reported? then map[FullName() := NewSigner(Key(1))] else map[],
       jobs := map[0 := Minting(Before(), 0, 10, stage)])
  }

  lemma Lowers(u: S.Authorities)
    ensures Apply(u, Rented(Before(), Community, 0, 10), DoUpdateFees(ADMIN, After())) == Pending(Deriving)
  {}

  lemma Mints(u: S.Authorities)
    ensures Run(u, Pending(Deriving), Thrice(0, Yes(TLA))) == Pending(Reported(Installed))
  {
    NameFacts();
    MintRuns(u, Pending(Deriving), 0);
  }

  lemma Settles(u: S.Authorities)
    ensures var w := Apply(u, Pending(Reported(Installed)), Advance(0, Yes(TLA))); w.balance == 0 && w.registry.money.total == 9
  {}

  function Starting(): seq<Step> {
    MovingIn(Community, 10) + [DoUpdateFees(ADMIN, After())]
  }

  lemma Starts(u: S.Authorities)
    ensures Run(u, Blank(Before()), Starting()) == Pending(Deriving)
  {
    MovesIn(u, Before(), Community, 0, 10);
    RunOne(u, Rented(Before(), Community, 0, 10), DoUpdateFees(ADMIN, After()));
    Lowers(u);
    Join(u, Blank(Before()), MovingIn(Community, 10), Rented(Before(), Community, 0, 10), [DoUpdateFees(ADMIN, After())], Pending(Deriving));
  }

  lemma StartsAndMints(u: S.Authorities)
    ensures Run(u, Blank(Before()), Starting() + Thrice(0, Yes(TLA))) == Pending(Reported(Installed))
  {
    Starts(u);
    Mints(u);
    Join(u, Blank(Before()), Starting(), Pending(Deriving), Thrice(0, Yes(TLA)), Pending(Reported(Installed)));
  }

  function Steps(): seq<Step> {
    Starting() + Thrice(0, Yes(TLA)) + [Advance(0, Yes(TLA))]
  }

  /** A rental at a creation deposit of 10, settled after the deposit was cut to 1: nine tokens owed, none there. */
  lemma LoweringTheDepositBreaksSolvency(u: S.Authorities)
    ensures Fresh(Blank(Before()))
    ensures var w := Run(u, Blank(Before()), Steps()); w.balance < w.registry.money.total
  {
    var settle := Advance(0, Yes(TLA));
    var last := Apply(u, Pending(Reported(Installed)), settle);
    StartsAndMints(u);
    RunOne(u, Pending(Reported(Installed)), settle);
    Settles(u);
    Join(u, Blank(Before()), Starting() + Thrice(0, Yes(TLA)), Pending(Reported(Installed)), [settle], last);
  }
}
