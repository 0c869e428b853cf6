/**
 A tenant who froze his own wallet: the reclaim parks his name and the next rental is booked and paid,
 while the wallet keeps his key throughout.
 */
module ParkingExample {
  import opened Types
  import opened Fees
  import opened RegistryTypes
  import opened RegistryRules
  import opened Market
  import opened MarketExamples
  import S = SignerRules

  const LATER: nat := ONE_YEAR_NS + DAY_NS

  function Rates(): FeeConfig { Tariff(2, 10, 0) }

  /** The wallet after its owner's self-freeze with nonce 7. */
  function Frozen(): S.Signers {
    map[FullName() := NewSigner(Key(1)).(freezeNonces := {7}, frozen := S.SelfFrozen)]
  }

  /** The change of the signer table in the run is one `self_freeze` call. */
  lemma OneSelfFreeze()
    ensures S.SelfFreeze(map[FullName() := NewSigner(Key(1))], FullName(), S.Envelope(S.CHAIN_ID, FullName(), 7, true),
                         (k: PublicKey) => k == Key(1)) == Some(Frozen())
  {
    var signers := map[FullName() := NewSigner(Key(1))];
    assert NewSigner(Key(1)).freezeNonces + {7} == {7};
    assert signers[FullName() := Frozen()[FullName()]] == Frozen();
  }

  // ----- the tenant moves in -----

  function Minted(): World {
    var w := Rented(Rates(), Standard, 3, 13);
    w.(signers := map[FullName() := NewSigner(Key(1))], jobs := map[0 := Minting(Rates(), 3, 13, Reported(Installed))])
  }

  lemma Mints(u: S.Authorities)
    ensures Run(u, Blank(Rates()), MovingIn(Standard, 13) + Thrice(0, Yes(TLA))) == Minted()
  {
    MovesIn(u, Rates(), Standard, 3, 13);
    NameFacts();
    MintRuns(u, Rented(Rates(), Standard, 3, 13), 0);
    Join(u, Blank(Rates()), MovingIn(Standard, 13), Rented(Rates(), Standard, 3, 13), Thrice(0, Yes(TLA)), Minted());
  }

  // ----- the scenes that follow, all with the frozen wallet -----

  function Scene(now: nat, expiresAt: nat, subs: map<Bytes, SubEntry>, parked: map<Bytes, ParkedEntry>, reclaims: set<Bytes>,
                 count: nat, revenue: nat, jobs: map<nat, Job>, nextId: nat): World {
    World(now, Registry(Settings(Rates()), map[TLA := TlaEntry(Open, Active, None, Standard, 0, expiresAt)], subs, Board(map[], map[]),
                        parked, map[], reclaims, Counts(map[], count), Money(revenue, map[], 0)),
          Frozen(), revenue, jobs, nextId, [], {})
  }

  function Tenant(): map<Bytes, SubEntry> { map[FullName() := Entry(RENTER, TLA, 0)] }

  function Settled(): World { Scene(0, ONE_YEAR_NS, Tenant(), map[], {}, 1, 3, map[], 1) }

  lemma Settles(u: S.Authorities)
    ensures Run(u, Minted(), [Advance(0, Yes(TLA)), SignersChange(Frozen())]) == Settled()
  {
    RunTwo(u, Minted(), Advance(0, Yes(TLA)), SignersChange(Frozen()));
    var jobs := Minted().jobs;
    assert jobs - {0} == map[];
  }

  function Overdue(): World { Scene(LATER, 2 * ONE_YEAR_NS, Tenant(), map[], {}, 1, 5, map[], 1) }

  lemma FallsDue(u: S.Authorities)
    ensures Run(u, Settled(), [DoRenewTla(ADMIN, 2, TLA), Tick(LATER)]) == Overdue()
  {
    RunTwo(u, Settled(), DoRenewTla(ADMIN, 2, TLA), Tick(LATER));
  }

  function Reclaiming(stage: Stage): World {
    Scene(LATER, 2 * ONE_YEAR_NS, Tenant(), map[], {FullName()}, 1, 5, map[1 := Chain(Reclaim(TLA, FullName()), stage)], 2)
  }

  lemma Reclaims(u: S.Authorities)
    ensures Run(u, Overdue(), [DoReclaim(RENTER, TLA, NAME, false)]) == Reclaiming(AtExtension(Key(2), None))
  {
    NameFacts();
    RunOne(u, Overdue(), DoReclaim(RENTER, TLA, NAME, false));
  }

  function Parked(): World {
    Scene(LATER, 2 * ONE_YEAR_NS, map[], map[FullName() := ParkedEntry(TLA, LATER)], {}, 0, 5, map[], 2)
  }

  lemma Parks(u: S.Authorities)
    ensures Run(u, Reclaiming(AtExtension(Key(2), None)), Thrice(1, Yes(TLA))) == Reclaiming(Answered(Key(2), Returned(false)))
    ensures Run(u, Reclaiming(Answered(Key(2), Returned(false))), [Advance(1, Yes(TLA))]) == Parked()
  {
    var w := Reclaiming(Answered(Key(2), Returned(false)));
    FrozenRuns(u, Reclaiming(AtExtension(Key(2), None)), 1, TLA);
    RunOne(u, w, Advance(1, Yes(TLA)));
    assert w.jobs - {1} == map[] && Tenant() - {FullName()} == map[];
  }

  function Newcomers(): map<Bytes, SubEntry> { map[FullName() := Entry(NEWCOMER, TLA, LATER)] }

  /** The newcomer's three tokens are in the balance but not yet revenue. */
  function ReRenting(stage: Stage): World {
    var job := Chain(ReRent(TLA, FullName(), NEWCOMER, Key(3), 3, 3), stage);
    Scene(LATER, 2 * ONE_YEAR_NS, Newcomers(), map[FullName() := ParkedEntry(TLA, LATER)], {}, 0, 5, map[2 := job], 3).(balance := 8)
  }

  lemma BooksTheNewcomer()
    ensures Rent(Parked().registry, Call(NEWCOMER, 3, LATER), TLA, NAME, Key(3), NEWCOMER) ==
            Ok((ReRenting(AtExtension(Key(3), None)).registry, ReRenting(AtExtension(Key(3), None)).jobs[2]))
  {
    NameFacts();
  }

  lemma ReRents(u: S.Authorities)
    ensures Run(u, Parked(), [DoRent(NEWCOMER, 3, TLA, NAME, Key(3), NEWCOMER)]) == ReRenting(AtExtension(Key(3), None))
  {
    BooksTheNewcomer();
    RunOne(u, Parked(), DoRent(NEWCOMER, 3, TLA, NAME, Key(3), NEWCOMER));
  }

  function Booked(): World { Scene(LATER, 2 * ONE_YEAR_NS, Newcomers(), map[], {}, 1, 8, map[], 3) }

  lemma Books(u: S.Authorities)
    ensures Run(u, ReRenting(AtExtension(Key(3), None)), Thrice(2, Yes(TLA))) == ReRenting(Answered(Key(3), Returned(false)))
    ensures Run(u, ReRenting(Answered(Key(3), Returned(false))), [Advance(2, Yes(TLA))]) == Booked()
  {
    var w := ReRenting(Answered(Key(3), Returned(false)));
    FrozenRuns(u, ReRenting(AtExtension(Key(3), None)), 2, TLA);
    RunOne(u, w, Advance(2, Yes(TLA)));
    assert w.jobs - {2} == map[] && w.registry.parked - {FullName()} == map[];
  }

  // ----- the two runs -----

  function ToOverdue(): seq<Step> {
    MovingIn(Standard, 13) + Thrice(0, Yes(TLA)) + [Advance(0, Yes(TLA)), SignersChange(Frozen())] + [DoRenewTla(ADMIN, 2, TLA), Tick(LATER)]
  }

  lemma BecomesOverdue(u: S.Authorities)
    ensures Run(u, Blank(Rates()), ToOverdue()) == Overdue()
  {
    var w0, first := Blank(Rates()), MovingIn(Standard, 13) + Thrice(0, Yes(TLA));
    Mints(u);
    Settles(u);
    Join(u, w0, first, Minted(), [Advance(0, Yes(TLA)), SignersChange(Frozen())], Settled());
    FallsDue(u);
    Join(u, w0, first + [Advance(0, Yes(TLA)), SignersChange(Frozen())], Settled(), [DoRenewTla(ADMIN, 2, TLA), Tick(LATER)], Overdue());
  }

  function ToParked(): seq<Step> {
    ToOverdue() + [DoReclaim(RENTER, TLA, NAME, false)] + Thrice(1, Yes(TLA)) + [Advance(1, Yes(TLA))]
  }

  lemma BecomesParked(u: S.Authorities)
    ensures Run(u, Blank(Rates()), ToParked()) == Parked()
  {
    var w0, reclaim := Blank(Rates()), [DoReclaim(RENTER, TLA, NAME, false)];
    BecomesOverdue(u);
    Reclaims(u);
    Join(u, w0, ToOverdue(), Overdue(), reclaim, Reclaiming(AtExtension(Key(2), None)));
    Parks(u);
    Join(u, w0, ToOverdue() + reclaim, Reclaiming(AtExtension(Key(2), None)), Thrice(1, Yes(TLA)),
         Reclaiming(Answered(Key(2), Returned(false))));
    Join(u, w0, ToOverdue() + reclaim + Thrice(1, Yes(TLA)), Reclaiming(Answered(Key(2), Returned(false))),
         [Advance(1, Yes(TLA))], Parked());
  }

  /** The name is parked and the lease gone; the wallet has the tenant's key, not the parked key. */
  lemma ParkedWithoutTheParkedKey(u: S.Authorities)
    ensures Fresh(Blank(Rates()))
    ensures var w := Run(u, Blank(Rates()), ToParked());
      && FullName() in w.registry.parked && FullName() !in w.registry.subs
      && FullName() in w.signers && w.signers[FullName()].publicKey == Key(1) != w.registry.config.parkedKey
  {
    BecomesParked(u);
    KeysDiffer(1, 2);
  }

  function ToBooked(): seq<Step> {
    ToParked() + [DoRent(NEWCOMER, 3, TLA, NAME, Key(3), NEWCOMER)] + Thrice(2, Yes(TLA)) + [Advance(2, Yes(TLA))]
  }

  lemma BecomesBooked(u: S.Authorities)
    ensures Run(u, Blank(Rates()), ToBooked()) == Booked()
  {
    var w0, rent := Blank(Rates()), [DoRent(NEWCOMER, 3, TLA, NAME, Key(3), NEWCOMER)];
    BecomesParked(u);
    ReRents(u);
    Join(u, w0, ToParked(), Parked(), rent, ReRenting(AtExtension(Key(3), None)));
    Books(u);
    Join(u, w0, ToParked() + rent, ReRenting(AtExtension(Key(3), None)), Thrice(2, Yes(TLA)),
         ReRenting(Answered(Key(3), Returned(false))));
    Join(u, w0, ToParked() + rent + Thrice(2, Yes(TLA)), ReRenting(Answered(Key(3), Returned(false))),
         [Advance(2, Yes(TLA))], Booked());
  }

  /** The newcomer is the owner of record and his rent is revenue; the wallet still has the former tenant's key. */
  lemma ReRentedWithoutTheKey(u: S.Authorities)
    ensures Fresh(Blank(Rates()))
    ensures var before, w := Run(u, Blank(Rates()), ToParked()), Run(u, Blank(Rates()), ToBooked());
      && FullName() in w.registry.subs && w.registry.subs[FullName()].owner == NEWCOMER
      && w.registry.money.revenue == before.registry.money.revenue + 3
      && FullName() in w.signers && w.signers[FullName()].publicKey == Key(1) != Key(3)
  {
    BecomesParked(u);
    BecomesBooked(u);
    KeysDiffer(1, 3);
  }
}
