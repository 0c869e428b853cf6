/**
 Why sales and reclaims exclude each other only while no Open TLA is a sub-account of a Business TLA.
 For every such pair of names there is a run, with timely mints and no forced lock, that ends with a
 sale and a reclaim of one name in flight: the owner schedules a retraction of his Open name through
 the Business TLA, which only a Business name should allow; the reclaim starts once the notice is over;
 the administrators lengthen the notice; the owner takes the retraction back; a buyer comes.
 */
module NestingExample {
  import opened Types
  import opened Fees
  import opened RegistryTypes
  import opened RegistryRules
  import opened Names
  import opened Market
  import opened MarketLocks
  import opened MarketExamples
  import S = SignerRules

  const WEEK_NS: nat := 7 * DAY_NS
  const PRICE: nat := 5

  /** An Open TLA named under a Business one. */
  datatype Pair = Pair(outer: AccountId, prefix: Bytes) {

    function Inner(): AccountId { SubAccountKey(outer, prefix) }

    function Wallet(): Bytes { SubAccountKey(Inner(), NAME) }

    /** The same wallet, as seen from the outer TLA. */
    function Alias(): Bytes { SubAccountKey(prefix, NAME) }
  }

  lemma AliasReaches(p: Pair)
    ensures SubAccountKey(p.outer, p.Alias()) == p.Wallet() && p.outer != p.Inner()
    ensures p.Wallet() != RENTER && ValidName(NAME) && IsDirectSubaccount(p.Wallet(), p.Inner())
  {
    CheckedNamesAreInstallable(p.Inner(), NAME);
    DottedNamesCollide(p.outer, p.prefix, NAME);
    assert |p.Wallet()| > 2;
  }

  // ----- runs that only break the condition on TLAs -----

  ghost predicate SteadyRun(u: S.Authorities, w: World, steps: seq<Step>) {
    steps == [] ||
    (SteadyRun(u, w, steps[..|steps| - 1]) && Timely(Run(u, w, steps[..|steps| - 1])) && !Override(steps[|steps| - 1]))
  }

  function Script(p: Pair): seq<Step> {
    [DoRegisterTla(ADMIN, p.outer, Business, Community, Some(ADMIN)),
     DoRegisterTla(ADMIN, p.Inner(), Open, Community, None),
     DoActivateOpenTla(ADMIN, p.Inner()),
     DoRent(RENTER, 10, p.Inner(), NAME, Key(1), RENTER),
     Advance(0, Yes(p.Inner())), Advance(0, Yes(p.Inner())), Advance(0, Yes(p.Inner())), Advance(0, Yes(p.Inner())),
     DoListOrOffer(RENTER, 1, p.Inner(), NAME, PRICE, Key(1), None, false),
     Advance(1, Yes(p.Inner())),
     DoScheduleRetraction(RENTER, 1, p.outer, p.Alias()),
     Tick(WEEK_NS),
     DoReclaim(RENTER, p.Inner(), NAME, false),
     DoUpdateFees(ADMIN, Rates(2 * WEEK_NS)),
     DoCancelRetraction(RENTER, 1, p.Inner(), NAME),
     DoBuy(NEWCOMER, PRICE, p.Inner(), NAME, Key(3), false)]
  }

  function Rates(noticeNs: nat): FeeConfig { Tariff(2, 10, noticeNs) }

  function Begin(): World { Blank(Rates(WEEK_NS)) }

  /** The worlds a steady run passes through. */
  ghost predicate Trace(u: S.Authorities, worlds: seq<World>, steps: seq<Step>) {
    && |worlds| == |steps| + 1
    && forall i :: 0 <= i < |steps| ==> Apply(u, worlds[i], steps[i]) == worlds[i + 1] && Timely(worlds[i]) && !Override(steps[i])
  }

  lemma {:induction false} TraceRuns(u: S.Authorities, worlds: seq<World>, steps: seq<Step>)
    requires Trace(u, worlds, steps)
    ensures Run(u, worlds[0], steps) == worlds[|steps|] && SteadyRun(u, worlds[0], steps)
  {
    if steps != [] {
      TraceRuns(u, worlds[..|steps|], steps[..|steps| - 1]);
    }
  }

  /** The first `n` steps lead from the fresh registry to `w`. */
  ghost predicate Reaches(u: S.Authorities, steps: seq<Step>, n: nat, w: World) {
    n <= |steps| && exists worlds :: Trace(u, worlds, steps[..n]) && worlds[0] == Begin() && worlds[n] == w
  }

  lemma ReachesAll(u: S.Authorities, steps: seq<Step>, w: World)
    requires Reaches(u, steps, |steps|, w)
    ensures Run(u, Begin(), steps) == w && SteadyRun(u, Begin(), steps)
  {
    assert steps[..|steps|] == steps;
    var worlds :| Trace(u, worlds, steps) && worlds[0] == Begin() && worlds[|steps|] == w;
    TraceRuns(u, worlds, steps);
  }

  lemma Next(u: S.Authorities, steps: seq<Step>, n: nat, w: World, step: Step, w': World)
    requires Reaches(u, steps, n, w) && n < |steps| && steps[n] == step && Timely(w) && !Override(step)
    requires Apply(u, w, step) == w'
    ensures Reaches(u, steps, n + 1, w')
  {
    var worlds :| Trace(u, worlds, steps[..n]) && worlds[0] == Begin() && worlds[n] == w;
    var longer, prefix := worlds + [w'], steps[..n + 1];
    forall i | 0 <= i < |prefix|
      ensures Apply(u, longer[i], prefix[i]) == longer[i + 1] && Timely(longer[i]) && !Override(prefix[i])
    {
      if i < n { assert steps[..n][i] == prefix[i]; }
    }
    assert Trace(u, longer, prefix);
  }

  // ----- scenes -----

  function BothTlas(p: Pair, inner: TlaStatus): map<AccountId, TlaEntry> {
    map[p.outer := TlaEntry(Business, Registered, Some(ADMIN), Community, 0, 0),
        p.Inner() := TlaEntry(Open, inner, None, Community, 0, if inner == Active then ONE_YEAR_NS else 0)]
  }

  function Scene(p: Pair, noticeNs: nat, retraction: Option<nat>, board: Board, reclaims: set<Bytes>, count: nat,
                 signers: S.Signers, jobs: map<nat, Job>): World {
    World(0, Registry(Settings(Rates(noticeNs)), BothTlas(p, Active),
                      map[p.Wallet() := Entry(RENTER, p.Inner(), 0).(retractionAt := retraction)], board, map[], map[], reclaims,
                      Counts(map[], count), Money(0, map[], 0)),
          signers, 0, jobs, 0, [], {})
  }

  function Signer(p: Pair): S.Signers { map[p.Wallet() := NewSigner(Key(1))] }

  function Shelf(p: Pair, settling: bool): Board { Board(map[p.Wallet() := Listing(PRICE, settling, Key(1))], map[]) }

  function MintJob(p: Pair, stage: MintStage): Job {
    Mint(p.Inner(), p.Wallet(), RENTER, Key(1), 0, 10, 10, false, stage)
  }

  function ReclaimJob(p: Pair): Job { Chain(Reclaim(p.Inner(), p.Wallet()), AtExtension(Key(2), None)) }

  function BuyJob(p: Pair): Job {
    Chain(Buy(p.Inner(), p.Wallet(), NEWCOMER, Key(3), PRICE, PRICE, Key(1), None), AtExtension(Key(3), Some(Key(1))))
  }

  function Minting(p: Pair, stage: MintStage): World {
    Scene(p, WEEK_NS, None, Board(map[], map[]), {}, 0, if stage.Reported? then Signer(p) else map[], map[0 := MintJob(p, stage)])
    .(nextId := 1)
  }

  function Idle(p: Pair): World {
    Scene(p, WEEK_NS, None, Board(map[], map[]), {}, 1, Signer(p), map[]).(nextId := 1)
  }

  function Verifying(p: Pair): World {
    Idle(p).(jobs := map[1 := Verify(p.Wallet(), RENTER, PRICE, Key(1), None)], nextId := 2, balance := 1)
  }

  function OnSale(p: Pair): World {
    Scene(p, WEEK_NS, None, Shelf(p, false), {}, 1, Signer(p), map[]).(nextId := 2, balance := 1)
  }

  function Retracting(p: Pair, now: nat): World {
    Scene(p, WEEK_NS, Some(0), Shelf(p, false), {}, 1, Signer(p), map[]).(nextId := 2, balance := 2, now := now)
  }

  function Reclaiming(p: Pair, noticeNs: nat): World {
    Scene(p, noticeNs, Some(0), Shelf(p, false), {p.Wallet()}, 1, Signer(p), map[2 := ReclaimJob(p)])
    .(nextId := 3, balance := 2, now := WEEK_NS)
  }

  function Revived(p: Pair): World {
    Scene(p, 2 * WEEK_NS, None, Shelf(p, false), {p.Wallet()}, 1, Signer(p), map[2 := ReclaimJob(p)])
    .(nextId := 3, balance := 3, now := WEEK_NS)
  }

  function Colliding(p: Pair): World {
    Scene(p, 2 * WEEK_NS, None, Shelf(p, true), {p.Wallet()}, 1, Signer(p), map[2 := ReclaimJob(p), 3 := BuyJob(p)])
    .(nextId := 4, balance := 3 + PRICE, now := WEEK_NS, clean := {3})
  }

  function OuterOnly(p: Pair): World {
    Begin().(registry := Begin().registry.(tlas := map[p.outer := TlaEntry(Business, Registered, Some(ADMIN), Community, 0, 0)]))
  }

  function TwoTlas(p: Pair, inner: TlaStatus): World {
    Begin().(registry := Begin().registry.(tlas := BothTlas(p, inner)))
  }

  // ----- what each step does -----

  lemma RegistersOuter(u: S.Authorities, p: Pair)
    ensures Apply(u, Begin(), DoRegisterTla(ADMIN, p.outer, Business, Community, Some(ADMIN))) == OuterOnly(p)
  {}

  lemma RegistersInner(u: S.Authorities, p: Pair)
    ensures Apply(u, OuterOnly(p), DoRegisterTla(ADMIN, p.Inner(), Open, Community, None)) == TwoTlas(p, Registered)
  {
    AliasReaches(p);
  }

  lemma ActivatesInner(u: S.Authorities, p: Pair)
    ensures Apply(u, TwoTlas(p, Registered), DoActivateOpenTla(ADMIN, p.Inner())) == TwoTlas(p, Active)
  {
    AliasReaches(p);
  }

  lemma RentsInner(u: S.Authorities, p: Pair)
    requires IsAccountId(p.Wallet())
    ensures Apply(u, TwoTlas(p, Active), DoRent(RENTER, 10, p.Inner(), NAME, Key(1), RENTER)) == Minting(p, Deriving)
  {
    AliasReaches(p);
  }

  lemma DerivesAndCreates(u: S.Authorities, p: Pair)
    requires IsAccountId(p.Wallet())
    ensures Apply(u, Minting(p, Deriving), Advance(0, Yes(p.Inner()))) == Minting(p, Creating(Key(9)))
    ensures Apply(u, Minting(p, Creating(Key(9))), Advance(0, Yes(p.Inner()))) == Minting(p, MintStage.Installing(Key(9)))
  {
    Derives(u, Minting(p, Deriving), 0);
    Creates(u, Minting(p, Creating(Key(9))), 0);
  }

  lemma InstallsInner(u: S.Authorities, p: Pair)
    ensures Apply(u, Minting(p, MintStage.Installing(Key(9))), Advance(0, Yes(p.Inner()))) == Minting(p, Reported(Installed))
  {
    AliasReaches(p);
    Installs(u, Minting(p, MintStage.Installing(Key(9))), 0);
  }

  lemma SettlesMint(u: S.Authorities, p: Pair)
    ensures Apply(u, Minting(p, Reported(Installed)), Advance(0, Yes(p.Inner()))) == Idle(p)
  {
    var jobs := Minting(p, Reported(Installed)).jobs;
    assert jobs - {0} == map[];
  }

  lemma Lists(u: S.Authorities, p: Pair)
    requires IsAccountId(p.Wallet())
    ensures Apply(u, Idle(p), DoListOrOffer(RENTER, 1, p.Inner(), NAME, PRICE, Key(1), None, false)) == Verifying(p)
  {
    AliasReaches(p);
  }

  lemma Verifies(u: S.Authorities, p: Pair)
    ensures Apply(u, Verifying(p), Advance(1, Yes(p.Inner()))) == OnSale(p)
  {
    var jobs := Verifying(p).jobs;
    assert jobs - {1} == map[];
  }

  /** The call names the Business TLA and gets through to the Open lease. */
  lemma Schedules(u: S.Authorities, p: Pair)
    ensures Apply(u, OnSale(p), DoScheduleRetraction(RENTER, 1, p.outer, p.Alias())) == Retracting(p, 0)
  {
    AliasReaches(p);
  }

  lemma Waits(u: S.Authorities, p: Pair)
    ensures Apply(u, Retracting(p, 0), Tick(WEEK_NS)) == Retracting(p, WEEK_NS)
  {}

  lemma Reclaims(u: S.Authorities, p: Pair)
    requires IsAccountId(p.Wallet())
    ensures Apply(u, Retracting(p, WEEK_NS), DoReclaim(RENTER, p.Inner(), NAME, false)) == Reclaiming(p, WEEK_NS)
  {
    AliasReaches(p);
  }

  lemma Lengthens(u: S.Authorities, p: Pair)
    ensures Apply(u, Reclaiming(p, WEEK_NS), DoUpdateFees(ADMIN, Rates(2 * WEEK_NS))) == Reclaiming(p, 2 * WEEK_NS)
  {}

  lemma TakesBack(u: S.Authorities, p: Pair)
    ensures Apply(u, Reclaiming(p, 2 * WEEK_NS), DoCancelRetraction(RENTER, 1, p.Inner(), NAME)) == Revived(p)
  {}

  lemma Locks(p: Pair)
    requires IsAccountId(p.Wallet())
    ensures StartSale(Revived(p).registry, WEEK_NS, p.Inner(), p.Wallet(), NEWCOMER, Key(3), PRICE, None, false) ==
            Ok((Colliding(p).registry, BuyJob(p)))
  {
    AliasReaches(p);
    var listings := Shelf(p, false).listings;
    assert listings[p.Wallet() := Listing(PRICE, true, Key(1))] == Shelf(p, true).listings;
  }

  lemma Sells(u: S.Authorities, p: Pair)
    requires IsAccountId(p.Wallet())
    ensures Apply(u, Revived(p), DoBuy(NEWCOMER, PRICE, p.Inner(), NAME, Key(3), false)) == Colliding(p)
  {
    AliasReaches(p);
    Locks(p);
    assert !HasTenancy(Revived(p), p.Wallet());
  }

  // ----- the run -----

  lemma MintingIsTimely(p: Pair, stage: MintStage)
    ensures Timely(Minting(p, stage))
  {}

  lemma NoMintIsTimely(w: World)
    requires forall i :: i in w.jobs ==> !Tenancy(w.jobs[i])
    ensures Timely(w)
  {}

  // Step n of the script, from the scene before it to the scene after it.

  lemma Step1(u: S.Authorities, p: Pair, steps: seq<Step>)
    requires IsAccountId(p.Wallet()) && 0 < |steps| && steps[0] == DoRegisterTla(ADMIN, p.outer, Business, Community, Some(ADMIN))
    ensures Reaches(u, steps, 1, OuterOnly(p))
  {
    assert Trace(u, [Begin()], steps[..0]);
    RegistersOuter(u, p);
    NoMintIsTimely(Begin());
    Next(u, steps, 0, Begin(), steps[0], OuterOnly(p));
  }

  lemma Step2(u: S.Authorities, p: Pair, steps: seq<Step>)
    requires IsAccountId(p.Wallet()) && 1 < |steps| && steps[1] == DoRegisterTla(ADMIN, p.Inner(), Open, Community, None)
    requires Reaches(u, steps, 1, OuterOnly(p))
    ensures Reaches(u, steps, 2, TwoTlas(p, Registered))
  {
    RegistersInner(u, p);
    NoMintIsTimely(OuterOnly(p));
    Next(u, steps, 1, OuterOnly(p), steps[1], TwoTlas(p, Registered));
  }

  lemma Step3(u: S.Authorities, p: Pair, steps: seq<Step>)
    requires IsAccountId(p.Wallet()) && 2 < |steps| && steps[2] == DoActivateOpenTla(ADMIN, p.Inner())
    requires Reaches(u, steps, 2, TwoTlas(p, Registered))
    ensures Reaches(u, steps, 3, TwoTlas(p, Active))
  {
    ActivatesInner(u, p);
    NoMintIsTimely(TwoTlas(p, Registered));
    Next(u, steps, 2, TwoTlas(p, Registered), steps[2], TwoTlas(p, Active));
  }

  lemma Step4(u: S.Authorities, p: Pair, steps: seq<Step>)
    requires IsAccountId(p.Wallet()) && 3 < |steps| && steps[3] == DoRent(RENTER, 10, p.Inner(), NAME, Key(1), RENTER)
    requires Reaches(u, steps, 3, TwoTlas(p, Active))
    ensures Reaches(u, steps, 4, Minting(p, Deriving))
  {
    RentsInner(u, p);
    NoMintIsTimely(TwoTlas(p, Active));
    Next(u, steps, 3, TwoTlas(p, Active), steps[3], Minting(p, Deriving));
  }

  lemma Step5(u: S.Authorities, p: Pair, steps: seq<Step>)
    requires IsAccountId(p.Wallet()) && 4 < |steps| && steps[4] == Advance(0, Yes(p.Inner()))
    requires Reaches(u, steps, 4, Minting(p, Deriving))
    ensures Reaches(u, steps, 5, Minting(p, Creating(Key(9))))
  {
    DerivesAndCreates(u, p);
    MintingIsTimely(p, Deriving);
    Next(u, steps, 4, Minting(p, Deriving), steps[4], Minting(p, Creating(Key(9))));
  }

  lemma Step6(u: S.Authorities, p: Pair, steps: seq<Step>)
    requires IsAccountId(p.Wallet()) && 5 < |steps| && steps[5] == Advance(0, Yes(p.Inner()))
    requires Reaches(u, steps, 5, Minting(p, Creating(Key(9))))
    ensures Reaches(u, steps, 6, Minting(p, MintStage.Installing(Key(9))))
  {
    DerivesAndCreates(u, p);
    MintingIsTimely(p, Creating(Key(9)));
    Next(u, steps, 5, Minting(p, Creating(Key(9))), steps[5], Minting(p, MintStage.Installing(Key(9))));
  }

  lemma Step7(u: S.Authorities, p: Pair, steps: seq<Step>)
    requires IsAccountId(p.Wallet()) && 6 < |steps| && steps[6] == Advance(0, Yes(p.Inner()))
    requires Reaches(u, steps, 6, Minting(p, MintStage.Installing(Key(9))))
    ensures Reaches(u, steps, 7, Minting(p, Reported(Installed)))
  {
    InstallsInner(u, p);
    MintingIsTimely(p, MintStage.Installing(Key(9)));
    Next(u, steps, 6, Minting(p, MintStage.Installing(Key(9))), steps[6], Minting(p, Reported(Installed)));
  }

  lemma Step8(u: S.Authorities, p: Pair, steps: seq<Step>)
    requires IsAccountId(p.Wallet()) && 7 < |steps| && steps[7] == Advance(0, Yes(p.Inner()))
    requires Reaches(u, steps, 7, Minting(p, Reported(Installed)))
    ensures Reaches(u, steps, 8, Idle(p))
  {
    SettlesMint(u, p);
    MintingIsTimely(p, Reported(Installed));
    Next(u, steps, 7, Minting(p, Reported(Installed)), steps[7], Idle(p));
  }

  lemma Step9(u: S.Authorities, p: Pair, steps: seq<Step>)
    requires IsAccountId(p.Wallet()) && 8 < |steps| && steps[8] == DoListOrOffer(RENTER, 1, p.Inner(), NAME, PRICE, Key(1), None, false)
    requires Reaches(u, steps, 8, Idle(p))
    ensures Reaches(u, steps, 9, Verifying(p))
  {
    Lists(u, p);
    NoMintIsTimely(Idle(p));
    Next(u, steps, 8, Idle(p), steps[8], Verifying(p));
  }

  lemma Step10(u: S.Authorities, p: Pair, steps: seq<Step>)
    requires IsAccountId(p.Wallet()) && 9 < |steps| && steps[9] == Advance(1, Yes(p.Inner()))
    requires Reaches(u, steps, 9, Verifying(p))
    ensures Reaches(u, steps, 10, OnSale(p))
  {
    Verifies(u, p);
    NoMintIsTimely(Verifying(p));
    Next(u, steps, 9, Verifying(p), steps[9], OnSale(p));
  }

  lemma Step11(u: S.Authorities, p: Pair, steps: seq<Step>)
    requires IsAccountId(p.Wallet()) && 10 < |steps| && steps[10] == DoScheduleRetraction(RENTER, 1, p.outer, p.Alias())
    requires Reaches(u, steps, 10, OnSale(p))
    ensures Reaches(u, steps, 11, Retracting(p, 0))
  {
    Schedules(u, p);
    NoMintIsTimely(OnSale(p));
    Next(u, steps, 10, OnSale(p), steps[10], Retracting(p, 0));
  }

  lemma Step12(u: S.Authorities, p: Pair, steps: seq<Step>)
    requires IsAccountId(p.Wallet()) && 11 < |steps| && steps[11] == Tick(WEEK_NS)
    requires Reaches(u, steps, 11, Retracting(p, 0))
    ensures Reaches(u, steps, 12, Retracting(p, WEEK_NS))
  {
    Waits(u, p);
    NoMintIsTimely(Retracting(p, 0));
    Next(u, steps, 11, Retracting(p, 0), steps[11], Retracting(p, WEEK_NS));
  }

  lemma Step13(u: S.Authorities, p: Pair, steps: seq<Step>)
    requires IsAccountId(p.Wallet()) && 12 < |steps| && steps[12] == DoReclaim(RENTER, p.Inner(), NAME, false)
    requires Reaches(u, steps, 12, Retracting(p, WEEK_NS))
    ensures Reaches(u, steps, 13, Reclaiming(p, WEEK_NS))
  {
    Reclaims(u, p);
    NoMintIsTimely(Retracting(p, WEEK_NS));
    Next(u, steps, 12, Retracting(p, WEEK_NS), steps[12], Reclaiming(p, WEEK_NS));
  }

  lemma Step14(u: S.Authorities, p: Pair, steps: seq<Step>)
    requires IsAccountId(p.Wallet()) && 13 < |steps| && steps[13] == DoUpdateFees(ADMIN, Rates(2 * WEEK_NS))
    requires Reaches(u, steps, 13, Reclaiming(p, WEEK_NS))
    ensures Reaches(u, steps, 14, Reclaiming(p, 2 * WEEK_NS))
  {
    Lengthens(u, p);
    NoMintIsTimely(Reclaiming(p, WEEK_NS));
    Next(u, steps, 13, Reclaiming(p, WEEK_NS), steps[13], Reclaiming(p, 2 * WEEK_NS));
  }

  lemma Step15(u: S.Authorities, p: Pair, steps: seq<Step>)
    requires IsAccountId(p.Wallet()) && 14 < |steps| && steps[14] == DoCancelRetraction(RENTER, 1, p.Inner(), NAME)
    requires Reaches(u, steps, 14, Reclaiming(p, 2 * WEEK_NS))
    ensures Reaches(u, steps, 15, Revived(p))
  {
    TakesBack(u, p);
    NoMintIsTimely(Reclaiming(p, 2 * WEEK_NS));
    Next(u, steps, 14, Reclaiming(p, 2 * WEEK_NS), steps[14], Revived(p));
  }

  lemma Step16(u: S.Authorities, p: Pair, steps: seq<Step>)
    requires IsAccountId(p.Wallet()) && 15 < |steps| && steps[15] == DoBuy(NEWCOMER, PRICE, p.Inner(), NAME, Key(3), false)
    requires Reaches(u, steps, 15, Revived(p))
    ensures Reaches(u, steps, 16, Colliding(p))
  {
    Sells(u, p);
    NoMintIsTimely(Revived(p));
    Next(u, steps, 15, Revived(p), steps[15], Colliding(p));
  }

  lemma ReachesRegistered(u: S.Authorities, p: Pair, steps: seq<Step>)
    requires IsAccountId(p.Wallet()) && steps == Script(p)
    ensures Reaches(u, steps, 2, TwoTlas(p, Registered))
  {
    Step1(u, p, steps);
    Step2(u, p, steps);
  }

  lemma ReachesRented(u: S.Authorities, p: Pair, steps: seq<Step>)
    requires IsAccountId(p.Wallet()) && steps == Script(p)
    ensures Reaches(u, steps, 4, Minting(p, Deriving))
  {
    ReachesRegistered(u, p, steps);
    Step3(u, p, steps);
    Step4(u, p, steps);
  }

  lemma ReachesCreated(u: S.Authorities, p: Pair, steps: seq<Step>)
    requires IsAccountId(p.Wallet()) && steps == Script(p)
    ensures Reaches(u, steps, 6, Minting(p, MintStage.Installing(Key(9))))
  {
    ReachesRented(u, p, steps);
    Step5(u, p, steps);
    Step6(u, p, steps);
  }

  lemma ReachesMinted(u: S.Authorities, p: Pair, steps: seq<Step>)
    requires IsAccountId(p.Wallet()) && steps == Script(p)
    ensures Reaches(u, steps, 8, Idle(p))
  {
    ReachesCreated(u, p, steps);
    Step7(u, p, steps);
    Step8(u, p, steps);
  }

  lemma ReachesListed(u: S.Authorities, p: Pair, steps: seq<Step>)
    requires IsAccountId(p.Wallet()) && steps == Script(p)
    ensures Reaches(u, steps, 10, OnSale(p))
  {
    ReachesMinted(u, p, steps);
    Step9(u, p, steps);
    Step10(u, p, steps);
  }

  lemma ReachesRetracted(u: S.Authorities, p: Pair, steps: seq<Step>)
    requires IsAccountId(p.Wallet()) && steps == Script(p)
    ensures Reaches(u, steps, 12, Retracting(p, WEEK_NS))
  {
    ReachesListed(u, p, steps);
    Step11(u, p, steps);
    Step12(u, p, steps);
  }

  lemma ReachesReclaimed(u: S.Authorities, p: Pair, steps: seq<Step>)
    requires IsAccountId(p.Wallet()) && steps == Script(p)
    ensures Reaches(u, steps, 14, Reclaiming(p, 2 * WEEK_NS))
  {
    ReachesRetracted(u, p, steps);
    Step13(u, p, steps);
    Step14(u, p, steps);
  }

  lemma ReachesCollided(u: S.Authorities, p: Pair, steps: seq<Step>)
    requires IsAccountId(p.Wallet()) && steps == Script(p)
    ensures Reaches(u, steps, 16, Colliding(p))
  {
    ReachesReclaimed(u, p, steps);
    Step15(u, p, steps);
    Step16(u, p, steps);
  }

  /** Whatever the two names, as long as the wallet's is an account id: a buy and a reclaim of it, both in flight. */
  lemma NestingBreaksExclusion(u: S.Authorities, p: Pair)
    requires IsAccountId(p.Wallet())
    ensures Fresh(Begin()) && SteadyRun(u, Begin(), Script(p))
    ensures var w := Run(u, Begin(), Script(p)); BuyOf(w, 3, p.Wallet()) && ReclaimOf(w, 2, p.Wallet())
  {
    ReachesCollided(u, p, Script(p));
    ReachesAll(u, Script(p), Colliding(p));
  }
}
