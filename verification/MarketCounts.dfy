/** The stored counts are true: of sub-accounts under each Business TLA, and of settled sub-accounts overall. */
module MarketCounts {
  import opened Types
  import opened RegistryTypes
  import opened RegistryRules
  import opened Names
  import opened Market
  import opened MarketLocks
  import S = SignerRules

  // ----- what is counted -----

  function Under(subs: map<Bytes, SubEntry>, tla: AccountId): set<Bytes> {
    set k | k in subs && subs[k].tlaId == tla
  }

  /** Mints and re-rents in flight. */
  function Pending(jobs: map<nat, Job>): set<nat> {
    set i | i in jobs && Tenancy(jobs[i])
  }

  ghost predicate BusinessCounted(r: Registry) {
    && (forall t :: IsBusiness(r, t) ==> BusinessCount(r.counts, t) == |Under(r.subs, t)|)
    && (forall t :: t in r.counts.business ==> t in r.tlas)
  }

  ghost predicate AllCounted(w: World) {
    w.registry.counts.subs + |Pending(w.jobs)| == |w.registry.subs|
  }

  predicate CapsFit(c: Config) {
    c.fees.businessMaxSubs < U32_LIMIT && forall t :: t in c.businessCap ==> c.businessCap[t] < U32_LIMIT
  }

  ghost predicate Placed(r: Registry) {
    forall k :: k in r.subs ==> r.subs[k].tlaId in r.tlas && Shaped(k, r.subs[k].tlaId)
  }

  predicate Watched(jobs: map<nat, Job>, i: nat) {
    i in jobs && (Tenancy(jobs[i]) || IsReclaim(jobs[i]))
  }

  /** A pending mint has its entry to itself, and jobs carry the TLA their name hangs under. */
  ghost predicate Watch(w: World) {
    && (forall i :: i in w.jobs ==> i < w.nextId)
    && (forall i :: Watched(w.jobs, i) ==> Shaped(KeyOf(w.jobs[i]), TlaOf(w.jobs[i])))
    && (forall i, k :: TenancyOf(w, i, k) ==> k in w.registry.subs)
    && (forall i, j, k :: TenancyOf(w, i, k) && TenancyOf(w, j, k) ==> i == j)
  }

  ghost predicate Counting(w: World) {
    CapsFit(w.registry.config) && Placed(w.registry) && Watch(w) && BusinessCounted(w.registry) && AllCounted(w)
  }

  // ----- what runs are assumed to be like -----

  predicate CompletesReclaim(w: World, step: Step) {
    && step.Advance? && step.id in w.jobs && IsReclaim(w.jobs[step.id])
    && w.jobs[step.id].stage.Answered? && w.jobs[step.id].stage.result.Returned?
  }

  /** The step does not complete a reclaim of a name whose mint is pending. */
  ghost predicate SparesMints(w: World, step: Step) {
    CompletesReclaim(w, step) ==> forall i :: !TenancyOf(w, i, KeyOf(w.jobs[step.id]))
  }

  /** Every step spares pending mints, and the entries can be counted in 64 bits. */
  ghost predicate SparingRun(u: S.Authorities, w: World, steps: seq<Step>) {
    steps == [] ||
    (var before := Run(u, w, steps[..|steps| - 1]);
     SparingRun(u, w, steps[..|steps| - 1]) && SparesMints(before, steps[|steps| - 1]) && |before.registry.subs| < U64_LIMIT)
  }

  /** Runs whose mints settle inside lease plus grace meet the first of these by themselves. */
  lemma CalmRunsSpareMints(u: S.Authorities, w0: World, steps: seq<Step>, step: Step)
    requires Fresh(w0) && CalmRun(u, w0, steps)
    ensures SparesMints(Run(u, w0, steps), step)
  {
    var w := Run(u, w0, steps);
    MarketLocks.RunKeeps(u, w0, steps);
    if CompletesReclaim(w, step) { assert ReclaimOf(w, step.id, KeyOf(w.jobs[step.id])); }
  }

  // ----- facts about names and sets -----

  lemma ShapeDetermines(k: Bytes, tla: AccountId, tla': AccountId)
    requires Shaped(k, tla) && Shaped(k, tla')
    ensures tla == tla'
  {
    var name :| ValidName(name) && k == SubAccountKey(tla, name);
    var name' :| ValidName(name') && k == SubAccountKey(tla', name');
    KeysDetermineNames(tla, name, tla', name');
  }

  lemma {:induction false} PendingFit(jobs: map<nat, Job>, ids: set<nat>, keys: set<Bytes>)
    requires forall i :: i in ids ==> i in jobs && KeyOf(jobs[i]) in keys
    requires forall i, j :: i in ids && j in ids && KeyOf(jobs[i]) == KeyOf(jobs[j]) ==> i == j
    ensures |ids| <= |keys|
    decreases ids
  {
    if ids != {} {
      var i :| i in ids;
      PendingFit(jobs, ids - {i}, keys - {KeyOf(jobs[i])});
    }
  }

  lemma KeyGone(subs: map<Bytes, SubEntry>, k: Bytes)
    requires k in subs
    ensures |subs - {k}| == |subs| - 1
    ensures |Under(subs - {k}, subs[k].tlaId)| == |Under(subs, subs[k].tlaId)| - 1
    ensures forall t :: t != subs[k].tlaId ==> Under(subs - {k}, t) == Under(subs, t)
  {
    assert (subs - {k}).Keys == subs.Keys - {k};
    assert |(subs - {k}).Keys| == |subs.Keys| - 1;
    assert Under(subs - {k}, subs[k].tlaId) == Under(subs, subs[k].tlaId) - {k};
    forall t | t != subs[k].tlaId ensures Under(subs - {k}, t) == Under(subs, t) {}
  }

  lemma KeyNew(subs: map<Bytes, SubEntry>, k: Bytes, s: SubEntry)
    requires k !in subs
    ensures |subs[k := s]| == |subs| + 1
    ensures |Under(subs[k := s], s.tlaId)| == |Under(subs, s.tlaId)| + 1
    ensures forall t :: t != s.tlaId ==> Under(subs[k := s], t) == Under(subs, t)
  {
    assert subs[k := s].Keys == subs.Keys + {k};
    assert |subs[k := s].Keys| == |subs.Keys| + 1;
    assert Under(subs[k := s], s.tlaId) == Under(subs, s.tlaId) + {k};
    forall t | t != s.tlaId ensures Under(subs[k := s], t) == Under(subs, t) {}
  }

  // ----- steps that count nothing -----

  ghost predicate SameRegister(r: Registry, r': Registry) {
    && r'.subs.Keys == r.subs.Keys && (forall k :: k in r.subs ==> r'.subs[k].tlaId == r.subs[k].tlaId)
    && r'.counts == r.counts
    && (forall t :: t in r.tlas ==> t in r'.tlas && r'.tlas[t].tlaType == r.tlas[t].tlaType)
    && (CapsFit(r.config) ==> CapsFit(r'.config))
  }

  ghost predicate SameWatched(w: World, w': World) {
    && (forall i :: i in w'.jobs ==> i < w'.nextId)
    && (forall i :: Watched(w.jobs, i) <==> Watched(w'.jobs, i))
    && (forall i :: Watched(w.jobs, i) ==> SameRole(w.jobs[i], w'.jobs[i]))
  }

  lemma QuietWatch(w: World, w': World)
    requires Watch(w) && w'.registry.subs.Keys == w.registry.subs.Keys && SameWatched(w, w')
    ensures Watch(w') && Pending(w'.jobs) == Pending(w.jobs)
  {
    forall i, k ensures TenancyOf(w', i, k) <==> TenancyOf(w, i, k) {
      assert Watched(w.jobs, i) <==> Watched(w'.jobs, i);
    }
    forall i ensures i in Pending(w'.jobs) <==> i in Pending(w.jobs) {
      assert Watched(w.jobs, i) <==> Watched(w'.jobs, i);
    }
  }

  lemma QuietBooks(r: Registry, r': Registry)
    requires BusinessCounted(r) && Placed(r) && SameRegister(r, r')
    ensures BusinessCounted(r') && Placed(r') && |r'.subs| == |r.subs|
  {
    assert |r'.subs| == |r'.subs.Keys| == |r.subs.Keys| == |r.subs|;
    forall t | IsBusiness(r', t) ensures BusinessCount(r'.counts, t) == |Under(r'.subs, t)| {
      assert Under(r'.subs, t) == Under(r.subs, t);
      if t !in r.tlas { assert Under(r.subs, t) == {}; }
    }
  }

  lemma QuietKeeps(w: World, w': World)
    requires Counting(w) && SameRegister(w.registry, w'.registry) && SameWatched(w, w')
    ensures Counting(w')
  {
    QuietWatch(w, w');
    QuietBooks(w.registry, w'.registry);
  }

  /** A call that counts nothing: it starts no mint and no reclaim. */
  ghost predicate Quiet(w: World, w': World) {
    && SameRegister(w.registry, w'.registry)
    && (|| (w'.jobs == w.jobs && w'.nextId == w.nextId)
        || (w'.nextId == w.nextId + 1 && w.nextId in w'.jobs && w'.jobs == w.jobs[w.nextId := w'.jobs[w.nextId]] &&
            !Watched(w'.jobs, w.nextId)))
  }

  lemma QuietCallWatched(w: World, w': World)
    requires Watch(w) && Quiet(w, w')
    ensures SameWatched(w, w')
  {
    forall i ensures Watched(w.jobs, i) <==> Watched(w'.jobs, i) {
      if i != w.nextId { assert i in w.jobs <==> i in w'.jobs; }
    }
  }

  lemma QuietCallKeeps(w: World, w': World)
    requires Counting(w) && Quiet(w, w')
    ensures Counting(w')
  {
    QuietCallWatched(w, w');
    QuietKeeps(w, w');
  }

  lemma EnvironmentIsQuiet(w: World, step: Step)
    requires step.Tick? || step.SignersChange? || step.Receive? || step.Configure?
    ensures Quiet(w, ApplyEnvironment(w, step))
  {}

  lemma ClearSaleLockIsQuiet(w: World, step: Step)
    requires step.ClearSaleLock?
    ensures Quiet(w, ApplyEnvironment(w, step))
  {}

  lemma ClearReclaimLockIsQuiet(w: World, step: Step)
    requires step.ClearReclaimLock?
    ensures Quiet(w, ApplyEnvironment(w, step))
  {}

  lemma CapIsQuiet(w: World, step: Step)
    requires step.SetBusinessCap?
    ensures Quiet(w, ApplyEnvironment(w, step))
  {}

  lemma FeesAreQuiet(w: World, step: Step)
    requires step.DoUpdateFees?
    ensures Quiet(w, ApplyEnvironment(w, step))
  {}

  lemma RegisterIsQuiet(w: World, step: Step)
    requires step.DoRegisterTla? || step.DoActivateOpenTla?
    ensures Quiet(w, ApplyTla(w, step))
  {}

  lemma SuspendIsQuiet(w: World, step: Step)
    requires step.DoSuspendTla? || step.DoUnsuspendTla?
    ensures Quiet(w, ApplyTla(w, step))
  {}

  lemma ActivateIsQuiet(w: World, step: Step)
    requires step.DoActivateTla?
    ensures Quiet(w, ApplyTla(w, step))
  {}

  lemma RenewTlaIsQuiet(w: World, step: Step)
    requires step.DoRenewTla?
    ensures Quiet(w, ApplyTla(w, step))
  {}

  lemma RenewSubIsQuiet(w: World, step: Step)
    requires step.DoRenewSub?
    ensures Quiet(w, ApplyLease(w, step))
  {}

  lemma SetMainWalletIsQuiet(w: World, step: Step)
    requires step.DoSetMainWallet?
    ensures Quiet(w, ApplyLease(w, step))
  {}

  lemma ScheduleIsQuiet(w: World, step: Step)
    requires step.DoScheduleRetraction?
    ensures Quiet(w, ApplyLease(w, step))
  {}

  lemma CancelIsQuiet(w: World, step: Step)
    requires step.DoCancelRetraction?
    ensures Quiet(w, ApplyLease(w, step))
  {}

  lemma UnlistIsQuiet(w: World, step: Step)
    requires step.DoUnlist?
    ensures Quiet(w, ApplyTrade(w, step))
  {}

  lemma RevokeIsQuiet(w: World, step: Step)
    requires step.DoRevokeOffer?
    ensures Quiet(w, ApplyTrade(w, step))
  {}

  lemma ListIsQuiet(w: World, step: Step)
    requires step.DoListOrOffer?
    ensures Quiet(w, ApplyTrade(w, step))
  {}

  lemma RetryIsQuiet(w: World, step: Step)
    requires step.DoRetryInstall?
    ensures Quiet(w, ApplyTenancy(w, step))
  {}

  lemma SweepIsQuiet(w: World, step: Step)
    requires step.DoSweepFt?
    ensures Quiet(w, ApplyMoney(w, step))
  {}

  lemma WithdrawIsQuiet(w: World, step: Step)
    requires step.DoWithdraw?
    ensures Quiet(w, ApplyMoney(w, step))
  {}

  lemma ClaimIsQuiet(w: World, step: Step)
    requires step.DoClaimRefund?
    ensures Quiet(w, ApplyMoney(w, step))
  {}

  lemma SaleIsQuiet(w: World, attached: nat, tla: AccountId, key: Bytes, buyer: AccountId, newKey: PublicKey, deposit: nat,
                    operator: Option<AccountId>, isMother: bool)
    ensures Quiet(w, Starting(w, attached, StartSale(w.registry, w.now, tla, key, buyer, newKey, deposit, operator, isMother)))
  {}

  lemma BuyIsQuiet(w: World, step: Step)
    requires step.DoBuy?
    ensures Quiet(w, ApplyTrade(w, step))
  {
    BuyIsSale(w, step);
    SaleIsQuiet(w, step.attached, step.tla, SubAccountKey(step.tla, step.name), step.caller, step.newKey, step.attached, None, step.isMother);
  }

  lemma BuyPaidIsQuiet(w: World, step: Step)
    requires step.DoBuyPaid?
    ensures Quiet(w, ApplyTrade(w, step))
  {
    BuyPaidIsSale(w, step);
    SaleIsQuiet(w, 0, step.tla, SubAccountKey(step.tla, step.name), step.buyer, step.newKey, 0, Some(step.caller), step.isMother);
  }

  predicate Loud(step: Step) {
    step.DoRent? || step.DoRentPaid? || step.DoReclaim? || step.Advance?
  }

  lemma EnvironmentCallIsQuiet(w: World, step: Step)
    ensures Quiet(w, ApplyEnvironment(w, step))
  {
    match step
    case Tick(_) => EnvironmentIsQuiet(w, step);
    case SignersChange(_) => EnvironmentIsQuiet(w, step);
    case Receive(_) => EnvironmentIsQuiet(w, step);
    case Configure(_, _, _, _, _) => EnvironmentIsQuiet(w, step);
    case SetBusinessCap(_, _) => CapIsQuiet(w, step);
    case DoUpdateFees(_, _) => FeesAreQuiet(w, step);
    case ClearSaleLock(_, _, _) => ClearSaleLockIsQuiet(w, step);
    case ClearReclaimLock(_, _, _) => ClearReclaimLockIsQuiet(w, step);
    case _ =>
  }

  lemma TlaCallIsQuiet(w: World, step: Step)
    ensures Quiet(w, ApplyTla(w, step))
  {
    match step
    case DoRegisterTla(_, _, _, _, _) => RegisterIsQuiet(w, step);
    case DoActivateOpenTla(_, _) => RegisterIsQuiet(w, step);
    case DoActivateTla(_, _, _) => ActivateIsQuiet(w, step);
    case DoRenewTla(_, _, _) => RenewTlaIsQuiet(w, step);
    case DoSuspendTla(_, _) => SuspendIsQuiet(w, step);
    case DoUnsuspendTla(_, _) => SuspendIsQuiet(w, step);
    case _ =>
  }

  lemma LeaseCallIsQuiet(w: World, step: Step)
    ensures Quiet(w, ApplyLease(w, step))
  {
    match step
    case DoRenewSub(_, _, _, _) => RenewSubIsQuiet(w, step);
    case DoSetMainWallet(_, _, _, _, _) => SetMainWalletIsQuiet(w, step);
    case DoScheduleRetraction(_, _, _, _) => ScheduleIsQuiet(w, step);
    case DoCancelRetraction(_, _, _, _) => CancelIsQuiet(w, step);
    case _ =>
  }

  lemma TenancyCallIsQuiet(w: World, step: Step)
    requires !Loud(step)
    ensures Quiet(w, ApplyTenancy(w, step))
  {
    match step
    case DoRetryInstall(_, _, _) => RetryIsQuiet(w, step);
    case _ =>
  }

  lemma TradeCallIsQuiet(w: World, step: Step)
    ensures Quiet(w, ApplyTrade(w, step))
  {
    match step
    case DoListOrOffer(_, _, _, _, _, _, _, _) => ListIsQuiet(w, step);
    case DoUnlist(_, _, _, _) => UnlistIsQuiet(w, step);
    case DoRevokeOffer(_, _, _, _) => RevokeIsQuiet(w, step);
    case DoBuy(_, _, _, _, _, _) => BuyIsQuiet(w, step);
    case DoBuyPaid(_, _, _, _, _, _) => BuyPaidIsQuiet(w, step);
    case _ =>
  }

  lemma MoneyCallIsQuiet(w: World, step: Step)
    ensures Quiet(w, ApplyMoney(w, step))
  {
    match step
    case DoSweepFt(_, _, _, _, _, _) => SweepIsQuiet(w, step);
    case DoClaimRefund(_, _) => ClaimIsQuiet(w, step);
    case DoWithdraw(_, _, _, _) => WithdrawIsQuiet(w, step);
    case _ =>
  }

  lemma QuietCall(u: S.Authorities, w: World, step: Step)
    requires !Loud(step)
    ensures Quiet(w, Apply(u, w, step))
  {
    if OfEnvironment(step) {
      EnvironmentCallIsQuiet(w, step);
    } else if OfTlas(step) {
      TlaCallIsQuiet(w, step);
    } else if OfLeases(step) {
      LeaseCallIsQuiet(w, step);
    } else if OfTenancies(step) {
      TenancyCallIsQuiet(w, step);
    } else if OfTrade(step) {
      TradeCallIsQuiet(w, step);
    } else {
      MoneyCallIsQuiet(w, step);
    }
  }

  // ----- a rental or a reclaim begins -----

  lemma AdmitCounts(r: Registry, now: nat, tla: AccountId, key: Bytes, owner: AccountId, mainWallet: AccountId)
    requires BusinessCounted(r) && CapsFit(r.config) && Placed(r) && Shaped(key, tla) && tla in r.tlas && key !in r.subs
    requires Admit(r, now, tla, key, owner, mainWallet).Ok?
    ensures var r' := Admit(r, now, tla, key, owner, mainWallet).value;
      BusinessCounted(r') && Placed(r') && r'.counts.subs == r.counts.subs && |r'.subs| == |r.subs| + 1
  {
    var r' := Admit(r, now, tla, key, owner, mainWallet).value;
    KeyNew(r.subs, key, r'.subs[key]);
    forall t | IsBusiness(r', t) ensures BusinessCount(r'.counts, t) == |Under(r'.subs, t)| {
      assert IsBusiness(r, t);
    }
  }

  /** A job appears under a fresh id. */
  ghost predicate JobAppears(w: World, w': World, tla: AccountId, key: Bytes) {
    && w'.nextId == w.nextId + 1 && w.nextId in w'.jobs && w'.jobs == w.jobs[w.nextId := w'.jobs[w.nextId]]
    && KeyOf(w'.jobs[w.nextId]) == key && TlaOf(w'.jobs[w.nextId]) == tla
  }

  /** A rental as `Admit` leaves it. */
  ghost predicate Rents(w: World, w': World, tla: AccountId, key: Bytes, owner: AccountId, mainWallet: AccountId) {
    && tla in w.registry.tlas && key !in w.registry.subs && Shaped(key, tla)
    && Admit(w.registry, w.now, tla, key, owner, mainWallet) == Ok(w'.registry)
    && JobAppears(w, w', tla, key) && Tenancy(w'.jobs[w.nextId])
  }

  lemma RentBegins(w: World, step: Step)
    requires step.DoRent? && ApplyTenancy(w, step) != w
    ensures Rents(w, ApplyTenancy(w, step), step.tla, SubAccountKey(step.tla, step.name), step.caller, step.mainWallet)
  {}

  lemma RentPaidBegins(w: World, step: Step)
    requires step.DoRentPaid? && ApplyTenancy(w, step) != w
    ensures Rents(w, ApplyTenancy(w, step), step.tla, SubAccountKey(step.tla, step.name), step.caller, step.mainWallet)
  {}

  lemma ReclaimBegins(w: World, step: Step)
    requires step.DoReclaim? && ApplyTenancy(w, step) != w
    ensures var w', key := ApplyTenancy(w, step), SubAccountKey(step.tla, step.name);
      && JobAppears(w, w', step.tla, key) && IsReclaim(w'.jobs[w.nextId]) && Shaped(key, step.tla)
      && w'.registry == w.registry.(reclaimPending := w'.registry.reclaimPending)
  {}

  lemma JobAppearsWatch(w: World, w': World, tla: AccountId, key: Bytes)
    requires Watch(w) && JobAppears(w, w', tla, key) && Shaped(key, tla)
    requires forall k :: k in w.registry.subs ==> k in w'.registry.subs
    requires Tenancy(w'.jobs[w.nextId]) ==> key !in w.registry.subs && key in w'.registry.subs
    ensures Watch(w')
  {
    assert forall i, k :: i != w.nextId ==> (TenancyOf(w', i, k) <==> TenancyOf(w, i, k));
    forall i | Watched(w'.jobs, i) ensures Shaped(KeyOf(w'.jobs[i]), TlaOf(w'.jobs[i])) {
      if i != w.nextId { assert Watched(w.jobs, i); }
    }
  }

  lemma PendingAppears(w: World, w': World, tla: AccountId, key: Bytes)
    requires Watch(w) && JobAppears(w, w', tla, key) && Tenancy(w'.jobs[w.nextId])
    ensures |Pending(w'.jobs)| == |Pending(w.jobs)| + 1
  {
    assert Pending(w'.jobs) == Pending(w.jobs) + {w.nextId};
  }

  lemma RentsCounts(w: World, w': World, tla: AccountId, key: Bytes, owner: AccountId, mainWallet: AccountId)
    requires Counting(w) && Rents(w, w', tla, key, owner, mainWallet)
    ensures Counting(w')
  {
    AdmitCounts(w.registry, w.now, tla, key, owner, mainWallet);
    JobAppearsWatch(w, w', tla, key);
    PendingAppears(w, w', tla, key);
  }

  lemma ReclaimBegunCounts(w: World, w': World, tla: AccountId, key: Bytes)
    requires Counting(w) && JobAppears(w, w', tla, key) && IsReclaim(w'.jobs[w.nextId]) && Shaped(key, tla)
    requires w'.registry == w.registry.(reclaimPending := w'.registry.reclaimPending)
    ensures Counting(w')
  {
    JobAppearsWatch(w, w', tla, key);
    assert Pending(w'.jobs) == Pending(w.jobs);
    SameBooks(w.registry, w'.registry);
  }

  /** Only what is counted and where matters. */
  lemma SameBooks(r: Registry, r': Registry)
    requires BusinessCounted(r) && Placed(r)
    requires r'.subs == r.subs && r'.tlas == r.tlas && r'.counts.business == r.counts.business
    ensures BusinessCounted(r') && Placed(r')
  {
    forall t | IsBusiness(r', t) ensures BusinessCount(r'.counts, t) == |Under(r'.subs, t)| {
      assert IsBusiness(r, t);
    }
  }

  // ----- receipts -----

  lemma DropEffect(c: Counts, tla: AccountId)
    ensures var c' := DropBusiness(c, tla);
      && (forall t :: BusinessCount(c', t) == if t == tla then SatSub(BusinessCount(c, t), 1) else BusinessCount(c, t))
      && (forall t :: t in c'.business ==> t in c.business)
  {}

  lemma EntryRemoved(r: Registry, tla: AccountId, key: Bytes, subs: nat)
    requires BusinessCounted(r) && Placed(r) && key in r.subs && r.subs[key].tlaId == tla
    ensures BusinessCounted(r.(subs := r.subs - {key},
                               counts := if IsBusiness(r, tla) then DropBusiness(r.counts.(subs := subs), tla) else r.counts.(subs := subs)))
  {
    KeyGone(r.subs, key);
    DropEffect(r.counts.(subs := subs), tla);
    var r' := r.(subs := r.subs - {key},
                 counts := if IsBusiness(r, tla) then DropBusiness(r.counts.(subs := subs), tla) else r.counts.(subs := subs));
    forall t | IsBusiness(r', t) ensures BusinessCount(r'.counts, t) == |Under(r'.subs, t)| {
      assert IsBusiness(r, t);
    }
  }

  /** What a failed mint, a recorded one or a finished reclaim leaves behind. */
  ghost predicate WatchedEnds(w: World, w': World, id: nat) {
    && Watched(w.jobs, id) && w'.jobs == w.jobs - {id} && w'.nextId == w.nextId
    && var r, r', key := w.registry, w'.registry, KeyOf(w.jobs[id]);
    && r'.config == r.config && r'.tlas == r.tlas && (r'.subs == r.subs || r'.subs == r.subs - {key})
    && BusinessCounted(r')
  }

  lemma WatchedEndsWatch(w: World, w': World, id: nat)
    requires Watch(w) && WatchedEnds(w, w', id)
    requires w'.registry.subs != w.registry.subs ==> forall i :: i != id ==> !TenancyOf(w, i, KeyOf(w.jobs[id]))
    ensures Watch(w')
  {
    assert forall i, k :: TenancyOf(w', i, k) <==> i != id && TenancyOf(w, i, k);
    forall i | Watched(w'.jobs, i) ensures Shaped(KeyOf(w'.jobs[i]), TlaOf(w'.jobs[i])) {
      assert Watched(w.jobs, i);
    }
  }

  lemma PendingEnds(w: World, w': World, id: nat)
    requires WatchedEnds(w, w', id)
    ensures |Pending(w'.jobs)| == |Pending(w.jobs)| - if Tenancy(w.jobs[id]) then 1 else 0
  {
    assert Pending(w'.jobs) == Pending(w.jobs) - {id};
  }

  lemma WatchedEndsCounts(w: World, w': World, id: nat)
    requires Counting(w) && WatchedEnds(w, w', id)
    requires w'.registry.subs != w.registry.subs ==> forall i :: i != id ==> !TenancyOf(w, i, KeyOf(w.jobs[id]))
    requires w'.registry.counts.subs - w.registry.counts.subs ==
             (if Tenancy(w.jobs[id]) then 1 else 0) + |w'.registry.subs| - |w.registry.subs|
    ensures Counting(w')
  {
    WatchedEndsWatch(w, w', id);
    PendingEnds(w, w', id);
    assert Placed(w'.registry);
  }

  lemma FailedTenancyCounts(w: World, id: nat, payer: AccountId, attached: nat)
    requires Counting(w) && id in w.jobs && Tenancy(w.jobs[id])
    ensures Counting(Finish(w, FailTenancy(w.registry, KeyOf(w.jobs[id]), TlaOf(w.jobs[id]), payer, attached), id))
  {
    var r, key, tla := w.registry, KeyOf(w.jobs[id]), TlaOf(w.jobs[id]);
    assert TenancyOf(w, id, key) && Watched(w.jobs, id);
    ShapeDetermines(key, tla, r.subs[key].tlaId);
    EntryRemoved(r, tla, key, r.counts.subs);
    KeyGone(r.subs, key);
    var w' := Finish(w, FailTenancy(r, key, tla, payer, attached), id);
    assert BusinessCounted(w'.registry);
    WatchedEndsCounts(w, w', id);
  }

  /** A rental or re-rental that went through, as far as counting goes. */
  ghost predicate Settles(w: World, w': World, id: nat) {
    && w'.jobs == w.jobs - {id} && w'.nextId == w.nextId
    && w'.registry.subs == w.registry.subs && w'.registry.tlas == w.registry.tlas && w'.registry.config == w.registry.config
    && w'.registry.counts == CountSub(w.registry.counts)
  }

  lemma SettledTenancyCounts(w: World, w': World, id: nat)
    requires Counting(w) && |w.registry.subs| < U64_LIMIT && id in w.jobs && Tenancy(w.jobs[id]) && Settles(w, w', id)
    ensures Counting(w')
  {
    assert id in Pending(w.jobs) && Watched(w.jobs, id);
    SameBooks(w.registry, w'.registry);
    WatchedEndsCounts(w, w', id);
  }

  /** An entry with no mint pending is a counted one. */
  lemma PendingLeaveRoom(w: World, key: Bytes)
    requires Watch(w) && key in w.registry.subs && forall i :: !TenancyOf(w, i, key)
    ensures |Pending(w.jobs)| < |w.registry.subs|
  {
    forall i | i in Pending(w.jobs) ensures KeyOf(w.jobs[i]) in w.registry.subs.Keys - {key} {
      assert TenancyOf(w, i, KeyOf(w.jobs[i]));
    }
    forall i, j | i in Pending(w.jobs) && j in Pending(w.jobs) && KeyOf(w.jobs[i]) == KeyOf(w.jobs[j]) ensures i == j {
      assert TenancyOf(w, i, KeyOf(w.jobs[i])) && TenancyOf(w, j, KeyOf(w.jobs[i]));
    }
    PendingFit(w.jobs, Pending(w.jobs), w.registry.subs.Keys - {key});
    assert |w.registry.subs.Keys - {key}| == |w.registry.subs| - 1;
  }

  lemma ReclaimedCounts(w: World, id: nat, result: CallResult)
    requires Counting(w) && id in w.jobs && IsReclaim(w.jobs[id])
    requires result.Returned? ==> forall i :: !TenancyOf(w, i, KeyOf(w.jobs[id]))
    ensures Counting(Finish(w, OnReclaimed(w.registry, w.now, w.jobs[id].task, result), id))
  {
    var r, key, tla := w.registry, KeyOf(w.jobs[id]), TlaOf(w.jobs[id]);
    var w' := Finish(w, OnReclaimed(r, w.now, w.jobs[id].task, result), id);
    assert Watched(w.jobs, id);
    if result.Failed? || key !in r.subs {
      ReleasedCounts(w, id);
    } else {
      ShapeDetermines(key, tla, r.subs[key].tlaId);
      PendingLeaveRoom(w, key);
      EntryRemoved(r, tla, key, r.counts.subs - 1);
      KeyGone(r.subs, key);
      assert BusinessCounted(w'.registry);
      WatchedEndsCounts(w, w', id);
    }
  }

  lemma ReleasedCounts(w: World, id: nat)
    requires Counting(w) && id in w.jobs && IsReclaim(w.jobs[id])
    ensures Counting(Finish(w, ReleaseReclaim(w.registry, KeyOf(w.jobs[id])), id))
  {
    var w' := Finish(w, ReleaseReclaim(w.registry, KeyOf(w.jobs[id])), id);
    assert Watched(w.jobs, id);
    SameBooks(w.registry, w'.registry);
    WatchedEndsCounts(w, w', id);
  }

  lemma MintSettles(u: S.Authorities, w: World, id: nat, c: Choice)
    requires id in w.jobs && w.jobs[id].Mint? && w.jobs[id].key in w.registry.subs
    requires w.jobs[id].mint == Reported(Installed) || w.jobs[id].mint == Reported(SignerPending)
    ensures Settles(w, AdvanceJob(u, w, id, c), id)
  {}

  lemma ReRentSettles(u: S.Authorities, w: World, id: nat, c: Choice)
    requires id in w.jobs && w.jobs[id].Chain? && w.jobs[id].task.ReRent?
    requires w.jobs[id].stage.Answered? && w.jobs[id].stage.result.Returned?
    ensures Settles(w, AdvanceJob(u, w, id, c), id)
  {}

  lemma MintEndCounts(u: S.Authorities, w: World, id: nat, c: Choice)
    requires Counting(w) && |w.registry.subs| < U64_LIMIT && id in w.jobs && w.jobs[id].Mint? && w.jobs[id].mint.Reported?
    ensures Counting(AdvanceJob(u, w, id, c))
  {
    var j, w' := w.jobs[id], AdvanceJob(u, w, id, c);
    assert TenancyOf(w, id, j.key);
    if j.mint.outcome.Installed? || j.mint.outcome.SignerPending? {
      MintSettles(u, w, id, c);
      SettledTenancyCounts(w, w', id);
    } else {
      FailedTenancyCounts(w, id, j.payer, j.attached);
    }
  }

  lemma ReRentEndCounts(u: S.Authorities, w: World, id: nat, c: Choice)
    requires Counting(w) && |w.registry.subs| < U64_LIMIT && id in w.jobs && w.jobs[id].Chain? && w.jobs[id].task.ReRent?
    requires w.jobs[id].stage.Answered? || (w.jobs[id].stage.Gate? && !c.clear)
    ensures Counting(AdvanceJob(u, w, id, c))
  {
    var t, stage, w' := w.jobs[id].task, w.jobs[id].stage, AdvanceJob(u, w, id, c);
    if stage.Gate? || stage.result.Failed? {
      FailedTenancyCounts(w, id, t.payer, t.attached);
    } else {
      ReRentSettles(u, w, id, c);
      SettledTenancyCounts(w, w', id);
    }
  }

  /** A job went on to another stage, or one that is not watched ended. */
  ghost predicate JobMoves(w: World, w': World) {
    && w'.nextId == w.nextId && SameRegister(w.registry, w'.registry)
    && (forall i :: i in w'.jobs ==> i in w.jobs && SameRole(w.jobs[i], w'.jobs[i]))
    && (forall i :: Watched(w.jobs, i) ==> i in w'.jobs)
  }

  lemma JobMovesCounts(w: World, w': World)
    requires Counting(w) && JobMoves(w, w')
    ensures Counting(w')
  {
    QuietKeeps(w, w');
  }

  lemma MintMoves(u: S.Authorities, w: World, id: nat, c: Choice)
    requires id in w.jobs && w.jobs[id].Mint? && !w.jobs[id].mint.Reported?
    ensures JobMoves(w, AdvanceJob(u, w, id, c))
  {}

  lemma ChainMoves(u: S.Authorities, w: World, id: nat, c: Choice)
    requires id in w.jobs && w.jobs[id].Chain? && !w.jobs[id].stage.Answered?
    requires w.jobs[id].stage.Gate? ==> AfterGate(w, w.jobs[id].task, c).0.Some?
    ensures JobMoves(w, AdvanceJob(u, w, id, c))
  {}

  lemma SaleEndQuiet(r: Registry, t: Task, result: CallResult)
    requires t.Buy?
    ensures SameRegister(r, OnSold(r, t, result)) && SameRegister(r, CancelSale(r, t))
  {}

  lemma BuyMoves(u: S.Authorities, w: World, id: nat, c: Choice)
    requires id in w.jobs && IsBuy(w.jobs[id]) && (w.jobs[id].stage.Answered? || (w.jobs[id].stage.Gate? && !c.clear))
    ensures JobMoves(w, AdvanceJob(u, w, id, c))
  {
    var t, stage := w.jobs[id].task, w.jobs[id].stage;
    SaleEndQuiet(w.registry, t, if stage.Answered? then stage.result else Failed);
  }

  lemma LockFreeMoves(u: S.Authorities, w: World, id: nat, c: Choice)
    requires id in w.jobs && (w.jobs[id].Payout? || w.jobs[id].Verify?)
    ensures JobMoves(w, AdvanceJob(u, w, id, c))
  {}

  lemma RetryMoves(u: S.Authorities, w: World, id: nat, c: Choice)
    requires id in w.jobs && w.jobs[id].Chain? && w.jobs[id].task.Retry?
    ensures JobMoves(w, AdvanceJob(u, w, id, c))
  {}

  lemma UnwatchedMoves(u: S.Authorities, w: World, id: nat, c: Choice)
    requires id in w.jobs && !Watched(w.jobs, id)
    ensures JobMoves(w, AdvanceJob(u, w, id, c))
  {
    var j := w.jobs[id];
    if !j.Chain? {
      LockFreeMoves(u, w, id, c);
    } else if j.task.Retry? {
      RetryMoves(u, w, id, c);
    } else if j.stage.Answered? || (j.stage.Gate? && !c.clear) {
      BuyMoves(u, w, id, c);
    } else {
      ChainMoves(u, w, id, c);
    }
  }

  lemma MintCounts(u: S.Authorities, w: World, id: nat, c: Choice)
    requires Counting(w) && |w.registry.subs| < U64_LIMIT && id in w.jobs && w.jobs[id].Mint?
    ensures Counting(AdvanceJob(u, w, id, c))
  {
    if w.jobs[id].mint.Reported? {
      MintEndCounts(u, w, id, c);
    } else {
      MintMoves(u, w, id, c);
      JobMovesCounts(w, AdvanceJob(u, w, id, c));
    }
  }

  lemma ReclaimEndCounts(u: S.Authorities, w: World, id: nat, c: Choice)
    requires Counting(w) && id in w.jobs && IsReclaim(w.jobs[id]) && SparesMints(w, Advance(id, c))
    requires w.jobs[id].stage.Answered? || (w.jobs[id].stage.Gate? && AfterGate(w, w.jobs[id].task, c).0.None?)
    ensures Counting(AdvanceJob(u, w, id, c))
  {
    if w.jobs[id].stage.Gate? {
      ReleasedCounts(w, id);
    } else {
      ReclaimedCounts(w, id, w.jobs[id].stage.result);
    }
  }

  lemma ChainCounts(u: S.Authorities, w: World, id: nat, c: Choice)
    requires Counting(w) && |w.registry.subs| < U64_LIMIT && SparesMints(w, Advance(id, c))
    requires Watched(w.jobs, id) && w.jobs[id].Chain?
    ensures Counting(AdvanceJob(u, w, id, c))
  {
    var j := w.jobs[id];
    if !j.stage.Answered? && (j.stage.Gate? ==> AfterGate(w, j.task, c).0.Some?) {
      ChainMoves(u, w, id, c);
      JobMovesCounts(w, AdvanceJob(u, w, id, c));
    } else if j.task.ReRent? {
      ReRentEndCounts(u, w, id, c);
    } else {
      ReclaimEndCounts(u, w, id, c);
    }
  }

  lemma AdvanceCounts(u: S.Authorities, w: World, id: nat, c: Choice)
    requires Counting(w) && |w.registry.subs| < U64_LIMIT && SparesMints(w, Advance(id, c))
    ensures Counting(AdvanceJob(u, w, id, c))
  {
    if id in w.jobs {
      if !Watched(w.jobs, id) {
        UnwatchedMoves(u, w, id, c);
        JobMovesCounts(w, AdvanceJob(u, w, id, c));
      } else if w.jobs[id].Mint? {
        MintCounts(u, w, id, c);
      } else {
        ChainCounts(u, w, id, c);
      }
    }
  }

  // ----- every step, every run -----

  lemma BeginningCounts(w: World, step: Step)
    requires Counting(w) && (step.DoRent? || step.DoRentPaid? || step.DoReclaim?)
    ensures Counting(ApplyTenancy(w, step))
  {
    var w' := ApplyTenancy(w, step);
    if w' != w {
      var key := SubAccountKey(step.tla, step.name);
      match step
      case DoRent(caller, _, tla, _, _, mainWallet) =>
        RentBegins(w, step);
        RentsCounts(w, w', tla, key, caller, mainWallet);
      case DoRentPaid(caller, _, tla, _, _, mainWallet) =>
        RentPaidBegins(w, step);
        RentsCounts(w, w', tla, key, caller, mainWallet);
      case DoReclaim(_, tla, _, _) =>
        ReclaimBegins(w, step);
        ReclaimBegunCounts(w, w', tla, key);
    }
  }

  lemma QuietCallCounts(u: S.Authorities, w: World, step: Step)
    requires Counting(w) && !Loud(step)
    ensures Counting(Apply(u, w, step))
  {
    QuietCall(u, w, step);
    QuietCallKeeps(w, Apply(u, w, step));
  }

  lemma LoudCallCounts(w: World, step: Step, w': World)
    requires Counting(w) && (step.DoRent? || step.DoRentPaid? || step.DoReclaim?) && w' == ApplyTenancy(w, step)
    ensures Counting(w')
  {
    BeginningCounts(w, step);
  }

  lemma StepCounts(u: S.Authorities, w: World, step: Step)
    requires Counting(w) && |w.registry.subs| < U64_LIMIT && SparesMints(w, step)
    ensures Counting(Apply(u, w, step))
  {
    if step.Advance? {
      AdvanceCounts(u, w, step.id, step.choice);
    } else if Loud(step) {
      LoudCallCounts(w, step, Apply(u, w, step));
    } else {
      QuietCallCounts(u, w, step);
    }
  }

  /** A Business TLA's count is the number of its entries, and settled plus pending rentals are all entries. */
  lemma {:induction false} CountsAreTrue(u: S.Authorities, w0: World, steps: seq<Step>)
    requires Fresh(w0) && SparingRun(u, w0, steps)
    ensures var w := Run(u, w0, steps);
      && Counting(w)
      && (forall t :: IsBusiness(w.registry, t) ==> BusinessCount(w.registry.counts, t) == |Under(w.registry.subs, t)|)
      && w.registry.counts.subs + |Pending(w.jobs)| == |w.registry.subs|
  {
    if steps != [] {
      CountsAreTrue(u, w0, steps[..|steps| - 1]);
      StepCounts(u, Run(u, w0, steps[..|steps| - 1]), steps[|steps| - 1]);
    }
  }
}
