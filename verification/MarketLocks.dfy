/** Sales, reclaims and mints of one name never collide, although a buy never looks at the reclaim lock. */
module MarketLocks {
  import opened Types
  import opened Fees
  import opened RegistryTypes
  import opened RegistryRules
  import opened Names
  import opened Market
  import S = SignerRules

  // ----- leases that are over -----

  /** The lease, or the TLA's, is past its grace period. */
  predicate Expired(w: World, k: Bytes) {
    && k in w.registry.subs
    && w.registry.subs[k].tlaId in w.registry.tlas
    && var s := w.registry.subs[k];
       || TimeLifecycle(w.now, s.expiresAt, w.registry.config.graceNs) == Reclaimable
       || TimeLifecycle(w.now, w.registry.tlas[s.tlaId].expiresAt, w.registry.config.graceNs) == Reclaimable
  }

  predicate Doomed(w: World, k: Bytes) {
    k in w.registry.subs && (IsBusiness(w.registry, w.registry.subs[k].tlaId) || Expired(w, k))
  }

  /** Whatever the TLA's status and the fee settings are, a doomed name is not sellable. */
  lemma DoomedIsNotSellable(w: World, tla: AccountId, k: Bytes, isMother: bool)
    requires Doomed(w, k)
    ensures Sellable(w.registry, w.now, tla, k, isMother).Err?
  {}

  // ----- the state of leases -----

  ghost predicate Shaped(k: Bytes, tla: AccountId) {
    exists name :: ValidName(name) && k == SubAccountKey(tla, name)
  }

  /** Every entry hangs under a TLA that has been activated, by a checked name; retraction is a Business matter. */
  ghost predicate LeaseOk(r: Registry, k: Bytes)
    requires k in r.subs
  {
    var s := r.subs[k];
    && s.tlaId in r.tlas
    && r.tlas[s.tlaId].status != Registered
    && (s.retractionAt.Some? ==> r.tlas[s.tlaId].tlaType == Business)
    && Shaped(k, s.tlaId)
  }

  ghost predicate Leases(r: Registry) {
    forall k :: k in r.subs ==> LeaseOk(r, k)
  }

  // ----- what runs are assumed to be like -----

  /** No Open TLA is a sub-account of a Business TLA, through which a retraction call would reach its leases. */
  ghost predicate Level(r: Registry) {
    forall t, t' :: t in r.tlas && t' in r.tlas && r.tlas[t].tlaType == Business && r.tlas[t'].tlaType == Open ==>
      !exists prefix :: t' == SubAccountKey(t, prefix)
  }

  /** No mint outlives its lease plus grace. */
  ghost predicate Timely(w: World) {
    forall i :: i in w.jobs && Tenancy(w.jobs[i]) && KeyOf(w.jobs[i]) in w.registry.subs &&
                w.registry.subs[KeyOf(w.jobs[i])].tlaId in w.registry.tlas ==>
      EffectiveLifecycle(w.now, w.registry.subs[KeyOf(w.jobs[i])], w.registry.tlas[w.registry.subs[KeyOf(w.jobs[i])].tlaId],
                         w.registry.config.fees.retractionNoticeNs, w.registry.config.graceNs) != Reclaimable
  }

  ghost predicate Calm(w: World) {
    Level(w.registry) && Timely(w)
  }

  /** An administrator forces a lock open. */
  predicate Override(step: Step) {
    step.ClearSaleLock? || step.ClearReclaimLock?
  }

  ghost predicate CalmRun(u: S.Authorities, w: World, steps: seq<Step>) {
    steps == [] ||
    (CalmRun(u, w, steps[..|steps| - 1]) && Calm(Run(u, w, steps[..|steps| - 1])) && !Override(steps[|steps| - 1]))
  }

  // ----- the invariant -----

  predicate Locking(jobs: map<nat, Job>, i: nat) {
    i in jobs && (IsBuy(jobs[i]) || IsReclaim(jobs[i]) || Tenancy(jobs[i]))
  }

  ghost predicate Ids(w: World) {
    (forall i :: i in w.jobs ==> i < w.nextId) && (forall i :: i in w.clean ==> i < w.nextId)
  }

  ghost predicate BuyOf(w: World, i: nat, k: Bytes) {
    i in w.jobs && IsBuy(w.jobs[i]) && KeyOf(w.jobs[i]) == k
  }

  ghost predicate ReclaimOf(w: World, i: nat, k: Bytes) {
    i in w.jobs && IsReclaim(w.jobs[i]) && KeyOf(w.jobs[i]) == k
  }

  ghost predicate TenancyOf(w: World, i: nat, k: Bytes) {
    i in w.jobs && Tenancy(w.jobs[i]) && KeyOf(w.jobs[i]) == k
  }

  /** A name is settling exactly while one buy of it is in flight. */
  ghost predicate SaleLock(w: World) {
    && (forall k :: Settling(w.registry.board, k) <==> exists i :: BuyOf(w, i, k))
    && (forall i, j, k :: BuyOf(w, i, k) && BuyOf(w, j, k) ==> i == j)
  }

  /** A reclaim is pending exactly while one is in flight, and then the lease is doomed. */
  ghost predicate ReclaimLock(w: World) {
    && (forall k :: k in w.registry.reclaimPending <==> exists i :: ReclaimOf(w, i, k))
    && (forall i, j, k :: ReclaimOf(w, i, k) && ReclaimOf(w, j, k) ==> i == j)
    && (forall i, k :: ReclaimOf(w, i, k) ==> Doomed(w, k) && w.registry.subs[k].tlaId == TlaOf(w.jobs[i]))
  }

  /** A mint in flight has its entry, and only one is in flight per name. */
  ghost predicate TenancyLock(w: World) {
    && (forall i, j, k :: TenancyOf(w, i, k) && TenancyOf(w, j, k) ==> i == j)
    && (forall i, k :: TenancyOf(w, i, k) ==> k in w.registry.subs && w.registry.subs[k].tlaId == TlaOf(w.jobs[i]))
  }

  ghost predicate Apart(w: World) {
    && (forall i, j, k :: ReclaimOf(w, i, k) && BuyOf(w, j, k) ==> false)
    && (forall i, j, k :: ReclaimOf(w, i, k) && TenancyOf(w, j, k) ==> false)
  }

  /** A sale begun with no mint pending keeps its entry until it settles. */
  ghost predicate CleanSales(w: World) {
    forall i, k :: i in w.clean && BuyOf(w, i, k) ==> k in w.registry.subs && forall j :: !TenancyOf(w, j, k)
  }

  ghost predicate Inv(w: World) {
    Ids(w) && Leases(w.registry) && SaleLock(w) && ReclaimLock(w) && TenancyLock(w) && Apart(w) && CleanSales(w)
  }

  // ----- steps that leave the locks alone -----

  predicate SameRole(j: Job, j': Job) {
    && (IsBuy(j) <==> IsBuy(j')) && (IsReclaim(j) <==> IsReclaim(j')) && (Tenancy(j) <==> Tenancy(j'))
    && KeyOf(j) == KeyOf(j') && TlaOf(j) == TlaOf(j')
  }

  ghost predicate SameLocks(r: Registry, r': Registry) {
    (forall k :: Settling(r.board, k) <==> Settling(r'.board, k)) && r'.reclaimPending == r.reclaimPending
  }

  ghost predicate SameLeases(w: World, w': World) {
    && (forall k :: k in w.registry.subs <==> k in w'.registry.subs)
    && (forall k :: k in w.registry.subs ==> w'.registry.subs[k].tlaId == w.registry.subs[k].tlaId)
    && (forall k :: Doomed(w, k) ==> Doomed(w', k))
  }

  ghost predicate SameJobs(w: World, w': World) {
    && w'.clean == w.clean && w.nextId <= w'.nextId
    && (forall i :: i in w'.jobs ==> i < w'.nextId)
    && (forall i :: Locking(w.jobs, i) <==> Locking(w'.jobs, i))
    && (forall i :: Locking(w.jobs, i) ==> SameRole(w.jobs[i], w'.jobs[i]))
  }

  lemma RolesKept(w: World, w': World)
    requires SameJobs(w, w')
    ensures forall i, k :: BuyOf(w, i, k) <==> BuyOf(w', i, k)
    ensures forall i, k :: ReclaimOf(w, i, k) <==> ReclaimOf(w', i, k)
    ensures forall i, k :: TenancyOf(w, i, k) <==> TenancyOf(w', i, k)
    ensures forall i, k :: ReclaimOf(w, i, k) || TenancyOf(w, i, k) ==> TlaOf(w'.jobs[i]) == TlaOf(w.jobs[i])
  {
    forall i, k
      ensures BuyOf(w, i, k) <==> BuyOf(w', i, k)
      ensures ReclaimOf(w, i, k) <==> ReclaimOf(w', i, k)
      ensures TenancyOf(w, i, k) <==> TenancyOf(w', i, k)
      ensures ReclaimOf(w, i, k) || TenancyOf(w, i, k) ==> TlaOf(w'.jobs[i]) == TlaOf(w.jobs[i])
    {
      assert Locking(w.jobs, i) <==> Locking(w'.jobs, i);
    }
  }

  lemma QuietKeeps(w: World, w': World)
    requires Inv(w) && SameJobs(w, w') && SameLocks(w.registry, w'.registry) && SameLeases(w, w') && Leases(w'.registry)
    ensures Inv(w')
  {
    RolesKept(w, w');
    forall k ensures Settling(w'.registry.board, k) <==> exists i :: BuyOf(w', i, k) {
      assert Settling(w.registry.board, k) <==> exists i :: BuyOf(w, i, k);
    }
    forall k ensures k in w'.registry.reclaimPending <==> exists i :: ReclaimOf(w', i, k) {
      assert k in w.registry.reclaimPending <==> exists i :: ReclaimOf(w, i, k);
    }
  }

  // ----- registry changes that leave the locks alone -----

  /** The parts of the registry the locks depend on are as before. */
  ghost predicate SameLocksAndLeases(r: Registry, r': Registry) {
    && r'.config.graceNs == r.config.graceNs && r'.tlas == r.tlas && r'.subs == r.subs
    && r'.board == r.board && r'.reclaimPending == r.reclaimPending
  }

  predicate JobsStand(w: World, w': World) {
    w'.jobs == w.jobs && w'.nextId == w.nextId && w'.clean == w.clean
  }

  ghost predicate Untouched(w: World, w': World) {
    JobsStand(w, w') && SameLocksAndLeases(w.registry, w'.registry) && w.now <= w'.now
  }

  lemma UntouchedKeeps(w: World, w': World)
    requires Inv(w) && SameJobs(w, w') && SameLocksAndLeases(w.registry, w'.registry) && w.now <= w'.now
    ensures Inv(w')
  {
    assert Leases(w'.registry) by {
      forall k | k in w'.registry.subs ensures LeaseOk(w'.registry, k) { assert LeaseOk(w.registry, k); }
    }
    QuietKeeps(w, w');
  }

  lemma EnvironmentUntouched(w: World, step: Step)
    requires step.Tick? || step.SignersChange? || step.Receive? || step.Configure? || step.SetBusinessCap?
    ensures Untouched(w, ApplyEnvironment(w, step))
  {}

  lemma EnvironmentKeeps(w: World, step: Step)
    requires Inv(w) && (step.Tick? || step.SignersChange? || step.Receive? || step.Configure? || step.SetBusinessCap?)
    ensures Inv(ApplyEnvironment(w, step))
  {
    EnvironmentUntouched(w, step);
    UntouchedKeeps(w, ApplyEnvironment(w, step));
  }

  lemma UpdateFeesUntouched(w: World, step: Step)
    requires step.DoUpdateFees?
    ensures Untouched(w, ApplyEnvironment(w, step))
  {}

  lemma UpdateFeesKeeps(w: World, step: Step)
    requires Inv(w) && (step.DoUpdateFees?)
    ensures Inv(ApplyEnvironment(w, step))
  {
    UpdateFeesUntouched(w, step);
    UntouchedKeeps(w, ApplyEnvironment(w, step));
  }

  lemma SweepUntouched(w: World, step: Step)
    requires step.DoSweepFt?
    ensures Untouched(w, ApplyMoney(w, step))
  {}

  lemma SweepKeeps(w: World, step: Step)
    requires Inv(w) && (step.DoSweepFt?)
    ensures Inv(ApplyMoney(w, step))
  {
    SweepUntouched(w, step);
    UntouchedKeeps(w, ApplyMoney(w, step));
  }

  lemma WithdrawUntouched(w: World, step: Step)
    requires step.DoWithdraw?
    ensures Untouched(w, ApplyMoney(w, step))
  {}

  lemma WithdrawKeeps(w: World, step: Step)
    requires Inv(w) && (step.DoWithdraw?)
    ensures Inv(ApplyMoney(w, step))
  {
    WithdrawUntouched(w, step);
    UntouchedKeeps(w, ApplyMoney(w, step));
  }

  /** A new job that takes no lock. */
  lemma NewJobKeeps(w: World, w': World, j: Job)
    requires Inv(w) && w'.jobs == w.jobs[w.nextId := j] && w'.nextId == w.nextId + 1 && w'.clean == w.clean && w.now == w'.now
    requires !IsBuy(j) && !IsReclaim(j) && !Tenancy(j) && SameLocksAndLeases(w.registry, w'.registry)
    ensures Inv(w')
  {
    UntouchedKeeps(w, w');
  }

  lemma ClaimKeeps(w: World, step: Step)
    requires Inv(w) && step.DoClaimRefund?
    ensures Inv(ApplyMoney(w, step))
  {
    var w' := ApplyMoney(w, step);
    if w' != w {
      NewJobKeeps(w, w', w'.jobs[w.nextId]);
    }
  }

  lemma RetryKeeps(w: World, step: Step)
    requires Inv(w) && step.DoRetryInstall?
    ensures Inv(ApplyTenancy(w, step))
  {
    var w' := ApplyTenancy(w, step);
    if w' != w {
      NewJobKeeps(w, w', w'.jobs[w.nextId]);
    }
  }

  lemma ListKeeps(w: World, step: Step)
    requires Inv(w) && step.DoListOrOffer?
    ensures Inv(ApplyTrade(w, step))
  {
    var o := ListOrOffer(w.registry, Call(step.caller, step.attached, w.now), step.tla, step.name, step.price, step.ownerKey,
                         step.offerTo, step.isMother);
    if o.Ok? {
      assert o.value.Verify?;
      NewJobKeeps(w, ApplyTrade(w, step), o.value);
    }
  }

  /** A TLA's entry changed: not its type, not back to unactivated, and not out of an expiry. */
  ghost predicate TlaChange(w: World, w': World, tla: AccountId) {
    var r, r' := w.registry, w'.registry;
    && JobsStand(w, w') && w'.now == w.now
    && r'.config.graceNs == r.config.graceNs && r'.subs == r.subs && r'.board == r.board
    && r'.reclaimPending == r.reclaimPending
    && tla in r'.tlas && r'.tlas == r.tlas[tla := r'.tlas[tla]]
    && (tla in r.tlas && r.tlas[tla].status != Registered ==>
          && r'.tlas[tla].tlaType == r.tlas[tla].tlaType && r'.tlas[tla].status != Registered
          && (TimeLifecycle(w.now, r.tlas[tla].expiresAt, r.config.graceNs) == Reclaimable ==> r'.tlas[tla].expiresAt == r.tlas[tla].expiresAt))
  }

  lemma TlaChangeKeeps(w: World, w': World, tla: AccountId)
    requires Inv(w) && (w' == w || TlaChange(w, w', tla))
    ensures Inv(w')
  {
    if w' != w {
      forall k | k in w'.registry.subs ensures LeaseOk(w'.registry, k) && (Doomed(w, k) ==> Doomed(w', k)) {
        assert LeaseOk(w.registry, k);
      }
      QuietKeeps(w, w');
    }
  }

  lemma RegisterChanges(w: World, step: Step)
    requires step.DoRegisterTla?
    ensures ApplyTla(w, step) == w || TlaChange(w, ApplyTla(w, step), step.tla)
  {}

  lemma RegisterKeeps(w: World, step: Step)
    requires Inv(w) && step.DoRegisterTla?
    ensures Inv(ApplyTla(w, step))
  {
    RegisterChanges(w, step);
    TlaChangeKeeps(w, ApplyTla(w, step), step.tla);
  }

  lemma ActivateOpenChanges(w: World, step: Step)
    requires step.DoActivateOpenTla?
    ensures ApplyTla(w, step) == w || TlaChange(w, ApplyTla(w, step), step.tla)
  {}

  lemma ActivateOpenKeeps(w: World, step: Step)
    requires Inv(w) && step.DoActivateOpenTla?
    ensures Inv(ApplyTla(w, step))
  {
    ActivateOpenChanges(w, step);
    TlaChangeKeeps(w, ApplyTla(w, step), step.tla);
  }

  lemma SuspendChanges(w: World, step: Step)
    requires (step.DoSuspendTla? || step.DoUnsuspendTla?)
    ensures ApplyTla(w, step) == w || TlaChange(w, ApplyTla(w, step), step.tla)
  {}

  lemma SuspendKeeps(w: World, step: Step)
    requires Inv(w) && (step.DoSuspendTla? || step.DoUnsuspendTla?)
    ensures Inv(ApplyTla(w, step))
  {
    SuspendChanges(w, step);
    TlaChangeKeeps(w, ApplyTla(w, step), step.tla);
  }

  lemma ActivateChanges(w: World, step: Step)
    requires step.DoActivateTla?
    ensures ApplyTla(w, step) == w || TlaChange(w, ApplyTla(w, step), step.tla)
  {}

  lemma ActivateKeeps(w: World, step: Step)
    requires Inv(w) && step.DoActivateTla?
    ensures Inv(ApplyTla(w, step))
  {
    ActivateChanges(w, step);
    TlaChangeKeeps(w, ApplyTla(w, step), step.tla);
  }

  lemma RenewTlaChanges(w: World, step: Step)
    requires step.DoRenewTla?
    ensures ApplyTla(w, step) == w || TlaChange(w, ApplyTla(w, step), step.tla)
  {}

  lemma RenewTlaKeeps(w: World, step: Step)
    requires Inv(w) && step.DoRenewTla?
    ensures Inv(ApplyTla(w, step))
  {
    RenewTlaChanges(w, step);
    TlaChangeKeeps(w, ApplyTla(w, step), step.tla);
  }

  /** One entry changed, but not its TLA, nor its expiry if that had passed, nor into an Open retraction. */
  ghost predicate LeaseChange(w: World, w': World, key: Bytes) {
    var r, r' := w.registry, w'.registry;
    && JobsStand(w, w') && w'.now == w.now
    && r'.config.graceNs == r.config.graceNs && r'.tlas == r.tlas && r'.board == r.board
    && r'.reclaimPending == r.reclaimPending
    && key in r.subs && key in r'.subs && r'.subs == r.subs[key := r'.subs[key]]
    && r'.subs[key].tlaId == r.subs[key].tlaId
    && (TimeLifecycle(w.now, r.subs[key].expiresAt, r.config.graceNs) == Reclaimable ==> r'.subs[key].expiresAt == r.subs[key].expiresAt)
    && (r'.subs[key].retractionAt.Some? && r.subs[key].retractionAt.None? ==> IsBusiness(r, r.subs[key].tlaId))
  }

  lemma LeaseChangeLeases(w: World, w': World, key: Bytes)
    requires Leases(w.registry) && LeaseChange(w, w', key)
    ensures Leases(w'.registry) && SameLeases(w, w')
  {
    forall k | k in w'.registry.subs ensures LeaseOk(w'.registry, k) && (Doomed(w, k) ==> Doomed(w', k)) {
      assert LeaseOk(w.registry, k);
    }
  }

  lemma LeaseChangeKeeps(w: World, w': World, key: Bytes)
    requires Inv(w) && (w' == w || LeaseChange(w, w', key))
    ensures Inv(w')
  {
    if w' != w {
      LeaseChangeLeases(w, w', key);
      QuietKeeps(w, w');
    }
  }

  lemma RenewSubChanges(w: World, step: Step)
    requires step.DoRenewSub?
    ensures ApplyLease(w, step) == w || LeaseChange(w, ApplyLease(w, step), SubAccountKey(step.tla, step.name))
  {}

  lemma RenewSubKeeps(w: World, step: Step)
    requires Inv(w) && step.DoRenewSub?
    ensures Inv(ApplyLease(w, step))
  {
    RenewSubChanges(w, step);
    LeaseChangeKeeps(w, ApplyLease(w, step), SubAccountKey(step.tla, step.name));
  }

  lemma SetMainWalletChanges(w: World, step: Step)
    requires step.DoSetMainWallet?
    ensures ApplyLease(w, step) == w || LeaseChange(w, ApplyLease(w, step), SubAccountKey(step.tla, step.name))
  {}

  lemma SetMainWalletKeeps(w: World, step: Step)
    requires Inv(w) && step.DoSetMainWallet?
    ensures Inv(ApplyLease(w, step))
  {
    SetMainWalletChanges(w, step);
    LeaseChangeKeeps(w, ApplyLease(w, step), SubAccountKey(step.tla, step.name));
  }

  lemma CancelRetractionChanges(w: World, step: Step)
    requires step.DoCancelRetraction?
    ensures ApplyLease(w, step) == w || LeaseChange(w, ApplyLease(w, step), SubAccountKey(step.tla, step.name))
  {}

  lemma CancelRetractionKeeps(w: World, step: Step)
    requires Inv(w) && step.DoCancelRetraction?
    ensures Inv(ApplyLease(w, step))
  {
    CancelRetractionChanges(w, step);
    LeaseChangeKeeps(w, ApplyLease(w, step), SubAccountKey(step.tla, step.name));
  }

  /** Among level TLAs, an entry reached through a Business TLA hangs under a Business TLA. */
  lemma LevelNames(r: Registry, tla: AccountId, name: Bytes)
    requires Level(r) && Leases(r) && IsBusiness(r, tla) && SubAccountKey(tla, name) in r.subs
    ensures IsBusiness(r, r.subs[SubAccountKey(tla, name)].tlaId)
  {
    var k := SubAccountKey(tla, name);
    assert LeaseOk(r, k);
    var own := r.subs[k].tlaId;
    var part :| ValidName(part) && k == SubAccountKey(own, part);
    NestedOrEqual(tla, name, own, part);
  }

  lemma ScheduleChanges(w: World, step: Step)
    requires step.DoScheduleRetraction?
    requires var key := SubAccountKey(step.tla, step.name);
      IsBusiness(w.registry, step.tla) && key in w.registry.subs ==> IsBusiness(w.registry, w.registry.subs[key].tlaId)
    ensures ApplyLease(w, step) == w || LeaseChange(w, ApplyLease(w, step), SubAccountKey(step.tla, step.name))
  {}

  lemma ScheduleKeeps(w: World, step: Step)
    requires Inv(w) && Level(w.registry) && step.DoScheduleRetraction?
    ensures Inv(ApplyLease(w, step))
  {
    var key := SubAccountKey(step.tla, step.name);
    if IsBusiness(w.registry, step.tla) && key in w.registry.subs { LevelNames(w.registry, step.tla, step.name); }
    ScheduleChanges(w, step);
    LeaseChangeKeeps(w, ApplyLease(w, step), key);
  }

  /** Listings and offers changed without touching a lock. */
  ghost predicate ListingChange(r: Registry, r': Registry) {
    SameLocks(r, r') && r'.config.graceNs == r.config.graceNs && r'.tlas == r.tlas && r'.subs == r.subs
  }

  lemma ListingChangeKeeps(w: World, w': World)
    requires Inv(w) && SameJobs(w, w') && w.now == w'.now && ListingChange(w.registry, w'.registry)
    ensures Inv(w')
  {
    forall k | k in w'.registry.subs ensures LeaseOk(w'.registry, k) { assert LeaseOk(w.registry, k); }
    QuietKeeps(w, w');
  }

  lemma UnlistChanges(w: World, step: Step)
    requires step.DoUnlist?
    ensures var w' := ApplyTrade(w, step); JobsStand(w, w') && w'.now == w.now && ListingChange(w.registry, w'.registry)
  {}

  lemma UnlistKeeps(w: World, step: Step)
    requires Inv(w) && step.DoUnlist?
    ensures Inv(ApplyTrade(w, step))
  {
    UnlistChanges(w, step);
    ListingChangeKeeps(w, ApplyTrade(w, step));
  }

  lemma RevokeChanges(w: World, step: Step)
    requires step.DoRevokeOffer?
    ensures var w' := ApplyTrade(w, step); JobsStand(w, w') && w'.now == w.now && ListingChange(w.registry, w'.registry)
  {}

  lemma RevokeKeeps(w: World, step: Step)
    requires Inv(w) && step.DoRevokeOffer?
    ensures Inv(ApplyTrade(w, step))
  {
    RevokeChanges(w, step);
    ListingChangeKeeps(w, ApplyTrade(w, step));
  }

  lemma VerifyChanges(r: Registry, j: Job, current: Option<PublicKey>)
    requires j.Verify?
    ensures ListingChange(r, OnVerified(r, j, current))
  {}

  lemma VerifyKeeps(u: S.Authorities, w: World, id: nat, c: Choice)
    requires Inv(w) && id in w.jobs && w.jobs[id].Verify?
    ensures Inv(AdvanceJob(u, w, id, c))
  {
    VerifyChanges(w.registry, w.jobs[id], c.current);
    ListingChangeKeeps(w, Finish(w, OnVerified(w.registry, w.jobs[id], c.current), id));
  }

  // ----- taking a lock -----

  /** A mint or re-rent begins: its entry appears with it. */
  ghost predicate TenancyBegins(w: World, w': World, key: Bytes) {
    var r, r' := w.registry, w'.registry;
    && w'.now == w.now && w'.clean == w.clean && w'.nextId == w.nextId + 1
    && w.nextId in w'.jobs && w'.jobs == w.jobs[w.nextId := w'.jobs[w.nextId]]
    && Tenancy(w'.jobs[w.nextId]) && KeyOf(w'.jobs[w.nextId]) == key
    && key !in r.subs && key in r'.subs && r'.subs == r.subs[key := r'.subs[key]]
    && r'.subs[key].tlaId == TlaOf(w'.jobs[w.nextId]) && LeaseOk(r', key)
    && r'.config.graceNs == r.config.graceNs && r'.tlas == r.tlas && r'.board == r.board
    && r'.reclaimPending == r.reclaimPending
  }

  lemma JobAdded(w: World, w': World)
    requires Ids(w) && w.nextId in w'.jobs && w'.jobs == w.jobs[w.nextId := w'.jobs[w.nextId]]
    ensures forall i, k :: i != w.nextId ==> (BuyOf(w', i, k) <==> BuyOf(w, i, k))
    ensures forall i, k :: i != w.nextId ==> (ReclaimOf(w', i, k) <==> ReclaimOf(w, i, k))
    ensures forall i, k :: i != w.nextId ==> (TenancyOf(w', i, k) <==> TenancyOf(w, i, k))
    ensures forall k :: !BuyOf(w, w.nextId, k) && !ReclaimOf(w, w.nextId, k) && !TenancyOf(w, w.nextId, k)
  {}

  lemma TenancyBeginsKeeps(w: World, w': World, key: Bytes)
    requires Inv(w) && TenancyBegins(w, w', key)
    ensures Inv(w')
  {
    JobAdded(w, w');
    assert Leases(w'.registry) by {
      forall k | k in w'.registry.subs ensures LeaseOk(w'.registry, k) {
        if k != key { assert LeaseOk(w.registry, k); }
      }
    }
    TenancyBeginsLocks(w, w', key);
    TenancyBeginsApart(w, w', key);
  }

  lemma TenancyBeginsLocks(w: World, w': World, key: Bytes)
    requires Inv(w) && TenancyBegins(w, w', key)
    ensures SaleLock(w') && ReclaimLock(w')
  {
    JobAdded(w, w');
    assert forall i, k :: BuyOf(w', i, k) <==> BuyOf(w, i, k);
    assert forall i, k :: ReclaimOf(w', i, k) <==> ReclaimOf(w, i, k);
    forall k ensures Settling(w'.registry.board, k) <==> exists i :: BuyOf(w', i, k) {
      assert Settling(w.registry.board, k) <==> exists i :: BuyOf(w, i, k);
    }
    forall k ensures k in w'.registry.reclaimPending <==> exists i :: ReclaimOf(w', i, k) {
      assert k in w.registry.reclaimPending <==> exists i :: ReclaimOf(w, i, k);
    }
    forall i, k | ReclaimOf(w', i, k) ensures Doomed(w', k) && w'.registry.subs[k].tlaId == TlaOf(w'.jobs[i]) {
      assert ReclaimOf(w, i, k) && Doomed(w, k) && k != key;
    }
  }

  lemma TenancyBeginsApart(w: World, w': World, key: Bytes)
    requires Inv(w) && TenancyBegins(w, w', key)
    ensures TenancyLock(w') && Apart(w') && CleanSales(w')
  {
    JobAdded(w, w');
    forall i ensures !TenancyOf(w, i, key) && !ReclaimOf(w, i, key) && !(i in w.clean && BuyOf(w, i, key)) {}
    assert TenancyOf(w', w.nextId, key);
    assert Apart(w');
    assert CleanSales(w');
  }

  lemma AdmitEffect(r: Registry, now: nat, tla: AccountId, name: Bytes, owner: AccountId, mainWallet: AccountId)
    requires Admit(r, now, tla, SubAccountKey(tla, name), owner, mainWallet).Ok?
    requires ValidName(name) && tla in r.tlas && r.tlas[tla].status == Active
    ensures var key := SubAccountKey(tla, name);
      var r' := Admit(r, now, tla, key, owner, mainWallet).value;
      && key in r'.subs && r'.subs[key].tlaId == tla && r'.subs[key].retractionAt.None? && Shaped(key, tla)
      && r' == r.(subs := r.subs[key := r'.subs[key]], counts := r'.counts)
  {}

  lemma RentKeeps(w: World, step: Step)
    requires Inv(w) && step.DoRent?
    ensures Inv(ApplyTenancy(w, step))
  {
    var w' := ApplyTenancy(w, step);
    if w' != w {
      AdmitEffect(w.registry, w.now, step.tla, step.name, step.caller, step.mainWallet);
      TenancyBeginsKeeps(w, w', SubAccountKey(step.tla, step.name));
    }
  }

  lemma RentPaidKeeps(w: World, step: Step)
    requires Inv(w) && step.DoRentPaid?
    ensures Inv(ApplyTenancy(w, step))
  {
    var w' := ApplyTenancy(w, step);
    if w' != w {
      AdmitEffect(w.registry, w.now, step.tla, step.name, step.caller, step.mainWallet);
      TenancyBeginsKeeps(w, w', SubAccountKey(step.tla, step.name));
    }
  }

  /** A sale begins on a sellable name: the lock is taken and nothing else moves. */
  ghost predicate SaleBegins(w: World, w': World, key: Bytes) {
    var r, r' := w.registry, w'.registry;
    && w'.now == w.now && w'.nextId == w.nextId + 1
    && w.nextId in w'.jobs && w'.jobs == w.jobs[w.nextId := w'.jobs[w.nextId]]
    && IsBuy(w'.jobs[w.nextId]) && KeyOf(w'.jobs[w.nextId]) == key
    && w'.clean == (if !HasTenancy(w, key) then w.clean + {w.nextId} else w.clean)
    && key in r.subs && !Doomed(w, key) && !Settling(r.board, key)
    && (forall k :: Settling(r'.board, k) <==> Settling(r.board, k) || k == key)
    && r'.config.graceNs == r.config.graceNs && r'.tlas == r.tlas && r'.subs == r.subs && r'.reclaimPending == r.reclaimPending
  }

  lemma SaleBeginsLocks(w: World, w': World, key: Bytes)
    requires Inv(w) && SaleBegins(w, w', key)
    ensures SaleLock(w') && ReclaimLock(w')
  {
    JobAdded(w, w');
    assert forall i, k :: ReclaimOf(w', i, k) <==> ReclaimOf(w, i, k);
    assert BuyOf(w', w.nextId, key);
    forall k ensures Settling(w'.registry.board, k) <==> exists i :: BuyOf(w', i, k) {
      assert Settling(w.registry.board, k) <==> exists i :: BuyOf(w, i, k);
      if Settling(w.registry.board, k) {
        var i :| BuyOf(w, i, k);
        assert BuyOf(w', i, k);
      }
    }
    forall k ensures k in w'.registry.reclaimPending <==> exists i :: ReclaimOf(w', i, k) {
      assert k in w.registry.reclaimPending <==> exists i :: ReclaimOf(w, i, k);
    }
  }

  lemma SaleBeginsKeeps(w: World, w': World, key: Bytes)
    requires Inv(w) && SaleBegins(w, w', key)
    ensures Inv(w')
  {
    JobAdded(w, w');
    forall k | k in w'.registry.subs ensures LeaseOk(w'.registry, k) { assert LeaseOk(w.registry, k); }
    SaleBeginsLocks(w, w', key);
    assert forall i, k :: TenancyOf(w', i, k) <==> TenancyOf(w, i, k);
    assert Apart(w');
    CleanAfterSale(w, w', key);
  }

  lemma CleanAfterSale(w: World, w': World, key: Bytes)
    requires Inv(w) && SaleBegins(w, w', key)
    ensures CleanSales(w')
  {
    JobAdded(w, w');
    forall i, k | i in w'.clean && BuyOf(w', i, k) ensures k in w'.registry.subs && forall j :: !TenancyOf(w', j, k) {
      if i == w.nextId {
        assert i !in w.clean && !HasTenancy(w, key);
        forall j ensures !TenancyOf(w', j, k) {
          assert TenancyOf(w, j, k) ==> j in w.jobs.Keys;
        }
      } else {
        assert BuyOf(w, i, k);
      }
    }
  }

  lemma LockSaleEffect(b: Board, key: Bytes, buyer: AccountId, deposit: Option<nat>)
    requires LockSale(b, key, buyer, deposit).Ok?
    ensures forall k :: Settling(LockSale(b, key, buyer, deposit).value.0, k) <==> Settling(b, k) || k == key
  {}

  lemma StartSaleEffect(w: World, tla: AccountId, key: Bytes, buyer: AccountId, newKey: PublicKey, deposit: nat,
                        operator: Option<AccountId>, isMother: bool, attached: nat)
    requires Ids(w)
    requires StartSale(w.registry, w.now, tla, key, buyer, newKey, deposit, operator, isMother).Ok?
    ensures SaleBegins(w, Starting(w, attached, StartSale(w.registry, w.now, tla, key, buyer, newKey, deposit, operator, isMother)), key)
  {
    var lockDeposit := if operator.None? then Some(deposit) else None;
    LockSaleEffect(w.registry.board, key, buyer, lockDeposit);
    if Doomed(w, key) { DoomedIsNotSellable(w, tla, key, isMother); }
  }

  lemma BuyIsSale(w: World, step: Step)
    requires step.DoBuy?
    ensures var o := StartSale(w.registry, w.now, step.tla, SubAccountKey(step.tla, step.name), step.caller, step.newKey,
                               step.attached, None, step.isMother);
      ApplyTrade(w, step) == w || (o.Ok? && ApplyTrade(w, step) == Starting(w, step.attached, o))
  {}

  lemma BuyKeeps(w: World, step: Step)
    requires Inv(w) && step.DoBuy?
    ensures Inv(ApplyTrade(w, step))
  {
    var key := SubAccountKey(step.tla, step.name);
    var o := StartSale(w.registry, w.now, step.tla, key, step.caller, step.newKey, step.attached, None, step.isMother);
    var w' := ApplyTrade(w, step);
    BuyIsSale(w, step);
    if w' != w {
      StartSaleEffect(w, step.tla, key, step.caller, step.newKey, step.attached, None, step.isMother, step.attached);
      SaleBeginsKeeps(w, w', key);
    }
  }

  lemma BuyPaidIsSale(w: World, step: Step)
    requires step.DoBuyPaid?
    ensures var o := StartSale(w.registry, w.now, step.tla, SubAccountKey(step.tla, step.name), step.buyer, step.newKey,
                               0, Some(step.caller), step.isMother);
      ApplyTrade(w, step) == w || (o.Ok? && ApplyTrade(w, step) == Starting(w, 0, o))
  {}

  lemma BuyPaidKeeps(w: World, step: Step)
    requires Inv(w) && step.DoBuyPaid?
    ensures Inv(ApplyTrade(w, step))
  {
    var key := SubAccountKey(step.tla, step.name);
    var o := StartSale(w.registry, w.now, step.tla, key, step.buyer, step.newKey, 0, Some(step.caller), step.isMother);
    var w' := ApplyTrade(w, step);
    BuyPaidIsSale(w, step);
    if w' != w {
      StartSaleEffect(w, step.tla, key, step.buyer, step.newKey, 0, Some(step.caller), step.isMother, 0);
      SaleBeginsKeeps(w, w', key);
    }
  }

  /** A reclaim begins on a doomed, idle name with no mint pending. */
  ghost predicate ReclaimBegins(w: World, w': World, key: Bytes) {
    var r, r' := w.registry, w'.registry;
    && w'.now == w.now && w'.nextId == w.nextId + 1 && w'.clean == w.clean
    && w.nextId in w'.jobs && w'.jobs == w.jobs[w.nextId := w'.jobs[w.nextId]]
    && IsReclaim(w'.jobs[w.nextId]) && KeyOf(w'.jobs[w.nextId]) == key
    && Doomed(w, key) && r.subs[key].tlaId == TlaOf(w'.jobs[w.nextId])
    && !Settling(r.board, key) && key !in r.reclaimPending && (forall i :: !TenancyOf(w, i, key))
    && r' == r.(reclaimPending := r.reclaimPending + {key})
  }

  lemma ReclaimBeginsKeeps(w: World, w': World, key: Bytes)
    requires Inv(w) && ReclaimBegins(w, w', key)
    ensures Inv(w')
  {
    JobAdded(w, w');
    forall k | k in w'.registry.subs ensures LeaseOk(w'.registry, k) { assert LeaseOk(w.registry, k); }
    assert forall i, k :: BuyOf(w', i, k) <==> BuyOf(w, i, k);
    assert forall i, k :: TenancyOf(w', i, k) <==> TenancyOf(w, i, k);
    assert ReclaimOf(w', w.nextId, key);
    forall k ensures Settling(w'.registry.board, k) <==> exists i :: BuyOf(w', i, k) {
      assert Settling(w.registry.board, k) <==> exists i :: BuyOf(w, i, k);
    }
    forall k ensures k in w'.registry.reclaimPending <==> exists i :: ReclaimOf(w', i, k) {
      assert k in w.registry.reclaimPending <==> exists i :: ReclaimOf(w, i, k);
      if k in w.registry.reclaimPending {
        var i :| ReclaimOf(w, i, k);
        assert ReclaimOf(w', i, k);
      }
    }
  }

  lemma ReclaimableIsDoomed(w: World, tla: AccountId, key: Bytes, isMother: bool)
    requires Leases(w.registry) && ResolveReclaimable(w.registry, w.now, tla, key, isMother).Ok?
    ensures Doomed(w, key) && w.registry.subs[key].tlaId == tla
  {
    assert LeaseOk(w.registry, key);
  }

  lemma ReclaimStarts(w: World, step: Step)
    requires step.DoReclaim? && ApplyTenancy(w, step) != w
    ensures var w', key := ApplyTenancy(w, step), SubAccountKey(step.tla, step.name);
      && w'.now == w.now && w'.nextId == w.nextId + 1 && w'.clean == w.clean
      && w.nextId in w'.jobs && w'.jobs == w.jobs[w.nextId := w'.jobs[w.nextId]]
      && IsReclaim(w'.jobs[w.nextId]) && KeyOf(w'.jobs[w.nextId]) == key && TlaOf(w'.jobs[w.nextId]) == step.tla
      && !Settling(w.registry.board, key) && key !in w.registry.reclaimPending
      && ResolveReclaimable(w.registry, w.now, step.tla, key, step.isMother).Ok?
      && w'.registry == w.registry.(reclaimPending := w.registry.reclaimPending + {key})
  {}

  lemma ReclaimableHasNoMint(w: World, tla: AccountId, key: Bytes, isMother: bool, i: nat)
    requires Inv(w) && Timely(w) && ResolveReclaimable(w.registry, w.now, tla, key, isMother).Ok?
    ensures !TenancyOf(w, i, key)
  {}

  lemma ReclaimKeeps(w: World, step: Step)
    requires Inv(w) && Timely(w) && step.DoReclaim?
    ensures Inv(ApplyTenancy(w, step))
  {
    var key := SubAccountKey(step.tla, step.name);
    var w' := ApplyTenancy(w, step);
    if w' != w {
      ReclaimStarts(w, step);
      ReclaimableIsDoomed(w, step.tla, key, step.isMother);
      forall i ensures !TenancyOf(w, i, key) { ReclaimableHasNoMint(w, step.tla, key, step.isMother, i); }
      ReclaimBeginsKeeps(w, w', key);
    }
  }

  // ----- a chain on its way -----

  /** A job moved to another stage, or one that held no lock ended; only money and signer marks changed with it. */
  lemma JobMovesKeeps(w: World, w': World)
    requires Inv(w) && w'.now == w.now && w'.clean == w.clean && w'.nextId == w.nextId
    requires SameLocksAndLeases(w.registry, w'.registry)
    requires forall i :: i in w'.jobs ==> i in w.jobs && SameRole(w.jobs[i], w'.jobs[i])
    requires forall i :: Locking(w.jobs, i) ==> i in w'.jobs
    ensures Inv(w')
  {
    assert SameJobs(w, w');
    UntouchedKeeps(w, w');
  }

  lemma MintMovesKeeps(u: S.Authorities, w: World, id: nat, c: Choice)
    requires Inv(w) && id in w.jobs && w.jobs[id].Mint? && !w.jobs[id].mint.Reported?
    ensures Inv(AdvanceJob(u, w, id, c))
  {
    JobMovesKeeps(w, AdvanceJob(u, w, id, c));
  }

  lemma PassKeeps(u: S.Authorities, w: World, id: nat, c: Choice)
    requires Inv(w) && id in w.jobs && w.jobs[id].Chain? && !w.jobs[id].stage.Gate? && !w.jobs[id].stage.Answered?
    ensures Inv(AdvanceJob(u, w, id, c))
  {
    JobMovesKeeps(w, AdvanceJob(u, w, id, c));
  }

  lemma GatePassKeeps(u: S.Authorities, w: World, id: nat, c: Choice)
    requires Inv(w) && id in w.jobs && w.jobs[id].Chain? && w.jobs[id].stage.Gate? && AfterGate(w, w.jobs[id].task, c).0.Some?
    ensures Inv(AdvanceJob(u, w, id, c))
  {
    JobMovesKeeps(w, AdvanceJob(u, w, id, c));
  }

  lemma PayoutKeeps(u: S.Authorities, w: World, id: nat, c: Choice)
    requires Inv(w) && id in w.jobs && w.jobs[id].Payout?
    ensures Inv(AdvanceJob(u, w, id, c))
  {
    JobMovesKeeps(w, AdvanceJob(u, w, id, c));
  }

  lemma RetryEndKeeps(w: World, id: nat, r: Registry)
    requires Inv(w) && id in w.jobs && w.jobs[id].Chain? && w.jobs[id].task.Retry? && SameLocksAndLeases(w.registry, r)
    ensures Inv(Finish(w, r, id))
  {
    JobMovesKeeps(w, Finish(w, r, id));
  }

  // ----- releasing a lock -----

  lemma JobRemoved(w: World, w': World, id: nat)
    requires id in w.jobs && w'.jobs == w.jobs - {id}
    ensures forall i, k :: BuyOf(w', i, k) <==> i != id && BuyOf(w, i, k)
    ensures forall i, k :: ReclaimOf(w', i, k) <==> i != id && ReclaimOf(w, i, k)
    ensures forall i, k :: TenancyOf(w', i, k) <==> i != id && TenancyOf(w, i, k)
  {}

  /** A mint or re-rent ends, with its entry kept or gone. */
  ghost predicate TenancyEnds(w: World, w': World, id: nat) {
    var r, r' := w.registry, w'.registry;
    && id in w.jobs && Tenancy(w.jobs[id]) && w'.jobs == w.jobs - {id}
    && w'.now == w.now && w'.clean == w.clean && w'.nextId == w.nextId
    && (r'.subs == r.subs || r'.subs == r.subs - {KeyOf(w.jobs[id])})
    && r'.config.graceNs == r.config.graceNs && r'.tlas == r.tlas && r'.board == r.board
    && r'.reclaimPending == r.reclaimPending
  }

  lemma TenancyEndsKeeps(w: World, w': World, id: nat)
    requires Inv(w) && TenancyEnds(w, w', id)
    ensures Inv(w')
  {
    var key := KeyOf(w.jobs[id]);
    assert TenancyOf(w, id, key);
    JobRemoved(w, w', id);
    assert Leases(w'.registry) by {
      forall k | k in w'.registry.subs ensures LeaseOk(w'.registry, k) { assert LeaseOk(w.registry, k); }
    }
    TenancyEndsLocks(w, w', id);
    assert forall i, k :: TenancyOf(w', i, k) ==> k != key;
    assert forall i :: i in w.clean ==> !BuyOf(w, i, key);
    assert CleanSales(w');
  }

  lemma TenancyEndsLocks(w: World, w': World, id: nat)
    requires Inv(w) && TenancyEnds(w, w', id)
    ensures SaleLock(w') && ReclaimLock(w')
  {
    var key := KeyOf(w.jobs[id]);
    assert TenancyOf(w, id, key);
    JobRemoved(w, w', id);
    assert forall i, k :: BuyOf(w', i, k) <==> BuyOf(w, i, k);
    assert forall i, k :: ReclaimOf(w', i, k) <==> ReclaimOf(w, i, k);
    forall k ensures Settling(w'.registry.board, k) <==> exists i :: BuyOf(w', i, k) {
      assert Settling(w.registry.board, k) <==> exists i :: BuyOf(w, i, k);
    }
    forall k ensures k in w'.registry.reclaimPending <==> exists i :: ReclaimOf(w', i, k) {
      assert k in w.registry.reclaimPending <==> exists i :: ReclaimOf(w, i, k);
    }
    forall i, k | ReclaimOf(w', i, k) ensures Doomed(w', k) && w'.registry.subs[k].tlaId == TlaOf(w'.jobs[i]) {
      assert ReclaimOf(w, i, k) && Doomed(w, k);
      assert !TenancyOf(w, id, k);
    }
  }

  /** A sale ends: its lock is gone, every entry is still there under its TLA and with its dates. */
  ghost predicate SaleEnds(w: World, w': World, id: nat) {
    var r, r' := w.registry, w'.registry;
    && id in w.jobs && IsBuy(w.jobs[id]) && w'.jobs == w.jobs - {id}
    && w'.now == w.now && w'.clean == w.clean && w'.nextId == w.nextId
    && (forall k :: k in r'.subs <==> k in r.subs)
    && (forall k :: k in r.subs ==> r'.subs[k].tlaId == r.subs[k].tlaId && r'.subs[k].expiresAt == r.subs[k].expiresAt &&
                                    r'.subs[k].retractionAt == r.subs[k].retractionAt)
    && (forall k :: Settling(r'.board, k) <==> Settling(r.board, k) && k != KeyOf(w.jobs[id]))
    && r'.config.graceNs == r.config.graceNs && r'.tlas == r.tlas && r'.reclaimPending == r.reclaimPending
  }

  lemma SaleEndsKeeps(w: World, w': World, id: nat)
    requires Inv(w) && SaleEnds(w, w', id)
    ensures Inv(w')
  {
    var key := KeyOf(w.jobs[id]);
    assert BuyOf(w, id, key);
    JobRemoved(w, w', id);
    forall k | k in w'.registry.subs ensures LeaseOk(w'.registry, k) && (Doomed(w, k) ==> Doomed(w', k)) {
      assert LeaseOk(w.registry, k);
    }
    forall k ensures Settling(w'.registry.board, k) <==> exists i :: BuyOf(w', i, k) {
      assert Settling(w.registry.board, k) <==> exists i :: BuyOf(w, i, k);
      if Settling(w'.registry.board, k) {
        var i :| BuyOf(w, i, k);
        assert BuyOf(w', i, k);
      }
    }
    forall k ensures k in w'.registry.reclaimPending <==> exists i :: ReclaimOf(w', i, k) {
      assert k in w.registry.reclaimPending <==> exists i :: ReclaimOf(w, i, k);
      if k in w.registry.reclaimPending {
        var i :| ReclaimOf(w, i, k);
        assert ReclaimOf(w', i, k);
      }
    }
  }

  /** A reclaim ends: called off, or the entry and everything on sale under its name is gone. */
  ghost predicate ReclaimEnds(w: World, w': World, id: nat) {
    && id in w.jobs && IsReclaim(w.jobs[id]) && w'.jobs == w.jobs - {id}
    && var r, r', key := w.registry, w'.registry, KeyOf(w.jobs[id]);
    && w'.now == w.now && w'.clean == w.clean && w'.nextId == w.nextId
    && r'.config.graceNs == r.config.graceNs && r'.tlas == r.tlas && r'.reclaimPending == r.reclaimPending - {key}
    && ((r'.subs == r.subs && r'.board == r.board) ||
        (r'.subs == r.subs - {key} && r'.board == Board(r.board.listings - {key}, r.board.offers - {key})))
  }

  lemma ReclaimEndsKeeps(w: World, w': World, id: nat)
    requires Inv(w) && ReclaimEnds(w, w', id)
    ensures Inv(w')
  {
    var key := KeyOf(w.jobs[id]);
    assert ReclaimOf(w, id, key);
    JobRemoved(w, w', id);
    assert Leases(w'.registry) by {
      forall k | k in w'.registry.subs ensures LeaseOk(w'.registry, k) { assert LeaseOk(w.registry, k); }
    }
    ReclaimEndsLocks(w, w', id);
    assert forall i :: !BuyOf(w, i, key) && !TenancyOf(w, i, key);
    assert TenancyLock(w') && Apart(w') && CleanSales(w');
  }

  lemma ReclaimEndsLocks(w: World, w': World, id: nat)
    requires Inv(w) && ReclaimEnds(w, w', id)
    ensures SaleLock(w') && ReclaimLock(w')
  {
    var key := KeyOf(w.jobs[id]);
    assert ReclaimOf(w, id, key);
    JobRemoved(w, w', id);
    assert forall i :: !BuyOf(w, i, key);
    assert forall i, k :: BuyOf(w', i, k) <==> BuyOf(w, i, k);
    forall k ensures Settling(w'.registry.board, k) <==> exists i :: BuyOf(w', i, k) {
      assert Settling(w.registry.board, k) <==> exists i :: BuyOf(w, i, k);
      if k != key { assert Settling(w'.registry.board, k) <==> Settling(w.registry.board, k); }
    }
    forall k ensures k in w'.registry.reclaimPending <==> exists i :: ReclaimOf(w', i, k) {
      assert k in w.registry.reclaimPending <==> exists i :: ReclaimOf(w, i, k);
      if k in w'.registry.reclaimPending {
        var i :| ReclaimOf(w, i, k);
        assert ReclaimOf(w', i, k);
      }
    }
    forall i, k | ReclaimOf(w', i, k) ensures Doomed(w', k) && w'.registry.subs[k].tlaId == TlaOf(w'.jobs[i]) {
      assert ReclaimOf(w, i, k) && Doomed(w, k);
      assert ReclaimOf(w, id, k) ==> i == id;
      assert k != key;
    }
  }

  // ----- every way a job can end -----

  lemma ClearSettlingEffect(b: Board, key: Bytes)
    ensures forall k :: Settling(ClearSettling(b, key), k) <==> Settling(b, k) && k != key
  {}

  lemma BuyEnds(w: World, id: nat, r: Registry)
    requires id in w.jobs && IsBuy(w.jobs[id])
    requires r == CancelSale(w.registry, w.jobs[id].task) ||
             (w.jobs[id].task.key in w.registry.subs && r == CompleteSale(w.registry, w.jobs[id].task))
    ensures SaleEnds(w, Finish(w, r, id), id)
  {
    ClearSettlingEffect(w.registry.board, w.jobs[id].task.key);
  }

  lemma BuyEndKeeps(w: World, id: nat, r: Registry)
    requires Inv(w) && id in w.jobs && IsBuy(w.jobs[id])
    requires r == CancelSale(w.registry, w.jobs[id].task) ||
             (w.jobs[id].task.key in w.registry.subs && r == CompleteSale(w.registry, w.jobs[id].task))
    ensures Inv(Finish(w, r, id))
  {
    BuyEnds(w, id, r);
    SaleEndsKeeps(w, Finish(w, r, id), id);
  }

  lemma MintEnds(u: S.Authorities, w: World, id: nat, c: Choice)
    requires id in w.jobs && w.jobs[id].Mint? && w.jobs[id].mint.Reported?
    ensures TenancyEnds(w, AdvanceJob(u, w, id, c), id)
  {}

  lemma MintEndKeeps(u: S.Authorities, w: World, id: nat, c: Choice)
    requires Inv(w) && id in w.jobs && w.jobs[id].Mint? && w.jobs[id].mint.Reported?
    ensures Inv(AdvanceJob(u, w, id, c))
  {
    MintEnds(u, w, id, c);
    TenancyEndsKeeps(w, AdvanceJob(u, w, id, c), id);
  }

  lemma ReRentEndKeeps(w: World, id: nat, r: Registry)
    requires Inv(w) && id in w.jobs && w.jobs[id].Chain? && w.jobs[id].task.ReRent?
    requires var t := w.jobs[id].task;
      r == FailTenancy(w.registry, t.key, t.tla, t.payer, t.attached) || exists result :: r == OnReRented(w.registry, t, result)
    ensures Inv(Finish(w, r, id))
  {
    TenancyEndsKeeps(w, Finish(w, r, id), id);
  }

  lemma ReclaimEndKeeps(w: World, id: nat, r: Registry)
    requires Inv(w) && id in w.jobs && IsReclaim(w.jobs[id])
    requires var t := w.jobs[id].task;
      r == ReleaseReclaim(w.registry, t.key) || exists result :: r == OnReclaimed(w.registry, w.now, t, result)
    ensures Inv(Finish(w, r, id))
  {
    ReclaimEndsKeeps(w, Finish(w, r, id), id);
  }

  lemma GateEndKeeps(u: S.Authorities, w: World, id: nat, c: Choice)
    requires Inv(w) && id in w.jobs && w.jobs[id].Chain? && w.jobs[id].stage.Gate? && AfterGate(w, w.jobs[id].task, c).0.None?
    ensures Inv(AdvanceJob(u, w, id, c))
  {
    var t := w.jobs[id].task;
    match t
    case Retry(_, _) => RetryEndKeeps(w, id, w.registry);
    case Buy(_, _, _, _, _, _, _, _) => BuyEndKeeps(w, id, CancelSale(w.registry, t));
    case ReRent(_, _, _, _, _, _) => ReRentEndKeeps(w, id, FailTenancy(w.registry, t.key, t.tla, t.payer, t.attached));
    case Reclaim(_, _) => ReclaimEndKeeps(w, id, ReleaseReclaim(w.registry, t.key));
  }

  lemma AnswerKeeps(w: World, id: nat, t: Task, result: CallResult)
    requires Inv(w) && id in w.jobs && w.jobs[id].Chain? && w.jobs[id].task == t
    ensures Inv(Finish(w, Settle(w, t, result), id))
  {
    match t
    case Retry(_, _) => RetryEndKeeps(w, id, Settle(w, t, result));
    case Buy(_, _, _, _, _, _, _, _) => BuyEndKeeps(w, id, OnSold(w.registry, t, result));
    case ReRent(_, _, _, _, _, _) => ReRentEndKeeps(w, id, OnReRented(w.registry, t, result));
    case Reclaim(_, _) => ReclaimEndKeeps(w, id, OnReclaimed(w.registry, w.now, t, result));
  }

  lemma AdvanceKeeps(u: S.Authorities, w: World, id: nat, c: Choice)
    requires Inv(w)
    ensures Inv(AdvanceJob(u, w, id, c))
  {
    if id in w.jobs {
      match w.jobs[id]
      case Mint(_, _, _, _, _, _, _, _, stage) =>
        if stage.Reported? { MintEndKeeps(u, w, id, c); } else { MintMovesKeeps(u, w, id, c); }
      case Chain(t, stage) =>
        if stage.Answered? {
          AnswerKeeps(w, id, t, stage.result);
        } else if stage.Gate? && AfterGate(w, t, c).0.None? {
          GateEndKeeps(u, w, id, c);
        } else if stage.Gate? {
          GatePassKeeps(u, w, id, c);
        } else {
          PassKeeps(u, w, id, c);
        }
      case Verify(_, _, _, _, _) => VerifyKeeps(u, w, id, c);
      case Payout(_, _) => PayoutKeeps(u, w, id, c);
    }
  }

  // ----- every step, every run -----

  lemma EnvironmentCallKeeps(w: World, step: Step)
    requires Inv(w) && !Override(step)
    ensures Inv(ApplyEnvironment(w, step))
  {
    match step
    case Tick(_) => EnvironmentKeeps(w, step);
    case SignersChange(_) => EnvironmentKeeps(w, step);
    case Receive(_) => EnvironmentKeeps(w, step);
    case Configure(_, _, _, _, _) => EnvironmentKeeps(w, step);
    case SetBusinessCap(_, _) => EnvironmentKeeps(w, step);
    case DoUpdateFees(_, _) => UpdateFeesKeeps(w, step);
    case _ =>
  }

  lemma TlaCallKeeps(w: World, step: Step)
    requires Inv(w)
    ensures Inv(ApplyTla(w, step))
  {
    match step
    case DoRegisterTla(_, _, _, _, _) => RegisterKeeps(w, step);
    case DoActivateOpenTla(_, _) => ActivateOpenKeeps(w, step);
    case DoActivateTla(_, _, _) => ActivateKeeps(w, step);
    case DoRenewTla(_, _, _) => RenewTlaKeeps(w, step);
    case DoSuspendTla(_, _) => SuspendKeeps(w, step);
    case DoUnsuspendTla(_, _) => SuspendKeeps(w, step);
    case _ =>
  }

  lemma LeaseCallKeeps(w: World, step: Step)
    requires Inv(w) && Level(w.registry)
    ensures Inv(ApplyLease(w, step))
  {
    match step
    case DoRenewSub(_, _, _, _) => RenewSubKeeps(w, step);
    case DoSetMainWallet(_, _, _, _, _) => SetMainWalletKeeps(w, step);
    case DoScheduleRetraction(_, _, _, _) => ScheduleKeeps(w, step);
    case DoCancelRetraction(_, _, _, _) => CancelRetractionKeeps(w, step);
    case _ =>
  }

  lemma TenancyCallKeeps(w: World, step: Step)
    requires Inv(w) && Timely(w)
    ensures Inv(ApplyTenancy(w, step))
  {
    match step
    case DoRent(_, _, _, _, _, _) => RentKeeps(w, step);
    case DoRentPaid(_, _, _, _, _, _) => RentPaidKeeps(w, step);
    case DoRetryInstall(_, _, _) => RetryKeeps(w, step);
    case DoReclaim(_, _, _, _) => ReclaimKeeps(w, step);
    case _ =>
  }

  lemma TradeCallKeeps(w: World, step: Step)
    requires Inv(w)
    ensures Inv(ApplyTrade(w, step))
  {
    match step
    case DoListOrOffer(_, _, _, _, _, _, _, _) => ListKeeps(w, step);
    case DoUnlist(_, _, _, _) => UnlistKeeps(w, step);
    case DoRevokeOffer(_, _, _, _) => RevokeKeeps(w, step);
    case DoBuy(_, _, _, _, _, _) => BuyKeeps(w, step);
    case DoBuyPaid(_, _, _, _, _, _) => BuyPaidKeeps(w, step);
    case _ =>
  }

  lemma MoneyCallKeeps(w: World, step: Step)
    requires Inv(w)
    ensures Inv(ApplyMoney(w, step))
  {
    match step
    case DoSweepFt(_, _, _, _, _, _) => SweepKeeps(w, step);
    case DoClaimRefund(_, _) => ClaimKeeps(w, step);
    case DoWithdraw(_, _, _, _) => WithdrawKeeps(w, step);
    case _ =>
  }

  lemma StepKeeps(u: S.Authorities, w: World, step: Step)
    requires Inv(w) && Calm(w) && !Override(step)
    ensures Inv(Apply(u, w, step))
  {
    if step.Advance? {
      AdvanceKeeps(u, w, step.id, step.choice);
    } else if OfEnvironment(step) {
      EnvironmentCallKeeps(w, step);
    } else if OfTlas(step) {
      TlaCallKeeps(w, step);
    } else if OfLeases(step) {
      LeaseCallKeeps(w, step);
    } else if OfTenancies(step) {
      TenancyCallKeeps(w, step);
    } else if OfTrade(step) {
      TradeCallKeeps(w, step);
    } else {
      MoneyCallKeeps(w, step);
    }
  }

  lemma {:induction false} RunKeeps(u: S.Authorities, w: World, steps: seq<Step>)
    requires Fresh(w) && CalmRun(u, w, steps)
    ensures Inv(Run(u, w, steps))
  {
    if steps != [] {
      RunKeeps(u, w, steps[..|steps| - 1]);
      StepKeeps(u, Run(u, w, steps[..|steps| - 1]), steps[|steps| - 1]);
    }
  }

  /** No name is being sold and reclaimed at once, and `settling` is set exactly while its one buy is in flight. */
  lemma SaleAndReclaimExclude(u: S.Authorities, w0: World, steps: seq<Step>, k: Bytes)
    requires Fresh(w0) && CalmRun(u, w0, steps)
    ensures var w := Run(u, w0, steps);
      && !((exists i :: BuyOf(w, i, k)) && (exists j :: ReclaimOf(w, j, k)))
      && (Settling(w.registry.board, k) <==> exists i :: BuyOf(w, i, k))
      && (k in w.registry.reclaimPending <==> exists i :: ReclaimOf(w, i, k))
      && (forall i, j :: BuyOf(w, i, k) && BuyOf(w, j, k) ==> i == j)
      && (forall i, j :: ReclaimOf(w, i, k) && ReclaimOf(w, j, k) ==> i == j)
  {
    RunKeeps(u, w0, steps);
  }
}
