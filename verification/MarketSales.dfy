/**
 A sale is all or nothing across the registry, hos-extension and active-signer: the registry books
 it exactly when the key moved from the listed owner to the buyer.
 */
module MarketSales {
  import opened Types
  import opened Fees
  import opened RegistryTypes
  import opened RegistryRules
  import opened Market
  import Locks = MarketLocks
  import opened MarketSolvency
  import opened MarketLedger
  import S = SignerRules

  /** The key change a sale asks for. */
  function SaleMove(id: nat, t: Task): Move
    requires t.Buy?
  {
    Move(id, t.key, Some(t.ownerKey), t.newKey)
  }

  predicate Answering(stage: Stage) {
    stage.Swapped? || stage.Answered?
  }

  /** The chain set a key. */
  ghost predicate Moved(moves: seq<Move>, id: nat) {
    exists i :: 0 <= i < |moves| && moves[i].id == id
  }

  /** The key a chain asks for, and the key it expects to replace, are those of its task. */
  predicate Asks(t: Task, stage: Stage) {
    match stage
    case Gate => true
    case AtExtension(newKey, expected) => AsksFor(t, newKey) && expected == (if t.Buy? then Some(t.ownerKey) else None)
    case AtSigner(newKey, expected) =>
      newKey.Ed25519? && AsksFor(t, newKey) && expected == (if t.Buy? then Some(t.ownerKey) else None)
    case AtManager(_) => t.Reclaim? || t.Retry?
    case Swapped(newKey, _) => AsksFor(t, newKey)
    case Answered(newKey, _) => AsksFor(t, newKey)
  }

  predicate AsksFor(t: Task, newKey: PublicKey) {
    (t.Buy? ==> newKey == t.newKey) && (t.ReRent? ==> newKey == t.ownerKey)
  }

  /** What a chain in flight says about the key agrees with what happened to the key. */
  ghost predicate Truthful(moves: seq<Move>, id: nat, t: Task, stage: Stage) {
    && Asks(t, stage)
    && (Moved(moves, id) <==> Answering(stage) && stage.result == Returned(true))
    && (forall i :: 0 <= i < |moves| && moves[i].id == id ==>
          && moves[i].wallet == t.key && Answering(stage) && moves[i].to == stage.newKey
          && (t.Buy? ==> moves[i] == SaleMove(id, t)))
  }

  /** A buyer who pays for himself covers the price; an operator pays elsewhere. */
  predicate Funded(t: Task) {
    t.Buy? ==> if t.operator.None? then t.price <= t.deposit else t.deposit == 0
  }

  ghost predicate OneEach(moves: seq<Move>) {
    forall i, j :: 0 <= i < |moves| && 0 <= j < |moves| && moves[i].id == moves[j].id ==> i == j
  }

  ghost predicate Story(w: World) {
    && (forall i :: i in w.jobs ==> i < w.nextId)
    && (forall i :: 0 <= i < |w.moves| ==> w.moves[i].id < w.nextId)
    && OneEach(w.moves)
    && (forall i :: i in w.jobs && w.jobs[i].Chain? ==>
          Truthful(w.moves, i, w.jobs[i].task, w.jobs[i].stage) && Funded(w.jobs[i].task))
  }

  // ----- calls -----

  /** A job as it is when the registry dispatches it. */
  predicate JustBegun(j: Job) {
    j.Chain? ==> Asks(j.task, j.stage) && !Answering(j.stage) && Funded(j.task)
  }

  ghost predicate Dispatches(w: World, w': World) {
    && w'.moves == w.moves
    && (|| (w'.jobs == w.jobs && w'.nextId == w.nextId)
        || (w'.nextId == w.nextId + 1 && w.nextId in w'.jobs && w'.jobs == w.jobs[w.nextId := w'.jobs[w.nextId]] &&
            JustBegun(w'.jobs[w.nextId])))
  }

  lemma DispatchKeeps(w: World, w': World)
    requires Story(w) && Dispatches(w, w')
    ensures Story(w')
  {
    forall i | i in w'.jobs && w'.jobs[i].Chain?
      ensures Truthful(w'.moves, i, w'.jobs[i].task, w'.jobs[i].stage) && Funded(w'.jobs[i].task)
    {
      if i in w.jobs { assert w'.jobs[i] == w.jobs[i]; }
    }
  }

  lemma StartingDispatches(w: World, attached: nat, o: Result<(Registry, Job)>)
    requires o.Ok? ==> JustBegun(o.value.1)
    ensures Dispatches(w, Starting(w, attached, o))
  {}

  lemma RentBegins(r: Registry, c: Call, tla: AccountId, name: Bytes, ownerKey: PublicKey, mainWallet: AccountId)
    requires Rent(r, c, tla, name, ownerKey, mainWallet).Ok?
    ensures JustBegun(Rent(r, c, tla, name, ownerKey, mainWallet).value.1)
  {}

  lemma RentDispatches(w: World, step: Step)
    requires step.DoRent?
    ensures Dispatches(w, ApplyTenancy(w, step))
  {
    var c := Call(step.caller, step.attached, w.now);
    var o := Rent(w.registry, c, step.tla, step.name, step.ownerKey, step.mainWallet);
    if o.Ok? { RentBegins(w.registry, c, step.tla, step.name, step.ownerKey, step.mainWallet); }
    StartingDispatches(w, step.attached, o);
  }

  lemma RentPaidDispatches(w: World, step: Step)
    requires step.DoRentPaid?
    ensures Dispatches(w, ApplyTenancy(w, step))
  {
    var c := Call(step.caller, step.attached, w.now);
    StartingDispatches(w, step.attached, RentPaid(w.registry, c, step.tla, step.name, step.ownerKey, step.mainWallet));
  }

  lemma BuyDispatches(w: World, step: Step)
    requires step.DoBuy?
    ensures Dispatches(w, ApplyTrade(w, step))
  {
    var c := Call(step.caller, step.attached, w.now);
    StartingDispatches(w, step.attached, BuySub(w.registry, c, step.tla, step.name, step.newKey, step.isMother));
  }

  lemma BuyPaidDispatches(w: World, step: Step)
    requires step.DoBuyPaid?
    ensures Dispatches(w, ApplyTrade(w, step))
  {
    StartingDispatches(w, 0, BuySubPaid(w.registry, Call(step.caller, 0, w.now), step.tla, step.name, step.buyer, step.newKey, step.isMother));
  }

  lemma ReclaimDispatches(w: World, step: Step)
    requires step.DoReclaim?
    ensures Dispatches(w, ApplyTenancy(w, step))
  {
    StartingDispatches(w, 0, ReclaimFinalize(w.registry, Call(step.caller, 0, w.now), step.tla, step.name, step.isMother));
  }

  lemma ClaimDispatches(w: World, step: Step)
    requires step.DoClaimRefund?
    ensures Dispatches(w, ApplyMoney(w, step))
  {
    StartingDispatches(w, 0, ClaimRefund(w.registry, step.caller, SatSub(w.balance, step.reserve)));
  }

  lemma ListDispatches(w: World, step: Step)
    requires step.DoListOrOffer?
    ensures Dispatches(w, ApplyTrade(w, step))
  {}

  lemma RetryDispatches(w: World, step: Step)
    requires step.DoRetryInstall?
    ensures Dispatches(w, ApplyTenancy(w, step))
  {}

  lemma EnvironmentCallDispatches(w: World, step: Step)
    ensures Dispatches(w, ApplyEnvironment(w, step))
  {
    match step
    case _ =>
  }

  lemma TlaCallDispatches(w: World, step: Step)
    ensures Dispatches(w, ApplyTla(w, step))
  {
    match step
    case _ =>
  }

  lemma LeaseCallDispatches(w: World, step: Step)
    ensures Dispatches(w, ApplyLease(w, step))
  {
    match step
    case _ =>
  }

  lemma TenancyCallDispatches(w: World, step: Step)
    ensures Dispatches(w, ApplyTenancy(w, step))
  {
    match step
    case DoRent(_, _, _, _, _, _) => RentDispatches(w, step);
    case DoRentPaid(_, _, _, _, _, _) => RentPaidDispatches(w, step);
    case DoRetryInstall(_, _, _) => RetryDispatches(w, step);
    case DoReclaim(_, _, _, _) => ReclaimDispatches(w, step);
    case _ =>
  }

  lemma TradeCallDispatches(w: World, step: Step)
    ensures Dispatches(w, ApplyTrade(w, step))
  {
    match step
    case DoListOrOffer(_, _, _, _, _, _, _, _) => ListDispatches(w, step);
    case DoBuy(_, _, _, _, _, _) => BuyDispatches(w, step);
    case DoBuyPaid(_, _, _, _, _, _) => BuyPaidDispatches(w, step);
    case _ =>
  }

  lemma MoneyCallDispatches(w: World, step: Step)
    ensures Dispatches(w, ApplyMoney(w, step))
  {
    match step
    case DoClaimRefund(_, _) => ClaimDispatches(w, step);
    case _ =>
  }

  lemma CallDispatches(u: S.Authorities, w: World, step: Step)
    requires !step.Advance?
    ensures Dispatches(w, Apply(u, w, step))
  {
    if OfEnvironment(step) {
      EnvironmentCallDispatches(w, step);
    } else if OfTlas(step) {
      TlaCallDispatches(w, step);
    } else if OfLeases(step) {
      LeaseCallDispatches(w, step);
    } else if OfTenancies(step) {
      TenancyCallDispatches(w, step);
    } else if OfTrade(step) {
      TradeCallDispatches(w, step);
    } else {
      MoneyCallDispatches(w, step);
    }
  }

  // ----- receipts -----

  /** One job went on to another stage, or ended, and at most one move was added, under its own id. */
  ghost predicate Proceeds(w: World, w': World, id: nat) {
    && id in w.jobs && w'.nextId == w.nextId
    && (w'.moves == w.moves || (!Moved(w.moves, id) && |w'.moves| == |w.moves| + 1 && w'.moves[..|w.moves|] == w.moves &&
                                w'.moves[|w.moves|].id == id))
    && (forall i :: i in w'.jobs ==> i in w.jobs && (i != id ==> w'.jobs[i] == w.jobs[i]))
    && (id in w'.jobs && w'.jobs[id].Chain? ==>
          Truthful(w'.moves, id, w'.jobs[id].task, w'.jobs[id].stage) && Funded(w'.jobs[id].task))
  }

  lemma MovesGrow(moves: seq<Move>, moves': seq<Move>, id: nat)
    requires |moves'| == |moves| + 1 && moves'[..|moves|] == moves && moves'[|moves|].id == id
    ensures forall i :: 0 <= i < |moves| ==> moves'[i] == moves[i]
    ensures forall k :: k != id ==> (Moved(moves', k) <==> Moved(moves, k))
    ensures Moved(moves', id)
  {
    forall i | 0 <= i < |moves| ensures moves'[i] == moves[i] { assert moves'[..|moves|][i] == moves[i]; }
    forall k | k != id ensures Moved(moves', k) <==> Moved(moves, k) {
      if Moved(moves, k) {
        var i :| 0 <= i < |moves| && moves[i].id == k;
        assert moves'[i].id == k;
      }
      if Moved(moves', k) {
        var i :| 0 <= i < |moves'| && moves'[i].id == k;
        assert moves[i].id == k;
      }
    }
  }

  lemma ProceedsKeeps(w: World, w': World, id: nat)
    requires Story(w) && Proceeds(w, w', id)
    ensures Story(w')
  {
    if w'.moves != w.moves { MovesGrow(w.moves, w'.moves, id); }
    forall i | i in w'.jobs && w'.jobs[i].Chain?
      ensures Truthful(w'.moves, i, w'.jobs[i].task, w'.jobs[i].stage) && Funded(w'.jobs[i].task)
    {
      if i != id { assert Truthful(w.moves, i, w.jobs[i].task, w.jobs[i].stage); }
    }
  }

  /** The signer and manager steps add their move exactly when they answer that they did. */
  lemma PassStaysTruthful(u: S.Authorities, s: S.Signers, moves: seq<Move>, id: nat, t: Task, stage: Stage, c: Choice)
    requires Truthful(moves, id, t, stage) && !stage.Gate? && !stage.Answered?
    ensures var (next, _, moved) := ChainStep(u, s, id, t.tla, t.key, stage, c);
      && Truthful(moves + moved, id, t, next)
      && (moved == [] || (|moved| == 1 && moved[0].id == id && !Moved(moves, id)))
  {
    var (next, _, moved) := ChainStep(u, s, id, t.tla, t.key, stage, c);
    if moved == [] {
      assert moves + moved == moves;
    } else {
      MovesGrow(moves, moves + moved, id);
    }
  }

  lemma GateAsks(w: World, t: Task, c: Choice)
    requires AfterGate(w, t, c).0.Some?
    ensures Asks(t, AfterGate(w, t, c).0.value) && !Answering(AfterGate(w, t, c).0.value)
  {}

  lemma AdvanceProceeds(u: S.Authorities, w: World, id: nat, c: Choice)
    requires Story(w) && id in w.jobs
    ensures Proceeds(w, AdvanceJob(u, w, id, c), id)
  {
    var j := w.jobs[id];
    if j.Chain? {
      if !j.stage.Gate? && !j.stage.Answered? {
        PassStaysTruthful(u, w.signers, w.moves, id, j.task, j.stage, c);
      } else if j.stage.Gate? && AfterGate(w, j.task, c).0.Some? {
        GateAsks(w, j.task, c);
      }
    }
  }

  lemma StepKeeps(u: S.Authorities, w: World, step: Step)
    requires Story(w)
    ensures Story(Apply(u, w, step))
  {
    if !step.Advance? {
      CallDispatches(u, w, step);
      DispatchKeeps(w, Apply(u, w, step));
    } else if step.id in w.jobs {
      AdvanceProceeds(u, w, step.id, step.choice);
      ProceedsKeeps(w, AdvanceJob(u, w, step.id, step.choice), step.id);
    }
  }

  lemma {:induction false} RunKeeps(u: S.Authorities, w: World, steps: seq<Step>)
    requires Fresh(w)
    ensures Story(Run(u, w, steps))
  {
    if steps != [] {
      RunKeeps(u, w, steps[..|steps| - 1]);
      StepKeeps(u, Run(u, w, steps[..|steps| - 1]), steps[|steps| - 1]);
    }
  }

  // ----- settlement -----

  /** The buyer (or the operator that paid for him) owns the name, and everyone is paid to the last yocto. */
  ghost predicate Sold(r: Registry, r': Registry, t: Task)
    requires t.Buy?
  {
    && t.key in r.subs
    && r'.subs == r.subs[t.key := r.subs[t.key].(owner := if t.operator.Some? then t.operator.value else t.buyer, mainWallet := t.buyer)]
    && t.key !in r'.board.listings && t.key !in r'.board.offers
    && var (commission, proceeds) := SplitResale(t.price, r.config.fees.commissionBps);
       if t.operator.Some? then r'.money == r.money
       else
         && commission + proceeds == t.price
         && r'.money.revenue == r.money.revenue + commission
         && forall a :: PendingRefund(r'.money, a) == PendingRefund(r.money, a)
                                                       + (if a == r.subs[t.key].owner then proceeds else 0)
                                                       + (if a == t.buyer then t.deposit - t.price else 0)
  }

  /** The name stays whose it was, and the buyer alone is owed more: the whole deposit. */
  ghost predicate Unsold(r: Registry, r': Registry, t: Task)
    requires t.Buy?
  {
    && r'.subs == r.subs && r'.money.revenue == r.money.revenue
    && r'.board.listings.Keys == r.board.listings.Keys && r'.board.offers.Keys == r.board.offers.Keys
    && !Settling(r'.board, t.key)
    && forall a :: PendingRefund(r'.money, a) == PendingRefund(r.money, a) + if a == t.buyer then t.deposit else 0
  }

  lemma CancelEffect(r: Registry, t: Task)
    requires t.Buy? && Books(r.money) && Fits(CancelSale(r, t).money) && Funded(t)
    ensures Unsold(r, CancelSale(r, t), t)
  {
    if t.operator.None? { AddRefundEffect(r.money, t.buyer, t.deposit); }
  }

  lemma CompleteEffect(r: Registry, t: Task)
    requires t.Buy? && t.key in r.subs && Books(r.money) && Fits(CompleteSale(r, t).money) && Funded(t)
    ensures Sold(r, CompleteSale(r, t), t)
  {
    if t.operator.None? { SaleMoneyEffect(r.money, r.config.fees.commissionBps, r.subs[t.key].owner, t); }
  }

  /** A sale leaves the registry's hands: sold exactly when the key moved and the entry is still there. */
  ghost predicate Settled(w: World, w': World, id: nat)
    requires id in w.jobs && IsBuy(w.jobs[id])
  {
    var t := w.jobs[id].task;
    && w'.moves == w.moves
    && if SaleMove(id, t) in w.moves && t.key in w.registry.subs then Sold(w.registry, w'.registry, t)
       else Unsold(w.registry, w'.registry, t)
  }

  lemma SettlesTruthfully(u: S.Authorities, w: World, id: nat, c: Choice)
    requires Story(w) && Books(w.registry.money) && id in w.jobs && IsBuy(w.jobs[id])
    requires var w' := AdvanceJob(u, w, id, c); id !in w'.jobs && Fits(w'.registry.money)
    ensures Settled(w, AdvanceJob(u, w, id, c), id)
  {
    var t, stage := w.jobs[id].task, w.jobs[id].stage;
    assert Truthful(w.moves, id, t, stage) && Funded(t);
    if stage.Answered? && stage.result == Returned(true) {
      var i :| 0 <= i < |w.moves| && w.moves[i].id == id;
      assert w.moves[i] == SaleMove(id, t);
      if t.key in w.registry.subs { CompleteEffect(w.registry, t); } else { CancelEffect(w.registry, t); }
    } else {
      assert SaleMove(id, t) !in w.moves;
      CancelEffect(w.registry, t);
    }
  }

  /** So in every run whose ledger stays below the ceiling, also for sales begun while a mint of the name was pending. */
  lemma SaleSettles(u: S.Authorities, w0: World, steps: seq<Step>, w: World, id: nat, c: Choice)
    requires Fresh(w0) && FittingRun(u, w0, steps) && w == Run(u, w0, steps) && id in w.jobs && IsBuy(w.jobs[id])
    requires var w' := AdvanceJob(u, w, id, c); id !in w'.jobs && Fits(w'.registry.money)
    ensures Settled(w, AdvanceJob(u, w, id, c), id)
  {
    RunBalances(u, w0, steps);
    RunKeeps(u, w0, steps);
    SettlesTruthfully(u, w, id, c);
  }

  /**
   Sale atomicity. For a sale begun on a name with no mint pending, the registry makes the buyer owner
   and credits the seller if the key moved from the listed key to the buyer's, and otherwise owes the
   buyer exactly the whole deposit back.
   */
  lemma SaleIsAtomic(u: S.Authorities, w0: World, steps: seq<Step>, w: World, id: nat, c: Choice)
    requires Fresh(w0) && FittingRun(u, w0, steps) && Locks.CalmRun(u, w0, steps) && w == Run(u, w0, steps)
    requires id in w.jobs && IsBuy(w.jobs[id]) && id in w.clean
    requires var w' := AdvanceJob(u, w, id, c); id !in w'.jobs && Fits(w'.registry.money)
    ensures var w', t := AdvanceJob(u, w, id, c), w.jobs[id].task;
      if SaleMove(id, t) in w'.moves then Sold(w.registry, w'.registry, t) else Unsold(w.registry, w'.registry, t)
  {
    SaleSettles(u, w0, steps, w, id, c);
    CleanKeepsEntry(u, w0, steps, w, id);
  }

  lemma CleanKeepsEntry(u: S.Authorities, w0: World, steps: seq<Step>, w: World, id: nat)
    requires Fresh(w0) && Locks.CalmRun(u, w0, steps) && w == Run(u, w0, steps)
    requires id in w.jobs && IsBuy(w.jobs[id]) && id in w.clean
    ensures w.jobs[id].task.key in w.registry.subs
  {
    Locks.RunKeeps(u, w0, steps);
    assert Locks.BuyOf(w, id, w.jobs[id].task.key);
  }

  // ----- how often a key moves -----

  /** No chain of any kind sets a key twice, also counting those that have ended. */
  lemma OneMovePerChain(u: S.Authorities, w0: World, steps: seq<Step>, i: nat, j: nat)
    requires Fresh(w0)
    requires var moves := Run(u, w0, steps).moves; i < |moves| && j < |moves| && moves[i].id == moves[j].id
    ensures i == j
  {
    RunKeeps(u, w0, steps);
  }

  /** The sale is still in flight with the same task, or it is gone; either way only its own move bears its id. */
  ghost predicate Remembers(w: World, id: nat, t: Task)
    requires t.Buy?
  {
    && id < w.nextId
    && (id in w.jobs ==> w.jobs[id].Chain? && w.jobs[id].task == t)
    && (forall i :: 0 <= i < |w.moves| && w.moves[i].id == id ==> w.moves[i] == SaleMove(id, t))
  }

  lemma DispatchRemembers(w: World, w': World, id: nat, t: Task)
    requires t.Buy? && Dispatches(w, w') && Remembers(w, id, t)
    ensures Remembers(w', id, t)
  {}

  lemma ProceedsRemembers(w: World, w': World, other: nat, id: nat, t: Task)
    requires t.Buy? && Proceeds(w, w', other) && Remembers(w, id, t)
    requires id == other ==> (if id in w'.jobs then w'.jobs[id].Chain? && w'.jobs[id].task == t else w'.moves == w.moves)
    ensures Remembers(w', id, t)
  {
    if w'.moves != w.moves { MovesGrow(w.moves, w'.moves, other); }
  }

  lemma StepRemembers(u: S.Authorities, w: World, step: Step, id: nat, t: Task)
    requires t.Buy? && Story(w) && Remembers(w, id, t)
    ensures Remembers(Apply(u, w, step), id, t)
  {
    if !step.Advance? {
      CallDispatches(u, w, step);
      DispatchRemembers(w, Apply(u, w, step), id, t);
    } else if step.id in w.jobs {
      AdvanceProceeds(u, w, step.id, step.choice);
      if step.id == id { AdvanceKeepsTask(u, w, id, step.choice); }
      ProceedsRemembers(w, AdvanceJob(u, w, step.id, step.choice), step.id, id, t);
    }
  }

  lemma AdvanceKeepsTask(u: S.Authorities, w: World, id: nat, c: Choice)
    requires id in w.jobs && w.jobs[id].Chain?
    ensures var w' := AdvanceJob(u, w, id, c); id in w'.jobs ==> w'.jobs[id].Chain? && w'.jobs[id].task == w.jobs[id].task
    ensures var w' := AdvanceJob(u, w, id, c); id !in w'.jobs ==> w'.moves == w.moves
  {}

  /** A sale moves a key at most once, from the listed key to the buyer's, now and after any further run. */
  lemma OneMovePerSale(u: S.Authorities, w0: World, steps: seq<Step>, more: seq<Step>, id: nat)
    requires Fresh(w0)
    requires var w := Run(u, w0, steps); id in w.jobs && IsBuy(w.jobs[id])
    ensures var t, moves := Run(u, w0, steps).jobs[id].task, Run(u, w0, steps + more).moves;
      && (forall i, j :: 0 <= i < |moves| && 0 <= j < |moves| && moves[i].id == id && moves[j].id == id ==> i == j)
      && (forall i :: 0 <= i < |moves| && moves[i].id == id ==> moves[i] == SaleMove(id, t))
  {
    SaleIsKnown(u, w0, steps, Run(u, w0, steps), id);
    SaleIsRemembered(u, w0, steps, more, id, Run(u, w0, steps).jobs[id].task);
    RunKeeps(u, w0, steps + more);
  }

  lemma SaleIsKnown(u: S.Authorities, w0: World, steps: seq<Step>, w: World, id: nat)
    requires Fresh(w0) && w == Run(u, w0, steps) && id in w.jobs && IsBuy(w.jobs[id])
    ensures Remembers(w, id, w.jobs[id].task)
  {
    RunKeeps(u, w0, steps);
    assert Truthful(w.moves, id, w.jobs[id].task, w.jobs[id].stage);
  }

  lemma RunLast(u: S.Authorities, w: World, steps: seq<Step>, more: seq<Step>)
    requires more != []
    ensures Run(u, w, steps + more) == Apply(u, Run(u, w, steps + more[..|more| - 1]), more[|more| - 1])
  {
    var all := steps + more;
    assert all[..|all| - 1] == steps + more[..|more| - 1] && all[|all| - 1] == more[|more| - 1];
  }

  lemma {:induction false} SaleIsRemembered(u: S.Authorities, w0: World, steps: seq<Step>, more: seq<Step>, id: nat, t: Task)
    requires Fresh(w0) && t.Buy? && Remembers(Run(u, w0, steps), id, t)
    ensures Remembers(Run(u, w0, steps + more), id, t)
  {
    if more == [] {
      assert steps + more == steps;
    } else {
      var less := more[..|more| - 1];
      SaleIsRemembered(u, w0, steps, less, id, t);
      RunKeeps(u, w0, steps + less);
      StepRemembers(u, Run(u, w0, steps + less), more[|more| - 1], id, t);
      RunLast(u, w0, steps, more);
    }
  }
}
