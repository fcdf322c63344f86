/** BundleManager.createBundle: one greedy pass over a snapshot of the mempool. */
module Bundle {
  import opened Common
  import opened Mempool
  import opened StorageMaps
  import Events
  import Rep = Reputation

  datatype Config = Config(maxBundleGas: nat, conditionalRpc: bool, mergeToAccountRootHash: bool)

  /** What a successful re-validation reports. */
  datatype Validation = Validation(preOpGas: nat, prefund: nat, storageMap: StorageMap)

  /** Everything one loop iteration reads from outside its own accumulators. */
  datatype Observed = Observed(
    paymasterStatus: Rep.Status,
    factoryStatus: Rep.Status,
    validation: Option<Validation>,
    balance: nat,
    storageHash: Word)

  /** What happened to an entry. The first two reasons also remove it from the mempool. */
  datatype Fate =
    | Banned
    | FailedValidation
    | ThrottledPaymaster
    | ThrottledFactory
    | RepeatedSender
    | ForeignStorage
    | OverGas
    | UnderfundedPaymaster
    | Included

  datatype Acc = Acc(
    bundle: seq<UserOp>,
    senders: set<Address>,
    deposits: map<Address, nat>,
    entityCount: map<Address, int>,
    totalGas: nat,
    storage: StorageMap)

  const START := Acc([], {}, map[], map[], 0, map[])

  datatype Visit = Visit(entry: Entry, observed: Observed, fate: Fate)

  /** The loop's accumulators, the visits made so far, and whether the gas cut-off was hit. */
  datatype Loop = Loop(acc: Acc, log: seq<Visit>, cut: bool)

  // ---- one iteration ------------------------------------------------------------------------------

  /** The reasons decided before the re-validation is awaited. */
  function EarlyFate(acc: Acc, e: Entry, paymasterStatus: Rep.Status, factoryStatus: Rep.Status): Option<Fate> {
    if paymasterStatus == Rep.BANNED || factoryStatus == Rep.BANNED then Some(Banned)
    // the per-bundle count on the right of the source's `??` is never consulted
    else if Paymaster(e.op).Some? && paymasterStatus == Rep.THROTTLED then Some(ThrottledPaymaster)
    else if Factory(e.op).Some? && factoryStatus == Rep.THROTTLED then Some(ThrottledFactory)
    else if e.op.sender in acc.senders then Some(RepeatedSender)
    else None
  }

  predicate TouchesForeignSender(e: Entry, v: Validation, knownSenders: set<Address>) {
    exists addr :: addr in v.storageMap && addr != e.op.sender && addr in knownSenders
  }

  function GasOf(e: Entry, v: Validation): nat {
    v.preOpGas + e.op.callGasLimit
  }

  /** The paymaster's deposit, read from the chain the first time it is needed. */
  function DepositOf(deposits: map<Address, nat>, paymaster: Address, balance: nat): nat {
    if paymaster in deposits then deposits[paymaster] else balance
  }

  /** The reasons decided from the result of the re-validation. */
  function LateFate(acc: Acc, e: Entry, v: Validation, balance: nat, knownSenders: set<Address>, config: Config): Fate {
    if TouchesForeignSender(e, v, knownSenders) then ForeignStorage
    else if acc.totalGas + GasOf(e, v) > config.maxBundleGas then OverGas
    else if Paymaster(e.op).Some? && DepositOf(acc.deposits, Paymaster(e.op).value, balance) < v.prefund then UnderfundedPaymaster
    else Included
  }

  function FateOf(acc: Acc, e: Entry, o: Observed, knownSenders: set<Address>, config: Config): Fate {
    var early := EarlyFate(acc, e, o.paymasterStatus, o.factoryStatus);
    if early.Some? then early.value
    else if o.validation.None? then FailedValidation
    else LateFate(acc, e, o.validation.value, o.balance, knownSenders, config)
  }

  /** The account's own contribution to the merged storage: its root, if configured, under its accesses. */
  function OwnMap(e: Entry, o: Observed, config: Config): StorageMap
    requires o.validation.Some?
  {
    if config.mergeToAccountRootHash && config.conditionalRpc && e.op.initCode == []
    then Merge(map[e.op.sender := Root(o.storageHash)], o.validation.value.storageMap)
    else o.validation.value.storageMap
  }

  function Absorb(acc: Acc, e: Entry, o: Observed, fate: Fate, config: Config): Acc
    requires fate.Included? || fate.UnderfundedPaymaster? ==> o.validation.Some?
    requires fate.Included? && Paymaster(e.op).Some? ==>
      DepositOf(acc.deposits, Paymaster(e.op).value, o.balance) >= o.validation.value.prefund
  {
    match fate
    case UnderfundedPaymaster =>
      if Paymaster(e.op).None? then acc
      else acc.(deposits := acc.deposits[Paymaster(e.op).value := DepositOf(acc.deposits, Paymaster(e.op).value, o.balance)])
    case Included =>
      var v := o.validation.value;
      Acc(acc.bundle + [e.op],
          acc.senders + {e.op.sender},
          if Paymaster(e.op).None? then acc.deposits
          else acc.deposits[Paymaster(e.op).value := DepositOf(acc.deposits, Paymaster(e.op).value, o.balance) - v.prefund],
          Increment(Increment(acc.entityCount, Paymaster(e.op)), Factory(e.op)),
          acc.totalGas + GasOf(e, v),
          Merge(acc.storage, OwnMap(e, o, config)))
    case _ => acc
  }

  predicate Removes(fate: Fate) {
    fate.Banned? || fate.FailedValidation?
  }

  function PoolAfter(pool: Pool, e: Entry, fate: Fate): Pool {
    if Removes(fate) then RemoveUserOp(pool, ByOp(e.op.sender, e.op.nonce)) else pool
  }

  function VisitEntry(loop: Loop, e: Entry, o: Observed, knownSenders: set<Address>, config: Config): Loop {
    var fate := FateOf(loop.acc, e, o, knownSenders, config);
    Loop(Absorb(loop.acc, e, o, fate, config), loop.log + [Visit(e, o, fate)], fate.OverGas?)
  }

  // ---- the whole pass -----------------------------------------------------------------------------

  datatype Progress = Progress(loop: Loop, pool: Pool)

  /** The rest of an undisturbed pass, from index `i` of the snapshot on. */
  function PassFrom(entries: seq<Entry>, i: nat, pass: Progress, look: Entry -> Observed, known: set<Address>, config: Config): Progress
    requires i <= |entries|
    decreases |entries| - i
  {
    if i == |entries| || pass.loop.cut then pass
    else
      var e := entries[i];
      var loop := VisitEntry(pass.loop, e, look(e), known, config);
      PassFrom(entries, i + 1, Progress(loop, PoolAfter(pass.pool, e, loop.log[|loop.log| - 1].fate)), look, known, config)
  }

  function WholePass(snapshot: seq<Entry>, pool: Pool, look: Entry -> Observed, config: Config): Progress {
    PassFrom(snapshot, 0, Progress(Loop(START, [], false), pool), look, KnownSenders(pool.entries), config)
  }

  /** The calls out of the bundler: re-validation, `balanceOf` and `eth_getProof`. */
  datatype Chain = Chain(
    validate: (UserOp, ReferencedCodeHashes) -> Option<Validation>,
    balanceOf: Address -> nat,
    storageHash: Address -> Word)

  function Look(rep: Rep.Ledger, chain: Chain): Entry -> Observed {
    (e: Entry) => Observed(
      Rep.GetStatus(rep, Paymaster(e.op)),
      Rep.GetStatus(rep, Factory(e.op)),
      chain.validate(e.op, e.referenced),
      if Paymaster(e.op).Some? then chain.balanceOf(Paymaster(e.op).value) else 0,
      chain.storageHash(e.op.sender))
  }

  // ---- sending a bundle ---------------------------------------------------------------------------

  /** The prefix of the reason a bundle failed with. */
  datatype Blame = AA1 | AA2 | AA3 | Unattributed

  /** What submitting a bundle leads to. */
  datatype Delivery = Accepted | Unparsed | Fatal | FailedOp(opIndex: nat, blame: Blame)

  /** Whom a failed bundle is blamed on: `crashedHandleOps`, or removal of the operation. */
  function Attribute(w: Events.World, op: UserOp, blame: Blame): Events.World {
    match blame
    case AA3 => w.(rep := Rep.CrashedHandleOps(w.rep, Paymaster(op)))
    case AA2 => w.(rep := Rep.CrashedHandleOps(w.rep, Some(op.sender)))
    case AA1 => w.(rep := Rep.CrashedHandleOps(w.rep, Factory(op)))
    case Unattributed => w.(pool := RemoveUserOp(w.pool, ByOp(op.sender, op.nonce)))
  }

  /** A delivered bundle leaves the mempool as it is. */
  function AfterSending(w: Events.World, bundle: seq<UserOp>, delivery: Delivery): Events.World {
    if delivery.FailedOp? && delivery.opIndex < |bundle| then Attribute(w, bundle[delivery.opIndex], delivery.blame) else w
  }

  /** An unrecoverable error, or an operation index out of range. */
  predicate SendingThrows(bundle: seq<UserOp>, delivery: Delivery) {
    delivery.Fatal? || (delivery.FailedOp? && delivery.opIndex >= |bundle|)
  }

  /** Everything the chain answers during one attempt, and during the debug call's own scan after it. */
  datatype Answers = Answers(
    head: nat,
    events: seq<Events.Event>,
    chain: Chain,
    delivery: Delivery,
    laterHead: nat,
    laterEvents: seq<Events.Event>,
    lastHead: nat,
    lastEvents: seq<Events.Event>)

  datatype Ended = Ended(world: Events.World, threw: bool)

  function NextBundle(w: Events.World, answers: Answers, config: Config): Ended {
    var polled := Events.Poll(w, answers.head, answers.events);
    match GetSortedForInclusion(polled.pool)
    case Err(_) => Ended(polled, true)
    case Ok(snapshot) =>
      var pass := WholePass(snapshot, polled.pool, Look(polled.rep, answers.chain), config);
      var built := polled.(pool := pass.pool);
      var bundle := pass.loop.acc.bundle;
      if bundle == [] then Ended(built, false)
      else Ended(AfterSending(built, bundle, answers.delivery), SendingThrows(bundle, answers.delivery))
  }

  // ---- the object -------------------------------------------------------------------------------

  class BundleManager {
    const config: Config
    const eventsManager: Events.EventsManager
    const mempoolManager: MempoolManager
    const reputationManager: Rep.ReputationManager

    constructor (config: Config, eventsManager: Events.EventsManager)
      requires eventsManager.mempoolManager.reputationManager == eventsManager.reputationManager
      ensures this.config == config && this.eventsManager == eventsManager
      ensures Wired()
    {
      this.config := config;
      this.eventsManager := eventsManager;
      this.mempoolManager := eventsManager.mempoolManager;
      this.reputationManager := eventsManager.reputationManager;
    }

    /** All managers share one mempool and one reputation. */
    predicate Wired() {
      && eventsManager.mempoolManager == mempoolManager
      && eventsManager.reputationManager == reputationManager
      && mempoolManager.reputationManager == reputationManager
    }

    /** The inner loop over the accessed addresses. */
    static method AccessesForeignSender(entry: Entry, validation: Validation, knownSenders: set<Address>) returns (foreign: bool)
      ensures foreign <==> TouchesForeignSender(entry, validation, knownSenders)
    {
      var storageAddresses := validation.storageMap.Keys;
      while storageAddresses != {}
        invariant storageAddresses <= validation.storageMap.Keys
        invariant forall addr :: addr in validation.storageMap && addr !in storageAddresses ==>
          addr == entry.op.sender || addr !in knownSenders
      {
        var storageAddress :| storageAddress in storageAddresses;
        storageAddresses := storageAddresses - {storageAddress};
        if storageAddress != entry.op.sender && storageAddress in knownSenders {
          return true;
        }
      }
      return false;
    }

    /** The main loop's body after a successful re-validation: `stop` asks for its `break`. */
    method Account(entry: Entry, validation: Validation, acc: Acc, chain: Chain, knownSenders: set<Address>, ghost o: Observed)
      returns (after: Acc, stop: bool)
      requires o.validation == Some(validation) && o.storageHash == chain.storageHash(entry.op.sender)
      requires Paymaster(entry.op).Some? ==> o.balance == chain.balanceOf(Paymaster(entry.op).value)
      ensures var fate := LateFate(acc, entry, validation, o.balance, knownSenders, config);
        after == Absorb(acc, entry, o, fate, config) && stop == fate.OverGas?
    {
      after, stop := acc, false;
      var paymaster := Paymaster(entry.op);
      var foreign := AccessesForeignSender(entry, validation, knownSenders);
      if foreign {
        return;
      }
      var newTotalGas := acc.totalGas + (validation.preOpGas + entry.op.callGasLimit);
      if newTotalGas > config.maxBundleGas {
        stop := true;
        return;
      }
      var deposits, entityCount := acc.deposits, acc.entityCount;
      if paymaster.Some? {
        if paymaster.value !in deposits {
          deposits := deposits[paymaster.value := chain.balanceOf(paymaster.value)];
        }
        assert deposits == acc.deposits[paymaster.value := DepositOf(acc.deposits, paymaster.value, o.balance)];
        if deposits[paymaster.value] < validation.prefund {
          after := acc.(deposits := deposits);
          return;
        }
        entityCount := Increment(entityCount, paymaster);
        deposits := deposits[paymaster.value := deposits[paymaster.value] - validation.prefund];
      }
      if Factory(entry.op).Some? {
        entityCount := Increment(entityCount, Factory(entry.op));
      }
      var storageMap := acc.storage;
      if config.mergeToAccountRootHash && config.conditionalRpc && entry.op.initCode == [] {
        var root := chain.storageHash(entry.op.sender);
        RootFirst(storageMap, entry.op.sender, root, validation.storageMap);
        storageMap := storageMap[entry.op.sender := Root(root)];
      }
      after := Acc(acc.bundle + [entry.op], acc.senders + {entry.op.sender}, deposits, entityCount, newTotalGas,
                   Merge(storageMap, validation.storageMap));
    }

    /** The main loop's body; `acc` holds the loop's local variables. */
    method Consider(entry: Entry, acc: Acc, chain: Chain, knownSenders: set<Address>) returns (after: Acc, stop: bool)
      modifies mempoolManager
      ensures var o := Look(old(reputationManager.Value()), chain)(entry);
        var fate := FateOf(acc, entry, o, knownSenders, config);
        && after == Absorb(acc, entry, o, fate, config) && stop == fate.OverGas?
        && mempoolManager.Value() == PoolAfter(old(mempoolManager.Value()), entry, fate)
    {
      after, stop := acc, false;
      var paymaster := Paymaster(entry.op);
      var factory := Factory(entry.op);
      var paymasterStatus := Rep.GetStatus(reputationManager.Value(), paymaster);
      var deployerStatus := Rep.GetStatus(reputationManager.Value(), factory);
      if paymasterStatus == Rep.BANNED || deployerStatus == Rep.BANNED {
        mempoolManager.Remove(ByOp(entry.op.sender, entry.op.nonce));
        return;
      }
      if paymaster.Some? && paymasterStatus == Rep.THROTTLED {
        return;
      }
      if factory.Some? && deployerStatus == Rep.THROTTLED {
        return;
      }
      if entry.op.sender in acc.senders {
        return;
      }
      var validated := chain.validate(entry.op, entry.referenced);
      if validated.None? {
        mempoolManager.Remove(ByOp(entry.op.sender, entry.op.nonce));
        return;
      }
      after, stop := Account(entry, validated.value, acc, chain, knownSenders, Look(reputationManager.Value(), chain)(entry));
    }

    /** `createBundle` when nothing else runs between its awaits. */
    method CreateBundle(chain: Chain) returns (r: Result<(seq<UserOp>, StorageMap), Rep.RpcError>)
      modifies mempoolManager
      ensures var pool := old(mempoolManager.Value());
        match GetSortedForInclusion(pool)
        case Err(error) => r == Err(error) && mempoolManager.Value() == pool
        case Ok(snapshot) =>
          var pass := WholePass(snapshot, pool, Look(old(reputationManager.Value()), chain), config);
          r == Ok((pass.loop.acc.bundle, pass.loop.acc.storage)) && mempoolManager.Value() == pass.pool
    {
      var sorted := GetSortedForInclusion(mempoolManager.Value());
      if sorted.Err? { return Err(sorted.error); }
      var entries := sorted.value;
      var knownSenders := KnownSenders(mempoolManager.mempool);
      var acc := START;
      ghost var look := Look(reputationManager.Value(), chain);
      ghost var loop := Loop(START, [], false);

      for i := 0 to |entries|
        invariant loop.acc == acc && !loop.cut
        invariant unchanged(reputationManager)
        invariant PassFrom(entries, i, Progress(loop, mempoolManager.Value()), look, knownSenders, config)
               == WholePass(entries, old(mempoolManager.Value()), look, config)
      {
        var stop;
        ghost var o := look(entries[i]);
        acc, stop := Consider(entries[i], acc, chain, knownSenders);
        loop := VisitEntry(loop, entries[i], o, knownSenders, config);
        if stop {
          break;
        }
      }
      r := Ok((acc.bundle, acc.storage));
    }

    /** The result of the submission is `delivery`; the branches are those of the source's catch. */
    method SendBundle(bundle: seq<UserOp>, delivery: Delivery) returns (threw: bool)
      requires Wired()
      modifies mempoolManager, reputationManager`entries
      ensures eventsManager.Value() == AfterSending(old(eventsManager.Value()), bundle, delivery)
      ensures threw == SendingThrows(bundle, delivery)
    {
      match delivery {
        case Accepted => return false;
        case Unparsed => return false;
        case Fatal => return true;
        case FailedOp(opIndex, blame) =>
          if opIndex >= |bundle| { return true; }
          var userOp := bundle[opIndex];
          match blame {
            case AA3 => reputationManager.Crashed(Paymaster(userOp));
            case AA2 => reputationManager.Crashed(Some(userOp.sender));
            case AA1 => reputationManager.Crashed(Factory(userOp));
            case Unattributed => mempoolManager.Remove(ByOp(userOp.sender, userOp.nonce));
          }
          return false;
      }
    }

    /** `createBundle` and `sendBundle` after the scan. */
    method BuildAndSend(chain: Chain, delivery: Delivery) returns (threw: bool)
      requires Wired()
      modifies mempoolManager, reputationManager`entries
      ensures var w := old(eventsManager.Value());
        match GetSortedForInclusion(w.pool)
        case Err(_) => threw && eventsManager.Value() == w
        case Ok(snapshot) =>
          var pass := WholePass(snapshot, w.pool, Look(w.rep, chain), config);
          var built, bundle := w.(pool := pass.pool), pass.loop.acc.bundle;
          if bundle == [] then !threw && eventsManager.Value() == built
          else eventsManager.Value() == AfterSending(built, bundle, delivery) && threw == SendingThrows(bundle, delivery)
    {
      var created := CreateBundle(chain);
      if created.Err? { return true; }
      if created.value.0 == [] { return false; }
      threw := SendBundle(created.value.0, delivery);
    }

    /** `sendNextBundle`, uninterrupted. */
    method SendNextBundle(answers: Answers) returns (threw: bool)
      requires Wired()
      modifies eventsManager, mempoolManager, reputationManager`entries
      ensures Ended(eventsManager.Value(), threw) == NextBundle(old(eventsManager.Value()), answers, config)
    {
      eventsManager.HandlePastEvents(answers.head, answers.events);
      threw := BuildAndSend(answers.chain, answers.delivery);
    }
  }

  /** Writing the root and then merging the accesses is merging the account's own map. */
  lemma RootFirst(storage: StorageMap, sender: Address, hash: Word, accesses: StorageMap)
    ensures Merge(storage[sender := Root(hash)], accesses) == Merge(storage, Merge(map[sender := Root(hash)], accesses))
  {
    var root: StorageMap := map[sender := Root(hash)];
    MergeAssociative(storage, root, accesses);
    forall addr
      ensures At(storage[sender := Root(hash)], addr) == At(Merge(storage, root), addr)
    {
      MergePointwise(storage, root, addr);
    }
    SameEverywhere(storage[sender := Root(hash)], Merge(storage, root));
  }
}
