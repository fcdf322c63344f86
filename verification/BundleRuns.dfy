/** What a bundle pass guarantees, stated over the history of its visits instead of its accumulators. */
module BundleRuns {
  import opened Common
  import opened Mempool
  import opened StorageMaps
  import opened Bundle
  import Rep = Reputation
  import Runs = MempoolRuns

  // ---- quantities read off the history ----------------------------------------------------------------

  /** The visits that put an operation into the bundle, in order. */
  function Bundled(log: seq<Visit>): seq<Visit> {
    if log == [] then []
    else if log[|log| - 1].fate.Included? then Bundled(log[..|log| - 1]) + [log[|log| - 1]]
    else Bundled(log[..|log| - 1])
  }

  function Reported(v: Visit): Validation {
    if v.observed.validation.Some? then v.observed.validation.value else Validation(0, 0, map[])
  }

  function Ops(bs: seq<Visit>): seq<UserOp> {
    if bs == [] then [] else Ops(bs[..|bs| - 1]) + [bs[|bs| - 1].entry.op]
  }

  /** What an operation adds to its bundle: the gas before execution that validation reports, and its call gas. */
  ghost function GasNeeded(v: Visit): nat {
    Reported(v).preOpGas + v.entry.op.callGasLimit
  }

  ghost function GasSum(bs: seq<Visit>): nat {
    if bs == [] then 0 else GasSum(bs[..|bs| - 1]) + GasNeeded(bs[|bs| - 1])
  }

  predicate PaidBy(v: Visit, paymaster: Address) {
    Paymaster(v.entry.op) == Some(paymaster)
  }

  function PrefundSum(bs: seq<Visit>, paymaster: Address): nat {
    if bs == [] then 0
    else PrefundSum(bs[..|bs| - 1], paymaster)
         + (if PaidBy(bs[|bs| - 1], paymaster) then Reported(bs[|bs| - 1]).prefund else 0)
  }

  function Uses(bs: seq<Visit>, a: Address): nat {
    if bs == [] then 0
    else Uses(bs[..|bs| - 1], a)
         + Hit(Paymaster(bs[|bs| - 1].entry.op), a) + Hit(Factory(bs[|bs| - 1].entry.op), a)
  }

  /** The bundle carries the account's storage root instead of its single slots: never for an account being created. */
  ghost predicate Rooted(v: Visit, config: Config) {
    config.mergeToAccountRootHash && config.conditionalRpc && v.entry.op.initCode == []
  }

  /** Validation reports a storage root of the sender, which then takes precedence. */
  ghost predicate ReportsRoot(v: Visit) {
    var m := Reported(v).storageMap;
    v.entry.op.sender in m && m[v.entry.op.sender].Root?
  }

  ghost function OwnMapOf(v: Visit, config: Config): StorageMap {
    if Rooted(v, config) then Merge(map[v.entry.op.sender := Root(v.observed.storageHash)], Reported(v).storageMap)
    else Reported(v).storageMap
  }

  ghost function OwnMaps(bs: seq<Visit>, config: Config): seq<StorageMap> {
    if bs == [] then [] else OwnMaps(bs[..|bs| - 1], config) + [OwnMapOf(bs[|bs| - 1], config)]
  }

  /** The paymaster whose deposit the visit reads and, if it bundles the operation, charges. */
  function Payer(v: Visit): Option<Address> {
    if v.fate.Included? || v.fate.UnderfundedPaymaster? then Paymaster(v.entry.op) else None
  }

  /** The balance the chain reported when the pass first needed this paymaster's deposit. */
  function Opening(log: seq<Visit>, paymaster: Address): Option<nat> {
    if log == [] then None
    else if Opening(log[..|log| - 1], paymaster).Some? then Opening(log[..|log| - 1], paymaster)
    else
      var v := log[|log| - 1];
      if Payer(v) == Some(paymaster) then Some(v.observed.balance) else None
  }

  function Available(log: seq<Visit>, paymaster: Address, balance: nat): nat {
    if Opening(log, paymaster).Some? then Opening(log, paymaster).value else balance
  }

  // ---- the rule each visit follows ------------------------------------------------------------------

  ghost predicate SenderBundled(log: seq<Visit>, sender: Address) {
    exists v :: v in Bundled(log) && v.entry.op.sender == sender
  }

  /** The fate of an entry as a function of what was bundled before it. */
  ghost function FateAfter(log: seq<Visit>, e: Entry, o: Observed, known: set<Address>, config: Config): Fate {
    if o.paymasterStatus == Rep.BANNED || o.factoryStatus == Rep.BANNED then Banned
    else if Paymaster(e.op).Some? && o.paymasterStatus == Rep.THROTTLED then ThrottledPaymaster
    else if Factory(e.op).Some? && o.factoryStatus == Rep.THROTTLED then ThrottledFactory
    else if SenderBundled(log, e.op.sender) then RepeatedSender
    else if o.validation.None? then FailedValidation
    else
      var v := o.validation.value;
      if exists addr :: addr in v.storageMap && addr != e.op.sender && addr in known then ForeignStorage
      else if GasSum(Bundled(log)) + v.preOpGas + e.op.callGasLimit > config.maxBundleGas then OverGas
      else if Paymaster(e.op).Some?
              && PrefundSum(Bundled(log), Paymaster(e.op).value) + v.prefund
                 > Available(log, Paymaster(e.op).value, o.balance) then UnderfundedPaymaster
      else Included
  }

  ghost predicate Greedy(log: seq<Visit>, known: set<Address>, config: Config) {
    forall i :: 0 <= i < |log| ==>
      log[i].fate == FateAfter(log[..i], log[i].entry, log[i].observed, known, config)
  }

  ghost predicate SendersExplained(senders: set<Address>, log: seq<Visit>) {
    forall s :: s in senders <==> SenderBundled(log, s)
  }

  /** What is left of each deposit, plus what was bundled on its account, is the balance first read. */
  ghost predicate DepositExplained(deposits: map<Address, nat>, log: seq<Visit>, p: Address) {
    && (p in deposits <==> Opening(log, p).Some?)
    && (p in deposits ==> deposits[p] + PrefundSum(Bundled(log), p) == Opening(log, p).value)
    && (p !in deposits ==> PrefundSum(Bundled(log), p) == 0)
  }

  ghost predicate DepositsExplained(deposits: map<Address, nat>, log: seq<Visit>) {
    forall p :: DepositExplained(deposits, log, p)
  }

  ghost predicate CountsExplained(counts: map<Address, int>, bs: seq<Visit>) {
    forall a :: CountOf(counts, a) == Uses(bs, a)
  }

  /** Each accumulator holds the quantity the history gives. */
  ghost predicate Explained(acc: Acc, log: seq<Visit>, config: Config) {
    && acc.bundle == Ops(Bundled(log))
    && SendersExplained(acc.senders, log)
    && acc.totalGas == GasSum(Bundled(log))
    && DepositsExplained(acc.deposits, log)
    && CountsExplained(acc.entityCount, Bundled(log))
    && acc.storage == MergeAll(OwnMaps(Bundled(log), config))
  }

  /** The invariant of the loop: accumulators match the history, and the history is greedy. */
  ghost predicate Faithful(loop: Loop, known: set<Address>, config: Config) {
    Explained(loop.acc, loop.log, config) && Greedy(loop.log, known, config)
  }

  /** The code's decision from accumulators is the rule's decision from the history. */
  lemma FateFollowsRule(acc: Acc, log: seq<Visit>, e: Entry, o: Observed, known: set<Address>, config: Config)
    requires Explained(acc, log, config)
    ensures FateOf(acc, e, o, known, config) == FateAfter(log, e, o, known, config)
  {
    if Paymaster(e.op).Some? {
      var p := Paymaster(e.op).value;
      assert DepositExplained(acc.deposits, log, p);
    }
  }

  lemma AppendVisit(log: seq<Visit>, v: Visit)
    ensures Bundled(log + [v]) == if v.fate.Included? then Bundled(log) + [v] else Bundled(log)
  {
    assert (log + [v])[..|log|] == log;
  }

  lemma AppendOpening(log: seq<Visit>, v: Visit, p: Address)
    ensures Opening(log + [v], p) ==
      if Opening(log, p).None? && Payer(v) == Some(p) then Some(v.observed.balance) else Opening(log, p)
  {
    assert (log + [v])[..|log|] == log;
  }

  lemma AppendBundled(bs: seq<Visit>, v: Visit, config: Config)
    ensures Ops(bs + [v]) == Ops(bs) + [v.entry.op]
    ensures GasSum(bs + [v]) == GasSum(bs) + GasNeeded(v)
    ensures OwnMaps(bs + [v], config) == OwnMaps(bs, config) + [OwnMapOf(v, config)]
  {
    assert (bs + [v])[..|bs|] == bs;
  }

  lemma AppendPrefund(bs: seq<Visit>, v: Visit, p: Address)
    ensures PrefundSum(bs + [v], p) == PrefundSum(bs, p) + (if PaidBy(v, p) then Reported(v).prefund else 0)
  {
    assert (bs + [v])[..|bs|] == bs;
  }

  lemma AppendMap(ms: seq<StorageMap>, m: StorageMap)
    ensures MergeAll(ms + [m]) == Merge(MergeAll(ms), m)
  {
    assert (ms + [m])[..|ms|] == ms;
  }

  lemma AbsorbSenders(senders: set<Address>, log: seq<Visit>, v: Visit)
    requires SendersExplained(senders, log)
    ensures SendersExplained(if v.fate.Included? then senders + {v.entry.op.sender} else senders, log + [v])
  {
    AppendVisit(log, v);
    var after := Bundled(log + [v]);
    forall s
      ensures SenderBundled(log + [v], s) <==> SenderBundled(log, s) || (v.fate.Included? && s == v.entry.op.sender)
    {
      assert forall w :: w in after <==> w in Bundled(log) || (v.fate.Included? && w == v);
    }
  }

  lemma AbsorbCounts(counts: map<Address, int>, bs: seq<Visit>, v: Visit)
    requires CountsExplained(counts, bs)
    ensures CountsExplained(Increment(Increment(counts, Paymaster(v.entry.op)), Factory(v.entry.op)), bs + [v])
  {
    assert (bs + [v])[..|bs|] == bs;
    var after := Increment(Increment(counts, Paymaster(v.entry.op)), Factory(v.entry.op));
    forall a
      ensures CountOf(after, a) == Uses(bs + [v], a)
    {
      assert CountOf(counts, a) == Uses(bs, a);
    }
  }

  /** Reading the paymaster's deposit, and charging it when the operation is bundled, keeps the account. */
  lemma AbsorbDeposits(deposits: map<Address, nat>, after: map<Address, nat>, log: seq<Visit>, v: Visit)
    requires DepositsExplained(deposits, log)
    requires match Payer(v)
      case None => after == deposits
      case Some(p) =>
        var before, charge := DepositOf(deposits, p, v.observed.balance), if v.fate.Included? then Reported(v).prefund else 0;
        before >= charge && after == deposits[p := before - charge]
    ensures DepositsExplained(after, log + [v])
  {
    AppendVisit(log, v);
    forall p
      ensures DepositExplained(after, log + [v], p)
    {
      assert DepositExplained(deposits, log, p);
      AppendOpening(log, v, p);
      AppendPrefund(Bundled(log), v, p);
    }
  }

  ghost predicate BundleExplained(acc: Acc, bs: seq<Visit>, config: Config) {
    acc.bundle == Ops(bs) && acc.totalGas == GasSum(bs) && acc.storage == MergeAll(OwnMaps(bs, config))
  }

  lemma Assemble(acc: Acc, log: seq<Visit>, bs: seq<Visit>, config: Config)
    requires bs == Bundled(log) && BundleExplained(acc, bs, config)
    requires SendersExplained(acc.senders, log) && DepositsExplained(acc.deposits, log)
    requires CountsExplained(acc.entityCount, bs)
    ensures Explained(acc, log, config)
  {
  }

  lemma AbsorbBundled(acc: Acc, bs: seq<Visit>, v: Visit, config: Config)
    requires BundleExplained(acc, bs, config)
    requires v.observed.validation.Some?
    ensures acc.bundle + [v.entry.op] == Ops(bs + [v])
    ensures acc.totalGas + v.observed.validation.value.preOpGas + v.entry.op.callGasLimit == GasSum(bs + [v])
    ensures Merge(acc.storage, OwnMap(v.entry, v.observed, config)) == MergeAll(OwnMaps(bs + [v], config))
  {
    AppendBundled(bs, v, config);
    AppendMap(OwnMaps(bs, config), OwnMapOf(v, config));
    assert v.observed.(validation := Some(Reported(v))) == v.observed;
  }

  lemma IncludedDeposits(acc: Acc, log: seq<Visit>, v: Visit, config: Config)
    requires DepositsExplained(acc.deposits, log)
    requires v.fate.Included? && v.observed.validation.Some?
    requires Paymaster(v.entry.op).Some? ==>
      DepositOf(acc.deposits, Paymaster(v.entry.op).value, v.observed.balance) >= v.observed.validation.value.prefund
    ensures DepositsExplained(Absorb(acc, v.entry, v.observed, v.fate, config).deposits, log + [v])
  {
    AbsorbDeposits(acc.deposits, Absorb(acc, v.entry, v.observed, v.fate, config).deposits, log, v);
  }

  lemma IncludedSendersAndCounts(acc: Acc, log: seq<Visit>, v: Visit, config: Config)
    requires SendersExplained(acc.senders, log) && CountsExplained(acc.entityCount, Bundled(log))
    requires v.fate.Included? && v.observed.validation.Some?
    requires Paymaster(v.entry.op).Some? ==>
      DepositOf(acc.deposits, Paymaster(v.entry.op).value, v.observed.balance) >= v.observed.validation.value.prefund
    ensures SendersExplained(Absorb(acc, v.entry, v.observed, v.fate, config).senders, log + [v])
    ensures CountsExplained(Absorb(acc, v.entry, v.observed, v.fate, config).entityCount, Bundled(log) + [v])
  {
    AbsorbSenders(acc.senders, log, v);
    AbsorbCounts(acc.entityCount, Bundled(log), v);
  }

  lemma IncludedBundle(acc: Acc, bs: seq<Visit>, v: Visit, config: Config)
    requires BundleExplained(acc, bs, config)
    requires v.fate.Included? && v.observed.validation.Some?
    requires Paymaster(v.entry.op).Some? ==>
      DepositOf(acc.deposits, Paymaster(v.entry.op).value, v.observed.balance) >= v.observed.validation.value.prefund
    ensures BundleExplained(Absorb(acc, v.entry, v.observed, v.fate, config), bs + [v], config)
  {
    AbsorbBundled(acc, bs, v, config);
  }

  lemma AbsorbIncluded(acc: Acc, log: seq<Visit>, v: Visit, config: Config)
    requires Explained(acc, log, config)
    requires v.fate.Included? && v.observed.validation.Some?
    requires Paymaster(v.entry.op).Some? ==>
      DepositOf(acc.deposits, Paymaster(v.entry.op).value, v.observed.balance) >= v.observed.validation.value.prefund
    ensures Explained(Absorb(acc, v.entry, v.observed, v.fate, config), log + [v], config)
  {
    IncludedDeposits(acc, log, v, config);
    IncludedSendersAndCounts(acc, log, v, config);
    IncludedBundle(acc, Bundled(log), v, config);
    AppendVisit(log, v);
    Assemble(Absorb(acc, v.entry, v.observed, v.fate, config), log + [v], Bundled(log) + [v], config);
  }

  /** An entry that is not bundled leaves everything as it is, except that its paymaster's deposit may have been read. */
  lemma AbsorbSkipped(acc: Acc, after: Acc, log: seq<Visit>, v: Visit, config: Config)
    requires Explained(acc, log, config) && !v.fate.Included?
    requires after == acc.(deposits := match Payer(v)
      case None => acc.deposits
      case Some(p) => acc.deposits[p := DepositOf(acc.deposits, p, v.observed.balance)])
    ensures Explained(after, log + [v], config)
  {
    AppendVisit(log, v);
    AbsorbDeposits(acc.deposits, after.deposits, log, v);
    AbsorbSenders(acc.senders, log, v);
    Assemble(after, log + [v], Bundled(log), config);
  }

  lemma AbsorbExplained(acc: Acc, log: seq<Visit>, v: Visit, config: Config)
    requires Explained(acc, log, config)
    requires v.fate.Included? || v.fate.UnderfundedPaymaster? ==> v.observed.validation.Some?
    requires v.fate.Included? && Paymaster(v.entry.op).Some? ==>
      DepositOf(acc.deposits, Paymaster(v.entry.op).value, v.observed.balance) >= v.observed.validation.value.prefund
    ensures Explained(Absorb(acc, v.entry, v.observed, v.fate, config), log + [v], config)
  {
    if v.fate.Included? {
      AbsorbIncluded(acc, log, v, config);
    } else {
      AbsorbSkipped(acc, Absorb(acc, v.entry, v.observed, v.fate, config), log, v, config);
    }
  }

  /** Every visit keeps the invariant, whatever it observes: nothing is assumed about its environment. */
  lemma VisitKeepsFaithful(loop: Loop, e: Entry, o: Observed, known: set<Address>, config: Config)
    requires Faithful(loop, known, config)
    ensures Faithful(VisitEntry(loop, e, o, known, config), known, config)
  {
    var fate := FateOf(loop.acc, e, o, known, config);
    var v, log := Visit(e, o, fate), loop.log + [Visit(e, o, fate)];
    AbsorbExplained(loop.acc, loop.log, v, config);
    FateFollowsRule(loop.acc, loop.log, e, o, known, config);
    forall i | 0 <= i < |log|
      ensures log[i].fate == FateAfter(log[..i], log[i].entry, log[i].observed, known, config)
    {
      if i < |loop.log| {
        assert log[..i] == loop.log[..i];
      } else {
        assert log[..i] == loop.log;
      }
    }
  }

  lemma FreshLoopFaithful(known: set<Address>, config: Config)
    ensures Faithful(Loop(START, [], false), known, config)
  {
  }

  // ---- what greedy histories guarantee ------------------------------------------------------------------

  lemma {:induction false} BundledMembers(log: seq<Visit>, v: Visit)
    ensures v in Bundled(log) <==> v in log && v.fate.Included?
  {
    if log != [] {
      BundledMembers(log[..|log| - 1], v);
      assert log == log[..|log| - 1] + [log[|log| - 1]];
    }
  }

  lemma GreedyPrefix(log: seq<Visit>, n: nat, known: set<Address>, config: Config)
    requires Greedy(log, known, config) && n <= |log|
    ensures Greedy(log[..n], known, config)
  {
    forall i | 0 <= i < n
      ensures log[..n][i].fate == FateAfter(log[..n][..i], log[..n][i].entry, log[..n][i].observed, known, config)
    {
      assert log[..n][..i] == log[..i];
    }
  }

  /** Each bundled operation was let in by the rule, after some part of the history. */
  lemma BundledWasIncluded(log: seq<Visit>, v: Visit, known: set<Address>, config: Config) returns (i: nat)
    requires Greedy(log, known, config) && v in Bundled(log)
    ensures i < |log| && log[i] == v
    ensures FateAfter(log[..i], v.entry, v.observed, known, config).Included?
  {
    BundledMembers(log, v);
    i :| 0 <= i < |log| && log[i] == v;
  }

  /** No sender appears twice. */
  lemma {:induction false} SendersDistinct(log: seq<Visit>, known: set<Address>, config: Config)
    requires Greedy(log, known, config)
    ensures forall i, j :: 0 <= i < j < |Bundled(log)| ==>
      Bundled(log)[i].entry.op.sender != Bundled(log)[j].entry.op.sender
  {
    if log != [] {
      var n := |log| - 1;
      GreedyPrefix(log, n, known, config);
      SendersDistinct(log[..n], known, config);
      if log[n].fate.Included? {
        assert !SenderBundled(log[..n], log[n].entry.op.sender);
        assert forall i :: 0 <= i < |Bundled(log[..n])| ==> Bundled(log[..n])[i] in Bundled(log[..n]);
      }
    }
  }

  /**
   * An entry that gets as far as the gas test ends the pass exactly when its own gas and that of the operations
   * bundled so far exceed the limit.
   */
  lemma CutOffExactly(log: seq<Visit>, known: set<Address>, config: Config, i: nat)
    requires Greedy(log, known, config) && i < |log|
    requires log[i].fate.OverGas? || log[i].fate.UnderfundedPaymaster? || log[i].fate.Included?
    ensures log[i].fate.OverGas? <==>
      GasSum(Bundled(log[..i])) + Reported(log[i]).preOpGas + log[i].entry.op.callGasLimit > config.maxBundleGas
  {
    assert log[i].fate == FateAfter(log[..i], log[i].entry, log[i].observed, known, config);
  }

  /** The bundle's gas never exceeds the configured limit. */
  lemma {:induction false} GasBounded(log: seq<Visit>, known: set<Address>, config: Config)
    requires Greedy(log, known, config)
    ensures GasSum(Bundled(log)) <= config.maxBundleGas
  {
    if log != [] {
      var n := |log| - 1;
      GreedyPrefix(log, n, known, config);
      GasBounded(log[..n], known, config);
      assert log[n].fate == FateAfter(log[..n], log[n].entry, log[n].observed, known, config);
      if log[n].fate.Included? {
        AppendBundled(Bundled(log[..n]), log[n], config);
      }
    }
  }

  lemma SolventStep(log: seq<Visit>, v: Visit, known: set<Address>, config: Config, paymaster: Address)
    requires PrefundSum(Bundled(log), paymaster) <= Available(log, paymaster, 0)
    requires v.fate == FateAfter(log, v.entry, v.observed, known, config)
    ensures PrefundSum(Bundled(log + [v]), paymaster) <= Available(log + [v], paymaster, 0)
  {
    AppendOpening(log, v, paymaster);
    AppendVisit(log, v);
    if v.fate.Included? {
      AppendPrefund(Bundled(log), v, paymaster);
    }
  }

  /** The balance first read for a paymaster covers all the prefunds bundled on its account. */
  lemma {:induction false} PaymastersSolvent(log: seq<Visit>, known: set<Address>, config: Config, paymaster: Address)
    requires Greedy(log, known, config)
    ensures PrefundSum(Bundled(log), paymaster) <= Available(log, paymaster, 0)
  {
    if log != [] {
      var n := |log| - 1;
      GreedyPrefix(log, n, known, config);
      PaymastersSolvent(log[..n], known, config, paymaster);
      SolventStep(log[..n], log[n], known, config, paymaster);
      assert log == log[..n] + [log[n]];
    }
  }

  /** Nobody throttled or banned when its entry was visited is in the bundle. */
  lemma OnlyGoodStandingBundled(log: seq<Visit>, known: set<Address>, config: Config, v: Visit)
    requires Greedy(log, known, config) && v in Bundled(log)
    ensures Paymaster(v.entry.op).Some? ==> v.observed.paymasterStatus == Rep.OK
    ensures Factory(v.entry.op).Some? ==> v.observed.factoryStatus == Rep.OK
  {
    var i := BundledWasIncluded(log, v, known, config);
  }

  /** The senders that have an operation pending. */
  ghost function SendersOf(entries: seq<Entry>): set<Address> {
    set e | e in entries :: e.op.sender
  }

  /** The visits come from the snapshot, whose senders are the known ones. */
  ghost predicate FromSnapshot(log: seq<Visit>, known: set<Address>) {
    forall v :: v in log ==> v.entry.op.sender in known
  }

  /** No bundled operation touched the storage of another bundled operation's sender. */
  lemma StorageIsolated(log: seq<Visit>, known: set<Address>, config: Config, i: nat, j: nat)
    requires Greedy(log, known, config) && FromSnapshot(log, known)
    requires i < |Bundled(log)| && j < |Bundled(log)| && i != j
    ensures Bundled(log)[j].entry.op.sender !in Reported(Bundled(log)[i]).storageMap
  {
    var v, w := Bundled(log)[i], Bundled(log)[j];
    BundledMembers(log, w);
    SendersDistinct(log, known, config);
    var k := BundledWasIncluded(log, v, known, config);
  }

  lemma {:induction false} OwnMapsIndexed(bs: seq<Visit>, config: Config)
    ensures |OwnMaps(bs, config)| == |bs|
    ensures forall i :: 0 <= i < |bs| ==> OwnMaps(bs, config)[i] == OwnMapOf(bs[i], config)
  {
    if bs != [] {
      OwnMapsIndexed(bs[..|bs| - 1], config);
    }
  }

  lemma {:induction false} OnlyContributor(ms: seq<StorageMap>, k: nat, addr: Address)
    requires k < |ms|
    requires forall i :: 0 <= i < |ms| && i != k ==> addr !in ms[i]
    ensures At(MergeAll(ms), addr) == At(ms[k], addr)
  {
    var n := |ms| - 1;
    MergePointwise(MergeAll(ms[..n]), ms[n], addr);
    if k == n {
      NoContributor(ms[..n], addr);
    } else {
      OnlyContributor(ms[..n], k, addr);
    }
  }

  lemma {:induction false} NoContributor(ms: seq<StorageMap>, addr: Address)
    requires forall i :: 0 <= i < |ms| ==> addr !in ms[i]
    ensures addr !in MergeAll(ms)
  {
    if ms != [] {
      NoContributor(ms[..|ms| - 1], addr);
    }
  }

  /** In the merged storage map a bundled sender's entry comes from its own operation alone. */
  lemma SenderStorageIsItsOwn(loop: Loop, known: set<Address>, config: Config, j: nat)
    requires Faithful(loop, known, config) && FromSnapshot(loop.log, known)
    requires j < |Bundled(loop.log)|
    ensures var v := Bundled(loop.log)[j];
      At(loop.acc.storage, v.entry.op.sender) ==
        if Rooted(v, config) && !ReportsRoot(v) then Some(Root(v.observed.storageHash))
        else At(Reported(v).storageMap, v.entry.op.sender)
  {
    var bs := Bundled(loop.log);
    var sender := bs[j].entry.op.sender;
    OwnMapsIndexed(bs, config);
    SendersDistinct(loop.log, known, config);
    forall i | 0 <= i < |bs| && i != j
      ensures sender !in OwnMaps(bs, config)[i]
    {
      StorageIsolated(loop.log, known, config, i, j);
    }
    OnlyContributor(OwnMaps(bs, config), j, sender);
    OwnEntry(bs[j], config);
  }

  lemma OwnEntry(v: Visit, config: Config)
    ensures At(OwnMapOf(v, config), v.entry.op.sender) ==
      if Rooted(v, config) && !ReportsRoot(v) then Some(Root(v.observed.storageHash))
      else At(Reported(v).storageMap, v.entry.op.sender)
  {
    var root: StorageMap := map[v.entry.op.sender := Root(v.observed.storageHash)];
    MergePointwise(root, Reported(v).storageMap, v.entry.op.sender);
  }

  /** The storage conditions sent with a bundle do not depend on the order of its operations. */
  lemma StorageOrderIrrelevant(loop: Loop, known: set<Address>, config: Config, reordered: seq<StorageMap>)
    requires Faithful(loop, known, config)
    requires PairwiseAgree(OwnMaps(Bundled(loop.log), config))
    requires multiset(reordered) == multiset(OwnMaps(Bundled(loop.log), config))
    ensures MergeAll(reordered) == loop.acc.storage
  {
    MergeOrderIrrelevant(OwnMaps(Bundled(loop.log), config), reordered);
  }

  // ---- an undisturbed pass --------------------------------------------------------------------------

  type Key = (Address, nat)

  function KeyOf(e: Entry): Key {
    (e.op.sender, e.op.nonce)
  }

  /** The slots the pass has emptied. */
  function Gone(log: seq<Visit>): set<Key> {
    set v | v in log && (v.fate.Banned? || v.fate.FailedValidation?) :: KeyOf(v.entry)
  }

  function Surviving(entries: seq<Entry>, gone: set<Key>): seq<Entry> {
    if entries == [] then []
    else if KeyOf(entries[|entries| - 1]) in gone then Surviving(entries[..|entries| - 1], gone)
    else Surviving(entries[..|entries| - 1], gone) + [entries[|entries| - 1]]
  }

  lemma {:induction false} SurvivingConcat(xs: seq<Entry>, ys: seq<Entry>, gone: set<Key>)
    ensures Surviving(xs + ys, gone) == Surviving(xs, gone) + Surviving(ys, gone)
  {
    if ys == [] {
      assert xs + ys == xs;
    } else {
      var n := |ys| - 1;
      assert (xs + ys)[..|xs + ys| - 1] == xs + ys[..n];
      SurvivingConcat(xs, ys[..n], gone);
    }
  }

  lemma {:induction false} SurvivingUntouched(entries: seq<Entry>, gone: set<Key>)
    requires forall e :: e in entries ==> KeyOf(e) !in gone
    ensures Surviving(entries, gone) == entries
  {
    if entries != [] {
      SurvivingUntouched(entries[..|entries| - 1], gone);
      assert entries == entries[..|entries| - 1] + [entries[|entries| - 1]];
    }
  }

  lemma {:induction false} SurvivingTwice(entries: seq<Entry>, a: set<Key>, b: set<Key>)
    ensures Surviving(Surviving(entries, a), b) == Surviving(entries, a + b)
  {
    if entries != [] {
      var front, last := entries[..|entries| - 1], entries[|entries| - 1];
      SurvivingTwice(front, a, b);
      if KeyOf(last) !in a {
        SurvivingConcat(Surviving(front, a), [last], b);
        assert [last][..0] == [];
      }
    }
  }

  lemma OthersKeepTheirKeys(entries: seq<Entry>, i: nat)
    requires Runs.UniqueSlots(entries) && i < |entries|
    ensures forall x :: x in entries[..i] || x in entries[i + 1..] ==> KeyOf(x) != KeyOf(entries[i])
  {
    forall k | 0 <= k < |entries| && k != i
      ensures KeyOf(entries[k]) != KeyOf(entries[i])
    {
      if k < i {
        assert !HasKey(entries[i], entries[k].op.sender, entries[k].op.nonce);
      } else {
        assert !HasKey(entries[k], entries[i].op.sender, entries[i].op.nonce);
      }
    }
  }

  lemma DropIsFilter(entries: seq<Entry>, i: nat)
    requires Runs.UniqueSlots(entries) && i < |entries|
    ensures Surviving(entries, {KeyOf(entries[i])}) == entries[..i] + entries[i + 1..]
  {
    var front, back, gone := entries[..i], entries[i + 1..], {KeyOf(entries[i])};
    var upTo := entries[..i + 1];
    assert entries == upTo + back && upTo[..|upTo| - 1] == front;
    SurvivingConcat(upTo, back, gone);
    assert (forall x :: x in front ==> KeyOf(x) !in gone) && (forall x :: x in back ==> KeyOf(x) !in gone) by {
      OthersKeepTheirKeys(entries, i);
    }
    SurvivingUntouched(front, gone);
    SurvivingUntouched(back, gone);
  }

  /** With one entry per slot, removing a slot is filtering it out. */
  lemma RemoveIsFilter(pool: Pool, e: Entry)
    requires Runs.UniqueSlots(pool.entries)
    ensures RemoveUserOp(pool, ByOp(e.op.sender, e.op.nonce)).entries == Surviving(pool.entries, {KeyOf(e)})
  {
    var entries := pool.entries;
    var found := FindBySenderNonce(entries, e.op.sender, e.op.nonce);
    if found.None? {
      forall k | 0 <= k < |entries|
        ensures KeyOf(entries[k]) != KeyOf(e)
      {
        assert !HasKey(entries[k], e.op.sender, e.op.nonce);
      }
      SurvivingUntouched(entries, {KeyOf(e)});
    } else {
      assert HasKey(entries[found.value], e.op.sender, e.op.nonce);
      DropIsFilter(entries, found.value);
    }
  }

  lemma PoolAfterIsFilter(pool: Pool, v: Visit)
    requires Runs.UniqueSlots(pool.entries)
    ensures PoolAfter(pool, v.entry, v.fate).entries == Surviving(pool.entries, Gone([v]))
    ensures Runs.UniqueSlots(PoolAfter(pool, v.entry, v.fate).entries)
  {
    if Removes(v.fate) {
      RemoveIsFilter(pool, v.entry);
      assert Gone([v]) == {KeyOf(v.entry)};
      var rep := Rep.Ledger(Rep.RawConfig(Rep.BUNDLER_PARAMS, 0, 0), map[], {}, {});
      Runs.StepKeepsUniqueSlots(Runs.State(pool, rep), Runs.Remove(ByOp(v.entry.op.sender, v.entry.op.nonce)));
    } else {
      assert Gone([v]) == {};
      SurvivingUntouched(pool.entries, {});
    }
  }

  /** The visits cover the snapshot from its start, and stop early only at the gas cut-off. */
  ghost predicate Covers(log: seq<Visit>, cut: bool, entries: seq<Entry>, i: nat) {
    && |log| == i <= |entries|
    && (forall k :: 0 <= k < i ==> log[k].entry == entries[k])
    && (forall k :: 0 <= k < i && log[k].fate.OverGas? ==> k == i - 1 && cut)
    && (cut ==> i > 0 && log[i - 1].fate.OverGas?)
  }

  /** What the pass has established when it is about to look at entry `i`. */
  ghost predicate OnTrack(entries: seq<Entry>, i: nat, pass: Progress, known: set<Address>, config: Config, start: seq<Entry>) {
    && Covers(pass.loop.log, pass.loop.cut, entries, i)
    && Faithful(pass.loop, known, config)
    && Runs.UniqueSlots(pass.pool.entries)
    && pass.pool.entries == Surviving(start, Gone(pass.loop.log))
  }

  lemma GoneGrows(log: seq<Visit>, v: Visit)
    ensures Gone(log + [v]) == Gone(log) + Gone([v])
  {
  }

  lemma StepStaysOnTrack(entries: seq<Entry>, i: nat, pass: Progress, o: Observed, known: set<Address>, config: Config, start: seq<Entry>)
    requires OnTrack(entries, i, pass, known, config, start)
    requires i < |entries| && !pass.loop.cut
    ensures var loop := VisitEntry(pass.loop, entries[i], o, known, config);
      OnTrack(entries, i + 1, Progress(loop, PoolAfter(pass.pool, entries[i], loop.log[i].fate)), known, config, start)
  {
    var loop := VisitEntry(pass.loop, entries[i], o, known, config);
    var v := Visit(entries[i], o, FateOf(pass.loop.acc, entries[i], o, known, config));
    assert loop.log == pass.loop.log + [v];
    assert Covers(loop.log, loop.cut, entries, i + 1);
    VisitKeepsFaithful(pass.loop, entries[i], o, known, config);
    PoolAfterIsFilter(pass.pool, v);
    SurvivingTwice(start, Gone(pass.loop.log), Gone([v]));
    GoneGrows(pass.loop.log, v);
  }

  lemma {:induction false} PassRuns(entries: seq<Entry>, i: nat, pass: Progress, look: Entry -> Observed,
                                    known: set<Address>, config: Config, start: seq<Entry>)
    requires OnTrack(entries, i, pass, known, config, start)
    ensures var end := PassFrom(entries, i, pass, look, known, config);
      && |end.loop.log| <= |entries|
      && OnTrack(entries, |end.loop.log|, end, known, config, start)
      && (!end.loop.cut ==> |end.loop.log| == |entries|)
    decreases |entries| - i
  {
    if i < |entries| && !pass.loop.cut {
      var loop := VisitEntry(pass.loop, entries[i], look(entries[i]), known, config);
      StepStaysOnTrack(entries, i, pass, look(entries[i]), known, config, start);
      PassRuns(entries, i + 1, Progress(loop, PoolAfter(pass.pool, entries[i], loop.log[i].fate)), look, known, config, start);
    }
  }

  lemma SnapshotSendersKnown(pool: Pool, log: seq<Visit>)
    requires |log| <= |SortByCost(pool.entries)|
    requires forall k :: 0 <= k < |log| ==> log[k].entry == SortByCost(pool.entries)[k]
    ensures FromSnapshot(log, KnownSenders(pool.entries))
  {
    var snapshot := SortByCost(pool.entries);
    Runs.SnapshotIsStableSort(pool.entries);
    forall v | v in log
      ensures v.entry.op.sender in KnownSenders(pool.entries)
    {
      var k :| 0 <= k < |log| && log[k] == v;
      assert snapshot[k] in multiset(snapshot);
      assert v.entry in pool.entries;
    }
  }

  // ---- which scores matter ----------------------------------------------------------------------------

  lemma {:induction false} PassDependsOnLook(entries: seq<Entry>, i: nat, pass: Progress, look: Entry -> Observed,
                                             other: Entry -> Observed, known: set<Address>, config: Config)
    requires i <= |entries| && forall e :: e in entries ==> look(e) == other(e)
    ensures PassFrom(entries, i, pass, look, known, config) == PassFrom(entries, i, pass, other, known, config)
    decreases |entries| - i
  {
    if i < |entries| && !pass.loop.cut {
      var e := entries[i];
      var loop := VisitEntry(pass.loop, e, look(e), known, config);
      PassDependsOnLook(entries, i + 1, Progress(loop, PoolAfter(pass.pool, e, loop.log[|loop.log| - 1].fate)), look, other,
                        known, config);
    }
  }

  /** What an undisturbed pass sees of an entry: the statuses of its own paymaster and factory, and the chain's answers. */
  ghost predicate SeesTruly(v: Visit, rep: Rep.Ledger, chain: Chain) {
    && v.observed.paymasterStatus == Rep.GetStatus(rep, Paymaster(v.entry.op))
    && v.observed.factoryStatus == Rep.GetStatus(rep, Factory(v.entry.op))
    && v.observed.validation == chain.validate(v.entry.op, v.entry.referenced)
    && (Paymaster(v.entry.op).Some? ==> v.observed.balance == chain.balanceOf(Paymaster(v.entry.op).value))
    && v.observed.storageHash == chain.storageHash(v.entry.op.sender)
  }

  lemma {:induction false} PassSeesTruly(entries: seq<Entry>, i: nat, pass: Progress, rep: Rep.Ledger, chain: Chain,
                                         known: set<Address>, config: Config)
    requires i <= |entries| && forall v :: v in pass.loop.log ==> SeesTruly(v, rep, chain)
    ensures forall v :: v in PassFrom(entries, i, pass, Look(rep, chain), known, config).loop.log ==> SeesTruly(v, rep, chain)
    decreases |entries| - i
  {
    if i < |entries| && !pass.loop.cut {
      var e := entries[i];
      var loop := VisitEntry(pass.loop, e, Look(rep, chain)(e), known, config);
      assert SeesTruly(loop.log[|pass.loop.log|], rep, chain);
      PassSeesTruly(entries, i + 1, Progress(loop, PoolAfter(pass.pool, e, loop.log[|loop.log| - 1].fate)), rep, chain, known, config);
    }
  }

  /** The two ledgers give each pending operation's paymaster and factory the same status. */
  ghost predicate SameEntityStatus(entries: seq<Entry>, r: Rep.Ledger, q: Rep.Ledger) {
    forall e :: e in entries ==>
      && Rep.GetStatus(r, Paymaster(e.op)) == Rep.GetStatus(q, Paymaster(e.op))
      && Rep.GetStatus(r, Factory(e.op)) == Rep.GetStatus(q, Factory(e.op))
  }

  /**
   * A pass depends on the ledger only through the statuses of paymasters and factories: what senders score
   * changes neither the bundle nor the mempool nor any decision.
   */
  lemma SenderScoresIrrelevant(pool: Pool, chain: Chain, r: Rep.Ledger, q: Rep.Ledger, config: Config)
    requires GetSortedForInclusion(pool).Ok? && SameEntityStatus(pool.entries, r, q)
    ensures var snapshot := GetSortedForInclusion(pool).value;
      WholePass(snapshot, pool, Look(r, chain), config) == WholePass(snapshot, pool, Look(q, chain), config)
  {
    var snapshot := SortByCost(pool.entries);
    Runs.SnapshotIsStableSort(pool.entries);
    forall e | e in snapshot
      ensures Look(r, chain)(e) == Look(q, chain)(e)
    {
      assert e in multiset(snapshot);
      assert e in pool.entries;
    }
    PassDependsOnLook(snapshot, 0, Progress(Loop(START, [], false), pool), Look(r, chain), Look(q, chain),
                      KnownSenders(pool.entries), config);
  }

  /** An entry is dropped as banned exactly when its own paymaster or factory is banned, whoever sent it. */
  lemma BannedFateExactly(log: seq<Visit>, known: set<Address>, config: Config, v: Visit)
    requires Greedy(log, known, config) && v in log
    ensures v.fate.Banned? <==> v.observed.paymasterStatus == Rep.BANNED || v.observed.factoryStatus == Rep.BANNED
  {
    var i :| 0 <= i < |log| && log[i] == v;
    assert log[i].fate == FateAfter(log[..i], log[i].entry, log[i].observed, known, config);
  }

  /**
   * An undisturbed pass visits the sorted snapshot in order up to the gas cut-off, decides each entry by
   * the greedy rule, bundles exactly the included ones, and leaves the mempool without exactly the
   * entries it removed.
   */
  lemma PassIsGreedy(pool: Pool, look: Entry -> Observed, config: Config)
    requires Runs.UniqueSlots(pool.entries)
    requires GetSortedForInclusion(pool).Ok?
    ensures var snapshot := GetSortedForInclusion(pool).value;
      var pass := WholePass(snapshot, pool, look, config);
      var log := pass.loop.log;
      && |log| <= |snapshot| && Covers(log, pass.loop.cut, snapshot, |log|)
      && (!pass.loop.cut ==> |log| == |snapshot|)
      && Faithful(pass.loop, SendersOf(pool.entries), config)
      && FromSnapshot(log, SendersOf(pool.entries))
      && pass.pool.entries == Surviving(pool.entries, Gone(log))
  {
    var snapshot, known := GetSortedForInclusion(pool).value, KnownSenders(pool.entries);
    assert known == SendersOf(pool.entries);
    FreshLoopFaithful(known, config);
    assert Gone([]) == {};
    SurvivingUntouched(pool.entries, {});
    PassRuns(snapshot, 0, Progress(Loop(START, [], false), pool), look, known, config, pool.entries);
    SnapshotSendersKnown(pool, WholePass(snapshot, pool, look, config).loop.log);
  }

  /**
   * No undisturbed pass bundles an operation whose paymaster or factory the ledger holds throttled or banned, and
   * each one it bundles has passed re-validation.
   */
  lemma GoodStandingInLedger(pool: Pool, rep: Rep.Ledger, chain: Chain, config: Config, v: Visit)
    requires Runs.UniqueSlots(pool.entries) && GetSortedForInclusion(pool).Ok?
    requires v in Bundled(WholePass(GetSortedForInclusion(pool).value, pool, Look(rep, chain), config).loop.log)
    ensures Paymaster(v.entry.op).Some? ==> Rep.GetStatus(rep, Paymaster(v.entry.op)) == Rep.OK
    ensures Factory(v.entry.op).Some? ==> Rep.GetStatus(rep, Factory(v.entry.op)) == Rep.OK
    ensures chain.validate(v.entry.op, v.entry.referenced) == Some(Reported(v))
  {
    var snapshot, known := GetSortedForInclusion(pool).value, KnownSenders(pool.entries);
    var log := WholePass(snapshot, pool, Look(rep, chain), config).loop.log;
    PassIsGreedy(pool, Look(rep, chain), config);
    PassSeesTruly(snapshot, 0, Progress(Loop(START, [], false), pool), rep, chain, known, config);
    BundledMembers(log, v);
    OnlyGoodStandingBundled(log, known, config, v);
    var i := BundledWasIncluded(log, v, known, config);
  }
}
