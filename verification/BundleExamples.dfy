/** A sender blamed for a failed bundle is bundled again by the next attempt. */
module BundleExamples {
  import opened Common
  import opened Mempool
  import opened Bundle
  import Events
  import Rep = Reputation

  predicate NoEntities(op: UserOp) {
    Paymaster(op) == None && Factory(op) == None
  }

  /** Re-validation passes, within the gas limit and touching nobody else's storage. */
  predicate Includable(e: Entry, chain: Chain, config: Config) {
    var v := chain.validate(e.op, e.referenced);
    && NoEntities(e.op) && v.Some?
    && v.value.storageMap.Keys <= {e.op.sender}
    && GasOf(e, v.value) <= config.maxBundleGas
  }

  lemma LoneFate(e: Entry, rep: Rep.Ledger, chain: Chain, known: set<Address>, config: Config)
    requires Includable(e, chain, config)
    ensures FateOf(START, e, Look(rep, chain)(e), known, config).Included?
  {
  }

  /** With one such entry pending, the pass bundles it whatever its sender's score is. */
  lemma LonePass(e: Entry, counts: map<Address, int>, rep: Rep.Ledger, chain: Chain, config: Config)
    requires Includable(e, chain, config)
    ensures var pass := WholePass([e], Pool([e], counts), Look(rep, chain), config);
      pass.loop.acc.bundle == [e.op] && pass.pool == Pool([e], counts)
  {
    var pool := Pool([e], counts);
    var known := KnownSenders(pool.entries);
    LoneFate(e, rep, chain, known, config);
    var loop := VisitEntry(Loop(START, [], false), e, Look(rep, chain)(e), known, config);
    assert loop.acc.bundle == [e.op] && loop.log[|loop.log| - 1].fate.Included? && !loop.cut;
    assert PassFrom([e], 1, Progress(loop, pool), Look(rep, chain), known, config) == Progress(loop, pool);
  }

  lemma LoneSnapshot(e: Entry, counts: map<Address, int>)
    ensures GetSortedForInclusion(Pool([e], counts)) == Ok([e])
  {
    var one := [e];
    assert one[1..] == [];
    assert SortByCost(one) == InsertByCost(e, SortByCost(one[1..])) == one;
    assert GetSortedForInclusion(Pool(one, counts)) == Ok(SortByCost(one));
  }

  lemma QuietPoll(w: Events.World, head: nat)
    ensures Events.Poll(w, head, []) == Events.Prepared(w, head)
  {
  }

  /**
   * A first attempt fails and is blamed on the sender (AA2). The sender is banned, its operation stays pending,
   * and the second attempt builds a bundle of that very operation.
   */
  lemma BlamedSenderBundledAgain(w: Events.World, e: Entry, answers: Answers, config: Config)
    requires w.pool.entries == [e] && Includable(e, answers.chain, config)
    requires answers.events == [] && answers.delivery == FailedOp(0, AA2)
    requires w.rep.config.params == Rep.BUNDLER_PARAMS && e.op.sender !in w.rep.whitelist
    requires e.op.sender in w.rep.entries ==> w.rep.entries[e.op.sender].opsSeen >= 0
    ensures var first := NextBundle(w, answers, config);
      && !first.threw && first.world.pool == w.pool
      && Rep.GetStatus(first.world.rep, Some(e.op.sender)) == Rep.BANNED
      && GetSortedForInclusion(first.world.pool) == Ok([e])
      && WholePass([e], first.world.pool, Look(first.world.rep, answers.chain), config).loop.acc.bundle == [e.op]
  {
    QuietPoll(w, answers.head);
    LoneSnapshot(e, w.pool.counts);
    assert w.pool == Pool([e], w.pool.counts);
    LonePass(e, w.pool.counts, w.rep, answers.chain, config);
    var first := NextBundle(w, answers, config);
    assert first.world.rep == Rep.CrashedHandleOps(w.rep, Some(e.op.sender));
    Rep.CrashBans(w.rep, e.op.sender, 0);
    Rep.BannedForMeansBanned(first.world.rep, e.op.sender, 0);
    LonePass(e, w.pool.counts, first.world.rep, answers.chain, config);
  }

  const LONE := Entry(UserOp(1, 0, [], [], 0, 0, 0, []), 0, 0, ReferencedCodeHashes([], 0), None)
  const LIMITS := Config(1000, false, false)
  const WORLD := Events.World(Events.FRESH, Pool([LONE], map[1 := 1]),
                              Rep.Ledger(Rep.RawConfig(Rep.BUNDLER_PARAMS, 0, 0), map[], {}, {}))

  function Replies(): Answers {
    Answers(0, [], Chain((op, referenced) => Some(Validation(0, 0, map[])), a => 0, a => 0), FailedOp(0, AA2), 0, [], 0, [])
  }

  /** One such state, written out. */
  lemma BlamedSenderState()
    ensures var first := NextBundle(WORLD, Replies(), LIMITS);
      && Rep.GetStatus(first.world.rep, Some(1)) == Rep.BANNED
      && WholePass([LONE], first.world.pool, Look(first.world.rep, Replies().chain), LIMITS).loop.acc.bundle == [LONE.op]
  {
    assert Includable(LONE, Replies().chain, LIMITS);
    BlamedSenderBundledAgain(WORLD, LONE, Replies(), LIMITS);
  }
}
