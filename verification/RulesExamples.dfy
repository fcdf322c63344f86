/** An accepted simulation whose report misses a read. */
module RulesExamples {
  import opened Common
  import opened CallTree
  import opened Rules
  import opened StorageMaps
  import Tracer

  const SENDER: Address := 0xA1
  const ENTRY_POINT: Address := 0xE0
  const SPONSOR: Address := 0xF5

  const CREATE_SENDER: Bytes := [0x57, 0x0e, 0x1a, 0x36]
  const VALIDATE_USER_OP: Bytes := [0x3a, 0x87, 0x1c, 0xdd]
  const VALIDATE_PAYMASTER_USER_OP: Bytes := [0xf4, 0x65, 0xc7, 0x7e]
  const DEPOSIT_TO: Bytes := [0xb7, 0x60, 0xfa, 0xf9]
  const OWNER: Bytes := [0x8d, 0xa5, 0xcb, 0x5b]

  /** The parser's ABI is joined from three contracts; the account's is not among them. */
  const ABI: Abi := map[CREATE_SENDER := "createSender", VALIDATE_PAYMASTER_USER_OP := "validatePaymasterUserOp",
                        DEPOSIT_TO := "depositTo"]

  function Setting(hash: Bytes -> Slot, contextOf: Bytes -> Option<Bytes>): Env {
    Env(ENTRY_POINT, ABI, Selectors(CREATE_SENDER, VALIDATE_USER_OP, VALIDATE_PAYMASTER_USER_OP), hash, contextOf)
  }

  lemma SelectorsDiffer()
    ensures CREATE_SENDER != VALIDATE_USER_OP && CREATE_SENDER != VALIDATE_PAYMASTER_USER_OP
    ensures VALIDATE_USER_OP != VALIDATE_PAYMASTER_USER_OP
  {
    assert CREATE_SENDER[0] == 0x57 && VALIDATE_USER_OP[0] == 0x3a && VALIDATE_PAYMASTER_USER_OP[0] == 0xf4;
  }

  ghost predicate HarmlessEntry(env: Env, e: CallEntry) {
    !IllegalEntryPointCall(env, e) && !SendsValue(env, e)
  }

  /** A call that sends nothing, and not to the entry point. */
  predicate Quiet(env: Env, o: Opening) {
    o.to != env.entryPoint && (o.value.Some? ==> o.value.value == 0)
  }

  lemma QuietCallHarmless(env: Env, o: Opening, c: Closing)
    requires Quiet(env, o)
    ensures HarmlessEntry(env, EntryOf(env.abi, o, c))
  {
  }

  predicate QuietForest(env: Env, f: Forest) {
    match f
    case Leaf => true
    case Branch(o, inner, _, rest) => Quiet(env, o) && QuietForest(env, inner) && QuietForest(env, rest)
  }

  lemma {:induction false} QuietForestHarmless(env: Env, f: Forest)
    requires QuietForest(env, f)
    ensures forall e :: e in PostOrder(env.abi, f) ==> HarmlessEntry(env, e)
  {
    match f
    case Leaf =>
    case Branch(o, inner, c, rest) =>
      QuietForestHarmless(env, inner);
      QuietCallHarmless(env, o, c);
      QuietForestHarmless(env, rest);
  }

  /** Calls that send nothing and keep off the entry point are allowed, however they nest. */
  lemma QuietCallsAllowed(env: Env, c: Simulation, f: Forest, top: Closing)
    requires QuietForest(env, f) && c.calls == Flatten(f) + [Exit(top)]
    ensures CallsAllowed(env, c)
  {
    CallStackIsPostOrder(env.abi, f, top);
    QuietForestHarmless(env, f);
  }

  // ---- a read that is not reported ------------------------------------------------------------------

  function SponsoredOp(): UserOp {
    UserOp(SENDER, 0, [], [], 100000, 10, 10, Zeros(19) + [0xF5])
  }

  /** The account reads its owner, in slot 0. */
  function AccountLevel(owner: Tracer.Word): Tracer.Level {
    Tracer.Level(VALIDATE_USER_OP, SENDER, map[Tracer.CALLDATALOAD := 1, Tracer.SLOAD := 1, Tracer.RETURN := 1],
                 map[SENDER := Tracer.AccessInfo(map[0 := owner], map[])], map[], map[], false)
  }

  /** The paymaster asks the account for something it keeps in slot 7. */
  function PaymasterLevel(kept: Tracer.Word): Tracer.Level {
    Tracer.Level(VALIDATE_PAYMASTER_USER_OP, SPONSOR,
                 map[Tracer.CALLDATALOAD := 2, Tracer.STATICCALL := 1, Tracer.SLOAD := 1, Tracer.RETURN := 2],
                 map[SENDER := Tracer.AccessInfo(map[7 := kept], map[])],
                 map[SENDER := Tracer.ContractSize(Tracer.STATICCALL, 500)], map[], false)
  }

  /** Both calls of the entry point, and the paymaster's call back to the account. */
  function TwoCalls(answer: Bytes, context: Bytes, kept: Bytes): Forest {
    Branch(Opening(CALL, ENTRY_POINT, SENDER, VALIDATE_USER_OP, Some(0)), Leaf, Closing(false, answer),
           Branch(Opening(CALL, ENTRY_POINT, SPONSOR, VALIDATE_PAYMASTER_USER_OP, Some(0)),
                  Branch(Opening(STATICCALL, SPONSOR, SENDER, OWNER, None), Leaf, Closing(false, kept), Leaf),
                  Closing(false, context), Leaf))
  }

  /** A sponsored operation of an existing account, its paymaster staked, up to the simulation's closing revert. */
  function SponsoredSimulation(owner: Tracer.Word, kept: Tracer.Word, f: Forest, result: Bytes): Simulation {
    Simulation(SponsoredOp(), Stakes(None, StakeInfo(SENDER, 0, 0), Some(StakeInfo(SPONSOR, 1, 86400))),
               [AccountLevel(owner), PaymasterLevel(kept)], Flatten(f) + [Exit(Closing(true, result))], [])
  }

  lemma TwoLevels(env: Env, c: Simulation)
    requires |c.levels| == 2 && env.selectors == Selectors(CREATE_SENDER, VALIDATE_USER_OP, VALIDATE_PAYMASTER_USER_OP)
    requires c.levels[0].methodSig == VALIDATE_USER_OP && c.levels[1].methodSig == VALIDATE_PAYMASTER_USER_OP
    ensures LevelOf(env, c, FACTORY) == None && LevelOf(env, c, ACCOUNT) == Some(0) && LevelOf(env, c, PAYMASTER) == Some(1)
  {
    SelectorsDiffer();
  }

  /** The level touches nothing but the sender, and runs nothing banned. */
  ghost predicate Modest(level: Tracer.Level) {
    && !level.oog && level.extCodeAccess == map[] && level.access.Keys == {SENDER} && level.contractSize.Keys <= {SENDER}
    && forall op :: op in level.opcodes ==> !IsBanned(op) && !op.CREATE2?
  }

  lemma ModestLevelAllowed(env: Env, c: Simulation, title: Title, level: Tracer.Level)
    requires env.entryPoint == ENTRY_POINT && c.op.sender == SENDER && HasStake(c.stakes.paymaster) && Modest(level)
    ensures EntityRules(env, c, title, level)
  {
  }

  lemma SampleLevelsModest(owner: Tracer.Word, kept: Tracer.Word)
    ensures Modest(AccountLevel(owner)) && Modest(PaymasterLevel(kept))
  {
  }

  /** Two modest levels and quiet calls: accepted. */
  lemma ModestSimulationAccepted(env: Env, c: Simulation, f: Forest, top: Closing)
    requires env.entryPoint == ENTRY_POINT && c.op.sender == SENDER && HasStake(c.stakes.paymaster)
    requires env.selectors == Selectors(CREATE_SENDER, VALIDATE_USER_OP, VALIDATE_PAYMASTER_USER_OP)
    requires |c.levels| == 2 && Modest(c.levels[0]) && Modest(c.levels[1])
    requires c.levels[0].methodSig == VALIDATE_USER_OP && c.levels[1].methodSig == VALIDATE_PAYMASTER_USER_OP
    requires QuietForest(env, f) && c.calls == Flatten(f) + [Exit(top)]
    ensures RulesHold(env, c)
  {
    QuietCallsAllowed(env, c, f, top);
    TwoLevels(env, c);
    forall title
      ensures EntityPasses(env, c, title)
    {
      ModestLevelAllowed(env, c, title, c.levels[0]);
      ModestLevelAllowed(env, c, title, c.levels[1]);
    }
  }

  lemma TwoCallsQuiet(env: Env, answer: Bytes, context: Bytes, kept: Bytes)
    requires env.entryPoint == ENTRY_POINT
    ensures QuietForest(env, TwoCalls(answer, context, kept))
  {
  }

  /**
   * An accepted simulation whose report misses a read: slot 7 of the account, whatever the values read, the data
   * returned, the hash function and the decoding of the context.
   */
  lemma AcceptedReadIsLost(hash: Bytes -> Slot, contextOf: Bytes -> Option<Bytes>, owner: Tracer.Word, kept: Tracer.Word,
                           answer: Bytes, context: Bytes, keptData: Bytes, result: Bytes, m: StorageMap)
    requires ReportsFirstReads(SponsoredSimulation(owner, kept, TwoCalls(answer, context, keptData), result).levels, m)
    ensures var c := SponsoredSimulation(owner, kept, TwoCalls(answer, context, keptData), result);
      && Paymaster(c.op) == Some(SPONSOR) && c.stakes.paymaster.value.addr == SPONSOR
      && RulesHold(Setting(hash, contextOf), c)
      && Reads(c.levels[1], SENDER, 7) && !Rules.Reported(m, SENDER, 7)
  {
    var env, f := Setting(hash, contextOf), TwoCalls(answer, context, keptData);
    var c := SponsoredSimulation(owner, kept, f, result);
    SponsorNamed(19);
    SampleLevelsModest(owner, kept);
    TwoCallsQuiet(env, answer, context, keptData);
    ModestSimulationAccepted(env, c, f, Closing(true, result));
    SecondReadLost(c.levels, m);
  }

  lemma SecondReadLost(levels: seq<Tracer.Level>, m: StorageMap)
    requires |levels| == 2 && SENDER in levels[0].access && !Reads(levels[0], SENDER, 7)
    requires ReportsFirstReads(levels, m)
    ensures !Rules.Reported(m, SENDER, 7)
  {
    ReportedExactly(levels, m, SENDER, 0, 7);
  }

  lemma SponsorNamed(n: nat)
    requires n == 19
    ensures Paymaster(SponsoredOp()) == Some(SPONSOR)
  {
    NamingNames(n, 0xF5);
  }

  // ---- a paymaster that reads its own storage -------------------------------------------------------

  /** The same simulation with the paymaster reading its own slot 3 as well, under a stake and delay of any size. */
  function SelfReadingSimulation(stake: nat, delay: nat, owner: Tracer.Word, kept: Tracer.Word, own: Tracer.Word,
                                 f: Forest, result: Bytes): Simulation {
    var c := SponsoredSimulation(owner, kept, f, result);
    var level := PaymasterLevel(kept);
    c.(stakes := Stakes(None, StakeInfo(SENDER, 0, 0), Some(StakeInfo(SPONSOR, stake, delay))),
       levels := [AccountLevel(owner), level.(access := level.access[SPONSOR := Tracer.AccessInfo(map[3 := own], map[])])])
  }

  /** It is accepted if and only if the paymaster has stake and delay. */
  lemma SponsorNeedsStakeExactly(hash: Bytes -> Slot, contextOf: Bytes -> Option<Bytes>, stake: nat, delay: nat,
                                 owner: Tracer.Word, kept: Tracer.Word, own: Tracer.Word,
                                 answer: Bytes, context: Bytes, keptData: Bytes, result: Bytes)
    ensures var c := SelfReadingSimulation(stake, delay, owner, kept, own, TwoCalls(answer, context, keptData), result);
      RulesHold(Setting(hash, contextOf), c) <==> stake >= 1 && delay >= 1
  {
    var env, f := Setting(hash, contextOf), TwoCalls(answer, context, keptData);
    var c := SelfReadingSimulation(stake, delay, owner, kept, own, f, result);
    TwoCallsQuiet(env, answer, context, keptData);
    SelfReadingDecided(env, c, f, Closing(true, result));
  }

  /** A level that touches sender and sponsor only, reads them, and runs nothing banned. */
  ghost predicate ReadsSponsor(level: Tracer.Level) {
    && !level.oog && level.extCodeAccess == map[] && level.access.Keys == {SENDER, SPONSOR}
    && level.access[SPONSOR].slotReads.Keys == {3} && level.access[SPONSOR].slotWrites == map[]
    && level.contractSize.Keys <= {SENDER}
    && forall op :: op in level.opcodes ==> !IsBanned(op) && !op.CREATE2?
  }

  lemma SelfReadingDecided(env: Env, c: Simulation, f: Forest, top: Closing)
    requires env.entryPoint == ENTRY_POINT && c.op.sender == SENDER && c.keccak == []
    requires env.selectors == Selectors(CREATE_SENDER, VALIDATE_USER_OP, VALIDATE_PAYMASTER_USER_OP)
    requires |c.levels| == 2 && Modest(c.levels[0]) && ReadsSponsor(c.levels[1])
    requires c.levels[0].methodSig == VALIDATE_USER_OP && c.levels[1].methodSig == VALIDATE_PAYMASTER_USER_OP
    requires QuietForest(env, f) && c.calls == Flatten(f) + [Exit(top)]
    requires c.stakes.paymaster.Some? && c.stakes.paymaster.value.addr == SPONSOR
    ensures RulesHold(env, c) <==> c.stakes.paymaster.value.stake >= 1 && c.stakes.paymaster.value.unstakeDelaySec >= 1
  {
    QuietCallsAllowed(env, c, f, top);
    TwoLevels(env, c);
    if RulesHold(env, c) {
      assert !Associated(env, c, 3, SENDER);
      AcceptedTouchNeedsStake(env, c, PAYMASTER, 1, SPONSOR, 3);
    }
    if c.stakes.paymaster.value.stake >= 1 && c.stakes.paymaster.value.unstakeDelaySec >= 1 {
      forall title
        ensures EntityPasses(env, c, title)
      {
        ModestLevelAllowed(env, c, title, c.levels[0]);
        StakedAccessExactly(env, c, PAYMASTER, SPONSOR, c.levels[1].access[SPONSOR]);
      }
    }
  }
}
