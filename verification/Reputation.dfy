/** ReputationManager: seen/included scores of addresses and the status they imply. */
module Reputation {
  import opened Common

  datatype Status = OK | THROTTLED | BANNED {
    /** Severity: a banned address is worse off than a throttled one. */
    ghost function Severity(): nat {
      match this
      case OK => 0
      case THROTTLED => 1
      case BANNED => 2
    }
  }

  datatype Entry = Entry(opsSeen: int, opsIncluded: int)

  datatype Params = Params(minInclusionDenominator: int, throttlingSlack: int, banSlack: int)

  const BUNDLER_PARAMS := Params(10, 10, 50)

  datatype Config = RawConfig(params: Params, minStake: nat, minUnstakeDelay: nat)
  type ValidConfig = c: Config | c.params.minInclusionDenominator > 0
    witness RawConfig(BUNDLER_PARAMS, 0, 0)

  datatype Ledger = Ledger(
    config: ValidConfig,
    entries: map<Address, Entry>,
    blackList: set<Address>,
    whitelist: set<Address>)

  datatype RpcError = ReputationError | InsufficientStake | OpcodeValidation | InvalidFields | UnsafeInteger

  const CRASH_PENALTY := 10000

  // ---- status ---------------------------------------------------------------------------------

  function StatusOf(params: Params, e: Entry): Status
    requires params.minInclusionDenominator > 0
  {
    var minExpectedIncluded := e.opsSeen / params.minInclusionDenominator;
    if minExpectedIncluded <= e.opsIncluded + params.throttlingSlack then OK
    else if minExpectedIncluded <= e.opsIncluded + params.banSlack then THROTTLED
    else BANNED
  }

  function GetStatus(r: Ledger, addr: Option<Address>): Status {
    if addr.None? || addr.value in r.whitelist then OK
    else if addr.value in r.blackList then BANNED
    else if addr.value !in r.entries then OK
    else StatusOf(r.config.params, r.entries[addr.value])
  }

  function CheckBanned(r: Ledger, info: StakeInfo): Outcome<RpcError> {
    if GetStatus(r, Some(info.addr)) == BANNED then Fail(ReputationError) else Pass
  }

  function CheckThrottled(r: Ledger, info: StakeInfo): Outcome<RpcError> {
    if GetStatus(r, Some(info.addr)) == THROTTLED then Fail(ReputationError) else Pass
  }

  function CheckStake(r: Ledger, info: StakeInfo): Outcome<RpcError> {
    if info.addr in r.whitelist then Pass
    else if GetStatus(r, Some(info.addr)) == BANNED then Fail(ReputationError)
    else if info.stake < r.config.minStake then Fail(InsufficientStake)
    else if info.unstakeDelaySec < r.config.minUnstakeDelay then Fail(InsufficientStake)
    else Pass
  }

  const SAME_UNSTAKED_ENTITY_MEMPOOL_COUNT := 10
  const INCLUSION_RATE_FACTOR := 10

  /** `Math.floor(n / d)` for any sign of the divisor. */
  function FloorDiv(n: int, d: int): int
    requires d != 0
  {
    if d > 0 then n / d else (-n) / (-d)
  }

  /** The quotient is rounded towards minus infinity, also for a negative divisor. */
  lemma FloorDivFloors(n: int, d: int)
    requires d != 0
    ensures d > 0 ==> d * FloorDiv(n, d) <= n < d * FloorDiv(n, d) + d
    ensures d < 0 ==> d * FloorDiv(n, d) >= n > d * FloorDiv(n, d) + d
  {
    if d < 0 {
      var q := (-n) / (-d);
      assert (-d) * q <= -n < (-d) * q + (-d);
      assert (-d) * q == -(d * q);
    }
  }

  function CalculateMaxAllowedMempoolOpsUnstaked(r: Ledger, entity: Address): int {
    if entity !in r.entries then SAME_UNSTAKED_ENTITY_MEMPOOL_COUNT
    else
      var e := r.entries[entity];
      var rate := if e.opsSeen == 0 then 0 else FloorDiv(e.opsIncluded * INCLUSION_RATE_FACTOR, e.opsSeen);
      SAME_UNSTAKED_ENTITY_MEMPOOL_COUNT + rate + Min(e.opsIncluded, 10000)
  }

  // ---- updates --------------------------------------------------------------------------------

  function GetOrCreate(r: Ledger, addr: Address): Entry {
    if addr in r.entries then r.entries[addr] else Entry(0, 0)
  }

  function WithEntry(r: Ledger, addr: Address, e: Entry): Ledger {
    r.(entries := r.entries[addr := e])
  }

  function UpdateSeenStatus(r: Ledger, addr: Option<Address>): Ledger {
    match addr
    case None => r
    case Some(a) =>
      var e := GetOrCreate(r, a);
      WithEntry(r, a, e.(opsSeen := e.opsSeen + 1))
  }

  function UpdateIncludedStatus(r: Ledger, addr: Address): Ledger {
    var e := GetOrCreate(r, addr);
    WithEntry(r, addr, e.(opsIncluded := e.opsIncluded + 1))
  }

  function CrashedHandleOps(r: Ledger, addr: Option<Address>): Ledger {
    match addr
    case None => r
    case Some(a) => WithEntry(r, a, Entry(GetOrCreate(r, a).opsSeen + CRASH_PENALTY, 0))
  }

  function Decayed(n: int): int {
    n * 23 / 24
  }

  /** One cron tick on one entry. The second field decays the already decayed `opsSeen`. */
  function CronEntry(e: Entry): Entry {
    var seen := Decayed(e.opsSeen);
    Entry(seen, Decayed(seen))
  }

  function HourlyCron(r: Ledger): Ledger {
    r.(entries := map a | a in r.entries && CronEntry(r.entries[a]) != Entry(0, 0) :: CronEntry(r.entries[a]))
  }

  function ClearState(r: Ledger): Ledger {
    r.(entries := map[])
  }

  function SetReputation(r: Ledger, dump: seq<(Address, Entry)>): Ledger
    decreases |dump|
  {
    if dump == [] then r else SetReputation(WithEntry(r, dump[0].0, dump[0].1), dump[1..])
  }

  // ---- the object -----------------------------------------------------------------------------

  class ReputationManager {
    const config: ValidConfig
    var entries: map<Address, Entry>
    var blackList: set<Address>
    var whitelist: set<Address>

    function Value(): Ledger
      reads this
    {
      Ledger(config, entries, blackList, whitelist)
    }

    constructor (config: ValidConfig)
      ensures Value() == Ledger(config, map[], {}, {})
    {
      this.config := config;
      entries := map[];
      blackList := {};
      whitelist := {};
    }

    method AddWhitelist(items: seq<Address>)
      modifies this`whitelist
      ensures whitelist == old(whitelist) + set a | a in items
    {
      for i := 0 to |items|
        invariant whitelist == old(whitelist) + set a | a in items[..i]
      {
        assert items[..i + 1] == items[..i] + [items[i]];
        whitelist := whitelist + {items[i]};
      }
      assert items[..|items|] == items;
    }

    method AddBlacklist(items: seq<Address>)
      modifies this`blackList
      ensures blackList == old(blackList) + set a | a in items
    {
      for i := 0 to |items|
        invariant blackList == old(blackList) + set a | a in items[..i]
      {
        assert items[..i + 1] == items[..i] + [items[i]];
        blackList := blackList + {items[i]};
      }
      assert items[..|items|] == items;
    }

    method UpdateSeen(addr: Option<Address>)
      modifies this`entries
      ensures Value() == UpdateSeenStatus(old(Value()), addr)
    {
      if addr.None? { return; }
      var entry := if addr.value in entries then entries[addr.value] else Entry(0, 0);
      entries := entries[addr.value := entry.(opsSeen := entry.opsSeen + 1)];
    }

    method UpdateIncluded(addr: Address)
      modifies this`entries
      ensures Value() == UpdateIncludedStatus(old(Value()), addr)
    {
      var entry := if addr in entries then entries[addr] else Entry(0, 0);
      entries := entries[addr := entry.(opsIncluded := entry.opsIncluded + 1)];
    }

    method Crashed(addr: Option<Address>)
      modifies this`entries
      ensures Value() == CrashedHandleOps(old(Value()), addr)
    {
      if addr.None? { return; }
      var entry := if addr.value in entries then entries[addr.value] else Entry(0, 0);
      entry := entry.(opsSeen := entry.opsSeen + CRASH_PENALTY);
      entry := entry.(opsIncluded := 0);
      entries := entries[addr.value := entry];
    }

    /** Visits every key once, updating or deleting in place; the visiting order does not matter. */
    method Cron()
      modifies this`entries
      ensures Value() == HourlyCron(old(Value()))
    {
      ghost var was := entries;
      var todo := entries.Keys;
      while todo != {}
        invariant todo <= was.Keys
        invariant forall a :: a in todo ==> a in entries && entries[a] == was[a]
        invariant entries.Keys <= was.Keys
        invariant forall a :: a in was && a !in todo ==> (a in entries <==> CronEntry(was[a]) != Entry(0, 0))
        invariant forall a :: a in entries && a !in todo ==> entries[a] == CronEntry(was[a])
      {
        var addr :| addr in todo;
        todo := todo - {addr};
        var entry := entries[addr];
        entry := entry.(opsSeen := entry.opsSeen * 23 / 24);
        entry := entry.(opsIncluded := entry.opsSeen * 23 / 24);
        if entry.opsIncluded == 0 && entry.opsSeen == 0 {
          entries := entries - {addr};
        } else {
          entries := entries[addr := entry];
        }
      }
      assert entries == HourlyCron(old(Value())).entries;
    }

    method Clear()
      modifies this`entries
      ensures entries == map[]
      ensures Value() == ClearState(old(Value()))
    {
      entries := map[];
    }

    method Set(dump: seq<(Address, Entry)>)
      modifies this`entries
      ensures Value() == SetReputation(old(Value()), dump)
    {
      var rest := dump;
      while rest != []
        invariant SetReputation(Value(), rest) == SetReputation(old(Value()), dump)
      {
        entries := entries[rest[0].0 := rest[0].1];
        rest := rest[1..];
      }
    }
  }

  // ---- setting scores ---------------------------------------------------------------------------

  /** The last score the dump gives `a`. */
  ghost function LastScore(dump: seq<(Address, Entry)>, a: Address): Option<Entry> {
    if dump == [] then None
    else if dump[|dump| - 1].0 == a then Some(dump[|dump| - 1].1)
    else LastScore(dump[..|dump| - 1], a)
  }

  lemma {:induction false} LastScoreBehind(head: (Address, Entry), rest: seq<(Address, Entry)>, a: Address)
    ensures LastScore([head] + rest, a) ==
      if LastScore(rest, a).Some? then LastScore(rest, a) else if head.0 == a then Some(head.1) else None
    decreases |rest|
  {
    if rest == [] {
      assert [head] + rest == [head] && [head][..0] == [];
    } else {
      var front := rest[..|rest| - 1];
      assert ([head] + rest)[..|rest|] == [head] + front;
      LastScoreBehind(head, front, a);
    }
  }

  /** Setting scores gives each address the last one listed for it, and leaves the others and both lists alone. */
  lemma {:induction false} SetReputationExactly(r: Ledger, dump: seq<(Address, Entry)>, a: Address)
    ensures var after := SetReputation(r, dump);
      && after == r.(entries := after.entries)
      && (if LastScore(dump, a).Some? then a in after.entries && after.entries[a] == LastScore(dump, a).value
          else (a in after.entries <==> a in r.entries) && (a in r.entries ==> after.entries[a] == r.entries[a]))
    decreases |dump|
  {
    if dump != [] {
      SetReputationExactly(WithEntry(r, dump[0].0, dump[0].1), dump[1..], a);
      LastScoreBehind(dump[0], dump[1..], a);
      assert dump == [dump[0]] + dump[1..];
    }
  }

  // ---- decay ----------------------------------------------------------------------------------

  ghost function Crons(r: Ledger, k: nat): Ledger {
    if k == 0 then r else HourlyCron(Crons(r, k - 1))
  }

  ghost function DecayedTimes(n: int, k: nat): int {
    if k == 0 then n else Decayed(DecayedTimes(n, k - 1))
  }

  /** One tick takes a score to 23/24 of it, rounded down. */
  lemma DecayRoundsDown(n: int)
    ensures 24 * Decayed(n) <= 23 * n < 24 * Decayed(n) + 24
  {
  }

  lemma ScaledStep(k: nat, x: int, y: int, n: int)
    requires k > 0 && 24 * y <= 23 * x && Pow(24, k - 1) * x <= Pow(23, k - 1) * n
    ensures Pow(24, k) * y <= Pow(23, k) * n
  {
    var p, q := Pow(24, k - 1), Pow(23, k - 1);
    assert Pow(24, k) * y == p * (24 * y) by { assert (24 * p) * y == p * (24 * y); }
    assert p * (24 * y) <= p * (23 * x) by { MulMonotone(24 * y, 23 * x, p); }
    assert p * (23 * x) == 23 * (p * x);
    assert 23 * (q * n) == (23 * q) * n;
  }

  /**
   * The documented exponential decay: after k ticks at most (23/24)^k of the score is left, and rounding down takes
   * less than 24 off that.
   */
  lemma {:induction false} ScoreDecaysExponentially(n: nat, k: nat)
    ensures 0 <= DecayedTimes(n, k)
    ensures Pow(24, k) * DecayedTimes(n, k) <= Pow(23, k) * n
    ensures Pow(24, k) * (DecayedTimes(n, k) + 24) >= Pow(23, k) * (n + 24)
  {
    if k > 0 {
      ScoreDecaysExponentially(n, k - 1);
      var before, after := DecayedTimes(n, k - 1), DecayedTimes(n, k);
      DecayRoundsDown(before);
      ScaledStep(k, before, after, n);
      NegatedProduct(Pow(24, k - 1), before + 24);
      NegatedProduct(Pow(23, k - 1), n + 24);
      ScaledStep(k, -(before + 24), -(after + 24), -(n + 24));
      NegatedProduct(Pow(24, k), after + 24);
      NegatedProduct(Pow(23, k), n + 24);
    }
  }

  lemma NegatedProduct(a: int, b: int)
    ensures a * -b == -(a * b)
  {
  }

  lemma CronTick(r: Ledger, a: Address)
    ensures a in HourlyCron(r).entries <==> a in r.entries && Decayed(r.entries[a].opsSeen) != 0
    ensures a in HourlyCron(r).entries ==>
      HourlyCron(r).entries[a] == Entry(Decayed(r.entries[a].opsSeen), Decayed(Decayed(r.entries[a].opsSeen)))
  {
  }

  /** What k ticks leave in the ledger: exactly the entries whose decayed score is not zero. */
  lemma {:induction false} CronsEntry(r: Ledger, k: nat, a: Address)
    requires k > 0
    ensures a in Crons(r, k).entries <==> a in r.entries && DecayedTimes(r.entries[a].opsSeen, k) != 0
    ensures a in Crons(r, k).entries ==>
      Crons(r, k).entries[a] == Entry(DecayedTimes(r.entries[a].opsSeen, k), DecayedTimes(r.entries[a].opsSeen, k + 1))
  {
    CronTick(Crons(r, k - 1), a);
    if k > 1 {
      CronsEntry(r, k - 1, a);
      if a in r.entries && DecayedTimes(r.entries[a].opsSeen, k - 1) == 0 {
        DecayOfZero(r.entries[a].opsSeen, k - 1);
      }
    }
  }

  lemma DecayOfZero(n: int, k: nat)
    requires DecayedTimes(n, k) == 0
    ensures DecayedTimes(n, k + 1) == 0
  {
  }

  lemma {:induction false} DecayReachesZero(n: nat, k: nat)
    ensures 0 <= DecayedTimes(n, k)
    ensures DecayedTimes(n, k) <= if k < n then n - k else 0
  {
    if k > 0 {
      DecayReachesZero(n, k - 1);
    }
  }

  lemma {:induction false} NegativeScoreNeverVanishes(n: int, k: nat)
    requires n < 0
    ensures DecayedTimes(n, k) < 0
  {
    if k > 0 {
      NegativeScoreNeverVanishes(n, k - 1);
    }
  }

  ghost predicate NonNegative(r: Ledger) {
    forall a :: a in r.entries ==> r.entries[a].opsSeen >= 0
  }

  lemma LedgerEmpties(r: Ledger) returns (k: nat)
    requires NonNegative(r)
    ensures Crons(r, k).entries == map[]
  {
    var bound := BoundExists(r.entries.Keys, a => if a in r.entries then r.entries[a].opsSeen else 0);
    k := bound + 1;
    forall a
      ensures a !in Crons(r, k).entries
    {
      CronsEntry(r, k, a);
      if a in r.entries {
        DecayReachesZero(r.entries[a].opsSeen, k);
      }
    }
  }

  lemma NegativeEntryStays(r: Ledger, a: Address, k: nat)
    requires a in r.entries && r.entries[a].opsSeen < 0
    ensures a in Crons(r, k).entries
  {
    if k > 0 {
      NegativeScoreNeverVanishes(r.entries[a].opsSeen, k);
      CronsEntry(r, k, a);
    }
  }

  /**
   * With only cron ticks the ledger empties itself after finitely many of them, exactly when no
   * score was set below zero (only the debug call that sets scores can do that).
   */
  lemma LedgerEmptiesExactlyWhenNonNegative(r: Ledger)
    ensures (exists k: nat :: Crons(r, k).entries == map[]) <==> NonNegative(r)
  {
    if NonNegative(r) {
      var k := LedgerEmpties(r);
    } else {
      var a :| a in r.entries && r.entries[a].opsSeen < 0;
      forall k: nat
        ensures Crons(r, k).entries != map[]
      {
        NegativeEntryStays(r, a, k);
      }
    }
  }

  // ---- order of statuses ------------------------------------------------------------------------

  lemma DivMonotone(a: int, b: int, d: int)
    requires a <= b && d > 0
    ensures a / d <= b / d
  {
    var q, p := a / d, b / d;
    assert a >= d * q && b < d * p + d;
    if q >= p + 1 { MulMonotone(p + 1, q, d); }
  }

  /**
   * The bundler's own thresholds: with k inclusions an address is throttled from 10 * (k + 11) sightings
   * on and banned from 10 * (k + 51) on.
   */
  lemma StatusThresholds(e: Entry)
    ensures StatusOf(BUNDLER_PARAMS, e) == OK <==> e.opsSeen < 10 * (e.opsIncluded + 11)
    ensures StatusOf(BUNDLER_PARAMS, e) == BANNED <==> e.opsSeen >= 10 * (e.opsIncluded + 51)
  {
    var q := e.opsSeen / 10;
    assert 10 * q <= e.opsSeen < 10 * q + 10;
  }

  /**
   * With no more inclusions than sightings an unstaked entity is allowed ten operations, one more for each
   * inclusion up to 10000, and at most ten for its inclusion rate, all ten exactly when nothing was missed.
   */
  lemma AllowanceBounds(r: Ledger, a: Address)
    requires a in r.entries && 0 <= r.entries[a].opsIncluded <= r.entries[a].opsSeen
    ensures var base := 10 + Min(r.entries[a].opsIncluded, 10000);
      && base <= CalculateMaxAllowedMempoolOpsUnstaked(r, a) <= base + 10
      && (CalculateMaxAllowedMempoolOpsUnstaked(r, a) == base + 10 <==>
            r.entries[a].opsSeen == r.entries[a].opsIncluded > 0)
  {
    var seen, included := r.entries[a].opsSeen, r.entries[a].opsIncluded;
    if seen > 0 {
      var rate := included * 10 / seen;
      assert seen * rate <= included * 10 < seen * rate + seen;
      if rate < 0 { MulMonotone(rate, -1, seen); }
      if rate > 10 { MulMonotone(11, rate, seen); }
      if rate == 10 { assert seen * 10 <= included * 10; }
      if rate < 10 && seen == included { MulMonotone(rate, 9, seen); }
    }
  }

  /**
   * Who passes the stake check, and which of the two errors the others get: a score or list ban is reported
   * before a missing stake.
   */
  lemma StakeCheckedExactly(r: Ledger, info: StakeInfo)
    ensures CheckStake(r, info).Pass? <==>
      info.addr in r.whitelist ||
      (GetStatus(r, Some(info.addr)) != BANNED && info.stake >= r.config.minStake
       && info.unstakeDelaySec >= r.config.minUnstakeDelay)
    ensures CheckStake(r, info) == Fail(ReputationError) <==> GetStatus(r, Some(info.addr)) == BANNED
    ensures info.addr in r.blackList ==> (CheckStake(r, info).Pass? <==> info.addr in r.whitelist)
  {
  }

  /** More sightings never help and more inclusions never hurt, whatever the two slacks are. */
  lemma StatusMonotone(params: Params, better: Entry, worse: Entry)
    requires params.minInclusionDenominator > 0
    requires better.opsSeen <= worse.opsSeen && better.opsIncluded >= worse.opsIncluded
    ensures StatusOf(params, better).Severity() <= StatusOf(params, worse).Severity()
  {
    DivMonotone(better.opsSeen, worse.opsSeen, params.minInclusionDenominator);
  }

  /**
   * Right after a cron tick every address off the black list is OK again, banned or not before,
   * because `opsIncluded` was recomputed from `opsSeen`.
   */
  lemma CronAbsolvesEveryone(r: Ledger, a: Address)
    requires r.config.params.minInclusionDenominator >= 2 && r.config.params.throttlingSlack >= 0
    requires a in r.entries ==> r.entries[a].opsSeen >= 0
    ensures GetStatus(HourlyCron(r), Some(a)) == if a in r.blackList && a !in r.whitelist then BANNED else OK
  {
    if a in HourlyCron(r).entries {
      var seen := Decayed(r.entries[a].opsSeen);
      var d := r.config.params.minInclusionDenominator;
      assert seen / d <= seen / 2 by { DivByLargerIsSmaller(seen, 2, d); }
      assert seen / 2 <= Decayed(seen);
    }
  }

  lemma DivByLargerIsSmaller(n: nat, d: nat, e: nat)
    requires 0 < d <= e
    ensures n / e <= n / d
  {
    var q := n / e;
    assert q * d <= q * e <= n by { MulMonotone(d, e, q); assert q * e == e * q; }
    DivMonotone(q * d, n, d);
    assert q * d / d == q by { MulDivCancels(q, d); }
  }

  lemma MulDivCancels(q: nat, d: nat)
    requires d > 0
    ensures q * d / d == q
  {
    var p := q * d / d;
    assert d * p <= q * d < d * p + d;
    assert d * (q - p) < d && d * (q - p) >= 0;
    if q - p >= 1 { MulMonotone(1, q - p, d); }
    if q - p <= -1 { MulMonotone(q - p, -1, d); }
  }

  /** The back-off the comment on the cron describes: both scores decay independently. */
  ghost function DocumentedCronEntry(e: Entry): Entry {
    Entry(Decayed(e.opsSeen), Decayed(e.opsIncluded))
  }

  /** A crash ban would survive the documented back-off, and does not survive the one in the code. */
  lemma CronLiftsCrashBan(r: Ledger, a: Address)
    requires r.config.params == BUNDLER_PARAMS
    requires a !in r.whitelist && a !in r.blackList
    requires a in r.entries ==> r.entries[a].opsSeen >= 0
    ensures var crashed := CrashedHandleOps(r, Some(a));
      && GetStatus(crashed, Some(a)) == BANNED
      && GetStatus(HourlyCron(crashed), Some(a)) == OK
      && StatusOf(BUNDLER_PARAMS, DocumentedCronEntry(crashed.entries[a])) == BANNED
  {
    CronAbsolvesEveryone(CrashedHandleOps(r, Some(a)), a);
  }

  /** Forgetting all scores too leaves only the two lists to decide. */
  lemma ClearAbsolvesEveryone(r: Ledger, a: Address)
    ensures GetStatus(ClearState(r), Some(a)) == if a in r.blackList && a !in r.whitelist then BANNED else OK
    ensures CalculateMaxAllowedMempoolOpsUnstaked(ClearState(r), a) == 10
  {
  }

  // ---- a crash ban lasts --------------------------------------------------------------------------

  /** The updates the running bundler applies between cron ticks and debug calls. */
  datatype Update = Seen(who: Option<Address>) | Included(addr: Address) | Crash(who: Option<Address>)

  function Apply(r: Ledger, u: Update): Ledger {
    match u
    case Seen(who) => UpdateSeenStatus(r, who)
    case Included(addr) => UpdateIncludedStatus(r, addr)
    case Crash(who) => CrashedHandleOps(r, who)
  }

  function ApplyAll(r: Ledger, us: seq<Update>): Ledger
    decreases |us|
  {
    if us == [] then r else ApplyAll(Apply(r, us[0]), us[1..])
  }

  ghost function Inclusions(us: seq<Update>, a: Address): nat {
    if us == [] then 0 else (if us[0] == Included(a) then 1 else 0) + Inclusions(us[1..], a)
  }

  /** `a` is banned and stays so until more than `budget` inclusions of it are recorded. */
  ghost predicate BannedFor(r: Ledger, a: Address, budget: int) {
    && a !in r.whitelist
    && a in r.entries
    && r.entries[a].opsIncluded >= 0
    && r.config.params.throttlingSlack <= r.config.params.banSlack
    && r.entries[a].opsSeen / r.config.params.minInclusionDenominator
       > r.entries[a].opsIncluded + budget + r.config.params.banSlack
  }

  lemma BannedForMeansBanned(r: Ledger, a: Address, budget: nat)
    requires BannedFor(r, a, budget)
    ensures GetStatus(r, Some(a)) == BANNED
  {
  }

  lemma CrashBans(r: Ledger, a: Address, budget: nat)
    requires a !in r.whitelist
    requires a in r.entries ==> r.entries[a].opsSeen >= 0
    requires r.config.params.throttlingSlack <= r.config.params.banSlack
    requires CRASH_PENALTY / r.config.params.minInclusionDenominator > budget + r.config.params.banSlack
    ensures BannedFor(CrashedHandleOps(r, Some(a)), a, budget)
  {
    var seen := CrashedHandleOps(r, Some(a)).entries[a].opsSeen;
    DivMonotone(CRASH_PENALTY, seen, r.config.params.minInclusionDenominator);
  }

  lemma BanSurvivesUpdate(r: Ledger, a: Address, u: Update, budget: int)
    requires BannedFor(r, a, budget)
    requires budget >= 0
    ensures BannedFor(Apply(r, u), a, if u == Included(a) then budget - 1 else budget)
  {
    var d := r.config.params.minInclusionDenominator;
    if u.Seen? {
      DivMonotone(r.entries[a].opsSeen, r.entries[a].opsSeen + 1, d);
    } else if u == Crash(Some(a)) {
      var e := r.entries[a];
      DivMonotone(e.opsSeen, e.opsSeen + CRASH_PENALTY, d);
    }
  }

  /** Along every run of updates, a crash ban outlasts every inclusion count within its budget. */
  lemma {:induction false} CrashBanLasts(r: Ledger, a: Address, us: seq<Update>, budget: nat)
    requires BannedFor(r, a, budget)
    requires Inclusions(us, a) <= budget
    ensures BannedFor(ApplyAll(r, us), a, budget - Inclusions(us, a))
    ensures GetStatus(ApplyAll(r, us), Some(a)) == BANNED
    decreases |us|
  {
    if us == [] {
      BannedForMeansBanned(r, a, budget);
    } else {
      BanSurvivesUpdate(r, a, us[0], budget);
      CrashBanLasts(Apply(r, us[0]), a, us[1..], if us[0] == Included(a) then budget - 1 else budget);
    }
  }

  lemma {:induction false} RepeatedInclusions(r: Ledger, a: Address, n: nat)
    requires a in r.entries
    ensures ApplyAll(r, seq(n, _ => Included(a)))
         == WithEntry(r, a, Entry(r.entries[a].opsSeen, r.entries[a].opsIncluded + n))
    decreases n
  {
    var us := seq(n, _ => Included(a));
    if n == 0 {
    } else {
      assert us[1..] == seq(n - 1, _ => Included(a));
      RepeatedInclusions(Apply(r, us[0]), a, n - 1);
    }
  }

  /** With the bundler's own parameters a first crash bans for exactly 949 inclusions; the 950th ends it. */
  lemma FirstCrashBanLength(r: Ledger, a: Address, n: nat)
    requires r.config.params == BUNDLER_PARAMS
    requires a !in r.whitelist && a !in r.blackList && a !in r.entries
    ensures GetStatus(ApplyAll(CrashedHandleOps(r, Some(a)), seq(n, _ => Included(a))), Some(a)) == BANNED <==> n < 950
  {
    RepeatedInclusions(CrashedHandleOps(r, Some(a)), a, n);
  }
}
