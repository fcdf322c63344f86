/** MempoolManager: the pending operations and the per-address counters kept beside them. */
module Mempool {
  import opened Common
  import Rep = Reputation

  datatype ReferencedCodeHashes = ReferencedCodeHashes(addresses: seq<Address>, hash: nat)

  datatype Entry = Entry(
    op: UserOp,
    hash: nat,
    prefund: nat,
    referenced: ReferencedCodeHashes,
    aggregator: Option<Address>)

  datatype Pool = Pool(entries: seq<Entry>, counts: map<Address, int>)

  /** The arguments of `addUserOp`: the operation and what its validation reported. */
  datatype Request = Request(
    op: UserOp,
    hash: nat,
    prefund: nat,
    referenced: ReferencedCodeHashes,
    senderInfo: StakeInfo,
    paymasterInfo: Option<StakeInfo>,
    factoryInfo: Option<StakeInfo>,
    aggregatorInfo: Option<StakeInfo>)

  /** `removeUserOp` takes an operation, of which it reads sender and nonce, or a hash. */
  datatype Target = ByOp(sender: Address, nonce: nat) | ByHash(hash: nat)

  type Verdict = Outcome<Rep.RpcError>

  const EMPTY := Pool([], map[])
  const MAX_MEMPOOL_USEROPS_PER_SENDER := 4
  const THROTTLED_ENTITY_MEMPOOL_COUNT := 4

  /** `BigNumber.toNumber` throws from here on. */
  const SAFE_INTEGER_LIMIT := 0x20_0000_0000_0000

  // ---- counters -------------------------------------------------------------------------------

  function CountOf(counts: map<Address, int>, a: Address): int {
    if a in counts then counts[a] else 0
  }

  function Increment(counts: map<Address, int>, who: Option<Address>): map<Address, int> {
    match who
    case None => counts
    case Some(a) => counts[a := CountOf(counts, a) + 1]
  }

  function Decrement(counts: map<Address, int>, who: Option<Address>): map<Address, int> {
    match who
    case None => counts
    case Some(a) =>
      if a !in counts then counts
      else if counts[a] - 1 <= 0 then counts - {a}
      else counts[a := counts[a] - 1]
  }

  function IncrementRoles(counts: map<Address, int>, op: UserOp): map<Address, int> {
    Increment(Increment(Increment(counts, Some(op.sender)), Paymaster(op)), Factory(op))
  }

  function DecrementRoles(counts: map<Address, int>, op: UserOp): map<Address, int> {
    Decrement(Decrement(Decrement(counts, Some(op.sender)), Paymaster(op)), Factory(op))
  }

  // ---- queries ----------------------------------------------------------------------------------

  predicate HasKey(e: Entry, sender: Address, nonce: nat) {
    e.op.sender == sender && e.op.nonce == nonce
  }

  function FindBySenderNonce(entries: seq<Entry>, sender: Address, nonce: nat): Option<nat> {
    FindFirst(entries, (e: Entry) => HasKey(e, sender, nonce))
  }

  function FindByHash(entries: seq<Entry>, hash: nat): Option<nat> {
    FindFirst(entries, (e: Entry) => e.hash == hash)
  }

  function Find(entries: seq<Entry>, target: Target): Option<nat> {
    match target
    case ByOp(sender, nonce) => FindBySenderNonce(entries, sender, nonce)
    case ByHash(hash) => FindByHash(entries, hash)
  }

  function KnownSenders(entries: seq<Entry>): set<Address> {
    set e | e in entries :: e.op.sender
  }

  function EntitiesOf(op: UserOp): set<Address> {
    (if Paymaster(op).Some? then {Paymaster(op).value} else {})
    + (if Factory(op).Some? then {Factory(op).value} else {})
  }

  function KnownEntities(entries: seq<Entry>): set<Address> {
    set e, a | e in entries && a in EntitiesOf(e.op) :: a
  }

  // ---- checks ---------------------------------------------------------------------------------

  /** The first failure of two checks made in order. */
  function Both(first: Verdict, second: Verdict): Verdict {
    if first.Fail? then first else second
  }

  function CheckReputationStatus(counts: map<Address, int>, rep: Rep.Ledger, info: StakeInfo, override: Option<int>): Verdict {
    var maxAllowed :=
      if override.Some? then override.value else Rep.CalculateMaxAllowedMempoolOpsUnstaked(rep, info.addr);
    var count := CountOf(counts, info.addr);
    Both(Rep.CheckBanned(rep, info),
         Both(if count > THROTTLED_ENTITY_MEMPOOL_COUNT then Rep.CheckThrottled(rep, info) else Pass,
              if count > maxAllowed then Rep.CheckStake(rep, info) else Pass))
  }

  function CheckEntity(counts: map<Address, int>, rep: Rep.Ledger, info: Option<StakeInfo>): Verdict {
    if info.None? then Pass else CheckReputationStatus(counts, rep, info.value, None)
  }

  function CheckReputation(counts: map<Address, int>, rep: Rep.Ledger, req: Request): Verdict {
    Both(CheckReputationStatus(counts, rep, req.senderInfo, Some(MAX_MEMPOOL_USEROPS_PER_SENDER)),
         Both(CheckEntity(counts, rep, req.paymasterInfo),
              Both(CheckEntity(counts, rep, req.factoryInfo),
                   CheckEntity(counts, rep, req.aggregatorInfo))))
  }

  function CheckMultipleRolesViolation(entries: seq<Entry>, op: UserOp): Verdict {
    if op.sender in KnownEntities(entries) then Fail(Rep.OpcodeValidation)
    else if Paymaster(op).Some? && Paymaster(op).value in KnownSenders(entries) then Fail(Rep.OpcodeValidation)
    else if Factory(op).Some? && Factory(op).value in KnownSenders(entries) then Fail(Rep.OpcodeValidation)
    else Pass
  }

  predicate SafeFees(op: UserOp) {
    op.maxPriorityFeePerGas < SAFE_INTEGER_LIMIT && op.maxFeePerGas < SAFE_INTEGER_LIMIT
  }

  /** Both fees must grow by a tenth, taking the source's `* 1.1` as exact. */
  function CheckReplaceUserOp(pending: UserOp, incoming: UserOp): Verdict {
    if !SafeFees(pending) || !SafeFees(incoming) then Fail(Rep.UnsafeInteger)
    else if 10 * incoming.maxPriorityFeePerGas < 11 * pending.maxPriorityFeePerGas then Fail(Rep.InvalidFields)
    else if 10 * incoming.maxFeePerGas < 11 * pending.maxFeePerGas then Fail(Rep.InvalidFields)
    else Pass
  }

  // ---- updates ----------------------------------------------------------------------------------

  function EntryOf(req: Request): Entry {
    Entry(req.op, req.hash, req.prefund, req.referenced,
          if req.aggregatorInfo.Some? then Some(req.aggregatorInfo.value.addr) else None)
  }

  function UpdateSeen(rep: Rep.Ledger, req: Request): Rep.Ledger {
    var r0 := if Rep.CheckStake(rep, req.senderInfo).Pass? then Rep.UpdateSeenStatus(rep, Some(req.op.sender)) else rep;
    var r1 := Rep.UpdateSeenStatus(r0, EntryOf(req).aggregator);
    var r2 := Rep.UpdateSeenStatus(r1, Paymaster(req.op));
    Rep.UpdateSeenStatus(r2, Factory(req.op))
  }

  datatype Added = Added(verdict: Verdict, pool: Pool, rep: Rep.Ledger)

  function AddFresh(pool: Pool, rep: Rep.Ledger, req: Request): Added {
    var counted := pool.(counts := IncrementRoles(pool.counts, req.op));
    var verdict := Both(CheckReputation(counted.counts, rep, req), CheckMultipleRolesViolation(pool.entries, req.op));
    if verdict.Fail? then Added(verdict, counted, rep)
    else Added(Pass, counted.(entries := pool.entries + [EntryOf(req)]), UpdateSeen(rep, req))
  }

  function Replace(pool: Pool, rep: Rep.Ledger, req: Request, index: nat): Added
    requires index < |pool.entries|
  {
    var verdict := CheckReplaceUserOp(pool.entries[index].op, req.op);
    if verdict.Fail? then Added(verdict, pool, rep)
    else Added(Pass, pool.(entries := pool.entries[index := EntryOf(req)]), UpdateSeen(rep, req))
  }

  function AddUserOp(pool: Pool, rep: Rep.Ledger, req: Request): Added {
    match FindBySenderNonce(pool.entries, req.op.sender, req.op.nonce)
    case Some(i) => Replace(pool, rep, req, i)
    case None => AddFresh(pool, rep, req)
  }

  function RemoveUserOp(pool: Pool, target: Target): Pool {
    match Find(pool.entries, target)
    case None => pool
    case Some(i) =>
      Pool(pool.entries[..i] + pool.entries[i + 1..], DecrementRoles(pool.counts, pool.entries[i].op))
  }

  // ---- order of inclusion -----------------------------------------------------------------------

  function Cost(e: Entry): nat {
    e.op.maxPriorityFeePerGas
  }

  function InsertByCost(e: Entry, sorted: seq<Entry>): seq<Entry> {
    if sorted == [] || Cost(e) <= Cost(sorted[0]) then [e] + sorted
    else [sorted[0]] + InsertByCost(e, sorted[1..])
  }

  /** `Array.prototype.sort` with the source's comparator: ascending and stable. */
  function SortByCost(entries: seq<Entry>): seq<Entry> {
    if entries == [] then [] else InsertByCost(entries[0], SortByCost(entries[1..]))
  }

  /** The comparator converts every fee it meets, so two or more entries make an oversized fee throw. */
  function GetSortedForInclusion(pool: Pool): Result<seq<Entry>, Rep.RpcError> {
    if |pool.entries| >= 2 && exists e :: e in pool.entries && Cost(e) >= SAFE_INTEGER_LIMIT then Err(Rep.UnsafeInteger)
    else Ok(SortByCost(pool.entries))
  }

  // ---- the object -------------------------------------------------------------------------------

  function AsIndex(i: Option<nat>): int {
    if i.Some? then i.value else -1
  }

  class MempoolManager {
    const reputationManager: Rep.ReputationManager
    var mempool: seq<Entry>
    var entryCount: map<Address, int>

    function Value(): Pool
      reads this
    {
      Pool(mempool, entryCount)
    }

    constructor (reputationManager: Rep.ReputationManager)
      ensures this.reputationManager == reputationManager && Value() == EMPTY
    {
      this.reputationManager := reputationManager;
      mempool := [];
      entryCount := map[];
    }

    method IncrementEntryCount(who: Option<Address>)
      modifies this`entryCount
      ensures entryCount == Increment(old(entryCount), who)
    {
      if who.None? { return; }
      entryCount := entryCount[who.value := (if who.value in entryCount then entryCount[who.value] else 0) + 1];
    }

    method DecrementEntryCount(who: Option<Address>)
      modifies this`entryCount
      ensures entryCount == Decrement(old(entryCount), who)
    {
      if who.None? || who.value !in entryCount { return; }
      var a := who.value;
      entryCount := entryCount[a := entryCount[a] - 1];
      if entryCount[a] <= 0 {
        entryCount := entryCount - {a};
      }
    }

    method FindKey(sender: Address, nonce: nat) returns (index: int)
      ensures index == -1 <==> forall e :: e in mempool ==> e.op.sender != sender || e.op.nonce != nonce
      ensures index != -1 ==>
        && 0 <= index < |mempool| && mempool[index].op.sender == sender && mempool[index].op.nonce == nonce
        && forall j :: 0 <= j < index ==> mempool[j].op.sender != sender || mempool[j].op.nonce != nonce
      ensures index == AsIndex(FindBySenderNonce(mempool, sender, nonce))
    {
      for i := 0 to |mempool|
        invariant forall j :: 0 <= j < i ==> mempool[j].op.sender != sender || mempool[j].op.nonce != nonce
      {
        if mempool[i].op.sender == sender && mempool[i].op.nonce == nonce {
          return i;
        }
      }
      return -1;
    }

    method FindHash(hash: nat) returns (index: int)
      ensures index == -1 <==> forall e :: e in mempool ==> e.hash != hash
      ensures index != -1 ==>
        0 <= index < |mempool| && mempool[index].hash == hash && forall j :: 0 <= j < index ==> mempool[j].hash != hash
      ensures index == AsIndex(FindByHash(mempool, hash))
    {
      for i := 0 to |mempool|
        invariant forall j :: 0 <= j < i ==> mempool[j].hash != hash
      {
        if mempool[i].hash == hash {
          return i;
        }
      }
      return -1;
    }

    method UpdateSeenStatus(req: Request)
      modifies reputationManager`entries
      ensures reputationManager.Value() == UpdateSeen(old(reputationManager.Value()), req)
    {
      if Rep.CheckStake(reputationManager.Value(), req.senderInfo).Pass? {
        reputationManager.UpdateSeen(Some(req.op.sender));
      }
      reputationManager.UpdateSeen(EntryOf(req).aggregator);
      reputationManager.UpdateSeen(Paymaster(req.op));
      reputationManager.UpdateSeen(Factory(req.op));
    }

    /** Throws by returning `Fail`. The counters are bumped before the checks that may throw. */
    method Add(req: Request) returns (verdict: Verdict)
      modifies this, reputationManager`entries
      ensures Added(verdict, Value(), reputationManager.Value())
           == AddUserOp(old(Value()), old(reputationManager.Value()), req)
    {
      var entry := EntryOf(req);
      var index := FindKey(req.op.sender, req.op.nonce);
      if index != -1 {
        var oldEntry := mempool[index];
        verdict := CheckReplaceUserOp(oldEntry.op, entry.op);
        if verdict.Fail? { return; }
        mempool := mempool[index := entry];
      } else {
        IncrementEntryCount(Some(req.op.sender));
        IncrementEntryCount(Paymaster(req.op));
        IncrementEntryCount(Factory(req.op));
        verdict := CheckReputation(entryCount, reputationManager.Value(), req);
        if verdict.Fail? { return; }
        verdict := CheckMultipleRolesViolation(mempool, req.op);
        if verdict.Fail? { return; }
        mempool := mempool + [entry];
      }
      UpdateSeenStatus(req);
    }

    method Remove(target: Target)
      modifies this
      ensures Value() == RemoveUserOp(old(Value()), target)
    {
      var index;
      match target {
        case ByHash(hash) => index := FindHash(hash);
        case ByOp(sender, nonce) => index := FindKey(sender, nonce);
      }
      if index != -1 {
        var op := mempool[index].op;
        mempool := mempool[..index] + mempool[index + 1..];
        DecrementEntryCount(Some(op.sender));
        DecrementEntryCount(Paymaster(op));
        DecrementEntryCount(Factory(op));
      }
    }

    method ClearState()
      modifies this
      ensures Value() == EMPTY
    {
      mempool := [];
      entryCount := map[];
    }
  }
}
