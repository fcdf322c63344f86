/** tracerResultParser: deciding the validation rules from what the tracer collected. */
module Rules {
  import opened Common
  import opened StorageMaps
  import opened CallTree
  import Tracer

  datatype Title = FACTORY | ACCOUNT | PAYMASTER

  datatype Stakes = Stakes(factory: Option<StakeInfo>, account: StakeInfo, paymaster: Option<StakeInfo>)

  /** Selectors of the entry point's calls to its three entities. */
  datatype Selectors = Selectors(createSender: Bytes, validateUserOp: Bytes, validatePaymasterUserOp: Bytes)

  /** What is fixed outside one simulation: addresses, ABI, hashing and the decoding of return data. */
  datatype Env = Env(
    entryPoint: Address,
    abi: Abi,
    selectors: Selectors,
    hash: Bytes -> Slot,
    contextOf: Bytes -> Option<Bytes>)

  /** One traced simulation of one operation. */
  datatype Simulation = Simulation(
    op: UserOp,
    stakes: Stakes,
    levels: seq<Tracer.Level>,
    calls: seq<Frame>,
    keccak: seq<Bytes>)

  /** The rule found broken; the title says by which entity. */
  datatype Violation =
    | NoCalls
    | EntryPointCalled
    | ValueSent
    | MissingTrace
    | OutOfGas(title: Title)
    | BannedOpcode(title: Title)
    | CreatesTooMuch(title: Title)
    | ForbiddenStorage(title: Title, addr: Address)
    | UnstakedContext
    | NoCode(title: Title)
    | EntryPointCodeRead(title: Title)

  // ---- the rules, one by one ----------------------------------------------------------------------

  function InfoOf(c: Simulation, title: Title): Option<StakeInfo> {
    match title
    case FACTORY => c.stakes.factory
    case ACCOUNT => Some(c.stakes.account)
    case PAYMASTER => c.stakes.paymaster
  }

  function SelectorOf(env: Env, title: Title): Bytes {
    match title
    case FACTORY => env.selectors.createSender
    case ACCOUNT => env.selectors.validateUserOp
    case PAYMASTER => env.selectors.validatePaymasterUserOp
  }

  /** The level of an entity is the first call made with its selector. */
  function LevelOf(env: Env, c: Simulation, title: Title): Option<nat> {
    FindFirst(c.levels, (l: Tracer.Level) => l.methodSig == SelectorOf(env, title))
  }

  /** Any stake at all, locked for any time at all. */
  ghost predicate HasStake(info: Option<StakeInfo>) {
    info.Some? && info.value.stake > 0 && info.value.unstakeDelaySec > 0
  }

  /** OP-052 to OP-054: outside calls into the entry point may only send plain value or call depositTo. */
  ghost predicate IllegalEntryPointCall(env: Env, e: CallEntry) {
    && e.Finished? && e.to == env.entryPoint && e.from != env.entryPoint
    && e.called != Signature([]) && e.called != Name("depositTo")
  }

  /** OP-061. */
  ghost predicate SendsValue(env: Env, e: CallEntry) {
    e.Finished? && e.to != env.entryPoint && e.value.Some? && e.value.value != 0
  }

  /** OP-011. */
  ghost predicate IsBanned(op: Tracer.Opcode) {
    || op.GASPRICE? || op.GASLIMIT? || op.DIFFICULTY? || op.TIMESTAMP? || op.BASEFEE? || op.BLOCKHASH?
    || op.NUMBER? || op.SELFBALANCE? || op.BALANCE? || op.ORIGIN? || op.GAS? || op.CREATE? || op.COINBASE?
    || op.SELFDESTRUCT? || op.RANDOM? || op.PREVRANDAO? || op.INVALID?
  }

  /** OP-031: the factory may CREATE2 once, nobody else at all. */
  ghost predicate CreatesWithinLimit(title: Title, opcodes: map<Tracer.Opcode, nat>) {
    Tracer.CREATE2 in opcodes ==> title.FACTORY? && opcodes[Tracer.CREATE2] <= 1
  }

  ghost predicate IsEntity(c: Simulation, a: Address) {
    exists title :: InfoOf(c, title).Some? && InfoOf(c, title).value.addr == a
  }

  /** A hashed buffer that begins with the address as a 32-byte word. */
  ghost predicate BeginsWith(k: Bytes, a: Address) {
    |k| >= 32 && BigEndian(k[..32]) == a
  }

  /** A static structure is taken to span at most 128 slots. */
  ghost predicate WithinStructure(slot: Slot, base: Slot) {
    0 <= slot - base < 128
  }

  /** The slot is the entity's own number, or lies in a structure at a hash that begins with the entity. */
  ghost predicate Associated(env: Env, c: Simulation, slot: Slot, a: Address) {
    || slot == a
    || (IsEntity(c, a) && exists k :: k in c.keccak && BeginsWith(k, a) && WithinStructure(slot, env.hash(k)))
  }

  /** STO-021, STO-022: slots of the sender need no stake, unless the account is created by an unstaked factory. */
  ghost predicate FreeSlot(env: Env, c: Simulation, title: Title, slot: Slot) {
    && Associated(env, c, slot, c.op.sender)
    && (c.op.initCode == [] ||
        (InfoOf(c, title).Some? && InfoOf(c, title).value.addr == c.op.sender && HasStake(c.stakes.factory)))
  }

  /** STO-031 to STO-033: what a staked entity may touch. */
  ghost predicate StakedSlot(env: Env, c: Simulation, title: Title, addr: Address, written: bool, slot: Slot) {
    || Associated(env, c, slot, c.op.sender)
    || (InfoOf(c, title).Some? &&
        (|| Associated(env, c, slot, InfoOf(c, title).value.addr)
         || addr == InfoOf(c, title).value.addr
         || !written))
  }

  ghost predicate SlotAllowed(env: Env, c: Simulation, title: Title, addr: Address, written: bool, slot: Slot) {
    FreeSlot(env, c, title, slot) || (HasStake(InfoOf(c, title)) && StakedSlot(env, c, title, addr, written, slot))
  }

  ghost predicate Touched(info: Tracer.AccessInfo, slot: Slot) {
    slot in info.slotReads || slot in info.slotWrites
  }

  /** STO-010 and the rest: the sender and the entry point are open, everything else slot by slot. */
  ghost predicate AccessAllowed(env: Env, c: Simulation, title: Title, addr: Address, info: Tracer.AccessInfo) {
    || addr == c.op.sender
    || addr == env.entryPoint
    || forall slot :: Touched(info, slot) ==> SlotAllowed(env, c, title, addr, slot in info.slotWrites, slot)
  }

  ghost predicate IsPaymasterCall(c: Simulation, e: CallEntry) {
    && e.Finished? && e.called == Name("validatePaymasterUserOp")
    && c.stakes.paymaster.Some? && e.to == c.stakes.paymaster.value.addr
  }

  ghost predicate IsFirstPaymasterCall(c: Simulation, stack: seq<CallEntry>, i: nat) {
    i < |stack| && IsPaymasterCall(c, stack[i]) && forall j :: 0 <= j < i ==> !IsPaymasterCall(c, stack[j])
  }

  ghost predicate GivesContext(env: Env, e: CallEntry) {
    && e.ending.Returned? && e.ending.parsedAs.Name?
    && env.contextOf(e.ending.data).Some? && env.contextOf(e.ending.data).value != []
  }

  function CallStack(env: Env, c: Simulation): seq<CallEntry> {
    Parsed(env.abi, [], c.calls)
  }

  /** EREP-050: only a staked paymaster may return a context. */
  ghost predicate ContextAllowed(env: Env, c: Simulation) {
    forall i: nat :: IsFirstPaymasterCall(c, CallStack(env, c), i) && GivesContext(env, CallStack(env, c)[i]) ==>
      HasStake(c.stakes.paymaster)
  }

  /** OP-041, OP-042: every address used has code, except the sender being created. */
  ghost predicate CodeDeployed(c: Simulation, level: Tracer.Level) {
    forall addr :: addr in level.contractSize && addr != c.op.sender ==> level.contractSize[addr].size > 2
  }

  ghost predicate EntityRules(env: Env, c: Simulation, title: Title, level: Tracer.Level) {
    && !level.oog
    && (forall op :: op in level.opcodes ==> !IsBanned(op))
    && CreatesWithinLimit(title, level.opcodes)
    && (forall addr :: addr in level.access ==> AccessAllowed(env, c, title, addr, level.access[addr]))
    && (title.PAYMASTER? ==> ContextAllowed(env, c))
    && CodeDeployed(c, level)
    && env.entryPoint !in level.extCodeAccess
  }

  ghost predicate EntityPasses(env: Env, c: Simulation, title: Title) {
    var k := LevelOf(env, c, title);
    if k.None? then !title.ACCOUNT? else EntityRules(env, c, title, c.levels[k.value])
  }

  ghost predicate CallsAllowed(env: Env, c: Simulation) {
    forall e :: e in CallStack(env, c) ==> !IllegalEntryPointCall(env, e) && !SendsValue(env, e)
  }

  /** All the rules, in no order. */
  ghost predicate RulesHold(env: Env, c: Simulation) {
    && c.levels != []
    && CallsAllowed(env, c)
    && forall title :: EntityPasses(env, c, title)
  }

  /** What each reported violation means. */
  ghost predicate Breaks(env: Env, c: Simulation, v: Violation) {
    match v
    case NoCalls => c.levels == []
    case EntryPointCalled => exists e :: e in CallStack(env, c) && IllegalEntryPointCall(env, e)
    case ValueSent => exists e :: e in CallStack(env, c) && SendsValue(env, e)
    case MissingTrace => LevelOf(env, c, ACCOUNT).None?
    case UnstakedContext => LevelOf(env, c, PAYMASTER).Some? && !ContextAllowed(env, c)
    case _ =>
      var k := LevelOf(env, c, v.title);
      k.Some? && BreaksIn(env, c, c.levels[k.value], v)
  }

  ghost predicate BreaksIn(env: Env, c: Simulation, level: Tracer.Level, v: Violation) {
    match v
    case OutOfGas(_) => level.oog
    case BannedOpcode(_) => exists op :: op in level.opcodes && IsBanned(op)
    case CreatesTooMuch(title) => !CreatesWithinLimit(title, level.opcodes)
    case ForbiddenStorage(title, addr) => addr in level.access && !AccessAllowed(env, c, title, addr, level.access[addr])
    case NoCode(_) => !CodeDeployed(c, level)
    case EntryPointCodeRead(_) => env.entryPoint in level.extCodeAccess
    case _ => false
  }

  lemma BrokenRuleFails(env: Env, c: Simulation, v: Violation)
    requires Breaks(env, c, v)
    ensures !RulesHold(env, c)
  {
    match v
    case NoCalls =>
    case EntryPointCalled =>
    case ValueSent =>
    case MissingTrace => assert !EntityPasses(env, c, ACCOUNT);
    case UnstakedContext => assert !EntityPasses(env, c, PAYMASTER);
    case _ => assert !EntityPasses(env, c, v.title);
  }

  // ---- parseEntitySlots -----------------------------------------------------------------------------

  ghost function SlotsOf(env: Env, ks: seq<Bytes>, a: Address): set<Slot> {
    set k | k in ks && BeginsWith(k, a) :: env.hash(k)
  }

  ghost predicate SlotsKnown(env: Env, c: Simulation, slots: map<Address, set<Slot>>, ks: seq<Bytes>) {
    && (forall a :: a in slots <==> ks != [] && IsEntity(c, a))
    && (forall a :: a in slots ==> slots[a] == SlotsOf(env, ks, a))
  }

  function NoteFor(env: Env, slots: map<Address, set<Slot>>, info: Option<StakeInfo>, k: Bytes): map<Address, set<Slot>> {
    if info.None? then slots
    else
      var a := info.value.addr;
      var current := if a in slots then slots[a] else {};
      slots[a := if |k| >= 32 && BigEndian(k[..32]) == a then current + {env.hash(k)} else current]
  }

  function NoteAll(env: Env, c: Simulation, slots: map<Address, set<Slot>>, k: Bytes): map<Address, set<Slot>> {
    NoteFor(env, NoteFor(env, NoteFor(env, slots, c.stakes.factory, k), Some(c.stakes.account), k), c.stakes.paymaster, k)
  }

  ghost function Noted(env: Env, slots: map<Address, set<Slot>>, k: Bytes, a: Address): set<Slot> {
    (if a in slots then slots[a] else {}) + if BeginsWith(k, a) then {env.hash(k)} else {}
  }

  lemma NoteAllAt(env: Env, c: Simulation, slots: map<Address, set<Slot>>, k: Bytes, a: Address)
    ensures a in NoteAll(env, c, slots, k) <==> a in slots || IsEntity(c, a)
    ensures IsEntity(c, a) ==> NoteAll(env, c, slots, k)[a] == Noted(env, slots, k, a)
    ensures !IsEntity(c, a) && a in slots ==> NoteAll(env, c, slots, k)[a] == slots[a]
  {
    assert InfoOf(c, FACTORY) == c.stakes.factory;
    assert InfoOf(c, ACCOUNT) == Some(c.stakes.account);
    assert InfoOf(c, PAYMASTER) == c.stakes.paymaster;
  }

  lemma NoteKeepsKnown(env: Env, c: Simulation, slots: map<Address, set<Slot>>, ks: seq<Bytes>, k: Bytes)
    requires SlotsKnown(env, c, slots, ks)
    ensures SlotsKnown(env, c, NoteAll(env, c, slots, k), ks + [k])
  {
    forall a
      ensures a in NoteAll(env, c, slots, k) <==> IsEntity(c, a)
      ensures IsEntity(c, a) ==> NoteAll(env, c, slots, k)[a] == SlotsOf(env, ks + [k], a)
    {
      NoteAllAt(env, c, slots, k, a);
      assert forall x :: x in ks + [k] <==> x in ks || x == k;
      assert Noted(env, slots, k, a) == (if a in slots then slots[a] else {}) + if BeginsWith(k, a) then {env.hash(k)} else {};
    }
  }

  /** For each entity, the hashes of the buffers that begin with it; nothing at all when nothing was hashed. */
  method ParseEntitySlots(env: Env, c: Simulation) returns (slots: map<Address, set<Slot>>)
    ensures SlotsKnown(env, c, slots, c.keccak)
  {
    slots := map[];
    for i := 0 to |c.keccak|
      invariant SlotsKnown(env, c, slots, c.keccak[..i])
    {
      NoteKeepsKnown(env, c, slots, c.keccak[..i], c.keccak[i]);
      assert c.keccak[..i + 1] == c.keccak[..i] + [c.keccak[i]];
      slots := NoteFor(env, slots, c.stakes.factory, c.keccak[i]);
      slots := NoteFor(env, slots, Some(c.stakes.account), c.keccak[i]);
      slots := NoteFor(env, slots, c.stakes.paymaster, c.keccak[i]);
    }
    assert c.keccak[..|c.keccak|] == c.keccak;
  }

  // ---- the checks as the code makes them --------------------------------------------------------------

  predicate IsStaked(info: Option<StakeInfo>) {
    info.Some? && 1 <= info.value.stake && 1 <= info.value.unstakeDelaySec
  }

  const BANNED_OPCODES: set<Tracer.Opcode> := {
    Tracer.GASPRICE, Tracer.GASLIMIT, Tracer.DIFFICULTY, Tracer.TIMESTAMP, Tracer.BASEFEE, Tracer.BLOCKHASH, Tracer.NUMBER,
    Tracer.SELFBALANCE, Tracer.BALANCE, Tracer.ORIGIN, Tracer.GAS, Tracer.CREATE, Tracer.COINBASE, Tracer.SELFDESTRUCT,
    Tracer.RANDOM, Tracer.PREVRANDAO, Tracer.INVALID}

  // ---- the storage scan -----------------------------------------------------------------------------

  method AssociatedWith(env: Env, c: Simulation, slots: map<Address, set<Slot>>, slot: Slot, a: Address)
      returns (found: bool)
    requires SlotsKnown(env, c, slots, c.keccak)
    ensures found <==> Associated(env, c, slot, a)
  {
    if slot == a { return true; }
    if a !in slots { return false; }
    var todo := slots[a];
    while todo != {}
      invariant todo <= slots[a]
      invariant forall base :: base in slots[a] - todo ==> !WithinStructure(slot, base)
    {
      var base :| base in todo;
      if base <= slot && slot < base + 128 {
        return true;
      }
      todo := todo - {base};
    }
    return false;
  }

  /** Scans some of the touched slots; whether stake is needed is carried from slot to slot. */
  method ScanSlots(env: Env, c: Simulation, slots: map<Address, set<Slot>>, title: Title, addr: Address,
                   info: Tracer.AccessInfo, keys: set<Slot>, before: bool)
      returns (ok: bool, needsStake: bool)
    requires SlotsKnown(env, c, slots, c.keccak)
    ensures ok <==> forall slot :: slot in keys ==> StakedSlot(env, c, title, addr, slot in info.slotWrites, slot)
    ensures ok ==> (needsStake <==> before || exists slot :: slot in keys && !FreeSlot(env, c, title, slot))
  {
    var todo := keys;
    ok, needsStake := true, before;
    while todo != {}
      invariant todo <= keys && ok
      invariant forall slot :: slot in keys - todo ==> StakedSlot(env, c, title, addr, slot in info.slotWrites, slot)
      invariant needsStake <==> before || exists slot :: slot in keys - todo && !FreeSlot(env, c, title, slot)
    {
      var slot :| slot in todo;
      var needs: bool;
      ok, needs := ScanSlot(env, c, slots, title, addr, info, slot);
      if !ok { return; }
      assert keys - (todo - {slot}) == (keys - todo) + {slot};
      todo := todo - {slot};
      needsStake := needsStake || needs;
    }
    assert keys - todo == keys;
  }

  method ScanSlot(env: Env, c: Simulation, slots: map<Address, set<Slot>>, title: Title, addr: Address,
                  info: Tracer.AccessInfo, slot: Slot)
      returns (ok: bool, needsStake: bool)
    requires SlotsKnown(env, c, slots, c.keccak)
    ensures ok <==> StakedSlot(env, c, title, addr, slot in info.slotWrites, slot)
    ensures ok ==> (needsStake <==> !FreeSlot(env, c, title, slot))
  {
    var entity := InfoOf(c, title);
    var ofSender := AssociatedWith(env, c, slots, slot, c.op.sender);
    if ofSender {
      needsStake := |c.op.initCode| > 0 &&
        !(entity.Some? && entity.value.addr == c.op.sender && IsStaked(c.stakes.factory));
      return true, needsStake;
    }
    if entity.None? { return false, false; }   // padding the missing address throws
    var ofEntity := AssociatedWith(env, c, slots, slot, entity.value.addr);
    if ofEntity {
      return true, true;
    } else if addr == entity.value.addr {
      return true, true;
    } else if slot !in info.slotWrites {
      return true, true;
    } else {
      return false, false;
    }
  }

  method CheckAccess(env: Env, c: Simulation, slots: map<Address, set<Slot>>, title: Title, addr: Address,
                     info: Tracer.AccessInfo)
      returns (ok: bool)
    requires SlotsKnown(env, c, slots, c.keccak)
    ensures ok <==> AccessAllowed(env, c, title, addr, info)
  {
    if addr == c.op.sender { return true; }
    if addr == env.entryPoint { return true; }
    var needsStake: bool;
    ok, needsStake := ScanSlots(env, c, slots, title, addr, info, info.slotWrites.Keys, false);
    if !ok {
      ForbiddenSlotIn(env, c, title, addr, info, info.slotWrites.Keys);
      return;
    }
    ok, needsStake := ScanSlots(env, c, slots, title, addr, info, info.slotReads.Keys, needsStake);
    if !ok {
      ForbiddenSlotIn(env, c, title, addr, info, info.slotReads.Keys);
      return;
    }
    assert forall slot :: Touched(info, slot) <==> slot in info.slotWrites.Keys || slot in info.slotReads.Keys;
    ok := needsStake ==> IsStaked(InfoOf(c, title));
    StakeSettlesIt(env, c, title, addr, info, needsStake);
  }

  /** One look at the stake, after the scan, decides for all the slots. */
  lemma StakeSettlesIt(env: Env, c: Simulation, title: Title, addr: Address, info: Tracer.AccessInfo, needsStake: bool)
    requires forall slot :: Touched(info, slot) ==> StakedSlot(env, c, title, addr, slot in info.slotWrites, slot)
    requires needsStake <==> exists slot :: Touched(info, slot) && !FreeSlot(env, c, title, slot)
    ensures (forall slot :: Touched(info, slot) ==> SlotAllowed(env, c, title, addr, slot in info.slotWrites, slot))
      <==> (needsStake ==> HasStake(InfoOf(c, title)))
  {
    if needsStake && !HasStake(InfoOf(c, title)) {
      var slot :| Touched(info, slot) && !FreeSlot(env, c, title, slot);
      assert !SlotAllowed(env, c, title, addr, slot in info.slotWrites, slot);
    }
  }

  lemma ForbiddenSlotIn(env: Env, c: Simulation, title: Title, addr: Address, info: Tracer.AccessInfo, keys: set<Slot>)
    requires keys == info.slotWrites.Keys || keys == info.slotReads.Keys
    requires !forall slot :: slot in keys ==> StakedSlot(env, c, title, addr, slot in info.slotWrites, slot)
    ensures exists slot :: Touched(info, slot) && !SlotAllowed(env, c, title, addr, slot in info.slotWrites, slot)
  {
    var slot :| slot in keys && !StakedSlot(env, c, title, addr, slot in info.slotWrites, slot);
    assert Touched(info, slot) && !SlotAllowed(env, c, title, addr, slot in info.slotWrites, slot);
  }

  method CheckStorage(env: Env, c: Simulation, slots: map<Address, set<Slot>>, title: Title,
                      access: map<Address, Tracer.AccessInfo>)
      returns (r: Outcome<Address>)
    requires SlotsKnown(env, c, slots, c.keccak)
    ensures r.Pass? ==> forall addr :: addr in access ==> AccessAllowed(env, c, title, addr, access[addr])
    ensures r.Fail? ==> r.error in access && !AccessAllowed(env, c, title, r.error, access[r.error])
  {
    var todo := access.Keys;
    while todo != {}
      invariant todo <= access.Keys
      invariant forall addr :: addr in access.Keys - todo ==> AccessAllowed(env, c, title, addr, access[addr])
    {
      var addr :| addr in todo;
      var ok := CheckAccess(env, c, slots, title, addr, access[addr]);
      if !ok { return Fail(addr); }
      todo := todo - {addr};
    }
    return Pass;
  }

  // ---- the remaining rules --------------------------------------------------------------------------

  method UsesBanned(opcodes: map<Tracer.Opcode, nat>) returns (r: bool)
    ensures r <==> exists op :: op in opcodes && IsBanned(op)
  {
    var todo := opcodes.Keys;
    while todo != {}
      invariant todo <= opcodes.Keys
      invariant forall op :: op in opcodes.Keys - todo ==> !IsBanned(op)
    {
      var op :| op in todo;
      if op in BANNED_OPCODES { return true; }
      todo := todo - {op};
    }
    return false;
  }

  method AllDeployed(c: Simulation, level: Tracer.Level) returns (r: bool)
    ensures r <==> CodeDeployed(c, level)
  {
    var todo := level.contractSize.Keys;
    while todo != {}
      invariant todo <= level.contractSize.Keys
      invariant forall addr :: addr in level.contractSize.Keys - todo && addr != c.op.sender ==>
        level.contractSize[addr].size > 2
    {
      var addr :| addr in todo;
      if addr != c.op.sender && level.contractSize[addr].size <= 2 { return false; }
      todo := todo - {addr};
    }
    return true;
  }

  method CheckContext(env: Env, c: Simulation) returns (ok: bool)
    ensures ok <==> ContextAllowed(env, c)
  {
    if c.stakes.paymaster.None? { return true; }
    var stack, paymaster := CallStack(env, c), c.stakes.paymaster.value.addr;
    for i := 0 to |stack|
      invariant forall j :: 0 <= j < i ==> !IsPaymasterCall(c, stack[j])
    {
      var call := stack[i];
      if call.Finished? && call.called == Name("validatePaymasterUserOp") && call.to == paymaster {
        assert IsFirstPaymasterCall(c, stack, i);
        var context := if call.ending.Returned? && call.ending.parsedAs.Name? then env.contextOf(call.ending.data) else None;
        ok := context.Some? && context.value != [] ==> IsStaked(c.stakes.paymaster);
        return;
      }
    }
    return true;
  }

  method CheckLevel(env: Env, c: Simulation, slots: map<Address, set<Slot>>, title: Title, level: Tracer.Level)
      returns (r: Outcome<Violation>)
    requires SlotsKnown(env, c, slots, c.keccak)
    ensures r.Pass? ==> EntityRules(env, c, title, level)
    ensures r.Fail? && r.error == UnstakedContext ==> title.PAYMASTER? && !ContextAllowed(env, c)
    ensures r.Fail? && r.error != UnstakedContext ==> BreaksIn(env, c, level, r.error) && r.error.title == title
  {
    if level.oog { return Fail(OutOfGas(title)); }
    var banned := UsesBanned(level.opcodes);
    if banned { return Fail(BannedOpcode(title)); }
    if title.FACTORY? {
      if Tracer.CREATE2 in level.opcodes && level.opcodes[Tracer.CREATE2] > 1 { return Fail(CreatesTooMuch(title)); }
    } else {
      if Tracer.CREATE2 in level.opcodes { return Fail(CreatesTooMuch(title)); }
    }
    var storage := CheckStorage(env, c, slots, title, level.access);
    if storage.Fail? { return Fail(ForbiddenStorage(title, storage.error)); }
    if title.PAYMASTER? {
      var allowed := CheckContext(env, c);
      if !allowed { return Fail(UnstakedContext); }
    }
    var deployed := AllDeployed(c, level);
    if !deployed { return Fail(NoCode(title)); }
    if env.entryPoint in level.extCodeAccess { return Fail(EntryPointCodeRead(title)); }
    return Pass;
  }

  method CheckEntity(env: Env, c: Simulation, slots: map<Address, set<Slot>>, title: Title)
      returns (r: Outcome<Violation>)
    requires SlotsKnown(env, c, slots, c.keccak)
    ensures r.Pass? ==> EntityPasses(env, c, title)
    ensures r.Fail? ==> Breaks(env, c, r.error)
  {
    var k := LevelOf(env, c, title);
    if k.None? {
      if title.ACCOUNT? { return Fail(MissingTrace); }
      return Pass;
    }
    r := CheckLevel(env, c, slots, title, c.levels[k.value]);
  }

  method CheckCalls(env: Env, c: Simulation, stack: seq<CallEntry>) returns (r: Outcome<Violation>)
    requires stack == CallStack(env, c)
    ensures r.Pass? ==> CallsAllowed(env, c)
    ensures r.Fail? ==> Breaks(env, c, r.error)
  {
    for i := 0 to |stack|
      invariant forall j :: 0 <= j < i ==> !IllegalEntryPointCall(env, stack[j])
    {
      var call := stack[i];
      if call.Finished? && call.to == env.entryPoint && call.from != env.entryPoint
         && call.called != Signature([]) && call.called != Name("depositTo") {
        assert IllegalEntryPointCall(env, call);
        return Fail(EntryPointCalled);
      }
    }
    for i := 0 to |stack|
      invariant forall j :: 0 <= j < i ==> !SendsValue(env, stack[j])
    {
      var call := stack[i];
      if call.Finished? && call.to != env.entryPoint && call.value.Some? && call.value.value != 0 {
        assert SendsValue(env, call);
        return Fail(ValueSent);
      }
    }
    return Pass;
  }

  // ---- the result -----------------------------------------------------------------------------------

  datatype Report = Report(addresses: set<Address>, storageMap: StorageMap)

  function FirstAccess(levels: seq<Tracer.Level>, addr: Address): Option<nat> {
    FindFirst(levels, (l: Tracer.Level) => addr in l.access)
  }

  /** The reads of each contract, as the first level that touched it saw them. */
  ghost predicate ReportsFirstReads(levels: seq<Tracer.Level>, m: StorageMap) {
    && (forall addr :: addr in m <==> exists l :: l in levels && addr in l.access)
    && (forall addr, i :: addr in m && FirstAccess(levels, addr) == Some(i) ==> m[addr] == Slots(levels[i].access[addr].slotReads))
  }

  method CollectReads(levels: seq<Tracer.Level>) returns (m: StorageMap)
    ensures ReportsFirstReads(levels, m)
  {
    m := map[];
    for n := 0 to |levels|
      invariant forall addr :: addr in m <==> exists j :: 0 <= j < n && addr in levels[j].access
      invariant forall addr, i: nat :: addr in m && i < n && IsFirst(levels, addr, i) ==>
        m[addr] == Slots(levels[i].access[addr].slotReads)
    {
      var access := levels[n].access;
      // a key already present keeps its value, whatever order the keys come in
      m := (map addr | addr in access :: Slots(access[addr].slotReads)) + m;
    }
    forall addr, i | addr in m && FirstAccess(levels, addr) == Some(i)
      ensures m[addr] == Slots(levels[i].access[addr].slotReads)
    {
      assert IsFirst(levels, addr, i);
    }
  }

  predicate IsFirst(levels: seq<Tracer.Level>, addr: Address, i: nat) {
    i < |levels| && addr in levels[i].access && forall j :: 0 <= j < i ==> addr !in levels[j].access
  }

  ghost predicate ReportsAddresses(levels: seq<Tracer.Level>, addresses: set<Address>) {
    forall addr :: addr in addresses <==> exists l :: l in levels && addr in l.contractSize
  }

  method CollectAddresses(levels: seq<Tracer.Level>) returns (addresses: set<Address>)
    ensures ReportsAddresses(levels, addresses)
  {
    addresses := {};
    for n := 0 to |levels|
      invariant forall addr :: addr in addresses <==> exists j :: 0 <= j < n && addr in levels[j].contractSize
    {
      addresses := addresses + levels[n].contractSize.Keys;
    }
  }

  /**
   * The whole decision. It accepts exactly when the rules hold, whatever order it checks them in, and a
   * violation it reports is one.
   */
  method TracerResultParser(env: Env, c: Simulation) returns (r: Result<Report, Violation>)
    ensures r.Ok? <==> RulesHold(env, c)
    ensures r.Err? ==> Breaks(env, c, r.error)
    ensures r.Ok? ==> ReportsAddresses(c.levels, r.value.addresses) && ReportsFirstReads(c.levels, r.value.storageMap)
  {
    var broken := Decide(env, c);
    if broken.Fail? {
      BrokenRuleFails(env, c, broken.error);
      return Err(broken.error);
    }
    var addresses := CollectAddresses(c.levels);
    var storageMap := CollectReads(c.levels);
    return Ok(Report(addresses, storageMap));
  }

  method Decide(env: Env, c: Simulation) returns (r: Outcome<Violation>)
    ensures r.Pass? ==> RulesHold(env, c)
    ensures r.Fail? ==> Breaks(env, c, r.error)
  {
    if |c.levels| < 1 { return Fail(NoCalls); }
    var stack := ParseCallStack(env.abi, c.calls);
    r := CheckCalls(env, c, stack);
    if r.Fail? { return; }
    var slots := ParseEntitySlots(env, c);
    r := CheckEntities(env, c, slots);
  }

  method CheckEntities(env: Env, c: Simulation, slots: map<Address, set<Slot>>) returns (r: Outcome<Violation>)
    requires SlotsKnown(env, c, slots, c.keccak)
    ensures r.Pass? ==> forall title :: EntityPasses(env, c, title)
    ensures r.Fail? ==> Breaks(env, c, r.error)
  {
    r := CheckEntity(env, c, slots, FACTORY);
    if r.Fail? { return; }
    r := CheckEntity(env, c, slots, ACCOUNT);
    if r.Fail? { return; }
    r := CheckEntity(env, c, slots, PAYMASTER);
  }

  // ---- laws of the decision -------------------------------------------------------------------------

  predicate AtLeastAsStaked(low: Option<StakeInfo>, high: Option<StakeInfo>) {
    && (low.Some? <==> high.Some?)
    && (low.Some? ==> && high.value.addr == low.value.addr && high.value.stake >= low.value.stake
                      && high.value.unstakeDelaySec >= low.value.unstakeDelaySec)
  }

  /** The same simulation, with no entity's stake or delay lowered. */
  ghost predicate MoreStake(low: Simulation, high: Simulation) {
    && high == low.(stakes := high.stakes)
    && forall title :: AtLeastAsStaked(InfoOf(low, title), InfoOf(high, title))
  }

  lemma SameEntities(low: Simulation, high: Simulation, a: Address)
    requires MoreStake(low, high)
    ensures IsEntity(low, a) <==> IsEntity(high, a)
  {
    forall title
      ensures InfoOf(low, title).Some? && InfoOf(low, title).value.addr == a
        <==> InfoOf(high, title).Some? && InfoOf(high, title).value.addr == a
    {
      assert AtLeastAsStaked(InfoOf(low, title), InfoOf(high, title));
    }
  }

  lemma SameAssociation(env: Env, low: Simulation, high: Simulation, slot: Slot, a: Address)
    requires MoreStake(low, high)
    ensures Associated(env, low, slot, a) <==> Associated(env, high, slot, a)
  {
    SameEntities(low, high, a);
  }

  lemma SlotStaysAllowed(env: Env, low: Simulation, high: Simulation, title: Title, addr: Address, written: bool, slot: Slot)
    requires MoreStake(low, high) && SlotAllowed(env, low, title, addr, written, slot)
    ensures SlotAllowed(env, high, title, addr, written, slot)
  {
    SameAssociation(env, low, high, slot, low.op.sender);
    assert AtLeastAsStaked(InfoOf(low, title), InfoOf(high, title));
    assert AtLeastAsStaked(InfoOf(low, FACTORY), InfoOf(high, FACTORY));
    if InfoOf(low, title).Some? {
      SameAssociation(env, low, high, slot, InfoOf(low, title).value.addr);
    }
  }

  lemma AccessStaysAllowed(env: Env, low: Simulation, high: Simulation, title: Title, addr: Address, info: Tracer.AccessInfo)
    requires MoreStake(low, high) && AccessAllowed(env, low, title, addr, info)
    ensures AccessAllowed(env, high, title, addr, info)
  {
    if addr != low.op.sender && addr != env.entryPoint {
      forall slot | Touched(info, slot)
        ensures SlotAllowed(env, high, title, addr, slot in info.slotWrites, slot)
      {
        SlotStaysAllowed(env, low, high, title, addr, slot in info.slotWrites, slot);
      }
    }
  }

  lemma ContextStaysAllowed(env: Env, low: Simulation, high: Simulation)
    requires MoreStake(low, high) && ContextAllowed(env, low)
    ensures ContextAllowed(env, high)
  {
    assert AtLeastAsStaked(InfoOf(low, PAYMASTER), InfoOf(high, PAYMASTER));
    assert CallStack(env, low) == CallStack(env, high);
    forall i: nat | IsFirstPaymasterCall(high, CallStack(env, high), i) && GivesContext(env, CallStack(env, high)[i])
      ensures HasStake(high.stakes.paymaster)
    {
      assert IsFirstPaymasterCall(low, CallStack(env, low), i);
    }
  }

  lemma LevelStaysAllowed(env: Env, low: Simulation, high: Simulation, title: Title, level: Tracer.Level)
    requires MoreStake(low, high) && EntityRules(env, low, title, level)
    ensures EntityRules(env, high, title, level)
  {
    forall addr | addr in level.access
      ensures AccessAllowed(env, high, title, addr, level.access[addr])
    {
      AccessStaysAllowed(env, low, high, title, addr, level.access[addr]);
    }
    if title.PAYMASTER? { ContextStaysAllowed(env, low, high); }
    assert CodeDeployed(low, level);
  }

  /** Raising stakes or unstake delays never turns an accepted operation into a rejected one. */
  lemma StakeNeverHurts(env: Env, low: Simulation, high: Simulation)
    requires MoreStake(low, high) && RulesHold(env, low)
    ensures RulesHold(env, high)
  {
    forall title
      ensures EntityPasses(env, high, title)
    {
      assert EntityPasses(env, low, title);
      var k := LevelOf(env, low, title);
      assert k == LevelOf(env, high, title);
      if k.Some? { LevelStaysAllowed(env, low, high, title, low.levels[k.value]); }
    }
    assert CallsAllowed(env, low);
  }

  // ---- what stake is needed for ---------------------------------------------------------------------

  /** With stake, an entity may touch the sender's and its own slots and its own contract, and read anything. */
  lemma StakedAccessExactly(env: Env, c: Simulation, title: Title, addr: Address, info: Tracer.AccessInfo)
    requires InfoOf(c, title).Some? && InfoOf(c, title).value.stake >= 1 && InfoOf(c, title).value.unstakeDelaySec >= 1
    ensures var entity := InfoOf(c, title).value.addr;
      AccessAllowed(env, c, title, addr, info) <==>
        || addr == c.op.sender || addr == env.entryPoint || addr == entity
        || forall slot :: slot in info.slotWrites ==>
             Associated(env, c, slot, c.op.sender) || Associated(env, c, slot, entity)
  {
    var entity := InfoOf(c, title).value.addr;
    forall slot | Touched(info, slot)
      ensures SlotAllowed(env, c, title, addr, slot in info.slotWrites, slot) <==>
        || Associated(env, c, slot, c.op.sender) || Associated(env, c, slot, entity)
        || addr == entity || slot !in info.slotWrites
    {
    }
    if AccessAllowed(env, c, title, addr, info) && addr != c.op.sender && addr != env.entryPoint && addr != entity {
      forall slot | slot in info.slotWrites
        ensures Associated(env, c, slot, c.op.sender) || Associated(env, c, slot, entity)
      {
        assert Touched(info, slot);
      }
    }
  }

  /**
   * Without stake, it may touch slots of the sender only: and while the account is being created none, except by the
   * account itself when its factory has stake and delay.
   */
  lemma UnstakedAccessExactly(env: Env, c: Simulation, title: Title, addr: Address, info: Tracer.AccessInfo)
    requires InfoOf(c, title).Some? ==> InfoOf(c, title).value.stake == 0 || InfoOf(c, title).value.unstakeDelaySec == 0
    ensures AccessAllowed(env, c, title, addr, info) <==>
      || addr == c.op.sender || addr == env.entryPoint
      || (info.slotReads == map[] && info.slotWrites == map[])
      || (&& (forall slot :: slot in info.slotReads || slot in info.slotWrites ==> Associated(env, c, slot, c.op.sender))
          && (|| c.op.initCode == []
              || (&& InfoOf(c, title).Some? && InfoOf(c, title).value.addr == c.op.sender
                  && c.stakes.factory.Some? && c.stakes.factory.value.stake >= 1
                  && c.stakes.factory.value.unstakeDelaySec >= 1)))
  {
    if addr != c.op.sender && addr != env.entryPoint && AccessAllowed(env, c, title, addr, info) {
      forall slot | slot in info.slotReads || slot in info.slotWrites
        ensures FreeSlot(env, c, title, slot)
      {
        assert Touched(info, slot) && SlotAllowed(env, c, title, addr, slot in info.slotWrites, slot);
      }
    }
  }

  /**
   * Whatever an accepted simulation touched outside sender and entry point needs stake of the entity whose level it
   * is, unless it is a slot of the sender that needs none.
   */
  lemma AcceptedTouchNeedsStake(env: Env, c: Simulation, title: Title, k: nat, addr: Address, slot: Slot)
    requires RulesHold(env, c) && LevelOf(env, c, title) == Some(k)
    requires addr in c.levels[k].access && addr != c.op.sender && addr != env.entryPoint
    requires slot in c.levels[k].access[addr].slotReads || slot in c.levels[k].access[addr].slotWrites
    requires || !Associated(env, c, slot, c.op.sender)
      || (c.op.initCode != [] &&
          !(&& InfoOf(c, title).Some? && InfoOf(c, title).value.addr == c.op.sender
            && c.stakes.factory.Some? && c.stakes.factory.value.stake >= 1 && c.stakes.factory.value.unstakeDelaySec >= 1))
    ensures InfoOf(c, title).Some? && InfoOf(c, title).value.stake >= 1 && InfoOf(c, title).value.unstakeDelaySec >= 1
  {
    assert EntityPasses(env, c, title);
    var info := c.levels[k].access[addr];
    assert AccessAllowed(env, c, title, addr, info) && Touched(info, slot);
  }

  /** And a paymaster whose validation call returns a context has stake and delay. */
  lemma AcceptedContextNeedsStake(env: Env, c: Simulation, i: nat)
    requires RulesHold(env, c) && LevelOf(env, c, PAYMASTER).Some?
    requires IsFirstPaymasterCall(c, CallStack(env, c), i) && GivesContext(env, CallStack(env, c)[i])
    ensures c.stakes.paymaster.value.stake >= 1 && c.stakes.paymaster.value.unstakeDelaySec >= 1
  {
    assert EntityPasses(env, c, PAYMASTER);
  }

  // ---- reads missing from the report ----------------------------------------------------------------

  predicate Reads(l: Tracer.Level, addr: Address, slot: Slot) {
    addr in l.access && slot in l.access[addr].slotReads
  }

  predicate Reported(m: StorageMap, addr: Address, slot: Slot) {
    addr in m && m[addr].Slots? && slot in m[addr].slots
  }

  ghost predicate ReportsEveryRead(levels: seq<Tracer.Level>, m: StorageMap) {
    forall i: nat, addr, slot :: i < |levels| && Reads(levels[i], addr, slot) ==> Reported(m, addr, slot)
  }

  /** No level reads a slot of a contract that the first level to touch the contract had not read. */
  ghost predicate FirstReadsSuffice(levels: seq<Tracer.Level>) {
    forall i: nat, j: nat, addr, slot :: IsFirst(levels, addr, i) && i < j < |levels| && Reads(levels[j], addr, slot) ==>
      Reads(levels[i], addr, slot)
  }

  lemma ReportedExactly(levels: seq<Tracer.Level>, m: StorageMap, addr: Address, i: nat, slot: Slot)
    requires ReportsFirstReads(levels, m) && IsFirst(levels, addr, i)
    ensures Reported(m, addr, slot) <==> Reads(levels[i], addr, slot)
  {
    assert levels[i] in levels && FirstAccess(levels, addr) == Some(i);
  }

  lemma SomeLevelIsFirst(levels: seq<Tracer.Level>, addr: Address, j: nat) returns (i: nat)
    requires j < |levels| && addr in levels[j].access
    ensures i <= j && IsFirst(levels, addr, i)
  {
    i := FirstAccess(levels, addr).value;
  }

  /**
   * The returned storage map holds every slot read at any level exactly when, for each contract, later levels
   * read nothing that the first level to touch it had not read.
   */
  lemma EveryReadReportedExactly(levels: seq<Tracer.Level>, m: StorageMap)
    requires ReportsFirstReads(levels, m)
    ensures ReportsEveryRead(levels, m) <==> FirstReadsSuffice(levels)
  {
    if ReportsEveryRead(levels, m) {
      forall i: nat, j: nat, addr, slot | IsFirst(levels, addr, i) && i < j < |levels| && Reads(levels[j], addr, slot)
        ensures Reads(levels[i], addr, slot)
      {
        ReportedExactly(levels, m, addr, i, slot);
      }
    }
    if FirstReadsSuffice(levels) {
      forall j: nat, addr, slot | j < |levels| && Reads(levels[j], addr, slot)
        ensures Reported(m, addr, slot)
      {
        var i := SomeLevelIsFirst(levels, addr, j);
        ReportedExactly(levels, m, addr, i, slot);
      }
    }
  }
}
