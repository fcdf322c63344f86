/** BundlerCollectorTracer: collecting accesses and opcodes step by step, level by level. */
module Tracer {
  import opened Common
  import CallTree

  type Word = nat

  /** EVM opcodes, by the name the tracer sees. */
  datatype Opcode =
    | CALL | CALLCODE | DELEGATECALL | STATICCALL
    | CALLER | CALLVALUE | CALLDATALOAD | CALLDATASIZE | CALLDATACOPY
    | EXTCODESIZE | EXTCODECOPY | EXTCODEHASH
    | DUP(n: nat) | PUSH(n: nat) | SWAP(n: nat) | LOG(n: nat)
    | POP | ADD | SUB | MUL | DIV | EQ | LT | GT | SLT | SGT | SHL | SHR | AND | OR | NOT | ISZERO
    | SLOAD | SSTORE | KECCAK256 | REVERT | RETURN | GAS | CREATE | CREATE2
    | GASPRICE | GASLIMIT | DIFFICULTY | TIMESTAMP | BASEFEE | BLOCKHASH | NUMBER | SELFBALANCE | BALANCE
    | ORIGIN | COINBASE | SELFDESTRUCT | RANDOM | PREVRANDAO | INVALID
    | Other(name: string)
    | Undefined(code: nat)   // printed with blanks in its name

  /** What the tracer can see of one EVM step, before it executes. */
  datatype Step = Step(
    op: Opcode,
    depth: nat,
    gas: int,
    cost: int,
    stack: seq<Word>,     // top first
    contract: Address,    // whose storage the step would touch
    stored: Word,         // db.getState of that contract at the slot on top of the stack
    codeSize: nat,        // length of db.getCode of the address the step names
    slice: Bytes)         // the memory slice the step's operands select

  datatype Recent = Recent(op: Opcode, stackTop3: seq<Word>)

  datatype AccessInfo = AccessInfo(slotReads: map<Word, Word>, slotWrites: map<Word, nat>)
  datatype ContractSize = ContractSize(opcode: Opcode, size: nat)

  /** Everything collected while the entry point runs one of its calls. */
  datatype Level = Level(
    methodSig: Bytes,
    target: Address,
    opcodes: map<Opcode, nat>,
    access: map<Address, AccessInfo>,
    contractSize: map<Address, ContractSize>,
    extCodeAccess: map<Address, Opcode>,
    oog: bool)

  datatype State = State(
    levels: seq<Level>,
    calls: seq<CallTree.Frame>,
    keccak: seq<Bytes>,
    lastOp: Option<Opcode>,
    lastThree: seq<Recent>,
    stopCollecting: bool,
    failed: bool)        // a property of the missing current level was read: the tracer threw

  const START := State([], [], [], None, [], false, false)

  // ---- opcode classes ---------------------------------------------------------------------------

  predicate IsExt(op: Opcode) {
    op.EXTCODESIZE? || op.EXTCODECOPY? || op.EXTCODEHASH?
  }

  predicate IsCall(op: Opcode) {
    op.CALL? || op.CALLCODE? || op.DELEGATECALL? || op.STATICCALL?
  }

  predicate IsCallLike(op: Opcode) {
    IsExt(op) || IsCall(op)
  }

  /** The source asks whether the name includes "CALL", which more opcodes than the calls do. */
  predicate NameIncludesCall(op: Opcode) {
    IsCall(op) || op.CALLER? || op.CALLVALUE? || op.CALLDATALOAD? || op.CALLDATASIZE? || op.CALLDATACOPY?
  }

  predicate Unimportant(op: Opcode) {
    || op.DUP? || op.PUSH? || op.SWAP? || op.POP? || op.ADD? || op.SUB? || op.MUL? || op.DIV? || op.EQ?
    || op.LT? || op.GT? || op.SGT? || op.SLT? || op.SHL? || op.SHR? || op.AND? || op.OR? || op.NOT? || op.ISZERO?
  }

  predicate IsReturn(op: Opcode) {
    op.REVERT? || op.RETURN?
  }

  predicate IsStorageOp(op: Opcode) {
    op.SLOAD? || op.SSTORE?
  }

  // ---- reading a step ---------------------------------------------------------------------------

  /** The EVM checks the stack height before it reports a step, so the default is never used. */
  function Peek(s: Step, i: nat): Word {
    if i < |s.stack| then s.stack[i] else 0
  }

  function ToAddress(w: Word): Address {
    w % 0x1_0000_0000_0000_0000_0000_0000_0000_0000_0000_0000
  }

  function RecentOf(s: Step): Recent {
    Recent(s.op, s.stack[..if |s.stack| < 3 then |s.stack| else 3])
  }

  predicate LowGas(s: Step) {
    s.gas < s.cost || (s.op.SSTORE? && s.gas < 2300)
  }

  const STOP_TOPIC := 0xbb47ee3e183a558b1a2ff0874b079f3fc5478b7454eacf2bfc5af2ff5878f972

  predicate Opens(s: Step) {
    s.depth == 1 && (s.op.CALL? || s.op.STATICCALL?)
  }

  predicate Stops(s: Step) {
    s.depth == 1 && s.op == LOG(1) && Peek(s, 2) == STOP_TOPIC
  }

  predicate IsAllowedPrecompiled(a: Address) {
    0 < a < 10
  }

  function CalledAddress(s: Step): Address {
    ToAddress(Peek(s, if IsExt(s.op) then 0 else 1))
  }

  /** The EXTCODESIZE-then-ISZERO pattern that is exempt. */
  predicate SafeSizeCheck(recent: seq<Recent>) {
    |recent| == 3 && !recent[0].op.Undefined? && recent[1].op.EXTCODESIZE? && recent[2].op.ISZERO?
  }

  /** The address an EXT opcode just before the current step named, when that was not exempt. */
  function UnsafeExtAddress(recent: seq<Recent>): Option<Address> {
    if |recent| >= 2 && IsExt(recent[|recent| - 2].op) && !SafeSizeCheck(recent)
    then Some(ToAddress(if recent[|recent| - 2].stackTop3 == [] then 0 else recent[|recent| - 2].stackTop3[0]))
    else None
  }

  // ---- one step ---------------------------------------------------------------------------------

  function PushRecent(recent: seq<Recent>, s: Step): seq<Recent> {
    var pushed := recent + [RecentOf(s)];
    if |pushed| > 3 then pushed[1..] else pushed
  }

  function RecentAfter(recent: seq<Recent>, s: Step): seq<Recent> {
    if IsReturn(s.op) then [] else PushRecent(recent, s)
  }

  function CountSlot<K>(counts: map<K, nat>, key: K): map<K, nat> {
    counts[key := (if key in counts then counts[key] else 0) + 1]
  }

  predicate CountsGas(lastOp: Option<Opcode>, s: Step) {
    lastOp == Some(GAS) && !NameIncludesCall(s.op)
  }

  function OpcodesAfter(opcodes: map<Opcode, nat>, lastOp: Option<Opcode>, s: Step): map<Opcode, nat> {
    var withGas := if CountsGas(lastOp, s) then CountSlot(opcodes, GAS) else opcodes;
    if !s.op.GAS? && !Unimportant(s.op) then CountSlot(withGas, s.op) else withGas
  }

  function InfoOf(access: map<Address, AccessInfo>, a: Address): AccessInfo {
    if a in access then access[a] else AccessInfo(map[], map[])
  }

  function AccessAfter(access: map<Address, AccessInfo>, s: Step): map<Address, AccessInfo> {
    if !IsStorageOp(s.op) then access
    else
      var info, slot := InfoOf(access, s.contract), Peek(s, 0);
      access[s.contract :=
        if s.op.SSTORE? then info.(slotWrites := CountSlot(info.slotWrites, slot))
        else if slot !in info.slotReads && slot !in info.slotWrites then info.(slotReads := info.slotReads[slot := s.stored])
        else info]
  }

  function SizesAfter(sizes: map<Address, ContractSize>, s: Step): map<Address, ContractSize> {
    var a := CalledAddress(s);
    if IsCallLike(s.op) && a !in sizes && !IsAllowedPrecompiled(a) then sizes[a := ContractSize(s.op, s.codeSize)]
    else sizes
  }

  function ExtAfter(ext: map<Address, Opcode>, recent: seq<Recent>, s: Step): map<Address, Opcode> {
    var unsafe := UnsafeExtAddress(recent);
    if unsafe.Some? then ext[unsafe.value := s.op] else ext
  }

  /** The current level after a step inside it; `recent` already includes the step. */
  function LevelAfter(l: Level, recent: seq<Recent>, lastOp: Option<Opcode>, s: Step): Level {
    l.(opcodes := OpcodesAfter(l.opcodes, lastOp, s),
       access := AccessAfter(l.access, s),
       contractSize := SizesAfter(l.contractSize, s),
       extCodeAccess := ExtAfter(l.extCodeAccess, recent, s))
  }

  function NewLevel(s: Step): Level {
    Level(s.slice, ToAddress(Peek(s, 1)), map[], map[], map[], map[], false)
  }

  /** Whether the step reads a property of the current level. */
  predicate NeedsLevel(recent: seq<Recent>, lastOp: Option<Opcode>, s: Step) {
    || LowGas(s)
    || (s.depth != 1 && (|| UnsafeExtAddress(recent).Some?
                         || IsCallLike(s.op)
                         || CountsGas(lastOp, s)
                         || (!s.op.GAS? && !Unimportant(s.op))))
  }

  function SetLast<T>(xs: seq<T>, x: T): seq<T>
    requires xs != []
  {
    xs[..|xs| - 1] + [x]
  }

  function MarkOog(levels: seq<Level>, s: Step): seq<Level> {
    if LowGas(s) && levels != [] then SetLast(levels, levels[|levels| - 1].(oog := true)) else levels
  }

  /** The levels after a depth-1 step. */
  function OpenNext(levels: seq<Level>, s: Step): seq<Level> {
    if Opens(s) then levels + [NewLevel(s)] else levels
  }

  /** The levels after a deeper step. */
  function CollectLast(levels: seq<Level>, recent: seq<Recent>, lastOp: Option<Opcode>, s: Step): seq<Level> {
    if levels == [] then [] else SetLast(levels, LevelAfter(levels[|levels| - 1], recent, lastOp, s))
  }

  /** The end of the traced call itself is recorded from its opcode. */
  function OuterCalls(calls: seq<CallTree.Frame>, s: Step): seq<CallTree.Frame> {
    if IsReturn(s.op) then calls + [CallTree.Exit(CallTree.Closing(s.op.REVERT?, s.slice))] else calls
  }

  function OuterStep(t: State, recent: seq<Recent>, s: Step): State {
    t.(levels := OpenNext(MarkOog(t.levels, s), s),
       calls := OuterCalls(t.calls, s),
       lastOp := None,
       lastThree := recent,
       stopCollecting := Stops(s))
  }

  function InnerStep(t: State, recent: seq<Recent>, s: Step): State {
    t.(levels := CollectLast(MarkOog(t.levels, s), recent, t.lastOp, s),
       keccak := if s.op.KECCAK256? && 20 < |s.slice| < 512 then t.keccak + [s.slice] else t.keccak,
       lastOp := Some(s.op),
       lastThree := recent)
  }

  function StepOn(t: State, s: Step): State {
    if t.stopCollecting || t.failed then t
    else
      var recent := RecentAfter(t.lastThree, s);
      if t.levels == [] && NeedsLevel(recent, t.lastOp, s) then t.(failed := true)
      else if s.depth == 1 then OuterStep(t, recent, s)
      else InnerStep(t, recent, s)
  }

  function EnterCall(t: State, o: CallTree.Opening): State {
    if t.stopCollecting || t.failed then t else t.(calls := t.calls + [CallTree.Enter(o)])
  }

  function ExitCall(t: State, c: CallTree.Closing): State {
    if t.stopCollecting || t.failed then t else t.(calls := t.calls + [CallTree.Exit(c)])
  }

  // ---- the object -------------------------------------------------------------------------------

  class TopLevelCallInfo {
    const methodSig: Bytes
    const target: Address
    var opcodes: map<Opcode, nat>
    var access: map<Address, AccessInfo>
    var contractSize: map<Address, ContractSize>
    var extCodeAccess: map<Address, Opcode>
    var oog: bool

    constructor (s: Step)
      ensures Value() == NewLevel(s)
    {
      methodSig, target := s.slice, ToAddress(Peek(s, 1));
      opcodes, access, contractSize, extCodeAccess, oog := map[], map[], map[], map[], false;
    }

    method CountOpcode(op: Opcode)
      modifies this`opcodes
      ensures opcodes == CountSlot(old(opcodes), op)
    {
      opcodes := opcodes[op := (if op in opcodes then opcodes[op] else 0) + 1];
    }

    /** The part of a step at depth > 1 that updates the level; `recent` ends with the step. */
    method Collect(recent: seq<Recent>, lastOp: Option<Opcode>, s: Step)
      modifies this
      ensures Value() == LevelAfter(old(Value()), recent, lastOp, s)
    {
      var unsafe := UnsafeExtAddress(recent);
      if unsafe.Some? {
        extCodeAccess := extCodeAccess[unsafe.value := s.op];
      }
      CollectSize(s);
      CollectOpcode(lastOp, s);
      if s.op.SLOAD? || s.op.SSTORE? {
        CollectAccess(s);
      }
    }

    method CollectSize(s: Step)
      modifies this`contractSize
      ensures contractSize == SizesAfter(old(contractSize), s)
    {
      if IsCallLike(s.op) {
        var addr := CalledAddress(s);
        if addr !in contractSize && !IsAllowedPrecompiled(addr) {
          contractSize := contractSize[addr := ContractSize(s.op, s.codeSize)];
        }
      }
    }

    method CollectOpcode(lastOp: Option<Opcode>, s: Step)
      modifies this`opcodes
      ensures opcodes == OpcodesAfter(old(opcodes), lastOp, s)
    {
      if lastOp == Some(GAS) && !NameIncludesCall(s.op) {
        CountOpcode(GAS);
      }
      if !s.op.GAS? {
        if !Unimportant(s.op) {
          CountOpcode(s.op);
        }
      }
    }

    method CollectAccess(s: Step)
      requires IsStorageOp(s.op)
      modifies this`access
      ensures access == AccessAfter(old(access), s)
    {
      var slot := Peek(s, 0);
      if s.contract !in access {
        access := access[s.contract := AccessInfo(map[], map[])];
      }
      var info := access[s.contract];
      if s.op.SLOAD? {
        if slot !in info.slotReads && slot !in info.slotWrites {
          access := access[s.contract := info.(slotReads := info.slotReads[slot := s.stored])];
        }
      } else {
        access := access[s.contract := info.(slotWrites := CountSlot(info.slotWrites, slot))];
      }
    }

    function Value(): Level
      reads this
    {
      Level(methodSig, target, opcodes, access, contractSize, extCodeAccess, oog)
    }
  }

  class BundlerCollectorTracer {
    var callsFromEntryPoint: seq<TopLevelCallInfo>
    var currentLevel: TopLevelCallInfo?
    var calls: seq<CallTree.Frame>
    var keccak: seq<Bytes>
    var lastOp: Option<Opcode>
    var lastThreeOpcodes: seq<Recent>
    var stopCollecting: bool
    var failed: bool
    ghost var levels: seq<Level>    // the values of callsFromEntryPoint

    /** The current level is the object last appended, and no earlier one. */
    ghost predicate Valid()
      reads `callsFromEntryPoint, `currentLevel, `levels, callsFromEntryPoint
    {
      && (currentLevel == null <==> callsFromEntryPoint == [])
      && (currentLevel != null ==> currentLevel == callsFromEntryPoint[|callsFromEntryPoint| - 1])
      && (forall i :: 0 <= i < |callsFromEntryPoint| - 1 ==> callsFromEntryPoint[i] != currentLevel)
      && |levels| == |callsFromEntryPoint|
      && (forall i :: 0 <= i < |levels| ==> levels[i] == callsFromEntryPoint[i].Value())
    }

    ghost function Value(): State
      reads this
    {
      State(levels, calls, keccak, lastOp, lastThreeOpcodes, stopCollecting, failed)
    }

    constructor ()
      ensures Valid() && Value() == START
    {
      callsFromEntryPoint, currentLevel, calls, keccak := [], null, [], [];
      lastOp, lastThreeOpcodes, stopCollecting, failed := None, [], false, false;
      levels := [];
    }

    method Enter(o: CallTree.Opening)
      requires Valid()
      modifies this`calls
      ensures Valid() && Value() == EnterCall(old(Value()), o)
    {
      if stopCollecting || failed { return; }
      calls := calls + [CallTree.Enter(o)];
    }

    method Exit(c: CallTree.Closing)
      requires Valid()
      modifies this`calls
      ensures Valid() && Value() == ExitCall(old(Value()), c)
    {
      if stopCollecting || failed { return; }
      calls := calls + [CallTree.Exit(c)];
    }

    method Remember(s: Step) returns (recent: seq<Recent>)
      ensures recent == RecentAfter(lastThreeOpcodes, s)
    {
      recent := lastThreeOpcodes + [Recent(s.op, s.stack[..if |s.stack| < 3 then |s.stack| else 3])];
      if |recent| > 3 {
        recent := recent[1..];
      }
      if IsReturn(s.op) {
        recent := [];
      }
    }

    method NoteLowGas(s: Step)
      requires Valid() && (LowGas(s) ==> currentLevel != null)
      modifies currentLevel, this`levels
      ensures Valid() && levels == MarkOog(old(levels), s)
    {
      if LowGas(s) {
        currentLevel.oog := true;
        levels := SetLast(levels, currentLevel.Value());
      }
    }

    method OpenLevel(s: Step)
      requires Valid()
      modifies this`currentLevel, this`callsFromEntryPoint, this`levels
      ensures Valid() && levels == old(levels) + [NewLevel(s)]
    {
      currentLevel := new TopLevelCallInfo(s);
      callsFromEntryPoint := callsFromEntryPoint + [currentLevel];
      levels := levels + [currentLevel.Value()];
    }

    method CollectInside(recent: seq<Recent>, previous: Option<Opcode>, s: Step)
      requires Valid()
      modifies currentLevel, this`levels
      ensures Valid() && levels == CollectLast(old(levels), recent, previous, s)
    {
      if currentLevel != null {
        currentLevel.Collect(recent, previous, s);
        levels := SetLast(levels, currentLevel.Value());
      }
    }

    /** A depth-1 step opens a level, ends the collection, or does nothing but reset the last opcode. */
    method Outside(s: Step)
      requires Valid() && s.depth == 1 && !stopCollecting
      modifies this`currentLevel, this`callsFromEntryPoint, this`levels, this`stopCollecting, this`lastOp
      ensures Valid() && lastOp == None && stopCollecting == Stops(s) && levels == OpenNext(old(levels), s)
    {
      if s.op.CALL? || s.op.STATICCALL? {
        OpenLevel(s);
      } else {
        NoticeStop(s);
      }
      lastOp := None;
    }

    method NoticeStop(s: Step)
      requires s.depth == 1 && !stopCollecting
      modifies this`stopCollecting
      ensures stopCollecting == Stops(s)
    {
      if s.op == LOG(1) {
        if Peek(s, 2) == STOP_TOPIC {
          stopCollecting := true;
        }
      }
    }

    method NoteReturn(s: Step)
      modifies this`calls
      ensures calls == OuterCalls(old(calls), s)
    {
      if IsReturn(s.op) {
        calls := calls + [CallTree.Exit(CallTree.Closing(s.op.REVERT?, s.slice))];
      }
    }

    /** The levels of a depth-1 step: the low-gas mark first, then the new level. */
    method StepLevels(s: Step)
      requires Valid() && s.depth == 1 && !stopCollecting && (LowGas(s) ==> currentLevel != null)
      modifies currentLevel, this`currentLevel, this`callsFromEntryPoint, this`levels, this`stopCollecting, this`lastOp
      ensures Valid() && lastOp == None && stopCollecting == Stops(s)
      ensures levels == OpenNext(MarkOog(old(levels), s), s)
    {
      NoteLowGas(s);
      Outside(s);
    }

    method StepOutside(recent: seq<Recent>, s: Step)
      requires Valid() && s.depth == 1 && !stopCollecting && (LowGas(s) ==> currentLevel != null)
      modifies this, currentLevel
      ensures Valid() && Value() == OuterStep(old(Value()), recent, s)
    {
      lastThreeOpcodes := recent;
      NoteReturn(s);
      StepLevels(s);
    }

    method UpdateLevel(recent: seq<Recent>, previous: Option<Opcode>, s: Step)
      requires Valid() && (LowGas(s) ==> currentLevel != null)
      modifies currentLevel, this`levels
      ensures Valid() && levels == CollectLast(MarkOog(old(levels), s), recent, previous, s)
    {
      NoteLowGas(s);
      CollectInside(recent, previous, s);
    }

    method StepInside(recent: seq<Recent>, s: Step)
      requires Valid() && s.depth != 1 && (LowGas(s) ==> currentLevel != null)
      modifies currentLevel, this`levels, this`lastOp, this`lastThreeOpcodes, this`keccak
      ensures Valid() && levels == CollectLast(MarkOog(old(levels), s), recent, old(lastOp), s)
      ensures lastOp == Some(s.op) && lastThreeOpcodes == recent
      ensures keccak == if s.op.KECCAK256? && 20 < |s.slice| < 512 then old(keccak) + [s.slice] else old(keccak)
    {
      var previous := lastOp;
      lastOp, lastThreeOpcodes := Some(s.op), recent;
      if s.op.KECCAK256? && |s.slice| > 20 && |s.slice| < 512 {
        keccak := keccak + [s.slice];
      }
      UpdateLevel(recent, previous, s);
    }

    /** Reads of the missing current level throw; the test for them is made once, up front. */
    method TakeStep(s: Step)
      requires Valid()
      modifies this, currentLevel
      ensures Valid() && Value() == StepOn(old(Value()), s)
    {
      if stopCollecting || failed { return; }
      var recent := Remember(s);
      if currentLevel == null && NeedsLevel(recent, lastOp, s) {
        failed := true;
        return;
      }
      if s.depth == 1 {
        StepOutside(recent, s);
      } else {
        StepInside(recent, s);
      }
    }
  }
}
