/** An accepted run that executes GAS for its own sake. */
module TracedExamples {
  import opened Common
  import opened Tracer
  import opened TracerRuns
  import opened TracedRules
  import CallTree
  import Rules
  import RulesExamples

  // ---- one call with plain steps inside -------------------------------------------------------------

  /** A step inside the call that does nothing but run: no storage, no call, no hashing. */
  predicate Plain(s: Step) {
    s.depth == 2 && !LowGas(s) && (s.op.GAS? || s.op.CALLER? || s.op.PUSH? || s.op.RETURN?)
  }

  predicate AllPlain(ts: seq<Step>) {
    forall i :: 0 <= i < |ts| ==> Plain(ts[i])
  }

  /** A step of the entry point itself that neither calls, stops the collection, nor ends the simulation. */
  predicate Outer(s: Step) {
    s.depth == 1 && !Opens(s) && !Stops(s) && !IsReturn(s.op) && !LowGas(s)
  }

  predicate AllOuter(ts: seq<Step>) {
    forall i :: 0 <= i < |ts| ==> Outer(ts[i])
  }

  /** The step just made was no EXT opcode. */
  predicate NoExt(recent: seq<Recent>) {
    recent != [] ==> !IsExt(recent[|recent| - 1].op)
  }

  function OnSteps(ts: seq<Step>): seq<Callback>
    decreases |ts|
  {
    if ts == [] then [] else [OnStep(ts[0])] + OnSteps(ts[1..])
  }

  /** The opcode counts after plain steps. */
  function CountAll(opcodes: map<Opcode, nat>, lastOp: Option<Opcode>, ts: seq<Step>): map<Opcode, nat>
    decreases |ts|
  {
    if ts == [] then opcodes else CountAll(OpcodesAfter(opcodes, lastOp, ts[0]), Some(ts[0].op), ts[1..])
  }

  predicate Running(s: State, l: Level) {
    s.levels == [l] && !s.stopCollecting && !s.failed && NoExt(s.lastThree)
  }

  lemma ReactFirst(s: State, c: Callback, rest: seq<Callback>)
    ensures ReactAll(s, [c] + rest) == ReactAll(React(s, c), rest)
  {
    assert ([c] + rest)[1..] == rest;
  }

  lemma {:induction false} ReactConcat(s: State, xs: seq<Callback>, ys: seq<Callback>)
    ensures ReactAll(s, xs + ys) == ReactAll(ReactAll(s, xs), ys)
    decreases |xs|
  {
    if xs == [] {
      assert xs + ys == ys;
    } else {
      assert (xs + ys)[1..] == xs[1..] + ys;
      ReactConcat(React(s, xs[0]), xs[1..], ys);
    }
  }

  lemma RecentStaysPlain(recent: seq<Recent>, s: Step)
    requires NoExt(recent) && !IsExt(s.op)
    ensures NoExt(RecentAfter(recent, s)) && UnsafeExtAddress(RecentAfter(recent, s)).None?
  {
  }

  /** A plain step changes nothing but the opcode counts. */
  lemma PlainStep(s: State, l: Level, step: Step)
    requires Running(s, l) && Plain(step)
    ensures var t := StepOn(s, step);
      && Running(t, l.(opcodes := OpcodesAfter(l.opcodes, s.lastOp, step)))
      && t.calls == s.calls && t.keccak == s.keccak && t.lastOp == Some(step.op)
  {
    RecentStaysPlain(s.lastThree, step);
    var after := LevelAfter(l, RecentAfter(s.lastThree, step), s.lastOp, step);
    assert after == l.(opcodes := OpcodesAfter(l.opcodes, s.lastOp, step));
    assert MarkOog(s.levels, step) == s.levels;
  }

  lemma {:induction false} PlainSteps(s: State, l: Level, ts: seq<Step>)
    requires Running(s, l) && AllPlain(ts)
    ensures var t := ReactAll(s, OnSteps(ts));
      && Running(t, l.(opcodes := CountAll(l.opcodes, s.lastOp, ts)))
      && t.calls == s.calls && t.keccak == s.keccak
    decreases |ts|
  {
    if ts != [] {
      var next := StepOn(s, ts[0]);
      PlainStep(s, l, ts[0]);
      PlainSteps(next, l.(opcodes := OpcodesAfter(l.opcodes, s.lastOp, ts[0])), ts[1..]);
      ReactFirst(s, OnStep(ts[0]), OnSteps(ts[1..]));
    }
  }

  /** What the entry point does of its own changes neither levels nor calls. */
  lemma {:induction false} OuterSteps(s: State, ts: seq<Step>)
    requires !s.stopCollecting && !s.failed && AllOuter(ts)
    ensures var t := ReactAll(s, OnSteps(ts));
      && t.levels == s.levels && t.calls == s.calls && t.keccak == s.keccak && !t.stopCollecting && !t.failed
      && (s.lastOp == None ==> t.lastOp == None)
    decreases |ts|
  {
    if ts != [] {
      var next := StepOn(s, ts[0]);
      assert MarkOog(s.levels, ts[0]) == s.levels;
      OuterSteps(next, ts[1..]);
      ReactFirst(s, OnStep(ts[0]), OnSteps(ts[1..]));
    }
  }

  predicate CallsEntity(s: Step) {
    Opens(s) && s.op.CALL? && !LowGas(s)
  }

  predicate Reverts(s: Step) {
    s.depth == 1 && s.op.REVERT? && !LowGas(s)
  }

  lemma CallOpens(s: State, call: Step)
    requires s.levels == [] && !s.stopCollecting && !s.failed && CallsEntity(call)
    ensures var t := StepOn(s, call);
      Running(t, NewLevel(call)) && t.calls == s.calls && t.keccak == s.keccak && t.lastOp == None
  {
    var recent := RecentAfter(s.lastThree, call);
    assert recent[|recent| - 1].op == call.op;
  }

  lemma RevertEnds(s: State, l: Level, last: Step)
    requires s.levels == [l] && !s.stopCollecting && !s.failed && Reverts(last)
    ensures var t := StepOn(s, last);
      && t.levels == [l] && t.keccak == s.keccak && !t.failed
      && t.calls == s.calls + [CallTree.Exit(CallTree.Closing(true, last.slice))]
  {
  }

  /** The simulation of one call: the entry point's own steps around it, what happens inside it, and the end. */
  datatype OneCall = OneCall(before: seq<Step>, call: Step, opening: CallTree.Opening, inside: seq<Step>,
                             closing: CallTree.Closing, after: seq<Step>, last: Step)
  {
    predicate Valid() {
      AllOuter(before) && CallsEntity(call) && AllPlain(inside) && AllOuter(after) && Reverts(last)
    }

    function Callbacks(): seq<Callback> {
      OnSteps(before) + ([OnStep(call)] + ([OnEnter(opening)] + (OnSteps(inside) + Tail())))
    }

    function Tail(): seq<Callback> {
      [OnExit(closing)] + (OnSteps(after) + [OnStep(last)])
    }

    function Level(): Level {
      NewLevel(call).(opcodes := CountAll(map[], None, inside))
    }
  }

  /** After the call has returned, only the two ends are added to the calls. */
  lemma TailCollected(s: State, l: Level, c: OneCall)
    requires Running(s, l) && c.Valid()
    ensures var t := ReactAll(s, c.Tail());
      && t.levels == [l] && t.keccak == s.keccak && !t.failed
      && t.calls == s.calls + [CallTree.Exit(c.closing)] + [CallTree.Exit(CallTree.Closing(true, c.last.slice))]
  {
    var left := ExitCall(s, c.closing);
    var over := ReactAll(left, OnSteps(c.after));
    ReactFirst(s, OnExit(c.closing), OnSteps(c.after) + [OnStep(c.last)]);
    ReactConcat(left, OnSteps(c.after), [OnStep(c.last)]);
    OuterSteps(left, c.after);
    RevertEnds(over, l, c.last);
    assert [OnStep(c.last)][1..] == [];
  }

  /** What one call with plain steps inside leaves behind. */
  lemma OneCallCollected(c: OneCall)
    requires c.Valid()
    ensures var s := ReactAll(START, c.Callbacks());
      && s.levels == [c.Level()] && s.keccak == [] && !s.failed
      && s.calls == [CallTree.Enter(c.opening), CallTree.Exit(c.closing), CallTree.Exit(CallTree.Closing(true, c.last.slice))]
  {
    var first := ReactAll(START, OnSteps(c.before));
    var called := StepOn(first, c.call);
    var entered := EnterCall(called, c.opening);
    var ran := ReactAll(entered, OnSteps(c.inside));
    OuterSteps(START, c.before);
    CallOpens(first, c.call);
    PlainSteps(entered, NewLevel(c.call), c.inside);
    TailCollected(ran, c.Level(), c);
    ReactConcat(START, OnSteps(c.before), [OnStep(c.call)] + ([OnEnter(c.opening)] + (OnSteps(c.inside) + c.Tail())));
    ReactFirst(first, OnStep(c.call), [OnEnter(c.opening)] + (OnSteps(c.inside) + c.Tail()));
    ReactFirst(called, OnEnter(c.opening), OnSteps(c.inside) + c.Tail());
    ReactConcat(entered, OnSteps(c.inside), c.Tail());
  }

  // ---- GAS that goes unnoticed ------------------------------------------------------------------------

  const ENTRY_POINT := RulesExamples.ENTRY_POINT
  const SENDER := RulesExamples.SENDER
  const ACCOUNT_CODE := 7    // GAS CALLER PUSH1 32 PUSH1 0 RETURN

  /** CALL takes gas, target, value, and where arguments and answer are in memory; the slice is the selector. */
  function Validates(gas: nat): Step {
    Step(CALL, 1, gas + 700, gas + 120, [gas + 20, SENDER, 0, 128, 580, 0, 32], ENTRY_POINT, 0, ACCOUNT_CODE,
         RulesExamples.VALIDATE_USER_OP)
  }

  function Inside(op: Opcode, gas: nat, cost: nat, stack: seq<Word>, slice: Bytes): Step {
    Step(op, 2, gas, cost, stack, SENDER, 0, ACCOUNT_CODE, slice)
  }

  /** The account's five instructions; it answers with a word of its still empty memory. */
  function AccountRuns(gas: nat, answer: Bytes): seq<Step> {
    var left, caller := gas + 18, ENTRY_POINT;
    [Inside(GAS, gas + 20, 2, [], []),
     Inside(CALLER, gas + 18, 2, [left], []),
     Inside(PUSH(1), gas + 16, 3, [caller, left], []),
     Inside(PUSH(1), gas + 13, 3, [32, caller, left], []),
     Inside(RETURN, gas + 10, 3, [0, 32, caller, left], answer)]
  }

  function SimulationReverts(result: Bytes): Step {
    Step(REVERT, 1, 500, 0, [0, |result|], ENTRY_POINT, 0, 0, result)
  }

  /** The account is called, reads the gas left and then its caller, and returns; the simulation reverts with its result. */
  function GasReader(before: seq<Step>, gas: nat, answer: Bytes, after: seq<Step>, result: Bytes): OneCall {
    OneCall(before, Validates(gas),
            CallTree.Opening(CallTree.CALL, ENTRY_POINT, SENDER, RulesExamples.VALIDATE_USER_OP, Some(0)),
            AccountRuns(gas, answer), CallTree.Closing(false, answer), after, SimulationReverts(result))
  }

  lemma FiveCounted(a: Step, b: Step, c: Step, d: Step, e: Step)
    requires a.op == GAS && b.op == CALLER && c.op.PUSH? && d.op.PUSH? && e.op == RETURN
    ensures CountAll(map[], None, [a, b, c, d, e]) == map[CALLER := 1, RETURN := 1]
  {
    var five, four, three, two, one := [a, b, c, d, e], [b, c, d, e], [c, d, e], [d, e], [e];
    assert five[1..] == four && four[1..] == three && three[1..] == two && two[1..] == one && one[1..] == [];
    assert CountAll(map[CALLER := 1], Some(d.op), one) == map[CALLER := 1, RETURN := 1];
    assert CountAll(map[CALLER := 1], Some(c.op), two) == CountAll(map[CALLER := 1], Some(d.op), one);
    assert CountAll(map[CALLER := 1], Some(CALLER), three) == CountAll(map[CALLER := 1], Some(c.op), two);
    assert OpcodesAfter(map[], Some(GAS), b) == map[CALLER := 1];
    assert CountAll(map[], Some(GAS), four) == CountAll(map[CALLER := 1], Some(CALLER), three);
    assert OpcodesAfter(map[], None, a) == map[];
  }

  lemma GasReaderLevel(gas: nat, answer: Bytes)
    ensures NewLevel(Validates(gas)).(opcodes := CountAll(map[], None, AccountRuns(gas, answer))) ==
      Level(RulesExamples.VALIDATE_USER_OP, SENDER, map[CALLER := 1, RETURN := 1], map[], map[], map[], false)
  {
    var call, ts := Validates(gas), AccountRuns(gas, answer);
    FiveCounted(ts[0], ts[1], ts[2], ts[3], ts[4]);
    assert ts == [ts[0], ts[1], ts[2], ts[3], ts[4]];
    assert ToAddress(Peek(call, 1)) == SENDER;
  }

  /**
   * An accepted run that executes GAS for its own sake, whatever the entry point does around the call, whatever gas
   * is left and whatever is returned: the next opcode merely has CALL in its name.
   */
  lemma GasBeforeCallerIsAccepted(op: UserOp, account: StakeInfo, hash: Bytes -> Word, contextOf: Bytes -> Option<Bytes>,
                                  before: seq<Step>, gas: nat, answer: Bytes, after: seq<Step>, result: Bytes)
    requires op.sender == SENDER && op.initCode == [] && op.paymasterAndData == []
    requires AllOuter(before) && AllOuter(after)
    ensures var c := GasReader(before, gas, answer, after, result);
      && c.inside[0].op == GAS && c.inside[1].op == CALLER
      && Rules.RulesHold(RulesExamples.Setting(hash, contextOf), Collected(op, Rules.Stakes(None, account, None), c.Callbacks()))
  {
    var run := GasReader(before, gas, answer, after, result);
    OneCallCollected(run);
    GasReaderLevel(gas, answer);
    var c := Collected(op, Rules.Stakes(None, account, None), run.Callbacks());
    OneLevelAccepted(RulesExamples.Setting(hash, contextOf), c, run.opening, run.closing, CallTree.Closing(true, result));
  }

  lemma OneLevelAccepted(env: Rules.Env, c: Rules.Simulation, opening: CallTree.Opening, closing: CallTree.Closing,
                         top: CallTree.Closing)
    requires env.selectors == Rules.Selectors(RulesExamples.CREATE_SENDER, RulesExamples.VALIDATE_USER_OP,
                                              RulesExamples.VALIDATE_PAYMASTER_USER_OP)
    requires c.levels == [Level(RulesExamples.VALIDATE_USER_OP, SENDER, map[CALLER := 1, RETURN := 1], map[], map[], map[], false)]
    requires RulesExamples.Quiet(env, opening)
    requires c.calls == [CallTree.Enter(opening), CallTree.Exit(closing), CallTree.Exit(top)]
    ensures Rules.RulesHold(env, c)
  {
    var f := CallTree.Branch(opening, CallTree.Leaf, closing, CallTree.Leaf);
    assert c.calls == CallTree.Flatten(f) + [CallTree.Exit(top)];
    RulesExamples.QuietCallsAllowed(env, c, f, top);
    RulesExamples.SelectorsDiffer();
    forall title
      ensures Rules.EntityPasses(env, c, title)
    {
      assert c.levels[0].methodSig == RulesExamples.VALIDATE_USER_OP;
    }
  }
}
