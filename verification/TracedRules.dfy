/** Tracer and rule checker together: the decision, restated over the executed steps. */
module TracedRules {
  import opened Common
  import opened Tracer
  import opened TracerRuns
  import CallTree
  import Rules

  // ---- the callbacks carry a step trace -------------------------------------------------------------

  function StepsOf(cs: seq<Callback>): seq<Step> {
    if cs == [] then []
    else
      var steps, last := StepsOf(cs[..|cs| - 1]), cs[|cs| - 1];
      if last.OnStep? then steps + [last.step] else steps
  }

  lemma {:induction false} ReactLast(s: State, cs: seq<Callback>)
    requires cs != []
    ensures ReactAll(s, cs) == React(ReactAll(s, cs[..|cs| - 1]), cs[|cs| - 1])
    decreases |cs|
  {
    if |cs| == 1 {
      assert cs[1..] == [] && cs[..0] == [];
    } else {
      var front := cs[..|cs| - 1];
      ReactLast(React(s, cs[0]), cs[1..]);
      assert front[1..] == cs[1..][..|cs| - 2] && front[0] == cs[0];
    }
  }

  function WithoutCalls(s: State): State {
    s.(calls := [])
  }

  lemma StepIgnoresCalls(s: State, r: State, step: Step)
    requires WithoutCalls(s) == WithoutCalls(r)
    ensures WithoutCalls(StepOn(s, step)) == WithoutCalls(StepOn(r, step))
  {
    assert s == r.(calls := s.calls);
  }

  lemma EnterAndExitTouchCallsOnly(s: State, c: Callback)
    requires !c.OnStep?
    ensures WithoutCalls(React(s, c)) == WithoutCalls(s)
  {
  }

  lemma ExtendRun(h: seq<State>, t: seq<Step>, step: Step)
    requires RunOf(h, t)
    ensures RunOf(h + [StepOn(h[|t|], step)], t + [step])
  {
    var g, u := h + [StepOn(h[|t|], step)], t + [step];
    forall i: nat | i < |u|
      ensures StepAt(g, u, i)
    {
      if i < |t| { assert StepAt(h, t, i); }
    }
  }

  /** Enters and exits between the steps change nothing but `calls`. */
  lemma {:induction false} RunOfCallbacks(cs: seq<Callback>) returns (h: seq<State>)
    ensures RunOf(h, StepsOf(cs))
    ensures WithoutCalls(ReactAll(START, cs)) == WithoutCalls(h[|StepsOf(cs)|])
    decreases |cs|
  {
    if cs == [] {
      h := [START];
    } else {
      var front, last := cs[..|cs| - 1], cs[|cs| - 1];
      var g := RunOfCallbacks(front);
      var t := StepsOf(front);
      ReactLast(START, cs);
      if last.OnStep? {
        ExtendRun(g, t, last.step);
        StepIgnoresCalls(ReactAll(START, front), g[|t|], last.step);
        h := g + [StepOn(g[|t|], last.step)];
      } else {
        EnterAndExitTouchCallsOnly(ReactAll(START, front), last);
        h := g;
      }
    }
  }

  // ---- the rules over steps -------------------------------------------------------------------------

  ghost predicate ExecutesBanned(t: seq<Step>, i: nat)
    requires i < |t|
  {
    GasCountedAt(t, i) || (Rules.IsBanned(t[i].op) && !t[i].op.GAS?)
  }

  /** The storage access at step `i`, judged by whether the level ever writes the slot. */
  ghost predicate StepAllowed(env: Rules.Env, c: Rules.Simulation, title: Rules.Title, t: seq<Step>, k: nat, i: nat)
    requires i < |t|
  {
    var a, slot := t[i].contract, Operand(t[i], 0);
    || a == c.op.sender
    || a == env.entryPoint
    || Rules.SlotAllowed(env, c, title, a, Writes(t, |t|, k, a, slot) > 0, slot)
  }

  ghost predicate StorageRule(env: Rules.Env, c: Rules.Simulation, title: Rules.Title, t: seq<Step>, k: nat) {
    forall i: nat :: i < |t| && InLevel(t, i, k) && (t[i].op == SLOAD || t[i].op == SSTORE) ==> StepAllowed(env, c, title, t, k, i)
  }

  ghost predicate OpcodeRule(title: Rules.Title, t: seq<Step>, k: nat) {
    && (forall i: nat :: i < |t| && InLevel(t, i, k) ==> !ExecutesBanned(t, i))
    && Occurrences(t, |t|, k, CREATE2) <= if title.FACTORY? then 1 else 0
  }

  ghost predicate CodeRule(c: Rules.Simulation, t: seq<Step>, k: nat) {
    forall i: nat, a :: i < |t| && FirstCallAt(t, i, k, a) && a != c.op.sender ==> t[i].codeSize > 2
  }

  /** What one entity's level must satisfy, with no mention of the collected maps. */
  ghost predicate TraceRules(env: Rules.Env, c: Rules.Simulation, title: Rules.Title, t: seq<Step>, k: nat) {
    && !RanLow(t, |t|, k)
    && OpcodeRule(title, t, k)
    && StorageRule(env, c, title, t, k)
    && (title.PAYMASTER? ==> Rules.ContextAllowed(env, c))
    && CodeRule(c, t, k)
    && !Flagged(t, |t|, k, env.entryPoint)
  }

  lemma BannedOccurs(t: seq<Step>, i: nat, op: Opcode)
    requires i < |t| && Rules.IsBanned(op) && Occurs(t, i, op) > 0
    ensures ExecutesBanned(t, i)
  {
  }

  lemma ExecutedOccurs(t: seq<Step>, i: nat) returns (op: Opcode)
    requires i < |t| && ExecutesBanned(t, i)
    ensures Rules.IsBanned(op) && Occurs(t, i, op) > 0
  {
    op := if GasCountedAt(t, i) then GAS else t[i].op;
  }

  lemma OpcodesDecide(t: seq<Step>, k: nat, title: Rules.Title, opcodes: map<Opcode, nat>)
    requires forall op :: CountIs(opcodes, op, Occurrences(t, |t|, k, op))
    ensures (forall op :: op in opcodes ==> !Rules.IsBanned(op)) && Rules.CreatesWithinLimit(title, opcodes)
      <==> OpcodeRule(title, t, k)
  {
    assert CountIs(opcodes, CREATE2, Occurrences(t, |t|, k, CREATE2));
    forall op | op in opcodes && Rules.IsBanned(op)
      ensures exists i: nat :: i < |t| && InLevel(t, i, k) && ExecutesBanned(t, i)
    {
      assert CountIs(opcodes, op, Occurrences(t, |t|, k, op));
      OccurrencesPositive(t, |t|, k, op);
      var i: nat :| i < |t| && InLevel(t, i, k) && Occurs(t, i, op) > 0;
      BannedOccurs(t, i, op);
    }
    forall i: nat | i < |t| && InLevel(t, i, k) && ExecutesBanned(t, i)
      ensures exists op :: op in opcodes && Rules.IsBanned(op)
    {
      var op := ExecutedOccurs(t, i);
      OccurrencesPositive(t, |t|, k, op);
      assert CountIs(opcodes, op, Occurrences(t, |t|, k, op));
    }
  }

  lemma TouchedByStep(t: seq<Step>, i: nat, k: nat)
    requires i < |t| && InLevel(t, i, k) && (t[i].op == SLOAD || t[i].op == SSTORE)
    ensures Touched(t, |t|, k, t[i].contract, Operand(t[i], 0))
  {
    assert Touches(t, i, k, t[i].contract, Operand(t[i], 0));
  }

  ghost predicate RecordsAccesses(access: map<Address, AccessInfo>, t: seq<Step>, k: nat) {
    forall a, slot :: SlotAgrees(access, t, |t|, k, a, slot)
  }

  lemma RecordedSlot(access: map<Address, AccessInfo>, t: seq<Step>, k: nat, a: Address, slot: Word)
    requires RecordsAccesses(access, t, k)
    ensures slot in InfoOf(access, a).slotWrites <==> Writes(t, |t|, k, a, slot) > 0
    ensures Rules.Touched(InfoOf(access, a), slot) <==> Touched(t, |t|, k, a, slot)
  {
    assert SlotAgrees(access, t, |t|, k, a, slot);
  }

  lemma StorageDecides(env: Rules.Env, c: Rules.Simulation, title: Rules.Title, t: seq<Step>, k: nat,
                       access: map<Address, AccessInfo>)
    requires RecordsAccesses(access, t, k)
    ensures (forall a :: a in access ==> Rules.AccessAllowed(env, c, title, a, access[a])) <==> StorageRule(env, c, title, t, k)
  {
    if StorageRule(env, c, title, t, k) {
      forall a | a in access
        ensures Rules.AccessAllowed(env, c, title, a, access[a])
      {
        StepsAllowAccess(env, c, title, t, k, access, a);
      }
    }
    if forall a :: a in access ==> Rules.AccessAllowed(env, c, title, a, access[a]) {
      forall i: nat | i < |t| && InLevel(t, i, k) && (t[i].op == SLOAD || t[i].op == SSTORE)
        ensures StepAllowed(env, c, title, t, k, i)
      {
        var a, slot := t[i].contract, Operand(t[i], 0);
        TouchedByStep(t, i, k);
        RecordedSlot(access, t, k, a, slot);
        assert Rules.AccessAllowed(env, c, title, a, access[a]);
      }
    }
  }

  lemma StepsAllowAccess(env: Rules.Env, c: Rules.Simulation, title: Rules.Title, t: seq<Step>, k: nat,
                         access: map<Address, AccessInfo>, a: Address)
    requires RecordsAccesses(access, t, k) && StorageRule(env, c, title, t, k) && a in access
    ensures Rules.AccessAllowed(env, c, title, a, access[a])
  {
    if a != c.op.sender && a != env.entryPoint {
      forall slot | Rules.Touched(access[a], slot)
        ensures Rules.SlotAllowed(env, c, title, a, slot in access[a].slotWrites, slot)
      {
        RecordedSlot(access, t, k, a, slot);
        var i :| 0 <= i < |t| && Touches(t, i, k, a, slot);
        assert StepAllowed(env, c, title, t, k, i);
      }
    }
  }

  lemma {:induction false} FirstCallExists(t: seq<Step>, n: nat, k: nat, a: Address) returns (i: nat)
    requires n < |t| && Calls(t, n, k, a)
    ensures i <= n && FirstCallAt(t, i, k, a)
    decreases n
  {
    if j: nat :| j < n && Calls(t, j, k, a) {
      i := FirstCallExists(t, j, k, a);
    } else {
      i := n;
    }
  }

  lemma CodeDecides(c: Rules.Simulation, t: seq<Step>, k: nat, level: Level)
    requires forall a :: SizeAgrees(level.contractSize, t, |t|, k, a)
    ensures Rules.CodeDeployed(c, level) <==> CodeRule(c, t, k)
  {
    forall a | a in level.contractSize
      ensures exists i: nat :: i < |t| && FirstCallAt(t, i, k, a) && level.contractSize[a].size == t[i].codeSize
    {
      assert SizeAgrees(level.contractSize, t, |t|, k, a);
      var n :| 0 <= n < |t| && Calls(t, n, k, a);
      var i := FirstCallExists(t, n, k, a);
    }
    forall i: nat, a | i < |t| && FirstCallAt(t, i, k, a)
      ensures a in level.contractSize && level.contractSize[a].size == t[i].codeSize
    {
      assert SizeAgrees(level.contractSize, t, |t|, k, a);
    }
  }

  lemma LevelDecides(env: Rules.Env, c: Rules.Simulation, title: Rules.Title, h: seq<State>, t: seq<Step>, k: nat)
    requires RunOf(h, t) && Collecting(t, |t|) && Tracked(h, |t|) && k < |h[|t|].levels|
    ensures Rules.EntityRules(env, c, title, h[|t|].levels[k]) <==> TraceRules(env, c, title, t, k)
  {
    var level := LevelAt(h, |t|, k);
    OogMarked(h, t, |t|, k);
    ExtAccessesFlagged(h, t, |t|, k, env.entryPoint);
    forall op
      ensures CountIs(level.opcodes, op, Occurrences(t, |t|, k, op))
    {
      OpcodesCounted(h, t, |t|, k, op);
    }
    OpcodesDecide(t, k, title, level.opcodes);
    forall a, slot
      ensures SlotAgrees(level.access, t, |t|, k, a, slot)
    {
      AccessesRecorded(h, t, |t|, k, a, slot);
    }
    StorageDecides(env, c, title, t, k, level.access);
    forall a
      ensures SizeAgrees(level.contractSize, t, |t|, k, a)
    {
      SizesTakenAtFirstUse(h, t, |t|, k, a);
    }
    CodeDecides(c, t, k, level);
  }

  // ---- the stop event -------------------------------------------------------------------------------

  /** The callbacks through the first stop event, or all of them. */
  ghost function UpToStop(cs: seq<Callback>): seq<Callback>
    decreases |cs|
  {
    if cs == [] then []
    else if Ends(cs[0]) then [cs[0]]
    else [cs[0]] + UpToStop(cs[1..])
  }

  lemma {:induction false} StoppedStays(s: State, cs: seq<Callback>)
    requires s.stopCollecting || s.failed
    ensures ReactAll(s, cs) == s
    decreases |cs|
  {
    if cs != [] {
      assert React(s, cs[0]) == s;
      StoppedStays(s, cs[1..]);
    }
  }

  lemma EndingStops(s: State, c: Callback)
    requires Ends(c)
    ensures React(s, c).stopCollecting || React(s, c).failed
  {
  }

  /** What comes after the stop event changes nothing. */
  lemma {:induction false} StopCutsTheRest(s: State, cs: seq<Callback>)
    ensures ReactAll(s, cs) == ReactAll(s, UpToStop(cs))
    decreases |cs|
  {
    if cs != [] {
      if Ends(cs[0]) {
        EndingStops(s, cs[0]);
        StoppedStays(React(s, cs[0]), cs[1..]);
        assert [cs[0]][1..] == [];
      } else {
        assert ([cs[0]] + UpToStop(cs[1..]))[1..] == UpToStop(cs[1..]);
        StopCutsTheRest(React(s, cs[0]), cs[1..]);
      }
    }
  }

  lemma {:induction false} UpToStopEndsOnce(cs: seq<Callback>)
    ensures OnlyLastEnds(UpToStop(cs))
    decreases |cs|
  {
    if cs != [] && !Ends(cs[0]) {
      UpToStopEndsOnce(cs[1..]);
    }
  }

  lemma {:induction false} NoStopMeansLive(cs: seq<Callback>)
    requires forall i :: 0 <= i < |cs| ==> !Ends(cs[i])
    ensures Live(StepsOf(cs), |StepsOf(cs)|)
  {
    if cs != [] {
      NoStopMeansLive(cs[..|cs| - 1]);
    }
  }

  lemma {:induction false} LastStopMeansCollecting(cs: seq<Callback>)
    requires OnlyLastEnds(cs)
    ensures Collecting(StepsOf(cs), |StepsOf(cs)|)
  {
    if cs != [] {
      var front := cs[..|cs| - 1];
      NoStopMeansLive(front);
      assert forall j :: 0 <= j < |StepsOf(front)| ==> StepsOf(cs)[j] == StepsOf(front)[j];
    }
  }

  // ---- the decision ---------------------------------------------------------------------------------

  /** What the rules need besides the steps, read off the callbacks: the calls made and the buffers hashed. */
  ghost function View(op: UserOp, stakes: Rules.Stakes, cs: seq<Callback>): Rules.Simulation {
    Rules.Simulation(op, stakes, [], Frames(cs), Buffers(StepsOf(cs), |StepsOf(cs)|))
  }

  /** An entity's call is the first one the entry point makes with its selector. */
  ghost function CallOf(env: Rules.Env, title: Rules.Title, t: seq<Step>): Option<nat> {
    FindFirst(Openings(t, |t|), (s: Step) => s.slice == Rules.SelectorOf(env, title))
  }

  ghost predicate EntityClean(env: Rules.Env, c: Rules.Simulation, title: Rules.Title, t: seq<Step>) {
    var k := CallOf(env, title, t);
    if k.None? then !title.ACCOUNT? else TraceRules(env, c, title, t, k.value)
  }

  /** The rules, stated over callbacks alone. */
  ghost predicate CleanRun(env: Rules.Env, op: UserOp, stakes: Rules.Stakes, cs: seq<Callback>) {
    var view, t := View(op, stakes, cs), StepsOf(cs);
    Openings(t, |t|) != [] && Rules.CallsAllowed(env, view) && forall title :: EntityClean(env, view, title, t)
  }

  /** The simulation the rule checker is given after the callbacks. */
  function Collected(op: UserOp, stakes: Rules.Stakes, cs: seq<Callback>): Rules.Simulation {
    var s := ReactAll(START, cs);
    Rules.Simulation(op, stakes, s.levels, s.calls, s.keccak)
  }

  /** No rule of an entity reads the list of levels. */
  lemma LevelsAside(env: Rules.Env, c: Rules.Simulation, title: Rules.Title, t: seq<Step>, k: nat)
    ensures TraceRules(env, c, title, t, k) <==> TraceRules(env, c.(levels := []), title, t, k)
  {
    var d := c.(levels := []);
    forall i: nat | i < |t|
      ensures StepAllowed(env, c, title, t, k, i) <==> StepAllowed(env, d, title, t, k, i)
    {
      SlotAside(env, c, title, t[i].contract, Writes(t, |t|, k, t[i].contract, Operand(t[i], 0)) > 0, Operand(t[i], 0));
    }
    assert Rules.ContextAllowed(env, c) <==> Rules.ContextAllowed(env, d) by {
      assert Rules.CallStack(env, c) == Rules.CallStack(env, d);
      assert forall i: nat :: Rules.IsFirstPaymasterCall(c, Rules.CallStack(env, c), i) <==>
        Rules.IsFirstPaymasterCall(d, Rules.CallStack(env, d), i);
    }
  }

  lemma AssociationAside(env: Rules.Env, c: Rules.Simulation, slot: Word, a: Address)
    ensures Rules.Associated(env, c, slot, a) <==> Rules.Associated(env, c.(levels := []), slot, a)
  {
    var d := c.(levels := []);
    forall title
      ensures Rules.InfoOf(c, title) == Rules.InfoOf(d, title)
    {
    }
  }

  lemma SlotAside(env: Rules.Env, c: Rules.Simulation, title: Rules.Title, addr: Address, written: bool, slot: Word)
    ensures Rules.SlotAllowed(env, c, title, addr, written, slot)
      <==> Rules.SlotAllowed(env, c.(levels := []), title, addr, written, slot)
  {
    AssociationAside(env, c, slot, c.op.sender);
    if Rules.InfoOf(c, title).Some? { AssociationAside(env, c, slot, Rules.InfoOf(c, title).value.addr); }
  }

  /** The checker's search over levels finds the call that the trace names. */
  lemma {:induction false} LevelIsCall(env: Rules.Env, c: Rules.Simulation, title: Rules.Title, t: seq<Step>)
    requires AllNamed(c.levels, Openings(t, |t|))
    ensures Rules.LevelOf(env, c, title) == CallOf(env, title, t)
  {
    var steps, sought := Openings(t, |t|), Rules.SelectorOf(env, title);
    forall k | 0 <= k < |steps|
      ensures c.levels[k].methodSig == sought <==> steps[k].slice == sought
    {
      assert Named(c.levels[k], steps[k]);
    }
  }

  lemma CollectedIsView(op: UserOp, stakes: Rules.Stakes, cs: seq<Callback>) returns (h: seq<State>)
    requires !ReactAll(START, cs).failed && OnlyLastEnds(cs)
    ensures var t, c := StepsOf(cs), Collected(op, stakes, cs);
      && RunOf(h, t) && Collecting(t, |t|) && Tracked(h, |t|) && h[|t|].levels == c.levels
      && AllNamed(c.levels, Openings(t, |t|)) && c.(levels := []) == View(op, stakes, cs)
  {
    h := RunOfCallbacks(cs);
    var t, s := StepsOf(cs), ReactAll(START, cs);
    LastStopMeansCollecting(cs);
    assert h[|t|].levels == s.levels && h[|t|].keccak == s.keccak && !h[|t|].failed by {
      assert WithoutCalls(s).levels == WithoutCalls(h[|t|]).levels && WithoutCalls(s).keccak == WithoutCalls(h[|t|]).keccak;
      assert WithoutCalls(s).failed == WithoutCalls(h[|t|]).failed;
    }
    LevelsAreTheCalls(h, t, |t|);
    BuffersKept(h, t, |t|);
    CallsAreTheFrames(START, cs);
    assert [] + Frames(cs) == Frames(cs);
  }

  lemma DecisionUpToStop(env: Rules.Env, op: UserOp, stakes: Rules.Stakes, cs: seq<Callback>)
    requires !ReactAll(START, cs).failed && OnlyLastEnds(cs)
    ensures Rules.RulesHold(env, Collected(op, stakes, cs)) <==> CleanRun(env, op, stakes, cs)
  {
    var h := CollectedIsView(op, stakes, cs);
    var t, c, view := StepsOf(cs), Collected(op, stakes, cs), View(op, stakes, cs);
    forall title
      ensures Rules.EntityPasses(env, c, title) <==> EntityClean(env, view, title, t)
    {
      LevelIsCall(env, c, title, t);
      var k := Rules.LevelOf(env, c, title);
      if k.Some? {
        LevelDecides(env, c, title, h, t, k.value);
        LevelsAside(env, c, title, t, k.value);
      }
    }
    assert Rules.CallStack(env, c) == Rules.CallStack(env, view);
  }

  /**
   * From execution to decision: over every callback sequence on which the tracer does not throw, the rule
   * checker accepts what was collected exactly when the callbacks up to the stop event obey the rules.
   */
  lemma DecisionIsAboutTheSteps(env: Rules.Env, op: UserOp, stakes: Rules.Stakes, cs: seq<Callback>)
    requires !ReactAll(START, cs).failed
    ensures Rules.RulesHold(env, Collected(op, stakes, cs)) <==> CleanRun(env, op, stakes, UpToStop(cs))
  {
    StopCutsTheRest(START, cs);
    UpToStopEndsOnce(cs);
    DecisionUpToStop(env, op, stakes, UpToStop(cs));
  }
}
