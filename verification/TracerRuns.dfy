/** What the tracer has collected after any number of steps, read off the trace itself. */
module TracerRuns {
  import opened Common
  import opened Tracer
  import CallTree

  /** The state after step `i` is what the tracer's reaction makes of the state before it. */
  ghost predicate StepAt(h: seq<State>, t: seq<Step>, i: nat)
    requires i < |t| && i + 1 < |h|
  {
    h[i + 1] == StepOn(h[i], t[i])
  }

  /** The states the tracer goes through over the trace: one before each step, and one after the last. */
  ghost predicate RunOf(h: seq<State>, t: seq<Step>) {
    && |h| == |t| + 1
    && h[0] == START
    && forall i: nat :: i < |t| ==> StepAt(h, t, i)
  }

  // ---- reading a step, independently of the tracer ------------------------------------------------------

  /** The i-th word of the stack, from the top; the EVM has checked that it is there. */
  ghost function Operand(s: Step, i: nat): Word {
    if i < |s.stack| then s.stack[i] else 0
  }

  /** Addresses are the low 160 bits of a word. */
  ghost function AddressIn(w: Word): Address {
    w % 0x1_0000_0000_0000_0000_0000_0000_0000_0000_0000_0000
  }

  ghost predicate ReadsCode(op: Opcode) {
    op.EXTCODESIZE? || op.EXTCODECOPY? || op.EXTCODEHASH?
  }

  ghost predicate CallsOut(op: Opcode) {
    op.CALL? || op.CALLCODE? || op.DELEGATECALL? || op.STATICCALL?
  }

  /** The step uses the code of `a`: EXT opcodes have it on top of the stack, calls below the gas. 1 to 9 are exempt. */
  ghost predicate Uses(s: Step, a: Address) {
    && !(1 <= a <= 9)
    && ((ReadsCode(s.op) && AddressIn(Operand(s, 0)) == a) || (CallsOut(s.op) && AddressIn(Operand(s, 1)) == a))
  }

  /** A call of the entry point itself opens a level. */
  ghost predicate OpensLevel(s: Step) {
    s.depth == 1 && (s.op == CALL || s.op == STATICCALL)
  }

  /** The entry point's event that ends validation. */
  ghost predicate EndsValidation(s: Step) {
    && s.depth == 1 && s.op == LOG(1)
    && Operand(s, 2) == 0xbb47ee3e183a558b1a2ff0874b079f3fc5478b7454eacf2bfc5af2ff5878f972
  }

  ghost predicate Leaves(op: Opcode) {
    op == RETURN || op == REVERT
  }

  /** Not enough gas for the step, or an SSTORE below its own minimum. */
  ghost predicate RunsLow(s: Step) {
    s.gas < s.cost || (s.op == SSTORE && s.gas < 2300)
  }

  /** Opcodes with CALL in their name, calls or not. */
  ghost predicate HasCallInName(op: Opcode) {
    op in {CALL, CALLCODE, DELEGATECALL, STATICCALL, CALLER, CALLVALUE, CALLDATALOAD, CALLDATASIZE, CALLDATACOPY}
  }

  /** Stack and arithmetic opcodes are not counted. */
  ghost predicate Uncounted(op: Opcode) {
    || op.DUP? || op.PUSH? || op.SWAP?
    || op in {POP, ADD, SUB, MUL, DIV, EQ, LT, GT, SLT, SGT, SHL, SHR, AND, OR, NOT, ISZERO}
  }

  // ---- the trace's own structure ------------------------------------------------------------------------

  /** Nothing before position `n` ended the collection. */
  ghost predicate Live(t: seq<Step>, n: nat)
    requires n <= |t|
  {
    forall j :: 0 <= j < n ==> !EndsValidation(t[j])
  }

  /** At most the last of the first `n` steps ended the collection. */
  ghost predicate Collecting(t: seq<Step>, n: nat)
    requires n <= |t|
  {
    n > 0 ==> Live(t, n - 1)
  }

  /** Levels opened before position `n`. */
  ghost function OpenCount(t: seq<Step>, n: nat): nat
    requires n <= |t|
  {
    if n == 0 then 0 else OpenCount(t, n - 1) + (if OpensLevel(t[n - 1]) then 1 else 0)
  }

  /** Step `i` runs inside the k-th call of the entry point. */
  ghost predicate InLevel(t: seq<Step>, i: nat, k: nat)
    requires i < |t|
  {
    t[i].depth != 1 && OpenCount(t, i) == k + 1
  }

  /** The position just after the last RETURN or REVERT before `n`. */
  ghost function Flushed(t: seq<Step>, n: nat): nat
    requires n <= |t|
    ensures Flushed(t, n) <= n
  {
    if n == 0 then 0 else if Leaves(t[n - 1].op) then n else Flushed(t, n - 1)
  }

  ghost function RecentFrom(t: seq<Step>, n: nat): nat
    requires n <= |t|
    ensures RecentFrom(t, n) <= n
  {
    if Flushed(t, n) + 3 <= n then n - 3 else Flushed(t, n)
  }

  /** An opcode with the three words on top of its stack. */
  ghost function Remembered(s: Step): Recent {
    Recent(s.op, if |s.stack| <= 3 then s.stack else s.stack[..3])
  }

  ghost function Recents(t: seq<Step>, from: nat, to: nat): seq<Recent>
    requires from <= to <= |t|
  {
    seq(to - from, i requires 0 <= i < to - from => Remembered(t[from + i]))
  }

  /** The last three opcodes since the last RETURN or REVERT. */
  ghost function RecentAt(t: seq<Step>, n: nat): seq<Recent>
    requires n <= |t|
  {
    Recents(t, RecentFrom(t, n), n)
  }

  function LastOpAt(t: seq<Step>, n: nat): Option<Opcode>
    requires n <= |t|
  {
    if n == 0 || t[n - 1].depth == 1 then None else Some(t[n - 1].op)
  }

  /** Step `i` reads a property of the current level. */
  ghost predicate NeedsLevelAt(t: seq<Step>, i: nat)
    requires i < |t|
  {
    || RunsLow(t[i])
    || (t[i].depth != 1 && (|| (exists a :: FollowsUnsafeRead(t, i, a))
                            || ReadsCode(t[i].op) || CallsOut(t[i].op)
                            || GasCountedAt(t, i)
                            || (t[i].op != GAS && !Uncounted(t[i].op))))
  }

  /**
   * The step before step `i` read the code of `a`, with no RETURN or REVERT since, and step `i` does not make it the
   * exempt pattern: EXTCODESIZE, after any printable opcode, and then ISZERO.
   */
  ghost predicate FollowsUnsafeRead(t: seq<Step>, i: nat, a: Address)
    requires i < |t|
  {
    && i >= 1 && Flushed(t, i + 1) < i
    && ReadsCode(t[i - 1].op) && AddressIn(Operand(t[i - 1], 0)) == a
    && !(&& i >= 2 && Flushed(t, i + 1) < i - 1
         && !t[i - 2].op.Undefined? && t[i - 1].op == EXTCODESIZE && t[i].op == ISZERO)
  }

  /** The address the tracer would flag at a step, read off its last three opcodes. */
  lemma FlaggedAddress(t: seq<Step>, i: nat, a: Address)
    requires i < |t|
    ensures UnsafeExtAddress(RecentAt(t, i + 1)) == Some(a) <==> FollowsUnsafeRead(t, i, a)
  {
    var recent, from := RecentAt(t, i + 1), RecentFrom(t, i + 1);
    if |recent| >= 2 {
      assert recent[|recent| - 2] == Remembered(t[i - 1]) && recent[|recent| - 1] == Remembered(t[i]);
      if |recent| == 3 { assert recent[0] == Remembered(t[i - 2]); }
      FlaggedByLast(recent, t[i - 1], t[i], a);
    }
  }

  lemma FlaggedByLast(recent: seq<Recent>, s: Step, last: Step, a: Address)
    requires 2 <= |recent| <= 3
    requires recent[|recent| - 2] == Remembered(s) && recent[|recent| - 1] == Remembered(last)
    ensures UnsafeExtAddress(recent) == Some(a) <==>
      && ReadsCode(s.op) && AddressIn(Operand(s, 0)) == a
      && !(|recent| == 3 && !recent[0].op.Undefined? && s.op == EXTCODESIZE && last.op == ISZERO)
  {
    assert Remembered(s).stackTop3 == [] <==> s.stack == [];
  }

  /** GAS counts at the step after it, unless the depth-1 code or a CALL-named opcode comes there. */
  ghost predicate GasCountedAt(t: seq<Step>, i: nat)
    requires i < |t|
  {
    i > 0 && t[i - 1].depth != 1 && t[i - 1].op == GAS && !HasCallInName(t[i].op)
  }

  lemma NeedsLevelDecided(t: seq<Step>, i: nat)
    requires i < |t|
    ensures NeedsLevel(RecentAt(t, i + 1), LastOpAt(t, i), t[i]) <==> NeedsLevelAt(t, i)
  {
    var flagged := UnsafeExtAddress(RecentAt(t, i + 1));
    if flagged.Some? {
      FlaggedAddress(t, i, flagged.value);
    }
    forall a: Address
      ensures flagged == Some(a) <==> FollowsUnsafeRead(t, i, a)
    {
      FlaggedAddress(t, i, a);
    }
  }

  /** The state's bookkeeping is what the trace says. */
  ghost predicate OnTrace(s: State, t: seq<Step>, n: nat)
    requires n <= |t|
  {
    && !s.stopCollecting
    && |s.levels| == OpenCount(t, n)
    && s.lastThree == RecentAt(t, n)
    && s.lastOp == LastOpAt(t, n)
  }

  lemma RecentStep(t: seq<Step>, n: nat)
    requires n < |t|
    ensures RecentAfter(RecentAt(t, n), t[n]) == RecentAt(t, n + 1)
  {
    if !Leaves(t[n].op) {
      var pushed := RecentAt(t, n) + [RecentOf(t[n])];
      assert Flushed(t, n + 1) == Flushed(t, n);
      assert RecentOf(t[n]).stackTop3 == Remembered(t[n]).stackTop3;
      assert pushed == Recents(t, RecentFrom(t, n), n + 1);
      if |pushed| > 3 {
        assert pushed[1..] == Recents(t, RecentFrom(t, n) + 1, n + 1);
      }
    }
  }

  lemma StepOnTrace(s: State, t: seq<Step>, n: nat)
    requires n < |t| && OnTrace(s, t, n) && !s.failed
    ensures StepOn(s, t[n]).failed <==> OpenCount(t, n) == 0 && NeedsLevelAt(t, n)
    ensures !StepOn(s, t[n]).failed && !EndsValidation(t[n]) ==> OnTrace(StepOn(s, t[n]), t, n + 1)
    ensures StepOn(s, t[n]).stopCollecting ==> EndsValidation(t[n])
  {
    RecentStep(t, n);
    NeedsLevelDecided(t, n);
  }

  lemma {:induction false} AfterOnTrace(h: seq<State>, t: seq<Step>, n: nat)
    requires RunOf(h, t) && n <= |t| && Live(t, n) && !h[n].failed
    ensures OnTrace(h[n], t, n)
  {
    if n > 0 {
      assert StepAt(h, t, n - 1);
      if h[n - 1].failed { FailureStays(h[n - 1], t[n - 1]); }
      AfterOnTrace(h, t, n - 1);
      StepOnTrace(h[n - 1], t, n - 1);
    }
  }

  ghost predicate StarvedAt(t: seq<Step>, i: nat)
    requires i < |t|
  {
    OpenCount(t, i) == 0 && NeedsLevelAt(t, i)
  }

  ghost predicate Starved(t: seq<Step>, n: nat)
    requires n <= |t|
  {
    exists i :: 0 <= i < n && StarvedAt(t, i)
  }

  lemma StarvedStep(t: seq<Step>, n: nat)
    requires n < |t|
    ensures Starved(t, n + 1) <==> Starved(t, n) || StarvedAt(t, n)
  {
  }

  lemma FailureStays(s: State, step: Step)
    requires s.failed
    ensures StepOn(s, step).failed
  {
  }

  lemma FailureStep(s: State, t: seq<Step>, n: nat)
    requires n < |t| && (s.failed || OnTrace(s, t, n))
    ensures StepOn(s, t[n]).failed <==> s.failed || StarvedAt(t, n)
  {
    if s.failed { FailureStays(s, t[n]); } else { StepOnTrace(s, t, n); }
  }

  /** The tracer fails exactly when some step needs the current level before any level was opened. */
  lemma {:induction false} FailsExactlyWithoutLevel(h: seq<State>, t: seq<Step>, n: nat)
    requires RunOf(h, t) && n <= |t| && Collecting(t, n)
    ensures h[n].failed <==> Starved(t, n)
  {
    if n > 0 {
      FailsExactlyWithoutLevel(h, t, n - 1);
      StarvedStep(t, n - 1);
      assert StepAt(h, t, n - 1);
      if !h[n - 1].failed { AfterOnTrace(h, t, n - 1); }
      FailureStep(h[n - 1], t, n - 1);
    }
  }

  /** Once the stop event is seen, or the tracer has failed, nothing more is collected. */
  lemma {:induction false} FrozenAfterStop(h: seq<State>, t: seq<Step>, m: nat, n: nat)
    requires RunOf(h, t) && m <= n <= |t|
    requires h[m].stopCollecting || h[m].failed
    ensures h[n] == h[m]
  {
    if m < n {
      FrozenAfterStop(h, t, m, n - 1);
      assert StepAt(h, t, n - 1);
    }
  }

  // ---- the levels -------------------------------------------------------------------------------

  const NOTHING := Level([], 0, map[], map[], map[], map[], false)

  function Nth(levels: seq<Level>, k: nat): Level {
    if k < |levels| then levels[k] else NOTHING
  }

  /** What was collected for level `k`; nothing before it is opened. */
  function LevelAt(h: seq<State>, n: nat, k: nat): Level
    requires n < |h|
  {
    Nth(h[n].levels, k)
  }

  predicate Tracked(h: seq<State>, n: nat)
    requires n < |h|
  {
    !h[n].failed
  }

  lemma TrackedBefore(h: seq<State>, t: seq<Step>, n: nat)
    requires RunOf(h, t) && 0 < n <= |t| && Tracked(h, n)
    ensures Tracked(h, n - 1)
  {
    assert StepAt(h, t, n - 1);
  }

  lemma MarkedNth(levels: seq<Level>, s: Step, k: nat)
    ensures |MarkOog(levels, s)| == |levels|
    ensures Nth(MarkOog(levels, s), k) == Nth(levels, k).(oog := Nth(levels, k).oog || (LowGas(s) && |levels| == k + 1))
  {
  }

  lemma OpenedNth(levels: seq<Level>, s: Step, k: nat)
    ensures var before, after := Nth(levels, k), Nth(OpenNext(levels, s), k);
      && after.opcodes == before.opcodes && after.access == before.access && after.contractSize == before.contractSize
      && after.extCodeAccess == before.extCodeAccess && after.oog == before.oog
  {
  }

  lemma CollectedNth(levels: seq<Level>, recent: seq<Recent>, lastOp: Option<Opcode>, s: Step, k: nat)
    ensures Nth(CollectLast(levels, recent, lastOp, s), k) ==
      if |levels| == k + 1 then LevelAfter(Nth(levels, k), recent, lastOp, s) else Nth(levels, k)
  {
  }

  function SteppedLevels(s: State, step: Step): seq<Level> {
    if step.depth == 1 then OpenNext(MarkOog(s.levels, step), step)
    else CollectLast(MarkOog(s.levels, step), RecentAfter(s.lastThree, step), s.lastOp, step)
  }

  lemma LevelsStep(h: seq<State>, t: seq<Step>, n: nat)
    requires RunOf(h, t) && n < |t| && Live(t, n) && Tracked(h, n + 1)
    ensures OnTrace(h[n], t, n)
    ensures h[n + 1].levels == SteppedLevels(h[n], t[n])
  {
    TrackedBefore(h, t, n + 1);
    AfterOnTrace(h, t, n);
    assert StepAt(h, t, n);
  }

  /** What one step makes of the k-th level: a change to the current one, nothing for the others. */
  lemma LevelStep(h: seq<State>, t: seq<Step>, n: nat, k: nat) returns (marked: Level)
    requires RunOf(h, t) && n < |t| && Live(t, n) && Tracked(h, n + 1)
    ensures marked == LevelAt(h, n, k).(oog := LevelAt(h, n, k).oog || (LowGas(t[n]) && OpenCount(t, n) == k + 1))
    ensures InLevel(t, n, k) ==> LevelAt(h, n + 1, k) == LevelAfter(marked, RecentAt(t, n + 1), LastOpAt(t, n), t[n])
    ensures t[n].depth != 1 && !InLevel(t, n, k) ==> LevelAt(h, n + 1, k) == marked
    ensures t[n].depth == 1 ==>
      && LevelAt(h, n + 1, k).opcodes == marked.opcodes && LevelAt(h, n + 1, k).access == marked.access
      && LevelAt(h, n + 1, k).contractSize == marked.contractSize
      && LevelAt(h, n + 1, k).extCodeAccess == marked.extCodeAccess && LevelAt(h, n + 1, k).oog == marked.oog
  {
    var s := h[n];
    LevelsStep(h, t, n);
    RecentStep(t, n);
    var levels := MarkOog(s.levels, t[n]);
    MarkedNth(s.levels, t[n], k);
    marked := Nth(levels, k);
    if t[n].depth == 1 {
      OpenedNth(levels, t[n], k);
    } else {
      CollectedNth(levels, RecentAfter(s.lastThree, t[n]), s.lastOp, t[n], k);
    }
  }

  lemma OpcodesAtStep(h: seq<State>, t: seq<Step>, n: nat, k: nat)
    requires RunOf(h, t) && n < |t| && Live(t, n) && Tracked(h, n + 1)
    ensures LevelAt(h, n + 1, k).opcodes ==
      if InLevel(t, n, k) then OpcodesAfter(LevelAt(h, n, k).opcodes, LastOpAt(t, n), t[n]) else LevelAt(h, n, k).opcodes
  {
    var _ := LevelStep(h, t, n, k);
  }

  lemma AccessAtStep(h: seq<State>, t: seq<Step>, n: nat, k: nat)
    requires RunOf(h, t) && n < |t| && Live(t, n) && Tracked(h, n + 1)
    ensures LevelAt(h, n + 1, k).access ==
      if InLevel(t, n, k) then AccessAfter(LevelAt(h, n, k).access, t[n]) else LevelAt(h, n, k).access
  {
    var _ := LevelStep(h, t, n, k);
  }

  lemma SizesAtStep(h: seq<State>, t: seq<Step>, n: nat, k: nat)
    requires RunOf(h, t) && n < |t| && Live(t, n) && Tracked(h, n + 1)
    ensures LevelAt(h, n + 1, k).contractSize ==
      if InLevel(t, n, k) then SizesAfter(LevelAt(h, n, k).contractSize, t[n]) else LevelAt(h, n, k).contractSize
  {
    var _ := LevelStep(h, t, n, k);
  }

  lemma ExtAtStep(h: seq<State>, t: seq<Step>, n: nat, k: nat)
    requires RunOf(h, t) && n < |t| && Live(t, n) && Tracked(h, n + 1)
    ensures LevelAt(h, n + 1, k).extCodeAccess ==
      if InLevel(t, n, k) then ExtAfter(LevelAt(h, n, k).extCodeAccess, RecentAt(t, n + 1), t[n])
      else LevelAt(h, n, k).extCodeAccess
  {
    var _ := LevelStep(h, t, n, k);
  }

  lemma OogAtStep(h: seq<State>, t: seq<Step>, n: nat, k: nat)
    requires RunOf(h, t) && n < |t| && Live(t, n) && Tracked(h, n + 1)
    ensures LevelAt(h, n + 1, k).oog <==> LevelAt(h, n, k).oog || (LowGas(t[n]) && OpenCount(t, n) == k + 1)
  {
    var _ := LevelStep(h, t, n, k);
  }

  // ---- which call a level is, and what was hashed -----------------------------------------------

  /** The steps that made the entry point's calls, in order. */
  ghost function Openings(t: seq<Step>, n: nat): (steps: seq<Step>)
    requires n <= |t|
    ensures |steps| == OpenCount(t, n)
  {
    if n == 0 then [] else if OpensLevel(t[n - 1]) then Openings(t, n - 1) + [t[n - 1]] else Openings(t, n - 1)
  }

  ghost predicate Named(l: Level, s: Step) {
    l.methodSig == s.slice && l.target == AddressIn(Operand(s, 1))
  }

  ghost predicate AllNamed(levels: seq<Level>, steps: seq<Step>) {
    |levels| == |steps| && forall k :: 0 <= k < |levels| ==> Named(levels[k], steps[k])
  }

  lemma MarkedNames(levels: seq<Level>, s: Step, steps: seq<Step>)
    requires AllNamed(levels, steps)
    ensures AllNamed(MarkOog(levels, s), steps)
  {
    var after := MarkOog(levels, s);
    forall k | 0 <= k < |after|
      ensures Named(after[k], steps[k])
    {
      MarkedNth(levels, s, k);
      assert Named(levels[k], steps[k]);
    }
  }

  lemma OpenedNames(levels: seq<Level>, s: Step, steps: seq<Step>)
    requires AllNamed(levels, steps)
    ensures AllNamed(OpenNext(levels, s), if OpensLevel(s) then steps + [s] else steps)
  {
  }

  lemma CollectedNames(levels: seq<Level>, recent: seq<Recent>, lastOp: Option<Opcode>, s: Step, steps: seq<Step>)
    requires AllNamed(levels, steps)
    ensures AllNamed(CollectLast(levels, recent, lastOp, s), steps)
  {
    var after := CollectLast(levels, recent, lastOp, s);
    forall k | 0 <= k < |after|
      ensures Named(after[k], steps[k])
    {
      CollectedNth(levels, recent, lastOp, s, k);
      assert Named(levels[k], steps[k]);
    }
  }

  lemma NamesKept(s: State, step: Step, steps: seq<Step>)
    requires AllNamed(s.levels, steps)
    ensures AllNamed(SteppedLevels(s, step), if OpensLevel(step) then steps + [step] else steps)
  {
    MarkedNames(s.levels, step, steps);
    if step.depth == 1 {
      OpenedNames(MarkOog(s.levels, step), step, steps);
    } else {
      CollectedNames(MarkOog(s.levels, step), RecentAfter(s.lastThree, step), s.lastOp, step, steps);
    }
  }

  /** The levels are the entry point's calls, in order: each carries its own call's selector and target. */
  lemma {:induction false} LevelsAreTheCalls(h: seq<State>, t: seq<Step>, n: nat)
    requires RunOf(h, t) && n <= |t| && Collecting(t, n) && Tracked(h, n)
    ensures AllNamed(h[n].levels, Openings(t, n))
  {
    if n > 0 {
      TrackedBefore(h, t, n);
      LevelsAreTheCalls(h, t, n - 1);
      LevelsStep(h, t, n - 1);
      NamesKept(h[n - 1], t[n - 1], Openings(t, n - 1));
    }
  }

  ghost predicate HashIsKept(s: Step) {
    s.depth != 1 && s.op.KECCAK256? && 20 < |s.slice| < 512
  }

  /** The buffers of 21 to 511 bytes hashed below the entry point, in order. */
  ghost function Buffers(t: seq<Step>, n: nat): seq<Bytes>
    requires n <= |t|
  {
    if n == 0 then [] else if HashIsKept(t[n - 1]) then Buffers(t, n - 1) + [t[n - 1].slice] else Buffers(t, n - 1)
  }

  lemma HashStep(s: State, step: Step)
    requires !s.stopCollecting && !StepOn(s, step).failed
    ensures StepOn(s, step).keccak == if HashIsKept(step) then s.keccak + [step.slice] else s.keccak
  {
    if s.failed { FailureStays(s, step); }
  }

  /** The kept hash inputs are exactly those buffers. */
  lemma {:induction false} BuffersKept(h: seq<State>, t: seq<Step>, n: nat)
    requires RunOf(h, t) && n <= |t| && Collecting(t, n) && Tracked(h, n)
    ensures h[n].keccak == Buffers(t, n)
  {
    if n > 0 {
      TrackedBefore(h, t, n);
      BuffersKept(h, t, n - 1);
      AfterOnTrace(h, t, n - 1);
      assert StepAt(h, t, n - 1);
      HashStep(h[n - 1], t[n - 1]);
    }
  }

  // ---- opcode counts ----------------------------------------------------------------------------

  ghost function Occurs(t: seq<Step>, i: nat, op: Opcode): nat
    requires i < |t|
  {
    if op.GAS? then (if GasCountedAt(t, i) then 1 else 0)
    else if t[i].op == op && !Uncounted(op) then 1 else 0
  }

  ghost function Occurrences(t: seq<Step>, n: nat, k: nat, op: Opcode): nat
    requires n <= |t|
  {
    if n == 0 then 0
    else Occurrences(t, n - 1, k, op) + (if InLevel(t, n - 1, k) then Occurs(t, n - 1, op) else 0)
  }

  predicate CountIs<K>(counts: map<K, nat>, key: K, n: nat) {
    if n == 0 then key !in counts else key in counts && counts[key] == n
  }

  lemma OpcodesStep(opcodes: map<Opcode, nat>, t: seq<Step>, i: nat, op: Opcode, n: nat)
    requires i < |t| && CountIs(opcodes, op, n)
    ensures CountIs(OpcodesAfter(opcodes, LastOpAt(t, i), t[i]), op, n + Occurs(t, i, op))
  {
  }

  lemma CountStep(opcodes: map<Opcode, nat>, after: map<Opcode, nat>, t: seq<Step>, n: nat, k: nat, op: Opcode)
    requires n < |t| && CountIs(opcodes, op, Occurrences(t, n, k, op))
    requires after == if InLevel(t, n, k) then OpcodesAfter(opcodes, LastOpAt(t, n), t[n]) else opcodes
    ensures CountIs(after, op, Occurrences(t, n + 1, k, op))
  {
    OpcodesStep(opcodes, t, n, op, Occurrences(t, n, k, op));
  }

  /** For every level and opcode, the count is the number of occurrences, and a key exists only for a positive one. */
  lemma {:induction false} OpcodesCounted(h: seq<State>, t: seq<Step>, n: nat, k: nat, op: Opcode)
    requires RunOf(h, t) && n <= |t| && Collecting(t, n) && Tracked(h, n)
    ensures CountIs(LevelAt(h, n, k).opcodes, op, Occurrences(t, n, k, op))
  {
    if n > 0 {
      TrackedBefore(h, t, n);
      OpcodesCounted(h, t, n - 1, k, op);
      OpcodesAtStep(h, t, n - 1, k);
      CountStep(LevelAt(h, n - 1, k).opcodes, LevelAt(h, n, k).opcodes, t, n - 1, k, op);
    }
  }

  lemma {:induction false} OccurrencesPositive(t: seq<Step>, n: nat, k: nat, op: Opcode)
    requires n <= |t|
    ensures Occurrences(t, n, k, op) > 0 <==> exists i: nat :: i < n && InLevel(t, i, k) && Occurs(t, i, op) > 0
  {
    if n > 0 {
      OccurrencesPositive(t, n - 1, k, op);
    }
  }

  /**
   * GAS is among a level's collected opcodes exactly when, inside the level, some GAS was followed by an inner
   * step whose opcode has no CALL in its name: CALLER, CALLVALUE and the CALLDATA opcodes shield it like a call.
   */
  lemma GasCollectedExactly(h: seq<State>, t: seq<Step>, n: nat, k: nat)
    requires RunOf(h, t) && n <= |t| && Collecting(t, n) && Tracked(h, n)
    ensures GAS in LevelAt(h, n, k).opcodes <==> exists i: nat :: i < n && InLevel(t, i, k) && GasCountedAt(t, i)
  {
    OpcodesCounted(h, t, n, k, GAS);
    OccurrencesPositive(t, n, k, GAS);
    forall i: nat | i < n
      ensures Occurs(t, i, GAS) > 0 <==> GasCountedAt(t, i)
    {
    }
  }

  // ---- storage accesses -------------------------------------------------------------------------

  ghost predicate Touches(t: seq<Step>, i: nat, k: nat, a: Address, slot: Word)
    requires i < |t|
  {
    InLevel(t, i, k) && (t[i].op == SLOAD || t[i].op == SSTORE) && t[i].contract == a && Operand(t[i], 0) == slot
  }

  ghost predicate Touched(t: seq<Step>, n: nat, k: nat, a: Address, slot: Word)
    requires n <= |t|
  {
    exists i :: 0 <= i < n && Touches(t, i, k, a, slot)
  }

  /** The first access to the slot in this level is a read, at step `i`. */
  ghost predicate FirstReadAt(t: seq<Step>, i: nat, k: nat, a: Address, slot: Word)
    requires i < |t|
  {
    Touches(t, i, k, a, slot) && t[i].op.SLOAD? && !Touched(t, i, k, a, slot)
  }

  ghost function Writes(t: seq<Step>, n: nat, k: nat, a: Address, slot: Word): nat
    requires n <= |t|
  {
    if n == 0 then 0
    else Writes(t, n - 1, k, a, slot) + (if Touches(t, n - 1, k, a, slot) && t[n - 1].op.SSTORE? then 1 else 0)
  }

  /** What the access map says of one slot agrees with the trace up to `n`. */
  ghost predicate SlotAgrees(access: map<Address, AccessInfo>, t: seq<Step>, n: nat, k: nat, a: Address, slot: Word)
    requires n <= |t|
  {
    var info := if a in access then access[a] else AccessInfo(map[], map[]);
    && CountIs(info.slotWrites, slot, Writes(t, n, k, a, slot))
    && (slot in info.slotReads || slot in info.slotWrites <==> Touched(t, n, k, a, slot))
    && (slot in info.slotReads ==> exists i :: 0 <= i < n && FirstReadAt(t, i, k, a, slot) && info.slotReads[slot] == t[i].stored)
    && (forall i :: 0 <= i < n && FirstReadAt(t, i, k, a, slot) ==>
          slot in info.slotReads && info.slotReads[slot] == t[i].stored)
  }

  lemma TouchedStep(t: seq<Step>, n: nat, k: nat, a: Address, slot: Word)
    requires n < |t|
    ensures Touched(t, n + 1, k, a, slot) <==> Touched(t, n, k, a, slot) || Touches(t, n, k, a, slot)
  {
  }

  lemma UntouchedStep(access: map<Address, AccessInfo>, t: seq<Step>, n: nat, k: nat, a: Address, slot: Word)
    requires n < |t| && SlotAgrees(access, t, n, k, a, slot)
    requires !Touches(t, n, k, a, slot)
    ensures SlotAgrees(access, t, n + 1, k, a, slot)
  {
    TouchedStep(t, n, k, a, slot);
  }

  lemma OtherSlotKept(access: map<Address, AccessInfo>, s: Step, a: Address, slot: Word)
    requires !(IsStorageOp(s.op) && s.contract == a && Peek(s, 0) == slot)
    ensures var b, c := InfoOf(access, a), InfoOf(AccessAfter(access, s), a);
      && (slot in c.slotReads <==> slot in b.slotReads) && (slot in c.slotReads ==> c.slotReads[slot] == b.slotReads[slot])
      && (slot in c.slotWrites <==> slot in b.slotWrites) && (slot in c.slotWrites ==> c.slotWrites[slot] == b.slotWrites[slot])
  {
  }

  lemma TouchStep(access: map<Address, AccessInfo>, t: seq<Step>, n: nat, k: nat, a: Address, slot: Word)
    requires n < |t| && SlotAgrees(access, t, n, k, a, slot)
    requires Touches(t, n, k, a, slot)
    ensures SlotAgrees(AccessAfter(access, t[n]), t, n + 1, k, a, slot)
  {
    TouchedStep(t, n, k, a, slot);
    var before, after := InfoOf(access, a), InfoOf(AccessAfter(access, t[n]), a);
    forall i | 0 <= i < n + 1 && FirstReadAt(t, i, k, a, slot)
      ensures slot in after.slotReads && after.slotReads[slot] == t[i].stored
    {
      if i == n {
        assert slot !in before.slotReads && slot !in before.slotWrites;
      }
    }
    if slot in after.slotReads && slot !in before.slotReads {
      assert FirstReadAt(t, n, k, a, slot);
    }
  }

  lemma SlotStep(access: map<Address, AccessInfo>, after: map<Address, AccessInfo>,
                 t: seq<Step>, n: nat, k: nat, a: Address, slot: Word)
    requires n < |t| && SlotAgrees(access, t, n, k, a, slot)
    requires after == if InLevel(t, n, k) then AccessAfter(access, t[n]) else access
    ensures SlotAgrees(after, t, n + 1, k, a, slot)
  {
    if Touches(t, n, k, a, slot) {
      TouchStep(access, t, n, k, a, slot);
    } else {
      if InLevel(t, n, k) {
        OtherSlotKept(access, t[n], a, slot);
        SameSlotAgrees(access, after, t, n, k, a, slot);
      }
      UntouchedStep(after, t, n, k, a, slot);
    }
  }

  lemma SameSlotAgrees(access: map<Address, AccessInfo>, after: map<Address, AccessInfo>,
                       t: seq<Step>, n: nat, k: nat, a: Address, slot: Word)
    requires n <= |t| && SlotAgrees(access, t, n, k, a, slot)
    requires var b, c := InfoOf(access, a), InfoOf(after, a);
      && (slot in c.slotReads <==> slot in b.slotReads) && (slot in c.slotReads ==> c.slotReads[slot] == b.slotReads[slot])
      && (slot in c.slotWrites <==> slot in b.slotWrites) && (slot in c.slotWrites ==> c.slotWrites[slot] == b.slotWrites[slot])
    ensures SlotAgrees(after, t, n, k, a, slot)
  {
  }

  /**
   * For every trace, level, contract and slot: `reads` has the slot exactly when its first access in the
   * level was an SLOAD, with the value found there, and `writes` has the exact number of SSTOREs.
   */
  lemma {:induction false} AccessesRecorded(h: seq<State>, t: seq<Step>, n: nat, k: nat, a: Address, slot: Word)
    requires RunOf(h, t) && n <= |t| && Collecting(t, n) && Tracked(h, n)
    ensures SlotAgrees(LevelAt(h, n, k).access, t, n, k, a, slot)
  {
    if n > 0 {
      TrackedBefore(h, t, n);
      AccessesRecorded(h, t, n - 1, k, a, slot);
      AccessAtStep(h, t, n - 1, k);
      SlotStep(LevelAt(h, n - 1, k).access, LevelAt(h, n, k).access, t, n - 1, k, a, slot);
    }
  }

  // ---- called addresses and out-of-gas ------------------------------------------------------------

  ghost predicate Calls(t: seq<Step>, i: nat, k: nat, a: Address)
    requires i < |t|
  {
    InLevel(t, i, k) && Uses(t[i], a)
  }

  ghost predicate FirstCallAt(t: seq<Step>, i: nat, k: nat, a: Address)
    requires i < |t|
  {
    Calls(t, i, k, a) && forall j :: 0 <= j < i ==> !Calls(t, j, k, a)
  }

  /** What the size map says of one address agrees with the trace up to `n`. */
  ghost predicate SizeAgrees(sizes: map<Address, ContractSize>, t: seq<Step>, n: nat, k: nat, a: Address)
    requires n <= |t|
  {
    && (a in sizes <==> exists i :: 0 <= i < n && Calls(t, i, k, a))
    && (forall i :: 0 <= i < n && FirstCallAt(t, i, k, a) ==>
          a in sizes && sizes[a] == ContractSize(t[i].op, t[i].codeSize))
  }

  lemma SizeStep(sizes: map<Address, ContractSize>, t: seq<Step>, n: nat, k: nat, a: Address)
    requires n < |t| && SizeAgrees(sizes, t, n, k, a)
    ensures SizeAgrees(if InLevel(t, n, k) then SizesAfter(sizes, t[n]) else sizes, t, n + 1, k, a)
  {
    var after := if InLevel(t, n, k) then SizesAfter(sizes, t[n]) else sizes;
    assert a in after <==> a in sizes || Calls(t, n, k, a);
    if Calls(t, n, k, a) && a !in sizes {
      assert after[a] == ContractSize(t[n].op, t[n].codeSize);
    }
    forall i | 0 <= i < n + 1 && FirstCallAt(t, i, k, a)
      ensures a in after && after[a] == ContractSize(t[i].op, t[i].codeSize)
    {
      if i == n {
        assert a !in sizes;
      } else {
        assert a in sizes;
      }
    }
  }

  /** The code size kept for an address is the one at its first use in the level; precompiles are not kept. */
  lemma {:induction false} SizesTakenAtFirstUse(h: seq<State>, t: seq<Step>, n: nat, k: nat, a: Address)
    requires RunOf(h, t) && n <= |t| && Collecting(t, n) && Tracked(h, n)
    ensures SizeAgrees(LevelAt(h, n, k).contractSize, t, n, k, a)
  {
    if n > 0 {
      TrackedBefore(h, t, n);
      SizesTakenAtFirstUse(h, t, n - 1, k, a);
      SizesAtStep(h, t, n - 1, k);
      SizeStep(LevelAt(h, n - 1, k).contractSize, t, n - 1, k, a);
    }
  }

  ghost predicate FlagsAt(t: seq<Step>, i: nat, k: nat, a: Address)
    requires i < |t|
  {
    InLevel(t, i, k) && FollowsUnsafeRead(t, i, a)
  }

  ghost predicate Flagged(t: seq<Step>, n: nat, k: nat, a: Address)
    requires n <= |t|
  {
    exists i :: 0 <= i < n && FlagsAt(t, i, k, a)
  }

  lemma FlaggedStep(t: seq<Step>, n: nat, k: nat, a: Address)
    requires n < |t|
    ensures Flagged(t, n + 1, k, a) <==> Flagged(t, n, k, a) || FlagsAt(t, n, k, a)
  {
  }

  /** An address is flagged exactly when an EXT opcode named it and no exempt size check followed. */
  lemma {:induction false} ExtAccessesFlagged(h: seq<State>, t: seq<Step>, n: nat, k: nat, a: Address)
    requires RunOf(h, t) && n <= |t| && Collecting(t, n) && Tracked(h, n)
    ensures a in LevelAt(h, n, k).extCodeAccess <==> Flagged(t, n, k, a)
  {
    if n > 0 {
      TrackedBefore(h, t, n);
      ExtAccessesFlagged(h, t, n - 1, k, a);
      FlaggedStep(t, n - 1, k, a);
      ExtAtStep(h, t, n - 1, k);
      FlaggedAddress(t, n - 1, a);
    }
  }

  ghost predicate LowGasAt(t: seq<Step>, i: nat, k: nat)
    requires i < |t|
  {
    RunsLow(t[i]) && OpenCount(t, i) == k + 1
  }

  ghost predicate RanLow(t: seq<Step>, n: nat, k: nat)
    requires n <= |t|
  {
    exists i :: 0 <= i < n && LowGasAt(t, i, k)
  }

  lemma RanLowStep(oog: bool, t: seq<Step>, n: nat, k: nat)
    requires n < |t| && (oog <==> RanLow(t, n, k))
    ensures oog || (LowGas(t[n]) && OpenCount(t, n) == k + 1) <==> RanLow(t, n + 1, k)
  {
    assert RanLow(t, n + 1, k) <==> RanLow(t, n, k) || LowGasAt(t, n, k);
  }

  /** A level is marked out-of-gas exactly when a low-gas step came while it was the current one. */
  lemma {:induction false} OogMarked(h: seq<State>, t: seq<Step>, n: nat, k: nat)
    requires RunOf(h, t) && n <= |t| && Collecting(t, n) && Tracked(h, n)
    ensures LevelAt(h, n, k).oog <==> RanLow(t, n, k)
  {
    if n > 0 {
      TrackedBefore(h, t, n);
      OogMarked(h, t, n - 1, k);
      OogAtStep(h, t, n - 1, k);
      RanLowStep(LevelAt(h, n - 1, k).oog, t, n - 1, k);
    }
  }

  // ---- calls ------------------------------------------------------------------------------------

  /** The callbacks geth makes, in order. */
  datatype Callback = OnStep(step: Step) | OnEnter(opening: CallTree.Opening) | OnExit(closing: CallTree.Closing)

  function React(s: State, c: Callback): State {
    match c
    case OnStep(step) => StepOn(s, step)
    case OnEnter(o) => EnterCall(s, o)
    case OnExit(x) => ExitCall(s, x)
  }

  function ReactAll(s: State, cs: seq<Callback>): State
    decreases |cs|
  {
    if cs == [] then s else ReactAll(React(s, cs[0]), cs[1..])
  }

  /** The frame a callback adds: an enter, an exit, or the top-level end reconstructed from its opcode. */
  ghost function FrameOf(c: Callback): seq<CallTree.Frame> {
    match c
    case OnEnter(o) => [CallTree.Enter(o)]
    case OnExit(x) => [CallTree.Exit(x)]
    case OnStep(s) =>
      if s.depth == 1 && Leaves(s.op) then [CallTree.Exit(CallTree.Closing(s.op == REVERT, s.slice))] else []
  }

  ghost function Frames(cs: seq<Callback>): seq<CallTree.Frame>
    decreases |cs|
  {
    if cs == [] then [] else FrameOf(cs[0]) + Frames(cs[1..])
  }

  ghost predicate Ends(c: Callback) {
    c.OnStep? && EndsValidation(c.step)
  }

  /** A stop event can only be the last callback. */
  ghost predicate OnlyLastEnds(cs: seq<Callback>) {
    forall i :: 0 <= i < |cs| - 1 ==> !Ends(cs[i])
  }

  lemma ReactFrames(s: State, c: Callback)
    requires !s.stopCollecting && !React(s, c).failed
    ensures React(s, c).calls == s.calls + FrameOf(c)
    ensures React(s, c).stopCollecting ==> Ends(c)
    ensures !s.failed
  {
  }

  lemma {:induction false} FailureLasts(s: State, cs: seq<Callback>)
    requires s.failed
    ensures ReactAll(s, cs).failed
    decreases |cs|
  {
    if cs != [] {
      FailureLasts(React(s, cs[0]), cs[1..]);
    }
  }

  lemma FramesJoin(calls: seq<CallTree.Frame>, cs: seq<Callback>)
    requires cs != []
    ensures (calls + FrameOf(cs[0])) + Frames(cs[1..]) == calls + Frames(cs)
  {
    Associative(calls, FrameOf(cs[0]), Frames(cs[1..]));
  }

  /** Over a run that does not fail, up to its stop event, `calls` holds exactly the frames, in order. */
  lemma {:induction false} CallsAreTheFrames(s: State, cs: seq<Callback>)
    requires !s.stopCollecting && OnlyLastEnds(cs) && !ReactAll(s, cs).failed
    ensures ReactAll(s, cs).calls == s.calls + Frames(cs)
    decreases |cs|
  {
    if cs != [] {
      var next := React(s, cs[0]);
      if next.failed { FailureLasts(next, cs[1..]); }
      ReactFrames(s, cs[0]);
      FramesJoin(s.calls, cs);
      if |cs| > 1 { CallsAreTheFrames(next, cs[1..]); }
    }
  }

  /**
   * From trace to call stack: when the calls below the traced one are balanced and its end is the last
   * frame, the parser returns the post-order of the call forest followed by the top entry.
   */
  lemma TraceParsesToPostOrder(abi: CallTree.Abi, cs: seq<Callback>, inner: seq<CallTree.Frame>, top: CallTree.Closing)
      returns (f: CallTree.Forest)
    requires OnlyLastEnds(cs) && !ReactAll(START, cs).failed
    requires Frames(cs) == inner + [CallTree.Exit(top)] && CallTree.Balanced(inner)
    ensures CallTree.Flatten(f) == inner
    ensures CallTree.Parsed(abi, [], ReactAll(START, cs).calls) == CallTree.PostOrder(abi, f) + [CallTree.TopEntry(top)]
  {
    CallsAreTheFrames(START, cs);
    assert [] + Frames(cs) == Frames(cs);
    f := CallTree.BalancedCallsComeOutPostOrder(abi, inner, top);
  }
}
