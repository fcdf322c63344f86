/** Scans of past events inside the two-mutex machine: when they overlap, and when each event counts once. */
module ScanRuns {
  import opened Common
  import opened Execution
  import opened ExecutionRuns
  import Bundle
  import Events
  import Mempool

  // ---- one scan at a time ---------------------------------------------------------------------------------

  /** The action is no debug bundle call, and leaves the bundler out of auto-bundling mode. */
  predicate Serial(a: Action) {
    a != SetAutoBundler(0) && !a.SendBundleNow?
  }

  /** Nobody scans outside the bundle mutex, and nobody is going to. */
  ghost predicate Guarded(s: Sys) {
    && s.maxMempoolSize != 0
    && forall tid :: tid in s.tasks ==> !Outside(s.tasks[tid].phase) && !s.tasks[tid].origin.DebugCall?
  }

  lemma GuardedLeave(s: Sys, tid: TaskId)
    requires tid in s.tasks && s.maxMempoolSize != 0 && !s.tasks[tid].origin.DebugCall?
    ensures Leave(s, tid) == Finish(s, tid)
  {
  }

  lemma ActorStaysGuarded(s: Sys, a: Action, tid: TaskId)
    requires Enabled(s, a) && Actor(a) == Some(tid) && Guarded(s)
    ensures !Outside(Next(s, a).tasks[tid].phase) && Next(s, a).tasks[tid].origin == s.tasks[tid].origin
  {
    match a
    case Deliver(_, delivery) =>
      GuardedLeave(s.(world := Bundle.AfterSending(s.world, s.tasks[tid].phase.pass.loop.acc.bundle, delivery)), tid);
    case Close(_) => GuardedLeave(s, tid);
    case _ =>
  }

  lemma SizeKept(s: Sys, a: Action)
    requires Enabled(s, a) && !a.SetAutoBundler?
    ensures Next(s, a).maxMempoolSize == s.maxMempoolSize
  {
  }

  lemma NewTaskIsQueued(s: Sys, a: Action, x: TaskId)
    requires Enabled(s, a) && x in Next(s, a).tasks && x !in s.tasks
    ensures Next(s, a).tasks[x].phase.AwaitingExec? || Next(s, a).tasks[x].phase.AwaitingBundle?
    ensures Next(s, a).tasks[x].origin.DebugCall? ==> a.SendBundleNow?
  {
  }

  lemma StepKeepsGuarded(s: Sys, a: Action)
    requires Guarded(s) && Enabled(s, a) && Serial(a)
    ensures Guarded(Next(s, a))
  {
    var t := Next(s, a);
    if !a.SetAutoBundler? { SizeKept(s, a); }
    forall x | x in t.tasks
      ensures !Outside(t.tasks[x].phase) && !t.tasks[x].origin.DebugCall?
    {
      if Actor(a) == Some(x) {
        ActorStaysGuarded(s, a, x);
      } else {
        OthersKeepTheirPhase(s, a, x);
        if x !in s.tasks { NewTaskIsQueued(s, a, x); }
      }
    }
  }

  lemma {:induction false} GuardedHolds(s: Sys, actions: seq<Action>, end: Sys)
    requires Guarded(s) && Run(s, actions, end) && forall a :: a in actions ==> Serial(a)
    ensures Guarded(end)
    decreases |actions|
  {
    if actions != [] {
      StepKeepsGuarded(s, actions[0]);
      GuardedHolds(Next(s, actions[0]), actions[1..], end);
    }
  }

  /** While the mempool size setting is never zero and `sendBundleNow` is not called, at most one task scans past events. */
  lemma OneScanAtATime(s: Sys, actions: seq<Action>, end: Sys, x: TaskId, y: TaskId)
    requires Initial(s) && s.maxMempoolSize != 0 && Run(s, actions, end) && forall a :: a in actions ==> Serial(a)
    requires x in end.tasks && y in end.tasks && Scans(end.tasks[x].phase) && Scans(end.tasks[y].phase)
    ensures x == y
  {
    GuardedHolds(s, actions, end);
    OnePassAtATime(s, actions, end, x, y);
  }

  // ---- the machine beside its chain -----------------------------------------------------------------------

  /** `seen` holds the answers the node has computed and the bundler has not received. */
  datatype Linked = Linked(
    sys: Sys,
    chain: seq<Events.Event>,
    height: nat,
    start: Option<nat>,
    seen: map<TaskId, seq<Events.Event>>,
    handled: seq<Events.Event>)

  datatype Move = Grow(events: seq<Events.Event>, height: nat) | Evaluate(tid: TaskId) | Do(action: Action)

  predicate Queried(l: Linked, tid: TaskId) {
    tid in l.sys.tasks && Scans(l.sys.tasks[tid].phase) && l.sys.tasks[tid].phase.scan.AwaitingEvents?
  }

  ghost predicate CanMove(l: Linked, m: Move) {
    match m
    case Grow(evs, height) => l.height <= height && forall ev :: ev in evs ==> l.height < ev.block <= height
    case Evaluate(tid) => Queried(l, tid) && tid !in l.seen
    case Do(a) =>
      && Enabled(l.sys, a)
      && (a.Answer? ==> a.tid in l.seen && a.events == l.seen[a.tid])
      && (a.Head? ==> a.head <= l.height)
      && (a.Live? ==> a.event in l.chain)
  }

  ghost function After(l: Linked, m: Move): Linked
    requires CanMove(l, m)
  {
    match m
    case Grow(evs, height) => l.(chain := l.chain + evs, height := height)
    case Evaluate(tid) => l.(seen := l.seen[tid := Events.Since(l.chain, l.sys.tasks[tid].phase.scan.from)])
    case Do(a) =>
      var t := l.(sys := Next(l.sys, a));
      match a
      case Head(_, head) => if l.start.None? then t.(start := Some(Events.StartBlock(head))) else t
      case Answer(tid, evs) => t.(seen := l.seen - {tid}, handled := l.handled + evs)
      case Throw(tid) => t.(seen := l.seen - {tid})
      case Live(ev) => t.(handled := l.handled + [ev])
      case _ => t
  }

  ghost predicate Moves(l: Linked, ms: seq<Move>, end: Linked)
    decreases |ms|
  {
    if ms == [] then l == end else CanMove(l, ms[0]) && Moves(After(l, ms[0]), ms[1..], end)
  }

  /** A freshly started bundler beside a chain of any length. */
  ghost predicate Started(l: Linked) {
    && Initial(l.sys) && l.sys.world.tracker == Events.FRESH
    && l.start == None && l.seen == map[] && l.handled == []
    && Events.InBlockOrder(l.chain) && (forall ev :: ev in l.chain ==> ev.block <= l.height)
  }

  // ---- exactly once in the machine ------------------------------------------------------------------------

  /** New blocks are ordered, the size setting stays off zero, and nobody calls `sendBundleNow`. */
  ghost predicate Ordered(m: Move) {
    && (m.Grow? ==> Events.InBlockOrder(m.events))
    && (m.Do? ==> Serial(m.action))
  }

  /** Moreover the live listener is silent. */
  ghost predicate Tame(m: Move) {
    Ordered(m) && (m.Do? ==> !m.action.Live?)
  }

  ghost predicate ScansCurrent(s: Sys) {
    forall tid :: tid in s.tasks && Scans(s.tasks[tid].phase) ==> s.tasks[tid].phase.scan == StartScan(s.world)
  }

  ghost predicate AccountedWith(l: Linked, pending: Option<seq<Events.Event>>) {
    match l.sys.world.tracker.lastBlock
    case None => l.start == None && l.handled == [] && pending == None
                 && Events.InBlockOrder(l.chain) && forall ev :: ev in l.chain ==> ev.block <= l.height
    case Some(last) =>
      l.start.Some? && Events.Accounted(l.chain, l.height, l.start.value, last, l.handled, pending)
  }

  ghost predicate SeenOk(l: Linked) {
    && (l.seen == map[] ==> AccountedWith(l, None))
    && (forall tid :: tid in l.seen ==> Queried(l, tid) && AccountedWith(l, Some(l.seen[tid])))
  }

  ghost predicate LinkOk(l: Linked) {
    Inv(l.sys) && Guarded(l.sys) && ScansCurrent(l.sys) && SeenOk(l)
  }

  lemma OnlyOneScans(l: Linked, x: TaskId, y: TaskId)
    requires LinkOk(l) && x in l.sys.tasks && y in l.sys.tasks
    requires Scans(l.sys.tasks[x].phase) && Scans(l.sys.tasks[y].phase)
    ensures x == y
  {
    Holder(l.sys, x);
    Holder(l.sys, y);
  }

  lemma TrackerKept(s: Sys, a: Action)
    requires Enabled(s, a) && !a.Head? && !a.Answer? && !a.Live?
    ensures Next(s, a).world.tracker == s.world.tracker
  {
    match a
    case Consider(tid) => assert ConsiderNext(s, tid, s.tasks[tid].phase.pass).world.tracker == s.world.tracker;
    case Deliver(tid, delivery) =>
      assert Bundle.AfterSending(s.world, s.tasks[tid].phase.pass.loop.acc.bundle, delivery).tracker == s.world.tracker;
    case _ =>
  }

  /** Apart from acquiring and asking for the head, no step makes a task scan. */
  lemma ScanningComesFromAcquiring(s: Sys, a: Action, tid: TaskId)
    requires Guarded(s) && Enabled(s, a) && Actor(a) == Some(tid) && Scans(Next(s, a).tasks[tid].phase)
    ensures a.Acquire? || a.Head?
  {
    ActorStaysGuarded(s, a, tid);
    match a
    case Validate(_, _) => OutsideThePass(s, a, tid);
    case _ =>
  }

  lemma StepKeepsScansCurrent(l: Linked, a: Action)
    requires LinkOk(l) && Enabled(l.sys, a) && !a.Live?
    ensures ScansCurrent(Next(l.sys, a))
  {
    var s, t := l.sys, Next(l.sys, a);
    forall x | x in t.tasks && Scans(t.tasks[x].phase)
      ensures t.tasks[x].phase.scan == StartScan(t.world)
    {
      if Actor(a) == Some(x) {
        ScanningComesFromAcquiring(s, a, x);
      } else {
        OthersKeepTheirPhase(s, a, x);
        if x !in s.tasks { NewTaskIsQueued(s, a, x); }
        if a.Head? || a.Answer? {
          OnlyOneScans(l, a.tid, x);
        } else {
          TrackerKept(s, a);
        }
      }
    }
  }

  lemma GrowKeepsSeen(l: Linked, evs: seq<Events.Event>, height: nat, pending: Option<seq<Events.Event>>)
    requires CanMove(l, Grow(evs, height)) && Events.InBlockOrder(evs) && AccountedWith(l, pending)
    ensures AccountedWith(After(l, Grow(evs, height)), pending)
  {
    var last := l.sys.world.tracker.lastBlock;
    if last.Some? {
      Events.GrowKeepsAccounted(l.chain, l.height, l.start.value, last.value, l.handled, pending, evs, height);
    } else {
      var all := l.chain + evs;
      forall i, j | 0 <= i < j < |all|
        ensures all[i].block <= all[j].block
      {
        if i < |l.chain| <= j { assert all[i] in l.chain && all[j] in evs; }
      }
    }
  }

  lemma EvaluateKeepsSeen(l: Linked, tid: TaskId)
    requires LinkOk(l) && CanMove(l, Evaluate(tid))
    ensures SeenOk(After(l, Evaluate(tid)))
  {
    forall x | x in l.seen
      ensures false
    {
      OnlyOneScans(l, tid, x);
    }
    assert l.seen == map[];
    var last := l.sys.world.tracker.lastBlock.value;
    assert l.sys.tasks[tid].phase.scan == StartScan(l.sys.world);
    Events.QueryKeepsAccounted(l.chain, l.height, l.start.value, last, l.handled);
  }

  lemma AnswerKeepsSeen(l: Linked, tid: TaskId)
    requires LinkOk(l) && tid in l.seen && CanMove(l, Do(Answer(tid, l.seen[tid])))
    ensures SeenOk(After(l, Do(Answer(tid, l.seen[tid]))))
  {
    var p, after := l.seen[tid], After(l, Do(Answer(tid, l.seen[tid])));
    forall x | x in l.seen
      ensures x == tid
    {
      OnlyOneScans(l, tid, x);
    }
    assert after.seen == map[];
    assert AccountedWith(l, Some(p));
    Events.HandleAllMovesLastBlock(l.sys.world, p);
    Events.HandleKeepsAccounted(l.chain, l.height, l.start.value, l.sys.world.tracker.lastBlock.value, l.handled, p);
  }

  lemma FirstHeadAccounted(l: Linked, tid: TaskId, head: nat)
    requires LinkOk(l) && CanMove(l, Do(Head(tid, head)))
    ensures SeenOk(After(l, Do(Head(tid, head))))
  {
    assert l.sys.tasks[tid].phase.scan == StartScan(l.sys.world);
    forall x | x in l.seen
      ensures false
    {
      OnlyOneScans(l, tid, x);
    }
    assert l.seen == map[];
    var start := Events.StartBlock(head);
    assert [] + Events.Since(l.chain, start) == Events.Since(l.chain, start);
  }

  lemma ThrowKeepsSeen(l: Linked, tid: TaskId)
    requires LinkOk(l) && CanMove(l, Do(Throw(tid)))
    ensures SeenOk(After(l, Do(Throw(tid))))
  {
    TrackerKept(l.sys, Throw(tid));
    forall x | x in l.seen && x != tid
      ensures Queried(After(l, Do(Throw(tid))), x)
    {
      OthersKeepTheirPhase(l.sys, Throw(tid), x);
    }
    if tid in l.seen {
      forall x | x in l.seen
        ensures x == tid
      {
        OnlyOneScans(l, tid, x);
      }
      assert AccountedWith(l, Some(l.seen[tid]));
    }
  }

  predicate Silent(a: Action) {
    !a.Head? && !a.Answer? && !a.Throw? && !a.Live?
  }

  lemma TasksRemain(s: Sys, a: Action, x: TaskId)
    requires Enabled(s, a) && x in s.tasks
    ensures x in Next(s, a).tasks
  {
  }

  /** A waiting query is only ended by its own answer or failure. */
  lemma QueryWaits(l: Linked, a: Action, x: TaskId)
    requires LinkOk(l) && Enabled(l.sys, a) && Silent(a) && Queried(l, x)
    ensures Queried(l.(sys := Next(l.sys, a)), x)
  {
    TasksRemain(l.sys, a, x);
    if Actor(a) != Some(x) { OthersKeepTheirPhase(l.sys, a, x); }
  }

  lemma SilentKeepsSeen(l: Linked, a: Action)
    requires LinkOk(l) && CanMove(l, Do(a)) && Silent(a)
    ensures SeenOk(After(l, Do(a)))
  {
    var after := After(l, Do(a));
    TrackerKept(l.sys, a);
    assert after == l.(sys := Next(l.sys, a));
    forall x | x in l.seen
      ensures Queried(after, x) && AccountedWith(after, Some(l.seen[x]))
    {
      QueryWaits(l, a, x);
      assert AccountedWith(l, Some(l.seen[x]));
    }
  }

  lemma MoveKeepsLinkOk(l: Linked, m: Move)
    requires LinkOk(l) && CanMove(l, m) && Tame(m)
    ensures LinkOk(After(l, m))
  {
    match m
    case Grow(evs, height) =>
      var after := After(l, m);
      if l.seen == map[] { GrowKeepsSeen(l, evs, height, None); }
      forall x | x in l.seen
        ensures Queried(after, x) && AccountedWith(after, Some(l.seen[x]))
      {
        GrowKeepsSeen(l, evs, height, Some(l.seen[x]));
      }
    case Evaluate(tid) => EvaluateKeepsSeen(l, tid);
    case Do(a) =>
      StepKeepsInv(l.sys, a);
      StepKeepsGuarded(l.sys, a);
      StepKeepsScansCurrent(l, a);
      ActionKeepsSeen(l, a);
  }

  lemma ActionKeepsSeen(l: Linked, a: Action)
    requires LinkOk(l) && CanMove(l, Do(a)) && !a.Live?
    ensures SeenOk(After(l, Do(a)))
  {
    match a
    case Head(tid, head) => FirstHeadAccounted(l, tid, head);
    case Answer(tid, _) => AnswerKeepsSeen(l, tid);
    case Throw(tid) => ThrowKeepsSeen(l, tid);
    case _ => SilentKeepsSeen(l, a);
  }

  lemma {:induction false} LinkHolds(l: Linked, ms: seq<Move>, end: Linked)
    requires LinkOk(l) && Moves(l, ms, end) && forall m :: m in ms ==> Tame(m)
    ensures LinkOk(end)
    decreases |ms|
  {
    if ms != [] {
      MoveKeepsLinkOk(l, ms[0]);
      LinkHolds(After(l, ms[0]), ms[1..], end);
    }
  }

  /**
   * Exactly once, in the bundler itself: with the size setting never zero, no `sendBundleNow` and the live listener
   * silent, however submissions, timers and failing calls interleave with a growing chain, the events handled are
   * a prefix of the chain's events from the first start block on, each once and in chain order; and what is not
   * handled yet is exactly what the next scan asks for.
   */
  lemma MachineHandlesOnceInOrder(l: Linked, ms: seq<Move>, end: Linked)
    requires Started(l) && l.sys.maxMempoolSize != 0 && Moves(l, ms, end) && forall m :: m in ms ==> Tame(m)
    ensures match end.sys.world.tracker.lastBlock
      case None => end.handled == []
      case Some(last) =>
        && end.start.Some?
        && end.handled <= Events.Since(end.chain, end.start.value)
        && end.handled + Events.Since(end.chain, last) == Events.Since(end.chain, end.start.value)
  {
    assert LinkOk(l);
    LinkHolds(l, ms, end);
    if end.seen != map[] {
      var tid :| tid in end.seen;
      assert AccountedWith(end, Some(end.seen[tid]));
    }
  }

  lemma HeightBoundsLast(l: Linked)
    requires LinkOk(l) && l.sys.world.tracker.lastBlock.Some?
    ensures l.sys.world.tracker.lastBlock.value <= l.height + 1
  {
    if l.seen != map[] {
      var tid :| tid in l.seen;
      assert AccountedWith(l, Some(l.seen[tid]));
    }
  }

  lemma ChainOrdered(l: Linked)
    requires LinkOk(l)
    ensures Events.InBlockOrder(l.chain) && forall ev :: ev in l.chain ==> ev.block <= l.height
  {
    if l.seen != map[] {
      var tid :| tid in l.seen;
      assert AccountedWith(l, Some(l.seen[tid]));
    }
  }

  // ---- overlapping scans ----------------------------------------------------------------------------------

  lemma MoveFirst(l: Linked, m: Move, rest: seq<Move>, end: Linked)
    requires CanMove(l, m) && Moves(After(l, m), rest, end)
    ensures Moves(l, [m] + rest, end)
  {
    assert ([m] + rest)[1..] == rest;
  }

  lemma MovesSplit(l: Linked, ms: seq<Move>, end: Linked) returns (next: Linked)
    requires ms != [] && Moves(l, ms, end)
    ensures CanMove(l, ms[0]) && next == After(l, ms[0]) && Moves(next, ms[1..], end)
  {
    next := After(l, ms[0]);
  }

  lemma Uncons(xs: seq<Move>, ys: seq<Move>)
    requires xs != []
    ensures xs + ys == [xs[0]] + (xs[1..] + ys)
  {
  }

  lemma {:induction false} MovesThen(l: Linked, xs: seq<Move>, mid: Linked, ys: seq<Move>, end: Linked)
    requires Moves(l, xs, mid) && Moves(mid, ys, end)
    ensures Moves(l, xs + ys, end)
    decreases |xs|
  {
    if xs == [] {
      assert xs + ys == ys;
    } else {
      var next := MovesSplit(l, xs, mid);
      MovesThen(next, xs[1..], mid, ys, end);
      Uncons(xs, ys);
      MoveFirst(l, xs[0], xs[1..] + ys, end);
    }
  }

  /** Two tasks have queried from the same block, and neither has its answer. */
  ghost predicate Overlap(l: Linked, x: TaskId, y: TaskId, from: nat) {
    && x != y && Queried(l, x) && Queried(l, y) && x !in l.seen && y !in l.seen
    && l.sys.tasks[x].phase.scan == AwaitingEvents(from) && l.sys.tasks[y].phase.scan == AwaitingEvents(from)
  }

  lemma OtherStillQueried(l: Linked, x: TaskId, y: TaskId, evs: seq<Events.Event>)
    requires Queried(l, x) && Queried(l, y) && x != y
    ensures Enabled(l.sys, Answer(x, evs)) && Queried(l.(sys := Next(l.sys, Answer(x, evs))), y)
  {
    OthersKeepTheirPhase(l.sys, Answer(x, evs), y);
  }

  lemma AnswerWorld(s: Sys, tid: TaskId, evs: seq<Events.Event>)
    requires Enabled(s, Answer(tid, evs))
    ensures Next(s, Answer(tid, evs)).world == Events.HandleAll(s.world, evs)
  {
  }

  /** A computed answer arrives; another task that waits for its own goes on waiting. */
  lemma AnswerArrives(l: Linked, x: TaskId, y: TaskId) returns (next: Linked)
    requires x in l.seen && Queried(l, x) && (x != y ==> Queried(l, y) && y in l.seen)
    ensures CanMove(l, Do(Answer(x, l.seen[x]))) && next == After(l, Do(Answer(x, l.seen[x])))
    ensures next.chain == l.chain && next.handled == l.handled + l.seen[x]
    ensures next.sys.world == Events.HandleAll(l.sys.world, l.seen[x])
    ensures x != y ==> Queried(next, y) && y in next.seen && next.seen[y] == l.seen[y]
  {
    var evs := l.seen[x];
    next := After(l, Do(Answer(x, evs)));
    assert next.sys == Next(l.sys, Answer(x, evs));
    AnswerWorld(l.sys, x, evs);
    if x != y { OtherStillQueried(l, x, y, evs); }
  }

  lemma OverlapHarmlessExactly(handled: seq<Events.Event>, chain: seq<Events.Event>, more: seq<Events.Event>, from: nat)
    ensures handled + Events.Since(chain, from) + Events.Since(chain + more, from) == handled + Events.Since(chain + more, from)
      <==> Events.Since(chain, from) == []
  {
    var a, b := Events.Since(chain, from), Events.Since(chain + more, from);
    if handled + a + b == handled + b { assert |handled + a + b| == |handled + b|; }
    if a == [] { assert handled + a + b == handled + b; }
  }

  /**
   * What two overlapping scans do: both answers are handled, the second repeating the first. Each event counts
   * once exactly when the first scan found nothing.
   */
  lemma OverlapHandlesBoth(l: Linked, x: TaskId, y: TaskId, from: nat, more: seq<Events.Event>, height: nat)
      returns (ms: seq<Move>, end: Linked)
    requires Overlap(l, x, y, from) && CanMove(l, Grow(more, height))
    ensures Moves(l, ms, end) && end.chain == l.chain + more
    ensures end.handled == l.handled + Events.Since(l.chain, from) + Events.Since(l.chain + more, from)
    ensures end.handled == l.handled + Events.Since(end.chain, from) <==> Events.Since(l.chain, from) == []
    ensures end.sys.world ==
      Events.HandleAll(Events.HandleAll(l.sys.world, Events.Since(l.chain, from)), Events.Since(l.chain + more, from))
  {
    var a, b := Events.Since(l.chain, from), Events.Since(l.chain + more, from);
    OverlapHarmlessExactly(l.handled, l.chain, more, from);
    var l1 := After(l, Evaluate(x));
    var l2 := After(l1, Grow(more, height));
    var l3 := After(l2, Evaluate(y));
    var l4 := AnswerArrives(l3, x, y);
    end := AnswerArrives(l4, y, y);
    MoveFirst(l4, Do(Answer(y, b)), [], end);
    MoveFirst(l3, Do(Answer(x, a)), [Do(Answer(y, b))], end);
    MoveFirst(l2, Evaluate(y), [Do(Answer(x, a))] + [Do(Answer(y, b))], end);
    MoveFirst(l1, Grow(more, height), [Evaluate(y)] + ([Do(Answer(x, a))] + [Do(Answer(y, b))]), end);
    ms := [Evaluate(x)] + ([Grow(more, height)] + ([Evaluate(y)] + ([Do(Answer(x, a))] + [Do(Answer(y, b))])));
    MoveFirst(l, Evaluate(x), [Grow(more, height)] + ([Evaluate(y)] + ([Do(Answer(x, a))] + [Do(Answer(y, b))])), end);
  }

  // ---- reaching an overlap --------------------------------------------------------------------------------

  /** The two ways to scan outside the bundle mutex: a size setting of zero, and the debug call at any size. */
  predicate ScansOutside(maxMempoolSize: nat, origin: Origin) {
    (origin.Attempt? && maxMempoolSize == 0) || origin.DebugCall?
  }

  /** The size setting is left alone, and `sendBundleNow` is called only with debug calls switched on. */
  predicate Allowed(m: Move, debug: bool) {
    m.Do? ==> !m.action.SetAutoBundler? && (m.action.SendBundleNow? ==> debug)
  }

  /** Moreover nothing is mined and the live listener is silent. */
  predicate Plain(m: Move, debug: bool) {
    !m.Grow? && Allowed(m, debug) && (m.Do? ==> !m.action.Live?)
  }

  function Launch(origin: Origin, tid: TaskId): Action {
    if origin.DebugCall? then SendBundleNow(tid) else Fire(tid)
  }

  /** The world once the first scan has fixed its start, and once it is over. */
  function Opened(l: Linked): Events.World {
    l.sys.world.(tracker := l.sys.world.tracker.(lastBlock := Some(Events.StartBlock(l.height))))
  }

  function Found(l: Linked): seq<Events.Event> {
    Events.Since(l.chain, Events.StartBlock(l.height))
  }

  function Caught(l: Linked): Events.World {
    Events.HandleAll(Opened(l), Found(l))
  }

  /** One task, and nobody waiting for the execution mutex. */
  function Alone(l: Linked, origin: Origin, world: Events.World, phase: Phase, bundleQueue: seq<TaskId>): Sys {
    l.sys.(world := world, tasks := map[1 := Task(origin, phase)], bundleQueue := bundleQueue)
  }

  /** The scan outside the bundle mutex that follows an empty pass. */
  function OuterPhase(l: Linked): Phase {
    if l.sys.maxMempoolSize == 0 then Flushing(StartScan(Caught(l))) else Trailing(StartScan(Caught(l)))
  }

  /** After the first scan nothing is left to ask for, and no scan has to ask for the head again. */
  lemma CaughtUp(l: Linked) returns (from: nat)
    requires Started(l)
    ensures StartScan(Caught(l)) == AwaitingEvents(from) && from <= l.height + 1 && Events.Since(l.chain, from) == []
  {
    var start, found := Events.StartBlock(l.height), Found(l);
    Events.HandleAllMovesLastBlock(Opened(l), found);
    from := Caught(l).tracker.lastBlock.value;
    assert [] + found == found;
    Events.QueryKeepsAccounted(l.chain, l.height, start, start, []);
    Events.HandleKeepsAccounted(l.chain, l.height, start, start, [], found);
  }

  lemma {:induction false} EmptyPoolStaysEmpty(w: Events.World, evs: seq<Events.Event>)
    requires w.pool == Mempool.EMPTY
    ensures Events.HandleAll(w, evs).pool == Mempool.EMPTY
  {
    if evs != [] { EmptyPoolStaysEmpty(w, evs[..|evs| - 1]); }
  }

  /** The first task starts, takes the mutex, learns the head and sends its query. */
  lemma FirstAttemptQueries(l: Linked, origin: Origin) returns (ms: seq<Move>, end: Linked)
    requires Started(l) && !origin.Submission?
    ensures Moves(l, ms, end) && forall m :: m in ms ==> Plain(m, origin.DebugCall?)
    ensures end == l.(sys := Alone(l, origin, Opened(l), Polling(AwaitingEvents(Events.StartBlock(l.height))), [1]),
                      start := Some(Events.StartBlock(l.height)))
  {
    var l1 := After(l, Do(Launch(origin, 1)));
    var l2 := After(l1, Do(Acquire(1)));
    end := After(l2, Do(Head(1, l.height)));
    MoveFirst(l2, Do(Head(1, l.height)), [], end);
    MoveFirst(l1, Do(Acquire(1)), [Do(Head(1, l.height))], end);
    ms := [Do(Launch(origin, 1))] + ([Do(Acquire(1))] + [Do(Head(1, l.height))]);
    MoveFirst(l, Do(Launch(origin, 1)), [Do(Acquire(1))] + [Do(Head(1, l.height))], end);
  }

  /** What its scan finds is handled, and it is ready for its pass. */
  lemma FirstScanEnds(l: Linked, origin: Origin, q: Linked) returns (ms: seq<Move>, end: Linked)
    requires Started(l)
    requires q == l.(sys := Alone(l, origin, Opened(l), Polling(AwaitingEvents(Events.StartBlock(l.height))), [1]),
                     start := Some(Events.StartBlock(l.height)))
    ensures Moves(q, ms, end) && forall m :: m in ms ==> Plain(m, origin.DebugCall?)
    ensures end == q.(sys := Alone(l, origin, Caught(l), Polled, [1]), handled := Found(l))
  {
    var evs := Found(l);
    var q1 := After(q, Evaluate(1));
    assert q1.seen[1] == evs;
    end := After(q1, Do(Answer(1, evs)));
    assert [] + evs == evs;
    assert end.seen == map[];
    MoveFirst(q1, Do(Answer(1, evs)), [], end);
    ms := [Evaluate(1)] + [Do(Answer(1, evs))];
    MoveFirst(q, Evaluate(1), [Do(Answer(1, evs))], end);
  }

  /** Nothing is bundled: it releases the mutex and scans once more. */
  lemma FirstAttemptScansAgain(l: Linked, origin: Origin, q: Linked) returns (ms: seq<Move>, end: Linked)
    requires Started(l) && ScansOutside(l.sys.maxMempoolSize, origin)
    requires q.sys == Alone(l, origin, Caught(l), Polled, [1])
    ensures Moves(q, ms, end) && forall m :: m in ms ==> Plain(m, origin.DebugCall?)
    ensures end == q.(sys := Alone(l, origin, Caught(l), OuterPhase(l), []))
  {
    var begun := EmptyPass(l, origin, q);
    end := After(begun, Do(Close(1)));
    MoveFirst(begun, Do(Close(1)), [], end);
    ms := [Do(Begin(1))] + [Do(Close(1))];
    MoveFirst(q, Do(Begin(1)), [Do(Close(1))], end);
  }

  lemma EmptyPass(l: Linked, origin: Origin, q: Linked) returns (end: Linked)
    requires Started(l) && q.sys == Alone(l, origin, Caught(l), Polled, [1])
    ensures CanMove(q, Do(Begin(1))) && end == After(q, Do(Begin(1)))
    ensures 1 in end.sys.tasks && end == q.(sys := Alone(l, origin, Caught(l), end.sys.tasks[1].phase, [1]))
    ensures end.sys.tasks[1].phase.Looping? && Exhausted(end.sys.tasks[1].phase.pass)
    ensures end.sys.tasks[1].phase.pass.loop.acc.bundle == []
  {
    EmptyPoolStaysEmpty(Opened(l), Found(l));
    assert Mempool.GetSortedForInclusion(Mempool.EMPTY) == Ok([]);
    end := After(q, Do(Begin(1)));
  }

  /** A second task finds the mutex free and queries from the same block. */
  lemma SecondAttemptQueries(l: Linked, origin: Origin, q: Linked, from: nat) returns (ms: seq<Move>, end: Linked)
    requires Started(l) && ScansOutside(l.sys.maxMempoolSize, origin) && q.seen == map[]
    requires StartScan(Caught(l)) == AwaitingEvents(from)
    requires q.sys == Alone(l, origin, Caught(l), OuterPhase(l), [])
    ensures Moves(q, ms, end) && Overlap(end, 1, 2, from)
    ensures end == q.(sys := end.sys) && end.sys.world == Caught(l)
    ensures forall m :: m in ms ==> Plain(m, origin.DebugCall?)
  {
    var q1 := After(q, Do(Launch(origin, 2)));
    end := After(q1, Do(Acquire(2)));
    MoveFirst(q1, Do(Acquire(2)), [], end);
    ms := [Do(Launch(origin, 2))] + [Do(Acquire(2))];
    MoveFirst(q, Do(Launch(origin, 2)), [Do(Acquire(2))], end);
  }

  /**
   * In each of the two ways two scans from the same block can be outstanding, within a handful of steps of any
   * start, the size setting staying what it was.
   */
  lemma OverlapReachable(l: Linked, origin: Origin) returns (ms: seq<Move>, end: Linked, from: nat)
    requires Started(l) && ScansOutside(l.sys.maxMempoolSize, origin)
    ensures Moves(l, ms, end) && Overlap(end, 1, 2, from)
    ensures forall m :: m in ms ==> Plain(m, origin.DebugCall?)
    ensures end.chain == l.chain && end.height == l.height && end.handled == Found(l) && end.sys.world == Caught(l)
    ensures from <= l.height + 1 && Events.Since(l.chain, from) == []
  {
    from := CaughtUp(l);
    var xs, a := FirstAttemptQueries(l, origin);
    var ys, b := FirstScanEnds(l, origin, a);
    var zs, c := FirstAttemptScansAgain(l, origin, b);
    var us;
    us, end := SecondAttemptQueries(l, origin, c, from);
    MovesThen(l, xs, a, ys, b);
    MovesThen(l, xs + ys, b, zs, c);
    MovesThen(l, (xs + ys) + zs, c, us, end);
    ms := ((xs + ys) + zs) + us;
  }

  ghost predicate Overlaps(l: Linked, debug: bool, ms: seq<Move>, end: Linked) {
    && Moves(l, ms, end) && (forall m :: m in ms ==> Allowed(m, debug))
    && exists x, y, from :: Overlap(end, x, y, from)
  }

  lemma {:induction false} MovesStayGuarded(l: Linked, ms: seq<Move>, end: Linked)
    requires Inv(l.sys) && Guarded(l.sys) && Moves(l, ms, end) && forall m :: m in ms && m.Do? ==> Serial(m.action)
    ensures Inv(end.sys) && Guarded(end.sys)
    decreases |ms|
  {
    if ms != [] {
      var next := MovesSplit(l, ms, end);
      if ms[0].Do? {
        StepKeepsInv(l.sys, ms[0].action);
        StepKeepsGuarded(l.sys, ms[0].action);
      }
      MovesStayGuarded(next, ms[1..], end);
    }
  }

  /** Two scans can overlap if and only if the size setting is zero or `sendBundleNow` may be called. */
  lemma OverlapPossibleExactly(l: Linked, debug: bool)
    requires Started(l)
    ensures (exists ms, end :: Overlaps(l, debug, ms, end)) <==> l.sys.maxMempoolSize == 0 || debug
  {
    if l.sys.maxMempoolSize == 0 || debug {
      var ms, end, from := OverlapReachable(l, if debug then DebugCall else Attempt);
      assert Overlaps(l, debug, ms, end);
    } else if ms, end :| Overlaps(l, debug, ms, end) {
      MovesStayGuarded(l, ms, end);
      var x, y, from :| Overlap(end, x, y, from);
      Holder(end.sys, x);
      Holder(end.sys, y);
    }
  }

  lemma SinceExtended(chain: seq<Events.Event>, ev: Events.Event, from: nat)
    requires ev.block >= from && Events.Since(chain, from) == []
    ensures Events.Since(chain + [ev], from) == [ev]
  {
    Events.SinceGrows(chain, [ev], from);
  }

  /** And then, in each of the two ways, one event on the chain is handled twice and its sender credited twice. */
  lemma EventHandledTwice(l: Linked, origin: Origin, ev: Events.Event) returns (ms: seq<Move>, end: Linked)
    requires Started(l) && ScansOutside(l.sys.maxMempoolSize, origin)
    requires ev.block == l.height + 1 && forall c :: c in l.chain ==> c.tx != ev.tx
    requires ev.UserOperationEvent? && ev.sender != ev.paymaster
    ensures Moves(l, ms, end) && end.chain == l.chain + [ev] && end.handled == Found(l) + [ev, ev]
    ensures Events.IncludedCount(end.sys.world.rep, ev.sender) == Events.IncludedCount(Caught(l).rep, ev.sender) + 2
  {
    var xs, mid, from := OverlapReachable(l, origin);
    var ys;
    ys, end := OverlapRepeats(mid, from, ev);
    MovesThen(l, xs, mid, ys, end);
    ms := xs + ys;
    Events.SinceMembers(l.chain, Events.StartBlock(l.height));
    Events.OtherTransactionsLeaveNothing(Opened(l), Found(l), ev.tx);
    Events.HandledTwiceCreditsTwice(Caught(l), ev);
  }

  /** An event mined while two scans from the same block wait is in both answers. */
  lemma OverlapRepeats(mid: Linked, from: nat, ev: Events.Event) returns (ms: seq<Move>, end: Linked)
    requires Overlap(mid, 1, 2, from) && Events.Since(mid.chain, from) == [] && from <= ev.block == mid.height + 1
    ensures Moves(mid, ms, end) && end.chain == mid.chain + [ev] && end.handled == mid.handled + [ev, ev]
    ensures end.sys.world == Events.HandleAll(Events.HandleAll(mid.sys.world, [ev]), [ev])
  {
    var grown := OverlapGrows(mid, from, ev);
    var ys;
    ys, end := BothAnswered(grown, from, ev);
    MoveFirst(mid, Grow([ev], ev.block), ys, end);
    ms := [Grow([ev], ev.block)] + ys;
  }

  lemma BothAnswered(l: Linked, from: nat, ev: Events.Event) returns (ms: seq<Move>, end: Linked)
    requires Overlap(l, 1, 2, from) && Events.Since(l.chain, from) == [ev]
    ensures Moves(l, ms, end) && end.chain == l.chain && end.handled == l.handled + [ev, ev]
    ensures end.sys.world == Events.HandleAll(Events.HandleAll(l.sys.world, [ev]), [ev])
  {
    assert l.chain + [] == l.chain;
    ms, end := OverlapHandlesBoth(l, 1, 2, from, [], l.height);
    assert l.handled + [ev] + [ev] == l.handled + [ev, ev];
  }

  lemma OverlapGrows(mid: Linked, from: nat, ev: Events.Event) returns (grown: Linked)
    requires Overlap(mid, 1, 2, from) && ev.block == mid.height + 1
    ensures CanMove(mid, Grow([ev], ev.block)) && grown == After(mid, Grow([ev], ev.block))
    requires from <= ev.block && Events.Since(mid.chain, from) == []
    ensures grown == mid.(chain := mid.chain + [ev], height := ev.block) && Overlap(grown, 1, 2, from)
    ensures Events.Since(grown.chain, from) == [ev]
  {
    SinceExtended(mid.chain, ev, from);
    grown := After(mid, Grow([ev], ev.block));
  }
}
