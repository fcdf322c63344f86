/** The live listener beside the scans: which events are then handled never, once or twice. */
module LiveRuns {
  import opened Common
  import opened Execution
  import opened ExecutionRuns
  import opened ScanRuns
  import Events

  function Times(evs: seq<Events.Event>, x: Events.Event): nat {
    multiset(evs)[x]
  }

  lemma {:induction false} TimesSince(evs: seq<Events.Event>, from: nat, x: Events.Event)
    ensures Times(Events.Since(evs, from), x) == if x.block >= from then Times(evs, x) else 0
  {
    if evs != [] {
      TimesSince(evs[..|evs| - 1], from, x);
      assert evs == evs[..|evs| - 1] + [evs[|evs| - 1]];
    }
  }

  /** What the next scan would handle, if nothing else happened before it. */
  function Ahead(l: Linked): seq<Events.Event> {
    match l.sys.world.tracker.lastBlock
    case None => []
    case Some(last) => Events.Since(l.chain, last)
  }

  /** How often `x` has been handled, or is to be by the next scan. */
  function Counted(l: Linked, x: Events.Event): nat {
    Times(l.handled, x) + Times(Ahead(l), x)
  }

  ghost predicate NobodyScans(s: Sys) {
    forall tid :: tid in s.tasks ==> !Scans(s.tasks[tid].phase)
  }

  /** Every live delivery of the run comes between scans. */
  ghost predicate LiveBetweenScans(l: Linked, ms: seq<Move>)
    decreases |ms|
  {
    ms == [] ||
    (&& CanMove(l, ms[0]) && (ms[0].Do? && ms[0].action.Live? ==> NobodyScans(l.sys))
     && LiveBetweenScans(After(l, ms[0]), ms[1..]))
  }

  /**
   * What a move adds to the count of `x`: new blocks add what they hold; the first head adds the chain from the
   * start block on; a live delivery adds itself, and moves the place of the next scan behind its own block, so
   * that it gives up everything between the old place and the new, or repeats it.
   */
  ghost function Gain(l: Linked, m: Move, x: Events.Event): int
    requires CanMove(l, m)
  {
    var last := l.sys.world.tracker.lastBlock;
    match m
    case Grow(evs, _) => if last.Some? then Times(evs, x) else 0
    case Do(Head(_, head)) => if last.None? && x.block >= Events.StartBlock(head) then Times(l.chain, x) else 0
    case Do(Live(e)) =>
      (if x == e then 1 else 0)
      + (if x.block > e.block then Times(l.chain, x) else 0)
      - (if last.Some? && x.block >= last.value then Times(l.chain, x) else 0)
    case _ => 0
  }

  ghost function Gains(l: Linked, ms: seq<Move>, x: Events.Event): int
    requires LiveBetweenScans(l, ms)
    decreases |ms|
  {
    if ms == [] then 0 else Gain(l, ms[0], x) + Gains(After(l, ms[0]), ms[1..], x)
  }

  /** The same state with its record of handled events begun afresh, from a start block of its own. */
  function Rebased(l: Linked, start: Option<nat>, handled: seq<Events.Event>): Linked {
    l.(start := start, handled := handled)
  }

  lemma GrowGain(l: Linked, evs: seq<Events.Event>, height: nat, x: Events.Event)
    requires CanMove(l, Grow(evs, height))
    requires l.sys.world.tracker.lastBlock.Some? ==> l.sys.world.tracker.lastBlock.value <= l.height + 1
    ensures Counted(After(l, Grow(evs, height)), x) == Counted(l, x) + Gain(l, Grow(evs, height), x)
  {
    var last := l.sys.world.tracker.lastBlock;
    if last.Some? { Events.SinceGrows(l.chain, evs, last.value); }
  }

  lemma HeadGain(l: Linked, tid: TaskId, head: nat, x: Events.Event)
    requires CanMove(l, Do(Head(tid, head))) && l.sys.world.tracker.lastBlock.None?
    ensures Counted(After(l, Do(Head(tid, head))), x) == Counted(l, x) + Gain(l, Do(Head(tid, head)), x)
  {
    TimesSince(l.chain, Events.StartBlock(head), x);
  }

  /** Handling an answer moves its events from what is to come to what is done, and nothing else. */
  lemma AnswerMovesCounts(chain: seq<Events.Event>, height: nat, start: nat, last: nat, handled: seq<Events.Event>,
                          p: seq<Events.Event>, x: Events.Event)
    requires Events.Accounted(chain, height, start, last, handled, Some(p))
    ensures var next := if p == [] then last else p[|p| - 1].block + 1;
      Times(p, x) + Times(Events.Since(chain, next), x) == Times(Events.Since(chain, last), x)
  {
    var next := if p == [] then last else p[|p| - 1].block + 1;
    Events.HandleKeepsAccounted(chain, height, start, last, handled, p);
    var before, after := handled + Events.Since(chain, last), (handled + p) + Events.Since(chain, next);
    assert before == after;
    assert multiset(before)[x] == Times(handled, x) + Times(Events.Since(chain, last), x);
    assert multiset(after)[x] == Times(handled, x) + Times(p, x) + Times(Events.Since(chain, next), x);
  }

  /** The place of the scans once an answer has been handled. */
  lemma AnswerPlace(w: Events.World, last: nat, p: seq<Events.Event>)
    requires w.tracker.lastBlock == Some(last) || p != []
    ensures Events.HandleAll(w, p).tracker.lastBlock == Some(if p == [] then last else p[|p| - 1].block + 1)
  {
    Events.HandleAllMovesLastBlock(w, p);
  }

  /** An answer only moves events from what is to come to what is handled. */
  lemma AnswerGain(l: Linked, start: Option<nat>, handled: seq<Events.Event>, tid: TaskId, x: Events.Event)
    requires tid in l.seen && Queried(l, tid) && AccountedWith(Rebased(l, start, handled), Some(l.seen[tid]))
    requires CanMove(l, Do(Answer(tid, l.seen[tid])))
    ensures Counted(After(l, Do(Answer(tid, l.seen[tid]))), x) == Counted(l, x)
  {
    var after := AnswerArrives(l, tid, tid);
    AnsweredCount(l, start, handled, tid, after, x);
  }

  lemma AnsweredCount(l: Linked, start: Option<nat>, handled: seq<Events.Event>, tid: TaskId, after: Linked, x: Events.Event)
    requires tid in l.seen && AccountedWith(Rebased(l, start, handled), Some(l.seen[tid]))
    requires after.chain == l.chain && after.handled == l.handled + l.seen[tid]
    requires after.sys.world == Events.HandleAll(l.sys.world, l.seen[tid])
    ensures Counted(after, x) == Counted(l, x)
  {
    var p, last := l.seen[tid], l.sys.world.tracker.lastBlock.value;
    AnswerPlace(l.sys.world, last, p);
    AnswerMovesCounts(l.chain, l.height, start.value, last, handled, p, x);
    assert multiset(l.handled + p)[x] == multiset(l.handled)[x] + multiset(p)[x];
  }

  lemma LiveAfter(l: Linked, e: Events.Event)
    requires CanMove(l, Do(Live(e)))
    ensures After(l, Do(Live(e))) ==
      l.(sys := l.sys.(world := Events.HandleEvent(l.sys.world, e)), handled := l.handled + [e])
  {
  }

  lemma LiveGain(l: Linked, e: Events.Event, x: Events.Event)
    requires CanMove(l, Do(Live(e)))
    ensures Counted(After(l, Do(Live(e))), x) == Counted(l, x) + Gain(l, Do(Live(e)), x)
  {
    LiveAfter(l, e);
    TimesSince(l.chain, e.block + 1, x);
    if l.sys.world.tracker.lastBlock.Some? { TimesSince(l.chain, l.sys.world.tracker.lastBlock.value, x); }
  }

  lemma SilentGain(l: Linked, a: Action, x: Events.Event)
    requires CanMove(l, Do(a)) && (Silent(a) || a.Throw?)
    ensures Counted(After(l, Do(a)), x) == Counted(l, x)
  {
    TrackerKept(l.sys, a);
    assert After(l, Do(a)).chain == l.chain && After(l, Do(a)).handled == l.handled;
  }

  /** The next scan begins behind the delivered event. */
  lemma LiveRestarts(l: Linked, start: Option<nat>, handled: seq<Events.Event>, e: Events.Event)
    requires LinkOk(Rebased(l, start, handled)) && CanMove(l, Do(Live(e))) && NobodyScans(l.sys)
    ensures LinkOk(Rebased(After(l, Do(Live(e))), Some(e.block + 1), []))
  {
    var after := Rebased(After(l, Do(Live(e))), Some(e.block + 1), []);
    StepKeepsInv(l.sys, Live(e));
    StepKeepsGuarded(l.sys, Live(e));
    ChainOrdered(Rebased(l, start, handled));
    assert forall x :: x in l.seen ==> Queried(Rebased(l, start, handled), x);
    assert after.seen == map[];
    assert [] + Events.Since(after.chain, e.block + 1) == Events.Since(after.chain, e.block + 1);
    assert AccountedWith(after, None);
  }

  lemma RebasedMove(l: Linked, start: Option<nat>, handled: seq<Events.Event>, m: Move)
    requires CanMove(l, m)
    ensures CanMove(Rebased(l, start, handled), m)
    ensures var after := After(Rebased(l, start, handled), m);
      after == Rebased(After(l, m), after.start, after.handled)
  {
  }

  lemma GainOfMove(l: Linked, start: Option<nat>, handled: seq<Events.Event>, m: Move, x: Events.Event)
    requires LinkOk(Rebased(l, start, handled)) && CanMove(l, m)
    ensures Counted(After(l, m), x) == Counted(l, x) + Gain(l, m, x)
  {
    var r := Rebased(l, start, handled);
    match m
    case Grow(evs, height) =>
      if l.sys.world.tracker.lastBlock.Some? { HeightBoundsLast(r); }
      GrowGain(l, evs, height, x);
    case Evaluate(_) =>
    case Do(Head(tid, head)) =>
      assert r.sys.tasks[tid].phase.scan == StartScan(r.sys.world);
      HeadGain(l, tid, head, x);
    case Do(Answer(tid, _)) =>
      assert Queried(r, tid) && AccountedWith(r, Some(r.seen[tid]));
      AnswerGain(l, start, handled, tid, x);
    case Do(Live(e)) => LiveGain(l, e, x);
    case Do(a) => SilentGain(l, a, x);
  }

  /** A move keeps the scans accounted for, each live delivery beginning the account afresh. */
  lemma MoveStaysAccounted(l: Linked, start: Option<nat>, handled: seq<Events.Event>, m: Move)
      returns (start': Option<nat>, handled': seq<Events.Event>)
    requires LinkOk(Rebased(l, start, handled)) && CanMove(l, m) && Ordered(m)
    requires m.Do? && m.action.Live? ==> NobodyScans(l.sys)
    ensures LinkOk(Rebased(After(l, m), start', handled'))
  {
    if m.Do? && m.action.Live? {
      start', handled' := Some(m.action.event.block + 1), [];
      LiveRestarts(l, start, handled, m.action.event);
    } else {
      RebasedMove(l, start, handled, m);
      MoveKeepsLinkOk(Rebased(l, start, handled), m);
      var after := After(Rebased(l, start, handled), m);
      start', handled' := after.start, after.handled;
    }
  }

  lemma {:induction false} GainsHold(l: Linked, start: Option<nat>, handled: seq<Events.Event>, ms: seq<Move>, end: Linked,
                                     x: Events.Event)
    requires LinkOk(Rebased(l, start, handled)) && Moves(l, ms, end) && LiveBetweenScans(l, ms)
    requires forall m :: m in ms ==> Ordered(m)
    ensures Counted(end, x) == Counted(l, x) + Gains(l, ms, x)
    decreases |ms|
  {
    if ms != [] {
      var next := MovesSplit(l, ms, end);
      GainOfMove(l, start, handled, ms[0], x);
      var start', handled' := MoveStaysAccounted(l, start, handled, ms[0]);
      GainsHold(next, start', handled', ms[1..], end, x);
    }
  }

  /**
   * In every run, with any number of live deliveries between the scans: how often an event has been handled, or is
   * to be by the next scan, is the sum of what the moves gain for it.
   */
  lemma LiveDeliveriesAccounted(l: Linked, ms: seq<Move>, end: Linked, x: Events.Event)
    requires Started(l) && l.sys.maxMempoolSize != 0 && Moves(l, ms, end) && LiveBetweenScans(l, ms)
    requires forall m :: m in ms ==> Ordered(m)
    ensures Times(end.handled, x) + Times(Ahead(end), x) == Gains(l, ms, x)
  {
    assert LinkOk(l) && Rebased(l, None, []) == l;
    GainsHold(l, None, [], ms, end, x);
  }

  // ---- one delivery ---------------------------------------------------------------------------------------

  lemma LastBlockStays(s: Sys, a: Action)
    requires Enabled(s, a) && s.world.tracker.lastBlock.Some?
    ensures Next(s, a).world.tracker.lastBlock.Some?
  {
    match a
    case Answer(tid, evs) =>
      AnswerWorld(s, tid, evs);
      Events.HandleAllMovesLastBlock(s.world, evs);
    case Head(_, _) =>
    case Live(_) =>
    case _ => TrackerKept(s, a);
  }

  /** Without live deliveries the count grows with the chain only. */
  lemma {:induction false} TameGains(l: Linked, ms: seq<Move>, end: Linked, x: Events.Event)
    requires Moves(l, ms, end) && l.sys.world.tracker.lastBlock.Some? && forall m :: m in ms ==> Tame(m)
    ensures LiveBetweenScans(l, ms) && Gains(l, ms, x) == Times(end.chain, x) - Times(l.chain, x)
    ensures l.height <= end.height
    ensures x.block <= l.height ==> Times(end.chain, x) == Times(l.chain, x)
    decreases |ms|
  {
    if ms != [] {
      var next := MovesSplit(l, ms, end);
      assert Tame(ms[0]);
      if ms[0].Do? { LastBlockStays(l.sys, ms[0].action); }
      if ms[0].Grow? && x.block <= l.height { assert x !in ms[0].events; }
      TameGains(next, ms[1..], end, x);
    }
  }

  /**
   * One live delivery, of `e`, between scans that have come as far as block `last`: an event before `last` counts
   * once for the scans so far, `e` once for its delivery, and everything after the block of `e` once for the scans
   * to come. So an event is never handled if it lies from `last` to the block of `e` and is not `e` itself, and
   * twice if it is `e` and lies before `last`, or lies between the block of `e` and `last`.
   */
  lemma OneDelivery(l: Linked, xs: seq<Move>, mid: Linked, e: Events.Event, ys: seq<Move>, end: Linked, x: Events.Event)
    requires Started(l) && l.sys.maxMempoolSize != 0
    requires Moves(l, xs, mid) && forall m :: m in xs ==> Tame(m)
    requires NobodyScans(mid.sys) && mid.sys.world.tracker.lastBlock.Some? && CanMove(mid, Do(Live(e)))
    requires Moves(After(mid, Do(Live(e))), ys, end) && forall m :: m in ys ==> Tame(m)
    requires mid.start.Some? ==> x.block >= mid.start.value
    ensures var last, once := mid.sys.world.tracker.lastBlock.value, Times(end.chain, x);
      && Times(end.handled, x) + Times(Ahead(end), x) ==
         (if x.block < last then once else 0) + (if x == e then 1 else 0) + (if x.block > e.block then once else 0)
      && (once == 1 ==>
           && (Times(end.handled, x) + Times(Ahead(end), x) == 0 <==> last <= x.block <= e.block && x != e)
           && (Times(end.handled, x) + Times(Ahead(end), x) == 2 <==>
                (x == e && x.block < last) || e.block < x.block < last))
  {
    var last := mid.sys.world.tracker.lastBlock.value;
    HandledSoFar(l, xs, mid, x);
    LiveGain(mid, e, x);
    TimesSince(mid.chain, last, x);
    AfterDelivery(mid, e, ys, end, x);
  }

  /** Once the delivery is made, the count grows with the chain only. */
  lemma AfterDelivery(mid: Linked, e: Events.Event, ys: seq<Move>, end: Linked, x: Events.Event)
    requires LinkOk(Rebased(mid, mid.start, mid.handled)) && NobodyScans(mid.sys) && CanMove(mid, Do(Live(e)))
    requires Moves(After(mid, Do(Live(e))), ys, end) && forall m :: m in ys ==> Tame(m)
    ensures Counted(end, x) == Counted(After(mid, Do(Live(e))), x) + Times(end.chain, x) - Times(mid.chain, x)
    ensures x.block <= mid.height ==> Times(end.chain, x) == Times(mid.chain, x)
  {
    LiveAfter(mid, e);
    LiveRestarts(mid, mid.start, mid.handled, e);
    TameGains(After(mid, Do(Live(e))), ys, end, x);
    GainsHold(After(mid, Do(Live(e))), Some(e.block + 1), [], ys, end, x);
  }

  lemma HandledSoFar(l: Linked, xs: seq<Move>, mid: Linked, x: Events.Event)
    requires Started(l) && l.sys.maxMempoolSize != 0 && Moves(l, xs, mid) && forall m :: m in xs ==> Tame(m)
    requires mid.sys.world.tracker.lastBlock.Some?
    ensures mid.start.Some? && LinkOk(Rebased(mid, mid.start, mid.handled))
    ensures mid.sys.world.tracker.lastBlock.value <= mid.height + 1
    ensures x.block >= mid.start.value ==>
      Times(mid.handled, x) == if x.block < mid.sys.world.tracker.lastBlock.value then Times(mid.chain, x) else 0
  {
    var last := mid.sys.world.tracker.lastBlock.value;
    assert LinkOk(l);
    LinkHolds(l, xs, mid);
    assert Rebased(mid, mid.start, mid.handled) == mid;
    HeightBoundsLast(mid);
    MachineHandlesOnceInOrder(l, xs, mid);
    TimesSince(mid.chain, last, x);
    TimesSince(mid.chain, mid.start.value, x);
    assert multiset(mid.handled + Events.Since(mid.chain, last))[x] == Times(mid.handled, x) + Times(Events.Since(mid.chain, last), x);
  }

  /** A delivery while an answer with events is on its way costs nothing and counts once more. */
  lemma DeliveredWhileAnswering(l: Linked, tid: TaskId, e: Events.Event, x: Events.Event)
    requires SeenOk(l) && tid in l.seen && l.seen[tid] != [] && CanMove(l, Do(Live(e)))
    ensures var next := After(l, Do(Live(e)));
      && CanMove(next, Do(Answer(tid, l.seen[tid])))
      && Counted(After(next, Do(Answer(tid, l.seen[tid]))), x) == Counted(l, x) + (if x == e then 1 else 0)
  {
    var p := l.seen[tid];
    assert Queried(l, tid) && AccountedWith(l, Some(p));
    LiveAfter(l, e);
    var next := After(l, Do(Live(e)));
    var end := AnswerArrives(next, tid, tid);
    var last := l.sys.world.tracker.lastBlock.value;
    AnswerPlace(next.sys.world, last, p);
    AnswerMovesCounts(l.chain, l.height, l.start.value, last, l.handled, p, x);
    HandledWithLive(l.handled, e, p, x);
  }

  lemma HandledWithLive(handled: seq<Events.Event>, e: Events.Event, p: seq<Events.Event>, x: Events.Event)
    ensures Times(handled + [e] + p, x) == Times(handled, x) + (if x == e then 1 else 0) + Times(p, x)
  {
  }

  // ---- a deployment that is never credited ----------------------------------------------------------------

  /** The first scan is over and found everything there was. */
  lemma FirstScanOver(l: Linked) returns (ms: seq<Move>, end: Linked)
    requires Started(l)
    ensures Moves(l, ms, end) && forall m :: m in ms ==> Tame(m)
    ensures NobodyScans(end.sys) && end.sys.world.tracker.lastBlock.Some? && end.seen == map[]
    ensures end.chain == l.chain && end.height == l.height && end.start == Some(Events.StartBlock(l.height))
    ensures end.handled == Found(l) && end.sys.world == Caught(l)
    ensures StartScan(end.sys.world).AwaitingEvents? && StartScan(end.sys.world).from <= l.height + 1
  {
    var xs, a := FirstAttemptQueries(l, Attempt);
    var ys;
    ys, end := FirstScanEnds(l, Attempt, a);
    MovesThen(l, xs, a, ys, end);
    ms := xs + ys;
    var from := CaughtUp(l);
    assert forall m :: m in ms ==> Plain(m, false);
  }

  /** A deployment and its operation, mined in one block and announced in that order. */
  predicate Deployment(height: nat, dep: Events.Event, op: Events.Event) {
    dep.AccountDeployed? && op.UserOperationEvent? && dep.block == op.block == height + 1
  }

  lemma BlockMined(q: Linked, dep: Events.Event, op: Events.Event) returns (mid: Linked)
    requires Deployment(q.height, dep, op) && NobodyScans(q.sys) && dep !in q.chain
    ensures CanMove(q, Grow([dep, op], dep.block)) && mid == After(q, Grow([dep, op], dep.block))
    ensures Tame(Grow([dep, op], dep.block))
    ensures mid == q.(chain := q.chain + [dep, op], height := dep.block)
    ensures NobodyScans(mid.sys) && CanMove(mid, Do(Live(op))) && Times(mid.chain, dep) == 1
  {
    mid := After(q, Grow([dep, op], dep.block));
    assert mid.chain[|q.chain| + 1] == op;
    assert multiset(q.chain + [dep, op]) == multiset(q.chain) + multiset([dep, op]);
  }

  /**
   * Reachable from any start: an operation that deploys its account is delivered live before a scan has fetched its
   * block. The AccountDeployed event of that block is then handled in no continuation without further deliveries,
   * and the factory is not credited.
   */
  lemma DeploymentNeverHandled(l: Linked, dep: Events.Event, op: Events.Event) returns (ms: seq<Move>, delivered: Linked)
    requires Started(l) && l.sys.maxMempoolSize != 0 && Deployment(l.height, dep, op)
    ensures Moves(l, ms, delivered) && delivered.chain == l.chain + [dep, op] && delivered.handled == Found(l) + [op]
    ensures forall ys, end :: Moves(delivered, ys, end) && (forall m :: m in ys ==> Tame(m)) ==>
      dep in end.chain && dep !in end.handled
  {
    var xs, q := FirstScanOver(l);
    var mid := BlockMined(q, dep, op);
    delivered := After(mid, Do(Live(op)));
    MoveFirst(q, Grow([dep, op], dep.block), [], mid);
    MovesThen(l, xs, q, [Grow([dep, op], dep.block)], mid);
    var before := xs + [Grow([dep, op], dep.block)];
    MoveFirst(mid, Do(Live(op)), [], delivered);
    MovesThen(l, before, mid, [Do(Live(op))], delivered);
    ms := before + [Do(Live(op))];
    forall ys, end | Moves(delivered, ys, end) && forall m :: m in ys ==> Tame(m)
      ensures dep in end.chain && dep !in end.handled
    {
      NeverHandled(l, before, mid, dep, op, ys, end);
    }
  }

  lemma NeverHandled(l: Linked, xs: seq<Move>, mid: Linked, dep: Events.Event, op: Events.Event, ys: seq<Move>, end: Linked)
    requires Started(l) && l.sys.maxMempoolSize != 0
    requires Moves(l, xs, mid) && forall m :: m in xs ==> Tame(m)
    requires NobodyScans(mid.sys) && CanMove(mid, Do(Live(op))) && dep != op && dep.block == op.block
    requires StartScan(mid.sys.world).AwaitingEvents? && StartScan(mid.sys.world).from <= dep.block
    requires mid.start.Some? && mid.start.value <= dep.block && Times(mid.chain, dep) == 1
    requires Moves(After(mid, Do(Live(op))), ys, end) && forall m :: m in ys ==> Tame(m)
    ensures dep in end.chain && dep !in end.handled
  {
    TameGains(After(mid, Do(Live(op))), ys, end, dep);
    ChainBounded(l, xs, mid);
    assert dep.block <= mid.height;
    OneDelivery(l, xs, mid, op, ys, end, dep);
  }

  lemma ChainBounded(l: Linked, xs: seq<Move>, mid: Linked)
    requires Started(l) && l.sys.maxMempoolSize != 0 && Moves(l, xs, mid) && forall m :: m in xs ==> Tame(m)
    ensures forall ev :: ev in mid.chain ==> ev.block <= mid.height
  {
    assert LinkOk(l);
    LinkHolds(l, xs, mid);
    ChainOrdered(mid);
  }
}
