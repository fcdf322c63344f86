/** The interleaved machine refines to the uninterrupted calls when one task runs alone. */
module ExecutionAlone {
  import opened Common
  import opened Mempool
  import opened Bundle
  import opened Execution
  import Events
  import Rep = Reputation
  import Calls = ExecutionManagers

  ghost predicate OnlyBy(actions: seq<Action>, tid: TaskId) {
    forall a :: a in actions ==> Actor(a) == Some(tid)
  }

  lemma {:induction false} RunThen(s: Sys, xs: seq<Action>, mid: Sys, ys: seq<Action>, end: Sys)
    requires Run(s, xs, mid) && Run(mid, ys, end)
    ensures Run(s, xs + ys, end)
    decreases |xs|
  {
    if xs == [] {
      assert xs + ys == ys;
    } else {
      assert (xs + ys)[1..] == xs[1..] + ys;
      RunThen(Next(s, xs[0]), xs[1..], mid, ys, end);
    }
  }

  lemma RunFirst(s: Sys, a: Action, rest: seq<Action>, end: Sys)
    requires Enabled(s, a) && Run(Next(s, a), rest, end)
    ensures Run(s, [a] + rest, end)
  {
    assert ([a] + rest)[1..] == rest;
  }

  /** Only the world and the phases have changed. */
  predicate SameShell(s: Sys, t: Sys) {
    t == s.(world := t.world, tasks := t.tasks)
  }

  /** The loop is at the same point of the same snapshot; the logs may record early visits differently. */
  predicate SamePlace(pass: BundlePass, loop: Loop) {
    |pass.loop.log| <= |pass.snapshot| && pass.loop.acc == loop.acc && pass.loop.cut == loop.cut
  }

  function RestOfPass(s: Sys, pass: BundlePass, loop: Loop, chain: Chain): Progress
    requires |pass.loop.log| <= |pass.snapshot|
  {
    PassFrom(pass.snapshot, |pass.loop.log|, Progress(loop, s.world.pool), Look(s.world.rep, chain), pass.known, s.config)
  }

  /** Whatever an early decision observes beyond the two statuses, the accumulators and the pool come out the same. */
  lemma EarlyVisit(acc: Acc, e: Entry, o: Observed, seen: Observed, known: set<Address>, config: Config)
    requires EarlyFate(acc, e, o.paymasterStatus, o.factoryStatus).Some?
    requires seen.paymasterStatus == o.paymasterStatus && seen.factoryStatus == o.factoryStatus
    ensures var f, g := FateOf(acc, e, o, known, config), FateOf(acc, e, seen, known, config);
      f == g && !f.OverGas? && !f.Included? && !f.UnderfundedPaymaster?
      && Absorb(acc, e, o, f, config) == acc && Absorb(acc, e, seen, g, config) == acc
  {
  }

  /** One iteration of the machine, from check to absorption, is one visit of the uninterrupted pass. */
  lemma IterateAlone(s: Sys, tid: TaskId, pass: BundlePass, chain: Chain, loop: Loop) returns (actions: seq<Action>, end: Sys)
    requires tid in s.tasks && s.tasks[tid].phase == Looping(pass) && SamePlace(pass, loop) && !Exhausted(pass)
    ensures Run(s, actions, end) && OnlyBy(actions, tid) && SameShell(s, end)
    ensures tid in end.tasks && end.tasks[tid].origin == s.tasks[tid].origin && end.tasks[tid].phase.Looping?
    ensures var e := NextEntry(pass);
      var next := VisitEntry(loop, e, Look(s.world.rep, chain)(e), pass.known, s.config);
      var after := end.tasks[tid].phase.pass;
      && after.snapshot == pass.snapshot && after.known == pass.known && |after.loop.log| == |pass.loop.log| + 1
      && SamePlace(after, next)
      && end.world == s.world.(pool := PoolAfter(s.world.pool, e, next.log[|next.log| - 1].fate))
  {
    var e := NextEntry(pass);
    var o := Look(s.world.rep, chain)(e);
    var first := Consider(tid);
    var mid := Next(s, first);
    assert mid == ConsiderNext(s, tid, pass);
    if EarlyFate(pass.loop.acc, e, o.paymasterStatus, o.factoryStatus).Some? {
      EarlyVisit(pass.loop.acc, e, o, Observed(o.paymasterStatus, o.factoryStatus, None, 0, 0), pass.known, s.config);
      actions, end := [first], mid;
      RunFirst(s, first, [], mid);
    } else {
      assert mid.tasks[tid].phase == Validating(pass, o.paymasterStatus, o.factoryStatus);
      var second := Resolve(tid, o.validation, o.balance, o.storageHash);
      end := Next(mid, second);
      assert end == Complete(mid, tid, pass, o);
      RunFirst(mid, second, [], end);
      actions := [first] + [second];
      RunFirst(s, first, [second], end);
    }
  }

  lemma {:induction false} LoopAlone(s: Sys, tid: TaskId, pass: BundlePass, chain: Chain, loop: Loop)
      returns (actions: seq<Action>, end: Sys)
    requires tid in s.tasks && s.tasks[tid].phase == Looping(pass) && SamePlace(pass, loop)
    ensures Run(s, actions, end) && OnlyBy(actions, tid) && SameShell(s, end)
    ensures tid in end.tasks && end.tasks[tid].origin == s.tasks[tid].origin && end.tasks[tid].phase.Looping?
    ensures var rest := RestOfPass(s, pass, loop, chain);
      && Exhausted(end.tasks[tid].phase.pass)
      && end.tasks[tid].phase.pass.loop.acc == rest.loop.acc
      && end.world == s.world.(pool := rest.pool)
    decreases |pass.snapshot| - |pass.loop.log|
  {
    if Exhausted(pass) {
      actions, end := [], s;
    } else {
      var head, mid := IterateAlone(s, tid, pass, chain, loop);
      var e := NextEntry(pass);
      var next := VisitEntry(loop, e, Look(s.world.rep, chain)(e), pass.known, s.config);
      var tail;
      tail, end := LoopAlone(mid, tid, mid.tasks[tid].phase.pass, chain, next);
      RunThen(s, head, mid, tail, end);
      actions := head + tail;
    }
  }

  /** What follows the return of `attemptBundle`: the debug call scans once more. */
  function Returned(origin: Origin, w: Events.World, answers: Answers): Events.World {
    if origin.DebugCall? then Events.Poll(w, answers.lastHead, answers.lastEvents) else w
  }

  /** What follows the end of `sendNextBundle`, beginning with the extra scan of auto-bundling mode. */
  function Ending(s: Sys, origin: Origin, w: Events.World, threw: bool, answers: Answers): Events.World {
    if threw then w
    else if s.maxMempoolSize != 0 then Returned(origin, w, answers)
    else Returned(origin, Events.Poll(w, answers.laterHead, answers.laterEvents), answers)
  }

  function AskedFrom(w: Events.World, head: nat): nat {
    Events.Prepared(w, head).tracker.lastBlock.value
  }

  /** A scan that is answered before anything else happens: the head first, if it was never asked for. */
  lemma ScanAlone(s: Sys, tid: TaskId, head: nat, chain: seq<Events.Event>) returns (actions: seq<Action>, mid: Sys, last: Action)
    requires tid in s.tasks && Scans(s.tasks[tid].phase) && s.tasks[tid].phase.scan == StartScan(s.world)
    ensures Run(s, actions, mid) && OnlyBy(actions, tid) && last == Answer(tid, Events.Since(chain, AskedFrom(s.world, head)))
    ensures SameShell(s, mid) && mid.world == Events.Prepared(s.world, head) && Enabled(mid, last)
    ensures mid.tasks[tid].origin == s.tasks[tid].origin
    ensures mid.tasks[tid].phase == s.tasks[tid].phase.(scan := mid.tasks[tid].phase.scan)
  {
    last := Answer(tid, Events.Since(chain, AskedFrom(s.world, head)));
    if s.world.tracker.lastBlock.None? {
      mid := Next(s, Head(tid, head));
      actions := [Head(tid, head)];
      RunFirst(s, Head(tid, head), [], mid);
    } else {
      actions, mid := [], s;
    }
  }

  lemma ReturnAlone(s: Sys, tid: TaskId, answers: Answers) returns (actions: seq<Action>, end: Sys)
    requires tid in s.tasks
    ensures Run(AfterAttempt(s, tid), actions, end) && OnlyBy(actions, tid)
    ensures tid in end.tasks && end.tasks[tid].phase.Done?
    ensures end.world == Returned(s.tasks[tid].origin, s.world, answers)
  {
    var left := AfterAttempt(s, tid);
    if s.tasks[tid].origin.DebugCall? {
      var head, mid, last := ScanAlone(left, tid, answers.lastHead, answers.lastEvents);
      end := Next(mid, last);
      RunFirst(mid, last, [], end);
      RunThen(left, head, mid, [last], end);
      actions := head + [last];
    } else {
      actions, end := [], left;
    }
  }

  lemma LeaveAlone(s: Sys, tid: TaskId, answers: Answers) returns (actions: seq<Action>, end: Sys)
    requires tid in s.tasks
    ensures Run(Leave(s, tid), actions, end) && OnlyBy(actions, tid)
    ensures tid in end.tasks && end.tasks[tid].phase.Done?
    ensures end.world == Ending(s, s.tasks[tid].origin, s.world, false, answers)
  {
    if s.maxMempoolSize == 0 {
      var left := Leave(s, tid);
      var head, mid, last := ScanAlone(left, tid, answers.laterHead, answers.laterEvents);
      var flushed := mid.(world := Events.HandleAll(mid.world, last.events));
      assert Next(mid, last) == AfterAttempt(flushed, tid);
      var tail;
      tail, end := ReturnAlone(flushed, tid, answers);
      RunFirst(mid, last, tail, end);
      RunThen(left, head, mid, [last] + tail, end);
      actions := head + ([last] + tail);
    } else {
      actions, end := ReturnAlone(s, tid, answers);
    }
  }

  lemma CloseAlone(s: Sys, tid: TaskId, answers: Answers) returns (actions: seq<Action>, end: Sys)
    requires Enabled(s, Close(tid))
    ensures Run(s, actions, end) && OnlyBy(actions, tid)
    ensures var bundle := s.tasks[tid].phase.pass.loop.acc.bundle;
      && tid in end.tasks && end.tasks[tid].phase.Done?
      && end.world ==
         if bundle == [] then Ending(s, s.tasks[tid].origin, s.world, false, answers)
         else Ending(s, s.tasks[tid].origin, AfterSending(s.world, bundle, answers.delivery),
                     SendingThrows(bundle, answers.delivery), answers)
  {
    var pass := s.tasks[tid].phase.pass;
    var first := Close(tid);
    var tail;
    if pass.loop.acc.bundle == [] {
      tail, end := LeaveAlone(s, tid, answers);
      actions := [first] + tail;
      RunFirst(s, first, tail, end);
    } else {
      var sending := Next(s, first);
      tail, end := DeliverAlone(sending, tid, answers);
      actions := [first] + tail;
      RunFirst(s, first, tail, end);
    }
  }

  lemma DeliverAlone(s: Sys, tid: TaskId, answers: Answers) returns (actions: seq<Action>, end: Sys)
    requires tid in s.tasks && s.tasks[tid].phase.Sending?
    ensures Run(s, actions, end) && OnlyBy(actions, tid)
    ensures var bundle := s.tasks[tid].phase.pass.loop.acc.bundle;
      && tid in end.tasks && end.tasks[tid].phase.Done?
      && end.world == Ending(s, s.tasks[tid].origin, AfterSending(s.world, bundle, answers.delivery),
                             SendingThrows(bundle, answers.delivery), answers)
  {
    var bundle := s.tasks[tid].phase.pass.loop.acc.bundle;
    var a := Deliver(tid, answers.delivery);
    var t := s.(world := AfterSending(s.world, bundle, answers.delivery));
    if SendingThrows(bundle, answers.delivery) {
      end := Finish(t, tid);
      actions := [a];
      RunFirst(s, a, [], end);
    } else {
      var tail;
      tail, end := LeaveAlone(t, tid, answers);
      actions := [a] + tail;
      RunFirst(s, a, tail, end);
    }
  }

  lemma PassAlone(s: Sys, tid: TaskId, answers: Answers) returns (actions: seq<Action>, end: Sys)
    requires tid in s.tasks && s.tasks[tid].phase.Polled?
    ensures Run(s, actions, end) && OnlyBy(actions, tid) && tid in end.tasks && end.tasks[tid].phase.Done?
    ensures match GetSortedForInclusion(s.world.pool)
      case Err(_) => end.world == s.world
      case Ok(snapshot) =>
        var pass := WholePass(snapshot, s.world.pool, Look(s.world.rep, answers.chain), s.config);
        var built, bundle := s.world.(pool := pass.pool), pass.loop.acc.bundle;
        end.world == if bundle == [] then Ending(s, s.tasks[tid].origin, built, false, answers)
          else Ending(s, s.tasks[tid].origin, AfterSending(built, bundle, answers.delivery),
                      SendingThrows(bundle, answers.delivery), answers)
  {
    var first := Begin(tid);
    var begun := Next(s, first);
    if GetSortedForInclusion(s.world.pool).Err? {
      actions, end := [first], begun;
      RunFirst(s, first, [], end);
    } else {
      var untouched := Loop(START, [], false);
      var loops, looped := LoopAlone(begun, tid, begun.tasks[tid].phase.pass, answers.chain, untouched);
      var closing;
      closing, end := CloseAlone(looped, tid, answers);
      RunThen(begun, loops, looped, closing, end);
      actions := [first] + (loops + closing);
      RunFirst(s, first, loops + closing, end);
    }
  }

  /** The uninterrupted call a task in the bundle queue stands for. */
  function Uninterrupted(origin: Origin, w: Events.World, maxMempoolSize: nat, answers: Answers, config: Config): Ended {
    if origin.DebugCall? then Calls.BundleNow(w, maxMempoolSize, answers, config)
    else Calls.Attempt(w, maxMempoolSize, true, answers, config)
  }

  /** An attempt that runs alone leaves the world as the uninterrupted `attemptBundle`, or `sendBundleNow`, does. */
  lemma AttemptRunsAlone(s: Sys, tid: TaskId, answers: Answers) returns (actions: seq<Action>, end: Sys)
    requires tid in s.tasks && s.tasks[tid].phase.AwaitingBundle? && Heads(s.bundleQueue, tid)
    ensures Run(s, actions, end) && OnlyBy(actions, tid)
    ensures tid in end.tasks && end.tasks[tid].phase.Done?
    ensures end.world == Uninterrupted(s.tasks[tid].origin, s.world, s.maxMempoolSize, answers, s.config).world
  {
    var first := Acquire(tid);
    var polling := Next(s, first);
    var head, mid, last := ScanAlone(polling, tid, answers.head, answers.events);
    var polled := Next(mid, last);
    var rest;
    rest, end := PassAlone(polled, tid, answers);
    RunFirst(mid, last, rest, end);
    RunThen(polling, head, mid, [last] + rest, end);
    RunFirst(s, first, head + ([last] + rest), end);
    actions := [first] + (head + ([last] + rest));
  }

  /**
   * A submission that runs alone, once it holds the execution mutex and nobody holds the other one, leaves
   * the world as the uninterrupted `sendUserOperation` does: the interleaving adds nothing of its own.
   */
  lemma SubmissionRunsAlone(s: Sys, tid: TaskId, validated: Option<Request>, answers: Answers)
      returns (actions: seq<Action>, end: Sys)
    requires tid in s.tasks && s.tasks[tid] == Task(Submission, AwaitingExec)
    requires Heads(s.execQueue, tid) && s.bundleQueue == []
    ensures Run(s, actions, end) && OnlyBy(actions, tid)
    ensures tid in end.tasks && end.tasks[tid].phase.Done?
    ensures end.world == Calls.Submission(s.world, s.maxMempoolSize, validated, answers, s.config).world
  {
    var first := Validate(tid, validated);
    var mid := Next(s, first);
    if mid.tasks[tid].phase.Done? {
      actions, end := [first], mid;
      RunFirst(s, first, [], end);
    } else {
      var rest;
      rest, end := AttemptRunsAlone(mid, tid, answers);
      actions := [first] + rest;
      RunFirst(s, first, rest, end);
    }
  }
}
