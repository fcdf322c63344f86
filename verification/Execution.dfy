/** ExecutionManager and its two mutexes: every interleaving of submissions, timers and chain events. */
module Execution {
  import opened Common
  import opened Mempool
  import opened Bundle
  import opened BundleRuns
  import Events
  import Rep = Reputation
  import Runs = MempoolRuns
  import StorageMaps

  type TaskId = nat

  /** A submission runs under the execution mutex; a timer's attempt and the debug call `sendBundleNow` do not. */
  datatype Origin = Submission | Attempt | DebugCall

  /** The local variables of a running createBundle; the next entry has the log's length as its index. */
  datatype BundlePass = BundlePass(snapshot: seq<Entry>, known: set<Address>, loop: Loop)

  /** What a scan of past events waits for: the head, on the first scan, and then the events from a block on. */
  datatype Scan = AwaitingHead | AwaitingEvents(from: nat)

  /** Where a task is suspended. */
  datatype Phase =
    | AwaitingExec                       // queued on, or validating under, the execution mutex
    | AwaitingBundle                     // queued on the bundle mutex
    | Polling(scan: Scan)                // scanning past events before the pass
    | Polled
    | Looping(pass: BundlePass)
    | Validating(pass: BundlePass, paymasterStatus: Rep.Status, factoryStatus: Rep.Status)
    | Sending(pass: BundlePass)
    | Flushing(scan: Scan)               // scanning past events again, after the bundle mutex is released
    | Trailing(scan: Scan)               // the debug call's own scan, after its attempt has returned
    | Done

  datatype Task = Task(origin: Origin, phase: Phase)

  /** Each queue lists the holder of its mutex first, then the waiting tasks in order. */
  datatype Sys = Sys(
    world: Events.World,
    config: Config,
    maxMempoolSize: nat,
    execQueue: seq<TaskId>,
    bundleQueue: seq<TaskId>,
    tasks: map<TaskId, Task>)

  datatype Action =
    | Submit(tid: TaskId)
    | Fire(tid: TaskId)
    | SendBundleNow(tid: TaskId)         // the debug call: an attempt, forced, and then one more scan
    | Validate(tid: TaskId, outcome: Option<Request>)
    | Acquire(tid: TaskId)
    | Head(tid: TaskId, head: nat)
    | Answer(tid: TaskId, events: seq<Events.Event>)
    | Begin(tid: TaskId)
    | Consider(tid: TaskId)
    | Resolve(tid: TaskId, validation: Option<Validation>, balance: nat, storageHash: StorageMaps.Word)
    | Close(tid: TaskId)
    | Deliver(tid: TaskId, delivery: Delivery)
    | Throw(tid: TaskId)                 // an awaited call of the provider rejects
    | Cron
    | ClearReputation
    | SetReputation(dump: seq<(Address, Rep.Entry)>)
    | ClearMempool
    | Live(event: Events.Event)          // the live listener, which asks for UserOperationEvent only
    | SetAutoBundler(maxMempoolSize: nat)

  // ---- phases and queues ------------------------------------------------------------------------------

  predicate UsesBundle(p: Phase) {
    p.AwaitingBundle? || HoldsBundle(p)
  }

  predicate HoldsBundle(p: Phase) {
    p.Polling? || p.Polled? || HasPass(p)
  }

  /** Scanning past events while holding neither mutex for it. */
  predicate Outside(p: Phase) {
    p.Flushing? || p.Trailing?
  }

  predicate Scans(p: Phase) {
    p.Polling? || Outside(p)
  }

  predicate HasPass(p: Phase) {
    p.Looping? || p.Validating? || p.Sending?
  }

  function Release(queue: seq<TaskId>, tid: TaskId): seq<TaskId> {
    if queue != [] && queue[0] == tid then queue[1..] else queue
  }

  predicate At(s: Sys, tid: TaskId, p: Phase -> bool) {
    tid in s.tasks && p(s.tasks[tid].phase)
  }

  predicate Heads(queue: seq<TaskId>, tid: TaskId) {
    queue != [] && queue[0] == tid
  }

  predicate Exhausted(pass: BundlePass) {
    pass.loop.cut || |pass.loop.log| >= |pass.snapshot|
  }

  // ---- when an action can happen ----------------------------------------------------------------------

  predicate Enabled(s: Sys, a: Action) {
    match a
    case Submit(tid) => tid !in s.tasks
    case Fire(tid) => tid !in s.tasks
    case SendBundleNow(tid) => tid !in s.tasks
    case Validate(tid, _) => At(s, tid, (p: Phase) => p.AwaitingExec?) && Heads(s.execQueue, tid)
    case Acquire(tid) => At(s, tid, (p: Phase) => p.AwaitingBundle?) && Heads(s.bundleQueue, tid)
    case Head(tid, _) => At(s, tid, (p: Phase) => Scans(p) && p.scan.AwaitingHead?)
    case Answer(tid, _) => At(s, tid, (p: Phase) => Scans(p) && p.scan.AwaitingEvents?)
    case Begin(tid) => At(s, tid, (p: Phase) => p.Polled?)
    case Consider(tid) => At(s, tid, (p: Phase) => p.Looping? && !Exhausted(p.pass))
    case Resolve(tid, _, _, _) => At(s, tid, (p: Phase) => p.Validating? && !Exhausted(p.pass))
    case Close(tid) => At(s, tid, (p: Phase) => p.Looping? && Exhausted(p.pass))
    case Deliver(tid, _) => At(s, tid, (p: Phase) => p.Sending?)
    case Throw(tid) => At(s, tid, (p: Phase) => Scans(p) || p.Validating?)
    case Live(ev) => ev.UserOperationEvent?
    case _ => true
  }

  /** The task whose own step an action is. */
  function Actor(a: Action): Option<TaskId> {
    match a
    case Validate(tid, _) => Some(tid)
    case Acquire(tid) => Some(tid)
    case Head(tid, _) => Some(tid)
    case Answer(tid, _) => Some(tid)
    case Begin(tid) => Some(tid)
    case Consider(tid) => Some(tid)
    case Resolve(tid, _, _, _) => Some(tid)
    case Close(tid) => Some(tid)
    case Deliver(tid, _) => Some(tid)
    case Throw(tid) => Some(tid)
    case _ => None
  }

  // ---- what an action does ------------------------------------------------------------------------------

  function Move(s: Sys, tid: TaskId, phase: Phase): Sys
    requires tid in s.tasks
  {
    s.(tasks := s.tasks[tid := s.tasks[tid].(phase := phase)])
  }

  /** The task ends, normally or by an exception: whatever mutex it holds is released. */
  function Finish(s: Sys, tid: TaskId): Sys
    requires tid in s.tasks
  {
    Move(s, tid, Done).(execQueue := Release(s.execQueue, tid), bundleQueue := Release(s.bundleQueue, tid))
  }

  /** The block a scan asks from is read when its query is made; only a first scan asks for the head before. */
  function StartScan(w: Events.World): Scan {
    if w.tracker.lastBlock.None? then AwaitingHead else AwaitingEvents(w.tracker.lastBlock.value)
  }

  /** The head is known: the scan fixes `lastBlock`, over whatever another scan made of it, and queries from there. */
  function WithHead(s: Sys, tid: TaskId, head: nat): Sys
    requires tid in s.tasks && Scans(s.tasks[tid].phase)
  {
    var start := Events.StartBlock(head);
    Move(s, tid, s.tasks[tid].phase.(scan := AwaitingEvents(start)))
      .(world := s.world.(tracker := s.world.tracker.(lastBlock := Some(start))))
  }

  /** The task leaves the bundle mutex, if it still holds it, and goes on to a scan outside both mutexes. */
  function ScanOutside(s: Sys, tid: TaskId, phase: Phase): Sys
    requires tid in s.tasks
  {
    Move(s, tid, phase).(bundleQueue := Release(s.bundleQueue, tid))
  }

  /** `attemptBundle` returns normally: only the debug call then scans once more, whatever the size setting. */
  function AfterAttempt(s: Sys, tid: TaskId): Sys
    requires tid in s.tasks
  {
    if s.tasks[tid].origin.DebugCall? then ScanOutside(s, tid, Trailing(StartScan(s.world))) else Finish(s, tid)
  }

  /** `sendNextBundle` returns normally: in auto-bundling mode `attemptBundle` scans once more before it returns. */
  function Leave(s: Sys, tid: TaskId): Sys
    requires tid in s.tasks
  {
    if s.maxMempoolSize == 0 then ScanOutside(s, tid, Flushing(StartScan(s.world))) else AfterAttempt(s, tid)
  }

  /** The answer of a scan has been handled: the attempt goes on, or returns, or the debug call is over. */
  function AfterScan(s: Sys, tid: TaskId): Sys
    requires tid in s.tasks
  {
    match s.tasks[tid].phase
    case Flushing(_) => AfterAttempt(s, tid)
    case Trailing(_) => Finish(s, tid)
    case _ => Move(s, tid, Polled)
  }

  function WithWorld(s: Sys, pool: Pool, rep: Rep.Ledger): Sys {
    s.(world := s.world.(pool := pool, rep := rep))
  }

  /** The rest of `sendUserOperation` after its validations, up to the next await. */
  function Insert(s: Sys, tid: TaskId, req: Request): Sys
    requires tid in s.tasks
  {
    var added := AddUserOp(s.world.pool, s.world.rep, req);
    var t := WithWorld(s, added.pool, added.rep);
    if added.verdict.Fail? || |added.pool.entries| < s.maxMempoolSize then Finish(t, tid)
    else Move(t, tid, AwaitingBundle).(bundleQueue := s.bundleQueue + [tid])
  }

  function BeginPass(s: Sys, tid: TaskId): Sys
    requires tid in s.tasks
  {
    match GetSortedForInclusion(s.world.pool)
    case Err(_) => Finish(s, tid)
    case Ok(snapshot) =>
      Move(s, tid, Looping(BundlePass(snapshot, KnownSenders(s.world.pool.entries), Loop(START, [], false))))
  }

  function NextEntry(pass: BundlePass): Entry
    requires !Exhausted(pass)
  {
    pass.snapshot[|pass.loop.log|]
  }

  function Visited(pass: BundlePass, o: Observed, config: Config): BundlePass
    requires !Exhausted(pass)
  {
    pass.(loop := VisitEntry(pass.loop, NextEntry(pass), o, pass.known, config))
  }

  function FateIn(pass: BundlePass, o: Observed, config: Config): Fate
    requires !Exhausted(pass)
  {
    FateOf(pass.loop.acc, NextEntry(pass), o, pass.known, config)
  }

  /** One iteration is complete: the pass moves on and the mempool loses a removed entry. */
  function Complete(s: Sys, tid: TaskId, pass: BundlePass, o: Observed): Sys
    requires tid in s.tasks && !Exhausted(pass)
  {
    var t := Move(s, tid, Looping(Visited(pass, o, s.config)));
    WithWorld(t, PoolAfter(s.world.pool, NextEntry(pass), FateIn(pass, o, s.config)), s.world.rep)
  }

  /** The first half of an iteration: everything up to the re-validation. */
  function ConsiderNext(s: Sys, tid: TaskId, pass: BundlePass): Sys
    requires tid in s.tasks && !Exhausted(pass)
  {
    var e := NextEntry(pass);
    var p, f := Rep.GetStatus(s.world.rep, Paymaster(e.op)), Rep.GetStatus(s.world.rep, Factory(e.op));
    if EarlyFate(pass.loop.acc, e, p, f).Some? then Complete(s, tid, pass, Observed(p, f, None, 0, 0))
    else Move(s, tid, Validating(pass, p, f))
  }

  function AfterDelivery(s: Sys, tid: TaskId, bundle: seq<UserOp>, delivery: Delivery): Sys
    requires tid in s.tasks
  {
    var t := s.(world := AfterSending(s.world, bundle, delivery));
    if SendingThrows(bundle, delivery) then Finish(t, tid) else Leave(t, tid)
  }

  function Next(s: Sys, a: Action): Sys
    requires Enabled(s, a)
  {
    match a
    case Submit(tid) => s.(tasks := s.tasks[tid := Task(Submission, AwaitingExec)], execQueue := s.execQueue + [tid])
    case Fire(tid) => s.(tasks := s.tasks[tid := Task(Attempt, AwaitingBundle)], bundleQueue := s.bundleQueue + [tid])
    case SendBundleNow(tid) =>
      s.(tasks := s.tasks[tid := Task(DebugCall, AwaitingBundle)], bundleQueue := s.bundleQueue + [tid])
    case Validate(tid, outcome) => if outcome.None? then Finish(s, tid) else Insert(s, tid, outcome.value)
    case Acquire(tid) => Move(s, tid, Polling(StartScan(s.world)))
    case Head(tid, head) => WithHead(s, tid, head)
    case Answer(tid, evs) => AfterScan(s.(world := Events.HandleAll(s.world, evs)), tid)
    case Begin(tid) => BeginPass(s, tid)
    case Consider(tid) => ConsiderNext(s, tid, s.tasks[tid].phase.pass)
    case Resolve(tid, validation, balance, hash) =>
      var p := s.tasks[tid].phase;
      Complete(s, tid, p.pass, Observed(p.paymasterStatus, p.factoryStatus, validation, balance, hash))
    case Close(tid) =>
      var pass := s.tasks[tid].phase.pass;
      if pass.loop.acc.bundle == [] then Leave(s, tid) else Move(s, tid, Sending(pass))
    case Deliver(tid, delivery) => AfterDelivery(s, tid, s.tasks[tid].phase.pass.loop.acc.bundle, delivery)
    case Throw(tid) => Finish(s, tid)
    case Cron => WithWorld(s, s.world.pool, Rep.HourlyCron(s.world.rep))
    case ClearReputation => WithWorld(s, s.world.pool, Rep.ClearState(s.world.rep))
    case SetReputation(dump) => WithWorld(s, s.world.pool, Rep.SetReputation(s.world.rep, dump))
    case ClearMempool => WithWorld(s, EMPTY, s.world.rep)
    case Live(ev) => s.(world := Events.HandleEvent(s.world, ev))
    case SetAutoBundler(size) => s.(maxMempoolSize := size)
  }

  ghost predicate Run(s: Sys, actions: seq<Action>, end: Sys)
    decreases |actions|
  {
    if actions == [] then s == end
    else Enabled(s, actions[0]) && Run(Next(s, actions[0]), actions[1..], end)
  }

  /** A freshly started bundler. */
  ghost predicate Initial(s: Sys) {
    s.execQueue == [] && s.bundleQueue == [] && s.tasks == map[] && s.world.pool == EMPTY
  }

  // ---- the invariant --------------------------------------------------------------------------------------

  ghost predicate Distinct(queue: seq<TaskId>) {
    forall i, j :: 0 <= i < j < |queue| ==> queue[i] != queue[j]
  }

  predicate WaitsOnExec(t: Task) {
    t.origin.Submission? && !t.phase.Done?
  }

  /** Both mutexes are held by the heads of their queues, and nobody waits for one out of turn. */
  ghost predicate QueuesOk(execQueue: seq<TaskId>, bundleQueue: seq<TaskId>, tasks: map<TaskId, Task>) {
    && Distinct(execQueue) && Distinct(bundleQueue)
    && (forall tid :: tid in execQueue <==> tid in tasks && WaitsOnExec(tasks[tid]))
    && (forall tid :: tid in bundleQueue <==> tid in tasks && UsesBundle(tasks[tid].phase))
    && (forall tid :: tid in tasks ==> TaskOk(execQueue, bundleQueue, tid, tasks[tid]))
  }

  predicate TaskOk(execQueue: seq<TaskId>, bundleQueue: seq<TaskId>, tid: TaskId, t: Task) {
    && (t.phase.AwaitingExec? ==> t.origin.Submission?)
    && (WaitsOnExec(t) && !t.phase.AwaitingExec? ==> Heads(execQueue, tid))
    && (HoldsBundle(t.phase) ==> Heads(bundleQueue, tid))
  }

  /** What a running pass has done so far is explained by its own history. */
  ghost predicate PassOk(pass: BundlePass, config: Config) {
    && Faithful(pass.loop, pass.known, config)
    && Covers(pass.loop.log, pass.loop.cut, pass.snapshot, |pass.loop.log|)
    && (forall e :: e in pass.snapshot ==> e.op.sender in pass.known)
  }

  /** A re-validation is about an entry still to come, and a bundle is sent only when none is left. */
  ghost predicate AtItsPlace(p: Phase) {
    && (p.Validating? ==> !p.pass.loop.cut && |p.pass.loop.log| < |p.pass.snapshot|)
    && (p.Sending? ==> p.pass.loop.cut || |p.pass.loop.log| == |p.pass.snapshot|)
  }

  ghost predicate PhaseOk(p: Phase, config: Config) {
    HasPass(p) ==> PassOk(p.pass, config) && AtItsPlace(p)
  }

  ghost predicate PassesOk(tasks: map<TaskId, Task>, config: Config) {
    forall tid :: tid in tasks ==> PhaseOk(tasks[tid].phase, config)
  }

  ghost predicate Inv(s: Sys) {
    && Orderly(s)
    && PassesOk(s.tasks, s.config)
    && Runs.UniqueSlots(s.world.pool.entries)
  }

  // ---- queues -----------------------------------------------------------------------------------------------

  function Rephased(tasks: map<TaskId, Task>, tid: TaskId, phase: Phase): map<TaskId, Task>
    requires tid in tasks
  {
    tasks[tid := tasks[tid].(phase := phase)]
  }

  /** A task that stays on the same queues may change its phase. */
  lemma MoveKeepsQueues(exec: seq<TaskId>, bundle: seq<TaskId>, tasks: map<TaskId, Task>, tid: TaskId, phase: Phase)
    requires QueuesOk(exec, bundle, tasks) && tid in tasks
    requires !tasks[tid].phase.Done? && !phase.Done? && !phase.AwaitingExec? && !tasks[tid].phase.AwaitingExec?
    requires UsesBundle(tasks[tid].phase) == UsesBundle(phase)
    requires HoldsBundle(phase) ==> Heads(bundle, tid)
    ensures QueuesOk(exec, bundle, Rephased(tasks, tid, phase))
  {
    assert TaskOk(exec, bundle, tid, tasks[tid]);
  }

  lemma ReleasedMembers(queue: seq<TaskId>, tid: TaskId)
    requires Distinct(queue) && (tid in queue ==> Heads(queue, tid))
    ensures Distinct(Release(queue, tid))
    ensures forall x :: x in Release(queue, tid) <==> x in queue && x != tid
    ensures forall x :: x != tid && Heads(queue, x) ==> Heads(Release(queue, tid), x)
  {
    if queue != [] && queue[0] == tid {
      assert queue == [tid] + queue[1..];
      forall x | x in queue[1..]
        ensures x != tid
      {
        var i :| 0 <= i < |queue| - 1 && queue[1..][i] == x;
        assert queue[i + 1] == x;
      }
    }
  }

  /** A task that holds what it waits for may end. */
  lemma FinishKeepsQueues(exec: seq<TaskId>, bundle: seq<TaskId>, tasks: map<TaskId, Task>, tid: TaskId)
    requires QueuesOk(exec, bundle, tasks) && tid in tasks && !tasks[tid].phase.AwaitingBundle?
    requires tasks[tid].phase.AwaitingExec? ==> Heads(exec, tid)
    ensures QueuesOk(Release(exec, tid), Release(bundle, tid), Rephased(tasks, tid, Done))
  {
    assert TaskOk(exec, bundle, tid, tasks[tid]);
    ReleasedMembers(exec, tid);
    ReleasedMembers(bundle, tid);
    var after := Rephased(tasks, tid, Done);
    forall x | x in after
      ensures TaskOk(Release(exec, tid), Release(bundle, tid), x, after[x])
    {
      assert TaskOk(exec, bundle, x, tasks[x]);
    }
  }

  lemma ScanOutsideKeepsQueues(exec: seq<TaskId>, bundle: seq<TaskId>, tasks: map<TaskId, Task>, tid: TaskId, phase: Phase)
    requires QueuesOk(exec, bundle, tasks) && tid in tasks && Outside(phase)
    requires HoldsBundle(tasks[tid].phase) || Outside(tasks[tid].phase)
    ensures QueuesOk(exec, Release(bundle, tid), Rephased(tasks, tid, phase))
  {
    assert TaskOk(exec, bundle, tid, tasks[tid]);
    ReleasedMembers(bundle, tid);
    var after := Rephased(tasks, tid, phase);
    forall x | x in after
      ensures TaskOk(exec, Release(bundle, tid), x, after[x])
    {
      assert TaskOk(exec, bundle, x, tasks[x]);
    }
  }

  lemma AppendDistinct(queue: seq<TaskId>, tid: TaskId)
    requires Distinct(queue) && tid !in queue
    ensures Distinct(queue + [tid])
    ensures forall x :: x in queue + [tid] <==> x in queue || x == tid
    ensures forall x :: Heads(queue, x) ==> Heads(queue + [tid], x)
  {
  }

  /** The holder of the execution mutex joins the queue of the bundle mutex: never the other way round. */
  lemma QueueKeepsQueues(exec: seq<TaskId>, bundle: seq<TaskId>, tasks: map<TaskId, Task>, tid: TaskId)
    requires QueuesOk(exec, bundle, tasks) && tid in tasks && tasks[tid].phase.AwaitingExec? && Heads(exec, tid)
    ensures QueuesOk(exec, bundle + [tid], Rephased(tasks, tid, AwaitingBundle))
  {
    AppendDistinct(bundle, tid);
    var after := Rephased(tasks, tid, AwaitingBundle);
    forall x | x in after
      ensures TaskOk(exec, bundle + [tid], x, after[x])
    {
      assert TaskOk(exec, bundle, x, tasks[x]);
    }
  }

  lemma SubmitKeepsQueues(exec: seq<TaskId>, bundle: seq<TaskId>, tasks: map<TaskId, Task>, tid: TaskId)
    requires QueuesOk(exec, bundle, tasks) && tid !in tasks
    ensures QueuesOk(exec + [tid], bundle, tasks[tid := Task(Submission, AwaitingExec)])
  {
    AppendDistinct(exec, tid);
    var after := tasks[tid := Task(Submission, AwaitingExec)];
    forall x | x in after
      ensures TaskOk(exec + [tid], bundle, x, after[x])
    {
      if x != tid { assert TaskOk(exec, bundle, x, tasks[x]); }
    }
  }

  lemma AttemptKeepsQueues(exec: seq<TaskId>, bundle: seq<TaskId>, tasks: map<TaskId, Task>, tid: TaskId, origin: Origin)
    requires QueuesOk(exec, bundle, tasks) && tid !in tasks && !origin.Submission?
    ensures QueuesOk(exec, bundle + [tid], tasks[tid := Task(origin, AwaitingBundle)])
  {
    AppendDistinct(bundle, tid);
    var after := tasks[tid := Task(origin, AwaitingBundle)];
    forall x | x in after
      ensures TaskOk(exec, bundle + [tid], x, after[x])
    {
      if x != tid { assert TaskOk(exec, bundle, x, tasks[x]); }
    }
  }

  ghost predicate Orderly(s: Sys) {
    QueuesOk(s.execQueue, s.bundleQueue, s.tasks)
  }

  lemma Holder(s: Sys, tid: TaskId)
    requires Orderly(s) && tid in s.tasks
    ensures HoldsBundle(s.tasks[tid].phase) ==> Heads(s.bundleQueue, tid)
  {
    assert TaskOk(s.execQueue, s.bundleQueue, tid, s.tasks[tid]);
  }

  lemma FinishStaysOrderly(s: Sys, tid: TaskId)
    requires Orderly(s) && tid in s.tasks && !s.tasks[tid].phase.AwaitingBundle?
    requires s.tasks[tid].phase.AwaitingExec? ==> Heads(s.execQueue, tid)
    ensures Orderly(Finish(s, tid))
  {
    FinishKeepsQueues(s.execQueue, s.bundleQueue, s.tasks, tid);
  }

  lemma MoveStaysOrderly(s: Sys, tid: TaskId, phase: Phase)
    requires Orderly(s) && tid in s.tasks
    requires HoldsBundle(phase) && (HoldsBundle(s.tasks[tid].phase) || (s.tasks[tid].phase.AwaitingBundle? && Heads(s.bundleQueue, tid)))
    ensures Orderly(Move(s, tid, phase))
  {
    Holder(s, tid);
    MoveKeepsQueues(s.execQueue, s.bundleQueue, s.tasks, tid, phase);
  }

  lemma ScanOutsideStaysOrderly(s: Sys, tid: TaskId, phase: Phase)
    requires Orderly(s) && tid in s.tasks && Outside(phase)
    requires HoldsBundle(s.tasks[tid].phase) || Outside(s.tasks[tid].phase)
    ensures Orderly(ScanOutside(s, tid, phase))
  {
    ScanOutsideKeepsQueues(s.execQueue, s.bundleQueue, s.tasks, tid, phase);
  }

  lemma AfterAttemptStaysOrderly(s: Sys, tid: TaskId)
    requires Orderly(s) && tid in s.tasks && (HoldsBundle(s.tasks[tid].phase) || Outside(s.tasks[tid].phase))
    ensures Orderly(AfterAttempt(s, tid))
  {
    ScanOutsideStaysOrderly(s, tid, Trailing(StartScan(s.world)));
    FinishStaysOrderly(s, tid);
  }

  lemma LeaveStaysOrderly(s: Sys, tid: TaskId)
    requires Orderly(s) && tid in s.tasks && HoldsBundle(s.tasks[tid].phase)
    ensures Orderly(Leave(s, tid))
  {
    ScanOutsideStaysOrderly(s, tid, Flushing(StartScan(s.world)));
    AfterAttemptStaysOrderly(s, tid);
  }

  lemma InsertStaysOrderly(s: Sys, tid: TaskId, req: Request)
    requires Orderly(s) && tid in s.tasks && s.tasks[tid].phase.AwaitingExec? && Heads(s.execQueue, tid)
    ensures Orderly(Insert(s, tid, req))
  {
    var added := AddUserOp(s.world.pool, s.world.rep, req);
    var t := WithWorld(s, added.pool, added.rep);
    FinishStaysOrderly(t, tid);
    QueueKeepsQueues(s.execQueue, s.bundleQueue, s.tasks, tid);
  }

  lemma BeginStaysOrderly(s: Sys, tid: TaskId)
    requires Orderly(s) && tid in s.tasks && s.tasks[tid].phase.Polled?
    ensures Orderly(BeginPass(s, tid))
  {
    match GetSortedForInclusion(s.world.pool)
    case Err(_) => FinishStaysOrderly(s, tid);
    case Ok(snapshot) =>
      MoveStaysOrderly(s, tid, Looping(BundlePass(snapshot, KnownSenders(s.world.pool.entries), Loop(START, [], false))));
  }

  lemma CompleteStaysOrderly(s: Sys, tid: TaskId, pass: BundlePass, o: Observed)
    requires Orderly(s) && tid in s.tasks && HoldsBundle(s.tasks[tid].phase) && !Exhausted(pass)
    ensures Orderly(Complete(s, tid, pass, o))
  {
    MoveStaysOrderly(s, tid, Looping(Visited(pass, o, s.config)));
  }

  lemma ConsiderStaysOrderly(s: Sys, tid: TaskId, pass: BundlePass)
    requires Orderly(s) && tid in s.tasks && HoldsBundle(s.tasks[tid].phase) && !Exhausted(pass)
    ensures Orderly(ConsiderNext(s, tid, pass))
  {
    var e := NextEntry(pass);
    var p, f := Rep.GetStatus(s.world.rep, Paymaster(e.op)), Rep.GetStatus(s.world.rep, Factory(e.op));
    CompleteStaysOrderly(s, tid, pass, Observed(p, f, None, 0, 0));
    MoveStaysOrderly(s, tid, Validating(pass, p, f));
  }

  lemma DeliverStaysOrderly(s: Sys, tid: TaskId, bundle: seq<UserOp>, delivery: Delivery)
    requires Orderly(s) && tid in s.tasks && s.tasks[tid].phase.Sending?
    ensures Orderly(AfterDelivery(s, tid, bundle, delivery))
  {
    var t := s.(world := AfterSending(s.world, bundle, delivery));
    FinishStaysOrderly(t, tid);
    LeaveStaysOrderly(t, tid);
  }

  lemma HeadStaysOrderly(s: Sys, tid: TaskId, head: nat)
    requires Orderly(s) && Enabled(s, Head(tid, head))
    ensures Orderly(WithHead(s, tid, head))
  {
    Holder(s, tid);
    MoveKeepsQueues(s.execQueue, s.bundleQueue, s.tasks, tid, s.tasks[tid].phase.(scan := AwaitingEvents(Events.StartBlock(head))));
  }

  lemma AnswerStaysOrderly(s: Sys, tid: TaskId, evs: seq<Events.Event>)
    requires Orderly(s) && Enabled(s, Answer(tid, evs))
    ensures Orderly(Next(s, Answer(tid, evs)))
  {
    var t := s.(world := Events.HandleAll(s.world, evs));
    match s.tasks[tid].phase
    case Flushing(_) => AfterAttemptStaysOrderly(t, tid);
    case Trailing(_) => FinishStaysOrderly(t, tid);
    case _ => MoveStaysOrderly(t, tid, Polled);
  }

  lemma CloseStaysOrderly(s: Sys, tid: TaskId)
    requires Orderly(s) && Enabled(s, Close(tid))
    ensures Orderly(Next(s, Close(tid)))
  {
    LeaveStaysOrderly(s, tid);
    MoveStaysOrderly(s, tid, Sending(s.tasks[tid].phase.pass));
  }

  lemma StepStaysOrderly(s: Sys, a: Action)
    requires Orderly(s) && Enabled(s, a)
    ensures Orderly(Next(s, a))
  {
    match a
    case Submit(tid) => SubmitKeepsQueues(s.execQueue, s.bundleQueue, s.tasks, tid);
    case Fire(tid) => AttemptKeepsQueues(s.execQueue, s.bundleQueue, s.tasks, tid, Attempt);
    case SendBundleNow(tid) => AttemptKeepsQueues(s.execQueue, s.bundleQueue, s.tasks, tid, DebugCall);
    case Validate(tid, outcome) =>
      if outcome.None? { FinishStaysOrderly(s, tid); } else { InsertStaysOrderly(s, tid, outcome.value); }
    case Acquire(tid) => MoveStaysOrderly(s, tid, Polling(StartScan(s.world)));
    case Head(tid, head) => HeadStaysOrderly(s, tid, head);
    case Answer(tid, evs) => AnswerStaysOrderly(s, tid, evs);
    case Begin(tid) => BeginStaysOrderly(s, tid);
    case Consider(tid) => ConsiderStaysOrderly(s, tid, s.tasks[tid].phase.pass);
    case Resolve(tid, validation, balance, hash) =>
      var p := s.tasks[tid].phase;
      CompleteStaysOrderly(s, tid, p.pass, Observed(p.paymasterStatus, p.factoryStatus, validation, balance, hash));
    case Close(tid) => CloseStaysOrderly(s, tid);
    case Deliver(tid, delivery) => DeliverStaysOrderly(s, tid, s.tasks[tid].phase.pass.loop.acc.bundle, delivery);
    case Throw(tid) => FinishStaysOrderly(s, tid);
    case _ =>
  }

  // ---- passes -----------------------------------------------------------------------------------------------

  lemma FreshPassOk(pool: Pool, config: Config)
    requires GetSortedForInclusion(pool).Ok?
    ensures PassOk(BundlePass(GetSortedForInclusion(pool).value, KnownSenders(pool.entries), Loop(START, [], false)), config)
  {
    var snapshot := SortByCost(pool.entries);
    FreshLoopFaithful(KnownSenders(pool.entries), config);
    Runs.SnapshotIsStableSort(pool.entries);
    forall e | e in snapshot
      ensures e.op.sender in KnownSenders(pool.entries)
    {
      assert e in multiset(snapshot);
      assert e in pool.entries;
    }
  }

  /** An iteration keeps the pass sound whatever it observes, and so whatever ran between its awaits. */
  lemma VisitKeepsPassOk(pass: BundlePass, o: Observed, config: Config)
    requires PassOk(pass, config) && !Exhausted(pass)
    ensures PassOk(Visited(pass, o, config), config)
  {
    VisitKeepsFaithful(pass.loop, NextEntry(pass), o, pass.known, config);
    var after := VisitEntry(pass.loop, NextEntry(pass), o, pass.known, config);
    assert after.log == pass.loop.log + [Visit(NextEntry(pass), o, FateIn(pass, o, config))];
  }

  /** An action touches at most the task it belongs to; a new task is not in a pass. */
  lemma OthersKeepTheirPhase(s: Sys, a: Action, x: TaskId)
    requires Enabled(s, a) && x in Next(s, a).tasks && Actor(a) != Some(x)
    ensures x in s.tasks ==> Next(s, a).tasks[x] == s.tasks[x]
    ensures x !in s.tasks ==> !HasPass(Next(s, a).tasks[x].phase)
    ensures Next(s, a).config == s.config
  {
  }

  lemma BeginPhaseOk(s: Sys, tid: TaskId)
    requires tid in s.tasks
    ensures PhaseOk(BeginPass(s, tid).tasks[tid].phase, s.config)
  {
    if GetSortedForInclusion(s.world.pool).Ok? { FreshPassOk(s.world.pool, s.config); }
  }

  lemma CompletePhaseOk(s: Sys, tid: TaskId, pass: BundlePass, o: Observed)
    requires tid in s.tasks && PassOk(pass, s.config) && !Exhausted(pass)
    ensures PhaseOk(Complete(s, tid, pass, o).tasks[tid].phase, s.config)
  {
    VisitKeepsPassOk(pass, o, s.config);
  }

  lemma ConsiderPhaseOk(s: Sys, tid: TaskId, pass: BundlePass)
    requires tid in s.tasks && PassOk(pass, s.config) && !Exhausted(pass)
    ensures PhaseOk(ConsiderNext(s, tid, pass).tasks[tid].phase, s.config)
  {
    var e := NextEntry(pass);
    var p, f := Rep.GetStatus(s.world.rep, Paymaster(e.op)), Rep.GetStatus(s.world.rep, Factory(e.op));
    CompletePhaseOk(s, tid, pass, Observed(p, f, None, 0, 0));
  }

  lemma DeliveredOutside(s: Sys, tid: TaskId, bundle: seq<UserOp>, delivery: Delivery)
    requires tid in s.tasks
    ensures !HasPass(AfterDelivery(s, tid, bundle, delivery).tasks[tid].phase)
  {
  }

  lemma OutsideThePass(s: Sys, a: Action, tid: TaskId)
    requires Enabled(s, a) && Actor(a) == Some(tid) && (a.Validate? || a.Answer? || a.Deliver?)
    ensures !HasPass(Next(s, a).tasks[tid].phase)
  {
    match a
    case Deliver(_, delivery) => DeliveredOutside(s, tid, s.tasks[tid].phase.pass.loop.acc.bundle, delivery);
    case _ =>
  }

  lemma ActorPhaseOk(s: Sys, a: Action, tid: TaskId)
    requires Enabled(s, a) && Actor(a) == Some(tid) && PhaseOk(s.tasks[tid].phase, s.config)
    ensures PhaseOk(Next(s, a).tasks[tid].phase, s.config)
  {
    match a
    case Begin(_) => BeginPhaseOk(s, tid);
    case Consider(_) => ConsiderPhaseOk(s, tid, s.tasks[tid].phase.pass);
    case Resolve(_, validation, balance, hash) =>
      var p := s.tasks[tid].phase;
      CompletePhaseOk(s, tid, p.pass, Observed(p.paymasterStatus, p.factoryStatus, validation, balance, hash));
    case Validate(_, _) => OutsideThePass(s, a, tid);
    case Answer(_, _) => OutsideThePass(s, a, tid);
    case Deliver(_, _) => OutsideThePass(s, a, tid);
    case _ =>
  }

  lemma StepKeepsPasses(s: Sys, a: Action)
    requires PassesOk(s.tasks, s.config) && Enabled(s, a)
    ensures PassesOk(Next(s, a).tasks, Next(s, a).config)
  {
    var t := Next(s, a);
    forall x | x in t.tasks
      ensures PhaseOk(t.tasks[x].phase, t.config)
    {
      if Actor(a) == Some(x) {
        SameConfig(s, a);
        ActorPhaseOk(s, a, x);
      } else {
        OthersKeepTheirPhase(s, a, x);
      }
    }
  }

  lemma SameConfig(s: Sys, a: Action)
    requires Enabled(s, a)
    ensures Next(s, a).config == s.config
  {
  }
}
