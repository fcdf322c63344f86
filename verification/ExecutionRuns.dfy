/** What holds over every interleaving: mutual exclusion, progress, sound bundles, and lasting crash bans. */
module ExecutionRuns {
  import opened Common
  import opened Mempool
  import opened Bundle
  import opened BundleRuns
  import opened Execution
  import Events
  import Rep = Reputation
  import Runs = MempoolRuns

  // ---- one entry per slot ---------------------------------------------------------------------------------

  ghost predicate Unique(pool: Pool) {
    Runs.UniqueSlots(pool.entries)
  }

  lemma RemoveKeepsUnique(pool: Pool, rep: Rep.Ledger, target: Target)
    requires Unique(pool)
    ensures Unique(RemoveUserOp(pool, target))
  {
    Runs.StepKeepsUniqueSlots(Runs.State(pool, rep), Runs.Remove(target));
  }

  lemma {:induction false} EventsKeepUnique(w: Events.World, evs: seq<Events.Event>)
    requires Unique(w.pool)
    ensures Unique(Events.HandleAll(w, evs).pool)
  {
    if evs != [] {
      var front, last := evs[..|evs| - 1], evs[|evs| - 1];
      EventsKeepUnique(w, front);
      EventKeepsUnique(Events.HandleAll(w, front), last);
    }
  }

  lemma EventKeepsUnique(w: Events.World, ev: Events.Event)
    requires Unique(w.pool)
    ensures Unique(Events.NextPool(w.pool, ev))
  {
    if ev.UserOperationEvent? { RemoveKeepsUnique(w.pool, w.rep, ByHash(ev.userOpHash)); }
  }

  lemma InsertKeepsUnique(pool: Pool, rep: Rep.Ledger, req: Request)
    requires Unique(pool)
    ensures Unique(AddUserOp(pool, rep, req).pool)
  {
    Runs.StepKeepsUniqueSlots(Runs.State(pool, rep), Runs.Insert(req));
  }

  lemma CompleteKeepsUnique(s: Sys, tid: TaskId, pass: BundlePass, o: Observed)
    requires tid in s.tasks && !Exhausted(pass) && Unique(s.world.pool)
    ensures Unique(Complete(s, tid, pass, o).world.pool)
  {
    PoolAfterIsFilter(s.world.pool, Visit(NextEntry(pass), o, FateIn(pass, o, s.config)));
  }

  lemma ConsiderKeepsUnique(s: Sys, tid: TaskId, pass: BundlePass)
    requires tid in s.tasks && !Exhausted(pass) && Unique(s.world.pool)
    ensures Unique(ConsiderNext(s, tid, pass).world.pool)
  {
    var e := NextEntry(pass);
    var p, f := Rep.GetStatus(s.world.rep, Paymaster(e.op)), Rep.GetStatus(s.world.rep, Factory(e.op));
    CompleteKeepsUnique(s, tid, pass, Observed(p, f, None, 0, 0));
  }

  lemma DeliverKeepsUnique(s: Sys, tid: TaskId, bundle: seq<UserOp>, delivery: Delivery)
    requires tid in s.tasks && Unique(s.world.pool)
    ensures Unique(AfterDelivery(s, tid, bundle, delivery).world.pool)
  {
    if delivery.FailedOp? && delivery.opIndex < |bundle| {
      var op := bundle[delivery.opIndex];
      RemoveKeepsUnique(s.world.pool, s.world.rep, ByOp(op.sender, op.nonce));
    }
  }

  lemma StepKeepsUnique(s: Sys, a: Action)
    requires Unique(s.world.pool) && Enabled(s, a)
    ensures Unique(Next(s, a).world.pool)
  {
    match a
    case Validate(_, outcome) =>
      if outcome.Some? { InsertKeepsUnique(s.world.pool, s.world.rep, outcome.value); }
    case Answer(_, evs) => EventsKeepUnique(s.world, evs);
    case Consider(tid) => ConsiderKeepsUnique(s, tid, s.tasks[tid].phase.pass);
    case Resolve(tid, validation, balance, hash) =>
      var p := s.tasks[tid].phase;
      CompleteKeepsUnique(s, tid, p.pass, Observed(p.paymasterStatus, p.factoryStatus, validation, balance, hash));
    case Deliver(tid, delivery) => DeliverKeepsUnique(s, tid, s.tasks[tid].phase.pass.loop.acc.bundle, delivery);
    case Live(ev) => EventKeepsUnique(s.world, ev);
    case _ =>
  }

  // ---- the invariant over runs ----------------------------------------------------------------------------

  lemma StepKeepsInv(s: Sys, a: Action)
    requires Inv(s) && Enabled(s, a)
    ensures Inv(Next(s, a))
  {
    StepStaysOrderly(s, a);
    StepKeepsPasses(s, a);
    StepKeepsUnique(s, a);
  }

  lemma {:induction false} InvHolds(s: Sys, actions: seq<Action>, end: Sys)
    requires Inv(s) && Run(s, actions, end)
    ensures Inv(end)
    decreases |actions|
  {
    if actions != [] {
      StepKeepsInv(s, actions[0]);
      InvHolds(Next(s, actions[0]), actions[1..], end);
    }
  }

  /** However submissions, timers and chain events interleave, at most one bundle pass is running. */
  lemma OnePassAtATime(s: Sys, actions: seq<Action>, end: Sys, x: TaskId, y: TaskId)
    requires Initial(s) && Run(s, actions, end)
    requires x in end.tasks && y in end.tasks && HoldsBundle(end.tasks[x].phase) && HoldsBundle(end.tasks[y].phase)
    ensures x == y
  {
    InvHolds(s, actions, end);
    Holder(end, x);
    Holder(end, y);
  }

  function ScanStep(tid: TaskId, scan: Scan): Action {
    if scan.AwaitingHead? then Head(tid, 0) else Answer(tid, [])
  }

  lemma PassTaskMoves(s: Sys, tid: TaskId) returns (a: Action)
    requires Inv(s) && tid in s.tasks && HoldsBundle(s.tasks[tid].phase)
    ensures Enabled(s, a) && Actor(a) == Some(tid)
  {
    assert PhaseOk(s.tasks[tid].phase, s.config);
    match s.tasks[tid].phase
    case Polling(scan) => a := ScanStep(tid, scan);
    case Polled => a := Begin(tid);
    case Looping(pass) => a := if Exhausted(pass) then Close(tid) else Consider(tid);
    case Validating(_, _, _) => a := Resolve(tid, None, 0, 0);
    case Sending(_) => a := Deliver(tid, Accepted);
  }

  /**
   * No reachable state is stuck: while any task is unfinished, some task can take a step of its own, so the
   * two mutexes never block each other.
   */
  lemma NoDeadlock(s: Sys, actions: seq<Action>, end: Sys, unfinished: TaskId) returns (a: Action)
    requires Initial(s) && Run(s, actions, end)
    requires unfinished in end.tasks && !end.tasks[unfinished].phase.Done?
    ensures Enabled(end, a) && Actor(a).Some?
  {
    InvHolds(s, actions, end);
    if end.bundleQueue != [] {
      var head := end.bundleQueue[0];
      assert head in end.bundleQueue;
      if end.tasks[head].phase.AwaitingBundle? {
        a := Acquire(head);
      } else {
        a := PassTaskMoves(end, head);
      }
    } else {
      assert unfinished !in end.bundleQueue;
      if Outside(end.tasks[unfinished].phase) {
        a := ScanStep(unfinished, end.tasks[unfinished].phase.scan);
      } else {
        assert TaskOk(end.execQueue, end.bundleQueue, unfinished, end.tasks[unfinished]);
        assert unfinished in end.execQueue;
        var head := end.execQueue[0];
        assert head in end.execQueue && head !in end.bundleQueue;
        a := if end.tasks[head].phase.AwaitingExec? then Validate(head, None) else ScanStep(head, end.tasks[head].phase.scan);
      }
    }
  }

  /** How far a task is from its end: its stage, and how much of the loop is left. */
  function Stage(p: Phase): nat {
    match p
    case AwaitingExec => 11
    case AwaitingBundle => 10
    case Polling(scan) => if scan.AwaitingHead? then 9 else 8
    case Polled => 7
    case Looping(_) => 6
    case Validating(_, _, _) => 6
    case Sending(_) => 5
    case Flushing(scan) => if scan.AwaitingHead? then 4 else 3
    case Trailing(scan) => if scan.AwaitingHead? then 2 else 1
    case Done => 0
  }

  function Unseen(p: Phase): int {
    if p.Looping? then 2 * (|p.pass.snapshot| - |p.pass.loop.log|) + 1
    else if p.Validating? then 2 * (|p.pass.snapshot| - |p.pass.loop.log|)
    else 0
  }

  predicate Closer(p: Phase, q: Phase) {
    Stage(p) < Stage(q) || (Stage(p) == Stage(q) && 0 <= Unseen(p) < Unseen(q))
  }

  lemma CompleteCloser(s: Sys, tid: TaskId, pass: BundlePass, o: Observed)
    requires tid in s.tasks && !Exhausted(pass)
    ensures var p := Complete(s, tid, pass, o).tasks[tid].phase;
      p.Looping? && Unseen(p) == 2 * (|pass.snapshot| - |pass.loop.log|) - 1 && Unseen(p) >= 0
  {
  }

  lemma ConsiderCloser(s: Sys, tid: TaskId)
    requires Enabled(s, Consider(tid))
    ensures Closer(Next(s, Consider(tid)).tasks[tid].phase, s.tasks[tid].phase)
  {
    var pass := s.tasks[tid].phase.pass;
    var e := NextEntry(pass);
    CompleteCloser(s, tid, pass,
      Observed(Rep.GetStatus(s.world.rep, Paymaster(e.op)), Rep.GetStatus(s.world.rep, Factory(e.op)), None, 0, 0));
  }

  lemma ResolveCloser(s: Sys, a: Action)
    requires a.Resolve? && Enabled(s, a)
    ensures Closer(Next(s, a).tasks[a.tid].phase, s.tasks[a.tid].phase)
  {
    var p := s.tasks[a.tid].phase;
    CompleteCloser(s, a.tid, p.pass, Observed(p.paymasterStatus, p.factoryStatus, a.validation, a.balance, a.storageHash));
  }

  lemma AnswerCloser(s: Sys, a: Action)
    requires a.Answer? && Enabled(s, a)
    ensures Closer(Next(s, a).tasks[a.tid].phase, s.tasks[a.tid].phase)
  {
  }

  lemma ValidateCloser(s: Sys, a: Action)
    requires a.Validate? && Enabled(s, a)
    ensures Closer(Next(s, a).tasks[a.tid].phase, s.tasks[a.tid].phase)
  {
    if a.outcome.Some? { assert Stage(Insert(s, a.tid, a.outcome.value).tasks[a.tid].phase) <= 10; }
  }

  lemma DeliverCloser(s: Sys, tid: TaskId, bundle: seq<UserOp>, delivery: Delivery)
    requires tid in s.tasks
    ensures Stage(AfterDelivery(s, tid, bundle, delivery).tasks[tid].phase) <= 4
  {
  }

  /** Each step of a task brings it closer to its end. */
  lemma OwnStepsFinish(s: Sys, a: Action, tid: TaskId)
    requires Enabled(s, a) && Actor(a) == Some(tid)
    ensures Closer(Next(s, a).tasks[tid].phase, s.tasks[tid].phase)
  {
    match a
    case Consider(_) => ConsiderCloser(s, tid);
    case Resolve(_, _, _, _) => ResolveCloser(s, a);
    case Begin(_) => assert Stage(BeginPass(s, tid).tasks[tid].phase) <= 6;
    case Answer(_, _) => AnswerCloser(s, a);
    case Validate(_, _) => ValidateCloser(s, a);
    case Deliver(_, delivery) => DeliverCloser(s, tid, s.tasks[tid].phase.pass.loop.acc.bundle, delivery);
    case Close(_) => assert Stage(Next(s, a).tasks[tid].phase) <= 5;
    case _ =>
  }

  /**
   * A fresh operation that is accepted goes on to the bundle mutex exactly when the mempool has reached, with it, the
   * size that was last set; below that its submission ends at once.
   */
  lemma FullMempoolIsAttempted(s: Sys, size: nat, tid: TaskId, req: Request)
    requires Enabled(s, Validate(tid, Some(req)))
    requires var ev, now := Runs.Insert(req), Runs.State(s.world.pool, s.world.rep); Runs.Fresh(now, ev) && Runs.Accepted(now, ev)
    ensures var resized := Next(s, SetAutoBundler(size));
      Next(resized, Validate(tid, Some(req))).tasks[tid].phase ==
        if |s.world.pool.entries| + 1 >= size then AwaitingBundle else Done
  {
  }

  // ---- bundles under interference -------------------------------------------------------------------------

  /** What a bundle guarantees in terms of the snapshot its pass started from. */
  ghost predicate BundleSound(pass: BundlePass, config: Config) {
    var bs := Bundled(pass.loop.log);
    && pass.loop.acc.bundle == Ops(bs)
    && (forall v :: v in bs ==> v.entry in pass.snapshot)
    && (forall i, j :: 0 <= i < j < |bs| ==> bs[i].entry.op.sender != bs[j].entry.op.sender)
    && GasSum(bs) <= config.maxBundleGas
    && (forall p :: PrefundSum(bs, p) <= Available(pass.loop.log, p, 0))
    && (forall i, j :: 0 <= i < |bs| && 0 <= j < |bs| && i != j ==> bs[j].entry.op.sender !in Reported(bs[i]).storageMap)
  }

  lemma PassSound(pass: BundlePass, config: Config)
    requires PassOk(pass, config)
    ensures BundleSound(pass, config)
  {
    var log, known := pass.loop.log, pass.known;
    SendersDistinct(log, known, config);
    GasBounded(log, known, config);
    forall p
      ensures PrefundSum(Bundled(log), p) <= Available(log, p, 0)
    {
      PaymastersSolvent(log, known, config, p);
    }
    forall i, j | 0 <= i < |Bundled(log)| && 0 <= j < |Bundled(log)| && i != j
      ensures Bundled(log)[j].entry.op.sender !in Reported(Bundled(log)[i]).storageMap
    {
      StorageIsolated(log, known, config, i, j);
    }
    forall v | v in Bundled(log)
      ensures v.entry in pass.snapshot
    {
      BundledMembers(log, v);
      var k :| 0 <= k < |log| && log[k] == v;
      assert log[k].entry == pass.snapshot[k];
    }
  }

  /**
   * In every reachable state the bundle a pass has built has distinct senders, respects the gas limit,
   * is covered by the paymaster balances it read, and keeps its operations' storage apart - whatever
   * was inserted, removed, mined or re-scored while the pass was suspended.
   */
  lemma BundlesSoundUnderInterference(s: Sys, actions: seq<Action>, end: Sys, tid: TaskId)
    requires Initial(s) && Run(s, actions, end)
    requires tid in end.tasks && HasPass(end.tasks[tid].phase)
    ensures BundleSound(end.tasks[tid].phase.pass, end.config)
  {
    InvHolds(s, actions, end);
    assert PhaseOk(end.tasks[tid].phase, end.config);
    PassSound(end.tasks[tid].phase.pass, end.config);
  }

  /**
   * And the bundle that is sent is a whole pass: every entry of the snapshot was visited in order, unless the gas limit
   * cut it short, and the limit cut it at the last visit.
   */
  lemma SentPassIsWhole(s: Sys, actions: seq<Action>, end: Sys, tid: TaskId)
    requires Initial(s) && Run(s, actions, end)
    requires tid in end.tasks && end.tasks[tid].phase.Sending?
    ensures var pass := end.tasks[tid].phase.pass;
      && |pass.loop.log| <= |pass.snapshot|
      && (forall k :: 0 <= k < |pass.loop.log| ==> pass.loop.log[k].entry == pass.snapshot[k])
      && (|pass.loop.log| < |pass.snapshot| ==> pass.loop.log != [] && pass.loop.log[|pass.loop.log| - 1].fate.OverGas?)
      && (forall k :: 0 <= k < |pass.loop.log| - 1 ==> !pass.loop.log[k].fate.OverGas?)
  {
    InvHolds(s, actions, end);
    assert PhaseOk(end.tasks[tid].phase, end.config);
  }

  // ---- crash, ban, exclusion ------------------------------------------------------------------------------

  /** The pass has dropped every entry using `a` that it reached. */
  ghost predicate Shuns(pass: BundlePass, a: Address) {
    forall v :: v in pass.loop.log && UsesEntity(v.entry.op, a) ==> v.fate.Banned?
  }

  ghost predicate PhaseShuns(p: Phase, a: Address) {
    && (HasPass(p) ==> Shuns(p.pass, a))
    && (p.Validating? && !Exhausted(p.pass) ==> !UsesEntity(NextEntry(p.pass).op, a))
  }

  ghost predicate AllShun(s: Sys, a: Address) {
    forall tid :: tid in s.tasks ==> PhaseShuns(s.tasks[tid].phase, a)
  }

  /** Cron ticks and the debug calls that rewrite scores are what can end a ban early. */
  predicate Quiet(act: Action) {
    !act.Cron? && !act.ClearReputation? && !act.SetReputation?
  }

  /** How often an event credits `a` with an inclusion. */
  function Credits(t: Events.Tracker, ev: Events.Event, a: Address): nat {
    match ev
    case UserOperationEvent(_, tx, _, sender, paymaster) =>
      Hit(Some(sender), a) + Hit(Some(paymaster), a) + Hit(Events.GetEventAggregator(t, tx).eventAggregator, a)
    case AccountDeployed(_, _, factory) => Hit(Some(factory), a)
    case _ => 0
  }

  function CreditsOf(w: Events.World, evs: seq<Events.Event>, a: Address): nat {
    if evs == [] then 0
    else
      var front, last := evs[..|evs| - 1], evs[|evs| - 1];
      CreditsOf(w, front, a) + Credits(Events.HandleAll(w, front).tracker, last, a)
  }

  function CreditsBy(s: Sys, act: Action, a: Address): nat {
    match act
    case Answer(_, evs) => CreditsOf(s.world, evs, a)
    case Live(ev) => Credits(s.world.tracker, ev, a)
    case _ => 0
  }

  ghost predicate QuietRun(s: Sys, actions: seq<Action>, a: Address, budget: nat)
    decreases |actions|
  {
    actions == [] ||
    (&& Enabled(s, actions[0]) && Quiet(actions[0])
     && CreditsBy(s, actions[0], a) <= budget
     && QuietRun(Next(s, actions[0]), actions[1..], a, budget - CreditsBy(s, actions[0], a)))
  }

  lemma CreditKeepsBan(rep: Rep.Ledger, who: Option<Address>, a: Address, budget: nat)
    requires Rep.BannedFor(rep, a, budget) && Hit(who, a) <= budget
    ensures Rep.BannedFor(Events.IncludedAddress(rep, who), a, budget - Hit(who, a))
  {
    if who.Some? { Rep.BanSurvivesUpdate(rep, a, Rep.Included(who.value), budget); }
  }

  lemma EventKeepsBan(t: Events.Tracker, rep: Rep.Ledger, ev: Events.Event, a: Address, budget: nat)
    requires Rep.BannedFor(rep, a, budget) && Credits(t, ev, a) <= budget
    ensures Rep.BannedFor(Events.NextRep(t, rep, ev), a, budget - Credits(t, ev, a))
  {
    match ev
    case UserOperationEvent(_, tx, _, sender, paymaster) =>
      var b1 := budget - Hit(Some(sender), a);
      var b2 := b1 - Hit(Some(paymaster), a);
      var r1 := Events.IncludedAddress(rep, Some(sender));
      var r2 := Events.IncludedAddress(r1, Some(paymaster));
      CreditKeepsBan(rep, Some(sender), a, budget);
      CreditKeepsBan(r1, Some(paymaster), a, b1);
      CreditKeepsBan(r2, Events.GetEventAggregator(t, tx).eventAggregator, a, b2);
    case AccountDeployed(_, _, factory) => CreditKeepsBan(rep, Some(factory), a, budget);
    case _ =>
  }

  lemma {:induction false} EventsKeepBan(w: Events.World, evs: seq<Events.Event>, a: Address, budget: nat)
    requires Rep.BannedFor(w.rep, a, budget) && CreditsOf(w, evs, a) <= budget
    ensures Rep.BannedFor(Events.HandleAll(w, evs).rep, a, budget - CreditsOf(w, evs, a))
  {
    if evs != [] {
      var front, last := evs[..|evs| - 1], evs[|evs| - 1];
      EventsKeepBan(w, front, a, budget);
      var mid := Events.HandleAll(w, front);
      EventKeepsBan(mid.tracker, mid.rep, last, a, budget - CreditsOf(w, front, a));
    }
  }

  lemma SeenKeepsBan(rep: Rep.Ledger, who: Option<Address>, a: Address, budget: nat)
    requires Rep.BannedFor(rep, a, budget)
    ensures Rep.BannedFor(Rep.UpdateSeenStatus(rep, who), a, budget)
  {
    Rep.BanSurvivesUpdate(rep, a, Rep.Seen(who), budget);
  }

  lemma InsertKeepsBan(pool: Pool, rep: Rep.Ledger, req: Request, a: Address, budget: nat)
    requires Rep.BannedFor(rep, a, budget)
    ensures Rep.BannedFor(AddUserOp(pool, rep, req).rep, a, budget)
  {
    var r0 := if Rep.CheckStake(rep, req.senderInfo).Pass? then Rep.UpdateSeenStatus(rep, Some(req.op.sender)) else rep;
    var r1 := Rep.UpdateSeenStatus(r0, EntryOf(req).aggregator);
    var r2 := Rep.UpdateSeenStatus(r1, Paymaster(req.op));
    SeenKeepsBan(rep, Some(req.op.sender), a, budget);
    SeenKeepsBan(r0, EntryOf(req).aggregator, a, budget);
    SeenKeepsBan(r1, Paymaster(req.op), a, budget);
    SeenKeepsBan(r2, Factory(req.op), a, budget);
  }

  lemma DeliverKeepsBan(s: Sys, tid: TaskId, bundle: seq<UserOp>, delivery: Delivery, a: Address, budget: nat)
    requires tid in s.tasks && Rep.BannedFor(s.world.rep, a, budget)
    ensures Rep.BannedFor(AfterDelivery(s, tid, bundle, delivery).world.rep, a, budget)
  {
    if delivery.FailedOp? && delivery.opIndex < |bundle| {
      var op := bundle[delivery.opIndex];
      Rep.BanSurvivesUpdate(s.world.rep, a, Rep.Crash(Paymaster(op)), budget);
      Rep.BanSurvivesUpdate(s.world.rep, a, Rep.Crash(Factory(op)), budget);
      Rep.BanSurvivesUpdate(s.world.rep, a, Rep.Crash(Some(op.sender)), budget);
    }
  }

  lemma StepKeepsBan(s: Sys, act: Action, a: Address, budget: nat)
    requires Enabled(s, act) && Quiet(act) && Rep.BannedFor(s.world.rep, a, budget) && CreditsBy(s, act, a) <= budget
    ensures Rep.BannedFor(Next(s, act).world.rep, a, budget - CreditsBy(s, act, a))
  {
    match act
    case Validate(_, outcome) =>
      if outcome.Some? { InsertKeepsBan(s.world.pool, s.world.rep, outcome.value, a, budget); }
    case Answer(_, evs) => EventsKeepBan(s.world, evs, a, budget);
    case Live(ev) => EventKeepsBan(s.world.tracker, s.world.rep, ev, a, budget);
    case Deliver(tid, delivery) => DeliverKeepsBan(s, tid, s.tasks[tid].phase.pass.loop.acc.bundle, delivery, a, budget);
    case Begin(tid) => assert BeginPass(s, tid).world == s.world;
    case Consider(tid) => assert ConsiderNext(s, tid, s.tasks[tid].phase.pass).world.rep == s.world.rep;
    case _ =>
  }

  lemma CompleteShuns(s: Sys, tid: TaskId, pass: BundlePass, o: Observed, a: Address)
    requires tid in s.tasks && !Exhausted(pass) && Shuns(pass, a)
    requires UsesEntity(NextEntry(pass).op, a) ==> FateIn(pass, o, s.config).Banned?
    ensures PhaseShuns(Complete(s, tid, pass, o).tasks[tid].phase, a)
  {
    assert Visited(pass, o, s.config).loop.log == pass.loop.log + [Visit(NextEntry(pass), o, FateIn(pass, o, s.config))];
  }

  /** While `a` is banned, an entry using it is dropped as soon as the loop reaches it. */
  lemma ConsiderShuns(s: Sys, tid: TaskId, pass: BundlePass, a: Address)
    requires tid in s.tasks && !Exhausted(pass) && Shuns(pass, a)
    requires Rep.GetStatus(s.world.rep, Some(a)) == Rep.BANNED
    ensures PhaseShuns(ConsiderNext(s, tid, pass).tasks[tid].phase, a)
  {
    var e := NextEntry(pass);
    var p, f := Rep.GetStatus(s.world.rep, Paymaster(e.op)), Rep.GetStatus(s.world.rep, Factory(e.op));
    if EarlyFate(pass.loop.acc, e, p, f).Some? {
      CompleteShuns(s, tid, pass, Observed(p, f, None, 0, 0), a);
    }
  }

  lemma ActorShuns(s: Sys, act: Action, tid: TaskId, a: Address)
    requires Enabled(s, act) && Actor(act) == Some(tid) && PhaseShuns(s.tasks[tid].phase, a)
    requires Rep.GetStatus(s.world.rep, Some(a)) == Rep.BANNED
    ensures PhaseShuns(Next(s, act).tasks[tid].phase, a)
  {
    match act
    case Consider(_) => ConsiderShuns(s, tid, s.tasks[tid].phase.pass, a);
    case Resolve(_, validation, balance, hash) =>
      var p := s.tasks[tid].phase;
      CompleteShuns(s, tid, p.pass, Observed(p.paymasterStatus, p.factoryStatus, validation, balance, hash), a);
    case Validate(_, _) => OutsideThePass(s, act, tid);
    case Answer(_, _) => OutsideThePass(s, act, tid);
    case Deliver(_, _) => OutsideThePass(s, act, tid);
    case _ =>
  }

  lemma StepKeepsShunning(s: Sys, act: Action, a: Address)
    requires Enabled(s, act) && AllShun(s, a) && Rep.GetStatus(s.world.rep, Some(a)) == Rep.BANNED
    ensures AllShun(Next(s, act), a)
  {
    var t := Next(s, act);
    forall x | x in t.tasks
      ensures PhaseShuns(t.tasks[x].phase, a)
    {
      if Actor(act) == Some(x) {
        ActorShuns(s, act, x, a);
      } else {
        OthersKeepTheirPhase(s, act, x);
      }
    }
  }

  lemma {:induction false} BanOutlastsRun(s: Sys, actions: seq<Action>, end: Sys, a: Address, budget: nat)
    requires Run(s, actions, end) && QuietRun(s, actions, a, budget)
    requires Rep.BannedFor(s.world.rep, a, budget) && AllShun(s, a)
    ensures Rep.GetStatus(end.world.rep, Some(a)) == Rep.BANNED && AllShun(end, a)
    decreases |actions|
  {
    Rep.BannedForMeansBanned(s.world.rep, a, budget);
    if actions != [] {
      StepKeepsBan(s, actions[0], a, budget);
      StepKeepsShunning(s, actions[0], a);
      BanOutlastsRun(Next(s, actions[0]), actions[1..], end, a, budget - CreditsBy(s, actions[0], a));
    }
  }

  function Blamed(op: UserOp, blame: Blame): Option<Address> {
    match blame
    case AA3 => Paymaster(op)
    case AA2 => Some(op.sender)
    case AA1 => Factory(op)
    case Unattributed => None
  }

  /** No operation of the bundle under construction uses `a`. */
  ghost predicate BundleAvoids(pass: BundlePass, a: Address) {
    forall op :: op in pass.loop.acc.bundle ==> !UsesEntity(op, a)
  }

  lemma {:induction false} OpsMembers(bs: seq<Visit>, op: UserOp)
    requires op in Ops(bs)
    ensures exists v :: v in bs && v.entry.op == op
  {
    var n := |bs| - 1;
    if op != bs[n].entry.op {
      OpsMembers(bs[..n], op);
      var v :| v in bs[..n] && v.entry.op == op;
      assert v in bs;
    }
  }

  lemma ShunnedBundle(pass: BundlePass, config: Config, a: Address)
    requires PassOk(pass, config) && Shuns(pass, a)
    ensures BundleAvoids(pass, a)
  {
    forall op | op in pass.loop.acc.bundle
      ensures !UsesEntity(op, a)
    {
      OpsMembers(Bundled(pass.loop.log), op);
      var v :| v in Bundled(pass.loop.log) && v.entry.op == op;
      BundledMembers(pass.loop.log, v);
    }
  }

  /** The step that records the crash ends its own pass, and by mutual exclusion no other is running. */
  lemma NoPassAfterCrash(s: Sys, tid: TaskId, i: nat, blame: Blame, a: Address)
    requires Inv(s) && Enabled(s, Deliver(tid, FailedOp(i, blame)))
    ensures AllShun(Next(s, Deliver(tid, FailedOp(i, blame))), a)
  {
    var act := Deliver(tid, FailedOp(i, blame));
    var t := Next(s, act);
    forall x | x in t.tasks
      ensures PhaseShuns(t.tasks[x].phase, a)
    {
      if x == tid {
        assert !HasPass(t.tasks[x].phase);
      } else {
        OthersKeepTheirPhase(s, act, x);
        Holder(s, tid);
        Holder(s, x);
      }
    }
  }

  ghost function ScoreOf(rep: Rep.Ledger, a: Address): Rep.Entry {
    if a in rep.entries then rep.entries[a] else Rep.Entry(0, 0)
  }

  /** The failed operation an answer points at, when its index is in range. */
  ghost function FailedIn(bundle: seq<UserOp>, delivery: Delivery): Option<UserOp> {
    if delivery.FailedOp? && delivery.opIndex < |bundle| then Some(bundle[delivery.opIndex]) else None
  }

  /**
   * What the answer to a sent bundle does. The failed operation it points at is blamed by the prefix of its reason: the
   * blamed party is charged 10000 sightings and loses its inclusions, and without a known prefix the operation's slot is
   * emptied. Any other answer changes nothing.
   */
  lemma DeliveryOutcome(w: Events.World, bundle: seq<UserOp>, delivery: Delivery, a: Address)
    requires Unique(w.pool)
    ensures var t, failed := AfterSending(w, bundle, delivery), FailedIn(bundle, delivery);
      && ScoreOf(t.rep, a) ==
         (if failed.Some? && Blamed(failed.value, delivery.blame) == Some(a)
          then Rep.Entry(ScoreOf(w.rep, a).opsSeen + 10000, 0) else ScoreOf(w.rep, a))
      && (if failed.Some? && delivery.blame.Unattributed?
          then FindBySenderNonce(t.pool.entries, failed.value.sender, failed.value.nonce).None?
          else t.pool == w.pool)
  {
    var failed := FailedIn(bundle, delivery);
    if failed.Some? && delivery.blame.Unattributed? { SlotEmptied(w.pool, failed.value); }
  }

  /** The attempt ends at once exactly when the error is fatal, or points outside the bundle, or nothing is left to scan for. */
  lemma DeliveryEndsExactly(s: Sys, tid: TaskId, delivery: Delivery)
    requires Enabled(s, Deliver(tid, delivery))
    ensures Next(s, Deliver(tid, delivery)).tasks[tid].phase.Done? <==>
      || delivery.Fatal?
      || (delivery.FailedOp? && delivery.opIndex >= |s.tasks[tid].phase.pass.loop.acc.bundle|)
      || (s.maxMempoolSize != 0 && !s.tasks[tid].origin.DebugCall?)
  {
  }

  lemma SlotEmptied(pool: Pool, op: UserOp)
    requires Unique(pool)
    ensures FindBySenderNonce(RemoveUserOp(pool, ByOp(op.sender, op.nonce)).entries, op.sender, op.nonce).None?
  {
    RemovedSlotIsEmpty(pool, Entry(op, 0, 0, ReferencedCodeHashes([], 0), None));
  }

  lemma CrashStartsBan(s: Sys, tid: TaskId, i: nat, blame: Blame, a: Address)
    requires Enabled(s, Deliver(tid, FailedOp(i, blame)))
    requires i < |s.tasks[tid].phase.pass.loop.acc.bundle| && Blamed(s.tasks[tid].phase.pass.loop.acc.bundle[i], blame) == Some(a)
    requires s.world.rep.config.params == Rep.BUNDLER_PARAMS && a !in s.world.rep.whitelist
    requires a in s.world.rep.entries ==> s.world.rep.entries[a].opsSeen >= 0
    ensures Rep.BannedFor(Next(s, Deliver(tid, FailedOp(i, blame))).world.rep, a, 949)
  {
    Rep.CrashBans(s.world.rep, a, 949);
  }

  /**
   * Crash, ban, exclusion: once a failed bundle is blamed on a paymaster or factory off the white list,
   * then along every run without cron ticks or debug changes and with fewer than 950 inclusions credited
   * to it, it stays banned, and no bundle of any later pass holds an operation using it.
   */
  lemma CrashExcludes(start: Sys, before: seq<Action>, s: Sys, tid: TaskId, i: nat, blame: Blame, a: Address,
                      after: seq<Action>, end: Sys)
    requires Initial(start) && Run(start, before, s)
    requires Enabled(s, Deliver(tid, FailedOp(i, blame)))
    requires i < |s.tasks[tid].phase.pass.loop.acc.bundle| && Blamed(s.tasks[tid].phase.pass.loop.acc.bundle[i], blame) == Some(a)
    requires s.world.rep.config.params == Rep.BUNDLER_PARAMS && a !in s.world.rep.whitelist
    requires a in s.world.rep.entries ==> s.world.rep.entries[a].opsSeen >= 0
    requires Run(Next(s, Deliver(tid, FailedOp(i, blame))), after, end)
    requires QuietRun(Next(s, Deliver(tid, FailedOp(i, blame))), after, a, 949)
    ensures Rep.GetStatus(end.world.rep, Some(a)) == Rep.BANNED
    ensures forall x :: x in end.tasks && HasPass(end.tasks[x].phase) ==>
      Shuns(end.tasks[x].phase.pass, a) && BundleAvoids(end.tasks[x].phase.pass, a)
  {
    var act := Deliver(tid, FailedOp(i, blame));
    InvHolds(start, before, s);
    CrashStartsBan(s, tid, i, blame, a);
    NoPassAfterCrash(s, tid, i, blame, a);
    BanOutlastsRun(Next(s, act), after, end, a, 949);
    assert Run(s, [act] + after, end) by { assert ([act] + after)[1..] == after; }
    InvHolds(s, [act] + after, end);
    forall x | x in end.tasks && HasPass(end.tasks[x].phase)
      ensures Shuns(end.tasks[x].phase.pass, a) && BundleAvoids(end.tasks[x].phase.pass, a)
    {
      assert PhaseShuns(end.tasks[x].phase, a) && PhaseOk(end.tasks[x].phase, end.config);
      ShunnedBundle(end.tasks[x].phase.pass, end.config, a);
    }
  }

  /** A reached entry that uses a banned address is recorded as dropped, and its slot is empty afterwards. */
  lemma ReachedEntryDropped(s: Sys, tid: TaskId, a: Address)
    requires Inv(s) && Enabled(s, Consider(tid)) && Rep.GetStatus(s.world.rep, Some(a)) == Rep.BANNED
    requires UsesEntity(NextEntry(s.tasks[tid].phase.pass).op, a)
    ensures var pass := s.tasks[tid].phase.pass;
      var e, t := NextEntry(pass), Next(s, Consider(tid));
      && t.tasks[tid].phase.Looping?
      && |t.tasks[tid].phase.pass.loop.log| == |pass.loop.log| + 1
      && t.tasks[tid].phase.pass.loop.log[|pass.loop.log|].fate.Banned?
      && FindBySenderNonce(t.world.pool.entries, e.op.sender, e.op.nonce).None?
  {
    var pass := s.tasks[tid].phase.pass;
    var e := NextEntry(pass);
    RemovedSlotIsEmpty(s.world.pool, e);
  }

  lemma RemovedSlotIsEmpty(pool: Pool, e: Entry)
    requires Unique(pool)
    ensures FindBySenderNonce(RemoveUserOp(pool, ByOp(e.op.sender, e.op.nonce)).entries, e.op.sender, e.op.nonce).None?
  {
    RemoveIsFilter(pool, e);
    var after := RemoveUserOp(pool, ByOp(e.op.sender, e.op.nonce)).entries;
    var found := FindBySenderNonce(after, e.op.sender, e.op.nonce);
    if found.Some? {
      SurvivorsNotGone(pool.entries, {KeyOf(e)}, after[found.value]);
    }
  }

  lemma {:induction false} SurvivorsNotGone(entries: seq<Entry>, gone: set<Key>, e: Entry)
    requires e in Surviving(entries, gone)
    ensures KeyOf(e) !in gone
  {
    var n := |entries| - 1;
    if KeyOf(entries[n]) in gone || e != entries[n] {
      SurvivorsNotGone(entries[..n], gone, e);
    }
  }

  /** The submission path rejects fresh operations using a banned address, and the mempool list stays as it is. */
  lemma FreshInsertRefused(s: Sys, tid: TaskId, req: Request, a: Address)
    requires Enabled(s, Validate(tid, Some(req))) && Runs.InfosMatch(req)
    requires FindBySenderNonce(s.world.pool.entries, req.op.sender, req.op.nonce).None?
    requires UsesEntity(req.op, a) && Rep.GetStatus(s.world.rep, Some(a)) == Rep.BANNED
    ensures Next(s, Validate(tid, Some(req))).tasks[tid].phase.Done?
    ensures Next(s, Validate(tid, Some(req))).world.pool.entries == s.world.pool.entries
  {
    Runs.BannedInsertRejected(Runs.State(s.world.pool, s.world.rep), req, a);
  }

  /**
   * What the loop does next depends on the scores only through the statuses of the next entry's paymaster and
   * factory: any other ledger, such as one in which its sender is banned, gives the same step.
   */
  lemma SenderStatusNotConsulted(s: Sys, tid: TaskId, rep: Rep.Ledger)
    requires Enabled(s, Consider(tid))
    requires var op := NextEntry(s.tasks[tid].phase.pass).op;
      && Rep.GetStatus(rep, Paymaster(op)) == Rep.GetStatus(s.world.rep, Paymaster(op))
      && Rep.GetStatus(rep, Factory(op)) == Rep.GetStatus(s.world.rep, Factory(op))
    ensures var other := s.(world := s.world.(rep := rep));
      && Enabled(other, Consider(tid))
      && Next(other, Consider(tid)).tasks == Next(s, Consider(tid)).tasks
      && Next(other, Consider(tid)).world.pool == Next(s, Consider(tid)).world.pool
  {
  }

  // ---- what ends a ban early ------------------------------------------------------------------------------

  /**
   * A cron tick or the debug call that clears the scores lifts every ban that the black list does not make, crash bans
   * included; the debug call that sets scores gives each address the last one listed for it. None of them touches the
   * mempool or a running task, and clearing the mempool touches nothing else.
   */
  lemma BansEndEarly(s: Sys, dump: seq<(Address, Rep.Entry)>, a: Address)
    requires s.world.rep.config.params == Rep.BUNDLER_PARAMS
    requires a in s.world.rep.entries ==> s.world.rep.entries[a].opsSeen >= 0
    ensures var listed := a in s.world.rep.blackList && a !in s.world.rep.whitelist;
      && Rep.GetStatus(Next(s, Cron).world.rep, Some(a)) == (if listed then Rep.BANNED else Rep.OK)
      && Rep.GetStatus(Next(s, ClearReputation).world.rep, Some(a)) == (if listed then Rep.BANNED else Rep.OK)
      && SeenAndIncluded(Next(s, ClearReputation).world.rep, a) == (0, 0)
      && 24 * ScoreOf(Next(s, Cron).world.rep, a).opsSeen <= 23 * ScoreOf(s.world.rep, a).opsSeen
           < 24 * ScoreOf(Next(s, Cron).world.rep, a).opsSeen + 24
    ensures Rep.LastScore(dump, a).Some? ==>
      a in Next(s, SetReputation(dump)).world.rep.entries
      && Next(s, SetReputation(dump)).world.rep.entries[a] == Rep.LastScore(dump, a).value
    ensures forall act :: act in {Cron, ClearReputation, SetReputation(dump)} ==>
      Next(s, act) == s.(world := s.world.(rep := Next(s, act).world.rep))
    ensures Next(s, ClearMempool) == s.(world := s.world.(pool := Pool([], map[])))
  {
    Rep.CronAbsolvesEveryone(s.world.rep, a);
    Rep.ClearAbsolvesEveryone(s.world.rep, a);
    Rep.SetReputationExactly(s.world.rep, dump, a);
  }

  ghost function SeenAndIncluded(rep: Rep.Ledger, a: Address): (int, int) {
    (ScoreOf(rep, a).opsSeen, ScoreOf(rep, a).opsIncluded)
  }
}
