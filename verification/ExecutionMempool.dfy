/** The mempool's own run laws, in every interleaving of the two-mutex machine. */
module ExecutionMempool {
  import opened Common
  import opened Mempool
  import opened Bundle
  import opened Execution
  import Events
  import Rep = Reputation
  import Runs = MempoolRuns

  // ---- what an action does to the mempool -----------------------------------------------------------------

  function Removals(evs: seq<Events.Event>): seq<Runs.Event> {
    if evs == [] then []
    else
      var front, last := Removals(evs[..|evs| - 1]), evs[|evs| - 1];
      if last.UserOperationEvent? then front + [Runs.Remove(ByHash(last.userOpHash))] else front
  }

  function Dropped(pass: BundlePass, o: Observed, config: Config): seq<Runs.Event>
    requires !Exhausted(pass)
  {
    var e := NextEntry(pass);
    if Removes(FateIn(pass, o, config)) then [Runs.Remove(ByOp(e.op.sender, e.op.nonce))] else []
  }

  function Considered(s: Sys, pass: BundlePass): seq<Runs.Event>
    requires !Exhausted(pass)
  {
    var e := NextEntry(pass);
    var p, f := Rep.GetStatus(s.world.rep, Paymaster(e.op)), Rep.GetStatus(s.world.rep, Factory(e.op));
    if EarlyFate(pass.loop.acc, e, p, f).Some? then Dropped(pass, Observed(p, f, None, 0, 0), s.config) else []
  }

  function Delivered(bundle: seq<UserOp>, delivery: Delivery): seq<Runs.Event> {
    if delivery.FailedOp? && delivery.opIndex < |bundle| && delivery.blame.Unattributed?
    then [Runs.Remove(ByOp(bundle[delivery.opIndex].sender, bundle[delivery.opIndex].nonce))]
    else []
  }

  function MempoolEvents(s: Sys, a: Action): seq<Runs.Event>
    requires Enabled(s, a)
  {
    match a
    case Validate(_, outcome) => if outcome.None? then [] else [Runs.Insert(outcome.value)]
    case Answer(_, evs) => Removals(evs)
    case Live(ev) => Removals([ev])
    case Consider(tid) => Considered(s, s.tasks[tid].phase.pass)
    case Resolve(tid, validation, balance, hash) =>
      var p := s.tasks[tid].phase;
      Dropped(p.pass, Observed(p.paymasterStatus, p.factoryStatus, validation, balance, hash), s.config)
    case Deliver(tid, delivery) => Delivered(s.tasks[tid].phase.pass.loop.acc.bundle, delivery)
    case ClearMempool => [Runs.Clear]
    case _ => []
  }

  /** The action as mempool events, followed by whatever it does to the scores. */
  function Projected(s: Sys, a: Action): seq<Runs.Event>
    requires Enabled(s, a)
  {
    MempoolEvents(s, a) + [Runs.Reputation(Next(s, a).world.rep)]
  }

  function ProjectedAll(s: Sys, actions: seq<Action>): seq<Runs.Event>
    decreases |actions|
  {
    if actions == [] || !Enabled(s, actions[0]) then []
    else Projected(s, actions[0]) + ProjectedAll(Next(s, actions[0]), actions[1..])
  }

  function StateOf(s: Sys): Runs.State {
    Runs.State(s.world.pool, s.world.rep)
  }

  lemma {:induction false} RunConcat(s: Runs.State, xs: seq<Runs.Event>, ys: seq<Runs.Event>)
    ensures Runs.Run(s, xs + ys) == Runs.Run(Runs.Run(s, xs), ys)
    decreases |xs|
  {
    if xs == [] {
      assert xs + ys == ys;
    } else {
      assert (xs + ys)[1..] == xs[1..] + ys;
      RunConcat(Runs.Step(s, xs[0]), xs[1..], ys);
    }
  }

  lemma RunOne(s: Runs.State, ev: Runs.Event)
    ensures Runs.Run(s, [ev]) == Runs.Step(s, ev)
  {
    assert [ev][1..] == [];
  }

  lemma {:induction false} RemovalsAreHandled(s: Runs.State, w: Events.World, evs: seq<Events.Event>)
    requires s.pool == w.pool
    ensures Runs.Run(s, Removals(evs)).pool == Events.HandleAll(w, evs).pool
  {
    if evs != [] {
      var front, last := evs[..|evs| - 1], evs[|evs| - 1];
      RemovalsAreHandled(s, w, front);
      if last.UserOperationEvent? {
        var remove := Runs.Remove(ByHash(last.userOpHash));
        RunConcat(s, Removals(front), [remove]);
        RunOne(Runs.Run(s, Removals(front)), remove);
      }
    }
  }

  lemma DroppedIsPoolAfter(s: Runs.State, pass: BundlePass, o: Observed, config: Config)
    requires !Exhausted(pass)
    ensures Runs.Run(s, Dropped(pass, o, config)).pool == PoolAfter(s.pool, NextEntry(pass), FateIn(pass, o, config))
  {
    var e := NextEntry(pass);
    RunOne(s, Runs.Remove(ByOp(e.op.sender, e.op.nonce)));
  }

  lemma ConsideredPool(s: Sys, tid: TaskId, pass: BundlePass)
    requires tid in s.tasks && !Exhausted(pass)
    ensures Runs.Run(StateOf(s), Considered(s, pass)).pool == ConsiderNext(s, tid, pass).world.pool
  {
    var e := NextEntry(pass);
    var p, f := Rep.GetStatus(s.world.rep, Paymaster(e.op)), Rep.GetStatus(s.world.rep, Factory(e.op));
    DroppedIsPoolAfter(StateOf(s), pass, Observed(p, f, None, 0, 0), s.config);
  }

  lemma DeliveredPool(s: Sys, bundle: seq<UserOp>, delivery: Delivery)
    ensures Runs.Run(StateOf(s), Delivered(bundle, delivery)).pool == AfterSending(s.world, bundle, delivery).pool
  {
    if delivery.FailedOp? && delivery.opIndex < |bundle| {
      RunOne(StateOf(s), Runs.Remove(ByOp(bundle[delivery.opIndex].sender, bundle[delivery.opIndex].nonce)));
    }
  }

  lemma InsertedPool(s: Sys, tid: TaskId, req: Request)
    requires tid in s.tasks
    ensures Runs.Run(StateOf(s), [Runs.Insert(req)]).pool == Insert(s, tid, req).world.pool
  {
    RunOne(StateOf(s), Runs.Insert(req));
  }

  lemma OneHandled(w: Events.World, ev: Events.Event)
    ensures Events.HandleAll(w, [ev]) == Events.HandleEvent(w, ev)
  {
    assert [ev][..0] == [];
    assert Events.HandleAll(w, [ev]) == Events.HandleEvent(Events.HandleAll(w, []), ev);
  }

  lemma EventsReachPool(s: Sys, a: Action)
    requires Enabled(s, a)
    ensures Runs.Run(StateOf(s), MempoolEvents(s, a)).pool == Next(s, a).world.pool
  {
    match a
    case Validate(tid, outcome) => if outcome.Some? { InsertedPool(s, tid, outcome.value); }
    case Answer(_, evs) => RemovalsAreHandled(StateOf(s), s.world, evs);
    case Live(ev) =>
      RemovalsAreHandled(StateOf(s), s.world, [ev]);
      OneHandled(s.world, ev);
    case Consider(tid) => ConsideredPool(s, tid, s.tasks[tid].phase.pass);
    case Resolve(tid, validation, balance, hash) =>
      var p := s.tasks[tid].phase;
      DroppedIsPoolAfter(StateOf(s), p.pass, Observed(p.paymasterStatus, p.factoryStatus, validation, balance, hash), s.config);
    case Deliver(tid, delivery) => DeliveredPool(s, s.tasks[tid].phase.pass.loop.acc.bundle, delivery);
    case ClearMempool => RunOne(StateOf(s), Runs.Clear);
    case Begin(tid) => assert BeginPass(s, tid).world == s.world;
    case _ =>
  }

  lemma ProjectedStep(s: Sys, a: Action)
    requires Enabled(s, a)
    ensures Runs.Run(StateOf(s), Projected(s, a)) == StateOf(Next(s, a))
  {
    var last := Runs.Reputation(Next(s, a).world.rep);
    RunConcat(StateOf(s), MempoolEvents(s, a), [last]);
    RunOne(Runs.Run(StateOf(s), MempoolEvents(s, a)), last);
    EventsReachPool(s, a);
  }

  /** Every interleaving is, for mempool and scores, one of the mempool's own runs. */
  lemma {:induction false} InterleavingIsMempoolRun(s: Sys, actions: seq<Action>, end: Sys)
    requires Run(s, actions, end)
    ensures Runs.Run(StateOf(s), ProjectedAll(s, actions)) == StateOf(end)
    decreases |actions|
  {
    if actions != [] {
      var next := Next(s, actions[0]);
      ProjectedStep(s, actions[0]);
      InterleavingIsMempoolRun(next, actions[1..], end);
      RunConcat(StateOf(s), Projected(s, actions[0]), ProjectedAll(next, actions[1..]));
    }
  }

  // ---- conditions on submissions --------------------------------------------------------------------------

  /** Every replacement along the run names the paymaster and factory of the operation it displaces. */
  ghost predicate RolesKeptAlong(s: Sys, actions: seq<Action>)
    decreases |actions|
  {
    actions == [] ||
    (&& Enabled(s, actions[0]) && InsertKeepsRoles(s, actions[0])
     && RolesKeptAlong(Next(s, actions[0]), actions[1..]))
  }

  ghost predicate InsertKeepsRoles(s: Sys, a: Action) {
    a.Validate? && a.outcome.Some? ==> Runs.KeepsRoles(StateOf(s), Runs.Insert(a.outcome.value))
  }

  /** Nothing `who` submits along the run passes the stake check. */
  ghost predicate NeverStakedAlong(s: Sys, actions: seq<Action>, who: Address)
    decreases |actions|
  {
    actions == [] ||
    (&& Enabled(s, actions[0]) && InsertIsUnstaked(s, actions[0], who)
     && NeverStakedAlong(Next(s, actions[0]), actions[1..], who))
  }

  ghost predicate InsertIsUnstaked(s: Sys, a: Action, who: Address) {
    a.Validate? && a.outcome.Some? ==> Runs.SentUnstaked(StateOf(s), Runs.Insert(a.outcome.value), who)
  }

  ghost predicate NoInserts(evs: seq<Runs.Event>) {
    forall ev :: ev in evs ==> !ev.Insert?
  }

  lemma {:induction false} WithoutInserts(s: Runs.State, evs: seq<Runs.Event>, who: Address)
    requires NoInserts(evs)
    ensures Runs.RolesKept(s, evs) && Runs.NeverStaked(s, evs, who)
    decreases |evs|
  {
    if evs != [] {
      WithoutInserts(Runs.Step(s, evs[0]), evs[1..], who);
    }
  }

  lemma {:induction false} RolesKeptConcat(s: Runs.State, xs: seq<Runs.Event>, ys: seq<Runs.Event>)
    requires Runs.RolesKept(s, xs) && Runs.RolesKept(Runs.Run(s, xs), ys)
    ensures Runs.RolesKept(s, xs + ys)
    decreases |xs|
  {
    if xs == [] {
      assert xs + ys == ys;
    } else {
      assert (xs + ys)[1..] == xs[1..] + ys;
      RolesKeptConcat(Runs.Step(s, xs[0]), xs[1..], ys);
    }
  }

  lemma {:induction false} NeverStakedConcat(s: Runs.State, xs: seq<Runs.Event>, ys: seq<Runs.Event>, who: Address)
    requires Runs.NeverStaked(s, xs, who) && Runs.NeverStaked(Runs.Run(s, xs), ys, who)
    ensures Runs.NeverStaked(s, xs + ys, who)
    decreases |xs|
  {
    if xs == [] {
      assert xs + ys == ys;
    } else {
      assert (xs + ys)[1..] == xs[1..] + ys;
      NeverStakedConcat(Runs.Step(s, xs[0]), xs[1..], ys, who);
    }
  }

  lemma {:induction false} RemovalsInsertNothing(evs: seq<Events.Event>)
    ensures NoInserts(Removals(evs))
  {
    if evs != [] { RemovalsInsertNothing(evs[..|evs| - 1]); }
  }

  lemma OnlyValidateInserts(s: Sys, a: Action)
    requires Enabled(s, a) && !(a.Validate? && a.outcome.Some?)
    ensures NoInserts(Projected(s, a))
  {
    match a
    case Answer(_, evs) => RemovalsInsertNothing(evs);
    case Live(ev) => RemovalsInsertNothing([ev]);
    case _ =>
  }

  lemma InsertThenScores(s: Runs.State, req: Request, rep: Rep.Ledger, who: Address)
    ensures Runs.RolesKept(s, [Runs.Insert(req)] + [Runs.Reputation(rep)]) <==> Runs.KeepsRoles(s, Runs.Insert(req))
    ensures Runs.NeverStaked(s, [Runs.Insert(req)] + [Runs.Reputation(rep)], who) <==>
      Runs.SentUnstaked(s, Runs.Insert(req), who)
  {
    var both := [Runs.Insert(req)] + [Runs.Reputation(rep)];
    assert both[1..] == [Runs.Reputation(rep)];
    WithoutInserts(Runs.Step(s, both[0]), both[1..], who);
  }

  lemma ProjectedMeets(s: Sys, a: Action, who: Address)
    requires Enabled(s, a)
    ensures InsertKeepsRoles(s, a) ==> Runs.RolesKept(StateOf(s), Projected(s, a))
    ensures InsertIsUnstaked(s, a, who) ==> Runs.NeverStaked(StateOf(s), Projected(s, a), who)
  {
    if a.Validate? && a.outcome.Some? {
      InsertThenScores(StateOf(s), a.outcome.value, Next(s, a).world.rep, who);
    } else {
      OnlyValidateInserts(s, a);
      WithoutInserts(StateOf(s), Projected(s, a), who);
    }
  }

  lemma {:induction false} RolesKeptProjected(s: Sys, actions: seq<Action>)
    requires RolesKeptAlong(s, actions)
    ensures Runs.RolesKept(StateOf(s), ProjectedAll(s, actions))
    decreases |actions|
  {
    if actions != [] {
      var next := Next(s, actions[0]);
      ProjectedMeets(s, actions[0], 0);
      ProjectedStep(s, actions[0]);
      RolesKeptProjected(next, actions[1..]);
      RolesKeptConcat(StateOf(s), Projected(s, actions[0]), ProjectedAll(next, actions[1..]));
    }
  }

  lemma {:induction false} NeverStakedProjected(s: Sys, actions: seq<Action>, who: Address)
    requires NeverStakedAlong(s, actions, who)
    ensures Runs.NeverStaked(StateOf(s), ProjectedAll(s, actions), who)
    decreases |actions|
  {
    if actions != [] {
      var next := Next(s, actions[0]);
      ProjectedMeets(s, actions[0], who);
      ProjectedStep(s, actions[0]);
      NeverStakedProjected(next, actions[1..], who);
      NeverStakedConcat(StateOf(s), Projected(s, actions[0]), ProjectedAll(next, actions[1..]), who);
    }
  }

  // ---- the laws -------------------------------------------------------------------------------------------

  /** In every interleaving each counter is the roles its address plays plus what rejected submissions leaked. */
  lemma CountersInEveryInterleaving(s: Sys, actions: seq<Action>, end: Sys, a: Address)
    requires Initial(s) && Run(s, actions, end) && RolesKeptAlong(s, actions)
    ensures CountOf(end.world.pool.counts, a) ==
      Runs.Roles(end.world.pool.entries, a) + Runs.Leaked(StateOf(s), ProjectedAll(s, actions), a, 0)
    ensures a in end.world.pool.counts ==> end.world.pool.counts[a] > 0
  {
    InterleavingIsMempoolRun(s, actions, end);
    RolesKeptProjected(s, actions);
    Runs.CountersCoverRoles(s.world.rep, ProjectedAll(s, actions), a);
  }

  /** And exact, for all addresses, if and only if no fresh submission was rejected since the last clear. */
  lemma CountersExactInEveryInterleaving(s: Sys, actions: seq<Action>, end: Sys)
    requires Initial(s) && Run(s, actions, end) && RolesKeptAlong(s, actions)
    ensures Runs.Exact(end.world.pool) <==> Runs.Rejections(StateOf(s), ProjectedAll(s, actions), 0) == 0
  {
    InterleavingIsMempoolRun(s, actions, end);
    RolesKeptProjected(s, actions);
    Runs.CountersExactWithoutRejections(s.world.rep, ProjectedAll(s, actions));
  }

  /** In every interleaving no sender is the paymaster or factory of a different pending operation. */
  lemma RolesSeparatedInEveryInterleaving(s: Sys, actions: seq<Action>, end: Sys)
    requires Initial(s) && Run(s, actions, end) && RolesKeptAlong(s, actions)
    ensures Runs.Separated(end.world.pool.entries)
  {
    InterleavingIsMempoolRun(s, actions, end);
    RolesKeptProjected(s, actions);
    Runs.RolesStaySeparated(StateOf(s), ProjectedAll(s, actions));
  }

  /** In every interleaving a sender that is never staked has at most four operations pending. */
  lemma SenderCappedInEveryInterleaving(s: Sys, actions: seq<Action>, end: Sys, who: Address)
    requires Initial(s) && Run(s, actions, end) && RolesKeptAlong(s, actions) && NeverStakedAlong(s, actions, who)
    ensures Runs.SenderCount(end.world.pool.entries, who) <= MAX_MEMPOOL_USEROPS_PER_SENDER
  {
    InterleavingIsMempoolRun(s, actions, end);
    RolesKeptProjected(s, actions);
    NeverStakedProjected(s, actions, who);
    Runs.UnstakedSenderCapped(StateOf(s), ProjectedAll(s, actions), who, 0);
  }
}
