/** Inclusion counts over machine runs: exactly what the handled events name. */
module InclusionRuns {
  import opened Common
  import opened Execution
  import opened ExecutionRuns
  import opened ScanRuns
  import Bundle
  import Events
  import Mempool
  import Rep = Reputation

  /** The same cached aggregator, and the same number of inclusions of `a`. */
  ghost predicate Agree(v: Events.World, w: Events.World, a: Address) {
    && v.tracker.eventAggregator == w.tracker.eventAggregator
    && v.tracker.eventAggregatorTxHash == w.tracker.eventAggregatorTxHash
    && Events.IncludedCount(v.rep, a) == Events.IncludedCount(w.rep, a)
  }

  lemma IncludedAgree(v: Rep.Ledger, w: Rep.Ledger, who: Option<Address>, a: Address)
    requires Events.IncludedCount(v, a) == Events.IncludedCount(w, a)
    ensures Events.IncludedCount(Events.IncludedAddress(v, who), a) == Events.IncludedCount(Events.IncludedAddress(w, who), a)
  {
  }

  lemma EventKeepsAgreement(v: Events.World, w: Events.World, ev: Events.Event, a: Address)
    requires Agree(v, w, a)
    ensures Agree(Events.HandleEvent(v, ev), Events.HandleEvent(w, ev), a)
  {
    match ev
    case UserOperationEvent(_, tx, _, sender, paymaster) =>
      var v1, w1 := Events.IncludedAddress(v.rep, Some(sender)), Events.IncludedAddress(w.rep, Some(sender));
      var v2, w2 := Events.IncludedAddress(v1, Some(paymaster)), Events.IncludedAddress(w1, Some(paymaster));
      IncludedAgree(v.rep, w.rep, Some(sender), a);
      IncludedAgree(v1, w1, Some(paymaster), a);
      IncludedAgree(v2, w2, Events.GetEventAggregator(v.tracker, tx).eventAggregator, a);
    case AccountDeployed(_, _, factory) => IncludedAgree(v.rep, w.rep, Some(factory), a);
    case _ =>
  }

  lemma {:induction false} EventsKeepAgreement(v: Events.World, w: Events.World, evs: seq<Events.Event>, a: Address)
    requires Agree(v, w, a)
    ensures Agree(Events.HandleAll(v, evs), Events.HandleAll(w, evs), a)
  {
    if evs != [] {
      var front, last := evs[..|evs| - 1], evs[|evs| - 1];
      EventsKeepAgreement(v, w, front, a);
      EventKeepsAgreement(Events.HandleAll(v, front), Events.HandleAll(w, front), last, a);
    }
  }

  /** Whom a failed delivery punishes. */
  function Punished(bundle: seq<UserOp>, delivery: Bundle.Delivery): Option<Address> {
    if delivery.FailedOp? && delivery.opIndex < |bundle| then Blamed(bundle[delivery.opIndex], delivery.blame) else None
  }

  /** No cron tick, no debug change of scores, and no crash blamed on `a`. */
  predicate Spares(s: Sys, act: Action, a: Address)
    requires Enabled(s, act)
  {
    Quiet(act) && (act.Deliver? ==> Punished(s.tasks[act.tid].phase.pass.loop.acc.bundle, act.delivery) != Some(a))
  }

  lemma SeenKeepsIncluded(rep: Rep.Ledger, who: Option<Address>, a: Address)
    ensures Events.IncludedCount(Rep.UpdateSeenStatus(rep, who), a) == Events.IncludedCount(rep, a)
  {
  }

  lemma InsertKeepsIncluded(pool: Mempool.Pool, rep: Rep.Ledger, req: Mempool.Request, a: Address)
    ensures Events.IncludedCount(Mempool.AddUserOp(pool, rep, req).rep, a) == Events.IncludedCount(rep, a)
  {
    var r0 := if Rep.CheckStake(rep, req.senderInfo).Pass? then Rep.UpdateSeenStatus(rep, Some(req.op.sender)) else rep;
    var r1 := Rep.UpdateSeenStatus(r0, Mempool.EntryOf(req).aggregator);
    var r2 := Rep.UpdateSeenStatus(r1, Paymaster(req.op));
    SeenKeepsIncluded(rep, Some(req.op.sender), a);
    SeenKeepsIncluded(r0, Mempool.EntryOf(req).aggregator, a);
    SeenKeepsIncluded(r1, Paymaster(req.op), a);
    SeenKeepsIncluded(r2, Factory(req.op), a);
  }

  lemma DeliverKeepsIncluded(w: Events.World, bundle: seq<UserOp>, delivery: Bundle.Delivery, a: Address)
    requires Punished(bundle, delivery) != Some(a)
    ensures Agree(Bundle.AfterSending(w, bundle, delivery), w, a)
  {
  }

  /** Apart from events, nothing such an action does touches the cache or the inclusions of `a`. */
  lemma StepKeepsAgreement(s: Sys, act: Action, a: Address)
    requires Enabled(s, act) && Spares(s, act, a) && !act.Answer? && !act.Live?
    ensures Agree(Next(s, act).world, s.world, a)
  {
    match act
    case Validate(_, outcome) => if outcome.Some? { InsertKeepsIncluded(s.world.pool, s.world.rep, outcome.value, a); }
    case Begin(tid) => assert BeginPass(s, tid).world == s.world;
    case Consider(tid) =>
      assert ConsiderNext(s, tid, s.tasks[tid].phase.pass).world == s.world.(pool := Next(s, act).world.pool);
    case Deliver(tid, delivery) => DeliverKeepsIncluded(s.world, s.tasks[tid].phase.pass.loop.acc.bundle, delivery, a);
    case _ =>
  }

  ghost predicate Sparing(l: Linked, ms: seq<Move>, a: Address)
    decreases |ms|
  {
    ms == [] ||
    (&& CanMove(l, ms[0]) && (ms[0].Do? ==> Spares(l.sys, ms[0].action, a))
     && Sparing(After(l, ms[0]), ms[1..], a))
  }

  lemma AnswerFollowsHandled(l: Linked, tid: TaskId, evs: seq<Events.Event>, w: Events.World, a: Address)
    requires CanMove(l, Do(Answer(tid, evs))) && Agree(l.sys.world, Events.HandleAll(w, l.handled), a)
    ensures var after := After(l, Do(Answer(tid, evs))); Agree(after.sys.world, Events.HandleAll(w, after.handled), a)
  {
    AnswerWorld(l.sys, tid, evs);
    EventsKeepAgreement(l.sys.world, Events.HandleAll(w, l.handled), evs, a);
    Events.HandleAllConcat(w, l.handled, evs);
  }

  lemma LiveFollowsHandled(l: Linked, ev: Events.Event, w: Events.World, a: Address)
    requires CanMove(l, Do(Live(ev))) && Agree(l.sys.world, Events.HandleAll(w, l.handled), a)
    ensures var after := After(l, Do(Live(ev))); Agree(after.sys.world, Events.HandleAll(w, after.handled), a)
  {
    EventKeepsAgreement(l.sys.world, Events.HandleAll(w, l.handled), ev, a);
    assert (l.handled + [ev])[..|l.handled|] == l.handled;
  }

  lemma ActionFollowsHandled(l: Linked, act: Action, w: Events.World, a: Address)
    requires CanMove(l, Do(act)) && Spares(l.sys, act, a) && !act.Answer? && !act.Live?
    requires Agree(l.sys.world, Events.HandleAll(w, l.handled), a)
    ensures var after := After(l, Do(act)); Agree(after.sys.world, Events.HandleAll(w, after.handled), a)
  {
    StepKeepsAgreement(l.sys, act, a);
    var after := After(l, Do(act));
    assert after.sys == Next(l.sys, act) && after.handled == l.handled;
  }

  lemma MoveFollowsHandled(l: Linked, m: Move, w: Events.World, a: Address)
    requires CanMove(l, m) && (m.Do? ==> Spares(l.sys, m.action, a))
    requires Agree(l.sys.world, Events.HandleAll(w, l.handled), a)
    ensures Agree(After(l, m).sys.world, Events.HandleAll(w, After(l, m).handled), a)
  {
    match m
    case Do(Answer(tid, evs)) => AnswerFollowsHandled(l, tid, evs, w, a);
    case Do(Live(ev)) => LiveFollowsHandled(l, ev, w, a);
    case Do(act) => ActionFollowsHandled(l, act, w, a);
    case _ =>
  }

  lemma {:induction false} MovesFollowHandled(l: Linked, ms: seq<Move>, end: Linked, w: Events.World, a: Address)
    requires Moves(l, ms, end) && Sparing(l, ms, a)
    requires Agree(l.sys.world, Events.HandleAll(w, l.handled), a)
    ensures Agree(end.sys.world, Events.HandleAll(w, end.handled), a)
    decreases |ms|
  {
    if ms != [] {
      var next := MovesSplit(l, ms, end);
      MoveFollowsHandled(l, ms[0], w, a);
      MovesFollowHandled(next, ms[1..], end, w, a);
    }
  }

  /**
   * In every run, whatever overlaps and whatever is delivered live, the inclusions of an address that is not blamed
   * are those of handling the handled events one after the other, from the start.
   */
  lemma InclusionsFollowHandled(l: Linked, ms: seq<Move>, end: Linked, a: Address)
    requires Started(l) && Moves(l, ms, end) && Sparing(l, ms, a)
    ensures Events.IncludedCount(end.sys.world.rep, a) ==
      Events.IncludedCount(Events.HandleAll(l.sys.world, end.handled).rep, a)
  {
    MovesFollowHandled(l, ms, end, l.sys.world, a);
  }

  lemma {:induction false} SinceIsSuffix(evs: seq<Events.Event>, from: nat) returns (k: nat)
    requires Events.InBlockOrder(evs)
    ensures k <= |evs| && Events.Since(evs, from) == evs[k..]
  {
    if evs == [] {
      k := 0;
    } else {
      var front, last := evs[..|evs| - 1], evs[|evs| - 1];
      if last.block < from {
        assert forall ev :: ev in front ==> ev.block <= last.block;
        Events.SinceNone(front, from);
        k := |evs|;
      } else {
        k := SinceIsSuffix(front, from);
        assert evs[k..] == front[k..] + [last];
      }
    }
  }

  lemma HandledContiguous(handled: seq<Events.Event>, chain: seq<Events.Event>, from: nat)
    requires Events.InBlockOrder(chain) && Events.ContiguousByTx(chain) && handled <= Events.Since(chain, from)
    ensures Events.ContiguousByTx(handled)
  {
    var k := SinceIsSuffix(chain, from);
    forall i, j, n | 0 <= i < j < n < |handled| && handled[i].tx == handled[n].tx
      ensures handled[j].tx == handled[i].tx
    {
      assert handled[i] == chain[k + i] && handled[j] == chain[k + j] && handled[n] == chain[k + n];
    }
  }

  /**
   * Conservation of inclusions, over the bundler's own runs: with non-overlapping scans of a chain whose
   * transactions stand together, the inclusions of an address that is not blamed, decayed or reset grow by exactly
   * the number of times the handled events name it - and those are a prefix of the chain's, each once and in order.
   */
  lemma MachineCountsMentions(l: Linked, ms: seq<Move>, end: Linked, a: Address)
    requires Started(l) && l.sys.maxMempoolSize != 0 && Moves(l, ms, end) && forall m :: m in ms ==> Tame(m)
    requires Sparing(l, ms, a) && Events.ContiguousByTx(end.chain)
    ensures Events.IncludedCount(end.sys.world.rep, a) ==
      Events.IncludedCount(l.sys.world.rep, a) + Events.MentionsUpTo(end.handled, |end.handled|, a)
    ensures end.handled != [] ==> end.start.Some? && end.handled <= Events.Since(end.chain, end.start.value)
  {
    MachineHandlesOnceInOrder(l, ms, end);
    InclusionsFollowHandled(l, ms, end, a);
    if end.handled != [] {
      assert LinkOk(l);
      LinkHolds(l, ms, end);
      ChainOrdered(end);
      HandledContiguous(end.handled, end.chain, end.start.value);
    }
    Events.InclusionsCountMentions(l.sys.world, end.handled, a);
  }
}
