/** Every task can end: from each reachable state the tasks' own steps lead to an idle bundler. */
module ExecutionProgress {
  import opened Common
  import opened Execution
  import opened ExecutionRuns
  import opened ExecutionAlone
  import Bundle

  /** The task does not wait behind another one. */
  predicate Unblocked(s: Sys, tid: TaskId)
    requires tid in s.tasks
  {
    && !s.tasks[tid].phase.Done?
    && (s.tasks[tid].phase.AwaitingExec? ==> Heads(s.execQueue, tid))
    && (s.tasks[tid].phase.AwaitingBundle? ==> Heads(s.bundleQueue, tid))
  }

  /** A step of an unblocked task, in the most pessimistic case: the validations fail and the chain answers nothing. */
  lemma OwnStep(s: Sys, tid: TaskId) returns (a: Action)
    requires Inv(s) && tid in s.tasks && Unblocked(s, tid)
    ensures Enabled(s, a) && Actor(a) == Some(tid)
    ensures a.Validate? ==> a.outcome.None?
  {
    match s.tasks[tid].phase
    case AwaitingExec => a := Validate(tid, None);
    case AwaitingBundle => a := Acquire(tid);
    case Flushing(scan) => a := ScanStep(tid, scan);
    case Trailing(scan) => a := ScanStep(tid, scan);
    case _ => a := PassTaskMoves(s, tid);
  }

  /** Only a validated submission ever queues again. */
  lemma StaysUnblocked(s: Sys, a: Action, tid: TaskId)
    requires Enabled(s, a) && Actor(a) == Some(tid) && (a.Validate? ==> a.outcome.None?)
    ensures tid in Next(s, a).tasks && (Next(s, a).tasks[tid].phase.Done? || Unblocked(Next(s, a), tid))
  {
    match a
    case Consider(_) => ConsiderCloser(s, tid);
    case Deliver(_, delivery) => DeliverCloser(s, tid, s.tasks[tid].phase.pass.loop.acc.bundle, delivery);
    case _ =>
  }

  /** The two states have the same tasks, which agree except perhaps on `tid`. */
  ghost predicate SameOthers(s: Sys, t: Sys, tid: TaskId) {
    s.tasks.Keys == t.tasks.Keys && forall x :: x in s.tasks && x != tid ==> t.tasks[x] == s.tasks[x]
  }

  lemma OwnStepKeepsOthers(s: Sys, a: Action, tid: TaskId)
    requires Enabled(s, a) && Actor(a) == Some(tid)
    ensures SameOthers(s, Next(s, a), tid)
  {
    var t := Next(s, a);
    assert t.tasks.Keys == s.tasks.Keys;
    forall x | x in s.tasks && x != tid
      ensures t.tasks[x] == s.tasks[x]
    {
      OthersKeepTheirPhase(s, a, x);
    }
  }

  /** An unblocked task runs to its end by its own steps alone. */
  lemma {:induction false} TaskRunsToEnd(s: Sys, tid: TaskId) returns (actions: seq<Action>, end: Sys)
    requires Inv(s) && tid in s.tasks && Unblocked(s, tid)
    ensures Run(s, actions, end) && OnlyBy(actions, tid) && Inv(end)
    ensures SameOthers(s, end, tid) && end.tasks[tid].phase.Done?
    decreases Stage(s.tasks[tid].phase), Unseen(s.tasks[tid].phase)
  {
    var a := OwnStep(s, tid);
    var next := Next(s, a);
    StepKeepsInv(s, a);
    OwnStepKeepsOthers(s, a, tid);
    OwnStepsFinish(s, a, tid);
    StaysUnblocked(s, a, tid);
    if next.tasks[tid].phase.Done? {
      actions, end := [a], next;
      RunFirst(s, a, [], end);
    } else {
      var rest;
      rest, end := TaskRunsToEnd(next, tid);
      RunFirst(s, a, rest, end);
      actions := [a] + rest;
    }
  }

  ghost function Unfinished(s: Sys): set<TaskId> {
    set tid | tid in s.tasks && !s.tasks[tid].phase.Done?
  }

  /** While a task is unfinished, some task is unblocked. */
  lemma SomebodyUnblocked(s: Sys, unfinished: TaskId) returns (tid: TaskId)
    requires Inv(s) && unfinished in Unfinished(s)
    ensures tid in s.tasks && Unblocked(s, tid)
  {
    if s.bundleQueue != [] {
      tid := s.bundleQueue[0];
      assert tid in s.bundleQueue;
    } else if s.execQueue != [] {
      tid := s.execQueue[0];
      assert tid in s.execQueue && tid !in s.bundleQueue;
    } else {
      tid := unfinished;
      assert tid !in s.execQueue && tid !in s.bundleQueue;
    }
  }

  predicate Idle(s: Sys) {
    s.execQueue == [] && s.bundleQueue == [] && forall tid :: tid in s.tasks ==> s.tasks[tid].phase.Done?
  }

  lemma NobodyQueued(queue: seq<TaskId>)
    ensures (forall tid :: tid !in queue) ==> queue == []
  {
    if queue != [] { assert queue[0] in queue; }
  }

  lemma FinishedIsIdle(s: Sys)
    requires Inv(s) && Unfinished(s) == {}
    ensures Idle(s)
  {
    forall tid | tid in s.tasks
      ensures s.tasks[tid].phase.Done?
    {
      assert tid !in Unfinished(s);
    }
    NobodyQueued(s.execQueue);
    NobodyQueued(s.bundleQueue);
  }

  lemma {:induction false} AllRunToEnd(s: Sys) returns (actions: seq<Action>, end: Sys)
    requires Inv(s)
    ensures Run(s, actions, end) && Idle(end) && end.tasks.Keys == s.tasks.Keys
    ensures forall a :: a in actions ==> Actor(a).Some?
    decreases |Unfinished(s)|
  {
    if Unfinished(s) == {} {
      FinishedIsIdle(s);
      actions, end := [], s;
    } else {
      var unfinished :| unfinished in Unfinished(s);
      var tid := SomebodyUnblocked(s, unfinished);
      var first, mid := TaskRunsToEnd(s, tid);
      assert Unfinished(mid) == Unfinished(s) - {tid};
      var rest;
      rest, end := AllRunToEnd(mid);
      RunThen(s, first, mid, rest, end);
      actions := first + rest;
    }
  }

  /**
   * Progress: from every state the bundler can reach, steps of the tasks themselves, with no new submission, timer
   * or debug call, end every task and leave both mutexes free.
   */
  lemma EveryTaskCanEnd(s: Sys, before: seq<Action>, now: Sys) returns (actions: seq<Action>, end: Sys)
    requires Initial(s) && Run(s, before, now)
    ensures Run(now, actions, end) && Idle(end) && end.tasks.Keys == now.tasks.Keys
    ensures forall a :: a in actions ==> Actor(a).Some?
  {
    InvHolds(s, before, now);
    actions, end := AllRunToEnd(now);
  }

  /** Waiting for the provider: in any of the three scans, or for a re-validation. */
  ghost predicate AwaitsProvider(p: Phase) {
    p.Polling? || p.Flushing? || p.Trailing? || p.Validating?
  }

  /**
   * A call of the provider may fail exactly while a task waits for it. The task then ends, both mutexes pass on, and
   * neither mempool, scores nor tracker have changed.
   */
  lemma FailureReleasesBoth(s: Sys, before: seq<Action>, now: Sys, tid: TaskId)
    requires Initial(s) && Run(s, before, now) && tid in now.tasks
    ensures Enabled(now, Throw(tid)) <==> AwaitsProvider(now.tasks[tid].phase)
    ensures AwaitsProvider(now.tasks[tid].phase) ==>
      var t := Next(now, Throw(tid));
      && t.world == now.world && t.tasks[tid].phase.Done? && tid !in t.execQueue && tid !in t.bundleQueue
      && (forall x :: x in now.tasks && x != tid ==> t.tasks[x] == now.tasks[x])
  {
    InvHolds(s, before, now);
    if AwaitsProvider(now.tasks[tid].phase) {
      StepKeepsInv(now, Throw(tid));
      OwnStepKeepsOthers(now, Throw(tid), tid);
    }
  }

  // ---- submissions are served in order ----------------------------------------------------------------

  /** The submissions made, first to last. */
  ghost function Submitted(actions: seq<Action>): seq<TaskId> {
    if actions == [] then []
    else if actions[0].Submit? then [actions[0].tid] + Submitted(actions[1..])
    else Submitted(actions[1..])
  }

  /** The first `k` submissions are over, the next one is being served, and the others wait behind it in order. */
  ghost predicate ServedUpTo(s: Sys, submitted: seq<TaskId>, k: nat) {
    && k <= |submitted| && s.execQueue == submitted[k..]
    && (forall i :: 0 <= i < k ==> submitted[i] in s.tasks && s.tasks[submitted[i]].phase.Done?)
    && (forall i :: k < i < |submitted| ==> submitted[i] in s.tasks && s.tasks[submitted[i]] == Task(Submission, AwaitingExec))
  }

  lemma DoneStays(s: Sys, a: Action, x: TaskId)
    requires Enabled(s, a) && x in s.tasks && s.tasks[x].phase.Done?
    ensures x in Next(s, a).tasks && Next(s, a).tasks[x].phase.Done?
  {
    if Actor(a) != Some(x) { OthersKeepTheirPhase(s, a, x); }
  }

  lemma LeaveReleases(s: Sys, tid: TaskId)
    requires tid in s.tasks
    ensures Leave(s, tid).execQueue == s.execQueue
      || (Leave(s, tid).execQueue == Release(s.execQueue, tid) && Leave(s, tid).tasks[tid].phase.Done?)
  {
  }

  /** The execution queue loses its head only when that submission is over. */
  lemma QueueMoves(s: Sys, a: Action)
    requires Enabled(s, a) && !a.Submit?
    ensures || Next(s, a).execQueue == s.execQueue
      || (&& s.execQueue != [] && Next(s, a).execQueue == s.execQueue[1..]
          && s.execQueue[0] in Next(s, a).tasks && Next(s, a).tasks[s.execQueue[0]].phase.Done?)
  {
    match a
    case Consider(tid) => assert ConsiderNext(s, tid, s.tasks[tid].phase.pass).execQueue == s.execQueue;
    case Deliver(tid, delivery) =>
      LeaveReleases(s.(world := Bundle.AfterSending(s.world, s.tasks[tid].phase.pass.loop.acc.bundle, delivery)), tid);
    case _ =>
  }

  lemma WaitersQueue(s: Sys, k: nat, submitted: seq<TaskId>)
    requires Orderly(s) && k <= |submitted| && s.execQueue == submitted[k..]
    ensures forall i :: k < i < |submitted| ==> submitted[i] in s.tasks && s.tasks[submitted[i]] == Task(Submission, AwaitingExec)
  {
    forall i | k < i < |submitted|
      ensures submitted[i] in s.tasks && s.tasks[submitted[i]] == Task(Submission, AwaitingExec)
    {
      var x := submitted[i];
      assert s.execQueue[i - k] == x && x in s.execQueue;
      assert s.execQueue[0] != x;
      assert TaskOk(s.execQueue, s.bundleQueue, x, s.tasks[x]);
    }
  }

  lemma ServedStay(s: Sys, a: Action, submitted: seq<TaskId>, k: nat)
    requires Enabled(s, a) && ServedUpTo(s, submitted, k)
    ensures forall i :: 0 <= i < k ==> submitted[i] in Next(s, a).tasks && Next(s, a).tasks[submitted[i]].phase.Done?
  {
    forall i | 0 <= i < k
      ensures submitted[i] in Next(s, a).tasks && Next(s, a).tasks[submitted[i]].phase.Done?
    {
      DoneStays(s, a, submitted[i]);
    }
  }

  /** How far the queue has come after one more action. */
  lemma QueueStep(s: Sys, a: Action, submitted: seq<TaskId>, k: nat) returns (next: nat)
    requires Enabled(s, a) && !a.Submit? && k <= |submitted| && s.execQueue == submitted[k..]
    ensures k <= next <= k + 1 && next <= |submitted| && Next(s, a).execQueue == submitted[next..]
    ensures next > k ==> submitted[k] in Next(s, a).tasks && Next(s, a).tasks[submitted[k]].phase.Done?
  {
    QueueMoves(s, a);
    next := k;
    if Next(s, a).execQueue != s.execQueue {
      next := k + 1;
      assert s.execQueue[0] == submitted[k] && s.execQueue[1..] == submitted[k + 1..];
    }
  }

  /** In an orderly state the queue and the finished front say it all. */
  lemma ServedFrom(t: Sys, submitted: seq<TaskId>, k: nat)
    requires Orderly(t) && k <= |submitted| && t.execQueue == submitted[k..]
    requires forall i :: 0 <= i < k ==> submitted[i] in t.tasks && t.tasks[submitted[i]].phase.Done?
    ensures ServedUpTo(t, submitted, k)
  {
    WaitersQueue(t, k, submitted);
  }

  lemma SubmitServed(s: Sys, tid: TaskId, submitted: seq<TaskId>, k: nat)
    requires Orderly(s) && Enabled(s, Submit(tid)) && ServedUpTo(s, submitted, k)
    ensures ServedUpTo(Next(s, Submit(tid)), submitted + [tid], k)
  {
    StepStaysOrderly(s, Submit(tid));
    ServedStay(s, Submit(tid), submitted, k);
    assert (submitted + [tid])[k..] == submitted[k..] + [tid];
    ServedFrom(Next(s, Submit(tid)), submitted + [tid], k);
  }

  lemma OtherServed(s: Sys, a: Action, submitted: seq<TaskId>, k: nat) returns (next: nat)
    requires Orderly(s) && Enabled(s, a) && !a.Submit? && ServedUpTo(s, submitted, k)
    ensures ServedUpTo(Next(s, a), submitted, next)
  {
    StepStaysOrderly(s, a);
    ServedStay(s, a, submitted, k);
    next := QueueStep(s, a, submitted, k);
    ServedFrom(Next(s, a), submitted, next);
  }

  lemma RunSplit(s: Sys, actions: seq<Action>, end: Sys) returns (next: Sys)
    requires actions != [] && Run(s, actions, end)
    ensures Enabled(s, actions[0]) && next == Next(s, actions[0]) && Run(next, actions[1..], end)
  {
    next := Next(s, actions[0]);
  }

  lemma ServedStep(s: Sys, a: Action, submitted: seq<TaskId>, k: nat) returns (next: nat)
    requires Orderly(s) && Enabled(s, a) && ServedUpTo(s, submitted, k)
    ensures Orderly(Next(s, a)) && ServedUpTo(Next(s, a), submitted + Submitted([a]), next)
  {
    StepStaysOrderly(s, a);
    assert [a][1..] == [];
    if a.Submit? {
      SubmitServed(s, a.tid, submitted, k);
      assert submitted + Submitted([a]) == submitted + [a.tid];
      next := k;
    } else {
      next := OtherServed(s, a, submitted, k);
      assert submitted + Submitted([a]) == submitted;
    }
  }

  lemma SubmittedFirst(submitted: seq<TaskId>, actions: seq<Action>)
    requires actions != []
    ensures (submitted + Submitted([actions[0]])) + Submitted(actions[1..]) == submitted + Submitted(actions)
  {
    var head, rest := Submitted([actions[0]]), Submitted(actions[1..]);
    assert Submitted(actions) == head + rest by { assert [actions[0]][1..] == []; }
    Associative(submitted, head, rest);
  }

  lemma {:induction false} ServedAlong(s: Sys, actions: seq<Action>, end: Sys, submitted: seq<TaskId>, k: nat) returns (n: nat)
    requires Orderly(s) && Run(s, actions, end) && ServedUpTo(s, submitted, k)
    ensures ServedUpTo(end, submitted + Submitted(actions), n)
    decreases |actions|
  {
    if actions == [] {
      assert submitted + Submitted(actions) == submitted;
      n := k;
    } else {
      var next := RunSplit(s, actions, end);
      var m := ServedStep(s, actions[0], submitted, k);
      n := ServedAlong(next, actions[1..], end, submitted + Submitted([actions[0]]), m);
      SubmittedFirst(submitted, actions);
    }
  }

  /**
   * First come, first served: however they interleave with everything else, submissions are taken up one at a time and
   * in the order they were made, each only when the one before it is over.
   */
  lemma SubmissionsServedInOrder(s: Sys, actions: seq<Action>, end: Sys) returns (k: nat)
    requires Initial(s) && Run(s, actions, end)
    ensures ServedUpTo(end, Submitted(actions), k)
  {
    k := ServedAlong(s, actions, end, [], 0);
    assert [] + Submitted(actions) == Submitted(actions);
  }
}
