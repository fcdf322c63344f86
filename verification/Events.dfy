/** EventsManager: folding the entry point's past events back into the mempool and the reputation. */
module Events {
  import opened Common
  import Mempool
  import Rep = Reputation

  datatype Event =
    | UserOperationEvent(block: nat, tx: nat, userOpHash: nat, sender: Address, paymaster: Address)
    | AccountDeployed(block: nat, tx: nat, factory: Address)
    | AggregatorChanged(block: nat, tx: nat, aggregator: Address)
    | Unrelated(block: nat, tx: nat)

  /** The manager's own fields. */
  datatype Tracker = Tracker(lastBlock: Option<nat>, eventAggregator: Option<Address>, eventAggregatorTxHash: Option<nat>)

  const FRESH := Tracker(None, None, None)

  datatype World = World(tracker: Tracker, pool: Mempool.Pool, rep: Rep.Ledger)

  // ---- handling one event -----------------------------------------------------------------------

  function IncludedAddress(rep: Rep.Ledger, addr: Option<Address>): Rep.Ledger {
    if addr.None? then rep else Rep.UpdateIncludedStatus(rep, addr.value)
  }

  /** `getEventAggregator`: forgets the cached aggregator when the transaction changes. */
  function GetEventAggregator(t: Tracker, tx: nat): Tracker {
    if t.eventAggregatorTxHash == Some(tx) then t
    else t.(eventAggregator := None, eventAggregatorTxHash := Some(tx))
  }

  function NextTracker(t: Tracker, ev: Event): Tracker {
    var looked :=
      match ev
      case UserOperationEvent(_, tx, _, _, _) => GetEventAggregator(t, tx)
      case AggregatorChanged(_, tx, aggregator) =>
        t.(eventAggregator := Some(aggregator), eventAggregatorTxHash := Some(tx))
      case _ => t;
    looked.(lastBlock := Some(ev.block + 1))
  }

  function NextPool(pool: Mempool.Pool, ev: Event): Mempool.Pool {
    if ev.UserOperationEvent? then Mempool.RemoveUserOp(pool, Mempool.ByHash(ev.userOpHash)) else pool
  }

  function NextRep(t: Tracker, rep: Rep.Ledger, ev: Event): Rep.Ledger {
    match ev
    case UserOperationEvent(_, tx, _, sender, paymaster) =>
      IncludedAddress(IncludedAddress(IncludedAddress(rep, Some(sender)), Some(paymaster)),
                      GetEventAggregator(t, tx).eventAggregator)
    case AccountDeployed(_, _, factory) => IncludedAddress(rep, Some(factory))
    case _ => rep
  }

  function HandleEvent(w: World, ev: Event): World {
    World(NextTracker(w.tracker, ev), NextPool(w.pool, ev), NextRep(w.tracker, w.rep, ev))
  }

  function HandleAll(w: World, evs: seq<Event>): World {
    if evs == [] then w else HandleEvent(HandleAll(w, evs[..|evs| - 1]), evs[|evs| - 1])
  }

  const LOOKBACK := 1000

  function StartBlock(head: nat): (start: nat)
    ensures start >= 1 && start + 1000 >= head
    ensures start == 1 || start + 1000 == head
  {
    if head - LOOKBACK > 1 then head - LOOKBACK else 1
  }

  /** `queryFilter` with a lower bound only: the events from that block on, in chain order. */
  function Since(evs: seq<Event>, block: nat): seq<Event> {
    if evs == [] then []
    else if evs[|evs| - 1].block >= block then Since(evs[..|evs| - 1], block) + [evs[|evs| - 1]]
    else Since(evs[..|evs| - 1], block)
  }

  /** The first scan fixes where to start: a thousand blocks back, but never at the genesis block. */
  function Prepared(w: World, head: nat): World {
    if w.tracker.lastBlock.Some? then w else w.(tracker := w.tracker.(lastBlock := Some(StartBlock(head))))
  }

  /** A whole scan, when nothing else touches `lastBlock` while it awaits its answers. */
  function Poll(w: World, head: nat, chain: seq<Event>): World {
    HandleAll(Prepared(w, head), Since(chain, Prepared(w, head).tracker.lastBlock.value))
  }

  // ---- the object -------------------------------------------------------------------------------

  class EventsManager {
    const mempoolManager: Mempool.MempoolManager
    const reputationManager: Rep.ReputationManager
    var lastBlock: Option<nat>
    var eventAggregator: Option<Address>
    var eventAggregatorTxHash: Option<nat>

    function Value(): World
      reads this, mempoolManager, reputationManager
    {
      World(Tracker(lastBlock, eventAggregator, eventAggregatorTxHash), mempoolManager.Value(), reputationManager.Value())
    }

    constructor (mempoolManager: Mempool.MempoolManager, reputationManager: Rep.ReputationManager)
      ensures this.mempoolManager == mempoolManager && this.reputationManager == reputationManager
      ensures Value() == World(FRESH, mempoolManager.Value(), reputationManager.Value())
    {
      this.mempoolManager := mempoolManager;
      this.reputationManager := reputationManager;
      lastBlock, eventAggregator, eventAggregatorTxHash := None, None, None;
    }

    method EventAggregator(tx: nat) returns (aggregator: Option<Address>)
      modifies this`eventAggregator, this`eventAggregatorTxHash
      ensures Value().tracker == GetEventAggregator(old(Value()).tracker, tx)
      ensures aggregator == eventAggregator
    {
      if Some(tx) != eventAggregatorTxHash {
        eventAggregator := None;
        eventAggregatorTxHash := Some(tx);
      }
      return eventAggregator;
    }

    method Handle(ev: Event)
      modifies this, mempoolManager, reputationManager`entries
      ensures Value() == HandleEvent(old(Value()), ev)
    {
      match ev {
        case UserOperationEvent(_, tx, hash, sender, paymaster) =>
          mempoolManager.Remove(Mempool.ByHash(hash));
          reputationManager.UpdateIncluded(sender);
          reputationManager.UpdateIncluded(paymaster);
          var aggregator := EventAggregator(tx);
          if aggregator.Some? {
            reputationManager.UpdateIncluded(aggregator.value);
          }
        case AccountDeployed(_, _, factory) =>
          reputationManager.UpdateIncluded(factory);
        case AggregatorChanged(_, tx, aggregator) =>
          eventAggregator := Some(aggregator);
          eventAggregatorTxHash := Some(tx);
        case Unrelated(_, _) =>
      }
      lastBlock := Some(ev.block + 1);
    }

    /** `handlePastEvents`, given the two answers it awaits: the head and then the events since `lastBlock`. */
    method HandlePastEvents(head: nat, chain: seq<Event>)
      modifies this, mempoolManager, reputationManager`entries
      ensures Value() == Poll(old(Value()), head, chain)
    {
      if lastBlock.None? {
        lastBlock := Some(StartBlock(head));
      }
      ghost var start := Value();
      assert start == Prepared(old(Value()), head);
      var events := Since(chain, lastBlock.value);
      for i := 0 to |events|
        invariant Value() == HandleAll(start, events[..i])
      {
        assert events[..i + 1][..i] == events[..i];
        Handle(events[i]);
      }
      assert events[..|events|] == events;
    }
  }

  // ---- included operations leave the mempool ----------------------------------------------------------

  /** The entries without the first one of that hash. */
  ghost function WithoutFirst(entries: seq<Mempool.Entry>, hash: nat): seq<Mempool.Entry> {
    if entries == [] then []
    else if entries[0].hash == hash then entries[1..]
    else [entries[0]] + WithoutFirst(entries[1..], hash)
  }

  lemma {:induction false} WithoutFirstByIndex(entries: seq<Mempool.Entry>, hash: nat, i: nat)
    requires i < |entries| && entries[i].hash == hash && forall j :: 0 <= j < i ==> entries[j].hash != hash
    ensures WithoutFirst(entries, hash) == entries[..i] + entries[i + 1..]
    decreases i
  {
    if i > 0 {
      WithoutFirstByIndex(entries[1..], hash, i - 1);
      assert entries[..i] == [entries[0]] + entries[1..][..i - 1] && entries[1..][i..] == entries[i + 1..];
    }
  }

  lemma {:induction false} WithoutFirstOfNone(entries: seq<Mempool.Entry>, hash: nat)
    requires forall e :: e in entries ==> e.hash != hash
    ensures WithoutFirst(entries, hash) == entries
  {
    if entries != [] { WithoutFirstOfNone(entries[1..], hash); }
  }

  /** An operation's event takes the first pending entry of its hash out of the mempool; no other event changes the list. */
  lemma IncludedOperationLeaves(w: World, ev: Event)
    ensures HandleEvent(w, ev).pool.entries ==
      if ev.UserOperationEvent? then WithoutFirst(w.pool.entries, ev.userOpHash) else w.pool.entries
  {
    if ev.UserOperationEvent? {
      var found := Mempool.FindByHash(w.pool.entries, ev.userOpHash);
      if found.Some? {
        WithoutFirstByIndex(w.pool.entries, ev.userOpHash, found.value);
      } else {
        WithoutFirstOfNone(w.pool.entries, ev.userOpHash);
      }
    }
  }

  ghost predicate DistinctHashes(entries: seq<Mempool.Entry>) {
    forall i, j :: 0 <= i < j < |entries| ==> entries[i].hash != entries[j].hash
  }

  /** Some event reports the operation of that hash as included. */
  ghost predicate Included(evs: seq<Event>, hash: nat) {
    exists ev :: ev in evs && ev.UserOperationEvent? && ev.userOpHash == hash
  }

  /** The entries that no event names, in order. */
  ghost function NotIncluded(entries: seq<Mempool.Entry>, evs: seq<Event>): seq<Mempool.Entry> {
    if entries == [] then []
    else if Included(evs, entries[0].hash) then NotIncluded(entries[1..], evs)
    else [entries[0]] + NotIncluded(entries[1..], evs)
  }

  lemma {:induction false} NotIncludedMembers(entries: seq<Mempool.Entry>, evs: seq<Event>)
    ensures forall e :: e in NotIncluded(entries, evs) <==> e in entries && !Included(evs, e.hash)
  {
    if entries != [] {
      NotIncludedMembers(entries[1..], evs);
      assert entries == [entries[0]] + entries[1..];
    }
  }

  lemma {:induction false} OneMoreIncluded(entries: seq<Mempool.Entry>, evs: seq<Event>, ev: Event)
    requires DistinctHashes(entries)
    ensures NotIncluded(entries, evs + [ev]) ==
      if ev.UserOperationEvent? then WithoutFirst(NotIncluded(entries, evs), ev.userOpHash) else NotIncluded(entries, evs)
  {
    if entries != [] {
      var head, tail := entries[0], entries[1..];
      OneMoreIncluded(tail, evs, ev);
      assert Included(evs + [ev], head.hash) <==>
        Included(evs, head.hash) || (ev.UserOperationEvent? && ev.userOpHash == head.hash) by {
        assert forall x :: x in evs + [ev] <==> x in evs || x == ev;
      }
      NotIncludedMembers(tail, evs);
      if ev.UserOperationEvent? && ev.userOpHash == head.hash {
        WithoutFirstOfNone(NotIncluded(tail, evs), head.hash);
      }
      assert ([head] + NotIncluded(tail, evs))[1..] == NotIncluded(tail, evs);
    }
  }

  lemma {:induction false} NothingIncluded(entries: seq<Mempool.Entry>)
    ensures NotIncluded(entries, []) == entries
  {
    if entries != [] { NothingIncluded(entries[1..]); }
  }

  /** After any list of events exactly the pending operations that none of them names are left, in order. */
  lemma {:induction false} PendingAreTheNotIncluded(w: World, evs: seq<Event>)
    requires DistinctHashes(w.pool.entries)
    ensures HandleAll(w, evs).pool.entries == NotIncluded(w.pool.entries, evs)
  {
    if evs == [] {
      NothingIncluded(w.pool.entries);
    } else {
      var front, last := evs[..|evs| - 1], evs[|evs| - 1];
      PendingAreTheNotIncluded(w, front);
      IncludedOperationLeaves(HandleAll(w, front), last);
      OneMoreIncluded(w.pool.entries, front, last);
      assert evs == front + [last];
    }
  }

  // ---- exactly once, in order -------------------------------------------------------------------------

  ghost predicate InBlockOrder(evs: seq<Event>) {
    forall i, j :: 0 <= i < j < |evs| ==> evs[i].block <= evs[j].block
  }

  /** An append-only chain seen by one poller, whose polls do not overlap. `pending` is a query's answer. */
  datatype Polling = Polling(
    events: seq<Event>,
    head: nat,
    start: nat,
    world: World,
    pending: Option<seq<Event>>,
    handled: seq<Event>)

  datatype Action = Grow(events: seq<Event>, head: nat) | Query | HandlePending

  predicate Enabled(s: Polling, a: Action) {
    match a
    case Grow(evs, head) => s.head <= head && forall ev :: ev in evs ==> s.head < ev.block <= head
    case Query => s.pending.None? && s.world.tracker.lastBlock.Some?
    case HandlePending => s.pending.Some?
  }

  function Next(s: Polling, a: Action): Polling
    requires Enabled(s, a)
  {
    match a
    case Grow(evs, head) => s.(events := s.events + evs, head := head)
    case Query => s.(pending := Some(Since(s.events, s.world.tracker.lastBlock.value)))
    case HandlePending =>
      s.(world := HandleAll(s.world, s.pending.value), pending := None, handled := s.handled + s.pending.value)
  }

  /** The first poll has read the head and fixed its start block; nothing has been handled. */
  function Begin(events: seq<Event>, head: nat, w: World): Polling {
    var start := StartBlock(head);
    Polling(events, head, start, w.(tracker := w.tracker.(lastBlock := Some(start))), None, [])
  }

  ghost predicate Run(s: Polling, actions: seq<Action>, end: Polling)
    decreases |actions|
  {
    if actions == [] then s == end
    else Enabled(s, actions[0]) && Run(Next(s, actions[0]), actions[1..], end)
  }

  /** The answer to the query is the head of what is unhandled; what came later lies in later blocks. */
  ghost predicate PendingSplit(unhandled: seq<Event>, pending: seq<Event>, rest: seq<Event>) {
    && unhandled == pending + rest
    && InBlockOrder(pending)
    && (forall p, r :: p in pending && r in rest ==> p.block < r.block)
  }

  ghost predicate PendingIsPrefix(unhandled: seq<Event>, pending: Option<seq<Event>>) {
    pending.Some? ==> exists rest :: PendingSplit(unhandled, pending.value, rest)
  }

  /** What was handled, followed by what is still to come, is everything from the start block on. */
  ghost predicate Accounted(events: seq<Event>, head: nat, start: nat, last: nat, handled: seq<Event>, pending: Option<seq<Event>>) {
    && start <= head + 1 && last <= head + 1
    && InBlockOrder(events) && (forall ev :: ev in events ==> ev.block <= head)
    && handled + Since(events, last) == Since(events, start)
    && PendingIsPrefix(Since(events, last), pending)
  }

  ghost predicate ExactlyOnce(s: Polling) {
    && s.world.tracker.lastBlock.Some?
    && Accounted(s.events, s.head, s.start, s.world.tracker.lastBlock.value, s.handled, s.pending)
  }

  lemma {:induction false} SinceConcat(xs: seq<Event>, ys: seq<Event>, block: nat)
    ensures Since(xs + ys, block) == Since(xs, block) + Since(ys, block)
  {
    if ys == [] {
      assert xs + ys == xs;
    } else {
      assert (xs + ys)[..|xs + ys| - 1] == xs + ys[..|ys| - 1];
      SinceConcat(xs, ys[..|ys| - 1], block);
    }
  }

  lemma {:induction false} SinceAll(evs: seq<Event>, block: nat)
    requires forall ev :: ev in evs ==> ev.block >= block
    ensures Since(evs, block) == evs
  {
    if evs != [] {
      SinceAll(evs[..|evs| - 1], block);
      assert evs == evs[..|evs| - 1] + [evs[|evs| - 1]];
    }
  }

  lemma {:induction false} SinceNone(evs: seq<Event>, block: nat)
    requires forall ev :: ev in evs ==> ev.block < block
    ensures Since(evs, block) == []
  {
    if evs != [] {
      SinceNone(evs[..|evs| - 1], block);
    }
  }

  lemma {:induction false} SinceLater(evs: seq<Event>, early: nat, late: nat)
    requires early <= late
    ensures Since(Since(evs, early), late) == Since(evs, late)
  {
    if evs != [] {
      var front, last := evs[..|evs| - 1], evs[|evs| - 1];
      SinceLater(front, early, late);
      if last.block >= early {
        SinceConcat(Since(front, early), [last], late);
        assert [last][..0] == [];
      }
    }
  }

  lemma {:induction false} SinceOrdered(evs: seq<Event>, block: nat)
    requires InBlockOrder(evs)
    ensures InBlockOrder(Since(evs, block))
    ensures forall ev :: ev in Since(evs, block) ==> ev in evs
  {
    if evs != [] {
      var front, last := evs[..|evs| - 1], evs[|evs| - 1];
      SinceOrdered(front, block);
      assert forall ev :: ev in front ==> ev.block <= last.block;
    }
  }

  lemma {:induction false} HandleAllMovesLastBlock(w: World, evs: seq<Event>)
    ensures HandleAll(w, evs).tracker.lastBlock == if evs == [] then w.tracker.lastBlock else Some(evs[|evs| - 1].block + 1)
  {
  }

  lemma SinceGrows(events: seq<Event>, more: seq<Event>, block: nat)
    requires forall ev :: ev in more ==> ev.block >= block
    ensures Since(events + more, block) == Since(events, block) + more
  {
    SinceConcat(events, more, block);
    SinceAll(more, block);
  }

  lemma PendingSplitGrows(unhandled: seq<Event>, pending: seq<Event>, more: seq<Event>, head: nat)
    requires PendingIsPrefix(unhandled, Some(pending))
    requires forall ev :: ev in unhandled ==> ev.block <= head
    requires forall ev :: ev in more ==> ev.block > head
    ensures PendingIsPrefix(unhandled + more, Some(pending))
  {
    var rest :| PendingSplit(unhandled, pending, rest);
    Associative(pending, rest, more);
    forall p, r | p in pending && r in rest + more
      ensures p.block < r.block
    {
      assert p in unhandled;
    }
    assert PendingSplit(unhandled + more, pending, rest + more);
  }

  lemma GrowKeepsAccounted(events: seq<Event>, head: nat, start: nat, last: nat, handled: seq<Event>,
                           pending: Option<seq<Event>>, more: seq<Event>, newHead: nat)
    requires Accounted(events, head, start, last, handled, pending)
    requires head <= newHead && InBlockOrder(more) && forall ev :: ev in more ==> head < ev.block <= newHead
    ensures Accounted(events + more, newHead, start, last, handled, pending)
  {
    SinceGrows(events, more, last);
    SinceGrows(events, more, start);
    Associative(handled, Since(events, last), more);
    if pending.Some? {
      SinceMembers(events, last);
      PendingSplitGrows(Since(events, last), pending.value, more, head);
    }
    forall i, j | 0 <= i < j < |events + more|
      ensures (events + more)[i].block <= (events + more)[j].block
    {
      if i < |events| <= j {
        assert events[i] in events && more[j - |events|] in more;
      }
    }
  }

  lemma {:induction false} SinceMembers(evs: seq<Event>, block: nat)
    ensures forall ev :: ev in Since(evs, block) <==> ev in evs && ev.block >= block
  {
    if evs != [] {
      SinceMembers(evs[..|evs| - 1], block);
      assert evs == evs[..|evs| - 1] + [evs[|evs| - 1]];
    }
  }

  lemma QueryKeepsAccounted(events: seq<Event>, head: nat, start: nat, last: nat, handled: seq<Event>)
    requires Accounted(events, head, start, last, handled, None)
    ensures Accounted(events, head, start, last, handled, Some(Since(events, last)))
  {
    SinceOrdered(events, last);
    assert PendingSplit(Since(events, last), Since(events, last), []);
  }

  lemma SinceOfSplit(p: seq<Event>, rest: seq<Event>, block: nat)
    requires (forall ev :: ev in p ==> ev.block < block) && (forall ev :: ev in rest ==> ev.block >= block)
    ensures Since(p + rest, block) == rest
  {
    SinceConcat(p, rest, block);
    SinceNone(p, block);
    SinceAll(rest, block);
    assert [] + rest == rest;
  }

  lemma NewestDivides(p: seq<Event>, rest: seq<Event>)
    requires p != [] && InBlockOrder(p) && forall x, r :: x in p && r in rest ==> x.block < r.block
    ensures forall ev :: ev in p ==> ev.block < p[|p| - 1].block + 1
    ensures forall ev :: ev in rest ==> ev.block >= p[|p| - 1].block + 1
  {
    forall ev | ev in p
      ensures ev.block < p[|p| - 1].block + 1
    {
      var i :| 0 <= i < |p| && p[i] == ev;
    }
    assert p[|p| - 1] in p;
  }

  lemma NewestIsOnChain(events: seq<Event>, last: nat, p: seq<Event>, rest: seq<Event>)
    requires p != [] && Since(events, last) == p + rest
    ensures p[|p| - 1] in events && p[|p| - 1].block >= last
  {
    assert (p + rest)[|p| - 1] == p[|p| - 1];
    assert p[|p| - 1] in Since(events, last);
    SinceMembers(events, last);
  }

  /** Behind the last event of an answer begins exactly what the answer did not hold. */
  lemma RestAfterPending(events: seq<Event>, last: nat, p: seq<Event>, rest: seq<Event>)
    requires p != [] && PendingSplit(Since(events, last), p, rest)
    ensures Since(events, p[|p| - 1].block + 1) == rest && p[|p| - 1] in events
  {
    var newest := p[|p| - 1];
    NewestIsOnChain(events, last, p, rest);
    SinceLater(events, last, newest.block + 1);
    NewestDivides(p, rest);
    SinceOfSplit(p, rest, newest.block + 1);
  }

  lemma HandleKeepsAccounted(events: seq<Event>, head: nat, start: nat, last: nat, handled: seq<Event>, p: seq<Event>)
    requires Accounted(events, head, start, last, handled, Some(p))
    ensures Accounted(events, head, start, if p == [] then last else p[|p| - 1].block + 1, handled + p, None)
  {
    var rest :| PendingSplit(Since(events, last), p, rest);
    Associative(handled, p, rest);
    if p == [] {
      assert handled + p == handled;
    } else {
      RestAfterPending(events, last, p, rest);
    }
  }

  lemma ActionKeepsExactlyOnce(s: Polling, a: Action)
    requires ExactlyOnce(s) && Enabled(s, a)
    requires a.Grow? ==> InBlockOrder(a.events)
    ensures ExactlyOnce(Next(s, a))
  {
    var last := s.world.tracker.lastBlock.value;
    match a
    case Grow(evs, head) => GrowKeepsAccounted(s.events, s.head, s.start, last, s.handled, s.pending, evs, head);
    case Query => QueryKeepsAccounted(s.events, s.head, s.start, last, s.handled);
    case HandlePending =>
      HandleAllMovesLastBlock(s.world, s.pending.value);
      HandleKeepsAccounted(s.events, s.head, s.start, last, s.handled, s.pending.value);
  }

  lemma {:induction false} PollingHandlesExactlyOnce(s: Polling, actions: seq<Action>, end: Polling)
    requires ExactlyOnce(s)
    requires Run(s, actions, end)
    requires forall a :: a in actions && a.Grow? ==> InBlockOrder(a.events)
    ensures ExactlyOnce(end) && end.start == s.start
    decreases |actions|
  {
    if actions != [] {
      assert actions[0] in actions;
      ActionKeepsExactlyOnce(s, actions[0]);
      PollingHandlesExactlyOnce(Next(s, actions[0]), actions[1..], end);
    }
  }

  /** The world is the fold of what was handled since `w`. */
  ghost predicate Folds(w: World, s: Polling) {
    s.world == HandleAll(w, s.handled)
  }

  lemma ActionKeepsFold(w: World, s: Polling, a: Action)
    requires Folds(w, s) && Enabled(s, a)
    ensures Folds(w, Next(s, a))
  {
    if a.HandlePending? {
      HandleAllConcat(w, s.handled, s.pending.value);
    }
  }

  lemma {:induction false} PollingFolds(w: World, s: Polling, actions: seq<Action>, end: Polling)
    requires Folds(w, s) && Run(s, actions, end)
    ensures Folds(w, end)
    decreases |actions|
  {
    if actions != [] {
      ActionKeepsFold(w, s, actions[0]);
      PollingFolds(w, Next(s, actions[0]), actions[1..], end);
    }
  }

  lemma {:induction false} HandleAllConcat(w: World, xs: seq<Event>, ys: seq<Event>)
    ensures HandleAll(w, xs + ys) == HandleAll(HandleAll(w, xs), ys)
  {
    if ys == [] {
      assert xs + ys == xs;
    } else {
      assert (xs + ys)[..|xs + ys| - 1] == xs + ys[..|ys| - 1];
      HandleAllConcat(w, xs, ys[..|ys| - 1]);
    }
  }

  /**
   * With polls that do not overlap, however the chain grows meanwhile: the events handled so far are a
   * prefix of the chain's events from the start block on, each once and in chain order, and the world
   * is the fold of exactly those.
   */
  lemma EventsHandledOnceInOrder(events: seq<Event>, head: nat, w: World, actions: seq<Action>, end: Polling)
    requires InBlockOrder(events) && forall ev :: ev in events ==> ev.block <= head
    requires forall a :: a in actions && a.Grow? ==> InBlockOrder(a.events)
    requires Run(Begin(events, head, w), actions, end)
    ensures end.handled <= Since(end.events, StartBlock(head))
    ensures end.world == HandleAll(Begin(events, head, w).world, end.handled)
  {
    var s := Begin(events, head, w);
    assert [] + Since(events, s.start) == Since(events, s.start);
    PollingHandlesExactlyOnce(s, actions, end);
    PollingFolds(s.world, s, actions, end);
  }

  /** A poll that starts with nothing pending and is not overtaken catches up with the chain. */
  lemma PollCatchesUp(s: Polling)
    requires ExactlyOnce(s) && s.pending.None?
    ensures var end := Next(Next(s, Query), HandlePending);
      end.handled == Since(end.events, end.start)
  {
    var end := Next(Next(s, Query), HandlePending);
    assert end.handled == s.handled + Since(s.events, s.world.tracker.lastBlock.value);
  }

  // ---- inclusion counts ---------------------------------------------------------------------------

  ghost function IncludedCount(rep: Rep.Ledger, a: Address): int {
    if a in rep.entries then rep.entries[a].opsIncluded else 0
  }

  /** The aggregator in force for event `n`: that of the latest aggregator event of its transaction before it. */
  ghost function AggregatorFor(evs: seq<Event>, n: nat, tx: nat): Option<Address>
    requires n <= |evs|
  {
    if n == 0 then None
    else if evs[n - 1].AggregatorChanged? && evs[n - 1].tx == tx then Some(evs[n - 1].aggregator)
    else AggregatorFor(evs, n - 1, tx)
  }

  /** How often event `n` names `a`: as sender, paymaster, aggregator or factory. */
  ghost function Mentions(evs: seq<Event>, n: nat, a: Address): nat
    requires n < |evs|
  {
    match evs[n]
    case UserOperationEvent(_, tx, _, sender, paymaster) =>
      Hit(Some(sender), a) + Hit(Some(paymaster), a) + Hit(AggregatorFor(evs, n, tx), a)
    case AccountDeployed(_, _, factory) => Hit(Some(factory), a)
    case _ => 0
  }

  ghost function MentionsUpTo(evs: seq<Event>, n: nat, a: Address): nat
    requires n <= |evs|
  {
    if n == 0 then 0 else MentionsUpTo(evs, n - 1, a) + Mentions(evs, n - 1, a)
  }

  /** Events that look at, or set, the cached aggregator. */
  ghost predicate UsesCache(ev: Event) {
    ev.UserOperationEvent? || ev.AggregatorChanged?
  }

  ghost predicate Announces(ev: Event, tx: nat) {
    ev.AggregatorChanged? && ev.tx == tx
  }

  /** The k-th event is the latest announcement for the transaction, and the j-th later moves the cache elsewhere. */
  ghost predicate DisplacedAt(evs: seq<Event>, n: nat, tx: nat, k: nat, j: nat)
    requires n <= |evs|
  {
    && k < j < n && Announces(evs[k], tx)
    && (forall i :: k < i < n ==> !Announces(evs[i], tx))
    && UsesCache(evs[j]) && evs[j].tx != tx
  }

  ghost predicate Displaced(evs: seq<Event>, n: nat, tx: nat)
    requires n <= |evs|
  {
    exists k: nat, j: nat :: DisplacedAt(evs, n, tx, k, j)
  }

  /** The events of one transaction stand together. */
  ghost predicate ContiguousByTx(evs: seq<Event>) {
    forall i, j, k :: 0 <= i < j < k < |evs| && evs[i].tx == evs[k].tx ==> evs[j].tx == evs[i].tx
  }

  ghost function TrackerAt(t: Tracker, evs: seq<Event>, n: nat): Tracker
    requires n <= |evs|
  {
    if n == 0 then t else NextTracker(TrackerAt(t, evs, n - 1), evs[n - 1])
  }

  ghost function RepAt(t: Tracker, rep: Rep.Ledger, evs: seq<Event>, n: nat): Rep.Ledger
    requires n <= |evs|
  {
    if n == 0 then rep else NextRep(TrackerAt(t, evs, n - 1), RepAt(t, rep, evs, n - 1), evs[n - 1])
  }

  lemma {:induction false} HandleAllByIndex(w: World, evs: seq<Event>, n: nat)
    requires n <= |evs|
    ensures HandleAll(w, evs[..n]).tracker == TrackerAt(w.tracker, evs, n)
    ensures HandleAll(w, evs[..n]).rep == RepAt(w.tracker, w.rep, evs, n)
  {
    if n > 0 {
      HandleAllByIndex(w, evs, n - 1);
      assert evs[..n][..n - 1] == evs[..n - 1];
    }
  }

  /** What the cache would answer about a transaction. */
  ghost function Cached(t: Tracker, tx: nat): Option<Address> {
    GetEventAggregator(t, tx).eventAggregator
  }

  lemma CachedAfter(t: Tracker, ev: Event, tx: nat)
    ensures Cached(NextTracker(t, ev), tx) ==
      if Announces(ev, tx) then Some(ev.aggregator) else if UsesCache(ev) && ev.tx != tx then None else Cached(t, tx)
  {
  }

  lemma DisplacedStep(evs: seq<Event>, n: nat, tx: nat)
    requires n < |evs|
    ensures Displaced(evs, n + 1, tx) <==>
      !Announces(evs[n], tx) && (Displaced(evs, n, tx) || (UsesCache(evs[n]) && evs[n].tx != tx && AggregatorFor(evs, n, tx).Some?))
  {
    if Displaced(evs, n + 1, tx) {
      var k: nat, j: nat :| DisplacedAt(evs, n + 1, tx, k, j);
      if j < n {
        assert DisplacedAt(evs, n, tx, k, j);
      } else {
        AnnouncedBefore(evs, n, tx, k);
      }
    }
    if !Announces(evs[n], tx) {
      if Displaced(evs, n, tx) {
        var k: nat, j: nat :| DisplacedAt(evs, n, tx, k, j);
        assert DisplacedAt(evs, n + 1, tx, k, j);
      }
      if UsesCache(evs[n]) && evs[n].tx != tx && AggregatorFor(evs, n, tx).Some? {
        var k := LatestAnnouncement(evs, n, tx);
        assert DisplacedAt(evs, n + 1, tx, k, n);
      }
    }
  }

  lemma {:induction false} AnnouncedBefore(evs: seq<Event>, n: nat, tx: nat, k: nat)
    requires k < n <= |evs| && Announces(evs[k], tx)
    ensures AggregatorFor(evs, n, tx).Some?
  {
    if !Announces(evs[n - 1], tx) {
      AnnouncedBefore(evs, n - 1, tx, k);
    }
  }

  lemma {:induction false} LatestAnnouncement(evs: seq<Event>, n: nat, tx: nat) returns (k: nat)
    requires n <= |evs| && AggregatorFor(evs, n, tx).Some?
    ensures k < n && Announces(evs[k], tx) && forall i :: k < i < n ==> !Announces(evs[i], tx)
  {
    if Announces(evs[n - 1], tx) {
      k := n - 1;
    } else {
      k := LatestAnnouncement(evs, n - 1, tx);
    }
  }

  lemma {:induction false} DisplacedHasAggregator(evs: seq<Event>, n: nat, tx: nat)
    requires n <= |evs| && Displaced(evs, n, tx)
    ensures AggregatorFor(evs, n, tx).Some?
  {
    var k: nat, j: nat :| DisplacedAt(evs, n, tx, k, j);
    AnnouncedBefore(evs, n, tx, k);
  }

  /**
   * For every order of events and a fresh tracker: the cache answers the latest aggregator announced in the
   * transaction, unless an operation or announcement of another transaction came after that announcement;
   * then it answers none.
   */
  lemma {:induction false} CacheAnswersUnlessDisplaced(t: Tracker, evs: seq<Event>, n: nat, tx: nat)
    requires n <= |evs| && t.eventAggregatorTxHash == None && t.eventAggregator == None
    ensures Cached(TrackerAt(t, evs, n), tx) == if Displaced(evs, n, tx) then None else AggregatorFor(evs, n, tx)
  {
    if n > 0 {
      CacheAnswersUnlessDisplaced(t, evs, n - 1, tx);
      CachedAfter(TrackerAt(t, evs, n - 1), evs[n - 1], tx);
      DisplacedStep(evs, n - 1, tx);
    }
  }

  /** So the answer is right exactly when no such event intervened. */
  lemma CacheRightExactly(t: Tracker, evs: seq<Event>, n: nat, tx: nat)
    requires n <= |evs| && t.eventAggregatorTxHash == None && t.eventAggregator == None
    ensures Cached(TrackerAt(t, evs, n), tx) == AggregatorFor(evs, n, tx) <==> !Displaced(evs, n, tx)
  {
    CacheAnswersUnlessDisplaced(t, evs, n, tx);
    if Displaced(evs, n, tx) { DisplacedHasAggregator(evs, n, tx); }
  }

  /** Over contiguous events each answer of the cache is the aggregator of the event's own transaction, or null. */
  lemma CacheAnswersTheTransaction(t: Tracker, evs: seq<Event>, n: nat)
    requires n < |evs| && ContiguousByTx(evs)
    requires t.eventAggregatorTxHash == None && t.eventAggregator == None
    ensures evs[n].UserOperationEvent? ==>
      GetEventAggregator(TrackerAt(t, evs, n), evs[n].tx).eventAggregator == AggregatorFor(evs, n, evs[n].tx)
  {
    CacheAnswersUnlessDisplaced(t, evs, n, evs[n].tx);
  }

  lemma MentionedOnce(t: Tracker, rep: Rep.Ledger, evs: seq<Event>, n: nat, a: Address)
    requires n < |evs|
    requires evs[n].UserOperationEvent? ==>
      GetEventAggregator(t, evs[n].tx).eventAggregator == AggregatorFor(evs, n, evs[n].tx)
    ensures IncludedCount(NextRep(t, rep, evs[n]), a) == IncludedCount(rep, a) + Mentions(evs, n, a)
  {
  }

  ghost function CountAt(t: Tracker, rep: Rep.Ledger, evs: seq<Event>, n: nat, a: Address): int
    requires n <= |evs|
  {
    IncludedCount(RepAt(t, rep, evs, n), a)
  }

  lemma CountStep(t: Tracker, rep: Rep.Ledger, evs: seq<Event>, n: nat, a: Address)
    requires n < |evs| && ContiguousByTx(evs)
    requires t.eventAggregatorTxHash == None && t.eventAggregator == None
    ensures CountAt(t, rep, evs, n + 1, a) == CountAt(t, rep, evs, n, a) + Mentions(evs, n, a)
  {
    var before, r := TrackerAt(t, evs, n), RepAt(t, rep, evs, n);
    assert RepAt(t, rep, evs, n + 1) == NextRep(before, r, evs[n]);
    CacheAnswersTheTransaction(t, evs, n);
    MentionedOnce(before, r, evs, n, a);
  }

  lemma {:induction false} InclusionsUpTo(t: Tracker, rep: Rep.Ledger, evs: seq<Event>, n: nat, a: Address)
    requires n <= |evs| && ContiguousByTx(evs)
    requires t.eventAggregatorTxHash == None && t.eventAggregator == None
    ensures CountAt(t, rep, evs, n, a) == IncludedCount(rep, a) + MentionsUpTo(evs, n, a)
  {
    if n > 0 {
      InclusionsUpTo(t, rep, evs, n - 1, a);
      CountStep(t, rep, evs, n - 1, a);
    }
  }

  /** Every address's `opsIncluded` grows by exactly the number of times the handled events name it. */
  lemma InclusionsCountMentions(w: World, evs: seq<Event>, a: Address)
    requires ContiguousByTx(evs)
    requires w.tracker.eventAggregatorTxHash == None && w.tracker.eventAggregator == None
    ensures IncludedCount(HandleAll(w, evs).rep, a) == IncludedCount(w.rep, a) + MentionsUpTo(evs, |evs|, a)
  {
    assert evs[..|evs|] == evs;
    HandleAllByIndex(w, evs, |evs|);
    InclusionsUpTo(w.tracker, w.rep, evs, |evs|, a);
  }

  lemma {:induction false} OtherTransactionsLeaveNothing(w: World, evs: seq<Event>, tx: nat)
    requires w.tracker.eventAggregatorTxHash != Some(tx) && forall ev :: ev in evs ==> ev.tx != tx
    ensures HandleAll(w, evs).tracker.eventAggregatorTxHash != Some(tx)
    ensures Cached(HandleAll(w, evs).tracker, tx) == None
  {
    if evs != [] {
      OtherTransactionsLeaveNothing(w, evs[..|evs| - 1], tx);
      assert evs[|evs| - 1] in evs;
    }
  }

  /** An operation's event handled twice credits its sender twice. */
  lemma HandledTwiceCreditsTwice(w: World, ev: Event)
    requires ev.UserOperationEvent? && ev.sender != ev.paymaster && Cached(w.tracker, ev.tx) == None
    ensures IncludedCount(HandleAll(HandleAll(w, [ev]), [ev]).rep, ev.sender) == IncludedCount(w.rep, ev.sender) + 2
  {
    assert [ev][..0] == [];
    var once := HandleAll(w, [ev]);
    assert once == HandleEvent(HandleAll(w, []), ev) == HandleEvent(w, ev);
    assert HandleAll(once, [ev]) == HandleEvent(HandleAll(once, []), ev) == HandleEvent(once, ev);
  }
}
