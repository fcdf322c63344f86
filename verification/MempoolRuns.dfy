/** What every run of the mempool keeps: counters, unique slots, role separation, caps and fee growth. */
module MempoolRuns {
  import opened Common
  import opened Mempool
  import Rep = Reputation

  /** One atomic step; reputation may change arbitrarily between mempool calls. */
  datatype Event = Insert(req: Request) | Remove(target: Target) | Clear | Reputation(rep: Rep.Ledger)

  datatype State = State(pool: Pool, rep: Rep.Ledger)

  function Step(s: State, ev: Event): State {
    match ev
    case Insert(req) => var added := AddUserOp(s.pool, s.rep, req); State(added.pool, added.rep)
    case Remove(target) => s.(pool := RemoveUserOp(s.pool, target))
    case Clear => s.(pool := EMPTY)
    case Reputation(rep) => s.(rep := rep)
  }

  function Run(s: State, evs: seq<Event>): State
    decreases |evs|
  {
    if evs == [] then s else Run(Step(s, evs[0]), evs[1..])
  }

  predicate Accepted(s: State, ev: Event) {
    ev.Insert? && AddUserOp(s.pool, s.rep, ev.req).verdict.Pass?
  }

  predicate Fresh(s: State, ev: Event) {
    ev.Insert? && FindBySenderNonce(s.pool.entries, ev.req.op.sender, ev.req.op.nonce).None?
  }

  predicate Replaces(s: State, ev: Event) {
    Accepted(s, ev) && !Fresh(s, ev)
  }

  /** Where a replacing insert puts its entry. */
  function DisplacedIndex(s: State, ev: Event): nat
    requires Replaces(s, ev)
  {
    FindBySenderNonce(s.pool.entries, ev.req.op.sender, ev.req.op.nonce).value
  }

  /** The entry a replacing insert displaces. */
  function Displaced(s: State, ev: Event): Entry
    requires Replaces(s, ev)
  {
    s.pool.entries[DisplacedIndex(s, ev)]
  }

  // ---- roles ------------------------------------------------------------------------------------

  /** How many of the roles sender, paymaster and factory `a` plays in `op`. */
  function OpRoles(op: UserOp, a: Address): nat {
    Hit(Some(op.sender), a) + Hit(Paymaster(op), a) + Hit(Factory(op), a)
  }

  /** How many roles `a` plays across the pending operations. */
  function Roles(entries: seq<Entry>, a: Address): nat {
    if entries == [] then 0 else OpRoles(entries[0].op, a) + Roles(entries[1..], a)
  }

  lemma {:induction false} RolesConcat(xs: seq<Entry>, ys: seq<Entry>, a: Address)
    ensures Roles(xs + ys, a) == Roles(xs, a) + Roles(ys, a)
  {
    if xs == [] {
      assert xs + ys == ys;
    } else {
      assert (xs + ys)[1..] == xs[1..] + ys;
      RolesConcat(xs[1..], ys, a);
    }
  }

  lemma RolesSplit(entries: seq<Entry>, i: nat, a: Address)
    requires i < |entries|
    ensures Roles(entries, a) == Roles(entries[..i], a) + OpRoles(entries[i].op, a) + Roles(entries[i + 1..], a)
  {
    assert entries == entries[..i] + ([entries[i]] + entries[i + 1..]);
    RolesConcat(entries[..i], [entries[i]] + entries[i + 1..], a);
    RolesConcat([entries[i]], entries[i + 1..], a);
  }

  // ---- counter agreement ----------------------------------------------------------------------

  /** The counter of `a` is `n`, stored only when positive. */
  predicate Counts(counts: map<Address, int>, a: Address, n: nat) {
    CountOf(counts, a) == n && (a in counts ==> counts[a] > 0)
  }

  lemma IncrementRolesCounts(counts: map<Address, int>, op: UserOp, a: Address, n: nat)
    requires Counts(counts, a, n)
    ensures Counts(IncrementRoles(counts, op), a, n + OpRoles(op, a))
  {
  }

  lemma DecrementCounts(counts: map<Address, int>, who: Option<Address>, a: Address, n: nat)
    requires Counts(counts, a, n + Hit(who, a))
    ensures Counts(Decrement(counts, who), a, n)
  {
  }

  lemma DecrementRolesCounts(counts: map<Address, int>, op: UserOp, a: Address, n: nat)
    requires Counts(counts, a, n + OpRoles(op, a))
    ensures Counts(DecrementRoles(counts, op), a, n)
  {
    var s, p, f := Some(op.sender), Paymaster(op), Factory(op);
    DecrementCounts(counts, s, a, n + Hit(p, a) + Hit(f, a));
    DecrementCounts(Decrement(counts, s), p, a, n + Hit(f, a));
    DecrementCounts(Decrement(Decrement(counts, s), p), f, a, n);
  }

  /** The counter of `a` is its pending roles plus what rejected inserts left behind. */
  predicate Agrees(pool: Pool, a: Address, leaked: nat) {
    Counts(pool.counts, a, Roles(pool.entries, a) + leaked)
  }

  /** A fresh insert that is rejected has already bumped its counters, and nobody lowers them again. */
  predicate Leaks(s: State, ev: Event) {
    Fresh(s, ev) && !Accepted(s, ev)
  }

  function LeakAfter(s: State, ev: Event, a: Address, leaked: nat): nat {
    if ev.Clear? then 0 else if Leaks(s, ev) then leaked + OpRoles(ev.req.op, a) else leaked
  }

  function Leaked(s: State, evs: seq<Event>, a: Address, leaked: nat): nat
    decreases |evs|
  {
    if evs == [] then leaked else Leaked(Step(s, evs[0]), evs[1..], a, LeakAfter(s, evs[0], a, leaked))
  }

  /** A replacement keeps the roles when it names the same paymaster and factory as the entry it displaces. */
  ghost predicate SameRoles(incoming: UserOp, pending: UserOp) {
    forall a :: OpRoles(incoming, a) == OpRoles(pending, a)
  }

  ghost predicate KeepsRoles(s: State, ev: Event) {
    Replaces(s, ev) ==> SameRoles(ev.req.op, Displaced(s, ev).op)
  }

  ghost predicate RolesKept(s: State, evs: seq<Event>)
    decreases |evs|
  {
    evs == [] || (KeepsRoles(s, evs[0]) && RolesKept(Step(s, evs[0]), evs[1..]))
  }

  lemma ReplacedRoles(entries: seq<Entry>, i: nat, e: Entry, a: Address)
    requires i < |entries|
    ensures Roles(entries[i := e], a) + OpRoles(entries[i].op, a) == Roles(entries, a) + OpRoles(e.op, a)
  {
    var after := entries[i := e];
    assert after[..i] == entries[..i] && after[i + 1..] == entries[i + 1..];
    RolesSplit(entries, i, a);
    RolesSplit(after, i, a);
  }

  lemma RemoveAgrees(pool: Pool, target: Target, a: Address, leaked: nat)
    requires Agrees(pool, a, leaked)
    ensures Agrees(RemoveUserOp(pool, target), a, leaked)
  {
    if Find(pool.entries, target).Some? {
      var i := Find(pool.entries, target).value;
      var front, back := pool.entries[..i], pool.entries[i + 1..];
      RolesSplit(pool.entries, i, a);
      RolesConcat(front, back, a);
      DecrementRolesCounts(pool.counts, pool.entries[i].op, a, Roles(front + back, a) + leaked);
    }
  }

  lemma FindInRange(entries: seq<Entry>, target: Target)
    ensures Find(entries, target).Some? ==> Find(entries, target).value < |entries|
  {
  }

  lemma InsertAgrees(s: State, req: Request, a: Address, leaked: nat)
    requires Agrees(s.pool, a, leaked)
    requires KeepsRoles(s, Insert(req))
    ensures Agrees(Step(s, Insert(req)).pool, a, LeakAfter(s, Insert(req), a, leaked))
  {
    var pool, ev := s.pool, Insert(req);
    if Fresh(s, ev) {
      IncrementRolesCounts(pool.counts, req.op, a, Roles(pool.entries, a) + leaked);
      RolesConcat(pool.entries, [EntryOf(req)], a);
    } else if Accepted(s, ev) {
      ReplacedRoles(pool.entries, DisplacedIndex(s, ev), EntryOf(req), a);
      assert OpRoles(req.op, a) == OpRoles(Displaced(s, ev).op, a);
    }
  }

  lemma StepAgrees(s: State, ev: Event, a: Address, leaked: nat)
    requires Agrees(s.pool, a, leaked) && KeepsRoles(s, ev)
    ensures Agrees(Step(s, ev).pool, a, LeakAfter(s, ev, a, leaked))
  {
    match ev
    case Insert(req) => InsertAgrees(s, req, a, leaked);
    case Remove(target) => RemoveAgrees(s.pool, target, a, leaked);
    case Clear =>
    case Reputation(_) =>
  }

  lemma {:induction false} RunAgrees(s: State, evs: seq<Event>, a: Address, leaked: nat)
    requires Agrees(s.pool, a, leaked)
    requires RolesKept(s, evs)
    ensures Agrees(Run(s, evs).pool, a, Leaked(s, evs, a, leaked))
    decreases |evs|
  {
    if evs == [] {
    } else {
      StepAgrees(s, evs[0], a, leaked);
      RunAgrees(Step(s, evs[0]), evs[1..], a, LeakAfter(s, evs[0], a, leaked));
    }
  }

  /**
   * Over every run whose replacements keep their roles: each counter is at least the number of roles
   * its address plays, the excess is exactly what rejected inserts leaked, and no stored count is
   * below one.
   */
  lemma CountersCoverRoles(rep: Rep.Ledger, evs: seq<Event>, a: Address)
    requires RolesKept(State(EMPTY, rep), evs)
    ensures var pool := Run(State(EMPTY, rep), evs).pool;
      && CountOf(pool.counts, a) == Roles(pool.entries, a) + Leaked(State(EMPTY, rep), evs, a, 0)
      && (a in pool.counts ==> pool.counts[a] > 0)
  {
    RunAgrees(State(EMPTY, rep), evs, a, 0);
  }

  /** Fresh inserts rejected since the mempool was last cleared. */
  function Rejections(s: State, evs: seq<Event>, soFar: nat): nat
    decreases |evs|
  {
    if evs == [] then soFar
    else Rejections(Step(s, evs[0]), evs[1..],
                    if evs[0].Clear? then 0 else if Leaks(s, evs[0]) then soFar + 1 else soFar)
  }

  ghost predicate NoneLeaked(leaked: Address -> nat) {
    forall a :: leaked(a) == 0
  }

  lemma {:induction false} LeaksComeFromRejections(s: State, evs: seq<Event>, leaked: Address -> nat, rejected: nat)
    requires NoneLeaked(leaked) <==> rejected == 0
    ensures (forall a :: Leaked(s, evs, a, leaked(a)) == 0) <==> Rejections(s, evs, rejected) == 0
    decreases |evs|
  {
    if evs == [] {
    } else {
      var next := a => LeakAfter(s, evs[0], a, leaked(a));
      var nextRejected := if evs[0].Clear? then 0 else if Leaks(s, evs[0]) then rejected + 1 else rejected;
      if Leaks(s, evs[0]) {
        assert next(evs[0].req.op.sender) > 0;
      } else if !evs[0].Clear? {
        assert forall a :: next(a) == leaked(a);
      }
      LeaksComeFromRejections(Step(s, evs[0]), evs[1..], next, nextRejected);
      assert forall a :: Leaked(s, evs, a, leaked(a)) == Leaked(Step(s, evs[0]), evs[1..], a, next(a));
    }
  }

  ghost predicate Exact(pool: Pool) {
    forall a :: CountOf(pool.counts, a) == Roles(pool.entries, a)
  }

  /** The counters are the role counts, for all addresses, exactly when no fresh insert was rejected. */
  lemma CountersExactWithoutRejections(rep: Rep.Ledger, evs: seq<Event>)
    requires RolesKept(State(EMPTY, rep), evs)
    ensures Exact(Run(State(EMPTY, rep), evs).pool) <==> Rejections(State(EMPTY, rep), evs, 0) == 0
  {
    var s := State(EMPTY, rep);
    var pool := Run(s, evs).pool;
    forall a
      ensures CountOf(pool.counts, a) == Roles(pool.entries, a) + Leaked(s, evs, a, 0)
    {
      CountersCoverRoles(rep, evs, a);
    }
    var none: Address -> nat := a => 0;
    LeaksComeFromRejections(s, evs, none, 0);
    if Rejections(s, evs, 0) == 0 {
      forall a
        ensures CountOf(pool.counts, a) == Roles(pool.entries, a)
      {
        assert Leaked(s, evs, a, none(a)) == 0;
      }
    } else {
      var a :| Leaked(s, evs, a, none(a)) != 0;
      assert CountOf(pool.counts, a) != Roles(pool.entries, a);
    }
  }

  /** The replacing path touches no counter, so agreement survives it exactly when the roles are kept. */
  lemma ReplacementAgreesExactly(s: State, ev: Event, a: Address, leaked: nat)
    requires Agrees(s.pool, a, leaked) && Replaces(s, ev)
    ensures Agrees(Step(s, ev).pool, a, leaked) <==> OpRoles(ev.req.op, a) == OpRoles(Displaced(s, ev).op, a)
  {
    ReplacedRoles(s.pool.entries, DisplacedIndex(s, ev), EntryOf(ev.req), a);
  }

  // ---- one entry per (sender, nonce) ------------------------------------------------------------

  ghost predicate UniqueSlots(entries: seq<Entry>) {
    forall i, j :: 0 <= i < j < |entries| ==> !HasKey(entries[j], entries[i].op.sender, entries[i].op.nonce)
  }

  lemma StepKeepsUniqueSlots(s: State, ev: Event)
    requires UniqueSlots(s.pool.entries)
    ensures UniqueSlots(Step(s, ev).pool.entries)
  {
    var before, after := s.pool.entries, Step(s, ev).pool.entries;
    if Accepted(s, ev) {
      assert HasKey(EntryOf(ev.req), ev.req.op.sender, ev.req.op.nonce);
      forall i, j | 0 <= i < j < |after|
        ensures !HasKey(after[j], after[i].op.sender, after[i].op.nonce)
      {
        if j < |before| {
          assert !HasKey(before[j], before[i].op.sender, before[i].op.nonce);
        }
      }
    } else if ev.Remove? {
      FindInRange(before, ev.target);
    }
  }

  /** No reachable mempool holds two entries for one (sender, nonce), whatever was replaced or rejected. */
  lemma {:induction false} SlotsStayUnique(s: State, evs: seq<Event>)
    requires UniqueSlots(s.pool.entries)
    ensures UniqueSlots(Run(s, evs).pool.entries)
    decreases |evs|
  {
    if evs == [] {
    } else {
      StepKeepsUniqueSlots(s, evs[0]);
      SlotsStayUnique(Step(s, evs[0]), evs[1..]);
    }
  }

  // ---- role separation --------------------------------------------------------------------------

  /** Nobody is a sender in one entry and a paymaster or factory in another. */
  ghost predicate Separated(entries: seq<Entry>) {
    forall i, j :: 0 <= i < |entries| && 0 <= j < |entries| && i != j ==>
      !UsesEntity(entries[j].op, entries[i].op.sender)
  }

  /** The operation shares no such double role with a pending one. */
  ghost predicate KeepsApart(entries: seq<Entry>, op: UserOp) {
    forall e :: e in entries ==> !UsesEntity(e.op, op.sender) && !UsesEntity(op, e.op.sender)
  }

  lemma RoleCheckDecides(entries: seq<Entry>, op: UserOp)
    ensures CheckMultipleRolesViolation(entries, op).Pass? <==> KeepsApart(entries, op)
  {
    if KeepsApart(entries, op) {
      assert forall e :: e in entries ==> op.sender !in EntitiesOf(e.op);
    } else {
      var e :| e in entries && (UsesEntity(e.op, op.sender) || UsesEntity(op, e.op.sender));
      if UsesEntity(e.op, op.sender) {
        assert op.sender in EntitiesOf(e.op);
      } else {
        assert e.op.sender in KnownSenders(entries);
      }
    }
  }

  /** On a separated pool the check passes exactly when the pool stays separated with the new entry. */
  lemma RoleCheckIsExact(entries: seq<Entry>, e: Entry)
    requires Separated(entries)
    ensures CheckMultipleRolesViolation(entries, e.op).Pass? <==> Separated(entries + [e])
  {
    RoleCheckDecides(entries, e.op);
    var after := entries + [e];
    if Separated(after) {
      forall x | x in entries
        ensures !UsesEntity(x.op, e.op.sender) && !UsesEntity(e.op, x.op.sender)
      {
        var k :| 0 <= k < |entries| && entries[k] == x;
        assert after[k] == x && after[|entries|] == e;
      }
    }
  }

  lemma SameRolesSameEntities(incoming: UserOp, pending: UserOp)
    requires incoming.sender == pending.sender && SameRoles(incoming, pending)
    ensures forall x :: UsesEntity(incoming, x) <==> UsesEntity(pending, x)
  {
    forall x
      ensures UsesEntity(incoming, x) <==> UsesEntity(pending, x)
    {
      assert OpRoles(incoming, x) == OpRoles(pending, x);
    }
  }

  lemma StepKeepsSeparation(s: State, ev: Event)
    requires Separated(s.pool.entries)
    requires KeepsRoles(s, ev)
    ensures Separated(Step(s, ev).pool.entries)
  {
    if Replaces(s, ev) {
      SameRolesSameEntities(ev.req.op, Displaced(s, ev).op);
    } else if Accepted(s, ev) {
      RoleCheckIsExact(s.pool.entries, EntryOf(ev.req));
    } else if ev.Remove? {
      FindInRange(s.pool.entries, ev.target);
    }
  }

  lemma {:induction false} RolesStaySeparated(s: State, evs: seq<Event>)
    requires Separated(s.pool.entries)
    requires RolesKept(s, evs)
    ensures Separated(Run(s, evs).pool.entries)
    decreases |evs|
  {
    if evs == [] {
    } else {
      StepKeepsSeparation(s, evs[0]);
      RolesStaySeparated(Step(s, evs[0]), evs[1..]);
    }
  }

  /**
   * The replacing path makes no role check. It keeps the separation exactly when the new operation's
   * paymaster and factory are not senders of the other entries.
   */
  lemma ReplacementSeparatedExactly(s: State, ev: Event)
    requires Separated(s.pool.entries) && Replaces(s, ev)
    ensures Separated(Step(s, ev).pool.entries) <==>
      forall k :: 0 <= k < |s.pool.entries| && k != DisplacedIndex(s, ev) ==>
        !UsesEntity(ev.req.op, s.pool.entries[k].op.sender)
  {
    var before, after := s.pool.entries, Step(s, ev).pool.entries;
    var i := DisplacedIndex(s, ev);
    if Separated(after) {
      forall k | 0 <= k < |before| && k != i
        ensures !UsesEntity(ev.req.op, before[k].op.sender)
      {
        assert after[k] == before[k] && after[i] == EntryOf(ev.req);
      }
    }
  }

  // ---- caps -------------------------------------------------------------------------------------

  ghost function SenderCount(entries: seq<Entry>, a: Address): nat {
    if entries == [] then 0 else (if entries[0].op.sender == a then 1 else 0) + SenderCount(entries[1..], a)
  }

  lemma {:induction false} SenderCountConcat(xs: seq<Entry>, ys: seq<Entry>, a: Address)
    ensures SenderCount(xs + ys, a) == SenderCount(xs, a) + SenderCount(ys, a)
  {
    if xs == [] {
      assert xs + ys == ys;
    } else {
      assert (xs + ys)[1..] == xs[1..] + ys;
      SenderCountConcat(xs[1..], ys, a);
    }
  }

  lemma {:induction false} SenderCountBelowRoles(entries: seq<Entry>, a: Address)
    ensures SenderCount(entries, a) <= Roles(entries, a)
  {
    if entries != [] {
      SenderCountBelowRoles(entries[1..], a);
    }
  }

  lemma SenderCountSplit(entries: seq<Entry>, i: nat, a: Address)
    requires i < |entries|
    ensures SenderCount(entries, a)
         == SenderCount(entries[..i], a) + (if entries[i].op.sender == a then 1 else 0) + SenderCount(entries[i + 1..], a)
  {
    assert entries == entries[..i] + ([entries[i]] + entries[i + 1..]);
    SenderCountConcat(entries[..i], [entries[i]] + entries[i + 1..], a);
    SenderCountConcat([entries[i]], entries[i + 1..], a);
  }

  predicate SentUnstaked(s: State, ev: Event, a: Address) {
    ev.Insert? && ev.req.op.sender == a ==>
      ev.req.senderInfo.addr == a && Rep.CheckStake(s.rep, ev.req.senderInfo).Fail?
  }

  /** `a` never passes `checkStake` when it sends an operation. */
  ghost predicate NeverStaked(s: State, evs: seq<Event>, a: Address)
    decreases |evs|
  {
    evs == [] || (SentUnstaked(s, evs[0], a) && NeverStaked(Step(s, evs[0]), evs[1..], a))
  }

  lemma StepKeepsSenderCap(s: State, ev: Event, a: Address, leaked: nat)
    requires Agrees(s.pool, a, leaked) && KeepsRoles(s, ev)
    requires SentUnstaked(s, ev, a)
    requires SenderCount(s.pool.entries, a) <= MAX_MEMPOOL_USEROPS_PER_SENDER
    ensures SenderCount(Step(s, ev).pool.entries, a) <= MAX_MEMPOOL_USEROPS_PER_SENDER
  {
    var before, after := s.pool.entries, Step(s, ev).pool.entries;
    if Replaces(s, ev) {
      var i := DisplacedIndex(s, ev);
      assert after[..i] == before[..i] && after[i + 1..] == before[i + 1..];
      SenderCountSplit(before, i, a);
      SenderCountSplit(after, i, a);
    } else if Accepted(s, ev) {
      SenderCountConcat(before, [EntryOf(ev.req)], a);
      if ev.req.op.sender == a {
        SenderCountBelowRoles(before, a);
        IncrementRolesCounts(s.pool.counts, ev.req.op, a, Roles(before, a) + leaked);
      }
    } else if ev.Remove? {
      FindInRange(before, ev.target);
      if Find(before, ev.target).Some? {
        var i := Find(before, ev.target).value;
        SenderCountSplit(before, i, a);
        SenderCountConcat(before[..i], before[i + 1..], a);
      }
    }
  }

  /** A sender that is never staked never has more than four operations pending. */
  lemma {:induction false} UnstakedSenderCapped(s: State, evs: seq<Event>, a: Address, leaked: nat)
    requires Agrees(s.pool, a, leaked) && RolesKept(s, evs) && NeverStaked(s, evs, a)
    requires SenderCount(s.pool.entries, a) <= MAX_MEMPOOL_USEROPS_PER_SENDER
    ensures SenderCount(Run(s, evs).pool.entries, a) <= MAX_MEMPOOL_USEROPS_PER_SENDER
    decreases |evs|
  {
    if evs == [] {
    } else {
      StepKeepsSenderCap(s, evs[0], a, leaked);
      StepAgrees(s, evs[0], a, leaked);
      UnstakedSenderCapped(Step(s, evs[0]), evs[1..], a, LeakAfter(s, evs[0], a, leaked));
    }
  }

  /** The stake reports name the operation's own addresses, as `fillEntity` builds them. */
  predicate InfosMatch(req: Request) {
    && req.senderInfo.addr == req.op.sender
    && (Paymaster(req.op) == if req.paymasterInfo.Some? then Some(req.paymasterInfo.value.addr) else None)
    && (Factory(req.op) == if req.factoryInfo.Some? then Some(req.factoryInfo.value.addr) else None)
  }

  /** The stake report the checks consult for the paymaster or factory `a`. */
  ghost predicate ReportedAs(req: Request, info: StakeInfo) {
    req.paymasterInfo == Some(info) || req.factoryInfo == Some(info)
  }

  /**
   * After an accepted fresh insert, each unstaked paymaster or factory of the operation plays at most
   * its allowance of roles in the whole mempool, and a throttled one at most four.
   */
  lemma EntityCapped(s: State, req: Request, info: StakeInfo, leaked: nat)
    requires Agrees(s.pool, info.addr, leaked)
    requires Fresh(s, Insert(req)) && Accepted(s, Insert(req)) && ReportedAs(req, info)
    ensures var pending := Roles(Step(s, Insert(req)).pool.entries, info.addr);
      && (Rep.CheckStake(s.rep, info).Fail? ==>
            pending <= Rep.CalculateMaxAllowedMempoolOpsUnstaked(s.rep, info.addr))
      && (Rep.GetStatus(s.rep, Some(info.addr)) == Rep.THROTTLED ==> pending <= THROTTLED_ENTITY_MEMPOOL_COUNT)
      && Rep.GetStatus(s.rep, Some(info.addr)) != Rep.BANNED
  {
    InsertAgrees(s, req, info.addr, leaked);
    var after := Step(s, Insert(req)).pool;
    assert after.counts == IncrementRoles(s.pool.counts, req.op);
    assert CheckReputationStatus(after.counts, s.rep, info, None).Pass?;
  }

  /** Nobody banned gets a fresh operation in, as sender, paymaster or factory; the pending list is unchanged. */
  lemma BannedInsertRejected(s: State, req: Request, a: Address)
    requires Fresh(s, Insert(req)) && InfosMatch(req)
    requires a == req.op.sender || Paymaster(req.op) == Some(a) || Factory(req.op) == Some(a)
    requires Rep.GetStatus(s.rep, Some(a)) == Rep.BANNED
    ensures !Accepted(s, Insert(req))
    ensures Step(s, Insert(req)).pool.entries == s.pool.entries && Step(s, Insert(req)).rep == s.rep
  {
    var counts := IncrementRoles(s.pool.counts, req.op);
    if a == req.op.sender {
      assert CheckReputationStatus(counts, s.rep, req.senderInfo, Some(MAX_MEMPOOL_USEROPS_PER_SENDER)).Fail?;
    } else if Paymaster(req.op) == Some(a) {
      assert CheckEntity(counts, s.rep, req.paymasterInfo).Fail?;
    } else {
      assert CheckEntity(counts, s.rep, req.factoryInfo).Fail?;
    }
  }

  // ---- who gets in ------------------------------------------------------------------------------

  /** How many unstaked operations a paymaster, factory or aggregator may have pending. */
  ghost function Allowance(rep: Rep.Ledger, a: Address): int {
    if a !in rep.entries then 10
    else
      var e := rep.entries[a];
      10 + Min(e.opsIncluded, 10000) + if e.opsSeen == 0 then 0 else Rep.FloorDiv(10 * e.opsIncluded, e.opsSeen)
  }

  /**
   * The reported party may take part in one more operation: not banned, at most four roles if throttled, and at
   * most `cap` unless it is on the white list or meets both stake minima. `held` counts the new operation in.
   */
  ghost predicate Admitted(rep: Rep.Ledger, info: StakeInfo, held: int, cap: int) {
    var status := Rep.GetStatus(rep, Some(info.addr));
    && status != Rep.BANNED
    && (status == Rep.THROTTLED ==> held <= 4)
    && (|| held <= cap
        || info.addr in rep.whitelist
        || (info.stake >= rep.config.minStake && info.unstakeDelaySec >= rep.config.minUnstakeDelay))
  }

  ghost predicate EntityAdmitted(rep: Rep.Ledger, info: Option<StakeInfo>, held: Address -> nat) {
    info.Some? ==> Admitted(rep, info.value, held(info.value.addr), Allowance(rep, info.value.addr))
  }

  /** The roles of `a` among the entries and in `op`, and what rejected inserts left on its counter. */
  ghost function Held(entries: seq<Entry>, op: UserOp, leaked: Address -> nat): Address -> nat {
    a => Roles(entries, a) + OpRoles(op, a) + leaked(a)
  }

  lemma StatusCheckDecides(counts: map<Address, int>, rep: Rep.Ledger, info: StakeInfo, cap: int)
    ensures CheckReputationStatus(counts, rep, info, Some(cap)).Pass? <==>
      Admitted(rep, info, CountOf(counts, info.addr), cap)
  {
  }

  lemma EntityCheckDecides(counts: map<Address, int>, rep: Rep.Ledger, info: Option<StakeInfo>, held: Address -> nat)
    requires info.Some? ==> CountOf(counts, info.value.addr) == held(info.value.addr)
    ensures CheckEntity(counts, rep, info).Pass? <==> EntityAdmitted(rep, info, held)
  {
    if info.Some? {
      var cap := Allowance(rep, info.value.addr);
      assert cap == Rep.CalculateMaxAllowedMempoolOpsUnstaked(rep, info.value.addr);
      StatusCheckDecides(counts, rep, info.value, cap);
    }
  }

  /** The sender, with a cap of four, and the paymaster, factory and aggregator, each with its allowance. */
  ghost predicate AllAdmitted(rep: Rep.Ledger, req: Request, held: Address -> nat) {
    && Admitted(rep, req.senderInfo, held(req.senderInfo.addr), 4)
    && EntityAdmitted(rep, req.paymasterInfo, held)
    && EntityAdmitted(rep, req.factoryInfo, held)
    && EntityAdmitted(rep, req.aggregatorInfo, held)
  }

  lemma ReputationCheckDecides(counts: map<Address, int>, rep: Rep.Ledger, req: Request, held: Address -> nat)
    requires forall a :: CountOf(counts, a) == held(a)
    ensures CheckReputation(counts, rep, req).Pass? <==> AllAdmitted(rep, req, held)
    ensures CheckReputation(counts, rep, req) != Fail(Rep.OpcodeValidation)
  {
    StatusCheckDecides(counts, rep, req.senderInfo, 4);
    EntityCheckDecides(counts, rep, req.paymasterInfo, held);
    EntityCheckDecides(counts, rep, req.factoryInfo, held);
    EntityCheckDecides(counts, rep, req.aggregatorInfo, held);
  }

  /**
   * A fresh operation is accepted if and only if it keeps the roles apart and all its parties are admitted, and appended
   * as it came. A role violation is what it reports only when nothing else is wrong.
   */
  lemma FreshAcceptedExactly(s: State, req: Request, leaked: Address -> nat)
    requires Fresh(s, Insert(req)) && forall a :: Agrees(s.pool, a, leaked(a))
    ensures var admitted := AllAdmitted(s.rep, req, Held(s.pool.entries, req.op, leaked));
      && (Accepted(s, Insert(req)) <==> admitted && KeepsApart(s.pool.entries, req.op))
      && (AddUserOp(s.pool, s.rep, req).verdict == Fail(Rep.OpcodeValidation) <==>
            admitted && !KeepsApart(s.pool.entries, req.op))
    ensures var aggregator := if req.aggregatorInfo.Some? then Some(req.aggregatorInfo.value.addr) else None;
      var appended := s.pool.entries + [Entry(req.op, req.hash, req.prefund, req.referenced, aggregator)];
      Step(s, Insert(req)).pool.entries == if Accepted(s, Insert(req)) then appended else s.pool.entries
  {
    var held := Held(s.pool.entries, req.op, leaked);
    var counts := IncrementRoles(s.pool.counts, req.op);
    forall a
      ensures CountOf(counts, a) == held(a)
    {
      assert Agrees(s.pool, a, leaked(a));
      IncrementRolesCounts(s.pool.counts, req.op, a, Roles(s.pool.entries, a) + leaked(a));
    }
    ReputationCheckDecides(counts, s.rep, req, held);
    RoleCheckDecides(s.pool.entries, req.op);
    RoleCheckFails(s.pool.entries, req.op);
  }

  lemma RoleCheckFails(entries: seq<Entry>, op: UserOp)
    ensures var v := CheckMultipleRolesViolation(entries, op); v.Fail? ==> v == Fail(Rep.OpcodeValidation)
  {
  }

  /** A replacement is accepted if and only if both fees grow by a tenth and all four fit a safe integer. */
  lemma ReplacementAcceptedExactly(s: State, req: Request, i: nat)
    requires i < |s.pool.entries| && UniqueSlots(s.pool.entries)
    requires s.pool.entries[i].op.sender == req.op.sender && s.pool.entries[i].op.nonce == req.op.nonce
    ensures var pending := s.pool.entries[i].op;
      Accepted(s, Insert(req)) <==>
        && 10 * req.op.maxPriorityFeePerGas >= 11 * pending.maxPriorityFeePerGas
        && 10 * req.op.maxFeePerGas >= 11 * pending.maxFeePerGas
        && req.op.maxPriorityFeePerGas < Pow(2, 53) && req.op.maxFeePerGas < Pow(2, 53)
        && pending.maxPriorityFeePerGas < Pow(2, 53) && pending.maxFeePerGas < Pow(2, 53)
    ensures Step(s, Insert(req)).pool ==
      if Accepted(s, Insert(req)) then s.pool.(entries := s.pool.entries[i := EntryOf(req)]) else s.pool
  {
    FiftyThreeDoublings();
    SlotIndex(s.pool.entries, i);
  }

  lemma SlotIndex(entries: seq<Entry>, i: nat)
    requires UniqueSlots(entries) && i < |entries|
    ensures FindBySenderNonce(entries, entries[i].op.sender, entries[i].op.nonce) == Some(i)
  {
    assert HasKey(entries[i], entries[i].op.sender, entries[i].op.nonce);
    var found := FindBySenderNonce(entries, entries[i].op.sender, entries[i].op.nonce);
    if found.value < i {
      assert false;
    }
  }

  ghost function SeenCount(rep: Rep.Ledger, a: Address): int {
    if a in rep.entries then rep.entries[a].opsSeen else 0
  }

  /**
   * What an accepted operation does to the scores: its aggregator, paymaster and factory are each seen once more,
   * and its sender when it is on the white list, or not banned and sufficiently staked.
   */
  lemma AcceptedIsSeen(s: State, req: Request, a: Address)
    requires Accepted(s, Insert(req))
    ensures var info := req.senderInfo;
      SeenCount(Step(s, Insert(req)).rep, a) == SeenCount(s.rep, a)
        + (if info.addr in s.rep.whitelist
              || (&& Rep.GetStatus(s.rep, Some(info.addr)) != Rep.BANNED
                  && info.stake >= s.rep.config.minStake && info.unstakeDelaySec >= s.rep.config.minUnstakeDelay)
           then Hit(Some(req.op.sender), a) else 0)
        + (if req.aggregatorInfo.Some? then Hit(Some(req.aggregatorInfo.value.addr), a) else 0)
        + Hit(Paymaster(req.op), a) + Hit(Factory(req.op), a)
  {
    var r0 := if Rep.CheckStake(s.rep, req.senderInfo).Pass? then Rep.UpdateSeenStatus(s.rep, Some(req.op.sender)) else s.rep;
    var r1 := Rep.UpdateSeenStatus(r0, EntryOf(req).aggregator);
    var r2 := Rep.UpdateSeenStatus(r1, Paymaster(req.op));
    SeenOnce(s.rep, Some(req.op.sender), a);
    SeenOnce(r0, EntryOf(req).aggregator, a);
    SeenOnce(r1, Paymaster(req.op), a);
    SeenOnce(r2, Factory(req.op), a);
  }

  lemma SeenOnce(rep: Rep.Ledger, who: Option<Address>, a: Address)
    ensures SeenCount(Rep.UpdateSeenStatus(rep, who), a) == SeenCount(rep, a) + Hit(who, a)
  {
  }

  // ---- fee growth -------------------------------------------------------------------------------

  function Slot(s: State, sender: Address, nonce: nat): Option<Entry> {
    match FindBySenderNonce(s.pool.entries, sender, nonce)
    case None => None
    case Some(i) => Some(s.pool.entries[i])
  }

  ghost predicate Occupied(s: State, evs: seq<Event>, sender: Address, nonce: nat)
    decreases |evs|
  {
    && Slot(s, sender, nonce).Some?
    && (evs != [] ==> Occupied(Step(s, evs[0]), evs[1..], sender, nonce))
  }

  predicate ReplacesSlot(s: State, ev: Event, sender: Address, nonce: nat) {
    Replaces(s, ev) && ev.req.op.sender == sender && ev.req.op.nonce == nonce
  }

  function Replacements(s: State, evs: seq<Event>, sender: Address, nonce: nat): nat
    decreases |evs|
  {
    if evs == [] then 0
    else (if ReplacesSlot(s, evs[0], sender, nonce) then 1 else 0)
         + Replacements(Step(s, evs[0]), evs[1..], sender, nonce)
  }

  lemma SlotIsTheEntry(s: State, e: Entry)
    requires UniqueSlots(s.pool.entries) && e in s.pool.entries
    ensures Slot(s, e.op.sender, e.op.nonce) == Some(e)
  {
    var k :| 0 <= k < |s.pool.entries| && s.pool.entries[k] == e;
    assert HasKey(s.pool.entries[k], e.op.sender, e.op.nonce);
    var i := FindBySenderNonce(s.pool.entries, e.op.sender, e.op.nonce);
    assert i.Some? && i.value <= k;
    if i.value < k {
      assert false;
    }
  }

  /** While a slot stays occupied, only a replacement changes its entry. */
  lemma SlotChangesOnlyByReplacement(s: State, ev: Event, sender: Address, nonce: nat)
    requires UniqueSlots(s.pool.entries)
    requires Slot(s, sender, nonce).Some? && Slot(Step(s, ev), sender, nonce).Some?
    ensures Slot(Step(s, ev), sender, nonce)
         == if ReplacesSlot(s, ev, sender, nonce) then Some(EntryOf(ev.req)) else Slot(s, sender, nonce)
  {
    var before, after := s.pool.entries, Step(s, ev).pool.entries;
    StepKeepsUniqueSlots(s, ev);
    var e := Slot(Step(s, ev), sender, nonce).value;
    assert e in after && HasKey(e, sender, nonce);
    if ReplacesSlot(s, ev, sender, nonce) {
      var i := FindBySenderNonce(before, sender, nonce).value;
      assert after[i] == EntryOf(ev.req);
      SlotIsTheEntry(Step(s, ev), EntryOf(ev.req));
    } else {
      if ev.Remove? { FindInRange(before, ev.target); }
      assert e in before;
      SlotIsTheEntry(s, e);
    }
  }

  lemma FeeGrows(s: State, ev: Event)
    requires Replaces(s, ev)
    ensures 10 * ev.req.op.maxPriorityFeePerGas >= 11 * Displaced(s, ev).op.maxPriorityFeePerGas
    ensures 10 * ev.req.op.maxFeePerGas >= 11 * Displaced(s, ev).op.maxFeePerGas
    ensures SafeFees(ev.req.op)
  {
  }

  lemma Compound(first: nat, mid: nat, last: nat, k: nat)
    requires 10 * mid >= 11 * first
    requires Pow(10, k) * last >= Pow(11, k) * mid
    ensures Pow(10, k + 1) * last >= Pow(11, k + 1) * first
  {
    var p, q := Pow(10, k), Pow(11, k);
    assert Pow(10, k + 1) * last == 10 * (p * last);
    assert 10 * (q * mid) == q * (10 * mid);
    assert q * (10 * mid) >= q * (11 * first) by { MulMonotone(11 * first, 10 * mid, q); }
    assert q * (11 * first) == Pow(11, k + 1) * first;
  }

  /** k replacements of one slot multiply both of its fees by at least (11/10)^k. */
  lemma {:induction false} FeesGrowGeometrically(s: State, evs: seq<Event>, sender: Address, nonce: nat)
    requires UniqueSlots(s.pool.entries) && Occupied(s, evs, sender, nonce)
    ensures Slot(Run(s, evs), sender, nonce).Some?
    ensures var k := Replacements(s, evs, sender, nonce);
      var first, last := Slot(s, sender, nonce).value.op, Slot(Run(s, evs), sender, nonce).value.op;
      && Pow(10, k) * last.maxPriorityFeePerGas >= Pow(11, k) * first.maxPriorityFeePerGas
      && Pow(10, k) * last.maxFeePerGas >= Pow(11, k) * first.maxFeePerGas
      && (k > 0 ==> SafeFees(last))
      && (k == 0 ==> last == first)
    decreases |evs|
  {
    if evs == [] {
    } else {
      var next := Step(s, evs[0]);
      StepKeepsUniqueSlots(s, evs[0]);
      FeesGrowGeometrically(next, evs[1..], sender, nonce);
      SlotChangesOnlyByReplacement(s, evs[0], sender, nonce);
      if ReplacesSlot(s, evs[0], sender, nonce) {
        FeeGrows(s, evs[0]);
        var k := Replacements(next, evs[1..], sender, nonce);
        var first, mid := Slot(s, sender, nonce).value.op, evs[0].req.op;
        var last := Slot(Run(s, evs), sender, nonce).value.op;
        Compound(first.maxPriorityFeePerGas, mid.maxPriorityFeePerGas, last.maxPriorityFeePerGas, k);
        Compound(first.maxFeePerGas, mid.maxFeePerGas, last.maxFeePerGas, k);
      }
    }
  }

  lemma MulBoth(a: nat, b: nat, c: nat, d: nat)
    requires a >= b && c >= d
    ensures a * c >= b * d
  {
    MulMonotone(d, c, a);
    MulMonotone(b, a, d);
  }

  lemma EighthPowers()
    ensures Pow(11, 8) >= 2 * Pow(10, 8)
  {
    assert Pow(11, 4) == 14641 && Pow(10, 4) == 10000;
    PowAdd(11, 4, 4);
    PowAdd(10, 4, 4);
  }

  /** (11/10)^8 exceeds 2, so (11/10)^(8m + r) exceeds 2^m. */
  lemma {:induction false} EightTenthsDouble(m: nat, r: nat)
    ensures Pow(11, 8 * m + r) >= Pow(2, m) * Pow(10, 8 * m + r)
  {
    if m == 0 {
      PowOrder(r);
    } else {
      var n := 8 * (m - 1) + r;
      EightTenthsDouble(m - 1, r);
      PowAdd(11, 8, n);
      PowAdd(10, 8, n);
      EighthPowers();
      var tens, p, q, t := Pow(10, 8), Pow(11, n), Pow(10, n), Pow(2, m - 1);
      MulBoth(Pow(11, 8), 2 * tens, p, t * q);
      assert (2 * tens) * (t * q) == (2 * t) * (tens * q);
    }
  }

  lemma {:induction false} PowOrder(r: nat)
    ensures Pow(11, r) >= Pow(10, r) >= 1
  {
    if r > 0 { PowOrder(r - 1); }
  }

  lemma FiftyThreeDoublings()
    ensures Pow(2, 53) == SAFE_INTEGER_LIMIT
  {
    assert Pow(2, 10) == 1024;
    PowAdd(2, 10, 10);
    PowAdd(2, 20, 20);
    PowAdd(2, 40, 10);
    PowAdd(2, 50, 3);
  }

  /** After m blocks of eight tenth-increases even a fee of one has passed 2^m. */
  lemma GrowthPassesPowerOfTwo(m: nat, r: nat, first: nat, last: nat)
    requires first >= 1
    requires Pow(10, 8 * m + r) * last >= Pow(11, 8 * m + r) * first
    ensures last >= Pow(2, m)
  {
    EightTenthsDouble(m, r);
    PowOrder(8 * m + r);
    var tens, elevens, limit := Pow(10, 8 * m + r), Pow(11, 8 * m + r), Pow(2, m);
    MulBoth(elevens, limit * tens, first, 1);
    CancelFactor(tens, last, limit);
  }

  lemma CancelFactor(p: nat, a: nat, b: nat)
    requires p >= 1 && p * a >= b * p
    ensures a >= b
  {
    if a + 1 <= b { MulMonotone(a + 1, b, p); }
  }

  lemma FewStepsBelow(k: nat, m: nat, first: nat, last: nat)
    requires Pow(10, k) * last >= Pow(11, k) * first
    requires first >= 1 && last < Pow(2, m)
    ensures k < 8 * m
  {
    if k >= 8 * m {
      GrowthPassesPowerOfTwo(m, k - 8 * m, first, last);
    }
  }

  /** A slot with a positive fee is replaced fewer than 424 times between removals. */
  lemma ReplacementsBounded(s: State, evs: seq<Event>, sender: Address, nonce: nat)
    requires UniqueSlots(s.pool.entries) && Occupied(s, evs, sender, nonce)
    requires var op := Slot(s, sender, nonce).value.op; op.maxPriorityFeePerGas > 0 || op.maxFeePerGas > 0
    ensures Replacements(s, evs, sender, nonce) < 424
  {
    var k := Replacements(s, evs, sender, nonce);
    if k > 0 {
      FeesGrowGeometrically(s, evs, sender, nonce);
      FiftyThreeDoublings();
      var first, last := Slot(s, sender, nonce).value.op, Slot(Run(s, evs), sender, nonce).value.op;
      if first.maxPriorityFeePerGas > 0 {
        FewStepsBelow(k, 53, first.maxPriorityFeePerGas, last.maxPriorityFeePerGas);
      } else {
        FewStepsBelow(k, 53, first.maxFeePerGas, last.maxFeePerGas);
      }
    }
  }

  // ---- order of inclusion -----------------------------------------------------------------------

  ghost predicate Ascending(entries: seq<Entry>) {
    forall i, j :: 0 <= i < j < |entries| ==> entries[i].op.maxPriorityFeePerGas <= entries[j].op.maxPriorityFeePerGas
  }

  /** The entries of one priority fee, in order. */
  ghost function OfCost(entries: seq<Entry>, cost: nat): seq<Entry> {
    if entries == [] then []
    else (if entries[0].op.maxPriorityFeePerGas == cost then [entries[0]] else []) + OfCost(entries[1..], cost)
  }

  lemma {:induction false} InsertByCostElements(e: Entry, sorted: seq<Entry>)
    ensures multiset(InsertByCost(e, sorted)) == multiset{e} + multiset(sorted)
  {
    if sorted == [] || Cost(e) <= Cost(sorted[0]) {
    } else {
      InsertByCostElements(e, sorted[1..]);
      assert sorted == [sorted[0]] + sorted[1..];
    }
  }

  lemma {:induction false} InsertByCostSorts(e: Entry, sorted: seq<Entry>)
    requires Ascending(sorted)
    ensures Ascending(InsertByCost(e, sorted))
  {
    if sorted == [] || Cost(e) <= Cost(sorted[0]) {
    } else {
      var rest := InsertByCost(e, sorted[1..]);
      InsertByCostSorts(e, sorted[1..]);
      InsertByCostElements(e, sorted[1..]);
      forall x | x in rest
        ensures sorted[0].op.maxPriorityFeePerGas <= x.op.maxPriorityFeePerGas
      {
        assert x in multiset(rest);
        assert x == e || x in sorted[1..];
      }
    }
  }

  lemma {:induction false} InsertByCostKeepsTies(e: Entry, sorted: seq<Entry>, c: nat)
    ensures OfCost(InsertByCost(e, sorted), c) == OfCost([e] + sorted, c)
  {
    assert ([e] + sorted)[1..] == sorted;
    if sorted == [] || Cost(e) <= Cost(sorted[0]) {
    } else {
      var head, tail := sorted[0], sorted[1..];
      InsertByCostKeepsTies(e, tail, c);
      assert ([e] + tail)[1..] == tail;
      assert ([head] + InsertByCost(e, tail))[1..] == InsertByCost(e, tail);
    }
  }

  /** The snapshot a bundle is built from: the pending entries, cheapest first, ties in arrival order. */
  lemma {:induction false} SnapshotIsStableSort(entries: seq<Entry>)
    ensures Ascending(SortByCost(entries))
    ensures multiset(SortByCost(entries)) == multiset(entries)
    ensures forall c :: OfCost(SortByCost(entries), c) == OfCost(entries, c)
  {
    if entries == [] {
    } else {
      var head, tail := entries[0], entries[1..];
      assert entries == [head] + tail;
      SnapshotIsStableSort(tail);
      InsertByCostSorts(head, SortByCost(tail));
      InsertByCostElements(head, SortByCost(tail));
      forall c
        ensures OfCost(SortByCost(entries), c) == OfCost(entries, c)
      {
        InsertByCostKeepsTies(head, SortByCost(tail), c);
        assert ([head] + SortByCost(tail))[1..] == SortByCost(tail);
        assert OfCost(SortByCost(tail), c) == OfCost(tail, c);
      }
    }
  }

  /**
   * Taking the snapshot fails exactly when it has two entries to compare and some priority fee does not fit a safe
   * integer; otherwise it is the stable sort.
   */
  lemma SnapshotFailsExactly(pool: Pool)
    ensures GetSortedForInclusion(pool).Err? <==>
      |pool.entries| >= 2 && exists e :: e in pool.entries && e.op.maxPriorityFeePerGas >= Pow(2, 53)
    ensures GetSortedForInclusion(pool).Ok? ==>
      var snapshot := GetSortedForInclusion(pool).value;
      && Ascending(snapshot) && multiset(snapshot) == multiset(pool.entries)
      && forall c :: OfCost(snapshot, c) == OfCost(pool.entries, c)
  {
    FiftyThreeDoublings();
    SnapshotIsStableSort(pool.entries);
    if e :| e in pool.entries && e.op.maxPriorityFeePerGas >= Pow(2, 53) {
      assert Cost(e) >= SAFE_INTEGER_LIMIT;
    }
  }
}
