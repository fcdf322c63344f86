/** Concrete runs in which the mempool's replacing and rejecting paths break what the other paths keep. */
module MempoolExamples {
  import opened Common
  import opened Mempool
  import opened MempoolRuns
  import Rep = Reputation

  const NOBODY_SCORED := Rep.Ledger(Rep.RawConfig(Rep.BUNDLER_PARAMS, 0, 0), map[], {}, {})
  const BLANK := State(EMPTY, NOBODY_SCORED)

  /** An operation with the given sender, fees and sponsor data, and nothing else. */
  function Simple(sender: Address, fee: nat, sponsor: Bytes): UserOp {
    UserOp(sender, 0, [], [], 0, fee, fee, sponsor)
  }

  function Submitted(op: UserOp): Event {
    Insert(Request(op, op.sender, 0, ReferencedCodeHashes([], 0), StakeInfo(op.sender, 1, 1),
                   if Paymaster(op).Some? then Some(StakeInfo(Paymaster(op).value, 1, 1)) else None, None, None))
  }

  const BYSTANDER := Simple(5, 10, [])
  const PLAIN := Simple(1, 10, [])

  lemma PlainNamesNobody(op: UserOp)
    requires op.paymasterAndData == [] && op.initCode == []
    ensures Paymaster(op) == None && Factory(op) == None
  {
  }

  /** After inserting the operations of senders 5 and 1, both are pending and counted once. */
  lemma TwoPending() returns (s: State)
    ensures s == Step(Step(BLANK, Submitted(BYSTANDER)), Submitted(PLAIN))
    ensures Accepted(BLANK, Submitted(BYSTANDER)) && Accepted(Step(BLANK, Submitted(BYSTANDER)), Submitted(PLAIN))
    ensures s.pool.entries == [EntryOf(Submitted(BYSTANDER).req), EntryOf(Submitted(PLAIN).req)]
    ensures CountOf(s.pool.counts, 5) == 1 && CountOf(s.pool.counts, 1) == 1
  {
    PlainNamesNobody(BYSTANDER);
    PlainNamesNobody(PLAIN);
    var first := Step(BLANK, Submitted(BYSTANDER));
    assert first.pool.entries == [EntryOf(Submitted(BYSTANDER).req)];
    assert HasKey(first.pool.entries[0], 5, 0) && !HasKey(first.pool.entries[0], 1, 0);
    s := Step(first, Submitted(PLAIN));
  }

  lemma NamedSponsor() returns (sponsor: Bytes)
    ensures Paymaster(Simple(0, 0, sponsor)) == Some(5)
  {
    var n := 19;
    NamingNames(n, 5);
    sponsor := Zeros(n) + [5];
  }

  lemma Sponsored(sender: Address, fee: nat, sponsor: Bytes)
    requires GetAddr(sponsor) == Some(5)
    ensures Paymaster(Simple(sender, fee, sponsor)) == Some(5) && Factory(Simple(sender, fee, sponsor)) == None
  {
  }

  lemma RolesOfTwo(x: Entry, y: Entry, a: Address)
    ensures Roles([x, y], a) == OpRoles(x.op, a) + OpRoles(y.op, a)
    ensures Roles([x], a) == OpRoles(x.op, a)
  {
    var both, first, last := [x, y], [x], [y];
    assert both[1..] == last && last[1..] == [] && first[1..] == [];
    assert Roles(both, a) == OpRoles(x.op, a) + Roles(last, a);
    assert Roles(last, a) == OpRoles(y.op, a) + Roles([], a);
  }

  lemma SecondSlot(x: Entry, y: Entry)
    requires x.op.sender == 5 && HasKey(y, 1, 0)
    ensures FindBySenderNonce([x, y], 1, 0) == Some(1)
  {
    var found := FindBySenderNonce([x, y], 1, 0);
    assert !HasKey([x, y][0], 1, 0) && HasKey([x, y][1], 1, 0);
  }

  lemma ReplacingSecond(x: Entry, y: Entry, counts: map<Address, int>, rep: Rep.Ledger, req: Request)
    requires FindBySenderNonce([x, y], req.op.sender, req.op.nonce) == Some(1)
    requires CheckReplaceUserOp(y.op, req.op).Pass?
    ensures var s := State(Pool([x, y], counts), rep);
      Replaces(s, Insert(req)) && Step(s, Insert(req)).pool == Pool([x, EntryOf(req)], counts)
  {
    assert [x, y][1 := EntryOf(req)] == [x, EntryOf(req)];
  }

  lemma RaisedFee(sponsor: Bytes)
    ensures CheckReplaceUserOp(PLAIN, Simple(1, 11, sponsor)).Pass?
  {
  }

  lemma SeparatedPair(x: Entry, y: Entry)
    ensures Separated([x, y]) <==> x.op.sender !in EntitiesOf(y.op) && y.op.sender !in EntitiesOf(x.op)
  {
    var pair := [x, y];
    if Separated(pair) { assert pair[0].op.sender !in EntitiesOf(pair[1].op) && pair[1].op.sender !in EntitiesOf(pair[0].op); }
  }

  lemma PlainEntities(op: UserOp)
    requires op.paymasterAndData == [] && op.initCode == [] && op.sender in {1, 5}
    ensures EntitiesOf(op) == {} && OpRoles(op, 5) == if op.sender == 5 then 1 else 0
  {
    PlainNamesNobody(op);
  }

  lemma SponsoredRoles(op: UserOp)
    requires op.sender == 1 && Paymaster(op) == Some(5) && Factory(op) == None
    ensures EntitiesOf(op) == {5} && OpRoles(op, 5) == 1
  {
  }

  /** Roles are separated, and the counter of sender 5 is exact. */
  ghost predicate BothHold(pool: Pool) {
    Separated(pool.entries) && CountOf(pool.counts, 5) == Roles(pool.entries, 5)
  }

  /** Neither: the counter is too low. */
  ghost predicate BothBroken(pool: Pool) {
    !Separated(pool.entries) && CountOf(pool.counts, 5) < Roles(pool.entries, 5)
  }

  predicate Opposed(x: UserOp, y: UserOp, z: UserOp) {
    && x.sender == 5 && y.sender == 1 && z.sender == 1
    && EntitiesOf(x) == {} && EntitiesOf(y) == {} && EntitiesOf(z) == {5}
    && OpRoles(x, 5) == 1 && OpRoles(y, 5) == 0 && OpRoles(z, 5) == 1
  }

  /**
   * Before the replacement roles are separated and counters exact; after it sender 5 is also another
   * operation's paymaster, and its counter misses that role.
   */
  lemma OpposedBreaksBoth(x: Entry, y: Entry, z: Entry, counts: map<Address, int>)
    requires Opposed(x.op, y.op, z.op) && CountOf(counts, 5) == 1
    ensures BothHold(Pool([x, y], counts)) && BothBroken(Pool([x, z], counts))
  {
    SeparatedPair(x, y);
    SeparatedPair(x, z);
    RolesOfTwo(x, y, 5);
    RolesOfTwo(x, z, 5);
  }

  lemma SponsoredAccepted(x: Entry, y: Entry, counts: map<Address, int>, rep: Rep.Ledger, req: Request)
    requires x.op.sender == 5 && y.op == PLAIN && req.op == Simple(1, 11, req.op.paymasterAndData)
    ensures var s := State(Pool([x, y], counts), rep);
      Replaces(s, Insert(req)) && Step(s, Insert(req)).pool == Pool([x, EntryOf(req)], counts)
  {
    SecondSlot(x, y);
    RaisedFee(req.op.paymasterAndData);
    ReplacingSecond(x, y, counts, rep, req);
  }

  lemma NamingReplacement() returns (req: Request)
    ensures req.op == Simple(1, 11, req.op.paymasterAndData) && Opposed(BYSTANDER, PLAIN, req.op)
  {
    var sponsor := NamedSponsor();
    req := Submitted(Simple(1, 11, sponsor)).req;
    SponsoredRoles(req.op);
    PlainEntities(BYSTANDER);
    PlainEntities(PLAIN);
  }

  /**
   * From there sender 1 replaces its operation by one that names sender 5 as its paymaster. The replacement is
   * accepted, and leads to the broken mempool of OpposedBreaksBoth.
   */
  lemma ReplacementAccepted(x: Entry, y: Entry, counts: map<Address, int>, rep: Rep.Ledger) returns (req: Request)
    requires x.op == BYSTANDER && y.op == PLAIN
    ensures Opposed(x.op, y.op, req.op)
    ensures var s := State(Pool([x, y], counts), rep);
      Replaces(s, Insert(req)) && Step(s, Insert(req)).pool == Pool([x, EntryOf(req)], counts)
  {
    req := NamingReplacement();
    SponsoredAccepted(x, y, counts, rep, req);
  }

  lemma OnePending() returns (s: State)
    ensures s == Step(BLANK, Submitted(BYSTANDER))
    ensures s.pool.entries == [EntryOf(Submitted(BYSTANDER).req)] && s.rep == Step(BLANK, Submitted(BYSTANDER)).rep
    ensures CountOf(s.pool.counts, 2) == 0 && Exact(s.pool)
  {
    PlainNamesNobody(BYSTANDER);
    s := Step(BLANK, Submitted(BYSTANDER));
    assert s.pool.entries == [EntryOf(Submitted(BYSTANDER).req)];
    forall a
      ensures CountOf(s.pool.counts, a) == Roles(s.pool.entries, a)
    {
      assert Roles(s.pool.entries[1..], a) == 0;
    }
  }

  /** A fresh operation of sender 2 that names 5 is rejected for its roles, and leaves counters behind. */
  lemma RejectionLeaksCounts() returns (s: State, ev: Event)
    ensures s == Step(BLANK, Submitted(BYSTANDER)) && Leaks(s, ev)
    ensures Exact(s.pool) && !Exact(Step(s, ev).pool)
    ensures Step(s, ev).pool.entries == s.pool.entries && CountOf(Step(s, ev).pool.counts, 2) == 1
  {
    s := OnePending();
    var sponsor := NamedSponsor();
    ev := Submitted(Simple(2, 10, sponsor));
    SponsoredRejection(s, ev.req);
  }

  lemma SponsoredRejection(s: State, req: Request)
    requires |s.pool.entries| == 1 && s.pool.entries[0].op == BYSTANDER && CountOf(s.pool.counts, 2) == 0
    requires req.op == Simple(2, 10, req.op.paymasterAndData) && GetAddr(req.op.paymasterAndData) == Some(5)
    ensures Leaks(s, Insert(req)) && !Exact(Step(s, Insert(req)).pool)
    ensures Step(s, Insert(req)).pool.entries == s.pool.entries && CountOf(Step(s, Insert(req)).pool.counts, 2) == 1
  {
    PlainNamesNobody(BYSTANDER);
    Sponsored(2, 10, req.op.paymasterAndData);
    assert !HasKey(s.pool.entries[0], 2, 0);
    assert s.pool.entries[0].op.sender in KnownSenders(s.pool.entries);
    assert Roles(s.pool.entries[1..], 2) == 0;
    var after := Step(s, Insert(req)).pool;
    assert after.counts == IncrementRoles(s.pool.counts, req.op);
    assert CountOf(after.counts, 2) != Roles(after.entries, 2);
  }
}
