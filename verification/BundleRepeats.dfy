/** What an accepted bundle leaves behind: its operations stay pending, and the next attempt sends them again. */
module BundleRepeats {
  import opened Common
  import opened Mempool
  import opened Bundle
  import opened BundleRuns
  import Events
  import Rep = Reputation
  import Runs = MempoolRuns

  // ---- bundled operations stay pending --------------------------------------------------------------------

  lemma SlotsDiffer(entries: seq<Entry>, i: nat, j: nat)
    requires Runs.UniqueSlots(entries) && i < |entries| && j < |entries| && i != j
    ensures KeyOf(entries[i]) != KeyOf(entries[j])
  {
    OthersKeepTheirKeys(entries, i);
    if j < i {
      assert entries[..i][j] == entries[j];
    } else {
      assert entries[i + 1..][j - i - 1] == entries[j];
    }
  }

  lemma {:induction false} UniqueOnce(entries: seq<Entry>, e: Entry)
    requires Runs.UniqueSlots(entries)
    ensures multiset(entries)[e] <= 1
  {
    if entries != [] {
      var n := |entries| - 1;
      UniqueOnce(entries[..n], e);
      OthersKeepTheirKeys(entries, n);
      assert entries == entries[..n] + [entries[n]];
    }
  }

  lemma OnceDiffers(entries: seq<Entry>, i: nat, j: nat)
    requires i < j < |entries| && multiset(entries)[entries[i]] <= 1
    ensures entries[i] != entries[j]
  {
    assert entries == entries[..j] + [entries[j]] + entries[j + 1..];
    assert entries[i] in entries[..j] by { assert entries[..j][i] == entries[i]; }
  }

  /** The sorted snapshot too has one entry per slot. */
  lemma SnapshotSlotsDiffer(entries: seq<Entry>, snapshot: seq<Entry>, i: nat, j: nat)
    requires Runs.UniqueSlots(entries) && multiset(snapshot) == multiset(entries)
    requires i < j < |snapshot|
    ensures KeyOf(snapshot[i]) != KeyOf(snapshot[j])
  {
    UniqueOnce(entries, snapshot[i]);
    OnceDiffers(snapshot, i, j);
    assert snapshot[i] in multiset(entries) && snapshot[j] in multiset(entries);
    var a :| 0 <= a < |entries| && entries[a] == snapshot[i];
    var b :| 0 <= b < |entries| && entries[b] == snapshot[j];
    SlotsDiffer(entries, a, b);
  }

  /** A visit that removed nothing leaves its slot alone, and so does every other visit of the pass. */
  lemma SlotNotGone(entries: seq<Entry>, snapshot: seq<Entry>, log: seq<Visit>, i: nat)
    requires Runs.UniqueSlots(entries) && multiset(snapshot) == multiset(entries)
    requires |log| <= |snapshot| && forall k :: 0 <= k < |log| ==> log[k].entry == snapshot[k]
    requires i < |log| && !Removes(log[i].fate)
    ensures KeyOf(log[i].entry) !in Gone(log)
  {
    forall u | u in log && Removes(u.fate)
      ensures KeyOf(u.entry) != KeyOf(log[i].entry)
    {
      var j :| 0 <= j < |log| && log[j] == u;
      if i < j {
        SnapshotSlotsDiffer(entries, snapshot, i, j);
      } else {
        SnapshotSlotsDiffer(entries, snapshot, j, i);
      }
    }
  }

  lemma {:induction false} SurvivingKeeps(entries: seq<Entry>, gone: set<Key>, e: Entry)
    requires e in entries && KeyOf(e) !in gone
    ensures e in Surviving(entries, gone)
  {
    var n := |entries| - 1;
    if e != entries[n] {
      assert e in entries[..n];
      SurvivingKeeps(entries[..n], gone, e);
    }
  }

  predicate Delivers(delivery: Delivery) {
    delivery.Accepted? || delivery.Unparsed?
  }

  /** Every operation of a bundle is still in the mempool after the bundle has been accepted. */
  lemma AcceptedOpsStayPending(w: Events.World, chain: Chain, config: Config, delivery: Delivery, v: Visit)
    requires Runs.UniqueSlots(w.pool.entries) && GetSortedForInclusion(w.pool).Ok? && Delivers(delivery)
    requires v in Bundled(WholePass(GetSortedForInclusion(w.pool).value, w.pool, Look(w.rep, chain), config).loop.log)
    ensures var pass := WholePass(GetSortedForInclusion(w.pool).value, w.pool, Look(w.rep, chain), config);
      && v.entry.op in pass.loop.acc.bundle
      && v.entry in AfterSending(w.(pool := pass.pool), pass.loop.acc.bundle, delivery).pool.entries
  {
    var snapshot := GetSortedForInclusion(w.pool).value;
    var pass := WholePass(snapshot, w.pool, Look(w.rep, chain), config);
    PassIsGreedy(w.pool, Look(w.rep, chain), config);
    Runs.SnapshotIsStableSort(w.pool.entries);
    BundledStays(w.pool.entries, snapshot, pass.loop.log, v);
    BundledOps(Bundled(pass.loop.log), v);
  }

  lemma BundledStays(entries: seq<Entry>, snapshot: seq<Entry>, log: seq<Visit>, v: Visit)
    requires Runs.UniqueSlots(entries) && multiset(snapshot) == multiset(entries)
    requires |log| <= |snapshot| && forall k :: 0 <= k < |log| ==> log[k].entry == snapshot[k]
    requires v in Bundled(log)
    ensures v.entry in Surviving(entries, Gone(log))
  {
    BundledMembers(log, v);
    var i :| 0 <= i < |log| && log[i] == v;
    SlotNotGone(entries, snapshot, log, i);
    assert snapshot[i] in multiset(snapshot);
    assert v.entry in entries;
    SurvivingKeeps(entries, Gone(log), v.entry);
  }

  lemma {:induction false} BundledOps(bs: seq<Visit>, v: Visit)
    requires v in bs
    ensures v.entry.op in Ops(bs)
  {
    var n := |bs| - 1;
    if v != bs[n] {
      assert v in bs[..n];
      BundledOps(bs[..n], v);
    }
  }

  // ---- and are bundled again ------------------------------------------------------------------------------

  function PassOf(w: Events.World, snapshot: seq<Entry>, chain: Chain, config: Config): Progress {
    WholePass(snapshot, w.pool, Look(w.rep, chain), config)
  }

  /** The bundle an attempt builds. */
  function Built(w: Events.World, answers: Answers, config: Config): seq<UserOp> {
    var polled := Events.Poll(w, answers.head, answers.events);
    match GetSortedForInclusion(polled.pool)
    case Err(_) => []
    case Ok(snapshot) => PassOf(polled, snapshot, answers.chain, config).loop.acc.bundle
  }

  /** Its scan is done and its pass removes nothing from the mempool. */
  ghost predicate RemovesNothing(w: Events.World, chain: Chain, config: Config) {
    match GetSortedForInclusion(w.pool)
    case Err(_) => true
    case Ok(snapshot) => forall v :: v in PassOf(w, snapshot, chain, config).loop.log ==> !Removes(v.fate)
  }

  lemma {:induction false} PassKeepsPool(entries: seq<Entry>, i: nat, pass: Progress, look: Entry -> Observed,
                                         known: set<Address>, config: Config)
    requires i <= |entries|
    ensures var end := PassFrom(entries, i, pass, look, known, config);
      && pass.loop.log <= end.loop.log
      && ((forall v :: v in end.loop.log ==> !Removes(v.fate)) ==> end.pool == pass.pool)
    decreases |entries| - i
  {
    if i < |entries| && !pass.loop.cut {
      var e := entries[i];
      var loop := VisitEntry(pass.loop, e, look(e), known, config);
      var n := |pass.loop.log|;
      var next := Progress(loop, PoolAfter(pass.pool, e, loop.log[n].fate));
      assert |loop.log| - 1 == n;
      PassKeepsPool(entries, i + 1, next, look, known, config);
      var end := PassFrom(entries, i + 1, next, look, known, config);
      assert end == PassFrom(entries, i, pass, look, known, config);
      assert end.loop.log[n] == loop.log[n] && end.loop.log[n] in end.loop.log;
    }
  }

  /** An attempt that removes nothing and whose bundle is accepted changes nothing after its scan. */
  lemma AcceptedChangesNothing(w: Events.World, answers: Answers, config: Config)
    requires Delivers(answers.delivery)
    requires RemovesNothing(Events.Poll(w, answers.head, answers.events), answers.chain, config)
    ensures NextBundle(w, answers, config).world == Events.Poll(w, answers.head, answers.events)
  {
    var polled := Events.Poll(w, answers.head, answers.events);
    if GetSortedForInclusion(polled.pool).Ok? {
      var snapshot := GetSortedForInclusion(polled.pool).value;
      PassKeepsPool(snapshot, 0, Progress(Loop(START, [], false), polled.pool), Look(polled.rep, answers.chain),
                    KnownSenders(polled.pool.entries), config);
      assert polled.(pool := PassOf(polled, snapshot, answers.chain, config).pool) == polled;
    }
  }

  /** A later attempt with the same validations, an accepting node, and no event it has not handled yet. */
  ghost predicate SameAgain(polled: Events.World, first: Answers, again: Answers) {
    && again.chain == first.chain && Delivers(again.delivery)
    && polled.tracker.lastBlock.Some? && Events.Since(again.events, polled.tracker.lastBlock.value) == []
  }

  function Attempts(w: Events.World, list: seq<Answers>, config: Config): Events.World {
    if list == [] then w else NextBundle(Attempts(w, list[..|list| - 1], config), list[|list| - 1], config).world
  }

  lemma NothingNew(polled: Events.World, first: Answers, again: Answers)
    requires SameAgain(polled, first, again)
    ensures Events.Poll(polled, again.head, again.events) == polled
  {
  }

  lemma {:induction false} AttemptsStandStill(polled: Events.World, first: Answers, rest: seq<Answers>, config: Config)
    requires RemovesNothing(polled, first.chain, config)
    requires forall again :: again in rest ==> SameAgain(polled, first, again)
    ensures Attempts(polled, rest, config) == polled
  {
    if rest != [] {
      var again := rest[|rest| - 1];
      AttemptsStandStill(polled, first, rest[..|rest| - 1], config);
      assert again in rest;
      NothingNew(polled, first, again);
      AcceptedChangesNothing(polled, again, config);
    }
  }

  lemma PollFixesLastBlock(w: Events.World, head: nat, events: seq<Events.Event>)
    ensures Events.Poll(w, head, events).tracker.lastBlock.Some?
  {
    var prepared := Events.Prepared(w, head);
    Events.HandleAllMovesLastBlock(prepared, Events.Since(events, prepared.tracker.lastBlock.value));
  }

  /**
   * After an accepted bundle whose pass removed nothing, and for as long as no new event arrives and validations
   * stay as they are, every further attempt builds that very bundle again, however many have been accepted before.
   */
  lemma AcceptedBundleRepeated(w: Events.World, first: Answers, rest: seq<Answers>, last: Answers, config: Config)
    requires var polled := Events.Poll(w, first.head, first.events);
      && Delivers(first.delivery) && RemovesNothing(polled, first.chain, config)
      && (forall again :: again in rest ==> SameAgain(polled, first, again))
      && SameAgain(polled, first, last)
    ensures Built(Attempts(NextBundle(w, first, config).world, rest, config), last, config) == Built(w, first, config)
  {
    var polled := Events.Poll(w, first.head, first.events);
    AcceptedChangesNothing(w, first, config);
    AttemptsStandStill(polled, first, rest, config);
    NothingNew(polled, first, last);
  }
}
