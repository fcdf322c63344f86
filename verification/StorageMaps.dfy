/** mergeStorageMap: joining the storage accessed by several validations into one map. */
module StorageMaps {
  import opened Common

  type Slot = nat
  type Word = nat
  type SlotMap = map<Slot, Word>

  /** For each account either its storage root or the values of single slots. */
  datatype Access = Root(hash: Word) | Slots(slots: SlotMap)
  type StorageMap = map<Address, Access>

  function MergeAccess(merged: Access, validation: Access): Access {
    if validation.Root? then validation
    else if merged.Root? then merged
    else Slots(merged.slots + validation.slots)
  }

  function At(m: StorageMap, addr: Address): Option<Access> {
    if addr in m then Some(m[addr]) else None
  }

  function MergeAt(merged: Option<Access>, validation: Option<Access>): Option<Access> {
    if validation.None? then merged
    else if merged.None? then validation
    else Some(MergeAccess(merged.value, validation.value))
  }

  function Merge(merged: StorageMap, validation: StorageMap): StorageMap {
    map addr | addr in merged.Keys + validation.Keys :: MergeAt(At(merged, addr), At(validation, addr)).value
  }

  lemma MergePointwise(a: StorageMap, b: StorageMap, addr: Address)
    ensures At(Merge(a, b), addr) == MergeAt(At(a, addr), At(b, addr))
  {
  }

  lemma SameEverywhere(a: StorageMap, b: StorageMap)
    requires forall addr :: At(a, addr) == At(b, addr)
    ensures a == b
  {
    forall addr
      ensures addr in a <==> addr in b
      ensures addr in a ==> a[addr] == b[addr]
    {
      assert At(a, addr) == At(b, addr);
    }
  }

  // ---- laws of the join ---------------------------------------------------------------------------

  lemma MergeAtAssociative(x: Option<Access>, y: Option<Access>, z: Option<Access>)
    ensures MergeAt(MergeAt(x, y), z) == MergeAt(x, MergeAt(y, z))
  {
    if x.Some? && y.Some? && z.Some? && x.value.Slots? && y.value.Slots? && z.value.Slots? {
      var a, b, c := x.value.slots, y.value.slots, z.value.slots;
      assert (a + b) + c == a + (b + c);
    }
  }

  lemma MergeAssociative(a: StorageMap, b: StorageMap, c: StorageMap)
    ensures Merge(Merge(a, b), c) == Merge(a, Merge(b, c))
  {
    forall addr
      ensures At(Merge(Merge(a, b), c), addr) == At(Merge(a, Merge(b, c)), addr)
    {
      MergePointwise(Merge(a, b), c, addr);
      MergePointwise(a, b, addr);
      MergePointwise(a, Merge(b, c), addr);
      MergePointwise(b, c, addr);
      MergeAtAssociative(At(a, addr), At(b, addr), At(c, addr));
    }
    SameEverywhere(Merge(Merge(a, b), c), Merge(a, Merge(b, c)));
  }

  /** The empty map is neutral, and merging a map again changes nothing. */
  lemma MergeIdempotent(a: StorageMap, b: StorageMap)
    ensures Merge(map[], a) == a && Merge(a, map[]) == a
    ensures Merge(a, a) == a
    ensures Merge(Merge(a, b), b) == Merge(a, b)
  {
    forall addr
      ensures At(Merge(a, a), addr) == At(a, addr)
      ensures At(Merge(b, b), addr) == At(b, addr)
    {
      MergePointwise(a, a, addr);
      MergePointwise(b, b, addr);
      assert forall m: SlotMap :: m + m == m;
    }
    SameEverywhere(Merge(a, a), a);
    SameEverywhere(Merge(b, b), b);
    MergeAssociative(a, b, b);
  }

  /** A root is never turned back into slots: only a later root can take its place. */
  lemma RootNeverDowngraded(a: StorageMap, b: StorageMap, addr: Address)
    requires (addr in a && a[addr].Root?) || (addr in b && b[addr].Root?)
    ensures addr in Merge(a, b)
    ensures Merge(a, b)[addr] == if addr in b && b[addr].Root? then b[addr] else a[addr]
    ensures Merge(a, b)[addr].Root?
  {
  }

  /** The two accesses give the same root, or the same value for every slot they share. */
  ghost predicate AccessesAgree(x: Access, y: Access) {
    && (x.Root? && y.Root? ==> x == y)
    && (x.Slots? && y.Slots? ==> forall s :: s in x.slots && s in y.slots ==> x.slots[s] == y.slots[s])
  }

  ghost predicate Agree(a: StorageMap, b: StorageMap) {
    forall addr :: addr in a && addr in b ==> AccessesAgree(a[addr], b[addr])
  }

  lemma SlotUnionCommutes(x: SlotMap, y: SlotMap)
    ensures x + y == y + x <==> forall s :: s in x && s in y ==> x[s] == y[s]
  {
    if x + y == y + x {
      forall s | s in x && s in y
        ensures x[s] == y[s]
      {
        assert (x + y)[s] == (y + x)[s];
      }
    }
  }

  /** Merging commutes exactly for maps that agree on their common roots and slots. */
  lemma MergeCommutesExactly(a: StorageMap, b: StorageMap)
    ensures Merge(a, b) == Merge(b, a) <==> Agree(a, b)
  {
    forall addr | addr in a && addr in b
      ensures MergeAccess(a[addr], b[addr]) == MergeAccess(b[addr], a[addr]) <==> AccessesAgree(a[addr], b[addr])
    {
      if a[addr].Slots? && b[addr].Slots? {
        SlotUnionCommutes(a[addr].slots, b[addr].slots);
      }
    }
    if Merge(a, b) == Merge(b, a) {
      forall addr | addr in a && addr in b
        ensures AccessesAgree(a[addr], b[addr])
      {
        assert Merge(a, b)[addr] == Merge(b, a)[addr];
      }
    }
  }

  // ---- many maps --------------------------------------------------------------------------------

  function MergeAll(ms: seq<StorageMap>): StorageMap {
    if ms == [] then map[] else Merge(MergeAll(ms[..|ms| - 1]), ms[|ms| - 1])
  }

  ghost predicate PairwiseAgree(ms: seq<StorageMap>) {
    forall i, j :: 0 <= i < |ms| && 0 <= j < |ms| ==> Agree(ms[i], ms[j])
  }

  ghost predicate HasRoot(m: StorageMap, addr: Address, hash: Word) {
    At(m, addr) == Some(Root(hash))
  }

  ghost predicate HasSlot(m: StorageMap, addr: Address, slot: Slot, val: Word) {
    At(m, addr).Some? && At(m, addr).value.Slots? && slot in At(m, addr).value.slots && At(m, addr).value.slots[slot] == val
  }

  lemma AgreeWithMerge(a: StorageMap, b: StorageMap, c: StorageMap)
    requires Agree(a, c) && Agree(b, c)
    ensures Agree(Merge(a, b), c)
  {
    forall addr | addr in Merge(a, b) && addr in c
      ensures AccessesAgree(Merge(a, b)[addr], c[addr])
    {
      assert addr in a ==> AccessesAgree(a[addr], c[addr]);
      assert addr in b ==> AccessesAgree(b[addr], c[addr]);
    }
  }

  lemma {:induction false} AgreeWithAll(ms: seq<StorageMap>, c: StorageMap)
    requires forall m :: m in ms ==> Agree(m, c)
    ensures Agree(MergeAll(ms), c)
  {
    if ms != [] {
      AgreeWithAll(ms[..|ms| - 1], c);
      AgreeWithMerge(MergeAll(ms[..|ms| - 1]), ms[|ms| - 1], c);
    }
  }

  lemma SwapLast(m: StorageMap, x: StorageMap, last: StorageMap)
    requires Agree(last, x)
    ensures Merge(Merge(m, x), last) == Merge(Merge(m, last), x)
  {
    calc {
      Merge(Merge(m, x), last);
      { MergeAssociative(m, x, last); }
      Merge(m, Merge(x, last));
      { MergeCommutesExactly(last, x); }
      Merge(m, Merge(last, x));
      { MergeAssociative(m, last, x); }
      Merge(Merge(m, last), x);
    }
  }

  lemma SwapChain(all: StorageMap, front: StorageMap, m: StorageMap, rest: StorageMap, x: StorageMap, last: StorageMap)
    requires Agree(last, x) && all == Merge(front, last) && front == Merge(m, x) && rest == Merge(m, last)
    ensures all == Merge(rest, x)
  {
    SwapLast(m, x, last);
  }

  /** A map that agrees with everything after it can be merged last instead. */
  lemma {:induction false} MergeLater(front: seq<StorageMap>, x: StorageMap, back: seq<StorageMap>)
    requires forall m :: m in back ==> Agree(m, x)
    ensures MergeAll(front + [x] + back) == Merge(MergeAll(front + back), x)
    decreases |back|
  {
    if back == [] {
      assert front + [x] + back == front + [x] && front + back == front;
      assert (front + [x])[..|front|] == front;
    } else {
      var init, last := back[..|back| - 1], back[|back| - 1];
      assert back == init + [last];
      MergeLater(front, x, init);
      var all, rest := front + [x] + back, front + back;
      assert all[..|all| - 1] == front + [x] + init;
      assert rest[..|rest| - 1] == front + init;
      SwapChain(MergeAll(all), MergeAll(front + [x] + init), MergeAll(front + init), MergeAll(rest), x, last);
    }
  }

  lemma PairwiseByMembership(ms: seq<StorageMap>)
    ensures PairwiseAgree(ms) <==> forall m, n :: m in ms && n in ms ==> Agree(m, n)
  {
    if PairwiseAgree(ms) {
      forall m, n | m in ms && n in ms
        ensures Agree(m, n)
      {
        var i, j :| 0 <= i < |ms| && 0 <= j < |ms| && ms[i] == m && ms[j] == n;
      }
    }
  }

  /** On maps that pairwise agree, the merged map does not depend on the order of merging. */
  lemma {:induction false} MergeOrderIrrelevant(ms: seq<StorageMap>, ns: seq<StorageMap>)
    requires PairwiseAgree(ms)
    requires multiset(ms) == multiset(ns)
    ensures MergeAll(ms) == MergeAll(ns)
    decreases |ms|
  {
    assert |ms| == |multiset(ms)| == |multiset(ns)| == |ns|;
    if ms != [] {
      var n := |ms| - 1;
      var x := ms[n];
      assert x in multiset(ns);
      var i :| 0 <= i < |ns| && ns[i] == x;
      SameRest(ms, ns, n, i);
      assert ms[..n] == Without(ms, n);
      DropAgrees(ms);
      MergeOrderIrrelevant(ms[..n], Without(ns, i));
      MergeLaterAt(ms, ns, i);
    }
  }

  lemma DropAgrees(ms: seq<StorageMap>)
    requires ms != [] && PairwiseAgree(ms)
    ensures PairwiseAgree(ms[..|ms| - 1])
  {
    var front := ms[..|ms| - 1];
    assert forall i :: 0 <= i < |front| ==> front[i] == ms[i];
  }

  lemma MergeLaterAt(ms: seq<StorageMap>, ns: seq<StorageMap>, i: nat)
    requires PairwiseAgree(ms) && multiset(ms) == multiset(ns) && i < |ns|
    ensures MergeAll(ns) == Merge(MergeAll(Without(ns, i)), ns[i])
  {
    assert ns == ns[..i] + [ns[i]] + ns[i + 1..];
    PairwiseByMembership(ms);
    assert ns[i] in multiset(ns);
    forall m | m in ns[i + 1..]
      ensures Agree(m, ns[i])
    {
      assert m in multiset(ns);
    }
    MergeLater(ns[..i], ns[i], ns[i + 1..]);
  }

  ghost predicate SomeRoot(ms: seq<StorageMap>, addr: Address) {
    exists m: StorageMap :: m in ms && addr in m && m[addr].Root?
  }

  lemma MembersOf(ms: seq<StorageMap>)
    requires ms != []
    ensures forall m :: m in ms <==> m in ms[..|ms| - 1] || m == ms[|ms| - 1]
  {
    assert ms == ms[..|ms| - 1] + [ms[|ms| - 1]];
  }

  lemma {:induction false} MergedRoots(ms: seq<StorageMap>, addr: Address, h: Word)
    requires PairwiseAgree(ms)
    ensures addr in MergeAll(ms) <==> exists m :: m in ms && addr in m
    ensures HasRoot(MergeAll(ms), addr, h) <==> exists m :: m in ms && HasRoot(m, addr, h)
  {
    if ms != [] {
      var front, last := ms[..|ms| - 1], ms[|ms| - 1];
      MembersOf(ms);
      PairwiseByMembership(ms);
      PairwiseByMembership(front);
      MergedRoots(front, addr, h);
      AgreeWithAll(front, last);
      var acc := MergeAll(front);
      MergePointwise(acc, last, addr);
      if HasRoot(acc, addr, h) {
        var m :| m in front && HasRoot(m, addr, h);
        assert m in ms;
      }
      if HasRoot(last, addr, h) {
        assert last in ms;
      }
      if addr in acc && addr in last {
        assert AccessesAgree(acc[addr], last[addr]);
      }
      assert HasRoot(MergeAll(ms), addr, h) <==> HasRoot(acc, addr, h) || HasRoot(last, addr, h);
    }
  }

  lemma {:induction false} MergedSlots(ms: seq<StorageMap>, addr: Address, s: Slot, v: Word)
    requires PairwiseAgree(ms)
    requires !SomeRoot(ms, addr)
    ensures addr in MergeAll(ms) ==> MergeAll(ms)[addr].Slots?
    ensures HasSlot(MergeAll(ms), addr, s, v) <==> exists m :: m in ms && HasSlot(m, addr, s, v)
  {
    if ms != [] {
      var front, last := ms[..|ms| - 1], ms[|ms| - 1];
      MembersOf(ms);
      PairwiseByMembership(ms);
      PairwiseByMembership(front);
      MergedSlots(front, addr, s, v);
      AgreeWithAll(front, last);
      var acc := MergeAll(front);
      MergePointwise(acc, last, addr);
      assert SomeRoot(front, addr) ==> SomeRoot(ms, addr);
      if HasSlot(acc, addr, s, v) {
        var m :| m in front && HasSlot(m, addr, s, v);
        assert m in ms;
      }
      assert addr in acc && addr in last ==> AccessesAgree(acc[addr], last[addr]);
      assert addr in last ==> last in ms && last[addr].Slots?;
    }
  }

  /**
   * On maps that pairwise agree the merged map is their pointwise join: the root wherever some map has
   * one, and otherwise exactly the slot values some map has.
   */
  lemma MergedIsPointwiseJoin(ms: seq<StorageMap>, addr: Address, h: Word, s: Slot, v: Word)
    requires PairwiseAgree(ms)
    ensures addr in MergeAll(ms) <==> exists m :: m in ms && addr in m
    ensures HasRoot(MergeAll(ms), addr, h) <==> exists m :: m in ms && HasRoot(m, addr, h)
    ensures HasSlot(MergeAll(ms), addr, s, v) <==>
      !SomeRoot(ms, addr) && exists m :: m in ms && HasSlot(m, addr, s, v)
  {
    MergedRoots(ms, addr, h);
    if SomeRoot(ms, addr) {
      var m: StorageMap :| m in ms && addr in m && m[addr].Root?;
      MergedRoots(ms, addr, m[addr].hash);
      assert HasRoot(m, addr, m[addr].hash);
    } else {
      MergedSlots(ms, addr, s, v);
    }
  }

  // ---- the update in place ------------------------------------------------------------------------

  class SlotTable {
    var slots: SlotMap

    constructor ()
      ensures slots == map[]
    {
      slots := map[];
    }
  }

  datatype Held = HeldRoot(hash: Word) | HeldSlots(table: SlotTable)

  /** A storage map as the source holds it: a dictionary whose slot maps are objects of their own. */
  class StorageTable {
    var entries: map<Address, Held>

    /** No two addresses share a slot table, so filling one leaves the others alone. */
    ghost predicate Valid()
      reads this
    {
      forall a, b :: a in entries && b in entries && a != b && entries[a].HeldSlots? && entries[b].HeldSlots? ==>
        entries[a].table != entries[b].table
    }

    ghost function Tables(): set<object>
      reads this
    {
      set a | a in entries && entries[a].HeldSlots? :: entries[a].table
    }

    static ghost function Read(held: Held): Access
      reads if held.HeldSlots? then {held.table} else {}
    {
      match held
      case HeldRoot(h) => Root(h)
      case HeldSlots(t) => Slots(t.slots)
    }

    ghost function ValueOf(addr: Address): Access
      requires addr in entries
      reads this, Tables()
    {
      assert entries[addr].HeldSlots? ==> entries[addr].table in Tables();
      Read(entries[addr])
    }

    ghost function Value(): StorageMap
      reads this, Tables()
    {
      map addr | addr in entries :: ValueOf(addr)
    }

    constructor ()
      ensures Valid() && Value() == map[]
    {
      entries := map[];
    }

    /** Writes the slots of `from` into `into`, key by key. */
    static method CopySlots(into: SlotTable, from: SlotTable)
      requires into != from
      modifies into
      ensures into.slots == old(into.slots) + from.slots
    {
      var todo := from.slots.Keys;
      while todo != {}
        invariant todo <= from.slots.Keys
        invariant into.slots == old(into.slots) + (from.slots - todo)
      {
        var slot :| slot in todo;
        todo := todo - {slot};
        into.slots := into.slots[slot := from.slots[slot]];
      }
      assert from.slots - {} == from.slots;
    }

    /** `mergeStorageMap`: folds `other` into this map, visiting its keys in any order. */
    method MergeIn(other: StorageTable)
      requires Valid() && other.Valid()
      requires other != this && Tables() !! other.Tables()
      modifies this, Tables()
      ensures Valid() && fresh(Tables() - old(Tables()))
      ensures Value() == Merge(old(Value()), old(other.Value()))
      ensures other.Value() == old(other.Value())
    {
      ghost var was, arg := Value(), other.Value();
      var todo := other.entries.Keys;
      while todo != {}
        invariant todo <= other.entries.Keys
        invariant Valid() && fresh(Tables() - old(Tables()))
        invariant other.entries == old(other.entries) && other.Value() == arg
        invariant forall addr :: At(Value(), addr) == Partial(was, arg, todo, addr)
      {
        var addr :| addr in todo;
        assert At(Value(), addr) == At(was, addr) by { assert At(Value(), addr) == Partial(was, arg, todo, addr); }
        assert other.ValueOf(addr) == arg[addr];
        assert other.entries[addr].HeldSlots? ==> other.entries[addr].table in other.Tables();
        label before:
        MergeEntry(addr, other.entries[addr]);
        todo := todo - {addr};
        forall a
          ensures At(Value(), a) == Partial(was, arg, todo, a)
        {
          if a != addr {
            assert At(Value(), a) == old@before(At(Value(), a)) == Partial(was, arg, todo + {addr}, a);
          }
        }
      }
      forall addr
        ensures At(Value(), addr) == At(Merge(was, arg), addr)
      {
        assert At(Value(), addr) == Partial(was, arg, todo, addr);
      }
      SameEverywhere(Value(), Merge(was, arg));
    }

    /** The merged entry at `addr` once every key outside `todo` has been folded in. */
    static ghost function Partial(was: StorageMap, arg: StorageMap, todo: set<Address>, addr: Address): Option<Access> {
      if addr in todo then At(was, addr) else MergeAt(At(was, addr), At(arg, addr))
    }

    method MergeEntry(addr: Address, validationEntry: Held)
      requires Valid()
      requires validationEntry.HeldSlots? ==> validationEntry.table !in Tables()
      modifies this, Tables()
      ensures Valid() && fresh(Tables() - old(Tables()))
      ensures At(Value(), addr) == MergeAt(old(At(Value(), addr)), Some(old(Read(validationEntry))))
      ensures forall a :: a != addr ==> At(Value(), a) == old(At(Value(), a))
    {
      if validationEntry.HeldRoot? {
        SetEntry(addr, validationEntry);
      } else if addr in entries && entries[addr].HeldRoot? {
        // already a root: the specific slots are ignored
      } else {
        if addr !in entries {
          var created := new SlotTable();
          SetEntry(addr, HeldSlots(created));
        }
        FillSlots(addr, validationEntry.table);
        assert map[] + validationEntry.table.slots == validationEntry.table.slots;
      }
    }

    method SetEntry(addr: Address, held: Held)
      requires Valid()
      requires held.HeldSlots? ==> held.table !in Tables()
      modifies this
      ensures Valid() && entries == old(entries)[addr := held]
      ensures Tables() <= old(Tables()) + (if held.HeldSlots? then {held.table} else {})
      ensures forall a :: a != addr ==> At(Value(), a) == old(At(Value(), a))
    {
      entries := entries[addr := held];
    }

    method FillSlots(addr: Address, from: SlotTable)
      requires Valid() && addr in entries && entries[addr].HeldSlots?
      requires from !in Tables()
      modifies entries[addr].table
      ensures Valid() && Tables() == old(Tables())
      ensures At(Value(), addr) == Some(MergeAccess(old(ValueOf(addr)), Slots(from.slots)))
      ensures forall a :: a != addr ==> At(Value(), a) == old(At(Value(), a))
    {
      CopySlots(entries[addr].table, from);
    }
  }
}
