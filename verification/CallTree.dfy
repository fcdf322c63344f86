/** parseCallStack: rebuilding finished calls from the flat list of enters and exits. */
module CallTree {
  import opened Common

  datatype Kind = CALL | CALLCODE | DELEGATECALL | STATICCALL | CREATE | CREATE2 | SELFDESTRUCT

  datatype Opening = Opening(kind: Kind, from: Address, to: Address, methodSig: Bytes, value: Option<nat>)
  datatype Closing = Closing(reverted: bool, data: Bytes)

  /** One element of the tracer's `calls`. */
  datatype Frame = Enter(opening: Opening) | Exit(closing: Closing)

  /** `method` of a finished call: undefined, the unparsed signature hash, or a parsed name. */
  datatype Label = Unlabelled | Signature(sig: Bytes) | Name(name: string)

  datatype Ending = Created(length: nat) | Reverted(data: Bytes) | Returned(parsedAs: Label, data: Bytes)

  datatype CallEntry =
    | Finished(kind: Kind, from: Address, to: Address, called: Label, value: Option<nat>, ending: Ending)
    | Top(called: Label, ending: Ending)

  /** The ABI's lookup of a four-byte signature; it knows nothing about any other. */
  type Abi = map<Bytes, string>

  function Resolve(abi: Abi, sig: Bytes): Label {
    if sig in abi then Name(abi[sig]) else Signature(sig)
  }

  /** Only a parsed method has a `name`; in the revert branch an unparsed one is left undefined. */
  function EntryOf(abi: Abi, o: Opening, c: Closing): (e: CallEntry)
    ensures e.Finished? && e.kind == o.kind && e.from == o.from && e.to == o.to
    ensures e.ending.Created? <==> o.kind.CREATE? || o.kind.CREATE2?
    ensures e.ending.Reverted? <==> c.reverted && !e.ending.Created?
    ensures e.value != o.value ==> e.ending.Created? && e.value.None?
    ensures e.called.Name? <==> e.ending.Created? || o.methodSig in abi
  {
    if o.kind.CREATE? || o.kind.CREATE2? then
      Finished(o.kind, o.from, o.to, Name(""), None, Created(|c.data|))
    else if c.reverted then
      Finished(o.kind, o.from, o.to, if o.methodSig in abi then Name(abi[o.methodSig]) else Unlabelled, o.value, Reverted(c.data))
    else
      Finished(o.kind, o.from, o.to, Resolve(abi, o.methodSig), o.value, Returned(Resolve(abi, o.methodSig), c.data))
  }

  /** The synthetic entry for an exit without a call: the end of the traced top-level call. */
  function TopEntry(c: Closing): CallEntry {
    if c.reverted then Top(Unlabelled, Reverted(c.data))
    else Top(Name("validateUserOp"), Returned(Name("validateUserOp"), c.data))
  }

  function Close(abi: Abi, stack: seq<Opening>, c: Closing): CallEntry {
    if stack == [] then TopEntry(c) else EntryOf(abi, stack[|stack| - 1], c)
  }

  function Pop(stack: seq<Opening>): seq<Opening> {
    if stack == [] then [] else stack[..|stack| - 1]
  }

  /** The entries the scan still produces from this stack. */
  function Parsed(abi: Abi, stack: seq<Opening>, frames: seq<Frame>): seq<CallEntry>
    decreases |frames|
  {
    if frames == [] then []
    else
      match frames[0]
      case Enter(o) => Parsed(abi, stack + [o], frames[1..])
      case Exit(c) => [Close(abi, stack, c)] + Parsed(abi, Pop(stack), frames[1..])
  }

  /** The stack the scan ends with. */
  ghost function Left(stack: seq<Opening>, frames: seq<Frame>): seq<Opening>
    decreases |frames|
  {
    if frames == [] then stack
    else
      match frames[0]
      case Enter(o) => Left(stack + [o], frames[1..])
      case Exit(_) => Left(Pop(stack), frames[1..])
  }

  /** `parseCallStack`, with its stack and its output as growing lists. */
  method ParseCallStack(abi: Abi, calls: seq<Frame>) returns (entries: seq<CallEntry>)
    ensures entries == Parsed(abi, [], calls)
  {
    entries := [];
    var stack: seq<Opening> := [];
    for i := 0 to |calls|
      invariant Parsed(abi, [], calls) == entries + Parsed(abi, stack, calls[i..])
    {
      assert calls[i..][0] == calls[i] && calls[i..][1..] == calls[i + 1..];
      match calls[i]
      case Enter(o) =>
        stack := stack + [o];
      case Exit(c) =>
        Associative(entries, [Close(abi, stack, c)], Parsed(abi, Pop(stack), calls[i + 1..]));
        entries := entries + [Close(abi, stack, c)];
        stack := Pop(stack);
    }
  }

  // ---- call forests -----------------------------------------------------------------------------

  /** A list of calls, each with the calls made inside it. */
  datatype Forest = Leaf | Branch(opening: Opening, inner: Forest, closing: Closing, rest: Forest)

  function Flatten(f: Forest): seq<Frame> {
    match f
    case Leaf => []
    case Branch(o, inner, c, rest) => [Enter(o)] + Flatten(inner) + [Exit(c)] + Flatten(rest)
  }

  /** Every call after the calls made inside it, siblings in order, each exit paired with its own enter. */
  function PostOrder(abi: Abi, f: Forest): seq<CallEntry> {
    match f
    case Leaf => []
    case Branch(o, inner, c, rest) => PostOrder(abi, inner) + [EntryOf(abi, o, c)] + PostOrder(abi, rest)
  }

  lemma {:induction false} ScanForest(abi: Abi, stack: seq<Opening>, f: Forest, more: seq<Frame>)
    ensures Parsed(abi, stack, Flatten(f) + more) == PostOrder(abi, f) + Parsed(abi, stack, more)
    ensures Left(stack, Flatten(f) + more) == Left(stack, more)
    decreases f
  {
    match f
    case Leaf =>
      assert Flatten(f) + more == more;
    case Branch(o, inner, c, rest) =>
      var tail := Flatten(rest) + more;
      var closing := [Exit(c)] + tail;
      var whole := Flatten(f) + more;
      assert whole[0] == Enter(o) && whole[1..] == Flatten(inner) + closing;
      ScanForest(abi, stack + [o], inner, closing);
      assert closing[1..] == tail && Pop(stack + [o]) == stack;
      ScanForest(abi, stack, rest, more);
      Associative(PostOrder(abi, inner), [EntryOf(abi, o, c)], PostOrder(abi, rest) + Parsed(abi, stack, more));
      Associative(PostOrder(abi, inner) + [EntryOf(abi, o, c)], PostOrder(abi, rest), Parsed(abi, stack, more));
  }

  /**
   * For every call forest followed by the unmatched end of the top-level call, the scan yields exactly the
   * post-order of the forest and then the synthetic top entry, and its stack is empty at the end.
   */
  lemma CallStackIsPostOrder(abi: Abi, f: Forest, top: Closing)
    ensures Parsed(abi, [], Flatten(f) + [Exit(top)]) == PostOrder(abi, f) + [TopEntry(top)]
    ensures top.reverted ==> TopEntry(top) == Top(Unlabelled, Reverted(top.data))
    ensures !top.reverted ==> TopEntry(top) == Top(Name("validateUserOp"), Returned(Name("validateUserOp"), top.data))
    ensures Left([], Flatten(f) + [Exit(top)]) == []
  {
    ScanForest(abi, [], f, [Exit(top)]);
    assert [Exit(top)][1..] == [];
  }

  // ---- which lists are call forests ---------------------------------------------------------------

  /** The nesting depth after the frames, or None once an exit had no enter. */
  function Depth(frames: seq<Frame>, d: nat): Option<nat>
    decreases |frames|
  {
    if frames == [] then Some(d)
    else if frames[0].Enter? then Depth(frames[1..], d + 1)
    else if d == 0 then None
    else Depth(frames[1..], d - 1)
  }

  predicate Balanced(frames: seq<Frame>) {
    Depth(frames, 0) == Some(0)
  }

  lemma {:induction false} DepthConcat(xs: seq<Frame>, ys: seq<Frame>, d: nat)
    ensures Depth(xs + ys, d) == match Depth(xs, d) case None => None case Some(e) => Depth(ys, e)
    decreases |xs|
  {
    if xs == [] {
      assert xs + ys == ys;
    } else {
      assert (xs + ys)[1..] == xs[1..] + ys;
      if xs[0].Enter? {
        DepthConcat(xs[1..], ys, d + 1);
      } else if d > 0 {
        DepthConcat(xs[1..], ys, d - 1);
      }
    }
  }

  lemma {:induction false} ForestBalanced(f: Forest, d: nat)
    ensures Depth(Flatten(f), d) == Some(d)
    decreases f
  {
    match f
    case Leaf =>
    case Branch(o, inner, c, rest) =>
      ForestBalanced(inner, d + 1);
      ForestBalanced(rest, d);
      var front := [Enter(o)] + Flatten(inner);
      assert front[1..] == Flatten(inner);
      assert Flatten(f) == front + ([Exit(c)] + Flatten(rest));
      assert ([Exit(c)] + Flatten(rest))[1..] == Flatten(rest);
      DepthConcat(front, [Exit(c)] + Flatten(rest), d);
  }

  lemma BranchSplits(frames: seq<Frame>, inner: Forest, tail: seq<Frame>, siblings: Forest, rest: seq<Frame>)
    requires frames != [] && frames[0].Enter? && frames[1..] == Flatten(inner) + tail
    requires tail != [] && tail[0].Exit? && tail[1..] == Flatten(siblings) + rest
    ensures frames == Flatten(Branch(frames[0].opening, inner, tail[0].closing, siblings)) + rest
  {
    assert frames == [frames[0]] + frames[1..] && tail == [tail[0]] + tail[1..];
  }

  /** Splits off the longest call forest at the head; what remains is empty or starts with an exit. */
  lemma {:induction false} TakeForest(frames: seq<Frame>, d: nat) returns (f: Forest, rest: seq<Frame>)
    requires Depth(frames, d) == Some(0)
    ensures frames == Flatten(f) + rest
    ensures Depth(rest, d) == Some(0)
    ensures rest == [] || rest[0].Exit?
    decreases |frames|
  {
    if frames == [] || frames[0].Exit? {
      f, rest := Leaf, frames;
      assert Flatten(f) + rest == frames;
    } else {
      var inner, tail := TakeForest(frames[1..], d + 1);
      var siblings, remains := TakeForest(tail[1..], d);
      f, rest := Branch(frames[0].opening, inner, tail[0].closing, siblings), remains;
      BranchSplits(frames, inner, tail, siblings, rest);
    }
  }

  /** The lists of frames that are call forests are exactly the balanced ones. */
  lemma ForestsAreBalancedLists(frames: seq<Frame>)
    ensures Balanced(frames) <==> exists f :: Flatten(f) == frames
  {
    if Balanced(frames) {
      var f, rest := TakeForest(frames, 0);
      assert rest == [];
      assert Flatten(f) == frames;
    }
    forall f | Flatten(f) == frames
      ensures Balanced(frames)
    {
      ForestBalanced(f, 0);
    }
  }

  /** Whatever balanced calls the trace holds, they come out in post-order with the top entry last. */
  lemma BalancedCallsComeOutPostOrder(abi: Abi, calls: seq<Frame>, top: Closing) returns (f: Forest)
    requires Balanced(calls)
    ensures Flatten(f) == calls
    ensures Parsed(abi, [], calls + [Exit(top)]) == PostOrder(abi, f) + [TopEntry(top)]
    ensures Left([], calls + [Exit(top)]) == []
  {
    ForestsAreBalancedLists(calls);
    f :| Flatten(f) == calls;
    CallStackIsPostOrder(abi, f, top);
  }
}
