/** Values shared by every part of the model. */
module Common {

  datatype Option<+T> = None | Some(value: T)

  /** What the source's `requireCond` and `throw` produce. */
  datatype Outcome<+E> = Pass | Fail(error: E)

  datatype Result<+T, +E> = Ok(value: T) | Err(error: E)

  /** A 160-bit address, after the lower-casing the source applies before comparing. */
  type Address = nat

  type Byte = b: nat | b < 256
  type Bytes = seq<Byte>

  datatype UserOp = UserOp(
    sender: Address,
    nonce: nat,
    initCode: Bytes,
    callData: Bytes,
    callGasLimit: nat,
    maxFeePerGas: nat,
    maxPriorityFeePerGas: nat,
    paymasterAndData: Bytes)

  datatype StakeInfo = StakeInfo(addr: Address, stake: nat, unstakeDelaySec: nat)

  function BigEndian(data: Bytes): nat {
    if data == [] then 0 else 256 * BigEndian(data[..|data| - 1]) + data[|data| - 1]
  }

  lemma {:induction false} BigEndianBounded(data: Bytes)
    ensures BigEndian(data) < Pow(256, |data|)
  {
    if data != [] {
      BigEndianBounded(data[..|data| - 1]);
    }
  }

  /** Equally long byte strings are the same number only if they are the same bytes. */
  lemma {:induction false} BigEndianInjective(x: Bytes, y: Bytes)
    requires |x| == |y| && BigEndian(x) == BigEndian(y)
    ensures x == y
  {
    if x != [] {
      var n := |x| - 1;
      BigEndianInjective(x[..n], y[..n]);
      assert x == x[..n] + [x[n]] && y == y[..n] + [y[n]];
    }
  }

  const ADDRESS_BYTES := 20

  /** The address at the head of `initCode` or `paymasterAndData`; shorter data names nobody. */
  function GetAddr(data: Bytes): Option<Address> {
    if |data| >= ADDRESS_BYTES then Some(BigEndian(data[..ADDRESS_BYTES])) else None
  }

  /** Data names an address exactly when it has 20 bytes, and the same one exactly when these agree: a 160-bit number. */
  lemma SameAddressExactly(x: Bytes, y: Bytes)
    ensures GetAddr(x).Some? <==> |x| >= 20
    ensures |x| >= 20 ==> GetAddr(x).value < Pow(256, 20)
    ensures |x| >= 20 && |y| >= 20 ==> (GetAddr(x) == GetAddr(y) <==> x[..20] == y[..20])
  {
    if |x| >= 20 {
      BigEndianBounded(x[..20]);
      if |y| >= 20 && GetAddr(x) == GetAddr(y) { BigEndianInjective(x[..20], y[..20]); }
    }
  }

  function Paymaster(op: UserOp): Option<Address> {
    GetAddr(op.paymasterAndData)
  }

  function Factory(op: UserOp): Option<Address> {
    GetAddr(op.initCode)
  }

  /** Leading zero bytes, as in the data that names a small address. */
  function Zeros(n: nat): Bytes {
    if n == 0 then [] else Zeros(n - 1) + [0]
  }

  lemma {:induction false} ZerosAreZero(n: nat)
    ensures |Zeros(n)| == n && BigEndian(Zeros(n)) == 0
  {
    if n > 0 {
      ZerosAreZero(n - 1);
      assert Zeros(n)[..n - 1] == Zeros(n - 1);
    }
  }

  lemma NamingNames(n: nat, b: Byte)
    requires n == 19
    ensures GetAddr(Zeros(n) + [b]) == Some(b)
  {
    ZerosAreZero(n);
    var data := Zeros(n) + [b];
    assert data[..20] == data && data[..19] == Zeros(n);
  }

  /** `a` is the operation's paymaster or factory. */
  ghost predicate UsesEntity(op: UserOp, a: Address) {
    Paymaster(op) == Some(a) || Factory(op) == Some(a)
  }

  /** Whether an optional address is `a`, as a number to be summed. */
  function Hit(who: Option<Address>, a: Address): nat {
    if who == Some(a) then 1 else 0
  }

  function Min(a: int, b: int): (m: int)
    ensures m <= a && m <= b && (m == a || m == b)
  {
    if a <= b then a else b
  }

  function Pow(base: nat, exp: nat): nat {
    if exp == 0 then 1 else base * Pow(base, exp - 1)
  }

  lemma {:induction false} PowAdd(b: nat, m: nat, n: nat)
    ensures Pow(b, m + n) == Pow(b, m) * Pow(b, n)
  {
    if m > 0 {
      PowAdd(b, m - 1, n);
      assert b * (Pow(b, m - 1) * Pow(b, n)) == (b * Pow(b, m - 1)) * Pow(b, n);
    }
  }

  lemma MulMonotone(a: int, b: int, c: nat)
    requires a <= b
    ensures c * a <= c * b
  {
  }

  /** The first index whose element satisfies `p`, as the source's index-scan loops return it. */
  function FindFirst<T>(s: seq<T>, p: T -> bool): (r: Option<nat>)
    ensures r.Some? ==> r.value < |s| && p(s[r.value]) && forall j :: 0 <= j < r.value ==> !p(s[j])
    ensures r.None? ==> forall j :: 0 <= j < |s| ==> !p(s[j])
  {
    if s == [] then None
    else if p(s[0]) then Some(0)
    else
      match FindFirst(s[1..], p)
      case None =>
        assert forall j :: 1 <= j < |s| ==> s[j] == s[1..][j - 1];
        None
      case Some(i) =>
        assert forall j :: 1 <= j < |s| ==> s[j] == s[1..][j - 1];
        Some(i + 1)
  }

  /** A finite map has a largest key-indexed value bound. */
  lemma {:induction false} BoundExists(keys: set<Address>, f: Address -> int) returns (bound: nat)
    ensures forall a :: a in keys ==> f(a) <= bound
  {
    if keys == {} {
      bound := 0;
    } else {
      var a :| a in keys;
      var rest := BoundExists(keys - {a}, f);
      bound := if f(a) > rest then f(a) else rest;
      assert forall b :: b in keys ==> b == a || b in keys - {a};
    }
  }

  function Without<T>(s: seq<T>, i: nat): seq<T>
    requires i < |s|
  {
    s[..i] + s[i + 1..]
  }

  lemma WithoutMultiset<T>(s: seq<T>, i: nat)
    requires i < |s|
    ensures multiset(s) == multiset(Without(s, i)) + multiset{s[i]}
  {
    assert s == s[..i] + [s[i]] + s[i + 1..];
  }

  lemma SameRest<T>(s: seq<T>, t: seq<T>, i: nat, j: nat)
    requires i < |s| && j < |t| && s[i] == t[j]
    requires multiset(s) == multiset(t)
    ensures multiset(Without(s, i)) == multiset(Without(t, j))
  {
    WithoutMultiset(s, i);
    WithoutMultiset(t, j);
    assert multiset(Without(s, i)) == multiset(s) - multiset{s[i]};
    assert multiset(Without(t, j)) == multiset(t) - multiset{s[i]};
  }

  lemma Associative<T>(a: seq<T>, b: seq<T>, c: seq<T>)
    ensures (a + b) + c == a + (b + c)
  {
  }
}
