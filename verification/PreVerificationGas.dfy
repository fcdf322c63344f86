/** calcPreVerificationGas: the calldata price of one operation, and the validator's check of it. */
module PreVerificationGas {
  import opened Common

  /** Overheads as JavaScript numbers; the two byte prices pass through a byte array, so they wrap at 256. */
  datatype Overheads = Overheads(
    perBundle: real,
    perUserOp: real,
    perUserOpWord: real,
    zeroByte: nat,
    nonZeroByte: nat,
    bundleSize: real,
    sigSize: nat)

  const DEFAULTS := Overheads(21000.0, 18300.0, 4.0, 4, 16, 1.0, 65)

  const DUMMY_GAS := 21000

  const WORD_BYTES := 32
  const WORDS := 0x1_0000_0000_0000_0000_0000_0000_0000_0000_0000_0000_0000_0000_0000_0000_0000_0000

  /** A value the ABI coder can encode as one unsigned word. */
  type Uint256 = n: nat | n < WORDS

  datatype Fields = Fields(
    sender: Uint256,
    nonce: Uint256,
    initCode: Bytes,
    callData: Bytes,
    callGasLimit: Uint256,
    verificationGasLimit: Uint256,
    maxFeePerGas: Uint256,
    maxPriorityFeePerGas: Uint256,
    paymasterAndData: Bytes)

  /** The operation as it is being filled in: two of its fields may still be missing. */
  datatype Draft = Draft(fields: Fields, preVerificationGas: Option<Uint256>, signature: Option<Bytes>)

  // ---- packing --------------------------------------------------------------------------------------

  /** The low `size` bytes of a number, most significant first. */
  function BytesOf(n: nat, size: nat): (bs: Bytes)
    ensures |bs| == size
  {
    if size == 0 then [] else BytesOf(n / 256, size - 1) + [n % 256]
  }

  function Word(n: nat): (bs: Bytes)
    ensures |bs| == WORD_BYTES
  {
    BytesOf(n, WORD_BYTES)
  }

  function Fill(value: Byte, size: nat): (bs: Bytes)
    ensures |bs| == size
  {
    seq(size, _ => value)
  }

  function Padding(size: nat): nat {
    (WORD_BYTES - size % WORD_BYTES) % WORD_BYTES
  }

  /** The tail of a dynamic argument: its length, then its data padded to whole words. */
  function Tail(data: Bytes): Bytes {
    Word(|data|) + data + Fill(0, Padding(|data|))
  }

  const HEAD_BYTES := 11 * WORD_BYTES

  /** Head and tails of the ABI encoding of the eleven fields, four of them dynamic, the signature last. */
  function Pack(f: Fields, gas: Uint256, signature: Bytes): Bytes {
    Join(Before(f), gas, After(f), signature)
  }

  /** The two fields still being filled in, between and after everything else. */
  function Join(before: Bytes, gas: Uint256, after: Bytes, signature: Bytes): Bytes {
    before + Word(gas) + after + Tail(signature)
  }

  function Before(f: Fields): (bs: Bytes)
    ensures |bs| == 6 * WORD_BYTES
  {
    Word(f.sender) + Word(f.nonce) + Word(HEAD_BYTES) + Word(HEAD_BYTES + |Tail(f.initCode)|)
      + Word(f.callGasLimit) + Word(f.verificationGasLimit)
  }

  function After(f: Fields): (bs: Bytes)
    ensures |bs| == 4 * WORD_BYTES + |Tail(f.initCode)| + |Tail(f.callData)| + |Tail(f.paymasterAndData)|
  {
    var third := HEAD_BYTES + |Tail(f.initCode)| + |Tail(f.callData)|;
    Word(f.maxFeePerGas) + Word(f.maxPriorityFeePerGas) + Word(third) + Word(third + |Tail(f.paymasterAndData)|)
      + Tail(f.initCode) + Tail(f.callData) + Tail(f.paymasterAndData)
  }

  // ---- the price ------------------------------------------------------------------------------------

  /** One price for each byte, summed up. */
  function Sum(packed: Bytes, zeroByte: nat, nonZeroByte: nat): nat {
    if packed == [] then 0
    else Sum(packed[..|packed| - 1], zeroByte, nonZeroByte) + if packed[|packed| - 1] == 0 then zeroByte else nonZeroByte
  }

  function CallDataCost(ov: Overheads, packed: Bytes): nat {
    Sum(packed, ov.zeroByte % 256, ov.nonZeroByte % 256)
  }

  /** JavaScript's Math.round: halves go up. */
  function Round(x: real): int {
    (x + 0.5).Floor
  }

  function Price(ov: Overheads, callDataCost: nat, length: nat): int
    requires ov.bundleSize != 0.0
  {
    Round(callDataCost as real + ov.perBundle / ov.bundleSize + ov.perUserOp
          + ov.perUserOpWord * ((length as real + 31.0) / 32.0))
  }

  /** Missing fields are priced with dummies: 21000 gas, and a signature of ones. */
  function Calc(d: Draft, ov: Overheads): int
    requires ov.bundleSize != 0.0
  {
    var gas := if d.preVerificationGas.Some? then d.preVerificationGas.value else DUMMY_GAS;
    var signature := if d.signature.Some? then d.signature.value else Fill(1, ov.sigSize);
    var packed := Pack(d.fields, gas, signature);
    Price(ov, CallDataCost(ov, packed), |packed|)
  }

  /** What the SDK writes into the operation before it is signed. */
  function Estimate(f: Fields): int {
    Calc(Draft(f, None, None), DEFAULTS)
  }

  function Signed(f: Fields, gas: Uint256, signature: Bytes): Draft {
    Draft(f, Some(gas), Some(signature))
  }

  /** The validator's check of a complete operation. */
  predicate Accepted(d: Draft)
    requires d.preVerificationGas.Some? && d.signature.Some?
  {
    d.preVerificationGas.value >= Calc(d, DEFAULTS)
  }

  // ---- counting bytes -------------------------------------------------------------------------------

  function NonZero(bs: Bytes): (n: nat)
    ensures n <= |bs|
  {
    if bs == [] then 0 else NonZero(bs[..|bs| - 1]) + if bs[|bs| - 1] == 0 then 0 else 1
  }

  /** Non-zero bytes of a number written in base 256. */
  function Digits(n: nat): nat {
    if n == 0 then 0 else Digits(n / 256) + if n % 256 == 0 then 0 else 1
  }

  lemma {:induction false} NonZeroConcat(xs: Bytes, ys: Bytes)
    ensures NonZero(xs + ys) == NonZero(xs) + NonZero(ys)
    decreases |ys|
  {
    if ys == [] {
      assert xs + ys == xs;
    } else {
      assert (xs + ys)[..|xs + ys| - 1] == xs + ys[..|ys| - 1];
      NonZeroConcat(xs, ys[..|ys| - 1]);
    }
  }

  lemma {:induction false} NonZeroFill(value: Byte, size: nat)
    ensures NonZero(Fill(value, size)) == if value == 0 then 0 else size
  {
    if size > 0 {
      assert Fill(value, size)[..size - 1] == Fill(value, size - 1);
      NonZeroFill(value, size - 1);
    }
  }

  lemma {:induction false} DigitsOfBytes(n: nat, size: nat)
    requires n < Pow(256, size)
    ensures NonZero(BytesOf(n, size)) == Digits(n)
  {
    if size > 0 {
      var front := BytesOf(n / 256, size - 1);
      assert n / 256 < Pow(256, size - 1);
      DigitsOfBytes(n / 256, size - 1);
      assert (front + [n % 256])[..size - 1] == front;
    }
  }

  lemma WordLimit()
    ensures Pow(256, WORD_BYTES) == WORDS
  {
    assert Pow(256, 4) == 0x1_0000_0000 by { assert Pow(256, 2) == 65536; PowAdd(256, 2, 2); }
    PowAdd(256, 4, 4);
    PowAdd(256, 8, 8);
    PowAdd(256, 16, 16);
  }

  lemma WordDigits(n: Uint256)
    ensures NonZero(Word(n)) == Digits(n)
  {
    WordLimit();
    DigitsOfBytes(n, WORD_BYTES);
  }

  lemma TailDigits(data: Bytes)
    requires |data| < WORDS
    ensures |Tail(data)| == WORD_BYTES + |data| + Padding(|data|)
    ensures NonZero(Tail(data)) == Digits(|data|) + NonZero(data)
  {
    WordDigits(|data|);
    NonZeroConcat(Word(|data|), data);
    NonZeroFill(0, Padding(|data|));
    NonZeroConcat(Word(|data|) + data, Fill(0, Padding(|data|)));
  }

  // ---- monotone in count and length -----------------------------------------------------------------

  lemma OneMore(c: nat, k: nat)
    ensures c * (k + 1) == c * k + c
  {
  }

  lemma {:induction false} SumByCount(packed: Bytes, z: nat, n: nat)
    ensures Sum(packed, z, n) == z * (|packed| - NonZero(packed)) + n * NonZero(packed)
  {
    if packed != [] {
      var front := packed[..|packed| - 1];
      SumByCount(front, z, n);
      OneMore(z, |front| - NonZero(front));
      OneMore(n, NonZero(front));
    }
  }

  lemma SumMonotone(p: Bytes, q: Bytes, z: nat, n: nat)
    requires z <= n && |p| <= |q| && NonZero(p) <= NonZero(q)
    ensures Sum(p, z, n) <= Sum(q, z, n)
  {
    SumByCount(p, z, n);
    SumByCount(q, z, n);
    SplitCost(z, n, |p|, NonZero(p));
    SplitCost(z, n, |q|, NonZero(q));
    MulMonotone(|p|, |q|, z);
    MulMonotone(NonZero(p), NonZero(q), n - z);
  }

  lemma SplitCost(z: nat, n: nat, length: nat, count: nat)
    requires count <= length && z <= n
    ensures z * (length - count) + n * count == z * length + (n - z) * count
  {
  }

  lemma WordCostMonotone(c: real, x: real, y: real)
    requires c >= 0.0 && x <= y
    ensures c * ((x + 31.0) / 32.0) <= c * ((y + 31.0) / 32.0)
  {
    assert (x + 31.0) / 32.0 <= (y + 31.0) / 32.0;
  }

  lemma RoundMonotone(x: real, y: real)
    requires x <= y
    ensures Round(x) <= Round(y)
  {
  }

  lemma PriceGrows(ov: Overheads, cost: nat, length: nat, moreCost: nat, moreLength: nat)
    requires ov.bundleSize != 0.0 && ov.perUserOpWord >= 0.0 && cost <= moreCost && length <= moreLength
    ensures Price(ov, cost, length) <= Price(ov, moreCost, moreLength)
  {
    WordCostMonotone(ov.perUserOpWord, length as real, moreLength as real);
    var share := ov.perBundle / ov.bundleSize;
    RoundMonotone(cost as real + share + ov.perUserOp + ov.perUserOpWord * ((length as real + 31.0) / 32.0),
                  moreCost as real + share + ov.perUserOp + ov.perUserOpWord * ((moreLength as real + 31.0) / 32.0));
  }

  /**
   * More bytes, or more of them non-zero, never cost less: for any overheads whose wrapped byte prices
   * are in order and whose word price is not negative.
   */
  lemma PriceMonotone(ov: Overheads, p: Bytes, q: Bytes)
    requires ov.bundleSize != 0.0 && ov.perUserOpWord >= 0.0 && ov.zeroByte % 256 <= ov.nonZeroByte % 256
    requires |p| <= |q| && NonZero(p) <= NonZero(q)
    ensures Price(ov, CallDataCost(ov, p), |p|) <= Price(ov, CallDataCost(ov, q), |q|)
  {
    SumMonotone(p, q, ov.zeroByte % 256, ov.nonZeroByte % 256);
    PriceGrows(ov, CallDataCost(ov, p), |p|, CallDataCost(ov, q), |q|);
  }

  // ---- the estimate against the check ----------------------------------------------------------------

  /** With the default overheads a packed operation of whole words has this whole price. */
  function WholePrice(length: nat, count: nat): nat {
    4 * length + 12 * count + 39300 + length / 8 + 4
  }

  lemma RoundsHalvesUp(x: real)
    ensures Round(x) as real - 0.5 <= x < Round(x) as real + 0.5
  {
  }

  /**
   * For any length and bundle size: the calldata, 18300, a share of 21000, and an eighth for each byte and 31 more,
   * rounded to the nearest.
   */
  lemma DefaultPriceRounds(callDataCost: nat, length: nat, bundleSize: real)
    requires bundleSize > 0.0
    ensures var price := Price(DEFAULTS.(bundleSize := bundleSize), callDataCost, length) as real;
      price - 0.5 <= callDataCost as real + 18300.0 + 21000.0 / bundleSize + (length as real + 31.0) / 8.0 < price + 0.5
  {
    var x := callDataCost as real + 21000.0 / bundleSize + 18300.0 + 4.0 * ((length as real + 31.0) / 32.0);
    RoundsHalvesUp(x);
  }

  lemma DefaultPrice(packed: Bytes)
    requires |packed| % 32 == 0
    ensures Price(DEFAULTS, CallDataCost(DEFAULTS, packed), |packed|) == WholePrice(|packed|, NonZero(packed))
  {
    SumByCount(packed, 4, 16);
    WholeWords(CallDataCost(DEFAULTS, packed), |packed| / 32);
  }

  lemma WholeWords(callDataCost: nat, words: nat)
    ensures Price(DEFAULTS, callDataCost, 32 * words) == callDataCost + 39300 + 4 * words + 4
  {
    var total := callDataCost + 39300 + 4 * words;
    assert 4.0 * (((32 * words) as real + 31.0) / 32.0) == (4 * words) as real + 3.875;
    assert Price(DEFAULTS, callDataCost, 32 * words) == (total as real + 4.375).Floor;
  }

  function RestLength(f: Fields): nat {
    |Before(f)| + WORD_BYTES + |After(f)|
  }

  function RestCount(f: Fields): nat {
    NonZero(Before(f)) + NonZero(After(f))
  }

  lemma FourParts(a: Bytes, b: Bytes, c: Bytes, d: Bytes)
    ensures |a + b + c + d| == |a| + |b| + |c| + |d|
    ensures NonZero(a + b + c + d) == NonZero(a) + NonZero(b) + NonZero(c) + NonZero(d)
  {
    NonZeroConcat(a, b);
    NonZeroConcat(a + b, c);
    NonZeroConcat(a + b + c, d);
  }

  lemma TailAligned(data: Bytes)
    ensures |Tail(data)| == WORD_BYTES + |data| + Padding(|data|) && |Tail(data)| % 32 == 0
  {
    PaddingAligns(|data|);
  }

  lemma PaddingAligns(size: nat)
    ensures (WORD_BYTES + size + Padding(size)) % 32 == 0
  {
    var words, rest := size / 32, size % 32;
    assert size == 32 * words + rest;
    if rest == 0 {
      assert WORD_BYTES + size + Padding(size) == 32 * (words + 1);
    } else {
      assert Padding(size) == 32 - rest;
      assert WORD_BYTES + size + Padding(size) == 32 * (words + 2);
    }
  }

  lemma AfterAligned(f: Fields)
    ensures |After(f)| % 32 == 0
  {
    TailAligned(f.initCode);
    TailAligned(f.callData);
    TailAligned(f.paymasterAndData);
    SumAligned(|Tail(f.initCode)|, |Tail(f.callData)|, |Tail(f.paymasterAndData)|);
  }

  lemma SumAligned(a: nat, b: nat, c: nat)
    requires a % 32 == 0 && b % 32 == 0 && c % 32 == 0
    ensures (128 + a + b + c) % 32 == 0
  {
  }

  lemma JoinedSize(before: Bytes, gas: Uint256, after: Bytes, signature: Bytes)
    requires |signature| < WORDS && |before| == 192 && |after| % 32 == 0
    ensures |Join(before, gas, after, signature)| == 192 + WORD_BYTES + |after| + |Tail(signature)|
    ensures |Join(before, gas, after, signature)| % 32 == 0
    ensures NonZero(Join(before, gas, after, signature)) ==
      NonZero(before) + NonZero(after) + Digits(gas) + Digits(|signature|) + NonZero(signature)
  {
    WordDigits(gas);
    TailDigits(signature);
    TailAligned(signature);
    FourParts(before, Word(gas), after, Tail(signature));
    SumAligned(96, |after|, |Tail(signature)|);
  }

  /** What a signature adds to the price. */
  function SignatureCost(signature: Bytes): nat {
    var length := WORD_BYTES + |signature| + Padding(|signature|);
    4 * length + length / 8 + 12 * (Digits(|signature|) + NonZero(signature))
  }

  lemma SplitPrice(length: nat, count: nat, tail: nat, gasDigits: nat, signatureCount: nat)
    requires length % 32 == 0 && tail % 32 == 0
    ensures WholePrice(length + tail, count + gasDigits + signatureCount) ==
      WholePrice(length, count) + 12 * gasDigits + 4 * tail + tail / 8 + 12 * signatureCount
  {
  }

  lemma PriceOfSizes(packed: Bytes, length: nat, count: nat)
    requires |packed| == length && NonZero(packed) == count && length % 32 == 0
    ensures Price(DEFAULTS, CallDataCost(DEFAULTS, packed), |packed|) == WholePrice(length, count)
  {
    DefaultPrice(packed);
  }

  lemma SizedPrice(packed: Bytes, length: nat, count: nat, tail: nat, gasDigits: nat, signatureCount: nat)
    requires |packed| == length + tail && length % 32 == 0 && tail % 32 == 0
    requires NonZero(packed) == count + gasDigits + signatureCount
    ensures Price(DEFAULTS, CallDataCost(DEFAULTS, packed), |packed|) ==
      WholePrice(length, count) + 12 * gasDigits + 4 * tail + tail / 8 + 12 * signatureCount
  {
    PriceOfSizes(packed, length + tail, count + gasDigits + signatureCount);
    SplitPrice(length, count, tail, gasDigits, signatureCount);
  }

  lemma PriceByParts(f: Fields, gas: Uint256, signature: Bytes)
    requires |signature| < WORDS
    ensures Price(DEFAULTS, CallDataCost(DEFAULTS, Pack(f, gas, signature)), |Pack(f, gas, signature)|) ==
      WholePrice(RestLength(f), RestCount(f)) + 12 * Digits(gas) + SignatureCost(signature)
  {
    var before, after := Before(f), After(f);
    AfterAligned(f);
    TailAligned(signature);
    JoinedSize(before, gas, after, signature);
    SumAligned(96, |after|, 0);
    SizedPrice(Pack(f, gas, signature), RestLength(f), RestCount(f), |Tail(signature)|, Digits(gas),
               Digits(|signature|) + NonZero(signature));
  }

  lemma SmallDigits(n: nat)
    ensures n < 0x1_00 ==> Digits(n) <= 1
    ensures n < 0x1_0000 ==> Digits(n) <= 2
    ensures n < 0x1_00_0000 ==> Digits(n) <= 3
    ensures 0x1_00_0000 <= n < 0x1_00_0100 ==> Digits(n) <= 2
  {
    if n < 0x1_00_0100 {
      var a, b := n / 256, n / 256 / 256;
      var c := b / 256;
      assert Digits(n) <= Digits(a) + 1 && Digits(a) <= Digits(b) + 1 && Digits(b) <= Digits(c) + 1 && Digits(c) <= Digits(c / 256) + 1;
      if n >= 0x1_00_0000 {
        assert a == 0x1_0000 && a % 256 == 0 && b == 256 && b % 256 == 0 && c == 1;
      }
    }
  }

  lemma DummySignature()
    ensures SignatureCost(Fill(1, 65)) == 4 * 128 + 16 + 12 * 66
    ensures Digits(DUMMY_GAS) == 2
  {
    NonZeroFill(1, 65);
    assert Digits(65) == 1 && Digits(82) == 1;
  }

  lemma ShortSignature(signature: Bytes)
    requires |signature| <= 65
    ensures SignatureCost(signature) <= SignatureCost(Fill(1, 65))
  {
    DummySignature();
    SmallDigits(|signature|);
  }

  lemma EstimateByParts(f: Fields)
    ensures Estimate(f) == WholePrice(RestLength(f), RestCount(f)) + 24 + SignatureCost(Fill(1, 65))
  {
    PriceByParts(f, DUMMY_GAS, Fill(1, 65));
    DummySignature();
  }

  /** The length of a dynamic field's tail: a word, and the data in whole words. */
  ghost function Padded(data: Bytes): nat {
    32 * (1 + (|data| + 31) / 32)
  }

  lemma TailIsPadded(data: Bytes)
    ensures |Tail(data)| == Padded(data)
  {
  }

  lemma FourWords(a: Uint256, b: Uint256, c: Uint256, d: Uint256)
    ensures NonZero(Word(a) + Word(b) + Word(c) + Word(d)) == Digits(a) + Digits(b) + Digits(c) + Digits(d)
  {
    WordDigits(a);
    WordDigits(b);
    WordDigits(c);
    WordDigits(d);
    FourParts(Word(a), Word(b), Word(c), Word(d));
  }

  lemma TwoMoreWords(front: Bytes, a: Uint256, b: Uint256)
    ensures NonZero(front + Word(a) + Word(b)) == NonZero(front) + Digits(a) + Digits(b)
  {
    WordDigits(a);
    WordDigits(b);
    NonZeroConcat(front, Word(a));
    NonZeroConcat(front + Word(a), Word(b));
  }

  /** The non-zero bytes of the fields before the gas: four numbers, and the offsets of the first two tails. */
  ghost function HeadDigits(f: Fields): nat {
    Digits(f.sender) + Digits(f.nonce) + Digits(352) + Digits(352 + Padded(f.initCode))
    + Digits(f.callGasLimit) + Digits(f.verificationGasLimit)
  }

  /** And of what follows it: two numbers, two more offsets, and three tails, each a length and its data. */
  ghost function TailDigitsOf(f: Fields): nat {
    var third := 352 + Padded(f.initCode) + Padded(f.callData);
    Digits(f.maxFeePerGas) + Digits(f.maxPriorityFeePerGas) + Digits(third) + Digits(third + Padded(f.paymasterAndData))
    + Digits(|f.initCode|) + NonZero(f.initCode) + Digits(|f.callData|) + NonZero(f.callData)
    + Digits(|f.paymasterAndData|) + NonZero(f.paymasterAndData)
  }

  lemma BeforeCounted(f: Fields)
    requires 352 + Padded(f.initCode) < WORDS
    ensures |Before(f)| == 192
    ensures NonZero(Before(f)) == HeadDigits(f)
  {
    TailIsPadded(f.initCode);
    var second := 352 + Padded(f.initCode);
    FourWords(f.sender, f.nonce, 352, second);
    TwoMoreWords(Word(f.sender) + Word(f.nonce) + Word(352) + Word(second), f.callGasLimit, f.verificationGasLimit);
  }

  /** What follows the gas, taken apart: four words and three tails. */
  lemma AfterParts(f: Fields, third: nat, fourth: nat)
    requires third == 352 + Padded(f.initCode) + Padded(f.callData) && fourth == third + Padded(f.paymasterAndData)
    ensures After(f) == Word(f.maxFeePerGas) + Word(f.maxPriorityFeePerGas) + Word(third) + Word(fourth)
      + Tail(f.initCode) + Tail(f.callData) + Tail(f.paymasterAndData)
  {
    TailIsPadded(f.initCode);
    TailIsPadded(f.callData);
    TailIsPadded(f.paymasterAndData);
  }

  lemma AfterCounted(f: Fields)
    requires 352 + Padded(f.initCode) + Padded(f.callData) + Padded(f.paymasterAndData) < WORDS
    ensures NonZero(After(f)) == TailDigitsOf(f)
  {
    var third := 352 + Padded(f.initCode) + Padded(f.callData);
    var fourth := third + Padded(f.paymasterAndData);
    AfterParts(f, third, fourth);
    FourWords(f.maxFeePerGas, f.maxPriorityFeePerGas, third, fourth);
    ThreeTails(Word(f.maxFeePerGas) + Word(f.maxPriorityFeePerGas) + Word(third) + Word(fourth),
               f.initCode, f.callData, f.paymasterAndData);
  }

  lemma ThreeTails(front: Bytes, a: Bytes, b: Bytes, c: Bytes)
    requires |a| < WORDS && |b| < WORDS && |c| < WORDS
    ensures NonZero(front + Tail(a) + Tail(b) + Tail(c)) ==
      NonZero(front) + Digits(|a|) + NonZero(a) + Digits(|b|) + NonZero(b) + Digits(|c|) + NonZero(c)
  {
    TailDigits(a);
    TailDigits(b);
    TailDigits(c);
    FourParts(front, Tail(a), Tail(b), Tail(c));
  }

  /**
   * The estimate in full: four and an eighth per byte, twelve more per non-zero byte, and 39304; its dummies are
   * 21000 gas, which has two non-zero bytes, and a signature of 65 ones.
   */
  lemma EstimateExactly(f: Fields)
    requires 352 + Padded(f.initCode) + Padded(f.callData) + Padded(f.paymasterAndData) < WORDS
    ensures var length := 480 + Padded(f.initCode) + Padded(f.callData) + Padded(f.paymasterAndData);
      Estimate(f) == 4 * length + length / 8 + 12 * (HeadDigits(f) + TailDigitsOf(f) + 2 + 66) + 39304
  {
    RestCounted(f);
    EstimateByParts(f);
    assert SignatureCost(Fill(1, 65)) == 4 * 128 + 16 + 12 * 66 by { DummySignature(); }
    DummiesAdded(RestWords(f), RestCount(f));
  }

  lemma RestCounted(f: Fields)
    requires 352 + Padded(f.initCode) + Padded(f.callData) + Padded(f.paymasterAndData) < WORDS
    ensures RestLength(f) == 32 * RestWords(f) && RestCount(f) == HeadDigits(f) + TailDigitsOf(f)
    ensures 480 + Padded(f.initCode) + Padded(f.callData) + Padded(f.paymasterAndData) == 32 * RestWords(f) + 128
  {
    RestSized(f);
    RestDigits(f);
  }

  lemma RestSized(f: Fields)
    ensures RestLength(f) == 32 * RestWords(f)
    ensures 480 + Padded(f.initCode) + Padded(f.callData) + Padded(f.paymasterAndData) == 32 * RestWords(f) + 128
  {
    TailIsPadded(f.initCode);
    TailIsPadded(f.callData);
    TailIsPadded(f.paymasterAndData);
  }

  lemma RestDigits(f: Fields)
    requires 352 + Padded(f.initCode) + Padded(f.callData) + Padded(f.paymasterAndData) < WORDS
    ensures RestCount(f) == HeadDigits(f) + TailDigitsOf(f)
  {
    BeforeCounted(f);
    AfterCounted(f);
  }

  ghost function RestWords(f: Fields): nat {
    14 + (|f.initCode| + 31) / 32 + (|f.callData| + 31) / 32 + (|f.paymasterAndData| + 31) / 32
  }

  lemma DummiesAdded(words: nat, count: nat)
    ensures WholePrice(32 * words, count) + 24 + (4 * 128 + 16 + 12 * 66) ==
      4 * (32 * words + 128) + (32 * words + 128) / 8 + 12 * (count + 2 + 66) + 39304
  {
    assert 32 * words / 8 == 4 * words && (32 * words + 128) / 8 == 4 * words + 16;
  }

  /** For any signature, the check compares what the dummies saved with what the real fields cost. */
  lemma AcceptedExactly(f: Fields, gas: Uint256, signature: Bytes)
    requires |signature| < WORDS
    ensures Accepted(Signed(f, gas, signature)) <==>
      12 * Digits(gas) + SignatureCost(signature) <= 24 + SignatureCost(Fill(1, 65)) + (gas - Estimate(f))
  {
    PriceByParts(f, gas, signature);
    EstimateByParts(f);
  }

  /** An estimate below 2^16, written into the operation and signed with at most 65 bytes, is accepted. */
  lemma SmallEstimateAccepted(f: Fields, signature: Bytes)
    requires Estimate(f) < 0x1_0000 && |signature| <= 65
    ensures Estimate(f) >= 0 && Accepted(Signed(f, Estimate(f), signature))
  {
    EstimateByParts(f);
    AcceptedExactly(f, Estimate(f), signature);
    ShortSignature(signature);
    SmallDigits(Estimate(f));
  }

  /** Below 2^24, raising the estimate by 12 always passes. */
  lemma TwelveMoreSuffices(f: Fields, signature: Bytes)
    requires Estimate(f) < 0x1_00_0000 && |signature| <= 65
    ensures Estimate(f) >= 0 && Accepted(Signed(f, Estimate(f) + 12, signature))
  {
    EstimateByParts(f);
    AcceptedExactly(f, Estimate(f) + 12, signature);
    ShortSignature(signature);
    SmallDigits(Estimate(f) + 12);
  }

  /**
   * The estimate does not always meet its own check. With a signature of 65 non-zero bytes it does so
   * exactly when the estimate itself has at most two non-zero bytes, as its dummy has.
   */
  lemma FullSignatureExactly(f: Fields, signature: Bytes)
    requires |signature| == 65 && NonZero(signature) == 65 && Estimate(f) < WORDS
    ensures Estimate(f) >= 0
    ensures Accepted(Signed(f, Estimate(f), signature)) <==> Digits(Estimate(f)) <= 2
  {
    EstimateByParts(f);
    AcceptedExactly(f, Estimate(f), signature);
    DummySignature();
    assert Digits(65) == 1;
  }

  // ---- an operation whose estimate is refused -------------------------------------------------------

  /** Nothing but 1440 bytes of call data. */
  const LARGE := Fields(0, 0, [], Fill(1, 1440), 0, 0, 0, 0, [])

  lemma LargeDigits()
    ensures HeadDigits(LARGE) == 4 && TailDigitsOf(LARGE) == 1446
  {
    NonZeroFill(1, 1440);
    assert Digits(352) == 2 && Digits(384) == 2;
    assert Digits(1856) == 2 && Digits(1888) == 2 && Digits(1440) == 2;
  }

  lemma EstimateFromSizes(f: Fields, length: nat, count: nat)
    requires 352 + Padded(f.initCode) + Padded(f.callData) + Padded(f.paymasterAndData) < WORDS
    requires length == 480 + Padded(f.initCode) + Padded(f.callData) + Padded(f.paymasterAndData)
    requires count == HeadDigits(f) + TailDigitsOf(f)
    ensures Estimate(f) == 4 * length + length / 8 + 12 * (count + 68) + 39304
  {
    EstimateExactly(f);
  }

  lemma LargeEstimate()
    ensures Estimate(LARGE) == 65836
  {
    LargeDigits();
    EstimateFromSizes(LARGE, 2016, 1450);
  }

  /** Its estimate is 65836, and the validator asks for 12 more. */
  lemma LargeEstimateRefused()
    ensures Estimate(LARGE) == 65836
    ensures !Accepted(Signed(LARGE, 65836, Fill(1, 65)))
  {
    LargeEstimate();
    NonZeroFill(1, 65);
    FullSignatureExactly(LARGE, Fill(1, 65));
    assert Digits(65836) == 3;
  }
}
