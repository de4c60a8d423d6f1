/** Off-chain packing and hashing: packed-user-op.util.ts and build-packed-user-op.util.ts. */
module Packing {
  import opened Wrappers
  import opened Numbers
  import opened Schema

  datatype Error = HighOutOfRange | LowOutOfRange | IntegerOutOfRange | Syntax(e: ParseError)

  type Keccak = Bytes -> Bytes32

  datatype LooseUserOp = LooseUserOp(
    sender: Address,
    nonce: int,
    initCode: Bytes,
    callData: Bytes,
    callGasLimit: int,
    verificationGasLimit: int,
    preVerificationGas: int,
    maxFeePerGas: int,
    maxPriorityFeePerGas: int)

  predicate FitsUint(n: int, max: nat) {
    0 <= n <= max
  }

  function PackHighLow128(high: int, low: int): (r: Result<Bytes32, Error>)
  {
    if !FitsUint(high, UINT128_MAX) then Err(HighOutOfRange)
    else if !FitsUint(low, UINT128_MAX) then Err(LowOutOfRange)
    else Ok(ToBytes(BitOr(Shl128(high), low), 32))
  }

  function PackAccountGasLimits(op: LooseUserOp): Result<Bytes32, Error> {
    PackHighLow128(op.verificationGasLimit, op.callGasLimit)
  }

  function PackGasFees(op: LooseUserOp): Result<Bytes32, Error> {
    PackHighLow128(op.maxPriorityFeePerGas, op.maxFeePerGas)
  }

  function BuildPaymasterAndDataHeader(paymaster: Address, verificationGasLimit: int, postOpGasLimit: int)
    : Result<Bytes, Error>
  {
    var packedGasLimits :- PackHighLow128(verificationGasLimit, postOpGasLimit);
    Ok(paymaster + packedGasLimits)
  }

  // ----- ABI words (Solidity ABI Specification, "Formal Specification of the Encoding")

  function EncodeUint(n: int, max: nat): Result<Bytes32, Error> {
    if FitsUint(n, max) then Ok(ToBytes(n, 32)) else Err(IntegerOutOfRange)
  }

  function EncodeAddress(a: Address): Bytes32 {
    seq(12, _ => 0) + a
  }

  /** Static-type tuple encoding: one 32-byte word after another. */
  function AbiEncode(words: seq<Bytes32>): (b: Bytes)
    ensures |b| == 32 * |words|
  {
    if words == [] then [] else words[0] + AbiEncode(words[1..])
  }

  datatype PaymasterHashParams = PaymasterHashParams(
    userOp: LooseUserOp,
    paymaster: Address,
    verificationGasLimit: nat,
    postOpGasLimit: nat,
    chainId: nat,
    validUntil: nat,
    validAfter: nat)

  /** The 12 words `computePaymasterHash` encodes. */
  function PaymasterWords(keccak: Keccak, p: PaymasterHashParams): (r: Result<seq<Bytes32>, Error>)
    ensures r.Ok? ==> |r.value| == 12
  {
    var packedPaymasterGasLimits := BitOr(Shl128(p.verificationGasLimit), p.postOpGasLimit);
    var accountGasLimits :- PackAccountGasLimits(p.userOp);
    var gasFees :- PackGasFees(p.userOp);
    var nonce :- EncodeUint(p.userOp.nonce, UINT256_MAX);
    var paymasterGas :- EncodeUint(packedPaymasterGasLimits, UINT256_MAX);
    var preVerificationGas :- EncodeUint(p.userOp.preVerificationGas, UINT256_MAX);
    var chainId :- EncodeUint(p.chainId, UINT256_MAX);
    var validUntil :- EncodeUint(p.validUntil, UINT48_MAX);
    var validAfter :- EncodeUint(p.validAfter, UINT48_MAX);
    Ok([EncodeAddress(p.userOp.sender), nonce,
        keccak(p.userOp.initCode), keccak(p.userOp.callData),
        accountGasLimits, paymasterGas, preVerificationGas, gasFees,
        chainId, EncodeAddress(p.paymaster), validUntil, validAfter])
  }

  function PaymasterPreimage(keccak: Keccak, p: PaymasterHashParams): Result<Bytes, Error> {
    var words :- PaymasterWords(keccak, p);
    Ok(AbiEncode(words))
  }

  function ComputePaymasterHash(keccak: Keccak, p: PaymasterHashParams): Result<Bytes32, Error> {
    var preimage :- PaymasterPreimage(keccak, p);
    Ok(keccak(preimage))
  }

  /** The inner struct encoding of `computeUserOpHash`. */
  function UserOpPreimage(keccak: Keccak, op: LooseUserOp, paymasterAndData: Bytes): Result<Bytes, Error> {
    var accountGasLimits :- PackAccountGasLimits(op);
    var gasFees :- PackGasFees(op);
    var nonce :- EncodeUint(op.nonce, UINT256_MAX);
    var preVerificationGas :- EncodeUint(op.preVerificationGas, UINT256_MAX);
    Ok(AbiEncode([EncodeAddress(op.sender), nonce, keccak(op.initCode), keccak(op.callData),
                  accountGasLimits, preVerificationGas, gasFees, keccak(paymasterAndData)]))
  }

  function ComputeUserOpHash(keccak: Keccak, op: LooseUserOp, paymasterAndData: Bytes,
                             entryPoint: Address, chainId: nat): Result<Bytes32, Error>
  {
    var preimage :- UserOpPreimage(keccak, op, paymasterAndData);
    var chainWord :- EncodeUint(chainId, UINT256_MAX);
    Ok(keccak(AbiEncode([keccak(preimage), EncodeAddress(entryPoint), chainWord])))
  }

  // ----- from a stored row back to the on-chain struct

  function ReadColumn(s: string): Result<nat, Error> {
    match BigInt(s)
    case Ok(n) => Ok(n)
    case Err(e) => Err(Syntax(e))
  }

  function BuildPackedUserOp(row: SponsoredOp, signature: Bytes): Result<PackedUserOp, Error> {
    var nonce :- ReadColumn(row.nonce);
    var verificationGasLimit :- ReadColumn(row.verificationGasLimit);
    var callGasLimit :- ReadColumn(row.callGasLimit);
    var accountGasLimits :- PackHighLow128(verificationGasLimit, callGasLimit);
    var preVerificationGas :- ReadColumn(row.preVerificationGas);
    var maxPriorityFeePerGas :- ReadColumn(row.opMaxPriorityFeePerGas);
    var maxFeePerGas :- ReadColumn(row.opMaxFeePerGas);
    var gasFees :- PackHighLow128(maxPriorityFeePerGas, maxFeePerGas);
    Ok(PackedUserOp(row.sender, nonce, row.initCode, row.callData, accountGasLimits,
                    preVerificationGas, gasFees, row.paymasterAndData, signature))
  }

  // ----- properties of the packing

  lemma ProductBound(m: nat, p: nat)
    requires m < p
    ensures m * p + p <= p * p
  {
    var d := p - m - 1;
    assert p * p == (m + 1 + d) * p == m * p + p + d * p;
    assert 0 <= d * p;
  }

  lemma TwoHalves(high: nat, low: nat, k: nat)
    requires high < Pow(256, k) && low < Pow(256, k)
    ensures var n := BitOr(high * Pow(256, k), low);
            && n < Pow(256, k + k)
            && ToBytes(n, k + k) == ToBytes(high, k) + ToBytes(low, k)
  {
    var p := Pow(256, k);
    Pow256(k);
    ShiftOrIsSum(high, low, 8 * k);
    ToBytesSplit(high, low, k, k);
    ProductBound(high, p);
    PowAdd(256, k, k);
  }

  /** Packing succeeds exactly on pairs of uint128 and lays the two halves side by side, high half first. */
  lemma PackIsTwoHalves(high: int, low: int)
    ensures PackHighLow128(high, low).Ok? <==> FitsUint(high, UINT128_MAX) && FitsUint(low, UINT128_MAX)
    ensures PackHighLow128(high, low).Ok? ==>
              && FitsUint(BitOr(Shl128(high), low), UINT256_MAX)
              && PackHighLow128(high, low).value == ToBytes(high, 16) + ToBytes(low, 16)
  {
    if FitsUint(high, UINT128_MAX) && FitsUint(low, UINT128_MAX) {
      hide Pow, BitOr;
      Widths();
      TwoHalves(high, low, 16);
    }
  }

  /** Different pairs never share a packed word. */
  lemma PackInjective(h1: int, l1: int, h2: int, l2: int)
    requires PackHighLow128(h1, l1).Ok? && PackHighLow128(h1, l1) == PackHighLow128(h2, l2)
    ensures h1 == h2 && l1 == l2
  {
    PackIsTwoHalves(h1, l1);
    PackIsTwoHalves(h2, l2);
    var a, b := ToBytes(h1, 16) + ToBytes(l1, 16), ToBytes(h2, 16) + ToBytes(l2, 16);
    assert a[..16] == ToBytes(h1, 16) && a[16..] == ToBytes(l1, 16);
    assert b[..16] == ToBytes(h2, 16) && b[16..] == ToBytes(l2, 16);
    hide Pow;
    Widths();
    FromToBytes(h1, 16); FromToBytes(h2, 16);
    FromToBytes(l1, 16); FromToBytes(l2, 16);
  }

  /** Every 32-byte word is the packing of some pair of uint128. */
  lemma PackSurjective(w: Bytes32)
    ensures exists high: nat, low: nat :: PackHighLow128(high, low) == Ok(w)
  {
    var high, low := FromBytes(w[..16]), FromBytes(w[16..]);
    hide Pow;
    Widths();
    ToFromBytes(w[..16]);
    ToFromBytes(w[16..]);
    PackIsTwoHalves(high, low);
    assert w[..16] + w[16..] == w;
    assert PackHighLow128(high, low) == Ok(w);
  }

  lemma WordHoldsUint(n: nat)
    requires n <= UINT256_MAX
    ensures FromBytes(ToBytes(n, 32)) == n
  {
    Widths();
    FromToBytes(n, 32);
  }

  lemma WordIsUint(w: Bytes32)
    ensures FromBytes(w) <= UINT256_MAX && ToBytes(FromBytes(w), 32) == w
  {
    Widths();
    ToFromBytes(w);
  }

  lemma EncodeUintInjective(m: int, n: int, max: nat)
    requires max <= UINT256_MAX
    requires EncodeUint(m, max).Ok? && EncodeUint(m, max) == EncodeUint(n, max)
    ensures m == n
  {
    WordHoldsUint(m);
    WordHoldsUint(n);
  }

  lemma {:induction false} AbiEncodeInjective(a: seq<Bytes32>, b: seq<Bytes32>)
    requires |a| == |b| && AbiEncode(a) == AbiEncode(b)
    ensures a == b
  {
    if a == [] {
    } else {
      var x, y := AbiEncode(a), AbiEncode(b);
      assert x[..32] == a[0] && x[32..] == AbiEncode(a[1..]);
      assert y[..32] == b[0] && y[32..] == AbiEncode(b[1..]);
      AbiEncodeInjective(a[1..], b[1..]);
      assert a == [a[0]] + a[1..] && b == [b[0]] + b[1..];
    }
  }

  /** Word `i` of an encoding stands at byte 32 i. */
  lemma {:induction false} AbiWordAt(words: seq<Bytes32>, i: nat)
    requires i < |words|
    ensures AbiEncode(words)[32 * i..32 * i + 32] == words[i]
  {
    var b := AbiEncode(words);
    assert b[..32] == words[0] && b[32..] == AbiEncode(words[1..]);
    if i > 0 {
      AbiWordAt(words[1..], i - 1);
      assert b[32 * i..32 * i + 32] == b[32..][32 * (i - 1)..32 * (i - 1) + 32];
    }
  }

  /** Zeros in front change no number. */
  lemma {:induction false} LeadingZeros(n: nat, b: Bytes)
    ensures FromBytes(seq(n, _ => 0) + b) == FromBytes(b)
  {
    var padded: Bytes := seq(n, _ => 0) + b;
    if b != [] {
      var front := b[..|b| - 1];
      LeadingZeros(n, front);
      assert padded[..|padded| - 1] == seq(n, _ => 0) + front;
    } else if n > 0 {
      LeadingZeros(n - 1, []);
      assert padded[..n - 1] == seq(n - 1, _ => 0) + [];
    }
  }

  /** An address is encoded as the uint160 its bytes are. */
  lemma AddressIsUint160(a: Address)
    ensures FromBytes(EncodeAddress(a)) == FromBytes(a)
  {
    LeadingZeros(12, a);
  }

  /** Two different inputs with one keccak image. */
  predicate Collision(keccak: Keccak, a: Bytes, b: Bytes) {
    a != b && keccak(a) == keccak(b)
  }

  lemma AddressWordInjective(a: Address, b: Address)
    requires EncodeAddress(a) == EncodeAddress(b)
    ensures a == b
  {
    assert EncodeAddress(a)[12..] == a && EncodeAddress(b)[12..] == b;
  }

  /** Both paymaster gas limits are uint128, as `buildPaymasterAndDataHeader` demands of every signed op. */
  predicate LimitsFit(p: PaymasterHashParams) {
    FitsUint(p.verificationGasLimit, UINT128_MAX) && FitsUint(p.postOpGasLimit, UINT128_MAX)
  }

  /** The preimage determines every signed value; the two hashed fields through their digests. */
  lemma PreimageInjective(keccak: Keccak, p: PaymasterHashParams, q: PaymasterHashParams)
    requires LimitsFit(p) && LimitsFit(q)
    requires PaymasterPreimage(keccak, p).Ok? && PaymasterPreimage(keccak, p) == PaymasterPreimage(keccak, q)
    ensures p.(userOp := q.userOp) == q
    ensures p.userOp.(initCode := q.userOp.initCode, callData := q.userOp.callData) == q.userOp
    ensures keccak(p.userOp.initCode) == keccak(q.userOp.initCode)
    ensures keccak(p.userOp.callData) == keccak(q.userOp.callData)
  {
    hide PaymasterWords, AbiEncode;
    AbiEncodeInjective(PaymasterWords(keccak, p).value, PaymasterWords(keccak, q).value);
    UintWordsAgree(keccak, p, q);
    PackedWordsAgree(keccak, p, q);
    BytesWordsAgree(keccak, p, q);
  }

  lemma BytesWordsAgree(keccak: Keccak, p: PaymasterHashParams, q: PaymasterHashParams)
    requires PaymasterWords(keccak, p).Ok? && PaymasterWords(keccak, p) == PaymasterWords(keccak, q)
    ensures p.userOp.sender == q.userOp.sender && p.paymaster == q.paymaster
    ensures keccak(p.userOp.initCode) == keccak(q.userOp.initCode)
    ensures keccak(p.userOp.callData) == keccak(q.userOp.callData)
  {
    hide EncodeUint, EncodeAddress, PackHighLow128;
    var v, w := PaymasterWords(keccak, p).value, PaymasterWords(keccak, q).value;
    assert v[0] == w[0] && v[2] == w[2] && v[3] == w[3] && v[9] == w[9];
    AddressWordInjective(p.userOp.sender, q.userOp.sender);
    AddressWordInjective(p.paymaster, q.paymaster);
  }

  lemma UintWordsAgree(keccak: Keccak, p: PaymasterHashParams, q: PaymasterHashParams)
    requires PaymasterWords(keccak, p).Ok? && PaymasterWords(keccak, p) == PaymasterWords(keccak, q)
    ensures p.userOp.nonce == q.userOp.nonce && p.userOp.preVerificationGas == q.userOp.preVerificationGas
    ensures p.chainId == q.chainId && p.validUntil == q.validUntil && p.validAfter == q.validAfter
  {
    var v, w := PaymasterWords(keccak, p).value, PaymasterWords(keccak, q).value;
    assert v[1] == w[1] && v[6] == w[6] && v[8] == w[8] && v[10] == w[10] && v[11] == w[11];
    EncodeUintInjective(p.userOp.nonce, q.userOp.nonce, UINT256_MAX);
    EncodeUintInjective(p.userOp.preVerificationGas, q.userOp.preVerificationGas, UINT256_MAX);
    EncodeUintInjective(p.chainId, q.chainId, UINT256_MAX);
    EncodeUintInjective(p.validUntil, q.validUntil, UINT48_MAX);
    EncodeUintInjective(p.validAfter, q.validAfter, UINT48_MAX);
  }

  lemma PackedWordsAgree(keccak: Keccak, p: PaymasterHashParams, q: PaymasterHashParams)
    requires LimitsFit(p) && LimitsFit(q)
    requires PaymasterWords(keccak, p).Ok? && PaymasterWords(keccak, p) == PaymasterWords(keccak, q)
    ensures p.userOp.verificationGasLimit == q.userOp.verificationGasLimit
    ensures p.userOp.callGasLimit == q.userOp.callGasLimit
    ensures p.userOp.maxPriorityFeePerGas == q.userOp.maxPriorityFeePerGas
    ensures p.userOp.maxFeePerGas == q.userOp.maxFeePerGas
    ensures p.verificationGasLimit == q.verificationGasLimit && p.postOpGasLimit == q.postOpGasLimit
  {
    var v, w := PaymasterWords(keccak, p).value, PaymasterWords(keccak, q).value;
    assert v[4] == w[4] && v[5] == w[5] && v[7] == w[7];
    PackInjective(p.userOp.verificationGasLimit, p.userOp.callGasLimit,
                  q.userOp.verificationGasLimit, q.userOp.callGasLimit);
    PackInjective(p.userOp.maxPriorityFeePerGas, p.userOp.maxFeePerGas,
                  q.userOp.maxPriorityFeePerGas, q.userOp.maxFeePerGas);
    PackInjective(p.verificationGasLimit, p.postOpGasLimit, q.verificationGasLimit, q.postOpGasLimit);
  }

  /** keccak collides on the preimages of `p` and `q`, or on one of their two hashed fields. */
  predicate Collide(keccak: Keccak, p: PaymasterHashParams, q: PaymasterHashParams)
    requires ComputePaymasterHash(keccak, p).Ok? && ComputePaymasterHash(keccak, q).Ok?
  {
    || Collision(keccak, PaymasterPreimage(keccak, p).value, PaymasterPreimage(keccak, q).value)
    || Collision(keccak, p.userOp.initCode, q.userOp.initCode)
    || Collision(keccak, p.userOp.callData, q.userOp.callData)
  }

  /**
   * Equal digests mean equal operations, limits, chain, paymaster and window, unless keccak itself
   * collides on one of three named pairs.
   */
  lemma EqualDigestsEqualSponsorships(keccak: Keccak, p: PaymasterHashParams, q: PaymasterHashParams)
    requires LimitsFit(p) && LimitsFit(q)
    requires ComputePaymasterHash(keccak, p).Ok?
    requires ComputePaymasterHash(keccak, p) == ComputePaymasterHash(keccak, q)
    ensures p == q || Collide(keccak, p, q)
  {
    if PaymasterPreimage(keccak, p) == PaymasterPreimage(keccak, q) {
      PreimageInjective(keccak, p, q);
    }
  }

  /** The digest of `p` is that of no other in-range sponsorship, collisions of keccak apart. */
  ghost predicate Unambiguous(keccak: Keccak, p: PaymasterHashParams)
    requires ComputePaymasterHash(keccak, p).Ok?
  {
    forall q :: LimitsFit(q) && ComputePaymasterHash(keccak, q) == ComputePaymasterHash(keccak, p) ==>
      q == p || Collide(keccak, p, q)
  }

  /**
   * The helper range-checks its `(v << 128) | post` as one uint256 only, so a pair of limits that does not fit
   * reads as the in-range pair with the same 256 bits.
   */
  lemma OversizedLimitsAlias(keccak: Keccak, p: PaymasterHashParams) returns (q: PaymasterHashParams)
    requires ComputePaymasterHash(keccak, p).Ok? && !LimitsFit(p)
    ensures LimitsFit(q) && q != p && PaymasterPreimage(keccak, q) == PaymasterPreimage(keccak, p)
    ensures q == p.(verificationGasLimit := q.verificationGasLimit, postOpGasLimit := q.postOpGasLimit)
  {
    hide ToBytes, FromBytes, BitOr, Shl128, AbiEncode, PackAccountGasLimits, PackGasFees;
    var n := BitOr(Shl128(p.verificationGasLimit), p.postOpGasLimit);
    PackSurjective(ToBytes(n, 32));
    var high: nat, low: nat :| PackHighLow128(high, low) == Ok(ToBytes(n, 32));
    PackIsTwoHalves(high, low);
    WordHoldsUint(n);
    WordHoldsUint(BitOr(Shl128(high), low));
    q := p.(verificationGasLimit := high, postOpGasLimit := low);
    assert BitOr(Shl128(high), low) == n;
  }

  /** The exact condition: a digest is unambiguous if and only if its own limits are uint128s. */
  lemma UnambiguousIffLimitsFit(keccak: Keccak, p: PaymasterHashParams)
    requires ComputePaymasterHash(keccak, p).Ok?
    ensures Unambiguous(keccak, p) <==> LimitsFit(p)
  {
    hide ComputePaymasterHash, PaymasterPreimage, LimitsFit;
    if LimitsFit(p) {
      forall q | LimitsFit(q) && ComputePaymasterHash(keccak, q) == ComputePaymasterHash(keccak, p)
        ensures q == p || Collide(keccak, p, q)
      {
        EqualDigestsEqualSponsorships(keccak, p, q);
      }
    } else {
      var q := OversizedLimitsAlias(keccak, p);
      SamePreimageSameDigest(keccak, p, q);
    }
  }

  lemma SamePreimageSameDigest(keccak: Keccak, p: PaymasterHashParams, q: PaymasterHashParams)
    requires PaymasterPreimage(keccak, q) == PaymasterPreimage(keccak, p)
    ensures ComputePaymasterHash(keccak, q) == ComputePaymasterHash(keccak, p)
  {
    hide PaymasterPreimage;
  }
}
