/** Sponsor, persist, rebuild, validate: paymaster-signing.service.ts joined to the contract through the row. */
module Sponsorship {
  import opened Wrappers
  import opened Numbers
  import opened Schema
  import opened Packing
  import opened OnChain

  type SignDigest = Bytes32 -> Bytes

  datatype SigningConfig = SigningConfig(
    paymaster: Address,
    entryPoint: Address,
    chainId: nat,
    verificationGasLimit: nat,
    postOpGasLimit: nat,
    validSeconds: nat)

  datatype Signed = Signed(paymasterAndData: Bytes, userOpHash: Bytes32, validUntil: nat, validAfter: nat)

  function Ascii(s: string): (b: Bytes)
    requires forall i :: 0 <= i < |s| ==> s[i] as int < 128
    ensures |b| == |s| && forall i :: 0 <= i < |s| ==> b[i] == s[i] as int
  {
    seq(|s|, i requires 0 <= i < |s| => s[i] as int)
  }

  const ETHEREUM_SIGNED_MESSAGE: string := "\U{19}Ethereum Signed Message:\n"

  /** viem's `hashMessage({ raw })`: the prefix carries the byte length in decimal. */
  function HashMessage(keccak: Keccak, raw: Bytes): Bytes32 {
    DecimalIsAscii(|raw|);
    keccak(Ascii(ETHEREUM_SIGNED_MESSAGE) + Ascii(Decimal(|raw|)) + raw)
  }

  lemma DecimalIsAscii(n: nat)
    ensures forall i :: 0 <= i < |Decimal(n)| ==> Decimal(n)[i] as int < 128
  {
    assert forall i :: 0 <= i < |Decimal(n)| ==> IsDigit(Decimal(n)[i], 10);
  }

  function HashParams(cfg: SigningConfig, now: nat, op: LooseUserOp): PaymasterHashParams {
    PaymasterHashParams(op, cfg.paymaster, cfg.verificationGasLimit, cfg.postOpGasLimit,
                        cfg.chainId, now + cfg.validSeconds, 0)
  }

  /** `sign`: digest, signature, header, window, and the op's own hash. `now` is the clock in whole seconds. */
  function Sign(keccak: Keccak, signDigest: SignDigest, cfg: SigningConfig, now: nat, op: LooseUserOp)
    : Result<Signed, Error>
  {
    var validAfter := 0;
    var validUntil := now + cfg.validSeconds;
    var digest :- ComputePaymasterHash(keccak, HashParams(cfg, now, op));
    var signature := signDigest(HashMessage(keccak, digest));
    var header :- BuildPaymasterAndDataHeader(cfg.paymaster, cfg.verificationGasLimit, cfg.postOpGasLimit);
    var until :- EncodeUint(validUntil, UINT48_MAX);
    var after :- EncodeUint(validAfter, UINT48_MAX);
    var paymasterAndData := header + AbiEncode([until, after]) + signature;
    var userOpHash :- ComputeUserOpHash(keccak, op, paymasterAndData, cfg.entryPoint, cfg.chainId);
    Ok(Signed(paymasterAndData, userOpHash, validUntil, validAfter))
  }

  /** The request body of POST /paymaster/sponsor, amounts still as the strings the client sent. */
  datatype SponsorDto = SponsorDto(
    sender: Address,
    nonce: string,
    initCode: Bytes,
    callData: Bytes,
    callGasLimit: string,
    verificationGasLimit: string,
    preVerificationGas: string,
    maxFeePerGas: string,
    maxPriorityFeePerGas: string)

  predicate NonNegative(op: LooseUserOp) {
    && op.nonce >= 0 && op.callGasLimit >= 0 && op.verificationGasLimit >= 0 && op.preVerificationGas >= 0
    && op.maxFeePerGas >= 0 && op.maxPriorityFeePerGas >= 0
  }

  function ParseDto(dto: SponsorDto): (r: Result<LooseUserOp, Error>)
    ensures r.Ok? ==> NonNegative(r.value)
  {
    var nonce :- ReadColumn(dto.nonce);
    var callGasLimit :- ReadColumn(dto.callGasLimit);
    var verificationGasLimit :- ReadColumn(dto.verificationGasLimit);
    var preVerificationGas :- ReadColumn(dto.preVerificationGas);
    var maxFeePerGas :- ReadColumn(dto.maxFeePerGas);
    var maxPriorityFeePerGas :- ReadColumn(dto.maxPriorityFeePerGas);
    Ok(LooseUserOp(dto.sender, nonce, dto.initCode, dto.callData, callGasLimit, verificationGasLimit,
                   preVerificationGas, maxFeePerGas, maxPriorityFeePerGas))
  }

  /** The row `sponsor` inserts: amounts printed back in decimal. */
  function StoredColumns(cfg: SigningConfig, op: LooseUserOp, paymasterAndData: Bytes): SponsoredOp
    requires NonNegative(op)
  {
    SponsoredOp(cfg.chainId, cfg.entryPoint, op.sender, Decimal(op.nonce), op.initCode, op.callData,
                Decimal(op.callGasLimit), Decimal(op.verificationGasLimit), Decimal(op.preVerificationGas),
                Decimal(op.maxFeePerGas), Decimal(op.maxPriorityFeePerGas), paymasterAndData)
  }

  datatype Sponsored = Sponsored(row: SponsoredOp, signed: Signed, op: LooseUserOp)

  /** The request path of `sponsor` after policy and quota: parse, sign, build the row. */
  function SponsorRow(keccak: Keccak, signDigest: SignDigest, cfg: SigningConfig, now: nat, dto: SponsorDto)
    : Result<Sponsored, Error>
  {
    var op :- ParseDto(dto);
    var signed :- Sign(keccak, signDigest, cfg, now, op);
    Ok(Sponsored(StoredColumns(cfg, op, signed.paymasterAndData), signed, op))
  }

  // ----- when signing succeeds

  predicate InRange(cfg: SigningConfig, now: nat, op: LooseUserOp) {
    LooseInRange(op) && ConfigFits(cfg, now)
  }

  predicate ConfigFits(cfg: SigningConfig, now: nat) {
    && FitsUint(cfg.verificationGasLimit, UINT128_MAX) && FitsUint(cfg.postOpGasLimit, UINT128_MAX)
    && FitsUint(cfg.chainId, UINT256_MAX) && FitsUint(now + cfg.validSeconds, UINT48_MAX)
  }

  /** Every value of the operation fits its Solidity type. */
  predicate LooseInRange(op: LooseUserOp) {
    && FitsUint(op.nonce, UINT256_MAX) && FitsUint(op.preVerificationGas, UINT256_MAX)
    && FitsUint(op.callGasLimit, UINT128_MAX) && FitsUint(op.verificationGasLimit, UINT128_MAX)
    && FitsUint(op.maxFeePerGas, UINT128_MAX) && FitsUint(op.maxPriorityFeePerGas, UINT128_MAX)
  }

  lemma LooseInRangeIff(op: LooseUserOp)
    ensures LooseInRange(op) <==> && PackAccountGasLimits(op).Ok? && PackGasFees(op).Ok?
                                  && EncodeUint(op.nonce, UINT256_MAX).Ok?
                                  && EncodeUint(op.preVerificationGas, UINT256_MAX).Ok?
  {
  }

  lemma WordsOkIff(keccak: Keccak, p: PaymasterHashParams)
    ensures ComputePaymasterHash(keccak, p).Ok?
       <==> && LooseInRange(p.userOp) && FitsUint(BitOr(Shl128(p.verificationGasLimit), p.postOpGasLimit), UINT256_MAX)
            && FitsUint(p.chainId, UINT256_MAX) && FitsUint(p.validUntil, UINT48_MAX)
            && FitsUint(p.validAfter, UINT48_MAX)
  {
    LooseInRangeIff(p.userOp);
    hide PackAccountGasLimits, PackGasFees, BitOr, Shl128;
  }

  lemma UserOpHashOkIff(keccak: Keccak, op: LooseUserOp, data: Bytes, entryPoint: Address, chainId: nat)
    ensures ComputeUserOpHash(keccak, op, data, entryPoint, chainId).Ok?
        <==> LooseInRange(op) && FitsUint(chainId, UINT256_MAX)
  {
    LooseInRangeIff(op);
    hide PackAccountGasLimits, PackGasFees;
  }

  /** Signing goes through exactly when every value fits its Solidity type. */
  lemma SignSucceedsIffInRange(keccak: Keccak, signDigest: SignDigest, cfg: SigningConfig, now: nat, op: LooseUserOp)
    ensures Sign(keccak, signDigest, cfg, now, op).Ok? <==> InRange(cfg, now, op)
  {
    PackIsTwoHalves(cfg.verificationGasLimit, cfg.postOpGasLimit);
    WordsOkIff(keccak, HashParams(cfg, now, op));
    forall data {
      UserOpHashOkIff(keccak, op, data, cfg.entryPoint, cfg.chainId);
    }
    hide ComputePaymasterHash, ComputeUserOpHash, PackHighLow128, BitOr, Shl128, HashMessage, AbiEncode;
  }

  /** The string is a numeral of a number no larger than `max`. */
  ghost predicate AmountFits(s: string, max: nat) {
    exists n: nat :: Denotes(s, n) && n <= max
  }

  /** Every amount of the request is a numeral, and every value fits its Solidity type. */
  ghost predicate Sponsorable(cfg: SigningConfig, now: nat, dto: SponsorDto) {
    && AmountFits(dto.nonce, UINT256_MAX) && AmountFits(dto.preVerificationGas, UINT256_MAX)
    && AmountFits(dto.callGasLimit, UINT128_MAX) && AmountFits(dto.verificationGasLimit, UINT128_MAX)
    && AmountFits(dto.maxFeePerGas, UINT128_MAX) && AmountFits(dto.maxPriorityFeePerGas, UINT128_MAX)
    && ConfigFits(cfg, now)
  }

  lemma ColumnReads(s: string, n: nat)
    ensures ReadColumn(s) == Ok(n) <==> Denotes(s, n)
  {
    hide Denotes;
    BigIntReadsNumerals(s, n);
  }

  lemma AmountFitsIff(s: string, max: nat)
    ensures AmountFits(s, max) <==> ReadColumn(s).Ok? && ReadColumn(s).value <= max
  {
    hide Denotes, BigInt;
    if ReadColumn(s).Ok? {
      ColumnReads(s, ReadColumn(s).value);
    }
    if n: nat :| Denotes(s, n) && n <= max {
      ColumnReads(s, n);
    }
  }

  lemma SponsorableIff(cfg: SigningConfig, now: nat, dto: SponsorDto)
    ensures Sponsorable(cfg, now, dto) <==> ParseDto(dto).Ok? && InRange(cfg, now, ParseDto(dto).value)
  {
    hide ReadColumn, AmountFits, ConfigFits;
    AmountFitsIff(dto.nonce, UINT256_MAX);
    AmountFitsIff(dto.preVerificationGas, UINT256_MAX);
    AmountFitsIff(dto.callGasLimit, UINT128_MAX);
    AmountFitsIff(dto.verificationGasLimit, UINT128_MAX);
    AmountFitsIff(dto.maxFeePerGas, UINT128_MAX);
    AmountFitsIff(dto.maxPriorityFeePerGas, UINT128_MAX);
  }

  /** Once policy and quota let it through, a request is granted exactly when it is sponsorable. */
  lemma SponsorSucceedsIffSponsorable(keccak: Keccak, signDigest: SignDigest, cfg: SigningConfig, now: nat,
                                      dto: SponsorDto)
    ensures SponsorRow(keccak, signDigest, cfg, now, dto).Ok? <==> Sponsorable(cfg, now, dto)
  {
    hide InRange, Sign, ParseDto, Sponsorable;
    SponsorableIff(cfg, now, dto);
    if ParseDto(dto).Ok? {
      SignSucceedsIffInRange(keccak, signDigest, cfg, now, ParseDto(dto).value);
    }
  }

  // ----- the row is the request

  ghost predicate SameNumber(a: string, b: string) {
    exists n: nat :: Denotes(a, n) && Denotes(b, n)
  }

  /** Column by column what the client asked for, each amount the number its own string denotes. */
  ghost predicate RowIsRequest(dto: SponsorDto, row: SponsoredOp) {
    && row.sender == dto.sender && row.initCode == dto.initCode && row.callData == dto.callData
    && SameNumber(row.nonce, dto.nonce) && SameNumber(row.preVerificationGas, dto.preVerificationGas)
    && SameNumber(row.callGasLimit, dto.callGasLimit)
    && SameNumber(row.verificationGasLimit, dto.verificationGasLimit)
    && SameNumber(row.opMaxFeePerGas, dto.maxFeePerGas)
    && SameNumber(row.opMaxPriorityFeePerGas, dto.maxPriorityFeePerGas)
  }

  /** Field by field what the client asked for; verification gas and priority fee are the high halves of their words. */
  ghost predicate StructIsRequest(dto: SponsorDto, op: PackedUserOp) {
    && op.sender == dto.sender && op.initCode == dto.initCode && op.callData == dto.callData
    && Denotes(dto.nonce, op.nonce) && Denotes(dto.preVerificationGas, op.preVerificationGas)
    && Denotes(dto.verificationGasLimit, FromBytes(op.accountGasLimits[..16]))
    && Denotes(dto.callGasLimit, FromBytes(op.accountGasLimits[16..]))
    && Denotes(dto.maxPriorityFeePerGas, FromBytes(op.gasFees[..16]))
    && Denotes(dto.maxFeePerGas, FromBytes(op.gasFees[16..]))
  }

  lemma StoredAmount(s: string)
    requires ReadColumn(s).Ok?
    ensures Denotes(s, ReadColumn(s).value) && SameNumber(Decimal(ReadColumn(s).value), s)
  {
    hide Denotes, BigInt, Decimal;
    var n := ReadColumn(s).value;
    ColumnReads(s, n);
    DecimalRoundTrip(n);
    BigIntReadsNumerals(Decimal(n), n);
  }

  /** What `sponsor` stores is the request, under the configured chain and EntryPoint, valid from 0 for validSeconds. */
  lemma SponsoredRowIsRequest(keccak: Keccak, signDigest: SignDigest, cfg: SigningConfig, now: nat, dto: SponsorDto)
    requires SponsorRow(keccak, signDigest, cfg, now, dto).Ok?
    ensures var s := SponsorRow(keccak, signDigest, cfg, now, dto).value;
            && RowIsRequest(dto, s.row) && s.row.paymasterAndData == s.signed.paymasterAndData
            && s.row.chainId == cfg.chainId && s.row.entryPoint == cfg.entryPoint
            && s.signed.validAfter == 0 && s.signed.validUntil == now + cfg.validSeconds
  {
    hide ReadColumn, SameNumber, Decimal, ComputePaymasterHash, ComputeUserOpHash, BuildPaymasterAndDataHeader,
         HashMessage, AbiEncode;
    StoredAmount(dto.nonce);
    StoredAmount(dto.preVerificationGas);
    StoredAmount(dto.callGasLimit);
    StoredAmount(dto.verificationGasLimit);
    StoredAmount(dto.maxFeePerGas);
    StoredAmount(dto.maxPriorityFeePerGas);
  }

  /** The two halves of a packed word read back. */
  lemma HalvesReadBack(high: nat, low: nat)
    requires PackHighLow128(high, low).Ok?
    ensures var w := PackHighLow128(high, low).value; FromBytes(w[..16]) == high && FromBytes(w[16..]) == low
  {
    hide FromBytes, ToBytes, Pow;
    PackIsTwoHalves(high, low);
    Widths();
    FromToBytes(high, 16);
    FromToBytes(low, 16);
  }

  // ----- layout of paymasterAndData

  /**
   * Header 52 bytes, window 64 bytes, then the signature: the contract's parser inverts the assembly, and
   * the bytes it re-reads as the packed gas limits are the integer that was hashed.
   */
  lemma ParseInvertsAssembly(paymaster: Address, verificationGasLimit: nat, postOpGasLimit: nat,
                             validUntil: nat, validAfter: nat, signature: Bytes)
    requires FitsUint(verificationGasLimit, UINT128_MAX) && FitsUint(postOpGasLimit, UINT128_MAX)
    requires FitsUint(validUntil, UINT48_MAX) && FitsUint(validAfter, UINT48_MAX)
    ensures var header := BuildPaymasterAndDataHeader(paymaster, verificationGasLimit, postOpGasLimit);
            && header.Ok? && |header.value| == 52
            && var data := header.value + AbiEncode([Uint256Word(validUntil), Uint256Word(validAfter)]) + signature;
            && data[..20] == paymaster
            && FromBytes(data[20..52]) == BitOr(Shl128(verificationGasLimit), postOpGasLimit)
            && FromBytes(data[20..36]) == verificationGasLimit && FromBytes(data[36..52]) == postOpGasLimit
            && ParsePaymasterAndData(data) == Ok(ParsedData(validUntil, validAfter, signature))
  {
    hide BitOr, Shl128, FromBytes, ToBytes, PackHighLow128;
    PackIsTwoHalves(verificationGasLimit, postOpGasLimit);
    var limits := PackHighLow128(verificationGasLimit, postOpGasLimit).value;
    var w, x := Uint256Word(validUntil), Uint256Word(validAfter);
    WindowIsTwoWords(w, x);
    SlicesOfLayout(paymaster, limits, w, x, signature);
    PackedReadsBack(verificationGasLimit, postOpGasLimit);
    Widths();
    FromToBytes(verificationGasLimit, 16);
    FromToBytes(postOpGasLimit, 16);
    WordHoldsUint(validUntil);
    WordHoldsUint(validAfter);
  }

  lemma PackedReadsBack(high: nat, low: nat)
    requires PackHighLow128(high, low).Ok?
    ensures FromBytes(PackHighLow128(high, low).value) == BitOr(Shl128(high), low)
  {
    PackIsTwoHalves(high, low);
    hide BitOr, Shl128, FromBytes, ToBytes;
    WordHoldsUint(BitOr(Shl128(high), low));
  }

  lemma SlicesOfLayout(a: Bytes, limits: Bytes, w: Bytes, x: Bytes, s: Bytes)
    requires |a| == 20 && |limits| == |w| == |x| == 32
    ensures var d := a + limits + (w + x) + s;
            && d[..20] == a && d[20..52] == limits && d[52..84] == w && d[84..116] == x && d[116..] == s
            && d[20..36] == limits[..16] && d[36..52] == limits[16..]
  {
  }

  lemma WindowIsTwoWords(w: Bytes32, x: Bytes32)
    ensures AbiEncode([w, x]) == w + x
  {
    assert [w, x][1..] == [x];
    assert AbiEncode([x]) == x + AbiEncode([]) == x;
  }

  // ----- the database round trip

  /** Reading the stored row back yields the very struct the off-chain words describe. */
  lemma RebuildReadsBack(cfg: SigningConfig, op: LooseUserOp, data: Bytes, signature: Bytes)
    requires FitsUint(op.nonce, UINT256_MAX) && FitsUint(op.preVerificationGas, UINT256_MAX)
    requires PackAccountGasLimits(op).Ok? && PackGasFees(op).Ok?
    ensures BuildPackedUserOp(StoredColumns(cfg, op, data), signature)
         == Ok(PackedUserOp(op.sender, op.nonce, op.initCode, op.callData, PackAccountGasLimits(op).value,
                            op.preVerificationGas, PackGasFees(op).value, data, signature))
  {
    DecimalRoundTrip(op.nonce);
    DecimalRoundTrip(op.callGasLimit);
    DecimalRoundTrip(op.verificationGasLimit);
    DecimalRoundTrip(op.preVerificationGas);
    DecimalRoundTrip(op.maxFeePerGas);
    DecimalRoundTrip(op.maxPriorityFeePerGas);
  }

  /** The struct rebuilt from the row of a granted request is what the client asked for. */
  lemma RebuiltIsRequest(cfg: SigningConfig, dto: SponsorDto, data: Bytes, signature: Bytes)
    requires ParseDto(dto).Ok? && LooseInRange(ParseDto(dto).value)
    ensures var built := BuildPackedUserOp(StoredColumns(cfg, ParseDto(dto).value, data), signature);
            built.Ok? && StructIsRequest(dto, built.value)
  {
    hide ReadColumn, Denotes, FromBytes, BuildPackedUserOp, PackHighLow128, StoredColumns;
    var op := ParseDto(dto).value;
    LooseInRangeIff(op);
    RebuildReadsBack(cfg, op, data, signature);
    HalvesReadBack(op.verificationGasLimit, op.callGasLimit);
    HalvesReadBack(op.maxPriorityFeePerGas, op.maxFeePerGas);
    ColumnReads(dto.nonce, op.nonce);
    ColumnReads(dto.preVerificationGas, op.preVerificationGas);
    ColumnReads(dto.callGasLimit, op.callGasLimit);
    ColumnReads(dto.verificationGasLimit, op.verificationGasLimit);
    ColumnReads(dto.maxFeePerGas, op.maxFeePerGas);
    ColumnReads(dto.maxPriorityFeePerGas, op.maxPriorityFeePerGas);
  }

  /** EntryPoint's identity of a packed operation (ERC-4337, "EntryPoint definition"). */
  function EntryPointUserOpHash(keccak: Keccak, op: PackedUserOp, entryPoint: Address, chainId: nat): Bytes32 {
    var inner := AbiEncode([EncodeAddress(op.sender), Uint256Word(op.nonce), keccak(op.initCode), keccak(op.callData),
                            op.accountGasLimits, Uint256Word(op.preVerificationGas), op.gasFees,
                            keccak(op.paymasterAndData)]);
    keccak(AbiEncode([keccak(inner), EncodeAddress(entryPoint), Uint256Word(chainId)]))
  }

  /**
   * Sponsor, persist, rebuild: for every request that is granted, the struct rebuilt from its row is what was
   * asked for, and hashes on chain to the digest the backend signed and to the row's own userOpHash, whatever
   * account signature it carries.
   */
  lemma SponsoredOpRebuilds(keccak: Keccak, signDigest: SignDigest, cfg: SigningConfig, now: nat, dto: SponsorDto,
                            signature: Bytes)
    requires Sponsorable(cfg, now, dto)
    ensures SponsorRow(keccak, signDigest, cfg, now, dto).Ok?
    ensures var s := SponsorRow(keccak, signDigest, cfg, now, dto).value;
            var built := BuildPackedUserOp(s.row, signature);
            && built.Ok? && built.value.signature == signature && StructIsRequest(dto, built.value)
            && built.value.paymasterAndData == s.signed.paymasterAndData
            && var words := GetHashWords(keccak, built.value, cfg.chainId, cfg.paymaster,
                                         s.signed.validUntil, s.signed.validAfter);
            && words.Ok? && PaymasterWords(keccak, HashParams(cfg, now, s.op)) == Ok(words.value)
            && EntryPointUserOpHash(keccak, built.value, s.row.entryPoint, s.row.chainId) == s.signed.userOpHash
  {
    hide BitOr, Shl128, HashMessage, AbiEncode, PackHighLow128, ParsePaymasterAndData, ParseDto,
         BuildPackedUserOp, FromBytes, ToBytes, Sponsorable, StructIsRequest;
    SponsorSucceedsIffSponsorable(keccak, signDigest, cfg, now, dto);
    SponsorableIff(cfg, now, dto);
    var s := SponsorRow(keccak, signDigest, cfg, now, dto).value;
    SignSucceedsIffInRange(keccak, signDigest, cfg, now, s.op);
    LooseInRangeIff(s.op);
    RebuildReadsBack(cfg, s.op, s.signed.paymasterAndData, signature);
    RebuiltIsRequest(cfg, dto, s.signed.paymasterAndData, signature);
    SignedDataParses(keccak, signDigest, cfg, now, s.op);
  }

  /** What the contract reads out of the signed data. */
  lemma SignedDataParses(keccak: Keccak, signDigest: SignDigest, cfg: SigningConfig, now: nat, op: LooseUserOp)
    requires Sign(keccak, signDigest, cfg, now, op).Ok?
    ensures var signed := Sign(keccak, signDigest, cfg, now, op).value;
            var data := signed.paymasterAndData;
            && |data| >= 116
            && Uint256Word(FromBytes(data[20..52]))
               == Uint256Word(BitOr(Shl128(cfg.verificationGasLimit), cfg.postOpGasLimit))
            && ParsePaymasterAndData(data)
               == Ok(ParsedData(signed.validUntil, signed.validAfter,
                                signDigest(HashMessage(keccak,
                                                       ComputePaymasterHash(keccak, HashParams(cfg, now, op)).value))))
  {
    hide BitOr, Shl128, HashMessage, AbiEncode, ComputePaymasterHash, ComputeUserOpHash, PackHighLow128,
         ParsePaymasterAndData, FromBytes, ToBytes;
    SignSucceedsIffInRange(keccak, signDigest, cfg, now, op);
    var digest := ComputePaymasterHash(keccak, HashParams(cfg, now, op)).value;
    ParseInvertsAssembly(cfg.paymaster, cfg.verificationGasLimit, cfg.postOpGasLimit, now + cfg.validSeconds, 0,
                         signDigest(HashMessage(keccak, digest)));
  }

  /** The two EIP-191 prefixings agree on 32-byte messages. */
  lemma PrefixesAgree(keccak: Keccak, digest: Bytes32)
    ensures HashMessage(keccak, digest) == ToEthSignedMessageHash(keccak, digest)
  {
    DecimalOf32();
    PrefixBytes();
    hide Ascii, Decimal;
  }

  lemma DecimalOf32()
    ensures Decimal(32) == "32"
  {
    assert Decimal(3) == "3";
  }

  lemma PrefixBytes()
    ensures Ascii(ETHEREUM_SIGNED_MESSAGE) + Ascii("32") == EIP191_PREFIX_32
  {
    hide Ascii;
    var prefix := EIP191_PREFIX_32;
    assert Ascii(ETHEREUM_SIGNED_MESSAGE) == prefix[..26];
    assert Ascii("32") == prefix[26..];
  }

  lemma ValidatesSigned(keccak: Keccak, signDigest: SignDigest, recover: Recover, backend: Address,
                        cfg: SigningConfig, now: nat, dto: SponsorDto, signature: Bytes,
                        initial: Address, history: seq<Rotation>)
    requires forall d: Bytes32 :: |signDigest(d)| in {64, 65} && recover(d, signDigest(d)) == Some(backend)
    requires Sponsorable(cfg, now, dto)
    ensures SponsorRow(keccak, signDigest, cfg, now, dto).Ok?
    ensures var s := SponsorRow(keccak, signDigest, cfg, now, dto).value;
            var built := BuildPackedUserOp(s.row, signature);
            && built.Ok?
            && ValidatePaymasterUserOp(keccak, recover, SignerAfter(initial, history), built.value,
                                       cfg.chainId, cfg.paymaster)
               == Ok(ValidationData(SignerAfter(initial, history) != backend, s.signed.validUntil, s.signed.validAfter))
  {
    hide BitOr, Shl128, HashMessage, AbiEncode, PaymasterWords, GetHashWords, ParsePaymasterAndData,
         ParseDto, BuildPackedUserOp, Sign, SignerAfter, ToEthSignedMessageHash, FromBytes, ToBytes,
         Sponsorable, StructIsRequest;
    SponsoredOpRebuilds(keccak, signDigest, cfg, now, dto, signature);
    var s := SponsorRow(keccak, signDigest, cfg, now, dto).value;
    SignedDataParses(keccak, signDigest, cfg, now, s.op);
    var digest := ComputePaymasterHash(keccak, HashParams(cfg, now, s.op)).value;
    PrefixesAgree(keccak, digest);
    var built := BuildPackedUserOp(s.row, signature).value;
    assert GetHash(keccak, built, cfg.chainId, cfg.paymaster, s.signed.validUntil, s.signed.validAfter) == Ok(digest);
    assert |signDigest(HashMessage(keccak, digest))| in {64, 65};
  }

  /**
   * Sign-then-validate: after any history of signer rotations, the contract at the configured address and
   * chain does not revert on the rebuilt operation, returns the window [0, now + validSeconds], and flags a
   * signature failure exactly when the address that signs is not the current signer.
   */
  lemma ValidateDecidesBySigner(keccak: Keccak, signDigest: SignDigest, recover: Recover, backend: Address,
                                cfg: SigningConfig, now: nat, dto: SponsorDto, signature: Bytes,
                                initial: Address, history: seq<Rotation>)
    requires forall d: Bytes32 :: |signDigest(d)| in {64, 65} && recover(d, signDigest(d)) == Some(backend)
    requires Sponsorable(cfg, now, dto)
    ensures SponsorRow(keccak, signDigest, cfg, now, dto).Ok?
    ensures var s := SponsorRow(keccak, signDigest, cfg, now, dto).value;
            var built := BuildPackedUserOp(s.row, signature);
            && built.Ok?
            && ValidatePaymasterUserOp(keccak, recover, SignerAfter(initial, history), built.value,
                                       cfg.chainId, cfg.paymaster)
               == Ok(ValidationData(SignerAfter(initial, history) != backend, now + cfg.validSeconds, 0))
  {
    hide Sponsorable, SponsorRow, ValidatePaymasterUserOp, BuildPackedUserOp, RowIsRequest;
    ValidatesSigned(keccak, signDigest, recover, backend, cfg, now, dto, signature, initial, history);
    SponsoredRowIsRequest(keccak, signDigest, cfg, now, dto);
  }

  // ----- tampering

  /** `op` has every value the digest over `p` covers, `initCode` and `callData` through their hashes. */
  predicate Covers(keccak: Keccak, p: PaymasterHashParams, op: PackedUserOp, chainId: nat, self: Address,
                   validUntil: nat, validAfter: nat)
  {
    && op.sender == p.userOp.sender && op.nonce == p.userOp.nonce
    && keccak(op.initCode) == keccak(p.userOp.initCode) && keccak(op.callData) == keccak(p.userOp.callData)
    && PackAccountGasLimits(p.userOp) == Ok(op.accountGasLimits) && PackGasFees(p.userOp) == Ok(op.gasFees)
    && op.preVerificationGas == p.userOp.preVerificationGas
    && |op.paymasterAndData| >= 52
    && FromBytes(op.paymasterAndData[20..52]) == BitOr(Shl128(p.verificationGasLimit), p.postOpGasLimit)
    && chainId == p.chainId && self == p.paymaster && validUntil == p.validUntil && validAfter == p.validAfter
  }

  /**
   * If the signer put its name to one digest only, an operation the contract accepts with that signature
   * has 180 or 181 bytes of paymaster data and carries exactly the values that were signed, or keccak collides
   * on one of two named pairs.
   */
  lemma AcceptedIsWhatWasSigned(keccak: Keccak, recover: Recover, signer: Address, p: PaymasterHashParams,
                                op: PackedUserOp, chainId: nat, self: Address)
    requires ComputePaymasterHash(keccak, p).Ok?
    requires FitsUint(op.nonce, UINT256_MAX) && FitsUint(op.preVerificationGas, UINT256_MAX)
        && FitsUint(chainId, UINT256_MAX)
    requires ParsePaymasterAndData(op.paymasterAndData).Ok?
    requires var signature := ParsePaymasterAndData(op.paymasterAndData).value.signature;
             forall h: Bytes32 :: recover(h, signature) == Some(signer)
                              ==> h == HashMessage(keccak, ComputePaymasterHash(keccak, p).value)
    requires var v := ValidatePaymasterUserOp(keccak, recover, signer, op, chainId, self);
             v.Ok? && !v.value.sigFailed
    ensures |op.paymasterAndData| in {180, 181}
    ensures var parsed := ParsePaymasterAndData(op.paymasterAndData).value;
            var inner := GetHash(keccak, op, chainId, self, parsed.validUntil, parsed.validAfter);
            var words := GetHashWords(keccak, op, chainId, self, parsed.validUntil, parsed.validAfter);
            && inner.Ok? && words.Ok?
            && (|| Covers(keccak, p, op, chainId, self, parsed.validUntil, parsed.validAfter)
                || Collision(keccak, EIP191_PREFIX_32 + inner.value,
                             EIP191_PREFIX_32 + ComputePaymasterHash(keccak, p).value)
                || Collision(keccak, AbiEncode(words.value), PaymasterPreimage(keccak, p).value))
  {
    hide BitOr, Shl128, HashMessage, AbiEncode, PaymasterWords, FromBytes, ToBytes, PackHighLow128;
    var parsed := ParsePaymasterAndData(op.paymasterAndData).value;
    var inner := GetHash(keccak, op, chainId, self, parsed.validUntil, parsed.validAfter).value;
    var words := GetHashWords(keccak, op, chainId, self, parsed.validUntil, parsed.validAfter).value;
    var digest := ComputePaymasterHash(keccak, p).value;
    PrefixesAgree(keccak, digest);
    assert ToEthSignedMessageHash(keccak, inner) == ToEthSignedMessageHash(keccak, digest);
    var a, b := EIP191_PREFIX_32 + inner, EIP191_PREFIX_32 + digest;
    if a == b {
      assert a[28..] == inner && b[28..] == digest;
      if AbiEncode(words) == PaymasterPreimage(keccak, p).value {
        AbiEncodeInjective(words, PaymasterWords(keccak, p).value);
        SameWordsCover(keccak, p, op, chainId, self, parsed.validUntil, parsed.validAfter);
      }
    }
  }

  lemma SameWordsCover(keccak: Keccak, p: PaymasterHashParams, op: PackedUserOp, chainId: nat, self: Address,
                       validUntil: nat, validAfter: nat)
    requires FitsUint(op.nonce, UINT256_MAX) && FitsUint(op.preVerificationGas, UINT256_MAX)
        && FitsUint(chainId, UINT256_MAX)
    requires FitsUint(validUntil, UINT48_MAX) && FitsUint(validAfter, UINT48_MAX)
    requires var words := GetHashWords(keccak, op, chainId, self, validUntil, validAfter);
             words.Ok? && PaymasterWords(keccak, p) == Ok(words.value)
    ensures Covers(keccak, p, op, chainId, self, validUntil, validAfter)
  {
    hide BitOr, Shl128, FromBytes, ToBytes, PackHighLow128;
    var v, w := GetHashWords(keccak, op, chainId, self, validUntil, validAfter).value, PaymasterWords(keccak, p).value;
    assert v[0] == w[0] && v[1] == w[1] && v[2] == w[2] && v[3] == w[3] && v[4] == w[4] && v[5] == w[5];
    assert v[6] == w[6] && v[7] == w[7] && v[8] == w[8] && v[9] == w[9] && v[10] == w[10] && v[11] == w[11];
    AddressWordInjective(op.sender, p.userOp.sender);
    AddressWordInjective(self, p.paymaster);
    EncodeUintInjective(p.userOp.nonce, op.nonce, UINT256_MAX);
    EncodeUintInjective(p.userOp.preVerificationGas, op.preVerificationGas, UINT256_MAX);
    EncodeUintInjective(p.chainId, chainId, UINT256_MAX);
    EncodeUintInjective(p.validUntil, validUntil, UINT48_MAX);
    EncodeUintInjective(p.validAfter, validAfter, UINT48_MAX);
    var limits := FromBytes(op.paymasterAndData[20..52]);
    WordIsUint(op.paymasterAndData[20..52]);
    EncodeUintInjective(BitOr(Shl128(p.verificationGasLimit), p.postOpGasLimit), limits, UINT256_MAX);
  }
}
