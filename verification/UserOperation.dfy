/** The v0.7 user operation, its on-chain packed form, its hash and its replacement id. */
module UserOperations {
  import opened Base
  import opened BigEndian
  import opened Gas

  /** Replacement key of an operation. The nonce is two-dimensional: 192-bit key, 64-bit sequence. */
  datatype UserOperationId = UserOperationId(sender: Address, nonce: uint256) {
    function NonceKey(): nat { nonce / U64_LIMIT }
    function NonceSequence(): nat { nonce % U64_LIMIT }
  }

  function JoinNonce(key: nat, sequence: nat): nat {
    key * U64_LIMIT + sequence
  }

  datatype PackedUserOperation = PackedUserOperation(
    sender: Address,
    nonce: uint256,
    initCode: Bytes,
    callData: Bytes,
    accountGasLimits: Bytes32,
    preVerificationGas: uint256,
    gasFees: Bytes32,
    paymasterAndData: Bytes,
    signature: Bytes)

  /** ABI encoding and keccak256, left arbitrary: every statement holds for any such pair. */
  datatype Hasher = Hasher(abiEncode: PackedUserOperation -> Bytes, keccak: Bytes -> B256)

  datatype UserOperation = UserOperation(
    sender: Address,
    nonce: uint256,
    callData: Bytes,
    callGasLimit: uint128,
    verificationGasLimit: uint128,
    preVerificationGas: uint128,
    maxFeePerGas: uint128,
    maxPriorityFeePerGas: uint128,
    signature: Bytes,
    factory: Option<Address>,
    factoryData: Bytes,
    paymaster: Option<Address>,
    paymasterVerificationGasLimit: uint128,
    paymasterPostOpGasLimit: uint128,
    paymasterData: Bytes,
    entryPoint: Address,
    chainId: uint64,
    cachedHash: Option<B256>)
  {
    function Id(): UserOperationId {
      UserOperationId(sender, nonce)
    }

    function Fees(): GasFees {
      GasFees(maxFeePerGas, maxPriorityFeePerGas)
    }

    function TotalGasLimit(): nat {
      preVerificationGas + verificationGasLimit + callGasLimit
      + paymasterVerificationGasLimit + paymasterPostOpGasLimit
    }

    function Pack(): PackedUserOperation {
      PackedUserOperation(
        sender,
        nonce,
        match factory { case Some(f) => f + factoryData case None => [] },
        callData,
        PackPair(verificationGasLimit, callGasLimit),
        preVerificationGas,
        PackPair(maxPriorityFeePerGas, maxFeePerGas),
        match paymaster {
          case Some(p) =>
            p + ToBytes(paymasterVerificationGasLimit, 16)
            + ToBytes(paymasterPostOpGasLimit, 16) + paymasterData
          case None => []
        },
        signature)
    }

    /** What is encoded: the packed form with a blank signature. */
    function HashedForm(): PackedUserOperation {
      Pack().(signature := [])
    }

    /** The outer hash input: the inner digest, then entry point and chain id. */
    function HashInput(h: Hasher): Bytes {
      ToBytes(h.keccak(h.abiEncode(HashedForm())), 32) + entryPoint + ToBytes(chainId, 32)
    }

    function ComputeHash(h: Hasher): B256 {
      h.keccak(HashInput(h))
    }

    /** `hash()`: the cached digest when there is one. */
    function Hash(h: Hasher): B256 {
      match cachedHash
      case Some(d) => d
      case None => ComputeHash(h)
    }

    /** A cached digest, if any, is the digest of the current fields. */
    predicate CacheFresh(h: Hasher) {
      Hash(h) == ComputeHash(h)
    }

    /** `set_context`, as the updated value. */
    function SetContext(h: Hasher, entryPoint': Address, chainId': uint64): UserOperation {
      var uo := this.(entryPoint := entryPoint', chainId := chainId');
      uo.(cachedHash := Some(uo.ComputeHash(h)))
    }

    /** Nothing is stored beside an absent factory or paymaster. */
    predicate Canonical() {
      && (factory.None? ==> factoryData == [])
      && (paymaster.None? ==>
            && paymasterData == []
            && paymasterVerificationGasLimit == 0
            && paymasterPostOpGasLimit == 0)
    }

    /** Equality of every field but the cached digest. */
    predicate SameFields(other: UserOperation) {
      this.(cachedHash := None) == other.(cachedHash := None)
    }
  }

  function PackPair(high: uint128, low: uint128): Bytes32 {
    ToBytes(high, 16) + ToBytes(low, 16)
  }

  function UnpackPair(b: Bytes32): (uint128, uint128) {
    BytesUint128(b[..16]);
    BytesUint128(b[16..]);
    (FromBytes(b[..16]), FromBytes(b[16..]))
  }

  function UnpackFactory(initCode: Bytes): (Option<Address>, Bytes) {
    if |initCode| >= 20 then (Some(initCode[..20]), initCode[20..]) else (None, [])
  }

  function UnpackPaymaster(data: Bytes): (Option<Address>, uint128, uint128, Bytes) {
    if |data| >= 52 then
      BytesUint128(data[20..36]);
      BytesUint128(data[36..52]);
      (Some(data[..20]), FromBytes(data[20..36]), FromBytes(data[36..52]), data[52..])
    else
      (None, 0, 0, [])
  }

  function Unpack(h: Hasher, p: PackedUserOperation, entryPoint: Address, chainId: uint64): UserOperation {
    var (verificationGasLimit, callGasLimit) := UnpackPair(p.accountGasLimits);
    var (maxPriorityFeePerGas, maxFeePerGas) := UnpackPair(p.gasFees);
    var (factory, factoryData) := UnpackFactory(p.initCode);
    var (paymaster, verificationGas, postOpGas, paymasterData) := UnpackPaymaster(p.paymasterAndData);
    var preVerificationGas: uint128 :=
      if p.preVerificationGas < U128_LIMIT then p.preVerificationGas else U128_LIMIT - 1;
    var uo := UserOperation(
                p.sender, p.nonce, p.callData, callGasLimit, verificationGasLimit, preVerificationGas,
                maxFeePerGas, maxPriorityFeePerGas, p.signature, factory, factoryData, paymaster,
                verificationGas, postOpGas, paymasterData, entryPoint, chainId, None);
    uo.(cachedHash := Some(uo.ComputeHash(h)))
  }

  // ---------------------------------------------------------------- nonce splitting

  /** Key and sequence determine the nonce and range freely: the split is a bijection. */
  lemma NonceSplitBijection(id: UserOperationId, key: nat, sequence: nat)
    requires key < U192_LIMIT && sequence < U64_LIMIT
    ensures JoinNonce(id.NonceKey(), id.NonceSequence()) == id.nonce
         == id.NonceKey() * 0x1_0000_0000_0000_0000 + id.NonceSequence()
    ensures id.NonceKey() < U192_LIMIT && id.NonceSequence() < U64_LIMIT
    ensures JoinNonce(key, sequence) < U256_LIMIT
    ensures var joined := UserOperationId(id.sender, JoinNonce(key, sequence));
            joined.NonceKey() == key && joined.NonceSequence() == sequence
  {
  }

  /** The total is the sum of the five limits: leaving one out takes exactly it away, and nothing else counts. */
  lemma TotalGasLimitSums(uo: UserOperation)
    ensures var none := uo.(preVerificationGas := 0, verificationGasLimit := 0, callGasLimit := 0,
                            paymasterVerificationGasLimit := 0, paymasterPostOpGasLimit := 0);
            none.TotalGasLimit() == 0
    ensures uo.TotalGasLimit() == uo.(preVerificationGas := 0).TotalGasLimit() + uo.preVerificationGas
    ensures uo.TotalGasLimit() == uo.(verificationGasLimit := 0).TotalGasLimit() + uo.verificationGasLimit
    ensures uo.TotalGasLimit() == uo.(callGasLimit := 0).TotalGasLimit() + uo.callGasLimit
    ensures uo.TotalGasLimit()
         == uo.(paymasterVerificationGasLimit := 0).TotalGasLimit() + uo.paymasterVerificationGasLimit
    ensures uo.TotalGasLimit() == uo.(paymasterPostOpGasLimit := 0).TotalGasLimit() + uo.paymasterPostOpGasLimit
  {
  }

  // ---------------------------------------------------------------- pair codec

  lemma UnpackPackPair(high: uint128, low: uint128)
    ensures UnpackPair(PackPair(high, low)) == (high, low)
  {
    var b := PackPair(high, low);
    assert b[..16] == ToBytes(high, 16) && b[16..] == ToBytes(low, 16);
    Uint128Bytes(high);
    Uint128Bytes(low);
  }

  lemma PackUnpackPair(b: Bytes32)
    ensures PackPair(UnpackPair(b).0, UnpackPair(b).1) == b
  {
    BytesUint128(b[..16]);
    BytesUint128(b[16..]);
    assert b == b[..16] + b[16..];
  }

  // ---------------------------------------------------------------- optional sections

  lemma UnpackPackedFactory(uo: UserOperation)
    ensures UnpackFactory(uo.Pack().initCode)
         == if uo.factory.Some? then (uo.factory, uo.factoryData) else (None, [])
  {
    if uo.factory.Some? {
      var code := uo.factory.value + uo.factoryData;
      assert code[..20] == uo.factory.value && code[20..] == uo.factoryData;
    }
  }

  lemma UnpackPackedPaymaster(uo: UserOperation)
    ensures UnpackPaymaster(uo.Pack().paymasterAndData)
         == if uo.paymaster.Some?
            then (uo.paymaster, uo.paymasterVerificationGasLimit, uo.paymasterPostOpGasLimit, uo.paymasterData)
            else (None, 0, 0, [])
  {
    if uo.paymaster.Some? {
      var vg, pg := ToBytes(uo.paymasterVerificationGasLimit, 16), ToBytes(uo.paymasterPostOpGasLimit, 16);
      var data := uo.paymaster.value + vg + pg + uo.paymasterData;
      assert data[..20] == uo.paymaster.value && data[52..] == uo.paymasterData;
      assert data[20..36] == vg && data[36..52] == pg;
      Uint128Bytes(uo.paymasterVerificationGasLimit);
      Uint128Bytes(uo.paymasterPostOpGasLimit);
    }
  }

  // ---------------------------------------------------------------- round trips

  /** What packing keeps: everything but the data beside an absent factory or paymaster. */
  function Normalized(uo: UserOperation): (r: UserOperation)
    ensures r.Canonical() && r.Pack() == uo.Pack()
  {
    var f := if uo.factory.Some? then uo else uo.(factoryData := []);
    if f.paymaster.Some? then f
    else f.(paymasterVerificationGasLimit := 0, paymasterPostOpGasLimit := 0, paymasterData := [])
  }

  lemma UnpackOfPack(h: Hasher, uo: UserOperation, entryPoint: Address, chainId: uint64)
    ensures Unpack(h, uo.Pack(), entryPoint, chainId)
              .SameFields(Normalized(uo).(entryPoint := entryPoint, chainId := chainId))
  {
    UnpackPackPair(uo.verificationGasLimit, uo.callGasLimit);
    UnpackPackPair(uo.maxPriorityFeePerGas, uo.maxFeePerGas);
    UnpackPackedFactory(uo);
    UnpackPackedPaymaster(uo);
  }

  /** Packing after unpacking a packed operation changes nothing, whatever the context. */
  lemma PackIsStable(h: Hasher, uo: UserOperation, entryPoint: Address, chainId: uint64)
    ensures Unpack(h, uo.Pack(), entryPoint, chainId).Pack() == uo.Pack()
    ensures Unpack(h, uo.Pack(), entryPoint, chainId).Id() == uo.Id()
  {
    UnpackOfPack(h, uo, entryPoint, chainId);
  }

  /** The digest survives the trip through the packed form under the same entry point and chain. */
  lemma HashSurvivesPacking(h: Hasher, uo: UserOperation)
    requires uo.CacheFresh(h)
    ensures Unpack(h, uo.Pack(), uo.entryPoint, uo.chainId).Hash(h) == uo.Hash(h)
  {
    PackIsStable(h, uo, uo.entryPoint, uo.chainId);
  }

  /** Unpacking restores every field exactly for canonical operations. */
  lemma UnpackRestoresIffCanonical(h: Hasher, uo: UserOperation)
    ensures Unpack(h, uo.Pack(), uo.entryPoint, uo.chainId).SameFields(uo) <==> uo.Canonical()
  {
    UnpackOfPack(h, uo, uo.entryPoint, uo.chainId);
  }

  /** The packed forms that survive being unpacked and packed again. */
  predicate Lossless(p: PackedUserOperation) {
    && p.preVerificationGas < U128_LIMIT
    && (|p.initCode| == 0 || |p.initCode| >= 20)
    && (|p.paymasterAndData| == 0 || |p.paymasterAndData| >= 52)
  }

  lemma RepackFactory(h: Hasher, p: PackedUserOperation, entryPoint: Address, chainId: uint64)
    ensures Unpack(h, p, entryPoint, chainId).Pack().initCode
         == if |p.initCode| >= 20 then p.initCode else []
  {
    if |p.initCode| >= 20 {
      assert p.initCode == p.initCode[..20] + p.initCode[20..];
    }
  }

  lemma RepackPaymaster(h: Hasher, p: PackedUserOperation, entryPoint: Address, chainId: uint64)
    ensures Unpack(h, p, entryPoint, chainId).Pack().paymasterAndData
         == if |p.paymasterAndData| >= 52 then p.paymasterAndData else []
  {
    var d := p.paymasterAndData;
    if |d| >= 52 {
      BytesUint128(d[20..36]);
      BytesUint128(d[36..52]);
      assert d == d[..20] + d[20..36] + d[36..52] + d[52..];
    }
  }

  /** Repacking clamps the pre-verification gas, clears what is too short for its section, and keeps everything else. */
  lemma RepackMeaning(h: Hasher, p: PackedUserOperation, entryPoint: Address, chainId: uint64)
    ensures var uo := Unpack(h, p, entryPoint, chainId);
            && uo.entryPoint == entryPoint && uo.chainId == chainId
            && uo.Pack()
               == p.(preVerificationGas := if p.preVerificationGas < U128_LIMIT then p.preVerificationGas else U128_LIMIT - 1,
                     initCode := if |p.initCode| < 20 then [] else p.initCode,
                     paymasterAndData := if |p.paymasterAndData| < 52 then [] else p.paymasterAndData)
  {
    PackUnpackPair(p.accountGasLimits);
    PackUnpackPair(p.gasFees);
    RepackFactory(h, p, entryPoint, chainId);
    RepackPaymaster(h, p, entryPoint, chainId);
  }

  /** Repacking is the identity exactly on the lossless packed forms. */
  lemma RepackIsIdentityIffLossless(h: Hasher, p: PackedUserOperation, entryPoint: Address, chainId: uint64)
    ensures Unpack(h, p, entryPoint, chainId).Pack() == p <==> Lossless(p)
  {
    PackUnpackPair(p.accountGasLimits);
    PackUnpackPair(p.gasFees);
    RepackFactory(h, p, entryPoint, chainId);
    RepackPaymaster(h, p, entryPoint, chainId);
  }

  /** Two operations that differ only in their signature have the same digest. */
  lemma HashIgnoresSignature(h: Hasher, uo: UserOperation, signature: Bytes)
    ensures uo.(signature := signature).ComputeHash(h) == uo.ComputeHash(h)
  {
    assert uo.(signature := signature).HashedForm() == uo.HashedForm();
  }

  lemma Word32Injective(a: uint256, b: uint256)
    requires ToBytes(a, 32) == ToBytes(b, 32)
    ensures a == b
  {
    Pow256Widths();
    FromToBytes(a, 32);
    FromToBytes(b, 32);
  }

  /** These two strings collide. */
  predicate Collides(h: Hasher, s: Bytes, t: Bytes) {
    s != t && h.keccak(s) == h.keccak(t)
  }

  /** The outer hash inputs agree exactly on equal entry points, chains and inner digests. */
  lemma HashInputsAgree(h: Hasher, a: UserOperation, b: UserOperation)
    ensures a.HashInput(h) == b.HashInput(h) <==>
              && a.entryPoint == b.entryPoint && a.chainId == b.chainId
              && h.keccak(h.abiEncode(a.HashedForm())) == h.keccak(h.abiEncode(b.HashedForm()))
  {
    var x, y := h.keccak(h.abiEncode(a.HashedForm())), h.keccak(h.abiEncode(b.HashedForm()));
    var s, t := a.HashInput(h), b.HashInput(h);
    assert s[..32] == ToBytes(x, 32) && t[..32] == ToBytes(y, 32);
    assert s[32..52] == a.entryPoint && t[32..52] == b.entryPoint;
    assert s[52..] == ToBytes(a.chainId, 32) && t[52..] == ToBytes(b.chainId, 32);
    if s == t {
      Word32Injective(x, y);
      Word32Injective(a.chainId, b.chainId);
    }
  }

  /**
   * Two operations have one digest exactly when their outer hash inputs collide, or entry point and
   * chain agree and the hashed forms are equal, are encoded alike, or have colliding encodings.
   */
  lemma HashBindsContent(h: Hasher, a: UserOperation, b: UserOperation)
    ensures var p, q := a.HashedForm(), b.HashedForm();
            a.ComputeHash(h) == b.ComputeHash(h) <==>
              || Collides(h, a.HashInput(h), b.HashInput(h))
              || (a.entryPoint == b.entryPoint && a.chainId == b.chainId
                  && (p == q
                      || (p != q && h.abiEncode(p) == h.abiEncode(q))
                      || Collides(h, h.abiEncode(p), h.abiEncode(q))))
  {
    HashInputsAgree(h, a, b);
  }

  /** The string hashed: 32 bytes of inner digest, 20 of entry point, 32 of chain id, and nothing of the signature. */
  lemma HashLayout(h: Hasher, uo: UserOperation, t: Bytes)
    requires |t| == 84 && t[32..52] == uo.entryPoint && FromBytes(t[52..]) == uo.chainId
    requires FromBytes(t[..32]) == h.keccak(h.abiEncode(uo.Pack().(signature := [])))
    ensures uo.ComputeHash(h) == h.keccak(t)
  {
    hide ToBytes, FromBytes;
    ToFromBytes(t[..32]);
    ToFromBytes(t[52..]);
    ThreeParts(t);
  }

  lemma ThreeParts(t: Bytes)
    requires |t| == 84
    ensures t == t[..32] + t[32..52] + t[52..]
  {
  }

  /** Where the packed form keeps each value: gas pairs as big-endian halves, high value first. */
  lemma PackedLayout(uo: UserOperation)
    ensures var p := uo.Pack();
            && p.sender == uo.sender && p.nonce == uo.nonce && p.callData == uo.callData
            && p.preVerificationGas == uo.preVerificationGas && p.signature == uo.signature
            && FromBytes(p.accountGasLimits[..16]) == uo.verificationGasLimit
            && FromBytes(p.accountGasLimits[16..]) == uo.callGasLimit
            && FromBytes(p.gasFees[..16]) == uo.maxPriorityFeePerGas
            && FromBytes(p.gasFees[16..]) == uo.maxFeePerGas
            && (match uo.factory
                case Some(f) => p.initCode == f + uo.factoryData
                case None => p.initCode == [])
            && (match uo.paymaster
                case Some(m) =>
                  var d := p.paymasterAndData;
                  && |d| >= 52 && d[..20] == m && d[52..] == uo.paymasterData
                  && FromBytes(d[20..36]) == uo.paymasterVerificationGasLimit
                  && FromBytes(d[36..52]) == uo.paymasterPostOpGasLimit
                case None => p.paymasterAndData == [])
  {
    UnpackPackPair(uo.verificationGasLimit, uo.callGasLimit);
    UnpackPackPair(uo.maxPriorityFeePerGas, uo.maxFeePerGas);
    UnpackPackedPaymaster(uo);
  }

  /** A cached digest is answered as it is, even a stale one; without one the digest is computed. */
  lemma CachedDigestWins(h: Hasher, uo: UserOperation, digest: B256)
    ensures uo.(cachedHash := Some(digest)).Hash(h) == digest
    ensures uo.(cachedHash := None).Hash(h) == uo.ComputeHash(h)
  {
    assert uo.(cachedHash := None).Pack() == uo.Pack();
  }

  /** `set_context` always leaves a fresh digest, whatever was cached before. */
  lemma SetContextRefreshes(h: Hasher, uo: UserOperation, entryPoint: Address, chainId: uint64)
    ensures var r := uo.SetContext(h, entryPoint, chainId);
            && r.CacheFresh(h)
            && r.SameFields(uo.(entryPoint := entryPoint, chainId := chainId))
            && r.Id() == uo.Id()
  {
    var moved := uo.(entryPoint := entryPoint, chainId := chainId);
    assert moved.(cachedHash := Some(moved.ComputeHash(h))).Pack() == moved.Pack();
  }
}
