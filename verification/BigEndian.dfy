/** Big-endian byte strings and the numbers they stand for. */
module BigEndian {
  import opened Base

  function Pow256(k: nat): nat {
    if k == 0 then 1 else 256 * Pow256(k - 1)
  }

  /** The `k` low-order bytes of `n`, most significant first (`to_be_bytes`). */
  function ToBytes(n: nat, k: nat): (b: Bytes)
    ensures |b| == k
  {
    if k == 0 then [] else ToBytes(n / 256, k - 1) + [(n % 256) as byte]
  }

  /** The number a byte string stands for (`from_be_bytes`). */
  function FromBytes(b: Bytes): nat {
    if b == [] then 0 else 256 * FromBytes(b[..|b| - 1]) + b[|b| - 1] as nat
  }

  /** The first byte weighs most: 256 to the power of the bytes after it. */
  lemma {:induction false} FirstByteHighest(x: byte, b: Bytes)
    ensures FromBytes([x] + b) == x as nat * Pow256(|b|) + FromBytes(b)
  {
    if b == [] {
      assert ([x] + b)[..0] == [];
    } else {
      var front, last := b[..|b| - 1], b[|b| - 1] as nat;
      FirstByteHighest(x, front);
      assert ([x] + b)[..|b|] == [x] + front;
      assert 256 * (x as nat * Pow256(|front|)) == x as nat * (256 * Pow256(|front|));
    }
  }

  lemma {:induction false} FromToBytes(n: nat, k: nat)
    requires n < Pow256(k)
    ensures FromBytes(ToBytes(n, k)) == n
  {
    if k == 0 {
    } else {
      FromToBytes(n / 256, k - 1);
      assert ToBytes(n, k)[..k - 1] == ToBytes(n / 256, k - 1);
    }
  }

  lemma {:induction false} ToFromBytes(b: Bytes)
    ensures FromBytes(b) < Pow256(|b|)
    ensures ToBytes(FromBytes(b), |b|) == b
  {
    if b == [] {
    } else {
      ToFromBytes(b[..|b| - 1]);
      assert b == b[..|b| - 1] + [b[|b| - 1]];
    }
  }

  lemma Pow256Widths()
    ensures Pow256(16) == U128_LIMIT
    ensures Pow256(32) == U256_LIMIT
  {
    assert Pow256(4) == 0x1_0000_0000;
    assert Pow256(8) == U64_LIMIT;
    assert Pow256(12) == 0x1_0000_0000_0000_0000_0000_0000;
    assert Pow256(16) == U128_LIMIT;
    assert Pow256(20) == 0x1_0000_0000_0000_0000_0000_0000_0000_0000_0000_0000;
    assert Pow256(24) == U192_LIMIT;
    assert Pow256(28) == 0x1_0000_0000_0000_0000_0000_0000_0000_0000_0000_0000_0000_0000_0000_0000;
  }

  /** Sixteen bytes carry exactly the `u128` values, in both directions. */
  lemma Uint128Bytes(n: uint128)
    ensures FromBytes(ToBytes(n, 16)) == n
  {
    Pow256Widths();
    FromToBytes(n, 16);
  }

  lemma BytesUint128(b: Bytes)
    requires |b| == 16
    ensures FromBytes(b) < U128_LIMIT
    ensures ToBytes(FromBytes(b), 16) == b
  {
    Pow256Widths();
    ToFromBytes(b);
  }
}
