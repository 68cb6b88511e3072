/** Hash keys: non-negative integers carried on the wire as big-endian bytes. */
module HashKeys {
  import opened Basics

  /** The length of an MD5 digest (RFC 1321). */
  const DIGEST_SIZE: nat := 16

  type Digest = b: seq<byte> | |b| == DIGEST_SIZE witness seq(DIGEST_SIZE, _ => 0)

  const MAX_HASH_KEY: nat := 0xffff_ffff_ffff_ffff_ffff_ffff_ffff_ffff

  /** big.Int.SetBytes: the big-endian value of a byte string. */
  function SetBytes(b: seq<byte>): nat {
    if b == [] then 0 else SetBytes(b[..|b| - 1]) * 256 + b[|b| - 1] as nat
  }

  /** big.Int.Bytes: the shortest big-endian form; zero is the empty string. */
  function Bytes(n: nat): seq<byte> {
    if n == 0 then [] else Bytes(n / 256) + [(n % 256) as byte]
  }

  predicate Minimal(b: seq<byte>) {
    b == [] || b[0] != 0
  }

  function Pow256(n: nat): nat {
    if n == 0 then 1 else 256 * Pow256(n - 1)
  }

  lemma {:induction false} BytesRoundTrip(n: nat)
    ensures SetBytes(Bytes(n)) == n && Minimal(Bytes(n))
  {
    if n != 0 {
      BytesRoundTrip(n / 256);
      var b := Bytes(n);
      assert b[..|b| - 1] == Bytes(n / 256);
    }
  }

  lemma {:induction false} SetBytesZero(b: seq<byte>)
    ensures SetBytes(b) == 0 <==> forall i | 0 <= i < |b| :: b[i] == 0
  {
    if b != [] {
      var init := b[..|b| - 1];
      SetBytesZero(init);
      assert forall i | 0 <= i < |init| :: init[i] == b[i];
    }
  }

  /** Decoding and re-encoding gives the bytes back exactly when they carry no leading zero. */
  lemma {:induction false} SetBytesRoundTrip(b: seq<byte>)
    ensures Bytes(SetBytes(b)) == b <==> Minimal(b)
  {
    BytesRoundTrip(SetBytes(b));
    if b != [] && Minimal(b) {
      var init := b[..|b| - 1];
      assert b == init + [b[|b| - 1]];
      SetBytesRoundTrip(init);
      SetBytesZero(b);
      assert SetBytes(b) / 256 == SetBytes(init);
    }
  }

  /** Two byte strings for one key are the same exactly when neither has more leading zeros than the other. */
  lemma {:induction false} SameKeySameBytesExactly(a: seq<byte>, b: seq<byte>)
    requires SetBytes(a) == SetBytes(b)
    ensures a == b <==> |a| == |b|
  {
    if |a| == |b| && a != [] {
      var x, y := a[..|a| - 1], b[..|b| - 1];
      assert SetBytes(x) * 256 + a[|a| - 1] as nat == SetBytes(y) * 256 + b[|b| - 1] as nat;
      SameKeySameBytesExactly(x, y);
      assert a == x + [a[|a| - 1]] && b == y + [b[|b| - 1]];
    }
  }

  lemma {:induction false} SetBytesBound(b: seq<byte>)
    ensures SetBytes(b) < Pow256(|b|)
  {
    if b != [] { SetBytesBound(b[..|b| - 1]); }
  }

  /** The first byte is the most significant one, also when it is zero. */
  lemma {:induction false} FirstByteWeighsMost(first: byte, rest: seq<byte>)
    ensures SetBytes([first] + rest) == first as nat * Pow256(|rest|) + SetBytes(rest)
  {
    var b := [first] + rest;
    if rest == [] {
      assert b[..0] == [];
    } else {
      assert b[..|b| - 1] == [first] + rest[..|rest| - 1];
      FirstByteWeighsMost(first, rest[..|rest| - 1]);
      ShiftWeight(first as nat, |rest|);
    }
  }

  lemma ShiftWeight(k: nat, n: nat)
    requires n > 0
    ensures k * Pow256(n - 1) * 256 == k * Pow256(n)
  {
    assert Pow256(n) == 256 * Pow256(n - 1);
  }

  lemma Pow256DigestSize()
    ensures Pow256(DIGEST_SIZE) == MAX_HASH_KEY + 1
  {
    assert Pow256(4) == 0x1_0000_0000;
    assert Pow256(8) == 0x1_0000_0000_0000_0000;
    assert Pow256(12) == 0x1_0000_0000_0000_0000_0000_0000;
  }

  /** Every digest is a key of the hash space, so no key lies above the largest one. */
  lemma DigestInKeySpace(d: Digest)
    ensures SetBytes(d) <= MAX_HASH_KEY
  {
    SetBytesBound(d);
    Pow256DigestSize();
  }

  lemma {:induction false} SetBytesOfOnes(b: seq<byte>)
    requires forall i | 0 <= i < |b| :: b[i] == 0xff
    ensures SetBytes(b) == Pow256(|b|) - 1
  {
    if b != [] {
      SetBytesOfOnes(b[..|b| - 1]);
    }
  }

  method CalcMaxHashKey() returns (k: nat)
    ensures k == MAX_HASH_KEY
    ensures forall d: Digest :: SetBytes(d) <= k
  {
    var buf := new byte[DIGEST_SIZE];
    for i := 0 to buf.Length
      invariant forall j | 0 <= j < i :: buf[j] == 0xff
    {
      buf[i] := 0xff;
    }
    k := SetBytes(buf[..]);
    SetBytesOfOnes(buf[..]);
    Pow256DigestSize();
    forall d: Digest ensures SetBytes(d) <= k { DigestInKeySpace(d); }
  }
}
