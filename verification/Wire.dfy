/** Bytes, digests and the fixed-width big-endian integers of every bee-sync format. */
module Wire {

  type byte = x: int | 0 <= x < 256

  type Bytes = seq<byte>

  /** A BLAKE3 digest: 32 bytes. */
  type Digest = d: Bytes | |d| == 32 witness seq(32, _ => 0)

  /** BLAKE3 itself is a parameter of everything that hashes. */
  type Hasher = Bytes -> Digest

  datatype Option<+T> = None | Some(value: T)

  datatype Result<+T> = Ok(value: T) | Err

  const U16: nat := 0x1_0000
  const U32: nat := 0x1_0000_0000
  const U64: nat := 0x1_0000_0000_0000_0000

  function Pow256(w: nat): (r: nat)
    ensures r > 0
  {
    if w == 0 then 1 else 256 * Pow256(w - 1)
  }

  lemma Widths()
    ensures Pow256(1) == 256
    ensures Pow256(2) == U16
    ensures Pow256(4) == U32
    ensures Pow256(8) == U64
  {
    assert Pow256(3) == 0x100_0000;
    assert Pow256(5) == 0x100_0000_0000;
    assert Pow256(6) == 0x1_0000_0000_0000;
    assert Pow256(7) == 0x100_0000_0000_0000;
  }

  /** The low `w` bytes of `n`, most significant first: an `as` cast to a `w`-byte integer
      followed by `to_be_bytes`. A value that is too wide wraps. */
  function BE(n: nat, w: nat): (r: Bytes)
    ensures |r| == w
  {
    if w == 0 then [] else BE(n / 256, w - 1) + [n % 256]
  }

  /** `from_be_bytes`. */
  function FromBE(b: Bytes): nat
  {
    if b == [] then 0 else 256 * FromBE(b[..|b| - 1]) + b[|b| - 1]
  }

  lemma {:induction false} FromBERange(b: Bytes)
    ensures FromBE(b) < Pow256(|b|)
  {
    if b != [] {
      FromBERange(b[..|b| - 1]);
    }
  }

  /** Decoding gives back the value modulo the width: exactly the value when it fits. */
  lemma {:induction false} BERoundTrip(n: nat, w: nat)
    ensures n < Pow256(w) ==> FromBE(BE(n, w)) == n
    ensures FromBE(BE(n, w)) < Pow256(w)
  {
    FromBERange(BE(n, w));
    if w != 0 {
      BERoundTrip(n / 256, w - 1);
      assert BE(n, w)[..w - 1] == BE(n / 256, w - 1);
    }
  }

  ghost predicate Increasing(s: seq<nat>)
  {
    forall i, j :: 0 <= i < j < |s| ==> s[i] < s[j]
  }
}
