/** Little-endian integers and the order of byte strings. */
module Bytes {
  type byte = x: int | 0 <= x < 256
  type bytes = seq<byte>

  // ── Little-endian integers ────────────────────────────────────────

  function Pow256(width: nat): nat {
    if width == 0 then 1 else 256 * Pow256(width - 1)
  }

  /** `to_le_bytes`, truncated to `width` bytes. */
  function LE(v: nat, width: nat): bytes {
    if width == 0 then [] else [v % 256] + LE(v / 256, width - 1)
  }

  /** `from_le_bytes`. */
  function FromLE(b: bytes): nat {
    if |b| == 0 then 0 else b[0] + 256 * FromLE(b[1..])
  }

  lemma {:induction false} LERoundTrip(v: nat, width: nat)
    ensures |LE(v, width)| == width
    ensures v < Pow256(width) ==> FromLE(LE(v, width)) == v
  {
    if width == 0 {
    } else {
      LERoundTrip(v / 256, width - 1);
    }
  }

  lemma {:induction false} FromLERoundTrip(b: bytes)
    ensures FromLE(b) < Pow256(|b|) && LE(FromLE(b), |b|) == b
  {
    if |b| == 0 {
    } else {
      FromLERoundTrip(b[1..]);
    }
  }

  const U8: nat := 0x100
  const U16: nat := 0x1_0000
  const U32: nat := 0x1_0000_0000

  lemma Widths()
    ensures Pow256(1) == U8 && Pow256(2) == U16 && Pow256(4) == U32
  {
    assert Pow256(2) == 256 * Pow256(1);
    assert Pow256(4) == 256 * Pow256(3) == 256 * 256 * Pow256(2);
  }

  // ── Order ─────────────────────────────────────────────────────────

  /** Lexicographic order of byte strings, as slices compare. */
  predicate AtMost(a: bytes, b: bytes) {
    |a| == 0 || (|b| > 0 && (a[0] < b[0] || (a[0] == b[0] && AtMost(a[1..], b[1..]))))
  }

  /** A prefix comes first, and else the first byte that differs decides. */
  lemma {:induction false} AtMostExactly(a: bytes, b: bytes)
    ensures AtMost(a, b) <==> a <= b || exists k :: 0 <= k < |a| && k < |b| && a[..k] == b[..k] && a[k] < b[k]
  {
    if |a| == 0 || |b| == 0 {
    } else if a[0] != b[0] {
      if a[0] < b[0] { assert a[..0] == b[..0]; }
      forall k | 0 < k < |a| && k < |b| ensures a[..k] != b[..k] {
        assert a[..k][0] == a[0] && b[..k][0] == b[0];
      }
    } else {
      AtMostExactly(a[1..], b[1..]);
      assert a == [a[0]] + a[1..] && b == [b[0]] + b[1..];
      forall k | 0 <= k < |a| - 1 && k < |b| - 1
        ensures a[1..][..k] == b[1..][..k] <==> a[..k + 1] == b[..k + 1]
        ensures a[1..][k] == a[k + 1] && b[1..][k] == b[k + 1]
      {
        assert a[..k + 1] == [a[0]] + a[1..][..k] && b[..k + 1] == [b[0]] + b[1..][..k];
        assert a[1..][..k] == a[..k + 1][1..] && b[1..][..k] == b[..k + 1][1..];
      }
      SharedHead(a, b);
    }
  }

  lemma SharedHead(a: bytes, b: bytes)
    requires |a| > 0 && |b| > 0 && a[0] == b[0]
    ensures a <= b <==> a[1..] <= b[1..]
  {
    if a[1..] <= b[1..] {
      assert forall k | 0 <= k < |a| :: a[k] == b[k] by {
        forall k | 0 < k < |a| ensures a[k] == b[k] {
          assert a[1..][k - 1] == b[1..][k - 1];
        }
      }
    }
  }

  lemma {:induction false} AtMostIsTotal(a: bytes, b: bytes)
    ensures AtMost(a, b) || AtMost(b, a)
    ensures AtMost(a, b) && AtMost(b, a) ==> a == b
  {
    if |a| == 0 || |b| == 0 || a[0] != b[0] {
    } else {
      AtMostIsTotal(a[1..], b[1..]);
      assert a == [a[0]] + a[1..] && b == [b[0]] + b[1..];
    }
  }

  lemma {:induction false} AtMostIsTransitive(a: bytes, b: bytes, c: bytes)
    requires AtMost(a, b) && AtMost(b, c)
    ensures AtMost(a, c)
  {
    if |a| == 0 || a[0] != b[0] || b[0] != c[0] {
    } else {
      AtMostIsTransitive(a[1..], b[1..], c[1..]);
    }
  }
}
