/**
 The Internet checksum (section 1 of RFC 1071): the ones-complement of the ones-complement sum of
 the 16-bit words of a byte string, an odd last byte being padded with zero.
 */
module Checksum {
  import opened Bytes

  /** The plain sum of the 16-bit words. */
  function WordSum(bytes: seq<byte>): nat {
    if |bytes| == 0 then 0
    else if |bytes| == 1 then Be16(bytes[0], 0)
    else Be16(bytes[0], bytes[1]) + WordSum(bytes[2..])
  }

  /** The end-around-carry value of a sum: its representative modulo 65535, zero only for zero. */
  function Fold(sum: nat): (r: nat)
    ensures r < WORD
    ensures r == 0 <==> sum == 0
  {
    if sum == 0 then 0 else (sum - 1) % 65535 + 1
  }

  /** What the code computes: the sum is kept in 32 bits, then folded and complemented. */
  function ChecksumOf(bytes: seq<byte>): (r: nat)
    ensures r < WORD
  {
    65535 - Fold(WordSum(bytes) % WRAP)
  }

  // ---------------------------------------------------------------- arithmetic modulo 65535

  lemma FoldMultiple(sum: nat, k: nat)
    requires sum > 0
    ensures Fold(sum + 65535 * k) == Fold(sum)
  {
  }

  lemma FoldCarry(sum: nat)
    requires sum >= WORD
    ensures sum % WORD + sum / WORD < sum
    ensures Fold(sum % WORD + sum / WORD) == Fold(sum)
  {
    var folded := sum % WORD + sum / WORD;
    assert sum == folded + 65535 * (sum / WORD);
    FoldMultiple(folded, sum / WORD);
  }

  /** A sum completed by its own checksum folds to all ones. */
  lemma FoldComplement(sum: nat)
    requires sum > 0
    ensures Fold(sum + (65535 - Fold(sum))) == 65535
  {
    var k := (sum - 1) / 65535;
    assert sum == Fold(sum) + 65535 * k;
    FoldMultiple(65535, k);
  }

  /** Two sums fold alike exactly when they differ by a multiple of 65535. */
  lemma FoldDistinct(a: nat, b: nat)
    requires 0 < a < b && b - a < 65535
    ensures Fold(a) != Fold(b)
  {
  }

  // ---------------------------------------------------------------- sums of byte strings

  lemma {:induction false} WordSumConcat(a: seq<byte>, b: seq<byte>)
    requires |a| % 2 == 0
    ensures WordSum(a + b) == WordSum(a) + WordSum(b)
  {
    if |a| == 0 {
      assert a + b == b;
    } else {
      assert (a + b)[2..] == a[2..] + b;
      WordSumConcat(a[2..], b);
    }
  }

  lemma {:induction false} WordSumBound(bytes: seq<byte>)
    ensures WordSum(bytes) <= 65535 * ((|bytes| + 1) / 2)
  {
    if |bytes| >= 2 {
      WordSumBound(bytes[2..]);
    }
  }

  /** No packet is long enough for the 32-bit accumulator to wrap. */
  lemma NoWrap(bytes: seq<byte>)
    requires |bytes| <= 131072
    ensures WordSum(bytes) < WRAP
  {
    WordSumBound(bytes);
  }

  lemma WordSum16(n: nat)
    requires n < WORD
    ensures WordSum(Bytes16(n)) == n
  {
    assert Bytes16(n)[2..] == [];
  }

  lemma WordSumAround(before: seq<byte>, n: nat, after: seq<byte>)
    requires |before| % 2 == 0 && n < WORD
    ensures WordSum(before + Bytes16(n) + after) == WordSum(before) + n + WordSum(after)
  {
    hide WordSum, Bytes16;
    WordSumConcat(before + Bytes16(n), after);
    WordSumConcat(before, Bytes16(n));
    WordSum16(n);
  }

  lemma ChecksumShort(bytes: seq<byte>)
    requires |bytes| <= 131072
    ensures ChecksumOf(bytes) == 65535 - Fold(WordSum(bytes))
  {
    NoWrap(bytes);
  }

  lemma Completes(zero: seq<byte>, c: nat, whole: seq<byte>)
    requires |zero| <= 131072 && |whole| <= 131072 && WordSum(zero) > 0
    requires c == ChecksumOf(zero) && WordSum(whole) == WordSum(zero) + c
    ensures ChecksumOf(whole) == 0
  {
    ChecksumShort(zero);
    ChecksumShort(whole);
    FoldComplement(WordSum(zero));
  }

  /** The checksum written into a zeroed, word-aligned field makes the whole verify to zero. */
  lemma ChecksumVerifies(before: seq<byte>, after: seq<byte>)
    requires |before| % 2 == 0 && |before| + |after| <= 131068
    requires WordSum(before) > 0
    ensures ChecksumOf(before + Bytes16(ChecksumOf(before + Bytes16(0) + after)) + after) == 0
  {
    var zero := before + Bytes16(0) + after;
    var c := ChecksumOf(zero);
    WordSumAround(before, 0, after);
    WordSumAround(before, c, after);
    Completes(zero, c, before + Bytes16(c) + after);
  }

  /** Changing one byte anywhere changes the checksum. */
  lemma OneByteChanges(bytes: seq<byte>, i: nat, b: byte)
    requires i < |bytes| <= 131072 && b != bytes[i]
    requires WordSum(bytes) > 0 && WordSum(bytes[i := b]) > 0
    ensures ChecksumOf(bytes[i := b]) != ChecksumOf(bytes)
  {
    ByteWeight(bytes, i, b);
    ChecksumShort(bytes);
    ChecksumShort(bytes[i := b]);
    var x, y := WordSum(bytes), WordSum(bytes[i := b]);
    if x < y {
      FoldDistinct(x, y);
    } else {
      FoldDistinct(y, x);
    }
  }

  lemma {:induction false} ByteWeight(bytes: seq<byte>, i: nat, b: byte)
    requires i < |bytes|
    ensures WordSum(bytes[i := b]) - WordSum(bytes) == (b - bytes[i]) * (if i % 2 == 0 then 256 else 1)
  {
    if i >= 2 {
      assert bytes[i := b][2..] == bytes[2..][i - 2 := b];
      ByteWeight(bytes[2..], i - 2, b);
    } else if |bytes| >= 2 {
      assert bytes[i := b][2..] == bytes[2..];
    }
  }

  // ---------------------------------------------------------------- the loops

  lemma SumStep(bytes: seq<byte>, i: nat, sum: nat)
    requires i + 1 < |bytes| && i % 2 == 0 && sum == WordSum(bytes[..i]) % WRAP
    ensures (sum + Be16(bytes[i], bytes[i + 1])) % WRAP == WordSum(bytes[..i + 2]) % WRAP
  {
    WordSumConcat(bytes[..i], bytes[i..i + 2]);
    assert bytes[..i] + bytes[i..i + 2] == bytes[..i + 2];
    assert bytes[i..i + 2][2..] == [];
  }

  lemma SumLast(bytes: seq<byte>, i: nat, sum: nat)
    requires i <= |bytes| <= i + 1 && i % 2 == 0 && sum == WordSum(bytes[..i]) % WRAP
    ensures i == |bytes| ==> sum == WordSum(bytes) % WRAP
    ensures i < |bytes| ==> (sum + Be16(bytes[i], 0)) % WRAP == WordSum(bytes) % WRAP
  {
    WordSumConcat(bytes[..i], bytes[i..]);
    assert bytes[..i] + bytes[i..] == bytes;
  }

  method AddWords(bytes: seq<byte>) returns (sum: nat)
    ensures sum < WRAP && sum == WordSum(bytes) % WRAP
  {
    sum := 0;
    var i := 0;
    while i + 1 < |bytes|
      invariant 0 <= i <= |bytes| && i % 2 == 0
      invariant sum < WRAP && sum == WordSum(bytes[..i]) % WRAP
    {
      SumStep(bytes, i, sum);
      sum := (sum + Be16(bytes[i], bytes[i + 1])) % WRAP;
      i := i + 2;
    }
    SumLast(bytes, i, sum);
    if i < |bytes| {
      sum := (sum + Be16(bytes[i], 0)) % WRAP;
    }
  }

  method ComputeChecksum(bytes: seq<byte>) returns (r: nat)
    ensures r == ChecksumOf(bytes)
  {
    var sum: nat := AddWords(bytes);
    ghost var total := sum;
    while sum / WORD != 0
      invariant Fold(sum) == Fold(total)
      decreases sum
    {
      FoldCarry(sum);
      sum := sum % WORD + sum / WORD;
    }
    r := 65535 - sum;
  }
}
