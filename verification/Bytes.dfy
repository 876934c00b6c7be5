/** Octets and big-endian integers. */
module Bytes {

  type byte = x: int | 0 <= x < 256

  const WORD: nat := 0x1_0000
  const WRAP: nat := 0x1_0000_0000

  function Be16(hi: byte, lo: byte): (r: nat)
    ensures r < WORD
  {
    256 * hi + lo
  }

  function Bytes16(n: nat): (r: seq<byte>)
    requires n < WORD
    ensures |r| == 2 && Be16(r[0], r[1]) == n
  {
    [n / 256, n % 256]
  }

  function Be32(a: byte, b: byte, c: byte, d: byte): (r: nat)
    ensures r < WRAP
  {
    ((a * 256 + b) * 256 + c) * 256 + d
  }

  function Bytes32(n: nat): (r: seq<byte>)
    requires n < WRAP
    ensures |r| == 4 && Be32(r[0], r[1], r[2], r[3]) == n
  {
    var high, low := n / WORD, n % WORD;
    [high / 256, high % 256, low / 256, low % 256]
  }

  function Zeros(n: nat): (r: seq<byte>)
    ensures |r| == n && forall i :: 0 <= i < n ==> r[i] == 0
  {
    seq(n, i => 0)
  }

  lemma TwoZeros()
    ensures Zeros(2) == [0, 0]
  {
  }

  lemma FourZeros()
    ensures Zeros(4) == [0, 0] + [0, 0]
  {
  }

  lemma ZeroField()
    ensures Bytes16(0) == [0, 0]
  {
  }
}
