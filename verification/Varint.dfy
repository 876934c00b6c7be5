/** Canonical base-128 lengths: seven bits to a byte, least significant first, the high bit on all but the last. */
module Varint {
  import opened Bytes

  datatype VarintError = InvalidLengthPrefix | NonCanonicalVarint

  datatype Result<+T> = Ok(value: T) | Err(error: VarintError)

  // ---------------------------------------------------------------- the two directions

  function Encode(value: nat): (r: seq<byte>)
    ensures r != []
  {
    if value < 128 then [value] else [value % 128 + 128] + Encode(value / 128)
  }

  function Power(n: nat): (r: nat)
    ensures r > 0
  {
    if n == 0 then 1 else 128 * Power(n - 1)
  }

  /** Reads on from an index with the value so far; the fifth byte may carry only four bits. */
  function DecodeFrom(bytes: seq<byte>, index: nat, value: nat): Result<nat>
    requires index <= |bytes|
    decreases |bytes| - index
  {
    if index == |bytes| then Err(InvalidLengthPrefix)
    else
      var bits := bytes[index] % 128;
      if index == 4 && bits > 15 then Err(InvalidLengthPrefix)
      else
        var value := value + bits * Power(index);
        if bytes[index] >= 128 then DecodeFrom(bytes, index + 1, value)
        else if index + 1 != |bytes| then Err(InvalidLengthPrefix)
        else if index > 0 && value < Power(index) then Err(NonCanonicalVarint)
        else Ok(value)
  }

  function Decode(bytes: seq<byte>): Result<nat> {
    if bytes == [] || |bytes| > 5 then Err(InvalidLengthPrefix) else DecodeFrom(bytes, 0, 0)
  }

  // ---------------------------------------------------------------- what the bytes mean

  function Value(bytes: seq<byte>): nat {
    if bytes == [] then 0 else bytes[0] % 128 + 128 * Value(bytes[1..])
  }

  predicate Continued(bytes: seq<byte>) {
    forall i :: 0 <= i < |bytes| ==> bytes[i] >= 128
  }

  /** All but the last byte are continued. */
  predicate Shaped(bytes: seq<byte>) {
    bytes != [] && Continued(bytes[..|bytes| - 1]) && bytes[|bytes| - 1] < 128
  }

  /** No shorter encoding of the same value exists. */
  predicate Canonical(bytes: seq<byte>) {
    Shaped(bytes) && (|bytes| > 1 ==> bytes[|bytes| - 1] != 0)
  }

  lemma {:induction false} ValueAppend(bytes: seq<byte>, last: byte)
    ensures Value(bytes + [last]) == Value(bytes) + last % 128 * Power(|bytes|)
  {
    if bytes == [] {
      assert [last][1..] == [];
    } else {
      ValueAppend(bytes[1..], last);
      assert (bytes + [last])[1..] == bytes[1..] + [last];
      var x, p := last % 128, Power(|bytes| - 1);
      assert 128 * (x * p) == x * (128 * p);
    }
  }

  lemma {:induction false} ValueBound(bytes: seq<byte>)
    ensures Value(bytes) < Power(|bytes|)
  {
    if bytes != [] {
      ValueBound(bytes[1..]);
    }
  }

  /** Decoding returns the value of a canonical string, and only of one that fits in 32 bits. */
  lemma {:induction false} DecodeMeans(bytes: seq<byte>, index: nat)
    requires index < |bytes| <= 5 && Continued(bytes[..index])
    ensures var r := DecodeFrom(bytes, index, Value(bytes[..index]));
            (r.Ok? <==> Canonical(bytes) && (|bytes| == 5 ==> bytes[4] < 16)) && (r.Ok? ==> r.value == Value(bytes))
    decreases |bytes| - index
  {
    var before, upto := bytes[..index], bytes[..index + 1];
    assert upto == before + [bytes[index]];
    ValueAppend(before, bytes[index]);
    ValueBound(before);
    if bytes[index] >= 128 {
      if index + 1 < |bytes| {
        assert Continued(upto);
        DecodeMeans(bytes, index + 1);
      }
    } else {
      if index + 1 == |bytes| {
        assert upto == bytes && bytes[..|bytes| - 1] == before;
        LastDigit(bytes[index], Power(index), Value(before));
      } else {
        assert bytes[..|bytes| - 1][index] == bytes[index];
      }
    }
  }

  lemma LastDigit(x: nat, p: nat, v: nat)
    requires v < p
    ensures v + x * p < p <==> x == 0
  {
    if x > 0 {
      assert x * p >= p;
    }
  }

  // ---------------------------------------------------------------- a bijection

  lemma {:induction false} EncodeMeans(value: nat)
    ensures Canonical(Encode(value)) && Value(Encode(value)) == value
    ensures value > 0 ==> Encode(value)[|Encode(value)| - 1] != 0
  {
    var r := Encode(value);
    if value < 128 {
      assert r[1..] == [];
    } else {
      EncodeMeans(value / 128);
      var rest := Encode(value / 128);
      assert r[1..] == rest && r[|r| - 1] == rest[|rest| - 1];
      assert r[..|r| - 1] == [r[0]] + rest[..|rest| - 1];
    }
  }

  lemma {:induction false} EncodeUnique(bytes: seq<byte>)
    requires Canonical(bytes)
    ensures Encode(Value(bytes)) == bytes
  {
    var rest := bytes[1..];
    if rest == [] {
      assert bytes == [bytes[0]] && Value(bytes) == bytes[0];
    } else {
      assert bytes[0] == bytes[..|bytes| - 1][0] && rest[..|rest| - 1] == bytes[..|bytes| - 1][1..];
      EncodeUnique(rest);
      ValuePositive(rest);
      assert Value(bytes) / 128 == Value(rest) && Value(bytes) % 128 == bytes[0] % 128;
      assert bytes == [bytes[0]] + rest;
    }
  }

  lemma {:induction false} ValuePositive(bytes: seq<byte>)
    requires Shaped(bytes) && bytes[|bytes| - 1] != 0
    ensures Value(bytes) > 0
  {
    var n := |bytes| - 1;
    assert bytes == bytes[..n] + [bytes[n]];
    ValueAppend(bytes[..n], bytes[n]);
    LastDigit(bytes[n], Power(n), 0);
  }

  lemma Powers()
    ensures Power(1) == 128 && Power(2) == 16384 && Power(3) == 2097152 && Power(4) == 268435456
  {
    assert Power(0) == 1 && Power(1) == 128 * Power(0) && Power(2) == 128 * Power(1);
    assert Power(3) == 128 * Power(2) && Power(4) == 128 * Power(3);
  }

  lemma {:induction false} CanonicalSize(bytes: seq<byte>)
    requires Canonical(bytes) && |bytes| > 1
    ensures Value(bytes) >= Power(|bytes| - 1)
  {
    var n := |bytes| - 1;
    assert bytes == bytes[..n] + [bytes[n]];
    ValueAppend(bytes[..n], bytes[n]);
    assert bytes[n] * Power(n) >= Power(n);
  }

  lemma {:induction false} PowerGrows(m: nat, n: nat)
    requires m <= n
    ensures Power(m) <= Power(n)
  {
    if m < n {
      PowerGrows(m, n - 1);
    }
  }

  /** A 32-bit value takes at most five bytes, and the fifth at most four bits. */
  lemma EncodeFits(value: nat)
    requires value < WRAP
    ensures |Encode(value)| <= 5 && (|Encode(value)| == 5 ==> Encode(value)[4] < 16)
  {
    var r := Encode(value);
    EncodeMeans(value);
    Powers();
    if |r| > 1 {
      CanonicalSize(r);
    }
    if |r| > 5 {
      PowerGrows(5, |r| - 1);
    } else if |r| == 5 {
      assert r == r[..4] + [r[4]];
      ValueAppend(r[..4], r[4]);
    }
  }

  /** Decoding inverts encoding for every 32-bit value. */
  lemma DecodeEncode(value: nat)
    requires value < WRAP
    ensures Decode(Encode(value)) == Ok(value)
  {
    var r := Encode(value);
    EncodeMeans(value);
    EncodeFits(value);
    assert r[..0] == [];
    DecodeMeans(r, 0);
  }

  /** Any accepted byte string is the encoding of its value, which fits in 32 bits. */
  lemma EncodeDecode(bytes: seq<byte>)
    requires Decode(bytes).Ok?
    ensures Encode(Decode(bytes).value) == bytes && Decode(bytes).value < WRAP
  {
    assert bytes[..0] == [];
    DecodeMeans(bytes, 0);
    EncodeUnique(bytes);
    CanonicalFits(bytes);
  }

  lemma CanonicalFits(bytes: seq<byte>)
    requires 0 < |bytes| <= 5 && (|bytes| == 5 ==> bytes[4] < 16)
    ensures Value(bytes) < WRAP
  {
    Powers();
    if |bytes| == 5 {
      assert bytes == bytes[..4] + [bytes[4]];
      ValueAppend(bytes[..4], bytes[4]);
      ValueBound(bytes[..4]);
    } else {
      ValueBound(bytes);
      PowerGrows(|bytes|, 4);
    }
  }

  // ---------------------------------------------------------------- the loops

  method EncodeVarint(value: nat, output: seq<byte>) returns (r: seq<byte>)
    ensures r == output + Encode(value)
  {
    r := output;
    var v := value;
    while v >= 128
      invariant r + Encode(v) == output + Encode(value)
    {
      assert r + ([v % 128 + 128] + Encode(v / 128)) == (r + [v % 128 + 128]) + Encode(v / 128);
      r := r + [v % 128 + 128];
      v := v / 128;
    }
    r := r + [v];
  }

  method DecodeVarint(bytes: seq<byte>) returns (r: Result<nat>)
    ensures r == Decode(bytes)
  {
    if |bytes| == 0 || |bytes| > 5 {
      return Err(InvalidLengthPrefix);
    }
    var value: nat, weight: nat := 0, 1;
    for index := 0 to |bytes|
      invariant weight == Power(index)
      invariant DecodeFrom(bytes, index, value) == Decode(bytes)
    {
      var bits := bytes[index] % 128;
      if index == 4 && bits > 15 {
        return Err(InvalidLengthPrefix);
      }
      value := value + bits * weight;
      if bytes[index] < 128 {
        if index + 1 != |bytes| {
          return Err(InvalidLengthPrefix);
        }
        if index > 0 && value < weight {
          return Err(NonCanonicalVarint);
        }
        return Ok(value);
      }
      weight := 128 * weight;
    }
    return Err(InvalidLengthPrefix);
  }
}
