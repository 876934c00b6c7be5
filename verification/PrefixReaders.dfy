/**
 Three separately written readers of a length prefix. Each accepts exactly the canonical encodings of
 the lengths from one to its limit, so all three accept the same prefixes with the same lengths.
 */
module PrefixReaders {
  import opened Bytes
  import opened Varint

  /** A prefix is accepted with its length and size, refused, or not complete yet. */
  datatype Prefix = Accepted(length: nat, used: nat) | Refused | Starved

  /** The independent meaning of acceptance: the stream starts with the encoding of a permitted length. */
  predicate Announces(stream: seq<byte>, maximum: nat, length: nat) {
    0 < length <= maximum && Encode(length) <= stream
  }

  /** A result is right when it names the announced length, or refuses because there is none. */
  ghost predicate Right(stream: seq<byte>, maximum: nat, r: Prefix) {
    match r
    case Accepted(length, used) => Announces(stream, maximum, length) && used == |Encode(length)|
    case Refused => forall length :: !Announces(stream, maximum, length)
    case Starved => |stream| < 5 && Continued(stream)
  }

  // ---------------------------------------------------------------- at most one length is announced

  /** A terminated prefix ends at its first byte without continuation. */
  lemma ShapedPrefix(x: seq<byte>, y: seq<byte>)
    requires Shaped(x) && Shaped(y) && x <= y
    ensures x == y
  {
  }

  lemma SameStream(x: seq<byte>, y: seq<byte>, stream: seq<byte>)
    requires Shaped(x) && Shaped(y) && x <= stream && y <= stream
    ensures x == y
  {
    if |x| <= |y| {
      ShapedPrefix(x, y);
    } else {
      ShapedPrefix(y, x);
    }
  }

  lemma EncodePrefixFree(a: nat, b: nat, stream: seq<byte>)
    requires Encode(a) <= stream && Encode(b) <= stream
    ensures a == b
  {
    EncodeMeans(a);
    EncodeMeans(b);
    SameStream(Encode(a), Encode(b), stream);
  }

  /** Two right results are the same. */
  lemma RightUnique(stream: seq<byte>, maximum: nat, a: Prefix, b: Prefix)
    requires Right(stream, maximum, a) && Right(stream, maximum, b)
    ensures a.Accepted? <==> b.Accepted?
    ensures a.Accepted? ==> a == b
  {
    if a.Accepted? {
      if b.Accepted? {
        EncodePrefixFree(a.length, b.length, stream);
      } else if b.Starved? {
        StarvedAnnouncesNothing(stream, maximum, a.length);
      }
    } else if b.Accepted? && a.Starved? {
      StarvedAnnouncesNothing(stream, maximum, b.length);
    }
  }

  lemma StarvedAnnouncesNothing(stream: seq<byte>, maximum: nat, length: nat)
    requires Continued(stream)
    ensures !Announces(stream, maximum, length)
  {
    EncodeMeans(length);
  }

  // ---------------------------------------------------------------- common facts about a scanned prefix

  /** The first `used` bytes end the prefix: what they decode to decides. */
  lemma EndedDecides(stream: seq<byte>, maximum: nat, used: nat)
    requires 0 < used <= |stream| && used <= 5 && Shaped(stream[..used]) && maximum < WRAP
    ensures var r := Decode(stream[..used]);
            Right(stream, maximum, if r.Ok? && 0 < r.value <= maximum then Accepted(r.value, used) else Refused)
  {
    var prefix := stream[..used];
    var r := Decode(prefix);
    if r.Ok? {
      EncodeDecode(prefix);
    }
    forall length: nat | Announces(stream, maximum, length) ensures r == Ok(length) {
      SameEnd(stream, length, used);
      DecodeEncode(length);
    }
  }

  lemma SameEnd(stream: seq<byte>, length: nat, used: nat)
    requires Encode(length) <= stream && 0 < used <= |stream| && Shaped(stream[..used])
    ensures Encode(length) == stream[..used]
  {
    EncodeMeans(length);
    SameStream(Encode(length), stream[..used], stream);
  }

  /** Five continued bytes announce nothing a 32-bit limit permits. */
  lemma TooLongRefused(stream: seq<byte>, maximum: nat)
    requires |stream| >= 5 && Continued(stream[..5]) && maximum < WRAP
    ensures Right(stream, maximum, Refused)
  {
    forall length: nat ensures !Announces(stream, maximum, length) {
      if length <= maximum {
        EncodeFits(length);
        StarvedAnnouncesNothing(stream[..5], maximum, length);
        var x := Encode(length);
        assert x <= stream ==> x <= stream[..5];
      }
    }
  }

  // ---------------------------------------------------------------- gateway protocol and multihop readers

  /** The reader of the gateway protocol: collect up to five bytes, decode, check the bounds. */
  method ReadProtocolPrefix(stream: seq<byte>, maximum: nat) returns (r: Prefix)
    requires maximum < WRAP
    ensures Right(stream, maximum, r)
  {
    var used := 0;
    while true
      invariant 0 <= used <= 5 && used <= |stream| && Continued(stream[..used])
      decreases 5 - used
    {
      if used == 5 {
        TooLongRefused(stream, maximum);
        return Refused;
      }
      if used == |stream| {
        assert stream[..used] == stream;
        return Starved;
      }
      var byte_ := stream[used];
      used := used + 1;
      assert stream[..used] == stream[..used - 1] + [byte_];
      if byte_ < 128 {
        break;
      }
    }
    assert stream[..used][..used - 1] == stream[..used - 1];
    EndedDecides(stream, maximum, used);
    var length := DecodeVarint(stream[..used]);
    if length.Err? || length.value == 0 || length.value > maximum {
      return Refused;
    }
    return Accepted(length.value, used);
  }

  /** The multihop reader folds both bound checks into one error. */
  method ReadMultihopPrefix(stream: seq<byte>, maximum: nat) returns (r: Prefix)
    requires maximum < WRAP
    ensures Right(stream, maximum, r)
  {
    var prefix: seq<byte> := [];
    while true
      invariant |prefix| <= 5 && prefix <= stream && Continued(prefix)
      decreases 5 - |prefix|
    {
      if |prefix| == 5 {
        assert stream[..5] == prefix;
        TooLongRefused(stream, maximum);
        return Refused;
      }
      if |prefix| == |stream| {
        assert stream == prefix;
        return Starved;
      }
      ghost var before := prefix;
      prefix := prefix + [stream[|prefix|]];
      assert prefix[..|prefix| - 1] == before;
      if prefix[|prefix| - 1] < 128 {
        break;
      }
    }
    assert stream[..|prefix|] == prefix;
    EndedDecides(stream, maximum, |prefix|);
    var length := DecodeVarint(prefix);
    match length
    case Err(_) => return Refused;
    case Ok(value) =>
      if value == 0 || value > maximum {
        return Refused;
      }
      return Accepted(value, |prefix|);
  }

  // ---------------------------------------------------------------- the daemon's reader

  function CanonicalBytes(length: nat): nat {
    if length < 0x80 then 1
    else if length < 0x4000 then 2
    else if length < 0x20_0000 then 3
    else if length < 0x1000_0000 then 4
    else 5
  }

  /** The size check of the daemon is exactly canonicity. */
  lemma CanonicalBytesRight(bytes: seq<byte>)
    requires Shaped(bytes) && |bytes| <= 5
    ensures |bytes| == CanonicalBytes(Value(bytes)) <==> Canonical(bytes)
  {
    var n := |bytes| - 1;
    assert bytes == bytes[..n] + [bytes[n]];
    ValueAppend(bytes[..n], bytes[n]);
    ValueBound(bytes[..n]);
    ValueBound(bytes);
    Powers();
    assert Power(5) == 128 * Power(4);
    if n > 0 {
      LastDigit(bytes[n], Power(n), Value(bytes[..n]));
    }
  }

  /** What five bytes can carry. */
  const FIVE_BYTES: nat := 0x8_0000_0000

  /** The limit that a prefix of five bytes can reach. */
  function Reachable(maximum: nat): nat {
    if maximum < FIVE_BYTES then maximum else FIVE_BYTES - 1
  }

  lemma FiveBytes()
    ensures Power(5) == FIVE_BYTES
  {
    Powers();
    assert Power(5) == 128 * Power(4);
  }

  /** The value accumulated by the daemon decides. */
  lemma DaemonDecides(stream: seq<byte>, maximum: nat, used: nat)
    requires 0 < used <= |stream| && used <= 5 && Shaped(stream[..used])
    ensures var v := Value(stream[..used]);
            Right(stream, Reachable(maximum),
                  if 0 < v <= maximum && used == CanonicalBytes(v) then Accepted(v, used) else Refused)
  {
    var prefix := stream[..used];
    var v := Value(prefix);
    CanonicalBytesRight(prefix);
    ValueBound(prefix);
    PowerGrows(used, 5);
    FiveBytes();
    if Canonical(prefix) {
      EncodeUnique(prefix);
    }
    forall length: nat | Announces(stream, Reachable(maximum), length) ensures length == v && Canonical(prefix) {
      SameEnd(stream, length, used);
      EncodeMeans(length);
    }
  }

  /** Five continued bytes announce nothing that five bytes can carry. */
  lemma NeverEnds(stream: seq<byte>, maximum: nat)
    requires |stream| >= 5 && Continued(stream[..5])
    ensures Right(stream, Reachable(maximum), Refused)
  {
    forall length: nat ensures !Announces(stream, Reachable(maximum), length) {
      if length <= Reachable(maximum) {
        var x := Encode(length);
        EncodeMeans(length);
        FiveBytes();
        if |x| > 5 {
          CanonicalSize(x);
          PowerGrows(5, |x| - 1);
        }
        assert x <= stream ==> x == stream[..|x|];
        StarvedAnnouncesNothing(stream[..5], Reachable(maximum), length);
      }
    }
  }

  /** The daemon's reader: accumulate while reading, then check the bounds and the prefix size. */
  method ReadDaemonPrefix(stream: seq<byte>, maximum: nat) returns (r: Prefix)
    ensures Right(stream, Reachable(maximum), r)
  {
    if |stream| == 0 {
      return Starved;
    }
    var last, length, weight, used := stream[0], (stream[0] % 128) as nat, 128 as nat, 1;
    assert stream[..1] == [stream[0]] && [stream[0]][1..] == [];
    while used < 5 && last >= 128
      invariant 1 <= used <= 5 && used <= |stream| && last == stream[used - 1]
      invariant Continued(stream[..used - 1])
      invariant length == Value(stream[..used]) && weight == Power(used)
    {
      if used == |stream| {
        Prolonged(stream, used);
        assert stream[..used] == stream;
        return Starved;
      }
      Prolonged(stream, used);
      assert stream[..used + 1] == stream[..used] + [stream[used]];
      ValueAppend(stream[..used], stream[used]);
      last := stream[used];
      length := length + last % 128 * weight;
      weight := 128 * weight;
      used := used + 1;
    }
    if last >= 128 {
      Prolonged(stream, used);
      NeverEnds(stream, maximum);
      return Refused;
    }
    assert stream[..used][..used - 1] == stream[..used - 1];
    DaemonDecides(stream, maximum, used);
    if length == 0 || length > maximum || used != CanonicalBytes(length) {
      return Refused;
    }
    return Accepted(length, used);
  }

  lemma Prolonged(stream: seq<byte>, used: nat)
    requires 0 < used <= |stream| && Continued(stream[..used - 1]) && stream[used - 1] >= 128
    ensures Continued(stream[..used])
  {
    assert stream[..used] == stream[..used - 1] + [stream[used - 1]];
  }

  // ---------------------------------------------------------------- agreement

  /** Whatever the three readers return on the same stream with the same limit, the protocol's and the multihop
      reader accept the same prefixes with the same lengths, and the daemon's those of them that announce what
      five bytes can carry. Every length within a 32-bit limit is such a one. */
  lemma ReadersAgree(stream: seq<byte>, maximum: nat, protocol: Prefix, daemon: Prefix, multihop: Prefix)
    requires Right(stream, maximum, protocol) && Right(stream, Reachable(maximum), daemon)
    requires Right(stream, maximum, multihop)
    ensures protocol.Accepted? <==> multihop.Accepted?
    ensures protocol.Accepted? ==> protocol == multihop
    ensures daemon.Accepted? <==> protocol.Accepted? && protocol.length < FIVE_BYTES
    ensures daemon.Accepted? ==> daemon == protocol
    ensures maximum < WRAP ==> (daemon.Accepted? <==> protocol.Accepted?)
  {
    RightUnique(stream, maximum, protocol, multihop);
    if daemon.Accepted? {
      RightUnique(stream, maximum, protocol, daemon);
    } else if protocol.Accepted? && protocol.length < FIVE_BYTES {
      RightUnique(stream, Reachable(maximum), protocol, daemon);
    }
  }
}
