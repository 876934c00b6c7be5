/** The builders write the packet field by field into one zeroed buffer, checksums last. */
module PacketBuilder {
  import opened Bytes
  import opened Checksum
  import opened Packet

  /** The buffer starts with the given bytes and is still zero after them. */
  ghost predicate Filled(buffer: array<byte>, filled: seq<byte>)
    reads buffer
  {
    |filled| <= buffer.Length && buffer[..] == filled + Zeros(buffer.Length - |filled|)
  }

  method Put(buffer: array<byte>, at: nat, bytes: seq<byte>)
    requires at + |bytes| <= buffer.Length
    modifies buffer
    ensures buffer[..] == old(buffer[..at]) + bytes + old(buffer[at + |bytes|..])
  {
    var i := 0;
    while i < |bytes|
      invariant 0 <= i <= |bytes|
      invariant buffer[..] == old(buffer[..at]) + bytes[..i] + old(buffer[at + i..])
    {
      buffer[at + i] := bytes[i];
      i := i + 1;
    }
    assert bytes[..i] == bytes;
  }

  /** Writes right after the filled part. */
  method PutHere(buffer: array<byte>, ghost filled: seq<byte>, at: nat, bytes: seq<byte>)
    requires Filled(buffer, filled) && at == |filled| && at + |bytes| <= buffer.Length
    modifies buffer
    ensures Filled(buffer, filled + bytes)
  {
    Put(buffer, at, bytes);
  }

  /** Writes further on; what lies between stays zero. */
  method PutAfter(buffer: array<byte>, ghost filled: seq<byte>, ghost gap: nat, at: nat, bytes: seq<byte>)
    requires Filled(buffer, filled) && at == |filled| + gap && at + |bytes| <= buffer.Length
    modifies buffer
    ensures Filled(buffer, filled + Zeros(gap) + bytes)
  {
    Put(buffer, at, bytes);
  }

  /** The IPv4 header with a zero checksum field. */
  ghost function BlankIp(totalLength: nat, protocol: byte, source: Address, destination: Address): (r: seq<byte>)
    requires totalLength < WORD
    ensures |r| == 20
  {
    IpFront(totalLength, protocol) + Bytes16(0) + IpBack(source, destination)
  }

  lemma IpShape(length: seq<byte>, totalLength: nat, protocol: byte, source: Address, destination: Address)
    requires totalLength < WORD && length == Bytes16(totalLength)
    ensures [0x45] + Zeros(1) + length + Zeros(2) + [0x40, 0] + [64, protocol] + Zeros(2) + Octets(source) + Octets(destination)
         == BlankIp(totalLength, protocol, source, destination)
  {
    hide Zeros;
    assert Zeros(1) == [0] && Zeros(2) == [0, 0] && Bytes16(0) == [0, 0];
    hide Bytes16;
    assert [0x45] + [0] + length + [0, 0] + [0x40, 0] + [64, protocol] == IpFront(totalLength, protocol);
    assert (IpFront(totalLength, protocol) + Bytes16(0)) + Octets(source) + Octets(destination)
        == (IpFront(totalLength, protocol) + Bytes16(0)) + (Octets(source) + Octets(destination));
  }

  method PutIp(buffer: array<byte>, protocol: byte, source: Address, destination: Address)
    requires 20 <= buffer.Length < WORD && Filled(buffer, [])
    modifies buffer
    ensures Filled(buffer, BlankIp(buffer.Length, protocol, source, destination))
  {
    hide Zeros, Bytes16, Filled, BlankIp;
    var length := Bytes16(buffer.Length);
    IpShape(length, buffer.Length, protocol, source, destination);
    PutHere(buffer, [], 0, [0x45]);
    assert [] + [0x45] == [0x45];
    ghost var p := [0x45] + Zeros(1) + length;
    PutAfter(buffer, [0x45], 1, 2, length);
    PutAfter(buffer, p, 2, 6, [0x40, 0]);
    p := p + Zeros(2) + [0x40, 0];
    PutHere(buffer, p, 8, [64, protocol]);
    p := p + [64, protocol];
    PutAfter(buffer, p, 2, 12, Octets(source));
    p := p + Zeros(2) + Octets(source);
    PutHere(buffer, p, 16, Octets(destination));
  }

  lemma Regroup(a: seq<byte>, b: seq<byte>, c: seq<byte>)
    ensures a + b + c == a + (b + c)
  {
  }

  lemma TcpFrontShape(ip: seq<byte>, s: Segment)
    requires SegmentFields(s)
    ensures ip + Bytes16(s.sourcePort) + Bytes16(s.destinationPort) + Bytes32(s.sequence) + Bytes32(s.acknowledgement)
            + [0x50, FlagBits(s.flags)] + Bytes16(s.window) == ip + TcpFront(s)
  {
    hide Bytes16, Bytes32, FlagBits;
    var p := Bytes16(s.sourcePort);
    Regroup(ip, p, Bytes16(s.destinationPort));
    p := p + Bytes16(s.destinationPort);
    Regroup(ip, p, Bytes32(s.sequence));
    p := p + Bytes32(s.sequence);
    Regroup(ip, p, Bytes32(s.acknowledgement));
    p := p + Bytes32(s.acknowledgement);
    Regroup(ip, p, [0x50, FlagBits(s.flags)]);
    p := p + [0x50, FlagBits(s.flags)];
    Regroup(ip, p, Bytes16(s.window));
  }

  lemma TcpShape(ip: seq<byte>, s: Segment)
    requires SegmentFields(s)
    ensures ip + TcpFront(s) + Zeros(4) + s.payload == ip + TcpWith(s, 0)
  {
    hide Bytes16, TcpFront, Zeros;
    FourZeros();
    ZeroField();
    Spread(ip, TcpFront(s), Bytes16(0), [0, 0], Zeros(4), s.payload);
  }

  /** Zeros written behind the front are the blank field and the two bytes after it. */
  lemma Spread(ip: seq<byte>, front: seq<byte>, blank: seq<byte>, more: seq<byte>, zeros: seq<byte>, payload: seq<byte>)
    requires zeros == blank + more
    ensures ip + front + zeros + payload == ip + (front + blank + (more + payload))
  {
    Regroup(ip, front, zeros);
    Regroup(ip, front + zeros, payload);
    Regroup(front, blank, more);
    Regroup(front + blank, more, payload);
  }

  method PutTcp(output: array<byte>, s: Segment)
    requires SegmentFields(s) && output.Length == 40 + |s.payload| < WORD
    requires Filled(output, BlankIp(output.Length, 6, s.source, s.destination))
    modifies output
    ensures Filled(output, BlankIp(output.Length, 6, s.source, s.destination) + TcpWith(s, 0))
  {
    hide Zeros, Bytes16, Bytes32, BlankIp, FlagBits, Filled, TcpFront, TcpWith;
    ghost var ip := BlankIp(output.Length, 6, s.source, s.destination);
    TcpFrontShape(ip, s);
    TcpShape(ip, s);
    PutHere(output, ip, 20, Bytes16(s.sourcePort));
    ghost var p := ip + Bytes16(s.sourcePort);
    PutHere(output, p, 22, Bytes16(s.destinationPort));
    p := p + Bytes16(s.destinationPort);
    PutHere(output, p, 24, Bytes32(s.sequence));
    p := p + Bytes32(s.sequence);
    PutHere(output, p, 28, Bytes32(s.acknowledgement));
    p := p + Bytes32(s.acknowledgement);
    PutHere(output, p, 32, [0x50, FlagBits(s.flags)]);
    p := p + [0x50, FlagBits(s.flags)];
    PutHere(output, p, 34, Bytes16(s.window));
    PutAfter(output, ip + TcpFront(s), 4, 40, s.payload);
  }

  method ComputeTransportChecksum(source: Address, destination: Address, protocol: byte,
                                  bytes: seq<byte>) returns (r: nat)
    requires |bytes| < WORD
    ensures r == TransportChecksum(source, destination, protocol, bytes)
  {
    r := ComputeChecksum(Pseudo(source, destination, protocol, |bytes|) + bytes);
  }

  lemma FieldReplaced(whole: seq<byte>, at: nat, field: seq<byte>, ip: seq<byte>, front: seq<byte>, blank: seq<byte>,
                      back: seq<byte>)
    requires |blank| == |field| == 2 && at == |ip| + |front| && whole == ip + (front + blank + back)
    ensures whole[|ip|..] == front + blank + back
    ensures whole[..at] + field + whole[at + 2..] == ip + (front + field + back)
  {
    assert whole[..at] == ip + front && whole[at + 2..] == back;
  }

  /** Checksums the zero-field transport bytes in place and writes the result into their field. */
  method PutTransportChecksum(output: array<byte>, protocol: byte, source: Address, destination: Address,
                              ghost ip: seq<byte>, ghost front: seq<byte>, ghost back: seq<byte>, at: nat)
    returns (checksum: nat)
    requires |ip| == 20 && at == 20 + |front| && output.Length < WORD
    requires output[..] == ip + (front + Bytes16(0) + back)
    modifies output
    ensures checksum == TransportChecksum(source, destination, protocol, front + Bytes16(0) + back)
    ensures output[..] == ip + (front + Bytes16(checksum) + back)
  {
    hide TransportChecksum, Bytes16;
    ghost var whole := output[..];
    FieldReplaced(whole, at, Bytes16(0), ip, front, Bytes16(0), back);
    checksum := ComputeTransportChecksum(source, destination, protocol, output[20..]);
    FieldReplaced(whole, at, Bytes16(checksum), ip, front, Bytes16(0), back);
    Put(output, at, Bytes16(checksum));
  }

  method PutIpChecksum(output: array<byte>, protocol: byte, source: Address, destination: Address,
                       ghost transport: seq<byte>)
    requires output.Length == 20 + |transport| < WORD
    requires output[..] == BlankIp(output.Length, protocol, source, destination) + transport
    modifies output
    ensures output[..] == IpHeader(output.Length, protocol, source, destination) + transport
  {
    hide Bytes16, IpFront, IpBack, ChecksumOf;
    ghost var whole := output[..];
    assert output[..20] == BlankIp(output.Length, protocol, source, destination);
    var checksum := ComputeChecksum(output[..20]);
    Put(output, 10, Bytes16(checksum));
    assert whole[..10] == IpFront(output.Length, protocol);
    assert whole[12..] == IpBack(source, destination) + transport;
  }

  method BuildTcpPacket(s: Segment) returns (output: array<byte>)
    requires SegmentFields(s)
    ensures output[..] == TcpPacket(s)
  {
    hide BlankIp, TransportChecksum, IpHeader, TcpFront, Bytes16;
    if 40 + |s.payload| > 65535 {
      output := new byte[0];
      return;
    }
    output := new byte[40 + |s.payload|](_ => 0);
    PutIp(output, 6, s.source, s.destination);
    PutTcp(output, s);
    ghost var ip := BlankIp(output.Length, 6, s.source, s.destination);
    var checksum := PutTransportChecksum(output, 6, s.source, s.destination, ip, TcpFront(s), [0, 0] + s.payload, 36);
    assert output[..] == ip + TcpBytes(s);
    PutIpChecksum(output, 6, s.source, s.destination, TcpBytes(s));
  }

  lemma UdpFrontShape(ip: seq<byte>, d: Datagram)
    requires DatagramFields(d) && 8 + |d.payload| < WORD
    ensures ip + Bytes16(d.sourcePort) + Bytes16(d.destinationPort) + Bytes16(8 + |d.payload|) == ip + UdpFront(d)
  {
    hide Bytes16;
    Regroup(ip, Bytes16(d.sourcePort), Bytes16(d.destinationPort));
    Regroup(ip, Bytes16(d.sourcePort) + Bytes16(d.destinationPort), Bytes16(8 + |d.payload|));
  }

  lemma UdpShape(ip: seq<byte>, d: Datagram)
    requires DatagramFields(d) && 8 + |d.payload| < WORD
    ensures ip + UdpFront(d) + Zeros(2) + d.payload == ip + UdpWith(d, 0)
  {
    hide Bytes16, Zeros, UdpFront;
    TwoZeros();
    ZeroField();
    Regroup(ip, UdpFront(d), Zeros(2));
    Regroup(ip, UdpFront(d) + Zeros(2), d.payload);
  }

  method PutUdp(output: array<byte>, d: Datagram)
    requires DatagramFields(d) && output.Length == 28 + |d.payload| < WORD
    requires Filled(output, BlankIp(output.Length, 17, d.source, d.destination))
    modifies output
    ensures Filled(output, BlankIp(output.Length, 17, d.source, d.destination) + UdpWith(d, 0))
  {
    hide Zeros, Bytes16, BlankIp, Filled, UdpFront, UdpWith;
    ghost var ip := BlankIp(output.Length, 17, d.source, d.destination);
    UdpFrontShape(ip, d);
    UdpShape(ip, d);
    PutHere(output, ip, 20, Bytes16(d.sourcePort));
    ghost var p := ip + Bytes16(d.sourcePort);
    PutHere(output, p, 22, Bytes16(d.destinationPort));
    PutHere(output, p + Bytes16(d.destinationPort), 24, Bytes16(8 + |d.payload|));
    PutAfter(output, ip + UdpFront(d), 2, 28, d.payload);
  }

  method BuildUdpPacket(d: Datagram) returns (output: array<byte>)
    requires DatagramFields(d)
    ensures output[..] == UdpPacket(d)
  {
    hide BlankIp, TransportChecksum, IpHeader, UdpFront, Bytes16;
    if 28 + |d.payload| > 65535 {
      output := new byte[0];
      return;
    }
    output := new byte[28 + |d.payload|](_ => 0);
    PutIp(output, 17, d.source, d.destination);
    PutUdp(output, d);
    ghost var ip := BlankIp(output.Length, 17, d.source, d.destination);
    var checksum := PutTransportChecksum(output, 17, d.source, d.destination, ip, UdpFront(d), d.payload, 26);
    assert output[..] == ip + UdpBytes(d);
    PutIpChecksum(output, 17, d.source, d.destination, UdpBytes(d));
  }
}
