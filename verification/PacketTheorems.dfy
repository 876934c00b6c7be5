/**
 Classifying a built packet gives back exactly what it was built from, both checksums verify to
 zero, and a packet with one corrupted payload byte is refused.
 */
module PacketTheorems {
  import opened Bytes
  import opened Checksum
  import opened Packet

  // ---------------------------------------------------------------- checksums

  lemma LeadingByte(bytes: seq<byte>)
    requires |bytes| >= 2 && (bytes[0] > 0 || bytes[1] > 0)
    ensures WordSum(bytes) > 0
  {
  }

  lemma IpHeaderVerifies(totalLength: nat, protocol: byte, source: Address, destination: Address)
    requires totalLength < WORD
    ensures ChecksumOf(IpHeader(totalLength, protocol, source, destination)) == 0
  {
    var front := IpFront(totalLength, protocol);
    assert front[0] == 0x45;
    LeadingByte(front);
    ChecksumVerifies(front, IpBack(source, destination));
  }

  lemma PseudoPositive(source: Address, destination: Address, protocol: byte, length: nat)
    requires protocol > 0 && length < WORD
    ensures WordSum(Pseudo(source, destination, protocol, length)) > 0
  {
    var addresses, rest := Octets(source) + Octets(destination), [0, protocol] + Bytes16(length);
    assert Pseudo(source, destination, protocol, length) == addresses + rest;
    WordSumConcat(addresses, rest);
    LeadingByte(rest);
  }

  /** A transport checksum computed over a zeroed, aligned field verifies to zero once written. */
  lemma TransportVerifies(source: Address, destination: Address, protocol: byte, front: seq<byte>, back: seq<byte>)
    requires protocol > 0 && |front| % 2 == 0 && |front| + |back| <= 65533
    ensures var c := TransportChecksum(source, destination, protocol, front + Bytes16(0) + back);
            TransportChecksum(source, destination, protocol, front + Bytes16(c) + back) == 0
  {
    var length := |front| + 2 + |back|;
    var pseudo := Pseudo(source, destination, protocol, length);
    var c := TransportChecksum(source, destination, protocol, front + Bytes16(0) + back);
    assert |front + Bytes16(0) + back| == length && |front + Bytes16(c) + back| == length;
    assert pseudo + (front + Bytes16(0) + back) == (pseudo + front) + Bytes16(0) + back;
    assert pseudo + (front + Bytes16(c) + back) == (pseudo + front) + Bytes16(c) + back;
    PseudoPositive(source, destination, protocol, length);
    WordSumConcat(pseudo, front);
    ChecksumVerifies(pseudo + front, back);
  }

  // ---------------------------------------------------------------- reading the fields back

  lemma IpFields(totalLength: nat, protocol: byte, source: Address, destination: Address)
    requires totalLength < WORD
    ensures var h := IpHeader(totalLength, protocol, source, destination);
            && h[0] == 0x45 && Be16(h[2], h[3]) == totalLength && Be16(h[6], h[7]) == 0x4000 && h[9] == protocol
            && Address(h[12], h[13], h[14], h[15]) == source && Address(h[16], h[17], h[18], h[19]) == destination
  {
    hide Bytes16, ChecksumOf;
    var front, back := IpFront(totalLength, protocol), IpBack(source, destination);
    var h := IpHeader(totalLength, protocol, source, destination);
    assert h[..10] == front && h[12..] == back;
    assert front[2..4] == Bytes16(totalLength);
    assert h[0] == front[0] && h[2] == front[2] && h[3] == front[3] && h[6] == front[6] && h[7] == front[7] && h[9] == front[9];
    assert h[12] == back[0] && h[13] == back[1] && h[14] == back[2] && h[15] == back[3];
    assert h[16] == back[4] && h[17] == back[5] && h[18] == back[6] && h[19] == back[7];
  }

  lemma TcpFields(s: Segment, c: nat)
    requires SegmentFields(s) && c < WORD
    ensures var t := TcpWith(s, c);
            && Be16(t[0], t[1]) == s.sourcePort && Be16(t[2], t[3]) == s.destinationPort
            && Be32(t[4], t[5], t[6], t[7]) == s.sequence && Be32(t[8], t[9], t[10], t[11]) == s.acknowledgement
            && t[12] == 0x50 && FlagsOf(t[13]) == s.flags && Be16(t[14], t[15]) == s.window && t[20..] == s.payload
  {
    hide Bytes16, Bytes32, Be16, Be32, FlagBits, FlagsOf;
    var front := TcpFront(s);
    var t := TcpWith(s, c);
    assert t[..16] == front;
    assert forall i :: 0 <= i < 16 ==> t[i] == front[i];
    assert front[0..2] == Bytes16(s.sourcePort) && front[2..4] == Bytes16(s.destinationPort);
    assert front[4..8] == Bytes32(s.sequence) && front[8..12] == Bytes32(s.acknowledgement);
    assert front[14..16] == Bytes16(s.window);
    assert t[18..] == [0, 0] + s.payload && t[20..] == t[18..][2..];
  }

  lemma UdpFields(d: Datagram, c: nat)
    requires DatagramFields(d) && 8 + |d.payload| < WORD && c < WORD
    ensures var t := UdpWith(d, c);
            && Be16(t[0], t[1]) == d.sourcePort && Be16(t[2], t[3]) == d.destinationPort
            && Be16(t[4], t[5]) == 8 + |d.payload| && t[8..] == d.payload
  {
    hide Bytes16, Be16;
    var front := UdpFront(d);
    var t := UdpWith(d, c);
    assert t[..6] == front;
    assert forall i :: 0 <= i < 6 ==> t[i] == front[i];
    assert front[0..2] == Bytes16(d.sourcePort) && front[2..4] == Bytes16(d.destinationPort);
    assert front[4..6] == Bytes16(8 + |d.payload|);
  }

  // ---------------------------------------------------------------- round trips

  /** A built header in front of transport bytes is taken apart again exactly. */
  lemma IpTakesApart(protocol: byte, source: Address, destination: Address, transport: seq<byte>, junk: seq<byte>)
    requires 20 + |transport| < WORD
    ensures var packet := IpHeader(20 + |transport|, protocol, source, destination) + transport + junk;
            Classify(packet) ==
              if protocol == 6 then
                (match ParseTcp(source, destination, transport)
                 case Err(e) => Err(e)
                 case Ok(segment) => Ok(Tcp(segment)))
              else if protocol == 17 then
                (match ParseUdp(source, destination, transport)
                 case Err(e) => Err(e)
                 case Ok(datagram) => Ok(Udp(datagram)))
              else if protocol == 1 then
                (if |transport| < 4 then Err(Truncated) else Ok(Icmp(source, destination, transport[0], transport[1])))
              else Ok(Other(protocol))
  {
    hide IpHeader, ChecksumOf, ParseTcp, ParseUdp, Be16;
    var header := IpHeader(20 + |transport|, protocol, source, destination);
    var packet := header + transport + junk;
    IpFields(20 + |transport|, protocol, source, destination);
    IpHeaderVerifies(20 + |transport|, protocol, source, destination);
    assert packet[..20] == header;
    assert forall i :: 0 <= i < 20 ==> packet[i] == header[i];
    assert packet[20..20 + |transport|] == transport;
  }

  lemma ParseBuiltTcp(s: Segment)
    requires SegmentFields(s) && |s.payload| <= 65495
    ensures TransportChecksum(s.source, s.destination, 6, TcpBytes(s)) == 0
    ensures ParseTcp(s.source, s.destination, TcpBytes(s))
         == if Ports(s.sourcePort, s.destinationPort) then Ok(s) else Err(InvalidPort)
  {
    hide TransportChecksum, Be16, Be32, FlagsOf, TcpFront;
    TransportVerifies(s.source, s.destination, 6, TcpFront(s), [0, 0] + s.payload);
    TcpFields(s, TransportChecksum(s.source, s.destination, 6, TcpWith(s, 0)));
  }

  /** A built TCP packet is classified as exactly the segment it was built from if and only if both
      ports are non-zero and the payload fits; bytes after the packet are ignored. */
  lemma TcpRoundTrip(s: Segment, junk: seq<byte>)
    requires SegmentFields(s)
    ensures |s.payload| > 65495 ==> TcpPacket(s) == []
    ensures |s.payload| <= 65495 ==>
              Classify(TcpPacket(s) + junk)
              == if Ports(s.sourcePort, s.destinationPort) then Ok(Tcp(s)) else Err(InvalidPort)
  {
    if |s.payload| <= 65495 {
      ParseBuiltTcp(s);
      IpTakesApart(6, s.source, s.destination, TcpBytes(s), junk);
    }
  }

  lemma ParseBuiltUdp(d: Datagram)
    requires DatagramFields(d) && |d.payload| <= 65507
    ensures TransportChecksum(d.source, d.destination, 17, UdpBytes(d)) == 0
    ensures ParseUdp(d.source, d.destination, UdpBytes(d))
         == if Ports(d.sourcePort, d.destinationPort) then Ok(d) else Err(InvalidPort)
  {
    hide TransportChecksum, Be16, UdpFront;
    TransportVerifies(d.source, d.destination, 17, UdpFront(d), d.payload);
    UdpFields(d, TransportChecksum(d.source, d.destination, 17, UdpWith(d, 0)));
    var t := UdpBytes(d);
    assert t[..8 + |d.payload|] == t;
  }

  lemma UdpRoundTrip(d: Datagram, junk: seq<byte>)
    requires DatagramFields(d)
    ensures |d.payload| > 65507 ==> UdpPacket(d) == []
    ensures |d.payload| <= 65507 ==>
              Classify(UdpPacket(d) + junk)
              == if Ports(d.sourcePort, d.destinationPort) then Ok(Udp(d)) else Err(InvalidPort)
  {
    if |d.payload| <= 65507 {
      ParseBuiltUdp(d);
      IpTakesApart(17, d.source, d.destination, UdpBytes(d), junk);
    }
  }

  // ---------------------------------------------------------------- corruption

  /** Changing one byte of bytes whose transport checksum verifies makes it fail. */
  lemma ByteBreaksChecksum(source: Address, destination: Address, protocol: byte, t: seq<byte>, i: nat, b: byte)
    requires protocol > 0 && |t| < WORD && i < |t| && b != t[i]
    requires TransportChecksum(source, destination, protocol, t) == 0
    ensures TransportChecksum(source, destination, protocol, t[i := b]) != 0
  {
    hide Pseudo, ChecksumOf, WordSum;
    var pseudo, t' := Pseudo(source, destination, protocol, |t|), t[i := b];
    assert (pseudo + t)[12 + i := b] == pseudo + t';
    PseudoPositive(source, destination, protocol, |t|);
    WordSumConcat(pseudo, t);
    WordSumConcat(pseudo, t');
    OneByteChanges(pseudo + t, 12 + i, b);
  }

  /** One changed payload byte anywhere in a built TCP packet is always detected. */
  lemma CorruptionDetected(s: Segment, i: nat, b: byte)
    requires SegmentFields(s) && Ports(s.sourcePort, s.destinationPort)
    requires i < |s.payload| <= 65495 && b != s.payload[i]
    ensures Classify(TcpPacket(s)[40 + i := b]) == Err(InvalidTransportChecksum)
  {
    hide IpHeader, TransportChecksum, Be16, Be32, FlagsOf, TcpWith, Classify;
    var header, t := IpHeader(40 + |s.payload|, 6, s.source, s.destination), TcpBytes(s);
    var t' := t[20 + i := b];
    assert TcpPacket(s)[40 + i := b] == header + t' + [];
    TcpFields(s, TransportChecksum(s.source, s.destination, 6, TcpWith(s, 0)));
    assert t[20 + i] == t[20..][i];
    ParseBuiltTcp(s);
    ByteBreaksChecksum(s.source, s.destination, 6, t, 20 + i, b);
    IpTakesApart(6, s.source, s.destination, t', []);
  }

  /** One changed byte anywhere in the TCP header or payload of a built packet is always detected. */
  lemma TcpCorruptionDetected(s: Segment, i: nat, b: byte)
    requires SegmentFields(s) && |s.payload| <= 65495 && i < 20 + |s.payload| && b != TcpBytes(s)[i]
    ensures Classify(TcpPacket(s)[20 + i := b]).Err?
  {
    hide IpHeader, TransportChecksum, Be16, Be32, FlagsOf, TcpBytes, Classify;
    var header, t := IpHeader(40 + |s.payload|, 6, s.source, s.destination), TcpBytes(s);
    assert TcpPacket(s)[20 + i := b] == header + t[i := b] + [];
    ParseBuiltTcp(s);
    ByteBreaksChecksum(s.source, s.destination, 6, t, i, b);
    IpTakesApart(6, s.source, s.destination, t[i := b], []);
  }

  /** The checksum that the builder writes into a UDP header. */
  function UdpChecksum(d: Datagram): nat
    requires DatagramFields(d) && |d.payload| <= 65507
  {
    TransportChecksum(d.source, d.destination, 17, UdpWith(d, 0))
  }

  lemma UdpPayloadByte(d: Datagram, i: nat, b: byte)
    requires DatagramFields(d) && i < |d.payload| <= 65507
    ensures var t := UdpBytes(d); var t' := t[8 + i := b];
            && t[8 + i] == d.payload[i] && (forall j :: 0 <= j < 8 ==> t'[j] == t[j])
            && t'[8..8 + |d.payload|] == d.payload[i := b] && t'[..8 + |d.payload|] == t'
  {
    hide TransportChecksum, UdpFront, Bytes16;
  }

  /** One changed payload byte of a built UDP packet is detected if and only if the written checksum is not
      zero: a zero field means that there is no checksum, and the builder writes a computed zero as it is. */
  lemma UdpCorruptionIff(d: Datagram, i: nat, b: byte)
    requires DatagramFields(d) && Ports(d.sourcePort, d.destinationPort) && i < |d.payload| <= 65507
    requires b != d.payload[i]
    ensures Classify(UdpPacket(d)[28 + i := b])
         == if UdpChecksum(d) == 0 then Ok(Udp(d.(payload := d.payload[i := b]))) else Err(InvalidTransportChecksum)
  {
    hide IpHeader, TransportChecksum, UdpBytes, Classify, Be16;
    var header, t := IpHeader(28 + |d.payload|, 17, d.source, d.destination), UdpBytes(d);
    var t' := t[8 + i := b];
    assert UdpPacket(d)[28 + i := b] == header + t' + [];
    UdpPayloadByte(d, i, b);
    UdpChecksumField(d);
    ParseBuiltUdp(d);
    ByteBreaksChecksum(d.source, d.destination, 17, t, 8 + i, b);
    hide UdpPacket, UdpChecksum;
    IpTakesApart(17, d.source, d.destination, t', []);
  }

  lemma UdpChecksumField(d: Datagram)
    requires DatagramFields(d) && |d.payload| <= 65507
    ensures var t := UdpBytes(d);
            && Be16(t[0], t[1]) == d.sourcePort && Be16(t[2], t[3]) == d.destinationPort && Be16(t[4], t[5]) == 8 + |d.payload|
            && Be16(t[6], t[7]) == UdpChecksum(d)
  {
    hide TransportChecksum, Be16, UdpFront;
    UdpFields(d, UdpChecksum(d));
  }

  lemma UdpByteParses(d: Datagram, t: seq<byte>, t': seq<byte>)
    requires 8 <= |t| == |t'| == 8 + |d.payload| < WORD && Be16(t'[4], t'[5]) == |t'|
    requires TransportChecksum(d.source, d.destination, 17, t') != 0
    ensures ParseUdp(d.source, d.destination, t').Ok? <==>
              Be16(t'[6], t'[7]) == 0 && Be16(t'[0], t'[1]) != 0 && Be16(t'[2], t'[3]) != 0
  {
    hide TransportChecksum, Be16;
    assert t'[..|t'|] == t';
  }

  /** One changed byte of a built datagram outside its length field is accepted exactly when the packet then
      carries no checksum and both ports are still non-zero. */
  lemma UdpByteAcceptedIff(d: Datagram, i: nat, b: byte)
    requires DatagramFields(d) && |d.payload| <= 65507
    requires i < 8 + |d.payload| && i != 4 && i != 5 && b != UdpBytes(d)[i]
    ensures var t := UdpBytes(d)[i := b];
            Classify(UdpPacket(d)[20 + i := b]).Ok? <==>
              Be16(t[6], t[7]) == 0 && Be16(t[0], t[1]) != 0 && Be16(t[2], t[3]) != 0
  {
    hide IpHeader, TransportChecksum, UdpBytes, Classify, Be16, ParseUdp, ParseTcp;
    var header, t := IpHeader(28 + |d.payload|, 17, d.source, d.destination), UdpBytes(d);
    var t' := t[i := b];
    assert UdpPacket(d)[20 + i := b] == header + t' + [];
    UdpChecksumField(d);
    ParseBuiltUdp(d);
    ByteBreaksChecksum(d.source, d.destination, 17, t, i, b);
    hide UdpPacket, UdpChecksum;
    UdpByteParses(d, t, t');
    IpTakesApart(17, d.source, d.destination, t', []);
  }

  /** Between any two sockets there is a datagram whose written checksum is zero. */
  lemma ZeroChecksumExists(d: Datagram)
    requires DatagramFields(d) && |d.payload| == 2
    ensures exists payload :: |payload| == 2 && UdpChecksum(d.(payload := payload)) == 0
  {
    hide TransportChecksum, Bytes16;
    var front := UdpFront(d) + Bytes16(0);
    TransportVerifies(d.source, d.destination, 17, front, []);
    var payload := Bytes16(TransportChecksum(d.source, d.destination, 17, front + Bytes16(0) + []));
    assert UdpWith(d.(payload := payload), 0) == front + payload + [];
  }
}
