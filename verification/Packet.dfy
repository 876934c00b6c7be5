/**
 IPv4 packets carrying TCP segments and UDP datagrams: checked classification of what the tunnel
 delivers and construction of what is injected back (section 3.1 of RFC 791, section 3.1 of RFC 9293).
 */
module Packet {
  import opened Bytes
  import opened Checksum

  datatype PacketError =
    | Truncated | InvalidVersion | InvalidLength | InvalidIpv4Checksum | InvalidTransportChecksum
    | Fragmented | InvalidPort

  datatype Result<+T> = Ok(value: T) | Err(error: PacketError)

  datatype Address = Address(a: byte, b: byte, c: byte, d: byte)

  datatype Flags = Flags(fin: bool, syn: bool, rst: bool, psh: bool, ack: bool)

  datatype Segment = Segment(
    source: Address, destination: Address,
    sourcePort: nat, destinationPort: nat,
    sequence: nat, acknowledgement: nat,
    window: nat, flags: Flags, payload: seq<byte>)

  datatype Datagram = Datagram(
    source: Address, destination: Address,
    sourcePort: nat, destinationPort: nat, payload: seq<byte>)

  datatype Classified =
    | Tcp(segment: Segment)
    | Udp(datagram: Datagram)
    | Icmp(source: Address, destination: Address, kind: byte, code: byte)
    | Ipv6
    | Other(protocol: byte)

  // ---------------------------------------------------------------- pseudo header

  function Octets(a: Address): seq<byte> {
    [a.a, a.b, a.c, a.d]
  }

  function Pseudo(source: Address, destination: Address, protocol: byte, length: nat): (r: seq<byte>)
    requires length < WORD
    ensures |r| == 12
  {
    Octets(source) + Octets(destination) + [0, protocol] + Bytes16(length)
  }

  function TransportChecksum(source: Address, destination: Address, protocol: byte, bytes: seq<byte>): (r: nat)
    requires |bytes| < WORD
    ensures r < WORD
  {
    ChecksumOf(Pseudo(source, destination, protocol, |bytes|) + bytes)
  }

  // ---------------------------------------------------------------- classification

  function Bit(n: nat, weight: nat): bool
    requires weight > 0
  {
    n / weight % 2 == 1
  }

  function FlagsOf(bits: byte): Flags {
    Flags(Bit(bits, 1), Bit(bits, 2), Bit(bits, 4), Bit(bits, 8), Bit(bits, 16))
  }

  function ParseTcp(source: Address, destination: Address, bytes: seq<byte>): Result<Segment>
    requires |bytes| < WORD
  {
    if |bytes| < 20 then Err(Truncated)
    else
      var headerLength := bytes[12] / 16 * 4;
      if headerLength < 20 || headerLength > |bytes| then Err(InvalidLength)
      else
        var sourcePort := Be16(bytes[0], bytes[1]);
        var destinationPort := Be16(bytes[2], bytes[3]);
        if sourcePort == 0 || destinationPort == 0 then Err(InvalidPort)
        else if TransportChecksum(source, destination, 6, bytes) != 0 then Err(InvalidTransportChecksum)
        else Ok(Segment(
                  source, destination, sourcePort, destinationPort,
                  Be32(bytes[4], bytes[5], bytes[6], bytes[7]), Be32(bytes[8], bytes[9], bytes[10], bytes[11]),
                  Be16(bytes[14], bytes[15]), FlagsOf(bytes[13]), bytes[headerLength..]))
  }

  function ParseUdp(source: Address, destination: Address, bytes: seq<byte>): Result<Datagram>
    requires |bytes| < WORD
  {
    if |bytes| < 8 then Err(Truncated)
    else
      var sourcePort := Be16(bytes[0], bytes[1]);
      var destinationPort := Be16(bytes[2], bytes[3]);
      var length := Be16(bytes[4], bytes[5]);
      if sourcePort == 0 || destinationPort == 0 then Err(InvalidPort)
      else if length < 8 || length > |bytes| then Err(InvalidLength)
      else if Be16(bytes[6], bytes[7]) != 0 && TransportChecksum(source, destination, 17, bytes[..length]) != 0 then
        Err(InvalidTransportChecksum)
      else Ok(Datagram(source, destination, sourcePort, destinationPort, bytes[8..length]))
  }

  function ClassifyIpv4(packet: seq<byte>): Result<Classified> {
    if |packet| < 20 then Err(Truncated)
    else
      var headerLength := packet[0] % 16 * 4;
      var totalLength := Be16(packet[2], packet[3]);
      if headerLength < 20 || totalLength < headerLength || totalLength > |packet| then Err(InvalidLength)
      else if ChecksumOf(packet[..headerLength]) != 0 then Err(InvalidIpv4Checksum)
      else if Be16(packet[6], packet[7]) % 0x4000 != 0 then Err(Fragmented)
      else
        var source := Address(packet[12], packet[13], packet[14], packet[15]);
        var destination := Address(packet[16], packet[17], packet[18], packet[19]);
        var payload := packet[headerLength..totalLength];
        if packet[9] == 6 then
          (match ParseTcp(source, destination, payload)
           case Err(e) => Err(e)
           case Ok(segment) => Ok(Tcp(segment)))
        else if packet[9] == 17 then
          (match ParseUdp(source, destination, payload)
           case Err(e) => Err(e)
           case Ok(datagram) => Ok(Udp(datagram)))
        else if packet[9] == 1 then
          (if |payload| < 4 then Err(Truncated) else Ok(Icmp(source, destination, payload[0], payload[1])))
        else Ok(Other(packet[9]))
  }

  function Classify(packet: seq<byte>): Result<Classified> {
    if |packet| == 0 then Err(Truncated)
    else if packet[0] / 16 == 4 then ClassifyIpv4(packet)
    else if packet[0] / 16 == 6 then
      if |packet| < 40 then Err(Truncated)
      else if 40 + Be16(packet[4], packet[5]) > |packet| then Err(InvalidLength)
      else Ok(Ipv6)
    else Err(InvalidVersion)
  }

  // ---------------------------------------------------------------- the bytes of a built packet

  predicate Ports(sourcePort: nat, destinationPort: nat) {
    0 < sourcePort < WORD && 0 < destinationPort < WORD
  }

  predicate SegmentFields(s: Segment) {
    s.sourcePort < WORD && s.destinationPort < WORD && s.sequence < WRAP && s.acknowledgement < WRAP && s.window < WORD
  }

  predicate DatagramFields(d: Datagram) {
    d.sourcePort < WORD && d.destinationPort < WORD
  }

  /** The IPv4 header before its checksum field: version 4, 20 header bytes, don't fragment, 64 hops. */
  function IpFront(totalLength: nat, protocol: byte): (r: seq<byte>)
    requires totalLength < WORD
    ensures |r| == 10
  {
    [0x45, 0] + Bytes16(totalLength) + [0, 0, 0x40, 0, 64, protocol]
  }

  function IpBack(source: Address, destination: Address): (r: seq<byte>)
    ensures |r| == 8
  {
    Octets(source) + Octets(destination)
  }

  function IpHeader(totalLength: nat, protocol: byte, source: Address, destination: Address): (r: seq<byte>)
    requires totalLength < WORD
    ensures |r| == 20
  {
    var front, back := IpFront(totalLength, protocol), IpBack(source, destination);
    front + Bytes16(ChecksumOf(front + Bytes16(0) + back)) + back
  }

  function FlagBits(f: Flags): (r: byte)
    ensures FlagsOf(r) == f
  {
    (if f.fin then 1 else 0) + (if f.syn then 2 else 0) + (if f.rst then 4 else 0) + (if f.psh then 8 else 0)
    + (if f.ack then 16 else 0)
  }

  /** The TCP header before its checksum field; the data offset is five words. */
  function TcpFront(s: Segment): (r: seq<byte>)
    requires SegmentFields(s)
    ensures |r| == 16
  {
    Bytes16(s.sourcePort) + Bytes16(s.destinationPort) + Bytes32(s.sequence) + Bytes32(s.acknowledgement)
    + [0x50, FlagBits(s.flags)] + Bytes16(s.window)
  }

  /** The TCP bytes with a given checksum field; the urgent pointer is zero. */
  function TcpWith(s: Segment, checksum: nat): (r: seq<byte>)
    requires SegmentFields(s) && checksum < WORD
    ensures |r| == 20 + |s.payload|
  {
    TcpFront(s) + Bytes16(checksum) + ([0, 0] + s.payload)
  }

  function TcpBytes(s: Segment): (r: seq<byte>)
    requires SegmentFields(s) && |s.payload| <= 65495
    ensures |r| == 20 + |s.payload|
  {
    TcpWith(s, TransportChecksum(s.source, s.destination, 6, TcpWith(s, 0)))
  }

  function UdpFront(d: Datagram): (r: seq<byte>)
    requires DatagramFields(d) && 8 + |d.payload| < WORD
    ensures |r| == 6
  {
    Bytes16(d.sourcePort) + Bytes16(d.destinationPort) + Bytes16(8 + |d.payload|)
  }

  function UdpWith(d: Datagram, checksum: nat): (r: seq<byte>)
    requires DatagramFields(d) && 8 + |d.payload| < WORD && checksum < WORD
    ensures |r| == 8 + |d.payload|
  {
    UdpFront(d) + Bytes16(checksum) + d.payload
  }

  function UdpBytes(d: Datagram): (r: seq<byte>)
    requires DatagramFields(d) && 8 + |d.payload| < WORD
    ensures |r| == 8 + |d.payload|
  {
    UdpWith(d, TransportChecksum(d.source, d.destination, 17, UdpWith(d, 0)))
  }

  /** The packet for a segment; a payload that does not fit gives no packet at all. */
  function TcpPacket(s: Segment): seq<byte>
    requires SegmentFields(s)
  {
    if 40 + |s.payload| > 65535 then []
    else IpHeader(40 + |s.payload|, 6, s.source, s.destination) + TcpBytes(s)
  }

  function UdpPacket(d: Datagram): seq<byte>
    requires DatagramFields(d)
  {
    if 28 + |d.payload| > 65535 then []
    else IpHeader(28 + |d.payload|, 17, d.source, d.destination) + UdpBytes(d)
  }
}
