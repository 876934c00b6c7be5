/**
 The packets that classification accepts, exactly: every IPv4 header with or without options and every TCP or UDP
 header in front of a payload, with checksums that verify (section 3.1 of RFC 791, section 3.1 of RFC 9293,
 RFC 768).
 */
module PacketWire {
  import opened Bytes
  import opened Checksum
  import opened Packet
  import opened PacketTheorems

  // ---------------------------------------------------------------- what a sender may choose

  /** The fields of an IPv4 header that classification does not hand on. */
  datatype IpExtras = IpExtras(service: byte, identification: nat, fragment: nat, hops: byte, checksum: nat, options: seq<byte>)

  /** The fields of a TCP header that classification does not hand on. */
  datatype TcpExtras = TcpExtras(reserved: nat, highFlags: nat, checksum: nat, urgent: nat, options: seq<byte>)

  /** Options are whole words, at most ten. */
  predicate Options(options: seq<byte>) {
    |options| % 4 == 0 && |options| <= 40
  }

  predicate IpFieldsOk(x: IpExtras) {
    x.identification < WORD && x.fragment < WORD && x.checksum < WORD && Options(x.options)
  }

  predicate TcpFieldsOk(x: TcpExtras) {
    x.reserved < 16 && x.highFlags < 8 && x.checksum < WORD && x.urgent < WORD && Options(x.options)
  }

  // ---------------------------------------------------------------- the bytes

  function IpStart(x: IpExtras, totalLength: nat, protocol: byte): (r: seq<byte>)
    requires IpFieldsOk(x) && totalLength < WORD
    ensures |r| == 10
  {
    [0x45 + |x.options| / 4, x.service] + Bytes16(totalLength) + Bytes16(x.identification) + Bytes16(x.fragment)
    + [x.hops, protocol]
  }

  function IpEnd(x: IpExtras, source: Address, destination: Address): (r: seq<byte>)
    ensures |r| == 8 + |x.options|
  {
    Octets(source) + Octets(destination) + x.options
  }

  function IpWire(x: IpExtras, totalLength: nat, protocol: byte, source: Address, destination: Address): (r: seq<byte>)
    requires IpFieldsOk(x) && totalLength < WORD
    ensures |r| == 20 + |x.options|
  {
    IpStart(x, totalLength, protocol) + Bytes16(x.checksum) + IpEnd(x, source, destination)
  }

  function TcpStart(x: TcpExtras, s: Segment): (r: seq<byte>)
    requires TcpFieldsOk(x) && SegmentFields(s)
    ensures |r| == 16
  {
    Bytes16(s.sourcePort) + Bytes16(s.destinationPort) + Bytes32(s.sequence) + Bytes32(s.acknowledgement)
    + [16 * (5 + |x.options| / 4) + x.reserved, FlagBits(s.flags) + 32 * x.highFlags] + Bytes16(s.window)
  }

  function TcpEnd(x: TcpExtras, s: Segment): (r: seq<byte>)
    requires TcpFieldsOk(x)
    ensures |r| == 2 + |x.options| + |s.payload|
  {
    Bytes16(x.urgent) + x.options + s.payload
  }

  function TcpWire(x: TcpExtras, s: Segment): (r: seq<byte>)
    requires TcpFieldsOk(x) && SegmentFields(s)
    ensures |r| == 20 + |x.options| + |s.payload|
  {
    TcpStart(x, s) + Bytes16(x.checksum) + TcpEnd(x, s)
  }

  /** UDP bytes with any checksum field; the IPv4 payload may be longer than the datagram. */
  function UdpWire(checksum: nat, d: Datagram, slack: seq<byte>): (r: seq<byte>)
    requires checksum < WORD && DatagramFields(d) && 8 + |d.payload| < WORD
    ensures |r| == 8 + |d.payload| + |slack|
  {
    UdpWith(d, checksum) + slack
  }

  // ---------------------------------------------------------------- accepted packets are of this form

  lemma Split16(hi: byte, lo: byte)
    ensures Bytes16(Be16(hi, lo)) == [hi, lo]
  {
  }

  lemma Parts(high: nat, low: nat)
    ensures low < WORD ==> (high * WORD + low) / WORD == high && (high * WORD + low) % WORD == low
    ensures low < 256 ==> (high * 256 + low) / 256 == high && (high * 256 + low) % 256 == low
  {
  }

  lemma Split32(a: byte, b: byte, c: byte, d: byte)
    ensures Bytes32(Be32(a, b, c, d)) == [a, b, c, d]
  {
    var high, low := a * 256 + b, c * 256 + d;
    assert Be32(a, b, c, d) == high * WORD + low;
    hide Be32;
    Parts(high, low);
    Parts(a, b);
    Parts(c, d);
  }

  lemma Halved(n: nat)
    ensures n / 2 / 2 == n / 4 && n / 4 / 2 == n / 8 && n / 8 / 2 == n / 16 && n / 16 / 2 == n / 32
  {
  }

  lemma BitSum(b: nat, b2: nat, b4: nat, b8: nat, b16: nat, b32: nat)
    requires b2 == b / 2 && b4 == b2 / 2 && b8 == b4 / 2 && b16 == b8 / 2 && b32 == b16 / 2
    ensures b == 32 * b32 + b % 2 + 2 * (b2 % 2) + 4 * (b4 % 2) + 8 * (b8 % 2) + 16 * (b16 % 2)
  {
  }

  lemma LowBits(b: byte)
    ensures b % 32 == b % 2 + 2 * (b / 2 % 2) + 4 * (b / 4 % 2) + 8 * (b / 8 % 2) + 16 * (b / 16 % 2)
  {
    Halved(b);
    BitSum(b, b / 2, b / 4, b / 8, b / 16, b / 32);
  }

  lemma LowFlags(b: byte)
    ensures FlagBits(FlagsOf(b)) == b % 32
  {
    LowBits(b);
    assert b / 1 == b;
  }

  lemma FlagsSmall(f: Flags)
    ensures FlagBits(f) < 32
  {
    hide FlagsOf;
  }

  lemma HighFlags(f: Flags, high: nat)
    requires high < 8
    ensures FlagBits(f) < 32 && FlagsOf(FlagBits(f) + 32 * high) == f
  {
    hide FlagBits, FlagsOf;
    FlagsSmall(f);
    var n := FlagBits(f) + 32 * high;
    LowFlags(n);
    assert n % 32 == FlagBits(f);
    assert FlagsOf(FlagBits(FlagsOf(n))) == FlagsOf(FlagBits(f));
  }

  function IpExtrasOf(p: seq<byte>): IpExtras
    requires |p| >= 20 && p[0] % 16 * 4 <= |p| && p[0] % 16 >= 5
  {
    IpExtras(p[1], Be16(p[4], p[5]), Be16(p[6], p[7]), p[8], Be16(p[10], p[11]), p[20..p[0] % 16 * 4])
  }

  function SourceOf(p: seq<byte>): Address
    requires |p| >= 20
  {
    Address(p[12], p[13], p[14], p[15])
  }

  function DestinationOf(p: seq<byte>): Address
    requires |p| >= 20
  {
    Address(p[16], p[17], p[18], p[19])
  }

  lemma IpRead(p: seq<byte>)
    requires |p| >= 20 && p[0] / 16 == 4 && p[0] % 16 >= 5 && p[0] % 16 * 4 <= |p|
    ensures var x := IpExtrasOf(p);
            && IpFieldsOk(x)
            && p[..p[0] % 16 * 4] == IpWire(x, Be16(p[2], p[3]), p[9], SourceOf(p), DestinationOf(p))
  {
    var x := IpExtrasOf(p);
    var h := IpWire(x, Be16(p[2], p[3]), p[9], SourceOf(p), DestinationOf(p));
    Split16(p[2], p[3]);
    Split16(p[4], p[5]);
    Split16(p[6], p[7]);
    Split16(p[10], p[11]);
    hide Bytes16, Be16;
    var start := IpStart(x, Be16(p[2], p[3]), p[9]);
    assert start == [p[0], p[1]] + [p[2], p[3]] + [p[4], p[5]] + [p[6], p[7]] + [p[8], p[9]];
    assert start == p[..10];
    assert IpEnd(x, SourceOf(p), DestinationOf(p)) == p[12..20] + p[20..p[0] % 16 * 4];
    assert p[12..20] + p[20..p[0] % 16 * 4] == p[12..p[0] % 16 * 4];
    assert p[..p[0] % 16 * 4] == p[..10] + [p[10], p[11]] + p[12..p[0] % 16 * 4];
  }

  function TcpExtrasOf(t: seq<byte>): TcpExtras
    requires |t| >= 20 && t[12] / 16 >= 5 && t[12] / 16 * 4 <= |t|
  {
    TcpExtras(t[12] % 16, t[13] / 32, Be16(t[16], t[17]), Be16(t[18], t[19]), t[20..t[12] / 16 * 4])
  }

  function SegmentOf(source: Address, destination: Address, t: seq<byte>): Segment
    requires |t| >= 20 && t[12] / 16 >= 5 && t[12] / 16 * 4 <= |t|
  {
    Segment(source, destination, Be16(t[0], t[1]), Be16(t[2], t[3]),
            Be32(t[4], t[5], t[6], t[7]), Be32(t[8], t[9], t[10], t[11]),
            Be16(t[14], t[15]), FlagsOf(t[13]), t[t[12] / 16 * 4..])
  }

  lemma TcpReadStart(source: Address, destination: Address, t: seq<byte>)
    requires |t| >= 20 && t[12] / 16 >= 5 && t[12] / 16 * 4 <= |t|
    ensures var x, s := TcpExtrasOf(t), SegmentOf(source, destination, t);
            TcpFieldsOk(x) && SegmentFields(s) && TcpStart(x, s) == t[..16]
  {
    var x, s := TcpExtrasOf(t), SegmentOf(source, destination, t);
    Split16(t[0], t[1]);
    Split16(t[2], t[3]);
    Split32(t[4], t[5], t[6], t[7]);
    Split32(t[8], t[9], t[10], t[11]);
    Split16(t[14], t[15]);
    LowFlags(t[13]);
    assert t[13] == t[13] % 32 + 32 * (t[13] / 32);
    assert t[12] == 16 * (5 + |x.options| / 4) + x.reserved;
    hide Bytes16, Be16, Bytes32, Be32, FlagBits, FlagsOf;
    assert TcpStart(x, s) == [t[0], t[1]] + [t[2], t[3]] + [t[4], t[5], t[6], t[7]] + [t[8], t[9], t[10], t[11]]
                           + [t[12], t[13]] + [t[14], t[15]];
  }

  lemma TcpRead(source: Address, destination: Address, t: seq<byte>)
    requires |t| >= 20 && t[12] / 16 >= 5 && t[12] / 16 * 4 <= |t|
    ensures var x, s := TcpExtrasOf(t), SegmentOf(source, destination, t);
            TcpFieldsOk(x) && SegmentFields(s) && t == TcpWire(x, s)
  {
    hide Bytes16, Be16, Bytes32, Be32, FlagsOf, TcpStart;
    var x, s := TcpExtrasOf(t), SegmentOf(source, destination, t);
    var n := t[12] / 16 * 4;
    TcpReadStart(source, destination, t);
    Split16(t[16], t[17]);
    Split16(t[18], t[19]);
    assert TcpEnd(x, s) == [t[18], t[19]] + t[20..n] + t[n..];
    assert TcpEnd(x, s) == t[18..];
    assert t == t[..16] + [t[16], t[17]] + t[18..];
  }

  // ---------------------------------------------------------------- packets of this form are accepted

  lemma IpWireFields(x: IpExtras, totalLength: nat, protocol: byte, source: Address, destination: Address)
    requires IpFieldsOk(x) && totalLength < WORD
    ensures var h := IpWire(x, totalLength, protocol, source, destination);
            && h[0] / 16 == 4 && h[0] % 16 * 4 == |h|
            && Be16(h[2], h[3]) == totalLength && Be16(h[6], h[7]) == x.fragment && h[9] == protocol
            && SourceOf(h) == source && DestinationOf(h) == destination
  {
    hide Bytes16, Be16;
    var start, end := IpStart(x, totalLength, protocol), IpEnd(x, source, destination);
    var h := IpWire(x, totalLength, protocol, source, destination);
    assert h[..10] == start && h[12..] == end;
    assert start[2..4] == Bytes16(totalLength) && start[6..8] == Bytes16(x.fragment);
    assert forall i :: 0 <= i < 10 ==> h[i] == start[i];
    assert forall i :: 0 <= i < 8 ==> h[12 + i] == end[i];
  }

  lemma DataOffset(words: nat, reserved: nat)
    requires reserved < 16
    ensures (16 * words + reserved) / 16 == words
  {
  }

  lemma TcpStartFields(x: TcpExtras, s: Segment)
    requires TcpFieldsOk(x) && SegmentFields(s)
    ensures var t := TcpStart(x, s);
            && t[12] / 16 * 4 == 20 + |x.options|
            && Be16(t[0], t[1]) == s.sourcePort && Be16(t[2], t[3]) == s.destinationPort
            && Be32(t[4], t[5], t[6], t[7]) == s.sequence && Be32(t[8], t[9], t[10], t[11]) == s.acknowledgement
            && Be16(t[14], t[15]) == s.window && FlagsOf(t[13]) == s.flags
  {
    hide Bytes16, Be16, Bytes32, Be32, FlagBits, FlagsOf;
    HighFlags(s.flags, x.highFlags);
    DataOffset(5 + |x.options| / 4, x.reserved);
    TcpStartPlaces(Bytes16(s.sourcePort), Bytes16(s.destinationPort), Bytes32(s.sequence), Bytes32(s.acknowledgement),
                   16 * (5 + |x.options| / 4) + x.reserved, FlagBits(s.flags) + 32 * x.highFlags, Bytes16(s.window));
  }

  lemma TcpStartPlaces(a: seq<byte>, b: seq<byte>, c: seq<byte>, d: seq<byte>, e: byte, f: byte, g: seq<byte>)
    requires |a| == |b| == |g| == 2 && |c| == |d| == 4
    ensures var t := a + b + c + d + [e, f] + g;
            && |t| == 16 && [t[0], t[1]] == a && [t[2], t[3]] == b && [t[4], t[5], t[6], t[7]] == c
            && [t[8], t[9], t[10], t[11]] == d && t[12] == e && t[13] == f && [t[14], t[15]] == g
  {
  }

  lemma TcpWireFields(x: TcpExtras, s: Segment)
    requires TcpFieldsOk(x) && SegmentFields(s)
    ensures var t := TcpWire(x, s);
            t[12] / 16 * 4 == 20 + |x.options| && SegmentOf(s.source, s.destination, t) == s
  {
    hide Bytes16, Be16, Bytes32, Be32, FlagBits, FlagsOf, TcpStart;
    var start, end := TcpStart(x, s), TcpEnd(x, s);
    var t := TcpWire(x, s);
    TcpStartFields(x, s);
    assert t[..16] == start && t[18..] == end;
    assert forall i :: 0 <= i < 16 ==> t[i] == start[i];
    assert t[20 + |x.options|..] == end[2 + |x.options|..] == s.payload;
  }

  /** What follows from the transport bytes of an accepted header. */
  function Transport(protocol: byte, source: Address, destination: Address, t: seq<byte>): Result<Classified>
    requires |t| < WORD
  {
    if protocol == 6 then
      (match ParseTcp(source, destination, t)
       case Err(e) => Err(e)
       case Ok(segment) => Ok(Tcp(segment)))
    else if protocol == 17 then
      (match ParseUdp(source, destination, t)
       case Err(e) => Err(e)
       case Ok(datagram) => Ok(Udp(datagram)))
    else if protocol == 1 then
      (if |t| < 4 then Err(Truncated) else Ok(Icmp(source, destination, t[0], t[1])))
    else Ok(Other(protocol))
  }

  /** A header of this form is one that is read: its checksum verifies and the packet is no fragment. */
  predicate Readable(x: IpExtras, totalLength: nat, protocol: byte, source: Address, destination: Address) {
    && IpFieldsOk(x) && totalLength < WORD && x.fragment % 0x4000 == 0
    && ChecksumOf(IpWire(x, totalLength, protocol, source, destination)) == 0
  }

  lemma IpWireApart(x: IpExtras, protocol: byte, source: Address, destination: Address, t: seq<byte>, junk: seq<byte>)
    requires Readable(x, 20 + |x.options| + |t|, protocol, source, destination)
    ensures Classify(IpWire(x, 20 + |x.options| + |t|, protocol, source, destination) + t + junk)
         == Transport(protocol, source, destination, t)
  {
    var h := IpWire(x, 20 + |x.options| + |t|, protocol, source, destination);
    IpWireFields(x, 20 + |x.options| + |t|, protocol, source, destination);
    hide IpWire, ChecksumOf, ParseTcp, ParseUdp, Be16;
    var p := h + t + junk;
    assert p[..|h|] == h;
    assert forall i :: 0 <= i < 20 ==> p[i] == h[i];
    assert p[|h|..|h| + |t|] == t;
  }

  /** The packet is a readable IPv4 header, the given transport bytes, and perhaps more behind. */
  predicate Framing(p: seq<byte>, protocol: byte, source: Address, destination: Address, t: seq<byte>, x: IpExtras,
                    junk: seq<byte>)
  {
    && Readable(x, 20 + |x.options| + |t|, protocol, source, destination)
    && p == IpWire(x, 20 + |x.options| + |t|, protocol, source, destination) + t + junk
  }

  ghost predicate CarriesBytes(p: seq<byte>, protocol: byte, source: Address, destination: Address, t: seq<byte>) {
    exists x: IpExtras, junk: seq<byte> :: Framing(p, protocol, source, destination, t, x, junk)
  }

  predicate Ipv4Shape(p: seq<byte>) {
    && |p| >= 20 && p[0] / 16 == 4 && p[0] % 16 >= 5 && p[0] % 16 * 4 <= Be16(p[2], p[3]) <= |p|
    && ChecksumOf(p[..p[0] % 16 * 4]) == 0 && Be16(p[6], p[7]) % 0x4000 == 0
  }

  lemma ClassifiedShape(p: seq<byte>)
    requires Classify(p).Ok? && !Classify(p).value.Ipv6?
    ensures Ipv4Shape(p)
    ensures Classify(p) == Transport(p[9], SourceOf(p), DestinationOf(p), p[p[0] % 16 * 4..Be16(p[2], p[3])])
  {
    hide ChecksumOf, ParseTcp, ParseUdp, Be16;
  }

  lemma ShapeFrames(p: seq<byte>)
    requires Ipv4Shape(p)
    ensures CarriesBytes(p, p[9], SourceOf(p), DestinationOf(p), p[p[0] % 16 * 4..Be16(p[2], p[3])])
  {
    hide IpWire, ChecksumOf, Be16, IpFieldsOk;
    var n, total := p[0] % 16 * 4, Be16(p[2], p[3]);
    IpRead(p);
    var x, t, junk := IpExtrasOf(p), p[n..total], p[total..];
    assert p == p[..n] + t + junk;
    assert 20 + |x.options| + |t| == total;
    assert Framing(p, p[9], SourceOf(p), DestinationOf(p), t, x, junk);
  }

  /** Whatever classification says of an IPv4 packet, it says of a readable header and its transport bytes. */
  lemma ClassifiedCarries(p: seq<byte>)
    requires Classify(p).Ok? && !Classify(p).value.Ipv6?
    ensures exists t: seq<byte> ::
              && |t| < WORD && |p| >= 20 && CarriesBytes(p, p[9], SourceOf(p), DestinationOf(p), t)
              && Classify(p) == Transport(p[9], SourceOf(p), DestinationOf(p), t)
  {
    hide Classify, CarriesBytes, Transport;
    ClassifiedShape(p);
    ShapeFrames(p);
    assert |p[p[0] % 16 * 4..Be16(p[2], p[3])]| < WORD;
  }

  /** The bytes are a TCP segment, with or without options, whose checksum verifies. */
  ghost predicate CarriesSegment(t: seq<byte>, s: Segment) {
    && Ports(s.sourcePort, s.destinationPort) && |t| < WORD && TransportChecksum(s.source, s.destination, 6, t) == 0
    && exists x: TcpExtras :: TcpFieldsOk(x) && SegmentFields(s) && t == TcpWire(x, s)
  }

  lemma ParseTcpExact(t: seq<byte>, s: Segment)
    requires |t| < WORD
    ensures ParseTcp(s.source, s.destination, t) == Ok(s) <==> CarriesSegment(t, s)
  {
    hide TransportChecksum;
    if ParseTcp(s.source, s.destination, t) == Ok(s) {
      TcpRead(s.source, s.destination, t);
    }
    if CarriesSegment(t, s) {
      var x: TcpExtras :| TcpFieldsOk(x) && SegmentFields(s) && t == TcpWire(x, s);
      hide TcpWire;
      TcpWireFields(x, s);
    }
  }

  /** The bytes are a UDP datagram, with or without bytes behind it, without a checksum or with one that verifies. */
  ghost predicate CarriesDatagram(t: seq<byte>, d: Datagram) {
    && Ports(d.sourcePort, d.destinationPort) && 8 + |d.payload| < WORD
    && exists c: nat, slack: seq<byte> ::
         && c < WORD && t == UdpWire(c, d, slack)
         && (c == 0 || TransportChecksum(d.source, d.destination, 17, UdpWith(d, c)) == 0)
  }

  lemma UdpRead(source: Address, destination: Address, t: seq<byte>)
    requires 8 <= |t| && 8 <= Be16(t[4], t[5]) <= |t|
    ensures var n, c := Be16(t[4], t[5]), Be16(t[6], t[7]);
            var d := Datagram(source, destination, Be16(t[0], t[1]), Be16(t[2], t[3]), t[8..n]);
            && DatagramFields(d) && 8 + |d.payload| == n < WORD && c < WORD
            && t[..n] == UdpWith(d, c) && t == UdpWire(c, d, t[n..])
  {
    var n, c := Be16(t[4], t[5]), Be16(t[6], t[7]);
    var d := Datagram(source, destination, Be16(t[0], t[1]), Be16(t[2], t[3]), t[8..n]);
    Split16(t[0], t[1]);
    Split16(t[2], t[3]);
    Split16(t[4], t[5]);
    Split16(t[6], t[7]);
    hide Bytes16, Be16;
    assert UdpFront(d) == [t[0], t[1]] + [t[2], t[3]] + [t[4], t[5]];
    assert UdpFront(d) == t[..6];
    assert t[..n] == t[..6] + [t[6], t[7]] + t[8..n];
    assert t == t[..n] + t[n..];
  }

  lemma UdpWireFields(c: nat, d: Datagram, slack: seq<byte>)
    requires c < WORD && DatagramFields(d) && 8 + |d.payload| < WORD
    ensures var t, n := UdpWire(c, d, slack), 8 + |d.payload|;
            && Be16(t[0], t[1]) == d.sourcePort && Be16(t[2], t[3]) == d.destinationPort && Be16(t[4], t[5]) == n
            && Be16(t[6], t[7]) == c && t[..n] == UdpWith(d, c) && t[8..n] == d.payload
  {
    UdpFields(d, c);
    hide Be16, UdpFront;
    var u, t := UdpWith(d, c), UdpWire(c, d, slack);
    assert forall i :: 0 <= i < |u| ==> t[i] == u[i];
    assert u[6..8] == Bytes16(c);
    assert t[8..8 + |d.payload|] == u[8..];
  }

  lemma ParseUdpExact(t: seq<byte>, d: Datagram)
    requires |t| < WORD
    ensures ParseUdp(d.source, d.destination, t) == Ok(d) <==> CarriesDatagram(t, d)
  {
    hide TransportChecksum, UdpWire, UdpWith, Be16;
    if ParseUdp(d.source, d.destination, t) == Ok(d) {
      UdpRead(d.source, d.destination, t);
      assert t == UdpWire(Be16(t[6], t[7]), d, t[Be16(t[4], t[5])..]);
    }
    if CarriesDatagram(t, d) {
      var c: nat, slack: seq<byte> :|
        && c < WORD && t == UdpWire(c, d, slack)
        && (c == 0 || TransportChecksum(d.source, d.destination, 17, UdpWith(d, c)) == 0);
      UdpWireFields(c, d, slack);
    }
  }

  // ---------------------------------------------------------------- the two characterizations

  /** A packet is classified as a segment if and only if it is a readable IPv4 header, with or without options,
      in front of exactly that segment, with or without TCP options. */
  lemma TcpExact(p: seq<byte>, s: Segment)
    ensures Classify(p) == Ok(Tcp(s)) <==> exists t :: CarriesBytes(p, 6, s.source, s.destination, t) && CarriesSegment(t, s)
  {
    hide Classify, ParseTcp, ParseUdp, IpWire, TcpWire, CarriesSegment;
    if Classify(p) == Ok(Tcp(s)) {
      ClassifiedCarries(p);
      var t :| |t| < WORD && |p| >= 20 && CarriesBytes(p, p[9], SourceOf(p), DestinationOf(p), t)
        && Classify(p) == Transport(p[9], SourceOf(p), DestinationOf(p), t);
      TransportTcp(p[9], SourceOf(p), DestinationOf(p), t, s);
      ParseTcpExact(t, s);
      assert CarriesBytes(p, 6, s.source, s.destination, t) && CarriesSegment(t, s);
    }
    if t :| CarriesBytes(p, 6, s.source, s.destination, t) && CarriesSegment(t, s) {
      var x: IpExtras, junk :| Framing(p, 6, s.source, s.destination, t, x, junk);
      IpWireApart(x, 6, s.source, s.destination, t, junk);
      ParseTcpExact(t, s);
    }
  }

  lemma TransportTcp(protocol: byte, source: Address, destination: Address, t: seq<byte>, s: Segment)
    requires |t| < WORD && Transport(protocol, source, destination, t) == Ok(Tcp(s))
    ensures protocol == 6 && source == s.source && destination == s.destination && ParseTcp(source, destination, t) == Ok(s)
  {
    hide TransportChecksum, Be16, Be32, FlagsOf, ParseUdp;
  }

  lemma TransportUdp(protocol: byte, source: Address, destination: Address, t: seq<byte>, d: Datagram)
    requires |t| < WORD && Transport(protocol, source, destination, t) == Ok(Udp(d))
    ensures protocol == 17 && source == d.source && destination == d.destination && ParseUdp(source, destination, t) == Ok(d)
  {
    hide TransportChecksum, Be16, ParseTcp;
  }

  /** The same for datagrams. */
  lemma UdpExact(p: seq<byte>, d: Datagram)
    ensures Classify(p) == Ok(Udp(d)) <==> exists t :: CarriesBytes(p, 17, d.source, d.destination, t) && CarriesDatagram(t, d)
  {
    hide Classify, ParseTcp, ParseUdp, IpWire, CarriesDatagram;
    if Classify(p) == Ok(Udp(d)) {
      ClassifiedCarries(p);
      var t :| |t| < WORD && |p| >= 20 && CarriesBytes(p, p[9], SourceOf(p), DestinationOf(p), t)
        && Classify(p) == Transport(p[9], SourceOf(p), DestinationOf(p), t);
      TransportUdp(p[9], SourceOf(p), DestinationOf(p), t, d);
      ParseUdpExact(t, d);
      assert CarriesBytes(p, 17, d.source, d.destination, t) && CarriesDatagram(t, d);
    }
    if t :| CarriesBytes(p, 17, d.source, d.destination, t) && CarriesDatagram(t, d) {
      var x: IpExtras, junk :| Framing(p, 17, d.source, d.destination, t, x, junk);
      IpWireApart(x, 17, d.source, d.destination, t, junk);
      ParseUdpExact(t, d);
    }
  }

  /** The same for ICMP messages: the first two bytes are the type and the code. */
  lemma IcmpExact(p: seq<byte>, source: Address, destination: Address, kind: byte, code: byte)
    ensures Classify(p) == Ok(Icmp(source, destination, kind, code)) <==>
              exists t :: |t| >= 4 && t[0] == kind && t[1] == code && CarriesBytes(p, 1, source, destination, t)
  {
    hide Classify, ParseTcp, ParseUdp, IpWire;
    if Classify(p) == Ok(Icmp(source, destination, kind, code)) {
      ClassifiedCarries(p);
      var t :| |t| < WORD && |p| >= 20 && CarriesBytes(p, p[9], SourceOf(p), DestinationOf(p), t)
        && Classify(p) == Transport(p[9], SourceOf(p), DestinationOf(p), t);
      assert |t| >= 4 && t[0] == kind && t[1] == code && CarriesBytes(p, 1, source, destination, t);
    }
    if t :| |t| >= 4 && t[0] == kind && t[1] == code && CarriesBytes(p, 1, source, destination, t) {
      var x: IpExtras, junk :| Framing(p, 1, source, destination, t, x, junk);
      IpWireApart(x, 1, source, destination, t, junk);
    }
  }

  /** The same for every other protocol. */
  lemma OtherExact(p: seq<byte>, protocol: byte)
    ensures Classify(p) == Ok(Other(protocol)) <==>
              && protocol != 1 && protocol != 6 && protocol != 17
              && exists source, destination, t :: CarriesBytes(p, protocol, source, destination, t)
  {
    hide Classify, ParseTcp, ParseUdp, IpWire;
    if Classify(p) == Ok(Other(protocol)) {
      ClassifiedCarries(p);
    }
    if protocol != 1 && protocol != 6 && protocol != 17 {
      if source, destination, t :| CarriesBytes(p, protocol, source, destination, t) {
        var x: IpExtras, junk :| Framing(p, protocol, source, destination, t, x, junk);
        IpWireApart(x, protocol, source, destination, t, junk);
      }
    }
  }

  /** An IPv6 packet is one with the version 6, a header of forty bytes, and at least the payload that it announces. */
  lemma Ipv6Exact(p: seq<byte>)
    ensures Classify(p) == Ok(Ipv6) <==> |p| >= 40 && 0x60 <= p[0] < 0x70 && 256 * p[4] + p[5] <= |p| - 40
  {
    hide ParseTcp, ParseUdp, ChecksumOf;
    if |p| > 0 {
      assert p[0] / 16 == 6 <==> 0x60 <= p[0] < 0x70;
    }
  }

  // ---------------------------------------------------------------- every choice of a sender gets through

  /** The header with the checksum that a sender computes. */
  function Signed(x: IpExtras, totalLength: nat, protocol: byte, source: Address, destination: Address): (r: IpExtras)
    requires IpFieldsOk(x) && totalLength < WORD
    ensures IpFieldsOk(r) && r.options == x.options
  {
    x.(checksum := ChecksumOf(IpStart(x, totalLength, protocol) + Bytes16(0) + IpEnd(x, source, destination)))
  }

  function SignedTcp(x: TcpExtras, s: Segment): (r: TcpExtras)
    requires TcpFieldsOk(x) && SegmentFields(s) && 20 + |x.options| + |s.payload| < WORD
    ensures TcpFieldsOk(r) && r.options == x.options
  {
    x.(checksum := TransportChecksum(s.source, s.destination, 6, TcpStart(x, s) + Bytes16(0) + TcpEnd(x, s)))
  }

  lemma SignedReadable(x: IpExtras, totalLength: nat, protocol: byte, source: Address, destination: Address)
    requires IpFieldsOk(x) && x.fragment % 0x4000 == 0 && totalLength < WORD
    ensures Readable(Signed(x, totalLength, protocol, source, destination), totalLength, protocol, source, destination)
  {
    hide ChecksumOf, WordSum, Bytes16;
    var start := IpStart(x, totalLength, protocol);
    assert start[0] == 0x45 + |x.options| / 4;
    LeadingByte(start);
    ChecksumVerifies(start, IpEnd(x, source, destination));
    var y := Signed(x, totalLength, protocol, source, destination);
    assert IpStart(y, totalLength, protocol) == start && IpEnd(y, source, destination) == IpEnd(x, source, destination);
  }

  lemma SignedCarries(x: TcpExtras, s: Segment)
    requires TcpFieldsOk(x) && SegmentFields(s) && 20 + |x.options| + |s.payload| < WORD
    requires Ports(s.sourcePort, s.destinationPort)
    ensures CarriesSegment(TcpWire(SignedTcp(x, s), s), s)
  {
    hide TransportChecksum, Bytes16, Bytes32, FlagBits;
    TransportVerifies(s.source, s.destination, 6, TcpStart(x, s), TcpEnd(x, s));
    var y := SignedTcp(x, s);
    assert TcpStart(y, s) == TcpStart(x, s) && TcpEnd(y, s) == TcpEnd(x, s);
  }

  /** The packet of a sender who chooses these fields. */
  function SentPacket(x: IpExtras, y: TcpExtras, s: Segment): seq<byte>
    requires IpFieldsOk(x) && TcpFieldsOk(y) && SegmentFields(s)
    requires 40 + |x.options| + |y.options| + |s.payload| < WORD
  {
    var total := 40 + |x.options| + |y.options| + |s.payload|;
    IpWire(Signed(x, total, 6, s.source, s.destination), total, 6, s.source, s.destination) + TcpWire(SignedTcp(y, s), s)
  }

  /** Whatever options, service, hops, urgent pointer and other fields a sender chooses, its packet is classified as
      exactly the segment it sent, unless it is a fragment or too long or a port is zero. */
  lemma SentGetsThrough(x: IpExtras, y: TcpExtras, s: Segment, junk: seq<byte>)
    requires IpFieldsOk(x) && x.fragment % 0x4000 == 0 && TcpFieldsOk(y) && SegmentFields(s)
    requires 40 + |x.options| + |y.options| + |s.payload| < WORD && Ports(s.sourcePort, s.destinationPort)
    ensures Classify(SentPacket(x, y, s) + junk) == Ok(Tcp(s))
  {
    hide IpWire, TcpWire, Signed, SignedTcp, Classify, CarriesSegment, Readable, IpFieldsOk, TcpFieldsOk, SegmentFields;
    var total := 40 + |x.options| + |y.options| + |s.payload|;
    SignedReadable(x, total, 6, s.source, s.destination);
    SignedCarries(y, s);
    var z, t := Signed(x, total, 6, s.source, s.destination), TcpWire(SignedTcp(y, s), s);
    var p := SentPacket(x, y, s) + junk;
    assert Framing(p, 6, s.source, s.destination, t, z, junk);
    assert CarriesBytes(p, 6, s.source, s.destination, t) && CarriesSegment(t, s);
    TcpExact(p, s);
  }
}
