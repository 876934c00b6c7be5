/**
 Which records a response holds (sections 4.1.1 and 4.1.3 of RFC 1035): its bytes are a header, a question and the
 records one behind the other, to the last byte.
 */
module DnsMessages {
  import opened Bytes
  import opened Options
  import opened DnsNames
  import opened DnsRoutes
  import opened DnsResponse

  // ---------------------------------------------------------------- one record

  /** The ten bytes between the owner of a record and its data. */
  datatype Head = Head(kind: nat, class_: nat, ttl: seq<byte>, length: nat)

  predicate HeadAt(wire: seq<byte>, at: nat, h: Head) {
    && h.kind < WORD && h.class_ < WORD && h.length < WORD && |h.ttl| == 4
    && at + 10 <= |wire| && wire[at..at + 10] == Bytes16(h.kind) + Bytes16(h.class_) + h.ttl + Bytes16(h.length)
  }

  /** IPv4 addresses are records of type 1 with four bytes, IPv6 addresses of type 28 with sixteen, both of class 1. */
  predicate IsAddressHead(h: Head) {
    h.class_ == 1 && ((h.kind == 1 && h.length == 4) || (h.kind == 28 && h.length == 16))
  }

  predicate IsAliasHead(h: Head) {
    h.class_ == 1 && h.kind == 5
  }

  /** What the data of a record at a place says. */
  ghost predicate DataAt(wire: seq<byte>, at: nat, h: Head, data: Data) {
    at + h.length <= |wire| &&
    match data
    case AddressData(address) => IsAddressHead(h) && wire[at..at + h.length] == address
    case Cname(target) => IsAliasHead(h) && NameAt(wire, at, Name(target, at + h.length))
    case OtherData => !IsAddressHead(h) && !IsAliasHead(h)
  }

  ghost predicate RecordWith(wire: seq<byte>, at: nat, record: Record, next: nat, nameEnd: nat, h: Head) {
    && NameAt(wire, at, Name(record.owner, nameEnd)) && HeadAt(wire, nameEnd, h)
    && DataAt(wire, nameEnd + 10, h, record.data) && next == nameEnd + 10 + h.length
  }

  /** The message holds the record at a place; the next one starts where it ends. */
  ghost predicate RecordAt(wire: seq<byte>, at: nat, record: Record, next: nat) {
    exists nameEnd: nat, h: Head :: RecordWith(wire, at, record, next, nameEnd, h)
  }

  function HeadOf(wire: seq<byte>, at: nat): Head
    requires at + 10 <= |wire|
  {
    Head(Be16(wire[at], wire[at + 1]), Be16(wire[at + 2], wire[at + 3]), wire[at + 4..at + 8],
         Be16(wire[at + 8], wire[at + 9]))
  }

  lemma Split16(hi: byte, lo: byte)
    ensures Bytes16(Be16(hi, lo)) == [hi, lo]
  {
  }

  lemma Same16(n: nat, hi: byte, lo: byte)
    requires n < WORD && Bytes16(n) == [hi, lo]
    ensures Be16(hi, lo) == n
  {
  }

  lemma HeadRead(wire: seq<byte>, at: nat)
    requires at + 10 <= |wire|
    ensures HeadAt(wire, at, HeadOf(wire, at))
  {
    Split16(wire[at], wire[at + 1]);
    Split16(wire[at + 2], wire[at + 3]);
    Split16(wire[at + 8], wire[at + 9]);
    hide Be16, Bytes16;
    assert wire[at..at + 10] == [wire[at], wire[at + 1]] + [wire[at + 2], wire[at + 3]] + wire[at + 4..at + 8]
                              + [wire[at + 8], wire[at + 9]];
  }

  lemma HeadUnique(wire: seq<byte>, at: nat, h: Head)
    requires HeadAt(wire, at, h)
    ensures h == HeadOf(wire, at)
  {
    hide Be16, Bytes16;
    var w := wire[at..at + 10];
    assert forall i :: 0 <= i < 10 ==> w[i] == wire[at + i];
    assert w[0..2] == Bytes16(h.kind) && w[2..4] == Bytes16(h.class_) && w[4..8] == h.ttl && w[8..10] == Bytes16(h.length);
    assert w[0..2] == [wire[at], wire[at + 1]] && w[2..4] == [wire[at + 2], wire[at + 3]];
    assert w[8..10] == [wire[at + 8], wire[at + 9]] && w[4..8] == wire[at + 4..at + 8];
    Same16(h.kind, wire[at], wire[at + 1]);
    Same16(h.class_, wire[at + 2], wire[at + 3]);
    Same16(h.length, wire[at + 8], wire[at + 9]);
  }

  lemma ReadDataExact(wire: seq<byte>, at: nat, h: Head, data: Data)
    requires at + h.length <= |wire|
    ensures ReadData(wire, h.kind, h.class_, at, at + h.length) == Some(data) <==> DataAt(wire, at, h, data)
  {
    hide ReadName, NameAt;
    match data {
      case Cname(target) => ReadNameExact(wire, at, Name(target, at + h.length));
      case _ =>
    }
  }

  lemma ReadOneExact(wire: seq<byte>, at: nat, record: Record, next: nat)
    ensures ReadOne(wire, at) == Some(Read(record, next)) <==> RecordAt(wire, at, record, next)
  {
    hide ReadName, NameAt, HeadAt, DataAt, ReadData, Be16;
    if ReadOne(wire, at) == Some(Read(record, next)) {
      var owner := ReadName(wire, at).value;
      ReadNameExact(wire, at, owner);
      HeadRead(wire, owner.end);
      ReadDataExact(wire, owner.end + 10, HeadOf(wire, owner.end), record.data);
      assert RecordWith(wire, at, record, next, owner.end, HeadOf(wire, owner.end));
    }
    if nameEnd: nat, h: Head :| RecordWith(wire, at, record, next, nameEnd, h) {
      ReadNameExact(wire, at, Name(record.owner, nameEnd));
      HeadFits(wire, nameEnd, h, record.data);
      HeadUnique(wire, nameEnd, h);
      ReadDataExact(wire, nameEnd + 10, h, record.data);
    }
  }

  lemma HeadFits(wire: seq<byte>, at: nat, h: Head, data: Data)
    requires HeadAt(wire, at, h) && DataAt(wire, at + 10, h, data)
    ensures at + 10 + h.length <= |wire|
  {
  }

  // ---------------------------------------------------------------- all records

  /** The records one behind the other, from a place to an end. */
  ghost predicate RecordsAt(wire: seq<byte>, at: nat, records: seq<Record>, end: nat)
    decreases |records|
  {
    if records == [] then at == end
    else exists next :: RecordAt(wire, at, records[0], next) && RecordsAt(wire, next, records[1..], end)
  }

  /** The addresses of all records, in the order of the message. */
  function AddressesIn(records: seq<Record>): seq<seq<byte>> {
    if records == [] then []
    else (if records[0].data.AddressData? then [records[0].data.address] else []) + AddressesIn(records[1..])
  }

  /** What is kept of the records: those of the answer section, and every address. */
  ghost predicate Kept(records: seq<Record>, index: nat, answers: nat, p: Parsed) {
    && p.all == AddressesIn(records)
    && p.answers == if index >= answers then [] else if answers - index <= |records| then records[..answers - index] else records
  }

  lemma KeptCons(record: Record, rest: seq<Record>, index: nat, answers: nat, p: Parsed)
    requires Kept(rest, index + 1, answers, p)
    ensures Kept([record] + rest, index, answers,
                 Parsed((if index < answers then [record] else []) + p.answers,
                        (if record.data.AddressData? then [record.data.address] else []) + p.all, p.end))
  {
    assert ([record] + rest)[1..] == rest;
  }

  lemma NothingKept(at: nat, index: nat, answers: nat)
    ensures Kept([], index, answers, Parsed([], [], at))
  {
  }

  lemma {:induction false} RecordsFound(wire: seq<byte>, at: nat, index: nat, total: nat, answers: nat)
    requires index <= total && ReadRecords(wire, at, index, total, answers).Some?
    ensures exists records ::
              && |records| == total - index
              && RecordsAt(wire, at, records, ReadRecords(wire, at, index, total, answers).value.end)
              && Kept(records, index, answers, ReadRecords(wire, at, index, total, answers).value)
    decreases total - index
  {
    hide ReadOne, Kept, RecordAt;
    var p := ReadRecords(wire, at, index, total, answers).value;
    if index == total {
      NothingKept(at, index, answers);
      var none: seq<Record> := [];
      assert |none| == 0 && RecordsAt(wire, at, none, p.end) && Kept(none, index, answers, p);
    } else {
      var read := ReadOne(wire, at).value;
      ReadOneExact(wire, at, read.record, read.next);
      RecordsFound(wire, read.next, index + 1, total, answers);
      var q := ReadRecords(wire, read.next, index + 1, total, answers).value;
      var rest :| |rest| == total - index - 1 && RecordsAt(wire, read.next, rest, q.end) && Kept(rest, index + 1, answers, q);
      KeptCons(read.record, rest, index, answers, q);
      var records := [read.record] + rest;
      assert records[1..] == rest;
      assert RecordsAt(wire, at, records, p.end);
    }
  }

  lemma {:induction false} FoundRecords(wire: seq<byte>, at: nat, index: nat, total: nat, answers: nat,
                                        records: seq<Record>, end: nat)
    requires index <= total && |records| == total - index && RecordsAt(wire, at, records, end)
    ensures var r := ReadRecords(wire, at, index, total, answers);
            r.Some? && r.value.end == end && Kept(records, index, answers, r.value)
    decreases total - index
  {
    hide ReadOne, Kept, RecordAt;
    if index == total {
      NothingKept(at, index, answers);
    } else {
      var next :| RecordAt(wire, at, records[0], next) && RecordsAt(wire, next, records[1..], end);
      ReadOneExact(wire, at, records[0], next);
      FoundRecords(wire, next, index + 1, total, answers, records[1..], end);
      KeptCons(records[0], records[1..], index, answers, ReadRecords(wire, next, index + 1, total, answers).value);
      assert records == [records[0]] + records[1..];
    }
  }

  // ---------------------------------------------------------------- the message

  /** The twelve header bytes: identifier, flags of a response without error, one question and three counts. */
  predicate HeaderAt(wire: seq<byte>, id: nat, answers: nat, authorities: nat, additional: nat) {
    && id < WORD && answers < WORD && authorities < WORD && additional < WORD && |wire| >= 12
    && wire[0..2] == Bytes16(id) && wire[2] / 128 == 1 && wire[3] % 16 == 0
    && wire[4..12] == Bytes16(1) + Bytes16(answers) + Bytes16(authorities) + Bytes16(additional)
  }

  /** The message answers the question and consists of these records, of which the first `answers` are the answers. */
  ghost predicate Message(wire: seq<byte>, id: nat, name: seq<byte>, maxRecords: nat, answers: nat, authorities: nat,
                          additional: nat, records: seq<Record>, questionEnd: nat)
  {
    && HeaderAt(wire, id, answers, authorities, additional)
    && |records| == answers + authorities + additional <= maxRecords
    && NameAt(wire, 12, Name(name, questionEnd)) && questionEnd + 4 <= |wire|
    && RecordsAt(wire, questionEnd + 4, records, |wire|)
  }

  lemma CountsRead(wire: seq<byte>)
    requires |wire| >= 12
    ensures wire[4..12] == Bytes16(Be16(wire[4], wire[5])) + Bytes16(Be16(wire[6], wire[7]))
                         + Bytes16(Be16(wire[8], wire[9])) + Bytes16(Be16(wire[10], wire[11]))
    ensures wire[0..2] == Bytes16(Be16(wire[0], wire[1]))
  {
    Split16(wire[0], wire[1]);
    Split16(wire[4], wire[5]);
    Split16(wire[6], wire[7]);
    Split16(wire[8], wire[9]);
    Split16(wire[10], wire[11]);
    hide Be16, Bytes16;
    assert wire[4..12] == [wire[4], wire[5]] + [wire[6], wire[7]] + [wire[8], wire[9]] + [wire[10], wire[11]];
  }

  lemma CountsUnique(wire: seq<byte>, id: nat, answers: nat, authorities: nat, additional: nat)
    requires HeaderAt(wire, id, answers, authorities, additional)
    ensures Be16(wire[0], wire[1]) == id && Be16(wire[4], wire[5]) == 1 && Be16(wire[6], wire[7]) == answers
    ensures Be16(wire[8], wire[9]) == authorities && Be16(wire[10], wire[11]) == additional
  {
    hide Be16, Bytes16;
    var w := wire[4..12];
    assert forall i :: 0 <= i < 8 ==> w[i] == wire[4 + i];
    assert w[0..2] == Bytes16(1) && w[2..4] == Bytes16(answers) && w[4..6] == Bytes16(authorities) && w[6..8] == Bytes16(additional);
    assert w[0..2] == [wire[4], wire[5]] && w[2..4] == [wire[6], wire[7]];
    assert w[4..6] == [wire[8], wire[9]] && w[6..8] == [wire[10], wire[11]] && wire[0..2] == [wire[0], wire[1]];
    Same16(id, wire[0], wire[1]);
    Same16(1, wire[4], wire[5]);
    Same16(answers, wire[6], wire[7]);
    Same16(authorities, wire[8], wire[9]);
    Same16(additional, wire[10], wire[11]);
  }

  lemma HeaderRead(wire: seq<byte>, id: nat, maxRecords: nat)
    requires ResponseHeader(wire, id, maxRecords)
    ensures HeaderAt(wire, id, Be16(wire[6], wire[7]), Be16(wire[8], wire[9]), Be16(wire[10], wire[11]))
  {
    CountsRead(wire);
    hide Be16, Bytes16;
  }

  lemma HeaderFits(wire: seq<byte>, id: nat, answers: nat, authorities: nat, additional: nat, maxRecords: nat)
    requires HeaderAt(wire, id, answers, authorities, additional) && answers + authorities + additional <= maxRecords
    ensures ResponseHeader(wire, id, maxRecords)
  {
    CountsUnique(wire, id, answers, authorities, additional);
    hide Be16, Bytes16;
  }

  /** Every response that is read is such a message, and what is kept of it is its answer records and all addresses. */
  lemma RecordsSound(wire: seq<byte>, id: nat, name: seq<byte>, maxRecords: nat)
    requires Records(wire, id, name, maxRecords).Some?
    ensures exists answers, authorities, additional, records, questionEnd ::
              && Message(wire, id, name, maxRecords, answers, authorities, additional, records, questionEnd)
              && Kept(records, 0, answers, Records(wire, id, name, maxRecords).value)
  {
    hide ReadName, NameAt, ReadRecords, RecordsAt, Kept, HeaderAt, Be16;
    var p := Records(wire, id, name, maxRecords).value;
    var question := ReadName(wire, 12).value;
    ReadNameExact(wire, 12, question);
    HeaderRead(wire, id, maxRecords);
    var answers, authorities, additional := Be16(wire[6], wire[7]), Be16(wire[8], wire[9]), Be16(wire[10], wire[11]);
    RecordsFound(wire, question.end + 4, 0, answers + authorities + additional, answers);
    var records :| |records| == answers + authorities + additional - 0 && RecordsAt(wire, question.end + 4, records, p.end)
      && Kept(records, 0, answers, p);
    assert Message(wire, id, name, maxRecords, answers, authorities, additional, records, question.end);
  }

  /** And every such message is read, and its records are found. */
  lemma RecordsComplete(wire: seq<byte>, id: nat, name: seq<byte>, maxRecords: nat, answers: nat, authorities: nat,
                        additional: nat, records: seq<Record>, questionEnd: nat)
    requires Message(wire, id, name, maxRecords, answers, authorities, additional, records, questionEnd)
    ensures Records(wire, id, name, maxRecords).Some? && Kept(records, 0, answers, Records(wire, id, name, maxRecords).value)
  {
    hide ReadName, NameAt, ReadRecords, RecordsAt, Kept, HeaderAt, Be16;
    HeaderFits(wire, id, answers, authorities, additional, maxRecords);
    CountsUnique(wire, id, answers, authorities, additional);
    ReadNameExact(wire, 12, Name(name, questionEnd));
    FoundRecords(wire, questionEnd + 4, 0, answers + authorities + additional, answers, records, |wire|);
  }
}
