/** Hostnames and their wire form (sections 3.1 and 4.1.4 of RFC 1035). Names are byte strings. */
module DnsNames {
  import opened Bytes
  import opened Options

  const DOT: byte := 46
  const DASH: byte := 45

  // ---------------------------------------------------------------- labels

  function Join(labels: seq<seq<byte>>): seq<byte> {
    if labels == [] then [] else if |labels| == 1 then labels[0] else labels[0] + [DOT] + Join(labels[1..])
  }

  /** The position of the first dot, or the length. */
  function FirstDot(name: seq<byte>): (i: nat)
    ensures i <= |name| && DOT !in name[..i] && (i < |name| ==> name[i] == DOT)
  {
    if name == [] || name[0] == DOT then 0
    else
      var i := FirstDot(name[1..]);
      assert name[..i + 1] == [name[0]] + name[1..][..i];
      i + 1
  }

  function Split(name: seq<byte>): (r: seq<seq<byte>>)
    ensures r != []
    decreases |name|
  {
    var i := FirstDot(name);
    if i == |name| then [name] else [name[..i]] + Split(name[i + 1..])
  }

  predicate Dotless(labels: seq<seq<byte>>) {
    forall i :: 0 <= i < |labels| ==> DOT !in labels[i]
  }

  lemma {:induction false} FirstDotAt(part: seq<byte>, rest: seq<byte>)
    requires DOT !in part && (rest == [] || rest[0] == DOT)
    ensures FirstDot(part + rest) == |part|
  {
    if part == [] {
      assert part + rest == rest;
    } else {
      FirstDotAt(part[1..], rest);
      assert (part + rest)[1..] == part[1..] + rest;
    }
  }

  lemma {:induction false} SplitJoin(labels: seq<seq<byte>>)
    requires labels != [] && Dotless(labels)
    ensures Split(Join(labels)) == labels
  {
    if |labels| == 1 {
      FirstDotAt(labels[0], []);
      assert labels[0] + [] == labels[0];
    } else {
      var first, rest := labels[0], Join(labels[1..]);
      SplitJoin(labels[1..]);
      FirstDotAt(first, [DOT] + rest);
      var name := Join(labels);
      assert name == first + ([DOT] + rest);
      assert name[..|first|] == first && name[|first| + 1..] == rest;
    }
  }

  lemma {:induction false} JoinSplit(name: seq<byte>)
    ensures Join(Split(name)) == name && Dotless(Split(name))
    decreases |name|
  {
    var i := FirstDot(name);
    if i == |name| {
      assert name[..i] == name;
    } else {
      JoinSplit(name[i + 1..]);
      assert name == name[..i] + [DOT] + name[i + 1..];
    }
  }

  // ---------------------------------------------------------------- canonical hostnames

  predicate LabelByte(b: byte) {
    48 <= b <= 57 || 65 <= b <= 90 || 97 <= b <= 122 || b == DASH
  }

  function Lower(b: byte): byte {
    if 65 <= b <= 90 then b + 32 else b
  }

  function LowerAll(bytes: seq<byte>): (r: seq<byte>)
    ensures |r| == |bytes| && forall i :: 0 <= i < |bytes| ==> r[i] == Lower(bytes[i])
  {
    seq(|bytes|, i requires 0 <= i < |bytes| => Lower(bytes[i]))
  }

  predicate LabelOk(part: seq<byte>) {
    && 0 < |part| <= 63 && part[0] != DASH && part[|part| - 1] != DASH
    && forall i :: 0 <= i < |part| ==> LabelByte(part[i])
  }

  predicate LabelsOk(labels: seq<seq<byte>>) {
    forall i :: 0 <= i < |labels| ==> LabelOk(labels[i])
  }

  predicate Ascii(name: seq<byte>) {
    forall i :: 0 <= i < |name| ==> name[i] < 128
  }

  function WithoutFinalDot(name: seq<byte>): seq<byte> {
    if name != [] && name[|name| - 1] == DOT then name[..|name| - 1] else name
  }

  /** The canonical form of a hostname, or nothing when it is refused; what counts as an address literal
      is a parameter. */
  function Canonical(name: seq<byte>, literal: seq<byte> -> bool): Option<seq<byte>> {
    var name := WithoutFinalDot(name);
    if name == [] || |name| > 253 || !Ascii(name) || literal(name) || !LabelsOk(Split(name)) then None
    else Some(LowerAll(name))
  }

  lemma LabelDotless(part: seq<byte>)
    requires LabelOk(part)
    ensures DOT !in part
  {
    assert !LabelByte(DOT);
  }

  lemma LabelsDotless(labels: seq<seq<byte>>)
    requires LabelsOk(labels)
    ensures Dotless(labels)
  {
    forall i | 0 <= i < |labels| ensures DOT !in labels[i] {
      LabelDotless(labels[i]);
    }
  }

  // ---------------------------------------------------------------- reading a name

  /** The state of the reading loop. */
  datatype Reading = Reading(cursor: nat, end: Option<nat>, labels: seq<seq<byte>>, visited: set<nat>, expanded: nat)

  datatype Name = Name(text: seq<byte>, end: nat)

  datatype Turn = Goes(reading: Reading) | Done(name: Name) | Bad

  /** One turn: follow a pointer, take a label, or finish at the root. */
  function Read1(wire: seq<byte>, r: Reading): Turn {
    if r.cursor in r.visited || r.cursor >= |wire| then Bad
    else
      var length := wire[r.cursor];
      var visited := r.visited + {r.cursor};
      if length >= 192 then
        if r.cursor + 1 >= |wire| then Bad
        else
          var target := Be16(length % 64, wire[r.cursor + 1]);
          if target >= |wire| then Bad
          else Goes(r.(cursor := target, end := if r.end.Some? then r.end else Some(r.cursor + 2), visited := visited))
      else if length >= 64 then Bad
      else if length == 0 then
        if r.labels == [] || r.expanded > 253 then Bad
        else Done(Name(Join(r.labels), if r.end.Some? then r.end.value else r.cursor + 1))
      else
        var start := r.cursor + 1;
        if start + length > |wire| || !LabelOk(wire[start..start + length]) then Bad
        else
          var labels := r.labels + [LowerAll(wire[start..start + length])];
          Goes(Reading(start + length, r.end, labels, visited, r.expanded + length + if |labels| > 1 then 1 else 0))
  }

  /** At most the given number of turns. */
  function ReadFrom(wire: seq<byte>, r: Reading, turns: nat): Option<Name>
    decreases turns
  {
    if turns == 0 then None
    else
      match Read1(wire, r)
      case Bad => None
      case Done(name) => Some(name)
      case Goes(next) => ReadFrom(wire, next, turns - 1)
  }

  function Starting(start: nat): Reading {
    Reading(start, None, [], {}, 0)
  }

  function ReadName(wire: seq<byte>, start: nat): Option<Name> {
    ReadFrom(wire, Starting(start), 17)
  }

  // ---------------------------------------------------------------- what a read name is, on any message

  predicate Lowered(part: seq<byte>) {
    LowerAll(part) == part
  }

  ghost predicate ReadOk(wire: seq<byte>, start: nat, r: Reading, turns: nat) {
    && LabelsOk(r.labels) && (forall i :: 0 <= i < |r.labels| ==> Lowered(r.labels[i]))
    && r.expanded == |Join(r.labels)| && |r.labels| + turns <= 17
    && (match r.end
        case None => start <= r.cursor <= |wire| || (r.cursor == start && r.labels == [])
        case Some(end) => start < end <= |wire|)
  }

  lemma LowerLabelOk(part: seq<byte>)
    requires LabelOk(part)
    ensures LabelOk(LowerAll(part)) && Lowered(LowerAll(part))
  {
    var low := LowerAll(part);
    assert forall i :: 0 <= i < |part| ==> LabelByte(part[i]) && low[i] == Lower(part[i]);
  }

  lemma {:induction false} JoinAppend(labels: seq<seq<byte>>, part: seq<byte>)
    ensures |Join(labels + [part])| == |Join(labels)| + |part| + if labels == [] then 0 else 1
    ensures labels != [] ==> Join(labels + [part]) == Join(labels) + [DOT] + part
  {
    if labels == [] {
      assert labels + [part] == [part];
    } else if |labels| == 1 {
      assert (labels + [part])[1..] == [part];
    } else {
      JoinAppend(labels[1..], part);
      assert (labels + [part])[1..] == labels[1..] + [part];
    }
  }

  lemma ReadOkStep(wire: seq<byte>, start: nat, r: Reading, turns: nat)
    requires ReadOk(wire, start, r, turns) && turns > 0 && Read1(wire, r).Goes?
    ensures ReadOk(wire, start, Read1(wire, r).reading, turns - 1)
  {
    hide Join;
    var length := wire[r.cursor];
    if 0 < length < 64 {
      var part := wire[r.cursor + 1..r.cursor + 1 + length];
      LowerLabelOk(part);
      JoinAppend(r.labels, LowerAll(part));
    }
  }

  /** A name read from any message ends inside it and is made of at most sixteen valid lower-case labels
      of at most 253 bytes together. */
  lemma {:induction false} ReadNameSound(wire: seq<byte>, start: nat, r: Reading, turns: nat)
    requires ReadOk(wire, start, r, turns) && ReadFrom(wire, r, turns).Some?
    ensures var n := ReadFrom(wire, r, turns).value;
            && start < n.end <= |wire| && 0 < |n.text| <= 253
            && LabelsOk(Split(n.text)) && |Split(n.text)| <= 16 && Lowered(n.text)
    decreases turns
  {
    match Read1(wire, r) {
      case Done(name) =>
        LabelsDotless(r.labels);
        SplitJoin(r.labels);
        JoinLowered(r.labels);
      case Goes(next) =>
        ReadOkStep(wire, start, r, turns);
        hide Read1, ReadOk;
        ReadNameSound(wire, start, next, turns - 1);
    }
  }

  lemma {:induction false} JoinLowered(labels: seq<seq<byte>>)
    requires labels != [] && LabelsOk(labels) && forall i :: 0 <= i < |labels| ==> Lowered(labels[i])
    ensures Lowered(Join(labels)) && |Join(labels)| > 0
  {
    if |labels| > 1 {
      JoinLowered(labels[1..]);
      var a, b := labels[0], Join(labels[1..]);
      var name := a + [DOT] + b;
      forall i | 0 <= i < |name| ensures LowerAll(name)[i] == name[i] {
        if i < |a| {
          assert LowerAll(a)[i] == a[i];
        } else if i > |a| {
          assert LowerAll(b)[i - |a| - 1] == b[i - |a| - 1];
        }
      }
    }
  }

  lemma ReadNameMeans(wire: seq<byte>, start: nat)
    requires ReadName(wire, start).Some?
    ensures var n := ReadName(wire, start).value;
            && start < n.end <= |wire| && 0 < |n.text| <= 253
            && LabelsOk(Split(n.text)) && |Split(n.text)| <= 16 && Lowered(n.text)
  {
    ReadNameSound(wire, start, Starting(start), 17);
  }

  /** One turn of the loop. */
  method ReadTurn(wire: seq<byte>, reading: Reading) returns (turn: Turn)
    ensures turn == Read1(wire, reading)
  {
    var cursor, visited := reading.cursor, reading.visited;
    if cursor in visited {
      return Bad;
    }
    visited := visited + {cursor};
    if cursor >= |wire| {
      return Bad;
    }
    var length := wire[cursor];
    if length >= 192 {
      if cursor + 1 >= |wire| {
        return Bad;
      }
      var target := Be16(length % 64, wire[cursor + 1]);
      if target >= |wire| {
        return Bad;
      }
      var end := if reading.end.None? then Some(cursor + 2) else reading.end;
      return Goes(Reading(target, end, reading.labels, visited, reading.expanded));
    }
    if length >= 64 {
      return Bad;
    }
    cursor := cursor + 1;
    if length == 0 {
      if |reading.labels| == 0 || reading.expanded > 253 {
        return Bad;
      }
      return Done(Name(Join(reading.labels), if reading.end.Some? then reading.end.value else cursor));
    }
    var end := cursor + length;
    if end > |wire| || !LabelOk(wire[cursor..end]) {
      return Bad;
    }
    var labels := reading.labels + [LowerAll(wire[cursor..end])];
    var expanded := reading.expanded + length + if |labels| > 1 then 1 else 0;
    turn := Goes(Reading(end, reading.end, labels, visited, expanded));
  }

  /** The loop with its cursor, visited set and label list. */
  method ReadNameLoop(wire: seq<byte>, start: nat) returns (name: Option<Name>)
    ensures name == ReadName(wire, start)
  {
    hide Read1;
    var reading := Starting(start);
    for i := 0 to 17
      invariant ReadFrom(wire, reading, 17 - i) == ReadName(wire, start)
    {
      var turn := ReadTurn(wire, reading);
      match turn {
        case Bad => return None;
        case Done(done) => return Some(done);
        case Goes(next) => reading := next;
      }
    }
    name := None;
  }
}
