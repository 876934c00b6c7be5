/**
 Which name a message holds at a place (section 4.1.4 of RFC 1035): the labels along a route of places, on which a
 compression pointer leads to the place it names.
 */
module DnsRoutes {
  import opened Bytes
  import opened Options
  import opened DnsNames

  /** A place on the way: two bytes that point elsewhere, a label, or the root. */
  datatype Place = Pointer(at: nat, target: nat) | Labelled(at: nat, part: seq<byte>) | Root(at: nat)

  predicate Written(wire: seq<byte>, p: Place) {
    match p
    case Pointer(at, target) =>
      at + 2 <= |wire| && target < |wire| && target < 0x4000 && wire[at..at + 2] == Bytes16(0xC000 + target)
    case Labelled(at, part) => at + 1 + |part| <= |wire| && LabelOk(part) && wire[at..at + 1 + |part|] == [|part|] + part
    case Root(at) => at < |wire| && wire[at] == 0
  }

  function Onward(p: Place): nat {
    match p
    case Pointer(_, target) => target
    case Labelled(at, part) => at + 1 + |part|
    case Root(at) => at
  }

  /** Places each of which leads to the next, and the last of which is the first root. */
  predicate Route(wire: seq<byte>, start: nat, route: seq<Place>)
    decreases |route|
  {
    && route != [] && route[0].at == start && Written(wire, route[0])
    && (if route[0].Root? then |route| == 1 else Route(wire, Onward(route[0]), route[1..]))
  }

  /** No place comes twice. */
  predicate Simple(route: seq<Place>) {
    forall i, j :: 0 <= i < j < |route| ==> route[i].at != route[j].at
  }

  function LabelsAlong(route: seq<Place>): seq<seq<byte>> {
    if route == [] then []
    else (if route[0].Labelled? then [LowerAll(route[0].part)] else []) + LabelsAlong(route[1..])
  }

  /** Where the name ends: behind the first pointer, or behind the root. */
  function EndOf(route: seq<Place>): nat {
    if route == [] then 0
    else match route[0]
      case Pointer(at, _) => at + 2
      case Root(at) => at + 1
      case Labelled(_, _) => EndOf(route[1..])
  }

  // ---------------------------------------------------------------- one turn is one place

  lemma PointerBytes(hi: byte, lo: byte)
    requires hi >= 192
    ensures var target := Be16(hi % 64, lo); target < 0x4000 && Bytes16(0xC000 + target) == [hi, lo]
  {
    assert hi % 64 == hi - 192;
  }

  lemma PointerRead(wire: seq<byte>, at: nat, target: nat)
    requires Written(wire, Pointer(at, target))
    ensures wire[at] >= 192 && Be16(wire[at] % 64, wire[at + 1]) == target
  {
    var b := Bytes16(0xC000 + target);
    assert wire[at] == wire[at..at + 2][0] == b[0] && wire[at + 1] == wire[at..at + 2][1] == b[1];
    assert b[0] == (0xC000 + target) / 256 && b[1] == (0xC000 + target) % 256;
    assert b[0] % 64 == b[0] - 192;
  }

  lemma LabelRead(wire: seq<byte>, at: nat, part: seq<byte>)
    requires Written(wire, Labelled(at, part))
    ensures wire[at] == |part| && 0 < |part| < 64 && wire[at + 1..at + 1 + |part|] == part
  {
    var w := wire[at..at + 1 + |part|];
    assert w[0] == |part| && w[1..] == part;
  }

  /** The reader goes on exactly from a place that is written there. */
  predicate Passes(wire: seq<byte>, r: Reading, p: Place) {
    p.at == r.cursor && !p.Root? && r.cursor !in r.visited && Written(wire, p)
  }

  function Passed(r: Reading, p: Place): Reading {
    var visited := r.visited + {r.cursor};
    match p
    case Pointer(at, target) =>
      r.(cursor := target, end := if r.end.Some? then r.end else Some(at + 2), visited := visited)
    case Labelled(at, part) =>
      var labels := r.labels + [LowerAll(part)];
      Reading(at + 1 + |part|, r.end, labels, visited, r.expanded + |part| + if |labels| > 1 then 1 else 0)
    case Root(_) => r
  }

  lemma PassesReads(wire: seq<byte>, r: Reading, p: Place)
    requires Passes(wire, r, p)
    ensures Read1(wire, r) == Goes(Passed(r, p))
  {
    hide LabelOk, LowerAll, Be16, Bytes16;
    match p {
      case Pointer(at, target) => PointerRead(wire, at, target);
      case Labelled(at, part) => LabelRead(wire, at, part);
    }
  }

  lemma PointerPasses(wire: seq<byte>, r: Reading)
    requires Read1(wire, r).Goes? && wire[r.cursor] >= 192
    ensures var p := Pointer(r.cursor, Be16(wire[r.cursor] % 64, wire[r.cursor + 1]));
            Passes(wire, r, p) && Read1(wire, r) == Goes(Passed(r, p))
  {
    hide Be16, Bytes16, LabelOk, LowerAll, Join;
    var at := r.cursor;
    PointerBytes(wire[at], wire[at + 1]);
    assert wire[at..at + 2] == [wire[at], wire[at + 1]];
  }

  lemma LabelPasses(wire: seq<byte>, r: Reading)
    requires Read1(wire, r).Goes? && wire[r.cursor] < 192
    ensures var p := Labelled(r.cursor, wire[r.cursor + 1..r.cursor + 1 + wire[r.cursor]]);
            Passes(wire, r, p) && Read1(wire, r) == Goes(Passed(r, p))
  {
    hide LabelOk, LowerAll, Join;
    var at, length := r.cursor, wire[r.cursor];
    assert wire[at..at + 1 + length] == [length] + wire[at + 1..at + 1 + length];
  }

  lemma ReadsPasses(wire: seq<byte>, r: Reading)
    requires Read1(wire, r).Goes?
    ensures exists p :: Passes(wire, r, p) && Read1(wire, r) == Goes(Passed(r, p))
  {
    if wire[r.cursor] >= 192 {
      PointerPasses(wire, r);
    } else {
      LabelPasses(wire, r);
    }
  }

  // ---------------------------------------------------------------- the whole way

  predicate Fresh(route: seq<Place>, visited: set<nat>) {
    forall i :: 0 <= i < |route| ==> route[i].at !in visited
  }

  /** What a reader that has come some way reads along a route. */
  predicate Reads(wire: seq<byte>, r: Reading, turns: nat, name: Name, route: seq<Place>) {
    && Route(wire, r.cursor, route) && Simple(route) && |route| <= turns && Fresh(route, r.visited)
    && r.labels + LabelsAlong(route) != [] && |Join(r.labels + LabelsAlong(route))| <= 253
    && name == Name(Join(r.labels + LabelsAlong(route)), if r.end.Some? then r.end.value else EndOf(route))
  }

  lemma SimpleTail(p: Place, rest: seq<Place>, visited: set<nat>)
    ensures Simple([p] + rest) && Fresh([p] + rest, visited)
       <==> p.at !in visited && Simple(rest) && Fresh(rest, visited + {p.at})
  {
    var route := [p] + rest;
    assert forall i :: 0 <= i < |rest| ==> route[i + 1] == rest[i];
    if p.at !in visited && Simple(rest) && Fresh(rest, visited + {p.at}) {
      forall i, j | 0 <= i < j < |route| ensures route[i].at != route[j].at {
        assert route[j] == rest[j - 1];
        assert i > 0 ==> route[i] == rest[i - 1];
      }
      forall i | 0 <= i < |route| ensures route[i].at !in visited {
        assert i > 0 ==> route[i] == rest[i - 1];
      }
    }
    if Simple(route) && Fresh(route, visited) {
      forall i, j | 0 <= i < j < |rest| ensures rest[i].at != rest[j].at {
        assert route[i + 1].at != route[j + 1].at;
      }
      forall i | 0 <= i < |rest| ensures rest[i].at !in visited + {p.at} {
        assert route[0].at != route[i + 1].at && route[i + 1].at !in visited;
      }
      assert route[0].at !in visited;
    }
  }

  lemma AlongTail(r: Reading, p: Place, rest: seq<Place>)
    requires !p.Root?
    ensures r.labels + LabelsAlong([p] + rest) == Passed(r, p).labels + LabelsAlong(rest)
    ensures (if r.end.Some? then r.end.value else EndOf([p] + rest))
         == (var q := Passed(r, p); if q.end.Some? then q.end.value else EndOf(rest)) || p.at != r.cursor
  {
    assert ([p] + rest)[1..] == rest;
    hide LowerAll;
    if p.Labelled? {
      var a, b, c := r.labels, [LowerAll(p.part)], LabelsAlong(rest);
      assert a + (b + c) == (a + b) + c;
    } else {
      assert [] + LabelsAlong(rest) == LabelsAlong(rest);
    }
  }

  lemma PassedLength(r: Reading, p: Place)
    requires r.expanded == |Join(r.labels)| && !p.Root?
    ensures Passed(r, p).expanded == |Join(Passed(r, p).labels)|
  {
    hide Join, LowerAll;
    if p.Labelled? {
      JoinAppend(r.labels, LowerAll(p.part));
    }
  }

  /** Reading on after a place is reading along the rest of the route. */
  lemma StepReads(wire: seq<byte>, r: Reading, turns: nat, name: Name, p: Place, rest: seq<Place>)
    requires turns > 0 && Passes(wire, r, p)
    ensures Reads(wire, r, turns, name, [p] + rest) <==> Reads(wire, Passed(r, p), turns - 1, name, rest)
  {
    SimpleTail(p, rest, r.visited);
    AlongTail(r, p, rest);
    assert ([p] + rest)[1..] == rest && ([p] + rest)[0] == p;
    hide LabelsAlong, EndOf, Join, Simple, Fresh, Written;
    assert Route(wire, r.cursor, [p] + rest) <==> Route(wire, Onward(p), rest);
    hide Route;
    assert Passed(r, p).cursor == Onward(p) && Passed(r, p).visited == r.visited + {p.at};
  }

  lemma {:induction false} ReadAlong(wire: seq<byte>, r: Reading, turns: nat, name: Name)
    requires r.expanded == |Join(r.labels)| && ReadFrom(wire, r, turns) == Some(name)
    ensures exists route :: Reads(wire, r, turns, name, route)
    decreases turns
  {
    hide Join;
    match Read1(wire, r) {
      case Done(_) =>
        var route := [Root(r.cursor)];
        assert LabelsAlong(route) == [] && r.labels + [] == r.labels;
        assert Reads(wire, r, turns, name, route);
      case Goes(next) =>
        ReadsPasses(wire, r);
        var p :| Passes(wire, r, p) && Read1(wire, r) == Goes(Passed(r, p));
        PassedLength(r, p);
        hide Read1, Passes, Reads;
        ReadAlong(wire, next, turns - 1, name);
        var rest :| Reads(wire, next, turns - 1, name, rest);
        StepReads(wire, r, turns, name, p, rest);
    }
  }

  lemma {:induction false} AlongRead(wire: seq<byte>, r: Reading, turns: nat, name: Name, route: seq<Place>)
    requires r.expanded == |Join(r.labels)| && Reads(wire, r, turns, name, route)
    ensures ReadFrom(wire, r, turns) == Some(name)
    decreases turns
  {
    hide Join;
    var p, rest := route[0], route[1..];
    assert route == [p] + rest;
    if p.Root? {
      assert LabelsAlong(route) == [] && r.labels + [] == r.labels;
    } else {
      assert Passes(wire, r, p) by { SimpleTail(p, rest, r.visited); }
      StepReads(wire, r, turns, name, p, rest);
      PassesReads(wire, r, p);
      PassedLength(r, p);
      hide Read1, Reads, Passes;
      AlongRead(wire, Passed(r, p), turns - 1, name, rest);
    }
  }

  /** The message holds the name at the place: the lower-case labels along a route of at most seventeen places, none
      of them twice, that leads from there to a root. */
  ghost predicate NameAt(wire: seq<byte>, start: nat, name: Name) {
    exists route :: Spells(wire, start, name, route)
  }

  predicate Spells(wire: seq<byte>, start: nat, name: Name, route: seq<Place>) {
    && Route(wire, start, route) && Simple(route) && |route| <= 17
    && LabelsAlong(route) != [] && name.text == Join(LabelsAlong(route)) && |name.text| <= 253 && name.end == EndOf(route)
  }

  lemma SpellsReads(wire: seq<byte>, start: nat, name: Name, route: seq<Place>)
    ensures Spells(wire, start, name, route) <==> Reads(wire, Starting(start), 17, name, route)
  {
    assert [] + LabelsAlong(route) == LabelsAlong(route);
    hide LabelsAlong, Join, EndOf, Route;
  }

  /** A name is read at a place if and only if the message holds it there. */
  lemma ReadNameExact(wire: seq<byte>, start: nat, name: Name)
    ensures ReadName(wire, start) == Some(name) <==> NameAt(wire, start, name)
  {
    assert Starting(start).expanded == |Join([])|;
    hide ReadFrom, Reads, Spells;
    if ReadName(wire, start) == Some(name) {
      ReadAlong(wire, Starting(start), 17, name);
      var route :| Reads(wire, Starting(start), 17, name, route);
      SpellsReads(wire, start, name, route);
    }
    if route :| Spells(wire, start, name, route) {
      SpellsReads(wire, start, name, route);
      AlongRead(wire, Starting(start), 17, name, route);
    }
  }
}
