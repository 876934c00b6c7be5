/** Queries of the gateway's resolver: built, and validated when a client sends one. */
module GatewayDns {
  import opened Bytes
  import opened Options
  import opened DnsNames

  // ---------------------------------------------------------------- building a query

  function EncodeLabels(labels: seq<seq<byte>>): (r: seq<byte>)
    requires forall i :: 0 <= i < |labels| ==> 0 < |labels[i]| <= 63
    ensures r != []
  {
    if labels == [] then [0] else [|labels[0]|] + labels[0] + EncodeLabels(labels[1..])
  }

  /** The wire form of a name; empty and long labels are refused. */
  function EncodeName(name: seq<byte>): Option<seq<byte>> {
    var labels := Split(name);
    if forall i :: 0 <= i < |labels| ==> 0 < |labels[i]| <= 63 then Some(EncodeLabels(labels)) else None
  }

  function Header(id: nat): (r: seq<byte>)
    requires id < WORD
    ensures |r| == 12
  {
    Bytes16(id) + [1, 0, 0, 1, 0, 0, 0, 0, 0, 0]
  }

  /** Recursion desired, one question, class IN. */
  function BuildQuery(id: nat, name: seq<byte>, recordType: nat): Option<seq<byte>>
    requires id < WORD && recordType < WORD
  {
    match EncodeName(name)
    case None => None
    case Some(encoded) => Some(Header(id) + encoded + (Bytes16(recordType) + [0, 1]))
  }

  method EncodeNameLoop(name: seq<byte>, output: seq<byte>) returns (r: Option<seq<byte>>)
    ensures r == match EncodeName(name) case None => None case Some(encoded) => Some(output + encoded)
  {
    var labels := Split(name);
    var bytes: seq<byte> := output;
    var i := 0;
    while i < |labels|
      invariant 0 <= i <= |labels|
      invariant forall j :: 0 <= j < i ==> 0 < |labels[j]| <= 63
      invariant (forall j :: 0 <= j < |labels| ==> 0 < |labels[j]| <= 63) ==>
                  bytes + EncodeLabels(labels[i..]) == output + EncodeLabels(labels)
    {
      if |labels[i]| == 0 || |labels[i]| > 63 {
        return None;
      }
      if forall j :: 0 <= j < |labels| ==> 0 < |labels[j]| <= 63 {
        EncodeStep(labels, i, bytes);
      }
      bytes := bytes + [|labels[i]|] + labels[i];
      i := i + 1;
    }
    assert labels[i..] == [];
    r := Some(bytes + [0]);
  }

  lemma EncodeStep(labels: seq<seq<byte>>, i: nat, bytes: seq<byte>)
    requires i < |labels| && forall j :: 0 <= j < |labels| ==> 0 < |labels[j]| <= 63
    ensures bytes + EncodeLabels(labels[i..]) == (bytes + [|labels[i]|] + labels[i]) + EncodeLabels(labels[i + 1..])
  {
    assert labels[i..][1..] == labels[i + 1..];
  }

  // ---------------------------------------------------------------- validating a query

  datatype Question = Question(id: nat, name: seq<byte>)

  function Validate(query: seq<byte>, maxBytes: nat, literal: seq<byte> -> bool): Option<Question> {
    if |query| < 12 || |query| > maxBytes then None
    else if query[2] >= 128 || Be16(query[4], query[5]) != 1 || Be16(query[6], query[7]) != 0
            || Be16(query[8], query[9]) != 0 || Be16(query[10], query[11]) != 0 then None
    else
      match ReadName(query, 12)
      case None => None
      case Some(name) =>
        if name.end + 4 != |query| || Canonical(name.text, literal).None? then None
        else Some(Question(Be16(query[0], query[1]), name.text))
  }

  // ---------------------------------------------------------------- reading back what was encoded

  /** The encoding of the labels starts at a place in the message. */
  predicate Holds(wire: seq<byte>, at: nat, labels: seq<seq<byte>>)
    requires forall i :: 0 <= i < |labels| ==> 0 < |labels[i]| <= 63
  {
    at + |EncodeLabels(labels)| <= |wire| && wire[at..at + |EncodeLabels(labels)|] == EncodeLabels(labels)
  }

  lemma HoldsNext(wire: seq<byte>, at: nat, labels: seq<seq<byte>>)
    requires labels != [] && (forall i :: 0 <= i < |labels| ==> 0 < |labels[i]| <= 63) && Holds(wire, at, labels)
    ensures var n := |labels[0]|;
            && wire[at] == n && at + 1 + n <= |wire| && wire[at + 1..at + 1 + n] == labels[0]
            && Holds(wire, at + 1 + n, labels[1..])
  {
    var n, rest := |labels[0]|, EncodeLabels(labels[1..]);
    var whole := EncodeLabels(labels);
    assert whole == [n] + labels[0] + rest;
    hide EncodeLabels;
    SliceOfSlice(wire, at, at + |whole|, 1, 1 + n);
    SliceOfSlice(wire, at, at + |whole|, 1 + n, |whole|);
    assert whole[1..1 + n] == labels[0] && whole[1 + n..|whole|] == rest;
    assert wire[at] == wire[at..at + |whole|][0];
  }

  lemma SliceOfSlice(s: seq<byte>, a: nat, b: nat, c: nat, d: nat)
    requires a <= b <= |s| && c <= d <= b - a
    ensures s[a..b][c..d] == s[a + c..a + d]
  {
    var x, y := s[a..b][c..d], s[a + c..a + d];
    assert forall i :: 0 <= i < d - c ==> x[i] == s[a..b][c + i] == s[a + (c + i)] && y[i] == s[a + c + i];
  }

  lemma HoldsEnd(wire: seq<byte>, at: nat)
    requires Holds(wire, at, [])
    ensures at < |wire| && wire[at] == 0
  {
    assert wire[at..at + 1][0] == wire[at];
  }

  /** A reader that has come to the remaining labels without pointers. */
  ghost predicate Following(r: Reading, read: seq<seq<byte>>) {
    && r.end.None? && r.labels == read && r.expanded == |Join(read)|
    && forall v :: v in r.visited ==> v < r.cursor
  }

  lemma ReadLabel(wire: seq<byte>, r: Reading, read: seq<seq<byte>>, left: seq<seq<byte>>)
    requires Following(r, read) && left != [] && LabelsOk(left) && Lowered(left[0]) && Holds(wire, r.cursor, left)
    ensures var n := |left[0]|;
            var next := Reading(r.cursor + 1 + n, None, read + [left[0]], r.visited + {r.cursor}, |Join(read + [left[0]])|);
            && Read1(wire, r) == Goes(next) && Following(next, read + [left[0]]) && Holds(wire, next.cursor, left[1..])
  {
    hide Join, EncodeLabels;
    HoldsNext(wire, r.cursor, left);
    JoinAppend(read, left[0]);
    assert LabelOk(left[0]);
  }

  lemma ReadEnd(wire: seq<byte>, r: Reading, read: seq<seq<byte>>)
    requires Following(r, read) && Holds(wire, r.cursor, []) && read != [] && |Join(read)| <= 253
    ensures Read1(wire, r) == Done(Name(Join(read), r.cursor + 1))
  {
    hide Join;
    HoldsEnd(wire, r.cursor);
  }

  lemma EncodeCons(labels: seq<seq<byte>>)
    requires forall i :: 0 <= i < |labels| ==> 0 < |labels[i]| <= 63
    ensures if labels == [] then |EncodeLabels(labels)| == 1
            else |EncodeLabels(labels)| == 1 + |labels[0]| + |EncodeLabels(labels[1..])|
  {
  }

  lemma LabelLengths(labels: seq<seq<byte>>)
    requires LabelsOk(labels)
    ensures forall i :: 0 <= i < |labels| ==> 0 < |labels[i]| <= 63
  {
    assert forall i :: 0 <= i < |labels| ==> LabelOk(labels[i]);
  }

  /** Reading encoded labels takes one turn each and one for the end. */
  lemma {:induction false} ReadLabels(wire: seq<byte>, r: Reading, read: seq<seq<byte>>, left: seq<seq<byte>>,
                                      turns: nat)
    requires Following(r, read) && LabelsOk(left) && (forall i :: 0 <= i < |left| ==> Lowered(left[i]))
    requires Holds(wire, r.cursor, left) && read + left != [] && |Join(read + left)| <= 253
    ensures ReadFrom(wire, r, turns) ==
              if turns > |left| then Some(Name(Join(read + left), r.cursor + |EncodeLabels(left)|)) else None
    decreases turns
  {
    hide Join, Read1, EncodeLabels, Holds, Following, LabelOk, Lowered;
    LabelLengths(left);
    if turns > 0 {
      EncodeCons(left);
      if left == [] {
        assert read + left == read;
        ReadEnd(wire, r, read);
      } else {
        ReadLabel(wire, r, read, left);
        var next := Read1(wire, r).reading;
        assert (read + [left[0]]) + left[1..] == read + left;
        ReadLabels(wire, next, read + [left[0]], left[1..], turns - 1);
      }
    }
  }

  // ---------------------------------------------------------------- the round trip

  /** A hostname that is its own canonical form. */
  predicate IsCanonical(name: seq<byte>, literal: seq<byte> -> bool) {
    Canonical(name, literal) == Some(name)
  }

  lemma CanonicalParts(name: seq<byte>, literal: seq<byte> -> bool)
    requires IsCanonical(name, literal)
    ensures 0 < |name| <= 253 && LabelsOk(Split(name)) && Join(Split(name)) == name
    ensures forall i :: 0 <= i < |Split(name)| ==> Lowered(Split(name)[i])
  {
    hide Split;
    JoinSplit(name);
    assert WithoutFinalDot(name) == name;
    PartsLowered(Split(name));
  }

  lemma {:induction false} PartsLowered(labels: seq<seq<byte>>)
    requires labels != [] && Lowered(Join(labels))
    ensures forall i :: 0 <= i < |labels| ==> Lowered(labels[i])
  {
    if |labels| > 1 {
      var a, b := labels[0], Join(labels[1..]);
      var name := Join(labels);
      assert name == a + [DOT] + b;
      forall i | 0 <= i < |a| ensures LowerAll(a)[i] == a[i] {
        assert LowerAll(name)[i] == name[i];
      }
      forall i | 0 <= i < |b| ensures LowerAll(b)[i] == b[i] {
        assert LowerAll(name)[|a| + 1 + i] == name[|a| + 1 + i];
      }
      PartsLowered(labels[1..]);
    }
  }

  lemma {:induction false} EncodedLength(labels: seq<seq<byte>>)
    requires labels != [] && forall i :: 0 <= i < |labels| ==> 0 < |labels[i]| <= 63
    ensures |EncodeLabels(labels)| == |Join(labels)| + 2
  {
    if |labels| == 1 {
      assert labels[1..] == [];
    } else {
      EncodedLength(labels[1..]);
    }
  }

  lemma QueryFields(id: nat, encoded: seq<byte>, tail: seq<byte>)
    requires id < WORD && |tail| == 4
    ensures var query := Header(id) + encoded + tail;
            && Be16(query[0], query[1]) == id && query[2] == 1 && Be16(query[4], query[5]) == 1
            && Be16(query[6], query[7]) == 0 && Be16(query[8], query[9]) == 0 && Be16(query[10], query[11]) == 0
            && query[12..12 + |encoded|] == encoded
  {
    var header := Header(id);
    var query := header + encoded + tail;
    assert forall i :: 0 <= i < 12 ==> query[i] == header[i];
    assert header[0..2] == Bytes16(id);
    hide Bytes16;
    assert header[0] == Bytes16(id)[0] && header[1] == Bytes16(id)[1];
    assert header[2] == 1 && header[4] == 0 && header[5] == 1;
  }

  /** With the header of a query everything depends on the name. */
  lemma ValidateHeader(query: seq<byte>, id: nat, encoded: nat, maxBytes: nat, literal: seq<byte> -> bool)
    requires |query| == 12 + encoded + 4 && query[2] == 1 && Be16(query[0], query[1]) == id
    requires Be16(query[4], query[5]) == 1
    requires Be16(query[6], query[7]) == 0 && Be16(query[8], query[9]) == 0 && Be16(query[10], query[11]) == 0
    ensures Validate(query, maxBytes, literal) ==
              if |query| > maxBytes then None
              else match ReadName(query, 12)
                   case None => None
                   case Some(n) => if n.end != 12 + encoded || Canonical(n.text, literal).None? then None else Some(Question(id, n.text))
  {
    hide Be16, ReadName, Canonical;
  }

  /** For every canonical hostname the built query is validated back to the same id and name, with all
      bytes consumed, if and only if it has at most sixteen labels and fits the limit. */
  lemma QueryRoundTrip(id: nat, name: seq<byte>, recordType: nat, maxBytes: nat, literal: seq<byte> -> bool)
    requires id < WORD && recordType < WORD && IsCanonical(name, literal)
    ensures BuildQuery(id, name, recordType).Some?
    ensures var query := BuildQuery(id, name, recordType).value;
            && |query| == 18 + |name|
            && Validate(query, maxBytes, literal) ==
                 if |Split(name)| <= 16 && 18 + |name| <= maxBytes then Some(Question(id, name)) else None
  {
    hide Header, EncodeLabels, Join, Split, Bytes16, Be16, Canonical, ReadFrom, LabelOk, Lowered, Validate;
    var labels := Split(name);
    CanonicalParts(name, literal);
    LabelLengths(labels);
    var encoded, tail := EncodeLabels(labels), Bytes16(recordType) + [0, 1];
    EncodedLength(labels);
    QueryFields(id, encoded, tail);
    var query := Header(id) + encoded + tail;
    assert [] + labels == labels;
    assert Following(Starting(12), []) by { NothingRead(12); }
    ReadLabels(query, Starting(12), [], labels, 17);
    ValidateHeader(query, id, |encoded|, maxBytes, literal);
  }

  lemma NothingRead(at: nat)
    ensures Following(Starting(at), [])
  {
  }

  /** A canonical name of seventeen labels is refused. */
  lemma SeventeenLabels(literal: seq<byte> -> bool)
    requires !literal(Join(seq(17, i => [97])))
    ensures var name := Join(seq(17, i => [97]));
            IsCanonical(name, literal) && Validate(BuildQuery(7, name, 1).value, 512, literal).None?
  {
    var labels := seq(17, i => [97 as byte]);
    var name := Join(labels);
    SplitJoin(labels);
    SeventeenLong(labels);
    JoinLowered(labels);
    NoFinalDot(labels);
    AsciiJoin(labels);
    hide Join, Split;
    assert Canonical(name, literal) == Some(name);
    QueryRoundTrip(7, name, 1, 512, literal);
  }

  lemma {:induction false} SeventeenLong(labels: seq<seq<byte>>)
    requires labels != [] && forall i :: 0 <= i < |labels| ==> |labels[i]| == 1
    ensures |Join(labels)| == 2 * |labels| - 1
  {
    if |labels| > 1 {
      SeventeenLong(labels[1..]);
    }
  }

  lemma {:induction false} NoFinalDot(labels: seq<seq<byte>>)
    requires labels != [] && LabelsOk(labels)
    ensures WithoutFinalDot(Join(labels)) == Join(labels)
  {
    if |labels| == 1 {
      LabelDotless(labels[0]);
      assert labels[0][|labels[0]| - 1] in labels[0];
    } else {
      NoFinalDot(labels[1..]);
      var a, b := labels[0], Join(labels[1..]);
      NonemptyJoin(labels[1..]);
      assert Join(labels)[|Join(labels)| - 1] == b[|b| - 1];
      assert WithoutFinalDot(b) == b ==> b[|b| - 1] != DOT;
    }
  }

  lemma NonemptyJoin(labels: seq<seq<byte>>)
    requires labels != [] && LabelsOk(labels)
    ensures |Join(labels)| > 0
  {
    assert LabelOk(labels[0]);
  }

  lemma {:induction false} AsciiJoin(labels: seq<seq<byte>>)
    requires labels != [] && LabelsOk(labels)
    ensures Ascii(Join(labels))
  {
    assert LabelOk(labels[0]);
    assert forall i :: 0 <= i < |labels[0]| ==> LabelByte(labels[0][i]);
    if |labels| > 1 {
      AsciiJoin(labels[1..]);
    }
  }
}
