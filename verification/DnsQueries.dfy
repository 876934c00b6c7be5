/** Which queries of a client are accepted, byte for byte, and which spellings of a hostname are the same name. */
module DnsQueries {
  import opened Bytes
  import opened Options
  import opened DnsNames
  import opened DnsRoutes
  import opened DnsMessages
  import opened GatewayDns

  // ---------------------------------------------------------------- queries

  /** A header of a query with one question and no records, one name, its type and class, and nothing more. */
  ghost predicate QueryAt(query: seq<byte>, id: nat, name: seq<byte>, end: nat) {
    && id < WORD && |query| >= 12 && query[0..2] == Bytes16(id) && query[2] / 128 == 0
    && query[4..12] == [0, 1, 0, 0, 0, 0, 0, 0]
    && NameAt(query, 12, Name(name, end)) && end + 4 == |query|
  }

  lemma CountsAre(query: seq<byte>)
    requires |query| >= 12
    ensures query[4..12] == [0, 1, 0, 0, 0, 0, 0, 0] <==>
              && Be16(query[4], query[5]) == 1 && Be16(query[6], query[7]) == 0
              && Be16(query[8], query[9]) == 0 && Be16(query[10], query[11]) == 0
  {
    var w := query[4..12];
    assert forall i :: 0 <= i < 8 ==> w[i] == query[4 + i];
    if Be16(query[4], query[5]) == 1 && Be16(query[6], query[7]) == 0 && Be16(query[8], query[9]) == 0
       && Be16(query[10], query[11]) == 0 {
      assert query[4] == 0 && query[5] == 1 && query[6] == 0 && query[7] == 0;
      assert query[8] == 0 && query[9] == 0 && query[10] == 0 && query[11] == 0;
      assert w == [0, 1, 0, 0, 0, 0, 0, 0];
    }
  }

  lemma IdIs(query: seq<byte>, id: nat)
    requires |query| >= 12 && id < WORD
    ensures query[0..2] == Bytes16(id) <==> Be16(query[0], query[1]) == id
  {
    DnsMessages.Split16(query[0], query[1]);
    hide Be16, Bytes16;
    assert query[0..2] == [query[0], query[1]];
    if query[0..2] == Bytes16(id) {
      Same16(id, query[0], query[1]);
    }
  }

  /** A query is accepted as a question if and only if it is within the size, has this form, and its name is one that
      has a canonical form. */
  lemma ValidateExact(query: seq<byte>, maxBytes: nat, literal: seq<byte> -> bool, question: Question)
    ensures Validate(query, maxBytes, literal) == Some(question) <==>
              && |query| <= maxBytes && Canonical(question.name, literal).Some?
              && exists end :: QueryAt(query, question.id, question.name, end)
  {
    hide ReadName, NameAt, Canonical, Be16, Bytes16;
    if |query| >= 12 {
      CountsAre(query);
      if question.id < WORD {
        IdIs(query, question.id);
      }
      if Validate(query, maxBytes, literal) == Some(question) {
        var name := ReadName(query, 12).value;
        ReadNameExact(query, 12, name);
        assert QueryAt(query, question.id, question.name, name.end);
      }
      if end :| QueryAt(query, question.id, question.name, end) {
        ReadNameExact(query, 12, Name(question.name, end));
      }
    }
  }

  // ---------------------------------------------------------------- spellings

  /** Whether a string is an address literal does not depend on the case of its letters. */
  ghost predicate CaseBlind(literal: seq<byte> -> bool) {
    forall name :: literal(LowerAll(name)) == literal(name)
  }

  lemma LowerTwice(name: seq<byte>)
    ensures LowerAll(LowerAll(name)) == LowerAll(name)
  {
  }

  lemma {:induction false} LowerDot(name: seq<byte>)
    ensures FirstDot(LowerAll(name)) == FirstDot(name)
  {
    if name != [] && name[0] != DOT {
      LowerDot(name[1..]);
      assert LowerAll(name)[1..] == LowerAll(name[1..]);
    }
  }

  lemma LowerLabel(part: seq<byte>)
    ensures LabelOk(LowerAll(part)) <==> LabelOk(part)
  {
    var low := LowerAll(part);
    forall i | 0 <= i < |part| ensures LabelByte(low[i]) <==> LabelByte(part[i]) {
    }
    if LabelOk(part) {
      LowerLabelOk(part);
    }
  }

  lemma SplitStep(name: seq<byte>)
    ensures var i := FirstDot(name);
            Split(name) == if i == |name| then [name] else [name[..i]] + Split(name[i + 1..])
  {
    hide FirstDot;
  }

  lemma LowerParts(name: seq<byte>, i: nat)
    requires i < |name|
    ensures LowerAll(name)[..i] == LowerAll(name[..i]) && LowerAll(name)[i + 1..] == LowerAll(name[i + 1..])
  {
  }

  lemma {:induction false} LowerSplit(name: seq<byte>)
    ensures LabelsOk(Split(LowerAll(name))) <==> LabelsOk(Split(name))
    decreases |name|
  {
    hide LabelOk, LowerAll, Split, FirstDot, LabelsOk;
    var low, i := LowerAll(name), FirstDot(name);
    LowerDot(name);
    SplitStep(name);
    SplitStep(low);
    if i == |name| {
      LowerLabel(name);
      OneLabel(name);
      OneLabel(low);
    } else {
      LowerParts(name, i);
      LowerSplit(name[i + 1..]);
      LowerLabel(name[..i]);
      MoreLabels(name[..i], Split(name[i + 1..]));
      MoreLabels(low[..i], Split(low[i + 1..]));
    }
  }

  lemma OneLabel(part: seq<byte>)
    ensures LabelsOk([part]) <==> LabelOk(part)
  {
    hide LabelOk;
    assert [part][0] == part;
  }

  lemma MoreLabels(part: seq<byte>, rest: seq<seq<byte>>)
    ensures LabelsOk([part] + rest) <==> LabelOk(part) && LabelsOk(rest)
  {
    hide LabelOk;
    var all := [part] + rest;
    assert all[0] == part && forall i :: 0 <= i < |rest| ==> all[i + 1] == rest[i];
    if LabelOk(part) && LabelsOk(rest) {
      forall i | 0 <= i < |all| ensures LabelOk(all[i]) {
        assert i > 0 ==> all[i] == rest[i - 1];
      }
    }
  }

  lemma LowerTrim(name: seq<byte>)
    ensures WithoutFinalDot(LowerAll(name)) == LowerAll(WithoutFinalDot(name))
    ensures Ascii(LowerAll(name)) <==> Ascii(name)
  {
    var low := LowerAll(name);
    forall i | 0 <= i < |name| ensures (low[i] < 128 <==> name[i] < 128) && (low[i] == DOT <==> name[i] == DOT) {
    }
    if Ascii(low) {
      forall i | 0 <= i < |name| ensures name[i] < 128 {
        assert low[i] < 128;
      }
    }
  }

  /** Letters of either case spell the same name. */
  lemma CaseIrrelevant(name: seq<byte>, literal: seq<byte> -> bool)
    requires CaseBlind(literal)
    ensures Canonical(LowerAll(name), literal) == Canonical(name, literal)
  {
    hide Split, LabelOk, Lower;
    var trimmed := WithoutFinalDot(name);
    LowerTrim(name);
    LowerTrim(trimmed);
    LowerSplit(trimmed);
    LowerTwice(trimmed);
    assert literal(LowerAll(trimmed)) == literal(trimmed);
  }

  /** And so does one dot at the end. */
  lemma FinalDotIrrelevant(name: seq<byte>, literal: seq<byte> -> bool)
    requires name != [] && name[|name| - 1] != DOT
    ensures Canonical(name + [DOT], literal) == Canonical(name, literal)
  {
    hide Split, LabelOk, Lower;
    assert (name + [DOT])[..|name|] == name;
  }

  /** A letter or a digit. */
  predicate Alphanumeric(b: byte) {
    ('0' as int <= b <= '9' as int) || ('A' as int <= b <= 'Z' as int) || ('a' as int <= b <= 'z' as int)
  }

  /** A label has one to sixty-three letters, digits and hyphens, and no hyphen at either end. */
  lemma LabelExact(part: seq<byte>)
    ensures LabelOk(part) <==>
              && 0 < |part| <= 63 && Alphanumeric(part[0]) && Alphanumeric(part[|part| - 1])
              && forall i :: 0 <= i < |part| ==> Alphanumeric(part[i]) || part[i] == '-' as int
  {
    if LabelOk(part) {
      assert LabelByte(part[0]) && LabelByte(part[|part| - 1]);
    }
    if 0 < |part| <= 63 && Alphanumeric(part[0]) && Alphanumeric(part[|part| - 1])
       && forall i :: 0 <= i < |part| ==> Alphanumeric(part[i]) || part[i] == '-' as int {
      forall i | 0 <= i < |part| ensures LabelByte(part[i]) {
        assert Alphanumeric(part[i]) || part[i] == '-' as int;
      }
    }
  }

  /** Capital letters become small ones, and everything else stays. */
  predicate SmallOf(small: seq<byte>, name: seq<byte>) {
    && |small| == |name|
    && forall i :: 0 <= i < |name| ==> small[i] == if 'A' as int <= name[i] <= 'Z' as int then name[i] + 32 else name[i]
  }

  lemma LowerExact(name: seq<byte>, small: seq<byte>)
    ensures small == LowerAll(name) <==> SmallOf(small, name)
  {
    if SmallOf(small, name) {
      forall i | 0 <= i < |name| ensures small[i] == LowerAll(name)[i] {
      }
    }
  }

  /** A hostname has a canonical form if and only if, without a final dot, it has one to 253 bytes, is not an address
      literal and consists of labels; the form is then the hostname in small letters. */
  lemma CanonicalExact(name: seq<byte>, literal: seq<byte> -> bool, c: seq<byte>)
    ensures Canonical(name, literal) == Some(c) <==>
              var trimmed := if name != [] && name[|name| - 1] == '.' as int then name[..|name| - 1] else name;
              && 0 < |trimmed| <= 253 && !literal(trimmed) && SmallOf(c, trimmed)
              && forall i :: 0 <= i < |Split(trimmed)| ==> LabelOk(Split(trimmed)[i])
  {
    hide Split, LabelOk, Lower, LowerAll, SmallOf, Ascii;
    var trimmed := WithoutFinalDot(name);
    LowerExact(trimmed, c);
    assert LabelsOk(Split(trimmed)) <==> forall i :: 0 <= i < |Split(trimmed)| ==> LabelOk(Split(trimmed)[i]);
    if LabelsOk(Split(trimmed)) {
      LabelsAscii(trimmed);
    }
  }

  lemma LabelsAscii(name: seq<byte>)
    requires LabelsOk(Split(name))
    ensures Ascii(name)
  {
    JoinSplit(name);
    AsciiJoin(Split(name));
    hide Split, Join, LabelOk;
  }

  /** A canonical form is without a final dot and its own canonical form. */
  lemma CanonicalFixed(name: seq<byte>, literal: seq<byte> -> bool)
    requires CaseBlind(literal) && Canonical(name, literal).Some?
    ensures var c := Canonical(name, literal).value;
            IsCanonical(c, literal) && c != [] && c[|c| - 1] != DOT && LabelsOk(Split(c))
  {
    var trimmed := WithoutFinalDot(name);
    var c := LowerAll(trimmed);
    LowerTwice(trimmed);
    LowerSplit(trimmed);
    LowerTrim(trimmed);
    LabelsEnd(trimmed);
    assert trimmed[|trimmed| - 1] != DOT && c[|c| - 1] != DOT;
    assert literal(c) == literal(trimmed);
    hide Split, LabelOk;
  }

  /** A name of valid labels does not end in a dot. */
  lemma LabelsEnd(name: seq<byte>)
    requires name != [] && LabelsOk(Split(name))
    ensures name[|name| - 1] != DOT
  {
    JoinSplit(name);
    NoFinalDot(Split(name));
    hide Split, Join, LabelOk;
  }
}
