/** Responses to the gateway's resolver: parsed, and followed from alias to alias to the addresses. */
module DnsResponse {
  import opened Bytes
  import opened Options
  import opened DnsNames

  datatype Data = AddressData(address: seq<byte>) | Cname(target: seq<byte>) | OtherData

  datatype Record = Record(owner: seq<byte>, data: Data)

  datatype Resolution = Resolution(addresses: seq<seq<byte>>, terminal: seq<byte>, depth: nat)

  const MAX_DEPTH: nat := 16

  // ---------------------------------------------------------------- following aliases

  /** All addresses a name owns, in message order. */
  function AddressesOf(answers: seq<Record>, name: seq<byte>): seq<seq<byte>> {
    if answers == [] then []
    else (if answers[0].owner == name && answers[0].data.AddressData? then [answers[0].data.address] else [])
         + AddressesOf(answers[1..], name)
  }

  function AliasesOf(answers: seq<Record>, name: seq<byte>): seq<seq<byte>> {
    if answers == [] then []
    else (if answers[0].owner == name && answers[0].data.Cname? then [answers[0].data.target] else [])
         + AliasesOf(answers[1..], name)
  }

  /** The chase: stop at addresses or at the end of the chain, refuse loops, forks and long chains. */
  function Chase(answers: seq<Record>, current: seq<byte>, visited: set<seq<byte>>, depth: nat): Option<Resolution>
    requires depth <= MAX_DEPTH
    decreases MAX_DEPTH - depth
  {
    if current in visited then None
    else
      var addresses, aliases := AddressesOf(answers, current), AliasesOf(answers, current);
      if addresses != [] || aliases == [] then Some(Resolution(addresses, current, depth))
      else if |aliases| != 1 || depth + 1 > MAX_DEPTH then None
      else Chase(answers, aliases[0], visited + {current}, depth + 1)
  }

  // ---------------------------------------------------------------- the chain itself

  /** A name without addresses that has exactly one alias leads on to it. */
  function Hop(answers: seq<Record>, name: seq<byte>): Option<seq<byte>> {
    if AddressesOf(answers, name) == [] && |AliasesOf(answers, name)| == 1 then Some(AliasesOf(answers, name)[0]) else None
  }

  predicate Terminal(answers: seq<Record>, name: seq<byte>) {
    AddressesOf(answers, name) != [] || AliasesOf(answers, name) == []
  }

  /** The name reached after some hops, if the chain goes that far. */
  function After(answers: seq<Record>, name: seq<byte>, hops: nat): Option<seq<byte>>
    decreases hops
  {
    if hops == 0 then Some(name)
    else match Hop(answers, name)
         case None => None
         case Some(next) => After(answers, next, hops - 1)
  }

  lemma {:induction false} AfterAdds(answers: seq<Record>, name: seq<byte>, a: nat, b: nat)
    requires After(answers, name, a).Some?
    ensures After(answers, name, a + b) == After(answers, After(answers, name, a).value, b)
    decreases a
  {
    if a > 0 {
      AfterAdds(answers, Hop(answers, name).value, a - 1, b);
    }
  }

  lemma {:induction false} AfterShorter(answers: seq<Record>, name: seq<byte>, a: nat, b: nat)
    requires a <= b && After(answers, name, b).Some?
    ensures After(answers, name, a).Some?
    decreases a
  {
    if a > 0 {
      AfterShorter(answers, Hop(answers, name).value, a - 1, b - 1);
    }
  }

  lemma TerminalStops(answers: seq<Record>, name: seq<byte>, hops: nat)
    requires Terminal(answers, name) && hops > 0
    ensures After(answers, name, hops).None?
  {
  }

  /** A chain that ends never comes back to a name. */
  lemma NoReturn(answers: seq<Record>, name: seq<byte>, end: nat, i: nat, j: nat)
    requires i < j <= end && After(answers, name, end).Some? && Terminal(answers, After(answers, name, end).value)
    ensures After(answers, name, i) != After(answers, name, j)
  {
    hide Terminal, Hop;
    AfterShorter(answers, name, i, end);
    AfterShorter(answers, name, j, end);
    if After(answers, name, i) == After(answers, name, j) {
      var x := After(answers, name, i).value;
      AfterAdds(answers, name, i, end - i);
      AfterAdds(answers, name, j, end - j);
      AfterAdds(answers, x, end - j, j - i);
      TerminalStops(answers, After(answers, name, end).value, j - i);
    }
  }

  /** Everything visited lies before the current name on the chain from the question. */
  ghost predicate OnChain(answers: seq<Record>, question: seq<byte>, current: seq<byte>, visited: set<seq<byte>>,
                          depth: nat) {
    && After(answers, question, depth) == Some(current)
    && forall v :: v in visited ==> exists i: nat :: i < depth && After(answers, question, i) == Some(v)
  }

  lemma HopOn(answers: seq<Record>, question: seq<byte>, current: seq<byte>, next: seq<byte>, visited: set<seq<byte>>,
              depth: nat)
    requires OnChain(answers, question, current, visited, depth) && Hop(answers, current) == Some(next)
    ensures OnChain(answers, question, next, visited + {current}, depth + 1)
  {
    hide Hop;
    AfterAdds(answers, question, depth, 1);
    assert After(answers, current, 1) == After(answers, next, 0);
    forall v | v in visited + {current} ensures exists i: nat :: i < depth + 1 && After(answers, question, i) == Some(v) {
      if v in visited {
        var i: nat :| i < depth && After(answers, question, i) == Some(v);
      } else {
        assert depth < depth + 1 && After(answers, question, depth) == Some(v);
      }
    }
  }

  /** A result lies at the end of the chain. */
  lemma {:induction false} ChaseSound(answers: seq<Record>, question: seq<byte>, current: seq<byte>,
                                      visited: set<seq<byte>>, depth: nat)
    requires depth <= MAX_DEPTH && OnChain(answers, question, current, visited, depth)
    ensures var r := Chase(answers, current, visited, depth);
            r.Some? ==>
              && r.value.depth <= MAX_DEPTH && After(answers, question, r.value.depth) == Some(r.value.terminal)
              && Terminal(answers, r.value.terminal) && r.value.addresses == AddressesOf(answers, r.value.terminal)
    decreases MAX_DEPTH - depth
  {
    hide AddressesOf, AliasesOf, After, OnChain;
    assert After(answers, question, depth) == Some(current) by { ChainHere(answers, question, current, visited, depth); }
    var aliases := AliasesOf(answers, current);
    if AddressesOf(answers, current) == [] && |aliases| == 1 && depth < MAX_DEPTH && current !in visited {
      HopOn(answers, question, current, aliases[0], visited, depth);
      ChaseSound(answers, question, aliases[0], visited + {current}, depth + 1);
    }
  }

  lemma ChainHere(answers: seq<Record>, question: seq<byte>, current: seq<byte>, visited: set<seq<byte>>, depth: nat)
    requires OnChain(answers, question, current, visited, depth)
    ensures After(answers, question, depth) == Some(current)
  {
  }

  /** A chain that ends within sixteen hops is followed to its end. */
  lemma {:induction false} ChaseComplete(answers: seq<Record>, question: seq<byte>, current: seq<byte>,
                                         visited: set<seq<byte>>, depth: nat, end: nat)
    requires depth <= end <= MAX_DEPTH && OnChain(answers, question, current, visited, depth)
    requires After(answers, question, end).Some? && Terminal(answers, After(answers, question, end).value)
    ensures var t := After(answers, question, end).value;
            Chase(answers, current, visited, depth) == Some(Resolution(AddressesOf(answers, t), t, end))
    decreases MAX_DEPTH - depth
  {
    Unvisited(answers, question, current, visited, depth, end);
    hide AddressesOf, AliasesOf;
    if depth < end {
      AfterShorter(answers, question, depth + 1, end);
      AfterAdds(answers, question, depth, 1);
      assert Hop(answers, current).Some?;
      var next := Hop(answers, current).value;
      HopOn(answers, question, current, next, visited, depth);
      hide After, OnChain;
      ChaseComplete(answers, question, next, visited + {current}, depth + 1, end);
    }
  }

  lemma Unvisited(answers: seq<Record>, question: seq<byte>, current: seq<byte>, visited: set<seq<byte>>, depth: nat,
                  end: nat)
    requires depth <= end && OnChain(answers, question, current, visited, depth)
    requires After(answers, question, end).Some? && Terminal(answers, After(answers, question, end).value)
    ensures current !in visited
  {
    hide Terminal, After;
    if current in visited {
      var i: nat :| i < depth && After(answers, question, i) == Some(current);
      NoReturn(answers, question, end, i, depth);
    }
  }

  // ---------------------------------------------------------------- the chain in terms of records

  /** The record gives the name an alias, or an address. */
  predicate IsAlias(r: Record, name: seq<byte>) {
    r.owner == name && r.data.Cname?
  }

  predicate IsAddress(r: Record, name: seq<byte>) {
    r.owner == name && r.data.AddressData?
  }

  ghost predicate HasAddress(answers: seq<Record>, name: seq<byte>) {
    exists r :: r in answers && IsAddress(r, name)
  }

  ghost predicate HasAlias(answers: seq<Record>, name: seq<byte>) {
    exists r :: r in answers && IsAlias(r, name)
  }

  /** The i-th record, and no other, is a CNAME record of the name; it points to the target. */
  ghost predicate OnlyAlias(answers: seq<Record>, name: seq<byte>, i: int, target: seq<byte>) {
    && 0 <= i < |answers| && answers[i] == Record(name, Cname(target))
    && forall j :: 0 <= j < |answers| && j != i ==> !IsAlias(answers[j], name)
  }

  /** The name has no address and one CNAME record, which points to the next name. */
  ghost predicate Leads(answers: seq<Record>, name: seq<byte>, next: seq<byte>) {
    !HasAddress(answers, name) && exists i :: OnlyAlias(answers, name, i, next)
  }

  /** The name has addresses, or no CNAME record. */
  ghost predicate Ends(answers: seq<Record>, name: seq<byte>) {
    HasAddress(answers, name) || !HasAlias(answers, name)
  }

  /** Names each of which leads to the next. */
  ghost predicate Chain(answers: seq<Record>, path: seq<seq<byte>>) {
    |path| > 0 && forall i :: 0 <= i < |path| - 1 ==> Leads(answers, path[i], path[i + 1])
  }

  /** Every returned address belongs to a record of the terminal name, and every such record is returned. */
  lemma {:induction false} AddressesExact(answers: seq<Record>, name: seq<byte>, address: seq<byte>)
    ensures address in AddressesOf(answers, name) <==> Record(name, AddressData(address)) in answers
  {
    if answers != [] {
      AddressesExact(answers[1..], name, address);
      assert answers == [answers[0]] + answers[1..];
    }
  }

  /** And every alias a CNAME record. */
  lemma {:induction false} AliasesExact(answers: seq<Record>, name: seq<byte>, target: seq<byte>)
    ensures target in AliasesOf(answers, name) <==> Record(name, Cname(target)) in answers
  {
    if answers != [] {
      AliasesExact(answers[1..], name, target);
      assert answers == [answers[0]] + answers[1..];
    }
  }

  lemma Regroup<T>(a: seq<T>, b: seq<T>, c: seq<T>)
    ensures a + (b + c) == (a + b) + c
  {
  }

  lemma Single<T>(x: T, rest: seq<T>, y: T)
    ensures [x] + rest == [y] <==> x == y && rest == []
  {
    if [x] + rest == [y] {
      assert ([x] + rest)[0] == x && |[x] + rest| == 1 + |rest|;
    }
  }

  /** One entry for each record, in the order of the message. */
  lemma {:induction false} AddressesInOrder(answers: seq<Record>, last: Record, name: seq<byte>)
    ensures AddressesOf(answers + [last], name)
         == AddressesOf(answers, name) + if IsAddress(last, name) then [last.data.address] else []
  {
    if answers == [] {
      assert answers + [last] == [last] && [last][1..] == [];
    } else {
      AddressesInOrder(answers[1..], last, name);
      assert (answers + [last])[0] == answers[0] && (answers + [last])[1..] == answers[1..] + [last];
      var head := if IsAddress(answers[0], name) then [answers[0].data.address] else [];
      var tail := if IsAddress(last, name) then [last.data.address] else [];
      assert AddressesOf(answers, name) == head + AddressesOf(answers[1..], name);
      assert AddressesOf(answers + [last], name) == head + AddressesOf(answers[1..] + [last], name);
      hide AddressesOf, IsAddress;
      Regroup(head, AddressesOf(answers[1..], name), tail);
    }
  }

  lemma {:induction false} AliasesInOrder(answers: seq<Record>, last: Record, name: seq<byte>)
    ensures AliasesOf(answers + [last], name)
         == AliasesOf(answers, name) + if IsAlias(last, name) then [last.data.target] else []
  {
    if answers == [] {
      assert answers + [last] == [last] && [last][1..] == [];
    } else {
      AliasesInOrder(answers[1..], last, name);
      assert (answers + [last])[0] == answers[0] && (answers + [last])[1..] == answers[1..] + [last];
      var head := if IsAlias(answers[0], name) then [answers[0].data.target] else [];
      var tail := if IsAlias(last, name) then [last.data.target] else [];
      assert AliasesOf(answers, name) == head + AliasesOf(answers[1..], name);
      assert AliasesOf(answers + [last], name) == head + AliasesOf(answers[1..] + [last], name);
      hide AliasesOf, IsAlias;
      Regroup(head, AliasesOf(answers[1..], name), tail);
    }
  }

  lemma NoneIff(answers: seq<Record>, name: seq<byte>)
    ensures AddressesOf(answers, name) == [] <==> !HasAddress(answers, name)
    ensures AliasesOf(answers, name) == [] <==> !HasAlias(answers, name)
  {
    var addresses, aliases := AddressesOf(answers, name), AliasesOf(answers, name);
    hide AddressesOf, AliasesOf;
    if addresses != [] {
      AddressesExact(answers, name, addresses[0]);
    }
    if r :| r in answers && IsAddress(r, name) {
      AddressesExact(answers, name, r.data.address);
    }
    if aliases != [] {
      AliasesExact(answers, name, aliases[0]);
    }
    if r :| r in answers && IsAlias(r, name) {
      AliasesExact(answers, name, r.data.target);
    }
  }

  /** There is one alias exactly when there is one CNAME record of the name. */
  lemma {:induction false} OneIff(answers: seq<Record>, name: seq<byte>, target: seq<byte>)
    ensures AliasesOf(answers, name) == [target] <==> exists i :: OnlyAlias(answers, name, i, target)
  {
    if answers != [] {
      var rest := answers[1..];
      OneIff(rest, name, target);
      NoneIff(rest, name);
      assert AliasesOf(answers, name) == (if IsAlias(answers[0], name) then [answers[0].data.target] else []) + AliasesOf(rest, name);
      hide AliasesOf, OnlyAlias, HasAlias;
      if IsAlias(answers[0], name) {
        FirstOnly(answers, name, target);
        Single(answers[0].data.target, AliasesOf(rest, name), target);
      } else {
        LaterOnly(answers, name, target);
      }
    }
  }

  lemma FirstOnly(answers: seq<Record>, name: seq<byte>, target: seq<byte>)
    requires answers != [] && IsAlias(answers[0], name)
    ensures (exists i :: OnlyAlias(answers, name, i, target)) <==>
              answers[0].data.target == target && !HasAlias(answers[1..], name)
  {
    forall j | 0 < j < |answers| ensures answers[j] in answers[1..] {
      assert answers[1..][j - 1] == answers[j];
    }
    if r :| r in answers[1..] && IsAlias(r, name) {
      var j :| 0 <= j < |answers[1..]| && answers[1..][j] == r;
      assert IsAlias(answers[j + 1], name);
    } else if answers[0].data.target == target {
      assert OnlyAlias(answers, name, 0, target);
    }
  }

  lemma LaterOnly(answers: seq<Record>, name: seq<byte>, target: seq<byte>)
    requires answers != [] && !IsAlias(answers[0], name)
    ensures (exists i :: OnlyAlias(answers, name, i, target)) <==> (exists i :: OnlyAlias(answers[1..], name, i, target))
  {
    var rest := answers[1..];
    assert forall j :: 0 <= j < |rest| ==> rest[j] == answers[j + 1];
    if i :| OnlyAlias(answers, name, i, target) {
      assert OnlyAlias(rest, name, i - 1, target);
    }
    if i :| OnlyAlias(rest, name, i, target) {
      forall j | 0 <= j < |answers| && j != i + 1 ensures !IsAlias(answers[j], name) {
        assert j > 0 ==> answers[j] == rest[j - 1];
      }
      assert OnlyAlias(answers, name, i + 1, target);
    }
  }

  lemma HopMeans(answers: seq<Record>, name: seq<byte>, next: seq<byte>)
    ensures Hop(answers, name) == Some(next) <==> Leads(answers, name, next)
    ensures Terminal(answers, name) <==> Ends(answers, name)
  {
    hide AddressesOf, AliasesOf, HasAddress, HasAlias, OnlyAlias;
    NoneIff(answers, name);
    OneIff(answers, name, next);
    assert |AliasesOf(answers, name)| == 1 ==> AliasesOf(answers, name) == [AliasesOf(answers, name)[0]];
  }

  lemma {:induction false} AfterPath(answers: seq<Record>, name: seq<byte>, hops: nat, end: seq<byte>)
    ensures After(answers, name, hops) == Some(end) <==>
              exists path :: |path| == hops + 1 && path[0] == name && path[hops] == end && Chain(answers, path)
    decreases hops
  {
    hide Leads, Hop;
    if hops == 0 {
      assert |[name]| == 1 && [name][0] == name && Chain(answers, [name]);
    } else {
      if After(answers, name, hops) == Some(end) {
        var next := Hop(answers, name).value;
        HopMeans(answers, name, next);
        AfterPath(answers, next, hops - 1, end);
        var path :| |path| == hops && path[0] == next && path[hops - 1] == end && Chain(answers, path);
        ChainLonger(answers, name, path);
      }
      if path :| |path| == hops + 1 && path[0] == name && path[hops] == end && Chain(answers, path) {
        HopMeans(answers, name, path[1]);
        ChainShorter(answers, path);
        AfterPath(answers, path[1], hops - 1, end);
        assert |path[1..]| == hops && path[1..][0] == path[1] && path[1..][hops - 1] == end && Chain(answers, path[1..]);
      }
    }
  }

  lemma ChainLonger(answers: seq<Record>, name: seq<byte>, path: seq<seq<byte>>)
    requires Chain(answers, path) && Leads(answers, name, path[0])
    ensures Chain(answers, [name] + path)
  {
    hide Leads;
    var longer := [name] + path;
    forall i | 0 <= i < |longer| - 1 ensures Leads(answers, longer[i], longer[i + 1]) {
      if i > 0 {
        assert Leads(answers, path[i - 1], path[i - 1 + 1]);
      }
    }
  }

  lemma ChainShorter(answers: seq<Record>, path: seq<seq<byte>>)
    requires Chain(answers, path) && |path| > 1
    ensures Chain(answers, path[1..]) && Leads(answers, path[0], path[1])
  {
    hide Leads;
    assert Leads(answers, path[0], path[0 + 1]);
    forall i | 0 <= i < |path[1..]| - 1 ensures Leads(answers, path[1..][i], path[1..][i + 1]) {
      assert Leads(answers, path[i + 1], path[i + 1 + 1]);
    }
  }

  /** The result is at the end of a chain of CNAME records from the question, at most sixteen hops away, and has
      the addresses of the name there. */
  ghost predicate Resolves(answers: seq<Record>, question: seq<byte>, r: Resolution) {
    && r.depth <= 16 && Ends(answers, r.terminal) && r.addresses == AddressesOf(answers, r.terminal)
    && exists path :: |path| == r.depth + 1 && path[0] == question && path[r.depth] == r.terminal && Chain(answers, path)
  }

  lemma ChaseIffAfter(answers: seq<Record>, question: seq<byte>, r: Resolution)
    ensures Chase(answers, question, {}, 0) == Some(r) <==>
              && r.depth <= MAX_DEPTH && After(answers, question, r.depth) == Some(r.terminal)
              && Terminal(answers, r.terminal) && r.addresses == AddressesOf(answers, r.terminal)
  {
    hide AddressesOf, AliasesOf, Chase, Terminal;
    assert OnChain(answers, question, question, {}, 0);
    ChaseSound(answers, question, question, {}, 0);
    if r.depth <= MAX_DEPTH && After(answers, question, r.depth) == Some(r.terminal) && Terminal(answers, r.terminal) {
      ChaseComplete(answers, question, question, {}, 0, r.depth);
    }
  }

  /** The chase succeeds if and only if the chain of CNAME records from the question ends within sixteen hops; it
      then returns exactly the addresses owned by the end of the chain and the number of hops to it. */
  lemma ChaseIff(answers: seq<Record>, question: seq<byte>, r: Resolution)
    ensures Chase(answers, question, {}, 0) == Some(r) <==> Resolves(answers, question, r)
  {
    hide AddressesOf, AliasesOf, Chase, Terminal, Ends, Chain, After;
    ChaseIffAfter(answers, question, r);
    HopMeans(answers, r.terminal, r.terminal);
    AfterPath(answers, question, r.depth, r.terminal);
  }

  // ---------------------------------------------------------------- the message

  datatype Parsed = Parsed(answers: seq<Record>, all: seq<seq<byte>>, end: nat)

  const IN_CLASS: nat := 1

  /** The data of one record; a compressed target must fill it exactly. */
  function ReadData(wire: seq<byte>, recordType: nat, class_: nat, start: nat, end: nat): Option<Data>
    requires start <= end <= |wire|
  {
    if class_ == IN_CLASS && recordType == 1 && end - start == 4 then Some(AddressData(wire[start..end]))
    else if class_ == IN_CLASS && recordType == 28 && end - start == 16 then Some(AddressData(wire[start..end]))
    else if class_ == IN_CLASS && recordType == 5 then
      match ReadName(wire, start)
      case None => None
      case Some(target) => if target.end != end then None else Some(Cname(target.text))
    else Some(OtherData)
  }

  datatype Read = Read(record: Record, next: nat)

  /** One record and where the next one starts. */
  function ReadOne(wire: seq<byte>, cursor: nat): Option<Read> {
    match ReadName(wire, cursor)
    case None => None
    case Some(owner) =>
      if owner.end + 10 > |wire| then None
      else
        var start := owner.end + 10;
        var end := start + Be16(wire[owner.end + 8], wire[owner.end + 9]);
        if end > |wire| then None
        else
          match ReadData(wire, Be16(wire[owner.end], wire[owner.end + 1]),
                         Be16(wire[owner.end + 2], wire[owner.end + 3]), start, end)
          case None => None
          case Some(data) => Some(Read(Record(owner.text, data), end))
  }

  /** Reads the remaining records; only those of the answer section are kept as answers. */
  function ReadRecords(wire: seq<byte>, cursor: nat, index: nat, total: nat, answers: nat): Option<Parsed>
    requires index <= total
    decreases total - index
  {
    if index == total then Some(Parsed([], [], cursor))
    else
      match ReadOne(wire, cursor)
      case None => None
      case Some(read) =>
        Onto(if index < answers then [read.record] else [],
             if read.record.data.AddressData? then [read.record.data.address] else [],
             ReadRecords(wire, read.next, index + 1, total, answers))
  }

  /** Records read so far in front of those still to come. */
  function Onto(answers: seq<Record>, all: seq<seq<byte>>, rest: Option<Parsed>): Option<Parsed> {
    match rest
    case None => None
    case Some(p) => Some(Parsed(answers + p.answers, all + p.all, p.end))
  }

  datatype Response = Response(resolution: Resolution, all: seq<seq<byte>>)

  predicate ResponseHeader(wire: seq<byte>, id: nat, maxRecords: nat) {
    && |wire| >= 12 && Be16(wire[0], wire[1]) == id
    && wire[2] >= 128 && wire[3] % 16 == 0 && Be16(wire[4], wire[5]) == 1
    && Be16(wire[6], wire[7]) + Be16(wire[8], wire[9]) + Be16(wire[10], wire[11]) <= maxRecords
  }

  /** The records of a response to the given question, if the message is well formed to its last byte. */
  function Records(wire: seq<byte>, id: nat, name: seq<byte>, maxRecords: nat): Option<Parsed> {
    if !ResponseHeader(wire, id, maxRecords) then None
    else
      match ReadName(wire, 12)
      case None => None
      case Some(question) =>
        if question.text != name || question.end + 4 > |wire| then None
        else
          var total := Be16(wire[6], wire[7]) + Be16(wire[8], wire[9]) + Be16(wire[10], wire[11]);
          match ReadRecords(wire, question.end + 4, 0, total, Be16(wire[6], wire[7]))
          case None => None
          case Some(parsed) => if parsed.end != |wire| then None else Some(parsed)
  }

  function ParseResponse(wire: seq<byte>, id: nat, name: seq<byte>, maxRecords: nat): Option<Response> {
    match Records(wire, id, name, maxRecords)
    case None => None
    case Some(parsed) =>
      match Chase(parsed.answers, name, {}, 0)
      case None => None
      case Some(resolution) => Some(Response(resolution, parsed.all))
  }

  lemma {:induction false} AnswersListed(wire: seq<byte>, cursor: nat, index: nat, total: nat, answers: nat,
                                         record: Record)
    requires index <= total && ReadRecords(wire, cursor, index, total, answers).Some?
    requires record in ReadRecords(wire, cursor, index, total, answers).value.answers && record.data.AddressData?
    ensures record.data.address in ReadRecords(wire, cursor, index, total, answers).value.all
    decreases total - index
  {
    if index < total {
      hide ReadOne;
      var next := ReadOne(wire, cursor).value.next;
      if record in ReadRecords(wire, next, index + 1, total, answers).value.answers {
        AnswersListed(wire, next, index + 1, total, answers, record);
      }
    }
  }

  /** A parsed response names the end of the alias chain from its question, at most sixteen hops away;
      its addresses are exactly those the end owns, and all of them are among the addresses checked. */
  lemma ResponseSound(wire: seq<byte>, id: nat, name: seq<byte>, maxRecords: nat)
    requires ParseResponse(wire, id, name, maxRecords).Some?
    ensures var response := ParseResponse(wire, id, name, maxRecords).value; var r := response.resolution;
            && Records(wire, id, name, maxRecords).Some?
            && var answers := Records(wire, id, name, maxRecords).value.answers;
               && Resolves(answers, name, r)
               && (forall a :: a in r.addresses <==> Record(r.terminal, AddressData(a)) in answers)
               && (forall a :: a in r.addresses ==> a in response.all)
  {
    hide ReadRecords, ReadName, Chase, Ends, Chain;
    var parsed := Records(wire, id, name, maxRecords).value;
    var r := ParseResponse(wire, id, name, maxRecords).value.resolution;
    ChaseIff(parsed.answers, name, r);
    forall a ensures a in r.addresses <==> Record(r.terminal, AddressData(a)) in parsed.answers {
      AddressesExact(parsed.answers, r.terminal, a);
    }
    forall a | a in r.addresses ensures a in parsed.all {
      var question := ReadName(wire, 12).value;
      var total := Be16(wire[6], wire[7]) + Be16(wire[8], wire[9]) + Be16(wire[10], wire[11]);
      AnswersListed(wire, question.end + 4, 0, total, Be16(wire[6], wire[7]), Record(r.terminal, AddressData(a)));
    }
  }

  // ---------------------------------------------------------------- the loops

  lemma OntoOnto(answers: seq<Record>, all: seq<seq<byte>>, more: seq<Record>, moreAll: seq<seq<byte>>,
                 rest: Option<Parsed>)
    ensures Onto(answers, all, Onto(more, moreAll, rest)) == Onto(answers + more, all + moreAll, rest)
  {
    if rest.Some? {
      assert answers + (more + rest.value.answers) == (answers + more) + rest.value.answers;
      assert all + (moreAll + rest.value.all) == (all + moreAll) + rest.value.all;
    }
  }

  method ReadRecord(wire: seq<byte>, cursor: nat) returns (r: Option<Read>)
    ensures r == ReadOne(wire, cursor)
  {
    hide ReadName, ReadData, Be16;
    var owner := ReadNameLoop(wire, cursor);
    if owner.None? || owner.value.end + 10 > |wire| {
      return None;
    }
    var at := owner.value.end;
    var next := at + 10 + Be16(wire[at + 8], wire[at + 9]);
    if next > |wire| {
      return None;
    }
    var data := ReadData(wire, Be16(wire[at], wire[at + 1]), Be16(wire[at + 2], wire[at + 3]), at + 10, next);
    if data.None? {
      return None;
    }
    r := Some(Read(Record(owner.value.text, data.value), next));
  }

  method ReadAllRecords(wire: seq<byte>, start: nat, total: nat, count: nat) returns (r: Option<Parsed>)
    ensures r == ReadRecords(wire, start, 0, total, count)
  {
    hide ReadOne;
    var answers: seq<Record>, all: seq<seq<byte>>, cursor := [], [], start;
    NothingOnto(ReadRecords(wire, start, 0, total, count));
    for index := 0 to total
      invariant ReadRecords(wire, start, 0, total, count) == Onto(answers, all, ReadRecords(wire, cursor, index, total, count))
    {
      var read := ReadRecord(wire, cursor);
      if read.None? {
        return None;
      }
      var record, next := read.value.record, read.value.next;
      var kept := if index < count then [record] else [];
      var address := if record.data.AddressData? then [record.data.address] else [];
      OntoOnto(answers, all, kept, address, ReadRecords(wire, next, index + 1, total, count));
      answers, all, cursor := answers + kept, all + address, next;
    }
    assert answers + [] == answers && all + [] == all;
    r := Some(Parsed(answers, all, cursor));
  }

  lemma NothingOnto(rest: Option<Parsed>)
    ensures Onto([], [], rest) == rest
  {
    if rest.Some? {
      assert [] + rest.value.answers == rest.value.answers && [] + rest.value.all == rest.value.all;
    }
  }

  method ChaseLoop(answers: seq<Record>, question: seq<byte>) returns (r: Option<Resolution>)
    ensures r == Chase(answers, question, {}, 0)
  {
    hide AddressesOf, AliasesOf;
    var current, visited, depth := question, {}, 0;
    while true
      invariant depth <= MAX_DEPTH
      invariant Chase(answers, current, visited, depth) == Chase(answers, question, {}, 0)
      decreases MAX_DEPTH - depth
    {
      if current in visited {
        return None;
      }
      var addresses := AddressesOf(answers, current);
      if |addresses| != 0 {
        return Some(Resolution(addresses, current, depth));
      }
      var aliases := AliasesOf(answers, current);
      if |aliases| == 0 {
        return Some(Resolution([], current, depth));
      }
      if |aliases| != 1 {
        return None;
      }
      if depth + 1 > MAX_DEPTH {
        return None;
      }
      visited := visited + {current};
      current := aliases[0];
      depth := depth + 1;
    }
  }
}
