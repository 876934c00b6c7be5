/**
 The streams of the client core in every run: how many there are, when they may be written, and that everything the
 engine reports is handed to the caller.
 */
module ClientCoreStreams {
  import opened Bytes
  import opened Options
  import opened TcpFlow
  import opened Engine
  import opened EngineWorld
  import opened EngineRuns
  import opened Dispatcher
  import opened ClientCore
  import opened ClientCoreTheorems

  // ---------------------------------------------------------------- one write

  function Sum(writes: seq<nat>): nat {
    if writes == [] then 0 else writes[0] + Sum(writes[1..])
  }

  predicate AllPositive(writes: seq<nat>) {
    forall i :: 0 <= i < |writes| ==> writes[i] > 0
  }

  /** The writes counted so far each took something and together no more than there was. */
  predicate Counted(writes: seq<nat>, n: nat, length: nat, count: nat) {
    n <= |writes| && AllPositive(writes[..n]) && Sum(writes[..n]) == count <= length
  }

  /** Writing stops when all is written, when there is no further write, or when the next one takes nothing or more
      than is left. */
  predicate Stops(writes: seq<nat>, n: nat, length: nat, count: nat) {
    count == length || n >= |writes| || writes[n] == 0 || count + writes[n] > length
  }

  /** The first n writes are the ones that count. */
  predicate Written(writes: seq<nat>, n: nat, offset: nat, length: nat, count: nat) {
    && offset <= count <= length
    && Counted(writes, n, length - offset, count - offset) && Stops(writes, n, length - offset, count - offset)
  }

  lemma {:induction false} PushExact(length: nat, offset: nat, writes: seq<nat>)
    requires offset <= length
    ensures var p := Push(length, offset, writes);
            (p.complete <==> p.count == length) && exists n: nat :: Written(writes, n, offset, length, p.count)
    decreases |writes|
  {
    if offset == length || writes == [] || writes[0] == 0 || writes[0] > length - offset {
      assert writes[..0] == [];
      assert Written(writes, 0, offset, length, offset);
    } else {
      var rest := writes[1..];
      PushExact(length, offset + writes[0], rest);
      var p := Push(length, offset + writes[0], rest);
      var n: nat :| Written(rest, n, offset + writes[0], length, p.count);
      OneMore(writes, n, offset, length, p.count);
    }
  }

  lemma OneMore(writes: seq<nat>, n: nat, offset: nat, length: nat, count: nat)
    requires writes != [] && writes[0] > 0 && Written(writes[1..], n, offset + writes[0], length, count)
    ensures Written(writes, n + 1, offset, length, count)
  {
    var all, rest := writes[..n + 1], writes[1..][..n];
    assert all == [writes[0]] + rest && all[1..] == rest;
    forall i | 0 <= i < |all| ensures all[i] > 0 {
      assert i > 0 ==> all[i] == rest[i - 1];
    }
  }

  predicate MayWrite(d: Dispatcher, id: nat, payload: seq<byte>) {
    |payload| <= d.chunkBytes && id in d.streams && id !in d.writeClosed
  }

  /** A payload may be written only if it is no longer than a chunk and its stream is open and not closed for writing.
      Then a front part of it is what the stream gets, as many bytes as the writes that count took, and it is written
      if and only if that is all of it and the flush succeeds. */
  lemma WriteExact(d: Dispatcher, id: nat, payload: seq<byte>, luck: Luck)
    ensures var r := WriteAll(d, id, payload, luck);
            if MayWrite(d, id, payload) then
              exists n: nat, count: nat :: Written(luck.writes, n, 0, |payload|, count)
                && r.dispatcher == d.(written := d.written[id := WrittenTo(d, id) + payload[..count]])
                && (r.ok <==> luck.flushes && count == |payload|)
            else r == Tried(d, false)
  {
    PushExact(|payload|, 0, luck.writes);
    var p := Push(|payload|, 0, luck.writes);
    var n: nat :| Written(luck.writes, n, 0, |payload|, p.count);
    hide Push, Written;
  }

  // ---------------------------------------------------------------- limits and marks, in every run

  /** Within both limits, no mark without its stream, and no stream while no new one is accepted. */
  predicate InOrder(d: Dispatcher) {
    && |d.streams| <= d.maxStreams && |d.streams| <= d.sessionStreams
    && d.writeClosed <= d.streams && (!d.accepting ==> d.streams == {})
  }

  lemma Fewer(streams: set<nat>, id: nat)
    ensures |streams - {id}| <= |streams| && (id !in streams ==> |streams + {id}| == |streams| + 1)
  {
    if id in streams {
      assert |streams - {id}| == |streams| - 1;
    } else {
      assert streams - {id} == streams;
    }
  }

  lemma TriesInOrder(d: Dispatcher, id: nat, payload: seq<byte>, luck: Luck)
    requires InOrder(d)
    ensures InOrder(Open(d, id, luck).dispatcher) && InOrder(WriteAll(d, id, payload, luck).dispatcher)
    ensures InOrder(MarkWriteClosed(d, id).dispatcher) && InOrder(Close(d, id))
  {
    Fewer(d.streams, id);
    hide Push;
  }

  lemma AllInOrder(d: Dispatcher, sessionStreams: nat)
    requires InOrder(d)
    ensures InOrder(CloseAll(d)) && InOrder(ReplaceSession(d, sessionStreams))
  {
  }

  /** What a step does to the dispatcher. */
  ghost predicate DispatcherStep(core: Core, step: CoreStep, d': Dispatcher) {
    var d := core.dispatcher;
    match step
    case Calls(_) => d' == d
    case DropsAll => d' == CloseAll(d)
    case Reconnects(sessionStreams) => d' == ReplaceSession(d, sessionStreams)
    case Performs(fate) =>
      core.queue != [] &&
      match core.queue[0]
      case OpenStream(id, _) => d' == Open(d, id, fate.luck).dispatcher
      case ForwardPayload(id, payload) => d' == WriteAll(d, id, payload, fate.luck).dispatcher
      case CloseWrite(id) => d' == MarkWriteClosed(d, id).dispatcher
      case CloseBoth(id) => d' == Close(d, id)
      case _ => d' == d
  }

  lemma StepDispatches(core: Core, step: CoreStep)
    requires Allowed(core, step)
    ensures DispatcherStep(core, step, CoreNext(core, step).dispatcher)
  {
    hide Next, Step, Push, HasRoom;
  }

  lemma StepInOrder(core: Core, step: CoreStep)
    requires Allowed(core, step) && InOrder(core.dispatcher)
    ensures InOrder(CoreNext(core, step).dispatcher)
  {
    StepDispatches(core, step);
    hide CoreNext, InOrder, Open, WriteAll, MarkWriteClosed, Close, CloseAll, ReplaceSession, Allowed;
    match step {
      case Performs(fate) =>
        var a := core.queue[0];
        if a.OpenStream? || a.ForwardPayload? || a.CloseWrite? || a.CloseBoth? {
          TriesInOrder(core.dispatcher, a.flow, if a.ForwardPayload? then a.payload else [], fate.luck);
        }
      case Reconnects(sessionStreams) => AllInOrder(core.dispatcher, sessionStreams);
      case DropsAll => AllInOrder(core.dispatcher, 0);
      case _ =>
    }
  }

  /** In every run there are never more streams than the core and the session permit, every mark belongs to a stream,
      and after all streams were dropped there is none until the session is replaced. */
  lemma {:induction false} StreamsInOrder(c: Config, cores: seq<Core>, steps: seq<CoreStep>, k: nat)
    requires CoreRun(c, cores, steps) && cores[0].dispatcher.writeClosed == {} && k < |cores|
    ensures InOrder(cores[k].dispatcher)
  {
    hide CoreNext, Allowed;
    if k > 0 {
      StreamsInOrder(c, cores, steps, k - 1);
      assert cores[k - 1 + 1] == CoreNext(cores[k - 1], steps[k - 1]);
      StepInOrder(cores[k - 1], steps[k - 1]);
    }
  }

  lemma DroppedSwitch(core: Core, step: CoreStep)
    requires Allowed(core, step)
    ensures step.DropsAll? ==> !CoreNext(core, step).dispatcher.accepting
    ensures !core.dispatcher.accepting && !step.Reconnects? ==> !CoreNext(core, step).dispatcher.accepting
    ensures step.Reconnects? ==>
              var d := CoreNext(core, step).dispatcher; d.accepting && d.streams == {} && d.sessionStreams == step.sessionStreams
  {
    StepDispatches(core, step);
    hide CoreNext, Push, HasRoom;
  }

  /** Without streams nothing is written. */
  lemma DroppedWrites(core: Core, step: CoreStep)
    requires Allowed(core, step) && (step.DropsAll? || core.dispatcher.streams == {})
    ensures CoreNext(core, step).dispatcher.written == core.dispatcher.written
  {
    StepDispatches(core, step);
    hide CoreNext, Push, HasRoom;
  }

  /** Dropping all streams lasts: no stream comes up and nothing is written before the session is replaced. */
  lemma {:induction false} DroppedStays(c: Config, cores: seq<Core>, steps: seq<CoreStep>, i: nat, k: nat)
    requires CoreRun(c, cores, steps) && cores[0].dispatcher.writeClosed == {} && i < k < |cores| && steps[i].DropsAll?
    requires forall j :: i < j < k ==> !steps[j].Reconnects?
    ensures !cores[k].dispatcher.accepting && cores[k].dispatcher.streams == {}
    ensures cores[k].dispatcher.written == cores[i].dispatcher.written
    decreases k
  {
    hide CoreNext, Allowed;
    StreamsInOrder(c, cores, steps, k);
    StreamsInOrder(c, cores, steps, k - 1);
    assert cores[k - 1 + 1] == CoreNext(cores[k - 1], steps[k - 1]);
    DroppedSwitch(cores[k - 1], steps[k - 1]);
    if i < k - 1 {
      DroppedStays(c, cores, steps, i, k - 1);
    }
    DroppedWrites(cores[k - 1], steps[k - 1]);
  }

  /** A stream that is closed for writing gets nothing more, for as long as it stays open. */
  lemma WriteClosedStep(core: Core, step: CoreStep, id: nat)
    requires Allowed(core, step) && id in core.dispatcher.writeClosed && id in core.dispatcher.streams
    requires id in CoreNext(core, step).dispatcher.streams
    ensures var d := CoreNext(core, step).dispatcher; id in d.writeClosed && WrittenTo(d, id) == WrittenTo(core.dispatcher, id)
  {
    StepDispatches(core, step);
    hide CoreNext, Push;
  }

  lemma CloseWriteMarks(core: Core, fate: Fate, id: nat)
    requires core.queue != [] && core.queue[0] == CloseWrite(id) && id in core.dispatcher.streams
    ensures id in Perform(core, fate).dispatcher.writeClosed
  {
    hide Next, Step;
  }

  /** In every run, from the moment the direction to the gateway is closed, a stream that stays open is written nothing
      more. */
  lemma {:induction false} NothingAfterClose(c: Config, cores: seq<Core>, steps: seq<CoreStep>, i: nat, k: nat, id: nat)
    requires CoreRun(c, cores, steps) && i < k < |cores|
    requires steps[i].Performs? && cores[i].queue != [] && cores[i].queue[0] == CloseWrite(id)
    requires forall j :: i <= j <= k ==> id in cores[j].dispatcher.streams
    ensures id in cores[k].dispatcher.writeClosed
    ensures WrittenTo(cores[k].dispatcher, id) == WrittenTo(cores[i].dispatcher, id)
    decreases k
  {
    hide Perform;
    assert cores[k - 1 + 1] == CoreNext(cores[k - 1], steps[k - 1]);
    if i == k - 1 {
      CloseWriteMarks(cores[i], steps[i].fate, id);
      StepDispatches(cores[i], steps[i]);
    } else {
      NothingAfterClose(c, cores, steps, i, k - 1, id);
      WriteClosedStep(cores[k - 1], steps[k - 1], id);
    }
  }

  // ---------------------------------------------------------------- what is reported

  /** What the core hands to its caller; the rest it performs itself. */
  predicate Reported(a: Action) {
    !a.OpenStream? && !a.ForwardPayload? && !a.ResolveDns? && !a.CloseWrite? && !a.CloseBoth?
  }

  function Reports(actions: seq<Action>): seq<Action> {
    if actions == [] then [] else (if Reported(actions[0]) then [actions[0]] else []) + Reports(actions[1..])
  }

  lemma {:induction false} ReportsConcat(a: seq<Action>, b: seq<Action>)
    ensures Reports(a + b) == Reports(a) + Reports(b)
  {
    if a == [] {
      assert a + b == b;
    } else {
      ReportsConcat(a[1..], b);
      assert (a + b)[0] == a[0] && (a + b)[1..] == a[1..] + b;
      Regroup(if Reported(a[0]) then [a[0]] else [], Reports(a[1..]), Reports(b));
    }
  }

  lemma Regroup(a: seq<Action>, b: seq<Action>, c: seq<Action>)
    ensures a + (b + c) == (a + b) + c
  {
  }

  /** The step fails to perform its action, and the queue is discarded. */
  ghost predicate Fails(core: Core, step: CoreStep) {
    step.Performs? && core.queue != [] &&
    match core.queue[0]
    case OpenStream(id, _) => !Open(core.dispatcher, id, step.fate.luck).ok
    case ForwardPayload(id, payload) => !WriteAll(core.dispatcher, id, payload, step.fate.luck).ok
    case CloseWrite(id) => id !in core.dispatcher.streams
    case _ => false
  }

  /** Everything reported so far and still to be reported is everything the engine has said. */
  ghost predicate AllReported(core: Core) {
    core.output + Reports(core.queue) == Reports(core.world.history)
  }

  lemma ContinueReports(core: Core, core': Core, actions: seq<Action>)
    requires AllReported(core) && core.queue != [] && !Reported(core.queue[0])
    requires core'.output == core.output && core'.queue == core.queue[1..] + actions
    requires core'.world.history == core.world.history + actions
    ensures AllReported(core')
  {
    ReportsConcat(core.queue[1..], actions);
    ReportsConcat(core.world.history, actions);
    assert Reports(core.queue) == [] + Reports(core.queue[1..]);
    Regroup(core.output, Reports(core.queue[1..]), Reports(actions));
  }

  lemma PassReports(core: Core, core': Core)
    requires AllReported(core) && core.queue != [] && core'.queue == core.queue[1..] && core'.world == core.world
    requires core'.output == core.output + if Reported(core.queue[0]) then [core.queue[0]] else []
    ensures AllReported(core')
  {
    Regroup(core.output, if Reported(core.queue[0]) then [core.queue[0]] else [], Reports(core.queue[1..]));
  }

  lemma PerformReports(core: Core, fate: Fate)
    requires AllReported(core) && core.queue != [] && !Fails(core, Performs(fate))
    ensures AllReported(Perform(core, fate))
  {
    hide Step, AllReported, Push, HasRoom, WriteAll, TracesAfter;
    var core', a := Perform(core, fate), core.queue[0];
    if a.OpenStream? {
      ContinueReports(core, core', Step(core.world.engine, StreamOpens(a.flow, fate.now)).actions);
    } else if a.ForwardPayload? {
      ContinueReports(core, core', Step(core.world.engine, StreamTook(a.flow, |a.payload|, fate.now)).actions);
    } else if a.ResolveDns? {
      ContinueReports(core, core', Step(core.world.engine, DnsAnswers(a.query, fate.answer, fate.now)).actions);
    } else {
      PassReports(core, core');
    }
  }

  lemma CallReports(core: Core, ev: Event)
    requires AllReported(core) && core.queue == [] && Callable(core, ev)
    ensures AllReported(Call(core, ev))
  {
    hide Step, TracesAfter;
    ReportsConcat(core.world.history, Step(core.world.engine, ev).actions);
    assert core.output + [] == core.output;
  }

  /** In every run in which no action fails, the caller is handed everything that the engine says for it, each once
      and in order: when the queue is empty, all of it. */
  lemma {:induction false} EverythingReported(c: Config, cores: seq<Core>, steps: seq<CoreStep>, k: nat)
    requires CoreRun(c, cores, steps) && k < |cores| && forall i :: 0 <= i < k ==> !Fails(cores[i], steps[i])
    ensures cores[k].output + Reports(cores[k].queue) == Reports(cores[k].world.history)
  {
    hide Call, Perform, Fails;
    if k > 0 {
      EverythingReported(c, cores, steps, k - 1);
      var core, step := cores[k - 1], steps[k - 1];
      assert cores[k - 1 + 1] == CoreNext(core, step);
      match step {
        case Calls(ev) => CallReports(core, ev);
        case Performs(fate) => PerformReports(core, fate);
        case _ =>
      }
    }
  }
}
