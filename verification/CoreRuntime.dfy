/** The client core as an object: one work queue popped, extended and cleared in a loop. */
module CoreRuntime {
  import opened Bytes
  import opened Options
  import opened Packet
  import opened TcpFlow
  import opened TcpFlowTheorems
  import opened Engine
  import opened EngineWorld
  import opened EngineRuns
  import opened Dispatcher
  import opened ClientCore
  import opened ClientCoreInvariant
  import opened ClientCoreTheorems
  import opened PacketProcessor
  import opened ConnectionDispatcher

  /** Performs queued actions until none is left; the fates of successive actions are given. */
  ghost function RunQueue(core: Core, fate: nat -> Fate, i: nat): (r: Core)
    requires CoreInv(core)
    ensures CoreInv(r) && r.queue == []
    decreases TotalWeight(core.queue)
  {
    if core.queue == [] then core
    else
      PerformKeeps(core, fate(i));
      PerformShrinks(core, fate(i));
      RunQueue(Perform(core, fate(i)), fate, i + 1)
  }

  /** What one read of a protected stream returns. */
  datatype Read = Data(bytes: seq<byte>) | Failed

  class Runtime {
    const processor: Processor
    const table: StreamTable
    /** What each flow has taken and given, and every action the engine returned. */
    ghost var traces: map<nat, Trace>
    ghost var history: seq<Action>

    ghost function State(queue: seq<Action>, output: seq<Action>): Core
      reads this, processor, table
    {
      Core(World(processor.View(), traces, history), table.View(), queue, output)
    }

    ghost predicate Valid()
      reads this, processor, table
    {
      processor.Valid() && CoreInv(State([], []))
    }

    constructor (processor: Processor, table: StreamTable)
      requires ValidConfig(processor.config) && processor.View() == Fresh(processor.config) && processor.Valid()
      requires NewDispatcher(table.View())
      ensures Valid() && this.processor == processor && this.table == table
    {
      this.processor, this.table := processor, table;
      traces, history := map[], [];
      new;
      FreshWorld(processor.config);
      hide WorldInv;
      assert CoreInv(State([], []));
    }

    /** Performs the first queued action. */
    method PerformFirst(queue: seq<Action>, output: seq<Action>, fate: Fate) returns (queue': seq<Action>,
        output': seq<Action>)
      requires processor.Valid() && queue != []
      modifies this, processor, table
      ensures processor.Valid()
      ensures State(queue', output') == Perform(old(State(queue, output)), fate)
    {
      hide Opened, AcknowledgeForwarded, CompleteDns, FailFlow, WriteAll, HasRoom;
      var rest := queue[1..];
      queue', output' := rest, output;
      match queue[0] {
        case OpenStream(id, _) =>
          var ok := table.OpenStream(id, fate.luck);
          if ok {
            var more := processor.ProtectedStreamOpened(id, fate.now);
            history := history + more;
            queue' := rest + more;
          } else {
            queue' := FailHere(id);
          }
        case ForwardPayload(id, payload) =>
          var ok := table.WriteFully(id, payload, fate.luck);
          if ok {
            var more := processor.BytesForwarded(id, |payload|, fate.now);
            history := history + more;
            queue' := rest + more;
          } else {
            queue' := FailHere(id);
          }
        case ResolveDns(query, _, _) =>
          queue' := AnswerHere(query, fate.answer, fate.now, rest);
        case CloseWrite(id) =>
          var ok := table.CloseWrites(id);
          if !ok {
            queue' := FailHere(id);
          }
        case CloseBoth(id) => table.CloseStream(id);
        case _ => output' := output + [queue[0]];
      }
    }

    method FailHere(id: nat) returns (queue: seq<Action>)
      requires processor.Valid()
      modifies this`history, processor
      ensures processor.Valid()
      ensures Done(processor.View(), queue) == FailFlow(old(processor.View()), id, DownstreamFailure)
      ensures history == old(history) + queue
    {
      queue := processor.FailOne(id, DownstreamFailure);
      history := history + queue;
    }

    method AnswerHere(query: nat, answer: seq<byte>, now: nat, rest: seq<Action>) returns (queue: seq<Action>)
      requires processor.Valid()
      modifies this, processor
      ensures processor.Valid()
      ensures var r := CompleteDns(old(processor.View()), query, answer, now);
              processor.View() == r.engine && queue == rest + r.actions && history == old(history) + r.actions
      ensures traces == TracesAfter(old(processor.View()), DnsAnswers(query, answer, now), old(traces))
    {
      ghost var e := processor.View();
      var more := processor.DnsCompleted(query, answer, now);
      traces := TracesAfter(e, DnsAnswers(query, answer, now), traces);
      history := history + more;
      queue := rest + more;
    }

    /** Performs what the engine asked for, and what that makes it ask for, to the end. */
    method Execute(actions: seq<Action>, fate: nat -> Fate) returns (output: seq<Action>)
      requires processor.Valid() && CoreInv(State(actions, []))
      modifies this, processor, table
      ensures Valid()
      ensures State([], output) == RunQueue(old(State(actions, [])), fate, 0)
    {
      hide Perform, CoreInv;
      ghost var start := State(actions, []);
      output := [];
      var queue, i := actions, 0;
      while queue != []
        invariant processor.Valid() && CoreInv(State(queue, output))
        invariant RunQueue(State(queue, output), fate, i) == RunQueue(start, fate, 0)
        decreases TotalWeight(queue)
      {
        ghost var before := State(queue, output);
        PerformKeeps(before, fate(i));
        PerformShrinks(before, fate(i));
        queue, output := PerformFirst(queue, output, fate(i));
        i := i + 1;
      }
      OutputApart(State([], output), State([], []));
    }

    /** One packet of the application. */
    method HandlePacket(input: Input, fate: nat -> Fate) returns (output: seq<Action>)
      requires Valid()
      modifies this, processor, table
      ensures Valid()
      ensures State([], output) == RunQueue(CallNow(old(State([], [])), Arrives(input)), fate, 0)
    {
      hide CoreInv, Process, TracesAfter;
      ghost var before := State([], []);
      CallKeeps(before, Arrives(input));
      var actions := processor.ProcessPacket(input);
      Record(Arrives(input), actions, before);
      output := Execute(actions, fate);
    }

    /** Brings the watched history up to date after an engine call. */
    ghost method Record(ev: Event, actions: seq<Action>, before: Core)
      requires before.queue == [] && Callable(before, ev)
      requires before == Core(World(before.world.engine, traces, history), table.View(), [], [])
      requires Done(processor.View(), actions) == Step(before.world.engine, ev)
      modifies this
      ensures State(actions, []) == Call(before, ev)
    {
      traces := TracesAfter(before.world.engine, ev, traces);
      history := history + actions;
    }

    /** One read of a flow's protected stream. */
    method PumpFlow(id: nat, read: Read, now: nat, fate: nat -> Fate) returns (output: seq<Action>)
      requires Valid()
      modifies this, processor, table
      ensures Valid()
      ensures var before := old(State([], []));
              State([], output) == match PumpEvent(before, id, read, now)
                                   case None => before
                                   case Some(ev) => RunQueue(CallNow(before, ev), fate, 0)
    {
      hide CoreInv, ProtectedPayload, ProtectedClosed, FailFlow, TracesAfter;
      ghost var before := State([], []);
      var capacity := processor.ProtectedReadCapacity(id);
      if capacity == 0 {
        return [];
      }
      var limit := if capacity < table.chunkBytes then capacity else table.chunkBytes;
      ghost var ev := PumpEvent(before, id, read, now).value;
      CallKeeps(before, ev);
      var actions;
      if id !in table.streams || read.Failed? || |read.bytes| > limit {
        actions := processor.FailOne(id, DownstreamFailure);
      } else if |read.bytes| == 0 {
        actions := processor.StreamFinished(id, now);
      } else {
        actions := processor.PayloadReceived(id, read.bytes, now);
      }
      Record(ev, actions, before);
      output := Execute(actions, fate);
    }

    method OnClock(now: nat, order: seq<Key>, fate: nat -> Fate) returns (output: seq<Action>)
      requires Valid() && Enumerates(order, processor.flows.Keys)
      modifies this, processor, table
      ensures Valid()
      ensures State([], output) == RunQueue(CallNow(old(State([], [])), Clock(now, order)), fate, 0)
    {
      hide CoreInv, Tick, TracesAfter;
      ghost var before := State([], []);
      CallKeeps(before, Clock(now, order));
      var actions := processor.OnTick(now, order);
      Record(Clock(now, order), actions, before);
      output := Execute(actions, fate);
    }

    method WakeUp(now: nat, healthy: bool, order: seq<nat>, fate: nat -> Fate) returns (output: seq<Action>)
      requires Valid() && Enumerates(order, processor.ids.Keys)
      modifies this, processor, table
      ensures Valid()
      ensures State([], output) == RunQueue(CallNow(old(State([], [])), Wakes(now, healthy, order)), fate, 0)
    {
      hide CoreInv, Resume, TracesAfter;
      ghost var before := State([], []);
      CallKeeps(before, Wakes(now, healthy, order));
      var actions := processor.ResumeAt(now, healthy, order);
      Record(Wakes(now, healthy, order), actions, before);
      output := Execute(actions, fate);
    }

    /** Fails every flow after the protected path was lost, then drops every stream. */
    method PathWasLost(order: seq<nat>, fate: nat -> Fate) returns (output: seq<Action>)
      requires Valid() && Enumerates(order, processor.ids.Keys)
      modifies this, processor, table
      ensures Valid()
      ensures var ran := RunQueue(CallNow(old(State([], [])), PathLost(ProtectedPathUnavailable, order)), fate, 0);
              State([], output) == ran.(dispatcher := CloseAll(ran.dispatcher))
    {
      hide CoreInv, FailAll, TracesAfter;
      ghost var before, ev := State([], []), PathLost(ProtectedPathUnavailable, order);
      CallKeeps(before, ev);
      var actions := processor.FailEverything(ProtectedPathUnavailable, order);
      Record(ev, actions, before);
      output := Execute(actions, fate);
      DropKeeps(State([], []), CloseAll(table.View()));
      table.CloseEverything();
    }

    /** Installs a replacement session after the old flows were failed. */
    method Reconnect(order: seq<nat>, sessionStreams: nat, fate: nat -> Fate) returns (output: seq<Action>)
      requires Valid() && Enumerates(order, processor.ids.Keys)
      modifies this, processor, table
      ensures Valid()
      ensures var ran := RunQueue(CallNow(old(State([], [])), PathLost(ProtectedPathUnavailable, order)), fate, 0);
              State([], output) == ran.(dispatcher := ReplaceSession(CloseAll(ran.dispatcher), sessionStreams))
    {
      output := PathWasLost(order, fate);
      hide CoreInv;
      DropKeeps(State([], []), ReplaceSession(table.View(), sessionStreams));
      table.ReplaceWith(sessionStreams);
    }

    method ShutDown(order: seq<nat>, fate: nat -> Fate) returns (output: seq<Action>)
      requires Valid() && Enumerates(order, processor.ids.Keys)
      modifies this, processor, table
      ensures Valid()
      ensures var ran := RunQueue(CallNow(old(State([], [])), Stops(order)), fate, 0);
              State([], output) == ran.(dispatcher := CloseAll(ran.dispatcher))
    {
      hide CoreInv, Stop, TracesAfter;
      ghost var before := State([], []);
      CallKeeps(before, Stops(order));
      var actions := processor.ShutDown(order);
      Record(Stops(order), actions, before);
      output := Execute(actions, fate);
      DropKeeps(State([], []), CloseAll(table.View()));
      table.CloseEverything();
    }
  }

  /** A call from a quiet core. */
  ghost function CallNow(core: Core, ev: Event): (r: Core)
    requires CoreInv(core) && core.queue == [] && Callable(core, ev)
    ensures CoreInv(r)
  {
    CallKeeps(core, ev);
    Call(core, ev)
  }

  /** What a read turns into: nothing while the flow cannot take bytes, a failure, the end of the
      stream, or a payload within both limits. */
  ghost function PumpEvent(core: Core, id: nat, read: Read, now: nat): (r: Option<Event>)
    ensures r.Some? ==> Callable(core, r.value)
  {
    var capacity := ReadCapacity(core.world.engine, id);
    var limit := if capacity < core.dispatcher.chunkBytes then capacity else core.dispatcher.chunkBytes;
    if capacity == 0 then None
    else if id !in core.dispatcher.streams || read.Failed? || |read.bytes| > limit then Some(StreamFails(id, DownstreamFailure))
    else if read.bytes == [] then Some(StreamEnds(id, now))
    else Some(StreamSays(id, read.bytes, now))
  }
}
