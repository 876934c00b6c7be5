/**
 The outbound queue of the relay multiplexer: a second, separately written fair scheduler.
 Sizes are computed from the command, and one push method serves control and session traffic.
 */
module RelayMux {
  import opened Options
  import opened FairQueue

  const ACCOUNTING_OVERHEAD: nat := 128

  type Payload = seq<bv8>

  datatype Command =
    | Open(session: nat, encoded: Payload)
    | Data(session: nat, payload: Payload)
    | Control(encoded: Payload)

  function SessionOf(command: Command): Option<nat> {
    if command.Control? then None else Some(command.session)
  }

  function AccountedBytes(command: Command): Option<nat> {
    var payload := if command.Data? then |command.payload| else |command.encoded|;
    if payload + ACCOUNTING_OVERHEAD > USIZE_MAX then None else Some(payload + ACCOUNTING_OVERHEAD)
  }

  function SizeOf(command: Command): nat {
    match AccountedBytes(command)
    case None => 0
    case Some(n) => n
  }

  function Charged(commands: seq<Command>): (items: seq<Item<Command>>)
    ensures |items| == |commands|
    ensures forall i :: 0 <= i < |items| ==> items[i] == Item(commands[i], SizeOf(commands[i]))
  {
    seq(|commands|, i requires 0 <= i < |commands| => Item(commands[i], SizeOf(commands[i])))
  }

  /** Admission of a command, decided from the queued commands alone. */
  ghost function Admission(q: Queue<Command>, limits: Limits, command: Command): Outcome
    requires WellFormed(q)
  {
    if AccountedBytes(command).None? then Refused(IntegerOverflow)
    else
      var size := SizeOf(command);
      var whole := Reserve(TotalBytes(q), size, limits.maxBytes);
      if whole.Refused? then whole
      else match SessionOf(command)
        case None => ControlAdmission(q, limits, size)
        case Some(session) =>
          if session % 2 == 0 then Refused(ProtocolViolation)
          else StreamAdmission(q, limits, session, size)
  }

  ghost function Push(q: Queue<Command>, command: Command): Queue<Command> {
    match SessionOf(command)
    case None => PushControl(q, Item(command, SizeOf(command)))
    case Some(session) => PushStream(q, session, Item(command, SizeOf(command)))
  }

  /** A command is admitted exactly when its bytes and the overhead are countable, a session's number is odd, and the
      queue with it keeps to the limits. */
  lemma AdmittedIff(q: Queue<Command>, limits: Limits, command: Command)
    requires WellFormed(q) && LimitsOk(limits) && WithinLimits(q, limits)
    ensures WellFormed(Push(q, command))
    ensures Admission(q, limits, command).Accepted? <==>
              && (if command.Data? then |command.payload| else |command.encoded|) + 128 <= USIZE_MAX
              && (!command.Control? ==> command.session % 2 == 1)
              && WithinLimits(Push(q, command), limits)
  {
    hide TotalBytes, WellFormed, WithinLimits, ControlAdmission, StreamAdmission, PushControl, PushStream;
    var item := Item(command, SizeOf(command));
    if command.Control? {
      ControlAdmittedIff(q, limits, item);
      ControlImpliesWhole(q, limits, item.size);
    } else {
      StreamAdmittedIff(q, limits, command.session, item);
      StreamImpliesWhole(q, limits, command.session, item.size);
    }
  }

  lemma ControlImpliesWhole(q: Queue<Command>, limits: Limits, size: nat)
    requires WellFormed(q)
    ensures ControlAdmission(q, limits, size).Accepted? ==> Reserve(TotalBytes(q), size, limits.maxBytes).Accepted?
  {
  }

  lemma StreamImpliesWhole(q: Queue<Command>, limits: Limits, session: nat, size: nat)
    requires WellFormed(q)
    ensures StreamAdmission(q, limits, session, size).Accepted? ==>
              Reserve(TotalBytes(q), size, limits.maxBytes).Accepted?
  {
  }

  class FairMuxQueue {
    const limits: Limits
    var control: seq<Command>
    var sessions: map<nat, seq<Command>>
    var active: seq<nat>
    var perSessionBytes: map<nat, nat>
    var queuedBytes: nat
    var controlBurst: nat

    /** The fair queue this object stands for: each command with the bytes it is charged for. */
    ghost function View(): Queue<Command>
      reads this
    {
      Queue(Charged(control), map s | s in sessions :: Charged(sessions[s]), active, controlBurst)
    }

    ghost predicate Valid()
      reads this
    {
      Accounted(View(), limits, perSessionBytes, queuedBytes)
    }

    constructor (limits: Limits)
      requires LimitsOk(limits)
      ensures Valid() && this.limits == limits
      ensures View() == Queue([], map[], [], 0)
    {
      this.limits := limits;
      control, sessions, active, perSessionBytes := [], map[], [], map[];
      queuedBytes, controlBurst := 0, 0;
      new;
      assert View() == Queue([], map[], [], 0);
    }

    static method Create(limits: Limits) returns (r: Option<FairMuxQueue>)
      requires limits.maxBytes <= USIZE_MAX
      ensures r.Some? <==> LimitsOk(limits)
      ensures r.Some? ==> fresh(r.value) && r.value.Valid() && r.value.limits == limits
      ensures r.Some? ==> r.value.View() == Queue([], map[], [], 0)
    {
      if limits.maxBytes == 0 || limits.maxStreamBytes == 0 || limits.maxStreamBytes > limits.maxBytes
         || limits.maxControl == 0
      {
        return None;
      }
      var queue := new FairMuxQueue(limits);
      return Some(queue);
    }

    method TryPush(command: Command) returns (r: Outcome)
      requires Valid()
      modifies this
      ensures Valid()
      ensures r == Admission(old(View()), limits, command)
      ensures View() == if r.Accepted? then Push(old(View()), command) else old(View())
    {
      ghost var before := View();
      var accounted := AccountedBytes(command);
      if accounted.None? {
        return Refused(IntegerOverflow);
      }
      var bytes := accounted.value;
      if queuedBytes + bytes > USIZE_MAX {
        return Refused(IntegerOverflow);
      }
      var total := queuedBytes + bytes;
      if total > limits.maxBytes {
        return Refused(Backpressure);
      }
      match SessionOf(command) {
        case None =>
          if |control| >= limits.maxControl {
            return Refused(Backpressure);
          }
          ghost var item := Item(command, bytes);
          PushControlAccounted(before, limits, perSessionBytes, queuedBytes, item);
          control := control + [command];
          queuedBytes := total;
          assert Charged(control) == Charged(old(control)) + [item];
          return Accepted;
        case Some(session) =>
          r := TryPushSession(session, command, bytes, total);
      }
    }

    /** The session half of a push, after the whole-queue limit has admitted the command. */
    method TryPushSession(session: nat, command: Command, bytes: nat, total: nat) returns (r: Outcome)
      requires Valid() && SessionOf(command) == Some(session) && AccountedBytes(command) == Some(bytes)
      requires total == queuedBytes + bytes <= limits.maxBytes
      modifies this
      ensures Valid()
      ensures r == if session % 2 == 0 then Refused(ProtocolViolation)
                   else StreamAdmission(old(View()), limits, session, bytes)
      ensures View() == if r.Accepted? then PushStream(old(View()), session, Item(command, bytes)) else old(View())
    {
      hide StreamAdmission, PushStream, SumSizes, Pending, TotalBytes, Counted;
      ghost var before := View();
      var updated;
      r, updated := AdmitSession(session, bytes);
      if r.Accepted? {
        PushSession(session, command, updated);
        queuedBytes := total;
        PushStreamAccounted(before, limits, old(perSessionBytes), old(queuedBytes), session, Item(command, bytes),
                            updated);
      }
    }

    method AdmitSession(session: nat, bytes: nat) returns (r: Outcome, updated: nat)
      requires Valid() && Reserve(queuedBytes, bytes, limits.maxBytes).Accepted?
      ensures r == if session % 2 == 0 then Refused(ProtocolViolation)
                   else StreamAdmission(View(), limits, session, bytes)
      ensures updated == SumSizes(Pending(View(), session)) + bytes
    {
      var current := if session in perSessionBytes then perSessionBytes[session] else 0;
      assert current == SumSizes(Pending(View(), session));
      updated := current + bytes;
      if session == 0 || session % 2 == 0 {
        return Refused(ProtocolViolation), updated;
      }
      if updated > USIZE_MAX {
        return Refused(IntegerOverflow), updated;
      }
      if updated > limits.maxStreamBytes {
        return Refused(Backpressure), updated;
      }
      return Accepted, updated;
    }

    /** Appends to a session's queue and lists the session if it was idle. */
    method PushSession(session: nat, command: Command, updated: nat)
      requires WellFormed(View())
      modifies this`sessions, this`active, this`perSessionBytes
      ensures View() == PushStream(old(View()), session, Item(command, SizeOf(command)))
      ensures perSessionBytes == old(perSessionBytes)[session := updated]
    {
      ghost var before := View();
      var queue := if session in sessions then sessions[session] else [];
      assert Charged(queue) == Pending(before, session);
      if |queue| == 0 {
        active := active + [session];
      }
      queue := queue + [command];
      sessions := sessions[session := queue];
      perSessionBytes := perSessionBytes[session := updated];
      assert Charged(queue) == Pending(before, session) + [Item(command, SizeOf(command))];
      assert View().streams == PushStream(before, session, Item(command, SizeOf(command))).streams;
    }

    method PopNext() returns (r: Option<Command>)
      requires Valid()
      modifies this
      ensures Valid()
      ensures View() == Rest(old(View()))
      ensures r == var p := Front(old(View())); if p.Nothing? then None else Some(p.item.body)
      ensures r.None? <==> Empty(old(View()))
    {
      hide SumSizes, SumStreams, TotalBytes, Counted, WithinLimits, Pending;
      ghost var before := View();
      NothingIffEmpty(before);
      if |control| != 0 && (controlBurst < CONTROL_BURST || |active| == 0) {
        controlBurst := controlBurst + 1;
        var command := control[0];
        control := control[1..];
        RestFitsCounters(before, limits, perSessionBytes, queuedBytes);
        queuedBytes := SaturatingSub(queuedBytes, SizeOf(command));
        assert Charged(control) == Charged(old(control))[1..];
        RestAccounted(before, limits, old(perSessionBytes), old(queuedBytes), perSessionBytes, queuedBytes);
        return Some(command);
      }
      if |active| != 0 {
        RestFitsCounters(before, limits, perSessionBytes, queuedBytes);
        var command := PopSession();
        RestAccounted(before, limits, old(perSessionBytes), old(queuedBytes), perSessionBytes, queuedBytes);
        return Some(command);
      }
      return None;
    }

    /** Serves the session at the head of the round-robin list. */
    method PopSession() returns (command: Command)
      requires WellFormed(View()) && Front(View()).FromStream?
      requires var p := Front(View());
               p.item.size <= queuedBytes && p.stream in perSessionBytes && p.item.size <= perSessionBytes[p.stream]
      modifies this
      ensures View() == Rest(old(View()))
      ensures Front(old(View())).item == Item(command, SizeOf(command))
      ensures queuedBytes == old(queuedBytes) - SizeOf(command)
      ensures var s := Front(old(View())).stream;
              s in old(View()).streams
              && perSessionBytes == if |old(View()).streams[s]| > 1
                                    then old(perSessionBytes)[s := old(perSessionBytes)[s] - SizeOf(command)]
                                    else old(perSessionBytes) - {s}
    {
      ghost var before := View();
      var session := active[0];
      assert session in before.active;
      active := active[1..];
      var queue := sessions[session];
      command := queue[0];
      queue := queue[1..];
      assert Charged(queue) == Charged(sessions[session])[1..];
      var bytes := SizeOf(command);
      queuedBytes := SaturatingSub(queuedBytes, bytes);
      var updated := SaturatingSub(if session in perSessionBytes then perSessionBytes[session] else 0, bytes);
      if |queue| != 0 {
        sessions := sessions[session := queue];
        active := active + [session];
        perSessionBytes := perSessionBytes[session := updated];
      } else {
        sessions := sessions - {session};
        perSessionBytes := perSessionBytes - {session};
      }
      controlBurst := 0;
      assert View().streams == Rest(before).streams;
    }

    method CancelSession(session: nat)
      requires Valid()
      modifies this
      ensures Valid()
      ensures View() == Cancel(old(View()), session)
      ensures queuedBytes == old(queuedBytes) - SumSizes(Pending(old(View()), session))
    {
      ghost var before := View();
      RemoveSession(session);
      CancelAccounted(before, limits, old(perSessionBytes), old(queuedBytes), session, perSessionBytes, queuedBytes);
    }

    method RemoveSession(session: nat)
      requires WellFormed(View()) && queuedBytes == TotalBytes(View()) <= USIZE_MAX
      modifies this
      ensures View() == Cancel(old(View()), session)
      ensures perSessionBytes == old(perSessionBytes) - {session}
      ensures queuedBytes == old(queuedBytes) - SumSizes(Pending(old(View()), session))
    {
      hide WellFormed, TotalBytes, Without;
      ghost var before := View();
      CancelKeeps(before, session);
      if session in sessions {
        var removed := SumOfCommands(sessions[session]);
        queuedBytes := SaturatingSub(queuedBytes, removed);
      }
      sessions := sessions - {session};
      perSessionBytes := perSessionBytes - {session};
      active := Without(active, session);
      assert View().streams == Cancel(before, session).streams;
    }
  }

  method SumOfCommands(queue: seq<Command>) returns (n: nat)
    ensures var sum := SumSizes(Charged(queue)); n == if sum <= USIZE_MAX then sum else USIZE_MAX
  {
    n := 0;
    ghost var items := Charged(queue);
    for i := 0 to |queue|
      invariant n == if SumSizes(items[..i]) <= USIZE_MAX then SumSizes(items[..i]) else USIZE_MAX
    {
      assert items[..i + 1] == items[..i] + [items[i]];
      SumSizesPush(items[..i], items[i]);
      n := SaturatingAdd(n, SizeOf(queue[i]));
    }
    assert items[..|items|] == items;
  }
}
