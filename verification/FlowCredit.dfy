/**
 Credit shared between the session, which grants it, and the single reader that spends it. The counter
 and the semaphore are changed by separate atomic steps, so every interleaving of those steps counts.
 */
module FlowCredit {

  /** Where the reader is. Amounts are what it has in hand at that point. */
  datatype Reader =
    | Idle
    | Chosen(amount: nat)                    // has looked at the semaphore
    | Acquired(amount: nat)                  // has taken permits, not yet lowered the counter
    | Reserved(amount: nat)                  // reading from the egress
    | Raised(rest: nat, received: nat)       // has raised the counter again, not yet returned the permits
    | Delivering(received: nat)              // passing the bytes on
    | Raising(rest: nat)                     // end of stream: counter raised, permits not yet returned
    | Ended                                  // the egress ended
    | Failed                                 // the egress, the bandwidth or the channel failed

  /** Grants that have raised the counter but not yet added their permits are listed in `granting`. */
  datatype State = State(
    permits: nat, outstanding: int, granting: seq<nat>, reader: Reader,
    maximum: nat, maxData: nat, initial: nat, granted: nat, forwarded: nat)

  function New(initial: nat, maximum: nat, maxData: nat): State {
    State(initial, initial, [], Idle, maximum, maxData, initial, 0, 0)
  }

  datatype Step =
    | GrantRaise(amount: nat)
    | GrantAdd(index: nat)
    | Look
    | Take
    | Lower
    | ReadSome(received: nat)
    | ReturnPermits
    | Deliver
    | ReadEnd
    | ReturnLast
    | Fail

  function Max(a: nat, b: nat): nat {
    if a >= b then a else b
  }

  function Min(a: nat, b: nat): nat {
    if a <= b then a else b
  }

  /** When a step can happen. A grant over the maximum is refused and changes nothing. */
  predicate Enabled(s: State, step: Step) {
    match step
    case GrantRaise(_) => true
    case GrantAdd(i) => i < |s.granting|
    case Look => s.reader.Idle?
    case Take => s.reader.Chosen? && s.permits >= s.reader.amount
    case Lower => s.reader.Acquired?
    case ReadSome(received) => s.reader.Reserved? && 0 < received <= s.reader.amount
    case ReturnPermits => s.reader.Raised?
    case Deliver => s.reader.Delivering?
    case ReadEnd => s.reader.Reserved?
    case ReturnLast => s.reader.Raising?
    case Fail => s.reader.Reserved? || s.reader.Delivering?
  }

  function Next(s: State, step: Step): State
    requires Enabled(s, step)
  {
    match step
    case GrantRaise(amount) =>
      if s.outstanding + amount <= s.maximum then
        s.(outstanding := s.outstanding + amount, granting := s.granting + [amount], granted := s.granted + amount)
      else s
    case GrantAdd(i) => s.(permits := s.permits + s.granting[i], granting := s.granting[..i] + s.granting[i + 1..])
    case Look => s.(reader := Chosen(Min(Max(s.permits, 1), s.maxData)))
    case Take => s.(permits := s.permits - s.reader.amount, reader := Acquired(s.reader.amount))
    case Lower => s.(outstanding := s.outstanding - s.reader.amount, reader := Reserved(s.reader.amount))
    case ReadSome(received) =>
      var rest := s.reader.amount - received;
      if rest > 0 then s.(outstanding := s.outstanding + rest, reader := Raised(rest, received))
      else s.(reader := Delivering(received))
    case ReturnPermits => s.(permits := s.permits + s.reader.rest, reader := Delivering(s.reader.received))
    case Deliver => s.(forwarded := s.forwarded + s.reader.received, reader := Idle)
    case ReadEnd =>
      if s.reader.amount > 0 then s.(outstanding := s.outstanding + s.reader.amount, reader := Raising(s.reader.amount))
      else s.(reader := Ended)
    case ReturnLast => s.(permits := s.permits + s.reader.rest, reader := Ended)
    case Fail => s.(reader := Failed)
  }

  // ---------------------------------------------------------------- the invariant

  function Sum(amounts: seq<nat>): nat {
    if amounts == [] then 0 else amounts[0] + Sum(amounts[1..])
  }

  lemma {:induction false} SumConcat(a: seq<nat>, b: seq<nat>)
    ensures Sum(a + b) == Sum(a) + Sum(b)
  {
    if a == [] {
      assert a + b == b;
    } else {
      SumConcat(a[1..], b);
      assert (a + b)[1..] == a[1..] + b;
    }
  }

  lemma SumOneMore(first: nat, rest: seq<nat>)
    ensures Sum([first] + rest) == first + Sum(rest)
  {
    assert ([first] + rest)[1..] == rest;
  }

  lemma SumRemove(amounts: seq<nat>, i: nat)
    requires i < |amounts|
    ensures Sum(amounts) == amounts[i] + Sum(amounts[..i] + amounts[i + 1..])
  {
    hide Sum;
    var before, after := amounts[..i], amounts[i + 1..];
    assert amounts == before + ([amounts[i]] + after);
    SumConcat(before, [amounts[i]] + after);
    SumConcat(before, after);
    SumOneMore(amounts[i], after);
  }

  /** Permits that the counter knows of but the semaphore does not hold. */
  function Underway(r: Reader): nat {
    match r
    case Acquired(amount) => amount
    case Raised(rest, _) => rest
    case Raising(rest) => rest
    case _ => 0
  }

  /** Bytes taken out of the counter and not yet passed on. */
  function Held(r: Reader): nat {
    match r
    case Reserved(amount) => amount
    case Raised(_, received) => received
    case Delivering(received) => received
    case _ => 0
  }

  predicate Sensible(s: State) {
    match s.reader
    case Chosen(amount) => amount <= s.maxData && (amount <= s.permits || amount == 1)
    case Acquired(amount) => amount <= s.maxData
    case Reserved(amount) => amount <= s.maxData
    case Raised(rest, received) => rest + received <= s.maxData
    case Delivering(received) => received <= s.maxData
    case _ => true
  }

  /** Counter and semaphore differ exactly by the half-done steps; credit is conserved unless the
      reader failed; what is outstanding or held stays within the maximum and one data chunk. */
  ghost predicate Inv(s: State) {
    && s.outstanding == s.permits + Sum(s.granting) + Underway(s.reader)
    && Sensible(s)
    && (!s.reader.Failed? ==> s.initial + s.granted == s.outstanding + Held(s.reader) + s.forwarded)
    && s.outstanding + Held(s.reader) <= s.maximum + s.maxData
  }

  lemma NewInv(initial: nat, maximum: nat, maxData: nat)
    requires initial <= maximum
    ensures Inv(New(initial, maximum, maxData))
  {
  }

  lemma NextInv(s: State, step: Step)
    requires Inv(s) && Enabled(s, step) && s.maxData > 0
    ensures Inv(Next(s, step))
  {
    hide Sum;
    match step {
      case GrantRaise(amount) =>
        SumConcat(s.granting, [amount]);
        SumOne(amount);
      case GrantAdd(i) => SumRemove(s.granting, i);
      case _ =>
    }
  }

  lemma SumOne(amount: nat)
    ensures Sum([amount]) == amount
  {
    assert [amount][1..] == [];
  }

  ghost predicate Run(states: seq<State>, steps: seq<Step>) {
    && |states| == |steps| + 1
    && forall i :: 0 <= i < |steps| ==> Enabled(states[i], steps[i]) && states[i + 1] == Next(states[i], steps[i])
  }

  lemma {:induction false} RunInv(states: seq<State>, steps: seq<Step>, k: nat, initial: nat, maximum: nat,
                                  maxData: nat)
    requires Run(states, steps) && states[0] == New(initial, maximum, maxData) && initial <= maximum && maxData > 0
    requires k < |states|
    ensures Inv(states[k]) && states[k].initial == initial && states[k].maximum == maximum
    ensures states[k].maxData == maxData
  {
    if k == 0 {
      NewInv(initial, maximum, maxData);
    } else {
      RunInv(states, steps, k - 1, initial, maximum, maxData);
      NextInv(states[k - 1], steps[k - 1]);
      hide Inv;
    }
  }

  /** The counter is never below the permits and never lowered below zero. */
  lemma NoUnderflow(states: seq<State>, steps: seq<Step>, k: nat, initial: nat, maximum: nat, maxData: nat)
    requires Run(states, steps) && states[0] == New(initial, maximum, maxData) && initial <= maximum && maxData > 0
    requires k < |states|
    ensures 0 <= states[k].permits <= states[k].outstanding
    ensures states[k].reader.Acquired? ==> states[k].reader.amount <= states[k].outstanding
  {
    hide Run;
    RunInv(states, steps, k, initial, maximum, maxData);
  }

  /** Unless the reader failed, initial and granted credit is exactly what is outstanding, held or forwarded. */
  lemma CreditConserved(states: seq<State>, steps: seq<Step>, k: nat, initial: nat, maximum: nat, maxData: nat)
    requires Run(states, steps) && states[0] == New(initial, maximum, maxData) && initial <= maximum && maxData > 0
    requires k < |states|
    requires !states[k].reader.Failed?
    ensures initial + states[k].granted == states[k].outstanding + Held(states[k].reader) + states[k].forwarded
  {
    hide Run;
    RunInv(states, steps, k, initial, maximum, maxData);
  }

  /** Outstanding and held credit never exceed the maximum by more than one data chunk. */
  lemma CreditBounded(states: seq<State>, steps: seq<Step>, k: nat, initial: nat, maximum: nat, maxData: nat)
    requires Run(states, steps) && states[0] == New(initial, maximum, maxData) && initial <= maximum && maxData > 0
    requires k < |states|
    ensures states[k].outstanding + Held(states[k].reader) <= maximum + maxData
  {
    hide Run;
    RunInv(states, steps, k, initial, maximum, maxData);
  }

  /** The reader waits for permits only when there are none at all. */
  lemma WaitsOnlyWhenEmpty(states: seq<State>, steps: seq<Step>, k: nat, initial: nat, maximum: nat, maxData: nat)
    requires Run(states, steps) && states[0] == New(initial, maximum, maxData) && initial <= maximum && maxData > 0
    requires k < |states|
    requires states[k].reader.Chosen? && !Enabled(states[k], Take)
    ensures states[k].permits == 0 && states[k].reader.amount == 1
  {
    hide Run;
    RunInv(states, steps, k, initial, maximum, maxData);
  }

  /** A grant counts in full if and only if the counter stays within the maximum, and otherwise not at all. */
  lemma GrantExact(states: seq<State>, steps: seq<Step>, k: nat, amount: nat)
    requires Run(states, steps) && k < |steps| && steps[k] == GrantRaise(amount)
    ensures var s, t := states[k], states[k + 1]; var taken := if s.outstanding + amount <= s.maximum then amount else 0;
            && t.granted == s.granted + taken && t.outstanding == s.outstanding + taken
            && t.permits == s.permits && t.reader == s.reader && t.forwarded == s.forwarded
  {
    assert states[k + 1] == Next(states[k], steps[k]);
  }

  /** The reader asks for everything there is, but for no more than a chunk, and for one when there is nothing. */
  lemma LookExact(states: seq<State>, steps: seq<Step>, k: nat, initial: nat, maximum: nat, maxData: nat)
    requires Run(states, steps) && states[0] == New(initial, maximum, maxData) && initial <= maximum && maxData > 0
    requires k < |steps| && steps[k] == Look
    ensures var permits, reader := states[k].permits, states[k + 1].reader;
            && reader.Chosen? && 1 <= reader.amount <= maxData
            && (1 <= permits <= maxData ==> reader.amount == permits)
            && (permits > maxData ==> reader.amount == maxData) && (permits == 0 ==> reader.amount == 1)
  {
    RunInv(states, steps, k, initial, maximum, maxData);
    assert states[k + 1] == Next(states[k], steps[k]);
  }
}
