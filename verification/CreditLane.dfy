/**
 Credit accounting for one stream in one direction, from a sender X to a receiver Y: what X may
 send, what Y will still accept, and the window messages and DATA bytes on the way between them.
 */
module CreditLane {
  import opened Options
  import F = FlowControl

  /** A window message still on its way to the sender: an initial window, or more credit. */
  datatype Update = Set(window: nat) | Add(credit: nat)

  function Apply(window: nat, u: Update): nat {
    match u
    case Set(w) => w
    case Add(c) => window + c
  }

  /** The sender's window once every pending message has arrived. */
  function Eventual(start: nat, ups: seq<Update>): nat
    decreases |ups|
  {
    if ups == [] then start else Eventual(Apply(start, ups[0]), ups[1..])
  }

  /** No pending message takes the sender's window over the cap. */
  predicate Capped(start: nat, ups: seq<Update>)
    decreases |ups|
  {
    start <= F.MAX_STREAM_WINDOW && (ups == [] || Capped(Apply(start, ups[0]), ups[1..]))
  }

  function Sets(ups: seq<Update>): nat {
    if ups == [] then 0 else (if ups[0].Set? then 1 else 0) + Sets(ups[1..])
  }

  function Sum(ups: seq<Update>): nat {
    if ups == [] then 0 else (if ups[0].Add? then ups[0].credit else 0) + Sum(ups[1..])
  }

  lemma {:induction false} AppendUpdate(start: nat, ups: seq<Update>, u: Update)
    ensures Eventual(start, ups + [u]) == Apply(Eventual(start, ups), u)
    ensures Capped(start, ups + [u]) <==> Capped(start, ups) && Eventual(start, ups + [u]) <= F.MAX_STREAM_WINDOW
    ensures Sets(ups + [u]) == Sets(ups) + (if u.Set? then 1 else 0)
    decreases |ups|
  {
    if ups == [] {
      assert ups + [u] == [u];
    } else {
      AppendUpdate(Apply(start, ups[0]), ups[1..], u);
      assert (ups + [u])[1..] == ups[1..] + [u];
    }
  }

  /** Without a pending initial window, what the sender spends now is missing at the end. */
  lemma {:induction false} EventualWithoutSet(start: nat, ups: seq<Update>)
    requires Sets(ups) == 0
    ensures Eventual(start, ups) == start + Sum(ups)
    decreases |ups|
  {
    if ups != [] {
      EventualWithoutSet(Apply(start, ups[0]), ups[1..]);
    }
  }

  /** A pending initial window hides whatever the sender's window is before it. */
  lemma {:induction false} EventualAfterSet(a: nat, b: nat, ups: seq<Update>)
    requires Sets(ups) > 0
    ensures Eventual(a, ups) == Eventual(b, ups)
    decreases |ups|
  {
    if !ups[0].Set? {
      EventualAfterSet(Apply(a, ups[0]), Apply(b, ups[0]), ups[1..]);
    }
  }

  lemma {:induction false} CappedLower(a: nat, b: nat, ups: seq<Update>)
    requires a <= b && Capped(b, ups)
    ensures Capped(a, ups)
    decreases |ups|
  {
    if ups != [] {
      CappedLower(Apply(a, ups[0]), Apply(b, ups[0]), ups[1..]);
    }
  }

  lemma {:induction false} CappedPrefix(start: nat, ups: seq<Update>, rest: seq<Update>)
    requires Capped(start, ups + rest)
    ensures Capped(start, ups)
    ensures Sets(ups) <= Sets(ups + rest)
    decreases |ups|
  {
    if ups != [] {
      assert (ups + rest)[1..] == ups[1..] + rest;
      CappedPrefix(Apply(start, ups[0]), ups[1..], rest);
    } else {
      assert ups + rest == rest;
    }
  }

  // ---------------------------------------------------------------- the lane and its invariant

  /** `send` and `recv` are absent when the endpoint does not know the stream.  `data` counts the
      bytes the sender has debited and the receiver has not. */
  datatype Lane = Lane(xLive: bool, yLive: bool, send: Option<nat>, ups: seq<Update>, data: nat, recv: Option<nat>)

  function Start(l: Lane): nat {
    if l.send.Some? then l.send.value else 0
  }

  /** The sender knows the stream, or will when the pending initial window arrives. */
  predicate Known(l: Lane) {
    l.send.Some? || Sets(l.ups) > 0
  }

  /** The next message about the stream will find it known. */
  predicate Ready(l: Lane) {
    l.send.Some? || (l.ups != [] && l.ups[0].Set?)
  }

  /** Everything the sender may still send after all pending credit has arrived. */
  function Promise(l: Lane): nat {
    if l.xLive && Known(l) then Eventual(Start(l), l.ups) else 0
  }

  ghost predicate LaneOk(l: Lane) {
    && (l.yLive && l.recv.Some? ==> l.recv.value >= Promise(l) + l.data)
    && (l.xLive && l.yLive && l.recv.Some? && Known(l) ==> l.recv.value == Promise(l) + l.data)
    && (l.xLive && Ready(l) ==> Capped(Start(l), l.ups))
  }

  predicate Fresh(l: Lane) {
    l.send.None? && l.ups == [] && l.data == 0 && l.recv.None?
  }

  // ---------------------------------------------------------------- what the protocol does to a lane

  lemma Debit(l: Lane, n: nat)
    requires LaneOk(l) && l.xLive && l.send.Some? && n <= l.send.value && Sets(l.ups) == 0
    ensures LaneOk(l.(send := Some(l.send.value - n), data := l.data + n))
  {
    EventualWithoutSet(l.send.value, l.ups);
    EventualWithoutSet(l.send.value - n, l.ups);
    CappedLower(l.send.value - n, l.send.value, l.ups);
  }

  lemma Deliver(l: Lane, n: nat)
    requires LaneOk(l) && l.yLive && l.recv.Some? && n <= l.data
    ensures n <= l.recv.value
    ensures LaneOk(l.(recv := Some(l.recv.value - n), data := l.data - n))
  {
  }

  lemma Grant(l: Lane, c: nat)
    requires LaneOk(l) && l.yLive && l.recv.Some? && l.recv.value + c <= F.MAX_STREAM_WINDOW
    ensures LaneOk(l.(ups := l.ups + [Add(c)], recv := Some(l.recv.value + c)))
  {
    AppendUpdate(Start(l), l.ups, Add(c));
  }

  lemma Announce(l: Lane, w: nat)
    requires LaneOk(l) && l.yLive && l.data == 0 && w <= F.MAX_STREAM_WINDOW
    ensures LaneOk(l.(ups := l.ups + [Set(w)], recv := Some(w)))
  {
    AppendUpdate(Start(l), l.ups, Set(w));
  }

  lemma Arrive(l: Lane, rest: seq<Update>)
    requires LaneOk(l) && l.xLive && l.ups != [] && rest == l.ups[1..]
    requires l.ups[0].Add? ==> l.send.Some?
    ensures Apply(Start(l), l.ups[0]) <= F.MAX_STREAM_WINDOW
    ensures LaneOk(l.(send := Some(Apply(Start(l), l.ups[0])), ups := rest))
  {
    assert Capped(Apply(Start(l), l.ups[0]), l.ups[1..]);
  }

  lemma Forget(l: Lane, data: nat)
    requires LaneOk(l) && data <= l.data
    requires Sets(l.ups) > 0 ==> data == l.data
    ensures LaneOk(l.(send := None, data := data))
  {
    if Sets(l.ups) > 0 {
      EventualAfterSet(Start(l), 0, l.ups);
    }
    if l.xLive && Ready(l) {
      CappedLower(0, Start(l), l.ups);
    }
  }

  lemma SenderShut(l: Lane, k: Lane)
    requires LaneOk(l)
    requires !k.xLive && k.yLive == l.yLive && k.recv == l.recv && k.data <= l.data
    ensures LaneOk(k)
  {
  }

  lemma ReceiverShut(l: Lane, k: Lane, rest: seq<Update>)
    requires LaneOk(l)
    requires !k.yLive && k.xLive == l.xLive && k.send == l.send && k.ups + rest == l.ups
    ensures LaneOk(k)
    ensures Sets(k.ups) <= Sets(l.ups)
  {
    SetsPrefix(k.ups, rest);
    if k.xLive && Ready(k) {
      CappedPrefix(Start(k), k.ups, rest);
    }
  }

  lemma {:induction false} SetsPrefix(ups: seq<Update>, rest: seq<Update>)
    ensures Sets(ups + rest) == Sets(ups) + Sets(rest)
  {
    if ups == [] {
      assert ups + rest == rest;
    } else {
      assert (ups + rest)[1..] == ups[1..] + rest;
      SetsPrefix(ups[1..], rest);
    }
  }
}
