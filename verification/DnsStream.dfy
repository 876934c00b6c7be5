/**
 DNS over a locally terminated TCP flow: the queries asked are exactly the complete length-prefixed
 messages (section 4.2.2 of RFC 1035) of the bytes taken, however they were cut into segments.
 */
module DnsStream {
  import opened Bytes
  import opened Options
  import opened Packet
  import opened TcpFlow
  import opened TcpFlowTheorems

  datatype Messages = Messages(complete: seq<seq<byte>>, remainder: seq<byte>)

  /** The stream as a sequence of messages, independent of any buffer. */
  function Split(stream: seq<byte>): Messages
    decreases |stream|
  {
    if |stream| < 2 || |stream| < Be16(stream[0], stream[1]) + 2 then Messages([], stream)
    else
      var end := Be16(stream[0], stream[1]) + 2;
      var more := Split(stream[end..]);
      Messages([stream[2..end]] + more.complete, more.remainder)
  }

  predicate Short(stream: seq<byte>) {
    |stream| < 2 || |stream| < Be16(stream[0], stream[1]) + 2
  }

  lemma SplitShort(stream: seq<byte>)
    requires Short(stream)
    ensures Split(stream) == Messages([], stream)
  {
  }

  lemma SplitFirst(stream: seq<byte>, message: seq<byte>, rest: seq<byte>)
    requires |stream| >= 2 && |message| == Be16(stream[0], stream[1]) && stream == stream[..2] + message + rest
    ensures Split(stream) == Messages([message] + Split(rest).complete, Split(rest).remainder)
  {
    var end := Be16(stream[0], stream[1]) + 2;
    assert stream[2..end] == message && stream[end..] == rest;
  }

  /** Splitting can go on from the remainder. */
  lemma {:induction false} SplitConcat(a: seq<byte>, b: seq<byte>)
    ensures var first := Split(a); var second := Split(first.remainder + b);
            Split(a + b) == Messages(first.complete + second.complete, second.remainder)
    decreases |a|
  {
    hide Split, Be16;
    if Short(a) {
      SplitShort(a);
      assert [] + Split(a + b).complete == Split(a + b).complete;
    } else {
      var end := Be16(a[0], a[1]) + 2;
      var message, rest := a[2..end], a[end..];
      SplitConcat(rest, b);
      assert a == a[..2] + message + rest;
      SplitFirst(a, message, rest);
      assert (a + b)[..2] == a[..2] && a + b == a[..2] + message + (rest + b);
      SplitFirst(a + b, message, rest + b);
      var more, second := Split(rest), Split(Split(rest).remainder + b);
      assert [message] + (more.complete + second.complete) == ([message] + more.complete) + second.complete;
    }
  }

  lemma {:induction false} DrainSplits(buffer: seq<byte>, room: nat)
    requires Drain(buffer, room).stop.Waiting?
    ensures Split(buffer) == Messages(Drain(buffer, room).queries, Drain(buffer, room).rest)
    decreases |buffer|
  {
    if |buffer| >= 2 {
      var end := Be16(buffer[0], buffer[1]) + 2;
      if |buffer| >= end {
        DrainSplits(buffer[end..], room - 1);
      }
    }
  }

  /** The queries asked so far and the buffer are the messages of the bytes taken so far. */
  ghost predicate AskedAll(f: Flow, t: Trace, asked: seq<seq<byte>>) {
    f.dns ==> Split(t.taken) == Messages(asked, f.buffer)
  }

  lemma QueriesOf(c: Config, f: Flow, s: Segment, now: nat, room: nat, firstId: nat)
    requires Sane(c, f) && f.dns
    ensures var o := Existing(c, f, s, now, room, firstId);
            !o.removed ==>
              && (Reaches(f, s) || Taken(c, f, s) == [])
              && var d := Drain(f.buffer + Taken(c, f, s), room);
                 d.stop.Waiting? && o.queries == d.queries && o.flow.buffer == d.rest
  {
    hide Existing, TakePayload, TakesPayload, Reaches, Drain, Fits;
    if Reaches(f, s) {
      ExistingStages(c, f, s, now, room, firstId);
      PayloadShape(c, f, s, now);
      var w := TakeQueries(TakePayload(c, Settled(f, s, now), s), room, firstId);
      TakeFinSends(c, w, s);
      TakeFinShape(c, w, s);
    } else {
      ExistingStops(c, f, s, now, room, firstId);
      assert Taken(c, f, s) == [] by {
        NothingTaken(c, f, s);
      }
      assert f.buffer + [] == f.buffer;
      DrainNothing(f.buffer, room);
    }
  }

  lemma NothingTaken(c: Config, f: Flow, s: Segment)
    requires !Reaches(f, s)
    ensures Taken(c, f, s) == []
  {
  }

  /** A segment extends the queries exactly as it extends the stream. */
  lemma ExistingAsksAll(c: Config, f: Flow, s: Segment, now: nat, room: nat, firstId: nat, t: Trace,
                        asked: seq<seq<byte>>)
    requires Sane(c, f) && AskedAll(f, t, asked)
    requires !Existing(c, f, s, now, room, firstId).removed
    ensures var o := Existing(c, f, s, now, room, firstId);
            AskedAll(o.flow, Took(c, f, s, room, t), asked + o.queries)
  {
    hide Existing, TakesPayload, TakesFin, Drain, Split;
    ExistingSane(c, f, s, now, room, firstId);
    if f.dns {
      QueriesOf(c, f, s, now, room, firstId);
      SplitConcat(t.taken, Taken(c, f, s));
      DrainSplits(f.buffer + Taken(c, f, s), room);
    }
  }
}
