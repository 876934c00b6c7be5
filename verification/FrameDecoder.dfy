/** The incremental decoder as an object with a prefix buffer and a body buffer. */
module FrameDecoder {
  import opened Bytes
  import opened Options
  import opened Varint
  import opened Framing

  /** One push: bytes fed one at a time until the first frame, the first error or the end of the input. */
  datatype Pushed<+F> = Pushed(decoder: Decoder, consumed: nat, event: Event<F>)

  function PushAll<F>(d: Decoder, input: seq<byte>, parse: seq<byte> -> Option<F>): (r: Pushed<F>)
    ensures r.consumed <= |input|
    ensures input != [] ==> r.consumed > 0
    ensures r.event.Nothing? ==> r.consumed == |input|
    decreases |input|
  {
    if input == [] then Pushed(d, 0, Nothing)
    else
      var fed := Feed(d, input[0], parse);
      if !fed.event.Nothing? then Pushed(fed.decoder, 1, fed.event)
      else
        var more := PushAll(fed.decoder, input[1..], parse);
        more.(consumed := more.consumed + 1)
  }

  /** Feeding everything is pushing again and again. */
  lemma {:induction false} PushFeeds<F>(d: Decoder, input: seq<byte>, parse: seq<byte> -> Option<F>)
    ensures var p := PushAll(d, input, parse);
            FeedAll(d, input, parse) ==
              match p.event
              case Nothing => Outcome([], None, p.decoder)
              case Got(frame) => Prepend(frame, FeedAll(p.decoder, input[p.consumed..], parse))
              case Failed(e) => Outcome([], Some(e), p.decoder)
    decreases |input|
  {
    if input != [] {
      var fed := Feed(d, input[0], parse);
      if fed.event.Nothing? {
        PushFeeds(fed.decoder, input[1..], parse);
        var more := PushAll(fed.decoder, input[1..], parse);
        hide Feed;
        assert input[1..][more.consumed..] == input[more.consumed + 1..];
      }
    }
  }

  lemma PushStep<F>(d: Decoder, input: seq<byte>, i: nat, parse: seq<byte> -> Option<F>)
    requires i < |input|
    ensures var fed := Feed(d, input[i], parse); var p := PushAll(d, input[i..], parse);
            if fed.event.Nothing? then
              var more := PushAll(fed.decoder, input[i + 1..], parse); p == more.(consumed := more.consumed + 1)
            else p == Pushed(fed.decoder, 1, fed.event)
  {
    hide Feed;
    assert input[i..][1..] == input[i + 1..];
  }

  /** A run of body bytes short of the frame is taken in one piece. */
  lemma {:induction false} PushBody<F>(d: Decoder, bytes: seq<byte>, parse: seq<byte> -> Option<F>)
    requires d.expected.Some? && |d.body| < d.expected.value
    ensures var missing := d.expected.value - |d.body|;
            PushAll(d, bytes, parse) ==
              if |bytes| < missing then Pushed(d.(body := d.body + bytes), |bytes|, Nothing)
              else Pushed(Fresh(d.maximum), missing, Parsed(d.body + bytes[..missing], parse))
    decreases |bytes|
  {
    if bytes == [] {
      assert d.body + bytes == d.body;
    } else {
      var missing := d.expected.value - |d.body|;
      assert (d.body + [bytes[0]]) + bytes[1..] == d.body + bytes;
      if missing == 1 {
        assert bytes[..1] == [bytes[0]];
        ParsedSomething(d.body + [bytes[0]], parse);
      } else {
        PushBody(d.(body := d.body + [bytes[0]]), bytes[1..], parse);
        if |bytes| >= missing {
          assert (d.body + [bytes[0]]) + bytes[1..][..missing - 1] == d.body + bytes[..missing];
        }
      }
    }
  }

  /** Prefix bytes one at a time, at most five. */
  method FindPrefixEnd(stream: seq<byte>) returns (scan: Scan)
    ensures scan == ScanPrefix(stream, 0)
  {
    var used := 0;
    while true
      invariant 0 <= used <= 5 && used <= |stream| && Continued(stream[..used])
      invariant ScanPrefix(stream, used) == ScanPrefix(stream, 0)
      decreases 5 - used
    {
      if used == 5 {
        return TooLong;
      }
      if used == |stream| {
        return NeedsMore;
      }
      used := used + 1;
      assert stream[..used] == stream[..used - 1] + [stream[used - 1]];
      if stream[used - 1] < 128 {
        return Ends(used);
      }
    }
  }

  /** The one-shot reader: the prefix, then the body in one piece. */
  method ReadFrame<F>(stream: seq<byte>, maximum: nat, parse: seq<byte> -> Option<F>) returns (r: Shot<F>)
    requires ValidMaximum(maximum)
    ensures r == OneShot(stream, maximum, parse)
  {
    hide ScanPrefix, Decode;
    var scan := FindPrefixEnd(stream);
    if scan.TooLong? {
      return Broken(BadPrefix(InvalidLengthPrefix));
    }
    if scan.NeedsMore? {
      return Short;
    }
    var used := scan.at;
    var length := DecodeVarint(stream[..used]);
    if length.Err? {
      return Broken(BadPrefix(length.error));
    }
    if length.value == 0 {
      return Broken(EmptyFrame);
    }
    if length.value > maximum {
      return Broken(FrameTooLarge(length.value, maximum));
    }
    if |stream| - used < length.value {
      return Short;
    }
    var frame := parse(stream[used..used + length.value]);
    r := if frame.Some? then Whole(frame.value, used + length.value) else Broken(BadBody);
  }

  class Incremental<F> {
    const parse: seq<byte> -> Option<F>
    var maximum: nat
    var prefix: seq<byte>
    var expected: Option<nat>
    var body: seq<byte>

    ghost function View(): Decoder
      reads this
    {
      Decoder(maximum, prefix, expected, body)
    }

    constructor (maximum: nat, parse: seq<byte> -> Option<F>)
      requires ValidMaximum(maximum)
      ensures View() == Fresh(maximum) && this.parse == parse
    {
      this.maximum, this.parse := maximum, parse;
      prefix, expected, body := [], None, [];
    }

    static method Create(maximum: nat, parse: seq<byte> -> Option<F>) returns (r: Option<Incremental<F>>)
      ensures r.Some? <==> ValidMaximum(maximum)
      ensures r.Some? ==> fresh(r.value) && r.value.View() == Fresh(maximum) && r.value.parse == parse
    {
      if maximum == 0 || maximum > ABSOLUTE_MAX_FRAME_SIZE {
        return None;
      }
      var decoder := new Incremental<F>(maximum, parse);
      r := Some(decoder);
    }

    /** A new limit is refused when a body already announced would exceed it. */
    method SetMaximum(limit: nat) returns (ok: bool)
      requires Waits(View())
      modifies this`maximum
      ensures Waits(View())
      ensures ok <==> ValidMaximum(limit) && (expected.Some? ==> expected.value <= limit)
      ensures View() == if ok then old(View()).(maximum := limit) else old(View())
    {
      if limit == 0 || limit > ABSOLUTE_MAX_FRAME_SIZE {
        return false;
      }
      if expected.Some? && expected.value > limit {
        return false;
      }
      maximum := limit;
      ok := true;
    }

    method Reset()
      modifies this`prefix, this`expected, this`body
      ensures View() == Fresh(maximum)
    {
      prefix, expected, body := [], None, [];
    }

    /** Reads one prefix byte; the length is checked as soon as the prefix ends. */
    method TakePrefixByte(b: byte) returns (event: Event<F>)
      requires Waits(View()) && expected.None?
      modifies this`prefix, this`expected, this`body
      ensures Fed(View(), event) == Feed(old(View()), b, parse) && !event.Got?
    {
      if |prefix| == 5 {
        Reset();
        return Failed(BadPrefix(InvalidLengthPrefix));
      }
      prefix := prefix + [b];
      if b < 128 {
        var length := DecodeVarint(prefix);
        if length.Err? {
          Reset();
          return Failed(BadPrefix(length.error));
        }
        if length.value == 0 {
          Reset();
          return Failed(EmptyFrame);
        }
        if length.value > maximum {
          Reset();
          return Failed(FrameTooLarge(length.value, maximum));
        }
        body := [];
        expected := Some(length.value);
      }
      event := Nothing;
    }

    /** Takes as much of the body as the input holds; a whole body is parsed at once. */
    method TakeBody(input: seq<byte>) returns (taken: nat, event: Event<F>)
      requires Waits(View()) && expected.Some?
      modifies this`prefix, this`expected, this`body
      ensures Waits(View())
      ensures Pushed(View(), taken, event) == PushAll(old(View()), input, parse)
    {
      hide PushAll;
      PushBody(View(), input, parse);
      var remaining, available := expected.value - |body|, |input|;
      taken := if remaining < available then remaining else available;
      assert taken == available ==> input[..taken] == input;
      body := body + input[..taken];
      event := Nothing;
      if |body| == expected.value {
        var bytes := body;
        Reset();
        var frame := parse(bytes);
        event := if frame.Some? then Got(frame.value) else Failed(BadBody);
      }
    }

    method Push(input: seq<byte>) returns (consumed: nat, event: Event<F>)
      requires Waits(View())
      modifies this`prefix, this`expected, this`body
      ensures Waits(View()) && Buffered(View()) <= 5 + maximum
      ensures var p := PushAll(old(View()), input, parse);
              View() == p.decoder && event == p.event && (!event.Failed? ==> consumed == p.consumed)
    {
      hide Feed, Waits, PushAll;
      consumed, event := 0, Nothing;
      ghost var start := View();
      assert input[0..] == input;
      while expected.None? && consumed < |input|
        invariant 0 <= consumed <= |input| && Waits(View()) && event.Nothing?
        invariant var p := PushAll(View(), input[consumed..], parse);
                  PushAll(start, input, parse) == p.(consumed := p.consumed + consumed)
      {
        PushStep(View(), input, consumed, parse);
        FeedWaits(View(), input[consumed], parse);
        event := TakePrefixByte(input[consumed]);
        if event.Failed? {
          WaitsBounded(View());
          return;
        }
        consumed := consumed + 1;
      }
      if expected.Some? {
        var taken;
        taken, event := TakeBody(input[consumed..]);
        consumed := consumed + taken;
      } else {
        assert input[consumed..] == [];
        PushNothing(View(), parse);
      }
      WaitsBounded(View());
    }

    /** The driver: push until the chunk is used up or broken. */
    method Consume(chunk: seq<byte>) returns (frames: seq<F>, error: Option<FrameError>)
      requires Waits(View())
      modifies this`prefix, this`expected, this`body
      ensures Waits(View())
      ensures Outcome(frames, error, View()) == FeedAll(old(View()), chunk, parse)
    {
      hide FeedAll, PushAll, Waits;
      frames, error := [], None;
      var offset := 0;
      ghost var start := View();
      assert chunk[0..] == chunk;
      while offset < |chunk|
        invariant 0 <= offset <= |chunk| && Waits(View()) && error.None?
        invariant var rest := FeedAll(View(), chunk[offset..], parse);
                  FeedAll(start, chunk, parse) == Outcome(frames + rest.frames, rest.error, rest.decoder)
      {
        ghost var before, input := View(), chunk[offset..];
        PushFeeds(before, input, parse);
        var consumed, event := Push(chunk[offset..]);
        match event {
          case Failed(e) =>
            error := Some(e);
            return;
          case Got(frame) =>
            ghost var rest := FeedAll(View(), input[consumed..], parse);
            assert frames + ([frame] + rest.frames) == (frames + [frame]) + rest.frames;
            assert input[consumed..] == chunk[offset + consumed..];
            frames := frames + [frame];
          case Nothing =>
            assert chunk[offset + consumed..] == [];
            NothingLeft(View(), parse);
        }
        offset := offset + consumed;
      }
      assert chunk[offset..] == [];
      NothingLeft(View(), parse);
    }
  }

  lemma NothingLeft<F>(d: Decoder, parse: seq<byte> -> Option<F>)
    ensures FeedAll(d, [], parse) == Outcome([], None, d)
  {
  }

  lemma PushNothing<F>(d: Decoder, parse: seq<byte> -> Option<F>)
    ensures PushAll(d, [], parse) == Pushed(d, 0, Nothing)
  {
  }

  lemma WaitsBounded(d: Decoder)
    requires Waits(d)
    ensures Buffered(d) <= 5 + d.maximum
  {
  }
}
