/**
 Length-prefixed frames on a byte stream: an incremental decoder and a one-shot reader. The decoding of
 a frame body is a parameter.
 */
module Framing {
  import opened Bytes
  import opened Options
  import opened Varint

  const ABSOLUTE_MAX_FRAME_SIZE: nat := 65536

  datatype FrameError = BadPrefix(why: VarintError) | EmptyFrame | FrameTooLarge(announced: nat, maximum: nat) | BadBody

  datatype Event<+F> = Nothing | Got(frame: F) | Failed(error: FrameError)

  predicate ValidMaximum(maximum: nat) {
    0 < maximum <= ABSOLUTE_MAX_FRAME_SIZE
  }

  // ---------------------------------------------------------------- the incremental decoder, byte by byte

  datatype Decoder = Decoder(maximum: nat, prefix: seq<byte>, expected: Option<nat>, body: seq<byte>)

  function Fresh(maximum: nat): Decoder {
    Decoder(maximum, [], None, [])
  }

  /** Never more than five prefix bytes, never a complete body. */
  predicate Waits(d: Decoder) {
    && ValidMaximum(d.maximum) && |d.prefix| <= 5
    && match d.expected
       case None => d.body == [] && Continued(d.prefix)
       case Some(length) => |d.body| < length <= d.maximum
  }

  datatype Fed<+F> = Fed(decoder: Decoder, event: Event<F>)

  /** The length that a finished prefix announces. */
  function Announced(prefix: seq<byte>, maximum: nat): Event<nat> {
    match Decode(prefix)
    case Err(e) => Failed(BadPrefix(e))
    case Ok(length) =>
      if length == 0 then Failed(EmptyFrame)
      else if length > maximum then Failed(FrameTooLarge(length, maximum))
      else Got(length)
  }

  function Parsed<F>(body: seq<byte>, parse: seq<byte> -> Option<F>): Event<F> {
    match parse(body)
    case None => Failed(BadBody)
    case Some(frame) => Got(frame)
  }

  function Feed<F>(d: Decoder, b: byte, parse: seq<byte> -> Option<F>): Fed<F> {
    match d.expected
    case None =>
      if |d.prefix| == 5 then Fed(Fresh(d.maximum), Failed(BadPrefix(InvalidLengthPrefix)))
      else
        var prefix := d.prefix + [b];
        if b >= 128 then Fed(d.(prefix := prefix), Nothing)
        else (match Announced(prefix, d.maximum)
              case Failed(e) => Fed(Fresh(d.maximum), Failed(e))
              case Got(length) => Fed(Decoder(d.maximum, prefix, Some(length), []), Nothing)
              case Nothing => Fed(d, Nothing))
    case Some(length) =>
      var body := d.body + [b];
      if |body| == length then Fed(Fresh(d.maximum), Parsed(body, parse)) else Fed(d.(body := body), Nothing)
  }

  lemma FeedWaits<F>(d: Decoder, b: byte, parse: seq<byte> -> Option<F>)
    requires Waits(d)
    ensures Waits(Feed(d, b, parse).decoder) && Feed(d, b, parse).decoder.maximum == d.maximum
  {
  }

  datatype Outcome<+F> = Outcome(frames: seq<F>, error: Option<FrameError>, decoder: Decoder)

  /** Everything the decoder yields up to its first error. */
  function FeedAll<F>(d: Decoder, bytes: seq<byte>, parse: seq<byte> -> Option<F>): Outcome<F>
    decreases |bytes|
  {
    if bytes == [] then Outcome([], None, d)
    else
      var fed := Feed(d, bytes[0], parse);
      match fed.event
      case Nothing => FeedAll(fed.decoder, bytes[1..], parse)
      case Got(frame) => Prepend(frame, FeedAll(fed.decoder, bytes[1..], parse))
      case Failed(e) => Outcome([], Some(e), fed.decoder)
  }

  function Prepend<F>(frame: F, o: Outcome<F>): Outcome<F> {
    o.(frames := [frame] + o.frames)
  }

  /** Going on with more bytes after an outcome. */
  function Then<F>(o: Outcome<F>, more: seq<byte>, parse: seq<byte> -> Option<F>): Outcome<F> {
    if o.error.Some? then o
    else
      var next := FeedAll(o.decoder, more, parse);
      Outcome(o.frames + next.frames, next.error, next.decoder)
  }

  /** A division of the input makes no difference. */
  lemma {:induction false} FeedConcat<F>(d: Decoder, a: seq<byte>, b: seq<byte>, parse: seq<byte> -> Option<F>)
    ensures FeedAll(d, a + b, parse) == Then(FeedAll(d, a, parse), b, parse)
    decreases |a|
  {
    if a == [] {
      assert a + b == b;
      assert [] + FeedAll(d, b, parse).frames == FeedAll(d, b, parse).frames;
    } else {
      assert (a + b)[1..] == a[1..] + b;
      var fed := Feed(d, a[0], parse);
      if !fed.event.Failed? {
        FeedConcat(fed.decoder, a[1..], b, parse);
        hide Feed;
      }
    }
  }

  function Joined(chunks: seq<seq<byte>>): seq<byte> {
    if chunks == [] then [] else chunks[0] + Joined(chunks[1..])
  }

  /** The decoder driven chunk by chunk until the first error. */
  function FeedChunks<F>(d: Decoder, chunks: seq<seq<byte>>, parse: seq<byte> -> Option<F>): Outcome<F>
    decreases |chunks|
  {
    if chunks == [] then Outcome([], None, d)
    else
      var first := FeedAll(d, chunks[0], parse);
      if first.error.Some? then first
      else
        var rest := FeedChunks(first.decoder, chunks[1..], parse);
        Outcome(first.frames + rest.frames, rest.error, rest.decoder)
  }

  lemma {:induction false} ChunksJoin<F>(d: Decoder, chunks: seq<seq<byte>>, parse: seq<byte> -> Option<F>)
    ensures FeedChunks(d, chunks, parse) == FeedAll(d, Joined(chunks), parse)
    decreases |chunks|
  {
    if chunks != [] {
      hide FeedAll;
      var first := FeedAll(d, chunks[0], parse);
      FeedConcat(d, chunks[0], Joined(chunks[1..]), parse);
      if first.error.None? {
        ChunksJoin(first.decoder, chunks[1..], parse);
      }
    }
  }

  lemma {:induction false} FeedAllWaits<F>(d: Decoder, bytes: seq<byte>, parse: seq<byte> -> Option<F>)
    requires Waits(d)
    ensures Waits(FeedAll(d, bytes, parse).decoder) && FeedAll(d, bytes, parse).decoder.maximum == d.maximum
    decreases |bytes|
  {
    if bytes != [] {
      FeedWaits(d, bytes[0], parse);
      FeedAllWaits(Feed(d, bytes[0], parse).decoder, bytes[1..], parse);
    }
  }

  function Buffered(d: Decoder): nat {
    |d.prefix| + |d.body|
  }

  /** Whatever has been fed, no more than five bytes and a frame body are held. */
  lemma BufferBounded<F>(maximum: nat, bytes: seq<byte>, parse: seq<byte> -> Option<F>)
    requires ValidMaximum(maximum)
    ensures Buffered(FeedAll(Fresh(maximum), bytes, parse).decoder) <= 5 + maximum
  {
    FeedAllWaits(Fresh(maximum), bytes, parse);
    hide FeedAll;
  }

  // ---------------------------------------------------------------- the one-shot reader

  datatype Scan = Ends(at: nat) | TooLong | NeedsMore

  /** Where the length prefix at the start of the stream ends. */
  function ScanPrefix(stream: seq<byte>, used: nat): (r: Scan)
    requires used <= |stream| && used <= 5 && Continued(stream[..used])
    ensures r.Ends? ==> used < r.at <= |stream| && r.at <= 5 && Continued(stream[..r.at - 1]) && stream[r.at - 1] < 128
    ensures r.TooLong? ==> |stream| >= 5 && Continued(stream[..5])
    ensures r.NeedsMore? ==> |stream| < 5 && Continued(stream)
    decreases 5 - used
  {
    if used == 5 then TooLong
    else if used == |stream| then assert stream[..used] == stream; NeedsMore
    else if stream[used] < 128 then Ends(used + 1)
    else assert stream[..used + 1] == stream[..used] + [stream[used]]; ScanPrefix(stream, used + 1)
  }

  datatype Shot<+F> = Whole(frame: F, used: nat) | Broken(error: FrameError) | Short

  /** Reads one frame from the start of the stream. */
  function OneShot<F>(stream: seq<byte>, maximum: nat, parse: seq<byte> -> Option<F>): (r: Shot<F>)
    ensures r.Whole? ==> 0 < r.used <= |stream|
  {
    match ScanPrefix(stream, 0)
    case TooLong => Broken(BadPrefix(InvalidLengthPrefix))
    case NeedsMore => Short
    case Ends(at) =>
      (match Announced(stream[..at], maximum)
       case Failed(e) => Broken(e)
       case Nothing => Short
       case Got(length) =>
         if |stream| < at + length then Short
         else (match Parsed(stream[at..at + length], parse)
               case Failed(e) => Broken(e)
               case Got(frame) => Whole(frame, at + length)
               case Nothing => Short))
  }

  datatype Reads<+F> = Reads(frames: seq<F>, error: Option<FrameError>, rest: seq<byte>)

  /** Repeated one-shot reads until the stream is too short or broken. */
  function ReadAll<F>(stream: seq<byte>, maximum: nat, parse: seq<byte> -> Option<F>): Reads<F>
    decreases |stream|
  {
    match OneShot(stream, maximum, parse)
    case Short => Reads([], None, stream)
    case Broken(e) => Reads([], Some(e), stream)
    case Whole(frame, used) =>
      var more := ReadAll(stream[used..], maximum, parse);
      Reads([frame] + more.frames, more.error, more.rest)
  }

  // ---------------------------------------------------------------- the decoder against the reader

  /** Feeding continued bytes only lengthens the prefix. */
  lemma {:induction false} FeedContinued<F>(maximum: nat, stream: seq<byte>, k: nat, parse: seq<byte> -> Option<F>)
    requires k <= |stream| && k <= 5 && Continued(stream[..k])
    ensures FeedAll(Fresh(maximum), stream, parse) == FeedAll(Decoder(maximum, stream[..k], None, []), stream[k..], parse)
  {
    if k == 0 {
      assert stream[..0] == [] && stream[0..] == stream;
    } else {
      assert Continued(stream[..k - 1]) && stream[k - 1] == stream[..k][k - 1];
      FeedContinued(maximum, stream, k - 1, parse);
      assert stream[..k - 1] + [stream[k - 1]] == stream[..k];
      assert stream[k - 1..][1..] == stream[k..] && stream[k - 1..][0] == stream[k - 1];
    }
  }

  /** Feeding body bytes collects them until the frame is whole. */
  lemma {:induction false} FeedBody<F>(d: Decoder, bytes: seq<byte>, parse: seq<byte> -> Option<F>)
    requires d.expected.Some? && |d.body| < d.expected.value
    ensures var missing := d.expected.value - |d.body|;
            if |bytes| < missing then FeedAll(d, bytes, parse) == Outcome([], None, d.(body := d.body + bytes))
            else FeedAll(d, bytes, parse) ==
                   match Parsed(d.body + bytes[..missing], parse)
                   case Failed(e) => Outcome([], Some(e), Fresh(d.maximum))
                   case Got(frame) => Prepend(frame, FeedAll(Fresh(d.maximum), bytes[missing..], parse))
                   case Nothing => FeedAll(Fresh(d.maximum), bytes[missing..], parse)
    decreases |bytes|
  {
    if bytes == [] {
      assert d.body + bytes == d.body;
    } else {
      var missing := d.expected.value - |d.body|;
      assert (d.body + [bytes[0]]) + bytes[1..] == d.body + bytes;
      if missing == 1 {
        assert bytes[..1] == [bytes[0]];
      } else {
        FeedBody(d.(body := d.body + [bytes[0]]), bytes[1..], parse);
        if |bytes| >= missing {
          assert (d.body + [bytes[0]]) + bytes[1..][..missing - 1] == d.body + bytes[..missing];
          assert bytes[1..][missing - 1..] == bytes[missing..];
        }
      }
    }
  }

  /** Feeding the byte that ends the prefix. */
  lemma FeedEnd<F>(maximum: nat, stream: seq<byte>, at: nat, parse: seq<byte> -> Option<F>)
    requires 0 < at <= |stream| && at <= 5 && Continued(stream[..at - 1]) && stream[at - 1] < 128
    ensures FeedAll(Fresh(maximum), stream, parse) ==
              match Announced(stream[..at], maximum)
              case Failed(e) => Outcome([], Some(e), Fresh(maximum))
              case Got(length) => FeedAll(Decoder(maximum, stream[..at], Some(length), []), stream[at..], parse)
              case Nothing => FeedAll(Fresh(maximum), stream, parse)
  {
    FeedContinued(maximum, stream, at - 1, parse);
    hide Announced;
    assert stream[..at - 1] + [stream[at - 1]] == stream[..at];
    assert stream[at - 1..][1..] == stream[at..] && stream[at - 1..][0] == stream[at - 1];
  }

  /** Five bytes that all announce more: the reader refuses them, the decoder still waits for a sixth. */
  predicate Undecided(rest: seq<byte>) {
    |rest| == 5 && Continued(rest)
  }

  ghost predicate Agree<F>(o: Outcome<F>, r: Reads<F>) {
    && o.frames == r.frames
    && (if Undecided(r.rest) then
          r.error == Some(BadPrefix(InvalidLengthPrefix)) && o.error.None? && o.decoder.prefix == r.rest && o.decoder.expected.None?
        else o.error == r.error)
  }

  lemma FeedTooLong<F>(maximum: nat, stream: seq<byte>, parse: seq<byte> -> Option<F>)
    requires ScanPrefix(stream, 0).TooLong?
    ensures Agree(FeedAll(Fresh(maximum), stream, parse), ReadAll(stream, maximum, parse))
  {
    FeedContinued(maximum, stream, 5, parse);
    if |stream| == 5 {
      assert stream[..5] == stream;
    }
  }

  lemma FeedNeedsMore<F>(maximum: nat, stream: seq<byte>, parse: seq<byte> -> Option<F>)
    requires ScanPrefix(stream, 0).NeedsMore?
    ensures Agree(FeedAll(Fresh(maximum), stream, parse), ReadAll(stream, maximum, parse))
  {
    assert stream[..|stream|] == stream;
    FeedContinued(maximum, stream, |stream|, parse);
  }

  /** The bytes of a finished prefix are not undecided. */
  lemma EndedDecided(stream: seq<byte>)
    requires ScanPrefix(stream, 0).Ends?
    ensures !Undecided(stream)
  {
  }

  lemma ParsedSomething<F>(body: seq<byte>, parse: seq<byte> -> Option<F>)
    ensures !Parsed(body, parse).Nothing?
  {
  }

  lemma ReadStep<F>(maximum: nat, stream: seq<byte>, at: nat, length: nat, parse: seq<byte> -> Option<F>)
    requires ScanPrefix(stream, 0) == Ends(at) && Announced(stream[..at], maximum) == Got(length)
    ensures ReadAll(stream, maximum, parse) ==
              if |stream| < at + length then Reads([], None, stream)
              else match Parsed(stream[at..at + length], parse)
                   case Failed(e) => Reads([], Some(e), stream)
                   case Nothing => Reads([], None, stream)
                   case Got(frame) =>
                     var more := ReadAll(stream[at + length..], maximum, parse); Reads([frame] + more.frames, more.error, more.rest)
  {
    hide ScanPrefix, Announced, Parsed;
  }

  /** One whole frame in front changes neither side's agreement about the rest. */
  lemma FrameAgrees<F>(maximum: nat, stream: seq<byte>, at: nat, length: nat, parse: seq<byte> -> Option<F>)
    requires ScanPrefix(stream, 0) == Ends(at) && Announced(stream[..at], maximum) == Got(length)
    requires |stream| >= at + length && Parsed(stream[at..at + length], parse).Got? ==>
               Agree(FeedAll(Fresh(maximum), stream[at + length..], parse),
                     ReadAll(stream[at + length..], maximum, parse))
    ensures Agree(FeedAll(Fresh(maximum), stream, parse), ReadAll(stream, maximum, parse))
  {
    hide FeedAll, ReadAll, ScanPrefix, Announced, Parsed, Undecided;
    EndedDecided(stream);
    FeedEnd(maximum, stream, at, parse);
    FeedFrame(maximum, stream, at, length, parse);
    ReadStep(maximum, stream, at, length, parse);
    if |stream| >= at + length {
      ParsedSomething(stream[at..at + length], parse);
    }
  }

  lemma PrefixFails<F>(maximum: nat, stream: seq<byte>, at: nat, parse: seq<byte> -> Option<F>)
    requires ScanPrefix(stream, 0) == Ends(at) && Announced(stream[..at], maximum).Failed?
    ensures Agree(FeedAll(Fresh(maximum), stream, parse), ReadAll(stream, maximum, parse))
  {
    hide FeedAll, ScanPrefix, Announced, Parsed;
    EndedDecided(stream);
    FeedEnd(maximum, stream, at, parse);
  }

  /** Fed whole, the decoder yields the frames and the first error of repeated one-shot reads; only
      when exactly five continued bytes are left does the error wait for one more byte. */
  lemma {:induction false} DecoderIsReader<F>(maximum: nat, stream: seq<byte>, parse: seq<byte> -> Option<F>)
    ensures Agree(FeedAll(Fresh(maximum), stream, parse), ReadAll(stream, maximum, parse))
    decreases |stream|
  {
    hide FeedAll, ReadAll, Agree, Parsed, Decode;
    match ScanPrefix(stream, 0) {
      case TooLong => FeedTooLong(maximum, stream, parse);
      case NeedsMore => FeedNeedsMore(maximum, stream, parse);
      case Ends(at) =>
        match Announced(stream[..at], maximum) {
          case Failed(e) => PrefixFails(maximum, stream, at, parse);
          case Got(length) =>
            if |stream| >= at + length {
              DecoderIsReader(maximum, stream[at + length..], parse);
            }
            FrameAgrees(maximum, stream, at, length, parse);
        }
    }
  }

  lemma FeedFrame<F>(maximum: nat, stream: seq<byte>, at: nat, length: nat, parse: seq<byte> -> Option<F>)
    requires 0 < at <= |stream| && Announced(stream[..at], maximum) == Got(length)
    ensures var o := FeedAll(Decoder(maximum, stream[..at], Some(length), []), stream[at..], parse);
            if |stream| < at + length then o.frames == [] && o.error.None?
            else match Parsed(stream[at..at + length], parse)
                 case Failed(e) => o == Outcome([], Some(e), Fresh(maximum))
                 case Got(frame) => o == Prepend(frame, FeedAll(Fresh(maximum), stream[at + length..], parse))
                 case Nothing => true
  {
    FeedBody(Decoder(maximum, stream[..at], Some(length), []), stream[at..], parse);
    hide FeedAll;
    if |stream| >= at + length {
      assert [] + stream[at..][..length] == stream[at..at + length];
      assert stream[at..][length..] == stream[at + length..];
    }
  }

  /** Any division of a byte stream into chunks yields the frames and the first error of repeated
      one-shot reads of the whole stream. */
  lemma ChunkingIrrelevant<F>(maximum: nat, chunks: seq<seq<byte>>, parse: seq<byte> -> Option<F>)
    ensures Agree(FeedChunks(Fresh(maximum), chunks, parse), ReadAll(Joined(chunks), maximum, parse))
  {
    hide FeedAll, ReadAll;
    ChunksJoin(Fresh(maximum), chunks, parse);
    DecoderIsReader(maximum, Joined(chunks), parse);
  }

  /** The error that waited comes with the next byte, whatever it is. */
  lemma DelayedError<F>(maximum: nat, stream: seq<byte>, next: byte, parse: seq<byte> -> Option<F>)
    requires Undecided(ReadAll(stream, maximum, parse).rest)
    ensures var o := FeedAll(Fresh(maximum), stream + [next], parse); var r := ReadAll(stream, maximum, parse);
            o.frames == r.frames && o.error == r.error
  {
    DecoderIsReader(maximum, stream, parse);
    FeedConcat(Fresh(maximum), stream, [next], parse);
    var o := FeedAll(Fresh(maximum), stream, parse);
    assert FeedAll(o.decoder, [next], parse).frames == [];
  }

  // ---------------------------------------------------------------- encoding

  function EncodeFrame(body: seq<byte>): seq<byte> {
    Encode(|body|) + body
  }

  function EncodeAll(bodies: seq<seq<byte>>): seq<byte> {
    if bodies == [] then [] else EncodeFrame(bodies[0]) + EncodeAll(bodies[1..])
  }

  lemma EncodedScan(body: seq<byte>, more: seq<byte>)
    requires 0 < |body| <= ABSOLUTE_MAX_FRAME_SIZE
    ensures var stream := EncodeFrame(body) + more; var at := |Encode(|body|)|;
            && at <= 5 && Continued(stream[..at - 1]) && stream[at - 1] < 128
            && stream[..at] == Encode(|body|) && stream[at..at + |body|] == body && stream[at + |body|..] == more
  {
    hide Encode;
    EncodeMeans(|body|);
    EncodeFits(|body|);
    var stream, prefix := EncodeFrame(body) + more, Encode(|body|);
    assert stream[..|prefix|] == prefix;
    assert stream[..|prefix| - 1] == prefix[..|prefix| - 1];
    assert stream[|prefix| - 1] == prefix[|prefix| - 1];
  }

  lemma {:induction false} ScanFinds(stream: seq<byte>, used: nat, at: nat)
    requires used < at <= 5 && at <= |stream| && Continued(stream[..at - 1]) && stream[at - 1] < 128
    requires Continued(stream[..used])
    ensures ScanPrefix(stream, used) == Ends(at)
    decreases at - used
  {
    if used + 1 < at {
      assert stream[used] == stream[..at - 1][used];
      assert stream[..used + 1] == stream[..used] + [stream[used]];
      ScanFinds(stream, used + 1, at);
    }
  }

  lemma OneShotEncoded<F>(maximum: nat, body: seq<byte>, more: seq<byte>, frame: F, parse: seq<byte> -> Option<F>)
    requires 0 < |body| <= maximum <= ABSOLUTE_MAX_FRAME_SIZE && parse(body) == Some(frame)
    ensures OneShot(EncodeFrame(body) + more, maximum, parse) == Whole(frame, |EncodeFrame(body)|)
  {
    hide Encode, Decode, ScanPrefix;
    var stream, at := EncodeFrame(body) + more, |Encode(|body|)|;
    EncodedScan(body, more);
    ScanFinds(stream, 0, at);
    DecodeEncode(|body|);
  }

  /** Reading back encoded frames gives every frame and leaves nothing. */
  lemma {:induction false} ReadEncoded<F>(maximum: nat, bodies: seq<seq<byte>>, frames: seq<F>,
                                          parse: seq<byte> -> Option<F>)
    requires ValidMaximum(maximum) && |frames| == |bodies|
    requires forall i :: 0 <= i < |bodies| ==> 0 < |bodies[i]| <= maximum && parse(bodies[i]) == Some(frames[i])
    ensures ReadAll(EncodeAll(bodies), maximum, parse) == Reads(frames, None, [])
    decreases |bodies|
  {
    if bodies == [] {
      assert ScanPrefix([], 0) == NeedsMore;
    } else {
      hide EncodeFrame, OneShot;
      var body, more := bodies[0], EncodeAll(bodies[1..]);
      OneShotEncoded(maximum, body, more, frames[0], parse);
      ReadEncoded(maximum, bodies[1..], frames[1..], parse);
      assert EncodeAll(bodies)[|EncodeFrame(body)|..] == more;
      assert [frames[0]] + frames[1..] == frames;
    }
  }

  /** Frames written one after the other come back from the decoder whole and in order, however the
      bytes are delivered. */
  lemma FramesRoundTrip<F>(maximum: nat, bodies: seq<seq<byte>>, frames: seq<F>, chunks: seq<seq<byte>>,
                           parse: seq<byte> -> Option<F>)
    requires ValidMaximum(maximum) && |frames| == |bodies| && Joined(chunks) == EncodeAll(bodies)
    requires forall i :: 0 <= i < |bodies| ==> 0 < |bodies[i]| <= maximum && parse(bodies[i]) == Some(frames[i])
    ensures var o := FeedChunks(Fresh(maximum), chunks, parse); o.frames == frames && o.error.None?
  {
    hide ReadAll, FeedChunks;
    ReadEncoded(maximum, bodies, frames, parse);
    ChunkingIrrelevant(maximum, chunks, parse);
  }
}
