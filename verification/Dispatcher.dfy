/**
 The stream table of the dispatcher. The gateway is an adversary: whether a stream opens, how much each
 write accepts and whether a flush succeeds are inputs. `written` records every byte a stream ever accepted.
 */
module Dispatcher {
  import opened Bytes

  datatype Dispatcher = Dispatcher(
    maxStreams: nat, chunkBytes: nat, sessionStreams: nat,
    streams: set<nat>, writeClosed: set<nat>, accepting: bool,
    written: map<nat, seq<byte>>)

  /** What the gateway does next: open or not, the results of successive writes, flush or not. */
  datatype Luck = Luck(opens: bool, writes: seq<nat>, flushes: bool)

  datatype Tried = Tried(dispatcher: Dispatcher, ok: bool)

  function WrittenTo(d: Dispatcher, id: nat): seq<byte> {
    if id in d.written then d.written[id] else []
  }

  predicate HasRoom(d: Dispatcher, id: nat) {
    d.accepting && |d.streams| < d.maxStreams && id !in d.streams && |d.streams| < d.sessionStreams
  }

  function Open(d: Dispatcher, id: nat, luck: Luck): Tried {
    if HasRoom(d, id) && luck.opens then Tried(d.(streams := d.streams + {id}), true) else Tried(d, false)
  }

  datatype Pushed = Pushed(count: nat, complete: bool)

  /** Repeated partial writes; a write of nothing or of more than was offered is an error. */
  function Push(length: nat, offset: nat, writes: seq<nat>): (r: Pushed)
    requires offset <= length
    ensures offset <= r.count <= length
    ensures r.complete ==> r.count == length
    decreases |writes|
  {
    if offset == length then Pushed(offset, true)
    else if writes == [] || writes[0] == 0 || writes[0] > length - offset then Pushed(offset, false)
    else Push(length, offset + writes[0], writes[1..])
  }

  predicate Writable(d: Dispatcher, id: nat, payload: seq<byte>) {
    |payload| <= d.chunkBytes && id !in d.writeClosed && id in d.streams
  }

  function WriteAll(d: Dispatcher, id: nat, payload: seq<byte>, luck: Luck): Tried {
    if !Writable(d, id, payload) then Tried(d, false)
    else
      var p := Push(|payload|, 0, luck.writes);
      Tried(d.(written := d.written[id := WrittenTo(d, id) + payload[..p.count]]), p.complete && luck.flushes)
  }

  function MarkWriteClosed(d: Dispatcher, id: nat): Tried {
    if id in d.streams then Tried(d.(writeClosed := d.writeClosed + {id}), true) else Tried(d, false)
  }

  function Close(d: Dispatcher, id: nat): Dispatcher {
    d.(streams := d.streams - {id}, writeClosed := d.writeClosed - {id})
  }

  /** Stops new streams and drops every stream; the closed marks go with their streams. */
  function CloseAll(d: Dispatcher): Dispatcher {
    d.(accepting := false, streams := {}, writeClosed := d.writeClosed - d.streams)
  }

  function ReplaceSession(d: Dispatcher, sessionStreams: nat): Dispatcher {
    CloseAll(d).(accepting := true, sessionStreams := sessionStreams)
  }

  /** A write that reports success has written the whole payload, in order, after everything before. */
  lemma WriteAllComplete(d: Dispatcher, id: nat, payload: seq<byte>, luck: Luck)
    requires WriteAll(d, id, payload, luck).ok
    ensures WrittenTo(WriteAll(d, id, payload, luck).dispatcher, id) == WrittenTo(d, id) + payload
  {
    assert payload[..|payload|] == payload;
  }

  lemma WriteAllElsewhere(d: Dispatcher, id: nat, payload: seq<byte>, luck: Luck, other: nat)
    requires other != id
    ensures WrittenTo(WriteAll(d, id, payload, luck).dispatcher, other) == WrittenTo(d, other)
  {
  }
}
