/** The dispatcher as an object whose stream table changes in place. */
module ConnectionDispatcher {
  import opened Bytes
  import opened Dispatcher

  lemma PushStep(length: nat, offset: nat, writes: seq<nat>, i: nat)
    requires offset <= length && i < |writes|
    ensures offset < length && 0 < writes[i] <= length - offset ==>
              Push(length, offset, writes[i..]) == Push(length, offset + writes[i], writes[i + 1..])
  {
    assert writes[i..][1..] == writes[i + 1..];
  }

  class StreamTable {
    const maxStreams: nat
    const chunkBytes: nat
    var sessionStreams: nat
    var streams: set<nat>
    var writeClosed: set<nat>
    var accepting: bool
    /** Every byte each stream has accepted. */
    ghost var written: map<nat, seq<byte>>

    ghost function View(): Dispatcher
      reads this
    {
      Dispatcher(maxStreams, chunkBytes, sessionStreams, streams, writeClosed, accepting, written)
    }

    constructor (maxStreams: nat, chunkBytes: nat, sessionStreams: nat)
      ensures View() == Dispatcher(maxStreams, chunkBytes, sessionStreams, {}, {}, true, map[])
    {
      this.maxStreams, this.chunkBytes, this.sessionStreams := maxStreams, chunkBytes, sessionStreams;
      streams, writeClosed, accepting, written := {}, {}, true, map[];
    }

    method OpenStream(id: nat, luck: Luck) returns (ok: bool)
      modifies this`streams
      ensures Tried(View(), ok) == Open(old(View()), id, luck)
    {
      if !accepting || |streams| >= maxStreams {
        return false;
      }
      if id in streams {
        return false;
      }
      if |streams| >= sessionStreams || !luck.opens {
        return false;
      }
      streams := streams + {id};
      ok := true;
    }

    method WriteFully(id: nat, payload: seq<byte>, luck: Luck) returns (ok: bool)
      modifies this`written
      ensures Tried(View(), ok) == WriteAll(old(View()), id, payload, luck)
    {
      if |payload| > chunkBytes || id in writeClosed || id !in streams {
        return false;
      }
      ghost var before := WrittenTo(View(), id);
      ghost var table := written;
      written := written[id := before + payload[..0]];
      var offset, i := 0, 0;
      while offset < |payload|
        invariant 0 <= offset <= |payload| && 0 <= i <= |luck.writes|
        invariant written == table[id := before + payload[..offset]]
        invariant Push(|payload|, offset, luck.writes[i..]) == Push(|payload|, 0, luck.writes)
      {
        if i == |luck.writes| || luck.writes[i] == 0 || luck.writes[i] > |payload| - offset {
          return false;
        }
        PushStep(|payload|, offset, luck.writes, i);
        offset := offset + luck.writes[i];
        written := table[id := before + payload[..offset]];
        i := i + 1;
      }
      ok := luck.flushes;
    }

    method CloseWrites(id: nat) returns (ok: bool)
      modifies this`writeClosed
      ensures Tried(View(), ok) == MarkWriteClosed(old(View()), id)
    {
      if id !in streams {
        return false;
      }
      writeClosed := writeClosed + {id};
      ok := true;
    }

    method CloseStream(id: nat)
      modifies this`streams, this`writeClosed
      ensures View() == Close(old(View()), id)
    {
      writeClosed := writeClosed - {id};
      streams := streams - {id};
    }

    method CloseEverything()
      modifies this`accepting, this`streams, this`writeClosed
      ensures View() == CloseAll(old(View()))
    {
      accepting := false;
      var ids := streams;
      ghost var left := {};
      while ids != {}
        invariant ids + left == old(streams) && ids !! left
        invariant streams == old(streams) - left && writeClosed == old(writeClosed) - left
        invariant !accepting
        decreases |ids|
      {
        var id :| id in ids;
        CloseStream(id);
        ids := ids - {id};
        left := left + {id};
      }
    }

    method ReplaceWith(sessionStreams: nat)
      modifies this`accepting, this`streams, this`writeClosed, this`sessionStreams
      ensures View() == ReplaceSession(old(View()), sessionStreams)
    {
      CloseEverything();
      this.sessionStreams := sessionStreams;
      accepting := true;
    }
  }
}
