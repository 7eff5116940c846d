/** The resumable log stream: the server replays a job's log from its first byte
    on every connection, the client asks for the bytes it has not written yet. */
module LogStream {
  import opened Sequences

  /** A response: some bytes, the offset after them, and whether it ends the stream. */
  datatype Message = Message(data: Bytes, nextOffset: nat, terminal: bool)

  function DataOf(messages: seq<Message>): Bytes {
    if messages == [] then [] else DataOf(messages[..|messages| - 1]) + messages[|messages| - 1].data
  }

  /** The log past `offset`, nothing when it is not that long. */
  function Past(log: Bytes, offset: nat): Bytes {
    if offset <= |log| then log[offset..] else []
  }

  /** Each message says the offset it ends at. */
  ghost predicate Numbered(messages: seq<Message>, offset: nat) {
    messages == [] ||
    (Numbered(messages[..|messages| - 1], offset) && messages[|messages| - 1].nextOffset == offset + |DataOf(messages)|)
  }

  /** The messages continue the log from `offset` without gap or overlap. */
  ghost predicate Continues(messages: seq<Message>, offset: nat, log: Bytes) {
    DataOf(messages) <= Past(log, offset) && Numbered(messages, offset)
  }

  lemma DataOfMore(messages: seq<Message>, m: Message)
    ensures DataOf(messages + [m]) == DataOf(messages) + m.data
  {
  }

  lemma NumberedMore(messages: seq<Message>, m: Message, offset: nat)
    requires Numbered(messages, offset)
    requires m.nextOffset == offset + |DataOf(messages)| + |m.data|
    ensures Numbered(messages + [m], offset)
  {
  }

  /** Whatever front of the stream is received continues the log too. */
  lemma {:induction false} Front(messages: seq<Message>, n: nat, offset: nat)
    requires n <= |messages| && Numbered(messages, offset)
    ensures DataOf(messages[..n]) <= DataOf(messages) && Numbered(messages[..n], offset)
    decreases |messages| - n
  {
    if n == |messages| {
      assert messages[..n] == messages;
    } else {
      Front(messages, n + 1, offset);
      assert messages[..n + 1][..n] == messages[..n];
    }
  }

  /** The server's end of a connection, which breaks after `limit` messages. */
  class Stream {
    const limit: nat
    var sent: seq<Message>

    constructor (limit: nat)
      ensures this.limit == limit && sent == []
    {
      this.limit, sent := limit, [];
    }

    method Send(m: Message) returns (ok: bool)
      modifies this
      ensures sent == if ok then old(sent) + [m] else old(sent)
      ensures ok <==> |old(sent)| < limit
    {
      ok := |sent| < limit;
      if ok { sent := sent + [m]; }
    }
  }

  class StreamWriter {
    const stream: Stream
    var offset: nat

    constructor (stream: Stream, offset: nat)
      ensures this.stream == stream && this.offset == offset
    {
      this.stream, this.offset := stream, offset;
    }

    method Write(data: Bytes) returns (ok: bool)
      modifies this, stream
      ensures offset == old(offset) + (if ok then |data| else 0)
      ensures stream.sent == if ok then old(stream.sent) + [Message(data, offset, false)] else old(stream.sent)
      ensures ok <==> |old(stream.sent)| < stream.limit
    {
      offset := offset + |data|;
      ok := stream.Send(Message(data, offset, false));
      if !ok {
        offset := offset - |data|;
      }
    }
  }

  /** Drops the bytes the client already has. */
  class OffsetWriter {
    var remaining: nat
    const destination: StreamWriter

    constructor (remaining: nat, destination: StreamWriter)
      ensures this.remaining == remaining && this.destination == destination
    {
      this.remaining, this.destination := remaining, destination;
    }

    method Write(data: Bytes) returns (ok: bool)
      modifies this, destination, destination.stream
      ensures remaining == if |data| <= old(remaining) then old(remaining) - |data| else 0
      ensures var rest := Past(data, old(remaining));
              if rest == [] then ok && unchanged(destination) && unchanged(destination.stream)
              else && destination.offset == old(destination.offset) + (if ok then |rest| else 0)
                   && destination.stream.sent == (if ok then old(destination.stream.sent) + [Message(rest, destination.offset, false)]
                                                  else old(destination.stream.sent))
      ensures ok <==> Past(data, old(remaining)) == [] || |old(destination.stream.sent)| < destination.stream.limit
    {
      if |data| <= remaining {
        remaining := remaining - |data|;
        return true;
      }
      var rest := data[remaining..];
      remaining := 0;
      ok := destination.Write(rest);
    }
  }

  /** One connection: the chunks in which the log is replayed, how many messages
      the server gets through, and how many of those the client receives. The job
      may still be preparing, and the replay may end in a server error. */
  datatype Connection = Connection(preparing: bool, chunks: seq<Bytes>, limit: nat, delivered: nat, finishes: bool)

  /** How many of the bytes before `offset` have not been replayed yet. */
  function Missing(replayed: Bytes, offset: nat): nat {
    if |replayed| <= offset then offset - |replayed| else 0
  }

  lemma PastGrows(replayed: Bytes, chunk: Bytes, offset: nat)
    ensures Past(replayed + chunk, offset) == Past(replayed, offset) + Past(chunk, Missing(replayed, offset))
  {
  }

  lemma {:induction false} JoinedFront(parts: seq<Bytes>, n: nat)
    requires n <= |parts|
    ensures Joined(parts[..n]) <= Joined(parts)
    decreases |parts| - n
  {
    if n == |parts| {
      assert parts[..n] == parts;
    } else {
      JoinedFront(parts, n + 1);
      assert parts[..n + 1][..n] == parts[..n];
    }
  }

  lemma JoinedNext(parts: seq<Bytes>, i: nat)
    requires i < |parts|
    ensures Joined(parts[..i]) + parts[i] == Joined(parts[..i + 1]) <= Joined(parts)
  {
    assert parts[..i + 1][..i] == parts[..i];
    JoinedFront(parts, i + 1);
  }

  /** The server reports the end of the stream. */
  predicate Ends(c: Connection) {
    c.preparing || c.finishes
  }

  /** What the server has sent once `replayed` has gone through the writers. */
  ghost predicate Served(sent: seq<Message>, offset: nat, replayed: Bytes) {
    && Numbered(sent, offset)
    && DataOf(sent) == Past(replayed, offset)
    && forall i :: 0 <= i < |sent| ==> !sent[i].terminal
  }

  lemma ServedMore(sent: seq<Message>, offset: nat, replayed: Bytes, chunk: Bytes, rest: Bytes)
    requires Served(sent, offset, replayed) && rest == Past(chunk, Missing(replayed, offset))
    ensures rest == [] ==> Served(sent, offset, replayed + chunk)
    ensures var more := sent + [Message(rest, offset + |DataOf(sent)| + |rest|, false)];
            Served(more, offset, replayed + chunk) && |DataOf(more)| == |DataOf(sent)| + |rest|
  {
    PastGrows(replayed, chunk, offset);
    var m := Message(rest, offset + |DataOf(sent)| + |rest|, false);
    NumberedMore(sent, m, offset);
    DataOfMore(sent, m);
  }

  lemma ServedContinues(sent: seq<Message>, offset: nat, replayed: Bytes, log: Bytes)
    requires Served(sent, offset, replayed) && replayed <= log
    ensures Continues(sent, offset, log)
  {
  }

  /** The end message adds no bytes. */
  lemma ServedEnds(sent: seq<Message>, offset: nat, replayed: Bytes, log: Bytes)
    requires Served(sent, offset, replayed) && replayed <= log
    ensures var all := sent + [Message([], offset + |DataOf(sent)|, true)];
            Continues(all, offset, log) && DataOf(all) == Past(replayed, offset)
  {
  }

  ghost predicate Ready(writer: StreamWriter, skipper: OffsetWriter, offset: nat, replayed: Bytes)
    reads writer, skipper, writer.stream
  {
    && skipper.destination == writer
    && Served(writer.stream.sent, offset, replayed)
    && writer.offset == offset + |DataOf(writer.stream.sent)|
    && skipper.remaining == Missing(replayed, offset)
  }

  /** One read of the log passed on; a failed write has sent nothing. */
  method CopyChunk(writer: StreamWriter, skipper: OffsetWriter, offset: nat, ghost replayed: Bytes, chunk: Bytes) returns (ok: bool)
    requires Ready(writer, skipper, offset, replayed)
    modifies writer, skipper, writer.stream
    ensures if ok then Ready(writer, skipper, offset, replayed + chunk) else writer.stream.sent == old(writer.stream.sent)
    ensures |writer.stream.sent| <= |old(writer.stream.sent)| + 1
    ensures |old(writer.stream.sent)| < writer.stream.limit ==> ok
  {
    ServedMore(writer.stream.sent, offset, replayed, chunk, Past(chunk, skipper.remaining));
    if offset > 0 {
      ok := skipper.Write(chunk);
    } else {
      assert Past(chunk, 0) == chunk;
      ok := writer.Write(chunk);
    }
  }

  /** `StreamJobLogs`: whatever the chunks and wherever the connection breaks,
      the messages continue the log from the requested offset; a stream that ends
      has sent all of the replay; and one that may end and does not break does. */
  method StreamJobLogs(offset: nat, c: Connection, ghost log: Bytes) returns (sent: seq<Message>)
    requires Joined(c.chunks) <= log
    ensures Continues(sent, offset, log)
    ensures forall i :: 0 <= i < |sent| && sent[i].terminal ==> i == |sent| - 1 && Ends(c)
    ensures |sent| > 0 && sent[|sent| - 1].terminal && !c.preparing ==> DataOf(sent) == Past(Joined(c.chunks), offset)
    ensures |sent| <= |c.chunks| + 1
    ensures Ends(c) && c.limit > |c.chunks| ==> |sent| > 0 && sent[|sent| - 1].terminal
  {
    var stream := new Stream(c.limit);
    var writer := new StreamWriter(stream, offset);
    var skipper := new OffsetWriter(offset, writer);
    ghost var replayed: Bytes := [];
    if !c.preparing {
      var i := 0;
      while i < |c.chunks|
        invariant 0 <= i <= |c.chunks| && replayed == Joined(c.chunks[..i]) && replayed <= log
        invariant fresh(stream) && fresh(writer) && fresh(skipper) && writer.stream == stream
        invariant Ready(writer, skipper, offset, replayed)
        invariant |stream.sent| <= i
      {
        JoinedNext(c.chunks, i);
        ServedContinues(stream.sent, offset, replayed, log);
        var ok := CopyChunk(writer, skipper, offset, replayed, c.chunks[i]);
        if !ok {
          return stream.sent;
        }
        replayed := replayed + c.chunks[i];
        i := i + 1;
      }
      assert c.chunks[..i] == c.chunks;
    }
    ServedContinues(stream.sent, offset, replayed, log);
    if Ends(c) {
      ServedEnds(stream.sent, offset, replayed, log);
      var ok := stream.Send(Message([], if c.preparing then offset else writer.offset, true));
    }
    sent := stream.sent;
  }

  /** One received message: its bytes follow what has been written. */
  lemma Received(sent: seq<Message>, i: nat, start: Bytes, log: Bytes)
    requires start <= log && Continues(sent, |start|, log) && i < |sent|
    ensures start + DataOf(sent[..i + 1]) == start + DataOf(sent[..i]) + sent[i].data
    ensures start + DataOf(sent[..i + 1]) <= log
    ensures sent[i].nextOffset == |start + DataOf(sent[..i + 1])|
  {
    assert sent[..i + 1][..i] == sent[..i];
    Front(sent, i + 1, |start|);
    assert start + Past(log, |start|) == log;
  }

  lemma ReceivedAll(sent: seq<Message>, start: Bytes, log: Bytes)
    requires start <= log && DataOf(sent) == Past(log, |start|)
    ensures start + DataOf(sent) == log
  {
  }

  /** `waitServiceJob`: over any sequence of broken connections, what the client
      has written is a prefix of the log and its offset is that prefix's length;
      one unbroken connection is enough to see the end; and at the end of a
      complete replay it has written the whole log. */
  method WaitForJob(connections: seq<Connection>, ghost log: Bytes) returns (written: Bytes, offset: nat, finished: bool)
    requires forall i :: 0 <= i < |connections| ==> Joined(connections[i].chunks) <= log
    ensures offset == |written| && written <= log
    ensures (exists i :: 0 <= i < |connections| && Unbroken(connections[i])) ==> finished
    ensures finished ==> exists i :: 0 <= i < |connections| && Ends(connections[i])
    ensures finished && AllComplete(connections, log) ==> written == log
  {
    written, offset, finished := [], 0, false;
    var n := 0;
    while n < |connections| && !finished
      invariant 0 <= n <= |connections|
      invariant offset == |written| && written <= log
      invariant finished || forall i :: 0 <= i < n ==> !Unbroken(connections[i])
      invariant finished ==> exists i :: 0 <= i < n && Ends(connections[i])
      invariant finished && AllComplete(connections, log) ==> written == log
    {
      var c := connections[n];
      var sent := StreamJobLogs(offset, c, log);
      var delivered := if c.delivered <= |sent| then c.delivered else |sent|;
      ghost var start := written;
      var i := 0;
      while i < delivered
        invariant 0 <= i <= delivered
        invariant written == start + DataOf(sent[..i]) && written <= log && offset == |written|
        invariant finished <==> i == |sent| > 0 && sent[|sent| - 1].terminal
      {
        Received(sent, i, start, log);
        written := written + sent[i].data;
        if sent[i].nextOffset >= offset {
          offset := sent[i].nextOffset;
        }
        finished := finished || sent[i].terminal;
        i := i + 1;
      }
      if finished && AllComplete(connections, log) {
        assert sent[..|sent|] == sent;
        ReceivedAll(sent, start, log);
      }
      n := n + 1;
    }
  }

  /** The server may end the stream, and nothing of it is lost on the way. */
  predicate Unbroken(c: Connection) {
    Ends(c) && c.limit > |c.chunks| && c.delivered > |c.chunks|
  }

  /** Every connection that reports the end has replayed the whole log. */
  ghost predicate AllComplete(connections: seq<Connection>, log: Bytes) {
    forall i :: 0 <= i < |connections| && Ends(connections[i]) ==> !connections[i].preparing && Joined(connections[i].chunks) == log
  }
}
