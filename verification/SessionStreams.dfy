/**
 The four message pairs that share a stream by sentinel, the stream object they
 go through, and the pod log copier.
 */
module SessionStreams {
  import opened Wrappers
  import opened ProtoWire
  import opened Framing
  import opened Sequences

  type bytes = seq<byte>

  type uint32 = x: int | 0 <= x < 0x1_0000_0000
  type int32 = x: int | -0x8000_0000 <= x < 0x8000_0000
  type int64 = x: int | -0x8000_0000_0000_0000 <= x < 0x8000_0000_0000_0000

  function ToInt32(n: nat): int32 {
    var low := Low32(n);
    if low < 0x8000_0000 then low else low - 0x1_0000_0000
  }

  lemma Int32Survives(x: int32)
    ensures ToInt32(Signed(x)) == x && (Low32(Signed(x)) != 0) == (x != 0)
  {
    if x < 0 {
      assert x + UINT64 == (x + 0x1_0000_0000) + 0x1_0000_0000 * 0xFFFF_FFFF;
    }
  }

  // ---- The message pairs and their discriminators ----

  datatype LogsChunk = LogsChunk(data: bytes)
  datatype LogsEnd = LogsEnd(error: bytes)
  datatype ExecOutput = ExecOutput(stream: uint32, data: bytes)
  datatype ExecEnd = ExecEnd(exitCode: int32, error: bytes)
  datatype WSFrame = WSFrame(opcode: int32, data: bytes)
  datatype WSEnd = WSEnd(code: int32, reason: bytes)
  datatype PluginLogChunk = PluginLogChunk(crdName: bytes, level: bytes, ts: int64, message: bytes)
  datatype PluginLogEnd = PluginLogEnd(crdName: bytes, success: bool, summary: bytes)

  const LOGS := Discriminator([], [], [1])
  const EXEC := Discriminator([1], [], [2])
  const WS := Discriminator([1], [], [2])
  const PLUGIN_LOG := Discriminator([], [3], [2, 4])

  function OfLogsChunk(c: LogsChunk): seq<Field> { BlobField(1, c.data) }
  function ToLogsChunk(fs: seq<Field>): LogsChunk { LogsChunk(GetBlob(fs, 1)) }
  function OfLogsEnd(e: LogsEnd): seq<Field> { BlobField(1, e.error) }
  function ToLogsEnd(fs: seq<Field>): LogsEnd { LogsEnd(GetBlob(fs, 1)) }

  function OfExecOutput(o: ExecOutput): seq<Field> { NumField(1, o.stream) + BlobField(2, o.data) }
  function ToExecOutput(fs: seq<Field>): ExecOutput { ExecOutput(Low32(GetNum(fs, 1)), GetBlob(fs, 2)) }
  function OfExecEnd(e: ExecEnd): seq<Field> { NumField(1, Signed(e.exitCode)) + BlobField(2, e.error) }
  function ToExecEnd(fs: seq<Field>): ExecEnd { ExecEnd(ToInt32(GetNum(fs, 1)), GetBlob(fs, 2)) }

  function OfWSFrame(f: WSFrame): seq<Field> { NumField(1, Signed(f.opcode)) + BlobField(2, f.data) }
  function ToWSFrame(fs: seq<Field>): WSFrame { WSFrame(ToInt32(GetNum(fs, 1)), GetBlob(fs, 2)) }
  function OfWSEnd(e: WSEnd): seq<Field> { NumField(1, Signed(e.code)) + BlobField(2, e.reason) }
  function ToWSEnd(fs: seq<Field>): WSEnd { WSEnd(ToInt32(GetNum(fs, 1)), GetBlob(fs, 2)) }

  function OfPluginLogChunk(c: PluginLogChunk): seq<Field> {
    BlobField(1, c.crdName) + BlobField(2, c.level) + NumField(3, Signed(c.ts)) + BlobField(4, c.message)
  }
  function ToPluginLogChunk(fs: seq<Field>): PluginLogChunk {
    var n := GetNum(fs, 3) % UINT64;
    PluginLogChunk(GetBlob(fs, 1), GetBlob(fs, 2), ToSigned(n), GetBlob(fs, 4))
  }
  function OfPluginLogEnd(e: PluginLogEnd): seq<Field> {
    BlobField(1, e.crdName) + NumField(2, if e.success then 1 else 0) + BlobField(3, e.summary)
  }
  function ToPluginLogEnd(fs: seq<Field>): PluginLogEnd {
    PluginLogEnd(GetBlob(fs, 1), GetNum(fs, 2) != 0, GetBlob(fs, 3))
  }

  // ---- On the wire ----

  /** A number under its key byte, left out when zero. */
  function NumBytes(key: byte, n: nat): bytes {
    if n == 0 then [] else [key] + Uvarint(n)
  }

  function BlobBytes(key: byte, b: bytes): bytes {
    if b == [] then [] else [key] + Uvarint(|b|) + b
  }

  lemma {:induction false} MarshalJoins(a: seq<Field>, b: seq<Field>)
    ensures Marshal(a + b) == Marshal(a) + Marshal(b)
  {
    hide MarshalField;
    if a == [] {
      assert a + b == b;
    } else {
      MarshalJoins(a[1..], b);
      assert (a + b)[1..] == a[1..] + b && (a + b)[0] == a[0];
      assert Marshal(a + b) == MarshalField(a[0]) + (Marshal(a[1..]) + Marshal(b));
      Regroup(MarshalField(a[0]), Marshal(a[1..]), Marshal(b));
    }
  }

  lemma OneOnTheWire(number: nat, n: nat, b: bytes)
    requires 1 <= number <= 15
    ensures Marshal(NumField(number, n)) == NumBytes(8 * number, n)
    ensures Marshal(BlobField(number, b)) == BlobBytes(8 * number + 2, b)
  {
    assert Uvarint(8 * number) == [8 * number] && Uvarint(8 * number + 2) == [8 * number + 2];
    hide Uvarint;
    if n != 0 {
      assert NumField(number, n)[1..] == [];
    }
    if b != [] {
      assert BlobField(number, b)[1..] == [];
    }
  }

  /** A number and a string, under the numbers 1 and 2. */
  lemma PairOnTheWire(n: nat, b: bytes)
    ensures Marshal(NumField(1, n) + BlobField(2, b)) == NumBytes(8, n) + BlobBytes(18, b)
  {
    OneOnTheWire(1, n, []);
    OneOnTheWire(2, 0, b);
    MarshalJoins(NumField(1, n), BlobField(2, b));
  }

  /** Each field of a log, exec or WebSocket message goes under the number that the schema gives it. */
  lemma OnTheWire(c: LogsChunk, e: LogsEnd, o: ExecOutput, x: ExecEnd, f: WSFrame, w: WSEnd)
    ensures Marshal(OfLogsChunk(c)) == BlobBytes(10, c.data) && Marshal(OfLogsEnd(e)) == BlobBytes(10, e.error)
    ensures Marshal(OfExecOutput(o)) == NumBytes(8, o.stream) + BlobBytes(18, o.data)
    ensures Marshal(OfExecEnd(x)) == NumBytes(8, Signed(x.exitCode)) + BlobBytes(18, x.error)
    ensures Marshal(OfWSFrame(f)) == NumBytes(8, Signed(f.opcode)) + BlobBytes(18, f.data)
    ensures Marshal(OfWSEnd(w)) == NumBytes(8, Signed(w.code)) + BlobBytes(18, w.reason)
  {
    hide Marshal, NumField, BlobField, NumBytes, BlobBytes, Signed;
    OneOnTheWire(1, 0, c.data);
    OneOnTheWire(1, 0, e.error);
    PairOnTheWire(o.stream, o.data);
    PairOnTheWire(Signed(x.exitCode), x.error);
    PairOnTheWire(Signed(f.opcode), f.data);
    PairOnTheWire(Signed(w.code), w.reason);
  }

  /** The same for install logs. */
  lemma PluginLogOnTheWire(c: PluginLogChunk, e: PluginLogEnd)
    ensures Marshal(OfPluginLogChunk(c))
      == BlobBytes(10, c.crdName) + BlobBytes(18, c.level) + NumBytes(24, Signed(c.ts)) + BlobBytes(34, c.message)
    ensures Marshal(OfPluginLogEnd(e))
      == BlobBytes(10, e.crdName) + NumBytes(16, if e.success then 1 else 0) + BlobBytes(26, e.summary)
  {
    hide Marshal, NumField, BlobField, NumBytes, BlobBytes, Signed;
    var n := if e.success then 1 else 0;
    OneOnTheWire(1, 0, c.crdName);
    OneOnTheWire(2, n, c.level);
    OneOnTheWire(3, Signed(c.ts), e.summary);
    OneOnTheWire(4, 0, c.message);
    OneOnTheWire(1, 0, e.crdName);
    var c1, c2, c3, c4 := BlobField(1, c.crdName), BlobField(2, c.level), NumField(3, Signed(c.ts)), BlobField(4, c.message);
    MarshalJoins(c1, c2);
    MarshalJoins(c1 + c2, c3);
    MarshalJoins(c1 + c2 + c3, c4);
    var e1, e2, e3 := BlobField(1, e.crdName), NumField(2, n), BlobField(3, e.summary);
    MarshalJoins(e1, e2);
    MarshalJoins(e1 + e2, e3);
  }

  // ---- Reading back what was written, whatever the fields ----

  ghost predicate Without(fs: seq<Field>, number: nat) {
    forall i :: 0 <= i < |fs| ==> fs[i].number != number
  }

  /** Later fields with other numbers do not matter. */
  lemma {:induction false} GetPast(a: seq<Field>, b: seq<Field>, number: nat)
    requires Without(b, number)
    ensures GetNum(a + b, number) == GetNum(a, number) && GetBlob(a + b, number) == GetBlob(a, number)
  {
    if b == [] {
      assert a + b == a;
    } else {
      var b' := b[..|b| - 1];
      GetPast(a, b', number);
      assert (a + b)[..|a + b| - 1] == a + b';
    }
  }

  /** Nor do earlier ones. */
  lemma {:induction false} GetOver(a: seq<Field>, b: seq<Field>, number: nat)
    requires Without(a, number)
    ensures GetNum(a + b, number) == GetNum(b, number) && GetBlob(a + b, number) == GetBlob(b, number)
  {
    if b == [] {
      GetPast([], a, number);
      assert [] + a == a && a + [] == a;
    } else {
      var b' := b[..|b| - 1];
      GetOver(a, b', number);
      assert (a + b)[..|a + b| - 1] == a + b';
    }
  }

  /** A field of its own number is found between any others. */
  lemma GetBetween(a: seq<Field>, f: seq<Field>, b: seq<Field>, number: nat)
    requires Without(a, number) && Without(b, number)
    ensures GetNum(a + f + b, number) == GetNum(f, number) && GetBlob(a + f + b, number) == GetBlob(f, number)
  {
    GetPast(a + f, b, number);
    GetOver(a, f, number);
  }

  lemma SingleField(number: nat, n: nat, b: bytes)
    ensures GetNum(NumField(number, n), number) == n && GetBlob(BlobField(number, b), number) == b
  {
  }

  /** A number field followed by a string field. */
  lemma PairReads(n: nat, b: bytes)
    ensures var fs := NumField(1, n) + BlobField(2, b);
      GetNum(fs, 1) == n && GetBlob(fs, 2) == b
  {
    SingleField(1, n, []);
    SingleField(2, 0, b);
    GetPast(NumField(1, n), BlobField(2, b), 1);
    GetOver(NumField(1, n), BlobField(2, b), 2);
  }

  lemma LogsContract(c: LogsChunk, e: LogsEnd)
    ensures ToLogsChunk(OfLogsChunk(c)) == c && ToLogsEnd(OfLogsEnd(e)) == e
    ensures Real(LOGS, OfLogsChunk(c)) == (c.data != [])
    ensures !Real(LOGS, OfLogsChunk(c)) ==> OfLogsChunk(c) == []
  {
    SingleField(1, 0, c.data);
    SingleField(1, 0, e.error);
    assert GetBlob(OfLogsChunk(c), LOGS.blobs[0]) == c.data;
  }

  lemma ExecContract(o: ExecOutput, e: ExecEnd)
    ensures ToExecOutput(OfExecOutput(o)) == o && ToExecEnd(OfExecEnd(e)) == e
    ensures Real(EXEC, OfExecOutput(o)) == (o.stream != 0 || o.data != [])
  {
    PairReads(o.stream, o.data);
    PairReads(Signed(e.exitCode), e.error);
    Int32Survives(e.exitCode);
    assert GetNum(OfExecOutput(o), EXEC.nums32[0]) == o.stream && GetBlob(OfExecOutput(o), EXEC.blobs[0]) == o.data;
  }

  lemma WSContract(f: WSFrame, e: WSEnd)
    ensures ToWSFrame(OfWSFrame(f)) == f && ToWSEnd(OfWSEnd(e)) == e
    ensures Real(WS, OfWSFrame(f)) == (f.opcode != 0 || f.data != [])
  {
    PairReads(Signed(f.opcode), f.data);
    PairReads(Signed(e.code), e.reason);
    Int32Survives(f.opcode);
    Int32Survives(e.code);
    assert GetNum(OfWSFrame(f), WS.nums32[0]) == Signed(f.opcode) && GetBlob(OfWSFrame(f), WS.blobs[0]) == f.data;
  }

  lemma PluginLogContract(c: PluginLogChunk, e: PluginLogEnd)
    ensures ToPluginLogChunk(OfPluginLogChunk(c)) == c && ToPluginLogEnd(OfPluginLogEnd(e)) == e
    ensures Real(PLUGIN_LOG, OfPluginLogChunk(c)) == (c.level != [] || c.ts != 0 || c.message != [])
  {
    ChunkFields(c);
    EndFields(e);
    RealPluginLog(OfPluginLogChunk(c));
  }

  lemma RealPluginLog(fs: seq<Field>)
    ensures Real(PLUGIN_LOG, fs) == (GetBlob(fs, 2) != [] || GetNum(fs, 3) != 0 || GetBlob(fs, 4) != [])
  {
    var d := PLUGIN_LOG;
    assert |d.nums64| == 1 && d.nums64[0] == 3;
    assert |d.blobs| == 2 && d.blobs[0] == 2 && d.blobs[1] == 4;
  }

  ghost predicate Only(fs: seq<Field>, number: nat) {
    forall i :: 0 <= i < |fs| ==> fs[i].number == number
  }

  lemma FourReads(f1: seq<Field>, f2: seq<Field>, f3: seq<Field>, f4: seq<Field>)
    requires Only(f1, 1) && Only(f2, 2) && Only(f3, 3) && Only(f4, 4)
    ensures var fs := f1 + f2 + f3 + f4;
      GetBlob(fs, 1) == GetBlob(f1, 1) && GetBlob(fs, 2) == GetBlob(f2, 2)
      && GetNum(fs, 3) == GetNum(f3, 3) && GetBlob(fs, 4) == GetBlob(f4, 4)
  {
    hide GetNum, GetBlob;
    GetPast(f1 + f2 + f3, f4, 1);
    GetPast(f1 + f2, f3, 1);
    GetPast(f1, f2, 1);
    GetPast(f1 + f2 + f3, f4, 2);
    GetBetween(f1, f2, f3, 2);
    GetBetween(f1 + f2, f3, f4, 3);
    GetOver(f1 + f2 + f3, f4, 4);
  }

  lemma ChunkFields(c: PluginLogChunk)
    ensures var fs := OfPluginLogChunk(c);
      GetBlob(fs, 1) == c.crdName && GetBlob(fs, 2) == c.level && GetNum(fs, 3) == Signed(c.ts) && GetBlob(fs, 4) == c.message
  {
    FourReads(BlobField(1, c.crdName), BlobField(2, c.level), NumField(3, Signed(c.ts)), BlobField(4, c.message));
    SingleField(1, 0, c.crdName);
    SingleField(2, 0, c.level);
    SingleField(3, Signed(c.ts), []);
    SingleField(4, 0, c.message);
    hide GetNum, GetBlob;
  }

  lemma EndFields(e: PluginLogEnd)
    ensures var fs := OfPluginLogEnd(e);
      GetBlob(fs, 1) == e.crdName && (GetNum(fs, 2) != 0) == e.success && GetBlob(fs, 3) == e.summary
  {
    var n := if e.success then 1 else 0;
    var f1, f2, f3 := BlobField(1, e.crdName), NumField(2, n), BlobField(3, e.summary);
    SingleField(1, 0, e.crdName);
    SingleField(2, n, []);
    SingleField(3, 0, e.summary);
    GetPast(f1 + f2, f3, 1);
    GetPast(f1, f2, 1);
    GetBetween(f1, f2, f3, 2);
    GetOver(f1 + f2, f3, 3);
  }

  // ---- The stream object ----

  /** What goes through of these bytes when only n more do. */
  function Through(bs: bytes, n: nat): (r: bytes)
    ensures r <= bs && |r| <= n && (|bs| <= n ==> r == bs) && (|bs| > n ==> |r| == n)
  {
    if |bs| <= n then bs else bs[..n]
  }

  lemma ThroughSplits(a: bytes, b: bytes, n: nat)
    ensures Through(a + b, n) == Through(a, n) + Through(b, n - |Through(a, n)|)
  {
  }

  /**
   One end of a stream as its users see it. The peer may give up at any byte:
   from then on every write fails.
   */
  class Stream {
    var written: bytes     // everything this end has put on the stream
    var room: nat          // how much more the peer lets through
    var unread: bytes      // everything that has arrived and was not read

    constructor (arriving: bytes, room: nat)
      ensures written == [] && unread == arriving && this.room == room
    {
      written, unread, this.room := [], arriving, room;
    }

    method Write(bs: bytes) returns (ok: bool)
      modifies this`written, this`room
      ensures ok == (|bs| <= old(room))
      ensures written == old(written) + Through(bs, old(room)) && room == old(room) - |Through(bs, old(room))|
    {
      var through := if |bs| <= room then bs else bs[..room];
      ok := |bs| <= room;
      written, room := written + through, room - |through|;
    }

    /** All of the frame or, once the peer has given up, its beginning; nothing of a message that is too large. */
    method WriteMsg(payload: bytes) returns (ok: bool)
      modifies this`written, this`room
      ensures ok == (|payload| <= MAX_MESSAGE && |Frame(payload)| <= old(room))
      ensures var sent := if |payload| <= MAX_MESSAGE then Through(Frame(payload), old(room)) else [];
        written == old(written) + sent && room == old(room) - |sent|
    {
      if |payload| > MAX_MESSAGE {
        assert written == written + [];
        return false;
      }
      ghost var before, had := written, room;
      ThroughSplits(Uvarint(|payload|), payload, had);
      ok := Write(Uvarint(|payload|));
      if !ok {
        assert Through(payload, 0) == [];
        assert written + [] == written;
        return;
      }
      ok := Write(payload);
      Regroup(before, Uvarint(|payload|), Through(payload, had - |Uvarint(|payload|)|));
    }

    /** Reads one frame; after anything but a frame the caller stops reading. */
    method ReadMsg() returns (r: RawRead)
      modifies this`unread
      ensures r == ReadRaw(old(unread))
      ensures r.Got? ==> unread == r.rest
    {
      r := ReadRaw(unread);
      if r.Got? {
        unread := r.rest;
      }
    }
  }

  /** The reader shared by LogsStream, ExecStream, WSStream and the plugin log loop. */
  class SentinelReader {
    const stream: Stream
    const kind: Discriminator

    constructor (stream: Stream, kind: Discriminator)
      ensures this.stream == stream && this.kind == kind
    {
      this.stream, this.kind := stream, kind;
    }

    method Receive() returns (r: RecvResult)
      modifies stream`unread
      ensures r == Recv(kind, old(stream.unread))
      ensures r.Received? ==> stream.unread == r.rest
    {
      var raw := stream.ReadMsg();
      if LooksLikeEof(raw) {
        return RecvEof;
      }
      if !raw.Got? {
        return RecvError;
      }
      var m := Unmarshal(raw.payload);
      if !m.ok {
        return RecvError;
      }
      if Real(kind, m.fields) {
        return Received(Chunk(m.fields), raw.rest);
      }
      raw := stream.ReadMsg();
      if LooksLikeEof(raw) {
        return RecvEof;
      }
      if !raw.Got? {
        return RecvError;
      }
      m := Unmarshal(raw.payload);
      if !m.ok {
        return RecvError;
      }
      return Received(End(m.fields), raw.rest);
    }
  }

  // ---- The pod log copier ----

  const LOGS_CHUNK_SIZE: nat := 4096
  const MAX_LOG_BYTES: nat := 64 * 1024 * 1024

  datatype ReadErr = NoErr | EndOfLog | Canceled | Other(msg: bytes)

  datatype LogRead = LogRead(data: bytes, err: ReadErr)

  /** The chunks to forward and, once the copier stops, the error text of the end message. */
  datatype Plan = Plan(chunks: seq<bytes>, end: Option<bytes>)

  /** A round without data forwards no chunk. */
  function Lead(data: bytes, p: Plan): Plan {
    if data == [] then p else Plan([data] + p.chunks, p.end)
  }

  function LogPlan(inputs: seq<LogRead>, sent: nat, capMsg: bytes): Plan
    decreases |inputs|, 1
  {
    if inputs == [] then Plan([], None) else Lead(inputs[0].data, Afterwards(inputs, sent, capMsg))
  }

  /** The plan once the first round's data is forwarded. */
  function Afterwards(inputs: seq<LogRead>, sent: nat, capMsg: bytes): Plan
    requires inputs != []
    decreases |inputs|, 0
  {
    match Stop(inputs[0], sent, capMsg)
    case Some(msg) => Plan([], Some(msg))
    case None => LogPlan(inputs[1..], sent + |inputs[0].data|, capMsg)
  }

  /** The end message of the round that stops the copier. */
  function Stop(r: LogRead, sent: nat, capMsg: bytes): Option<bytes> {
    if r.data != [] && sent + |r.data| >= MAX_LOG_BYTES then Some(capMsg)
    else if r.err == NoErr then None
    else Some(if r.err.Other? then r.err.msg else [])
  }

  function ChunkBytes(data: bytes): bytes {
    if data == [] then [] else Frame(Marshal(OfLogsChunk(LogsChunk(data))))
  }

  function EndBytes(msg: bytes): bytes {
    SendEnd(OfLogsEnd(LogsEnd(msg)))
  }

  function ChunkMessages(chunks: seq<bytes>): (ms: seq<seq<Field>>) {
    if chunks == [] then [] else [OfLogsChunk(LogsChunk(chunks[0]))] + ChunkMessages(chunks[1..])
  }

  /** A plan on the stream: its chunks and, once stopped, the sentinel and the end message. */
  function PlanBytes(p: Plan): bytes {
    SendChunks(ChunkMessages(p.chunks)) + if p.end.Some? then EndBytes(p.end.value) else []
  }

  lemma LeadBytes(data: bytes, p: Plan)
    ensures PlanBytes(Lead(data, p)) == ChunkBytes(data) + PlanBytes(p)
  {
    hide Frame, Marshal, OfLogsChunk, EndBytes;
    if data == [] {
      assert [] + PlanBytes(p) == PlanBytes(p);
    } else {
      assert ([data] + p.chunks)[1..] == p.chunks;
      var ms := ChunkMessages([data] + p.chunks);
      assert ms[1..] == ChunkMessages(p.chunks);
      Regroup(ChunkBytes(data), SendChunks(ms[1..]), if p.end.Some? then EndBytes(p.end.value) else []);
    }
  }

  lemma SmallChunkFits(data: bytes)
    requires |data| <= LOGS_CHUNK_SIZE
    ensures Sendable(OfLogsChunk(LogsChunk(data)))
  {
    if data != [] {
      var f := Field(1, Blob(data));
      assert Marshal([f]) == MarshalField(f) + Marshal([f][1..]) == MarshalField(f);
      assert |Uvarint(10)| == 1 && |Uvarint(|data|)| <= 2;
    }
  }

  /**
   However far the copier has come, and wherever the stream breaks: the consumer
   receives the planned chunks that have come through whole, and the planned end
   exactly when all of the stopped copier's plan has.
   */
  lemma LogsDelivered(inputs: seq<LogRead>, capMsg: bytes, room: nat)
    requires forall r :: r in inputs ==> |r.data| <= LOGS_CHUNK_SIZE
    requires Sendable(EndOf(LogPlan(inputs, 0, capMsg)))
    ensures var p := LogPlan(inputs, 0, capMsg);
      var chunks, end, through := ChunkMessages(p.chunks), EndOf(p), Through(PlanBytes(p), room);
      RecvAll(LOGS, through) ==
        if p.end.Some? && room >= |PlanBytes(p)| then Transcript(Chunks(chunks) + [End(end)], Ended)
        else
          Transcript(
            Chunks(chunks)[..Whole(chunks, |through|)],
            if QuietCut(chunks, end, |through|) then AtEof else Failed)
    ensures var p := LogPlan(inputs, 0, capMsg);
      p.end.None? && room >= |PlanBytes(p)| ==>
        RecvAll(LOGS, Through(PlanBytes(p), room)) == Transcript(Chunks(ChunkMessages(p.chunks)), AtEof)
  {
    hide LogPlan, ChunkMessages, OfLogsEnd, Sendable, RecvAll, SendChunks, SendEnd, Chunks, QuietCut, Whole;
    var p := LogPlan(inputs, 0, capMsg);
    var chunks, end, through := ChunkMessages(p.chunks), EndOf(p), Through(PlanBytes(p), room);
    PlannedChunksAreReal(inputs, 0, capMsg);
    AllWhole(chunks, end);
    EndIsThere(end);
    if p.end.Some? && room >= |PlanBytes(p)| {
      RoundTrip(LOGS, chunks, end);
    } else {
      assert through < SendAll(chunks, end);
      PrefixIsSafe(LOGS, chunks, end, through);
    }
  }

  /** The end message of a plan; the empty one for a copier that has not stopped. */
  function EndOf(p: Plan): seq<Field> {
    OfLogsEnd(LogsEnd(if p.end.Some? then p.end.value else []))
  }

  lemma EndIsThere(end: seq<Field>)
    ensures SendEnd(end) != []
  {
  }

  lemma {:induction false} PlannedChunksAreReal(inputs: seq<LogRead>, sent: nat, capMsg: bytes)
    requires forall r :: r in inputs ==> |r.data| <= LOGS_CHUNK_SIZE
    ensures forall c :: c in ChunkMessages(LogPlan(inputs, sent, capMsg).chunks) ==> Sendable(c) && Real(LOGS, c)
  {
    if inputs != [] {
      var r := inputs[0];
      assert r in inputs;
      if Stop(r, sent, capMsg).None? {
        PlannedChunksAreReal(inputs[1..], sent + |r.data|, capMsg);
      }
      SmallChunkFits(r.data);
      LogsContract(LogsChunk(r.data), LogsEnd([]));
      var p := Afterwards(inputs, sent, capMsg);
      if r.data != [] {
        assert ([r.data] + p.chunks)[1..] == p.chunks;
      }
    }
  }

  function Flatten(chunks: seq<bytes>): bytes {
    if chunks == [] then [] else chunks[0] + Flatten(chunks[1..])
  }

  function LogOf(inputs: seq<LogRead>): bytes {
    if inputs == [] then [] else inputs[0].data + LogOf(inputs[1..])
  }

  lemma LeadFlattens(data: bytes, p: Plan)
    ensures Flatten(Lead(data, p).chunks) == data + Flatten(p.chunks)
  {
    if data != [] {
      assert ([data] + p.chunks)[1..] == p.chunks;
    }
  }

  /** The data of the rounds that have any, in order. */
  function Filled(inputs: seq<LogRead>): seq<bytes> {
    if inputs == [] then [] else (if inputs[0].data == [] then [] else [inputs[0].data]) + Filled(inputs[1..])
  }

  lemma {:induction false} FilledIsTheLog(inputs: seq<LogRead>)
    ensures Flatten(Filled(inputs)) == LogOf(inputs)
  {
    if inputs != [] {
      FilledIsTheLog(inputs[1..]);
      if inputs[0].data != [] {
        assert ([inputs[0].data] + Filled(inputs[1..]))[1..] == Filled(inputs[1..]);
      } else {
        assert [] + Filled(inputs[1..]) == Filled(inputs[1..]);
      }
    }
  }

  /** Data in this round, and with it the session cap is reached. */
  predicate CapAt(inputs: seq<LogRead>, sent: nat, k: nat)
    requires k < |inputs|
  {
    inputs[k].data != [] && sent + |LogOf(inputs[..k + 1])| >= MAX_LOG_BYTES
  }

  /** A round that ends the log: by the cap, or because the read came with an error. */
  predicate EndsAt(inputs: seq<LogRead>, sent: nat, k: nat)
    requires k < |inputs|
  {
    CapAt(inputs, sent, k) || inputs[k].err != NoErr
  }

  lemma EndsLater(inputs: seq<LogRead>, sent: nat, k: nat)
    requires 0 < k < |inputs|
    ensures CapAt(inputs, sent, k) == CapAt(inputs[1..], sent + |inputs[0].data|, k - 1)
    ensures EndsAt(inputs, sent, k) == EndsAt(inputs[1..], sent + |inputs[0].data|, k - 1)
  {
    assert inputs[..k + 1][1..] == inputs[1..][..k];
  }

  lemma OneRound(inputs: seq<LogRead>)
    requires inputs != []
    ensures LogOf(inputs[..1]) == inputs[0].data
    ensures Filled(inputs[..1]) == if inputs[0].data == [] then [] else [inputs[0].data]
  {
    assert inputs[..1][1..] == [];
  }

  /**
   The plan from the reads themselves: with k the first round that ends the log,
   every round with data up to and including k is forwarded, and the end says why;
   without such a round all are, and there is no end yet.
   */
  lemma {:induction false} PlanIsExact(inputs: seq<LogRead>, sent: nat, capMsg: bytes, k: nat)
    requires k <= |inputs| && (k < |inputs| ==> EndsAt(inputs, sent, k))
    requires forall i :: 0 <= i < k ==> !EndsAt(inputs, sent, i)
    ensures LogPlan(inputs, sent, capMsg) ==
      if k == |inputs| then Plan(Filled(inputs), None)
      else
        Plan(Filled(inputs[..k + 1]),
          Some(if CapAt(inputs, sent, k) then capMsg else if inputs[k].err.Other? then inputs[k].err.msg else []))
  {
    if inputs != [] {
      OneRound(inputs);
      if k == 0 {
      } else {
        assert !EndsAt(inputs, sent, 0);
        var rest, more := inputs[1..], sent + |inputs[0].data|;
        forall i | 0 <= i < k - 1
          ensures !EndsAt(rest, more, i)
        {
          EndsLater(inputs, sent, i + 1);
        }
        if k < |inputs| {
          EndsLater(inputs, sent, k);
          assert inputs[..k + 1][1..] == rest[..k];
        }
        PlanIsExact(rest, more, capMsg, k - 1);
      }
    }
  }

  /** So what is forwarded is all of the log up to that round, and all there is so far without one. */
  lemma ForwardedExactly(inputs: seq<LogRead>, sent: nat, capMsg: bytes, k: nat)
    requires k <= |inputs| && (k < |inputs| ==> EndsAt(inputs, sent, k))
    requires forall i :: 0 <= i < k ==> !EndsAt(inputs, sent, i)
    ensures Flatten(LogPlan(inputs, sent, capMsg).chunks) == LogOf(if k < |inputs| then inputs[..k + 1] else inputs)
    ensures LogPlan(inputs, sent, capMsg).end.Some? == (k < |inputs|)
  {
    PlanIsExact(inputs, sent, capMsg, k);
    FilledIsTheLog(if k < |inputs| then inputs[..k + 1] else inputs);
  }

  /** The forwarded bytes are a prefix of the pod's log, and less than one chunk over the cap. */
  lemma {:induction false} ForwardedIsAPrefix(inputs: seq<LogRead>, sent: nat, capMsg: bytes)
    requires forall r :: r in inputs ==> |r.data| <= LOGS_CHUNK_SIZE
    requires sent < MAX_LOG_BYTES
    ensures Flatten(LogPlan(inputs, sent, capMsg).chunks) <= LogOf(inputs)
    ensures sent + |Flatten(LogPlan(inputs, sent, capMsg).chunks)| < MAX_LOG_BYTES + LOGS_CHUNK_SIZE
  {
    if inputs != [] {
      var r := inputs[0];
      assert r in inputs;
      LeadFlattens(r.data, Afterwards(inputs, sent, capMsg));
      hide Lead;
      if Stop(r, sent, capMsg).None? {
        ForwardedIsAPrefix(inputs[1..], sent + |r.data|, capMsg);
      }
    }
  }

  /** What goes through of two frames, split between them. */
  lemma TwoFrames(before: bytes, a: bytes, b: bytes, room: nat)
    ensures before + Through(a + b, room) == before + Through(a, room) + Through(b, room - |Through(a, room)|)
    ensures |a| > room ==> before + Through(a + b, room) == before + Through(a, room)
  {
    ThroughSplits(a, b, room);
  }

  method WriteLogsEnd(stream: Stream, errMsg: bytes)
    requires Sendable(OfLogsEnd(LogsEnd(errMsg)))
    modifies stream`written, stream`room
    ensures stream.written == old(stream.written) + Through(EndBytes(errMsg), old(stream.room))
  {
    ZeroFrame();
    hide OfLogsEnd, Frame, Marshal, Through;
    var zero := OfLogsChunk(LogsChunk([]));
    assert zero == [];
    var end := Marshal(OfLogsEnd(LogsEnd(errMsg)));
    TwoFrames(stream.written, Frame([]), Frame(end), stream.room);
    var ok := stream.WriteMsg(Marshal(zero));
    if !ok {
      return;
    }
    ok := stream.WriteMsg(end);
  }

  method ForwardChunk(stream: Stream, data: bytes) returns (ok: bool)
    requires |data| <= LOGS_CHUNK_SIZE
    modifies stream`written, stream`room
    ensures ok == (|ChunkBytes(data)| <= old(stream.room))
    ensures stream.written == old(stream.written) + Through(ChunkBytes(data), old(stream.room))
    ensures stream.room == old(stream.room) - |Through(ChunkBytes(data), old(stream.room))|
  {
    ok := true;
    if |data| > 0 {
      SmallChunkFits(data);
      ok := stream.WriteMsg(Marshal(OfLogsChunk(LogsChunk(data))));
    } else {
      assert stream.written + [] == stream.written;
    }
  }

  /** What goes through of a round and everything after it, split behind the round's chunk. */
  lemma RoundAdvances(before: bytes, room: nat, inputs: seq<LogRead>, i: nat, sent: nat, capMsg: bytes)
    requires i < |inputs|
    ensures var chunk := Through(ChunkBytes(inputs[i].data), room);
      before + Through(PlanBytes(LogPlan(inputs[i..], sent, capMsg)), room) == before + chunk +
        match Stop(inputs[i], sent, capMsg)
        case Some(msg) => Through(EndBytes(msg), room - |chunk|)
        case None => Through(PlanBytes(LogPlan(inputs[i + 1..], sent + |inputs[i].data|, capMsg)), room - |chunk|)
  {
    hide PlanBytes, Lead, ChunkBytes, EndBytes, Stop, Through;
    var left, data := inputs[i..], inputs[i].data;
    assert left[0] == inputs[i] && left[1..] == inputs[i + 1..];
    var p := Afterwards(left, sent, capMsg);
    LeadBytes(data, p);
    EndOnly(Stop(inputs[i], sent, capMsg));
    ThroughSplits(ChunkBytes(data), PlanBytes(p), room);
    Regroup(before, Through(ChunkBytes(data), room), Through(PlanBytes(p), room - |Through(ChunkBytes(data), room)|));
  }

  lemma EndOnly(end: Option<bytes>)
    ensures end.Some? ==> PlanBytes(Plan([], end)) == EndBytes(end.value)
  {
    hide EndBytes;
    if end.Some? {
      assert [] + EndBytes(end.value) == EndBytes(end.value);
    }
  }

  lemma NothingLeft(now: bytes, room: nat, sent: nat, capMsg: bytes)
    ensures now + Through(PlanBytes(LogPlan([], sent, capMsg)), room) == now
  {
    assert now + [] == now;
  }

  lemma NothingThrough(now: bytes, bs: bytes)
    ensures now + Through(bs, 0) == now
  {
    assert now + [] == now;
  }

  /** Forwards the pod's log until an error, its end, the session cap, or a write that fails. */
  method CopyLogs(inputs: seq<LogRead>, capMsg: bytes, stream: Stream)
    requires forall r :: r in inputs ==>
      |r.data| <= LOGS_CHUNK_SIZE && (r.err.Other? ==> Sendable(OfLogsEnd(LogsEnd(r.err.msg))))
    requires Sendable(OfLogsEnd(LogsEnd(capMsg))) && Sendable(OfLogsEnd(LogsEnd([])))
    modifies stream`written, stream`room
    ensures stream.written == old(stream.written) + Through(PlanBytes(LogPlan(inputs, 0, capMsg)), old(stream.room))
  {
    hide ChunkBytes, PlanBytes, EndBytes, OfLogsEnd, Sendable, LogPlan, Through;
    var sent: nat, i := 0, 0;
    ghost var goal := stream.written + Through(PlanBytes(LogPlan(inputs, 0, capMsg)), stream.room);
    assert inputs[0..] == inputs;
    while i < |inputs|
      invariant 0 <= i <= |inputs|
      invariant stream.written + Through(PlanBytes(LogPlan(inputs[i..], sent, capMsg)), stream.room) == goal
    {
      var r := inputs[i];
      assert r in inputs;
      RoundAdvances(stream.written, stream.room, inputs, i, sent, capMsg);
      var ok := ForwardChunk(stream, r.data);
      if !ok {
        var stop := Stop(r, sent, capMsg);
        NothingThrough(stream.written,
          if stop.Some? then EndBytes(stop.value) else PlanBytes(LogPlan(inputs[i + 1..], sent + |r.data|, capMsg)));
        return;
      }
      if |r.data| > 0 && sent + |r.data| >= MAX_LOG_BYTES {
        WriteLogsEnd(stream, capMsg);
        return;
      }
      if r.err != NoErr {
        WriteLogsEnd(stream, if r.err.Other? then r.err.msg else []);
        return;
      }
      sent, i := sent + |r.data|, i + 1;
    }
    NothingLeft(stream.written, stream.room, sent, capMsg);
    assert inputs[i..] == [];
  }
}
