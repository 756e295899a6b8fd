/**
 Length-prefixed frames on one stream, and the sentinel convention that puts
 two message types on it: frames are read as the first type until a message
 that is zero in its discriminating fields, after which exactly one message of
 the second type follows.

 Whether gzip is on does not matter here: the bytes below are what went into
 one end's writer and comes out of the other end's reader, in order.
 */
module Framing {
  import opened Sequences
  import opened ProtoWire

  const MAX_MESSAGE: nat := 64 * 1024 * 1024

  function Frame(payload: seq<byte>): seq<byte> {
    Uvarint(|payload|) + payload
  }

  datatype RawRead =
    | Got(payload: seq<byte>, rest: seq<byte>)
    | CleanEof               // nothing left at a frame boundary
    | EofAfterLength         // the prefix is complete, but not one payload byte follows
    | Torn                   // the input ends elsewhere inside the frame
    | BadLength

  function ReadRaw(bs: seq<byte>): (r: RawRead)
    ensures r.Got? ==> |r.rest| < |bs|
  {
    match GetUvarint(bs, 0)
    case NoByte => CleanEof
    case Cut => Torn
    case Overflow => BadLength
    case Value(n, rest) =>
      if n > MAX_MESSAGE then BadLength
      else if n <= |rest| then Got(rest[..n], rest[n..])
      else if rest == [] then EofAfterLength
      else Torn
  }

  /** Callers test for io.EOF, and a wrapped io.EOF passes that test too. */
  predicate LooksLikeEof(r: RawRead) {
    r.CleanEof? || r.EofAfterLength?
  }

  lemma FrameReads(payload: seq<byte>, rest: seq<byte>)
    requires |payload| <= MAX_MESSAGE
    ensures ReadRaw(Frame(payload) + rest) == Got(payload, rest)
  {
    RoomIs64Bits();
    Regroup(Uvarint(|payload|), payload, rest);
    UvarintReads(|payload|, payload + rest, 0);
    assert (payload + rest)[..|payload|] == payload && (payload + rest)[|payload|..] == rest;
  }

  /** A length above the limit is refused before anything of the payload is read, and so is one above 64 bits. */
  lemma TooLongIsRefused(n: nat, rest: seq<byte>)
    requires n > MAX_MESSAGE
    ensures ReadRaw(Uvarint(n) + rest) == BadLength
  {
    RoomIs64Bits();
    if n < UINT64 {
      UvarintReads(n, rest, 0);
    } else {
      UvarintOverflows(n, rest, 0);
    }
  }

  /** A frame cut short is never read as a message. */
  lemma FrameCut(payload: seq<byte>, p: seq<byte>)
    requires |payload| <= MAX_MESSAGE && p < Frame(payload)
    ensures ReadRaw(p) ==
      if p == [] then CleanEof
      else if |p| == |Uvarint(|payload|)| then EofAfterLength
      else Torn
  {
    RoomIs64Bits();
    var prefix := Uvarint(|payload|);
    if |p| < |prefix| {
      assert p < prefix;
      UvarintCut(|payload|, p, 0);
    } else {
      var part := p[|prefix|..];
      assert p == prefix + part;
      UvarintReads(|payload|, part, 0);
    }
  }

  // ---- The sentinel convention ----

  /**
   The fields that tell a real message from the sentinel: which 32-bit numbers,
   which 64-bit numbers, which strings. Decoding truncates to the field's width.
   */
  datatype Discriminator = Discriminator(nums32: seq<nat>, nums64: seq<nat>, blobs: seq<nat>)

  predicate Real(d: Discriminator, fs: seq<Field>) {
    || (exists i :: 0 <= i < |d.nums32| && Low32(GetNum(fs, d.nums32[i])) != 0)
    || (exists i :: 0 <= i < |d.nums64| && GetNum(fs, d.nums64[i]) != 0)
    || (exists i :: 0 <= i < |d.blobs| && GetBlob(fs, d.blobs[i]) != [])
  }

  lemma ZeroIsNotReal(d: Discriminator)
    ensures !Real(d, [])
  {
  }

  datatype Item = Chunk(fields: seq<Field>) | End(fields: seq<Field>)

  datatype RecvResult =
    | Received(item: Item, rest: seq<byte>)
    | RecvEof
    | RecvError

  function Recv(d: Discriminator, bs: seq<byte>): (r: RecvResult)
    ensures r.Received? ==> |r.rest| < |bs|
  {
    var r := ReadRaw(bs);
    if LooksLikeEof(r) then RecvEof
    else if !r.Got? then RecvError
    else
      var m := Unmarshal(r.payload);
      if !m.ok then RecvError
      else if Real(d, m.fields) then Received(Chunk(m.fields), r.rest)
      else RecvEnd(r.rest)
  }

  function RecvEnd(bs: seq<byte>): (r: RecvResult)
    ensures r.Received? ==> |r.rest| < |bs| && r.item.End?
  {
    var r := ReadRaw(bs);
    if LooksLikeEof(r) then RecvEof
    else if !r.Got? then RecvError
    else
      var m := Unmarshal(r.payload);
      if !m.ok then RecvError else Received(End(m.fields), r.rest)
  }

  datatype Closing = Ended | AtEof | Failed

  datatype Transcript = Transcript(items: seq<Item>, closing: Closing)

  /** A consumer loop: receive until the end message, the end of input, or an error. */
  function RecvAll(d: Discriminator, bs: seq<byte>): Transcript
    decreases |bs|
  {
    match Recv(d, bs)
    case RecvEof => Transcript([], AtEof)
    case RecvError => Transcript([], Failed)
    case Received(End(fs), _) => Transcript([End(fs)], Ended)
    case Received(Chunk(fs), rest) =>
      var t := RecvAll(d, rest);
      Transcript([Chunk(fs)] + t.items, t.closing)
  }

  // ---- What the writer puts on the stream ----

  ghost predicate Sendable(fs: seq<Field>) {
    MessageOk(fs) && |Marshal(fs)| <= MAX_MESSAGE
  }

  function SendChunks(chunks: seq<seq<Field>>): seq<byte> {
    if chunks == [] then [] else Frame(Marshal(chunks[0])) + SendChunks(chunks[1..])
  }

  /** The zero message and then the end message. */
  function SendEnd(end: seq<Field>): seq<byte> {
    Frame(Marshal([])) + Frame(Marshal(end))
  }

  function SendAll(chunks: seq<seq<Field>>, end: seq<Field>): seq<byte> {
    SendChunks(chunks) + SendEnd(end)
  }

  function Chunks(chunks: seq<seq<Field>>): (items: seq<Item>)
    ensures |items| == |chunks|
  {
    if chunks == [] then [] else [Chunk(chunks[0])] + Chunks(chunks[1..])
  }

  lemma SendAllStep(chunks: seq<seq<Field>>, end: seq<Field>)
    requires chunks != []
    ensures SendAll(chunks, end) == Frame(Marshal(chunks[0])) + SendAll(chunks[1..], end)
  {
    Regroup(Frame(Marshal(chunks[0])), SendChunks(chunks[1..]), SendEnd(end));
  }

  lemma EndReads(d: Discriminator, end: seq<Field>)
    requires Sendable(end)
    ensures Recv(d, SendEnd(end)) == Received(End(end), [])
  {
    FrameReads([], Frame(Marshal(end)));
    FrameReads(Marshal(end), []);
    assert Frame(Marshal(end)) + [] == Frame(Marshal(end));
    MessageRoundTrip(end);
    assert Unmarshal([]) == Decoded([], true);
    ZeroIsNotReal(d);
  }

  lemma ChunkReads(d: Discriminator, chunk: seq<Field>, rest: seq<byte>)
    requires Sendable(chunk)
    ensures Real(d, chunk) ==> Recv(d, Frame(Marshal(chunk)) + rest) == Received(Chunk(chunk), rest)
    ensures !Real(d, chunk) ==> Recv(d, Frame(Marshal(chunk)) + rest) == RecvEnd(rest)
  {
    FrameReads(Marshal(chunk), rest);
    MessageRoundTrip(chunk);
  }

  /** A frame whose payload is no message is an error, in either place, and what follows is not looked at. */
  lemma GarbledIsAnError(d: Discriminator, payload: seq<byte>, rest: seq<byte>)
    requires |payload| <= MAX_MESSAGE && !Unmarshal(payload).ok
    ensures Recv(d, Frame(payload) + rest) == RecvError && RecvEnd(Frame(payload) + rest) == RecvError
    ensures RecvAll(d, Frame(payload) + rest) == Transcript([], Failed)
  {
    FrameReads(payload, rest);
  }

  /** A real chunk is read off the front, whatever follows it. */
  lemma LeadingChunk(d: Discriminator, chunk: seq<Field>, rest: seq<byte>)
    requires Sendable(chunk)
    ensures Real(d, chunk) ==>
      RecvAll(d, Frame(Marshal(chunk)) + rest)
        == Transcript([Chunk(chunk)] + RecvAll(d, rest).items, RecvAll(d, rest).closing)
    ensures !Real(d, chunk) ==> |RecvAll(d, Frame(Marshal(chunk)) + rest).items| <= 1
  {
    ChunkReads(d, chunk, rest);
  }

  /** Real chunks followed by an end arrive as exactly those chunks and that end. */
  lemma {:induction false} RoundTrip(d: Discriminator, chunks: seq<seq<Field>>, end: seq<Field>)
    requires (forall c :: c in chunks ==> Sendable(c) && Real(d, c)) && Sendable(end)
    ensures RecvAll(d, SendAll(chunks, end)) == Transcript(Chunks(chunks) + [End(end)], Ended)
  {
    hide Frame, Marshal, Real, SendEnd;
    if chunks == [] {
      assert SendAll(chunks, end) == SendEnd(end);
      EndReads(d, end);
    } else {
      SendAllStep(chunks, end);
      LeadingChunk(d, chunks[0], SendAll(chunks[1..], end));
      RoundTrip(d, chunks[1..], end);
      Regroup([Chunk(chunks[0])], Chunks(chunks[1..]), [End(end)]);
    }
  }

  /** A chunk that is not real ends the transcript early, so the contract is needed for every chunk. */
  lemma {:induction false} NotRealCutsShort(d: Discriminator, chunks: seq<seq<Field>>, end: seq<Field>, k: nat)
    requires forall c :: c in chunks ==> Sendable(c)
    requires k < |chunks| && !Real(d, chunks[k])
    ensures |RecvAll(d, SendAll(chunks, end)).items| <= k + 1
  {
    hide RecvAll;
    hide SendAll;
    hide Frame;
    hide Real;
    var rest := chunks[1..];
    SendAllStep(chunks, end);
    LeadingChunk(d, chunks[0], SendAll(rest, end));
    if k > 0 && Real(d, chunks[0]) {
      assert rest[k - 1] == chunks[k];
      NotRealCutsShort(d, rest, end, k - 1);
    }
  }

  lemma RoundTripIff(d: Discriminator, chunks: seq<seq<Field>>, end: seq<Field>)
    requires (forall c :: c in chunks ==> Sendable(c)) && Sendable(end)
    ensures (RecvAll(d, SendAll(chunks, end)) == Transcript(Chunks(chunks) + [End(end)], Ended))
         == (forall c :: c in chunks ==> Real(d, c))
  {
    if c :| c in chunks && !Real(d, c) {
      var k :| 0 <= k < |chunks| && chunks[k] == c;
      NotRealCutsShort(d, chunks, end, k);
    } else {
      RoundTrip(d, chunks, end);
    }
  }

  // ---- A stream that stops anywhere ----

  /** Stopping after n bytes of these frames looks like an end of input rather than an error. */
  ghost predicate QuietCut(chunks: seq<seq<Field>>, end: seq<Field>, n: nat)
    decreases |chunks|
  {
    if chunks == [] then QuietEndCut(end, n)
    else
      var payload := Marshal(chunks[0]);
      var size := |Frame(payload)|;
      if n < size then n == 0 || n == |Uvarint(|payload|)|
      else QuietCut(chunks[1..], end, n - size)
  }

  /** Before the sentinel, between sentinel and end message, or right after the end message's length. */
  ghost predicate QuietEndCut(end: seq<Field>, n: nat) {
    n == 0 || n == 1 || n == 1 + |Uvarint(|Marshal(end)|)|
  }

  /** How many of the chunks are complete in the first n bytes. */
  ghost function Whole(chunks: seq<seq<Field>>, n: nat): (k: nat)
    ensures k <= |chunks|
    decreases |chunks|
  {
    if chunks == [] then 0
    else
      var size := |Frame(Marshal(chunks[0]))|;
      if n < size then 0 else 1 + Whole(chunks[1..], n - size)
  }

  lemma EndCut(d: Discriminator, end: seq<Field>, p: seq<byte>)
    requires Sendable(end) && p < SendEnd(end)
    ensures RecvAll(d, p) == Transcript([], if QuietEndCut(end, |p|) then AtEof else Failed)
  {
    ZeroFrame();
    ZeroIsNotReal(d);
    hide Frame, Marshal, Real, Uvarint;
    if p == [] {
    } else {
      var part := p[1..];
      assert p == Frame([]) + part && part < Frame(Marshal(end));
      FrameReads([], part);
      FrameCut(Marshal(end), part);
    }
  }

  lemma ZeroFrame()
    ensures Marshal([]) == [] && Frame([]) == [0]
  {
  }

  lemma ChunkCut(d: Discriminator, chunk: seq<Field>, p: seq<byte>)
    requires Sendable(chunk) && p < Frame(Marshal(chunk))
    ensures RecvAll(d, p) ==
      Transcript([], if p == [] || |p| == |Uvarint(|Marshal(chunk)|)| then AtEof else Failed)
  {
    FrameCut(Marshal(chunk), p);
  }

  /** A proper prefix stops inside the first part or continues with a proper prefix of the second. */
  lemma SplitPrefix(a: seq<byte>, b: seq<byte>, p: seq<byte>)
    requires p < a + b
    ensures |p| < |a| ==> p < a
    ensures |p| >= |a| ==> p == a + p[|a|..] && p[|a|..] < b
  {
  }

  lemma NoneCut(end: seq<Field>, n: nat)
    ensures Chunks([])[..Whole([], n)] == [] && QuietCut([], end, n) == QuietEndCut(end, n)
  {
  }

  /** The chunks that are complete, and whether the cut is quiet, from the first chunk and the rest. */
  lemma CutStep(chunks: seq<seq<Field>>, end: seq<Field>, n: nat)
    requires chunks != []
    ensures var payload, rest := Marshal(chunks[0]), chunks[1..];
      var size := |Frame(payload)|;
      if n < size then
        Chunks(chunks)[..Whole(chunks, n)] == [] && QuietCut(chunks, end, n) == (n == 0 || n == |Uvarint(|payload|)|)
      else
        && Chunks(chunks)[..Whole(chunks, n)] == [Chunk(chunks[0])] + Chunks(rest)[..Whole(rest, n - size)]
        && QuietCut(chunks, end, n) == QuietCut(rest, end, n - size)
  {
    hide Frame, Marshal, Uvarint;
  }

  /**
   Any proper prefix of the stream yields the chunks that are complete in it and
   never an end message; the consumer sees an end of input exactly for the quiet cuts.
   */
  lemma {:induction false} PrefixIsSafe(d: Discriminator, chunks: seq<seq<Field>>, end: seq<Field>, p: seq<byte>)
    requires (forall c :: c in chunks ==> Sendable(c) && Real(d, c)) && Sendable(end)
    requires p < SendAll(chunks, end)
    ensures RecvAll(d, p).items == Chunks(chunks)[..Whole(chunks, |p|)]
    ensures RecvAll(d, p).closing == if QuietCut(chunks, end, |p|) then AtEof else Failed
  {
    hide Frame, Marshal, Real, Uvarint, SendEnd, RecvAll, Whole, QuietCut, Chunks;
    if chunks == [] {
      assert SendAll(chunks, end) == SendEnd(end);
      EndCut(d, end, p);
      NoneCut(end, |p|);
    } else {
      var frame, rest := Frame(Marshal(chunks[0])), SendAll(chunks[1..], end);
      SendAllStep(chunks, end);
      SplitPrefix(frame, rest, p);
      CutStep(chunks, end, |p|);
      if |p| < |frame| {
        ChunkCut(d, chunks[0], p);
      } else {
        LeadingChunk(d, chunks[0], p[|frame|..]);
        PrefixIsSafe(d, chunks[1..], end, p[|frame|..]);
      }
    }
  }

  /** All chunks and nothing after them: every chunk is there, and what follows looks like the end of input. */
  lemma {:induction false} AllWhole(chunks: seq<seq<Field>>, end: seq<Field>)
    ensures Whole(chunks, |SendChunks(chunks)|) == |chunks| && QuietCut(chunks, end, |SendChunks(chunks)|)
  {
    if chunks != [] {
      hide Frame, Marshal;
      AllWhole(chunks[1..], end);
    }
  }
}
