/**
 The codec with its compressor: what has been handed to the writer, what the
 compressor still holds, and what is on the stream. Compression itself is
 taken to keep the bytes and their order; its header and trailer are units of
 their own.
 */
module GzipCodec {
  import opened ProtoWire
  import opened Framing
  import opened Sequences

  type bytes = seq<byte>

  datatype Unit = Byte(b: byte) | Header | Trailer

  function Units(bs: bytes): (us: seq<Unit>)
    ensures |us| == |bs| && forall i :: 0 <= i < |bs| ==> us[i] == Byte(bs[i])
  {
    seq(|bs|, i requires 0 <= i < |bs| => Byte(bs[i]))
  }

  lemma UnitsConcat(a: bytes, b: bytes)
    ensures Units(a + b) == Units(a) + Units(b)
  {
  }

  datatype Sending =
    | Plain
    | Compressing
    | Closed          // the compressor is finished and let go

  datatype Receiving =
    | Raw
    | Pending         // the decompressor is set up by the first read
    | Decompressing
    | Broken          // its set-up failed, and no further one is pending

  datatype SetUp = Ready | Failed | Waiting

  /** What the decompressor reads of anything before it can tell that it is no header. */
  const HEADER_SIZE: nat := 10

  class Codec {
    var wire: seq<Unit>       // put on the stream by this end
    var held: bytes           // inside the compressor
    var sending: Sending
    var incoming: seq<Unit>   // arrived and not read
    var ended: bool           // nothing more will arrive
    var receiving: Receiving
    ghost var once: bool      // no second compressor was started
    ghost var prior: seq<Unit> // on the stream before the present compressor
    ghost var before: bytes   // let through before the present compressor
    ghost var emitted: bytes  // let out by it

    /** Everything handed to the writer and not lost, in order. */
    ghost function Handed(): bytes
      reads this
    {
      before + emitted + held
    }

    ghost predicate Valid()
      reads this
    {
      && (once ==> prior == Units(before))
      && match sending
         case Plain => once && held == [] && emitted == [] && receiving.Raw? && wire == prior
         case Compressing => !receiving.Raw? && wire == prior + [Header] + Units(emitted)
         case Closed => !receiving.Raw? && held == [] && wire == prior + [Header] + Units(emitted) + [Trailer]
    }

    constructor (incoming: seq<Unit>, ended: bool)
      ensures Valid() && Handed() == [] && wire == [] && once && sending.Plain?
      ensures this.incoming == incoming && this.ended == ended
    {
      wire, held, sending, receiving := [], [], Plain, Raw;
      this.incoming, this.ended := incoming, ended;
      once, prior, before, emitted := true, [], [], [];
    }

    /**
     The header goes out at once; the own decompressor waits for the first read.
     Calling it again does nothing, unless the decompressor has failed in
     between: then a second compressor starts in the middle of the first one's
     stream and what that one still held is lost.
     */
    method EnableGzip()
      requires Valid()
      modifies this`wire, this`held, this`sending, this`receiving, this`once, this`prior, this`before, this`emitted
      ensures Valid()
      ensures if old(receiving).Raw? || old(receiving).Broken? then
          && wire == old(wire) + [Header] && sending.Compressing? && receiving.Pending?
          && held == [] && Handed() + old(held) == old(Handed()) && once == old(receiving).Raw?
        else
          && wire == old(wire) && sending == old(sending) && receiving == old(receiving)
          && held == old(held) && Handed() == old(Handed()) && once == old(once)
    {
      if !receiving.Raw? && !receiving.Broken? {
        return;
      }
      once := receiving.Raw?;
      prior, before, emitted := wire, before + emitted, [];
      wire, held := wire + [Header], [];
      assert wire == prior + [Header] + Units([]);
      sending, receiving := Compressing, Pending;
    }

    /** The compressor keeps some of what it is given, at most what it likes. */
    method Write(p: bytes, keep: nat) returns (ok: bool)
      requires Valid()
      modifies this`wire, this`held, this`prior, this`before, this`emitted
      ensures Valid() && ok == !sending.Closed?
      ensures Handed() == old(Handed()) + if ok then p else []
      ensures !sending.Compressing? ==> held == []
    {
      if sending.Closed? {
        assert Handed() + [] == Handed();
        return false;
      }
      ok := true;
      if sending.Plain? {
        UnitsConcat(before, p);
        wire := wire + Units(p);
        prior, before := wire, before + p;
        assert before + emitted + held == before;
        return;
      }
      ghost var handed := Handed();
      held := held + p;
      assert Handed() == handed + p;
      var n := if keep < |held| then |held| - keep else 0;
      Emit(n);
    }

    /** Lets the first n held bytes out. */
    method Emit(n: nat)
      requires Valid() && sending.Compressing? && n <= |held|
      modifies this`wire, this`held, this`emitted
      ensures Valid() && Handed() == old(Handed()) && held == old(held)[n..]
    {
      var out := held[..n];
      UnitsConcat(emitted, out);
      assert wire + Units(out) == prior + [Header] + (Units(emitted) + Units(out));
      assert before + emitted + held == before + (emitted + out) + held[n..];
      wire, held := wire + Units(out), held[n..];
      emitted := emitted + out;
    }

    /** Nothing stays behind. */
    method Flush()
      requires Valid()
      modifies this`wire, this`held, this`emitted
      ensures Valid() && Handed() == old(Handed()) && held == []
    {
      if sending.Compressing? {
        Emit(|held|);
      }
    }

    /** Flushes and ends the compressed stream; closing twice is closing once. */
    method Close()
      requires Valid()
      modifies this`wire, this`held, this`emitted, this`sending
      ensures Valid() && Handed() == old(Handed()) && held == []
      ensures if old(sending).Compressing? then sending.Closed? else sending == old(sending) && wire == old(wire)
    {
      if sending.Compressing? {
        Emit(|held|);
        wire := wire + [Trailer];
        sending := Closed;
      }
    }

    /** A message is on the stream in full when the call returns, whatever the compressor would have kept. */
    method WriteMsg(payload: bytes, keep: nat) returns (ok: bool)
      requires Valid()
      modifies this`wire, this`held, this`prior, this`before, this`emitted
      ensures Valid() && ok == (|payload| <= MAX_MESSAGE && !sending.Closed?)
      ensures Handed() == old(Handed()) + if ok then Frame(payload) else []
      ensures ok ==> held == []
    {
      ghost var handed := Handed();
      assert handed + [] == handed;
      if |payload| > MAX_MESSAGE {
        return false;
      }
      ok := Write(Uvarint(|payload|), keep);
      if !ok {
        return;
      }
      ok := Write(payload, keep);
      Regroup(handed, Uvarint(|payload|), payload);
      Flush();
    }

    /**
     Runs before every read; only the first one after `EnableGzip` does
     anything. It waits until a header's worth has arrived or the peer has closed,
     and what it has looked at is gone even when it was no header.
     */
    method LazyInitReader() returns (r: SetUp)
      requires Valid()
      modifies this`incoming, this`receiving
      ensures Valid()
      ensures if !old(receiving).Pending? then r.Ready? && incoming == old(incoming) && receiving == old(receiving)
        else if old(incoming) != [] && old(incoming)[0] == Header then
          r.Ready? && incoming == old(incoming)[1..] && receiving.Decompressing?
        else if |old(incoming)| < HEADER_SIZE && !ended then
          r.Waiting? && incoming == old(incoming) && receiving == old(receiving)
        else
          && r.Failed? && receiving.Broken?
          && incoming == if |old(incoming)| < HEADER_SIZE then [] else old(incoming)[HEADER_SIZE..]
    {
      if !receiving.Pending? {
        return Ready;
      }
      if |incoming| > 0 && incoming[0] == Header {
        incoming, receiving := incoming[1..], Decompressing;
        return Ready;
      }
      if |incoming| < HEADER_SIZE && !ended {
        return Waiting;
      }
      incoming, receiving := if |incoming| < HEADER_SIZE then [] else incoming[HEADER_SIZE..], Broken;
      r := SetUp.Failed;
    }
  }

  /** The bytes a reader gets from here on, up to the trailer. */
  function Readable(us: seq<Unit>): bytes {
    if us == [] || !us[0].Byte? then [] else [us[0].b] + Readable(us[1..])
  }

  lemma {:induction false} ReadableUnits(bs: bytes, rest: seq<Unit>)
    requires rest == [] || !rest[0].Byte?
    ensures Readable(Units(bs) + rest) == bs
  {
    if bs == [] {
      assert Units(bs) + rest == rest;
    } else {
      ReadableUnits(bs[1..], rest);
      assert (Units(bs) + rest)[1..] == Units(bs[1..]) + rest;
    }
  }

  /** What this end puts on its stream, in two halves around the header of its only compressor. */
  lemma OneHeader(c: Codec)
    requires c.Valid() && c.once && !c.sending.Plain?
    ensures var rest := if c.sending.Closed? then [Trailer] else [];
      c.wire == Units(c.before) + ([Header] + (Units(c.emitted) + rest))
  {
  }

  /**
   A peer that has read what came before compression finds the header next, so
   its set-up succeeds, and then reads all that was handed over and is not held.
   */
  lemma PeerReads(c: Codec)
    requires c.Valid() && c.once && !c.sending.Plain?
    ensures |c.wire| > |c.before| && c.wire[|c.before|] == Header
    ensures Readable(c.wire) == c.before
    ensures c.before + Readable(c.wire[|c.before| + 1..]) + c.held == c.Handed()
  {
    var rest := if c.sending.Closed? then [Trailer] else [];
    OneHeader(c);
    ReadableUnits(c.emitted, rest);
    ReadableUnits(c.before, [Header] + (Units(c.emitted) + rest));
    assert c.wire[|c.before| + 1..] == Units(c.emitted) + rest;
  }

  /** After a second compressor has started, a peer gets nothing past what stood on the stream before it. */
  lemma SecondHeaderStops(c: Codec)
    requires c.Valid() && !c.sending.Plain?
    ensures |c.wire| > |c.prior| && c.wire[|c.prior|] == Header
    ensures forall i :: 0 <= i <= |c.prior| ==> |Readable(c.wire[i..])| <= |c.prior| - i
  {
    assert c.wire[|c.prior|] == Header;
    forall i | 0 <= i <= |c.prior|
      ensures |Readable(c.wire[i..])| <= |c.prior| - i
    {
      ReadableStops(c.wire[i..], |c.prior| - i);
    }
  }

  lemma {:induction false} ReadableStops(us: seq<Unit>, k: nat)
    requires k < |us| && !us[k].Byte?
    ensures |Readable(us)| <= k
  {
    if k > 0 && us[0].Byte? {
      ReadableStops(us[1..], k - 1);
    }
  }
}
