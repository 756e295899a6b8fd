/**
 The input half of a pod exec session: keystrokes and terminal resizes share a
 stream with nothing on the wire to tell them apart, and the worker tries both
 message types on every frame.
 */
module ExecInput {
  import opened Wrappers
  import opened ProtoWire
  import opened Framing
  import opened SessionStreams
  import opened Sequences

  type uint16 = x: int | 0 <= x < 0x1_0000

  // ---- What the server sends ----

  datatype Input = Stdin(data: bytes) | Resize(cols: uint32, rows: uint32)

  function OfInput(i: Input): seq<Field> {
    match i
    case Stdin(data) => BlobField(1, data)
    case Resize(cols, rows) => NumField(1, cols) + NumField(2, rows)
  }

  function InputBytes(inputs: seq<Input>): bytes {
    if inputs == [] then [] else Frame(Marshal(OfInput(inputs[0]))) + InputBytes(inputs[1..])
  }

  // ---- What the worker makes of it ----

  datatype Size = Size(width: uint16, height: uint16)

  datatype Delivery = Keys(data: bytes) | Resized(size: Size)

  function Narrow(n: nat): uint16 {
    n % 0x1_0000
  }

  /** Decoding errors are ignored: whatever fields were read before them count. */
  function Classify(payload: bytes): Option<Delivery> {
    var fs := Unmarshal(payload).fields;
    var data := GetBlob(fs, 1);
    var cols, rows := Low32(GetNum(fs, 1)), Low32(GetNum(fs, 2));
    if |data| > 0 then Some(Keys(data))
    else if cols > 0 && rows > 0 then Some(Resized(Size(Narrow(cols), Narrow(rows))))
    else None
  }

  datatype Stopped = ReadFailed(why: RawRead) | Unrecognised | PipeClosed

  datatype Session = Session(events: seq<Delivery>, stop: Stopped)

  /** The pump, when the executor takes `accepts` more writes of keystrokes before it closes its pipe. */
  function Pump(bs: bytes, accepts: nat): Session
    decreases |bs|
  {
    var r := ReadRaw(bs);
    if !r.Got? then Session([], ReadFailed(r))
    else
      match Classify(r.payload)
      case None => Session([], Unrecognised)
      case Some(Keys(data)) =>
        if accepts == 0 then Session([], PipeClosed)
        else Prepend(Keys(data), Pump(r.rest, accepts - 1))
      case Some(size) => Prepend(size, Pump(r.rest, accepts))
  }

  function Prepend(e: Delivery, s: Session): Session {
    Session([e] + s.events, s.stop)
  }

  // ---- Telling the two apart ----

  predicate Recognised(i: Input) {
    match i
    case Stdin(data) => data != []
    case Resize(cols, rows) => cols > 0 && rows > 0
  }

  function Expected(i: Input): Delivery {
    match i
    case Stdin(data) => Keys(data)
    case Resize(cols, rows) => Resized(Size(Narrow(cols), Narrow(rows)))
  }

  ghost predicate Fits(i: Input) {
    i.Stdin? ==> |Marshal(OfInput(i))| <= MAX_MESSAGE && |i.data| < UINT64
  }

  lemma InputSendable(i: Input)
    requires Fits(i)
    ensures Sendable(OfInput(i))
  {
    if i.Resize? {
      NumbersAreShort(OfInput(i));
    }
  }

  lemma {:induction false} UvarintIsShort(n: nat, i: nat)
    requires i <= 9 && n < Room(i)
    ensures |Uvarint(n)| <= 10 - i
    decreases 9 - i
  {
    if n >= 128 {
      UvarintIsShort(n / 128, i + 1);
    }
  }

  lemma {:induction false} NumbersAreShort(fs: seq<Field>)
    requires forall i :: 0 <= i < |fs| ==> fs[i].number <= 2 && fs[i].value.Num? && fs[i].value.n < UINT64
    ensures |Marshal(fs)| <= 11 * |fs|
  {
    if fs != [] {
      RoomIs64Bits();
      UvarintIsShort(fs[0].value.n, 0);
      assert |Uvarint(8 * fs[0].number)| == 1;
      hide Uvarint;
      NumbersAreShort(fs[1..]);
    }
  }

  /** Nothing but the field's type tells keystrokes from columns: both are field 1. */
  lemma InputOnTheWire(data: bytes, cols: uint32, rows: uint32)
    ensures Marshal(OfInput(Stdin(data))) == BlobBytes(10, data)
    ensures Marshal(OfInput(Resize(cols, rows))) == NumBytes(8, cols) + NumBytes(16, rows)
  {
    OneOnTheWire(1, cols, data);
    OneOnTheWire(2, rows, []);
    MarshalJoins(NumField(1, cols), NumField(2, rows));
    hide Marshal, NumField, BlobField, NumBytes, BlobBytes;
  }

  /** Each message is taken for what it is, and only its zero forms are taken for neither. */
  lemma ClassifiesAsSent(i: Input)
    requires Fits(i)
    ensures Classify(Marshal(OfInput(i))) == if Recognised(i) then Some(Expected(i)) else None
  {
    InputSendable(i);
    MessageRoundTrip(OfInput(i));
    match i {
      case Stdin(data) =>
        SingleField(1, 0, data);
      case Resize(cols, rows) =>
        var a, b := NumField(1, cols), NumField(2, rows);
        SingleField(1, cols, []);
        SingleField(2, rows, []);
        GetPast(a, b, 1);
        GetOver(a, b, 2);
    }
  }

  /** The size arrives as sent exactly when both dimensions fit in 16 bits. */
  lemma SizeSurvivesIff(cols: uint32, rows: uint32)
    ensures (Expected(Resize(cols, rows)).size.width == cols && Expected(Resize(cols, rows)).size.height == rows)
         == (cols < 0x1_0000 && rows < 0x1_0000)
  {
  }

  function ExpectedAll(inputs: seq<Input>): seq<Delivery> {
    if inputs == [] then [] else [Expected(inputs[0])] + ExpectedAll(inputs[1..])
  }

  function Keystrokes(inputs: seq<Input>): nat {
    if inputs == [] then 0 else (if inputs[0].Stdin? then 1 else 0) + Keystrokes(inputs[1..])
  }

  /** The longest recognised beginning with no more keystroke messages than the executor takes. */
  function Leading(inputs: seq<Input>, accepts: nat): (n: nat)
    ensures n <= |inputs|
  {
    if inputs == [] || !Recognised(inputs[0]) then 0
    else if inputs[0].Resize? then 1 + Leading(inputs[1..], accepts)
    else if accepts == 0 then 0
    else 1 + Leading(inputs[1..], accepts - 1)
  }

  /** Why it ends there. */
  lemma {:induction false} LeadingEnds(inputs: seq<Input>, accepts: nat)
    ensures var n := Leading(inputs, accepts);
      && (forall i :: 0 <= i < n ==> Recognised(inputs[i])) && Keystrokes(inputs[..n]) <= accepts
      && (n < |inputs| && Recognised(inputs[n]) ==> inputs[n].Stdin? && Keystrokes(inputs[..n]) == accepts)
  {
    hide Recognised;
    if inputs != [] && Recognised(inputs[0]) && (inputs[0].Resize? || accepts > 0) {
      var left := if inputs[0].Stdin? then accepts - 1 else accepts;
      LeadingEnds(inputs[1..], left);
      var n := Leading(inputs, accepts);
      assert inputs[..n][1..] == inputs[1..][..n - 1];
    }
  }

  lemma PumpStep(i: Input, rest: bytes, accepts: nat)
    requires Fits(i)
    ensures Pump(Frame(Marshal(OfInput(i))) + rest, accepts) ==
      if !Recognised(i) then Session([], Unrecognised)
      else if i.Resize? then Prepend(Expected(i), Pump(rest, accepts))
      else if accepts == 0 then Session([], PipeClosed)
      else Prepend(Expected(i), Pump(rest, accepts - 1))
  {
    InputSendable(i);
    FrameReads(Marshal(OfInput(i)), rest);
    ClassifiesAsSent(i);
    hide Frame, Classify, Marshal, OfInput, ReadRaw;
  }

  /**
   Every interleaving is delivered as the same sequence up to the first message
   that is neither, or the first keystroke that the executor does not take any
   more; without one, the pump goes on to whatever follows.
   */
  lemma {:induction false} DeliversAsSent(inputs: seq<Input>, accepts: nat)
    requires forall i :: i in inputs ==> Fits(i)
    ensures var n := Leading(inputs, accepts);
      Pump(InputBytes(inputs), accepts) ==
        Session(ExpectedAll(inputs[..n]),
          if n == |inputs| then ReadFailed(CleanEof) else if Recognised(inputs[n]) then PipeClosed else Unrecognised)
  {
    if inputs != [] {
      PumpStep(inputs[0], InputBytes(inputs[1..]), accepts);
      hide Pump, OfInput, Frame, Marshal, Expected, Recognised;
      if Recognised(inputs[0]) && (inputs[0].Resize? || accepts > 0) {
        var left := if inputs[0].Stdin? then accepts - 1 else accepts;
        var m := Leading(inputs[1..], left);
        DeliversAsSent(inputs[1..], left);
        if m < |inputs| - 1 {
          OneMoreExpected(inputs, m);
        } else {
          assert inputs[..m + 1] == inputs && inputs[1..][..m] == inputs[1..];
        }
      }
    }
  }

  lemma OneMoreExpected(inputs: seq<Input>, m: nat)
    requires inputs != [] && m < |inputs|
    ensures ExpectedAll(inputs[..m + 1]) == [Expected(inputs[0])] + ExpectedAll(inputs[1..][..m])
  {
    var head := inputs[..m + 1];
    assert head[0] == inputs[0] && head[1..] == inputs[1..][..m];
  }

  lemma DeliversAllIff(inputs: seq<Input>, accepts: nat)
    requires forall i :: i in inputs ==> Fits(i)
    ensures (Pump(InputBytes(inputs), accepts) == Session(ExpectedAll(inputs), ReadFailed(CleanEof)))
         == ((forall i :: i in inputs ==> Recognised(i)) && Keystrokes(inputs) <= accepts)
  {
    DeliversAsSent(inputs, accepts);
    LeadingEnds(inputs, accepts);
    var n := Leading(inputs, accepts);
    hide Pump, InputBytes, Recognised, Leading, ExpectedAll, Keystrokes;
    assert inputs[..|inputs|] == inputs;
    if n < |inputs| {
      assert inputs[n] in inputs;
      MoreKeystrokes(inputs, n);
    }
  }

  lemma {:induction false} MoreKeystrokes(inputs: seq<Input>, n: nat)
    requires n < |inputs|
    ensures Keystrokes(inputs) >= Keystrokes(inputs[..n]) + if inputs[n].Stdin? then 1 else 0
  {
    if n > 0 {
      MoreKeystrokes(inputs[1..], n - 1);
      assert inputs[..n][1..] == inputs[1..][..n - 1];
    }
  }

  /** Stopped anywhere, the stream delivers a prefix and then a failed read, unless the executor is done before. */
  lemma {:induction false} CutIsSafe(inputs: seq<Input>, p: bytes, accepts: nat)
    requires forall i :: i in inputs ==> Fits(i) && Recognised(i)
    requires p < InputBytes(inputs)
    ensures Pump(p, accepts).events <= ExpectedAll(inputs)
    ensures Pump(p, accepts).stop.ReadFailed? || Pump(p, accepts).stop.PipeClosed?
    ensures Keystrokes(inputs) <= accepts ==> Pump(p, accepts).stop.ReadFailed?
  {
    var frame, rest := Frame(Marshal(OfInput(inputs[0]))), InputBytes(inputs[1..]);
    assert InputBytes(inputs) == frame + rest;
    SplitPrefix(frame, rest, p);
    InputSendable(inputs[0]);
    if |p| < |frame| {
      FrameCut(Marshal(OfInput(inputs[0])), p);
    } else {
      PumpStep(inputs[0], p[|frame|..], accepts);
      hide Pump, Frame, Marshal, OfInput;
      if inputs[0].Resize? || accepts > 0 {
        CutIsSafe(inputs[1..], p[|frame|..], if inputs[0].Stdin? then accepts - 1 else accepts);
      }
    }
  }

  // ---- Keystrokes go through a pipe, sizes through a queue that drops when full ----

  const QUEUE: nat := 4

  datatype Terminal = Terminal(keys: bytes, taken: seq<Size>, queue: seq<Size>)

  /** The executor takes up to n waiting sizes. */
  function Take(t: Terminal, n: nat): Terminal {
    var k := if n < |t.queue| then n else |t.queue|;
    Terminal(t.keys, t.taken + t.queue[..k], t.queue[k..])
  }

  function Apply(t: Terminal, e: Delivery): Terminal {
    match e
    case Keys(data) => t.(keys := t.keys + data)
    case Resized(size) => if |t.queue| < QUEUE then t.(queue := t.queue + [size]) else t
  }

  /** Before the i-th delivery the executor has taken pace(i) sizes. */
  function Play(t: Terminal, events: seq<Delivery>, pace: nat -> nat): Terminal {
    if events == [] then t
    else
      var n := |events| - 1;
      Apply(Take(Play(t, events[..n], pace), pace(n)), events[n])
  }

  function KeysOf(events: seq<Delivery>): bytes {
    if events == [] then []
    else
      var last := events[|events| - 1];
      KeysOf(events[..|events| - 1]) + if last.Keys? then last.data else []
  }

  function SizesOf(events: seq<Delivery>): seq<Size> {
    if events == [] then []
    else
      var last := events[|events| - 1];
      SizesOf(events[..|events| - 1]) + if last.Resized? then [last.size] else []
  }

  /** a is b with some elements left out. */
  ghost predicate Thinned<T>(a: seq<T>, b: seq<T>) {
    if a == [] then true
    else if b == [] then false
    else
      var x, y := |a| - 1, |b| - 1;
      Thinned(a, b[..y]) || (a[x] == b[y] && Thinned(a[..x], b[..y]))
  }

  /** From t to u the sizes that came in are some of these, in order. */
  ghost predicate Admitted(t: Terminal, u: Terminal, sizes: seq<Size>) {
    exists got :: u.taken + u.queue == t.taken + t.queue + got && Thinned(got, sizes)
  }

  /** No keystroke is lost; sizes keep their order; the queue is bounded whatever the executor's pace. */
  lemma {:induction false} PlayKeepsKeys(t: Terminal, events: seq<Delivery>, pace: nat -> nat)
    requires |t.queue| <= QUEUE
    ensures var u := Play(t, events, pace);
      u.keys == t.keys + KeysOf(events) && |u.queue| <= QUEUE && Admitted(t, u, SizesOf(events))
  {
    if events == [] {
      assert t.taken + t.queue + [] == t.taken + t.queue && Thinned<Size>([], []);
      assert t.keys + [] == t.keys;
    } else {
      var n := |events| - 1;
      PlayKeepsKeys(t, events[..n], pace);
      var u := Play(t, events[..n], pace);
      TakeMoves(u, pace(n));
      ApplyKeepsKeys(t, Take(u, pace(n)), events);
      ApplyAdmits(t, Take(u, pace(n)), events);
      hide Take, Apply, Admitted, KeysOf, SizesOf;
    }
  }

  lemma TakeMoves(t: Terminal, n: nat)
    ensures var u := Take(t, n);
      u.taken + u.queue == t.taken + t.queue && u.keys == t.keys && |u.queue| <= |t.queue|
    ensures n == 0 ==> Take(t, n) == t
    ensures n > 0 && t.queue != [] ==> |Take(t, n).queue| < |t.queue|
  {
  }

  lemma ApplyKeepsKeys(t: Terminal, v: Terminal, events: seq<Delivery>)
    requires events != [] && v.keys == t.keys + KeysOf(events[..|events| - 1])
    ensures Apply(v, events[|events| - 1]).keys == t.keys + KeysOf(events)
  {
    var e := events[|events| - 1];
    var before := KeysOf(events[..|events| - 1]);
    if e.Keys? {
      Regroup(t.keys, before, e.data);
    } else {
      assert before + [] == before;
    }
  }

  lemma ApplyAdmits(t: Terminal, v: Terminal, events: seq<Delivery>)
    requires events != [] && |v.queue| <= QUEUE
    requires Admitted(t, v, SizesOf(events[..|events| - 1]))
    ensures var w := Apply(v, events[|events| - 1]);
      |w.queue| <= QUEUE && Admitted(t, w, SizesOf(events))
  {
    var e := events[|events| - 1];
    var before := SizesOf(events[..|events| - 1]);
    var got :| v.taken + v.queue == t.taken + t.queue + got && Thinned(got, before);
    if e.Resized? {
      Thins(got, before, e.size);
      hide Thinned, SizesOf;
      assert SizesOf(events) == before + [e.size] by {
        SizesStep(events);
      }
      if |v.queue| < QUEUE {
        Regroup(v.taken, v.queue, [e.size]);
        Regroup(t.taken + t.queue, got, [e.size]);
      }
    } else {
      assert before + [] == before;
    }
  }

  lemma SizesStep(events: seq<Delivery>)
    requires events != [] && events[|events| - 1].Resized?
    ensures SizesOf(events) == SizesOf(events[..|events| - 1]) + [events[|events| - 1].size]
  {
  }

  lemma Thins<T>(a: seq<T>, b: seq<T>, x: T)
    requires Thinned(a, b)
    ensures Thinned(a, b + [x]) && Thinned(a + [x], b + [x])
  {
    assert (b + [x])[..|b|] == b && (a + [x])[..|a|] == a;
  }

  lemma PlayStep(t: Terminal, events: seq<Delivery>, e: Delivery, pace: nat -> nat)
    ensures Play(t, events + [e], pace) == Apply(Take(Play(t, events, pace), pace(|events|)), e)
  {
    assert (events + [e])[..|events|] == events;
  }

  /**
   A size gets through exactly when the queue has room or the executor took one
   just before; otherwise it is gone, even when no later one follows.
   */
  lemma ResizeLandsIff(t: Terminal, events: seq<Delivery>, size: Size, pace: nat -> nat)
    requires |Play(t, events, pace).queue| <= QUEUE
    ensures var u, v := Play(t, events, pace), Play(t, events + [Resized(size)], pace);
      if |u.queue| < QUEUE || pace(|events|) > 0 then v.taken + v.queue == u.taken + u.queue + [size]
      else v == u
  {
    hide Play, Take, Apply;
    var u, n := Play(t, events, pace), pace(|events|);
    PlayStep(t, events, Resized(size), pace);
    TakeMoves(u, n);
    ApplyResized(Take(u, n), size);
  }

  lemma ApplyResized(t: Terminal, size: Size)
    ensures var u := Apply(t, Resized(size));
      if |t.queue| < QUEUE then u == Terminal(t.keys, t.taken, t.queue + [size]) && u.taken + u.queue == t.taken + t.queue + [size]
      else u == t
  {
    Regroup(t.taken, t.queue, [size]);
  }

  // ---- The reader loop ----

  /** One turn of the pump, with the deliveries so far in front. */
  lemma Turn(events: seq<Delivery>, bs: bytes, accepts: nat)
    ensures var r := ReadRaw(bs);
      Session(events + Pump(bs, accepts).events, Pump(bs, accepts).stop) ==
      if !r.Got? then Session(events, ReadFailed(r))
      else
        var kind := Classify(r.payload);
        if kind.None? then Session(events, Unrecognised)
        else if kind.value.Keys? && accepts == 0 then Session(events, PipeClosed)
        else
          var rest := Pump(r.rest, if kind.value.Keys? then accepts - 1 else accepts);
          Session(events + [kind.value] + rest.events, rest.stop)
  {
    hide ReadRaw, Classify;
    var r := ReadRaw(bs);
    assert events + [] == events;
    if r.Got? && Classify(r.payload).Some? {
      var e := Classify(r.payload).value;
      if e.Resized? || accepts > 0 {
        var rest := Pump(r.rest, if e.Keys? then accepts - 1 else accepts);
        assert events + ([e] + rest.events) == events + [e] + rest.events;
      }
    }
  }

  class InputPump {
    const stream: Stream
    var terminal: Terminal

    constructor (stream: Stream, cols: uint32, rows: uint32)
      ensures this.stream == stream
      ensures terminal == Terminal([], [], if cols > 0 && rows > 0 then [Size(Narrow(cols), Narrow(rows))] else [])
    {
      this.stream := stream;
      terminal := Terminal([], [], if cols > 0 && rows > 0 then [Size(Narrow(cols), Narrow(rows))] else []);
    }

    /** Reads until a read fails, a frame is neither, or the executor has closed its pipe. */
    method Run(accepts: nat, pace: nat -> nat) returns (stop: Stopped, ghost events: seq<Delivery>)
      modifies this, stream`unread
      ensures Session(events, stop) == Pump(old(stream.unread), accepts)
      ensures terminal == Play(old(terminal), events, pace)
    {
      hide Pump, Play, Classify, ReadRaw, Take, Apply;
      events := [];
      var left, delivered: nat := accepts, 0;
      ghost var whole := Pump(stream.unread, accepts);
      StartsEmpty(terminal, whole, pace);
      while true
        invariant delivered == |events|
        invariant terminal == Play(old(terminal), events, pace)
        invariant whole == Session(events + Pump(stream.unread, left).events, Pump(stream.unread, left).stop)
        decreases |stream.unread|
      {
        Turn(events, stream.unread, left);
        var raw := stream.ReadMsg();
        if !raw.Got? {
          stop := ReadFailed(raw);
          return;
        }
        var kind := Classify(raw.payload);
        if kind.None? {
          stop := Unrecognised;
          return;
        }
        var e := kind.value;
        if e.Keys? {
          if left == 0 {
            stop := PipeClosed;
            return;
          }
          left := left - 1;
        }
        PlayStep(old(terminal), events, e, pace);
        terminal := Apply(Take(terminal, pace(delivered)), e);
        events, delivered := events + [e], delivered + 1;
      }
    }
  }

  lemma StartsEmpty(t: Terminal, s: Session, pace: nat -> nat)
    ensures Play(t, [], pace) == t && s == Session([] + s.events, s.stop)
  {
    assert [] + s.events == s.events;
  }
}
