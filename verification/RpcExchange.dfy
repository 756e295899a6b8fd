/**
 One buffered request and response on one stream: the server's sender and the
 worker's handler as two programs over two bounded channels, each writing
 through a compressor that may hold bytes back and reading through one that is
 set up on the first read.

 Bytes are counted, not carried: a byte handed to the compressor is one unit
 on the wire, in order. A reader that fetches ahead only frees room earlier.
 */
module RpcExchange {

  // ---- Sizes ----

  /**
   Lengths: stream header, compressor header once flushed, request message and
   body, compressor trailer, response message and body. Room: each channel's
   window and what a compressor may hold back. Without compression the
   compressor header and trailer are empty.
   */
  datatype Sizes = Sizes(
    header: nat, gzipHeader: nat, request: nat, body: nat, trailer: nat,
    response: nat, responseBody: nat,
    upWindow: nat, downWindow: nat, buffer: nat)
  {
    /** Running totals toward the worker. */
    function U1(): nat { header }
    function U2(): nat { U1() + gzipHeader }
    function U3(): nat { U2() + request }
    function U4(): nat { U3() + body }
    function U5(): nat { U4() + trailer }

    /** Running totals toward the caller. */
    function D1(): nat { gzipHeader }
    function D2(): nat { D1() + response }
    function D3(): nat { D2() + responseBody }
    function D4(): nat { D3() + trailer }

    ghost predicate Ok() {
      upWindow > 0 && downWindow > 0 && buffer > 0
    }
  }

  // ---- The two programs ----

  datatype Op =
    | Stage(upTo: nat)      // hand bytes to the compressor until this many in all
    | Flush                 // until everything handed over is in the channel
    | Take(upTo: nat)       // read until this many in all
    | Watch                 // start the watcher: one more read, whose return cancels the operation
    | Execute
    | Cancel                // the handler returns and its contexts end
    | Fin
    | Skip

  /** The code as it is, and three ways it was written so as not to be. */
  datatype Variant = AsWritten | NoBodyFlush | CloseWriteAfterRequest | EagerReader

  const END: nat := 16

  function CallerOp(v: Variant, z: Sizes, pc: nat): Op
    requires pc < END
  {
    if pc == 0 then Stage(z.U1())
    else if pc == 1 then Flush
    else if pc == 2 then (if v.EagerReader? then Take(z.D1()) else Skip)
    else if pc == 3 then Stage(z.U2())
    else if pc == 4 then Flush
    else if pc == 5 then Stage(z.U3())
    else if pc == 6 then Flush
    else if pc == 7 then Stage(z.U4())
    else if pc == 8 then (if v.NoBodyFlush? then Skip else Flush)
    else if pc == 9 then (if v.CloseWriteAfterRequest? then Fin else Skip)
    else if pc == 10 then Take(z.D1())
    else if pc == 11 then Take(z.D2())
    else if pc == 12 then Take(z.D3())
    else if pc == 13 then Stage(z.U5())
    else if pc == 14 then Flush
    else Fin
  }

  function WorkerOp(v: Variant, z: Sizes, pc: nat): Op
    requires pc < END
  {
    if pc == 0 then Take(z.U1())
    else if pc == 1 then (if v.EagerReader? then Take(z.U2()) else Skip)
    else if pc == 2 then Stage(z.D1())
    else if pc == 3 then Flush
    else if pc == 4 then Take(z.U2())
    else if pc == 5 then Take(z.U3())
    else if pc == 6 then Take(z.U4())
    else if pc == 7 then Watch
    else if pc == 8 then Execute
    else if pc == 9 then Stage(z.D2())
    else if pc == 10 then Flush
    else if pc == 11 then Stage(z.D3())
    else if pc == 12 then Cancel
    else if pc == 13 then Stage(z.D4())
    else if pc == 14 then Flush
    else Fin
  }

  // ---- States and steps ----

  datatype Pipe = Pipe(staged: nat, pushed: nat, taken: nat, fin: bool)

  datatype Watcher = Off | Waiting | Returned

  datatype State = State(
    cpc: nat, wpc: nat, up: Pipe, down: Pipe,
    watcher: Watcher, cancelled: bool,
    fired: bool,      // the caller's context
    reset: bool)      // the stream-close timer ran out after the caller closed

  datatype Event =
    | CallerStage | CallerPush | CallerTake | CallerNext | CallerFail
    | WorkerStage | WorkerPush | WorkerTake | WorkerNext | WorkerFail
    | WatcherTake | WatcherEof
    | Fire | Reap

  const IDLE := Pipe(0, 0, 0, false)

  function Start(): State {
    State(0, 0, IDLE, IDLE, Off, false, false, false)
  }

  predicate CanStage(op: Op, out: Pipe, buffer: nat) {
    op.Stage? && out.staged < op.upTo && out.staged < out.pushed + buffer && !out.fin
  }

  /** A compressor may emit during any write, and has to during a flush. */
  predicate CanPush(op: Op, out: Pipe, window: nat) {
    (op.Stage? || op.Flush?) && out.pushed < out.staged && out.pushed < out.taken + window && !out.fin
  }

  predicate CanTake(op: Op, from: Pipe) {
    op.Take? && from.taken < op.upTo && from.taken < from.pushed
  }

  predicate Complete(op: Op, out: Pipe, from: Pipe) {
    match op
    case Stage(n) => out.staged >= n && !out.fin
    case Flush => out.pushed == out.staged && !out.fin
    case Take(n) => from.taken >= n
    case _ => true
  }

  /** A write after the own FIN, a read at the other side's, anything after a reset. */
  predicate Fails(op: Op, out: Pipe, from: Pipe, reset: bool) {
    || ((op.Stage? || op.Flush?) && (out.fin || reset))
    || (op.Take? && from.taken < op.upTo && (reset || (from.taken == from.pushed && from.fin)))
  }

  predicate Enabled(v: Variant, z: Sizes, s: State, e: Event) {
    match e
    case CallerStage => s.cpc < END && !s.reset && CanStage(CallerOp(v, z, s.cpc), s.up, z.buffer)
    case CallerPush => s.cpc < END && !s.reset && CanPush(CallerOp(v, z, s.cpc), s.up, z.upWindow)
    case CallerTake => s.cpc < END && !s.reset && CanTake(CallerOp(v, z, s.cpc), s.down)
    case CallerNext => s.cpc < END && Complete(CallerOp(v, z, s.cpc), s.up, s.down)
    case CallerFail => s.cpc < END && Fails(CallerOp(v, z, s.cpc), s.up, s.down, s.reset)
    case WorkerStage => s.wpc < END && !s.reset && CanStage(WorkerOp(v, z, s.wpc), s.down, z.buffer)
    case WorkerPush => s.wpc < END && !s.reset && CanPush(WorkerOp(v, z, s.wpc), s.down, z.downWindow)
    case WorkerTake => s.wpc < END && !s.reset && CanTake(WorkerOp(v, z, s.wpc), s.up)
    case WorkerNext => s.wpc < END && Complete(WorkerOp(v, z, s.wpc), s.down, s.up)
    case WorkerFail => s.wpc < END && Fails(WorkerOp(v, z, s.wpc), s.down, s.up, s.reset)
    case WatcherTake => s.watcher.Waiting? && !s.reset && s.up.taken < s.up.pushed
    case WatcherEof => s.watcher.Waiting? && (s.reset || (s.up.taken == s.up.pushed && s.up.fin))
    case Fire => !s.fired && s.cpc < END
    case Reap => !s.reset && s.cpc == END
  }

  function Next(v: Variant, z: Sizes, s: State, e: Event): State
    requires Enabled(v, z, s, e)
  {
    match e
    case CallerStage => s.(up := s.up.(staged := s.up.staged + 1))
    case CallerPush => s.(up := s.up.(pushed := s.up.pushed + 1))
    case CallerTake => s.(down := s.down.(taken := s.down.taken + 1))
    case CallerNext => AfterCaller(CallerOp(v, z, s.cpc), s.(cpc := s.cpc + 1))
    case CallerFail => s.(cpc := END, up := s.up.(fin := true))
    case WorkerStage => s.(down := s.down.(staged := s.down.staged + 1))
    case WorkerPush => s.(down := s.down.(pushed := s.down.pushed + 1))
    case WorkerTake => s.(up := s.up.(taken := s.up.taken + 1))
    case WorkerNext => AfterWorker(WorkerOp(v, z, s.wpc), s.(wpc := s.wpc + 1))
    case WorkerFail => s.(wpc := END, down := s.down.(fin := true), cancelled := true)
    case WatcherTake =>
      var n := s.up.taken + 1;
      var t := s.(up := s.up.(taken := n));
      // a payload byte ends the read, and so does the end of the compressed stream
      if n <= z.U4() || n >= z.U5() then t.(watcher := Returned, cancelled := true) else t
    case WatcherEof => s.(watcher := Returned, cancelled := true)
    case Fire => s.(fired := true, up := s.up.(fin := true))
    case Reap => s.(reset := true)
  }

  function AfterCaller(op: Op, s: State): State {
    if op.Fin? then s.(up := s.up.(fin := true)) else s
  }

  function AfterWorker(op: Op, s: State): State {
    match op
    case Fin => s.(down := s.down.(fin := true))
    case Watch => s.(watcher := Waiting)
    case Cancel => s.(cancelled := true)
    case _ => s
  }

  predicate Finished(s: State) {
    s.cpc == END && s.wpc == END
  }

  /** Every byte of the response has been handed to the worker's writer. */
  predicate ResponseWritten(z: Sizes, s: State) {
    s.down.staged >= z.D3()
  }

  // ---- Runs ----

  ghost predicate Run(v: Variant, z: Sizes, s: State, es: seq<Event>, t: State)
    decreases |es|
  {
    if es == [] then s == t
    else Enabled(v, z, s, es[0]) && Run(v, z, Next(v, z, s, es[0]), es[1..], t)
  }

  ghost predicate Reachable(v: Variant, z: Sizes, s: State) {
    exists es :: Run(v, z, Start(), es, s)
  }

  /** Each step uses up some of a fixed supply, so no run is longer than this. */
  ghost function Fuel(z: Sizes, s: State): int {
    var u, d := s.up, s.down;
    (z.U5() - u.staged) + (z.U5() - u.pushed) + (z.U5() - u.taken)
    + (z.D4() - d.staged) + (z.D4() - d.pushed) + (z.D4() - d.taken)
    + (END - s.cpc) + (END - s.wpc)
    + (if s.watcher.Returned? then 0 else 1) + (if s.fired then 0 else 1) + (if s.reset then 0 else 1)
  }

  ghost predicate Bounded(z: Sizes, s: State) {
    && s.up.taken <= s.up.pushed <= s.up.staged <= z.U5()
    && s.down.taken <= s.down.pushed <= s.down.staged <= z.D4()
    && s.cpc <= END && s.wpc <= END
    && (s.wpc <= 7 ==> s.watcher.Off?)
  }

  lemma StepsAreBounded(v: Variant, z: Sizes, s: State, e: Event)
    requires Bounded(z, s) && Enabled(v, z, s, e)
    ensures Bounded(z, Next(v, z, s, e)) && 0 <= Fuel(z, Next(v, z, s, e)) < Fuel(z, s)
  {
    hide Bounded, Enabled, Next, Fuel;
    match e
    case CallerNext => CallerGoingOnIsBounded(v, z, s);
    case WorkerNext => WorkerGoingOnIsBounded(v, z, s);
    case CallerStage => MovingIsBounded(v, z, s, e);
    case CallerPush => MovingIsBounded(v, z, s, e);
    case CallerTake => MovingIsBounded(v, z, s, e);
    case WorkerStage => MovingIsBounded(v, z, s, e);
    case WorkerPush => MovingIsBounded(v, z, s, e);
    case WorkerTake => MovingIsBounded(v, z, s, e);
    case _ => StoppingIsBounded(v, z, s, e);
  }

  lemma StoppingIsBounded(v: Variant, z: Sizes, s: State, e: Event)
    requires Bounded(z, s) && Enabled(v, z, s, e)
    requires e.CallerFail? || e.WorkerFail? || e.WatcherTake? || e.WatcherEof? || e.Fire? || e.Reap?
    ensures Bounded(z, Next(v, z, s, e)) && 0 <= Fuel(z, Next(v, z, s, e)) < Fuel(z, s)
  {
    hide CallerOp, WorkerOp, AfterCaller, AfterWorker, Complete, Fails, CanStage, CanPush, CanTake;
  }

  lemma MovingIsBounded(v: Variant, z: Sizes, s: State, e: Event)
    requires Bounded(z, s) && Enabled(v, z, s, e)
    requires e.CallerStage? || e.CallerPush? || e.CallerTake? || e.WorkerStage? || e.WorkerPush? || e.WorkerTake?
    ensures Bounded(z, Next(v, z, s, e)) && 0 <= Fuel(z, Next(v, z, s, e)) < Fuel(z, s)
  {
    TargetsInRange(v, z, s.cpc, s.wpc);
    hide CallerOp, WorkerOp, AfterCaller, AfterWorker, Complete, Fails;
  }

  lemma CallerGoingOnIsBounded(v: Variant, z: Sizes, s: State)
    requires Bounded(z, s) && Enabled(v, z, s, CallerNext)
    ensures Bounded(z, Next(v, z, s, CallerNext)) && 0 <= Fuel(z, Next(v, z, s, CallerNext)) < Fuel(z, s)
  {
    hide CallerOp, WorkerOp, AfterWorker, Complete, CanStage, CanPush, CanTake, Fails;
    assert Next(v, z, s, CallerNext) == AfterCaller(CallerOp(v, z, s.cpc), s.(cpc := s.cpc + 1));
    hide Next, Enabled;
  }

  lemma WorkerGoingOnIsBounded(v: Variant, z: Sizes, s: State)
    requires Bounded(z, s) && Enabled(v, z, s, WorkerNext)
    ensures Bounded(z, Next(v, z, s, WorkerNext)) && 0 <= Fuel(z, Next(v, z, s, WorkerNext)) < Fuel(z, s)
  {
    WorkerNextStep(v, z, s);
    hide Enabled, Next;
  }

  lemma TargetsInRange(v: Variant, z: Sizes, cpc: nat, wpc: nat)
    ensures cpc < END ==> CallerOp(v, z, cpc).Stage? ==> CallerOp(v, z, cpc).upTo <= z.U5()
    ensures wpc < END ==> WorkerOp(v, z, wpc).Stage? ==> WorkerOp(v, z, wpc).upTo <= z.D4()
    ensures wpc < END ==> (WorkerOp(v, z, wpc).Watch? == (wpc == 7))
    ensures wpc < END ==> (WorkerOp(v, z, wpc).Cancel? == (wpc == 12))
    ensures wpc < END ==> (WorkerOp(v, z, wpc).Fin? == (wpc == 15))
  {
  }

  /** What the worker's going on changes. */
  lemma WorkerNextStep(v: Variant, z: Sizes, s: State)
    requires s.wpc < END && Enabled(v, z, s, WorkerNext)
    ensures Next(v, z, s, WorkerNext) == s.(
      wpc := s.wpc + 1,
      down := if s.wpc == 15 then s.down.(fin := true) else s.down,
      watcher := if s.wpc == 7 then Waiting else s.watcher,
      cancelled := s.cancelled || s.wpc == 12)
  {
    TargetsInRange(v, z, s.cpc, s.wpc);
    hide WorkerOp;
  }

  /** No run goes on for ever. */
  lemma {:induction false} RunsAreFinite(v: Variant, z: Sizes, s: State, es: seq<Event>, t: State)
    requires Bounded(z, s) && Run(v, z, s, es, t)
    ensures Bounded(z, t) && |es| + Fuel(z, t) <= Fuel(z, s)
    decreases |es|
  {
    if es != [] {
      StepsAreBounded(v, z, s, es[0]);
      hide Fuel, Bounded, Enabled, Next;
      RunsAreFinite(v, z, Next(v, z, s, es[0]), es[1..], t);
    }
  }

  // ---- What holds of every variant, fired or not ----

  /** No channel holds more than its window, and no compressor more than it can. */
  ghost predicate Limited(z: Sizes, s: State) {
    && s.up.staged <= s.up.pushed + z.buffer && s.up.pushed <= s.up.taken + z.upWindow
    && s.down.staged <= s.down.pushed + z.buffer && s.down.pushed <= s.down.taken + z.downWindow
  }

  /** What the watcher has seen when it waits, and what has cancelled the operation. */
  ghost predicate Watched(z: Sizes, s: State) {
    && (s.wpc <= 7 ==> s.up.taken <= z.U4() && s.watcher.Off?)
    && (s.wpc == 7 ==> s.up.taken == z.U4())
    && (s.watcher.Waiting? ==> s.up.taken == z.U4() || z.U4() < s.up.taken < z.U5())
    && s.cancelled == (s.watcher.Returned? || s.wpc >= 13)
  }

  lemma StepStaysWatched(v: Variant, z: Sizes, s: State, e: Event)
    requires Watched(z, s) && Limited(z, s) && Enabled(v, z, s, e)
    ensures Watched(z, Next(v, z, s, e)) && Limited(z, Next(v, z, s, e))
  {
    if e.WorkerNext? {
      WorkerNextStep(v, z, s);
      hide Next, AfterWorker, Limited;
      hide CallerOp, CanStage, CanPush, CanTake, Fails;
    } else {
      hide CallerOp, AfterWorker, Complete, Fails;
    }
  }

  lemma {:induction false} RunStaysWatched(v: Variant, z: Sizes, s: State, es: seq<Event>, t: State)
    requires Watched(z, s) && Limited(z, s) && Run(v, z, s, es, t)
    ensures Watched(z, t) && Limited(z, t)
    decreases |es|
  {
    if es != [] {
      StepStaysWatched(v, z, s, es[0]);
      hide Watched, Limited, Enabled, Next;
      RunStaysWatched(v, z, Next(v, z, s, es[0]), es[1..], t);
    }
  }

  /**
   The operation is cancelled when its watcher has returned or its handler has,
   and by nothing else. The watcher waits for as long as nothing has come after
   the body but part of a trailer.
   */
  lemma CancelledIff(v: Variant, z: Sizes, s: State)
    requires Reachable(v, z, s)
    ensures s.cancelled == (s.watcher.Returned? || s.wpc >= 13)
    ensures s.watcher.Waiting? ==> s.up.taken == z.U4() || z.U4() < s.up.taken < z.U5()
    ensures Limited(z, s)
  {
    var es :| Run(v, z, Start(), es, s);
    RunStaysWatched(v, z, Start(), es, s);
  }

  // ---- What holds as long as the caller's context has not fired ----

  /** Where the caller is in its program, from what it has sent and what it got. */
  ghost predicate CallerAt(z: Sizes, pc: nat, u: Pipe, got: nat) {
    && u.fin == (pc == END)
    && (pc <= 1 ==> u.staged <= z.U1())
    && (pc == 1 ==> u.staged == z.U1())
    && (pc >= 2 ==> u.pushed >= z.U1())
    && (pc <= 4 ==> u.staged <= z.U2())
    && (pc == 4 ==> u.staged == z.U2())
    && (pc >= 5 ==> u.pushed >= z.U2())
    && (pc <= 6 ==> u.staged <= z.U3())
    && (pc == 6 ==> u.staged == z.U3())
    && (pc >= 7 ==> u.pushed >= z.U3())
    && (pc <= 12 ==> u.staged <= z.U4())
    && (pc == 8 ==> u.staged == z.U4())
    && (pc >= 9 ==> u.pushed >= z.U4())
    && (pc >= 14 ==> u.staged == z.U5())
    && (pc >= 15 ==> u.pushed == z.U5())
    && CallerHasTaken(z, pc, got)
  }

  ghost predicate CallerHasTaken(z: Sizes, pc: nat, taken: nat) {
    && (pc <= 9 ==> taken == 0)
    && (pc <= 10 ==> taken <= z.D1())
    && (pc >= 11 ==> taken >= z.D1())
    && (pc <= 11 ==> taken <= z.D2())
    && (pc >= 12 ==> taken >= z.D2())
    && taken <= z.D3()
    && (pc >= 13 ==> taken == z.D3())
  }

  ghost predicate WorkerAt(z: Sizes, pc: nat, d: Pipe, got: nat) {
    && d.fin == (pc == END)
    && (pc <= 1 ==> d.staged == 0)
    && (pc <= 8 ==> d.staged <= z.D1())
    && (pc == 3 ==> d.staged == z.D1())
    && (pc >= 4 ==> d.pushed >= z.D1())
    && (pc <= 10 ==> d.staged <= z.D2())
    && (pc == 10 ==> d.staged == z.D2())
    && (pc >= 11 ==> d.pushed >= z.D2())
    && (pc <= 12 ==> d.staged <= z.D3())
    && (pc >= 12 ==> d.staged >= z.D3())
    && (pc >= 14 ==> d.staged == z.D4())
    && (pc >= 15 ==> d.pushed == z.D4())
    && WorkerHasTaken(z, pc, got)
  }

  ghost predicate WorkerHasTaken(z: Sizes, pc: nat, taken: nat) {
    && (pc == 0 ==> taken <= z.U1())
    && (1 <= pc <= 3 ==> taken == z.U1())
    && (pc >= 4 ==> taken >= z.U1())
    && (pc <= 4 ==> taken <= z.U2())
    && (pc >= 5 ==> taken >= z.U2())
    && (pc <= 5 ==> taken <= z.U3())
    && (pc >= 6 ==> taken >= z.U3())
    && (pc <= 7 ==> taken <= z.U4())
    && (pc >= 7 ==> taken >= z.U4())
  }

  ghost predicate Inv(z: Sizes, s: State) {
    && Bounded(z, s)
    && (s.fired ==> s.up.fin)
    && (s.wpc == END ==> s.down.fin)
    && (s.reset ==> s.cpc == END)
    && (!s.fired ==> Orderly(z, s))
  }

  ghost predicate Orderly(z: Sizes, s: State) {
    && CallerAt(z, s.cpc, s.up, s.down.taken)
    && (!s.reset ==> WorkerAt(z, s.wpc, s.down, s.up.taken) && s.watcher.Off? == (s.wpc <= 7))
    && (s.watcher.Returned? ==> s.cpc >= 13 && (s.reset || s.up.fin || s.up.taken >= z.U5()))
    && (s.cancelled ==> ResponseWritten(z, s))
  }

  lemma CallerMoves(z: Sizes, s: State, e: Event)
    requires Inv(z, s) && Enabled(AsWritten, z, s, e)
    requires e.CallerStage? || e.CallerPush? || e.CallerTake?
    ensures Inv(z, Next(AsWritten, z, s, e))
  {
    StepsAreBounded(AsWritten, z, s, e);
    if !s.fired {
      CallerKeepsPlace(z, s, e);
    }
    hide CallerAt, CallerOp, WorkerOp, AfterCaller, AfterWorker, CanStage, CanPush, CanTake, Complete, Fails, Fuel;
  }

  lemma CallerKeepsPlace(z: Sizes, s: State, e: Event)
    requires Bounded(z, s) && CallerAt(z, s.cpc, s.up, s.down.taken) && Enabled(AsWritten, z, s, e)
    requires e.CallerStage? || e.CallerPush? || e.CallerTake?
    ensures var t := Next(AsWritten, z, s, e);
      CallerAt(z, t.cpc, t.up, t.down.taken)
  {
    hide WorkerOp, AfterCaller, AfterWorker, Complete, Fails;
  }

  lemma CallerGoesOn(z: Sizes, s: State)
    requires Inv(z, s) && Enabled(AsWritten, z, s, CallerNext)
    ensures Inv(z, Next(AsWritten, z, s, CallerNext))
  {
    hide WorkerOp, Fuel, WorkerAt, CanStage, CanPush, CanTake, Fails, Complete;
    StepsAreBounded(AsWritten, z, s, CallerNext);
    if !s.fired {
      CallerPlace(z, s);
    }
    hide Bounded, CallerAt, CallerOp;
  }

  lemma CallerPlace(z: Sizes, s: State)
    requires Bounded(z, s) && CallerAt(z, s.cpc, s.up, s.down.taken) && Enabled(AsWritten, z, s, CallerNext)
    ensures var t := Next(AsWritten, z, s, CallerNext);
      CallerAt(z, t.cpc, t.up, t.down.taken)
  {
    hide WorkerOp, AfterWorker, CanStage, CanPush, CanTake, Fails;
  }

  lemma CallerGivesUp(z: Sizes, s: State)
    requires Inv(z, s) && Enabled(AsWritten, z, s, CallerFail)
    ensures Inv(z, Next(AsWritten, z, s, CallerFail))
  {
    if !s.fired {
      assert false;
    }
  }

  lemma WorkerMoves(z: Sizes, s: State, e: Event)
    requires Inv(z, s) && Enabled(AsWritten, z, s, e)
    requires e.WorkerStage? || e.WorkerPush? || e.WorkerTake?
    ensures Inv(z, Next(AsWritten, z, s, e))
  {
    StepsAreBounded(AsWritten, z, s, e);
    if !s.fired && !s.reset {
      WorkerKeepsPlace(z, s, e);
    }
    hide WorkerAt, CallerOp, WorkerOp, AfterCaller, AfterWorker, CanStage, CanPush, CanTake, Complete, Fails, Fuel;
  }

  lemma WorkerKeepsPlace(z: Sizes, s: State, e: Event)
    requires Bounded(z, s) && WorkerAt(z, s.wpc, s.down, s.up.taken) && Enabled(AsWritten, z, s, e)
    requires e.WorkerStage? || e.WorkerPush? || e.WorkerTake?
    ensures var t := Next(AsWritten, z, s, e);
      WorkerAt(z, t.wpc, t.down, t.up.taken)
  {
    hide CallerOp, AfterCaller, AfterWorker, Complete, Fails;
  }

  lemma WorkerGoesOn(z: Sizes, s: State)
    requires Inv(z, s) && Enabled(AsWritten, z, s, WorkerNext)
    ensures Inv(z, Next(AsWritten, z, s, WorkerNext))
  {
    StepsAreBounded(AsWritten, z, s, WorkerNext);
    WorkerNextStep(AsWritten, z, s);
    if !s.fired {
      if s.reset {
        ResetComesAfter(z, s);
      } else {
        WorkerPlace(z, s);
      }
    }
    hide Enabled, Next, Bounded, Fuel, CallerAt, WorkerAt;
  }

  lemma ResetComesAfter(z: Sizes, s: State)
    requires Inv(z, s) && !s.fired && s.reset
    ensures ResponseWritten(z, s)
  {
  }

  lemma WorkerPlace(z: Sizes, s: State)
    requires Bounded(z, s) && WorkerAt(z, s.wpc, s.down, s.up.taken) && Enabled(AsWritten, z, s, WorkerNext)
    ensures var t := Next(AsWritten, z, s, WorkerNext);
      WorkerAt(z, t.wpc, t.down, t.up.taken) && (t.wpc >= 12 ==> ResponseWritten(z, s))
  {
    hide CallerOp, AfterCaller, CanStage, CanPush, CanTake, Fails;
  }

  lemma WorkerGivesUp(z: Sizes, s: State)
    requires Inv(z, s) && Enabled(AsWritten, z, s, WorkerFail)
    ensures Inv(z, Next(AsWritten, z, s, WorkerFail))
  {
    hide CallerOp, AfterCaller, AfterWorker, CanStage, CanPush, CanTake, Complete;
  }

  lemma OthersMove(z: Sizes, s: State, e: Event)
    requires Inv(z, s) && Enabled(AsWritten, z, s, e)
    requires e.WatcherTake? || e.WatcherEof? || e.Fire? || e.Reap?
    ensures Inv(z, Next(AsWritten, z, s, e))
  {
    hide CallerOp, WorkerOp, AfterCaller, AfterWorker, CanStage, CanPush, CanTake, Complete, Fails;
  }

  lemma StepKeepsInv(z: Sizes, s: State, e: Event)
    requires Inv(z, s) && Enabled(AsWritten, z, s, e)
    ensures Inv(z, Next(AsWritten, z, s, e))
  {
    hide Inv, Enabled, Next;
    match e
    case CallerNext => CallerGoesOn(z, s);
    case CallerFail => CallerGivesUp(z, s);
    case WorkerNext => WorkerGoesOn(z, s);
    case WorkerFail => WorkerGivesUp(z, s);
    case CallerStage => CallerMoves(z, s, e);
    case CallerPush => CallerMoves(z, s, e);
    case CallerTake => CallerMoves(z, s, e);
    case WorkerStage => WorkerMoves(z, s, e);
    case WorkerPush => WorkerMoves(z, s, e);
    case WorkerTake => WorkerMoves(z, s, e);
    case WatcherTake => OthersMove(z, s, e);
    case WatcherEof => OthersMove(z, s, e);
    case Fire => OthersMove(z, s, e);
    case Reap => OthersMove(z, s, e);
  }

  lemma {:induction false} RunKeepsInv(z: Sizes, s: State, es: seq<Event>, t: State)
    requires Inv(z, s) && Run(AsWritten, z, s, es, t)
    ensures Inv(z, t)
    decreases |es|
  {
    if es != [] {
      StepKeepsInv(z, s, es[0]);
      hide Inv, Enabled, Next;
      RunKeepsInv(z, Next(AsWritten, z, s, es[0]), es[1..], t);
    }
  }

  lemma ReachableInv(z: Sizes, s: State)
    requires Reachable(AsWritten, z, s)
    ensures Inv(z, s)
  {
    var es :| Run(AsWritten, z, Start(), es, s);
    assert Inv(z, Start());
    RunKeepsInv(z, Start(), es, s);
  }

  // ---- Main results ----

  /** Unless the caller's context fires, the operation is not cancelled before its whole response is written. */
  lemma NoEarlyCancel(z: Sizes, s: State)
    requires Reachable(AsWritten, z, s) && !s.fired && s.cancelled
    ensures ResponseWritten(z, s)
  {
    ReachableInv(z, s);
  }

  /** A finished exchange whose context did not fire is a complete one. */
  lemma FinishedIsComplete(z: Sizes, s: State)
    requires Reachable(AsWritten, z, s) && Finished(s) && !s.fired
    ensures s.down.taken == z.D3()
    ensures !s.reset ==> s.up.taken >= z.U4() && s.down.pushed == z.D4()
  {
    ReachableInv(z, s);
  }

  /** The room the exchange needs. */
  ghost predicate Roomy(z: Sizes) {
    && z.trailer <= z.downWindow
    && (z.gzipHeader <= z.downWindow || z.gzipHeader + z.request + z.body <= z.upWindow)
  }

  predicate Spontaneous(e: Event) {
    !e.Fire? && !e.Reap?
  }

  /** Some step other than the context firing or the close timer is possible. */
  ghost predicate CanMove(v: Variant, z: Sizes, s: State) {
    exists e :: Spontaneous(e) && Enabled(v, z, s, e)
  }

  /** What a side that cannot move is waiting for. */
  ghost predicate CallerStuck(z: Sizes, s: State) {
    && s.cpc < END && !s.reset
    && match CallerOp(AsWritten, z, s.cpc)
      case Take(n) => s.down.taken < n && s.down.taken == s.down.pushed && !s.down.fin
      case Stage(_) => BlockedWrite(s.up, z.upWindow)
      case Flush => BlockedWrite(s.up, z.upWindow)
      case _ => false
  }

  ghost predicate WorkerStuck(z: Sizes, s: State) {
    && s.wpc < END && !s.reset
    && match WorkerOp(AsWritten, z, s.wpc)
      case Take(n) => s.up.taken < n && s.up.taken == s.up.pushed && !s.up.fin
      case Stage(_) => BlockedWrite(s.down, z.downWindow)
      case Flush => BlockedWrite(s.down, z.downWindow)
      case _ => false
  }

  ghost predicate BlockedWrite(out: Pipe, window: nat) {
    !out.fin && out.pushed < out.staged && out.pushed >= out.taken + window
  }

  lemma CallerMovesOrStuck(z: Sizes, s: State)
    requires z.Ok() && Bounded(z, s) && s.cpc < END && !s.reset
    ensures CanMove(AsWritten, z, s) || CallerStuck(z, s)
  {
    hide CallerOp, WorkerOp;
    assert Spontaneous(CallerStage) && Spontaneous(CallerPush) && Spontaneous(CallerTake)
      && Spontaneous(CallerNext) && Spontaneous(CallerFail);
  }

  lemma WorkerMovesOrStuck(z: Sizes, s: State)
    requires z.Ok() && Bounded(z, s) && s.wpc < END && (s.wpc == END ==> s.down.fin)
    ensures CanMove(AsWritten, z, s) || WorkerStuck(z, s) || (s.down.fin && !s.reset)
  {
    hide CallerOp, WorkerOp;
    assert Spontaneous(WorkerStage) && Spontaneous(WorkerPush) && Spontaneous(WorkerTake)
      && Spontaneous(WorkerNext) && Spontaneous(WorkerFail);
  }

  lemma WatcherMoves(v: Variant, z: Sizes, s: State)
    requires s.watcher.Waiting? && !s.reset && (s.up.taken < s.up.pushed || s.up.fin) && s.up.taken <= s.up.pushed
    ensures CanMove(v, z, s)
  {
    assert Spontaneous(WatcherTake) && Spontaneous(WatcherEof);
    assert Enabled(v, z, s, WatcherTake) || Enabled(v, z, s, WatcherEof);
  }

  /** With room, the two sides never wait for each other. */
  lemma NeverBothStuck(z: Sizes, s: State)
    requires z.Ok() && Roomy(z) && Inv(z, s) && !s.fired && !s.reset && CallerStuck(z, s)
    ensures !WorkerStuck(z, s)
  {
    hide Enabled;
  }

  lemma CallerDoneWorkerStuck(z: Sizes, s: State)
    requires z.Ok() && Roomy(z) && Inv(z, s) && !s.fired && !s.reset && s.cpc == END
    ensures !WorkerStuck(z, s)
  {
  }

  lemma WorkerDoneCallerStuck(z: Sizes, s: State)
    requires z.Ok() && Inv(z, s) && !s.fired && s.wpc == END
    requires CallerStuck(z, s)
    ensures s.watcher.Waiting? && s.up.taken < s.up.pushed
  {
  }

  /** With room, every unfinished exchange whose context has not fired can go on by itself. */
  lemma Progress(z: Sizes, s: State)
    requires z.Ok() && Roomy(z) && Reachable(AsWritten, z, s) && !s.fired && !Finished(s)
    ensures CanMove(AsWritten, z, s)
  {
    ReachableInv(z, s);
    if s.reset {
      WorkerMovesOrStuck(z, s);
    } else if s.cpc == END {
      WorkerMovesOrStuck(z, s);
      CallerDoneWorkerStuck(z, s);
    } else {
      CallerMovesOrStuck(z, s);
      if CallerStuck(z, s) {
        if s.wpc == END {
          WorkerDoneCallerStuck(z, s);
          WatcherMoves(AsWritten, z, s);
        } else {
          WorkerMovesOrStuck(z, s);
          NeverBothStuck(z, s);
        }
      }
    }
  }

  /** Once the context has fired, the exchange goes on too, if need be by the close timer. */
  lemma ProgressAfterFire(z: Sizes, s: State)
    requires z.Ok() && Reachable(AsWritten, z, s) && s.fired && !Finished(s)
    ensures CanMove(AsWritten, z, s) || Enabled(AsWritten, z, s, Reap)
  {
    ReachableInv(z, s);
    if s.cpc < END {
      CallerMovesOrStuck(z, s);
      if CallerStuck(z, s) && s.wpc < END {
        WorkerMovesOrStuck(z, s);
      }
    } else if s.reset {
      WorkerMovesOrStuck(z, s);
    }
  }

  // ---- Without room, none finishes ----

  ghost predicate InWindow(z: Sizes, s: State) {
    s.up.pushed <= s.up.taken + z.upWindow && s.down.pushed <= s.down.taken + z.downWindow
  }

  ghost predicate Doomed(z: Sizes, s: State) {
    !s.fired && !s.reset ==>
      if z.trailer > z.downWindow then s.wpc <= 14 else s.cpc <= 8 && s.wpc <= 3
  }

  lemma DoomedStays(z: Sizes, s: State, e: Event)
    requires Inv(z, s) && InWindow(z, s) && Doomed(z, s) && !Roomy(z) && Enabled(AsWritten, z, s, e)
    ensures InWindow(z, Next(AsWritten, z, s, e)) && Doomed(z, Next(AsWritten, z, s, e))
  {
    hide Inv, InWindow, Doomed, Enabled, Next;
    if e.CallerNext? || e.CallerFail? {
      DoomedCaller(z, s, e);
    } else if e.WorkerNext? || e.WorkerFail? {
      DoomedWorker(z, s, e);
    } else {
      DoomedOthers(z, s, e);
    }
  }

  lemma DoomedCaller(z: Sizes, s: State, e: Event)
    requires Inv(z, s) && InWindow(z, s) && Doomed(z, s) && !Roomy(z) && Enabled(AsWritten, z, s, e)
    requires e.CallerNext? || e.CallerFail?
    ensures InWindow(z, Next(AsWritten, z, s, e)) && Doomed(z, Next(AsWritten, z, s, e))
  {
    hide WorkerOp, AfterWorker, CanStage, CanPush, CanTake;
  }

  lemma DoomedWorker(z: Sizes, s: State, e: Event)
    requires Inv(z, s) && InWindow(z, s) && Doomed(z, s) && !Roomy(z) && Enabled(AsWritten, z, s, e)
    requires e.WorkerNext? || e.WorkerFail?
    ensures InWindow(z, Next(AsWritten, z, s, e)) && Doomed(z, Next(AsWritten, z, s, e))
  {
    hide CallerOp, AfterCaller, CanStage, CanPush, CanTake;
  }

  lemma DoomedOthers(z: Sizes, s: State, e: Event)
    requires Inv(z, s) && InWindow(z, s) && Doomed(z, s) && Enabled(AsWritten, z, s, e)
    requires !e.CallerNext? && !e.CallerFail? && !e.WorkerNext? && !e.WorkerFail?
    ensures InWindow(z, Next(AsWritten, z, s, e)) && Doomed(z, Next(AsWritten, z, s, e))
  {
    hide CallerOp, WorkerOp, AfterCaller, AfterWorker, Complete, Fails, CallerAt, WorkerAt;
  }

  lemma {:induction false} DoomedThroughout(z: Sizes, s: State, es: seq<Event>, t: State)
    requires Inv(z, s) && InWindow(z, s) && Doomed(z, s) && !Roomy(z) && Run(AsWritten, z, s, es, t)
    ensures Doomed(z, t)
    decreases |es|
  {
    if es != [] {
      StepKeepsInv(z, s, es[0]);
      DoomedStays(z, s, es[0]);
      hide Inv, InWindow, Doomed, Enabled, Next;
      DoomedThroughout(z, Next(AsWritten, z, s, es[0]), es[1..], t);
    }
  }

  /** Short of that room no exchange completes by itself. */
  lemma TooSmallNeverFinishes(z: Sizes, s: State)
    requires !Roomy(z) && Reachable(AsWritten, z, s) && !s.fired && !s.reset
    ensures !Finished(s)
  {
    var es :| Run(AsWritten, z, Start(), es, s);
    assert Inv(z, Start()) && InWindow(z, Start()) && Doomed(z, Start());
    DoomedThroughout(z, Start(), es, s);
  }

  // ---- Letting a system run until nothing is left to do ----

  /** Lazy compressors emit nothing of a body before they have to. */
  predicate Allowed(s: State, e: Event, idle: bool) {
    Spontaneous(e) && !(idle && e.CallerPush? && s.cpc == 7)
  }

  lemma {:induction false} RunAppend(v: Variant, z: Sizes, s: State, es: seq<Event>, t: State, e: Event)
    requires Run(v, z, s, es, t) && Enabled(v, z, t, e)
    ensures Run(v, z, s, es + [e], Next(v, z, t, e))
    decreases |es|
  {
    hide Enabled, Next;
    if es == [] {
      assert (es + [e])[1..] == [];
    } else {
      RunAppend(v, z, Next(v, z, s, es[0]), es[1..], t, e);
      assert (es + [e])[1..] == es[1..] + [e];
    }
  }

  lemma ReachableStep(v: Variant, z: Sizes, s: State, e: Event)
    requires Reachable(v, z, s) && Enabled(v, z, s, e)
    ensures Reachable(v, z, Next(v, z, s, e))
  {
    var es :| Run(v, z, Start(), es, s);
    RunAppend(v, z, Start(), es, s, e);
  }

  lemma ReachableBounded(v: Variant, z: Sizes, s: State)
    requires Reachable(v, z, s)
    ensures Bounded(z, s) && Fuel(z, s) >= 0
  {
    var es :| Run(v, z, Start(), es, s);
    RunsAreFinite(v, z, Start(), es, s);
  }

  lemma {:induction false} RunsDry(v: Variant, z: Sizes, s: State, idle: bool) returns (t: State)
    requires Reachable(v, z, s) && !s.fired && !s.reset
    requires idle ==> v.NoBodyFlush? && z.response > 0 && z.body > 0 && LazyInv(z, s)
    ensures Reachable(v, z, t) && !t.fired && !t.reset
    ensures idle ==> LazyInv(z, t)
    ensures forall e :: Allowed(t, e, idle) ==> !Enabled(v, z, t, e)
    decreases Fuel(z, s)
  {
    ReachableBounded(v, z, s);
    if e :| Allowed(s, e, idle) && Enabled(v, z, s, e) {
      ReachableStep(v, z, s, e);
      StepsAreBounded(v, z, s, e);
      FlagsStay(v, z, s, e);
      if idle {
        LazyStep(z, s, e);
      }
      hide Enabled, Next, LazyInv, Reachable, Allowed;
      t := RunsDry(v, z, Next(v, z, s, e), idle);
    } else {
      t := s;
    }
  }

  lemma FlagsStay(v: Variant, z: Sizes, s: State, e: Event)
    requires Enabled(v, z, s, e) && Spontaneous(e)
    ensures Next(v, z, s, e).fired == s.fired && Next(v, z, s, e).reset == s.reset
  {
    hide CallerOp, WorkerOp;
  }

  /** The room is exactly what is needed: less, and some exchange is stuck for good. */
  lemma RoomIsExactlyEnough(z: Sizes)
    requires z.Ok()
    ensures Roomy(z) == forall s :: Reachable(AsWritten, z, s) && !s.fired && !s.reset && !Finished(s) ==> CanMove(AsWritten, z, s)
  {
    if Roomy(z) {
      forall s | Reachable(AsWritten, z, s) && !s.fired && !s.reset && !Finished(s)
        ensures CanMove(AsWritten, z, s)
      {
        Progress(z, s);
      }
    } else {
      assert Run(AsWritten, z, Start(), [], Start());
      var t := RunsDry(AsWritten, z, Start(), false);
      TooSmallNeverFinishes(z, t);
      assert forall e :: Spontaneous(e) ==> Allowed(t, e, false);
      assert !CanMove(AsWritten, z, t);
    }
  }

  // ---- The mistakes the code avoids ----

  ghost predicate LazyInv(z: Sizes, s: State) {
    && Bounded(z, s)
    && !s.fired && !s.reset && !s.up.fin && !s.down.fin && s.watcher.Off?
    && s.cpc <= 11 && s.wpc <= 6
    && s.up.pushed <= z.U3() && s.down.staged <= z.D1()
    && (s.cpc <= 6 ==> s.up.staged <= z.U3())
    && (s.cpc == 6 ==> s.up.staged == z.U3())
    && (s.cpc == 7 ==> s.up.pushed == z.U3())
  }

  lemma LazyStep(z: Sizes, s: State, e: Event)
    requires z.response > 0 && z.body > 0 && LazyInv(z, s)
    requires Allowed(s, e, true) && Enabled(NoBodyFlush, z, s, e)
    ensures LazyInv(z, Next(NoBodyFlush, z, s, e))
  {
  }

  /** Without the flush after the body, a body that the compressor can hold may never leave. */
  lemma BodyNeedsFlush(z: Sizes)
    requires z.Ok() && 0 < z.body <= z.buffer && z.response > 0
    ensures exists t :: Reachable(NoBodyFlush, z, t) && !t.fired && !t.reset && !Finished(t) && !CanMove(NoBodyFlush, z, t)
  {
    assert Run(NoBodyFlush, z, Start(), [], Start());
    var t := RunsDry(NoBodyFlush, z, Start(), true);
    if t.cpc == 7 {
      assert Enabled(NoBodyFlush, z, t, if t.up.staged < z.U4() then CallerStage else CallerNext);
      assert Allowed(t, if t.up.staged < z.U4() then CallerStage else CallerNext, true);
      assert false;
    }
    assert forall e :: Spontaneous(e) ==> Allowed(t, e, true);
    assert !CanMove(NoBodyFlush, z, t);
  }

  ghost predicate EagerInv(z: Sizes, s: State) {
    && Bounded(z, s)
    && (!s.fired && !s.reset ==>
      && s.cpc <= 2 && s.wpc <= 1 && s.watcher.Off? && !s.up.fin && !s.down.fin
      && s.up.staged <= z.U1() && s.down.staged == 0)
  }

  lemma EagerStep(z: Sizes, s: State, e: Event)
    requires z.gzipHeader > 0 && EagerInv(z, s) && Enabled(EagerReader, z, s, e)
    ensures EagerInv(z, Next(EagerReader, z, s, e))
  {
    StepsAreBounded(EagerReader, z, s, e);
    hide Fuel;
  }

  lemma {:induction false} EagerThroughout(z: Sizes, s: State, es: seq<Event>, t: State)
    requires z.gzipHeader > 0 && EagerInv(z, s) && Run(EagerReader, z, s, es, t)
    ensures EagerInv(z, t)
    decreases |es|
  {
    if es != [] {
      EagerStep(z, s, es[0]);
      hide EagerInv, Enabled, Next;
      EagerThroughout(z, Next(EagerReader, z, s, es[0]), es[1..], t);
    }
  }

  /** Setting up both decompressors before either header is sent never gets anywhere, whatever the windows. */
  lemma EagerReadersWaitForEachOther(z: Sizes, s: State)
    requires z.gzipHeader > 0 && Reachable(EagerReader, z, s) && !s.fired && !s.reset
    ensures !Finished(s) && s.down.staged == 0 && s.up.taken <= z.header
  {
    var es :| Run(EagerReader, z, Start(), es, s);
    assert EagerInv(z, Start());
    EagerThroughout(z, Start(), es, s);
  }

  ghost predicate HalfClosedInv(z: Sizes, s: State) {
    && Bounded(z, s)
    && (s.watcher.Returned? ==> s.cancelled)
    && (s.wpc == 8 ==> !s.watcher.Off?)
    && (!s.fired && !s.reset && s.wpc <= 8 ==>
      && s.up.staged <= z.U4()
      && s.up.fin == (s.cpc >= 10)
      && !s.down.fin
      && (s.wpc >= 7 ==> s.up.taken >= z.U4()))
  }

  lemma HalfClosedStep(z: Sizes, s: State, e: Event)
    requires HalfClosedInv(z, s) && Enabled(CloseWriteAfterRequest, z, s, e)
    ensures HalfClosedInv(z, Next(CloseWriteAfterRequest, z, s, e))
  {
    hide HalfClosedInv, Enabled, Next;
    if e.CallerStage? || e.CallerPush? || e.CallerTake? || e.CallerNext? || e.CallerFail? {
      HalfClosedCaller(z, s, e);
    } else if e.WorkerStage? || e.WorkerPush? || e.WorkerTake? || e.WorkerNext? || e.WorkerFail? {
      HalfClosedWorker(z, s, e);
    } else {
      HalfClosedOthers(z, s, e);
    }
  }

  lemma HalfClosedCaller(z: Sizes, s: State, e: Event)
    requires HalfClosedInv(z, s) && Enabled(CloseWriteAfterRequest, z, s, e)
    requires e.CallerStage? || e.CallerPush? || e.CallerTake? || e.CallerNext? || e.CallerFail?
    ensures HalfClosedInv(z, Next(CloseWriteAfterRequest, z, s, e))
  {
    StepsAreBounded(CloseWriteAfterRequest, z, s, e);
    hide Fuel, WorkerOp, AfterWorker;
  }

  lemma HalfClosedWorker(z: Sizes, s: State, e: Event)
    requires HalfClosedInv(z, s) && Enabled(CloseWriteAfterRequest, z, s, e)
    requires e.WorkerStage? || e.WorkerPush? || e.WorkerTake? || e.WorkerNext? || e.WorkerFail?
    ensures HalfClosedInv(z, Next(CloseWriteAfterRequest, z, s, e))
  {
    StepsAreBounded(CloseWriteAfterRequest, z, s, e);
    hide Fuel, CallerOp, AfterCaller;
  }

  lemma HalfClosedOthers(z: Sizes, s: State, e: Event)
    requires HalfClosedInv(z, s) && Enabled(CloseWriteAfterRequest, z, s, e)
    requires e.WatcherTake? || e.WatcherEof? || e.Fire? || e.Reap?
    ensures HalfClosedInv(z, Next(CloseWriteAfterRequest, z, s, e))
  {
    StepsAreBounded(CloseWriteAfterRequest, z, s, e);
    hide Fuel, CallerOp, WorkerOp, AfterCaller, AfterWorker, CanStage, CanPush, CanTake, Complete, Fails;
  }

  lemma {:induction false} HalfClosedThroughout(z: Sizes, s: State, es: seq<Event>, t: State)
    requires HalfClosedInv(z, s) && Run(CloseWriteAfterRequest, z, s, es, t)
    ensures HalfClosedInv(z, t)
    decreases |es|
  {
    if es != [] {
      HalfClosedStep(z, s, es[0]);
      hide HalfClosedInv, Enabled, Next;
      HalfClosedThroughout(z, Next(CloseWriteAfterRequest, z, s, es[0]), es[1..], t);
    }
  }

  /** The caller, left to itself, gets to its FIN. */
  lemma {:induction false} CallerCloses(z: Sizes, s: State) returns (es: seq<Event>, t: State)
    requires HalfClosedInv(z, s) && !s.fired && !s.reset && s.wpc == 8
    ensures Run(CloseWriteAfterRequest, z, s, es, t) && HalfClosedInv(z, t)
    ensures !t.fired && !t.reset && t.wpc == 8 && t.cpc >= 10
    decreases END - s.cpc
  {
    if s.cpc >= 10 {
      es, t := [], s;
    } else {
      assert Enabled(CloseWriteAfterRequest, z, s, CallerNext);
      HalfClosedStep(z, s, CallerNext);
      es, t := CallerCloses(z, Next(CloseWriteAfterRequest, z, s, CallerNext));
      assert ([CallerNext] + es)[1..] == es;
      es := [CallerNext] + es;
    }
  }

  /** Half-closing after the request lets every operation be cancelled while it runs, with nobody having given up. */
  lemma CloseWriteCancels(z: Sizes, s: State) returns (es: seq<Event>, t: State)
    requires Reachable(CloseWriteAfterRequest, z, s) && !s.fired && !s.reset && s.wpc == 8
    ensures Run(CloseWriteAfterRequest, z, s, es, t) && !t.fired && !t.reset && t.wpc == 8 && t.cancelled
  {
    var before :| Run(CloseWriteAfterRequest, z, Start(), before, s);
    HalfClosedThroughout(z, Start(), before, s);
    es, t := CallerCloses(z, s);
    if !t.cancelled {
      assert Enabled(CloseWriteAfterRequest, z, t, WatcherEof);
      RunAppend(CloseWriteAfterRequest, z, s, es, t, WatcherEof);
      es, t := es + [WatcherEof], Next(CloseWriteAfterRequest, z, t, WatcherEof);
    }
  }

  lemma Goes(v: Variant, z: Sizes, s: State, e: Event, t: State)
    requires Reachable(v, z, s) && Enabled(v, z, s, e) && Next(v, z, s, e) == t
    ensures Reachable(v, z, t)
  {
    ReachableStep(v, z, s, e);
  }

  const TINY := Sizes(0, 0, 1, 0, 0, 1, 0, 1, 1, 1)

  lemma HeadersAreEmpty()
    ensures Reachable(CloseWriteAfterRequest, TINY, Start().(cpc := 5, wpc := 5))
  {
    hide Reachable;
    var v := CloseWriteAfterRequest;
    StartReachable(v, TINY);
    for i := 0 to 5
      invariant Reachable(v, TINY, Start().(cpc := i))
    {
      Goes(v, TINY, Start().(cpc := i), CallerNext, Start().(cpc := i + 1));
    }
    for i := 0 to 5
      invariant Reachable(v, TINY, Start().(cpc := 5, wpc := i))
    {
      Goes(v, TINY, Start().(cpc := 5, wpc := i), WorkerNext, Start().(cpc := 5, wpc := i + 1));
    }
  }

  lemma RequestIsSent()
    ensures Reachable(CloseWriteAfterRequest, TINY, Start().(cpc := 7, wpc := 5, up := Pipe(1, 1, 0, false)))
  {
    hide Reachable;
    var v, s := CloseWriteAfterRequest, Start().(cpc := 5, wpc := 5);
    HeadersAreEmpty();
    Goes(v, TINY, s, CallerStage, s.(up := Pipe(1, 0, 0, false)));
    Goes(v, TINY, s.(up := Pipe(1, 0, 0, false)), CallerNext, s.(cpc := 6, up := Pipe(1, 0, 0, false)));
    Goes(v, TINY, s.(cpc := 6, up := Pipe(1, 0, 0, false)), CallerPush, s.(cpc := 6, up := Pipe(1, 1, 0, false)));
    Goes(v, TINY, s.(cpc := 6, up := Pipe(1, 1, 0, false)), CallerNext, s.(cpc := 7, up := Pipe(1, 1, 0, false)));
  }

  /** Such operations do run: a one-byte request without compression gets there. */
  lemma OperationStarts()
    ensures Reachable(CloseWriteAfterRequest, TINY, State(7, 8, Pipe(1, 1, 1, false), IDLE, Waiting, false, false, false))
  {
    hide Reachable;
    var v, s := CloseWriteAfterRequest, Start().(cpc := 7, wpc := 5, up := Pipe(1, 1, 1, false));
    RequestIsSent();
    Goes(v, TINY, s.(up := Pipe(1, 1, 0, false)), WorkerTake, s);
    Goes(v, TINY, s, WorkerNext, s.(wpc := 6));
    Goes(v, TINY, s.(wpc := 6), WorkerNext, s.(wpc := 7));
    Goes(v, TINY, s.(wpc := 7), WorkerNext, s.(wpc := 8, watcher := Waiting));
  }

  lemma StartReachable(v: Variant, z: Sizes)
    ensures Reachable(v, z, Start())
  {
    assert Run(v, z, Start(), [], Start());
  }
}
