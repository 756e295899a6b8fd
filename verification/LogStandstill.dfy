/**
 What a server does that restarts while the MAX lookup fails: it starts from 0,
 pulls the oldest retained entries, and may hit the key of a row that is already
 there. When it does, and that it then stays where it is.
 */
module LogStandstill {
  import opened Wrappers
  import opened LogRing
  import opened LogShipping

  // ---- The window is the top of everything emitted ----

  ghost predicate OnTop(s: System) {
    && (forall e :: e in s.emitted ==> e.seqNo <= s.counter)
    && (forall e, l :: e in s.emitted && l in s.log ==> e in s.log || e.seqNo < l.seqNo)
  }

  lemma StepKeepsOnTop(s: System, ev: Event)
    requires OnTop(s) && Enabled(s, ev)
    ensures OnTop(Next(s, ev))
  {
    hide Losses, Window, Judge, Insert, Raise, KeyFree;
  }

  lemma {:induction false} RunKeepsOnTop(s: System, evs: seq<Event>)
    requires OnTop(s) && Possible(s, evs)
    ensures OnTop(Run(s, evs))
    decreases |evs|
  {
    if evs != [] {
      StepKeepsOnTop(s, evs[0]);
      hide OnTop, Next, Enabled;
      RunKeepsOnTop(Next(s, evs[0]), evs[1..]);
    }
  }

  lemma ReachableOnTop(s: System)
    requires Reachable(s)
    ensures OnTop(s)
  {
    var s0, evs :| Start(s0) && Possible(s0, evs) && Run(s0, evs) == s;
    RunKeepsOnTop(s0, evs);
  }

  // ---- The oldest retained entries ----

  /** What a poll from 0 pulls. */
  function Oldest(s: System): seq<Entry> {
    First(Window(s), EffectiveLimit(s.pullLimit))
  }

  lemma {:induction false} AllAfterZero(es: seq<Entry>)
    requires forall e :: e in es ==> e.seqNo > 0
    ensures After(es, 0) == es
  {
    if es != [] {
      assert es[0] in es;
      AllAfterZero(es[1..]);
    }
  }

  lemma OldestIsPulled(s: System)
    requires forall e :: e in Window(s) ==> e.seqNo > 0
    ensures First(After(Window(s), 0), EffectiveLimit(s.pullLimit)) == Oldest(s)
  {
    AllAfterZero(Window(s));
  }

  /** A live row's number lies between the first and the last of these entries. */
  ghost predicate Covered(rows: Rows, es: seq<Entry>) {
    es != [] && exists k :: k in rows && es[0].seqNo <= k <= LastOf(es)
  }

  lemma OldestIsASlice(s: System) returns (from: nat)
    ensures from + |Oldest(s)| <= |s.log| && Oldest(s) == s.log[from..from + |Oldest(s)|]
  {
    from := |s.log| - |Window(s)|;
    assert Window(s) == s.log[from..];
  }

  lemma IndexBetween(es: seq<Entry>, a: nat, j: nat, b: nat)
    requires Increasing(es) && a < |es| && j < |es| && b < |es|
    requires es[a].seqNo <= es[j].seqNo <= es[b].seqNo
    ensures a <= j <= b
  {
  }

  /** An emitted entry that is numbered between two of the oldest retained is one of them. */
  lemma NoGaps(s: System, e: Entry)
    requires OnTop(s) && Increasing(s.log) && e in s.emitted
    requires Oldest(s) != [] && Oldest(s)[0].seqNo <= e.seqNo <= LastOf(Oldest(s))
    ensures e in Oldest(s)
  {
    var oldest := Oldest(s);
    var from := OldestIsASlice(s);
    hide Oldest, Increasing;
    assert oldest[0] == s.log[from] && LastOf(oldest) == s.log[from + |oldest| - 1].seqNo;
    assert s.log[from] in s.log;
    var j :| 0 <= j < |s.log| && s.log[j] == e;
    IndexBetween(s.log, from, j, from + |oldest| - 1);
    assert oldest[j - from] == e;
  }

  lemma IncreasingKeyFree(rows: Rows, batch: seq<Entry>)
    requires Increasing(batch)
    ensures KeyFree(rows, batch) == (forall e :: e in batch ==> e.seqNo !in rows)
    ensures forall e :: e in batch ==> batch[0].seqNo <= e.seqNo <= LastOf(batch)
  {
  }

  /** The rows that a batch from 0 can hit are those numbered between its first and its last entry. */
  lemma OldestCollidesIff(s: System)
    requires Reachable(s)
    ensures KeyFree(s.rows, Oldest(s)) == !Covered(s.rows, Oldest(s))
  {
    ReachableOnTop(s);
    ReachableInv(s);
    var oldest := Oldest(s);
    assert Increasing(oldest) by {
      WindowFacts(s);
    }
    IncreasingKeyFree(s.rows, oldest);
    RowsAreEmitted(s);
    assert Increasing(s.log);
    hide KeyFree, Inv, OnTop, Increasing, Oldest, Reachable, LastOf;
    if k :| oldest != [] && k in s.rows && oldest[0].seqNo <= k <= LastOf(oldest) {
      NoGaps(s, s.rows[k]);
      assert Covered(s.rows, oldest);
    }
  }

  lemma RowsAreEmitted(s: System)
    requires Inv(s)
    ensures forall k :: k in s.rows ==> s.rows[k] in s.emitted && s.rows[k].seqNo == k
  {
  }

  /** What a poll pulls when it starts from a failed lookup. */
  ghost function BlindBatch(s: System): (batch: seq<Entry>)
    requires s.phase.Idle?
    ensures s.cursor == None ==> batch == First(After(Window(s), 0), EffectiveLimit(s.pullLimit))
  {
    Next(Next(Next(s, Ask(false)), Sample), ReadHead).phase.answer.lines
  }

  /**
   The poll that follows a failed lookup collides exactly when some live row is
   numbered from the oldest retained entry to the last one it pulls.
   */
  lemma BlindLookupCollidesIff(s: System)
    requires Reachable(s) && s.phase.Idle? && s.cursor == None
    ensures KeyFree(s.rows, BlindBatch(s)) == !Covered(s.rows, Oldest(s))
  {
    WindowFacts(s);
    OldestIsPulled(s);
    OldestCollidesIff(s);
  }

  // ---- And then nothing moves ----

  /** The cursor is at 0, and both what would be pulled now and what is in hand hits a row. */
  ghost predicate Stuck(s: System) {
    && s.cursor == Some(0)
    && (forall e :: e in s.log ==> e.seqNo > 0)
    && !KeyFree(s.rows, Oldest(s))
    && match s.phase
      case Idle => true
      case Asked(since) => since == 0
      case Sampled(since, lines, _) => since == 0 && !KeyFree(s.rows, lines)
      case Answered(since, a) => since == 0 && !KeyFree(s.rows, a.lines)
      case Stored(_) => false
  }

  /** The server keeps polling and keeps its memory, no row is trimmed, and a write leaves the oldest entries hitting a row. */
  ghost predicate Standing(s: System, ev: Event)
    requires Enabled(s, ev)
  {
    match ev
    case Write(_) => !KeyFree(s.rows, Oldest(Next(s, ev)))
    case Restart(_) => false
    case ServerRestart => false
    case Forget => false
    case Trim(_) => false
    case _ => true
  }

  lemma EmptyIsFree(rows: Rows)
    ensures KeyFree(rows, [])
  {
  }

  lemma StepStays(s: System, ev: Event)
    requires Stuck(s) && Enabled(s, ev) && Standing(s, ev)
    ensures var t := Next(s, ev); Stuck(t) && t.rows == s.rows && t.inserted == s.inserted
  {
    EmptyIsFree(s.rows);
    if ev.Sample? {
      assert forall e :: e in Window(s) ==> e in s.log;
      OldestIsPulled(s);
    }
    hide KeyFree, First, After, Retained, EffectiveLimit, Losses;
  }

  /** Every event enabled where it happens, lookups answered or not. */
  ghost predicate StandingRun(s: System, evs: seq<Event>)
    decreases |evs|
  {
    evs != [] ==> Enabled(s, evs[0]) && Standing(s, evs[0]) && StandingRun(Next(s, evs[0]), evs[1..])
  }

  ghost function Ahead(s: System, evs: seq<Event>): System
    requires StandingRun(s, evs)
    decreases |evs|
  {
    if evs == [] then s else Ahead(Next(s, evs[0]), evs[1..])
  }

  lemma {:induction false} NothingMoves(s: System, evs: seq<Event>)
    requires Stuck(s) && StandingRun(s, evs)
    ensures var t := Ahead(s, evs); Stuck(t) && t.rows == s.rows && t.inserted == s.inserted
    decreases |evs|
  {
    if evs != [] {
      StepStays(s, evs[0]);
      hide Stuck, Standing, Enabled, Next;
      NothingMoves(Next(s, evs[0]), evs[1..]);
    }
  }

  /**
   A blind lookup that hits a row does not just lose a poll: nothing is inserted any
   more, however often the server polls, until a write, a trim or a restart frees
   the oldest entries.
   */
  lemma BlindLookupSticks(s: System, evs: seq<Event>)
    requires Reachable(s) && s.phase.Idle? && s.cursor == None && Covered(s.rows, Oldest(s))
    requires StandingRun(Next(s, Ask(false)), evs)
    ensures var t := Ahead(Next(s, Ask(false)), evs);
      t.rows == s.rows && t.inserted == s.inserted && t.cursor == Some(0) && !KeyFree(t.rows, Oldest(t))
  {
    OldestCollidesIff(s);
    ReachableInv(s);
    assert Stuck(Next(s, Ask(false)));
    NothingMoves(Next(s, Ask(false)), evs);
  }

  // ---- It does happen ----

  lemma FirstWrite(s: System, record: Record, t: System)
    requires Start(s) && s.counter == 0
    requires t == s.(counter := 1, log := [Entry(1, record)], emitted := [Entry(1, record)])
    ensures Next(s, Write(record)) == t
  {
    assert s.log + [Entry(1, record)] == t.log && s.emitted + [Entry(1, record)] == t.emitted;
    assert Losses(s, t.log) == {};
  }

  lemma FirstShipment(s: System, e: Entry, t: System)
    requires s.capacity == 1 && s.log == [e] && s.inserted == [] && s.rows == map[] && e.seqNo == 1
    requires s.phase.Idle? && s.cursor == None && s.counter == 1 && EffectiveLimit(s.pullLimit) == 500
    requires t == s.(cursor := Some(0), rows := map[1 := e], inserted := [e], phase := Stored(1))
    ensures Next(s, Ask(true)) == s.(cursor := Some(0), phase := Asked(0))
    ensures Next(s.(cursor := Some(0), phase := Asked(0)), Sample) == s.(cursor := Some(0), phase := Sampled(0, [e], 1))
    ensures var a := s.(cursor := Some(0), phase := Answered(0, Answer([e], 1, 1)));
      && Next(s.(cursor := Some(0), phase := Sampled(0, [e], 1)), ReadHead) == a
      && Enabled(a, Finish(true)) && Next(a, Finish(true)) == t
  {
    assert After([e], 0) == [e];
    assert [e][..0] == [] && Insert(map[], []) == map[];
  }

  /** One entry written and shipped. */
  lemma FirstStored(record: Record) returns (t: System)
    ensures Reachable(t) && t.phase == Stored(1) && t.log == [Entry(1, record)] && t.rows == map[1 := Entry(1, record)]
    ensures t.capacity == 1 && EffectiveLimit(t.pullLimit) == 500
  {
    var e := Entry(1, record);
    var s := System(1, 500, 0, [], None, Idle, map[], [], [], {});
    var w := s.(counter := 1, log := [e], emitted := [e]);
    t := w.(cursor := Some(0), rows := map[1 := e], inserted := [e], phase := Stored(1));
    assert Reachable(s) by { assert Run(s, []) == s && Possible(s, []); }
    FirstWrite(s, record, w);
    FirstShipment(w, e, t);
    hide Reachable;
    ReachableStep(s, Write(record));
    hide Next, Window, First, After, Retained, Insert, Judge;
    ReachableStep(w, Ask(true));
    ReachableStep(w.(cursor := Some(0), phase := Asked(0)), Sample);
    ReachableStep(w.(cursor := Some(0), phase := Sampled(0, [e], 1)), ReadHead);
    ReachableStep(w.(cursor := Some(0), phase := Answered(0, Answer([e], 1, 1))), Finish(true));
  }

  /** So a server that restarts while the lookup fails can hit the key: the promise needs the lookup. */
  lemma BlindLookupCanCollide(record: Record) returns (t: System)
    ensures Reachable(t) && t.phase.Idle? && t.cursor == None && !KeyFree(t.rows, BlindBatch(t))
  {
    var e := Entry(1, record);
    var stored := FirstStored(record);
    ReachableStep(stored, ServerRestart);
    t := Next(stored, ServerRestart);
    hide Reachable;
    assert Oldest(t) == [e] && 1 in t.rows;
    BlindLookupCollidesIff(t);
  }
}
