/**
 The log shipping protocol: a worker's ring, the server's poll loop with its
 cursor, and the `system_logs` table keyed by (node, seq) with no conflict
 clause, so freedom from key violations rests on the protocol alone.

 One node is followed through arbitrary runs. A poll is several steps, so
 writes, restarts, trims and lost cursors may fall between any two of them.
 There is one poll loop per node, and a failed insert writes nothing.
 */
module LogShipping {
  import opened Wrappers
  import opened LogRing

  type Rows = map<nat, Entry>

  /** MAX(seq) of the node's live rows, 0 without rows. */
  ghost function MaxSeq(rows: Rows): (m: nat)
    ensures forall k :: k in rows ==> k <= m
    ensures m == 0 || m in rows
    decreases |rows|
  {
    if rows == map[] then 0
    else
      var k :| k in rows;
      var rest := MaxSeq(rows - {k});
      assert forall j :: j in rows ==> j == k || j in rows - {k};
      if k > rest then k else rest
  }

  function LastOf(es: seq<Entry>): nat
    requires es != []
  {
    es[|es| - 1].seqNo
  }

  // ---- What one poll does with the answer it got ----

  datatype Answer = Answer(lines: seq<Entry>, nextSeq: nat, headSeq: nat)

  datatype Verdict =
    | Regressed            // the ring is numerically below the cursor
    | Advance(to: nat)     // nothing to store
    | Store                // insert the batch, then advance

  function Judge(since: nat, a: Answer): Verdict {
    if a.headSeq > 0 && a.headSeq < since then Regressed
    else if a.lines == [] then Advance(if a.nextSeq > since then a.nextSeq else 0)
    else Store
  }

  /** A cursor only ever moves up. */
  function Raise(cursor: Option<nat>, seqNo: nat): Option<nat> {
    if seqNo > (if cursor.Some? then cursor.value else 0) then Some(seqNo) else cursor
  }

  /** No line of the batch hits a live key or another line of the batch. */
  predicate KeyFree(rows: Rows, batch: seq<Entry>) {
    && (forall e :: e in batch ==> e.seqNo !in rows)
    && forall i, j :: 0 <= i < j < |batch| ==> batch[i].seqNo != batch[j].seqNo
  }

  function Insert(rows: Rows, batch: seq<Entry>): (r: Rows)
    decreases |batch|
  {
    if batch == [] then rows
    else Insert(rows, batch[..|batch| - 1])[LastOf(batch) := batch[|batch| - 1]]
  }

  lemma {:induction false} InsertKeys(rows: Rows, batch: seq<Entry>)
    ensures forall k :: k in Insert(rows, batch) <==> k in rows || exists i :: 0 <= i < |batch| && batch[i].seqNo == k
  {
    if batch != [] {
      var init := batch[..|batch| - 1];
      InsertKeys(rows, init);
      var after := Insert(rows, init);
      forall k
        ensures k in Insert(rows, batch) <==> k in rows || exists i :: 0 <= i < |batch| && batch[i].seqNo == k
      {
        if exists i :: 0 <= i < |batch| && batch[i].seqNo == k {
          var i :| 0 <= i < |batch| && batch[i].seqNo == k;
          assert i < |init| ==> init[i].seqNo == k;
        }
        if k in after && k !in rows {
          var i :| 0 <= i < |init| && init[i].seqNo == k;
          assert batch[i].seqNo == k;
        }
        assert k == LastOf(batch) ==> batch[|batch| - 1].seqNo == k;
      }
    }
  }

  /** Every row added is the entry of the batch with that number. */
  lemma {:induction false} InsertValues(rows: Rows, batch: seq<Entry>)
    ensures forall k :: k in Insert(rows, batch) ==>
      var e := Insert(rows, batch)[k]; (k in rows && e == rows[k]) || (e in batch && e.seqNo == k)
  {
    if batch != [] {
      InsertValues(rows, batch[..|batch| - 1]);
    }
  }

  // ---- The system: one worker, one poll loop, one table ----

  datatype Phase =
    | Idle
    | Asked(since: nat)
    | Sampled(since: nat, lines: seq<Entry>, nextSeq: nat)   // snapshot taken, head not yet read
    | Answered(since: nat, answer: Answer)
    | Stored(last: nat)                                       // rows committed, cursor not yet raised

  datatype System = System(
    capacity: nat,
    pullLimit: int,             // ?limit=N, clamped by the worker
    counter: nat,               // the worker's last assigned number
    log: seq<Entry>,            // emitted by the current boot
    cursor: Option<nat>,        // lastSeqs[node]
    phase: Phase,
    rows: Rows,
    inserted: seq<Entry>,       // everything ever committed
    emitted: seq<Entry>,        // everything ever emitted, over all boots
    lost: set<Entry>)           // overwritten or wiped while above the cursor

  datatype Event =
    | Write(record: Record)
    | Restart(anchor: nat)      // the worker process boots again
    | Ask(lookupOk: bool)
    | Sample
    | ReadHead
    | FetchFails
    | Finish(insertOk: bool)
    | Settle
    | ServerRestart
    | Forget                    // the node's ticker is dropped while a poll is in flight
    | Trim(aged: set<nat>)

  ghost predicate Start(s: System) {
    && s.capacity > 0
    && s.log == [] && s.emitted == [] && s.inserted == [] && s.rows == map[]
    && s.cursor == None && s.phase == Idle && s.lost == {}
    && s.counter < SEQ_SPACE
  }

  function Window(s: System): seq<Entry> {
    Retained(s.log, s.capacity)
  }

  /** The position the next poll would start from. */
  ghost function Level(s: System): nat {
    if s.cursor.Some? then s.cursor.value else MaxSeq(s.rows)
  }

  ghost predicate Enabled(s: System, ev: Event) {
    match ev
    case Write(_) => s.counter + 1 < SEQ_SPACE
    case Restart(anchor) => s.counter <= anchor < SEQ_SPACE
    case Ask(_) => s.phase.Idle?
    case Sample => s.phase.Asked?
    case ReadHead => s.phase.Sampled?
    case FetchFails => s.phase.Asked? || s.phase.Sampled?
    case Finish(insertOk) => s.phase.Answered? &&
      (insertOk && Judge(s.phase.since, s.phase.answer).Store? ==> KeyFree(s.rows, s.phase.answer.lines))
    case Settle => s.phase.Stored?
    case ServerRestart => true
    case Forget => true
    case Trim(_) => true
  }

  /** Entries that leave the window unseen: above the cursor when they go. */
  ghost function Losses(s: System, window: seq<Entry>): set<Entry> {
    set e | e in Window(s) && e !in window && e.seqNo > Level(s)
  }

  ghost function Next(s: System, ev: Event): System
    requires Enabled(s, ev)
  {
    match ev
    case Write(record) =>
      var e := Entry(s.counter + 1, record);
      var log := s.log + [e];
      s.(counter := s.counter + 1, log := log, emitted := s.emitted + [e],
         lost := s.lost + Losses(s, Retained(log, s.capacity)))
    case Restart(anchor) =>
      s.(counter := anchor, log := [], lost := s.lost + Losses(s, []),
         phase := if s.phase.Sampled? then Idle else s.phase)
    case Ask(lookupOk) =>
      var since := if s.cursor.Some? then s.cursor.value else if lookupOk then MaxSeq(s.rows) else 0;
      s.(cursor := Some(since), phase := Asked(since))
    case Sample =>
      var lines := First(After(Window(s), s.phase.since), EffectiveLimit(s.pullLimit));
      s.(phase := Sampled(s.phase.since, lines, if lines == [] then s.phase.since else LastOf(lines)))
    case ReadHead =>
      s.(phase := Answered(s.phase.since, Answer(s.phase.lines, s.phase.nextSeq, s.counter)))
    case FetchFails => s.(phase := Idle)
    case Finish(insertOk) =>
      var a := s.phase.answer;
      (match Judge(s.phase.since, a)
       case Regressed => s.(cursor := Some(0), phase := Idle)
       case Advance(to) => s.(cursor := Raise(s.cursor, to), phase := Idle)
       case Store =>
         if insertOk then
           s.(rows := Insert(s.rows, a.lines), inserted := s.inserted + a.lines, phase := Stored(LastOf(a.lines)))
         else s.(phase := Idle))
    case Settle => s.(cursor := Raise(s.cursor, s.phase.last), phase := Idle)
    case ServerRestart => s.(cursor := None, phase := Idle)
    case Forget => s.(cursor := None)
    case Trim(aged) => s.(rows := s.rows - aged)
  }

  /** A run: every event enabled where it happens, every MAX lookup answered. */
  ghost predicate Possible(s: System, evs: seq<Event>)
    decreases |evs|
  {
    evs == [] || (Enabled(s, evs[0]) && evs[0] != Ask(false) && Possible(Next(s, evs[0]), evs[1..]))
  }

  ghost function Run(s: System, evs: seq<Event>): System
    requires Possible(s, evs)
    decreases |evs|
  {
    if evs == [] then s else Run(Next(s, evs[0]), evs[1..])
  }

  // ---- The invariant ----

  ghost predicate RowsUpTo(rows: Rows, bound: nat) {
    forall k :: k in rows ==> k <= bound
  }

  /** Every retained entry up to `bound` has been committed. */
  ghost predicate Drained(s: System, bound: nat) {
    forall e :: e in Window(s) && e.seqNo <= bound ==> e in s.inserted
  }

  /** The batch in hand is above `since` and reaches back to it without a gap. */
  ghost predicate BatchOk(s: System, since: nat, lines: seq<Entry>) {
    && since <= s.counter
    && RowsUpTo(s.rows, since)
    && Increasing(lines)
    && (forall e :: e in lines ==> since < e.seqNo <= s.counter && e in s.emitted)
    && Drained(s, since)
    && (lines != [] ==> forall e :: e in Window(s) && since < e.seqNo <= LastOf(lines) ==> e in lines)
  }

  ghost predicate PhaseOk(s: System) {
    match s.phase
    case Idle => s.cursor.Some? ==> RowsUpTo(s.rows, s.cursor.value)
    case Asked(since) => BatchOk(s, since, []) && (s.cursor.Some? ==> s.cursor.value == since)
    case Sampled(since, lines, next) =>
      && BatchOk(s, since, lines) && (s.cursor.Some? ==> s.cursor.value == since)
      && next == (if lines == [] then since else LastOf(lines))
    case Answered(since, a) =>
      && BatchOk(s, since, a.lines) && (s.cursor.Some? ==> s.cursor.value == since)
      && a.nextSeq == (if a.lines == [] then since else LastOf(a.lines))
      && since <= a.headSeq
    case Stored(last) => last <= s.counter && RowsUpTo(s.rows, last) && Drained(s, last)
                         && (s.cursor.Some? ==> s.cursor.value < last)
  }

  ghost predicate Accounted(s: System) {
    forall e :: e in s.emitted ==> e in s.inserted || e in Window(s) || e in s.lost
  }

  /** Rows are committed entries under their own key, and only emitted entries are committed. */
  ghost predicate Genuine(s: System) {
    && (forall k :: k in s.rows ==> s.rows[k].seqNo == k && s.rows[k] in s.inserted)
    && (forall e :: e in s.inserted ==> e in s.emitted && 0 < e.seqNo <= s.counter)
  }

  ghost predicate LogOk(s: System) {
    && s.capacity > 0
    && Increasing(s.log)
    && (forall e :: e in s.log ==> 0 < e.seqNo <= s.counter && e in s.emitted)
  }

  ghost predicate CursorOk(s: System) {
    s.cursor.Some? ==> s.cursor.value <= s.counter && Drained(s, s.cursor.value)
  }

  ghost predicate RowsOk(s: System) {
    RowsUpTo(s.rows, s.counter) && forall k :: k in s.rows ==> Drained(s, k)
  }

  ghost predicate Inv(s: System) {
    LogOk(s) && CursorOk(s) && RowsOk(s) && Genuine(s) && PhaseOk(s) && Accounted(s)
  }

  // ---- Every step keeps it ----

  lemma {:induction false} AfterIncreasing(es: seq<Entry>, since: nat)
    requires Increasing(es)
    ensures Increasing(After(es, since))
  {
    if es != [] {
      AfterIncreasing(es[1..], since);
      if es[0].seqNo > since {
        var rest := After(es[1..], since);
        forall j | 0 <= j < |rest|
          ensures es[0].seqNo < rest[j].seqNo
        {
          AfterMembers(es[1..], since, rest[j]);
        }
      }
    }
  }

  /** A snapshot is increasing, above the cursor, and without gaps up to its last line. */
  lemma SnapshotOk(window: seq<Entry>, since: nat, limit: nat)
    requires limit > 0 && Increasing(window)
    ensures var lines := First(After(window, since), limit);
      && Increasing(lines)
      && (forall e :: e in lines ==> e in window && e.seqNo > since)
      && (lines == [] ==> forall e :: e in window ==> e.seqNo <= since)
      && (lines != [] ==> forall e :: e in window && since < e.seqNo <= LastOf(lines) ==> e in lines)
  {
    var all := After(window, since);
    var lines := First(all, limit);
    AfterIncreasing(window, since);
    forall e
      ensures e in all <==> e in window && e.seqNo > since
    {
      AfterMembers(window, since, e);
    }
    if lines != [] {
      forall e | e in window && since < e.seqNo <= LastOf(lines)
        ensures e in lines
      {
        var i :| 0 <= i < |all| && all[i] == e;
        assert all[i].seqNo <= all[|lines| - 1].seqNo;
        assert lines[i] == e;
      }
    }
  }

  lemma WindowAfterWrite(s: System, record: Record)
    requires s.capacity > 0 && Enabled(s, Write(record))
    ensures var e, t := Entry(s.counter + 1, record), Next(s, Write(record));
      && e in Window(t)
      && forall x :: x in Window(t) ==> x == e || x in Window(s)
  {
    var e, t := Entry(s.counter + 1, record), Next(s, Write(record));
    RetainedAppend(s.log, e, s.capacity);
    assert Window(t)[|Window(t)| - 1] == e;
  }

  lemma WriteKeepsAccounts(s: System, record: Record)
    requires Inv(s) && Enabled(s, Write(record))
    ensures Accounted(Next(s, Write(record)))
  {
    var e, t := Entry(s.counter + 1, record), Next(s, Write(record));
    WindowAfterWrite(s, record);
    assert Drained(s, Level(s));
    forall x | x in t.emitted
      ensures x in t.inserted || x in Window(t) || x in t.lost
    {
      if x in s.emitted && x in Window(s) && x !in Window(t) && x !in s.inserted {
        assert x in Losses(s, Window(t));
      }
    }
  }

  /** Nothing that was drained comes back by writing. */
  lemma WriteKeepsDrained(s: System, record: Record, bound: nat)
    requires s.capacity > 0 && Enabled(s, Write(record)) && bound <= s.counter && Drained(s, bound)
    ensures Drained(Next(s, Write(record)), bound)
  {
    WindowAfterWrite(s, record);
  }

  lemma WriteKeepsBatch(s: System, record: Record, since: nat, lines: seq<Entry>)
    requires s.capacity > 0 && Enabled(s, Write(record)) && BatchOk(s, since, lines)
    ensures BatchOk(Next(s, Write(record)), since, lines)
  {
    WindowAfterWrite(s, record);
    WriteKeepsDrained(s, record, since);
    if lines != [] {
      assert lines[|lines| - 1] in lines;
    }
    hide Window, Drained;
  }

  lemma WriteKeepsPhase(s: System, record: Record)
    requires Inv(s) && Enabled(s, Write(record))
    ensures PhaseOk(Next(s, Write(record)))
  {
    match s.phase {
      case Idle =>
      case Asked(since) => WriteKeepsBatch(s, record, since, []);
      case Sampled(since, lines, _) => WriteKeepsBatch(s, record, since, lines);
      case Answered(since, a) => WriteKeepsBatch(s, record, since, a.lines);
      case Stored(last) => WriteKeepsDrained(s, record, last);
    }
    hide BatchOk, Drained, Accounted, Genuine, Window, Losses;
  }

  lemma WriteKeepsRows(s: System, record: Record)
    requires Inv(s) && Enabled(s, Write(record))
    ensures CursorOk(Next(s, Write(record))) && RowsOk(Next(s, Write(record)))
  {
    forall k | k in s.rows
      ensures Drained(Next(s, Write(record)), k)
    {
      WriteKeepsDrained(s, record, k);
    }
    if s.cursor.Some? {
      WriteKeepsDrained(s, record, s.cursor.value);
    }
    hide PhaseOk, Drained, Accounted, Genuine, Window, Losses, Increasing;
  }

  lemma WriteKeepsLog(s: System, record: Record)
    requires Inv(s) && Enabled(s, Write(record))
    ensures LogOk(Next(s, Write(record))) && Genuine(Next(s, Write(record)))
  {
    hide PhaseOk, CursorOk, RowsOk, Accounted, Window, Losses;
  }

  lemma StepWrite(s: System, record: Record)
    requires Inv(s) && Enabled(s, Write(record))
    ensures Inv(Next(s, Write(record)))
  {
    WriteKeepsAccounts(s, record);
    WriteKeepsPhase(s, record);
    WriteKeepsRows(s, record);
    WriteKeepsLog(s, record);
    hide LogOk, CursorOk, RowsOk, Genuine, PhaseOk, Accounted, Next;
  }

  lemma RestartKeepsAccounts(s: System, anchor: nat)
    requires Inv(s) && Enabled(s, Restart(anchor))
    ensures Accounted(Next(s, Restart(anchor)))
  {
    var t := Next(s, Restart(anchor));
    assert Window(t) == [];
    assert Drained(s, Level(s));
    forall x | x in t.emitted
      ensures x in t.inserted || x in Window(t) || x in t.lost
    {
      if x in Window(s) && x !in s.inserted {
        assert x in Losses(s, []);
      }
    }
  }

  /** The worker and the log are as before, and no row is new. */
  ghost predicate Still(s: System, t: System) {
    && t.capacity == s.capacity && t.counter == s.counter && t.log == s.log
    && t.inserted == s.inserted && t.emitted == s.emitted && t.lost == s.lost
    && forall k :: k in t.rows ==> k in s.rows && t.rows[k] == s.rows[k]
  }

  lemma StillDrained(s: System, t: System, bound: nat)
    requires Still(s, t)
    ensures Drained(t, bound) == Drained(s, bound)
  {
    assert Window(t) == Window(s);
    hide Window;
  }

  lemma StillKeeps(s: System, t: System)
    requires Inv(s) && Still(s, t)
    ensures LogOk(t) && RowsOk(t) && Genuine(t) && Accounted(t)
  {
    assert Window(t) == Window(s);
    forall k | k in t.rows
      ensures Drained(t, k)
    {
      StillDrained(s, t, k);
    }
    hide Window, Drained, PhaseOk, CursorOk, Increasing;
  }

  lemma StillBatch(s: System, t: System, since: nat, lines: seq<Entry>)
    requires Still(s, t) && BatchOk(s, since, lines)
    ensures BatchOk(t, since, lines)
  {
    StillDrained(s, t, since);
    assert Window(t) == Window(s);
    hide Window, Drained, Increasing;
  }

  /** A poll in flight minds neither rows that go nor a cursor that is forgotten. */
  lemma StillPhase(s: System, t: System)
    requires Still(s, t) && PhaseOk(s) && t.phase == s.phase && (t.cursor == s.cursor || t.cursor.None?)
    ensures PhaseOk(t)
  {
    match s.phase {
      case Idle =>
      case Asked(since) => StillBatch(s, t, since, []);
      case Sampled(since, lines, _) => StillBatch(s, t, since, lines);
      case Answered(since, a) => StillBatch(s, t, since, a.lines);
      case Stored(last) => StillDrained(s, t, last);
    }
    hide BatchOk, Drained;
  }

  lemma StepRestart(s: System, anchor: nat)
    requires Inv(s) && Enabled(s, Restart(anchor))
    ensures Inv(Next(s, Restart(anchor)))
  {
    RestartKeepsAccounts(s, anchor);
    var t := Next(s, Restart(anchor));
    assert Window(t) == [];
    assert forall bound: nat :: Drained(t, bound);
    hide Accounted, Losses, Window, Drained;
  }

  lemma StepAsk(s: System)
    requires Inv(s) && Enabled(s, Ask(true))
    ensures Inv(Next(s, Ask(true)))
  {
    var t := Next(s, Ask(true));
    assert Drained(t, t.phase.since);
  }

  /** Taking any gap-free increasing batch from the window is fine. */
  lemma BatchInHand(s: System, lines: seq<Entry>)
    requires Inv(s) && s.phase.Asked?
    requires Increasing(lines)
    requires forall e :: e in lines ==> e in s.log && e.seqNo > s.phase.since
    requires lines != [] ==> forall e :: e in Window(s) && s.phase.since < e.seqNo <= LastOf(lines) ==> e in lines
    ensures Inv(s.(phase := Sampled(s.phase.since, lines, if lines == [] then s.phase.since else LastOf(lines))))
  {
    var t := s.(phase := Sampled(s.phase.since, lines, if lines == [] then s.phase.since else LastOf(lines)));
    assert Window(t) == Window(s);
    assert forall bound: nat :: Drained(s, bound) ==> Drained(t, bound);
    assert BatchOk(t, s.phase.since, lines);
  }

  lemma StepSample(s: System)
    requires Inv(s) && Enabled(s, Sample)
    ensures Inv(Next(s, Sample))
  {
    var window, since := Window(s), s.phase.since;
    SnapshotOk(window, since, EffectiveLimit(s.pullLimit));
    var lines := First(After(window, since), EffectiveLimit(s.pullLimit));
    assert forall e :: e in window ==> e in s.log;
    BatchInHand(s, lines);
  }

  lemma StepReadHead(s: System)
    requires Inv(s) && Enabled(s, ReadHead)
    ensures Inv(Next(s, ReadHead))
  {
    var t := Next(s, ReadHead);
    assert Still(s, t);
    StillKeeps(s, t);
    StillBatch(s, t, s.phase.since, s.phase.lines);
    if t.cursor.Some? {
      StillDrained(s, t, t.cursor.value);
    }
    hide LogOk, RowsOk, Genuine, Accounted, Drained;
  }

  /** Committing the batch in hand covers the window up to its last line. */
  lemma CommitCovers(s: System, lines: seq<Entry>, t: System)
    requires Inv(s) && s.phase.Answered? && BatchOk(s, s.phase.since, lines) && lines != []
    requires t == s.(rows := Insert(s.rows, lines), inserted := s.inserted + lines, phase := Stored(LastOf(lines)))
    ensures Genuine(t) && RowsUpTo(t.rows, LastOf(lines)) && LastOf(lines) <= s.counter
    ensures forall bound: nat :: bound <= LastOf(lines) ==> Drained(t, bound)
  {
    InsertKeys(s.rows, lines);
    InsertValues(s.rows, lines);
    assert lines[|lines| - 1] in lines;
    assert forall i :: 0 <= i < |lines| ==> lines[i] in lines && lines[i].seqNo <= LastOf(lines);
  }

  lemma StepFinish(s: System, insertOk: bool)
    requires Inv(s) && Enabled(s, Finish(insertOk))
    ensures Inv(Next(s, Finish(insertOk)))
  {
    var t := Next(s, Finish(insertOk));
    assert Window(t) == Window(s);
    if t.phase.Stored? {
      CommitCovers(s, s.phase.answer.lines, t);
    } else {
      assert t.cursor == s.cursor;
      assert forall bound: nat :: Drained(s, bound) ==> Drained(t, bound);
    }
  }

  /** A poll given up, and a cursor forgotten, with the server or on its own. */
  lemma StepServer(s: System, ev: Event)
    requires Inv(s) && Enabled(s, ev) && (ev.FetchFails? || ev.ServerRestart? || ev.Forget?)
    ensures Inv(Next(s, ev))
  {
    var t := Next(s, ev);
    assert Still(s, t);
    StillKeeps(s, t);
    if t.cursor.Some? {
      StillDrained(s, t, t.cursor.value);
    }
    if ev.Forget? {
      StillPhase(s, t);
    }
    hide LogOk, RowsOk, Genuine, Accounted, Drained, Judge, Still, Insert, MaxSeq;
  }

  lemma StepSettle(s: System)
    requires Inv(s) && Enabled(s, Settle)
    ensures Inv(Next(s, Settle))
  {
    var t := Next(s, Settle);
    assert Still(s, t);
    StillKeeps(s, t);
    if t.cursor.Some? {
      StillDrained(s, t, t.cursor.value);
    }
    hide LogOk, RowsOk, Genuine, Accounted, Drained, Still;
  }

  lemma StepTrim(s: System, aged: set<nat>)
    requires Inv(s) && Enabled(s, Trim(aged))
    ensures Inv(Next(s, Trim(aged)))
  {
    var t := Next(s, Trim(aged));
    assert Still(s, t);
    StillKeeps(s, t);
    StillPhase(s, t);
    if t.cursor.Some? {
      StillDrained(s, t, t.cursor.value);
    }
    hide LogOk, RowsOk, Genuine, Accounted, Drained, PhaseOk;
  }

  lemma StepKeepsInv(s: System, ev: Event)
    requires Inv(s) && Enabled(s, ev) && ev != Ask(false)
    ensures Inv(Next(s, ev))
  {
    match ev
    case Write(record) => StepWrite(s, record);
    case Restart(anchor) => StepRestart(s, anchor);
    case Ask(_) => StepAsk(s);
    case Sample => StepSample(s);
    case ReadHead => StepReadHead(s);
    case Finish(insertOk) => StepFinish(s, insertOk);
    case Trim(aged) => StepTrim(s, aged);
    case Settle => StepSettle(s);
    case _ => StepServer(s, ev);
  }

  lemma {:induction false} RunKeepsInv(s: System, evs: seq<Event>)
    requires Inv(s) && Possible(s, evs)
    ensures Inv(Run(s, evs))
    decreases |evs|
  {
    if evs != [] {
      StepKeepsInv(s, evs[0]);
      RunKeepsInv(Next(s, evs[0]), evs[1..]);
    }
  }

  ghost predicate Reachable(s: System) {
    exists s0, evs :: Start(s0) && Possible(s0, evs) && Run(s0, evs) == s
  }

  lemma ReachableInv(s: System)
    requires Reachable(s)
    ensures Inv(s)
  {
    var s0, evs :| Start(s0) && Possible(s0, evs) && Run(s0, evs) == s;
    RunKeepsInv(s0, evs);
  }

  lemma {:induction false} RunAppend(s: System, evs: seq<Event>, ev: Event)
    requires Possible(s, evs) && Enabled(Run(s, evs), ev) && ev != Ask(false)
    ensures Possible(s, evs + [ev]) && Run(s, evs + [ev]) == Next(Run(s, evs), ev)
    decreases |evs|
  {
    if evs == [] {
      assert [ev][1..] == [];
    } else {
      RunAppend(Next(s, evs[0]), evs[1..], ev);
      assert (evs + [ev])[1..] == evs[1..] + [ev];
    }
  }

  lemma ReachableStep(s: System, ev: Event)
    requires Reachable(s) && Enabled(s, ev) && ev != Ask(false)
    ensures Reachable(Next(s, ev))
  {
    var s0, evs :| Start(s0) && Possible(s0, evs) && Run(s0, evs) == s;
    RunAppend(s0, evs, ev);
  }

  // ---- Safety over whole runs ----

  lemma AnswerIsSafe(s: System)
    requires Inv(s) && s.phase.Answered?
    ensures !Judge(s.phase.since, s.phase.answer).Regressed?
    ensures KeyFree(s.rows, s.phase.answer.lines)
  {
  }

  /**
   In every state reachable by writes, worker restarts, polls, failed fetches and inserts,
   server restarts, dropped tickers and trims: no live row is above the cursor
   except between a commit and the cursor update that follows it, no insert hits
   the key, the regression branch is never taken, and an entry that was neither
   committed nor retained went while it was above the cursor.
   */
  lemma CursorProtocol(s: System)
    requires Reachable(s)
    ensures RowsUpTo(s.rows, if s.phase.Stored? then s.phase.last else Level(s))
    ensures Genuine(s)
    ensures s.phase.Answered? ==>
      KeyFree(s.rows, s.phase.answer.lines) && !Judge(s.phase.since, s.phase.answer).Regressed?
    ensures forall e :: e in s.emitted && e !in s.inserted ==> e in Window(s) || e in s.lost
  {
    ReachableInv(s);
    if s.phase.Answered? {
      AnswerIsSafe(s);
    }
  }

  /** No step of the run makes the server forget its cursor. */
  ghost predicate CursorKept(evs: seq<Event>) {
    forall i :: 0 <= i < |evs| ==> !evs[i].ServerRestart? && !evs[i].Forget?
  }

  ghost predicate Ordered(s: System) {
    && Increasing(s.inserted)
    && var top := if s.phase.Stored? then s.phase.last else if s.cursor.Some? then s.cursor.value else 0;
      forall e :: e in s.inserted ==> e.seqNo <= top
  }

  lemma JoinIncreasing(a: seq<Entry>, b: seq<Entry>, middle: nat)
    requires Increasing(a) && Increasing(b) && b != []
    requires (forall e :: e in a ==> e.seqNo <= middle) && (forall e :: e in b ==> middle < e.seqNo)
    ensures Increasing(a + b) && forall e :: e in a + b ==> e.seqNo <= LastOf(b)
  {
    assert forall i :: 0 <= i < |a| ==> a[i] in a;
    assert forall i :: 0 <= i < |b| ==> b[i] in b && b[i].seqNo <= LastOf(b);
  }

  lemma StepKeepsOrder(s: System, ev: Event)
    requires Inv(s) && Ordered(s) && Enabled(s, ev) && ev != Ask(false)
    requires !ev.ServerRestart? && !ev.Forget?
    requires !s.phase.Idle? ==> s.cursor.Some?
    ensures Ordered(Next(s, ev))
    ensures var t := Next(s, ev); !t.phase.Idle? ==> t.cursor.Some?
  {
    if ev.Finish? {
      AnswerIsSafe(s);
      var lines := s.phase.answer.lines;
      if lines != [] {
        JoinIncreasing(s.inserted, lines, s.phase.since);
      }
    }
  }

  /** While the server keeps its cursor, entries are committed in order and at most once each. */
  lemma {:induction false} CommittedOnceInOrder(s: System, evs: seq<Event>)
    requires Inv(s) && Ordered(s) && Possible(s, evs) && CursorKept(evs)
    requires !s.phase.Idle? ==> s.cursor.Some?
    ensures Increasing(Run(s, evs).inserted)
    decreases |evs|
  {
    if evs != [] {
      StepKeepsInv(s, evs[0]);
      StepKeepsOrder(s, evs[0]);
      CommittedOnceInOrder(Next(s, evs[0]), evs[1..]);
    }
  }

  lemma WindowFacts(s: System)
    requires Reachable(s)
    ensures Increasing(Window(s)) && forall e :: e in Window(s) ==> e.seqNo > 0
  {
    ReachableInv(s);
    assert forall e :: e in Window(s) ==> e in s.log;
  }
}
