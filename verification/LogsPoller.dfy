/**
 The server's poller as the object it is: maps from node to cursor and failing
 flag, and the keyed table. Its methods are tied to the per-node poll function,
 and that function to the protocol's steps.
 */
module LogsPoller {
  import opened Wrappers
  import opened LogRing
  import opened LogShipping
  import opened LogDraining

  const PULL_LIMIT: nat := 500

  /** What the protocol sees of one node on the server. */
  datatype NodeView = NodeView(cursor: Option<nat>, rows: Rows)

  /**
   One whole poll of a node. `lookup` is the outcome of MAX(seq), `fetched` of the
   fetch, `dbUp` of the insert as far as the key allows it.
   */
  function Polled(v: NodeView, lookup: Option<nat>, fetched: Option<Answer>, dbUp: bool): NodeView {
    var since := Since(v.cursor, lookup);
    match fetched
    case None => v.(cursor := Some(since))
    case Some(a) => Taken(since, v.rows, a, dbUp)
  }

  /**
   The same with the cursor at hand and an answer: a cursor above the newest entry
   starts over, and otherwise it only moves up, past a batch when that is stored.
   */
  function Taken(since: nat, rows: Rows, a: Answer, dbUp: bool): (v: NodeView)
    ensures 0 < a.headSeq < since ==> v == NodeView(Some(0), rows)
    ensures !(0 < a.headSeq < since) && a.lines == [] ==>
      v == NodeView(Some(if a.nextSeq > since then a.nextSeq else since), rows)
    ensures !(0 < a.headSeq < since) && a.lines != [] ==>
      var stored := dbUp && KeyFree(rows, a.lines);
      && v.cursor == Some(if stored && LastOf(a.lines) > since then LastOf(a.lines) else since)
      && v.rows == if stored then Insert(rows, a.lines) else rows
  {
    match Judge(since, a)
    case Regressed => NodeView(Some(0), rows)
    case Advance(to) => NodeView(Raise(Some(since), to), rows)
    case Store =>
      if dbUp && KeyFree(rows, a.lines) then NodeView(Raise(Some(since), LastOf(a.lines)), Insert(rows, a.lines))
      else NodeView(Some(since), rows)
  }

  function Since(cursor: Option<nat>, lookup: Option<nat>): nat {
    if cursor.Some? then cursor.value else if lookup.Some? then lookup.value else 0
  }

  function Seen(s: System): NodeView {
    NodeView(s.cursor, s.rows)
  }

  /** What the lookup of an undisturbed poll brings. */
  ghost function Looked(s: System, lookupOk: bool): Option<nat> {
    if lookupOk then Some(MaxSeq(s.rows)) else None
  }

  /**
   An undisturbed poll of an idle loop is exactly the protocol's five steps,
   whether or not the lookup is answered. In reachable states with an answered
   lookup only the database itself can refuse the insert.
   */
  lemma PolledIsTheProtocol(s: System, lookupOk: bool, dbUp: bool)
    requires s.phase.Idle?
    ensures var a := Next(Next(Next(s, Ask(lookupOk)), Sample), ReadHead);
      var inserts := dbUp && KeyFree(s.rows, a.phase.answer.lines);
      Enabled(a, Finish(inserts)) &&
      var f := Next(a, Finish(inserts));
      var t := if f.phase.Stored? then Next(f, Settle) else f;
      && t.phase.Idle? && Seen(t) == Polled(Seen(s), Looked(s, lookupOk), Some(a.phase.answer), dbUp)
      && (Reachable(s) && lookupOk ==> inserts == dbUp)
  {
    hide Reachable, MaxSeq, KeyFree, Insert, First, After, Window;
    if Reachable(s) && lookupOk {
      AnsweredIsFree(s);
    }
  }

  lemma AnsweredIsFree(s: System)
    requires Reachable(s) && s.phase.Idle?
    ensures KeyFree(s.rows, Next(Next(Next(s, Ask(true)), Sample), ReadHead).phase.answer.lines)
  {
    hide Reachable, NextBatch, MaxSeq, KeyFree;
    var a := QuietAnswer(s);
    hide QuietPoll;
    assert Reachable(a);
    ReachableInv(a);
    hide Inv;
    StillFree(a);
  }

  lemma StillFree(a: System)
    requires Inv(a) && a.phase.Answered?
    ensures KeyFree(a.rows, a.phase.answer.lines)
  {
    AnswerIsSafe(a);
  }

  /** A poll whose fetch fails, at either of its two requests, is the protocol's failed fetch. */
  lemma FailedPollIsTheProtocol(s: System, lookupOk: bool, dbUp: bool)
    requires s.phase.Idle?
    ensures var asked := Next(s, Ask(lookupOk));
      var v := Polled(Seen(s), Looked(s, lookupOk), None, dbUp);
      && Seen(Next(asked, FetchFails)) == v && Next(asked, FetchFails).phase.Idle?
      && Seen(Next(Next(asked, Sample), FetchFails)) == v
  {
    hide MaxSeq, First, After, Window;
  }

  /** system_logs, one map of rows per node. */
  class SystemLogs {
    var rows: map<string, Rows>

    constructor ()
      ensures rows == map[]
    {
      rows := map[];
    }

    function Of(node: string): Rows
      reads this
    {
      if node in rows then rows[node] else map[]
    }

    /** One INSERT in one transaction: all rows, or none when the key or the database says no. */
    method BatchInsert(node: string, batch: seq<Entry>, dbUp: bool) returns (ok: bool)
      modifies this
      ensures ok == (batch == [] || (dbUp && KeyFree(old(Of(node)), batch)))
      ensures Of(node) == if ok then Insert(old(Of(node)), batch) else old(Of(node))
      ensures forall n :: n != node ==> Of(n) == old(Of(n))
    {
      if |batch| == 0 {
        return true;
      }
      ok := dbUp && KeyFree(Of(node), batch);
      if ok {
        rows := rows[node := Insert(Of(node), batch)];
      }
    }
  }

  class Poller {
    const table: SystemLogs
    var lastSeqs: map<string, nat>
    var failing: map<string, bool>
    var tickers: set<string>

    constructor (table: SystemLogs)
      ensures this.table == table && lastSeqs == map[] && failing == map[] && tickers == {}
    {
      this.table := table;
      lastSeqs, failing, tickers := map[], map[], {};
    }

    function Lookup(node: string): Option<nat>
      reads this
    {
      if node in lastSeqs then Some(lastSeqs[node]) else None
    }

    function View(node: string): NodeView
      reads this, table
    {
      NodeView(Lookup(node), table.Of(node))
    }

    /** The cursor, initialised on first use from MAX(seq), or from 0 when that lookup fails. */
    method Cursor(node: string, lookup: Option<nat>) returns (since: nat)
      modifies this`lastSeqs
      ensures since == Since(old(Lookup(node)), lookup)
      ensures lastSeqs == old(lastSeqs)[node := since]
    {
      if node in lastSeqs {
        since := lastSeqs[node];
        assert lastSeqs == lastSeqs[node := since];
        return;
      }
      var persisted := if lookup.Some? then lookup.value else 0;
      if node !in lastSeqs {
        lastSeqs := lastSeqs[node := persisted];
      }
      since := lastSeqs[node];
    }

    method SetCursor(node: string, seqNo: nat)
      modifies this`lastSeqs
      ensures Lookup(node) == Raise(old(Lookup(node)), seqNo)
      ensures forall n :: n != node ==> Lookup(n) == old(Lookup(n))
    {
      if seqNo > (if node in lastSeqs then lastSeqs[node] else 0) {
        lastSeqs := lastSeqs[node := seqNo];
      }
    }

    /**
     Polls one node; every other node keeps its cursor and its rows. A failed fetch
     leaves an initialised cursor and the rows alone.
     */
    method PollOne(node: string, lookup: Option<nat>, fetched: Option<Answer>, dbUp: bool)
      modifies this`lastSeqs, this`failing, table
      ensures View(node) == Polled(old(View(node)), lookup, fetched, dbUp)
      ensures forall n :: n != node ==> View(n) == old(View(n))
      ensures failing == old(failing)[node := fetched == None]
      ensures fetched == None ==> table.rows == old(table.rows)
      ensures fetched == None && node in old(lastSeqs) ==> lastSeqs == old(lastSeqs)
    {
      var since := Cursor(node, lookup);
      match fetched
      case None =>
        failing := failing[node := true];
        assert node in old(lastSeqs) ==> lastSeqs == old(lastSeqs);
      case Some(a) =>
        failing := failing[node := false];
        hide Taken;
        TakeAnswer(node, since, a, dbUp);
    }

    /** What is done with an answer, a cursor that is above the worker's newest entry first. */
    method TakeAnswer(node: string, since: nat, a: Answer, dbUp: bool)
      requires Lookup(node) == Some(since)
      modifies this`lastSeqs, table
      ensures View(node) == Taken(since, old(table.Of(node)), a, dbUp)
      ensures forall n :: n != node ==> View(n) == old(View(n))
    {
      hide KeyFree, Insert;
      if a.headSeq > 0 && a.headSeq < since {
        lastSeqs := lastSeqs[node := 0];
        return;
      }
      if |a.lines| == 0 {
        if a.nextSeq > since {
          SetCursor(node, a.nextSeq);
        }
        return;
      }
      var ok := table.BatchInsert(node, a.lines, dbUp);
      if !ok {
        return;
      }
      SetCursor(node, a.lines[|a.lines| - 1].seqNo);
    }

    /** Syncs the tickers with the cluster list; a failed listing leaves only the server's own ticker. */
    method ReconcileOnce(clusters: Option<set<string>>)
      modifies this
      ensures tickers == {"server"} + (if clusters.Some? then clusters.value else {})
      ensures lastSeqs == old(lastSeqs) - (old(tickers) - tickers)
      ensures failing == old(failing) - (old(tickers) - tickers)
    {
      var want := {"server"};
      if clusters.Some? {
        want := want + clusters.value;
      }
      ghost var was := tickers;
      var gone := tickers - want;
      while gone != {}
        invariant gone <= tickers
        invariant tickers == was - ((was - want) - gone)
        invariant gone <= was - want
        invariant lastSeqs == old(lastSeqs) - ((was - want) - gone)
        invariant failing == old(failing) - ((was - want) - gone)
        decreases gone
      {
        var node :| node in gone;
        tickers, failing, lastSeqs := tickers - {node}, failing - {node}, lastSeqs - {node};
        gone := gone - {node};
      }
      tickers := tickers + want;
      assert was - tickers == was - want;
    }
  }
}
