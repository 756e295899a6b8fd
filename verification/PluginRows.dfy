/**
 The server's table of plugins per cluster, written by the enable and disable
 commands of users and by the status pushes of workers, which may arrive late,
 twice or in another order. Each database transaction is one step. The
 characters of a text stand for its bytes.
 */
module PluginRows {
  import opened Wrappers

  datatype Key = Key(cluster: string, plugin: nat)

  /** What the user decided. */
  datatype Choice = Choice(enabled: bool, versionOverride: string, valuesOverride: string)

  /** What a worker last reported. */
  datatype Report = Report(
    phase: string, message: string, version: string, valuesHash: string, revision: int, installedAt: Option<int>)

  datatype Row = Row(choice: Choice, report: Report)

  type Table = map<Key, Row>

  datatype Push = Push(phase: string, message: string, version: string, valuesHash: string, revision: int, installedAt: int)

  const PENDING := "Pending"
  const UNINSTALLING := "Uninstalling"
  const FAILED := "Failed"
  const DISABLED := "Disabled"

  /** An empty phase is the beat after a finished uninstall. */
  predicate EndBeat(p: Push) {
    p.phase == "" || p.phase == DISABLED
  }

  /** Phases that a worker reports while it carries out a disable. */
  predicate Leaving(phase: string) {
    phase == UNINSTALLING || phase == FAILED
  }

  function Reported(before: Option<int>, p: Push): Report {
    Report(p.phase, p.message, p.version, p.valuesHash, p.revision,
      if p.installedAt > 0 then Some(p.installedAt) else before)
  }

  function DeleteDisabled(t: Table, k: Key): Table {
    if k in t && !t[k].choice.enabled then t - {k} else t
  }

  /** A missing row is inserted as enabled, without overrides. */
  function UpsertStatus(t: Table, k: Key, p: Push): Table {
    if k in t then t[k := Row(t[k].choice, Reported(t[k].report.installedAt, p))]
    else t[k := Row(Choice(true, "", ""), Reported(None, p))]
  }

  function PersistIfActive(t: Table, k: Key, p: Push): Table {
    if k in t && !t[k].choice.enabled && !Leaving(p.phase) then t else UpsertStatus(t, k, p)
  }

  function Persist(t: Table, k: Key, p: Push): Table {
    if EndBeat(p) then DeleteDisabled(t, k) else PersistIfActive(t, k, p)
  }

  /** The enable command overwrites the choice and starts over at Pending. */
  function EnableRow(t: Table, k: Key, versionOverride: string, valuesOverride: string): Table {
    var choice := Choice(true, versionOverride, valuesOverride);
    if k in t then t[k := Row(choice, t[k].report.(phase := PENDING, message := ""))]
    else t[k := Row(choice, Report(PENDING, "", "", "", 0, None))]
  }

  /** The disable command updates a row there is; it never makes one. */
  function DisableRow(t: Table, k: Key): Table {
    if k in t then t[k := Row(t[k].choice.(enabled := false), t[k].report.(phase := UNINSTALLING, message := ""))] else t
  }

  // ---- Any interleaving ----

  datatype Event =
    | Pushed(key: Key, push: Push)
    | EnabledBy(key: Key, versionOverride: string, valuesOverride: string)
    | DisabledBy(key: Key)

  function Step(t: Table, e: Event): Table {
    match e
    case Pushed(k, p) => Persist(t, k, p)
    case EnabledBy(k, v, w) => EnableRow(t, k, v, w)
    case DisabledBy(k) => DisableRow(t, k)
  }

  function Play(t: Table, es: seq<Event>): Table
    decreases |es|
  {
    if es == [] then t else Play(Step(t, es[0]), es[1..])
  }

  predicate RowOk(r: Row) {
    r.report.phase != "" && r.report.phase != DISABLED && (!r.choice.enabled ==> Leaving(r.report.phase))
  }

  ghost predicate TableOk(t: Table) {
    forall k :: k in t ==> RowOk(t[k])
  }

  /** Whatever arrives in whatever order: no stored phase is empty or Disabled, and a disabled row is Uninstalling or Failed. */
  lemma {:induction false} RowsStayOk(t: Table, es: seq<Event>)
    requires TableOk(t)
    ensures TableOk(Play(t, es))
    decreases |es|
  {
    if es != [] {
      StepStaysOk(t, es[0]);
      RowsStayOk(Step(t, es[0]), es[1..]);
    }
  }

  lemma StepStaysOk(t: Table, e: Event)
    requires TableOk(t)
    ensures TableOk(Step(t, e))
  {
    var u := Step(t, e);
    forall k | k in u
      ensures RowOk(u[k])
    {
      if k in t {
        assert RowOk(t[k]);
      }
    }
  }

  /** A push keeps every existing choice and removes a row only when it is disabled and the push is an end beat. */
  lemma PushKeepsChoices(t: Table, k: Key, p: Push, other: Key)
    requires other in t
    ensures other in Persist(t, k, p) ==> Persist(t, k, p)[other].choice == t[other].choice
    ensures other !in Persist(t, k, p) ==> other == k && EndBeat(p) && !t[other].choice.enabled
    ensures other != k ==> other in Persist(t, k, p) && Persist(t, k, p)[other] == t[other]
  {
  }

  /** Events for other rows do not matter, so a row's history is its own. */
  lemma {:induction false} RowsAreIndependent(t: Table, es: seq<Event>, k: Key)
    ensures Look(Play(t, es), k) == PlayRow(Look(t, k), es, k)
    decreases |es|
  {
    if es != [] {
      StepIsLocal(t, es[0], k);
      RowsAreIndependent(Step(t, es[0]), es[1..], k);
    }
  }

  function Look(t: Table, k: Key): Option<Row> {
    if k in t then Some(t[k]) else None
  }

  /** One row under the events of a whole table. */
  function PlayRow(r: Option<Row>, es: seq<Event>, k: Key): Option<Row>
    decreases |es|
  {
    if es == [] then r
    else PlayRow(if es[0].key == k then StepRow(r, es[0]) else r, es[1..], k)
  }

  function StepRow(r: Option<Row>, e: Event): Option<Row> {
    match e
    case Pushed(_, p) => PushRow(r, p)
    case EnabledBy(_, v, w) =>
      Some(Row(Choice(true, v, w),
        if r.Some? then r.value.report.(phase := PENDING, message := "") else Report(PENDING, "", "", "", 0, None)))
    case DisabledBy(_) =>
      if r.None? then None
      else Some(Row(r.value.choice.(enabled := false), r.value.report.(phase := UNINSTALLING, message := "")))
  }

  function PushRow(r: Option<Row>, p: Push): Option<Row> {
    match r
    case None => if EndBeat(p) then None else Some(Row(Choice(true, "", ""), Reported(None, p)))
    case Some(row) =>
      if EndBeat(p) then (if row.choice.enabled then r else None)
      else if !row.choice.enabled && !Leaving(p.phase) then r
      else Some(Row(row.choice, Reported(row.report.installedAt, p)))
  }

  lemma StepIsLocal(t: Table, e: Event, k: Key)
    ensures Look(Step(t, e), k) == if e.key == k then StepRow(Look(t, k), e) else Look(t, k)
  {
  }

  // ---- After a disable ----

  function Echoes(r: Option<Row>, ps: seq<Push>): Option<Row> {
    if ps == [] then r else PushRow(Echoes(r, ps[..|ps| - 1]), ps[|ps| - 1])
  }

  /** The pushes for one row, in order. */
  function PushesOf(es: seq<Event>, k: Key): seq<Push> {
    if es == [] then []
    else
      var e := es[|es| - 1];
      PushesOf(es[..|es| - 1], k) + if e.Pushed? && e.key == k then [e.push] else []
  }

  ghost predicate OnlyPushes(es: seq<Event>, k: Key) {
    forall i :: 0 <= i < |es| && es[i].key == k ==> es[i].Pushed?
  }

  lemma {:induction false} PlayRowAppend(r: Option<Row>, es: seq<Event>, e: Event, k: Key)
    ensures PlayRow(r, es + [e], k)
      == if e.key == k then StepRow(PlayRow(r, es, k), e) else PlayRow(r, es, k)
    decreases |es|
  {
    if es == [] {
      assert ([] + [e])[1..] == [];
    } else {
      PlayRowAppend(if es[0].key == k then StepRow(r, es[0]) else r, es[1..], e, k);
      assert (es + [e])[1..] == es[1..] + [e];
    }
  }

  lemma {:induction false} PlayedEchoes(r: Option<Row>, es: seq<Event>, k: Key)
    requires OnlyPushes(es, k)
    ensures PlayRow(r, es, k) == Echoes(r, PushesOf(es, k))
  {
    if es != [] {
      var n := |es| - 1;
      PlayedEchoes(r, es[..n], k);
      PlayRowAppend(r, es[..n], es[n], k);
      assert es[..n] + [es[n]] == es;
      if es[n].key == k {
        var ps := PushesOf(es, k);
        assert ps[..|ps| - 1] == PushesOf(es[..n], k);
      } else {
        assert PushesOf(es[..n], k) + [] == PushesOf(es[..n], k);
      }
    }
  }

  /** Whatever else happens in the table, a row that only gets pushes becomes what these make of it. */
  lemma PushedRow(t: Table, es: seq<Event>, k: Key)
    requires OnlyPushes(es, k)
    ensures Look(Play(t, es), k) == Echoes(Look(t, k), PushesOf(es, k))
  {
    RowsAreIndependent(t, es, k);
    PlayedEchoes(Look(t, k), es, k);
  }

  /** Some end beat comes before some push that is none. */
  ghost predicate BeatThenMore(ps: seq<Push>) {
    exists i, j :: 0 <= i < j < |ps| && EndBeat(ps[i]) && !EndBeat(ps[j])
  }

  ghost predicate AnyBeat(ps: seq<Push>) {
    exists i :: 0 <= i < |ps| && EndBeat(ps[i])
  }

  /**
   Pushes alone, after a disable: the row keeps its overrides until an end beat
   removes it, and shows the last push of a leaving phase. It comes back, enabled
   and without overrides, exactly when a push with a phase follows that beat.
   */
  lemma {:induction false} EchoesAfterDisable(row: Row, ps: seq<Push>)
    requires !row.choice.enabled && RowOk(row)
    ensures var r := Echoes(Some(row), ps);
      if BeatThenMore(ps) then r.Some? && r.value.choice == Choice(true, "", "")
      else if AnyBeat(ps) then r.None?
      else
        && r.Some? && r.value.choice == row.choice
        && Leaving(r.value.report.phase) && Shows(r.value.report, row.report, ps, Leaving)
  {
    if ps != [] {
      var n := |ps| - 1;
      EchoesAfterDisable(row, ps[..n]);
      BeatsGrow(ps);
      if !AnyBeat(ps[..n]) {
        NoBeatNoMore(ps[..n]);
        ShowsNext(Echoes(Some(row), ps[..n]).value.report, row.report, ps, Leaving);
      }
      hide BeatThenMore, AnyBeat, Shows;
    }
  }

  lemma NoBeatNoMore(ps: seq<Push>)
    ensures BeatThenMore(ps) ==> AnyBeat(ps)
  {
  }

  lemma BeatsGrow(ps: seq<Push>)
    requires ps != []
    ensures var n := |ps| - 1;
      AnyBeat(ps) == (AnyBeat(ps[..n]) || EndBeat(ps[n]))
      && BeatThenMore(ps) == (BeatThenMore(ps[..n]) || (AnyBeat(ps[..n]) && !EndBeat(ps[n])))
  {
    var n := |ps| - 1;
    var before := ps[..n];
    if AnyBeat(before) {
      var i :| 0 <= i < n && EndBeat(before[i]);
      assert EndBeat(ps[i]);
    }
    if BeatThenMore(before) {
      var i, j :| 0 <= i < j < n && EndBeat(before[i]) && !EndBeat(before[j]);
      assert EndBeat(ps[i]) && !EndBeat(ps[j]);
    }
    if AnyBeat(ps) && !EndBeat(ps[n]) {
      var i :| 0 <= i < |ps| && EndBeat(ps[i]);
      assert EndBeat(before[i]);
    }
    if BeatThenMore(ps) {
      var i, j :| 0 <= i < j < |ps| && EndBeat(ps[i]) && !EndBeat(ps[j]);
      assert EndBeat(before[i]);
      if j < n {
        assert !EndBeat(before[j]);
      }
    }
  }

  /** An enabled row is never removed by pushes, and always shows the last of them that carries a phase. */
  lemma {:induction false} EchoesWhileEnabled(row: Row, ps: seq<Push>)
    requires row.choice.enabled
    ensures var r := Echoes(Some(row), ps);
      r.Some? && r.value.choice == row.choice && Shows(r.value.report, row.report, ps, AnyPhase)
  {
    if ps != [] {
      EchoesWhileEnabled(row, ps[..|ps| - 1]);
      ShowsNext(Echoes(Some(row), ps[..|ps| - 1]).value.report, row.report, ps, AnyPhase);
    }
  }

  function AnyPhase(phase: string): bool { true }

  const NOTHING := Report("", "", "", "", 0, None)

  /** The last push that is taken; no end beat is. */
  function LastTaken(ps: seq<Push>, takes: string -> bool): Option<Push> {
    if ps == [] then None
    else
      var p := ps[|ps| - 1];
      if !EndBeat(p) && takes(p.phase) then Some(p) else LastTaken(ps[..|ps| - 1], takes)
  }

  /** The last install time that a push that is taken carries. */
  function LastInstalled(before: Option<int>, ps: seq<Push>, takes: string -> bool): Option<int> {
    if ps == [] then before
    else
      var p := ps[|ps| - 1];
      if !EndBeat(p) && takes(p.phase) && p.installedAt > 0 then Some(p.installedAt)
      else LastInstalled(before, ps[..|ps| - 1], takes)
  }

  /** A report that is the last push taken, field by field, with the last install time there was. */
  ghost predicate Shows(r: Report, before: Report, ps: seq<Push>, takes: string -> bool) {
    && r.installedAt == LastInstalled(before.installedAt, ps, takes)
    && match LastTaken(ps, takes)
       case None => r == before
       case Some(p) =>
         && r.phase == p.phase && r.message == p.message && r.version == p.version
         && r.valuesHash == p.valuesHash && r.revision == p.revision
  }

  lemma ShowsNext(r: Report, before: Report, ps: seq<Push>, takes: string -> bool)
    requires ps != [] && Shows(r, before, ps[..|ps| - 1], takes)
    ensures var p := ps[|ps| - 1];
      Shows(if !EndBeat(p) && takes(p.phase) then Reported(r.installedAt, p) else r, before, ps, takes)
  {
  }

  /** A row that is not there comes with the first push that carries a phase, enabled and without overrides, and then shows the last. */
  lemma {:induction false} EchoesFromNothing(ps: seq<Push>)
    ensures var r := Echoes(None, ps);
      if forall i :: 0 <= i < |ps| ==> EndBeat(ps[i]) then r.None?
      else r.Some? && r.value.choice == Choice(true, "", "") && Shows(r.value.report, NOTHING, ps, AnyPhase)
  {
    if ps != [] {
      var n := |ps| - 1;
      EchoesFromNothing(ps[..n]);
      if forall i :: 0 <= i < n ==> EndBeat(ps[..n][i]) {
        NoneInstalled(ps[..n]);
      } else {
        var i :| 0 <= i < n && !EndBeat(ps[..n][i]);
        assert !EndBeat(ps[i]);
        ShowsNext(Echoes(None, ps[..n]).value.report, NOTHING, ps, AnyPhase);
      }
      hide Shows;
    }
  }

  lemma {:induction false} NoneInstalled(ps: seq<Push>)
    requires forall i :: 0 <= i < |ps| ==> EndBeat(ps[i])
    ensures LastInstalled(None, ps, AnyPhase) == None
  {
    if ps != [] {
      NoneInstalled(ps[..|ps| - 1]);
    }
  }

  /** After a disable, nothing from before the first end beat is left: what follows it meets a row that is not there. */
  lemma {:induction false} AfterTheBeat(row: Row, ps: seq<Push>, i: nat)
    requires !row.choice.enabled && RowOk(row)
    requires i < |ps| && EndBeat(ps[i]) && forall j :: 0 <= j < i ==> !EndBeat(ps[j])
    ensures Echoes(Some(row), ps) == Echoes(None, ps[i + 1..])
  {
    var n := |ps| - 1;
    if i < n {
      AfterTheBeat(row, ps[..n], i);
      assert ps[i + 1..][..n - i - 1] == ps[..n][i + 1..];
    } else {
      EchoesAfterDisable(row, ps[..n]);
      NoBeatNoMore(ps[..n]);
      assert !AnyBeat(ps[..n]);
    }
  }

  /**
   In a table that has been kept in order, after a disable: until the next command
   for it a row is there with its overrides, gone, or back as enabled and blank, by
   whether its pushes hold no end beat, one, or one with a phase after it. An
   enabled row stays, with its choice and the last phase pushed.
   */
  lemma AfterTheLastCommand(t: Table, es: seq<Event>, k: Key)
    requires TableOk(t) && k in t && OnlyPushes(es, k)
    ensures var r, ps := Look(Play(t, es), k), PushesOf(es, k);
      if t[k].choice.enabled then
        r.Some? && r.value.choice == t[k].choice && Shows(r.value.report, t[k].report, ps, AnyPhase)
      else if BeatThenMore(ps) then r.Some? && r.value.choice == Choice(true, "", "")
      else if AnyBeat(ps) then r.None?
      else r.Some? && r.value.choice == t[k].choice && Shows(r.value.report, t[k].report, ps, Leaving)
  {
    PushedRow(t, es, k);
    if t[k].choice.enabled {
      EchoesWhileEnabled(t[k], PushesOf(es, k));
    } else {
      EchoesAfterDisable(t[k], PushesOf(es, k));
    }
  }

  /** What a command leaves of a row: the new choice, a fresh phase without message, and whatever the worker last observed. */
  lemma CommandsKeepObserved(t: Table, k: Key, v: string, w: string, other: Key)
    ensures var e := EnableRow(t, k, v, w);
      && k in e && e[k].choice == Choice(true, v, w) && e[k].report.phase == PENDING && e[k].report.message == ""
      && (if k in t then SameObserved(t[k], e[k]) else e[k].report == Report(PENDING, "", "", "", 0, None))
      && (other != k ==> Look(e, other) == Look(t, other))
    ensures var d := DisableRow(t, k);
      && (k in d) == (k in t)
      && (k in t ==> d[k].choice == t[k].choice.(enabled := false) && SameObserved(t[k], d[k])
                     && d[k].report.phase == UNINSTALLING && d[k].report.message == "")
      && (other != k ==> Look(d, other) == Look(t, other))
  {
  }

  predicate SameObserved(a: Row, b: Row) {
    && a.report.version == b.report.version && a.report.valuesHash == b.report.valuesHash
    && a.report.revision == b.report.revision && a.report.installedAt == b.report.installedAt
  }

  // ---- The store ----

  const MAX_STATUS_MESSAGE_BYTES: nat := 4096

  /** A line break, an ellipsis in its three bytes, and the word. */
  const TRUNCATED := "\n\U{E2}\U{80}\U{A6}(truncated)"

  /** The push as it is stored: a message too long is cut, and the cut character left out. */
  function Capped(toValid: string -> string, p: Push): (r: Push)
    ensures |p.message| <= MAX_STATUS_MESSAGE_BYTES ==> r == p
    ensures |p.message| > MAX_STATUS_MESSAGE_BYTES ==>
      r == p.(message := r.message) && r.message == toValid(p.message[..MAX_STATUS_MESSAGE_BYTES]) + TRUNCATED
    ensures (forall s :: |toValid(s)| <= |s|) ==> |r.message| <= MAX_STATUS_MESSAGE_BYTES + 15
  {
    if |p.message| <= MAX_STATUS_MESSAGE_BYTES then p
    else p.(message := toValid(p.message[..MAX_STATUS_MESSAGE_BYTES]) + TRUNCATED)
  }

  class Store {
    var registry: map<string, nat>
    var rows: Table

    const toValid: string -> string

    constructor (toValid: string -> string)
      ensures registry == map[] && rows == map[] && this.toValid == toValid
    {
      registry, rows, this.toValid := map[], map[], toValid;
    }

    /** A push names its plugin; one that is not registered is dropped. */
    method PersistStatus(cluster: string, crdName: string, p: Push) returns (known: bool)
      modifies this`rows
      ensures known == (crdName in registry)
      ensures rows == if known then Persist(old(rows), Key(cluster, registry[crdName]), Capped(toValid, p)) else old(rows)
    {
      if crdName !in registry {
        return false;
      }
      known := true;
      var k := Key(cluster, registry[crdName]);
      if p.phase == "" || p.phase == DISABLED {
        var _ := DeleteDisabledClusterPlugin(k);
        return;
      }
      var _ := PersistClusterPluginStatusIfActive(k, Capped(toValid, p));
    }

    method DeleteDisabledClusterPlugin(k: Key) returns (deleted: bool)
      modifies this`rows
      ensures rows == DeleteDisabled(old(rows), k)
      ensures deleted == (rows != old(rows))
    {
      deleted := k in rows && !rows[k].choice.enabled;
      if deleted {
        rows := rows - {k};
      }
    }

    method PersistClusterPluginStatusIfActive(k: Key, p: Push) returns (skipped: bool)
      modifies this`rows
      ensures rows == PersistIfActive(old(rows), k, p)
      ensures skipped == (k in old(rows) && !old(rows)[k].choice.enabled && !Leaving(p.phase))
    {
      if k in rows && !rows[k].choice.enabled && p.phase != UNINSTALLING && p.phase != FAILED {
        return true;
      }
      skipped := false;
      var choice, installedAt := Choice(true, "", ""), None;
      if k in rows {
        choice, installedAt := rows[k].choice, rows[k].report.installedAt;
      }
      if p.installedAt > 0 {
        installedAt := Some(p.installedAt);
      }
      rows := rows[k := Row(choice, Report(p.phase, p.message, p.version, p.valuesHash, p.revision, installedAt))];
    }

    method UpsertClusterPlugin(k: Key, versionOverride: string, valuesOverride: string)
      modifies this`rows
      ensures rows == EnableRow(old(rows), k, versionOverride, valuesOverride)
    {
      var report := Report(PENDING, "", "", "", 0, None);
      if k in rows {
        report := rows[k].report.(phase := PENDING, message := "");
      }
      rows := rows[k := Row(Choice(true, versionOverride, valuesOverride), report)];
    }

    method DisableClusterPlugin(k: Key)
      modifies this`rows
      ensures rows == DisableRow(old(rows), k)
    {
      if k in rows {
        rows := rows[k := Row(rows[k].choice.(enabled := false), rows[k].report.(phase := UNINSTALLING, message := ""))];
      }
    }

    /**
     Refused while any row of the plugin is in a phase other than Disabled; the
     rows that are left go with it. No row that pushes and commands make is left.
     */
    method DeletePlugin(id: nat) returns (ok: bool)
      modifies this
      ensures ok == (forall k :: k in old(rows) && k.plugin == id ==> old(rows)[k].report.phase == DISABLED)
      ensures ok ==> rows == (map k | k in old(rows) && k.plugin != id :: old(rows)[k])
      ensures ok ==> registry == (map n | n in old(registry) && old(registry)[n] != id :: old(registry)[n])
      ensures !ok ==> rows == old(rows) && registry == old(registry)
      ensures TableOk(old(rows)) ==> rows == old(rows)
    {
      var inUse := set k | k in rows && k.plugin == id && rows[k].report.phase != DISABLED;
      ok := inUse == {};
      if !ok {
        var k :| k in inUse;
        return;
      }
      assert forall k :: k in rows && k.plugin == id && rows[k].report.phase != DISABLED ==> k in inUse;
      ghost var before := rows;
      rows := map k | k in rows && k.plugin != id :: rows[k];
      registry := map n | n in registry && registry[n] != id :: registry[n];
      if TableOk(before) {
        assert forall k :: k in before ==> RowOk(before[k]);
        assert rows == before;
      }
    }
  }
}
