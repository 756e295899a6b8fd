/**
 One Plugin object between the commands that write it and the reconciler that
 drives its Helm release, step by step: each call to the API server or to Helm
 is a step of its own, anything may happen between two steps, and the worker
 may die at any of them.

 The copy of the object that a reconcile works on, the requests still queued
 for it and the chart cache are part of the state.
 */
module PluginLifecycle {
  import opened Wrappers
  import opened PluginFingerprint

  datatype Phase = Unset | Installing | Upgrading | Running | Failed | Uninstalling

  datatype Status = Status(phase: Phase, attempt: string, revision: nat)

  datatype Object = Object(spec: Spec, finalizer: bool, deleting: bool, rv: nat, status: Status)

  datatype Place = Place(name: string, ns: string)

  /** What Helm was handed. */
  datatype Inputs = Inputs(chart: Chart, place: Place, values: Values)

  /** A release in place: put there by exactly these inputs, or left by an interrupted or failed action. */
  datatype Release = From(inputs: Inputs) | Damaged

  /** Where a reconcile stands; the chart source is resolved before the first status write. */
  datatype Pc =
    | Idle
    | AddingFinalizer
    | MarkingUninstalling
    | Removing            // about to run Helm uninstall
    | DroppingFinalizer
    | Announcing(chart: Chart)
    | Helming(chart: Chart)
    | Settling(retry: bool)

  datatype World = World(
    obj: Option<Object>,
    releases: map<Place, Release>,
    cached: set<string>,
    rv: nat,                // last resource version handed out
    due: bool,              // a reconcile request is queued
    pc: Pc,
    mem: Object)            // the reconcile's copy

  const NO_STATUS := Status(Unset, "", 0)

  const BLANK := Object(Spec(Chart("", "", "", "", ""), "", "", ""), false, false, 0, NO_STATUS)

  function Start(): World {
    World(None, map[], {}, 0, false, Idle, BLANK)
  }

  /** An API call: applied and answered, not applied, or applied with the answer lost. */
  datatype Reply = Delivered | Refused | Lost

  /** What an action that did not complete left of the release it was working on. */
  datatype Residue = Untouched | Broken | Gone | Complete

  datatype HelmResult = ChartUnloadable | Succeeds(revision: nat) | Fails(left: Residue)

  datatype Event =
    | Enable(spec: Spec, blob: bool)
    | Disable
    | Crash(left: Residue, wipe: bool)
    | Fetch(ok: bool)
    | Finalize(reply: Reply)             // the Update that adds the finalizer
    | WriteStatus(reply: Reply)
    | Uninstall(ok: bool, left: Residue)
    | Release(reply: Reply)              // the Update that removes it
    | Helm(result: HelmResult)

  function At(s: Spec): Place {
    Place(s.releaseName, s.releaseNamespace)
  }

  predicate Terminal(p: Phase) {
    p.Running? || p.Failed?
  }

  predicate Enabled(w: World, e: Event) {
    match e
    case Enable(_, _) => true
    case Disable => true
    case Crash(left, _) => left.Untouched? || w.pc.Helming? || (w.pc.Removing? && !left.Complete?)
    case Fetch(_) => w.pc.Idle? && w.due
    case Finalize(_) => w.pc.AddingFinalizer?
    case WriteStatus(_) => w.pc.MarkingUninstalling? || w.pc.Announcing? || w.pc.Settling?
    case Uninstall(ok, left) => w.pc.Removing? && !left.Complete?
    case Release(_) => w.pc.DroppingFinalizer?
    case Helm(result) => w.pc.Helming?
  }

  // ---- Commands ----

  /** Server-side apply: creates the object or replaces its spec; finalizer, deletion mark and status stay. */
  function Enabling(w: World, spec: Spec, blob: bool): World {
    var w1 := if spec.chart.kind == "local" && blob then w.(cached := w.cached + {spec.chart.sha256}) else w;
    match w.obj
    case None => w1.(obj := Some(Object(spec, false, false, w.rv + 1, NO_STATUS)), rv := w.rv + 1, due := true)
    case Some(o) =>
      if o.spec == spec then w1
      else w1.(obj := Some(o.(spec := spec, rv := w.rv + 1)), rv := w.rv + 1, due := true)
  }

  /** Deletion waits for the finalizer, if there is one. */
  function Disabling(w: World): World {
    match w.obj
    case None => w
    case Some(o) =>
      if !o.finalizer then w.(obj := None, due := true)
      else if o.deleting then w
      else w.(obj := Some(o.(deleting := true, rv := w.rv + 1)), rv := w.rv + 1, due := true)
  }

  // ---- The reconcile ----

  /** The chart source, unless the local file is missing or the type unknown. */
  predicate Resolves(chart: Chart, cached: set<string>) {
    chart.kind == "repo" || chart.kind == "oci" || (chart.kind == "local" && chart.sha256 != "" && chart.sha256 in cached)
  }

  function InstallPhase(s: Status): Phase {
    if s.revision == 0 then Installing else Upgrading
  }

  predicate GateCloses(lib: Library, o: Object) {
    o.status.attempt == AttemptHash(lib, o.spec) && Terminal(o.status.phase)
  }

  /** The first branch a reconcile takes on the object it has fetched. */
  function Begin(lib: Library, w: World, o: Object): World {
    var w1 := w.(due := false, mem := o);
    if o.deleting then
      if !o.finalizer then w1
      else if o.status.phase.Uninstalling? then w1.(pc := Removing)
      else w1.(mem := o.(status := o.status.(phase := Uninstalling)), pc := MarkingUninstalling)
    else if !o.finalizer then w1.(pc := AddingFinalizer)
    else if GateCloses(lib, o) then w1
    else
      var attempt := AttemptHash(lib, o.spec);
      if !Resolves(o.spec.chart, w.cached) then
        w1.(mem := o.(status := o.status.(attempt := attempt, phase := Failed)), pc := Settling(false))
      else
        w1.(mem := o.(status := o.status.(attempt := attempt, phase := InstallPhase(o.status))), pc := Announcing(o.spec.chart))
  }

  /**
   The status write and the copy it leaves the caller with. After a conflict the
   writer refetches and lays its status over whatever it finds.
   */
  function Touch(w: World, reply: Reply): World {
    if reply.Refused? || w.obj.None? then w
    else
      var o := w.obj.value.(status := w.mem.status, rv := w.rv + 1);
      var w1 := w.(obj := Some(o), rv := w.rv + 1);
      if reply.Lost? then w1 else w1.(mem := o)
  }

  /** Status writes never stop a reconcile. */
  function Onward(w: World): World {
    match w.pc
    case MarkingUninstalling => w.(pc := Removing)
    case Announcing(chart) => w.(pc := Helming(chart))
    case Settling(retry) => w.(pc := Idle, due := w.due || retry)
    case _ => w
  }

  /** A metadata update needs the resource version it was read at. */
  predicate Current(w: World) {
    w.obj.Some? && w.obj.value.rv == w.mem.rv
  }

  function Finalizing(w: World, reply: Reply): World {
    var w1 := w.(pc := Idle, due := true);
    if reply.Refused? || !Current(w) then w1
    else w1.(obj := Some(w.obj.value.(finalizer := true, rv := w.rv + 1)), rv := w.rv + 1)
  }

  function Releasing(w: World, reply: Reply): World {
    if reply.Refused? || !Current(w) then w.(pc := Idle, due := true)
    else
      var o := w.obj.value;
      var w1 := w.(pc := Idle, due := w.due || reply.Lost?);
      if o.deleting then w1.(obj := None, due := true)
      else w1.(obj := Some(o.(finalizer := false, rv := w.rv + 1)), rv := w.rv + 1)
  }

  function Left(releases: map<Place, Release>, at: Place, left: Residue, whole: Release): map<Place, Release> {
    match left
    case Untouched => releases
    case Broken => releases[at := Damaged]
    case Gone => releases - {at}
    case Complete => releases[at := whole]
  }

  /** An uninstall looks for the release first, and leaves nothing where there is none. */
  function LeftByUninstall(releases: map<Place, Release>, at: Place, left: Residue): map<Place, Release> {
    if at in releases then Left(releases, at, left, Damaged) else releases
  }

  function Uninstalled(w: World, ok: bool, left: Residue): World {
    var at := At(w.mem.spec);
    if ok then w.(releases := w.releases - {at}, pc := DroppingFinalizer)
    else
      w.(releases := LeftByUninstall(w.releases, at, left),
         mem := w.mem.(status := w.mem.status.(phase := Failed)), pc := Settling(true))
  }

  /** What Helm is handed: the chart resolved at the start, the rest from the current copy. */
  function Handed(chart: Chart, s: Spec, v: Values): Release {
    From(Inputs(chart, At(s), v))
  }

  function HelmRun(lib: Library, w: World, result: HelmResult): World
    requires w.pc.Helming?
  {
    var failed := w.(mem := w.mem.(status := w.mem.status.(phase := Failed)), pc := Settling(false));
    var at := At(w.mem.spec);
    match lib.parse(w.mem.spec.values)
    case None => failed
    case Some(v) =>
      match result
      case ChartUnloadable => failed
      case Fails(left) => failed.(releases := Left(w.releases, at, left, Handed(w.pc.chart, w.mem.spec, v)))
      case Succeeds(revision) =>
        w.(releases := w.releases[at := Handed(w.pc.chart, w.mem.spec, v)],
           mem := w.mem.(status := Status(Running, w.mem.status.attempt, revision)),
           pc := Settling(false))
  }

  /** What a worker that dies leaves behind; values that do not parse never get as far as Helm. */
  function LeftByCrash(lib: Library, w: World, left: Residue): map<Place, Release> {
    var at := At(w.mem.spec);
    if !w.pc.Helming? then LeftByUninstall(w.releases, at, left)
    else
      match lib.parse(w.mem.spec.values)
      case None => w.releases
      case Some(v) => Left(w.releases, at, left, Handed(w.pc.chart, w.mem.spec, v))
  }

  /** A worker that comes back is told of every object. */
  function Crashed(lib: Library, w: World, left: Residue, wipe: bool): World {
    w.(releases := LeftByCrash(lib, w, left), pc := Idle, due := true, cached := if wipe then {} else w.cached)
  }

  function Next(lib: Library, w: World, e: Event): World
    requires Enabled(w, e)
  {
    match e
    case Enable(spec, blob) => Enabling(w, spec, blob)
    case Disable => Disabling(w)
    case Crash(left, wipe) => Crashed(lib, w, left, wipe)
    case Fetch(ok) =>
      if !ok then w
      else if w.obj.None? then w.(due := false)
      else Begin(lib, w, w.obj.value)
    case Finalize(reply) => Finalizing(w, reply)
    case WriteStatus(reply) => Onward(Touch(w, reply))
    case Uninstall(ok, left) => Uninstalled(w, ok, left)
    case Release(reply) => Releasing(w, reply)
    case Helm(result) => HelmRun(lib, w, result)
  }

  // ---- Runs ----

  ghost predicate Run(lib: Library, w: World, es: seq<Event>, v: World)
    decreases |es|
  {
    if es == [] then w == v
    else Enabled(w, es[0]) && Run(lib, Next(lib, w, es[0]), es[1..], v)
  }

  ghost predicate Reachable(lib: Library, w: World) {
    exists es :: Run(lib, Start(), es, w)
  }

  lemma {:induction false} RunAppend(lib: Library, w: World, es: seq<Event>, v: World, e: Event)
    requires Run(lib, w, es, v) && Enabled(v, e)
    ensures Run(lib, w, es + [e], Next(lib, v, e))
    decreases |es|
  {
    hide Enabled, Next;
    if es == [] {
      assert (es + [e])[1..] == [];
    } else {
      RunAppend(lib, Next(lib, w, es[0]), es[1..], v, e);
      assert (es + [e])[1..] == es[1..] + [e];
    }
  }

  lemma Goes(lib: Library, w: World, e: Event)
    requires Reachable(lib, w) && Enabled(w, e)
    ensures Reachable(lib, Next(lib, w, e))
  {
    var es :| Run(lib, Start(), es, w);
    RunAppend(lib, Start(), es, w, e);
  }

  lemma {:induction false} GoesOn(lib: Library, w: World, es: seq<Event>, v: World)
    requires Reachable(lib, w) && Run(lib, w, es, v)
    ensures Reachable(lib, v)
    decreases |es|
  {
    if es != [] {
      Goes(lib, w, es[0]);
      hide Reachable, Enabled, Next;
      GoesOn(lib, Next(lib, w, es[0]), es[1..], v);
    }
  }

  lemma ReachStart(lib: Library)
    ensures Reachable(lib, Start())
  {
    assert Run(lib, Start(), [], Start());
  }

  // ---- Ownership ----

  /** Every command of the run names this release. */
  predicate Fixed(es: seq<Event>, at: Place) {
    forall i :: 0 <= i < |es| && es[i].Enable? ==> At(es[i].spec) == at
  }

  predicate InCharge(pc: Pc) {
    !pc.Idle? && !pc.AddingFinalizer?
  }

  predicate OnTheWayOut(pc: Pc) {
    pc.MarkingUninstalling? || pc.Removing? || pc.DroppingFinalizer? || (pc.Settling? && pc.retry)
  }

  /** While a reconcile is past its first checks, its object stays, with the finalizer. */
  ghost predicate Kept(w: World) {
    && (w.obj.Some? ==> w.obj.value.rv <= w.rv && (w.obj.value.deleting ==> w.obj.value.finalizer))
    && (InCharge(w.pc) ==> w.obj.Some? && w.obj.value.finalizer)
    && (OnTheWayOut(w.pc) ==> w.obj.Some? && w.obj.value.deleting)
    && (w.pc.Settling? ==> Terminal(w.mem.status.phase))
    && w.mem.rv <= w.rv
    && (w.pc.AddingFinalizer? && Current(w) ==> !w.obj.value.finalizer)
  }

  lemma CommandKeepsKept(lib: Library, w: World, e: Event)
    requires Kept(w) && Enabled(w, e) && (e.Enable? || e.Disable? || e.Crash?)
    ensures Kept(Next(lib, w, e))
  {
    hide Left, Handed;
  }

  lemma FetchKeepsKept(lib: Library, w: World, e: Event)
    requires Kept(w) && Enabled(w, e) && e.Fetch?
    ensures Kept(Next(lib, w, e))
  {
    hide AttemptHash, Resolves, GateCloses, Enabling, Disabling, Crashed, Uninstalled, HelmRun, Touch, Onward, Finalizing, Releasing;
  }

  lemma TouchKeeps(w: World, reply: Reply)
    requires Kept(w)
    ensures var v := Touch(w, reply);
      && v.pc == w.pc && v.releases == w.releases && v.mem.status == w.mem.status && v.mem.rv <= v.rv
      && v.obj.Some? == w.obj.Some?
      && (v.mem.spec == w.mem.spec || (w.obj.Some? && v.mem.spec == w.obj.value.spec))
      && (w.obj.Some? ==>
        && v.obj.value.spec == w.obj.value.spec && v.obj.value.rv <= v.rv
        && v.obj.value.finalizer == w.obj.value.finalizer && v.obj.value.deleting == w.obj.value.deleting)
  {
  }

  lemma WriteKeepsKept(lib: Library, w: World, e: Event)
    requires Kept(w) && Enabled(w, e) && e.WriteStatus?
    ensures Kept(Next(lib, w, e))
  {
    TouchKeeps(w, e.reply);
    assert Next(lib, w, e) == Onward(Touch(w, e.reply));
    hide Next, Touch;
  }

  lemma UpdateKeepsKept(lib: Library, w: World, e: Event)
    requires Kept(w) && Enabled(w, e) && (e.Finalize? || e.Release?)
    ensures Kept(Next(lib, w, e))
  {
    hide Enabling, Disabling, Crashed, Uninstalled, HelmRun, Begin, Touch, Onward;
  }

  lemma HelmKeepsKept(lib: Library, w: World, e: Event)
    requires Kept(w) && Enabled(w, e) && (e.Uninstall? || e.Helm?)
    ensures Kept(Next(lib, w, e))
  {
    hide Left, Handed, Enabling, Disabling, Crashed, Begin, Touch, Onward, Finalizing, Releasing;
  }

  lemma StepKeepsKept(lib: Library, w: World, e: Event)
    requires Kept(w) && Enabled(w, e)
    ensures Kept(Next(lib, w, e))
  {
    hide Kept, Enabled, Next;
    match e
    case Enable(_, _) => CommandKeepsKept(lib, w, e);
    case Disable => CommandKeepsKept(lib, w, e);
    case Crash(_, _) => CommandKeepsKept(lib, w, e);
    case Fetch(_) => FetchKeepsKept(lib, w, e);
    case WriteStatus(_) => WriteKeepsKept(lib, w, e);
    case Uninstall(_, _) => HelmKeepsKept(lib, w, e);
    case Helm(_) => HelmKeepsKept(lib, w, e);
    case _ => UpdateKeepsKept(lib, w, e);
  }

  lemma {:induction false} RunKeepsKept(lib: Library, w: World, es: seq<Event>, v: World)
    requires Kept(w) && Run(lib, w, es, v)
    ensures Kept(v)
    decreases |es|
  {
    if es != [] {
      StepKeepsKept(lib, w, es[0]);
      hide Kept, Enabled, Next;
      RunKeepsKept(lib, Next(lib, w, es[0]), es[1..], v);
    }
  }

  /** Sending a command again changes nothing further. */
  lemma CommandsRepeat(lib: Library, w: World, e: Event)
    requires e.Enable? || e.Disable?
    ensures Next(lib, Next(lib, w, e), e) == Next(lib, w, e)
  {
  }

  /** What an enable makes of an object that is there: another spec, and for a changed one another version; the rest stays. */
  lemma EnableKeepsTheRest(lib: Library, w: World, spec: Spec, blob: bool)
    ensures var v := Next(lib, w, Enable(spec, blob));
      && v.releases == w.releases && v.pc == w.pc && v.mem == w.mem && v.obj.Some? && v.obj.value.spec == spec
      && v.cached == w.cached + (if spec.chart.kind == "local" && blob then {spec.chart.sha256} else {})
      && (w.obj.Some? ==> v.obj.value == w.obj.value.(spec := spec, rv := v.obj.value.rv))
      && (w.obj.None? ==> v.obj.value == Object(spec, false, false, v.rv, NO_STATUS))
      && (v.obj == w.obj || v.obj.value.rv == v.rv == w.rv + 1)
  {
  }

  /** Whatever changes the object other than its status, or takes it away, queues a request. */
  lemma ChangesAreQueued(lib: Library, w: World, e: Event)
    requires Kept(w) && Enabled(w, e)
    ensures var v := Next(lib, w, e);
      v.due ||
      match (w.obj, v.obj)
      case (None, None) => true
      case (Some(o), Some(p)) => p.spec == o.spec && p.finalizer == o.finalizer && p.deleting == o.deleting
      case _ => false
  {
    hide AttemptHash, Resolves, GateCloses, LeftByCrash, LeftByUninstall, Left, Handed;
  }

  ghost predicate Owned(w: World, at: Place) {
    && Kept(w)
    && (w.obj.Some? ==> At(w.obj.value.spec) == at)
    && (InCharge(w.pc) ==> At(w.mem.spec) == at)
    && w.releases.Keys <= {at}
    && (at in w.releases ==> w.obj.Some? && w.obj.value.finalizer)
    && (w.pc.DroppingFinalizer? ==> at !in w.releases)
  }

  lemma CommandKeepsOwned(lib: Library, w: World, e: Event, at: Place)
    requires Owned(w, at) && Enabled(w, e) && (e.Enable? ==> At(e.spec) == at)
    requires e.Enable? || e.Disable? || e.Crash?
    ensures Owned(Next(lib, w, e), at)
  {
    StepKeepsKept(lib, w, e);
    hide AttemptHash, Begin, Touch, Onward, Finalizing, Releasing, Uninstalled, HelmRun, Handed;
  }

  lemma WriteKeepsOwned(lib: Library, w: World, e: Event, at: Place)
    requires Owned(w, at) && Enabled(w, e) && e.WriteStatus?
    ensures Owned(Next(lib, w, e), at)
  {
    StepKeepsKept(lib, w, e);
    TouchKeeps(w, e.reply);
    assert Next(lib, w, e) == Onward(Touch(w, e.reply));
    hide Next, Touch, Kept;
  }

  lemma UpdateKeepsOwned(lib: Library, w: World, e: Event, at: Place)
    requires Owned(w, at) && Enabled(w, e) && (e.Finalize? || e.Release?)
    ensures Owned(Next(lib, w, e), at)
  {
    StepKeepsKept(lib, w, e);
    hide Enabling, Disabling, Crashed, Uninstalled, HelmRun, Begin, Touch, Onward;
  }

  lemma FetchKeepsOwned(lib: Library, w: World, e: Event, at: Place)
    requires Owned(w, at) && Enabled(w, e) && e.Fetch?
    ensures Owned(Next(lib, w, e), at)
  {
    StepKeepsKept(lib, w, e);
    hide AttemptHash, Resolves, GateCloses, Enabling, Disabling, Crashed, Uninstalled, HelmRun, Touch, Onward, Finalizing, Releasing;
  }

  lemma HelmKeepsOwned(lib: Library, w: World, e: Event, at: Place)
    requires Owned(w, at) && Enabled(w, e)
    requires e.Uninstall? || e.Helm?
    ensures Owned(Next(lib, w, e), at)
  {
    StepKeepsKept(lib, w, e);
    hide AttemptHash, Enabling, Disabling, Crashed, Begin, Touch, Onward, Finalizing, Releasing, Handed;
  }

  lemma StepKeepsOwned(lib: Library, w: World, e: Event, at: Place)
    requires Owned(w, at) && Enabled(w, e) && (e.Enable? ==> At(e.spec) == at)
    ensures Owned(Next(lib, w, e), at)
  {
    hide Owned, Next, Enabled, Run;
    match e
    case Enable(_, _) => CommandKeepsOwned(lib, w, e, at);
    case Disable => CommandKeepsOwned(lib, w, e, at);
    case Crash(_, _) => CommandKeepsOwned(lib, w, e, at);
    case Uninstall(_, _) => HelmKeepsOwned(lib, w, e, at);
    case Helm(_) => HelmKeepsOwned(lib, w, e, at);
    case Fetch(_) => FetchKeepsOwned(lib, w, e, at);
    case WriteStatus(_) => WriteKeepsOwned(lib, w, e, at);
    case _ => UpdateKeepsOwned(lib, w, e, at);
  }

  lemma {:induction false} RunKeepsOwned(lib: Library, w: World, es: seq<Event>, v: World, at: Place)
    requires Owned(w, at) && Run(lib, w, es, v) && Fixed(es, at)
    ensures Owned(v, at)
    decreases |es|
  {
    if es != [] {
      StepKeepsOwned(lib, w, es[0], at);
      hide Owned, Enabled, Next;
      RunKeepsOwned(lib, Next(lib, w, es[0]), es[1..], v, at);
    }
  }

  /** A release exists only while its object does and carries the finalizer. */
  lemma ReleaseIsOwned(lib: Library, es: seq<Event>, w: World, at: Place)
    requires Run(lib, Start(), es, w) && Fixed(es, at)
    ensures w.releases.Keys <= {at}
    ensures at in w.releases ==> w.obj.Some? && w.obj.value.finalizer
  {
    RunKeepsOwned(lib, Start(), es, w, at);
  }

  /** Only the update that removes the finalizer takes away an object that has one. */
  lemma OnlyReleaseRemoves(lib: Library, w: World, e: Event)
    requires Kept(w) && Enabled(w, e) && w.obj.Some? && w.obj.value.finalizer && Next(lib, w, e).obj.None?
    ensures e.Release? && w.pc.DroppingFinalizer? && w.obj.value.deleting
  {
    hide AttemptHash, Resolves, GateCloses, Left, LeftByCrash, Handed;
  }

  /** An object that carries the finalizer goes only by the reconciler's hand, with nothing of the release left. */
  lemma VanishesOnlyAfterUninstall(lib: Library, es: seq<Event>, w: World, at: Place, e: Event)
    requires Run(lib, Start(), es, w) && Fixed(es, at)
    requires Enabled(w, e) && w.obj.Some? && w.obj.value.finalizer && Next(lib, w, e).obj.None?
    ensures e.Release? && w.pc.DroppingFinalizer? && w.obj.value.deleting && w.releases == map[]
  {
    RunKeepsOwned(lib, Start(), es, w, at);
    OnlyReleaseRemoves(lib, w, e);
    hide Next, Enabled, Kept;
    assert at !in w.releases ==> w.releases.Keys == {};
  }

  // ---- Worlds a first install goes through ----

  /** The object right before Helm runs for the first time, when nothing has gone wrong. */
  function Fresh(lib: Library, s: Spec): World {
    var o := Object(s, true, false, 2, NO_STATUS);
    World(Some(o), map[], {}, 2, false, Announcing(s.chart),
      o.(status := Status(Installing, AttemptHash(lib, s), 0)))
  }

  lemma ReachFresh(lib: Library, s: Spec)
    requires s.chart.kind == "repo"
    ensures Reachable(lib, Fresh(lib, s))
  {
    hide AttemptHash, Reachable;
    assert Reachable(lib, Start()) by {
      ReachStart(lib);
    }
    Goes(lib, Start(), Enable(s, false));
    var w1 := Next(lib, Start(), Enable(s, false));
    Goes(lib, w1, Fetch(true));
    var w2 := Next(lib, w1, Fetch(true));
    Goes(lib, w2, Finalize(Delivered));
    var w3 := Next(lib, w2, Finalize(Delivered));
    Goes(lib, w3, Fetch(true));
  }

  /** The same object once its first Helm run has succeeded. */
  function Deployed(lib: Library, s: Spec, v: Values): World {
    var o := Object(s, true, false, 4, Status(Running, AttemptHash(lib, s), 1));
    World(Some(o), map[At(s) := Handed(s.chart, s, v)], {}, 4, false, Idle, o)
  }

  lemma ReachDeployed(lib: Library, s: Spec)
    requires s.chart.kind == "repo" && lib.parse(s.values).Some?
    ensures Reachable(lib, Deployed(lib, s, lib.parse(s.values).value))
  {
    ReachFresh(lib, s);
    hide AttemptHash, Reachable;
    var w0 := Fresh(lib, s);
    Goes(lib, w0, WriteStatus(Delivered));
    var w1 := Next(lib, w0, WriteStatus(Delivered));
    Goes(lib, w1, Helm(Succeeds(1)));
    var w2 := Next(lib, w1, Helm(Succeeds(1)));
    Goes(lib, w2, WriteStatus(Delivered));
  }
}
