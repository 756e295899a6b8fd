/**
 The gate that lets a reconcile skip Helm: when it closes on Running, is the
 release in place what Helm would put there? The status write before Helm
 decides: which of its outcomes do harm, and which do not.
 */
module PluginGate {
  import opened Wrappers
  import opened PluginFingerprint
  import opened PluginLifecycle

  /** The status says that the release is up to date. */
  predicate Showing(o: Object) {
    !o.deleting && o.status.phase.Running?
  }

  ghost predicate MadeFrom(lib: Library, releases: map<Place, Release>, s: Spec) {
    lib.parse(s.values).Some? && At(s) in releases && releases[At(s)] == Handed(s.chart, s, lib.parse(s.values).value)
  }

  /** Every spec with this fingerprint is what the release in its place was made from. */
  ghost predicate Backs(lib: Library, releases: map<Place, Release>, attempt: string) {
    forall s {:trigger AttemptHash(lib, s)} :: Clean(s) && AttemptHash(lib, s) == attempt ==> MadeFrom(lib, releases, s)
  }

  /** No spec with this fingerprint has its release at this place. */
  ghost predicate Apart(lib: Library, attempt: string, at: Place) {
    forall s {:trigger AttemptHash(lib, s)} :: Clean(s) && AttemptHash(lib, s) == attempt ==> At(s) != at
  }

  /** The gate closes on Running over a release that was made from something else. */
  ghost predicate Fooled(lib: Library, w: World) {
    w.obj.Some? && Showing(w.obj.value) && GateCloses(lib, w.obj.value) && !MadeFrom(lib, w.releases, w.obj.value.spec)
  }

  /**
   Outcomes of the write before Helm that do no harm. Nothing matters for an object
   on its way out, nor when the values to be run do not parse. Otherwise: a write
   that is refused must not leave Running up for a release at the same place, and
   a refetch must bring the same place and values, or find the release of the spec
   that was tried already in place.
   */
  ghost predicate Harmless(lib: Library, w: World, reply: Reply)
    requires w.obj.Some?
  {
    var o, tried := w.obj.value, w.mem.spec;
    o.deleting ||
    match reply
    case Lost => true
    case Refused => !Showing(o) || lib.parse(tried.values).None? || Apart(lib, o.status.attempt, At(tried))
    case Delivered =>
      lib.parse(o.spec.values).None? ||
      if At(o.spec) == At(tried) then lib.parse(o.spec.values) == lib.parse(tried.values)
      else MadeFrom(lib, w.releases, tried)
  }

  ghost predicate Smooth(lib: Library, w: World, e: Event) {
    && (e.WriteStatus? && w.pc.Announcing? ==> w.obj.Some? && Harmless(lib, w, e.reply))
    && (e.Enable? ==> Clean(e.spec))
  }

  ghost predicate SmoothRun(lib: Library, w: World, es: seq<Event>)
    decreases |es|
  {
    es != [] ==> Enabled(w, es[0]) && Smooth(lib, w, es[0]) && SmoothRun(lib, Next(lib, w, es[0]), es[1..])
  }

  // ---- What smooth runs keep ----

  /** Running Helm now can neither unsettle what the status shows nor record what it has not run. */
  ghost predicate Safe(lib: Library, w: World)
    requires w.pc.Helming? && w.obj.Some?
  {
    var o, at := w.obj.value, At(w.mem.spec);
    o.deleting ||
    match lib.parse(w.mem.spec.values)
    case None => true
    case Some(v) =>
      && (Showing(o) ==> Apart(lib, o.status.attempt, at))
      && Backs(lib, w.releases[at := Handed(w.pc.chart, w.mem.spec, v)], w.mem.status.attempt)
  }

  /** The reconcile has resolved the chart of its own spec and has that spec's fingerprint. */
  ghost predicate Trying(lib: Library, w: World) {
    && w.pc.Announcing? && w.obj.Some? && Clean(w.mem.spec)
    && w.pc.chart == w.mem.spec.chart && w.mem.status.attempt == AttemptHash(lib, w.mem.spec)
    && !Terminal(w.mem.status.phase)
  }

  ghost predicate Sound(lib: Library, w: World) {
    && Kept(w)
    && (w.obj.Some? ==> Clean(w.obj.value.spec))
    && (w.obj.Some? && Showing(w.obj.value) ==> Backs(lib, w.releases, w.obj.value.status.attempt))
    && (!w.pc.Idle? ==> Clean(w.mem.spec))
    && (w.pc.Announcing? ==> Trying(lib, w))
    && (w.pc.Helming? ==> !Terminal(w.mem.status.phase) && Safe(lib, w))
    && (w.pc.Settling? && w.mem.status.phase.Running? ==>
        w.obj.value.deleting || Backs(lib, w.releases, w.mem.status.attempt))
  }

  lemma OwnRunBacks(lib: Library, releases: map<Place, Release>, s: Spec, v: Values)
    requires Faithful(lib) && Clean(s) && lib.parse(s.values) == Some(v)
    ensures Backs(lib, releases[At(s) := Handed(s.chart, s, v)], AttemptHash(lib, s))
  {
    var after := releases[At(s) := Handed(s.chart, s, v)];
    forall t | Clean(t) && AttemptHash(lib, t) == AttemptHash(lib, s)
      ensures MadeFrom(lib, after, t)
    {
      AttemptHashIff(lib, t, s);
    }
  }

  /** Specs that share a fingerprint stand or fall together. */
  lemma OneForAll(lib: Library, releases: map<Place, Release>, s: Spec)
    requires Faithful(lib) && Clean(s) && MadeFrom(lib, releases, s)
    ensures Backs(lib, releases, AttemptHash(lib, s))
  {
    forall t | Clean(t) && AttemptHash(lib, t) == AttemptHash(lib, s)
      ensures MadeFrom(lib, releases, t)
    {
      AttemptHashIff(lib, t, s);
    }
  }

  lemma ElsewhereStays(lib: Library, before: map<Place, Release>, after: map<Place, Release>, attempt: string, at: Place)
    requires Backs(lib, before, attempt) && Apart(lib, attempt, at)
    requires after - {at} == before - {at}
    ensures Backs(lib, after, attempt)
  {
    forall s | Clean(s) && AttemptHash(lib, s) == attempt
      ensures MadeFrom(lib, after, s)
    {
      assert MadeFrom(lib, before, s) && At(s) != at;
      assert At(s) in before - {at} && (before - {at})[At(s)] == before[At(s)];
      assert At(s) in after - {at} && (after - {at})[At(s)] == after[At(s)];
    }
  }

  lemma LeftElsewhere(releases: map<Place, Release>, at: Place, left: Residue, whole: Release)
    ensures Left(releases, at, left, whole) - {at} == releases - {at}
  {
  }

  /** Whatever Helm leaves at its place, the status that is shown stays backed. */
  lemma ResidueKeepsShown(lib: Library, w: World, left: Residue, whole: Release)
    requires Sound(lib, w) && w.pc.Helming? && lib.parse(w.mem.spec.values).Some? && Showing(w.obj.value)
    ensures Backs(lib, Left(w.releases, At(w.mem.spec), left, whole), w.obj.value.status.attempt)
  {
    LeftElsewhere(w.releases, At(w.mem.spec), left, whole);
    ElsewhereStays(lib, w.releases, Left(w.releases, At(w.mem.spec), left, whole), w.obj.value.status.attempt, At(w.mem.spec));
  }

  lemma HelmKeepsSound(lib: Library, w: World, result: HelmResult)
    requires Sound(lib, w) && w.pc.Helming?
    ensures Sound(lib, Next(lib, w, Helm(result)))
  {
    StepKeepsKept(lib, w, Helm(result));
    match lib.parse(w.mem.spec.values)
    case None =>
    case Some(v) =>
      var made := Handed(w.pc.chart, w.mem.spec, v);
      var left := match result
        case Fails(left) => left
        case Succeeds(_) => Complete
        case ChartUnloadable => Untouched;
      assert Next(lib, w, Helm(result)).releases == Left(w.releases, At(w.mem.spec), left, made);
      if Showing(w.obj.value) {
        ResidueKeepsShown(lib, w, left, made);
      }
      hide Backs, Apart, Left, AttemptHash, Clean, Kept;
  }

  lemma CrashKeepsSound(lib: Library, w: World, left: Residue, wipe: bool)
    requires Sound(lib, w) && Enabled(w, Crash(left, wipe))
    ensures Sound(lib, Next(lib, w, Crash(left, wipe)))
  {
    StepKeepsKept(lib, w, Crash(left, wipe));
    if w.pc.Helming? && w.obj.Some? && Showing(w.obj.value) {
      match lib.parse(w.mem.spec.values)
      case None =>
      case Some(v) => ResidueKeepsShown(lib, w, left, Handed(w.pc.chart, w.mem.spec, v));
    }
    hide Backs, Apart, Handed, AttemptHash, Clean;
  }

  lemma EnableKeepsSound(lib: Library, w: World, e: Event)
    requires Sound(lib, w) && Smooth(lib, w, e) && e.Enable?
    ensures Sound(lib, Next(lib, w, e))
  {
    StepKeepsKept(lib, w, e);
    hide AttemptHash, Backs, Apart, Clean, Handed, Kept, MadeFrom, Disabling;
  }

  lemma DisableKeepsSound(lib: Library, w: World)
    requires Sound(lib, w)
    ensures Sound(lib, Next(lib, w, Disable))
  {
    StepKeepsKept(lib, w, Disable);
    hide AttemptHash, Backs, Apart, Clean, Handed, Kept, MadeFrom, Enabling;
  }

  lemma AnnouncementKeepsSound(lib: Library, w: World, reply: Reply)
    requires Faithful(lib) && Sound(lib, w) && w.pc.Announcing? && Harmless(lib, w, reply)
    ensures Sound(lib, Next(lib, w, WriteStatus(reply)))
  {
    var e := WriteStatus(reply);
    var v := Next(lib, w, e);
    StepKeepsKept(lib, w, e);
    assert Safe(lib, v) by {
      AnnouncementIsSafe(lib, w, reply);
    }
    hide AttemptHash, Backs, Apart, Clean, Handed, Safe, Harmless, MadeFrom;
  }

  lemma AnnouncementIsSafe(lib: Library, w: World, reply: Reply)
    requires Faithful(lib) && Trying(lib, w) && Harmless(lib, w, reply)
    ensures var v := Next(lib, w, WriteStatus(reply));
      v.pc.Helming? && v.obj.Some? && Safe(lib, v)
  {
    var v := Next(lib, w, WriteStatus(reply));
    var o, tried, runs := w.obj.value, w.mem.spec, v.mem.spec;
    hide AttemptHash;
    if !o.deleting && lib.parse(runs.values).Some? {
      var values := lib.parse(runs.values).value;
      var after := w.releases[At(runs) := Handed(w.pc.chart, runs, values)];
      if At(runs) == At(tried) {
        assert Handed(w.pc.chart, runs, values) == Handed(tried.chart, tried, values);
        OwnRunBacks(lib, w.releases, tried, values);
      } else {
        assert MadeFrom(lib, after, tried);
        OneForAll(lib, after, tried);
      }
    }
  }

  lemma WriteKeepsSound(lib: Library, w: World, reply: Reply)
    requires Sound(lib, w) && Enabled(w, WriteStatus(reply)) && !w.pc.Announcing?
    ensures Sound(lib, Next(lib, w, WriteStatus(reply)))
  {
    StepKeepsKept(lib, w, WriteStatus(reply));
    hide AttemptHash, Backs, Apart, Clean, Handed, Safe;
  }

  lemma FetchKeepsSound(lib: Library, w: World, ok: bool)
    requires Sound(lib, w) && Enabled(w, Fetch(ok))
    ensures Sound(lib, Next(lib, w, Fetch(ok)))
  {
    StepKeepsKept(lib, w, Fetch(ok));
    hide AttemptHash, Backs, Apart, Clean, Handed, Safe, Resolves, Kept;
  }

  lemma UpdateKeepsSound(lib: Library, w: World, e: Event)
    requires Sound(lib, w) && Enabled(w, e) && (e.Finalize? || e.Uninstall? || e.Release?)
    ensures Sound(lib, Next(lib, w, e))
  {
    StepKeepsKept(lib, w, e);
    hide AttemptHash, Backs, Apart, Clean, Left, Handed, Safe;
  }

  lemma StepKeepsSound(lib: Library, w: World, e: Event)
    requires Faithful(lib) && Sound(lib, w) && Enabled(w, e) && Smooth(lib, w, e)
    ensures Sound(lib, Next(lib, w, e))
  {
    hide Sound, Next, Harmless, Trying;
    match e
    case Enable(_, _) => EnableKeepsSound(lib, w, e);
    case Disable => DisableKeepsSound(lib, w);
    case Crash(left, wipe) => CrashKeepsSound(lib, w, left, wipe);
    case Fetch(ok) => FetchKeepsSound(lib, w, ok);
    case WriteStatus(reply) =>
      if w.pc.Announcing? {
        AnnouncementKeepsSound(lib, w, reply);
      } else {
        WriteKeepsSound(lib, w, reply);
      }
    case Helm(result) => HelmKeepsSound(lib, w, result);
    case _ => UpdateKeepsSound(lib, w, e);
  }

  lemma {:induction false} RunKeepsSound(lib: Library, w: World, es: seq<Event>, v: World)
    requires Faithful(lib) && Sound(lib, w) && Run(lib, w, es, v) && SmoothRun(lib, w, es)
    ensures Sound(lib, v)
    decreases |es|
  {
    if es != [] {
      StepKeepsSound(lib, w, es[0]);
      hide Sound, Enabled, Next, Smooth, Faithful;
      RunKeepsSound(lib, Next(lib, w, es[0]), es[1..], v);
    }
  }

  lemma SoundIsNotFooled(lib: Library, w: World)
    requires Sound(lib, w)
    ensures !Fooled(lib, w)
  {
    if w.obj.Some? && Showing(w.obj.value) && GateCloses(lib, w.obj.value) {
      assert Clean(w.obj.value.spec) && AttemptHash(lib, w.obj.value.spec) == w.obj.value.status.attempt;
    }
  }

  /**
   Where the gate closes on Running, the release in place was made from exactly
   what Helm would be handed now, so another run would put the same thing there.
   */
  lemma GateIsSound(lib: Library, es: seq<Event>, w: World)
    requires Faithful(lib) && Run(lib, Start(), es, w) && SmoothRun(lib, Start(), es)
    requires w.obj.Some? && GateCloses(lib, w.obj.value) && Showing(w.obj.value)
    ensures var s := w.obj.value.spec;
      lib.parse(s.values).Some? && At(s) in w.releases
      && w.releases[At(s) := Handed(s.chart, s, lib.parse(s.values).value)] == w.releases
  {
    RunKeepsSound(lib, Start(), es, w);
    SoundIsNotFooled(lib, w);
    hide AttemptHash;
    assert MadeFrom(lib, w.releases, w.obj.value.spec);
  }

  // ---- The condition is exact ----

  /** From here the gate can be fooled without another harmful write. */
  ghost predicate CanBeFooled(lib: Library, w: World) {
    exists es, v :: SmoothRun(lib, w, es) && Run(lib, w, es, v) && Fooled(lib, v)
  }

  lemma ThreeSteps(lib: Library, w: World, a: Event, b: Event, c: Event)
    requires Enabled(w, a) && Smooth(lib, w, a)
    requires var w1 := Next(lib, w, a); Enabled(w1, b) && Smooth(lib, w1, b)
    requires var w2 := Next(lib, Next(lib, w, a), b); Enabled(w2, c) && Smooth(lib, w2, c)
    requires Fooled(lib, Next(lib, Next(lib, Next(lib, w, a), b), c))
    ensures CanBeFooled(lib, w)
  {
    hide Enabled, Next, Smooth, Fooled;
    var w1 := Next(lib, w, a);
    var w2 := Next(lib, w1, b);
    var w3 := Next(lib, w2, c);
    assert Run(lib, w3, [], w3) && SmoothRun(lib, w3, []);
    assert [c][1..] == [];
    assert Run(lib, w2, [c], w3) && SmoothRun(lib, w2, [c]);
    assert [b, c][1..] == [c];
    assert Run(lib, w1, [b, c], w3) && SmoothRun(lib, w1, [b, c]);
    assert [a, b, c][1..] == [b, c];
    assert Run(lib, w, [a, b, c], w3) && SmoothRun(lib, w, [a, b, c]);
  }

  /** Running stays up while Helm breaks the release it stands for. */
  lemma RefusalFools(lib: Library, w: World)
    requires Trying(lib, w) && !Harmless(lib, w, Refused)
    ensures CanBeFooled(lib, Next(lib, w, WriteStatus(Refused)))
  {
    hide AttemptHash;
    var o, tried := w.obj.value, w.mem.spec;
    var s :| Clean(s) && AttemptHash(lib, s) == o.status.attempt && At(s) == At(tried);
    var w1 := Next(lib, w, WriteStatus(Refused));
    assert w1 == w.(pc := Helming(w.pc.chart));
    var w2 := Next(lib, w1, Helm(Fails(Broken)));
    assert w2.obj == w.obj && w2.releases == w.releases[At(tried) := Damaged] && w2.pc == Settling(false);
    var w3 := Next(lib, w2, WriteStatus(Refused));
    assert w3.obj == w.obj && w3.releases == w2.releases;
    var w4 := Next(lib, w3, Enable(s, false));
    assert w4.obj.value.status == o.status && w4.obj.value.spec == s && w4.releases == w2.releases;
    ThreeSteps(lib, w1, Helm(Fails(Broken)), WriteStatus(Refused), Enable(s, false));
  }

  /** The refetched spec is run and recorded under the fingerprint of the one that was tried. */
  lemma RefetchFools(lib: Library, w: World)
    requires Trying(lib, w) && !Harmless(lib, w, Delivered)
    ensures CanBeFooled(lib, Next(lib, w, WriteStatus(Delivered)))
  {
    hide AttemptHash, Begin, Releasing, Finalizing, Uninstalled, Crashed, Disabling, Left;
    var o, tried := w.obj.value, w.mem.spec;
    var v := lib.parse(o.spec.values).value;
    var w1 := Next(lib, w, WriteStatus(Delivered));
    assert w1.mem.spec == o.spec && w1.pc == Helming(w.pc.chart) && w1.releases == w.releases;
    var w2 := Next(lib, w1, Helm(Succeeds(1)));
    assert w2.releases == w.releases[At(o.spec) := Handed(w.pc.chart, o.spec, v)] && w2.pc == Settling(false);
    assert w2.mem.status == Status(Running, w.mem.status.attempt, 1) && w2.obj == w1.obj;
    var w3 := Next(lib, w2, WriteStatus(Delivered));
    assert w3.obj.value.status == w2.mem.status && !w3.obj.value.deleting && w3.releases == w2.releases;
    var w4 := Next(lib, w3, Enable(tried, false));
    assert w4.obj.value.status == w2.mem.status && w4.obj.value.spec == tried && w4.releases == w2.releases;
    ThreeSteps(lib, w1, Helm(Succeeds(1)), WriteStatus(Delivered), Enable(tried, false));
  }

  /** On any run so far smooth, the write before Helm makes it possible to fool the gate if and only if it is not harmless. */
  lemma HarmlessIsExact(lib: Library, es: seq<Event>, w: World, reply: Reply)
    requires Faithful(lib) && Run(lib, Start(), es, w) && SmoothRun(lib, Start(), es) && w.pc.Announcing?
    ensures w.obj.Some?
    ensures CanBeFooled(lib, Next(lib, w, WriteStatus(reply))) == !Harmless(lib, w, reply)
  {
    RunKeepsSound(lib, Start(), es, w);
    var v := Next(lib, w, WriteStatus(reply));
    if Harmless(lib, w, reply) {
      AnnouncementKeepsSound(lib, w, reply);
      if CanBeFooled(lib, v) {
        var after, u :| SmoothRun(lib, v, after) && Run(lib, v, after, u) && Fooled(lib, u);
        RunKeepsSound(lib, v, after, u);
        SoundIsNotFooled(lib, u);
        assert false;
      }
    } else if reply.Refused? {
      RefusalFools(lib, w);
    } else {
      RefetchFools(lib, w);
    }
  }

  // ---- It does happen ----

  /** Two specs for one place that Helm would treat differently. */
  ghost predicate Differ(lib: Library, a: Spec, b: Spec) {
    && Clean(a) && a.chart == b.chart && a.chart.kind == "repo" && At(a) == At(b)
    && lib.parse(a.values).Some? && lib.parse(b.values).Some? && lib.parse(a.values) != lib.parse(b.values)
    && AttemptHash(lib, a) != AttemptHash(lib, b)
  }

  lemma FooledIsReachable(lib: Library, w: World)
    requires Reachable(lib, w) && CanBeFooled(lib, w)
    ensures exists v :: Reachable(lib, v) && Fooled(lib, v)
  {
    var es, v :| SmoothRun(lib, w, es) && Run(lib, w, es, v) && Fooled(lib, v);
    GoesOn(lib, w, es, v);
  }

  /** A first install during which the user changes the values. */
  lemma RefetchFoolsGate(lib: Library, a: Spec, b: Spec)
    requires Differ(lib, a, b)
    ensures exists w :: Reachable(lib, w) && Fooled(lib, w)
  {
    ReachFresh(lib, a);
    hide AttemptHash, Reachable;
    var w := Fresh(lib, a);
    Goes(lib, w, Enable(b, false));
    var w1 := Next(lib, w, Enable(b, false));
    assert Trying(lib, w1) && !Harmless(lib, w1, Delivered);
    RefetchFools(lib, w1);
    Goes(lib, w1, WriteStatus(Delivered));
    hide CanBeFooled, Fooled, Next, Enabled;
    FooledIsReachable(lib, Next(lib, w1, WriteStatus(Delivered)));
  }

  /** An upgrade whose first status write is lost. */
  lemma LostAnnouncementFoolsGate(lib: Library, a: Spec, b: Spec)
    requires Differ(lib, a, b) && Clean(b)
    ensures exists w :: Reachable(lib, w) && Fooled(lib, w)
  {
    ReachDeployed(lib, a);
    hide AttemptHash, Reachable;
    var w := Deployed(lib, a, lib.parse(a.values).value);
    Goes(lib, w, Enable(b, false));
    var w1 := Next(lib, w, Enable(b, false));
    Goes(lib, w1, Fetch(true));
    var w2 := Next(lib, w1, Fetch(true));
    assert Trying(lib, w2) && !Harmless(lib, w2, Refused);
    RefusalFools(lib, w2);
    Goes(lib, w2, WriteStatus(Refused));
    hide CanBeFooled, Fooled, Next, Enabled;
    FooledIsReachable(lib, Next(lib, w2, WriteStatus(Refused)));
  }

  // ---- A closed gate and another click on enable ----

  /** An idle reconciler whose gate is closed on its object. */
  predicate Shut(lib: Library, w: World) {
    && w.pc.Idle? && w.obj.Some? && w.obj.value.finalizer && !w.obj.value.deleting
    && GateCloses(lib, w.obj.value)
  }

  /** Enabling the same spec, with or without its chart, reconciles for whatever reason, and restarts. */
  predicate Routine(s: Spec, e: Event) {
    (e.Enable? && e.spec == s) || e.Fetch? || e.Crash?
  }

  /** A closed gate stays closed, Running or Failed, however often the same spec is enabled again. */
  lemma {:induction false} ClosedGateStays(lib: Library, w: World, es: seq<Event>, v: World)
    requires Shut(lib, w) && Run(lib, w, es, v) && forall e :: e in es ==> Routine(w.obj.value.spec, e)
    ensures Shut(lib, v) && v.obj == w.obj && v.releases == w.releases
    decreases |es|
  {
    if es != [] {
      assert es[0] in es;
      RoutineStays(lib, w, es[0]);
      hide Shut, Enabled, Next;
      ClosedGateStays(lib, Next(lib, w, es[0]), es[1..], v);
    }
  }

  lemma RoutineStays(lib: Library, w: World, e: Event)
    requires Shut(lib, w) && Enabled(w, e) && Routine(w.obj.value.spec, e)
    ensures var v := Next(lib, w, e); Shut(lib, v) && v.obj == w.obj && v.releases == w.releases
  {
    hide AttemptHash;
  }

  /** Enabling leads to a new attempt if and only if the spec has another fingerprint. */
  lemma EnableReopensIff(lib: Library, w: World, spec: Spec, blob: bool)
    requires Shut(lib, w) && !w.due
    ensures var v := Next(lib, w, Enable(spec, blob));
      (v.due && !Next(lib, v, Fetch(true)).pc.Idle?) == (AttemptHash(lib, spec) != AttemptHash(lib, w.obj.value.spec))
  {
    hide AttemptHash;
  }

  /** At rest on Failed for this spec, although its chart is there. */
  predicate FailedWithChart(lib: Library, w: World, s: Spec) {
    && Shut(lib, w) && !w.due
    && w.obj.value.spec == s && w.obj.value.status.phase.Failed? && Resolves(s.chart, w.cached)
  }

  /** A chart upload that was lost with the worker's disk is not made good by enabling again. */
  lemma MissingChartStays(lib: Library, s: Spec)
    requires s.chart.kind == "local" && s.chart.sha256 != ""
    ensures exists w :: Reachable(lib, w) && FailedWithChart(lib, w, s)
  {
    ReachStart(lib);
    hide AttemptHash, Reachable;
    Goes(lib, Start(), Enable(s, true));
    var w1 := Next(lib, Start(), Enable(s, true));
    Goes(lib, w1, Crash(Untouched, true));
    var w2 := Next(lib, w1, Crash(Untouched, true));
    Goes(lib, w2, Fetch(true));
    var w3 := Next(lib, w2, Fetch(true));
    Goes(lib, w3, Finalize(Delivered));
    var w4 := Next(lib, w3, Finalize(Delivered));
    assert w4.pc.Idle? && w4.due && w4.obj == Some(Object(s, true, false, 2, NO_STATUS)) && w4.cached == {};
    Goes(lib, w4, Fetch(true));
    var w5 := Next(lib, w4, Fetch(true));
    Goes(lib, w5, WriteStatus(Delivered));
    var w6 := Next(lib, w5, WriteStatus(Delivered));
    assert w6.obj.value.spec == s && w6.obj.value.status == Status(Failed, AttemptHash(lib, s), 0) && !w6.due;
    Goes(lib, w6, Enable(s, true));
    var w7 := Next(lib, w6, Enable(s, true));
    assert FailedWithChart(lib, w7, s);
  }
}
