/**
 A plugin whose release is moved: enabled again with another release name or
 namespace. Uninstalling goes by the object's present spec, so what stands in the
 old place may be left there with no object to remove it.
 */
module PluginMove {
  import opened Wrappers
  import opened PluginFingerprint
  import opened PluginLifecycle

  /** A reconcile that can still run Helm on the spec it began with. */
  predicate MayRun(lib: Library, w: World) {
    (w.pc.Announcing? || w.pc.Helming?) && lib.parse(w.mem.spec.values).Some?
  }

  /** With all further commands naming another place, the object can go and leave this release behind. */
  ghost predicate CanOrphan(lib: Library, w: World, at: Place, to: Place) {
    exists es, v :: Run(lib, w, es, v) && Fixed(es, to) && v.obj.None? && at in v.releases
  }

  // ---- Nothing comes to be in a place that is given up ----

  ghost predicate GivenUp(lib: Library, w: World, at: Place, to: Place) {
    && Kept(w) && at !in w.releases
    && (w.obj.Some? ==> At(w.obj.value.spec) == to)
    && (MayRun(lib, w) ==> At(w.mem.spec) == to)
  }

  lemma CommandKeepsGivenUp(lib: Library, w: World, e: Event, at: Place, to: Place)
    requires at != to && GivenUp(lib, w, at, to) && Enabled(w, e) && (e.Enable? ==> At(e.spec) == to)
    requires e.Enable? || e.Disable? || e.Crash?
    ensures GivenUp(lib, Next(lib, w, e), at, to)
  {
    StepKeepsKept(lib, w, e);
    hide AttemptHash, Kept, Begin, Touch, Onward, Finalizing, Releasing, Uninstalled, HelmRun, Handed;
  }

  lemma FetchKeepsGivenUp(lib: Library, w: World, e: Event, at: Place, to: Place)
    requires at != to && GivenUp(lib, w, at, to) && Enabled(w, e) && e.Fetch?
    ensures GivenUp(lib, Next(lib, w, e), at, to)
  {
    StepKeepsKept(lib, w, e);
    hide AttemptHash, Kept, Resolves, GateCloses;
  }

  lemma WriteKeepsGivenUp(lib: Library, w: World, e: Event, at: Place, to: Place)
    requires at != to && GivenUp(lib, w, at, to) && Enabled(w, e) && e.WriteStatus?
    ensures GivenUp(lib, Next(lib, w, e), at, to)
  {
    StepKeepsKept(lib, w, e);
    TouchKeeps(w, e.reply);
    assert Next(lib, w, e) == Onward(Touch(w, e.reply));
    hide Next, Touch, Kept;
  }

  lemma UpdateKeepsGivenUp(lib: Library, w: World, e: Event, at: Place, to: Place)
    requires at != to && GivenUp(lib, w, at, to) && Enabled(w, e) && (e.Finalize? || e.Release?)
    ensures GivenUp(lib, Next(lib, w, e), at, to)
  {
    StepKeepsKept(lib, w, e);
    hide Kept, Enabling, Disabling, Crashed, Uninstalled, HelmRun, Begin, Touch, Onward;
  }

  lemma HelmKeepsGivenUp(lib: Library, w: World, e: Event, at: Place, to: Place)
    requires at != to && GivenUp(lib, w, at, to) && Enabled(w, e) && (e.Uninstall? || e.Helm?)
    ensures GivenUp(lib, Next(lib, w, e), at, to)
  {
    StepKeepsKept(lib, w, e);
    hide Kept, Enabling, Disabling, Crashed, Begin, Touch, Onward, Finalizing, Releasing, Handed;
  }

  lemma {:induction false} RunKeepsGivenUp(lib: Library, w: World, es: seq<Event>, v: World, at: Place, to: Place)
    requires at != to && GivenUp(lib, w, at, to) && Run(lib, w, es, v) && Fixed(es, to)
    ensures GivenUp(lib, v, at, to)
    decreases |es|
  {
    if es != [] {
      var e := es[0];
      match e {
        case Enable(_, _) => CommandKeepsGivenUp(lib, w, e, at, to);
        case Disable => CommandKeepsGivenUp(lib, w, e, at, to);
        case Crash(_, _) => CommandKeepsGivenUp(lib, w, e, at, to);
        case Fetch(_) => FetchKeepsGivenUp(lib, w, e, at, to);
        case Uninstall(_, _) => HelmKeepsGivenUp(lib, w, e, at, to);
        case Helm(_) => HelmKeepsGivenUp(lib, w, e, at, to);
        case WriteStatus(_) => WriteKeepsGivenUp(lib, w, e, at, to);
        case _ => UpdateKeepsGivenUp(lib, w, e, at, to);
      }
      hide GivenUp, Enabled, Next;
      RunKeepsGivenUp(lib, Next(lib, w, e), es[1..], v, at, to);
    }
  }

  // ---- What stands there can be left behind ----

  predicate NoCommand(es: seq<Event>) {
    forall e :: e in es ==> !e.Enable? && !e.Crash?
  }

  lemma FirstThen(lib: Library, w: World, e: Event, es: seq<Event>, v: World)
    requires Enabled(w, e) && Run(lib, Next(lib, w, e), es, v)
    ensures Run(lib, w, [e] + es, v)
  {
    assert ([e] + es)[1..] == es;
  }

  lemma {:induction false} OneThenOther(lib: Library, w: World, a: seq<Event>, u: World, b: seq<Event>, v: World)
    requires Run(lib, w, a, u) && Run(lib, u, b, v)
    ensures Run(lib, w, a + b, v)
    decreases |a|
  {
    hide Enabled, Next;
    if a == [] {
      assert a + b == b;
    } else {
      OneThenOther(lib, Next(lib, w, a[0]), a[1..], u, b, v);
      assert (a + b)[1..] == a[1..] + b;
    }
  }

  function ToIdle(pc: Pc): nat {
    match pc
    case Idle => 0
    case Helming(_) => 2
    case Removing => 2
    case Announcing(_) => 3
    case MarkingUninstalling => 3
    case _ => 1
  }

  /** The next call of a reconcile, when it fails. */
  function Failing(pc: Pc): Event
    requires !pc.Idle?
  {
    match pc
    case AddingFinalizer => Finalize(Refused)
    case Removing => Uninstall(false, Untouched)
    case DroppingFinalizer => Event.Release(Refused)
    case Helming(_) => Helm(ChartUnloadable)
    case _ => WriteStatus(Refused)
  }

  lemma FailingStep(lib: Library, w: World)
    requires !w.pc.Idle? && w.due
    ensures Enabled(w, Failing(w.pc))
    ensures var v := Next(lib, w, Failing(w.pc));
      ToIdle(v.pc) < ToIdle(w.pc) && v.due && v.obj == w.obj && v.releases == w.releases
  {
    hide Enabling, Disabling, Crashed, Begin, Handed;
  }

  /** A reconcile whose calls all fail changes neither the object nor a release. */
  lemma {:induction false} WindsUp(lib: Library, w: World) returns (es: seq<Event>, v: World)
    requires w.due
    ensures Run(lib, w, es, v) && NoCommand(es)
    ensures v.pc.Idle? && v.due && v.obj == w.obj && v.releases == w.releases
    decreases ToIdle(w.pc)
  {
    if w.pc.Idle? {
      es, v := [], w;
    } else {
      FailingStep(lib, w);
      hide Enabled, Next, ToIdle;
      var rest;
      rest, v := WindsUp(lib, Next(lib, w, Failing(w.pc)));
      FirstThen(lib, w, Failing(w.pc), rest, v);
      es := [Failing(w.pc)] + rest;
    }
  }

  /** An idle reconciler that is told of the object's deletion uninstalls in its present place and lets it go. */
  lemma TearsDown(lib: Library, w: World) returns (es: seq<Event>, v: World)
    requires w.pc.Idle? && w.due && w.obj.Some? && w.obj.value.finalizer && w.obj.value.deleting
    ensures Run(lib, w, es, v) && NoCommand(es)
    ensures v.obj.None? && v.releases == w.releases - {At(w.obj.value.spec)}
  {
    hide AttemptHash, Resolves, GateCloses, Handed, Left, Run, HelmRun, Enabling, Disabling, Crashed, Finalizing;
    var w1 := Next(lib, w, Fetch(true));
    var w2 := if w1.pc.Removing? then w1 else Next(lib, w1, WriteStatus(Delivered));
    assert w2.pc.Removing? && Current(w2) && w2.mem.spec == w.obj.value.spec && w2.obj.value.deleting;
    var w3 := Next(lib, w2, Uninstall(true, Untouched));
    v := Next(lib, w3, Event.Release(Delivered));
    assert v.obj.None? && v.releases == w.releases - {At(w.obj.value.spec)};
    NoMore(lib, v);
    FirstThen(lib, w3, Event.Release(Delivered), [], v);
    es := [Event.Release(Delivered)] + [];
    FirstThen(lib, w2, Uninstall(true, Untouched), es, v);
    es := [Uninstall(true, Untouched)] + es;
    if !w1.pc.Removing? {
      FirstThen(lib, w1, WriteStatus(Delivered), es, v);
      es := [WriteStatus(Delivered)] + es;
    }
    FirstThen(lib, w, Fetch(true), es, v);
    es := [Fetch(true)] + es;
  }

  lemma NoMore(lib: Library, w: World)
    ensures Run(lib, w, [], w)
  {
  }

  /** Deleting the object now leaves behind every release but the one in its present place. */
  lemma LeavesBehind(lib: Library, w: World) returns (es: seq<Event>, v: World)
    requires w.due && w.obj.Some? && w.obj.value.finalizer
    ensures Run(lib, w, es, v) && NoCommand(es)
    ensures v.obj.None? && v.releases == w.releases - {At(w.obj.value.spec)}
  {
    var w1;
    es, w1 := WindsUp(lib, w);
    var w2, more := w1, [];
    if !w1.obj.value.deleting {
      w2 := Next(lib, w1, Disable);
      NoMore(lib, w2);
      FirstThen(lib, w1, Disable, [], w2);
      more := [Disable] + [];
    } else {
      NoMore(lib, w1);
    }
    assert w2.pc.Idle? && w2.due && w2.obj.Some? && w2.obj.value.finalizer && w2.obj.value.deleting;
    assert w2.releases == w.releases && w2.obj.value.spec == w.obj.value.spec;
    hide Next, Enabled, Run;
    OneThenOther(lib, w, es, w1, more, w2);
    var last;
    last, v := TearsDown(lib, w2);
    OneThenOther(lib, w, es + more, w2, last, v);
    es := es + more + last;
  }

  /** A Helm run that is still to come can put a release in the place its reconcile began with. */
  lemma StillRuns(lib: Library, w: World) returns (es: seq<Event>, v: World)
    requires MayRun(lib, w)
    ensures Run(lib, w, es, v) && NoCommand(es)
    ensures v.obj == w.obj && v.due == w.due && At(w.mem.spec) in v.releases
  {
    hide AttemptHash, Run, Begin, Enabling, Disabling, Crashed, Left, Uninstalled, Finalizing, Releasing;
    var w1 := if w.pc.Helming? then w else Next(lib, w, WriteStatus(Refused));
    assert w1.pc.Helming? && w1.mem == w.mem && w1.obj == w.obj && w1.due == w.due;
    v := Next(lib, w1, Helm(Succeeds(1)));
    NoMore(lib, v);
    FirstThen(lib, w1, Helm(Succeeds(1)), [], v);
    es := [Helm(Succeeds(1))] + [];
    if !w.pc.Helming? {
      FirstThen(lib, w, WriteStatus(Refused), es, v);
      es := [WriteStatus(Refused)] + es;
    }
  }

  // ---- The condition for a move to be harmless ----

  lemma MovedIsGivenUp(lib: Library, w: World, at: Place, spec: Spec, blob: bool)
    requires Owned(w, at) && At(spec) != at && at !in w.releases && !MayRun(lib, w)
    ensures GivenUp(lib, Next(lib, w, Enable(spec, blob)), at, At(spec))
  {
    StepKeepsKept(lib, w, Enable(spec, blob));
    hide Kept, Begin, Touch, Onward, Finalizing, Releasing, Uninstalled, HelmRun;
  }

  lemma MovedKeepsRest(lib: Library, w: World, at: Place, spec: Spec, blob: bool)
    requires Owned(w, at) && At(spec) != at && (at in w.releases || MayRun(lib, w))
    ensures var v := Next(lib, w, Enable(spec, blob));
      && v.due && v.obj.Some? && v.obj.value.finalizer && At(v.obj.value.spec) == At(spec)
      && v.releases == w.releases && MayRun(lib, v) == MayRun(lib, w) && v.mem == w.mem
      && (MayRun(lib, w) ==> At(w.mem.spec) == at)
  {
  }

  /**
   Over every run that has named one place so far, whatever the reconciler is doing:
   enabling with another place can leave a release behind if and only if one stands
   in the old place or a reconcile is on its way to run Helm there.
   */
  lemma MoveOrphansIff(lib: Library, es: seq<Event>, w: World, at: Place, spec: Spec, blob: bool)
    requires Run(lib, Start(), es, w) && Fixed(es, at)
    ensures CanOrphan(lib, Next(lib, w, Enable(spec, blob)), at, At(spec))
      == (At(spec) != at && (at in w.releases || MayRun(lib, w)))
  {
    var to, v := At(spec), Next(lib, w, Enable(spec, blob));
    RunKeepsOwned(lib, Start(), es, w, at);
    if to == at {
      StepKeepsOwned(lib, w, Enable(spec, blob), at);
      StaysOwned(lib, v, at);
    } else if at in w.releases || MayRun(lib, w) {
      MovedKeepsRest(lib, w, at, spec, blob);
      hide Next, Enabled, MayRun, Owned;
      ComesApart(lib, v, at, to);
    } else {
      MovedIsGivenUp(lib, w, at, spec, blob);
      hide Next, Enabled, MayRun, Owned;
      StaysGivenUp(lib, v, at, to);
    }
  }

  lemma StaysOwned(lib: Library, w: World, at: Place)
    requires Owned(w, at)
    ensures !CanOrphan(lib, w, at, at)
  {
    if CanOrphan(lib, w, at, at) {
      var es, v :| Run(lib, w, es, v) && Fixed(es, at) && v.obj.None? && at in v.releases;
      RunKeepsOwned(lib, w, es, v, at);
      assert false;
    }
  }

  lemma StaysGivenUp(lib: Library, w: World, at: Place, to: Place)
    requires at != to && GivenUp(lib, w, at, to)
    ensures !CanOrphan(lib, w, at, to)
  {
    if CanOrphan(lib, w, at, to) {
      var es, v :| Run(lib, w, es, v) && Fixed(es, to) && v.obj.None? && at in v.releases;
      RunKeepsGivenUp(lib, w, es, v, at, to);
      assert false;
    }
  }

  lemma ComesApart(lib: Library, w: World, at: Place, to: Place)
    requires at != to && w.due && w.obj.Some? && w.obj.value.finalizer && At(w.obj.value.spec) == to
    requires at in w.releases || (MayRun(lib, w) && At(w.mem.spec) == at)
    ensures CanOrphan(lib, w, at, to)
  {
    var first: seq<Event>, w1 := [], w;
    if at in w.releases {
      NoMore(lib, w);
    } else {
      first, w1 := StillRuns(lib, w);
    }
    var last, v := LeavesBehind(lib, w1);
    hide Run;
    OneThenOther(lib, w, first, w1, last, v);
    assert forall e :: e in first + last ==> !e.Enable?;
    assert Fixed(first + last, to) && v.obj.None? && at in v.releases;
  }

  // ---- It does happen ----

  /** A release whose namespace changes is left behind in the old one, with no object left to remove it. */
  lemma MoveOrphans(lib: Library, a: Spec, b: Spec)
    requires a.chart.kind == "repo" && lib.parse(a.values).Some? && At(a) != At(b)
    ensures exists w :: Reachable(lib, w) && w.obj.None? && At(a) in w.releases
  {
    ReachDeployed(lib, a);
    hide AttemptHash, Reachable;
    var w3 := Deployed(lib, a, lib.parse(a.values).value);
    Goes(lib, w3, Enable(b, false));
    var w4 := Next(lib, w3, Enable(b, false));
    Goes(lib, w4, Disable);
    var w5 := Next(lib, w4, Disable);
    Goes(lib, w5, Fetch(true));
    var w6 := Next(lib, w5, Fetch(true));
    Goes(lib, w6, WriteStatus(Delivered));
    var w7 := Next(lib, w6, WriteStatus(Delivered));
    Goes(lib, w7, Uninstall(true, Untouched));
    var w8 := Next(lib, w7, Uninstall(true, Untouched));
    Goes(lib, w8, Release(Delivered));
    var w9 := Next(lib, w8, Release(Delivered));
    assert w9.obj.None? && At(a) in w9.releases;
  }
}
