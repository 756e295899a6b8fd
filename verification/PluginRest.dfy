/**
 How a plugin's reconciles come to rest: no request is lost, the work ends, and
 Helm runs once for each change. All of it turns on one write, the one that
 records how an attempt went.
 */
module PluginRest {
  import opened Wrappers
  import opened PluginFingerprint
  import opened PluginLifecycle

  // ---- The finishing write ----

  predicate Finishing(w: World) {
    w.pc == Settling(false)
  }

  /** The reconcile works on the present spec and has its fingerprint. */
  ghost predicate InStep(lib: Library, w: World) {
    && w.obj.Some? && !w.obj.value.deleting
    && w.obj.value.spec == w.mem.spec && w.mem.status.attempt == AttemptHash(lib, w.mem.spec)
  }

  /** A reconcile with nothing queued behind it works on the present spec, and the object does not know the outcome yet. */
  ghost predicate OnTask(lib: Library, w: World) {
    && Kept(w)
    && (w.pc.Announcing? ==> !Terminal(w.mem.status.phase))
    && (!w.due && (w.pc.Announcing? || w.pc.Helming? || Finishing(w)) ==>
        InStep(lib, w) && !GateCloses(lib, w.obj.value))
  }

  lemma CommandKeepsTask(lib: Library, w: World, e: Event)
    requires OnTask(lib, w) && Enabled(w, e) && (e.Enable? || e.Disable? || e.Crash?)
    ensures OnTask(lib, Next(lib, w, e))
  {
    StepKeepsKept(lib, w, e);
    hide AttemptHash, Left, Handed, Kept;
  }

  lemma WorkKeepsTask(lib: Library, w: World, e: Event)
    requires OnTask(lib, w) && Enabled(w, e) && (e.Fetch? || e.WriteStatus? || e.Helm?)
    ensures OnTask(lib, Next(lib, w, e))
  {
    StepKeepsKept(lib, w, e);
    hide AttemptHash, Resolves, Left, Handed, Enabling, Disabling, Crashed;
  }

  lemma StepKeepsTask(lib: Library, w: World, e: Event)
    requires OnTask(lib, w) && Enabled(w, e)
    ensures OnTask(lib, Next(lib, w, e))
  {
    if e.Enable? || e.Disable? || e.Crash? {
      CommandKeepsTask(lib, w, e);
    } else if e.Fetch? || e.WriteStatus? || e.Helm? {
      WorkKeepsTask(lib, w, e);
    } else {
      StepKeepsKept(lib, w, e);
      hide AttemptHash, Resolves, Left, Handed, Enabling, Disabling, Crashed, Begin, Touch, HelmRun;
    }
  }

  lemma {:induction false} RunKeepsTask(lib: Library, w: World, es: seq<Event>, v: World)
    requires OnTask(lib, w) && Run(lib, w, es, v)
    ensures OnTask(lib, v)
    decreases |es|
  {
    if es != [] {
      StepKeepsTask(lib, w, es[0]);
      hide OnTask, Enabled, Next;
      RunKeepsTask(lib, Next(lib, w, es[0]), es[1..], v);
    }
  }

  /**
   After any run whatever, a finishing write with nothing queued leaves the object
   settled exactly when it is not refused; refused, it leaves the object as it was
   with nothing to mend it.
   */
  lemma FinishSettlesIff(lib: Library, es: seq<Event>, w: World, reply: Reply)
    requires Run(lib, Start(), es, w) && Finishing(w) && !w.due
    ensures var v := Next(lib, w, WriteStatus(reply));
      v.pc.Idle? && !v.due && v.obj.Some? && (GateCloses(lib, v.obj.value) == !reply.Refused?)
  {
    RunKeepsTask(lib, Start(), es, w);
    hide AttemptHash;
  }

  /** It does happen: a first install ends at Installing with nothing queued. */
  lemma LostFinishStrands(lib: Library, a: Spec)
    requires a.chart.kind == "repo"
    ensures exists w :: Reachable(lib, w) && w.pc.Idle? && !w.due && w.obj.Some? && w.obj.value.status.phase.Installing?
  {
    ReachFresh(lib, a);
    hide AttemptHash, Reachable;
    var w0 := Fresh(lib, a);
    Goes(lib, w0, WriteStatus(Delivered));
    var w1 := Next(lib, w0, WriteStatus(Delivered));
    Goes(lib, w1, Helm(ChartUnloadable));
    var w2 := Next(lib, w1, Helm(ChartUnloadable));
    Goes(lib, w2, WriteStatus(Refused));
    var w3 := Next(lib, w2, WriteStatus(Refused));
    assert w3.pc.Idle? && !w3.due && w3.obj.Some? && w3.obj.value.status.phase.Installing?;
  }

  // ---- Rest ----

  /** A finishing write that is refused although the object has not recorded this outcome yet. */
  predicate Forgets(lib: Library, w: World, e: Event) {
    && e.WriteStatus? && e.reply.Refused? && Finishing(w)
    && w.obj.Some? && !w.obj.value.deleting
    && AttemptHash(lib, w.obj.value.spec) == w.mem.status.attempt && !GateCloses(lib, w.obj.value)
  }

  /** No step of the run forgets. */
  ghost predicate Remembers(lib: Library, w: World, es: seq<Event>)
    decreases |es|
  {
    es != [] ==> Enabled(w, es[0]) && !Forgets(lib, w, es[0]) && Remembers(lib, Next(lib, w, es[0]), es[1..])
  }

  /** Running or Failed on its present inputs, with the finalizer, and not on its way out. */
  predicate Settled(lib: Library, o: Object) {
    !o.deleting && o.finalizer && GateCloses(lib, o)
  }

  /** An idle reconciler with nothing queued has dealt with the object. */
  ghost predicate Awake(lib: Library, w: World) {
    && OnTask(lib, w)
    && (w.pc.Idle? && !w.due && w.obj.Some? ==> Settled(lib, w.obj.value))
  }

  lemma StepKeepsAwake(lib: Library, w: World, e: Event)
    requires Awake(lib, w) && Enabled(w, e) && !Forgets(lib, w, e)
    ensures Awake(lib, Next(lib, w, e))
  {
    StepKeepsTask(lib, w, e);
    if e.WriteStatus? {
      hide AttemptHash, Enabling, Disabling, Crashed, Uninstalled, HelmRun, Begin, Finalizing, Releasing;
    } else {
      hide AttemptHash, Resolves, Left, Handed, LeftByCrash, Touch, Onward;
    }
  }

  lemma {:induction false} RunKeepsAwake(lib: Library, w: World, es: seq<Event>, v: World)
    requires Awake(lib, w) && Run(lib, w, es, v) && Remembers(lib, w, es)
    ensures Awake(lib, v)
    decreases |es|
  {
    if es != [] {
      StepKeepsAwake(lib, w, es[0]);
      hide Awake, Enabled, Next, Forgets;
      RunKeepsAwake(lib, Next(lib, w, es[0]), es[1..], v);
    }
  }

  /** If no finishing write is forgotten, an object at rest is settled: no change is missed by the event filter. */
  lemma RestMeansSettled(lib: Library, es: seq<Event>, w: World)
    requires Run(lib, Start(), es, w) && Remembers(lib, Start(), es)
    requires w.pc.Idle? && !w.due && w.obj.Some?
    ensures Settled(lib, w.obj.value)
  {
    RunKeepsAwake(lib, Start(), es, w);
  }

  // ---- The work ends ----

  /** A reconcile step in which nothing goes wrong; Helm may still fail. */
  predicate Quiet(e: Event) {
    match e
    case Fetch(ok) => ok
    case Finalize(reply) => reply.Delivered?
    case WriteStatus(reply) => reply.Delivered?
    case Uninstall(ok, _) => ok
    case Release(reply) => reply.Delivered?
    case Helm(_) => true
    case _ => false
  }

  function Ahead(pc: Pc): nat {
    match pc
    case Idle => 0
    case AddingFinalizer => 1
    case MarkingUninstalling => 4
    case Removing => 3
    case DroppingFinalizer => 2
    case Announcing(_) => 4
    case Helming(_) => 3
    case Settling(retry) => if retry then 11 else 2
  }

  /** What is left to do. */
  function Work(w: World): nat {
    Ahead(w.pc)
    + (if w.due then 10 else 0)
    + (if w.obj.Some? then 15 else 0)
    + (if w.obj.Some? && !w.obj.value.finalizer then 20 else 0)
    + (if !w.pc.Idle? && !Current(w) then 20 else 0)
  }

  lemma QuietDescends(lib: Library, w: World, e: Event)
    requires Kept(w) && Enabled(w, e) && Quiet(e)
    ensures Work(Next(lib, w, e)) < Work(w)
  {
    hide AttemptHash, Resolves, Left, Handed, GateCloses;
  }

  lemma {:induction false} QuietRunsDescend(lib: Library, w: World, es: seq<Event>, v: World)
    requires Kept(w) && Run(lib, w, es, v) && forall e :: e in es ==> Quiet(e)
    ensures |es| + Work(v) <= Work(w) <= 76
    decreases |es|
  {
    if es != [] {
      assert es[0] in es;
      QuietDescends(lib, w, es[0]);
      StepKeepsKept(lib, w, es[0]);
      hide Kept, Enabled, Next, Quiet;
      QuietRunsDescend(lib, Next(lib, w, es[0]), es[1..], v);
    }
  }

  /** Left in quiet, the requests die out: from no reachable world is a run of this kind longer than the work there was. */
  lemma QuietRunsEnd(lib: Library, es: seq<Event>, w: World, after: seq<Event>, v: World)
    requires Run(lib, Start(), es, w)
    requires Run(lib, w, after, v) && forall e :: e in after ==> Quiet(e)
    ensures |after| + Work(v) <= Work(w) <= 76
  {
    RunKeepsKept(lib, Start(), es, w);
    QuietRunsDescend(lib, w, after, v);
  }

  /** A quiet step is possible exactly while a reconcile is under way or requested. */
  lemma QuietGoesOnIff(w: World)
    ensures (exists e :: Quiet(e) && Enabled(w, e)) == (!w.pc.Idle? || w.due)
  {
    if !w.pc.Idle? || w.due {
      var e := match w.pc
        case Idle => Fetch(true)
        case AddingFinalizer => Finalize(Delivered)
        case Removing => Uninstall(true, Untouched)
        case DroppingFinalizer => Release(Delivered)
        case Helming(_) => Helm(ChartUnloadable)
        case _ => WriteStatus(Delivered);
      assert Quiet(e) && Enabled(w, e);
    }
  }

  lemma {:induction false} QuietRemembers(lib: Library, w: World, es: seq<Event>, v: World)
    requires Run(lib, w, es, v) && forall e :: e in es ==> Quiet(e)
    ensures Remembers(lib, w, es)
    decreases |es|
  {
    if es != [] {
      assert es[0] in es;
      hide Enabled, Next;
      QuietRemembers(lib, Next(lib, w, es[0]), es[1..], v);
    }
  }

  /**
   Whatever went wrong before, in quiet an object for which a request or a reconcile
   is still there comes to rest: every quiet run takes at most 76 steps, can go on
   unless it is at rest, and has settled or removed the object when it is.
   */
  lemma SettlesFromAnywhere(lib: Library, es: seq<Event>, w: World, after: seq<Event>, v: World)
    requires Run(lib, Start(), es, w) && (!w.pc.Idle? || w.due)
    requires Run(lib, w, after, v) && forall e :: e in after ==> Quiet(e)
    ensures |after| <= 76
    ensures (exists e :: Quiet(e) && Enabled(v, e)) || (v.pc.Idle? && !v.due && (v.obj.Some? ==> Settled(lib, v.obj.value)))
  {
    RunKeepsTask(lib, Start(), es, w);
    QuietRunsEnd(lib, es, w, after, v);
    assert Awake(lib, w);
    QuietRemembers(lib, w, after, v);
    RunKeepsAwake(lib, w, after, v);
    QuietGoesOnIff(v);
  }

  // ---- How often Helm runs ----

  /** A fingerprint the object did not have before this command. */
  function Changes(lib: Library, w: World, e: Event): nat {
    match e
    case Enable(spec, _) =>
      if w.obj.None? || AttemptHash(lib, w.obj.value.spec) != AttemptHash(lib, spec) then 1 else 0
    case _ => 0
  }

  ghost function ChangesOf(lib: Library, w: World, es: seq<Event>): nat
    decreases |es|
  {
    if es == [] || !Enabled(w, es[0]) then 0
    else Changes(lib, w, es[0]) + ChangesOf(lib, Next(lib, w, es[0]), es[1..])
  }

  function HelmRuns(es: seq<Event>): nat {
    if es == [] then 0 else (if es[0].Helm? then 1 else 0) + HelmRuns(es[1..])
  }

  /** The Helm runs that the present state can still lead to without another change. */
  function Owed(lib: Library, w: World): nat {
    match w.obj
    case None => 0
    case Some(o) =>
      match w.pc
      case Idle => if !o.deleting && !GateCloses(lib, o) then 1 else 0
      case AddingFinalizer => if !o.deleting && !GateCloses(lib, o) then 1 else 0
      case Announcing(_) => 1 + Moved(lib, w, o)
      case Helming(_) => 1 + Moved(lib, w, o)
      case Settling(retry) => if retry then 0 else Moved(lib, w, o)
      case _ => 0
  }

  /** The object has a fingerprint other than the one being tried. */
  function Moved(lib: Library, w: World, o: Object): nat {
    if !o.deleting && AttemptHash(lib, o.spec) != w.mem.status.attempt then 1 else 0
  }

  lemma WritePays(lib: Library, w: World, e: Event)
    requires Kept(w) && Enabled(w, e) && e.WriteStatus? && !Forgets(lib, w, e)
    ensures Owed(lib, Next(lib, w, e)) <= Owed(lib, w)
  {
    hide AttemptHash, Enabling, Disabling, Crashed, Uninstalled, HelmRun, Begin, Finalizing, Releasing;
  }

  lemma WorkPays(lib: Library, w: World, e: Event)
    requires Kept(w) && Enabled(w, e) && (e.Fetch? || e.Finalize? || e.Uninstall? || e.Release? || e.Helm?)
    ensures (if e.Helm? then 1 else 0) + Owed(lib, Next(lib, w, e)) <= Owed(lib, w)
  {
    hide AttemptHash, Resolves, Left, Handed, Touch, Onward, Crashed, Enabling, Disabling;
  }

  lemma CommandPays(lib: Library, w: World, e: Event)
    requires Kept(w) && Enabled(w, e) && (e.Enable? || e.Disable?)
    ensures Owed(lib, Next(lib, w, e)) <= Owed(lib, w) + Changes(lib, w, e)
  {
    hide AttemptHash, Touch, Onward, Crashed, Uninstalled, HelmRun, Begin, Finalizing, Releasing;
  }

  lemma StepPays(lib: Library, w: World, e: Event)
    requires Kept(w) && Enabled(w, e) && !e.Crash? && !Forgets(lib, w, e)
    ensures (if e.Helm? then 1 else 0) + Owed(lib, Next(lib, w, e)) <= Owed(lib, w) + Changes(lib, w, e)
  {
    hide Kept, Enabled, Next, Owed, Forgets;
    if e.WriteStatus? {
      WritePays(lib, w, e);
    } else if e.Enable? || e.Disable? {
      CommandPays(lib, w, e);
    } else {
      WorkPays(lib, w, e);
    }
  }

  /** A finishing write costs one more run if and only if it forgets. */
  lemma ForgettingCosts(lib: Library, w: World, e: Event)
    requires Kept(w) && Finishing(w) && e.WriteStatus?
    ensures (Owed(lib, Next(lib, w, e)) > Owed(lib, w)) == Forgets(lib, w, e)
  {
    hide AttemptHash;
  }

  lemma {:induction false} RunPays(lib: Library, w: World, es: seq<Event>, v: World)
    requires Kept(w) && Run(lib, w, es, v) && Remembers(lib, w, es) && forall e :: e in es ==> !e.Crash?
    ensures HelmRuns(es) + Owed(lib, v) <= Owed(lib, w) + ChangesOf(lib, w, es)
    decreases |es|
  {
    if es != [] {
      assert es[0] in es;
      StepPays(lib, w, es[0]);
      StepKeepsKept(lib, w, es[0]);
      hide Kept, Next, Forgets, Owed, Changes, Enabled;
      RunPays(lib, Next(lib, w, es[0]), es[1..], v);
    }
  }

  /** Without crashes and forgotten outcomes, Helm runs at most once for each change of fingerprint. */
  lemma OneRunPerChange(lib: Library, es: seq<Event>, w: World)
    requires Run(lib, Start(), es, w) && Remembers(lib, Start(), es) && forall e :: e in es ==> !e.Crash?
    ensures HelmRuns(es) <= ChangesOf(lib, Start(), es)
  {
    RunPays(lib, Start(), es, w);
  }
}
