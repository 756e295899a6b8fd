/**
 What phase a plugin's status shows while a reconcile is under way, and what the
 server makes of the phases it is sent during a disable.
 */
module PluginPhases {
  import opened Wrappers
  import opened PluginFingerprint
  import opened PluginLifecycle
  import Rows = PluginRows

  /** The phase of the reconcile's copy says what it is doing, or how it went. */
  predicate Telling(w: World) {
    var s := w.mem.status;
    match w.pc
    case Idle => true
    case AddingFinalizer => true
    case Announcing(_) => s.phase == if s.revision == 0 then Installing else Upgrading
    case Helming(_) => s.phase == if s.revision == 0 then Installing else Upgrading
    case Settling(retry) => s.phase.Failed? || (s.phase.Running? && !retry)
    case _ => s.phase.Uninstalling?
  }

  lemma CommandKeepsTelling(lib: Library, w: World, e: Event)
    requires Telling(w) && Enabled(w, e) && (e.Enable? || e.Disable? || e.Crash?)
    ensures Telling(Next(lib, w, e))
  {
    hide Left, Handed;
  }

  lemma WorkKeepsTelling(lib: Library, w: World, e: Event)
    requires Telling(w) && Enabled(w, e) && !e.Enable? && !e.Disable? && !e.Crash?
    ensures Telling(Next(lib, w, e))
  {
    hide AttemptHash, Resolves, GateCloses, Left, LeftByUninstall, Handed, Enabling, Disabling, Crashed;
  }

  lemma {:induction false} RunKeepsTelling(lib: Library, w: World, es: seq<Event>, v: World)
    requires Telling(w) && Run(lib, w, es, v)
    ensures Telling(v)
    decreases |es|
  {
    if es != [] {
      var e := es[0];
      if e.Enable? || e.Disable? || e.Crash? {
        CommandKeepsTelling(lib, w, e);
      } else {
        WorkKeepsTelling(lib, w, e);
      }
      hide Telling, Enabled, Next;
      RunKeepsTelling(lib, Next(lib, w, e), es[1..], v);
    }
  }

  /**
   Over every run: on the way out the copy shows Uninstalling, and Failed once an
   uninstall has failed; on the way in Installing or Upgrading, by whether a
   revision is known; and at the end Running or Failed.
   */
  lemma PhasesTell(lib: Library, es: seq<Event>, w: World)
    requires Run(lib, Start(), es, w)
    ensures Telling(w)
  {
    RunKeepsTelling(lib, Start(), es, w);
  }

  // ---- How an attempt went ----

  /** Helm's outcome is what gets recorded, with the revision of a success; values that do not parse are a failure. */
  lemma OutcomeIsRecorded(lib: Library, w: World, result: HelmResult)
    requires w.pc.Helming?
    ensures var v := Next(lib, w, Helm(result));
      v.mem.spec == w.mem.spec && v.mem.status.attempt == w.mem.status.attempt && v.pc == Settling(false) &&
      if result.Succeeds? && lib.parse(w.mem.spec.values).Some? then
        v.mem.status.phase.Running? && v.mem.status.revision == result.revision && At(w.mem.spec) in v.releases
      else v.mem.status == w.mem.status.(phase := Failed)
  {
  }

  /** What a Helm run that fails halfway may leave: nothing changed, something broken, nothing at all, or a whole release. */
  lemma FailureMayLeave(lib: Library, w: World, left: Residue)
    requires w.pc.Helming? && lib.parse(w.mem.spec.values).Some?
    ensures var at, v := At(w.mem.spec), Next(lib, w, Helm(Fails(left)));
      && v.releases - {at} == w.releases - {at}
      && (left.Untouched? ==> v.releases == w.releases)
      && (left.Broken? ==> at in v.releases && v.releases[at] == Damaged)
      && (left.Gone? ==> at !in v.releases)
      && (left.Complete? ==> v.releases == Next(lib, w, Helm(Succeeds(1))).releases)
  {
  }

  /** What an uninstall leaves: nothing of the release when it succeeds; otherwise what there was, broken or gone. */
  lemma UninstallMayLeave(lib: Library, w: World, ok: bool, left: Residue)
    requires w.pc.Removing? && !left.Complete?
    ensures var at, v := At(w.mem.spec), Next(lib, w, Uninstall(ok, left));
      && v.releases - {at} == w.releases - {at}
      && (ok || left.Gone? ==> at !in v.releases)
      && (!ok && (left.Untouched? || at !in w.releases) ==> v.releases == w.releases)
      && (!ok && left.Broken? && at in w.releases ==> at in v.releases && v.releases[at] == Damaged)
  {
  }

  /** A crash leaves of the release what the call it interrupts would have left by failing, and the object as it is. */
  lemma CrashMayLeave(lib: Library, w: World, left: Residue, wipe: bool)
    requires Enabled(w, Crash(left, wipe))
    ensures var v := Next(lib, w, Crash(left, wipe));
      && v.obj == w.obj && v.pc.Idle? && v.due && v.cached == (if wipe then {} else w.cached)
      && v.releases ==
          if w.pc.Removing? then Next(lib, w, Uninstall(false, left)).releases
          else if w.pc.Helming? then Next(lib, w, Helm(Fails(left))).releases
          else w.releases
  {
  }

  /** Which specs get as far as an announcement; every other attempt fails at once, and the status says for which inputs. */
  lemma ReachesHelmIff(lib: Library, w: World, o: Object)
    requires !o.deleting && o.finalizer && !GateCloses(lib, o)
    ensures var c := o.spec.chart;
      var v := Begin(lib, w, o);
      v.mem.status.attempt == AttemptHash(lib, o.spec) &&
      if c.kind in ["repo", "oci"] || (c.kind == "local" && c.sha256 != "" && c.sha256 in w.cached)
      then v.pc == Announcing(c)
      else v.pc == Settling(false) && v.mem.status.phase.Failed?
  {
    hide AttemptHash;
  }

  /** An update of the finalizers against a copy that is out of date changes nothing, and is tried again. */
  lemma StaleUpdatesFail(lib: Library, w: World, e: Event)
    requires Enabled(w, e) && (e.Finalize? || e.Release?)
    requires w.obj.Some? ==> w.obj.value.rv != w.mem.rv
    ensures var v := Next(lib, w, e);
      v.obj == w.obj && v.releases == w.releases && v.pc.Idle? && v.due
  {
  }

  // ---- What is sent during a disable ----

  predicate Parting(s: Status) {
    s.phase.Uninstalling? || s.phase.Failed? || s.phase.Unset?
  }

  function NameOf(p: Phase): string {
    match p
    case Unset => ""
    case Installing => "Installing"
    case Upgrading => "Upgrading"
    case Running => "Running"
    case Failed => "Failed"
    case Uninstalling => "Uninstalling"
  }

  /** The parting phases are those that the server takes for a disabled row, or for its end. */
  lemma PartingIsTaken(s: Status, p: Rows.Push)
    requires p.phase == NameOf(s.phase)
    ensures Parting(s) == (Rows.Leaving(p.phase) || Rows.EndBeat(p))
    ensures s.phase.Unset? == Rows.EndBeat(p)
  {
    assert |"Running"| == |"Upgrading"| - 2 == 7;
    assert "Running"[0] == 'R' && "Upgrading"[1] == 'p' && "Uninstalling"[1] == 'n';
    assert "Installing"[0] == 'I' && "Failed"[0] == 'F' && "Disabled"[0] == 'D';
  }

  /** Nothing but parting statuses has been added. */
  predicate OnlyParting(before: seq<Status>, after: seq<Status>) {
    before <= after && forall i :: |before| <= i < |after| ==> Parting(after[i])
  }
}
