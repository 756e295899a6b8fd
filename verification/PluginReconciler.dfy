/** The reconciler as an object, each of its calls a step of the lifecycle, with what it pushes to the server. */
module PluginReconciler {
  import opened Wrappers
  import opened PluginFingerprint
  import opened PluginLifecycle
  import opened PluginPhases
  import opened Sequences

  /** What the outside does around one call: the commands that arrive before it, and how it goes. */
  datatype Turn = Turn(commands: seq<Event>, ok: bool, reply: Reply, left: Residue, result: HelmResult)

  predicate Command(e: Event) {
    e.Enable? || e.Disable?
  }

  predicate Possible(t: Turn) {
    (forall i :: 0 <= i < |t.commands| ==> Command(t.commands[i])) && !t.left.Complete?
  }

  /** The reconciler's own steps among those of a run. */
  function Own(es: seq<Event>): seq<Event> {
    if es == [] then []
    else
      var last := es[|es| - 1];
      if Command(last) then Own(es[..|es| - 1]) else Own(es[..|es| - 1]) + [last]
  }

  lemma OwnStep(es: seq<Event>, e: Event)
    ensures Own(es + [e]) == if Command(e) then Own(es) else Own(es) + [e]
  {
    assert (es + [e])[..|es|] == es;
  }

  function Removal(during: Turn, after: Turn): seq<Event> {
    [Uninstall(during.ok, during.left)] + if during.ok then [Event.Release(after.reply)] else [WriteStatus(after.reply)]
  }

  /** What a list of commands does. */
  function Commanded(w: World, es: seq<Event>): World {
    if es == [] then w
    else
      var u := Commanded(w, es[..|es| - 1]);
      match es[|es| - 1]
      case Enable(spec, blob) => Enabling(u, spec, blob)
      case Disable => Disabling(u)
      case _ => u
  }

  /** The steps a reconcile takes, from the branch that the object it fetched puts it on. */
  function Course(pc: Pc, turn: nat -> Turn): seq<Event> {
    match pc
    case Idle => []
    case AddingFinalizer => [Finalize(turn(1).reply)]
    case Settling(_) => [WriteStatus(turn(1).reply)]
    case MarkingUninstalling => [WriteStatus(turn(1).reply)] + Removal(turn(2), turn(3))
    case Removing => Removal(turn(2), turn(3))
    case Announcing(_) => [WriteStatus(turn(1).reply), Helm(turn(2).result), WriteStatus(turn(3).reply)]
    case _ => []
  }

  class Reconciler {
    const lib: Library
    // the cluster
    var obj: Option<Object>
    var releases: map<Place, Release>
    var rv: nat
    // the worker
    var cached: set<string>
    var due: bool
    var pc: Pc
    var plugin: Object
    // the server's side: every status it was sent
    var pushed: seq<Status>
    // the steps so far
    ghost var origin: World
    ghost var trace: seq<Event>
    ghost var own: seq<Event>

    ghost function View(): World
      reads this
    {
      World(obj, releases, cached, rv, due, pc, plugin)
    }

    /** The steps so far are a run of the lifecycle that led here. */
    ghost predicate Valid()
      reads this
    {
      Run(lib, origin, trace, View()) && own == Own(trace)
    }

    constructor (lib: Library)
      ensures this.lib == lib && Valid() && View() == Start() && origin == Start() && trace == [] && pushed == []
    {
      this.lib := lib;
      obj, releases, rv, cached, due, pc, plugin := None, map[], 0, {}, false, Idle, BLANK;
      pushed, origin, trace, own := [], Start(), [], [];
    }

    method Commands(es: seq<Event>)
      requires Valid() && forall i :: 0 <= i < |es| ==> Command(es[i])
      modifies this
      ensures Valid() && origin == old(origin) && own == old(own) && View() == Commanded(old(View()), es)
      ensures pc == old(pc) && plugin == old(plugin) && (old(due) ==> due)
      ensures OnlyParting(old(pushed), pushed)
    {
      hide Own, Enabling, Disabling;
      assert es[..0] == [];
      for i := 0 to |es|
        invariant Valid() && origin == old(origin) && own == old(own) && View() == Commanded(old(View()), es[..i])
        invariant pc == old(pc) && plugin == old(plugin) && (old(due) ==> due)
        invariant OnlyParting(old(pushed), pushed)
      {
        RunAppend(lib, origin, trace, View(), es[i]);
        OwnStep(trace, es[i]);
        hide Run;
        assert es[..i + 1][..i] == es[..i];
        match es[i] {
          case Enable(spec, blob) =>
            Apply(spec, blob);
          case Disable =>
            Delete();
        }
        trace := trace + [es[i]];
      }
      assert es[..|es|] == es;
    }

    method Apply(spec: Spec, blob: bool)
      modifies this`obj, this`cached, this`rv, this`due
      ensures View() == Enabling(old(View()), spec, blob) && (old(due) ==> due)
    {
      if spec.chart.kind == "local" && blob {
        cached := cached + {spec.chart.sha256};
      }
      if obj.None? {
        rv := rv + 1;
        obj, due := Some(Object(spec, false, false, rv, NO_STATUS)), true;
      } else if obj.value.spec != spec {
        rv := rv + 1;
        obj, due := Some(obj.value.(spec := spec, rv := rv)), true;
      }
    }

    /** An object that is not there any more is reported as gone; one that is waits for its finalizer. */
    method Delete()
      modifies this`obj, this`rv, this`due, this`pushed
      ensures View() == Disabling(old(View())) && (old(due) ==> due)
      ensures pushed == old(pushed) + if old(obj).None? then [NO_STATUS] else []
    {
      if obj.None? {
        pushed := pushed + [NO_STATUS];
        return;
      }
      if !obj.value.finalizer {
        obj, due := None, true;
      } else if !obj.value.deleting {
        rv := rv + 1;
        obj, due := Some(obj.value.(deleting := true, rv := rv)), true;
      }
    }

    /** Notes that a step of the lifecycle is about to be taken. */
    ghost method Note(e: Event)
      requires Valid() && Enabled(View(), e) && !Command(e)
      modifies this`trace, this`own
      ensures Run(lib, origin, trace, Next(lib, View(), e)) && own == Own(trace) && own == old(own) + [e]
    {
      RunAppend(lib, origin, trace, View(), e);
      OwnStep(trace, e);
      trace, own := trace + [e], own + [e];
    }

    /** Reads the object and picks the branch. */
    method Fetch(ok: bool)
      requires Valid() && pc.Idle? && due
      modifies this
      ensures Valid() && origin == old(origin) && own == old(own) + [Event.Fetch(ok)]
      ensures View() == Next(lib, old(View()), Event.Fetch(ok)) && !pc.Helming? && !pc.DroppingFinalizer?
      ensures pushed == old(pushed) + if ok && obj.Some? then Again(lib, obj.value) else []
      ensures obj == old(obj) && (ok && obj.Some? ==> Branched(obj.value))
      ensures ok && obj.Some? && Closed(obj.value) ==> pushed == old(pushed) + [obj.value.status]
    {
      Note(Event.Fetch(ok));
      hide Run, Own, Begin, Again, Branched, Closed;
      if !ok {
        return;
      }
      if obj.None? {
        due := false;
        return;
      }
      Branch();
    }

    /** Where a deleted object leads: uninstalled, after a status that says so, unless it shows that already. */
    predicate Branched(o: Object)
      reads this
    {
      o.deleting ==>
        if !o.finalizer then pc.Idle?
        else if o.status.phase.Uninstalling? then pc.Removing? && plugin == o
        else pc.MarkingUninstalling? && plugin == o.(status := o.status.(phase := Uninstalling))
    }

    /** Nothing is left to do for these inputs. */
    predicate Closed(o: Object)
      reads this
    {
      !o.deleting && o.finalizer && o.status.attempt == AttemptHash(lib, o.spec) && (o.status.phase.Running? || o.status.phase.Failed?)
    }

    /** A closed gate sends the status it found once more. */
    method Branch()
      requires obj.Some? && pc.Idle?
      modifies this`due, this`plugin, this`pc, this`pushed
      ensures View() == Begin(lib, old(View()), obj.value) && !pc.Helming? && !pc.DroppingFinalizer?
      ensures pushed == old(pushed) + Again(lib, obj.value) && Branched(obj.value)
      ensures Closed(obj.value) ==> pushed == old(pushed) + [obj.value.status]
    {
      hide AttemptHash, Resolves;
      due, plugin := false, obj.value;
      if plugin.deleting {
        if !plugin.finalizer {
          return;
        }
        if !plugin.status.phase.Uninstalling? {
          plugin := plugin.(status := plugin.status.(phase := Uninstalling));
          pc := MarkingUninstalling;
        } else {
          pc := Removing;
        }
        return;
      }
      if !plugin.finalizer {
        pc := AddingFinalizer;
        return;
      }
      var attempt := AttemptHash(lib, plugin.spec);
      if plugin.status.attempt == attempt && Terminal(plugin.status.phase) {
        pushed := pushed + [plugin.status];
        return;
      }
      plugin := plugin.(status := plugin.status.(attempt := attempt));
      if !Resolves(plugin.spec.chart, cached) {
        plugin := plugin.(status := plugin.status.(phase := Failed));
        pc := Settling(false);
      } else {
        plugin := plugin.(status := plugin.status.(phase := InstallPhase(plugin.status)));
        pc := Announcing(plugin.spec.chart);
      }
    }

    /** Writes the status, after a conflict once more over a fresh copy, and pushes it if it is known to have landed. */
    method TouchAndPush(reply: Reply)
      requires Valid() && Enabled(View(), WriteStatus(reply))
      modifies this
      ensures Valid() && origin == old(origin) && own == old(own) + [WriteStatus(reply)]
      ensures View() == Next(lib, old(View()), WriteStatus(reply))
      ensures pc == match old(pc) case MarkingUninstalling => Removing case Announcing(chart) => Helming(chart) case _ => Idle
      ensures pushed == old(pushed) + if reply.Delivered? && obj.Some? then [old(plugin.status)] else []
    {
      Note(WriteStatus(reply));
      hide Run, Own, Touch;
      Write(reply);
      Proceed();
    }

    method Write(reply: Reply)
      modifies this`obj, this`rv, this`plugin, this`pushed
      ensures View() == Touch(old(View()), reply)
      ensures pushed == old(pushed) + if reply.Delivered? && obj.Some? then [old(plugin.status)] else []
    {
      if reply.Refused? || obj.None? {
        return;
      }
      var wanted := plugin.status;
      var current := obj.value;
      rv := rv + 1;
      current := current.(status := wanted, rv := rv);
      obj := Some(current);
      if reply.Delivered? {
        plugin := current;
        pushed := pushed + [plugin.status];
      }
    }

    /** The caller goes on whether the write landed or not. */
    method Proceed()
      modifies this`pc, this`due
      ensures View() == Onward(old(View()))
    {
      match pc {
        case MarkingUninstalling => pc := Removing;
        case Announcing(chart) => pc := Helming(chart);
        case Settling(retry) =>
          due := due || retry;
          pc := Idle;
        case _ =>
      }
    }

    method AddFinalizer(reply: Reply)
      requires Valid() && pc.AddingFinalizer?
      modifies this
      ensures Valid() && origin == old(origin) && own == old(own) + [Finalize(reply)]
      ensures View() == Next(lib, old(View()), Finalize(reply)) && pc.Idle? && pushed == old(pushed)
      ensures old(obj).Some? && old(obj).value.rv != old(plugin).rv ==> obj == old(obj)
    {
      Note(Finalize(reply));
      hide Run, Own;
      if !reply.Refused? && obj.Some? && obj.value.rv == plugin.rv {
        rv := rv + 1;
        obj := Some(obj.value.(finalizer := true, rv := rv));
      }
      pc, due := Idle, true;
    }

    method DropFinalizer(reply: Reply)
      requires Valid() && pc.DroppingFinalizer?
      modifies this
      ensures Valid() && origin == old(origin) && own == old(own) + [Event.Release(reply)]
      ensures View() == Next(lib, old(View()), Event.Release(reply)) && pc.Idle?
      ensures pushed == old(pushed) + if reply.Delivered? && Current(old(View())) then [NO_STATUS] else []
    {
      Note(Event.Release(reply));
      hide Run, Own, Releasing;
      Drop(reply);
    }

    /** Lets the object go and tells the server that it is gone. */
    method Drop(reply: Reply)
      modifies this`obj, this`rv, this`due, this`pc, this`pushed
      ensures View() == Releasing(old(View()), reply) && pc.Idle?
      ensures pushed == old(pushed) + if reply.Delivered? && Current(old(View())) then [NO_STATUS] else []
      ensures old(obj).Some? && obj.None? ==> due
    {
      pc := Idle;
      if reply.Refused? || obj.None? || obj.value.rv != plugin.rv {
        due := true;
        return;
      }
      if obj.value.deleting {
        obj, due := None, true;
      } else {
        rv := rv + 1;
        obj := Some(obj.value.(finalizer := false, rv := rv));
      }
      if reply.Lost? {
        due := true;
        return;
      }
      pushed := pushed + [NO_STATUS];
    }

    method HelmUninstall(ok: bool, left: Residue)
      requires Valid() && pc.Removing? && !left.Complete?
      modifies this
      ensures Valid() && origin == old(origin) && own == old(own) + [Uninstall(ok, left)]
      ensures View() == Next(lib, old(View()), Uninstall(ok, left)) && pushed == old(pushed)
      ensures pc == if ok then DroppingFinalizer else Settling(true)
      ensures plugin == if ok then old(plugin) else old(plugin).(status := old(plugin).status.(phase := Failed))
    {
      Note(Uninstall(ok, left));
      hide Run, Own;
      if ok {
        releases := releases - {At(plugin.spec)};
        pc := DroppingFinalizer;
      } else {
        releases := LeftByUninstall(releases, At(plugin.spec), left);
        MarkFailed();
        pc := Settling(true);
      }
    }

    method MarkFailed()
      modifies this`plugin
      ensures plugin == old(plugin).(status := old(plugin).status.(phase := Failed))
    {
      plugin := plugin.(status := plugin.status.(phase := Failed));
    }

    method InstallOrUpgrade(result: HelmResult)
      requires Valid() && pc.Helming?
      modifies this
      ensures Valid() && origin == old(origin) && own == old(own) + [Helm(result)]
      ensures View() == Next(lib, old(View()), Helm(result)) && pc.Settling? && pushed == old(pushed)
      ensures plugin.spec == old(plugin).spec
      ensures plugin.status ==
        if result.Succeeds? && lib.parse(old(plugin).spec.values).Some?
        then Status(Running, old(plugin).status.attempt, result.revision)
        else old(plugin).status.(phase := Failed)
    {
      Note(Helm(result));
      hide Run, Own;
      var chart := pc.chart;
      pc := Settling(false);
      var values := lib.parse(plugin.spec.values);
      if values.None? || result.ChartUnloadable? {
        MarkFailed();
        return;
      }
      var made := Handed(chart, plugin.spec, values.value);
      match result {
        case Succeeds(revision) =>
          releases := releases[At(plugin.spec) := made];
          plugin := plugin.(status := plugin.status.(phase := Running, revision := revision));
        case Fails(left) =>
          releases := Left(releases, At(plugin.spec), left, made);
          MarkFailed();
      }
    }

    /**
     One reconcile from start to finish, commands arriving between any two of its
     calls: its own steps are the fetch and then the course that the world it
     fetched from puts it on. Of a deleted object the server is sent nothing that
     it would not take for a disabled row or for its end.
     */
    method Reconcile(turn: nat -> Turn)
      requires Valid() && pc.Idle? && due && forall i: nat :: Possible(turn(i))
      modifies this
      ensures Valid() && origin == old(origin) && pc.Idle?
      ensures var seen := Commanded(old(View()), turn(0).commands);
        Enabled(seen, Event.Fetch(turn(0).ok)) &&
        own == old(own) + [Event.Fetch(turn(0).ok)] + Course(Next(lib, seen, Event.Fetch(turn(0).ok)).pc, turn)
      ensures var seen := Commanded(old(View()), turn(0).commands);
        turn(0).ok && seen.obj.Some? && seen.obj.value.deleting ==> OnlyParting(old(pushed), pushed)
    {
      hide Run, Own, Next;
      assert Possible(turn(0));
      Commands(turn(0).commands);
      Fetch(turn(0).ok);
      hide Commanded, Course;
      Carry(turn);
      Regroup(old(own), [Event.Fetch(turn(0).ok)], Course(Next(lib, old(Fetched(turn)), Event.Fetch(turn(0).ok)).pc, turn));
    }

    /** The world as the fetch finds it. */
    ghost function Fetched(turn: nat -> Turn): World
      reads this
    {
      Commanded(View(), turn(0).commands)
    }

    /** The course of a reconcile from the branch it is on. */
    method Carry(turn: nat -> Turn)
      requires Valid() && !pc.Helming? && !pc.DroppingFinalizer? && forall i: nat :: Possible(turn(i))
      modifies this
      ensures Valid() && origin == old(origin) && pc.Idle?
      ensures own == old(own) + Course(old(pc), turn)
      ensures old(pc).Idle? ==> pushed == old(pushed)
      ensures old(pc).Removing? || (old(pc).MarkingUninstalling? && old(plugin).status.phase.Uninstalling?) ==>
        OnlyParting(old(pushed), pushed)
    {
      hide Run, Own, Next;
      assert Possible(turn(1)) && Possible(turn(2)) && Possible(turn(3));
      ghost var own0 := own;
      if pc.Idle? {
        assert own0 + [] == own0;
        return;
      }
      Commands(turn(1).commands);
      if pc.AddingFinalizer? {
        AddFinalizer(turn(1).reply);
        return;
      }
      if pc.Settling? {
        TouchAndPush(turn(1).reply);
        return;
      }
      if pc.Announcing? {
        PutUp(turn(1).reply, turn(2), turn(3));
        return;
      }
      if pc.MarkingUninstalling? {
        TouchAndPush(turn(1).reply);
        Commands(turn(2).commands);
        TearDown(turn(2), turn(3));
        Regroup(own0, [WriteStatus(turn(1).reply)], Removal(turn(2), turn(3)));
        return;
      }
      TearDown(turn(2), turn(3));
    }

    /** Uninstalls and lets the object go, or says why not. */
    method TearDown(during: Turn, after: Turn)
      requires Valid() && pc.Removing? && Possible(during) && Possible(after)
      modifies this
      ensures Valid() && origin == old(origin) && pc.Idle?
      ensures own == old(own) + Removal(during, after) && OnlyParting(old(pushed), pushed)
    {
      hide Run, Own, Next;
      ghost var own0 := own;
      HelmUninstall(during.ok, during.left);
      Commands(after.commands);
      if pc.Settling? {
        TouchAndPush(after.reply);
        Regroup(own0, [Uninstall(during.ok, during.left)], [WriteStatus(after.reply)]);
      } else {
        DropFinalizer(after.reply);
        Regroup(own0, [Uninstall(during.ok, during.left)], [Event.Release(after.reply)]);
      }
    }

    /** Announces the attempt, runs Helm and reports how it went. */
    method PutUp(announce: Reply, during: Turn, after: Turn)
      requires Valid() && pc.Announcing? && Possible(during) && Possible(after)
      modifies this
      ensures Valid() && origin == old(origin) && pc.Idle?
      ensures own == old(own) + [WriteStatus(announce), Helm(during.result), WriteStatus(after.reply)]
    {
      hide Run, Own, Next;
      ghost var own0 := own;
      TouchAndPush(announce);
      Commands(during.commands);
      InstallOrUpgrade(during.result);
      Commands(after.commands);
      TouchAndPush(after.reply);
      assert own == own0 + [WriteStatus(announce)] + [Helm(during.result)] + [WriteStatus(after.reply)];
    }
  }

  /** What a fetch pushes: a closed gate sends the status it found once more. */
  function Again(lib: Library, o: Object): seq<Status> {
    if !o.deleting && o.finalizer && GateCloses(lib, o) then [o.status] else []
  }
}
