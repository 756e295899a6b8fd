/**
 The gateway's registry of connected workers: connections that register under
 the lock, write an acknowledgement outside it, and either roll back or serve
 until their session ends. Any number of them interleave.
 */
module WorkerRegistry {

  datatype Stage =
    | Acking        // in the map, acknowledgement being written
    | Serving
    | Leaving       // taken out of the map by unregister, done not yet closed
    | Left
    | Replaced      // unregister found another entry, or none
    | Refused       // the cluster was taken
    | RolledBack    // the acknowledgement could not be written

  datatype Conn = Conn(cluster: string, stage: Stage, closed: nat /* how often done was closed */)

  datatype Registry = Registry(workers: map<string, nat>, conns: map<nat, Conn>)

  datatype Event =
    | Register(conn: nat, cluster: string)
    | Acked(conn: nat)
    | AckFailed(conn: nat)
    | Unregister(conn: nat)
    | CloseDone(conn: nat)
    | Kick(cluster: string)     // ends a session; what follows is the connection's own doing

  predicate At(r: Registry, conn: nat, stage: Stage) {
    conn in r.conns && r.conns[conn].stage == stage
  }

  predicate Enabled(r: Registry, e: Event) {
    match e
    case Register(i, _) => i !in r.conns
    case Acked(i) => At(r, i, Acking)
    case AckFailed(i) => At(r, i, Acking)
    case Unregister(i) => At(r, i, Serving)
    case CloseDone(i) => At(r, i, Leaving)
    case Kick(_) => true
  }

  function Move(r: Registry, i: nat, stage: Stage): map<nat, Conn>
    requires i in r.conns
  {
    r.conns[i := r.conns[i].(stage := stage)]
  }

  function Next(r: Registry, e: Event): Registry
    requires Enabled(r, e)
  {
    match e
    case Register(i, c) =>
      if c in r.workers then r.(conns := r.conns[i := Conn(c, Refused, 0)])
      else Registry(r.workers[c := i], r.conns[i := Conn(c, Acking, 0)])
    case Acked(i) => r.(conns := Move(r, i, Serving))
    // deletes whatever is registered for the cluster
    case AckFailed(i) => Registry(r.workers - {r.conns[i].cluster}, Move(r, i, RolledBack))
    case Unregister(i) =>
      var c := r.conns[i].cluster;
      if c in r.workers && r.workers[c] == i then Registry(r.workers - {c}, Move(r, i, Leaving))
      else r.(conns := Move(r, i, Replaced))
    case CloseDone(i) => r.(conns := r.conns[i := r.conns[i].(stage := Left, closed := r.conns[i].closed + 1)])
    case Kick(_) => r
  }

  ghost predicate Run(r: Registry, es: seq<Event>, q: Registry)
    decreases |es|
  {
    if es == [] then r == q else Enabled(r, es[0]) && Run(Next(r, es[0]), es[1..], q)
  }

  predicate Live(c: Conn) {
    c.stage.Acking? || c.stage.Serving?
  }

  /** The map holds exactly the live connections, each under its own cluster. */
  ghost predicate Exact(r: Registry) {
    && (forall c :: c in r.workers ==> r.workers[c] in r.conns && Live(r.conns[r.workers[c]]) && r.conns[r.workers[c]].cluster == c)
    && (forall i :: i in r.conns && Live(r.conns[i]) ==> r.conns[i].cluster in r.workers && r.workers[r.conns[i].cluster] == i)
  }

  /** No connection was found replaced, and done is closed once by those that left and by no other. */
  ghost predicate ClosedOnce(r: Registry) {
    forall i :: i in r.conns ==> !r.conns[i].stage.Replaced? && r.conns[i].closed == if r.conns[i].stage.Left? then 1 else 0
  }

  lemma StepKeepsExact(r: Registry, e: Event)
    requires Exact(r) && ClosedOnce(r) && Enabled(r, e)
    ensures Exact(Next(r, e)) && ClosedOnce(Next(r, e))
  {
  }

  lemma {:induction false} RunKeepsExact(r: Registry, es: seq<Event>, q: Registry)
    requires Exact(r) && ClosedOnce(r) && Run(r, es, q)
    ensures Exact(q) && ClosedOnce(q)
    decreases |es|
  {
    if es != [] {
      StepKeepsExact(r, es[0]);
      hide Exact, ClosedOnce, Enabled, Next;
      RunKeepsExact(Next(r, es[0]), es[1..], q);
    }
  }

  const EMPTY := Registry(map[], map[])

  /** Whenever unregister runs, the entry is the connection itself: the branch for a replaced one is dead. */
  lemma UnregisterFindsItself(es: seq<Event>, r: Registry, i: nat)
    requires Run(EMPTY, es, r) && Enabled(r, Unregister(i))
    ensures r.conns[i].cluster in r.workers && r.workers[r.conns[i].cluster] == i
    ensures At(Next(r, Unregister(i)), i, Leaving)
  {
    RunKeepsExact(EMPTY, es, r);
  }

  /** A register for a free cluster is found there right away; for a taken one nothing changes but its own refusal. */
  lemma RegisterIsFound(es: seq<Event>, r: Registry, i: nat, c: string)
    requires Run(EMPTY, es, r) && Enabled(r, Register(i, c))
    ensures var q := Next(r, Register(i, c));
      && q.workers == (if c in r.workers then r.workers else r.workers[c := i])
      && i in q.conns && q.conns[i].cluster == c && Live(q.conns[i]) == (c !in r.workers)
      && (forall j :: j in r.conns ==> j in q.conns && q.conns[j] == r.conns[j])
  {
    RunKeepsExact(EMPTY, es, r);
  }

  /** Only its own failed acknowledgement or its own leaving takes a connection out of the map. */
  lemma EntryStays(r: Registry, e: Event, c: string)
    requires Exact(r) && ClosedOnce(r) && Enabled(r, e) && c in r.workers
    requires e != AckFailed(r.workers[c]) && e != Unregister(r.workers[c])
    ensures c in Next(r, e).workers && Next(r, e).workers[c] == r.workers[c]
  {
  }

  /** An acknowledged connection serves, and is the one its cluster leads to. */
  lemma AcknowledgedServes(es: seq<Event>, r: Registry, i: nat)
    requires Run(EMPTY, es, r) && Enabled(r, Acked(i))
    ensures var q := Next(r, Acked(i));
      At(q, i, Serving) && q.conns[i].cluster in q.workers && q.workers[q.conns[i].cluster] == i && Enabled(q, Unregister(i))
  {
    RunKeepsExact(EMPTY, es, r);
  }

  /** The unconditional rollback removes the registrant's own entry and no other. */
  lemma RollbackRemovesItself(es: seq<Event>, r: Registry, i: nat)
    requires Run(EMPTY, es, r) && Enabled(r, AckFailed(i))
    ensures var q := Next(r, AckFailed(i));
      (forall c :: c in q.workers <==> c in r.workers && r.workers[c] != i)
      && (forall c :: c in q.workers ==> q.workers[c] == r.workers[c])
      && exists c :: c in r.workers && r.workers[c] == i
  {
    RunKeepsExact(EMPTY, es, r);
    assert r.workers[r.conns[i].cluster] == i;
  }

  /** Each done channel is closed at most once, and then only after its entry is gone. */
  lemma DoneClosedAtMostOnce(es: seq<Event>, r: Registry, i: nat)
    requires Run(EMPTY, es, r) && i in r.conns
    ensures r.conns[i].closed <= 1
    ensures r.conns[i].closed == 1 ==> forall c :: c in r.workers ==> r.workers[c] != i
  {
    RunKeepsExact(EMPTY, es, r);
  }

  /** At most one live connection per cluster, so whoever is looked up is the only one there is. */
  lemma OneLivePerCluster(es: seq<Event>, r: Registry, i: nat, j: nat)
    requires Run(EMPTY, es, r) && i in r.conns && j in r.conns
    requires Live(r.conns[i]) && Live(r.conns[j]) && r.conns[i].cluster == r.conns[j].cluster
    ensures i == j
  {
    RunKeepsExact(EMPTY, es, r);
  }

  // ---- The gateway ----

  class Gateway {
    var workers: map<string, nat>
    var conns: map<nat, Conn>

    ghost function View(): Registry
      reads this
    {
      Registry(workers, conns)
    }

    constructor ()
      ensures View() == EMPTY
    {
      workers, conns := map[], map[];
    }

    method AcceptRegister(i: nat, cluster: string) returns (ok: bool)
      requires i !in conns
      modifies this
      ensures View() == Next(old(View()), Register(i, cluster)) && ok == (cluster !in old(workers))
    {
      if cluster in workers {
        conns := conns[i := Conn(cluster, Refused, 0)];
        return false;
      }
      workers := workers[cluster := i];
      conns := conns[i := Conn(cluster, Acking, 0)];
      ok := true;
    }

    method WriteAck(i: nat, written: bool)
      requires At(View(), i, Acking)
      modifies this
      ensures View() == Next(old(View()), if written then Acked(i) else AckFailed(i))
    {
      if written {
        conns := conns[i := conns[i].(stage := Serving)];
      } else {
        workers := workers - {conns[i].cluster};
        conns := conns[i := conns[i].(stage := RolledBack)];
      }
    }

    /** Takes the entry out and then closes done, unless the connection was replaced. */
    method Unregister(i: nat)
      requires At(View(), i, Serving)
      modifies this
      ensures var found := Next(old(View()), Event.Unregister(i));
        View() == if At(found, i, Leaving) then Next(found, CloseDone(i)) else found
    {
      var c := conns[i].cluster;
      var wasCurrent := c in workers && workers[c] == i;
      if !wasCurrent {
        conns := conns[i := conns[i].(stage := Replaced)];
        return;
      }
      workers := workers - {c};
      conns := conns[i := conns[i].(stage := Leaving)];
      conns := conns[i := conns[i].(stage := Left, closed := conns[i].closed + 1)];
    }

    method GetWorker(cluster: string) returns (found: bool, i: nat)
      requires Exact(View())
      ensures found == (cluster in workers)
      ensures found ==> i in conns && Live(conns[i]) && conns[i].cluster == cluster
    {
      found, i := false, 0;
      if cluster in workers {
        found, i := true, workers[cluster];
      }
    }
  }
}
