/** At most one executor works on a node, and an interrupted job waits for an operator. */
module NodeSafety {
  import opened Common
  import opened NodeLease

  /** The executors by number, with the lease each one works under, and who holds the advisory lock.
      Under the token of a lease: the jobs it has started, the apply job its verification found
      incomplete, and the drill it has read as running. */
  datatype World = World(now: int, tables: Tables, leases: map<nat, Lease>, lock: Option<nat>, unused: nat,
                         begun: set<(nat, nat)>, incomplete: map<nat, nat>, drills: map<nat, nat>)

  datatype Event =
    | Tick(seconds: nat)
    | Enqueue(router: nat, action: Action)
    | Acquire(e: nat)
    | Check(e: nat)
    | LoseConnection(e: nat)
    | Crash(e: nat)
    | Release(e: nat)
    | Start(e: nat, job: nat)
    | Commit(e: nat, job: nat, ok: bool)
    | Recover(e: nat)
    | Retry(job: nat)
    | FindMissing(e: nat, job: nat)
    | FailIncomplete(e: nat)
    | PrepareDrill(e: nat, router: nat)
    | ReadDrill(e: nat, job: nat)
    | EndDrill(e: nat, ok: bool)

  function Unlocked(w: World, e: nat): Option<nat> { if w.lock == Some(e) then None else w.lock }

  /** Executor `e` runs the verification job `j` and finds a journaled resource of the router's newest
      apply job missing; only a job that was started has journaled one. */
  predicate FindsMissing(w: World, e: nat, j: nat) {
    && e in w.leases && (w.leases[e].token, j) in w.begun && j < |w.tables.jobs| && w.tables.jobs[j].action == Verify
    && var source := NewestApply(w.tables.jobs, w.tables.jobs[j].router);
       source.Some? && w.tables.jobs[source.value].attempts > 0
  }

  /** The apply job that `e` has found incomplete, or the drill it has read as running. */
  function Target(w: World, v: Event): Option<nat> {
    if v.FailIncomplete? && v.e in w.leases && w.leases[v.e].token in w.incomplete then Some(w.incomplete[w.leases[v.e].token])
    else if v.EndDrill? && v.e in w.leases && w.leases[v.e].token in w.drills then Some(w.drills[w.leases[v.e].token])
    else None
  }

  /** One step of one executor or of the operator. Losing the connection, or dying, gives up the
      advisory lock but not the lease in the database. A job is started on the connection that the
      lease check has just found; what was found missing, or read as running, may be acted on at any later time. */
  function Step(w: World, v: Event): World {
    match v
    case Tick(seconds) => w.(now := w.now + seconds)
    case Enqueue(router, action) =>
      if action == Drill then w
      else w.(tables := w.tables.(jobs := w.tables.jobs + [Job(router, action, Pending, 0, None, 0, 0, 0)]))
    case Acquire(e) =>
      if e in w.leases || w.lock.Some? then w
      else
        var r := Acquired(w.tables, w.unused, w.now);
        if r.None? then w
        else w.(tables := r.value.0, leases := w.leases[e := r.value.1], lock := Some(e), unused := w.unused + 1)
    case Check(e) => if e !in w.leases then w else w.(tables := Checked(w.tables, w.leases[e], w.now))
    case LoseConnection(e) =>
      if e !in w.leases then w
      else w.(leases := w.leases[e := w.leases[e].(connected := false)], lock := Unlocked(w, e))
    case Crash(e) => if e !in w.leases then w else w.(leases := w.leases - {e}, lock := Unlocked(w, e))
    case Release(e) =>
      if e !in w.leases then w
      else w.(tables := Released(w.tables, w.leases[e]), leases := w.leases - {e}, lock := Unlocked(w, e))
    case Start(e, j) =>
      if e !in w.leases || !w.leases[e].connected || !Startable(w.tables, j) then w
      else w.(tables := Started(w.tables, w.leases[e], j, w.now), begun := w.begun + {(w.leases[e].token, j)})
    case Commit(e, j, ok) => if e !in w.leases then w else w.(tables := Committed(w.tables, w.leases[e], j, ok))
    case Recover(e) => if e !in w.leases then w else w.(tables := Recovered(w.tables, w.leases[e], w.now))
    case Retry(j) => w.(tables := Retried(w.tables, j, w.now))
    case FindMissing(e, j) =>
      if !FindsMissing(w, e, j) then w
      else w.(incomplete := w.incomplete[w.leases[e].token := NewestApply(w.tables.jobs, w.tables.jobs[j].router).value])
    case FailIncomplete(_) =>
      if Target(w, v).None? then w else w.(tables := Saved(w.tables, Target(w, v).value, false))
    case PrepareDrill(e, router) =>
      if e !in w.leases || !CanPrepare(w.tables, router) then w
      else w.(tables := Prepared(w.tables, router, w.now), drills := w.drills[w.leases[e].token := |w.tables.jobs|])
    case ReadDrill(e, j) =>
      if e in w.leases && j < |w.tables.jobs| && w.tables.jobs[j].action == Drill && w.tables.jobs[j].status == Running
      then w.(drills := w.drills[w.leases[e].token := j])
      else w
    case EndDrill(_, ok) =>
      if Target(w, v).None? then w else w.(tables := Saved(w.tables, Target(w, v).value, ok))
  }

  function Run(w: World, vs: seq<Event>): World
    decreases |vs|
  {
    if vs == [] then w else Run(Step(w, vs[0]), vs[1..])
  }

  /** An empty node at some time. */
  function Initial(now: int): World {
    World(now, Tables(Node(None, 0, None), [], {}), map[], None, 0, {}, map[], map[])
  }

  /* ---- the invariant ---- */

  /** A lease's token and generation were given out together, once; an executor that still has its
      connection holds the advisory lock, and the row is its own. */
  ghost predicate LeasesOk(w: World) {
    && (forall e :: e in w.leases ==> w.leases[e].token < w.unused && w.leases[e].generation == w.leases[e].token + 1)
    && (forall e, f :: e in w.leases && f in w.leases && w.leases[e].token == w.leases[f].token ==> e == f)
    && (forall e :: e in w.leases && w.leases[e].connected ==> w.lock == Some(e) && Owns(w.tables.node, w.leases[e]))
    && (w.lock.Some? ==> w.lock.value in w.leases && w.leases[w.lock.value].connected)
  }

  ghost predicate NodeOk(w: World) {
    && w.tables.node.generation == w.unused
    && (w.tables.node.token.Some? ==> w.tables.node.token.value + 1 == w.tables.node.generation)
  }

  /** Reviews that have not led to a start: one for a job that waits, none for one that is started in turn. */
  function Unspent(job: Job): int {
    1 + job.retries - job.attempts - if job.status == Pending then 1 else 0
  }

  predicate JobOk(job: Job, unused: nat) {
    && (job.token.Some? ==> job.token.value < unused && job.generation == job.token.value + 1)
    && (job.status == Running ==> job.token.Some? || (job.action == Drill && job.generation == 0))
    && job.generation <= unused
    && (job.status != Pending ==> job.attempts > 0)
    && Unspent(job) >= 0
  }

  ghost predicate JobsOk(w: World) {
    forall j :: 0 <= j < |w.tables.jobs| ==> JobOk(w.tables.jobs[j], w.unused)
  }

  /** What was found incomplete is a started apply job, and what was read as a drill is one. */
  ghost predicate TargetsOk(w: World) {
    && (forall t :: t in w.incomplete ==> var k := w.incomplete[t];
          k < |w.tables.jobs| && w.tables.jobs[k].action == Apply && w.tables.jobs[k].attempts > 0)
    && (forall t :: t in w.drills ==> var k := w.drills[t];
          k < |w.tables.jobs| && w.tables.jobs[k].action == Drill && w.tables.jobs[k].attempts > 0)
  }

  ghost predicate Inv(w: World) { LeasesOk(w) && NodeOk(w) && JobsOk(w) && TargetsOk(w) }

  lemma AcquireKeepsLeases(w: World, e: nat)
    requires LeasesOk(w) && NodeOk(w)
    ensures LeasesOk(Step(w, Acquire(e))) && NodeOk(Step(w, Acquire(e)))
  {
    hide Held;
  }

  /** An executor leaves, or goes on without its connection. */
  lemma LeavingKeepsLeases(w: World, v: Event)
    requires LeasesOk(w) && NodeOk(w) && (v.Crash? || v.LoseConnection? || v.Release?)
    ensures LeasesOk(Step(w, v)) && NodeOk(Step(w, v))
  {
    hide Released, Owns;
    if v.Release? {
      if v.e in w.leases { ReleasedNode(w, v.e); }
    } else if v.Crash? {
      CrashKeepsLeases(w, v.e);
    } else {
      LosingKeepsLeases(w, v.e);
    }
  }

  lemma LosingKeepsLeases(w: World, e: nat)
    requires LeasesOk(w)
    ensures LeasesOk(Step(w, LoseConnection(e)))
  {
  }

  lemma CrashKeepsLeases(w: World, e: nat)
    requires LeasesOk(w)
    ensures LeasesOk(Step(w, Crash(e)))
  {
  }

  /** Who still has its connection is not the one that leaves, so the row stays its own. */
  lemma ReleasedNode(w: World, e: nat)
    requires LeasesOk(w) && e in w.leases
    ensures var node := Released(w.tables, w.leases[e]).node;
            && node.generation == w.tables.node.generation
            && (node.token.Some? ==> node.token == w.tables.node.token)
            && forall f :: f in w.leases && f != e && w.leases[f].connected ==> node == w.tables.node
  {
  }

  /** The other steps leave leases, lock, token and generation alone. */
  lemma SameNode(w: World, v: Event)
    requires !(v.Acquire? || v.Crash? || v.LoseConnection? || v.Release?)
    ensures var w' := Step(w, v);
            && w'.leases == w.leases && w'.lock == w.lock && w'.unused == w.unused
            && w'.tables.node == w.tables.node.(expiresAt := w'.tables.node.expiresAt)
  {
    hide Passes, FindsMissing, Target;
  }

  lemma StepKeepsLeases(w: World, v: Event)
    requires LeasesOk(w) && NodeOk(w)
    ensures LeasesOk(Step(w, v)) && NodeOk(Step(w, v))
  {
    if v.Acquire? {
      AcquireKeepsLeases(w, v.e);
    } else if v.Crash? || v.LoseConnection? || v.Release? {
      LeavingKeepsLeases(w, v);
    } else {
      hide Step;
      SameNode(w, v);
    }
  }

  /** Jobs are never removed, keep their router and their action, and starts and reviews only add up. */
  lemma JobsGrow(w: World, v: Event)
    ensures |Step(w, v).tables.jobs| >= |w.tables.jobs|
    ensures forall j :: 0 <= j < |w.tables.jobs| ==>
              && Step(w, v).tables.jobs[j].router == w.tables.jobs[j].router
              && Step(w, v).tables.jobs[j].action == w.tables.jobs[j].action
              && Step(w, v).tables.jobs[j].attempts >= w.tables.jobs[j].attempts
              && Step(w, v).tables.jobs[j].retries >= w.tables.jobs[j].retries
  {
    hide Passes, Held, FindsMissing, Target;
  }

  lemma StepKeepsJobs(w: World, v: Event)
    requires LeasesOk(w) && JobsOk(w) && TargetsOk(w)
    ensures JobsOk(Step(w, v))
  {
    var w' := Step(w, v);
    assert w.unused <= w'.unused by { hide *; hide Step; UnusedGrows(w, v); }
    forall j | 0 <= j < |w'.tables.jobs|
      ensures JobOk(w'.tables.jobs[j], w'.unused)
    {
      hide Step;
      if j < |w.tables.jobs| { JobStaysOk(w, v, j); } else { NewJobOk(w, v, j); }
    }
  }

  lemma UnusedGrows(w: World, v: Event)
    ensures w.unused <= Step(w, v).unused
  {
    hide Passes, Held, FindsMissing, CanPrepare, Target;
  }

  lemma NewJobOk(w: World, v: Event, j: nat)
    requires |w.tables.jobs| <= j < |Step(w, v).tables.jobs|
    ensures JobOk(Step(w, v).tables.jobs[j], Step(w, v).unused)
  {
    hide Passes, Held, FindsMissing, CanPrepare, Target;
  }

  lemma JobStaysOk(w: World, v: Event, j: nat)
    requires LeasesOk(w) && TargetsOk(w) && j < |w.tables.jobs| && JobOk(w.tables.jobs[j], w.unused)
    requires j < |Step(w, v).tables.jobs| && w.unused <= Step(w, v).unused
    ensures JobOk(Step(w, v).tables.jobs[j], Step(w, v).unused)
  {
    if v.FailIncomplete? || v.EndDrill? {
      hide Step;
      SavedJobOk(w, v, j);
    } else if v.Start? {
      hide TargetsOk;
    } else {
      hide TargetsOk, LeasesOk, Target, Passes, Held, FindsMissing, CanPrepare;
    }
  }

  lemma SavedJobOk(w: World, v: Event, j: nat)
    requires TargetsOk(w) && j < |w.tables.jobs| && JobOk(w.tables.jobs[j], w.unused) && (v.FailIncomplete? || v.EndDrill?)
    ensures j < |Step(w, v).tables.jobs| && JobOk(Step(w, v).tables.jobs[j], Step(w, v).unused)
  {
  }

  lemma StepKeepsTargets(w: World, v: Event)
    requires JobsOk(w) && TargetsOk(w)
    ensures TargetsOk(Step(w, v))
  {
    JobsGrow(w, v);
    hide Passes, Held, Started, Committed, Recovered, Retried, Acquired, Released, Checked, Saved;
    assert v.ReadDrill? && v.job < |w.tables.jobs| ==> JobOk(w.tables.jobs[v.job], w.unused);
  }

  lemma StepKeepsInv(w: World, v: Event)
    requires Inv(w)
    ensures Inv(Step(w, v))
  {
    hide LeasesOk, NodeOk, JobsOk, TargetsOk, Step;
    StepKeepsLeases(w, v);
    StepKeepsJobs(w, v);
    StepKeepsTargets(w, v);
  }

  lemma {:induction false} RunKeepsInv(w: World, vs: seq<Event>)
    requires Inv(w)
    ensures Inv(Run(w, vs))
    decreases |vs|
  {
    hide Inv, Step;
    if vs != [] {
      StepKeepsInv(w, vs[0]);
      RunKeepsInv(Step(w, vs[0]), vs[1..]);
    }
  }

  lemma ReachableInv(now: int, vs: seq<Event>)
    ensures Inv(Run(Initial(now), vs))
  {
    hide Run;
    RunKeepsInv(Initial(now), vs);
  }

  /* ---- the lease ---- */

  predicate PassesNow(w: World, e: nat) { e in w.leases && Passes(w.tables.node, w.leases[e], w.now) }

  /** At no time do two executors pass the lease check, and the one that does holds the newest
      generation and the advisory lock. */
  lemma OneExecutor(now: int, vs: seq<Event>, e: nat, f: nat)
    ensures var w := Run(Initial(now), vs);
            && (PassesNow(w, e) && PassesNow(w, f) ==> e == f)
            && (PassesNow(w, e) ==> w.leases[e].generation == w.tables.node.generation && w.lock == Some(e))
  {
    ReachableInv(now, vs);
  }

  /** Once another executor has taken the node over, the former one never passes again. */
  lemma {:induction false} SupersededForever(w: World, vs: seq<Event>, lease: Lease)
    requires Inv(w) && lease.token < w.unused && w.tables.node.token != Some(lease.token)
    ensures !Owns(Run(w, vs).tables.node, lease)
    decreases |vs|
  {
    if vs != [] {
      SupersededStep(w, vs[0], lease);
      SupersededForever(Step(w, vs[0]), vs[1..], lease);
    }
  }

  lemma SupersededStep(w: World, v: Event, lease: Lease)
    requires Inv(w) && lease.token < w.unused && w.tables.node.token != Some(lease.token)
    ensures var w' := Step(w, v);
            Inv(w') && lease.token < w'.unused && w'.tables.node.token != Some(lease.token)
  {
    StepKeepsInv(w, v);
    hide Inv, LeasesOk, NodeOk, JobsOk, TargetsOk;
    if !(v.Acquire? || v.Crash? || v.LoseConnection? || v.Release?) { SameNode(w, v); }
  }

  /* ---- how a job ends ---- */

  /** A running job ends only by the lease that started it, by the recovery of a later executor, by a
      verification that found the resources of this apply job missing, or by the command of this drill. */
  lemma OnlyItsClaimEnds(now: int, vs: seq<Event>, v: Event, j: nat)
    requires j < |Run(Initial(now), vs).tables.jobs| && Run(Initial(now), vs).tables.jobs[j].status == Running
    ensures var w := Run(Initial(now), vs); var job, w' := w.tables.jobs[j], Step(w, v);
            && |w'.tables.jobs| >= |w.tables.jobs|
            && (w'.tables.jobs[j] == job
                || (v.Commit? && v.job == j && v.e in w.leases && Claimed(job, w.leases[v.e])
                    && w'.tables.jobs[j] == job.(status := if v.ok then Succeeded else Failed))
                || (v.Recover? && PassesNow(w, v.e) && job.generation < w.leases[v.e].generation
                    && w'.tables.jobs[j] == job.(status := Failed) && job.router in w'.tables.blocked)
                || (v.FailIncomplete? && Target(w, v) == Some(j) && job.action == Apply
                    && w'.tables.jobs[j] == job.(status := Failed) && w'.tables.blocked == w.tables.blocked)
                || (v.EndDrill? && Target(w, v) == Some(j) && job.action == Drill
                    && w'.tables.jobs[j] == job.(status := if v.ok then Succeeded else Failed)
                    && w'.tables.blocked == w.tables.blocked))
  {
    hide Run;
    ReachableInv(now, vs);
    hide FindsMissing, Held, CanPrepare;
    assert JobOk(Run(Initial(now), vs).tables.jobs[j], Run(Initial(now), vs).unused);
  }

  /** After a recovery no job of an older generation is running, but for a drill begun in the last
      ten minutes, and the router of each job it failed is stopped. */
  lemma RecoveryLeavesNone(now: int, vs: seq<Event>, e: nat, j: nat)
    requires PassesNow(Run(Initial(now), vs), e) && j < |Run(Initial(now), vs).tables.jobs|
    ensures var w := Run(Initial(now), vs); var before, w' := w.tables.jobs[j], Step(w, Recover(e));
            && |w'.tables.jobs| == |w.tables.jobs|
            && var job := w'.tables.jobs[j];
               && (job.status == Running ==>
                     job.generation == w.tables.node.generation || (job.action.Drill? && job.startedAt > w.now - DRILL_SECONDS))
               && (job != before ==> job == before.(status := Failed) && job.router in w'.tables.blocked)
  {
    hide Run;
    ReachableInv(now, vs);
    var w := Run(Initial(now), vs);
    assert JobOk(w.tables.jobs[j], w.unused);
  }

  /* ---- starts and reviews ---- */

  /** A write outside any claim ends job `j` while it waits to start. */
  predicate EndsWaiting(w: World, v: Event, j: nat) {
    Target(w, v) == Some(j) && j < |w.tables.jobs| && w.tables.jobs[j].status == Pending
  }

  /** How often that happens along a run. */
  function EndedWaiting(w: World, vs: seq<Event>, j: nat): nat
    decreases |vs|
  {
    if vs == [] then 0 else (if EndsWaiting(w, vs[0], j) then 1 else 0) + EndedWaiting(Step(w, vs[0]), vs[1..], j)
  }

  function UnspentOf(w: World, j: nat): int { if j < |w.tables.jobs| then Unspent(w.tables.jobs[j]) else 0 }

  lemma StepSpends(w: World, v: Event, j: nat)
    ensures UnspentOf(Step(w, v), j) == UnspentOf(w, j) + if EndsWaiting(w, v, j) then 1 else 0
  {
    hide Passes, Held, FindsMissing, CanPrepare;
  }

  lemma {:induction false} RunSpends(w: World, vs: seq<Event>, j: nat)
    ensures UnspentOf(Run(w, vs), j) == UnspentOf(w, j) + EndedWaiting(w, vs, j)
    decreases |vs|
  {
    hide Step, UnspentOf, EndsWaiting;
    if vs != [] {
      StepSpends(w, vs[0], j);
      RunSpends(Step(w, vs[0]), vs[1..], j);
    }
  }

  /** A job is never started on its own: it starts at most once, and once more for each review. One start
      is missing for each time that a verification, or a drill's command, ended it while it was waiting. */
  lemma StartsAreReviewed(now: int, vs: seq<Event>, j: nat)
    requires j < |Run(Initial(now), vs).tables.jobs|
    ensures var job := Run(Initial(now), vs).tables.jobs[j];
            && job.attempts + EndedWaiting(Initial(now), vs, j) == (if job.status == Pending then job.retries else 1 + job.retries)
            && (job.status != Pending ==> job.attempts > 0)
  {
    hide Run;
    RunSpends(Initial(now), vs, j);
    ReachableInv(now, vs);
    assert JobOk(Run(Initial(now), vs).tables.jobs[j], Run(Initial(now), vs).unused);
  }

  /** A job that is started under a lease of its own and fails. */
  function FailedRun(j: nat): seq<Event> { [Acquire(0), Start(0, j), Commit(0, j, false), Release(0)] }

  /** The run in which a start is missing: a verification that failed on the connection, and an apply job
      that failed after it had journaled a resource, are both reviewed; the verification runs first, misses
      that resource and fails the apply job, which was waiting. */
  function VerifiedFirst(): seq<Event> {
    [Enqueue(0, Verify), Enqueue(0, Apply)] + FailedRun(0) + FailedRun(1) + [Retry(0), Retry(1)]
    + [Acquire(0), Start(0, 0), FindMissing(0, 0), FailIncomplete(0)]
  }

  /** Nobody works on the node, no router is stopped, and job `j` waits to start. */
  predicate Waiting(w: World, j: nat) {
    && w.leases == map[] && w.lock.None? && w.tables.node.token.None? && w.tables.blocked == {}
    && j < |w.tables.jobs| && w.tables.jobs[j].status == Pending
  }

  function FailsOnce(w: World, j: nat): World
    requires j < |w.tables.jobs|
  {
    var node := Node(None, w.tables.node.generation + 1, None);
    var job := w.tables.jobs[j].(status := Failed, attempts := w.tables.jobs[j].attempts + 1, token := Some(w.unused),
                                 generation := node.generation, startedAt := w.now);
    w.(tables := Tables(node, w.tables.jobs[j := job], {}), unused := w.unused + 1, begun := w.begun + {(w.unused, j)})
  }

  lemma FailedRunFails(w: World, j: nat)
    requires Waiting(w, j)
    ensures Run(w, FailedRun(j)) == FailsOnce(w, j)
  {
    var w1 := Step(w, Acquire(0));
    var w2 := Step(w1, Start(0, j));
    var w3 := Step(w2, Commit(0, j, false));
    var w4 := Step(w3, Release(0));
    assert w4 == FailsOnce(w, j);
    hide Step;
    Run4(w, Acquire(0), Start(0, j), Commit(0, j, false), Release(0));
  }

  lemma Run4(w: World, a: Event, b: Event, c: Event, d: Event)
    ensures Run(w, [a, b, c, d]) == Step(Step(Step(Step(w, a), b), c), d)
  {
    hide Step;
    assert [a, b, c, d][1..] == [b, c, d] && [b, c, d][1..] == [c, d] && [c, d][1..] == [d] && [d][1..] == [];
    assert Run(w, [a, b, c, d]) == Run(Step(w, a), [b, c, d]);
    assert Run(Step(w, a), [b, c, d]) == Run(Step(Step(w, a), b), [c, d]);
    assert Run(Step(Step(w, a), b), [c, d]) == Run(Step(Step(Step(w, a), b), c), [d]);
  }

  lemma {:induction false} RunAppend(w: World, vs: seq<Event>, us: seq<Event>)
    ensures Run(w, vs + us) == Run(Run(w, vs), us)
    decreases |vs|
  {
    hide Step;
    if vs == [] {
      assert vs + us == us;
    } else {
      assert (vs + us)[1..] == vs[1..] + us;
      RunAppend(Step(w, vs[0]), vs[1..], us);
    }
  }

  /** The verification fails the started apply job of its router. */
  lemma MissingEndsWaiting(w: World)
    requires Waiting(w, 0) && |w.tables.jobs| == 2 && w.tables.jobs[0].action == Verify
    requires w.tables.jobs[1].action == Apply && w.tables.jobs[1].attempts > 0 && w.tables.jobs[1].router == w.tables.jobs[0].router
    ensures var jobs := Run(w, [Acquire(0), Start(0, 0), FindMissing(0, 0), FailIncomplete(0)]).tables.jobs;
            |jobs| == 2 && jobs[1] == w.tables.jobs[1].(status := Failed)
  {
    hide Run;
    var w1 := Step(w, Acquire(0));
    assert w1.leases == map[0 := Lease(w.unused, w.tables.node.generation + 1, true)] && w1.tables.jobs == w.tables.jobs;
    var w2 := Step(w1, Start(0, 0));
    assert w2.leases == w1.leases && (w.unused, 0) in w2.begun && w2.tables.jobs[1..] == w.tables.jobs[1..]
           && w2.tables.jobs[0].action == Verify && w2.tables.jobs[0].router == w.tables.jobs[0].router;
    MissingFails(w2, 0);
    hide Step;
    Run4(w, Acquire(0), Start(0, 0), FindMissing(0, 0), FailIncomplete(0));
  }

  lemma MissingFails(w: World, e: nat)
    requires e in w.leases && (w.leases[e].token, 0) in w.begun && |w.tables.jobs| == 2 && w.tables.jobs[0].action == Verify
    requires w.tables.jobs[1].action == Apply && w.tables.jobs[1].attempts > 0 && w.tables.jobs[1].router == w.tables.jobs[0].router
    ensures Step(Step(w, FindMissing(e, 0)), FailIncomplete(e)).tables.jobs
            == w.tables.jobs[1 := w.tables.jobs[1].(status := Failed)]
  {
    assert NewestApply(w.tables.jobs, w.tables.jobs[0].router) == Some(1);
  }

  lemma BothReviewed(w: World)
    requires Waiting(w, 0) && Waiting(w, 1) && |w.tables.jobs| == 2 && w.tables.jobs[0].router == w.tables.jobs[1].router
    ensures var w1 := FailsOnce(FailsOnce(w, 0), 1);
            var w2 := Run(w1, [Retry(0), Retry(1)]);
            && Waiting(FailsOnce(w, 0), 1) && Waiting(w2, 0) && |w2.tables.jobs| == 2
            && w2.tables.jobs[0] == w1.tables.jobs[0].(status := Pending, token := None, retries := w.tables.jobs[0].retries + 1)
            && w2.tables.jobs[1] == w1.tables.jobs[1].(status := Pending, token := None, retries := w.tables.jobs[1].retries + 1)
  {
    var w1 := FailsOnce(FailsOnce(w, 0), 1);
    var w2 := Step(w1, Retry(0));
    var w3 := Step(w2, Retry(1));
    assert Retryable(w1.tables, 0, w1.now);
    assert Retryable(w2.tables, 1, w2.now);
    hide Step;
    assert [Retry(0), Retry(1)][1..] == [Retry(1)] && [Retry(1)][1..] == [];
  }

  lemma ReviewWithoutStart(now: int)
    ensures var w := Run(Initial(now), VerifiedFirst());
            && |w.tables.jobs| == 2 && w.tables.jobs[1].action == Apply && w.tables.jobs[1].status == Failed
            && w.tables.jobs[1].attempts == 1 && w.tables.jobs[1].retries == 1
            && EndedWaiting(Initial(now), VerifiedFirst(), 1) == 1
  {
    hide Run, EndedWaiting;
    var queued, reviewed := [Enqueue(0, Verify), Enqueue(0, Apply)], [Retry(0), Retry(1)];
    var verified := [Acquire(0), Start(0, 0), FindMissing(0, 0), FailIncomplete(0)];
    var w1 := Run(Initial(now), queued);
    assert Waiting(w1, 0) && Waiting(w1, 1) && |w1.tables.jobs| == 2 by { TwoQueued(now); }
    TwoQueued(now);
    FailedRunFails(w1, 0);
    BothReviewed(w1);
    FailedRunFails(FailsOnce(w1, 0), 1);
    var w4 := Run(FailsOnce(FailsOnce(w1, 0), 1), reviewed);
    hide Step;
    MissingEndsWaiting(w4);
    RunAppend(Initial(now), queued + FailedRun(0) + FailedRun(1) + reviewed, verified);
    RunAppend(Initial(now), queued + FailedRun(0) + FailedRun(1), reviewed);
    RunAppend(Initial(now), queued + FailedRun(0), FailedRun(1));
    RunAppend(Initial(now), queued, FailedRun(0));
    RunSpends(Initial(now), VerifiedFirst(), 1);
  }

  lemma TwoQueued(now: int)
    ensures Run(Initial(now), [Enqueue(0, Verify), Enqueue(0, Apply)])
            == Initial(now).(tables := Tables(Node(None, 0, None),
                                              [Job(0, Verify, Pending, 0, None, 0, 0, 0), Job(0, Apply, Pending, 0, None, 0, 0, 0)], {}))
  {
    assert [Enqueue(0, Verify), Enqueue(0, Apply)][1..] == [Enqueue(0, Apply)] && [Enqueue(0, Apply)][1..] == [];
    assert Run(Initial(now), [Enqueue(0, Verify), Enqueue(0, Apply)])
        == Step(Step(Initial(now), Enqueue(0, Verify)), Enqueue(0, Apply));
  }

  /** No review touches router `r` in these steps. */
  ghost predicate Unreviewed(w: World, vs: seq<Event>, r: nat)
    decreases |vs|
  {
    vs != [] ==>
      && (vs[0].Retry? && vs[0].job < |w.tables.jobs| ==> w.tables.jobs[vs[0].job].router != r)
      && Unreviewed(Step(w, vs[0]), vs[1..], r)
  }

  /** A stopped router stays stopped until a review: none of the jobs it has starts. */
  lemma {:induction false} BlockedUntilReview(w: World, vs: seq<Event>, r: nat, j: nat)
    requires r in w.tables.blocked && Unreviewed(w, vs, r) && j < |w.tables.jobs| && w.tables.jobs[j].router == r
    ensures var w' := Run(w, vs);
            && r in w'.tables.blocked && j < |w'.tables.jobs| && w'.tables.jobs[j].router == r
            && w'.tables.jobs[j].attempts == w.tables.jobs[j].attempts
    decreases |vs|
  {
    hide Step;
    if vs != [] {
      BlockedStep(w, vs[0], r, j);
      BlockedUntilReview(Step(w, vs[0]), vs[1..], r, j);
    }
  }

  lemma BlockedStep(w: World, v: Event, r: nat, j: nat)
    requires r in w.tables.blocked && j < |w.tables.jobs| && w.tables.jobs[j].router == r
    requires v.Retry? && v.job < |w.tables.jobs| ==> w.tables.jobs[v.job].router != r
    ensures var w' := Step(w, v);
            && r in w'.tables.blocked && j < |w'.tables.jobs| && w'.tables.jobs[j].router == r
            && w'.tables.jobs[j].attempts == w.tables.jobs[j].attempts
  {
    hide Passes, Held, FindsMissing, CanPrepare, Target;
  }

  /* ---- an executor that lost its job ---- */

  /** Job `j` is not running under the claim of `lease`, and who still works under it has lost the connection. */
  ghost predicate Disowned(w: World, lease: Lease, j: nat) {
    && j < |w.tables.jobs| && lease.token < w.unused && !Claimed(w.tables.jobs[j], lease)
    && forall e :: e in w.leases && w.leases[e].token == lease.token ==> !w.leases[e].connected
  }

  lemma DisownedStep(w: World, v: Event, lease: Lease, j: nat)
    requires Disowned(w, lease, j)
    ensures Disowned(Step(w, v), lease, j)
  {
    hide Passes, Held, FindsMissing, CanPrepare, Target;
  }

  lemma {:induction false} DisownedRun(w: World, vs: seq<Event>, lease: Lease, j: nat)
    requires Disowned(w, lease, j)
    ensures Disowned(Run(w, vs), lease, j)
    decreases |vs|
  {
    hide Disowned, Step;
    if vs != [] {
      DisownedStep(w, vs[0], lease, j);
      DisownedRun(Step(w, vs[0]), vs[1..], lease, j);
    }
  }

  /** An executor whose job was taken from it by a recovery records no result for it in any later run,
      however often the job is reviewed and started again. */
  lemma QuarantineIsFinal(now: int, vs: seq<Event>, e: nat, f: nat, j: nat, later: seq<Event>, ok: bool)
    requires e in Run(Initial(now), vs).leases && j < |Run(Initial(now), vs).tables.jobs|
    requires var w := Run(Initial(now), vs);
             && Claimed(w.tables.jobs[j], w.leases[e]) && PassesNow(w, f) && f != e
             && Abandoned(w.tables.jobs[j], w.leases[f], w.now)
    ensures var w := Run(Initial(now), vs);
            var w' := Run(Step(w, Recover(f)), later);
            Committed(w'.tables, w.leases[e], j, ok) == w'.tables
  {
    hide Run;
    ReachableInv(now, vs);
    var w := Run(Initial(now), vs);
    assert JobOk(w.tables.jobs[j], w.unused);
    assert Disowned(Step(w, Recover(f)), w.leases[e], j);
    DisownedRun(Step(w, Recover(f)), later, w.leases[e], j);
  }

  /** Job `k` is running all along these steps. */
  ghost predicate RunsThroughout(w: World, vs: seq<Event>, k: nat)
    decreases |vs|
  {
    && k < |w.tables.jobs| && w.tables.jobs[k].status == Running
    && (vs != [] ==> RunsThroughout(Step(w, vs[0]), vs[1..], k))
  }

  /** As long as a job runs no job of its router is reviewed, and a stopped router stays stopped. */
  lemma {:induction false} RunningHoldsReviews(w: World, vs: seq<Event>, k: nat, j: nat)
    requires RunsThroughout(w, vs, k) && j < |w.tables.jobs| && w.tables.jobs[j].router == w.tables.jobs[k].router
    ensures var w' := Run(w, vs);
            && j < |w'.tables.jobs| && w'.tables.jobs[j].retries == w.tables.jobs[j].retries
            && (w.tables.jobs[k].router in w.tables.blocked ==> w.tables.jobs[k].router in w'.tables.blocked)
    decreases |vs|
  {
    hide Step;
    if vs != [] {
      RunningStep(w, vs[0], k, j);
      RunningHoldsReviews(Step(w, vs[0]), vs[1..], k, j);
    }
  }

  lemma RunningStep(w: World, v: Event, k: nat, j: nat)
    requires k < |w.tables.jobs| && w.tables.jobs[k].status == Running
    requires j < |w.tables.jobs| && w.tables.jobs[j].router == w.tables.jobs[k].router
    ensures var w' := Step(w, v);
            && k < |w'.tables.jobs| && j < |w'.tables.jobs|
            && w'.tables.jobs[k].router == w.tables.jobs[k].router && w'.tables.jobs[j].router == w.tables.jobs[j].router
            && w'.tables.jobs[j].retries == w.tables.jobs[j].retries
            && (w.tables.jobs[k].router in w.tables.blocked ==> w.tables.jobs[k].router in w'.tables.blocked)
  {
    hide Passes, Owns, FindsMissing, CanPrepare, Target;
  }
}
