/** The lease of a network node, and the jobs run under it (network/execution.py, network/services.py). */
module NodeLease {
  import opened Common

  datatype Status = Pending | Running | Succeeded | Failed

  /** What a job does; `Drill` is the rehearsed outage, a laboratory test with a command of its own. */
  datatype Action = Apply | Verify | Lab | Drill | Other

  /** `attempts` counts starts; `retries` counts the reviews by an operator. */
  datatype Job = Job(router: nat, action: Action, status: Status, attempts: nat, token: Option<nat>, generation: nat,
                     startedAt: int, retries: nat)

  /** The row of a network node. */
  datatype Node = Node(token: Option<nat>, generation: nat, expiresAt: Option<int>)

  /** The tables of one node. */
  datatype Tables = Tables(node: Node, jobs: seq<Job>, blocked: set<nat>)

  /** What an executor keeps of its lease; `connected` while its database connection is the one it began with. */
  datatype Lease = Lease(token: nat, generation: nat, connected: bool)

  const LEASE_SECONDS := 300
  const DRILL_SECONDS := 600

  predicate Held(node: Node, now: int) { node.token.Some? && node.expiresAt.Some? && now < node.expiresAt.value }

  /** The transaction of `node_execution`: a new token and the next generation, unless the node is held. */
  function Acquired(t: Tables, token: nat, now: int): Option<(Tables, Lease)> {
    if Held(t.node, now) then None
    else
      var node := Node(Some(token), t.node.generation + 1, Some(now + LEASE_SECONDS));
      Some((t.(node := node), Lease(token, node.generation, true)))
  }

  /** The row the lease's fence matches. */
  predicate Owns(node: Node, lease: Lease) { node.token == Some(lease.token) && node.generation == lease.generation }

  /** Whether `NodeLease.check` passes. */
  predicate Passes(node: Node, lease: Lease, now: int) {
    lease.connected && Owns(node, lease) && node.expiresAt.Some? && now < node.expiresAt.value
  }

  function Extended(t: Tables, now: int): Tables { t.(node := t.node.(expiresAt := Some(now + LEASE_SECONDS))) }

  function Checked(t: Tables, lease: Lease, now: int): Tables {
    if Passes(t.node, lease, now) then Extended(t, now) else t
  }

  /** The end of `node_execution`: the row is cleared only by its owner. */
  function Released(t: Tables, lease: Lease): Tables {
    if Owns(t.node, lease) then t.(node := t.node.(token := None, expiresAt := None)) else t
  }

  predicate Startable(t: Tables, j: nat) {
    j < |t.jobs| && t.jobs[j].status == Pending && t.jobs[j].router !in t.blocked
  }

  /** The claim of `process_job`. */
  function Started(t: Tables, lease: Lease, j: nat, now: int): Tables {
    if !Startable(t, j) then t
    else
      t.(jobs := t.jobs[j := t.jobs[j].(status := Running, attempts := t.jobs[j].attempts + 1, token := Some(lease.token),
                                        generation := lease.generation, startedAt := now)])
  }

  predicate Claimed(job: Job, lease: Lease) {
    job.status == Running && job.token == Some(lease.token) && job.generation == lease.generation
  }

  /** The last update of `_execute_job`: only the claim that started the job records its result. */
  function Committed(t: Tables, lease: Lease, j: nat, ok: bool): Tables {
    if j < |t.jobs| && Claimed(t.jobs[j], lease)
    then t.(jobs := t.jobs[j := t.jobs[j].(status := if ok then Succeeded else Failed)])
    else t
  }

  /** A running job that another executor left behind; the outage drill has ten minutes. */
  predicate Abandoned(job: Job, lease: Lease, now: int) {
    job.status == Running && job.token != Some(lease.token) && !(job.action.Drill? && job.startedAt > now - DRILL_SECONDS)
  }

  /** The jobs left behind among the first `n`. */
  function LeftBehind(jobs: seq<Job>, lease: Lease, now: int, n: nat): set<nat>
    requires n <= |jobs|
  {
    set j | 0 <= j < n && Abandoned(jobs[j], lease, now)
  }

  function RoutersOf(jobs: seq<Job>, ids: set<nat>): set<nat> { set j | j in ids && j < |jobs| :: jobs[j].router }

  lemma LeftBehindNext(jobs: seq<Job>, lease: Lease, now: int, n: nat)
    requires n < |jobs|
    ensures var before, next := LeftBehind(jobs, lease, now, n), LeftBehind(jobs, lease, now, n + 1);
            && next == before + (if Abandoned(jobs[n], lease, now) then {n} else {}) && n !in before
            && RoutersOf(jobs, next) == RoutersOf(jobs, before) + if Abandoned(jobs[n], lease, now) then {jobs[n].router} else {}
  {
    var before, next := LeftBehind(jobs, lease, now, n), LeftBehind(jobs, lease, now, n + 1);
    assert next == before + if Abandoned(jobs[n], lease, now) then {n} else {};
  }

  lemma NoneLeftBehind(jobs: seq<Job>, lease: Lease, now: int)
    ensures |LeftBehind(jobs, lease, now, 0)| == 0 && RoutersOf(jobs, LeftBehind(jobs, lease, now, 0)) == {}
  {
    assert LeftBehind(jobs, lease, now, 0) == {};
  }

  function Quarantined(job: Job, lease: Lease, now: int): Job {
    if Abandoned(job, lease, now) then job.(status := Failed) else job
  }

  /** The jobs after the first `n` have been looked at. */
  function FailedUpTo(jobs: seq<Job>, lease: Lease, now: int, n: nat): (r: seq<Job>)
    requires n <= |jobs|
    ensures |r| == |jobs|
  {
    seq(|jobs|, j requires 0 <= j < |jobs| => if j < n then Quarantined(jobs[j], lease, now) else jobs[j])
  }

  lemma FailedUpToNext(jobs: seq<Job>, lease: Lease, now: int, n: nat)
    requires n < |jobs|
    ensures var before, next := FailedUpTo(jobs, lease, now, n), FailedUpTo(jobs, lease, now, n + 1);
            && before[n] == jobs[n]
            && next == if Abandoned(jobs[n], lease, now) then before[n := jobs[n].(status := Failed)] else before
  {
  }

  /** The tables after the first `n` jobs have been looked at. */
  function RecoveredUpTo(t: Tables, lease: Lease, now: int, n: nat): Tables
    requires n <= |t.jobs|
  {
    Tables(t.node.(expiresAt := Some(now + LEASE_SECONDS)), FailedUpTo(t.jobs, lease, now, n),
           t.blocked + RoutersOf(t.jobs, LeftBehind(t.jobs, lease, now, n)))
  }

  lemma RecoverNext(t: Tables, lease: Lease, now: int, n: nat)
    requires n < |t.jobs|
    ensures var before, next := RecoveredUpTo(t, lease, now, n), RecoveredUpTo(t, lease, now, n + 1);
            && |before.jobs| == |t.jobs| && before.jobs[n] == t.jobs[n]
            && next == if Abandoned(t.jobs[n], lease, now)
                       then before.(jobs := before.jobs[n := t.jobs[n].(status := Failed)], blocked := before.blocked + {t.jobs[n].router})
                       else before
    ensures |LeftBehind(t.jobs, lease, now, n + 1)| == |LeftBehind(t.jobs, lease, now, n)| + if Abandoned(t.jobs[n], lease, now) then 1 else 0
  {
    hide FailedUpTo, LeftBehind, RoutersOf, Abandoned;
    LeftBehindNext(t.jobs, lease, now, n);
    FailedUpToNext(t.jobs, lease, now, n);
  }

  lemma RecoverFirst(t: Tables, lease: Lease, now: int)
    ensures RecoveredUpTo(t, lease, now, 0) == t.(node := t.node.(expiresAt := Some(now + LEASE_SECONDS)))
    ensures |LeftBehind(t.jobs, lease, now, 0)| == 0
  {
    NoneLeftBehind(t.jobs, lease, now);
  }

  /** `recover_interrupted_jobs`: fails what was left behind and stops its routers. */
  function Recovered(t: Tables, lease: Lease, now: int): Tables {
    if Passes(t.node, lease, now) then RecoveredUpTo(t, lease, now, |t.jobs|) else t
  }

  predicate Retryable(t: Tables, j: nat, now: int) {
    && j < |t.jobs| && t.jobs[j].status == Failed && !Held(t.node, now)
    && forall k :: 0 <= k < |t.jobs| && t.jobs[k].router == t.jobs[j].router ==> t.jobs[k].status != Running
  }

  /** `retry_reviewed_job`: an operator has reviewed the router. */
  function Retried(t: Tables, j: nat, now: int): Tables {
    if !Retryable(t, j, now) then t
    else
      t.(jobs := t.jobs[j := t.jobs[j].(status := Pending, token := None, retries := t.jobs[j].retries + 1)],
         blocked := t.blocked - {t.jobs[j].router})
  }

  /* ---- writes outside a claim ---- */

  /** The newest apply job of a router, whatever its status; jobs are kept in the order of their creation. */
  function NewestApply(jobs: seq<Job>, router: nat): (source: Option<nat>)
    ensures source.Some? ==> source.value < |jobs| && jobs[source.value].router == router && jobs[source.value].action == Apply
    ensures forall k :: 0 <= k < |jobs| && jobs[k].router == router && jobs[k].action == Apply ==>
              source.Some? && k <= source.value
  {
    if jobs == [] then None
    else
      var last := |jobs| - 1;
      if jobs[last].router == router && jobs[last].action == Apply then Some(last) else NewestApply(jobs[..last], router)
  }

  /** A plain save of a job's status: no claim, lease or review is looked at, and nothing else changes. */
  function Saved(t: Tables, j: nat, ok: bool): Tables {
    if j >= |t.jobs| then t else t.(jobs := t.jobs[j := t.jobs[j].(status := if ok then Succeeded else Failed)])
  }

  /** A drill is created running, counted as started and under nobody's claim, unless a test of its router runs. */
  predicate Testing(job: Job, router: nat) {
    job.router == router && job.status == Running && (job.action == Lab || job.action == Drill)
  }

  predicate CanPrepare(t: Tables, router: nat) {
    forall k :: 0 <= k < |t.jobs| ==> !Testing(t.jobs[k], router)
  }

  function Prepared(t: Tables, router: nat, now: int): Tables {
    if CanPrepare(t, router) then t.(jobs := t.jobs + [Job(router, Drill, Running, 1, None, 0, now, 0)]) else t
  }

  /* ---- the database ---- */

  class NodeDatabase {
    var node: Node
    var jobs: seq<Job>
    var blocked: set<nat>

    function View(): Tables
      reads this
    {
      Tables(node, jobs, blocked)
    }

    constructor ()
      ensures View() == Tables(Node(None, 0, None), [], {})
    {
      node, jobs, blocked := Node(None, 0, None), [], {};
    }

    method Acquire(token: nat, now: int) returns (lease: Option<Lease>)
      modifies this`node
      ensures lease.Some? == Acquired(old(View()), token, now).Some?
      ensures lease.Some? ==> (View(), lease.value) == Acquired(old(View()), token, now).value
      ensures lease.None? ==> View() == old(View())
    {
      if node.token.Some? && node.expiresAt.Some? && node.expiresAt.value > now {
        return None;
      }
      node := node.(token := Some(token));
      node := node.(generation := node.generation + 1);
      node := node.(expiresAt := Some(now + LEASE_SECONDS));
      lease := Some(Lease(token, node.generation, true));
    }

    method Check(lease: Lease, now: int) returns (ok: bool)
      modifies this`node
      ensures ok == Passes(old(node), lease, now)
      ensures View() == Checked(old(View()), lease, now)
    {
      if !lease.connected {
        return false;
      }
      ok := Owns(node, lease) && node.expiresAt.Some? && node.expiresAt.value > now;
      if ok {
        node := node.(expiresAt := Some(now + LEASE_SECONDS));
      }
    }

    method Release(lease: Lease)
      modifies this`node
      ensures View() == Released(old(View()), lease)
    {
      if Owns(node, lease) {
        node := node.(token := None, expiresAt := None);
      }
    }

    method Start(lease: Lease, j: nat, now: int) returns (accepted: bool)
      modifies this`jobs
      ensures accepted == Startable(old(View()), j)
      ensures View() == Started(old(View()), lease, j, now)
    {
      accepted := j < |jobs| && jobs[j].status == Pending && jobs[j].router !in blocked;
      if accepted {
        var job := jobs[j].(status := Running, startedAt := now, attempts := jobs[j].attempts + 1);
        job := job.(token := Some(lease.token), generation := lease.generation);
        jobs := jobs[j := job];
      }
    }

    method Commit(lease: Lease, j: nat, ok: bool) returns (updated: bool)
      modifies this`jobs
      ensures updated == (j < |old(jobs)| && Claimed(old(jobs)[j], lease))
      ensures View() == Committed(old(View()), lease, j, ok)
    {
      updated := j < |jobs| && Claimed(jobs[j], lease);
      if updated {
        jobs := jobs[j := jobs[j].(status := if ok then Succeeded else Failed)];
      }
    }

    /** Answers how many jobs it failed. */
    method RecoverInterrupted(lease: Lease, now: int) returns (count: nat)
      modifies this
      ensures View() == Recovered(old(View()), lease, now)
      ensures count == if Passes(old(node), lease, now) then |LeftBehind(old(jobs), lease, now, |old(jobs)|)| else 0
    {
      hide Passes, LeftBehind, Abandoned, RecoveredUpTo;
      count := 0;
      var ok := Check(lease, now);
      if !ok {
        return;
      }
      ghost var found := old(View());
      RecoverFirst(found, lease, now);
      var j := 0;
      while j < |jobs|
        invariant j <= |jobs| == |found.jobs| && View() == RecoveredUpTo(found, lease, now, j)
        invariant count == |LeftBehind(found.jobs, lease, now, j)|
      {
        RecoverNext(found, lease, now, j);
        if Abandoned(jobs[j], lease, now) {
          blocked := blocked + {jobs[j].router};
          jobs := jobs[j := jobs[j].(status := Failed)];
          count := count + 1;
        }
        j := j + 1;
      }
    }

    method Retry(j: nat, now: int) returns (accepted: bool)
      modifies this`jobs, this`blocked
      ensures accepted == Retryable(old(View()), j, now)
      ensures View() == Retried(old(View()), j, now)
    {
      accepted := Retryable(View(), j, now);
      if accepted {
        jobs := jobs[j := jobs[j].(status := Pending, token := None, retries := jobs[j].retries + 1)];
        blocked := blocked - {jobs[j].router};
      }
    }

    /** How `verify` fails the job it looked at, and how a drill ends. */
    method Save(j: nat, ok: bool)
      modifies this`jobs
      ensures View() == Saved(old(View()), j, ok)
    {
      if j < |jobs| {
        jobs := jobs[j := jobs[j].(status := if ok then Succeeded else Failed)];
      }
    }

    method PrepareDrill(router: nat, now: int) returns (accepted: bool)
      modifies this`jobs
      ensures accepted == CanPrepare(old(View()), router)
      ensures View() == Prepared(old(View()), router, now)
    {
      if k: nat :| k < |jobs| && Testing(jobs[k], router) {
        return false;
      }
      jobs := jobs + [Job(router, Drill, Running, 1, None, 0, now, 0)];
      return true;
    }
  }
}
