/** What each transaction on a node does, on the rows themselves. */
module NodeResults {
  import opened Common
  import opened NodeLease
  import opened NodeSafety

  /** Somebody's reservation of the node has not run out. */
  predicate Reserved(node: Node, now: int) { node.token.Some? && node.expiresAt.Some? && now < node.expiresAt.value }

  /** The node is given exactly to an executor that has no lease, while nobody holds the advisory lock or a reservation; it
      gets the next generation and a reservation of 300 seconds. */
  lemma AcquiredExactlyWhen(w: World, e: nat)
    ensures var w' := Step(w, Acquire(e)); var generation := w.tables.node.generation + 1;
            w' == if e !in w.leases && w.lock == None && !Reserved(w.tables.node, w.now)
                  then w.(tables := w.tables.(node := Node(Some(w.unused), generation, Some(w.now + 300))),
                          leases := w.leases[e := Lease(w.unused, generation, true)], lock := Some(e), unused := w.unused + 1)
                  else w
  {
  }

  /** The check passes exactly on the executor's own connection, under its own token and generation, before the reservation
      runs out, and then reserves the node for 300 seconds more; it changes nothing else. */
  lemma CheckedExactlyWhen(w: World, e: nat)
    requires e in w.leases
    ensures var node, lease := w.tables.node, w.leases[e];
            var passes := lease.connected && node.token == Some(lease.token) && node.generation == lease.generation
                          && node.expiresAt.Some? && w.now < node.expiresAt.value;
            && (PassesNow(w, e) <==> passes)
            && Step(w, Check(e)) == w.(tables := w.tables.(node := if passes then node.(expiresAt := Some(w.now + 300)) else node))
  {
  }

  /** A lease that is just given out passes its check for exactly 300 seconds, and again after each check that passed. */
  lemma LeaseLasts(w: World, e: nat, first: nat, second: nat)
    requires e !in w.leases && w.lock == None && !Reserved(w.tables.node, w.now)
    ensures var w1 := Step(Step(w, Acquire(e)), Tick(first));
            && (PassesNow(w1, e) <==> first < 300)
            && (first < 300 ==> (PassesNow(Step(Step(w1, Check(e)), Tick(second)), e) <==> second < 300))
            && (first < 300 ==> Reserved(w1.tables.node, w1.now))
  {
    AcquiredExactlyWhen(w, e);
    var w1 := Step(Step(w, Acquire(e)), Tick(first));
    hide Acquired, Checked;
    CheckedExactlyWhen(w1, e);
  }

  /** An executor that ends gives the node up exactly when the row is its own. */
  lemma ReleasedExactlyWhen(w: World, e: nat)
    requires e in w.leases
    ensures var node, lease := w.tables.node, w.leases[e];
            Step(w, Release(e)) == w.(tables := w.tables.(node := if node.token == Some(lease.token) && node.generation == lease.generation
                                                                then Node(None, node.generation, None) else node),
                                      leases := w.leases - {e}, lock := if w.lock == Some(e) then None else w.lock)
  {
  }

  /** A job starts exactly when it waits and its router is not stopped, under a lease whose connection stands. */
  lemma StartedExactlyWhen(w: World, e: nat, j: nat)
    requires e in w.leases
    ensures var w' := Step(w, Start(e, j)); var lease := w.leases[e];
            if lease.connected && j < |w.tables.jobs| && w.tables.jobs[j].status == Pending && w.tables.jobs[j].router !in w.tables.blocked then
              var job := w.tables.jobs[j];
              w' == w.(tables := w.tables.(jobs := w.tables.jobs[j := Job(job.router, job.action, Running, job.attempts + 1, Some(lease.token),
                                                                          lease.generation, w.now, job.retries)]),
                       begun := w.begun + {(lease.token, j)})
            else w' == w
  {
  }

  /** A result is recorded exactly on a job that still runs under the lease's token and generation. */
  lemma CommittedExactlyWhen(w: World, e: nat, j: nat, ok: bool)
    requires e in w.leases
    ensures var w' := Step(w, Commit(e, j, ok)); var lease := w.leases[e];
            w' == if j < |w.tables.jobs| && w.tables.jobs[j].status == Running && w.tables.jobs[j].token == Some(lease.token)
                     && w.tables.jobs[j].generation == lease.generation
                  then w.(tables := w.tables.(jobs := w.tables.jobs[j := w.tables.jobs[j].(status := if ok then Succeeded else Failed)])) else w
  {
  }

  /** A job that runs under another token, or none, and is no drill of the last ten minutes. */
  predicate Interrupted(job: Job, token: nat, now: int) {
    job.status == Running && job.token != Some(token) && (job.action != Drill || job.startedAt + 600 <= now)
  }

  /** A recovery whose lease passes fails every interrupted job and stops its router, and reserves the node again; it
      touches no other job and no other router. One whose lease does not pass changes nothing. */
  lemma RecoveredExactlyWhen(w: World, e: nat)
    requires e in w.leases
    ensures var w' := Step(w, Recover(e)); var token := w.leases[e].token;
            if PassesNow(w, e) then
              && |w'.tables.jobs| == |w.tables.jobs|
              && (forall j :: 0 <= j < |w.tables.jobs| ==>
                    w'.tables.jobs[j] == if Interrupted(w.tables.jobs[j], token, w.now) then w.tables.jobs[j].(status := Failed) else w.tables.jobs[j])
              && (forall r :: r in w'.tables.blocked <==>
                    r in w.tables.blocked || exists j :: 0 <= j < |w.tables.jobs| && Interrupted(w.tables.jobs[j], token, w.now) && w.tables.jobs[j].router == r)
              && w'.tables.node == w.tables.node.(expiresAt := Some(w.now + 300))
            else w' == w
  {
    var w' := Step(w, Recover(e));
    if PassesNow(w, e) {
      var jobs, lease := w.tables.jobs, w.leases[e];
      forall r
        ensures r in w'.tables.blocked <==>
                r in w.tables.blocked || exists j :: 0 <= j < |jobs| && Interrupted(jobs[j], lease.token, w.now) && jobs[j].router == r
      {
        if j: nat :| j < |jobs| && Interrupted(jobs[j], lease.token, w.now) && jobs[j].router == r {
          assert j in LeftBehind(jobs, lease, w.now, |jobs|);
        }
      }
    }
  }

  /** A review makes a failed job wait again, without a claim, and lets its router go, exactly when nobody's reservation of the
      node stands and no job of the router shows as running. */
  lemma RetriedExactlyWhen(w: World, j: nat)
    ensures var w' := Step(w, Retry(j));
            if j < |w.tables.jobs| && w.tables.jobs[j].status == Failed && !Reserved(w.tables.node, w.now)
               && !(exists k :: 0 <= k < |w.tables.jobs| && w.tables.jobs[k].router == w.tables.jobs[j].router && w.tables.jobs[k].status == Running) then
              var job := w.tables.jobs[j];
              w' == w.(tables := w.tables.(jobs := w.tables.jobs[j := job.(status := Pending, token := None, retries := job.retries + 1)],
                                           blocked := w.tables.blocked - {job.router}))
            else w' == w
  {
  }

  /** A drill is prepared exactly while no laboratory test or drill of its router runs. */
  lemma DrilledExactlyWhen(w: World, e: nat, router: nat)
    requires e in w.leases
    ensures var w' := Step(w, PrepareDrill(e, router));
            if exists k :: 0 <= k < |w.tables.jobs| && w.tables.jobs[k].router == router && w.tables.jobs[k].status == Running
                           && (w.tables.jobs[k].action == Lab || w.tables.jobs[k].action == Drill)
            then w' == w
            else w'.tables == w.tables.(jobs := w.tables.jobs + [Job(router, Drill, Running, 1, None, 0, w.now, 0)])
  {
    if k: nat :| k < |w.tables.jobs| && w.tables.jobs[k].router == router && w.tables.jobs[k].status == Running
                 && (w.tables.jobs[k].action == Lab || w.tables.jobs[k].action == Drill) {
      assert Testing(w.tables.jobs[k], router);
    }
  }
}
