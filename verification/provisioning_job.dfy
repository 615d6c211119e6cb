/** The provisioning job as it runs: the journal saved before each remote command. */
module ProvisioningJob {
  import opened Common
  import opened Provisioning

  class Provisioner {
    var rows: seq<Row>
    var settings: Settings
    var host: bool
    var journal: seq<Intent>

    function View(): World
      reads this
    {
      World(rows, settings, host, journal)
    }

    constructor (router: seq<Row>, globals: Settings)
      ensures View() == World(router, globals, false, [])
    {
      rows, settings, host, journal := router, globals, false, [];
    }

    /** `create`: the intent is durable before the remote mutation. `budget` effects remain before
        the job is cut; the answer says whether it goes on. */
    method CreateOwned(ghost plan: Plan, c: Create, ghost rest: seq<Action>, budget: nat) returns (left: nat, goesOn: bool)
      modifies this`rows, this`journal
      ensures Play(plan, old(View()), [Intend(c), Add(c)] + rest, budget) == (if goesOn then Play(plan, View(), rest, left) else View())
    {
      TwoMore(plan, View(), Intend(c), Add(c), rest, budget);
      if budget == 0 {
        return 0, false;
      }
      if !Marked(journal, c.row.comment) {
        journal := journal + [Resource(c.row.menu, c.row.comment)];
      }
      if budget == 1 {
        return 0, false;
      }
      var created := Added(rows, c);
      if created.None? {
        return 0, false;
      }
      rows := created.value;
      left, goesOn := budget - 2, true;
    }

    /** The settings of one menu, journaled with their values at review time and then set. */
    method SetGlobals(plan: Plan, c: Change, ghost rest: seq<Action>, budget: nat) returns (left: nat, goesOn: bool)
      modifies this`settings, this`journal
      ensures Play(plan, old(View()), [IntendChange(c), Set(c)] + rest, budget) == (if goesOn then Play(plan, View(), rest, left) else View())
    {
      hide SetAll;
      TwoMore(plan, View(), IntendChange(c), Set(c), rest, budget);
      if budget == 0 {
        return 0, false;
      }
      var changes := Changed(plan.settings, c);
      if changes != map[] && !Recorded(journal, c.menu) {
        if exists k :: k in changes && Setting(c.menu, k) !in plan.settings {
          return 0, false;
        }
        journal := journal + [Global(c.menu, Before(plan.settings, c), changes)];
      }
      if budget == 1 {
        return 0, false;
      }
      settings := SetAll(settings, c.menu, changes);
      left, goesOn := budget - 2, true;
    }

    /** `apply_plan`, cut after `cut` durable effects. */
    method ApplyPlan(plan: Plan, cut: nat)
      modifies this
      ensures View() == Attempt(plan, old(View()), cut)
    {
      hide Play, CreateActions, ChangeActions;
      if journal == [] && (rows != plan.rows || settings != plan.settings) {
        return;
      }
      ghost var start := View();
      ghost var actions := CreateActions(plan.creates) + ChangeActions(plan.changes);
      TwoMore(plan, start, PrepareHost, IntendHost, actions, cut);
      if cut == 0 {
        return;
      }
      host := true;
      if cut == 1 {
        return;
      }
      if Host !in journal {
        journal := journal + [Host];
      }
      var left: nat := cut - 2;
      var goesOn := true;
      assert Play(plan, start, Script(plan), cut) == Play(plan, View(), actions, left);
      assert plan.creates[0..] == plan.creates;
      var k := 0;
      while k < |plan.creates|
        invariant k <= |plan.creates| && goesOn
        invariant Play(plan, start, Script(plan), cut)
                  == Play(plan, View(), CreateActions(plan.creates[k..]) + ChangeActions(plan.changes), left)
      {
        CreatesFrom(plan, k);
        left, goesOn := CreateOwned(plan, plan.creates[k], CreateActions(plan.creates[k + 1..]) + ChangeActions(plan.changes), left);
        if !goesOn {
          return;
        }
        k := k + 1;
      }
      CreatesOver(plan, k);
      k := 0;
      while k < |plan.changes|
        invariant k <= |plan.changes|
        invariant Play(plan, start, Script(plan), cut) == Play(plan, View(), ChangeActions(plan.changes[k..]), left)
      {
        ChangesFrom(plan, k);
        left, goesOn := SetGlobals(plan, plan.changes[k], ChangeActions(plan.changes[k + 1..]), left);
        if !goesOn {
          return;
        }
        k := k + 1;
      }
      ChangesOver(plan, View(), left);
    }

    /** `rollback` of the journal in reverse, cut after `cut` steps. */
    method RollbackJob(cut: nat)
      modifies this`rows, this`settings, this`host
      ensures View() == Rollback(old(View()), cut)
    {
      var k, left := |journal|, cut;
      assert journal[..k] == journal;
      while k > 0 && left > 0
        invariant 0 <= k <= |journal| && 0 <= left
        invariant UndoSteps(View(), journal[..k], left) == Rollback(old(View()), cut)
      {
        assert journal[..k][..k - 1] == journal[..k - 1];
        match journal[k - 1] {
          case Host => host := false;
          case Resource(menu, marker) => rows := Without(rows, menu, marker);
          case Global(menu, before, after) =>
            if Equals(settings, menu, after) {
              settings := SetAll(settings, menu, before);
            }
        }
        k, left := k - 1, left - 1;
      }
    }
  }

  /** Two actions in turn. */
  lemma TwoMore(plan: Plan, w: World, a: Action, b: Action, rest: seq<Action>, n: nat)
    ensures Play(plan, w, [a, b] + rest, n)
            == if n == 0 || Act(plan, w, a).None? then w
               else if n == 1 || Act(plan, Act(plan, w, a).value, b).None? then Act(plan, w, a).value
               else Play(plan, Act(plan, Act(plan, w, a).value, b).value, rest, n - 2)
  {
    hide Act;
    var all := [a, b] + rest;
    assert all[1..] == [b] + rest && all[1..][1..] == rest;
  }

  lemma CreatesFrom(plan: Plan, k: nat)
    requires k < |plan.creates|
    ensures CreateActions(plan.creates[k..]) + ChangeActions(plan.changes)
            == [Intend(plan.creates[k]), Add(plan.creates[k])] + (CreateActions(plan.creates[k + 1..]) + ChangeActions(plan.changes))
  {
    assert plan.creates[k..][1..] == plan.creates[k + 1..];
  }

  lemma CreatesOver(plan: Plan, k: nat)
    requires k == |plan.creates|
    ensures CreateActions(plan.creates[k..]) + ChangeActions(plan.changes) == ChangeActions(plan.changes[0..])
  {
    assert plan.changes[0..] == plan.changes;
  }

  lemma ChangesOver(plan: Plan, w: World, n: nat)
    ensures Play(plan, w, ChangeActions(plan.changes[|plan.changes|..]), n) == w
  {
  }

  lemma ChangesFrom(plan: Plan, k: nat)
    requires k < |plan.changes|
    ensures ChangeActions(plan.changes[k..]) == [IntendChange(plan.changes[k]), Set(plan.changes[k])] + ChangeActions(plan.changes[k + 1..])
  {
    assert plan.changes[k..][1..] == plan.changes[k + 1..];
  }
}
