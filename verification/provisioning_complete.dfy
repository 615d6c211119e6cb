/** What an attempt that runs to its end leaves on the router, however often it was cut before. */
module ProvisioningComplete {
  import opened Common
  import opened Provisioning
  import opened ProvisioningUndo
  import opened ProvisioningSettings

  /** Every action succeeds. */
  predicate Completes(plan: Plan, w: World, actions: seq<Action>)
    decreases |actions|
  {
    actions == [] || (Act(plan, w, actions[0]).Some? && Completes(plan, Act(plan, w, actions[0]).value, actions[1..]))
  }

  /** Each marker of the plan is used for one resource. */
  ghost predicate MarkersDistinct(plan: Plan) {
    forall j, k | 0 <= j < |plan.creates| && 0 <= k < |plan.creates| ::
      plan.creates[j].row.menu == plan.creates[k].row.menu && plan.creates[j].row.comment == plan.creates[k].row.comment ==> j == k
  }

  predicate Present(rows: seq<Row>, c: Create) { Count(rows, c.row.menu, c.row.comment) == 1 }

  predicate Made(plan: Plan, settings: Settings, c: Change) { Equals(settings, c.menu, Changed(plan.settings, c)) }

  lemma {:induction false} CountPlus(rows: seq<Row>, more: seq<Row>, menu: string, marker: string)
    ensures Count(rows + more, menu, marker) == Count(rows, menu, marker) + Count(more, menu, marker)
    decreases |rows|
  {
    if rows == [] {
      assert rows + more == more;
    } else {
      assert (rows + more)[1..] == rows[1..] + more;
      CountPlus(rows[1..], more, menu, marker);
    }
  }

  /** Creating leaves its marker once, and every other marker as often as it was. */
  lemma AddedOnce(rows: seq<Row>, c: Create)
    requires Added(rows, c).Some?
    ensures Present(Added(rows, c).value, c)
    ensures forall menu, marker :: !Has(c.row, menu, marker) ==> Count(Added(rows, c).value, menu, marker) == Count(rows, menu, marker)
  {
    forall menu, marker
      ensures Count([c.row] + rows, menu, marker) == Count(rows, menu, marker) + if Has(c.row, menu, marker) then 1 else 0
      ensures Count(rows + [c.row], menu, marker) == Count(rows, menu, marker) + if Has(c.row, menu, marker) then 1 else 0
    {
      assert [c.row][1..] == [];
      assert Count([], menu, marker) == 0;
      assert Count([c.row], menu, marker) == if Has(c.row, menu, marker) then 1 else 0;
      CountPlus([c.row], rows, menu, marker);
      CountPlus(rows, [c.row], menu, marker);
    }
  }

  lemma ActPresents(plan: Plan, w: World, a: Action, c: Create)
    requires Act(plan, w, a).Some? && MarkersDistinct(plan) && c in plan.creates && (a.Add? ==> a.create in plan.creates)
    ensures a == Add(c) || Present(w.rows, c) ==> Present(Act(plan, w, a).value.rows, c)
  {
    hide Added, Count, Changed, SetAll;
    if a.Add? {
      AddedOnce(w.rows, a.create);
      if a.create != c {
        var j :| 0 <= j < |plan.creates| && plan.creates[j] == c;
        var k :| 0 <= k < |plan.creates| && plan.creates[k] == a.create;
        assert !Has(a.create.row, c.row.menu, c.row.comment);
      }
    }
  }

  lemma ActMakes(plan: Plan, w: World, a: Action, c: Change)
    requires Act(plan, w, a).Some? && MenusApart(plan) && c in plan.changes && (a.Set? ==> a.change in plan.changes)
    ensures a == Set(c) || Made(plan, w.settings, c) ==> Made(plan, Act(plan, w, a).value.settings, c)
  {
    hide Added, Changed, SetAll, Equals;
    if a.Set? {
      SetAllGets(w.settings, a.change.menu, Changed(plan.settings, a.change));
      if a.change != c {
        var j :| 0 <= j < |plan.changes| && plan.changes[j] == c;
        var k :| 0 <= k < |plan.changes| && plan.changes[k] == a.change;
        OtherMenu(w.settings, a.change.menu, Changed(plan.settings, a.change), c.menu, Changed(plan.settings, c));
      }
    }
  }

  /** Playing actions to their end does all of them, and undoes none. */
  lemma {:induction false} PlayDoes(plan: Plan, w: World, last: Option<Action>, actions: seq<Action>)
    requires Completes(plan, w, actions) && IntentFirst(plan, last, actions) && MarkersDistinct(plan) && MenusApart(plan)
    ensures var r := Play(plan, w, actions, |actions|);
            && (forall c :: c in plan.creates && (Add(c) in actions || Present(w.rows, c)) ==> Present(r.rows, c))
            && (forall c :: c in plan.changes && (Set(c) in actions || Made(plan, w.settings, c)) ==> Made(plan, r.settings, c))
    decreases |actions|
  {
    hide Act, MarkersDistinct, MenusApart, Present, Made;
    if actions != [] {
      var a := actions[0];
      var w' := Act(plan, w, a).value;
      assert actions == [a] + actions[1..];
      forall c | c in plan.creates
        ensures a == Add(c) || Present(w.rows, c) ==> Present(w'.rows, c)
      {
        ActPresents(plan, w, a, c);
      }
      forall c | c in plan.changes
        ensures a == Set(c) || Made(plan, w.settings, c) ==> Made(plan, w'.settings, c)
      {
        ActMakes(plan, w, a, c);
      }
      PlayDoes(plan, w', Some(a), actions[1..]);
    }
  }

  lemma {:induction false} AllCreated(creates: seq<Create>, c: Create)
    requires c in creates
    ensures Add(c) in CreateActions(creates)
  {
    var rest := CreateActions(creates[1..]);
    assert CreateActions(creates) == [Intend(creates[0]), Add(creates[0])] + rest;
    assert CreateActions(creates)[1] == Add(creates[0]);
    if c != creates[0] {
      assert c in creates[1..];
      AllCreated(creates[1..], c);
    }
  }

  lemma {:induction false} AllChanged(changes: seq<Change>, c: Change)
    requires c in changes
    ensures Set(c) in ChangeActions(changes)
  {
    var rest := ChangeActions(changes[1..]);
    assert ChangeActions(changes) == [IntendChange(changes[0]), Set(changes[0])] + rest;
    assert ChangeActions(changes)[1] == Set(changes[0]);
    if c != changes[0] {
      assert c in changes[1..];
      AllChanged(changes[1..], c);
    }
  }

  /** An attempt that runs to its end leaves each resource of the plan exactly once, adopted or new, and
      every setting the plan changes as wanted, whatever earlier attempts had left behind. */
  lemma CompletedAttempt(plan: Plan, w: World)
    requires Completes(plan, w, Script(plan)) && MarkersDistinct(plan) && MenusApart(plan)
    ensures var r := Play(plan, w, Script(plan), |Script(plan)|);
            && (forall c :: c in plan.creates ==> Present(r.rows, c))
            && (forall c :: c in plan.changes ==> Made(plan, r.settings, c))
  {
    hide Present, Made, Play, Completes, CreateActions, ChangeActions, MarkersDistinct, MenusApart;
    ScriptIntendsFirst(plan);
    PlayDoes(plan, w, None, Script(plan));
    forall c | c in plan.creates
      ensures Add(c) in Script(plan)
    {
      AllCreated(plan.creates, c);
    }
    forall c | c in plan.changes
      ensures Set(c) in Script(plan)
    {
      AllChanged(plan.changes, c);
    }
  }
}
