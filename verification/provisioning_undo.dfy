/** A rollback undoes any number of attempts, each cut anywhere. */
module ProvisioningUndo {
  import opened Common
  import opened Provisioning

  /* ---- rows ---- */

  /** Every FireISP row is in the journal. */
  ghost predicate Journaled(plan: Plan, w: World) {
    forall k :: 0 <= k < |w.rows| && Owned(plan, w.rows[k]) ==> Resource(w.rows[k].menu, w.rows[k].comment) in w.journal
  }

  /** The plan gives each marker one menu. */
  ghost predicate MarkersApart(plan: Plan) {
    forall j, k | 0 <= j < |plan.creates| && 0 <= k < |plan.creates| ::
      plan.creates[j].row.comment == plan.creates[k].row.comment ==> plan.creates[j].row.menu == plan.creates[k].row.menu
  }

  /** The journal's resources are the plan's. */
  ghost predicate Planned(plan: Plan, journal: seq<Intent>) {
    forall j :: 0 <= j < |journal| && journal[j].Resource? ==>
      exists k :: 0 <= k < |plan.creates|
        && plan.creates[k].row.menu == journal[j].menu && plan.creates[k].row.comment == journal[j].marker
  }

  ghost predicate Inv(plan: Plan, w: World) { Journaled(plan, w) && Planned(plan, w.journal) }

  lemma {:induction false} WithoutRows(rows: seq<Row>, menu: string, marker: string)
    ensures forall r :: r in Without(rows, menu, marker) <==> r in rows && !Has(r, menu, marker)
  {
    if rows != [] {
      WithoutRows(rows[1..], menu, marker);
      assert rows == [rows[0]] + rows[1..];
    }
  }

  lemma {:induction false} UnownedAppend(plan: Plan, xs: seq<Row>, ys: seq<Row>)
    ensures Unowned(plan, xs + ys) == Unowned(plan, xs) + Unowned(plan, ys)
    decreases |xs|
  {
    hide Owned;
    if xs == [] {
      assert xs + ys == ys;
    } else {
      UnownedAppend(plan, xs[1..], ys);
      assert (xs + ys)[1..] == xs[1..] + ys;
      var first := if Owned(plan, xs[0]) then [] else [xs[0]];
      assert Unowned(plan, xs + ys) == first + Unowned(plan, xs[1..] + ys);
    }
  }

  /** Removing a planned marker touches no row of others. */
  lemma {:induction false} WithoutKeepsUnowned(plan: Plan, rows: seq<Row>, menu: string, marker: string)
    requires exists k :: 0 <= k < |plan.creates| && plan.creates[k].row.menu == menu && plan.creates[k].row.comment == marker
    ensures Unowned(plan, Without(rows, menu, marker)) == Unowned(plan, rows)
  {
    if rows != [] {
      WithoutKeepsUnowned(plan, rows[1..], menu, marker);
      var rest := Without(rows[1..], menu, marker);
      if !Has(rows[0], menu, marker) {
        assert ([rows[0]] + rest)[1..] == rest;
      } else {
        assert Owned(plan, rows[0]);
        assert [] + rest == rest;
      }
    }
  }

  lemma {:induction false} AllOwned(plan: Plan, rows: seq<Row>)
    requires forall r :: r in rows ==> !Owned(plan, r)
    ensures Unowned(plan, rows) == rows
  {
    hide Owned;
    if rows != [] {
      AllOwned(plan, rows[1..]);
    }
  }

  lemma AddedRows(plan: Plan, rows: seq<Row>, c: Create)
    requires c in plan.creates && Added(rows, c).Some?
    ensures Unowned(plan, Added(rows, c).value) == Unowned(plan, rows)
    ensures forall r :: r in Added(rows, c).value ==> r in rows || r == c.row
  {
    hide Count;
    var k :| 0 <= k < |plan.creates| && plan.creates[k] == c;
    assert Owned(plan, c.row);
    assert Unowned(plan, [c.row]) == [];
    UnownedAppend(plan, rows, [c.row]);
    UnownedAppend(plan, [c.row], rows);
  }

  /** An action leaves the rows of others alone, and marks none of its own that is not journaled. */
  lemma ActKeepsInv(plan: Plan, w: World, a: Action)
    requires Inv(plan, w) && Act(plan, w, a).Some? && MarkersApart(plan)
    requires (a.Intend? || a.Add?) ==> a.create in plan.creates
    requires a.Add? ==> Marked(w.journal, a.create.row.comment)
    ensures Inv(plan, Act(plan, w, a).value)
    ensures Unowned(plan, Act(plan, w, a).value.rows) == Unowned(plan, w.rows)
    ensures w.journal <= Act(plan, w, a).value.journal
    ensures a.Intend? ==> Marked(Act(plan, w, a).value.journal, a.create.row.comment)
  {
    hide Count, Changed, SetAll, Owned;
    var w' := Act(plan, w, a).value;
    match a
    case Add(c) =>
      AddedRows(plan, w.rows, c);
      MarkedResource(plan, w.journal, c);
    case Intend(c) =>
      var k :| 0 <= k < |plan.creates| && plan.creates[k] == c;
      if !Marked(w.journal, c.row.comment) {
        assert w'.journal[|w.journal|] == Resource(c.row.menu, c.row.comment);
      }
    case _ =>
  }

  lemma MarkedResource(plan: Plan, journal: seq<Intent>, c: Create)
    requires Planned(plan, journal) && MarkersApart(plan) && c in plan.creates && Marked(journal, c.row.comment)
    ensures Resource(c.row.menu, c.row.comment) in journal
  {
    var j :| 0 <= j < |journal| && journal[j].Resource? && journal[j].marker == c.row.comment;
    var k :| 0 <= k < |plan.creates| && plan.creates[k].row.menu == journal[j].menu && plan.creates[k].row.comment == journal[j].marker;
    var m :| 0 <= m < |plan.creates| && plan.creates[m] == c;
    assert journal[j] == Resource(c.row.menu, c.row.comment);
  }

  /** Each effect comes right after its intent, which is `last`. */
  ghost predicate IntentFirst(plan: Plan, last: Option<Action>, actions: seq<Action>)
    decreases |actions|
  {
    actions != [] ==>
      var a := actions[0];
      && (a.Intend? || a.Add? ==> a.create in plan.creates)
      && (a.IntendChange? || a.Set? ==> a.change in plan.changes)
      && (a.Add? ==> last == Some(Intend(a.create)))
      && (a.Set? ==> last == Some(IntendChange(a.change)))
      && IntentFirst(plan, Some(a), actions[1..])
  }

  /** The journal holds the intent `last`. */
  ghost predicate Intended(plan: Plan, journal: seq<Intent>, last: Option<Action>) {
    match last
    case Some(Intend(c)) => Marked(journal, c.row.comment)
    case Some(IntendChange(c)) => Changed(plan.settings, c) == map[] || Recorded(journal, c.menu)
    case _ => true
  }

  lemma ActIntends(plan: Plan, w: World, a: Action)
    requires Act(plan, w, a).Some?
    ensures Intended(plan, Act(plan, w, a).value.journal, Some(a))
    ensures w.journal <= Act(plan, w, a).value.journal
  {
    hide Added, Changed, SetAll;
    var w' := Act(plan, w, a).value;
    if w'.journal != w.journal {
      assert w'.journal[|w.journal|] == w'.journal[|w'.journal| - 1];
    }
  }

  lemma {:induction false} PlayKeepsInv(plan: Plan, w: World, last: Option<Action>, actions: seq<Action>, n: nat)
    requires Inv(plan, w) && MarkersApart(plan) && IntentFirst(plan, last, actions) && Intended(plan, w.journal, last)
    ensures Inv(plan, Play(plan, w, actions, n))
    ensures Unowned(plan, Play(plan, w, actions, n).rows) == Unowned(plan, w.rows)
    decreases |actions|
  {
    hide Inv, Act, MarkersApart, Marked, Recorded;
    if n > 0 && actions != [] && Act(plan, w, actions[0]).Some? {
      ActKeepsInv(plan, w, actions[0]);
      ActIntends(plan, w, actions[0]);
      PlayKeepsInv(plan, Act(plan, w, actions[0]).value, Some(actions[0]), actions[1..], n - 1);
    }
  }

  /** Two actions before others that come in order. */
  lemma TwoFirst(plan: Plan, last: Option<Action>, a: Action, b: Action, tail: seq<Action>)
    requires IntentFirst(plan, last, [a]) && IntentFirst(plan, Some(a), [b]) && IntentFirst(plan, Some(b), tail)
    ensures IntentFirst(plan, last, [a, b] + tail)
  {
    var all := [a, b] + tail;
    assert all[1..] == [b] + tail && all[1..][1..] == tail;
    assert IntentFirst(plan, Some(a), all[1..]);
  }

  /** The order does not depend on an effect before it. */
  lemma AfterEffect(plan: Plan, last: Option<Action>, actions: seq<Action>)
    requires IntentFirst(plan, None, actions)
    ensures IntentFirst(plan, last, actions)
  {
  }

  lemma SingleCreate(plan: Plan, c: Create)
    requires c in plan.creates
    ensures IntentFirst(plan, None, [Intend(c)]) && IntentFirst(plan, Some(Intend(c)), [Add(c)])
  {
  }

  lemma {:induction false} CreatesIntendFirst(plan: Plan, creates: seq<Create>, rest: seq<Action>)
    requires (forall c :: c in creates ==> c in plan.creates) && IntentFirst(plan, None, rest)
    ensures IntentFirst(plan, None, CreateActions(creates) + rest)
    decreases |creates|
  {
    hide IntentFirst;
    if creates == [] {
      assert CreateActions(creates) + rest == rest;
    } else {
      CreatesIntendFirst(plan, creates[1..], rest);
      var tail := CreateActions(creates[1..]) + rest;
      assert CreateActions(creates) + rest == [Intend(creates[0]), Add(creates[0])] + tail;
      AfterEffect(plan, Some(Add(creates[0])), tail);
      SingleCreate(plan, creates[0]);
      TwoFirst(plan, None, Intend(creates[0]), Add(creates[0]), tail);
    }
  }

  lemma {:induction false} ChangesIntendFirst(plan: Plan, changes: seq<Change>)
    requires forall c :: c in changes ==> c in plan.changes
    ensures IntentFirst(plan, None, ChangeActions(changes))
    decreases |changes|
  {
    if changes != [] {
      ChangesIntendFirst(plan, changes[1..]);
      var tail := ChangeActions(changes[1..]);
      AfterEffect(plan, Some(Set(changes[0])), tail);
      assert changes[0] in plan.changes;
      TwoFirst(plan, None, IntendChange(changes[0]), Set(changes[0]), tail);
    }
  }

  /** Every effect of an attempt follows its own intent. */
  lemma ScriptIntendsFirst(plan: Plan)
    ensures IntentFirst(plan, None, Script(plan))
  {
    var rest := ChangeActions(plan.changes);
    ChangesIntendFirst(plan, plan.changes);
    CreatesIntendFirst(plan, plan.creates, rest);
    AfterEffect(plan, Some(IntendHost), CreateActions(plan.creates) + rest);
    TwoFirst(plan, None, PrepareHost, IntendHost, CreateActions(plan.creates) + rest);
  }

  lemma UndoStepKeepsInv(plan: Plan, w: World, i: Intent)
    requires Inv(plan, w) && Planned(plan, [i])
    ensures Inv(plan, UndoStep(w, i)) && Unowned(plan, UndoStep(w, i).rows) == Unowned(plan, w.rows)
  {
    hide Without, Unowned, Owned, Equals, SetAll;
    if i.Resource? {
      assert [i][0] == i;
      WithoutRows(w.rows, i.menu, i.marker);
      WithoutKeepsUnowned(plan, w.rows, i.menu, i.marker);
      var rows := UndoStep(w, i).rows;
      forall k | 0 <= k < |rows| && Owned(plan, rows[k])
        ensures Resource(rows[k].menu, rows[k].comment) in w.journal
      {
        assert rows[k] in rows;
        var m :| 0 <= m < |w.rows| && w.rows[m] == rows[k];
      }
    }
  }

  lemma {:induction false} UndoKeepsInv(plan: Plan, w: World, steps: seq<Intent>, n: nat)
    requires Inv(plan, w) && Planned(plan, steps)
    ensures Inv(plan, UndoSteps(w, steps, n)) && Unowned(plan, UndoSteps(w, steps, n).rows) == Unowned(plan, w.rows)
    decreases |steps|
  {
    hide Inv, UndoStep;
    if n > 0 && steps != [] {
      UndoStepKeepsInv(plan, w, steps[|steps| - 1]);
      UndoKeepsInv(plan, UndoStep(w, steps[|steps| - 1]), steps[..|steps| - 1], n - 1);
    }
  }

  /** All the steps leave no journaled row. */
  lemma {:induction false} UndoRemoves(w: World, steps: seq<Intent>)
    ensures forall r, j :: r in UndoSteps(w, steps, |steps|).rows && 0 <= j < |steps| && steps[j].Resource? ==>
              !Has(r, steps[j].menu, steps[j].marker)
    ensures forall r :: r in UndoSteps(w, steps, |steps|).rows ==> r in w.rows
    decreases |steps|
  {
    hide Equals, SetAll, Without;
    if steps != [] {
      var last := steps[|steps| - 1];
      if last.Resource? { WithoutRows(w.rows, last.menu, last.marker); }
      UndoRemoves(UndoStep(w, last), steps[..|steps| - 1]);
    }
  }

  lemma {:induction false} SameOwned(plan: Plan, rows: seq<Row>, r: Row)
    ensures r in OwnedRows(plan, rows) <==> r in rows && Owned(plan, r)
  {
    hide Owned;
    if rows != [] {
      SameOwned(plan, rows[1..], r);
      assert rows == [rows[0]] + rows[1..];
    }
  }

  /** What the rows of others are after an event. */
  function Others(plan: Plan, w: World, e: Event): seq<Row> {
    if e.EditRows? && OwnedRows(plan, e.rows) == OwnedRows(plan, w.rows) then Unowned(plan, e.rows) else Unowned(plan, w.rows)
  }

  /** Whatever FireISP does and wherever it is cut, only the operator changes the rows of others,
      and every row with a FireISP marker is in the journal. */
  lemma StepKeepsInv(plan: Plan, w: World, e: Event)
    requires Inv(plan, w) && MarkersApart(plan)
    ensures Inv(plan, Step(plan, w, e))
    ensures Unowned(plan, Step(plan, w, e).rows) == Others(plan, w, e)
  {
    hide Play, Script, UndoSteps, Unowned, OwnedRows, Owned, MarkersApart;
    match e
    case Apply(n) =>
      ScriptIntendsFirst(plan);
      PlayKeepsInv(plan, w, None, Script(plan), n);
    case Undo(n) =>
      UndoKeepsInv(plan, w, w.journal, n);
    case EditRows(rows) =>
      forall k | 0 <= k < |rows| && Owned(plan, rows[k]) && OwnedRows(plan, rows) == OwnedRows(plan, w.rows)
        ensures rows[k] in w.rows
      {
        SameOwned(plan, rows, rows[k]);
        SameOwned(plan, w.rows, rows[k]);
      }
    case EditSetting(s, value) =>
  }

  lemma {:induction false} RunKeepsInv(plan: Plan, w: World, es: seq<Event>)
    requires Inv(plan, w) && MarkersApart(plan)
    ensures Inv(plan, Run(plan, w, es))
    ensures (forall k :: 0 <= k < |es| ==> !es[k].EditRows?) ==> Unowned(plan, Run(plan, w, es).rows) == Unowned(plan, w.rows)
    decreases |es|
  {
    hide Inv, Step, MarkersApart, Unowned, OwnedRows;
    if es != [] {
      StepKeepsInv(plan, w, es[0]);
      RunKeepsInv(plan, Step(plan, w, es[0]), es[1..]);
    }
  }

  lemma CleanStart(plan: Plan, w: World)
    requires w.journal == [] && forall r :: r in w.rows ==> !Owned(plan, r)
    ensures Inv(plan, w) && Unowned(plan, w.rows) == w.rows
  {
    hide Owned;
    AllOwned(plan, w.rows);
  }

  /** At every moment of every run, each row with a FireISP marker is in the journal. */
  lemma MarkedIsJournaled(plan: Plan, w: World, es: seq<Event>)
    requires MarkersApart(plan) && w.journal == [] && forall r :: r in w.rows ==> !Owned(plan, r)
    ensures Journaled(plan, Run(plan, w, es))
  {
    hide Owned, MarkersApart, Journaled;
    CleanStart(plan, w);
    RunKeepsInv(plan, w, es);
  }

  lemma NoneJournaled(w: World)
    ensures forall r :: r in Undone(w).rows ==> r in w.rows && Resource(r.menu, r.comment) !in w.journal
  {
    UndoRemoves(w, w.journal);
    forall r | r in Undone(w).rows
      ensures Resource(r.menu, r.comment) !in w.journal
    {
      assert Has(r, r.menu, r.comment);
    }
  }

  /** A completed rollback removes exactly FireISP's rows: the others stay, in their order. */
  lemma UndoneRows(plan: Plan, w: World)
    requires Inv(plan, w)
    ensures Undone(w).rows == Unowned(plan, w.rows)
  {
    hide Owned, Unowned;
    UndoKeepsInv(plan, w, w.journal, |w.journal|);
    var rows := Undone(w).rows;
    NoneJournaled(w);
    forall r | r in rows
      ensures !Owned(plan, r)
    {
      var k :| 0 <= k < |w.rows| && w.rows[k] == r;
    }
    AllOwned(plan, rows);
  }

  /** After any attempts and rollbacks, each cut anywhere, a completed rollback gives back the
      original resources, row for row. */
  lemma UndoRestoresRows(plan: Plan, w: World, es: seq<Event>)
    requires MarkersApart(plan) && w.journal == [] && forall r :: r in w.rows ==> !Owned(plan, r)
    requires forall k :: 0 <= k < |es| ==> !es[k].EditRows?
    ensures Undone(Run(plan, w, es)).rows == w.rows
  {
    hide Owned, MarkersApart, Inv, Unowned, Undone;
    CleanStart(plan, w);
    RunKeepsInv(plan, w, es);
    UndoneRows(plan, Run(plan, w, es));
  }

  /** The same when the operator edits rows in between: exactly the operator's rows are left. */
  lemma UndoLeavesOthers(plan: Plan, w: World, es: seq<Event>, rows: seq<Row>, fs: seq<Event>)
    requires MarkersApart(plan) && w.journal == [] && forall r :: r in w.rows ==> !Owned(plan, r)
    requires OwnedRows(plan, rows) == OwnedRows(plan, Run(plan, w, es).rows)
    requires forall k :: 0 <= k < |fs| ==> !fs[k].EditRows?
    ensures Undone(Run(plan, Step(plan, Run(plan, w, es), EditRows(rows)), fs)).rows == Unowned(plan, rows)
  {
    hide Owned, MarkersApart, Inv, Unowned, OwnedRows, Undone, Run;
    CleanStart(plan, w);
    RunKeepsInv(plan, w, es);
    StepKeepsInv(plan, Run(plan, w, es), EditRows(rows));
    RunKeepsInv(plan, Step(plan, Run(plan, w, es), EditRows(rows)), fs);
    UndoneRows(plan, Run(plan, Step(plan, Run(plan, w, es), EditRows(rows)), fs));
  }
}
