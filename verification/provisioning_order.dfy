/** Where the rows of a plan stand on the router, and which of them are refused. */
module ProvisioningOrder {
  import opened Common
  import opened Provisioning
  import opened ProvisioningUndo
  import opened ProvisioningComplete

  /** No row of the menu carries the comment. */
  predicate Absent(rows: seq<Row>, menu: string, comment: string) {
    forall k :: 0 <= k < |rows| ==> !(rows[k].menu == menu && rows[k].comment == comment)
  }

  /** Row `k` of the menu carries the comment, and no other does. */
  predicate OnlyAt(rows: seq<Row>, menu: string, comment: string, k: nat) {
    && k < |rows| && rows[k].menu == menu && rows[k].comment == comment
    && forall j :: 0 <= j < |rows| && j != k ==> !(rows[j].menu == menu && rows[j].comment == comment)
  }

  predicate NameTaken(rows: seq<Row>, menu: string, name: string) {
    name != "" && exists k :: 0 <= k < |rows| && rows[k].menu == menu && rows[k].name == name
  }

  lemma {:induction false} CountsNone(rows: seq<Row>, menu: string, comment: string)
    ensures Count(rows, menu, comment) == 0 <==> Absent(rows, menu, comment)
  {
    if rows != [] {
      CountsNone(rows[1..], menu, comment);
      assert forall k :: 0 <= k < |rows| - 1 ==> rows[1..][k] == rows[k + 1];
      if Absent(rows[1..], menu, comment) && !(rows[0].menu == menu && rows[0].comment == comment) {
        forall k | 0 <= k < |rows|
          ensures !(rows[k].menu == menu && rows[k].comment == comment)
        {
          assert k > 0 ==> rows[k] == rows[1..][k - 1];
        }
      }
      if Absent(rows, menu, comment) {
        assert forall k :: 0 <= k < |rows[1..]| ==> rows[1..][k] == rows[k + 1];
      }
    }
  }

  lemma {:induction false} CountsOne(rows: seq<Row>, menu: string, comment: string)
    ensures Count(rows, menu, comment) == 1 <==> exists k: nat :: OnlyAt(rows, menu, comment, k)
  {
    if rows != [] {
      var rest := rows[1..];
      CountsOne(rest, menu, comment);
      CountsNone(rest, menu, comment);
      assert forall k :: 0 <= k < |rest| ==> rest[k] == rows[k + 1];
      if rows[0].menu == menu && rows[0].comment == comment {
        FirstOnly(rows, menu, comment);
      } else {
        RestOnly(rows, menu, comment);
      }
    }
  }

  lemma FirstOnly(rows: seq<Row>, menu: string, comment: string)
    requires rows != [] && rows[0].menu == menu && rows[0].comment == comment
    ensures (exists k: nat :: OnlyAt(rows, menu, comment, k)) <==> Absent(rows[1..], menu, comment)
  {
    assert forall k :: 0 <= k < |rows| - 1 ==> rows[1..][k] == rows[k + 1];
    if Absent(rows[1..], menu, comment) {
      forall j | 0 <= j < |rows| && j != 0
        ensures !(rows[j].menu == menu && rows[j].comment == comment)
      {
        assert rows[j] == rows[1..][j - 1];
      }
      assert OnlyAt(rows, menu, comment, 0);
    }
  }

  lemma RestOnly(rows: seq<Row>, menu: string, comment: string)
    requires rows != [] && !(rows[0].menu == menu && rows[0].comment == comment)
    ensures (exists k: nat :: OnlyAt(rows, menu, comment, k)) <==> exists k: nat :: OnlyAt(rows[1..], menu, comment, k)
  {
    assert forall k :: 0 <= k < |rows| - 1 ==> rows[1..][k] == rows[k + 1];
    if k: nat :| OnlyAt(rows, menu, comment, k) {
      assert OnlyAt(rows[1..], menu, comment, k - 1);
    }
    if k: nat :| OnlyAt(rows[1..], menu, comment, k) {
      forall j | 0 <= j < |rows| && j != k + 1
        ensures !(rows[j].menu == menu && rows[j].comment == comment)
      {
        assert j > 0 ==> rows[j] == rows[1..][j - 1];
      }
      assert OnlyAt(rows, menu, comment, k + 1);
    }
  }

  /** Creating a resource whose marker is absent puts its row first when it asks to be placed before the others, and last
      otherwise, with the rows that were there in their order; it is refused exactly when another row has its name. A
      resource whose marker stands once is adopted, and one whose marker stands more often refused. */
  lemma CreatedWhere(plan: Plan, w: World, c: Create)
    ensures var r := Act(plan, w, Add(c)); var menu, comment := c.row.menu, c.row.comment;
            && (Absent(w.rows, menu, comment) ==>
                  r == if NameTaken(w.rows, menu, c.row.name) then None
                       else Some(w.(rows := if c.front then [c.row] + w.rows else w.rows + [c.row])))
            && ((exists k: nat :: OnlyAt(w.rows, menu, comment, k)) ==> r == Some(w))
            && (!Absent(w.rows, menu, comment) && !(exists k: nat :: OnlyAt(w.rows, menu, comment, k)) ==> r == None)
  {
    CountsNone(w.rows, c.row.menu, c.row.comment);
    CountsOne(w.rows, c.row.menu, c.row.comment);
  }

  /* ---- the whole plan ---- */

  /** The rows created in front, the last one first. */
  function Fronts(creates: seq<Create>): seq<Row> {
    if creates == [] then [] else Fronts(creates[1..]) + if creates[0].front then [creates[0].row] else []
  }

  /** The other rows, in the order of the plan. */
  function Backs(creates: seq<Create>): seq<Row> {
    if creates == [] then [] else (if creates[0].front then [] else [creates[0].row]) + Backs(creates[1..])
  }

  /** None of the resources is on the router yet, and no two are the same. */
  ghost predicate AllNew(rows: seq<Row>, creates: seq<Create>) {
    && (forall k :: 0 <= k < |creates| ==> Absent(rows, creates[k].row.menu, creates[k].row.comment))
    && (forall j, k :: 0 <= j < k < |creates| ==>
          !(creates[j].row.menu == creates[k].row.menu && creates[j].row.comment == creates[k].row.comment))
  }

  lemma NewOnes(rows: seq<Row>, creates: seq<Create>)
    requires AllNew(rows, creates) && creates != []
    ensures AllNew([creates[0].row] + rows, creates[1..]) && AllNew(rows + [creates[0].row], creates[1..])
  {
    forall k | 0 <= k < |creates| - 1
      ensures Absent([creates[0].row] + rows, creates[1..][k].row.menu, creates[1..][k].row.comment)
      ensures Absent(rows + [creates[0].row], creates[1..][k].row.menu, creates[1..][k].row.comment)
    {
      assert creates[1..][k] == creates[k + 1];
      assert Absent(rows, creates[k + 1].row.menu, creates[k + 1].row.comment);
    }
  }

  lemma {:induction false} CreatesLayOut(plan: Plan, w: World, creates: seq<Create>, rest: seq<Action>)
    requires AllNew(w.rows, creates) && Completes(plan, w, CreateActions(creates) + rest)
    requires forall k :: 0 <= k < |rest| ==> rest[k].IntendChange? || rest[k].Set?
    ensures Play(plan, w, CreateActions(creates) + rest, |CreateActions(creates) + rest|).rows == Fronts(creates) + w.rows + Backs(creates)
    decreases |creates|
  {
    hide AllNew, Absent, Act;
    if creates == [] {
      assert CreateActions(creates) + rest == rest;
      RestLeavesRows(plan, w, rest);
    } else {
      var c, tail := creates[0], CreateActions(creates[1..]) + rest;
      var actions := CreateActions(creates) + rest;
      assert actions == [Intend(c), Add(c)] + tail;
      var w2 := TwoPlayed(plan, w, c, tail);
      assert w2.rows == if c.front then [c.row] + w.rows else w.rows + [c.row] by { OneLaidOut(plan, w, c, creates); }
      NewOnes(w.rows, creates);
      CreatesLayOut(plan, w2, creates[1..], rest);
      OneMore(creates, w.rows, w2.rows);
    }
  }

  /** The first two actions, and what is left to play. */
  lemma TwoPlayed(plan: Plan, w: World, c: Create, tail: seq<Action>) returns (w2: World)
    requires Completes(plan, w, [Intend(c), Add(c)] + tail)
    ensures Act(plan, w, Intend(c)).Some? && Act(plan, Act(plan, w, Intend(c)).value, Add(c)) == Some(w2)
    ensures Completes(plan, w2, tail)
    ensures var actions := [Intend(c), Add(c)] + tail; Play(plan, w, actions, |actions|) == Play(plan, w2, tail, |tail|)
  {
    hide Act;
    var actions := [Intend(c), Add(c)] + tail;
    assert actions[1..] == [Add(c)] + tail && actions[1..][1..] == tail;
    var w1 := Act(plan, w, Intend(c)).value;
    w2 := Act(plan, w1, Add(c)).value;
    assert Play(plan, w, actions, |actions|) == Play(plan, w1, actions[1..], |actions| - 1);
    assert Play(plan, w1, actions[1..], |actions| - 1) == Play(plan, w2, tail, |tail|);
  }

  lemma OneMore(creates: seq<Create>, rows: seq<Row>, rows': seq<Row>)
    requires creates != [] && rows' == if creates[0].front then [creates[0].row] + rows else rows + [creates[0].row]
    ensures Fronts(creates[1..]) + rows' + Backs(creates[1..]) == Fronts(creates) + rows + Backs(creates)
  {
    var c := creates[0];
    if c.front {
      assert Fronts(creates[1..]) + ([c.row] + rows) + Backs(creates[1..]) == Fronts(creates) + rows + Backs(creates);
    } else {
      assert Fronts(creates[1..]) + (rows + [c.row]) + Backs(creates[1..]) == Fronts(creates) + rows + Backs(creates);
    }
  }

  lemma OneLaidOut(plan: Plan, w: World, c: Create, creates: seq<Create>)
    requires AllNew(w.rows, creates) && creates != [] && c == creates[0] && Act(plan, w, Intend(c)).Some?
    requires Act(plan, Act(plan, w, Intend(c)).value, Add(c)).Some?
    ensures Act(plan, w, Intend(c)).value.rows == w.rows
    ensures Act(plan, Act(plan, w, Intend(c)).value, Add(c)).value.rows == if c.front then [c.row] + w.rows else w.rows + [c.row]
  {
    var w1 := Act(plan, w, Intend(c)).value;
    assert w1.rows == w.rows && Absent(w.rows, c.row.menu, c.row.comment);
    CreatedWhere(plan, w1, c);
  }

  lemma {:induction false} RestLeavesRows(plan: Plan, w: World, rest: seq<Action>)
    requires Completes(plan, w, rest) && forall k :: 0 <= k < |rest| ==> rest[k].IntendChange? || rest[k].Set?
    ensures Play(plan, w, rest, |rest|).rows == w.rows
    decreases |rest|
  {
    hide Changed, Before, SetAll, Recorded;
    if rest != [] { RestLeavesRows(plan, Act(plan, w, rest[0]).value, rest[1..]); }
  }

  lemma {:induction false} ChangesOnly(changes: seq<Change>)
    ensures forall k :: 0 <= k < |ChangeActions(changes)| ==> ChangeActions(changes)[k].IntendChange? || ChangeActions(changes)[k].Set?
  {
    if changes != [] { ChangesOnly(changes[1..]); }
  }

  /** After a completed attempt on a router without FireISP's rows, the rows of others stand between those created in front,
      the last created first, and those that were not, in the order of the plan. */
  lemma CompletedLayout(plan: Plan, w: World)
    requires Completes(plan, w, Script(plan)) && AllNew(w.rows, plan.creates)
    ensures Play(plan, w, Script(plan), |Script(plan)|).rows == Fronts(plan.creates) + w.rows + Backs(plan.creates)
  {
    hide AllNew;
    var actions := CreateActions(plan.creates) + ChangeActions(plan.changes);
    var script := Script(plan);
    assert script[1..] == [IntendHost] + actions && script[1..][1..] == actions;
    var w1 := Act(plan, w, PrepareHost).value;
    var w2 := Act(plan, w1, IntendHost).value;
    assert Play(plan, w, script, |script|) == Play(plan, w1, script[1..], |script| - 1);
    assert Play(plan, w1, script[1..], |script| - 1) == Play(plan, w2, actions, |actions|);
    ChangesOnly(plan.changes);
    CreatesLayOut(plan, w2, plan.creates, ChangeActions(plan.changes));
  }

  /** A row created in front comes before every row of others, and one that was not after them. */
  lemma FrontsComeFirst(plan: Plan, w: World, c: Create, k: nat)
    requires Completes(plan, w, Script(plan)) && AllNew(w.rows, plan.creates) && c in plan.creates && k < |w.rows|
    ensures var rows := Play(plan, w, Script(plan), |Script(plan)|).rows;
            exists i, j :: 0 <= i < |rows| && 0 <= j < |rows| && rows[i] == c.row && rows[j] == w.rows[k] && (i < j <==> c.front) && i != j
  {
    CompletedLayout(plan, w);
    var fronts, backs := Fronts(plan.creates), Backs(plan.creates);
    var rows := fronts + w.rows + backs;
    Placed(plan.creates, c);
    assert rows[|fronts| + k] == w.rows[k];
    if c.front {
      var i :| 0 <= i < |fronts| && fronts[i] == c.row;
      assert rows[i] == c.row;
    } else {
      var i :| 0 <= i < |backs| && backs[i] == c.row;
      assert rows[|fronts| + |w.rows| + i] == c.row;
    }
  }

  lemma {:induction false} Placed(creates: seq<Create>, c: Create)
    requires c in creates
    ensures if c.front then c.row in Fronts(creates) else c.row in Backs(creates)
  {
    if c != creates[0] {
      assert c in creates[1..];
      Placed(creates[1..], c);
    }
  }
}
