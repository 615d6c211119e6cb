/** What a rollback does to the global settings of a router, and to the server side of it. */
module ProvisioningSettings {
  import opened Common
  import opened Provisioning
  import opened ProvisioningUndo

  /** The intent that journals change `c`. */
  ghost predicate IsChange(plan: Plan, i: Intent, c: Change) {
    && (forall k :: k in Changed(plan.settings, c) ==> Setting(c.menu, k) in plan.settings)
    && i == Global(c.menu, Before(plan.settings, c), Changed(plan.settings, c))
  }

  ghost predicate MenusApart(plan: Plan) {
    forall j, k | 0 <= j < |plan.changes| && 0 <= k < |plan.changes| :: plan.changes[j].menu == plan.changes[k].menu ==> j == k
  }

  /** The journal's settings are changes of the plan, each once. */
  ghost predicate ChangesJournaled(plan: Plan, journal: seq<Intent>) {
    && (forall j :: 0 <= j < |journal| && journal[j].Global? ==> exists c :: c in plan.changes && IsChange(plan, journal[j], c))
    && Distinct(journal)
  }

  ghost predicate Distinct(journal: seq<Intent>) {
    forall j, k :: 0 <= j < k < |journal| && journal[j].Global? && journal[k].Global? ==> journal[j].menu != journal[k].menu
  }

  /** A journaled change is either not yet made, or made in full. */
  ghost predicate Whole(settings: Settings, i: Intent) {
    i.Global? ==> Equals(settings, i.menu, i.before) || Equals(settings, i.menu, i.after)
  }

  /** The settings of one menu are the same. */
  ghost predicate SameOn(a: Settings, b: Settings, menu: string) {
    forall s: Setting :: s.menu == menu ==> (s in a <==> s in b) && (s in a ==> a[s] == b[s])
  }

  /** In this menu nothing but journaled changes differs from what the plan was reviewed with. */
  ghost predicate OnlyJournaled(plan: Plan, w: World, menu: string) {
    forall s: Setting :: s.menu == menu ==>
      (s in w.settings <==> s in plan.settings)
      && (s in plan.settings && !Covered(w.journal, s) ==> w.settings[s] == plan.settings[s])
  }

  ghost predicate Covered(journal: seq<Intent>, s: Setting) {
    exists j :: 0 <= j < |journal| && journal[j].Global? && journal[j].menu == s.menu && s.key in journal[j].after
  }

  ghost predicate Kept(plan: Plan, w: World, menu: string) {
    && ChangesJournaled(plan, w.journal) && OnlyJournaled(plan, w, menu)
    && forall j :: 0 <= j < |w.journal| && w.journal[j].Global? && w.journal[j].menu == menu ==> Whole(w.settings, w.journal[j])
  }

  lemma SetAllGets(settings: Settings, menu: string, values: map<string, string>)
    ensures Equals(SetAll(settings, menu, values), menu, values)
    ensures forall s :: s in settings && !(s.menu == menu && s.key in values) ==>
              s in SetAll(settings, menu, values) && SetAll(settings, menu, values)[s] == settings[s]
    ensures forall s :: s in SetAll(settings, menu, values) ==> s in settings || (s.menu == menu && s.key in values)
    ensures settings.Keys <= SetAll(settings, menu, values).Keys
  {
  }

  lemma OtherMenu(settings: Settings, menu: string, values: map<string, string>, other: string, theirs: map<string, string>)
    requires menu != other
    ensures Equals(SetAll(settings, menu, values), other, theirs) <==> Equals(settings, other, theirs)
  {
    SetAllGets(settings, menu, values);
    var after := SetAll(settings, menu, values);
    forall k | k in theirs
      ensures Setting(other, k) in after <==> Setting(other, k) in settings
      ensures Setting(other, k) in settings ==> after[Setting(other, k)] == settings[Setting(other, k)]
    {
    }
  }

  /** Setting the keys of a journaled change to values it may have keeps everything else. */
  lemma SetKept(plan: Plan, w: World, j: nat, values: map<string, string>, menu: string)
    requires Kept(plan, w, menu) && j < |w.journal| && w.journal[j].Global?
    requires values == w.journal[j].before || values == w.journal[j].after
    ensures Kept(plan, w.(settings := SetAll(w.settings, w.journal[j].menu, values)), menu)
  {
    hide SetAll, Equals, IsChange;
    var i := w.journal[j];
    var w' := w.(settings := SetAll(w.settings, i.menu, values));
    SetAllGets(w.settings, i.menu, values);
    JournaledKeys(plan, w.journal, j);
    if i.menu == menu {
      SetOnlyJournaled(plan, w, j, values);
    } else {
      SameMenuKept(plan, w, w', menu);
    }
  }

  /** What leaves the journal and the settings of a menu alone. */
  lemma SameMenuKept(plan: Plan, w: World, w': World, menu: string)
    requires Kept(plan, w, menu) && w'.journal == w.journal && SameOn(w.settings, w'.settings, menu)
    ensures Kept(plan, w', menu)
  {
  }

  lemma SetOnlyJournaled(plan: Plan, w: World, j: nat, values: map<string, string>)
    requires j < |w.journal| && w.journal[j].Global? && values.Keys <= w.journal[j].after.Keys
    requires OnlyJournaled(plan, w, w.journal[j].menu)
    requires forall k :: k in w.journal[j].after ==> Setting(w.journal[j].menu, k) in plan.settings
    ensures OnlyJournaled(plan, w.(settings := SetAll(w.settings, w.journal[j].menu, values)), w.journal[j].menu)
  {
    hide SetAll;
    var i := w.journal[j];
    SetAllGets(w.settings, i.menu, values);
    forall s | s in SetAll(w.settings, i.menu, values) && s.menu == i.menu
      ensures s in plan.settings
    {
      assert s == Setting(s.menu, s.key);
    }
  }

  lemma JournaledKeys(plan: Plan, journal: seq<Intent>, j: nat)
    requires ChangesJournaled(plan, journal) && j < |journal| && journal[j].Global?
    ensures var i := journal[j];
            && i.before.Keys == i.after.Keys
            && (forall k :: k in i.after ==>
                  Setting(i.menu, k) in plan.settings && i.before[k] == plan.settings[Setting(i.menu, k)]
                                             && i.before[k] != i.after[k])
  {
    var c :| c in plan.changes && IsChange(plan, journal[j], c);
  }

  lemma CoveredAppend(journal: seq<Intent>, i: Intent, s: Setting)
    ensures Covered(journal, s) ==> Covered(journal + [i], s)
  {
    if Covered(journal, s) {
      var j :| 0 <= j < |journal| && journal[j].Global? && journal[j].menu == s.menu && s.key in journal[j].after;
      assert (journal + [i])[j] == journal[j];
    }
  }

  lemma IntendKept(plan: Plan, w: World, c: Change, menu: string)
    requires Kept(plan, w, menu) && c in plan.changes && !Recorded(w.journal, c.menu)
    requires forall k :: k in Changed(plan.settings, c) ==> Setting(c.menu, k) in plan.settings
    ensures Kept(plan, w.(journal := w.journal + [Global(c.menu, Before(plan.settings, c), Changed(plan.settings, c))]), menu)
  {
    hide Changed, Before, Covered, IsChange;
    var i := Global(c.menu, Before(plan.settings, c), Changed(plan.settings, c));
    var w' := w.(journal := w.journal + [i]);
    IsItsChange(plan, c);
    forall s | s in plan.settings
      ensures Covered(w.journal, s) ==> Covered(w'.journal, s)
    {
      CoveredAppend(w.journal, i, s);
    }
    if c.menu == menu { ReviewedValues(plan, w, c); }
  }

  lemma IsItsChange(plan: Plan, c: Change)
    requires forall k :: k in Changed(plan.settings, c) ==> Setting(c.menu, k) in plan.settings
    ensures IsChange(plan, Global(c.menu, Before(plan.settings, c), Changed(plan.settings, c)), c)
  {
  }

  /** Until it is journaled, a change of the plan is not made. */
  lemma ReviewedValues(plan: Plan, w: World, c: Change)
    requires OnlyJournaled(plan, w, c.menu) && !Recorded(w.journal, c.menu)
    requires forall k :: k in Changed(plan.settings, c) ==> Setting(c.menu, k) in plan.settings
    ensures Equals(w.settings, c.menu, Before(plan.settings, c))
  {
    hide Changed;
    forall k | k in Before(plan.settings, c)
      ensures Setting(c.menu, k) in w.settings && w.settings[Setting(c.menu, k)] == Before(plan.settings, c)[k]
    {
      assert !Covered(w.journal, Setting(c.menu, k));
    }
  }

  lemma ResourceKept(plan: Plan, w: World, i: Intent, menu: string)
    requires Kept(plan, w, menu) && !i.Global?
    ensures Kept(plan, w.(journal := w.journal + [i]), menu)
  {
    hide Changed, Equals;
    var w' := w.(journal := w.journal + [i]);
    forall s | s in plan.settings
      ensures Covered(w.journal, s) ==> Covered(w'.journal, s)
    {
      CoveredAppend(w.journal, i, s);
    }
  }

  lemma RecordedChange(plan: Plan, w: World, c: Change) returns (j: nat)
    requires ChangesJournaled(plan, w.journal) && MenusApart(plan) && c in plan.changes && Recorded(w.journal, c.menu)
    ensures j < |w.journal| && w.journal[j].Global? && w.journal[j].menu == c.menu
    ensures w.journal[j].after == Changed(plan.settings, c)
  {
    j :| 0 <= j < |w.journal| && w.journal[j].Global? && w.journal[j].menu == c.menu;
    var d :| d in plan.changes && IsChange(plan, w.journal[j], d);
    var m :| 0 <= m < |plan.changes| && plan.changes[m] == c;
    var n :| 0 <= n < |plan.changes| && plan.changes[n] == d;
    assert m == n;
  }

  lemma NothingChanged(w: World, menu: string)
    ensures SetAll(w.settings, menu, map[]) == w.settings
  {
  }

  lemma ActKept(plan: Plan, w: World, last: Option<Action>, a: Action, menu: string)
    requires Kept(plan, w, menu) && MenusApart(plan) && Act(plan, w, a).Some?
    requires a.IntendChange? || a.Set? ==> a.change in plan.changes
    requires (a.Set? ==> last == Some(IntendChange(a.change))) && Intended(plan, w.journal, last)
    ensures Kept(plan, Act(plan, w, a).value, menu)
  {
    assert ChangesJournaled(plan, w.journal);
    hide Kept, Changed, SetAll, Added, Recorded, Marked, MenusApart, ChangesJournaled;
    match a
    case IntendHost => if Host !in w.journal { ResourceKept(plan, w, Host, menu); }
    case Intend(c) =>
      if !Marked(w.journal, c.row.comment) { ResourceKept(plan, w, Resource(c.row.menu, c.row.comment), menu); }
    case IntendChange(c) =>
      if Changed(plan.settings, c) != map[] && !Recorded(w.journal, c.menu) { IntendKept(plan, w, c, menu); }
    case Set(c) =>
      if Changed(plan.settings, c) == map[] {
        NothingChanged(w, c.menu);
      } else {
        var j := RecordedChange(plan, w, c);
        SetKept(plan, w, j, w.journal[j].after, menu);
      }
    case Add(c) => SameMenuKept(plan, w, Act(plan, w, a).value, menu);
    case PrepareHost => SameMenuKept(plan, w, Act(plan, w, a).value, menu);
  }

  lemma {:induction false} PlayKept(plan: Plan, w: World, last: Option<Action>, actions: seq<Action>, n: nat, menu: string)
    requires Kept(plan, w, menu) && MenusApart(plan) && IntentFirst(plan, last, actions) && Intended(plan, w.journal, last)
    ensures Kept(plan, Play(plan, w, actions, n), menu)
    decreases |actions|
  {
    hide Kept, Act, MenusApart, Intended;
    if n > 0 && actions != [] && Act(plan, w, actions[0]).Some? {
      ActKept(plan, w, last, actions[0], menu);
      ActIntends(plan, w, actions[0]);
      PlayKept(plan, Act(plan, w, actions[0]).value, Some(actions[0]), actions[1..], n - 1, menu);
    }
  }

  lemma {:induction false} UndoKept(plan: Plan, w: World, m: nat, n: nat, menu: string)
    requires Kept(plan, w, menu) && m <= |w.journal|
    ensures Kept(plan, UndoSteps(w, w.journal[..m], n), menu)
    decreases m
  {
    hide Kept, SetAll, Equals;
    if n > 0 && m > 0 {
      var i := w.journal[m - 1];
      var w' := UndoStep(w, i);
      if i.Global? { SetKept(plan, w, m - 1, i.before, menu); } else { SameMenuKept(plan, w, w', menu); }
      assert w.journal[..m][..m - 1] == w.journal[..m - 1];
      UndoKept(plan, w', m - 1, n - 1, menu);
    }
  }

  /** The settings of a menu are those of the review, or differ only by journaled changes. */
  ghost predicate Tracked(plan: Plan, w: World, original: Settings, menu: string) {
    if w.journal == [] then SameOn(w.settings, original, menu)
    else SameOn(original, plan.settings, menu) && Kept(plan, w, menu)
  }

  lemma ReviewedKept(plan: Plan, w: World, menu: string)
    requires w.journal == [] && w.settings == plan.settings
    ensures Kept(plan, w, menu)
  {
  }

  lemma KeptEmpty(plan: Plan, w: World, menu: string)
    requires Kept(plan, w, menu) && w.journal == []
    ensures SameOn(w.settings, plan.settings, menu)
  {
    assert forall s :: s in plan.settings ==> !Covered(w.journal, s);
  }

  /** The operator edits no setting of this menu. */
  predicate Spares(e: Event, menu: string) { e.EditSetting? ==> e.setting.menu != menu }

  lemma StepTracked(plan: Plan, w: World, e: Event, original: Settings, menu: string)
    requires Tracked(plan, w, original, menu) && MenusApart(plan) && Spares(e, menu)
    ensures Tracked(plan, Step(plan, w, e), original, menu)
  {
    hide Kept, MenusApart, Play, Script, OwnedRows;
    match e
    case Apply(n) =>
      if w.journal != [] || (w.rows == plan.rows && w.settings == plan.settings) {
        if w.journal == [] { ReviewedKept(plan, w, menu); }
        ScriptIntendsFirst(plan);
        PlayKept(plan, w, None, Script(plan), n, menu);
        if Attempt(plan, w, n).journal == [] { KeptEmpty(plan, Attempt(plan, w, n), menu); }
      }
    case Undo(n) =>
      if w.journal != [] {
        UndoKept(plan, w, |w.journal|, n, menu);
        assert w.journal[..|w.journal|] == w.journal;
      }
    case EditRows(_) =>
      if w.journal != [] { SameMenuKept(plan, w, Step(plan, w, e), menu); }
    case EditSetting(_, _) =>
      if w.journal != [] { SameMenuKept(plan, w, Step(plan, w, e), menu); }
  }

  lemma {:induction false} RunTracked(plan: Plan, w: World, es: seq<Event>, original: Settings, menu: string)
    requires Tracked(plan, w, original, menu) && MenusApart(plan) && forall k :: 0 <= k < |es| ==> Spares(es[k], menu)
    ensures Tracked(plan, Run(plan, w, es), original, menu)
    decreases |es|
  {
    hide Tracked, Step, MenusApart, Spares;
    if es != [] {
      StepTracked(plan, w, es[0], original, menu);
      RunTracked(plan, Step(plan, w, es[0]), es[1..], original, menu);
    }
  }

  /* ---- a completed rollback ---- */

  /** The setting after a rollback of the steps: what was there before FireISP's change, if that
      change still stands, and what is there now otherwise. */
  lemma {:induction false} UndoneSetting(w: World, steps: seq<Intent>, j: nat)
    requires Distinct(steps) && j < |steps| && steps[j].Global? && steps[j].before.Keys == steps[j].after.Keys
    ensures var r := UndoSteps(w, steps, |steps|);
            if Equals(w.settings, steps[j].menu, steps[j].after) then Equals(r.settings, steps[j].menu, steps[j].before)
            else forall k :: k in steps[j].after && Setting(steps[j].menu, k) in w.settings ==>
                   Setting(steps[j].menu, k) in r.settings
                   && r.settings[Setting(steps[j].menu, k)] == w.settings[Setting(steps[j].menu, k)]
    decreases |steps|
  {
    hide Equals, SetAll;
    var last := steps[|steps| - 1];
    var w', rest := UndoStep(w, last), steps[..|steps| - 1];
    if j < |steps| - 1 {
      if last.Global? {
        assert last.menu != steps[j].menu;
        OtherMenu(w.settings, last.menu, last.before, steps[j].menu, steps[j].after);
        SetAllGets(w.settings, last.menu, last.before);
      }
      UndoneSetting(w', rest, j);
    } else {
      if Equals(w.settings, last.menu, last.after) { SetAllGets(w.settings, last.menu, last.before); }
      UndoElsewhere(w', rest, last.menu);
      SameMenu(w', UndoSteps(w', rest, |rest|), last.menu, last.before);
    }
  }

  /** Steps on other menus leave this one alone. */
  lemma {:induction false} UndoElsewhere(w: World, steps: seq<Intent>, menu: string)
    requires forall j :: 0 <= j < |steps| && steps[j].Global? ==> steps[j].menu != menu
    ensures forall s: Setting :: s.menu == menu && s in w.settings ==>
              s in UndoSteps(w, steps, |steps|).settings && UndoSteps(w, steps, |steps|).settings[s] == w.settings[s]
    decreases |steps|
  {
    hide Equals, SetAll;
    if steps != [] {
      var last := steps[|steps| - 1];
      if last.Global? { SetAllGets(w.settings, last.menu, last.before); }
      UndoElsewhere(UndoStep(w, last), steps[..|steps| - 1], menu);
    }
  }

  lemma SameMenu(w: World, w': World, menu: string, values: map<string, string>)
    requires forall s: Setting :: s.menu == menu && s in w.settings ==> s in w'.settings && w'.settings[s] == w.settings[s]
    ensures Equals(w.settings, menu, values) ==> Equals(w'.settings, menu, values)
  {
  }

  /** The settings a plan was reviewed with exist on the router, and its journal is planned. */
  ghost predicate Known(plan: Plan, w: World) { ChangesJournaled(plan, w.journal) && plan.settings.Keys <= w.settings.Keys }

  lemma ActKnown(plan: Plan, w: World, a: Action)
    requires Known(plan, w) && Act(plan, w, a).Some? && (a.IntendChange? ==> a.change in plan.changes)
    ensures Known(plan, Act(plan, w, a).value)
  {
    hide Changed, Added;
    if a.IntendChange? {
      var c := a.change;
      if Changed(plan.settings, c) != map[] && !Recorded(w.journal, c.menu) {
        assert IsChange(plan, Global(c.menu, Before(plan.settings, c), Changed(plan.settings, c)), c);
      }
    }
  }

  lemma {:induction false} PlayKnown(plan: Plan, w: World, last: Option<Action>, actions: seq<Action>, n: nat)
    requires Known(plan, w) && IntentFirst(plan, last, actions)
    ensures Known(plan, Play(plan, w, actions, n))
    decreases |actions|
  {
    hide Known, Act;
    if n > 0 && actions != [] && Act(plan, w, actions[0]).Some? {
      ActKnown(plan, w, actions[0]);
      PlayKnown(plan, Act(plan, w, actions[0]).value, Some(actions[0]), actions[1..], n - 1);
    }
  }

  lemma {:induction false} UndoKnown(plan: Plan, w: World, steps: seq<Intent>, n: nat)
    requires Known(plan, w)
    ensures Known(plan, UndoSteps(w, steps, n))
    decreases |steps|
  {
    hide ChangesJournaled, Equals;
    if n > 0 && steps != [] {
      UndoKnown(plan, UndoStep(w, steps[|steps| - 1]), steps[..|steps| - 1], n - 1);
    }
  }

  lemma {:induction false} RunKnown(plan: Plan, w: World, es: seq<Event>)
    requires Known(plan, w)
    ensures Known(plan, Run(plan, w, es))
    decreases |es|
  {
    hide ChangesJournaled, Play, Script, OwnedRows;
    if es != [] {
      match es[0] {
        case Apply(n) =>
          ScriptIntendsFirst(plan);
          PlayKnown(plan, w, None, Script(plan), n);
        case Undo(n) => UndoKnown(plan, w, w.journal, n);
        case EditRows(rows) =>
        case EditSetting(s, value) =>
      }
      RunKnown(plan, Step(plan, w, es[0]), es[1..]);
    }
  }

  /** At the end of any run, with any edits by the operator, a completed rollback preserves the
      settings of a menu exactly when they are no longer what FireISP set. */
  lemma OperatorSettingSurvives(plan: Plan, w: World, es: seq<Event>, j: nat)
    requires w.journal == [] && plan.settings.Keys <= w.settings.Keys
    requires j < |Run(plan, w, es).journal| && Run(plan, w, es).journal[j].Global?
    ensures var v := Run(plan, w, es);
            var i := v.journal[j];
            (forall k :: k in i.after ==> SameSetting(v, Undone(v), Setting(i.menu, k)))
            <==> (i.after == map[] || !Equals(v.settings, i.menu, i.after))
  {
    hide SetAll, Run, UndoSteps;
    RunKnown(plan, w, es);
    var v := Run(plan, w, es);
    var i := v.journal[j];
    var c :| c in plan.changes && IsChange(plan, i, c);
    UndoneSetting(v, v.journal, j);
    if i.after != map[] && Equals(v.settings, i.menu, i.after) {
      var k :| k in i.after;
      assert Undone(v).settings[Setting(i.menu, k)] == i.before[k];
      assert !SameSetting(v, Undone(v), Setting(i.menu, k));
    }
  }

  predicate SameSetting(w: World, w': World, s: Setting) {
    s in w.settings && s in w'.settings && w'.settings[s] == w.settings[s]
  }

  /** After any attempts and rollbacks, each cut anywhere, and whatever the operator edits in other menus,
      a completed rollback gives a menu back its original settings. */
  lemma UndoRestoresSettings(plan: Plan, w: World, es: seq<Event>, menu: string)
    requires MenusApart(plan) && w.journal == [] && forall k :: 0 <= k < |es| ==> Spares(es[k], menu)
    ensures SameOn(Undone(Run(plan, w, es)).settings, w.settings, menu)
  {
    hide Run, Kept, MenusApart;
    RunTracked(plan, w, es, w.settings, menu);
    var v := Run(plan, w, es);
    if v.journal != [] {
      UndoKept(plan, v, |v.journal|, |v.journal|, menu);
      assert v.journal[..|v.journal|] == v.journal;
      KeptUndone(plan, v, menu);
    }
  }

  lemma KeptUndone(plan: Plan, v: World, menu: string)
    requires Kept(plan, v, menu) && Kept(plan, Undone(v), menu)
    ensures SameOn(Undone(v).settings, plan.settings, menu)
  {
    hide SetAll, UndoSteps, Equals, IsChange;
    var r := Undone(v);
    forall s | s in plan.settings && s.menu == menu
      ensures r.settings[s] == plan.settings[s]
    {
      if Covered(v.journal, s) {
        var j :| 0 <= j < |v.journal| && v.journal[j].Global? && v.journal[j].menu == s.menu && s.key in v.journal[j].after;
        JournaledKeys(plan, v.journal, j);
        UndoneSetting(v, v.journal, j);
        RestoredValue(plan, v, r, j, s);
      }
    }
  }

  lemma RestoredValue(plan: Plan, v: World, r: World, j: nat, s: Setting)
    requires Kept(plan, v, s.menu) && j < |v.journal| && v.journal[j].Global? && v.journal[j].menu == s.menu && s.key in v.journal[j].after
    requires s in plan.settings && s in r.settings && s in v.settings
    requires var i := v.journal[j];
             && i.before.Keys == i.after.Keys && i.before[s.key] == plan.settings[s]
             && (if Equals(v.settings, i.menu, i.after) then Equals(r.settings, i.menu, i.before)
                 else forall k :: k in i.after && Setting(i.menu, k) in v.settings ==>
                        Setting(i.menu, k) in r.settings && r.settings[Setting(i.menu, k)] == v.settings[Setting(i.menu, k)])
    ensures r.settings[s] == plan.settings[s]
  {
    assert Whole(v.settings, v.journal[j]);
    assert s == Setting(s.menu, s.key);
  }

  /* ---- a menu that the operator edits as well ---- */

  /** FireISP's change of setting `s` is journaled, and the whole of it still stands. */
  predicate Stands(v: World, s: Setting) {
    exists j :: 0 <= j < |v.journal| && v.journal[j].Global? && v.journal[j].menu == s.menu && s.key in v.journal[j].after
                && Equals(v.settings, s.menu, v.journal[j].after)
  }

  /** At the end of any run, with any edits by the operator, a completed rollback gives a setting its reviewed
      value when every value that FireISP set in its menu still stands, and otherwise leaves it as it is: of an
      edited menu either all that FireISP changed comes back, or nothing does. */
  lemma UndoneExactly(plan: Plan, w: World, es: seq<Event>, s: Setting)
    requires w.journal == [] && plan.settings.Keys <= w.settings.Keys
    requires s in Run(plan, w, es).settings
    ensures var v := Run(plan, w, es);
            && s in Undone(v).settings
            && (Stands(v, s) ==> s in plan.settings)
            && Undone(v).settings[s] == if Stands(v, s) then plan.settings[s] else v.settings[s]
  {
    hide SetAll, Run, UndoSteps, Equals, IsChange;
    RunKnown(plan, w, es);
    var v := Run(plan, w, es);
    assert s == Setting(s.menu, s.key);
    if Covered(v.journal, s) {
      var j :| 0 <= j < |v.journal| && v.journal[j].Global? && v.journal[j].menu == s.menu && s.key in v.journal[j].after;
      JournaledKeys(plan, v.journal, j);
      UndoneSetting(v, v.journal, j);
      assert Stands(v, s) <==> Equals(v.settings, s.menu, v.journal[j].after);
      if Stands(v, s) { EqualsAt(Undone(v).settings, s, v.journal[j].before); }
    } else {
      forall j | 0 <= j < |v.journal| && v.journal[j].Global?
        ensures v.journal[j].before.Keys == v.journal[j].after.Keys
      {
        JournaledKeys(plan, v.journal, j);
      }
      UncoveredStays(v, v.journal, s);
    }
  }

  lemma EqualsAt(settings: Settings, s: Setting, values: map<string, string>)
    requires Equals(settings, s.menu, values) && s.key in values
    ensures s in settings && settings[s] == values[s.key]
  {
    assert s == Setting(s.menu, s.key);
  }

  /** A rollback touches no setting that is not journaled. */
  lemma {:induction false} UncoveredStays(w: World, steps: seq<Intent>, s: Setting)
    requires s in w.settings && !Covered(steps, s)
    requires forall j :: 0 <= j < |steps| && steps[j].Global? ==> steps[j].before.Keys == steps[j].after.Keys
    ensures s in UndoSteps(w, steps, |steps|).settings && UndoSteps(w, steps, |steps|).settings[s] == w.settings[s]
    decreases |steps|
  {
    hide SetAll, Equals;
    if steps != [] {
      var last := steps[|steps| - 1];
      if last.Global? { SetAllGets(w.settings, last.menu, last.before); }
      assert forall j :: 0 <= j < |steps| - 1 ==> steps[..|steps| - 1][j] == steps[j];
      UncoveredStays(UndoStep(w, last), steps[..|steps| - 1], s);
    }
  }

  const AAA := "/ppp/aaa"

  const UseRadius := Setting(AAA, "use-radius")
  const Accounting := Setting(AAA, "accounting")

  function Both(a: string, b: string): map<string, string> { map["use-radius" := a, "accounting" := b] }

  function BothSet(a: string, b: string): Settings { map[UseRadius := a, Accounting := b] }

  /** A plan that turns both values of the menu on. */
  function TurnOn(rows: seq<Row>): Plan { Plan([], [Change(AAA, Both("yes", "yes"))], rows, BothSet("no", "no")) }

  /** FireISP sets both values of the menu; the operator resets one; the other is left behind. */
  lemma SiblingIsLeftBehind(rows: seq<Row>)
    ensures var v := Run(TurnOn(rows), World(rows, BothSet("no", "no"), false, []), [Apply(4), EditSetting(Accounting, "no")]);
            Undone(v).settings == BothSet("yes", "no")
  {
    var plan, w := TurnOn(rows), World(rows, BothSet("no", "no"), false, []);
    var journal := [Host, Global(AAA, Both("no", "no"), Both("yes", "yes"))];
    var w3 := World(rows, BothSet("yes", "yes"), true, journal);
    var v := World(rows, BothSet("yes", "no"), true, journal);
    TurnedOn(rows);
    assert Step(plan, w3, EditSetting(Accounting, "no")) == v;
    hide Step;
    var es := [Apply(4), EditSetting(Accounting, "no")];
    assert es[1..] == [EditSetting(Accounting, "no")] && es[1..][1..] == [];
    assert Run(plan, w, es) == Run(plan, w3, es[1..]) && Run(plan, w3, es[1..]) == v;
    NothingComesBack(v);
  }

  lemma NothingComesBack(v: World)
    requires v.journal == [Host, Global(AAA, Both("no", "no"), Both("yes", "yes"))] && v.settings == BothSet("yes", "no")
    ensures Undone(v).settings == v.settings
  {
    assert v.settings[Setting(AAA, "accounting")] != Both("yes", "yes")["accounting"];
    assert !Equals(v.settings, AAA, Both("yes", "yes"));
    assert v.journal[..1] == [Host] && [Host][..0] == [];
    assert UndoSteps(v, v.journal, 2) == UndoSteps(v, [Host], 1);
  }

  lemma TurnedOn(rows: seq<Row>)
    ensures Step(TurnOn(rows), World(rows, BothSet("no", "no"), false, []), Apply(4))
            == World(rows, BothSet("yes", "yes"), true, [Host, Global(AAA, Both("no", "no"), Both("yes", "yes"))])
  {
    var plan, w := TurnOn(rows), World(rows, BothSet("no", "no"), false, []);
    var change := Change(AAA, Both("yes", "yes"));
    var w1 := World(rows, BothSet("no", "no"), true, [Host]);
    var w2 := w1.(journal := [Host, Global(AAA, Both("no", "no"), Both("yes", "yes"))]);
    var w3 := w2.(settings := BothSet("yes", "yes"));
    TurnsOnBoth();
    hide Changed, Before, SetAll;
    assert "use-radius" in Both("yes", "yes");
    assert w1.journal + [w2.journal[1]] == w2.journal;
    assert Act(plan, w1, IntendChange(change)) == Some(w2);
    assert Act(plan, w2, Set(change)) == Some(w3);
    assert [change][1..] == [] && ChangeActions([change]) == [IntendChange(change), Set(change)];
    SetsBoth(plan, w, change, w1, w2, w3);
  }

  lemma TurnsOnBoth()
    ensures var change := Change(AAA, Both("yes", "yes"));
            && Changed(BothSet("no", "no"), change) == Both("yes", "yes")
            && (forall k :: k in Both("yes", "yes") ==> Setting(AAA, k) in BothSet("no", "no"))
            && Before(BothSet("no", "no"), change) == Both("no", "no")
            && SetAll(BothSet("no", "no"), AAA, Both("yes", "yes")) == BothSet("yes", "yes")
  {
    var change := Change(AAA, Both("yes", "yes"));
    assert "use-radius"[0] != "accounting"[0];
    assert Changed(BothSet("no", "no"), change) == Both("yes", "yes");
    assert Before(BothSet("no", "no"), change) == Both("no", "no");
  }

  /** The four effects of the attempt. */
  lemma SetsBoth(plan: Plan, w: World, change: Change, w1: World, w2: World, w3: World)
    requires Script(plan) == [PrepareHost, IntendHost, IntendChange(change), Set(change)]
    requires w.journal == [] && w.rows == plan.rows && w.settings == plan.settings
    requires w1 == w.(host := true, journal := [Host])
    requires Act(plan, w1, IntendChange(change)) == Some(w2) && Act(plan, w2, Set(change)) == Some(w3)
    ensures Step(plan, w, Apply(4)) == w3
  {
    var script := Script(plan);
    var w0 := w.(host := true);
    assert Act(plan, w, PrepareHost) == Some(w0);
    assert Act(plan, w0, IntendHost) == Some(w1) by { assert [] + [Host] == [Host]; }
    hide Act;
    assert script[1..] == [IntendHost, IntendChange(change), Set(change)];
    assert script[1..][1..] == [IntendChange(change), Set(change)];
    assert script[1..][1..][1..] == [Set(change)];
    assert Play(plan, w, script, 4) == Play(plan, w0, script[1..], 3);
    assert Play(plan, w0, script[1..], 3) == Play(plan, w1, script[1..][1..], 2);
    assert Play(plan, w1, script[1..][1..], 2) == Play(plan, w2, script[1..][1..][1..], 1);
    assert Play(plan, w2, [Set(change)], 1) == Play(plan, w3, [Set(change)][1..], 0);
  }

  /* ---- the server side ---- */

  /** The server side is prepared before its intent is journaled: it survives a completed
      rollback exactly when the first attempt was cut between the two. */
  lemma HostSurvivesOneCut(plan: Plan, w: World, n: nat)
    requires w.journal == [] && !w.host && w.rows == plan.rows && w.settings == plan.settings
    ensures Undone(Attempt(plan, w, n)).host <==> n == 1
  {
    var script := Script(plan);
    var tail := CreateActions(plan.creates) + ChangeActions(plan.changes);
    assert script[1..] == [IntendHost] + tail && script[1..][1..] == tail;
    var w1 := w.(host := true);
    if n == 0 {
      assert Undone(w) == w;
    } else if n == 1 {
      assert Play(plan, w1, script[1..], 0) == w1;
      assert Attempt(plan, w, 1) == w1 && Undone(w1) == w1;
    } else {
      var w2 := w1.(journal := [Host]);
      assert w1.journal + [Host] == [Host];
      assert Play(plan, w, script, n) == Play(plan, w1, script[1..], n - 1);
      assert Act(plan, w1, IntendHost) == Some(w2);
      assert Play(plan, w1, script[1..], n - 1) == Play(plan, w2, tail, n - 2);
      assert Attempt(plan, w, n) == Play(plan, w2, tail, n - 2);
      PlayKeepsHost(plan, w2, tail, n - 2);
      HostUndone(Attempt(plan, w, n), Attempt(plan, w, n).journal);
    }
  }

  lemma {:induction false} PlayKeepsHost(plan: Plan, w: World, actions: seq<Action>, n: nat)
    requires Host in w.journal
    ensures Host in Play(plan, w, actions, n).journal
    decreases |actions|
  {
    if n > 0 && actions != [] && Act(plan, w, actions[0]).Some? {
      ActIntends(plan, w, actions[0]);
      PlayKeepsHost(plan, Act(plan, w, actions[0]).value, actions[1..], n - 1);
    }
  }

  lemma {:induction false} HostUndone(w: World, steps: seq<Intent>)
    ensures UndoSteps(w, steps, |steps|).host <==> w.host && Host !in steps
    decreases |steps|
  {
    if steps != [] {
      HostUndone(UndoStep(w, steps[|steps| - 1]), steps[..|steps| - 1]);
      assert steps == steps[..|steps| - 1] + [steps[|steps| - 1]];
    }
  }

  /** A journal begins with the server side. */
  ghost predicate HostFirst(w: World) { w.journal != [] ==> Host in w.journal }

  lemma AttemptHostFirst(plan: Plan, w: World, n: nat)
    requires HostFirst(w)
    ensures HostFirst(Attempt(plan, w, n))
  {
    var tail := CreateActions(plan.creates) + ChangeActions(plan.changes);
    var script := Script(plan);
    if w.journal != [] {
      PlayKeepsHost(plan, w, script, n);
    } else if n > 1 && w.rows == plan.rows && w.settings == plan.settings {
      assert script[1..] == [IntendHost] + tail && script[1..][1..] == tail;
      var w1 := w.(host := true);
      var w2 := w1.(journal := [] + [Host]);
      assert Play(plan, w, script, n) == Play(plan, w1, script[1..], n - 1);
      assert Act(plan, w1, IntendHost) == Some(w2);
      assert Play(plan, w1, script[1..], n - 1) == Play(plan, w2, tail, n - 2);
      PlayKeepsHost(plan, w2, tail, n - 2);
    } else if n == 1 && w.rows == plan.rows && w.settings == plan.settings {
      assert Play(plan, w.(host := true), script[1..], 0) == w.(host := true);
    }
  }

  lemma {:induction false} RunHostFirst(plan: Plan, w: World, es: seq<Event>)
    requires HostFirst(w)
    ensures HostFirst(Run(plan, w, es))
    decreases |es|
  {
    hide Attempt, OwnedRows, UndoSteps;
    if es != [] {
      if es[0].Apply? { AttemptHostFirst(plan, w, es[0].n); }
      RunHostFirst(plan, Step(plan, w, es[0]), es[1..]);
    }
  }

  /** Over every run the server side survives a completed rollback exactly when it is prepared and not
      journaled; from a fresh job, exactly when it is prepared and nothing at all is journaled. */
  lemma HostSurvivesExactlyWhen(plan: Plan, w: World, es: seq<Event>)
    ensures var v := Run(plan, w, es);
            && (Undone(v).host <==> v.host && Host !in v.journal)
            && (w.journal == [] ==> (Undone(v).host <==> v.host && v.journal == []))
  {
    hide Run, UndoSteps;
    var v := Run(plan, w, es);
    HostUndone(v, v.journal);
    if w.journal == [] { RunHostFirst(plan, w, es); }
  }
}
