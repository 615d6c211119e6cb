/** Applying a plan to a router with a journal of intents, and undoing it
    (network/services.py, network/routeros.py). */
module Provisioning {
  import opened Common

  /** A resource of the router: its menu, its comment, which is how FireISP marks its own, its name. */
  datatype Row = Row(menu: string, comment: string, name: string, fields: string)

  datatype Setting = Setting(menu: string, key: string)

  type Settings = map<Setting, string>

  /** One call of `create`; `front` when it asks to be placed before the other rows. */
  datatype Create = Create(row: Row, front: bool)

  /** The wanted values of one menu of global settings. */
  datatype Change = Change(menu: string, wanted: map<string, string>)

  datatype Plan = Plan(creates: seq<Create>, changes: seq<Change>, rows: seq<Row>, settings: Settings)

  datatype Intent =
    | Host
    | Resource(menu: string, marker: string)
    | Global(menu: string, before: map<string, string>, after: map<string, string>)

  /** The router, the server side of it, and the journal of the job. */
  datatype World = World(rows: seq<Row>, settings: Settings, host: bool, journal: seq<Intent>)

  /* ---- the router ---- */

  predicate Has(row: Row, menu: string, marker: string) { row.menu == menu && row.comment == marker }

  /** `remove_managed`: drops every row of the menu that carries the marker. */
  function Without(rows: seq<Row>, menu: string, marker: string): seq<Row> {
    if rows == [] then []
    else (if Has(rows[0], menu, marker) then [] else [rows[0]]) + Without(rows[1..], menu, marker)
  }

  function Count(rows: seq<Row>, menu: string, marker: string): nat {
    if rows == [] then 0 else (if Has(rows[0], menu, marker) then 1 else 0) + Count(rows[1..], menu, marker)
  }

  /** `RouterOS.create`: adopts the row that carries the marker, or adds one; refuses a marker
      used twice and a name that is taken. */
  function Added(rows: seq<Row>, c: Create): Option<seq<Row>> {
    var count := Count(rows, c.row.menu, c.row.comment);
    if count > 1 then None
    else if count == 1 then Some(rows)
    else if c.row.name != "" && exists k :: 0 <= k < |rows| && rows[k].menu == c.row.menu && rows[k].name == c.row.name
    then None
    else Some(if c.front then [c.row] + rows else rows + [c.row])
  }

  /** Whether the settings of a menu have exactly these values. */
  predicate Equals(settings: Settings, menu: string, values: map<string, string>) {
    forall k :: k in values ==> Setting(menu, k) in settings && settings[Setting(menu, k)] == values[k]
  }

  function SetAll(settings: Settings, menu: string, values: map<string, string>): Settings {
    settings + map s | s in (set k | k in values :: Setting(menu, k)) :: values[s.key]
  }

  /* ---- apply ---- */

  predicate Marked(journal: seq<Intent>, marker: string) {
    exists j :: 0 <= j < |journal| && journal[j].Resource? && journal[j].marker == marker
  }

  predicate Recorded(journal: seq<Intent>, menu: string) {
    exists j :: 0 <= j < |journal| && journal[j].Global? && journal[j].menu == menu
  }

  /** The values of a menu that the plan has to change. */
  function Changed(settings: Settings, c: Change): map<string, string> {
    map k | k in c.wanted && !(Setting(c.menu, k) in settings && settings[Setting(c.menu, k)] == c.wanted[k]) :: c.wanted[k]
  }

  function Before(settings: Settings, c: Change): map<string, string>
    requires forall k :: k in Changed(settings, c) ==> Setting(c.menu, k) in settings
  {
    map k | k in Changed(settings, c) :: settings[Setting(c.menu, k)]
  }

  datatype Action = PrepareHost | IntendHost | Intend(create: Create) | Add(create: Create) | IntendChange(change: Change) | Set(change: Change)

  function CreateActions(creates: seq<Create>): seq<Action> {
    if creates == [] then [] else [Intend(creates[0]), Add(creates[0])] + CreateActions(creates[1..])
  }

  function ChangeActions(changes: seq<Change>): seq<Action> {
    if changes == [] then [] else [IntendChange(changes[0]), Set(changes[0])] + ChangeActions(changes[1..])
  }

  /** The durable effects of an attempt, in order: each is one database write or one remote command. */
  function Script(plan: Plan): seq<Action> {
    [PrepareHost, IntendHost] + (CreateActions(plan.creates) + ChangeActions(plan.changes))
  }

  /** One action, or nothing when it raises an error. */
  function Act(plan: Plan, w: World, a: Action): Option<World> {
    match a
    case PrepareHost => Some(w.(host := true))
    case IntendHost => Some(if Host in w.journal then w else w.(journal := w.journal + [Host]))
    case Intend(c) =>
      Some(if Marked(w.journal, c.row.comment) then w
           else w.(journal := w.journal + [Resource(c.row.menu, c.row.comment)]))
    case Add(c) =>
      var rows := Added(w.rows, c);
      if rows.None? then None else Some(w.(rows := rows.value))
    case IntendChange(c) =>
      var changed := Changed(plan.settings, c);
      if changed == map[] || Recorded(w.journal, c.menu) then Some(w)
      else if exists k :: k in changed && Setting(c.menu, k) !in plan.settings then None
      else Some(w.(journal := w.journal + [Global(c.menu, Before(plan.settings, c), changed)]))
    case Set(c) => Some(w.(settings := SetAll(w.settings, c.menu, Changed(plan.settings, c))))
  }

  /** The first `n` actions, up to the first that fails. */
  function Play(plan: Plan, w: World, actions: seq<Action>, n: nat): World
    decreases |actions|
  {
    if n == 0 || actions == [] then w
    else
      var r := Act(plan, w, actions[0]);
      if r.None? then w else Play(plan, r.value, actions[1..], n - 1)
  }

  /** `apply_plan` cut after `n` durable effects; it starts afresh only on the router it was reviewed for. */
  function Attempt(plan: Plan, w: World, n: nat): World {
    if w.journal == [] && (w.rows != plan.rows || w.settings != plan.settings) then w
    else Play(plan, w, Script(plan), n)
  }

  /* ---- rollback ---- */

  function UndoStep(w: World, i: Intent): World {
    match i
    case Host => w.(host := false)
    case Resource(menu, marker) => w.(rows := Without(w.rows, menu, marker))
    case Global(menu, before, after) =>
      if Equals(w.settings, menu, after) then w.(settings := SetAll(w.settings, menu, before)) else w
  }

  function UndoSteps(w: World, steps: seq<Intent>, n: nat): (r: World)
    ensures r.journal == w.journal
    decreases |steps|
  {
    if n == 0 || steps == [] then w else UndoSteps(UndoStep(w, steps[|steps| - 1]), steps[..|steps| - 1], n - 1)
  }

  /** `rollback` cut after `n` steps. */
  function Rollback(w: World, n: nat): World { UndoSteps(w, w.journal, n) }

  function Undone(w: World): World { Rollback(w, |w.journal|) }

  /* ---- runs ---- */

  datatype Event =
    | Apply(n: nat)
    | Undo(n: nat)
    | EditRows(rows: seq<Row>)
    | EditSetting(setting: Setting, value: string)

  /** A row that carries one of the plan's markers in its menu. */
  predicate Owned(plan: Plan, row: Row) {
    exists k :: 0 <= k < |plan.creates| && Has(row, plan.creates[k].row.menu, plan.creates[k].row.comment)
  }

  /** The rows that are not FireISP's, in their order. */
  function Unowned(plan: Plan, rows: seq<Row>): seq<Row> {
    if rows == [] then [] else (if Owned(plan, rows[0]) then [] else [rows[0]]) + Unowned(plan, rows[1..])
  }

  function OwnedRows(plan: Plan, rows: seq<Row>): seq<Row> {
    if rows == [] then [] else (if Owned(plan, rows[0]) then [rows[0]] else []) + OwnedRows(plan, rows[1..])
  }

  /** The operator edits rows that are not FireISP's, and any setting. */
  function Step(plan: Plan, w: World, e: Event): World {
    match e
    case Apply(n) => Attempt(plan, w, n)
    case Undo(n) => Rollback(w, n)
    case EditRows(rows) => if OwnedRows(plan, rows) == OwnedRows(plan, w.rows) then w.(rows := rows) else w
    case EditSetting(s, value) => w.(settings := w.settings[s := value])
  }

  function Run(plan: Plan, w: World, es: seq<Event>): World
    decreases |es|
  {
    if es == [] then w else Run(plan, Step(plan, w, es[0]), es[1..])
  }
}
