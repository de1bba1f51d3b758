/**
 * The join rewriter: a join against a table whose model is soft-deletable
 * is narrowed to rows whose deleted_at column is NULL, unless the caller
 * asked for trashed rows too. The joins it hands on to the host query
 * builder are modelled as data.
 */
module JoinRewrite {
  import opened Wrappers
  import opened ModelFinding
  import opened Naming

  /** The first join argument: a column, or a closure the caller supplies
      to build the clause itself (identified, its body being opaque). */
  datatype First = Column(name: string) | Callback(id: nat)

  /** A join clause. On compares two columns (or nests a callback's clause),
      Where compares a column with a value, IsNull tests a column for NULL. */
  datatype Clause =
    | On(first: First, operator: Option<string>, second: Option<string>)
    | Where(first: First, operator: Option<string>, value: Option<string>)
    | And(left: Clause, right: Clause)
    | IsNull(column: string)

  /** What the join hands on as its second argument: the caller's own first
      argument, or a closure of its own building the given clause. */
  datatype Condition = Given(first: First) | Built(clause: Clause)

  /** One call of the host builder's join. */
  datatype JoinCall = JoinCall(
    table: Table,
    condition: Condition,
    operator: Option<string>,
    second: Option<string>,
    kind: string,
    where: bool)

  /** The clause the host builds for a join call: the caller's closure, a
      column comparison, or (for a where join) a value comparison; for a
      closure of ours, the clause it builds. */
  function HostClause(c: JoinCall): Clause
  {
    match c.condition
    case Given(first) => if c.where then Where(first, c.operator, c.second) else On(first, c.operator, c.second)
    case Built(clause) => clause
  }

  /** An interpretation of the atomic conditions on one candidate row pair. */
  datatype Row = Row(
    columns: (string, Option<string>, Option<string>) -> bool,
    values: (string, Option<string>, Option<string>) -> bool,
    callbacks: nat -> bool,
    isNull: string -> bool)

  function Atom(first: First, operator: Option<string>, second: Option<string>,
                compare: (string, Option<string>, Option<string>) -> bool, row: Row): bool
  {
    match first
    case Callback(id) => row.callbacks(id)
    case Column(name) => compare(name, operator, second)
  }

  /** Whether a row pair satisfies a clause. */
  function Holds(c: Clause, row: Row): bool
  {
    match c
    case On(first, operator, second) => Atom(first, operator, second, row.columns, row)
    case Where(first, operator, value) => Atom(first, operator, value, row.values, row)
    case And(left, right) => Holds(left, row) && Holds(right, row)
    case IsNull(column) => row.isNull(column)
  }

  /** PHP truthiness of checkSoftDelete's result (null is falsy). */
  predicate Truthy(b: Option<bool>)
  {
    b == Some(true)
  }

  /**
   * checkSoftDelete: the normalised model name is looked up with the owner
   * hint; a found class decides by its traits, and when the first lookup
   * finds nothing it is repeated once before giving up with None.
   */
  function CheckSoftDelete(inflector: Inflector, lookup: Strategy, owner: Owner, t: Table): (r: Option<bool>)
    ensures var found := lookup(StripZ(ModelName(inflector, t)), owner);
      Truthy(r) <==> found.Some? && SoftDeletes in found.value.traits
    ensures r.None? <==> lookup(StripZ(ModelName(inflector, t)), owner).None?
  {
    var model := StripZ(ModelName(inflector, t));
    match lookup(model, owner)
    case Some(found) => Some(UsesSoftDeletes(found))
    case None =>
      match lookup(model, owner)
      case Some(again) => Some(UsesSoftDeletes(again))
      case None => None
  }

  /** The repeated lookup can only repeat the first. This is the closed form
      of CheckSoftDelete's ensures: the capability of the single class one
      lookup finds, None if it finds none. */
  lemma CheckSoftDeleteSingleLookup(inflector: Inflector, lookup: Strategy, owner: Owner, t: Table)
    ensures var found := lookup(StripZ(ModelName(inflector, t)), owner);
      CheckSoftDelete(inflector, lookup, owner, t) ==
        if found.Some? then Some(UsesSoftDeletes(found.value)) else None
  {
  }

  /** Two tables whose model names differ only by a leading 'Z' get the
      same answer. */
  lemma CheckSoftDeleteIgnoresZ(inflector: Inflector, lookup: Strategy, owner: Owner, t: Table, u: Table)
    requires ModelName(inflector, t) == ['Z'] + ModelName(inflector, u)
    ensures CheckSoftDelete(inflector, lookup, owner, t) == CheckSoftDelete(inflector, lookup, owner, u)
  {
    StripZPrefix(ModelName(inflector, u));
  }

  /** The join the caller asked for, handed on as it is. */
  function Forward(t: Table, first: First, operator: Option<string>, second: Option<string>,
                   kind: string, where: bool): JoinCall
  {
    JoinCall(t, Given(first), operator, second, kind, where)
  }

  /**
   * join: unless trashed rows are not wanted and the table's model is
   * soft-deletable, the join is forwarded unchanged; otherwise a single join
   * of the same kind is emitted whose clause adds "table.deleted_at IS NULL"
   * to the ON comparison of the caller's arguments. The filter column is
   * qualified by the joined table's own text, not by the model name derived
   * from it. The check is consulted only when trashed rows are not wanted.
   */
  function Join(softDeletable: Table -> Option<bool>, t: Table, first: First, operator: Option<string> := None,
                second: Option<string> := None, kind: string := "inner", where: bool := false,
                withTrash: bool := false): (r: JoinCall)
    ensures r.table == t && r.kind == kind
  {
    if !withTrash && Truthy(softDeletable(t)) then
      JoinCall(t, Built(And(On(first, operator, second), IsNull(TableText(t) + ".deleted_at"))), None, None, kind, false)
    else
      Forward(t, first, operator, second, kind, where)
  }

  /** leftJoin: join with the kind fixed to "left" and no where flag. */
  function LeftJoin(softDeletable: Table -> Option<bool>, t: Table, first: First, operator: Option<string> := None,
                    second: Option<string> := None, withTrash: bool := false): (r: JoinCall)
    ensures r.kind == "left" && r.table == t && !r.where
    ensures r == Join(softDeletable, t, first, operator, second, "inner", false, withTrash).(kind := "left")
  {
    Join(softDeletable, t, first, operator, second, "left", false, withTrash)
  }

  /** rightJoin: join with the kind fixed to "right" and no where flag. */
  function RightJoin(softDeletable: Table -> Option<bool>, t: Table, first: First, operator: Option<string> := None,
                     second: Option<string> := None, withTrash: bool := false): (r: JoinCall)
    ensures r.kind == "right" && r.table == t && !r.where
    ensures r == Join(softDeletable, t, first, operator, second, "inner", false, withTrash).(kind := "right")
  {
    Join(softDeletable, t, first, operator, second, "right", false, withTrash)
  }

  /** With trashed rows wanted, the caller's join is forwarded unchanged and
      the check is not consulted. */
  lemma WithTrashForwardsUnchanged(softDeletable: Table -> Option<bool>, t: Table, first: First,
                                   operator: Option<string>, second: Option<string>, kind: string, where: bool)
    ensures Join(softDeletable, t, first, operator, second, kind, where, true) ==
      Forward(t, first, operator, second, kind, where)
    ensures forall other: Table -> Option<bool> {:trigger Join(other, t, first, operator, second, kind, where, true)} ::
      Join(other, t, first, operator, second, kind, where, true) ==
        Join(softDeletable, t, first, operator, second, kind, where, true)
  {
  }

  /** The join is rewritten exactly when trashed rows are not wanted and the
      check is truthy; a false or null check forwards the join unchanged. */
  lemma RewriteExactlyWhenSoftDeletable(softDeletable: Table -> Option<bool>, t: Table, first: First,
                                        operator: Option<string>, second: Option<string>, kind: string,
                                        where: bool, withTrash: bool)
    ensures var r := Join(softDeletable, t, first, operator, second, kind, where, withTrash);
      (r == Forward(t, first, operator, second, kind, where)) <==> (withTrash || !Truthy(softDeletable(t)))
    ensures var r := Join(softDeletable, t, first, operator, second, kind, where, withTrash);
      !withTrash && Truthy(softDeletable(t)) ==>
        && r.condition == Built(And(On(first, operator, second), IsNull(TableText(t) + ".deleted_at")))
        && r.operator == None && r.second == None && !r.where
  {
  }

  /** Who the filter is keyed on: a rewritten join of a table tests that
      table's own deleted_at column, whatever model name it maps to. */
  lemma FilterNamesLiteralTable(inflector: Inflector, lookup: Strategy, owner: Owner,
                                                   t: Table, first: First, operator: Option<string>,
                                                   second: Option<string>, kind: string, where: bool)
    requires Truthy(CheckSoftDelete(inflector, lookup, owner, t))
    ensures var r := Join(u => CheckSoftDelete(inflector, lookup, owner, u), t, first, operator, second, kind, where, false);
      r.condition.Built? && r.condition.clause.right == IsNull(TableText(t) + ".deleted_at")
  {
  }

  /**
   * The rewrite only ever narrows a column join: a row pair passes the
   * emitted join iff it passes the caller's join and, when the join was
   * rewritten, its deleted_at column is NULL.
   */
  lemma RewriteNarrowsOnly(softDeletable: Table -> Option<bool>, t: Table, first: First,
                                              operator: Option<string>, second: Option<string>, kind: string,
                                              where: bool, withTrash: bool, row: Row)
    requires !where || first.Callback?
    ensures var r := Join(softDeletable, t, first, operator, second, kind, where, withTrash);
      Holds(HostClause(r), row) <==>
        && Holds(HostClause(Forward(t, first, operator, second, kind, where)), row)
        && (!withTrash && Truthy(softDeletable(t)) ==> row.isNull(TableText(t) + ".deleted_at"))
  {
    var r := Join(softDeletable, t, first, operator, second, kind, where, withTrash);
    var original := HostClause(Forward(t, first, operator, second, kind, where));
    if !withTrash && Truthy(softDeletable(t)) {
      assert HostClause(r) == And(On(first, operator, second), IsNull(TableText(t) + ".deleted_at"));
      assert Holds(On(first, operator, second), row) == Holds(original, row);
    } else {
      assert r == Forward(t, first, operator, second, kind, where);
    }
  }

  /**
   * A where join (second is a value) against a soft-deletable table is
   * rewritten into a column comparison: the emitted clause compares with
   * a column named by the value instead of the value.
   */
  lemma WhereJoinBecomesColumnJoin(softDeletable: Table -> Option<bool>, t: Table, column: string,
                                   operator: Option<string>, value: Option<string>, kind: string)
    requires Truthy(softDeletable(t))
    ensures HostClause(Forward(t, Column(column), operator, value, kind, true)) == Where(Column(column), operator, value)
    ensures HostClause(Join(softDeletable, t, Column(column), operator, value, kind, true, false)) ==
      And(On(Column(column), operator, value), IsNull(TableText(t) + ".deleted_at"))
  {
  }
}
