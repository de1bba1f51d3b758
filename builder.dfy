/**
 * The Eloquent query builder that rewrites joins. It owns a model finder,
 * created with the builder and extended through AddToFinder, and the
 * string helpers and owning model its soft-delete check uses.
 */
module Eloquent {
  import opened Wrappers
  import opened ModelFinding
  import opened Naming
  import opened JoinRewrite

  class Builder {
    const inflector: Inflector
    const modelFinder: ModelFinder
    /** The query's own model, passed to the finder as the owner hint. */
    var model: Owner

    ghost predicate Valid()
      reads this, modelFinder
    {
      modelFinder.Valid()
    }

    /** A new builder with a finder holding only the naming convention. */
    constructor (inflector: Inflector, convention: Strategy)
      ensures Valid() && fresh(modelFinder)
      ensures this.inflector == inflector && model == None
      ensures modelFinder.convention == convention && modelFinder.strategies == [convention]
    {
      this.inflector := inflector;
      modelFinder := new ModelFinder(convention);
      model := None;
    }

    /** The host builder's setter for the query's model. */
    method SetModel(m: ModelClass)
      modifies this
      ensures model == Some(m)
    {
      model := Some(m);
    }

    method GetModelFinder() returns (finder: ModelFinder)
      ensures finder == modelFinder
    {
      finder := modelFinder;
    }

    /** Forwards to the finder: the strategy goes after all registered ones,
        changes no lookup that already succeeded, and answers the others. */
    method AddToFinder(s: Strategy)
      requires Valid()
      modifies modelFinder
      ensures Valid()
      ensures modelFinder.strategies == old(modelFinder.strategies) + [s]
      ensures forall name, owner {:trigger FirstMatch(old(modelFinder.strategies), name, owner)} ::
        FirstMatch(old(modelFinder.strategies), name, owner).Some? ==>
          FirstMatch(modelFinder.strategies, name, owner) == FirstMatch(old(modelFinder.strategies), name, owner)
      ensures forall name, owner {:trigger FirstMatch(old(modelFinder.strategies), name, owner)} ::
        FirstMatch(old(modelFinder.strategies), name, owner).None? ==>
          FirstMatch(modelFinder.strategies, name, owner) == s(name, owner)
    {
      modelFinder.AddToFinder(s);
    }

    /** The builder's soft-delete check, against its finder as it is now. */
    function SoftDeleteCheck(): (check: Table -> Option<bool>)
      reads this, modelFinder
      requires Valid()
      ensures forall t :: Truthy(check(t)) <==>
        var found := modelFinder.GetModel(StripZ(ModelName(inflector, t)), model);
        found.Some? && UsesSoftDeletes(found.value)
    {
      var strategies := modelFinder.strategies;
      var owner := model;
      var lookup: Strategy := (name, hint) => FirstMatch(strategies, name, hint);
      t => CheckSoftDelete(inflector, lookup, owner, t)
    }

    /** join on this builder: rewritten exactly when trashed rows are not
        wanted and the finder's first match for the normalised model name
        uses SoftDeletes. */
    function Join(t: Table, first: First, operator: Option<string> := None, second: Option<string> := None,
                  kind: string := "inner", where: bool := false, withTrash: bool := false): (r: JoinCall)
      reads this, modelFinder
      requires Valid()
      ensures r.table == t && r.kind == kind
      ensures r.condition.Built? <==>
        && !withTrash
        && var found := modelFinder.GetModel(StripZ(ModelName(inflector, t)), model);
           found.Some? && UsesSoftDeletes(found.value)
    {
      JoinRewrite.Join(SoftDeleteCheck(), t, first, operator, second, kind, where, withTrash)
    }

    function LeftJoin(t: Table, first: First, operator: Option<string> := None, second: Option<string> := None,
                      withTrash: bool := false): (r: JoinCall)
      reads this, modelFinder
      requires Valid()
      ensures r == Join(t, first, operator, second, "inner", false, withTrash).(kind := "left")
    {
      JoinRewrite.LeftJoin(SoftDeleteCheck(), t, first, operator, second, withTrash)
    }

    function RightJoin(t: Table, first: First, operator: Option<string> := None, second: Option<string> := None,
                       withTrash: bool := false): (r: JoinCall)
      reads this, modelFinder
      requires Valid()
      ensures r == Join(t, first, operator, second, "inner", false, withTrash).(kind := "right")
    {
      JoinRewrite.RightJoin(SoftDeleteCheck(), t, first, operator, second, withTrash)
    }
  }

  /** A soft-deletable model named after the joined table: the ON clause
      gains the table's deleted_at test. */
  lemma OrdersScenario(b: Builder)
    requires b.Valid()
    requires ModelName(b.inflector, Plain("orders")) == "Order"
    requires b.modelFinder.convention("Order", b.model) == Some(ModelClass("Order", {SoftDeletes}))
    ensures b.Join(Plain("orders"), Column("orders.id"), Some("="), Some("line_items.order_id")) ==
      JoinCall(Plain("orders"),
               Built(And(On(Column("orders.id"), Some("="), Some("line_items.order_id")), IsNull("orders.deleted_at"))),
               None, None, "inner", false)
    ensures b.LeftJoin(Plain("orders"), Column("orders.id"), Some("="), Some("line_items.order_id"), withTrash := true) ==
      JoinCall(Plain("orders"), Given(Column("orders.id")), Some("="), Some("line_items.order_id"), "left", false)
  {
    assert StripZ("Order") == "Order";
    assert b.modelFinder.GetModel("Order", b.model) == Some(ModelClass("Order", {SoftDeletes}));
    assert Truthy(b.SoftDeleteCheck()(Plain("orders")));
    assert TableText(Plain("orders")) + ".deleted_at" == "orders.deleted_at";
  }

  /** A table whose model name carries the 'Z' marker: the model found is
      the unmarked one, but the filter names the joined table itself. */
  lemma ZusersScenario(b: Builder)
    requires b.Valid()
    requires ModelName(b.inflector, Plain("zusers")) == "Zuser"
    requires b.modelFinder.convention("user", b.model) == Some(ModelClass("User", {SoftDeletes}))
    ensures b.Join(Plain("zusers"), Column("zusers.id"), Some("="), Some("posts.user_id"), "inner", false, false) ==
      JoinCall(Plain("zusers"),
               Built(And(On(Column("zusers.id"), Some("="), Some("posts.user_id")), IsNull("zusers.deleted_at"))),
               None, None, "inner", false)
  {
    assert StripZ("Zuser") == LTrim("user", 'Z') == "user";
    assert b.modelFinder.GetModel("user", b.model) == Some(ModelClass("User", {SoftDeletes}));
    assert Truthy(b.SoftDeleteCheck()(Plain("zusers")));
    assert TableText(Plain("zusers")) + ".deleted_at" == "zusers.deleted_at";
  }
}
