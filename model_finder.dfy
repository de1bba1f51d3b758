/**
 * The model finder: an ordered chain of resolution strategies that map a
 * model name (and the owning model of the current query, if any) to a model
 * class. The first strategy is the naming convention the finder is built
 * with; strategies added later are tried after it, in the order they were
 * added, and the first one that finds a class wins.
 */
module ModelFinding {
  import opened Wrappers

  /** Name of the trait that makes an Eloquent model soft-deletable. */
  const SoftDeletes: string := "Illuminate\\Database\\Eloquent\\SoftDeletes"

  /** A model class, described by its name and every trait it uses,
      including those inherited from parents and used by other traits. */
  datatype ModelClass = ModelClass(name: string, traits: set<string>)

  /** The query's own model, passed to strategies as a hint. */
  type Owner = Option<ModelClass>

  /** One way of finding a model class; None means "not found". */
  type Strategy = (string, Owner) -> Option<ModelClass>

  predicate UsesSoftDeletes(c: ModelClass)
  {
    SoftDeletes in c.traits
  }

  /** The result of the first strategy that finds a class, or None. */
  function FirstMatch(strategies: seq<Strategy>, name: string, owner: Owner): (r: Option<ModelClass>)
    ensures r.None? <==> forall i :: 0 <= i < |strategies| ==> strategies[i](name, owner).None?
    ensures r.Some? ==>
      exists i :: 0 <= i < |strategies| && strategies[i](name, owner) == r &&
        forall j :: 0 <= j < i ==> strategies[j](name, owner).None?
  {
    if strategies == [] then None
    else if strategies[0](name, owner).Some? then strategies[0](name, owner)
    else FirstMatch(strategies[1..], name, owner)
  }

  /** A strategy added to the end of the chain is consulted only when every
      strategy already there fails; it never overrides an earlier result. */
  lemma {:induction false} FirstMatchAppend(strategies: seq<Strategy>, s: Strategy, name: string, owner: Owner)
    ensures FirstMatch(strategies, name, owner).Some? ==>
      FirstMatch(strategies + [s], name, owner) == FirstMatch(strategies, name, owner)
    ensures FirstMatch(strategies, name, owner).None? ==>
      FirstMatch(strategies + [s], name, owner) == s(name, owner)
  {
    if strategies == [] {
      assert [] + [s] == [s];
    } else {
      assert (strategies + [s])[1..] == strategies[1..] + [s];
      FirstMatchAppend(strategies[1..], s, name, owner);
    }
  }

  class ModelFinder {
    /** The naming-convention strategy the finder starts with. */
    ghost const convention: Strategy
    var strategies: seq<Strategy>

    ghost predicate Valid()
      reads this
    {
      |strategies| >= 1 && strategies[0] == convention
    }

    constructor (convention: Strategy)
      ensures Valid()
      ensures this.convention == convention && strategies == [convention]
    {
      this.convention := convention;
      strategies := [convention];
    }

    /** Appends a custom strategy after every strategy already registered:
        every model the finder already found is still found the same way,
        and where it found none, the new strategy answers. */
    method AddToFinder(s: Strategy)
      requires Valid()
      modifies this
      ensures Valid()
      ensures strategies == old(strategies) + [s]
      ensures forall name, owner {:trigger FirstMatch(old(strategies), name, owner)} ::
        FirstMatch(old(strategies), name, owner).Some? ==>
          FirstMatch(strategies, name, owner) == FirstMatch(old(strategies), name, owner)
      ensures forall name, owner {:trigger FirstMatch(old(strategies), name, owner)} ::
        FirstMatch(old(strategies), name, owner).None? ==> FirstMatch(strategies, name, owner) == s(name, owner)
    {
      forall name, owner
        ensures FirstMatch(strategies, name, owner).Some? ==>
          FirstMatch(strategies + [s], name, owner) == FirstMatch(strategies, name, owner)
        ensures FirstMatch(strategies, name, owner).None? ==>
          FirstMatch(strategies + [s], name, owner) == s(name, owner)
      {
        FirstMatchAppend(strategies, s, name, owner);
      }
      strategies := strategies + [s];
    }

    /** Looks a model up; the naming convention wins whenever it finds a class. */
    function GetModel(name: string, owner: Owner): (r: Option<ModelClass>)
      reads this
      requires Valid()
      ensures convention(name, owner).Some? ==> r == convention(name, owner)
      ensures r.None? <==> forall i :: 0 <= i < |strategies| ==> strategies[i](name, owner).None?
    {
      FirstMatch(strategies, name, owner)
    }
  }
}
