# Soft-delete-aware joins for Eloquent, in Dafny

This project models the join-rewriting query builder of laravel-softdelete-fixer.
The builder is an Eloquent query builder whose `join`, `leftJoin` and `rightJoin` look up
the model that owns the joined table. When that model uses the `SoftDeletes` trait, the
join's ON clause gets an extra `<table>.deleted_at IS NULL` test, unless the caller asked
for trashed rows (`withTrash`).

Modules:

- `Wrappers`: `Option`, standing in for PHP's nullable results.
- `ModelFinding`: the model finder as a chain of resolution strategies (`Strategy`,
  a function from model name and owner hint to an optional `ModelClass`). `FirstMatch` is
  the first-match lookup. The class `ModelFinder` holds the strategy sequence; its
  constructor takes the naming-convention strategy and `AddToFinder` appends to it.
- `Naming`: a `Table` is a plain name or a raw expression already rendered to text.
  `ModelName` is `studly(singular(text))`; the two helpers are function-valued fields of an
  `Inflector`. `LTrim` is PHP's `ltrim` with a one-character list, and `StripZ` is the
  `str_starts_with(…, 'Z') ? ltrim(…, 'Z') : …` normalisation.
- `JoinRewrite`: `CheckSoftDelete` (two identical lookups, `None` for PHP's `null`), and
  `Join`, `LeftJoin`, `RightJoin`. These take the soft-delete check as an oracle
  `Table -> Option<bool>` and return the one `JoinCall` they hand to the host builder, as
  data. `Clause` is the ON clause that call builds, and `Holds` evaluates a clause under an
  interpretation `Row` of its atoms. That is the basis of the "only ever narrows" lemma.
- `Eloquent`: the class `Builder` holds the inflector, the finder (a `const`, assigned
  once by the constructor, as line 27 does) and the query's own model, which is the owner
  hint. `SoftDeleteCheck` binds `CheckSoftDelete` to the finder's current strategies.
  `Join`, `LeftJoin` and `RightJoin` are the builder's join family. `SetModel` stands for the
  host builder's `setModel`, which gives the owner hint a value; it is part of the host, not
  of this source.

Notes on behaviour the model keeps from the code:

- The rewritten join always uses `->on($first, $operator, $second)` and calls the host join
  with `where` false. So a where-style join, where `second` is a value, becomes a column
  comparison on rewrite. `JoinRewrite.WhereJoinBecomesColumnJoin` states this.
  `JoinRewrite.RewriteNarrowsOnly` ("the rewrite only adds the deleted_at test") therefore
  holds for column joins and callback joins only.
- `ltrim` leaves the rest of the name as it is, in the same case: the derived name `Zuser`
  is looked up as `user`, not `User` (`Eloquent.ZusersScenario`).
- The deleted-at column is qualified with the joined table's own text, never with the
  derived model name.
- The second lookup in `checkSoftDelete` repeats the first with the same inputs. For a
  finder that is deterministic and never throws, as strategies are modelled here, it can only
  give the same answer (`JoinRewrite.CheckSoftDeleteSingleLookup`).
- The join family's parameters keep the source's defaults: operator and second null, kind
  "inner", where false and withTrash false (`leftJoin` and `rightJoin` take only the
  defaults of operator, second and withTrash).
- All functions are deterministic, so repeating a lookup or a join with the same finder
  state gives the same result.

## Model

| member | source | states |
|---|---|---|
| `ModelFinding.FirstMatch` | Eloquent/Builder.php:77 | The lookup is None iff every strategy fails. Otherwise it is the result of some strategy that found a class, and every strategy before that one failed. |
| `ModelFinding.FirstMatchAppend` | Eloquent/Builder.php:60-63 | A strategy appended to the chain never changes a lookup that already found a class. Where the old chain found nothing, the lookup gives the new strategy's answer. |
| `ModelFinding.ModelFinder.constructor` | Eloquent/Builder.php:27 | A new finder holds exactly its naming-convention strategy. |
| `ModelFinding.ModelFinder.AddToFinder` | Eloquent/Builder.php:60-63 | The strategy goes after all registered ones and nothing else changes. Every model found before is still found the same way; where nothing was found, the new strategy answers. |
| `ModelFinding.ModelFinder.GetModel` | Eloquent/Builder.php:77 | The naming convention wins whenever it finds a class. The lookup fails iff every registered strategy fails. |
| `Naming.LTrim` | Eloquent/Builder.php:75 | The result is a suffix of the input, only the trimmed character was removed, and the result does not start with it. |
| `Naming.ModelName` | Eloquent/Builder.php:36-43 | Modelled by its definition only: studly(singular(text)) of the table's text, where a raw expression's text is its rendering. Singular and studly are uninterpreted, so no further property is claimed. |
| `Naming.StripZ` | Eloquent/Builder.php:75 | The normalised name is the input without its whole leading run of 'Z's and never starts with 'Z'. A name not starting with 'Z' is returned unchanged. Further properties: `Naming.StripZIsLTrim`, `Naming.StripZIdempotent`, `Naming.StripZPrefix`. |
| `Naming.StripZIsLTrim` | Eloquent/Builder.php:75 | The str_starts_with guard is redundant: the result equals ltrim alone. |
| `Naming.StripZIdempotent` | Eloquent/Builder.php:75 | Normalising twice is normalising once. |
| `Naming.StripZPrefix` | Eloquent/Builder.php:75 | A name with one more leading 'Z' normalises to the same name. |
| `JoinRewrite.CheckSoftDelete` | Eloquent/Builder.php:72-90 | Both lookups of the normalised model name are modelled. The check is truthy iff a class is found and it uses SoftDeletes, and it is None (falsy) iff the lookup finds nothing. See also `JoinRewrite.CheckSoftDeleteSingleLookup` and `JoinRewrite.CheckSoftDeleteIgnoresZ`. |
| `JoinRewrite.CheckSoftDeleteSingleLookup` | Eloquent/Builder.php:72-90 | The closed form of `JoinRewrite.CheckSoftDelete`'s ensures: the check equals one lookup of the normalised model name with the owner hint, giving the found class's SoftDeletes membership, or None when nothing is found. The duplicated block of lines 81-84 adds nothing. |
| `JoinRewrite.CheckSoftDeleteIgnoresZ` | Eloquent/Builder.php:74-77 | Two tables whose model names differ by a leading 'Z' get the same answer. |
| `JoinRewrite.Forward` | Eloquent/Builder.php:121 | Modelled by its definition only: the caller's six arguments handed on as they are. Its use is stated by `JoinRewrite.WithTrashForwardsUnchanged` and `JoinRewrite.RewriteExactlyWhenSoftDeletable`, and what the host builds from it by `JoinRewrite.RewriteNarrowsOnly`. |
| `JoinRewrite.Join` | Eloquent/Builder.php:104-122 | The single emitted join keeps the caller's table and join kind. Operator and second default to null, the kind to "inner", where and withTrash to false. Its branches are stated by `JoinRewrite.WithTrashForwardsUnchanged`, `JoinRewrite.RewriteExactlyWhenSoftDeletable` and `JoinRewrite.RewriteNarrowsOnly`. |
| `JoinRewrite.LeftJoin` | Eloquent/Builder.php:124-127 | The emitted join is of kind "left" with where false, and is otherwise the join an inner join with where false and the same withTrash emits. |
| `JoinRewrite.RightJoin` | Eloquent/Builder.php:129-132 | The emitted join is of kind "right" with where false, and is otherwise the join an inner join with where false and the same withTrash emits. |
| `JoinRewrite.WithTrashForwardsUnchanged` | Eloquent/Builder.php:106-121 | With withTrash, the caller's table, first, operator, second, kind and where are forwarded unchanged, whatever the soft-delete check would say. |
| `JoinRewrite.RewriteExactlyWhenSoftDeletable` | Eloquent/Builder.php:106-121 | The join is forwarded unchanged iff withTrash is set or the check is not truthy (false or null). Otherwise the clause is On(first, operator, second) AND IsNull(table.deleted_at), with the outer operator and second null and where false. |
| `JoinRewrite.FilterNamesLiteralTable` | Eloquent/Builder.php:72-114 | When the check is truthy, the rewritten join filters on the joined table's own deleted_at column, whatever model name the table maps to. |
| `JoinRewrite.RewriteNarrowsOnly` | Eloquent/Builder.php:106-121 | For a column or callback join, a row pair passes the emitted join iff it passes the caller's join and, when the join was rewritten, its deleted_at is NULL. |
| `JoinRewrite.WhereJoinBecomesColumnJoin` | Eloquent/Builder.php:109-114 | A where join (value comparison) against a soft-deletable table is emitted as a column comparison plus the deleted_at test. |
| `Eloquent.Builder.constructor` | Eloquent/Builder.php:24-28 | A new builder owns a fresh finder holding only the naming convention, and has no model yet. |
| `Eloquent.Builder.GetModelFinder` | Eloquent/Builder.php:50-53 | Returns the builder's own finder object. |
| `Eloquent.Builder.AddToFinder` | Eloquent/Builder.php:60-63 | Appends the strategy to the builder's finder and changes nothing else. No lookup that already succeeded changes; a lookup that failed now gets the new strategy's answer. |
| `Eloquent.Builder.SoftDeleteCheck` | Eloquent/Builder.php:72-84 | For every table, the builder's check is truthy iff its finder's lookup of the normalised model name, with the builder's model as hint, finds a class that uses SoftDeletes. |
| `Eloquent.Builder.Join` | Eloquent/Builder.php:104-122 | The builder's join keeps the table and kind. It builds its own clause iff withTrash is false and the finder's first match for the normalised model name uses SoftDeletes. |
| `Eloquent.Builder.LeftJoin` | Eloquent/Builder.php:124-127 | The builder's leftJoin is its inner join with where false, of kind "left". |
| `Eloquent.Builder.RightJoin` | Eloquent/Builder.php:129-132 | The builder's rightJoin is its inner join with where false, of kind "right". |
| `Eloquent.OrdersScenario` | Eloquent/Builder.php:104-127 | For "orders" owned by a soft-deletable Order, the join emits orders.id = line_items.order_id AND orders.deleted_at IS NULL. The leftJoin with withTrash forwards the plain comparison, of kind "left". |
| `Eloquent.ZusersScenario` | Eloquent/Builder.php:72-114 | For "zusers", whose model name "Zuser" is looked up as "user", the filter is zusers.deleted_at IS NULL. |

## Left out

- `parent::join` and the Laravel query and grammar layer: the emitted call is data (`JoinCall`), and how its clause becomes SQL is not modelled, beyond the interpretation `Row` used to state what the clause admits.
- `Expression::getValue` and `DB::connection()->getQueryGrammar()`: a raw table comes already rendered (`Raw(rendered)`). The `"$table.deleted_at"` interpolation of such a table is modelled with the same text, because PHP's string conversion of an Expression object depends on the Laravel version.
- `Str::singular` and `Str::studly`: uninterpreted, given as the two functions of an `Inflector`.
- The ModelFinder class, ModelFinder.php, is not part of this model. Its `getModel` is modelled as a first match over the convention strategy followed by the added strategies in the order they were added. The convention strategy, together with the registry it searches, is a parameter of the constructor.
- Strategies as PHP closures: a `Strategy` is a total, pure function. A closure that throws, or that keeps state so that two calls with the same name answer differently, is not modelled. With such a closure the second lookup of `checkSoftDelete` could differ from the first, and an exception would propagate out of the join, since nothing catches it.
- `class_uses_recursive`: a `ModelClass` carries the set of trait names it uses, inherited ones included.
- The commented-out `ModelNotFoundException` (line 89) and the commented-out alternative join (lines 116-118): dead code.
- Being a closure, a string or an Expression for `operator` and `second`: they are optional strings. A closure `first` is an opaque `Callback` whose clause the interpretation gives.
- Concurrency and the fluent return value (`$this`) of the join family: a join returns the one call it makes.
- `JoinRewrite.RewriteNarrowsOnly`: stated for column and callback joins only. A where join is not narrowed but changed, as `JoinRewrite.WhereJoinBecomesColumnJoin` shows.
