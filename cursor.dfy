/** `Cursor`: a query builder that collects a filter, projections, a sort
    order and a limit, and freezes once the underlying database cursor has
    been created from them. */
module Cursors {
  import opened Wrappers
  import opened Values
  import opened Query
  import opened Projections
  import opened Foreign
  import Store

  /** One `(field, direction)` sort tuple. */
  datatype SortKey = SortKey(field: string, direction: Value)

  /** What `set_sort` may be given: `None`, a single tuple, a list of
      tuples, or some other value. */
  datatype SortArg =
    | NoOrder
    | OrderTuple(key: SortKey)
    | OrderList(keys: seq<SortKey>)
    | OrderOther(other: Value)

  /** What `set_filter` may be given: a plain dict, an object with
      `as_filter` (which may also have `build`), or a buildable query. */
  datatype FilterSource =
    | PlainFilter(d: Dict)
    | Filterable(asFilter: Dict, alsoBuilds: Option<Query>)
    | Buildable(q: Query)

  /** What `set_projections` may be given: `None`, a plain dict or a
      `PROJECTION(...)` of `SHOW`/`HIDE` items. */
  datatype ProjectionSource =
    | NoProjections
    | PlainProjection(d: Dict)
    | ProjectionOf(items: seq<ProjItem>)

  /** The converter class a cursor was created with, known by its name. */
  datatype Converter = Converter(name: string)

  /** The database cursor `_build_cursor` creates: a `find` call, then an
      optional `.sort(...)`, then an optional `.limit(...)`. */
  datatype MotorCursor =
    | Find(filter: Dict, projection: Option<Dict>)
    | Sorted(inner: MotorCursor, keys: seq<SortKey>)
    | Limited(inner: MotorCursor, n: int)

  /** The message of the `ValueError` every setter raises on a built cursor. */
  const InUse: string := "Cursor is already in use, create a copy and modify that instance."

  /** Python's truth value of the stored projections, sort and limit. */
  predicate ProjectionsTruthy(projections: Option<Dict>) {
    projections.Some? && |projections.value| > 0
  }

  predicate SortTruthy(sort: Option<seq<SortKey>>) {
    sort.Some? && |sort.value| > 0
  }

  /** The `find` call at the root of a database cursor. */
  function Root(m: MotorCursor): (r: MotorCursor)
    ensures r.Find?
  {
    match m
    case Find(_, _) => m
    case Sorted(inner, _) => Root(inner)
    case Limited(inner, _) => Root(inner)
  }

  /** The sort keys applied along the chain, if any. */
  function SortOf(m: MotorCursor): Option<seq<SortKey>> {
    match m
    case Find(_, _) => None
    case Sorted(inner, keys) => Some(keys)
    case Limited(inner, _) => SortOf(inner)
  }

  /** The limit applied along the chain, if any. */
  function LimitOf(m: MotorCursor): Option<int> {
    match m
    case Find(_, _) => None
    case Sorted(inner, _) => LimitOf(inner)
    case Limited(_, n) => Some(n)
  }

  /** The chain `_build_cursor` assembles: projections, sort and limit are
      passed on only when they are truthy, and always in that order. */
  function PlanOf(filter: Dict, projections: Option<Dict>, sort: Option<seq<SortKey>>, limit: int): (r: MotorCursor)
    ensures Root(r).filter == filter
    ensures Root(r).projection == (if ProjectionsTruthy(projections) then projections else None)
    ensures SortOf(r) == (if SortTruthy(sort) then sort else None)
    ensures LimitOf(r) == (if limit != 0 then Some(limit) else None)
  {
    var found := if ProjectionsTruthy(projections) then Find(filter, projections) else Find(filter, None);
    var sorted := if SortTruthy(sort) then Sorted(found, sort.value) else found;
    assert Root(sorted) == found && SortOf(sorted) == (if SortTruthy(sort) then sort else None);
    assert LimitOf(sorted).None?;
    if limit != 0 then Limited(sorted, limit) else sorted
  }

  /** `__ensure_built`: `as_filter` wins over `build`, and a plain dict is
      taken as it is. A query whose `build` raises propagates its error. */
  function ResolveFilter(p: Primitives, src: FilterSource): (r: Result<Dict, Error>)
    ensures src.PlainFilter? ==> r == Ok(src.d)
    ensures src.Filterable? ==> r == Ok(src.asFilter)
    ensures src.Buildable? ==> r == Build(p, src.q)
  {
    match src
    case PlainFilter(d) => Ok(d)
    case Filterable(d, _) => Ok(d)
    case Buildable(q) => Build(p, q)
  }

  /** The check `set_limit` makes: an `int` (a `bool` is one, worth 0 or 1)
      that is not negative. */
  function LimitValue(limit: Value): (r: Result<int, Error>)
    ensures r.Ok? <==> (limit.VInt? && limit.i >= 0) || limit.VBool?
    ensures r.Ok? ==> r.value >= 0
    ensures r.Ok? && limit.VInt? ==> r.value == limit.i
    ensures r.Err? ==> r.error == ValueError("Positive numbers only")
  {
    match limit
    case VInt(n) => if n < 0 then Err(ValueError("Positive numbers only")) else Ok(n)
    case VBool(b) => Ok(if b then 1 else 0)
    case _ => Err(ValueError("Positive numbers only"))
  }

  /** The normalisation `set_sort` makes: a single tuple becomes a list of
      one, a list or `None` is kept, anything else is refused. */
  function NormalisedSort(order: SortArg): (r: Result<Option<seq<SortKey>>, Error>)
    ensures r.Err? <==> order.OrderOther?
    ensures r.Err? ==> r.error == ValueError("order must be either a tuple, or list of tuples")
    ensures order.NoOrder? ==> r == Ok(None)
    ensures order.OrderTuple? ==> r == Ok(Some([order.key]))
    ensures order.OrderList? ==> r == Ok(Some(order.keys))
  {
    match order
    case NoOrder => Ok(None)
    case OrderTuple(k) => Ok(Some([k]))
    case OrderList(ks) => Ok(Some(ks))
    case OrderOther(_) => Err(ValueError("order must be either a tuple, or list of tuples"))
  }

  class Cursor {
    const collection: Store.Collection
    const converter: Option<Converter>
    var filter: Dict
    var projections: Option<Dict>
    var limit: int
    var sort: Option<seq<SortKey>>
    var cursor: Option<MotorCursor>

    /** The limit is never negative: `set_limit` refuses anything else. */
    predicate Valid()
      reads this
    {
      limit >= 0
    }

    /** A new cursor matches everything, with no projections, no sort, no
        limit, and is not yet built. */
    constructor (collection: Store.Collection, converter: Option<Converter>)
      ensures Valid()
      ensures this.collection == collection && this.converter == converter
      ensures filter == map[] && projections.None? && limit == 0 && sort.None? && cursor.None?
    {
      this.collection := collection;
      this.converter := converter;
      filter := map[];
      projections := None;
      limit := 0;
      sort := None;
      cursor := None;
    }

    /** `_ensure_modifiable`: only an unbuilt cursor may change. */
    method EnsureModifiable() returns (err: Option<Error>)
      ensures err.None? <==> cursor.None?
      ensures err.Some? ==> err.value == ValueError(InUse)
    {
      if cursor.Some? {
        return Some(ValueError(InUse));
      }
      return None;
    }

    /** `copy`: a fresh, unbuilt cursor over the same collection with the
        same filter, projections, limit and sort, and no converter. */
    method Copy() returns (c: Cursor)
      requires Valid()
      ensures fresh(c) && c.Valid()
      ensures c.collection == collection && c.converter.None? && c.cursor.None?
      ensures c.filter == filter && c.projections == projections
      ensures c.limit == limit && c.sort == sort
    {
      c := new Cursor(collection, None);
      c.sort := sort;
      c.limit := limit;
      c.filter := filter;
      c.projections := projections;
    }

    /** `_build_cursor`: creates the database cursor, which freezes this
        one; a built cursor refuses to be built again. */
    method BuildCursor() returns (err: Option<Error>)
      requires Valid()
      modifies this
      ensures Valid()
      ensures filter == old(filter) && projections == old(projections)
      ensures limit == old(limit) && sort == old(sort)
      ensures old(cursor).Some? ==> err == Some(ValueError(InUse)) && cursor == old(cursor)
      ensures old(cursor).None? ==> err.None? && cursor == Some(PlanOf(filter, projections, sort, limit))
    {
      err := EnsureModifiable();
      if err.Some? {
        return;
      }
      cursor := Some(PlanOf(filter, projections, sort, limit));
    }

    /** `set_filter`: replaces the filter with the resolved one and returns
        this cursor; on a built cursor, or when building the query raises,
        nothing changes. */
    method SetFilter(p: Primitives, src: FilterSource) returns (r: Result<Cursor, Error>)
      requires Valid()
      modifies this
      ensures Valid()
      ensures projections == old(projections) && limit == old(limit)
      ensures sort == old(sort) && cursor == old(cursor)
      ensures old(cursor).Some? ==> r == Err(ValueError(InUse)) && filter == old(filter)
      ensures old(cursor).None? && ResolveFilter(p, src).Err? ==>
                r == Err(ResolveFilter(p, src).error) && filter == old(filter)
      ensures old(cursor).None? && ResolveFilter(p, src).Ok? ==>
                r == Ok(this) && filter == ResolveFilter(p, src).value
    {
      var err := EnsureModifiable();
      if err.Some? {
        return Err(err.value);
      }
      var resolved := ResolveFilter(p, src);
      if resolved.Err? {
        return Err(resolved.error);
      }
      filter := resolved.value;
      return Ok(this);
    }

    /** `set_projections`: `None` clears the projections, a dict is kept
        as it is, a `PROJECTION` is built; returns this cursor. */
    method SetProjections(src: ProjectionSource) returns (r: Result<Cursor, Error>)
      requires Valid()
      modifies this
      ensures Valid()
      ensures filter == old(filter) && limit == old(limit)
      ensures sort == old(sort) && cursor == old(cursor)
      ensures old(cursor).Some? ==> r == Err(ValueError(InUse)) && projections == old(projections)
      ensures old(cursor).None? ==> r == Ok(this)
      ensures old(cursor).None? && src.NoProjections? ==> projections.None?
      ensures old(cursor).None? && src.PlainProjection? ==> projections == Some(src.d)
      ensures old(cursor).None? && src.ProjectionOf? ==>
                projections == Some(WithIdDefault(Merged(src.items)))
    {
      var err := EnsureModifiable();
      if err.Some? {
        return Err(err.value);
      }
      match src {
        case NoProjections =>
          projections := None;
        case PlainProjection(d) =>
          projections := Some(d);
        case ProjectionOf(items) =>
          var built := BuildProjection(items);
          projections := Some(built);
      }
      return Ok(this);
    }

    /** `set_limit`: a non-negative int replaces the limit; anything else
        raises and leaves the limit as it was. */
    method SetLimit(value: Value) returns (r: Result<Cursor, Error>)
      requires Valid()
      modifies this
      ensures Valid()
      ensures filter == old(filter) && projections == old(projections)
      ensures sort == old(sort) && cursor == old(cursor)
      ensures old(cursor).Some? ==> r == Err(ValueError(InUse)) && limit == old(limit)
      ensures old(cursor).None? && LimitValue(value).Err? ==>
                r == Err(LimitValue(value).error) && limit == old(limit)
      ensures old(cursor).None? && LimitValue(value).Ok? ==>
                r == Ok(this) && limit == LimitValue(value).value
    {
      var err := EnsureModifiable();
      if err.Some? {
        return Err(err.value);
      }
      var checked := LimitValue(value);
      if checked.Err? {
        return Err(checked.error);
      }
      limit := checked.value;
      return Ok(this);
    }

    /** `set_sort`: stores the normalised order; anything but `None`, a
        tuple or a list raises and leaves the order as it was. */
    method SetSort(order: SortArg) returns (r: Result<Cursor, Error>)
      requires Valid()
      modifies this
      ensures Valid()
      ensures filter == old(filter) && projections == old(projections)
      ensures limit == old(limit) && cursor == old(cursor)
      ensures old(cursor).Some? ==> r == Err(ValueError(InUse)) && sort == old(sort)
      ensures old(cursor).None? && NormalisedSort(order).Err? ==>
                r == Err(NormalisedSort(order).error) && sort == old(sort)
      ensures old(cursor).None? && NormalisedSort(order).Ok? ==>
                r == Ok(this) && sort == NormalisedSort(order).value
    {
      var err := EnsureModifiable();
      if err.Some? {
        return Err(err.value);
      }
      var normalised := NormalisedSort(order);
      if normalised.Err? {
        return Err(normalised.error);
      }
      sort := normalised.value;
      return Ok(this);
    }
  }

  /** An empty projection dict and no projections give the same database
      cursor, as do an empty sort list and no sort, and a limit of 0 means
      no limit at all. */
  lemma FalsyPartsIgnored(filter: Dict, projections: Option<Dict>, sort: Option<seq<SortKey>>, limit: int)
    ensures PlanOf(filter, Some(map[]), sort, limit) == PlanOf(filter, None, sort, limit)
    ensures PlanOf(filter, projections, Some([]), limit) == PlanOf(filter, projections, None, limit)
    ensures LimitOf(PlanOf(filter, projections, sort, 0)).None?
  {
  }

  /** `set_filter()` with its default `All()` resets the filter to `{}`;
      an object with `as_filter` is resolved through it even if it could
      also be built. */
  lemma FilterResolution(p: Primitives, asFilter: Dict, q: Query)
    ensures ResolveFilter(p, Buildable(All)) == Ok(map[])
    ensures ResolveFilter(p, Filterable(asFilter, Some(q))) == Ok(asFilter)
  {
  }

  /** The filters, limits and sort orders the cursor tests set and expect
      (tests/test_cursors.py). */
  lemma CursorSetterExamples(p: Primitives)
    ensures ResolveFilter(p, PlainFilter(map["_id" := VInt(1)])) == Ok(map["_id" := VInt(1)])
    ensures ResolveFilter(p, Buildable(AQ(Cmp(IN("prefix", [VStr("!"), VStr("?")], "$in")))))
            == Ok(map["prefix" := VDict(map["$in" := VList([VStr("!"), VStr("?")])])])
    ensures LimitValue(VInt(1)) == Ok(1)
    ensures LimitValue(VInt(-1)).Err?
    ensures NormalisedSort(OrderOther(VDict(map[]))).Err?
    ensures NormalisedSort(OrderOther(VInt(1))).Err?
    ensures NormalisedSort(OrderTuple(SortKey("count", VInt(-1)))) == Ok(Some([SortKey("count", VInt(-1))]))
    ensures NormalisedSort(NoOrder) == Ok(None)
  {
    CursorFilterExamples(p);
  }
}
