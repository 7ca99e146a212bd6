/** The query builders: comparisons (`EQ`, `IN`, `GT`, `LT`, `EXISTS`,
    `Regex`), the logical operators (`AND`, `OR`, `NOT`), `NEGATE`, `All`,
    the hashed query field `HQF` and the container `AQ`, each with the
    filter document its `build` returns. */
module Query {
  import opened Wrappers
  import opened Values
  import opened Foreign
  import opened Hashing
  import opened PyText
  import opened HashedQuery

  /** A comparison as its fields hold it; `IN` keeps its current operator,
      which `NEGATE` rewrites to `$nin`, and `EXISTS` its current value. */
  datatype Comparison =
    | EQ(field: string, value: Value)
    | IN(field: string, values: seq<Value>, operator: string)
    | GT(field: string, value: Value)
    | LT(field: string, value: Value)
    | EXISTS(field: string, val: bool)
    | Regex(field: string, regex: string, options: string)

  datatype Query =
    | Cmp(c: Comparison)
    | AND(children: seq<Query>)
    | OR(children: seq<Query>)
    | NOT(children: seq<Query>)
    | NEGATE(wrapped: Comparison)
    | HQF(entry: Comparison)
    | AQ(item: Query)
    | All

  /** `EQ(field, value)`: a list value fails the constructor's assertion. */
  function MakeEQ(field: string, value: Value): (r: Result<Comparison, Error>)
    ensures r.Ok? <==> !value.VList?
    ensures r.Ok? ==> r.value.EQ? && r.value.field == field && r.value.value == value
    ensures r.Err? ==> r.error == AssertionError
  {
    if value.VList? then Err(AssertionError) else Ok(EQ(field, value))
  }

  /** `GT(field, value)`: a list value fails the constructor's assertion. */
  function MakeGT(field: string, value: Value): (r: Result<Comparison, Error>)
    ensures r.Ok? <==> !value.VList?
    ensures r.Ok? ==> r.value.GT? && r.value.field == field && r.value.value == value
    ensures r.Err? ==> r.error == AssertionError
  {
    if value.VList? then Err(AssertionError) else Ok(GT(field, value))
  }

  /** `LT(field, value)`: a list value fails the constructor's assertion. */
  function MakeLT(field: string, value: Value): (r: Result<Comparison, Error>)
    ensures r.Ok? <==> !value.VList?
    ensures r.Ok? ==> r.value.LT? && r.value.field == field && r.value.value == value
    ensures r.Err? ==> r.error == AssertionError
  {
    if value.VList? then Err(AssertionError) else Ok(LT(field, value))
  }

  /** `IN(field, value)`: only a list passes the assertion; the operator
      starts as `$in`. */
  function MakeIN(field: string, value: Value): (r: Result<Comparison, Error>)
    ensures r.Ok? <==> value.VList?
    ensures r.Ok? ==> (r.value.IN? && r.value.field == field
                       && VList(r.value.values) == value && r.value.operator == "$in")
    ensures r.Err? ==> r.error == AssertionError
  {
    if value.VList? then Ok(IN(field, value.items, "$in")) else Err(AssertionError)
  }

  /** `EXISTS(field)` starts out asking for the field to be present. */
  function MakeEXISTS(field: string): (r: Comparison)
    ensures r.EXISTS? && r.field == field && r.val
  {
    EXISTS(field, true)
  }

  /** `Regex(field, regex, case_insensitive=..., other_options=...)`: the
      flag `i` is appended to the other options when asked for. */
  function MakeRegex(field: string, regex: string, caseInsensitive: bool, otherOptions: string): (r: Comparison)
    ensures r.Regex? && r.field == field && r.regex == regex
    ensures |r.options| == |otherOptions| + (if caseInsensitive then 1 else 0)
    ensures r.options[..|otherOptions|] == otherOptions
    ensures caseInsensitive <==> r.options != otherOptions
  {
    Regex(field, regex, if caseInsensitive then otherOptions + "i" else otherOptions)
  }

  /** The operator key each comparison builds under its field. */
  function OperatorOf(c: Comparison): string
    requires !c.Regex?
  {
    match c
    case EQ(_, _) => "$eq"
    case IN(_, _, op) => op
    case GT(_, _) => "$gt"
    case LT(_, _) => "$lt"
    case EXISTS(_, _) => "$exists"
  }

  /** The operand each comparison builds under its operator. */
  function OperandOf(c: Comparison): Value
    requires !c.Regex?
  {
    match c
    case EQ(_, v) => v
    case IN(_, vs, _) => VList(vs)
    case GT(_, v) => v
    case LT(_, v) => v
    case EXISTS(_, b) => VBool(b)
  }

  /** A comparison's `build`: one field mapped to its operators. */
  function BuildComparison(c: Comparison): (r: Dict)
    ensures r.Keys == {c.field} && r[c.field].VDict?
    ensures !c.Regex? ==> r[c.field].entries == map[OperatorOf(c) := OperandOf(c)]
    ensures c.Regex? ==> r[c.field].entries == map["$regex" := VStr(c.regex), "$options" := VStr(c.options)]
  {
    match c
    case EQ(f, v) => map[f := VDict(map["$eq" := v])]
    case IN(f, vs, op) => map[f := VDict(map[op := VList(vs)])]
    case GT(f, v) => map[f := VDict(map["$gt" := v])]
    case LT(f, v) => map[f := VDict(map["$lt" := v])]
    case EXISTS(f, b) => map[f := VDict(map["$exists" := VBool(b)])]
    case Regex(f, rx, o) => map[f := VDict(map["$regex" := VStr(rx), "$options" := VStr(o)])]
  }

  /** What `NEGATE.build` turns the wrapped comparison into before building
      it: `EXISTS` asks for absence, `IN` becomes `$nin`; `GT` and `LT`
      name their counterpart, anything else is refused. */
  function Negated(c: Comparison): (r: Result<Comparison, Error>)
    ensures r.Ok? <==> c.EXISTS? || c.IN?
    ensures r.Ok? ==> r.value.field == c.field
    ensures c.EXISTS? ==> r == Ok(EXISTS(c.field, false))
    ensures c.IN? ==> r == Ok(IN(c.field, c.values, "$nin"))
    ensures c.GT? ==> r == Err(RuntimeError("Cannot negate GT, use LT instead."))
    ensures c.LT? ==> r == Err(RuntimeError("Cannot negate LT, use GT instead."))
    ensures (c.EQ? || c.Regex?) ==> r == Err(RuntimeError("Invalid wrapped comparison."))
  {
    match c
    case EXISTS(f, _) => Ok(EXISTS(f, false))
    case IN(f, vs, _) => Ok(IN(f, vs, "$nin"))
    case GT(_, _) => Err(RuntimeError("Cannot negate GT, use LT instead."))
    case LT(_, _) => Err(RuntimeError("Cannot negate LT, use GT instead."))
    case _ => Err(RuntimeError("Invalid wrapped comparison."))
  }

  /** `HQF(c).build()`: the comparison's filter with each operator value
      hashed by `hash_field(operator, value)`. */
  function HashedComparison(p: Primitives, c: Comparison): (r: Result<Dict, Error>)
  {
    match c
    case Regex(f, rx, o) =>
      var hr :- HashField(p, "$regex", VStr(rx));
      var ho :- HashField(p, "$options", VStr(o));
      Ok(map[f := VDict(map["$regex" := VStr(hr), "$options" := VStr(ho)])])
    case _ =>
      var h :- HashField(p, OperatorOf(c), OperandOf(c));
      Ok(map[c.field := VDict(map[OperatorOf(c) := VStr(h)])])
  }

  /** A hashed filter has the plain filter's shape: the same field and the
      same operators. Only an operand `hash_field` cannot encode raises, and
      a regular expression never does. */
  lemma HashedComparisonShape(p: Primitives, c: Comparison)
    ensures HashedComparison(p, c).Ok? <==> c.Regex? || OperandOf(c).VStr? || OperandOf(c).VInt? || OperandOf(c).VBool?
    ensures HashedComparison(p, c).Err? ==> !c.Regex? && HashedComparison(p, c).error == NoEncode(TypeName(OperandOf(c)))
    ensures HashedComparison(p, c).Ok? ==>
      var d := HashedComparison(p, c).value;
      d.Keys == {c.field} && d[c.field].VDict? && d[c.field].entries.Keys == BuildComparison(c)[c.field].entries.Keys
  {
  }

  /** Every query's `build`, or the exception it raises. */
  function Build(p: Primitives, q: Query): (r: Result<Dict, Error>)
    ensures (q.Cmp? || q.All?) ==> r.Ok?
    decreases q
  {
    match q
    case Cmp(c) => Ok(BuildComparison(c))
    case AND(cs) => var items :- BuildAll(p, cs); Ok(map["$and" := VList(items)])
    case OR(cs) => var items :- BuildAll(p, cs); Ok(map["$or" := VList(items)])
    case NOT(cs) => var items :- BuildAll(p, cs); Ok(map["$not" := VList(items)])
    case NEGATE(c) => var n :- Negated(c); Ok(BuildComparison(n))
    case HQF(c) => HashedComparison(p, c)
    case AQ(item) => Build(p, item)
    case All => Ok(map[])
  }

  /** `[c.build() for c in self.comparisons]`: the first child to raise
      stops the list. */
  function BuildAll(p: Primitives, cs: seq<Query>): (r: Result<seq<Value>, Error>)
    ensures r.Ok? ==> |r.value| == |cs|
    decreases cs
  {
    if cs == [] then Ok([])
    else
      var d :- Build(p, cs[0]);
      var rest :- BuildAll(p, cs[1..]);
      Ok([VDict(d)] + rest)
  }

  /** Every filter `build` returns has at most one top-level key: a field,
      or one of `$and`, `$or`, `$not`; `ALL` has none. */
  lemma {:induction false} BuildOneKey(p: Primitives, q: Query)
    requires Build(p, q).Ok?
    ensures |Build(p, q).value.Keys| <= 1
    ensures Build(p, q).value == map[] <==> q.All? || (q.AQ? && Build(p, q.item).value == map[])
  {
    match q
    case AQ(item) => BuildOneKey(p, item);
    case HQF(c) => HashedComparisonShape(p, c);
    case _ =>
  }

  /** The logical operators build every child, in order, or raise the
      first child's exception. */
  lemma {:induction false} BuildAllChildren(p: Primitives, cs: seq<Query>)
    ensures BuildAll(p, cs).Ok? <==> forall i :: 0 <= i < |cs| ==> Build(p, cs[i]).Ok?
    ensures BuildAll(p, cs).Ok? ==>
      |BuildAll(p, cs).value| == |cs|
      && forall i :: 0 <= i < |cs| ==> BuildAll(p, cs).value[i] == VDict(Build(p, cs[i]).value)
    ensures BuildAll(p, cs).Err? ==>
      exists i :: 0 <= i < |cs| && Build(p, cs[i]) == Err(BuildAll(p, cs).error)
        && forall j :: 0 <= j < i ==> Build(p, cs[j]).Ok?
    decreases cs
  {
    if cs != [] {
      BuildAllChildren(p, cs[1..]);
      var r := BuildAll(p, cs);
      if Build(p, cs[0]).Ok? && BuildAll(p, cs[1..]).Err? {
        var i :| 0 <= i < |cs[1..]| && Build(p, cs[1..][i]) == Err(BuildAll(p, cs[1..]).error)
          && forall j :: 0 <= j < i ==> Build(p, cs[1..][j]).Ok?;
        assert Build(p, cs[i + 1]) == Err(r.error);
        assert forall j :: 0 <= j < i + 1 ==> Build(p, cs[j]).Ok? by {
          forall j | 0 <= j < i + 1 ensures Build(p, cs[j]).Ok? {
            if j > 0 { assert cs[j] == cs[1..][j - 1]; }
          }
        }
      }
      if r.Ok? {
        forall i | 0 <= i < |cs| ensures r.value[i] == VDict(Build(p, cs[i]).value) {
          if i > 0 { assert cs[i] == cs[1..][i - 1]; }
        }
      }
      if !Build(p, cs[0]).Ok? {
        assert Build(p, cs[0]) == Err(r.error);
      }
    }
  }

  /** `AND`, `OR` and `NOT` place the children's filters, in order, under
      `$and`, `$or` and `$not`. */
  lemma LogicalBuild(p: Primitives, q: Query)
    requires q.AND? || q.OR? || q.NOT?
    requires forall i :: 0 <= i < |q.children| ==> Build(p, q.children[i]).Ok?
    ensures Build(p, q).Ok?
    ensures Build(p, q).value.Keys == {if q.AND? then "$and" else if q.OR? then "$or" else "$not"}
    ensures var items := Build(p, q).value[if q.AND? then "$and" else if q.OR? then "$or" else "$not"];
      items.VList? && |items.items| == |q.children|
      && forall i :: 0 <= i < |q.children| ==> items.items[i] == VDict(Build(p, q.children[i]).value)
  {
    BuildAllChildren(p, q.children);
  }

  /** An empty `AND()` still builds, to `{"$and": []}`. */
  lemma EmptyLogical(p: Primitives)
    ensures Build(p, AND([])) == Ok(map["$and" := VList([])])
    ensures Build(p, OR([])) == Ok(map["$or" := VList([])])
    ensures Build(p, NOT([])) == Ok(map["$not" := VList([])])
  {
  }

  /** `AQ` only forwards to the item it wraps, however deeply nested. */
  lemma {:induction false} ContainerTransparent(p: Primitives, q: Query, n: nat)
    ensures Build(p, Wrap(q, n)) == Build(p, q)
  {
    if n > 0 {
      ContainerTransparent(p, q, n - 1);
    }
  }

  function Wrap(q: Query, n: nat): Query {
    if n == 0 then q else AQ(Wrap(q, n - 1))
  }

  /** `NEGATE` builds exactly the comparison it rewrote, and rewriting an
      already negated comparison changes nothing more: building the same
      `NEGATE` twice gives the same filter. */
  lemma NegateIdempotent(c: Comparison)
    requires Negated(c).Ok?
    ensures Negated(Negated(c).value) == Negated(c)
  {
  }

  /** `NEGATE(EXISTS(f))` asks for `f` to be absent, `NEGATE(IN(f, vs))`
      for it to be outside `vs`. */
  lemma NegateBuilds(p: Primitives, f: string, vs: seq<Value>, op: string, b: bool)
    ensures Build(p, NEGATE(EXISTS(f, b))) == Ok(map[f := VDict(map["$exists" := VBool(false)])])
    ensures Build(p, NEGATE(IN(f, vs, op))) == Ok(map[f := VDict(map["$nin" := VList(vs)])])
  {
  }

  /** `HQF(c)` succeeds exactly when every operator value of `c`'s filter
      can be hashed, and then returns the filter `HashQuery` computes. */
  lemma HashedComparisonSpec(p: Primitives, c: Comparison)
    ensures HashedComparison(p, c).Ok? <==> AllEntriesHash(p, BuildComparison(c))
    ensures HashedComparison(p, c).Ok? ==> HashedComparison(p, c).value == HashedFilter(p, BuildComparison(c))
    ensures HashedComparison(p, c).Err? ==>
      IsEntryError(p, BuildComparison(c)[c.field], HashedComparison(p, c).error)
  {
    if c.Regex? {
      HashedRegexSpec(p, c);
    } else {
      HashedSingleSpec(p, c);
    }
  }

  lemma HashedRegexSpec(p: Primitives, c: Comparison)
    requires c.Regex?
    ensures HashedComparison(p, c).Ok? && AllEntriesHash(p, BuildComparison(c))
    ensures HashedComparison(p, c).value == HashedFilter(p, BuildComparison(c))
  {
    var b := BuildComparison(c);
    var r := HashedComparison(p, c);
    assert b[c.field].entries.Keys == {"$regex", "$options"};
    assert HashedEntry(p, b[c.field]).entries == r.value[c.field].entries;
  }

  lemma HashedSingleSpec(p: Primitives, c: Comparison)
    requires !c.Regex?
    ensures HashedComparison(p, c).Ok? <==> AllEntriesHash(p, BuildComparison(c))
    ensures HashedComparison(p, c).Ok? ==> HashedComparison(p, c).value == HashedFilter(p, BuildComparison(c))
    ensures HashedComparison(p, c).Err? ==>
      IsEntryError(p, BuildComparison(c)[c.field], HashedComparison(p, c).error)
  {
    var b := BuildComparison(c);
    var r := HashedComparison(p, c);
    assert b[c.field].entries.Keys == {OperatorOf(c)};
    if r.Ok? {
      assert HashedEntry(p, b[c.field]).entries == r.value[c.field].entries;
    } else {
      assert HashField(p, OperatorOf(c), OperandOf(c)) == Err(r.error);
    }
  }

  /** Any error the hashing loop can raise on `c`'s filter is the one
      `HQF(c).build()` raises: each comparison has one field, and at most
      one operator whose value cannot be hashed. */
  lemma HashedComparisonError(p: Primitives, c: Comparison, e: Error)
    requires IsEntryError(p, BuildComparison(c)[c.field], e)
    ensures HashedComparison(p, c) == Err(e)
  {
    var v := BuildComparison(c)[c.field];
    var op :| op in v.entries && HashField(p, op, v.entries[op]) == Err(e);
    if !c.Regex? {
      assert op == OperatorOf(c);
    }
  }

  /** `HQF(c).build()` as the source runs it: the comparison's filter, then
      the nested loops of `HashQuery`; the result is `Build`'s. */
  method BuildHashed(p: Primitives, c: Comparison) returns (r: Result<Dict, Error>)
    ensures r == Build(p, HQF(c))
  {
    var initial := BuildComparison(c);
    r := HashQuery(p, initial);
    HashedComparisonSpec(p, c);
    if r.Err? {
      var k :| k in initial && IsEntryError(p, initial[k], r.error);
      assert k == c.field;
      HashedComparisonError(p, c, r.error);
    }
  }

  /** `HQF(EQ(f, v))` hashes the value as `hash_field("$eq", v)` does, so
      it matches the digest stored for `v` in a hashed column. */
  lemma HashedEquality(p: Primitives, f: string, v: Value)
    requires v.VStr? || v.VInt? || v.VBool?
    ensures Build(p, HQF(EQ(f, v))) == Ok(map[f := VDict(map["$eq" := VStr(Digest(p, HashInput(v).value))])])
  {
  }

  /** `HQF` over `IN` always raises: a list has no `encode`. */
  lemma HashedInFails(p: Primitives, f: string, vs: seq<Value>, op: string)
    ensures Build(p, HQF(IN(f, vs, op))) == Err(NoEncode("list"))
  {
    var c := IN(f, vs, op);
    assert OperandOf(c) == VList(vs) && TypeName(VList(vs)) == "list";
  }

  /** The filters the cursor tests expect from `AQ(IN(...))` and from
      `AQ(AND(IN(...), EQ(...)))`. */
  lemma CursorFilterExamples(p: Primitives)
    ensures var vs := [VStr("!"), VStr("?")];
      Build(p, AQ(Cmp(IN("prefix", vs, "$in")))) == Ok(map["prefix" := VDict(map["$in" := VList(vs)])])
    ensures var vs := [VStr("!"), VStr("?")];
      Build(p, AQ(AND([Cmp(IN("prefix", vs, "$in")), Cmp(EQ("activated_premium", VBool(true)))])))
      == Ok(map["$and" := VList([VDict(map["prefix" := VDict(map["$in" := VList(vs)])]),
                                 VDict(map["activated_premium" := VDict(map["$eq" := VBool(true)])])])])
  {
    var vs := [VStr("!"), VStr("?")];
    var q1 := Cmp(IN("prefix", vs, "$in"));
    var q2 := Cmp(EQ("activated_premium", VBool(true)));
    assert [q1, q2][1..] == [q2];
    assert [q2][1..] == [];
    assert Build(p, q2) == Ok(BuildComparison(q2.c));
    assert BuildAll(p, [q2][1..]) == Ok([]);
    assert [VDict(BuildComparison(q2.c))] + [] == [VDict(BuildComparison(q2.c))];
    assert BuildAll(p, [q2]) == Ok([VDict(BuildComparison(q2.c))]);
    assert Build(p, q1) == Ok(BuildComparison(q1.c));
    assert [VDict(BuildComparison(q1.c))] + [VDict(BuildComparison(q2.c))]
        == [VDict(BuildComparison(q1.c)), VDict(BuildComparison(q2.c))];
    assert BuildAll(p, [q1, q2]) == Ok([VDict(BuildComparison(q1.c)), VDict(BuildComparison(q2.c))]);
  }

  /** `repr` of a comparison: the value is shown with `str()`, the regex
      and its options with `repr()`. */
  function ComparisonRepr(p: Primitives, c: Comparison): (r: string)
    ensures StartsWith(r, ComparisonName(c) + "(")
    ensures r[|r| - 1] == ')'
  {
    var head := ComparisonName(c) + "(";
    var r := head + ComparisonArgs(p, c) + ")";
    assert r[..|head|] == head;
    r
  }

  /** What a comparison's `__repr__` shows between its parentheses. */
  function ComparisonArgs(p: Primitives, c: Comparison): string {
    match c
    case EQ(f, v) => "field='" + f + "', value=" + PyStr(p, v)
    case IN(f, vs, _) => "field='" + f + "', value=" + PyStr(p, VList(vs))
    case GT(f, v) => "field='" + f + "', value=" + PyStr(p, v)
    case LT(f, v) => "field='" + f + "', value=" + PyStr(p, v)
    case EXISTS(f, _) => "field='" + f + "'"
    case Regex(_, rx, o) => "self.regex=" + p.repr(VStr(rx)) + ", self.options=" + p.repr(VStr(o))
  }

  function ComparisonName(c: Comparison): string {
    match c
    case EQ(_, _) => "EQ"
    case IN(_, _, _) => "IN"
    case GT(_, _) => "GT"
    case LT(_, _) => "LT"
    case EXISTS(_, _) => "EXISTS"
    case Regex(_, _, _) => "Regex"
  }

  /** `repr` of a query; `None` where the class keeps Python's default
      `repr` (`HQF`, `AQ`), which shows a memory address. */
  function Repr(p: Primitives, q: Query): (r: Option<string>)
    ensures (q.HQF? || q.AQ?) ==> r.None?
    ensures (q.Cmp? || q.NEGATE? || q.All?) ==> r.Some?
    ensures r.Some? ==> |r.value| > 0 && r.value[|r.value| - 1] == ')'
    decreases q
  {
    match q
    case Cmp(c) => Some(ComparisonRepr(p, c))
    case AND(cs) => var items :- ReprAll(p, cs); Some("AND(comparisons=[" + Join(", ", items) + "])")
    case OR(cs) => var items :- ReprAll(p, cs); Some("OR(comparisons=[" + Join(", ", items) + "])")
    case NOT(cs) => var items :- ReprAll(p, cs); Some("NOT(comparisons=[" + Join(", ", items) + "])")
    case NEGATE(c) => Some("NEGATE(" + ComparisonRepr(p, c) + ")")
    case HQF(_) => None
    case AQ(_) => None
    case All => Some("ALL()")
  }

  function ReprAll(p: Primitives, cs: seq<Query>): (r: Option<seq<string>>)
    ensures r.Some? ==> |r.value| == |cs|
    decreases cs
  {
    if cs == [] then Some([])
    else
      var s :- Repr(p, cs[0]);
      var rest :- ReprAll(p, cs[1..]);
      Some([s] + rest)
  }

  /** `EXISTS` hides its value, so a negated one shows like the original. */
  lemma ExistsReprHidesValue(p: Primitives)
    ensures Repr(p, Cmp(EXISTS("prefix", false))) == Some("EXISTS(field='prefix')")
    ensures Repr(p, NEGATE(EXISTS("prefix", true))) == Some("NEGATE(EXISTS(field='prefix'))")
  {
    assert "EXISTS" + "(" + ("field='" + "prefix" + "'") + ")" == "EXISTS(field='prefix')";
    assert "NEGATE(" + "EXISTS(field='prefix')" + ")" == "NEGATE(EXISTS(field='prefix'))";
  }

  /** A logical operator shows its children as a Python list. */
  lemma LogicalReprExample(p: Primitives)
    ensures Repr(p, AND([Cmp(EXISTS("a", true)), All]))
         == Some("AND(comparisons=[" + ("EXISTS(field='a')" + ", " + "ALL()") + "])")
  {
    var items := ["EXISTS(field='a')", "ALL()"];
    ChildReprs(p);
    assert items[1..] == ["ALL()"];
    assert Join(", ", items) == items[0] + ", " + items[1];
  }

  /** The children's reprs in the example above. */
  lemma ChildReprs(p: Primitives)
    ensures ReprAll(p, [Cmp(EXISTS("a", true)), All]) == Some(["EXISTS(field='a')", "ALL()"])
  {
    var cs := [Cmp(EXISTS("a", true)), All];
    assert cs[1..] == [All];
    assert [All][1..] == [];
    assert ReprAll(p, [All]) == Some(["ALL()"]) by {
      assert ["ALL()"] + [] == ["ALL()"];
    }
    assert Repr(p, cs[0]) == Some("EXISTS(field='a')") by {
      assert "EXISTS" + "(" + ("field='" + "a" + "'") + ")" == "EXISTS(field='a')";
    }
    assert ["EXISTS(field='a')"] + ["ALL()"] == ["EXISTS(field='a')", "ALL()"];
  }
}
