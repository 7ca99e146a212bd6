/** `SHOW`, `HIDE` and `PROJECTION`: which fields a query returns. */
module Projections {
  import opened Values
  import opened Foreign

  /** `SHOW(*fields)` or `HIDE(*fields)`. */
  datatype ProjItem = Show(fields: seq<string>) | Hide(fields: seq<string>) {

    /** 1 for a shown field, 0 for a hidden one. */
    function Flag(): Value {
      if Show? then VInt(1) else VInt(0)
    }

    /** `{field: 1 for field in fields}` (or 0): every given field once,
        duplicates collapsed. */
    function Build(): (r: Dict)
      ensures forall f :: f in r <==> f in fields
      ensures forall f :: f in r ==> r[f] == Flag()
    {
      map f | f in fields :: Flag()
    }

    /** `SHOW(['a', 'b'])`: the class name around the repr of the field list. */
    function Repr(p: Primitives): (r: string)
      ensures |r| >= 6 && r[|r| - 1] == ')'
      ensures r[..5] == (if Show? then "SHOW(" else "HIDE(")
    {
      (if Show? then "SHOW(" else "HIDE(") + p.repr(VList(seq(|fields|, i requires 0 <= i < |fields| => VStr(fields[i])))) + ")"
    }
  }

  /** The fields merged left to right, a later item overriding an earlier one. */
  function Merged(items: seq<ProjItem>): (r: Dict)
    ensures forall f :: f in r <==> exists i :: 0 <= i < |items| && f in items[i].fields
  {
    if items == [] then map[]
    else
      var init := items[..|items| - 1];
      var r := Merged(init) + items[|items| - 1].Build();
      assert forall i :: 0 <= i < |init| ==> init[i] == items[i];
      r
  }

  /** The `_id` default: hidden unless some item mentions it. */
  function WithIdDefault(d: Dict): Dict {
    if "_id" in d then d else d["_id" := VInt(0)]
  }

  /** `PROJECTION(*items).build()`. */
  method BuildProjection(items: seq<ProjItem>) returns (fields: Dict)
    ensures fields == WithIdDefault(Merged(items))
  {
    fields := map[];
    var i := 0;
    while i < |items|
      invariant 0 <= i <= |items|
      invariant fields == Merged(items[..i])
    {
      assert items[..i + 1][..i] == items[..i];
      fields := fields + items[i].Build();
      i := i + 1;
    }
    assert items[..|items|] == items;
    if "_id" !in fields {
      fields := fields["_id" := VInt(0)];
    }
  }

  /** A field takes the flag of the last item that mentions it. */
  lemma {:induction false} LastMentionWins(items: seq<ProjItem>, i: nat, f: string)
    requires i < |items| && f in items[i].fields
    requires forall j :: i < j < |items| ==> f !in items[j].fields
    ensures f in Merged(items) && Merged(items)[f] == items[i].Flag()
  {
    if i < |items| - 1 {
      var init := items[..|items| - 1];
      LastMentionWins(init, i, f);
    }
  }

  /** The built projection's fields are the mentioned ones plus `_id`; `_id`
      is 0 unless mentioned, and keeps the flag it was given otherwise. */
  lemma ProjectionFields(items: seq<ProjItem>)
    ensures var r := WithIdDefault(Merged(items));
      && (forall f :: f in r <==> f == "_id" || exists i :: 0 <= i < |items| && f in items[i].fields)
      && ("_id" !in Merged(items) ==> r["_id"] == VInt(0))
      && ("_id" in Merged(items) ==> r["_id"] == Merged(items)["_id"])
  {
  }

  /** `PROJECTION()` builds `{"_id": 0}`. */
  lemma EmptyProjection()
    ensures WithIdDefault(Merged([])) == map["_id" := VInt(0)]
  {
  }

  /** `PROJECTION(SHOW("data"))` builds `{"data": 1, "_id": 0}` and
      `PROJECTION(SHOW("data"), SHOW("_id"))` builds `{"data": 1, "_id": 1}`. */
  lemma ShowExamples()
    ensures WithIdDefault(Merged([Show(["data"])])) == map["data" := VInt(1), "_id" := VInt(0)]
    ensures WithIdDefault(Merged([Show(["data"]), Show(["_id"])])) == map["data" := VInt(1), "_id" := VInt(1)]
  {
    assert [Show(["data"])][..0] == [];
    assert [Show(["data"]), Show(["_id"])][..1] == [Show(["data"])];
  }
}
