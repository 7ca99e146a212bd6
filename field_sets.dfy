/** `alaric.encryption.Base` and its subclasses `EncryptedFields`,
    `HashedFields`, `AutomaticHashedFields` and `IgnoreFields`: a set of field
    names built once and then only queried. */
module FieldSets {
  import opened StringOrder
  import PyText

  datatype FieldSet = FieldSet(fields: set<string>) {

    /** `item in field_set`: exact string equality. */
    predicate Contains(item: string) {
      item in fields
    }

    /** `iter(field_set)`: each field once, in the set's own order. */
    method Iterate() returns (order: seq<string>)
      ensures Distinct(order) && |order| == |fields|
      ensures forall x :: x in order <==> Contains(x)
    {
      order := [];
      var rest := fields;
      while rest != {}
        invariant Distinct(order)
        invariant forall x :: x in order ==> x !in rest
        invariant forall x :: x in fields <==> x in order || x in rest
        invariant rest <= fields && |order| + |rest| == |fields|
        decreases |rest|
      {
        var x :| x in rest;
        order := order + [x];
        rest := rest - {x};
      }
    }

    /** `repr(field_set)`: the class name and the fields joined by ",", in
        iteration order. */
    method Repr(className: string) returns (r: string)
      ensures exists order :: Distinct(order) && (forall x :: x in order <==> Contains(x))
                && r == className + "(" + PyText.Join(",", order) + ")"
    {
      var order := Iterate();
      r := className + "(" + PyText.Join(",", order) + ")";
    }
  }

  /** `Base(*names)`: the names, duplicates collapsed. */
  function Base(names: seq<string>): (b: FieldSet)
    ensures forall x :: b.Contains(x) <==> x in names
  {
    FieldSet(set x | x in names)
  }

  /** Duplicates collapse: a `Base` holds at most as many fields as it was
      given names, and exactly as many when the names are distinct. */
  lemma {:induction false} CollapseCount(names: seq<string>)
    ensures |Base(names).fields| <= |names|
    ensures |Base(names).fields| == |names| <==> Distinct(names)
  {
    if names != [] {
      var init := names[..|names| - 1];
      var last := names[|names| - 1];
      assert names == init + [last];
      CollapseCount(init);
      assert Base(names).fields == Base(init).fields + {last};
      if last in init {
        var k :| 0 <= k < |init| && init[k] == last;
        assert names[k] == names[|names| - 1];
      } else {
        DistinctSnoc(init, last);
      }
    }
  }

  /** Appending a new element keeps a sequence duplicate-free, and only then. */
  lemma DistinctSnoc(init: seq<string>, last: string)
    requires last !in init
    ensures Distinct(init + [last]) <==> Distinct(init)
  {
    var names := init + [last];
    if Distinct(init) {
      forall i, j | 0 <= i < j < |names| ensures names[i] != names[j] {
        if j < |names| - 1 { assert names[i] == init[i] && names[j] == init[j]; }
        else { assert names[i] in init; }
      }
    }
    if Distinct(names) {
      forall i, j | 0 <= i < j < |init| ensures init[i] != init[j] {
        assert names[i] == init[i] && names[j] == init[j];
      }
    }
  }

  /** The default policy sets: nothing is contained. */
  lemma EmptyContainsNothing(item: string)
    ensures !Base([]).Contains(item)
  {
  }
}
