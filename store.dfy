/** The MongoDB collection the documents talk to, reduced to what the
    encrypted document uses: `find_one` with a projection, `update_one`
    with `$set` (optionally upserting), `update_one` with `$inc`, and
    `insert_one`. Filters match by equality (a literal value or `$eq`). */
module Store {
  import opened Wrappers
  import opened Values

  /** One filter condition: `{"$eq": v}` or a literal `v`. */
  predicate FieldMatches(v: Value, cond: Value) {
    if IsEq(cond) then v == cond.entries["$eq"] else v == cond
  }

  predicate IsEq(cond: Value) {
    cond.VDict? && cond.entries.Keys == {"$eq"}
  }

  /** A document matches when it has every filtered field, matching. */
  predicate Matches(doc: Dict, filter: Dict) {
    forall k :: k in filter ==> k in doc && FieldMatches(doc[k], filter[k])
  }

  /** The first document of the collection that matches, if any. */
  function FirstMatch(docs: seq<Dict>, filter: Dict): (r: Option<nat>)
    ensures r.Some? ==> r.value < |docs| && Matches(docs[r.value], filter)
    ensures r.Some? ==> forall j :: 0 <= j < r.value ==> !Matches(docs[j], filter)
    ensures r.None? ==> forall j :: 0 <= j < |docs| ==> !Matches(docs[j], filter)
  {
    if docs == [] then None
    else if Matches(docs[0], filter) then Some(0)
    else
      match FirstMatch(docs[1..], filter)
      case None => None
      case Some(i) => Some(i + 1)
  }

  /** A projection flag that selects its field. */
  predicate Truthy(v: Value) {
    !(v == VInt(0) || v == VBool(false))
  }

  /** An inclusion projection: it shows some field other than `_id`, or is
      exactly `{"_id": 1}`. */
  predicate Inclusive(proj: Dict) {
    (exists k :: k in proj && k != "_id" && Truthy(proj[k]))
    || (proj.Keys == {"_id"} && Truthy(proj["_id"]))
  }

  /** A document as a projection returns it: an inclusion projection keeps
      the shown fields and `_id` unless hidden; otherwise the hidden fields
      are dropped. */
  function Project(doc: Dict, proj: Dict): (r: Dict)
    ensures r.Keys <= doc.Keys && forall k :: k in r ==> r[k] == doc[k]
    ensures "_id" in proj && !Truthy(proj["_id"]) ==> "_id" !in r
  {
    if Inclusive(proj) then
      map k | k in doc && ((k in proj && Truthy(proj[k])) || (k == "_id" && "_id" !in proj)) :: doc[k]
    else
      map k | k in doc && !(k in proj && !Truthy(proj[k])) :: doc[k]
  }

  /** The fields a `$set` upsert seeds a new document with: the filter's
      equality conditions. */
  function Seed(filter: Dict): (r: Dict)
    ensures r.Keys == filter.Keys
  {
    map k | k in filter :: if IsEq(filter[k]) then filter[k].entries["$eq"] else filter[k]
  }

  /** The collection after `update_one(filter, {"$set": fields}, upsert=...)`. */
  function SetResult(docs: seq<Dict>, filter: Dict, fields: Dict, upsert: bool): (r: seq<Dict>)
    ensures |r| == |docs| + (if upsert && FirstMatch(docs, filter).None? then 1 else 0)
  {
    match FirstMatch(docs, filter)
    case Some(i) => docs[i := docs[i] + fields]
    case None => if upsert then docs + [Seed(filter) + fields] else docs
  }

  /** The server's write error for `$inc` on a value that is not a number.
      Its text is the server's; this one is a stand-in naming the field. */
  function IncError(field: string): Error {
    WriteError("Cannot apply $inc to a value of non-numeric type: field '" + field + "'")
  }

  /** The collection after `update_one(filter, {"$inc": {field: amount}})`,
      or the write error for a field that is not a number. */
  function IncResult(docs: seq<Dict>, filter: Dict, field: string, amount: int): (r: Result<seq<Dict>, Error>)
    ensures r.Ok? ==> |r.value| == |docs|
    ensures r.Err? ==> r.error == IncError(field)
  {
    match FirstMatch(docs, filter)
    case None => Ok(docs)
    case Some(i) =>
      if field !in docs[i] then Ok(docs[i := docs[i][field := VInt(amount)]])
      else if docs[i][field].VInt? then Ok(docs[i := docs[i][field := VInt(docs[i][field].i + amount)]])
      else Err(IncError(field))
  }

  class Collection {
    var docs: seq<Dict>

    constructor ()
      ensures docs == []
    {
      docs := [];
    }

    /** `find_one(filter, projection)`; an empty projection returns the
        whole document. */
    function FindOne(filter: Dict, proj: Dict): (r: Option<Dict>)
      reads this
      ensures r.Some? <==> exists j :: 0 <= j < |docs| && Matches(docs[j], filter)
      ensures r.Some? ==> exists j :: 0 <= j < |docs| && Matches(docs[j], filter) && r.value == Project(docs[j], proj)
    {
      match FirstMatch(docs, filter)
      case None => None
      case Some(i) => Some(Project(docs[i], proj))
    }

    method InsertOne(doc: Dict)
      modifies this
      ensures docs == old(docs) + [doc]
    {
      docs := docs + [doc];
    }

    method SetOne(filter: Dict, fields: Dict, upsert: bool)
      modifies this
      ensures docs == SetResult(old(docs), filter, fields, upsert)
    {
      docs := SetResult(docs, filter, fields, upsert);
    }

    method IncOne(filter: Dict, field: string, amount: int) returns (err: Option<Error>)
      modifies this
      ensures var r := IncResult(old(docs), filter, field, amount);
        if r.Ok? then err.None? && docs == r.value else err == Some(r.error) && docs == old(docs)
    {
      var r := IncResult(docs, filter, field, amount);
      if r.Ok? {
        docs := r.value;
        err := None;
      } else {
        err := Some(r.error);
      }
    }
  }

  /** `$set` changes only the first matching document, whose other fields
      it keeps; without a match and without upsert nothing changes. */
  lemma SetTouchesFirstMatch(docs: seq<Dict>, filter: Dict, fields: Dict, upsert: bool)
    ensures var r := SetResult(docs, filter, fields, upsert);
      match FirstMatch(docs, filter)
      case Some(i) =>
        |r| == |docs| && (forall j :: 0 <= j < |docs| && j != i ==> r[j] == docs[j])
        && r[i].Keys == docs[i].Keys + fields.Keys
        && (forall k :: k in fields ==> r[i][k] == fields[k])
        && (forall k :: k in docs[i] && k !in fields ==> r[i][k] == docs[i][k])
      case None =>
        r == if upsert then docs + [Seed(filter) + fields] else docs
  {
  }

  /** The document an upsert creates matches its filter, provided the set
      fields agree with the filter where both name a field. */
  lemma SeedMatches(filter: Dict, fields: Dict)
    requires forall k :: k in filter && k in fields ==> FieldMatches(fields[k], filter[k])
    ensures Matches(Seed(filter) + fields, filter)
  {
  }

  /** After a `$set` that matched, the same filter and an empty projection
      find the updated document, provided the set fields keep it matching. */
  lemma FindAfterSet(docs: seq<Dict>, filter: Dict, fields: Dict)
    requires FirstMatch(docs, filter).Some?
    requires forall k :: k in filter && k in fields ==> FieldMatches(fields[k], filter[k])
    ensures FirstMatch(SetResult(docs, filter, fields, false), filter) == FirstMatch(docs, filter)
  {
    var i := FirstMatch(docs, filter).value;
    var r := SetResult(docs, filter, fields, false);
    assert Matches(r[i], filter);
    FirstMatchAt(r, filter, i);
  }

  /** The first match is the least matching index. */
  lemma {:induction false} FirstMatchAt(docs: seq<Dict>, filter: Dict, i: nat)
    requires i < |docs| && Matches(docs[i], filter)
    requires forall j :: 0 <= j < i ==> !Matches(docs[j], filter)
    ensures FirstMatch(docs, filter) == Some(i)
  {
    if i > 0 {
      FirstMatchAt(docs[1..], filter, i - 1);
    }
  }

  /** `$inc` adds to an integer field and creates a missing one. */
  lemma IncAdds(docs: seq<Dict>, filter: Dict, field: string, amount: int)
    requires FirstMatch(docs, filter).Some?
    ensures var i := FirstMatch(docs, filter).value;
      var r := IncResult(docs, filter, field, amount);
      (field !in docs[i] || docs[i][field].VInt? <==> r.Ok?)
      && (r.Ok? ==> r.value[i][field] == VInt((if field in docs[i] then docs[i][field].i else 0) + amount))
  {
  }

  /** A projection that shows one field returns at most that field. */
  lemma ShowOneField(doc: Dict, field: string)
    ensures var proj := if field == "_id" then map["_id" := VInt(1)] else map[field := VInt(1), "_id" := VInt(0)];
      Project(doc, proj).Keys == doc.Keys * {field}
  {
    var proj := if field == "_id" then map["_id" := VInt(1)] else map[field := VInt(1), "_id" := VInt(0)];
    assert Truthy(proj[field]);
    assert Inclusive(proj);
  }

  /** An empty projection returns the whole document. */
  lemma EmptyProjectionKeepsAll(doc: Dict)
    ensures Project(doc, map[]) == doc
  {
  }
}
