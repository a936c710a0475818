/**
  optimize/app.py: the in-memory sculpture table behind the web handlers.
  Records live in one list; GET finds the first record with an id, DELETE
  removes the first one, POST appends a record with a fresh id, and PUT
  removes the record and appends a merged copy at the end, each field
  taken from the request when it is truthy and from the stored record
  otherwise.
 */
module Sculptures {
  import opened Outcomes

  /** A JSON value as Flask hands it over; Python's truthiness decides the PUT merge. */
  datatype Json = Null | Bool(b: bool) | Num(x: real) | Str(s: string) | Arr(items: seq<Json>) | Obj(fields: map<string, Json>)

  /** `bool(v)`: None, False, zero and empty strings, lists and dicts are false. */
  predicate Truthy(v: Json) {
    match v
    case Null => false
    case Bool(b) => b
    case Num(x) => x != 0.0
    case Str(s) => s != ""
    case Arr(items) => items != []
    case Obj(fields) => fields != map[]
  }

  /** A request body: the JSON object `request.get_json()` returns. */
  type Body = map<string, Json>

  /** `body.get(key)`: None when the key is missing. */
  function Get(body: Body, key: string): Json {
    if key in body then body[key] else Null
  }

  /** One stored sculpture: its id and the six fields every handler writes. */
  datatype Sculpture = Sculpture(
    id: string,
    name: Json,
    targetFrequencies: Json,
    materialParams: Json,
    simulationParams: Json,
    geometryParams: Json,
    resultsStore: Json)

  /** The request keys of the six fields, in the order the handlers write them. */
  const Keys: seq<string> := ["name", "target_frequencies", "material_params", "simulation_params", "geometry_params", "results_store"]

  /** The k-th of the six fields, in the order the handlers write them. */
  function StoredField(c: Sculpture, k: int): Json
    requires 0 <= k < 6
  {
    if k == 0 then c.name
    else if k == 1 then c.targetFrequencies
    else if k == 2 then c.materialParams
    else if k == 3 then c.simulationParams
    else if k == 4 then c.geometryParams
    else c.resultsStore
  }

  /** The record POST stores: the fresh id and the request's six fields. */
  function FromBody(id: string, body: Body): (s: Sculpture)
    ensures s.id == id
  {
    Sculpture(id, Get(body, "name"), Get(body, "target_frequencies"), Get(body, "material_params"),
              Get(body, "simulation_params"), Get(body, "geometry_params"), Get(body, "results_store"))
  }

  // ---- finding and removing by id ----

  /** The index of the first record with the id, if any. */
  function FirstIndex(s: seq<Sculpture>, id: string): (r: Option<nat>)
    ensures r.Some? ==> r.value < |s| && s[r.value].id == id
    ensures r.Some? ==> forall j | 0 <= j < r.value :: s[j].id != id
    ensures r.None? ==> forall j | 0 <= j < |s| :: s[j].id != id
    decreases |s|
  {
    if s == [] then None
    else if s[0].id == id then Some(0)
    else match FirstIndex(s[1..], id)
      case None => None
      case Some(i) => Some(i + 1)
  }

  /** `retrieve_sculpture(id)`'s answer: the first record with the id, or nothing (False). */
  function FindFirst(s: seq<Sculpture>, id: string): Option<Sculpture> {
    match FirstIndex(s, id)
    case None => None
    case Some(i) => Some(s[i])
  }

  /** What `remove_sculpture(id)` leaves: the list without its first record with the id. */
  function RemoveFirst(s: seq<Sculpture>, id: string): seq<Sculpture> {
    match FirstIndex(s, id)
    case None => s
    case Some(i) => s[..i] + s[i + 1..]
  }

  /** The first record found has the id, no earlier record has it, and nothing is found only when no record has it. */
  lemma FindFirstMeaning(s: seq<Sculpture>, id: string)
    ensures FindFirst(s, id).None? <==> forall j | 0 <= j < |s| :: s[j].id != id
    ensures FindFirst(s, id).Some? ==> FindFirst(s, id).value in s && FindFirst(s, id).value.id == id
  {
  }

  /**
    Removal drops exactly one record when some record has the id (leaving
    the others in order) and changes nothing otherwise.
   */
  lemma RemoveFirstMeaning(s: seq<Sculpture>, id: string)
    ensures FindFirst(s, id).None? ==> RemoveFirst(s, id) == s
    ensures FindFirst(s, id).Some? ==> |RemoveFirst(s, id)| == |s| - 1
    ensures FindFirst(s, id).Some? ==> multiset(RemoveFirst(s, id)) + multiset{FindFirst(s, id).value} == multiset(s)
  {
    match FirstIndex(s, id)
    case None =>
    case Some(i) =>
      assert s == s[..i] + [s[i]] + s[i + 1..];
  }

  /** No two records share an id. */
  predicate UniqueIds(s: seq<Sculpture>) {
    forall i, j | 0 <= i < j < |s| :: s[i].id != s[j].id
  }

  /** With unique ids, removing a record keeps ids unique and leaves no record with that id. */
  lemma RemoveFirstUnique(s: seq<Sculpture>, id: string)
    requires UniqueIds(s)
    ensures UniqueIds(RemoveFirst(s, id))
    ensures FindFirst(RemoveFirst(s, id), id).None?
  {
    match FirstIndex(s, id)
    case None =>
    case Some(i) =>
      var r := s[..i] + s[i + 1..];
      assert forall j | 0 <= j < |r| :: r[j] == if j < i then s[j] else s[j + 1];
      FindFirstMeaning(r, id);
  }

  // ---- the PUT merge ----

  /** `updated or current` for one field. */
  function Pick(updated: Json, current: Json): Json {
    if Truthy(updated) then updated else current
  }

  /** Every one of the six request fields is truthy, so no stored value is consulted. */
  predicate AllTruthy(body: Body) {
    && Truthy(Get(body, "name")) && Truthy(Get(body, "target_frequencies"))
    && Truthy(Get(body, "material_params")) && Truthy(Get(body, "simulation_params"))
    && Truthy(Get(body, "geometry_params")) && Truthy(Get(body, "results_store"))
  }

  /**
    The record PUT appends, or the exception it raises: without a stored
    record `current_sculpture` is False, and the first falsy request field
    makes `False.get(...)` raise AttributeError.
   */
  function Merged(id: string, body: Body, current: Option<Sculpture>): Outcome<Sculpture> {
    if current.None? then
      if AllTruthy(body) then Ok(FromBody(id, body)) else Raised(AttributeError)
    else
      var c := current.value;
      Ok(Sculpture(id,
        Pick(Get(body, "name"), c.name),
        Pick(Get(body, "target_frequencies"), c.targetFrequencies),
        Pick(Get(body, "material_params"), c.materialParams),
        Pick(Get(body, "simulation_params"), c.simulationParams),
        Pick(Get(body, "geometry_params"), c.geometryParams),
        Pick(Get(body, "results_store"), c.resultsStore)))
  }

  /**
    Each of the six merged fields is the request's value when that is
    truthy and the stored value otherwise, and the id is the one PUT was
    called with; an empty request body keeps the stored record.
   */
  lemma MergedFields(id: string, body: Body, c: Sculpture)
    ensures var m := Merged(id, body, Some(c));
            && m.Ok? && m.value.id == id
            && forall k | 0 <= k < 6 :: StoredField(m.value, k) == if Truthy(Get(body, Keys[k])) then Get(body, Keys[k]) else StoredField(c, k)
    ensures Merged(c.id, map[], Some(c)) == Ok(c)
  {
  }

  /** Merging the same request into its own result changes nothing: a repeated PUT is stable. */
  lemma MergedIdempotent(id: string, body: Body, current: Option<Sculpture>)
    requires Merged(id, body, current).Ok?
    ensures Merged(id, body, Some(Merged(id, body, current).value)) == Merged(id, body, current)
  {
  }

  /** The table after PUT, or the exception it raises (the table is then unchanged). */
  function AfterPut(s: seq<Sculpture>, id: string, body: Body): Outcome<seq<Sculpture>> {
    match Merged(id, body, FindFirst(s, id))
    case Raised(e) => Raised(e)
    case Ok(m) => Ok(RemoveFirst(s, id) + [m])
  }

  /**
    With unique ids, a PUT keeps ids unique, the record with the id is
    then the merged one at the end, and repeating the same PUT gives the
    same table.
   */
  lemma PutUnique(s: seq<Sculpture>, id: string, body: Body)
    requires UniqueIds(s) && AfterPut(s, id, body).Ok?
    ensures var t := AfterPut(s, id, body).value;
            && UniqueIds(t) && |t| > 0 && t[|t| - 1].id == id
            && FindFirst(t, id) == Some(t[|t| - 1])
            && AfterPut(t, id, body) == Ok(t)
  {
    var m := Merged(id, body, FindFirst(s, id)).value;
    var r := RemoveFirst(s, id);
    var t := r + [m];
    RemoveFirstUnique(s, id);
    FindFirstMeaning(r, id);
    assert forall j | 0 <= j < |r| :: t[j] == r[j];
    assert UniqueIds(t);
    FirstIndexLast(r, m);
    assert FindFirst(t, id) == Some(m);
    MergedIdempotent(id, body, FindFirst(s, id));
    RemoveLast(r, m);
  }

  /** POST under an id no record has keeps ids unique, and the new record is what GET then finds. */
  lemma CreateFresh(s: seq<Sculpture>, id: string, body: Body)
    requires UniqueIds(s) && FindFirst(s, id).None?
    ensures UniqueIds(s + [FromBody(id, body)])
    ensures FindFirst(s + [FromBody(id, body)], id) == Some(FromBody(id, body))
  {
    var m := FromBody(id, body);
    FindFirstMeaning(s, id);
    FirstIndexLast(s, m);
    assert forall j | 0 <= j < |s| :: (s + [m])[j] == s[j];
  }

  /** Appending a record whose id no earlier record has: it is the first match. */
  lemma FirstIndexLast(r: seq<Sculpture>, m: Sculpture)
    requires forall j | 0 <= j < |r| :: r[j].id != m.id
    ensures FirstIndex(r + [m], m.id) == Some(|r|)
  {
    var s := r + [m];
    assert s[|r|] == m;
    assert forall j | 0 <= j < |r| :: s[j] == r[j];
  }

  /** Removing that appended record gives back the table it was appended to. */
  lemma RemoveLast(r: seq<Sculpture>, m: Sculpture)
    requires forall j | 0 <= j < |r| :: r[j].id != m.id
    ensures RemoveFirst(r + [m], m.id) == r
  {
    FirstIndexLast(r, m);
    assert (r + [m])[..|r|] == r;
  }

  /** The table object the handlers share. */
  class SculptureTable {
    var sculptures: seq<Sculpture>

    constructor(initial: seq<Sculpture>)
      ensures sculptures == initial
    {
      sculptures := initial;
    }

    /** `retrieve_sculpture(sculpture_id)`: the first record with the id, or False. */
    method Retrieve(id: string) returns (r: Option<Sculpture>)
      ensures r == FindFirst(sculptures, id)
    {
      var i := 0;
      while i < |sculptures|
        invariant 0 <= i <= |sculptures|
        invariant forall j | 0 <= j < i :: sculptures[j].id != id
      {
        if sculptures[i].id == id {
          FirstIndexAt(sculptures, id, i);
          return Some(sculptures[i]);
        }
        i := i + 1;
      }
      return None;
    }

    /** `remove_sculpture(sculpture_id)`: drops the first record with the id and says whether there was one. */
    method Remove(id: string) returns (removed: bool)
      modifies this
      ensures removed <==> FindFirst(old(sculptures), id).Some?
      ensures sculptures == RemoveFirst(old(sculptures), id)
    {
      var i := 0;
      while i < |sculptures|
        invariant 0 <= i <= |sculptures|
        invariant forall j | 0 <= j < i :: sculptures[j].id != id
      {
        if sculptures[i].id == id {
          FirstIndexAt(sculptures, id, i);
          sculptures := sculptures[..i] + sculptures[i + 1..];
          return true;
        }
        i := i + 1;
      }
      return false;
    }

    /** POST /sculptures: appends the request's record under a fresh id. */
    method Create(freshId: string, body: Body)
      modifies this
      ensures sculptures == old(sculptures) + [FromBody(freshId, body)]
    {
      sculptures := sculptures + [FromBody(freshId, body)];
    }

    /**
      PUT /sculptures/<id>: remove the stored record and append the
      merged one. Without a stored record the remove does nothing and
      the append happens only when every request field is truthy.
     */
    method Put(id: string, body: Body) returns (r: Outcome<()>)
      modifies this
      ensures r.Raised? <==> AfterPut(old(sculptures), id, body).Raised?
      ensures r.Raised? ==> r.exn == AttributeError && sculptures == old(sculptures)
      ensures r.Ok? ==> sculptures == AfterPut(old(sculptures), id, body).value
    {
      var current := Retrieve(id);
      var removed := Remove(id);
      var m := MergeRecord(id, body, current);
      if m.Raised? {
        return Raised(m.exn);
      }
      sculptures := sculptures + [m.value];
      return Ok(());
    }

    /** DELETE /sculptures/<id>: removes the record, succeeding whether or not it existed. */
    method Delete(id: string)
      modifies this
      ensures sculptures == RemoveFirst(old(sculptures), id)
    {
      var _ := Remove(id);
    }
  }

  /** The dictionary literal PUT builds, field by field with `or`. */
  method MergeRecord(id: string, body: Body, current: Option<Sculpture>) returns (r: Outcome<Sculpture>)
    ensures r == Merged(id, body, current)
  {
    var fields := seq(6, k requires 0 <= k < 6 => Get(body, Keys[k]));
    var picked: seq<Json> := [];
    for k := 0 to 6
      invariant |picked| == k
      invariant current.Some? ==> forall j | 0 <= j < k :: picked[j] == Pick(fields[j], StoredField(current.value, j))
      invariant current.None? ==> forall j | 0 <= j < k :: Truthy(fields[j]) && picked[j] == fields[j]
    {
      if Truthy(fields[k]) {
        picked := picked + [fields[k]];
      } else if current.None? {
        return Raised(AttributeError);
      } else {
        picked := picked + [StoredField(current.value, k)];
      }
    }
    return Ok(Sculpture(id, picked[0], picked[1], picked[2], picked[3], picked[4], picked[5]));
  }

  /** The scan stopped at the first record with the id. */
  lemma FirstIndexAt(s: seq<Sculpture>, id: string, i: int)
    requires 0 <= i < |s| && s[i].id == id
    requires forall j | 0 <= j < i :: s[j].id != id
    ensures FirstIndex(s, id) == Some(i)
  {
    match FirstIndex(s, id)
    case None =>
    case Some(k) =>
  }
}
