/** The search parameters of the listings API and `buildQueryParams`, which turns
    them into the ordered name/value pairs of the request's query string. */
module QueryParams {
  import opened Common
  import opened Sequences

  /** `PropertySearchParams`: every field is optional. */
  datatype SearchParams = SearchParams(
    city: Option<string>,
    state: Option<string>,
    zipCode: Option<string>,
    minPrice: Option<real>,
    maxPrice: Option<real>,
    minBeds: Option<real>,
    maxBeds: Option<real>,
    minBaths: Option<real>,
    maxBaths: Option<real>,
    propertyType: Option<string>,
    limit: Option<real>,
    page: Option<real>)

  /** `{}`: no parameter given. */
  const NoParams := SearchParams(None, None, None, None, None, None, None, None, None, None, None, None)

  /** A query parameter value before URL encoding: a string, or a number `toString` will print. */
  datatype ParamValue = PStr(s: string) | PNum(n: real)

  datatype QueryParam = QueryParam(name: string, value: ParamValue)

  /** `if (params.x)`: a field is sent only when it is truthy, so `0` and `""` are dropped. */
  predicate Sent(v: Option<ParamValue>) {
    match v
    case None => false
    case Some(PStr(s)) => s != ""
    case Some(PNum(n)) => n != 0.0
  }

  function Str(v: Option<string>): Option<ParamValue> {
    match v
    case None => None
    case Some(s) => Some(PStr(s))
  }

  function Num(v: Option<real>): Option<ParamValue> {
    match v
    case None => None
    case Some(n) => Some(PNum(n))
  }

  /** The query-string names, in the order `buildQueryParams` appends them. */
  const ParamNames: seq<string> := ["city", "state", "postalCode", "minPrice", "maxPrice", "minBeds",
                                    "maxBeds", "minBaths", "maxBaths", "propertyType", "limit", "page"]

  /** The parameter fields, aligned with `ParamNames`; `zipCode` is sent as `postalCode`. */
  function Fields(p: SearchParams): (r: seq<Option<ParamValue>>)
    ensures |r| == |ParamNames|
  {
    [Str(p.city), Str(p.state), Str(p.zipCode), Num(p.minPrice), Num(p.maxPrice), Num(p.minBeds),
     Num(p.maxBeds), Num(p.minBaths), Num(p.maxBaths), Str(p.propertyType), Num(p.limit), Num(p.page)]
  }

  /** Appends one `name=value` pair per sent field, in order. */
  function Emit(names: seq<string>, values: seq<Option<ParamValue>>): (r: seq<QueryParam>)
    requires |names| == |values|
    ensures |r| <= |names|
    ensures forall q :: q in r ==> q.name in names && Sent(Some(q.value))
  {
    if names == [] then []
    else
      (if Sent(values[0]) then [QueryParam(names[0], values[0].value)] else [])
      + Emit(names[1..], values[1..])
  }

  /** `buildQueryParams(params)`, before `URLSearchParams` percent-encodes the pairs. */
  function BuildQueryParams(p: SearchParams): (r: seq<QueryParam>)
    ensures |r| <= |ParamNames|
    ensures forall q :: q in r ==> q.name in ParamNames && Sent(Some(q.value))
    ensures forall i, j :: 0 <= i < j < |r| ==> r[i].name != r[j].name
  {
    ParamNamesDistinct();
    EmitDistinct(ParamNames, Fields(p));
    Emit(ParamNames, Fields(p))
  }

  /** Distinct names give a query that names each parameter at most once. */
  lemma {:induction false} EmitDistinct(names: seq<string>, values: seq<Option<ParamValue>>)
    requires |names| == |values|
    requires forall i, j :: 0 <= i < j < |names| ==> names[i] != names[j]
    ensures forall i, j :: 0 <= i < j < |Emit(names, values)| ==> Emit(names, values)[i].name != Emit(names, values)[j].name
  {
    if names != [] {
      EmitDistinct(names[1..], values[1..]);
      var head := if Sent(values[0]) then [QueryParam(names[0], values[0].value)] else [];
      var rest := Emit(names[1..], values[1..]);
      assert Emit(names, values) == head + rest;
      forall q | q in rest
        ensures q.name != names[0]
      {
        var k :| 0 <= k < |names[1..]| && names[1..][k] == q.name;
        assert names[k + 1] == q.name;
      }
      forall i, j | 0 <= i < j < |head + rest|
        ensures (head + rest)[i].name != (head + rest)[j].name
      {
        assert (head + rest)[j] == rest[j - |head|];
        if i < |head| {
          assert (head + rest)[i] == head[0] && head[0].name == names[0];
          assert rest[j - |head|] in rest;
        } else {
          assert (head + rest)[i] == rest[i - |head|];
        }
      }
    }
  }

  /** The first value given for `name` in a query, as `URLSearchParams.get` reads it. */
  function Lookup(q: seq<QueryParam>, name: string): Option<ParamValue> {
    if q == [] then None
    else if q[0].name == name then Some(q[0].value)
    else Lookup(q[1..], name)
  }

  function AsStr(v: Option<ParamValue>): Option<string> {
    match v
    case Some(PStr(s)) => Some(s)
    case _ => None
  }

  function AsNum(v: Option<ParamValue>): Option<real> {
    match v
    case Some(PNum(n)) => Some(n)
    case _ => None
  }

  /** Reads a query back into search parameters, the way the listings API interprets it. */
  function ParseQuery(q: seq<QueryParam>): SearchParams {
    SearchParams(
      AsStr(Lookup(q, "city")), AsStr(Lookup(q, "state")), AsStr(Lookup(q, "postalCode")),
      AsNum(Lookup(q, "minPrice")), AsNum(Lookup(q, "maxPrice")), AsNum(Lookup(q, "minBeds")),
      AsNum(Lookup(q, "maxBeds")), AsNum(Lookup(q, "minBaths")), AsNum(Lookup(q, "maxBaths")),
      AsStr(Lookup(q, "propertyType")), AsNum(Lookup(q, "limit")), AsNum(Lookup(q, "page")))
  }

  function DropStr(v: Option<string>): Option<string> {
    if Sent(Str(v)) then v else None
  }

  function DropNum(v: Option<real>): Option<real> {
    if Sent(Num(v)) then v else None
  }

  /** The parameters with every falsy field cleared: what the request actually carries. */
  function DropFalsy(p: SearchParams): SearchParams {
    SearchParams(
      DropStr(p.city), DropStr(p.state), DropStr(p.zipCode), DropNum(p.minPrice), DropNum(p.maxPrice),
      DropNum(p.minBeds), DropNum(p.maxBeds), DropNum(p.minBaths), DropNum(p.maxBaths),
      DropStr(p.propertyType), DropNum(p.limit), DropNum(p.page))
  }

  /** Looking up the `k`-th name of a list of distinct names finds the `k`-th value exactly when it was sent. */
  lemma {:induction false} LookupEmit(names: seq<string>, values: seq<Option<ParamValue>>, k: nat)
    requires |names| == |values| && k < |names|
    requires forall i, j :: 0 <= i < j < |names| ==> names[i] != names[j]
    ensures Lookup(Emit(names, values), names[k]) == if Sent(values[k]) then values[k] else None
  {
    var head := if Sent(values[0]) then [QueryParam(names[0], values[0].value)] else [];
    var rest := Emit(names[1..], values[1..]);
    assert Emit(names, values) == head + rest;
    if k == 0 {
      if !Sent(values[0]) {
        assert head + rest == rest;
        LookupAbsent(rest, names[0], names[1..], values[1..]);
      }
    } else {
      LookupEmit(names[1..], values[1..], k - 1);
      if Sent(values[0]) {
        assert (head + rest)[1..] == rest;
      } else {
        assert head + rest == rest;
      }
    }
  }

  /** A name the emitted list never mentions is not found. */
  lemma {:induction false} LookupAbsent(q: seq<QueryParam>, name: string, names: seq<string>, values: seq<Option<ParamValue>>)
    requires |names| == |values| && q == Emit(names, values) && name !in names
    ensures Lookup(q, name) == None
  {
    if q != [] {
      assert q[0] in q;
      LookupNotIn(q, name);
    }
  }

  /** Lookup of a name no pair carries. */
  lemma {:induction false} LookupNotIn(q: seq<QueryParam>, name: string)
    requires forall p :: p in q ==> p.name != name
    ensures Lookup(q, name) == None
  {
    if q != [] {
      assert forall p :: p in q[1..] ==> p in q;
      LookupNotIn(q[1..], name);
    }
  }

  lemma ParamNamesDistinct()
    ensures forall i, j :: 0 <= i < j < |ParamNames| ==> ParamNames[i] != ParamNames[j]
  {
  }

  /** The `k`-th parameter is found in the built query exactly when it is truthy. */
  lemma LookupBuilt(p: SearchParams, k: nat)
    requires k < |ParamNames|
    ensures Lookup(BuildQueryParams(p), ParamNames[k]) == if Sent(Fields(p)[k]) then Fields(p)[k] else None
  {
    ParamNamesDistinct();
    LookupEmit(ParamNames, Fields(p), k);
  }

  /** A query that carries exactly the truthy fields of `p` parses back to them. */
  lemma ParseSentFields(p: SearchParams, q: seq<QueryParam>)
    requires forall k :: 0 <= k < |ParamNames| ==>
               Lookup(q, ParamNames[k]) == if Sent(Fields(p)[k]) then Fields(p)[k] else None
    ensures ParseQuery(q) == DropFalsy(p)
  {
    ParseSentFirstSix(p, q);
    ParseSentLastSix(p, q);
  }

  /** The first six fields of `ParamNames` parse back. */
  lemma ParseSentFirstSix(p: SearchParams, q: seq<QueryParam>)
    requires forall k :: 0 <= k < |ParamNames| ==>
               Lookup(q, ParamNames[k]) == if Sent(Fields(p)[k]) then Fields(p)[k] else None
    ensures ParseQuery(q).city == DropStr(p.city) && ParseQuery(q).state == DropStr(p.state) && ParseQuery(q).zipCode == DropStr(p.zipCode)
    ensures ParseQuery(q).minPrice == DropNum(p.minPrice) && ParseQuery(q).maxPrice == DropNum(p.maxPrice) && ParseQuery(q).minBeds == DropNum(p.minBeds)
  {
    var r := ParseQuery(q);
    assert r.city == DropStr(p.city) by { assert Lookup(q, ParamNames[0]) == if Sent(Fields(p)[0]) then Fields(p)[0] else None; }
    assert r.state == DropStr(p.state) by { assert Lookup(q, ParamNames[1]) == if Sent(Fields(p)[1]) then Fields(p)[1] else None; }
    assert r.zipCode == DropStr(p.zipCode) by { assert Lookup(q, ParamNames[2]) == if Sent(Fields(p)[2]) then Fields(p)[2] else None; }
    assert r.minPrice == DropNum(p.minPrice) by { assert Lookup(q, ParamNames[3]) == if Sent(Fields(p)[3]) then Fields(p)[3] else None; }
    assert r.maxPrice == DropNum(p.maxPrice) by { assert Lookup(q, ParamNames[4]) == if Sent(Fields(p)[4]) then Fields(p)[4] else None; }
    assert r.minBeds == DropNum(p.minBeds) by { assert Lookup(q, ParamNames[5]) == if Sent(Fields(p)[5]) then Fields(p)[5] else None; }
  }

  /** The last six fields of `ParamNames` parse back. */
  lemma ParseSentLastSix(p: SearchParams, q: seq<QueryParam>)
    requires forall k :: 0 <= k < |ParamNames| ==>
               Lookup(q, ParamNames[k]) == if Sent(Fields(p)[k]) then Fields(p)[k] else None
    ensures ParseQuery(q).maxBeds == DropNum(p.maxBeds) && ParseQuery(q).minBaths == DropNum(p.minBaths) && ParseQuery(q).maxBaths == DropNum(p.maxBaths)
    ensures ParseQuery(q).propertyType == DropStr(p.propertyType) && ParseQuery(q).limit == DropNum(p.limit) && ParseQuery(q).page == DropNum(p.page)
  {
    var r := ParseQuery(q);
    assert r.maxBeds == DropNum(p.maxBeds) by { assert Lookup(q, ParamNames[6]) == if Sent(Fields(p)[6]) then Fields(p)[6] else None; }
    assert r.minBaths == DropNum(p.minBaths) by { assert Lookup(q, ParamNames[7]) == if Sent(Fields(p)[7]) then Fields(p)[7] else None; }
    assert r.maxBaths == DropNum(p.maxBaths) by { assert Lookup(q, ParamNames[8]) == if Sent(Fields(p)[8]) then Fields(p)[8] else None; }
    assert r.propertyType == DropStr(p.propertyType) by { assert Lookup(q, ParamNames[9]) == if Sent(Fields(p)[9]) then Fields(p)[9] else None; }
    assert r.limit == DropNum(p.limit) by { assert Lookup(q, ParamNames[10]) == if Sent(Fields(p)[10]) then Fields(p)[10] else None; }
    assert r.page == DropNum(p.page) by { assert Lookup(q, ParamNames[11]) == if Sent(Fields(p)[11]) then Fields(p)[11] else None; }
  }

  /** Reading back the query of `buildQueryParams` gives exactly the truthy parameters:
      falsy fields are omitted and `zipCode` travels as `postalCode`. */
  lemma BuildQueryParamsRoundTrip(p: SearchParams)
    ensures ParseQuery(BuildQueryParams(p)) == DropFalsy(p)
  {
    forall k | 0 <= k < |ParamNames|
      ensures Lookup(BuildQueryParams(p), ParamNames[k]) == if Sent(Fields(p)[k]) then Fields(p)[k] else None
    {
      LookupBuilt(p, k);
    }
    ParseSentFields(p, BuildQueryParams(p));
  }

  /** The names of a query's pairs, in order. */
  function NamesOf(q: seq<QueryParam>): (r: seq<string>)
    ensures |r| == |q|
  {
    seq(|q|, i requires 0 <= i < |q| => q[i].name)
  }

  /** `Emit` keeps the order of the names it is given. */
  lemma {:induction false} EmitOrdered(names: seq<string>, values: seq<Option<ParamValue>>)
    requires |names| == |values|
    ensures IsSubseq(NamesOf(Emit(names, values)), names)
  {
    if names != [] {
      var head := if Sent(values[0]) then [QueryParam(names[0], values[0].value)] else [];
      var rest := Emit(names[1..], values[1..]);
      EmitOrdered(names[1..], values[1..]);
      if head == [] {
        assert Emit(names, values) == rest;
      } else {
        assert NamesOf(head + rest) == [names[0]] + NamesOf(rest);
      }
    }
  }

  /** The pairs come out in the fixed order city, state, postalCode, minPrice, maxPrice,
      minBeds, maxBeds, minBaths, maxBaths, propertyType, limit, page. */
  lemma BuildQueryParamsOrder(p: SearchParams)
    ensures IsSubseq(NamesOf(BuildQueryParams(p)), ParamNames)
  {
    EmitOrdered(ParamNames, Fields(p));
  }

  /** No pair is appended when no field is given. */
  lemma {:induction false} EmitNone(names: seq<string>, values: seq<Option<ParamValue>>)
    requires |names| == |values|
    requires forall i :: 0 <= i < |values| ==> values[i].None?
    ensures Emit(names, values) == []
  {
    if names != [] {
      EmitNone(names[1..], values[1..]);
    }
  }

  /** Exactly one pair is appended when exactly one field is given and sent. */
  lemma {:induction false} EmitSingle(names: seq<string>, values: seq<Option<ParamValue>>, k: nat)
    requires |names| == |values| && k < |values| && Sent(values[k])
    requires forall i :: 0 <= i < |values| && i != k ==> values[i].None?
    ensures Emit(names, values) == [QueryParam(names[k], values[k].value)]
  {
    if k == 0 {
      EmitNone(names[1..], values[1..]);
    } else {
      EmitSingle(names[1..], values[1..], k - 1);
    }
  }

  /** Parameters giving only a non-zero `limit` build the single pair `limit=<n>`. */
  lemma OnlyLimit(n: real)
    requires n != 0.0
    ensures BuildQueryParams(NoParams.(limit := Some(n))) == [QueryParam("limit", PNum(n))]
  {
    var p := NoParams.(limit := Some(n));
    EmitSingle(ParamNames, Fields(p), 10);
  }
}
