/** `PropertyService`: listing, fetching one listing and text search over the listings API.
    The network is a parameter: each request attempt is answered by a `FetchOutcome`. */
module ListingsClient {
  import opened Common
  import opened Sequences
  import opened JsValues
  import opened Normalizer
  import QueryParams

  /** The demo credential pairs tried in order, one request each. */
  datatype Credential = Credential(key: string, secret: string)

  const DemoCredentials: seq<Credential> :=
    [Credential("simplyrets", "simplyrets"), Credential("demo", "demo"), Credential("test", "test")]

  /** How one request ended: `fetch` or `response.json()` threw, the status was not 2xx,
      or a parsed body. */
  datatype FetchOutcome = Failed | NotOk(status: int) | Body(data: Json)

  // ---------------------------------------------------------------------------
  // Listing

  /** `v[key] && Array.isArray(v[key])`: the field holds an array (arrays are always truthy). */
  predicate ArrayField(v: Json, key: string) {
    Get(v, key).Some? && Get(v, key).value.JArr?
  }

  /** The listing array of a response body: the body itself when it is an array, else its
      `properties` array, else its `data` array, else none. Reading a field of `null` throws
      a TypeError, which the request loop catches (`None`). */
  function Unwrap(data: Json): (r: Option<seq<Json>>)
    ensures r.None? <==> data == JNull
    ensures data.JArr? ==> r == Some(data.items)
    ensures data.JObj? && ArrayField(data, "properties") ==> r == Some(Get(data, "properties").value.items)
    ensures data.JObj? && !ArrayField(data, "properties") && ArrayField(data, "data")
            ==> r == Some(Get(data, "data").value.items)
    ensures data.JObj? && !ArrayField(data, "properties") && !ArrayField(data, "data") ==> r == Some([])
    ensures data.JBool? || data.JNum? || data.JStr? ==> r == Some([])
  {
    match data
    case JNull => None
    case JArr(items) => Some(items)
    case _ =>
      match Get(data, "properties")
      case Some(JArr(items)) => Some(items)
      case _ =>
        match Get(data, "data")
        case Some(JArr(items)) => Some(items)
        case _ => Some([])
  }

  /** The three envelopes the listings API may use all unwrap to the listing they carry, and
      a `properties` array is preferred to a `data` array. */
  lemma UnwrapEnvelopes(items: seq<Json>, other: seq<Json>)
    ensures Unwrap(JArr(items)) == Some(items)
    ensures Unwrap(JObj([Field("properties", JArr(items))])) == Some(items)
    ensures Unwrap(JObj([Field("data", JArr(items))])) == Some(items)
    ensures Unwrap(JObj([Field("data", JArr(other)), Field("properties", JArr(items))])) == Some(items)
  {
    assert "data"[0] != "properties"[0];
    var both := JObj([Field("data", JArr(other)), Field("properties", JArr(items))]);
    assert Lookup(both.entries[1..], "properties") == Some(JArr(items));
    assert Get(both, "properties") == Some(JArr(items));
  }

  /** A record normalizer: `transformProperty` with the clock fixed. The request loops are
      stated for any normalizer and used with `Normalizing(now)`. */
  type Normalize = Json -> Result<Property, TransformError>

  /** The source's `transformProperty` with `Date.now()` reading `now`. */
  function Normalizing(now: nat): Normalize {
    raw => Transform(raw, now, AsWritten)
  }

  /** `raws.map(transformProperty)`: every record normalized, or the first TypeError thrown. */
  function TransformAll(raws: seq<Json>, f: Normalize): (r: Result<seq<Property>, TransformError>)
    ensures r.Ok? <==> forall i :: 0 <= i < |raws| ==> f(raws[i]).Ok?
    ensures r.Ok? ==> |r.value| == |raws| && forall i :: 0 <= i < |raws| ==> r.value[i] == f(raws[i]).value
    ensures r.Err? ==> exists i :: 0 <= i < |raws| && f(raws[i]) == Err(r.error)
                                   && forall j :: 0 <= j < i ==> f(raws[j]).Ok?
  {
    if raws == [] then Ok([])
    else
      match f(raws[0])
      case Err(e) => Err(e)
      case Ok(p) =>
        var rest := TransformAll(raws[1..], f);
        assert forall i :: 1 <= i < |raws| ==> raws[i] == raws[1..][i - 1];
        match rest
        case Err(e) =>
          var i :| 0 <= i < |raws[1..]| && f(raws[1..][i]) == Err(e) && forall j :: 0 <= j < i ==> f(raws[1..][j]).Ok?;
          assert f(raws[i + 1]) == Err(e) && forall j :: 0 <= j < i + 1 ==> f(raws[j]).Ok?;
          Err(e)
        case Ok(ps) => Ok([p] + ps)
  }

  /** A response the listing loop stops at: a parsed body holding a non-empty listing array. */
  predicate Usable(o: FetchOutcome) {
    o.Body? && Unwrap(o.data).Some? && |Unwrap(o.data).value| > 0
  }

  /** The `i`-th attempt is the first the listing loop stops at. */
  predicate FirstUsable(outcomes: seq<FetchOutcome>, i: int) {
    0 <= i < |outcomes| && Usable(outcomes[i]) && forall j :: 0 <= j < i ==> !Usable(outcomes[j])
  }

  /** What the listing returns once it stops at a usable response: the normalized array,
      or `[]` when a record throws while being normalized. */
  function ListingOf(o: FetchOutcome, f: Normalize): (r: seq<Property>)
    requires Usable(o)
    ensures TransformAll(Unwrap(o.data).value, f).Ok? ==> r == TransformAll(Unwrap(o.data).value, f).value
    ensures TransformAll(Unwrap(o.data).value, f).Err? ==> r == []
  {
    match TransformAll(Unwrap(o.data).value, f)
    case Ok(ps) => ps
    case Err(_) => []
  }

  /** The credential loop of `getProperties` over the remaining attempts' outcomes. */
  function ListFrom(outcomes: seq<FetchOutcome>, f: Normalize): (r: seq<Property>)
    ensures (forall i :: 0 <= i < |outcomes| ==> !Usable(outcomes[i])) ==> r == []
    ensures forall i :: FirstUsable(outcomes, i) ==> r == ListingOf(outcomes[i], f)
  {
    if outcomes == [] then []
    else if Usable(outcomes[0]) then
      ListingOf(outcomes[0], f)
    else
      var rest := ListFrom(outcomes[1..], f);
      assert forall i :: 1 <= i < |outcomes| ==> outcomes[i] == outcomes[1..][i - 1];
      assert forall i :: FirstUsable(outcomes, i) ==> FirstUsable(outcomes[1..], i - 1);
      rest
  }

  /** `getProperties`: one attempt per demo credential, `now` read by `Date.now()`. It never
      throws; every failure ends in `[]`. The diagnostic request after the loop does not
      affect the result. */
  function GetProperties(outcomes: seq<FetchOutcome>, now: nat): (r: seq<Property>)
    requires |outcomes| == |DemoCredentials|
    ensures (forall i :: 0 <= i < |outcomes| ==> !Usable(outcomes[i])) ==> r == []
    ensures forall i :: FirstUsable(outcomes, i) ==> r == ListingOf(outcomes[i], Normalizing(now))
  {
    ListFrom(outcomes, Normalizing(now))
  }

  /** A non-empty listing is the complete normalization of the first usable response. */
  lemma {:induction false} NonEmptyListing(outcomes: seq<FetchOutcome>, f: Normalize)
    requires ListFrom(outcomes, f) != []
    ensures exists i :: FirstUsable(outcomes, i)
                        && TransformAll(Unwrap(outcomes[i].data).value, f).Ok?
                        && |ListFrom(outcomes, f)| == |Unwrap(outcomes[i].data).value|
  {
    if Usable(outcomes[0]) {
      assert FirstUsable(outcomes, 0);
    } else {
      NonEmptyListing(outcomes[1..], f);
      var i :| FirstUsable(outcomes[1..], i)
               && TransformAll(Unwrap(outcomes[1..][i].data).value, f).Ok?
               && |ListFrom(outcomes[1..], f)| == |Unwrap(outcomes[1..][i].data).value|;
      assert FirstUsable(outcomes, i + 1);
    }
  }

  // ---------------------------------------------------------------------------
  // One listing by id

  /** A response that `getPropertyById` returns from: a parsed body that normalizes. */
  predicate Found(o: FetchOutcome, f: Normalize) {
    o.Body? && f(o.data).Ok?
  }

  /** The credential loop of `getPropertyById`: a body that fails to normalize moves on to the
      next credentials; `null` when every attempt fails. */
  function FindFrom(outcomes: seq<FetchOutcome>, f: Normalize): (r: Option<Property>)
    ensures r.Some? <==> exists i :: 0 <= i < |outcomes| && Found(outcomes[i], f)
    ensures forall i :: 0 <= i < |outcomes| && Found(outcomes[i], f) && (forall j :: 0 <= j < i ==> !Found(outcomes[j], f))
                        ==> r == Some(f(outcomes[i].data).value)
  {
    if outcomes == [] then None
    else if Found(outcomes[0], f) then Some(f(outcomes[0].data).value)
    else
      var rest := FindFrom(outcomes[1..], f);
      assert forall i :: 1 <= i < |outcomes| ==> outcomes[i] == outcomes[1..][i - 1];
      rest
  }

  /** `getPropertyById`: one attempt per demo credential. */
  function GetPropertyById(outcomes: seq<FetchOutcome>, now: nat): (r: Option<Property>)
    requires |outcomes| == |DemoCredentials|
    ensures r.Some? <==> exists i :: 0 <= i < |outcomes| && Found(outcomes[i], Normalizing(now))
    ensures forall i :: 0 <= i < |outcomes| && Found(outcomes[i], Normalizing(now))
                        && (forall j :: 0 <= j < i ==> !Found(outcomes[j], Normalizing(now)))
                        ==> r == Some(Transform(outcomes[i].data, now, AsWritten).value)
  {
    FindFrom(outcomes, Normalizing(now))
  }

  /** A `null` body never yields a listing by id: normalizing it throws and the loop moves on. */
  lemma NullBodyNotFound(outcomes: seq<FetchOutcome>, now: nat)
    requires |outcomes| == |DemoCredentials|
    requires forall i :: 0 <= i < |outcomes| ==> outcomes[i] == Body(JNull)
    ensures GetPropertyById(outcomes, now) == None
  {
    assert Transform(JNull, now, AsWritten).Err?;
    assert forall i :: 0 <= i < |outcomes| ==> !Found(outcomes[i], Normalizing(now));
  }

  // ---------------------------------------------------------------------------
  // Text search

  /** The parameters the search lists with: `{ limit: 100 }`. They only shape the request URL;
      the outcomes of the requests are given, so nothing here computes with them. */
  const SearchRequest: QueryParams.SearchParams := QueryParams.NoParams.(limit := Some(100.0))

  /** `v.toLowerCase().includes(term)` holds without throwing. */
  predicate TextMatch(v: Json, term: string) {
    v.JStr? && Contains(ToLower(v.s), term)
  }

  /** `v.toLowerCase().includes(term)`: `None` when `v` is not a string (a TypeError). */
  function LowerIncludes(v: Json, term: string): (r: Option<bool>)
    ensures r.Some? <==> v.JStr?
    ensures r.Some? ==> (r.value <==> Contains(ToLower(v.s), term))
  {
    match v
    case JStr(s) => Some(Contains(ToLower(s), term))
    case _ => None
  }

  /** `v.includes(query)`: substring search on a string, `===` membership on an array,
      `None` for anything else (a TypeError). */
  function Includes(v: Json, query: string): (r: Option<bool>)
    ensures r.Some? <==> v.JStr? || v.JArr?
    ensures v.JStr? ==> r == Some(Contains(v.s, query))
    ensures v.JArr? ==> r == Some(JStr(query) in v.items)
  {
    match v
    case JStr(s) => Some(Contains(s, query))
    case JArr(items) => Some(JStr(query) in items)
    case _ => None
  }

  /** `a || b` between two tests that may throw: `b` runs only when `a` returned false. */
  function OrElse(a: Option<bool>, b: Option<bool>): (r: Option<bool>)
    ensures r == Some(true) <==> a == Some(true) || (a == Some(false) && b == Some(true))
    ensures r.None? <==> a.None? || (a == Some(false) && b.None?)
  {
    match a
    case Some(true) => a
    case Some(false) => b
    case None => None
  }

  /** Some field contains the query: lower-cased for the text fields, verbatim for the ZIP code. */
  predicate FieldHit(p: Property, query: string) {
    TextMatch(p.address, ToLower(query)) || TextMatch(p.city, ToLower(query)) ||
    TextMatch(p.state, ToLower(query)) || Includes(p.zipCode, query) == Some(true) ||
    TextMatch(p.description, ToLower(query))
  }

  /** Every field the search reads has a type its test accepts, so no test throws. */
  predicate SearchableFields(p: Property) {
    p.address.JStr? && p.city.JStr? && p.state.JStr? && (p.zipCode.JStr? || p.zipCode.JArr?) && p.description.JStr?
  }

  /** The search predicate: the query lower-cased against address, city, state and description,
      and verbatim against the ZIP code, in that order. `None` when a test throws. */
  function Matches(p: Property, query: string): (r: Option<bool>)
    ensures r == Some(true) ==> FieldHit(p, query)
    ensures TextMatch(p.address, ToLower(query)) ==> r == Some(true)
    ensures r == Some(true) <==>
              || TextMatch(p.address, ToLower(query))
              || (p.address.JStr? && TextMatch(p.city, ToLower(query)))
              || (p.address.JStr? && p.city.JStr? && TextMatch(p.state, ToLower(query)))
              || (p.address.JStr? && p.city.JStr? && p.state.JStr? && Includes(p.zipCode, query) == Some(true))
              || (p.address.JStr? && p.city.JStr? && p.state.JStr? && Includes(p.zipCode, query) == Some(false)
                  && TextMatch(p.description, ToLower(query)))
    ensures r.None? <==>
              || !p.address.JStr?
              || (!TextMatch(p.address, ToLower(query)) && !p.city.JStr?)
              || (!TextMatch(p.address, ToLower(query)) && !TextMatch(p.city, ToLower(query)) && !p.state.JStr?)
              || (!TextMatch(p.address, ToLower(query)) && !TextMatch(p.city, ToLower(query))
                  && !TextMatch(p.state, ToLower(query)) && Includes(p.zipCode, query).None?)
              || (!TextMatch(p.address, ToLower(query)) && !TextMatch(p.city, ToLower(query))
                  && !TextMatch(p.state, ToLower(query)) && Includes(p.zipCode, query) == Some(false)
                  && !p.description.JStr?)
    ensures SearchableFields(p) ==> r.Some? && (r == Some(true) <==> FieldHit(p, query))
    ensures r == Some(false) <==>
              && p.address.JStr? && !TextMatch(p.address, ToLower(query))
              && p.city.JStr? && !TextMatch(p.city, ToLower(query))
              && p.state.JStr? && !TextMatch(p.state, ToLower(query))
              && Includes(p.zipCode, query) == Some(false)
              && p.description.JStr? && !TextMatch(p.description, ToLower(query))
  {
    var term := ToLower(query);
    OrElse(LowerIncludes(p.address, term),
      OrElse(LowerIncludes(p.city, term),
        OrElse(LowerIncludes(p.state, term),
          OrElse(Includes(p.zipCode, query),
            LowerIncludes(p.description, term)))))
  }

  /** The listings the search keeps: those whose test answers true without throwing. */
  predicate Kept(p: Property, query: string) {
    Matches(p, query) == Some(true)
  }

  /** `props.filter(matches)`: the test runs on every listing in order and the first throw
      escapes, so the call throws (`None`) iff some test throws; otherwise it returns the
      matching listings in order. */
  function FilterMatches(props: seq<Property>, query: string): (r: Option<seq<Property>>)
    ensures r.None? <==> exists i :: 0 <= i < |props| && Matches(props[i], query).None?
    ensures r.Some? ==> IsSubseq(r.value, props)
    ensures r.Some? ==> forall p :: p in r.value ==> Matches(p, query) == Some(true)
    ensures r.Some? ==> forall i :: 0 <= i < |props| && Matches(props[i], query) == Some(true) ==> props[i] in r.value
    ensures r.Some? ==> forall p :: multiset(r.value)[p] == if Matches(p, query) == Some(true) then multiset(props)[p] else 0
  {
    if exists i :: 0 <= i < |props| && Matches(props[i], query).None? then None
    else Some(Filter(props, p => Kept(p, query)))
  }

  /** A list of listings whose searched fields are all strings (or a ZIP array) never makes
      the filter throw, and it keeps exactly the listings with a field hit. */
  lemma SearchableNeverThrows(props: seq<Property>, query: string)
    requires forall i :: 0 <= i < |props| ==> SearchableFields(props[i])
    ensures FilterMatches(props, query).Some?
    ensures forall i :: 0 <= i < |props| ==> (props[i] in FilterMatches(props, query).value <==> FieldHit(props[i], query))
  {
    forall i | 0 <= i < |props|
      ensures Matches(props[i], query).Some?
    {
    }
  }

  /** `searchProperties`: list with `{ limit: 100 }`, then filter; a throwing test is
      rethrown (`None`). */
  function SearchProperties(outcomes: seq<FetchOutcome>, now: nat, query: string): (r: Option<seq<Property>>)
    requires |outcomes| == |DemoCredentials|
    ensures r.None? <==> exists p :: p in GetProperties(outcomes, now) && Matches(p, query).None?
    ensures r.Some? ==> IsSubseq(r.value, GetProperties(outcomes, now))
    ensures r.Some? ==> forall p :: p in r.value ==> Matches(p, query) == Some(true)
    ensures r.Some? ==> forall p :: p in GetProperties(outcomes, now) && Matches(p, query) == Some(true) ==> p in r.value
    ensures r.Some? ==> forall p :: multiset(r.value)[p]
                                    == if Matches(p, query) == Some(true) then multiset(GetProperties(outcomes, now))[p] else 0
  {
    FilterMatches(GetProperties(outcomes, now), query)
  }

  /** The search request URL carries exactly one parameter, `limit=100`. */
  lemma SearchRequestQuery()
    ensures QueryParams.BuildQueryParams(SearchRequest)
            == [QueryParams.QueryParam("limit", QueryParams.PNum(100.0))]
  {
    QueryParams.OnlyLimit(100.0);
  }

  /** Search never finds anything when the listing comes back empty. */
  lemma SearchOfNothing(outcomes: seq<FetchOutcome>, now: nat, query: string)
    requires |outcomes| == |DemoCredentials|
    requires forall i :: 0 <= i < |outcomes| ==> !Usable(outcomes[i])
    ensures SearchProperties(outcomes, now, query) == Some([])
  {
  }
}
