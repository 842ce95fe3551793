/** `transformProperty` and `mapPropertyType`: the normalizer that maps a loosely shaped
    listings record onto the canonical property the pages display. */
module Normalizer {
  import opened Common
  import opened Sequences
  import opened JsValues

  /** The four canonical home types. */
  datatype HomeType = House | Condo | Townhouse | Apartment

  /** A normalized listing. A field the normalizer copies from the record keeps the JSON
      value it found there (the JavaScript object does not convert it), so those fields are `Json`. */
  datatype Property = Property(
    id: Json,
    price: Json,
    address: Json,
    city: Json,
    state: Json,
    zipCode: Json,
    beds: Json,
    baths: Json,
    sqft: Json,
    image: Json,
    images: Json,
    homeType: HomeType,
    yearBuilt: Json,
    description: Json,
    features: Json)

  /** The TypeErrors normalization can throw. */
  datatype TransformError =
    | NullRecord      // reading a field of `null`
    | IdNotString     // `.split("")` on a truthy id that is not a string
    | TypeNotString   // `.toLowerCase()` on a truthy property type that is not a string

  const DefaultImage: string := "/images/vibrant.jpg"
  const DefaultDescription: string := "Beautiful property with great features."
  const DefaultFeatures: seq<Json> := [JStr("Modern Features"), JStr("Great Location"), JStr("Well Maintained")]
  const DefaultYearBuilt: real := 2020.0
  const Zero: Json := JNum(0.0)

  // ---------------------------------------------------------------------------
  // Property type classification

  /** The lower-cased type mentions `word`. */
  predicate Mentions(t: Option<string>, word: string) {
    t.Some? && Contains(ToLower(t.value), word)
  }

  /** Whatever mentions "condominium" mentions "condo". */
  lemma CondominiumIsCondo(s: string)
    ensures Contains(s, "condominium") ==> Contains(s, "condo")
  {
    if Contains(s, "condominium") {
      ContainsPrefix(s, "condominium", 5);
      assert "condominium"[..5] == "condo";
    }
  }

  /** `mapPropertyType`: case-insensitive classification, first match wins in the order
      condo, townhouse, apartment; anything else (including no type) is a house. */
  function MapPropertyType(t: Option<string>): (r: HomeType)
    ensures r == Condo <==> Mentions(t, "condo")
    ensures r == Townhouse <==> !Mentions(t, "condo") && (Mentions(t, "townhouse") || Mentions(t, "town home"))
    ensures r == Apartment <==> !Mentions(t, "condo") && !Mentions(t, "townhouse") && !Mentions(t, "town home")
                                && (Mentions(t, "apartment") || Mentions(t, "multi-family"))
    ensures t.None? || t == Some("") ==> r == House
  {
    if t.None? || t.value == "" then
      House
    else
      var lower := ToLower(t.value);
      if Contains(lower, "condo") || Contains(lower, "condominium") then
        CondominiumIsCondo(lower);
        Condo
      else if Contains(lower, "townhouse") || Contains(lower, "town home") then Townhouse
      else if Contains(lower, "apartment") || Contains(lower, "multi-family") then Apartment
      else House
  }

  /** Classifying the lower-cased type gives the same answer: the classification ignores case. */
  lemma MapPropertyTypeIgnoresCase(s: string)
    ensures MapPropertyType(Some(ToLower(s))) == MapPropertyType(Some(s))
  {
    ToLowerIdempotent(s);
  }

  // ---------------------------------------------------------------------------
  // Key scan

  /** The key families the scan looks for. `BathTotals` is the corrected bath scan of the
      findings: bath keys other than the full/half/three-quarter part counts. */
  datatype Category = Bedrooms | Bathrooms | BathTotals | Area

  /** The nested part counts the weighted bath total is computed from. */
  const BathPartKeys: set<string> := {"bathsFull", "bathsHalf", "bathsThreeQuarter"}

  /** The lower-cased key names the category: "bed", "bath", or one of "sqft", "square", "area", "size". */
  predicate InCategory(c: Category, key: string) {
    var k := ToLower(key);
    match c
    case Bedrooms => Contains(k, "bed")
    case Bathrooms => Contains(k, "bath")
    case BathTotals => Contains(k, "bath") && key !in BathPartKeys
    case Area => Contains(k, "sqft") || Contains(k, "square") || Contains(k, "area") || Contains(k, "size")
  }

  /** `raw.property || raw`: the nested details object, or the record itself. */
  function Details(raw: Json): Json {
    FirstTruthy([Get(raw, "property")], raw)
  }

  /** `(propertyDetails && propertyDetails[key])`. */
  function DetailsField(raw: Json, key: string): Option<Json> {
    var pd := Details(raw);
    if Truthy(Some(pd)) then Get(pd, key) else Some(pd)
  }

  /** The keys the scan visits: the record's own keys, then those of the details object. */
  function ScanKeys(raw: Json): seq<string> {
    var pd := Details(raw);
    Keys(raw) + (if Truthy(Some(pd)) then Keys(pd) else [])
  }

  /** `raw[key] || (propertyDetails && propertyDetails[key])`. */
  function ScanValue(raw: Json, key: string): Option<Json> {
    if Truthy(Get(raw, key)) then Get(raw, key) else DetailsField(raw, key)
  }

  /** `typeof value === "number" && value > 0`. */
  predicate PositiveNumber(v: Option<Json>) {
    v.Some? && v.value.JNum? && v.value.n > 0.0
  }

  /** The scan stops at `key`. */
  predicate Hit(raw: Json, c: Category, key: string) {
    InCategory(c, key) && PositiveNumber(ScanValue(raw, key))
  }

  /** The `i`-th scanned key is the first one the scan stops at. */
  predicate FirstHit(raw: Json, c: Category, i: int) {
    var keys := ScanKeys(raw);
    0 <= i < |keys| && Hit(raw, c, keys[i]) && forall j :: 0 <= j < i ==> !Hit(raw, c, keys[j])
  }

  /** The scan loops: the value of the first key, in top-level-then-nested order, whose name
      is in the category and whose value is a positive number; 0 when there is none. */
  function Scan(raw: Json, c: Category): (r: real)
    ensures r >= 0.0
    ensures r == 0.0 <==> forall i :: 0 <= i < |ScanKeys(raw)| ==> !Hit(raw, c, ScanKeys(raw)[i])
    ensures forall i :: FirstHit(raw, c, i) ==> ScanValue(raw, ScanKeys(raw)[i]) == Some(JNum(r))
  {
    var keys := ScanKeys(raw);
    match FindFirst(keys, k => Hit(raw, c, k))
    case None => 0.0
    case Some(i) =>
      assert forall j :: FirstHit(raw, c, j) ==> j == i;
      ScanValue(raw, keys[i]).value.n
  }

  // ---------------------------------------------------------------------------
  // Named-field fallbacks

  function BedAliases(raw: Json): seq<Option<Json>> {
    [DetailsField(raw, "bedrooms"), Get(raw, "bedrooms"), Get(raw, "beds"), Get(raw, "bedroomCount"),
     Get(raw, "bed"), Get(raw, "bedroom"), Get(raw, "bedroomsTotal")]
  }

  function BathAliases(raw: Json): seq<Option<Json>> {
    [DetailsField(raw, "bathrooms"), Get(raw, "bathrooms"), Get(raw, "baths"), Get(raw, "bathroomCount"),
     Get(raw, "bath"), Get(raw, "bathroom"), Get(raw, "bathroomsTotal")]
  }

  function AreaAliases(raw: Json): seq<Option<Json>> {
    [DetailsField(raw, "area"), Get(raw, "squareFootage"), Get(raw, "sqft"), Get(raw, "squareFeet"),
     Get(raw, "livingArea"), Get(raw, "totalArea"), Get(raw, "area"), Get(raw, "squareFootageTotal"),
     Get(raw, "livingSquareFeet")]
  }

  /** Bedrooms after the scan and, when it found nothing, the named fallbacks. */
  function Beds(raw: Json): Json {
    var s := Scan(raw, Bedrooms);
    if s == 0.0 then FirstTruthy(BedAliases(raw), Zero) else JNum(s)
  }

  /** `Number(v)` on the values a bath count can hold after `|| 0`: numbers and `true`. */
  function PartNumber(v: Json): real {
    match v
    case JNum(n) => n
    case JBool(b) => if b then 1.0 else 0.0
    case _ => 0.0
  }

  /** `(propertyDetails && propertyDetails[key]) || 0`, as a number. */
  function BathPart(raw: Json, key: string): real {
    PartNumber(FirstTruthy([DetailsField(raw, key)], Zero))
  }

  /** Bathrooms when the scan over `scanned` keys found nothing: the weighted nested counts
      full + ½·half + ¾·three-quarter if any is positive, else the named fallbacks. */
  function BathsAfterScan(raw: Json, scanned: real): Json {
    if scanned != 0.0 then JNum(scanned)
    else
      var full := BathPart(raw, "bathsFull");
      var half := BathPart(raw, "bathsHalf");
      var threeQuarter := BathPart(raw, "bathsThreeQuarter");
      if full > 0.0 || half > 0.0 || threeQuarter > 0.0 then JNum(full + half * 0.5 + threeQuarter * 0.75)
      else FirstTruthy(BathAliases(raw), Zero)
  }

  /** Bathrooms as the source computes them: the scan visits every bath key, including the
      part counts, so a positive `bathsFull` stops it before the weighting. */
  function Baths(raw: Json): (r: Json)
    ensures Truthy(Some(r)) || r == Zero
    ensures (exists i :: 0 <= i < |ScanKeys(raw)| && Hit(raw, Bathrooms, ScanKeys(raw)[i])) ==> r.JNum? && r.n > 0.0
  {
    BathsAfterScan(raw, Scan(raw, Bathrooms))
  }

  /** The nested part counts the weighting reads are not all 0. */
  predicate HasParts(raw: Json) {
    BathPart(raw, "bathsFull") > 0.0 || BathPart(raw, "bathsHalf") > 0.0 || BathPart(raw, "bathsThreeQuarter") > 0.0
  }

  /** Bathrooms as the weighting intends them (the findings): a bath total found by a scan
      that skips the part counts comes first, then the weighted nested parts, and only then
      the source's own count, so a record that gives the nested parts gets
      full + ½·half + ¾·three-quarter. */
  function CorrectedBaths(raw: Json): (r: Json)
    ensures Truthy(Some(r)) || r == Zero
    ensures (exists i :: 0 <= i < |ScanKeys(raw)| && Hit(raw, BathTotals, ScanKeys(raw)[i])) ==> r.JNum? && r.n > 0.0
    ensures Scan(raw, BathTotals) == 0.0 && HasParts(raw)
            ==> r == JNum(BathPart(raw, "bathsFull") + BathPart(raw, "bathsHalf") * 0.5
                          + BathPart(raw, "bathsThreeQuarter") * 0.75)
    ensures Scan(raw, BathTotals) == 0.0 && !HasParts(raw) ==> r == Baths(raw)
  {
    var total := Scan(raw, BathTotals);
    if total != 0.0 then JNum(total)
    else if HasParts(raw) then BathsAfterScan(raw, 0.0)
    else Baths(raw)
  }

  /** Which bath count the normalizer uses: the source's own, or the corrected one. */
  datatype BathReading = AsWritten | Corrected

  function BathsBy(raw: Json, b: BathReading): Json {
    match b
    case AsWritten => Baths(raw)
    case Corrected => CorrectedBaths(raw)
  }

  /** Living area after the scan and, when it found nothing, the named fallbacks. */
  function Sqft(raw: Json): Json {
    var s := Scan(raw, Area);
    if s == 0.0 then FirstTruthy(AreaAliases(raw), Zero) else JNum(s)
  }

  // ---------------------------------------------------------------------------
  // Synthetic measurements

  /** Sum of the character codes of a string. */
  function CharCodeSum(s: string): nat {
    if s == [] then 0 else s[0] as nat + CharCodeSum(s[1..])
  }

  datatype Dimensions = Dimensions(beds: int, baths: int, sqft: int)

  /** The placeholder measurements derived from an id: with h the character-code sum,
      beds = h mod 4 + 2, baths = ⌈0.75·beds⌉, sqft = 400·beds + h mod 800 + 800. */
  function SyntheticDimensions(id: string): (d: Dimensions)
    ensures d.beds == CharCodeSum(id) % 4 + 2 && 2 <= d.beds <= 5
    ensures d.baths as real >= 0.75 * d.beds as real > (d.baths - 1) as real
    ensures 1600 <= d.sqft <= 3599
    ensures d.sqft - 400 * d.beds - 800 == CharCodeSum(id) % 800
  {
    var h := CharCodeSum(id);
    var beds := h % 4 + 2;
    Dimensions(beds, (3 * beds + 3) / 4, beds * 400 + h % 800 + 800)
  }

  /** Beds, baths and area are all exactly 0 after the fallbacks. */
  predicate NeedsSynthetic(raw: Json, b: BathReading) {
    Beds(raw) == Zero && BathsBy(raw, b) == Zero && Sqft(raw) == Zero
  }

  /** `raw.propertyId || raw.id || ""`: the id the placeholder values are derived from. */
  function SyntheticId(raw: Json): Json {
    FirstTruthy([Get(raw, "propertyId"), Get(raw, "id")], JStr(""))
  }

  datatype Measurements = Measurements(beds: Json, baths: Json, sqft: Json)

  /** Beds, baths and area as the normalizer returns them, with bathrooms read as `b` says. */
  function Measure(raw: Json, b: BathReading): (r: Result<Measurements, TransformError>)
    ensures r.Err? <==> NeedsSynthetic(raw, b) && !SyntheticId(raw).JStr?
    ensures r.Err? ==> r.error == IdNotString
  {
    if NeedsSynthetic(raw, b) then
      match SyntheticId(raw)
      case JStr(id) =>
        var d := SyntheticDimensions(id);
        Ok(Measurements(JNum(d.beds as real), JNum(d.baths as real), JNum(d.sqft as real)))
      case _ => Err(IdNotString)
    else Ok(Measurements(Beds(raw), BathsBy(raw, b), Sqft(raw)))
  }

  // ---------------------------------------------------------------------------
  // Remaining fields

  function AddressObject(raw: Json): Json {
    FirstTruthy([Get(raw, "address")], JObj([]))
  }

  function AddressLine(raw: Json): Json {
    var a := AddressObject(raw);
    FirstTruthy([Get(a, "line1"), Get(a, "full"), Get(a, "street"), Get(a, "streetAddress")],
                JStr("Address not available"))
  }

  function City(raw: Json): Json {
    FirstTruthy([Get(AddressObject(raw), "city")], JStr("City not available"))
  }

  function State(raw: Json): Json {
    var a := AddressObject(raw);
    FirstTruthy([Get(a, "state"), Get(a, "stateOrProvince")], JStr("State not available"))
  }

  function ZipCode(raw: Json): Json {
    var a := AddressObject(raw);
    FirstTruthy([Get(a, "postalCode"), Get(a, "zipCode"), Get(a, "postal")], JStr("ZIP not available"))
  }

  function Price(raw: Json): Json {
    FirstTruthy([Get(raw, "listPrice"), Get(raw, "price"), Get(raw, "askingPrice"), Get(raw, "salePrice")], Zero)
  }

  /** `raw.photos || raw.images || raw.media || []`. */
  function Photos(raw: Json): Json {
    FirstTruthy([Get(raw, "photos"), Get(raw, "images"), Get(raw, "media")], JArr([]))
  }

  /** `v[0]`. */
  function FirstElement(v: Json): Option<Json> {
    match v
    case JArr(items) => if |items| > 0 then Some(items[0]) else None
    case JStr(s) => if |s| > 0 then Some(JStr([s[0]])) else None
    case JObj(_) => Get(v, "0")
    case _ => None
  }

  /** `v.length > 0`. */
  predicate HasPositiveLength(v: Json) {
    match v
    case JArr(items) => |items| > 0
    case JStr(s) => |s| > 0
    case JObj(_) => PositiveNumber(Get(v, "length"))
    case _ => false
  }

  function PrimaryImage(raw: Json): Json {
    FirstTruthy([FirstElement(Photos(raw))], JStr(DefaultImage))
  }

  function Images(raw: Json): Json {
    var photos := Photos(raw);
    if HasPositiveLength(photos) then photos else JArr([JStr(DefaultImage)])
  }

  /** `raw.propertyType || raw.type || raw.style || "house"`. */
  function TypeValue(raw: Json): Json {
    FirstTruthy([Get(raw, "propertyType"), Get(raw, "type"), Get(raw, "style")], JStr("house"))
  }

  /** The id, falling back to `property-<now>` where `now` is the clock reading `Date.now()` returns. */
  function IdValue(raw: Json, now: nat): Json {
    FirstTruthy([Get(raw, "propertyId"), Get(raw, "id"), Get(raw, "mlsId")], JStr("property-" + NatToString(now)))
  }

  function YearBuilt(raw: Json): Json {
    FirstTruthy([Get(raw, "yearBuilt"), Get(raw, "year")], JNum(DefaultYearBuilt))
  }

  function Description(raw: Json): Json {
    FirstTruthy([Get(raw, "description"), Get(raw, "remarks")], JStr(DefaultDescription))
  }

  function Features(raw: Json): Json {
    FirstTruthy([Get(raw, "features"), Get(raw, "amenities")], JArr(DefaultFeatures))
  }

  /** `transformProperty(raw)` with `Date.now()` reading `now`, and bathrooms read as `b`
      says: `AsWritten` is the source's normalizer, `Corrected` the one of the findings.
      It throws on a `null` record, on a non-string id when placeholder values are needed,
      and on a non-string type. */
  function Transform(raw: Json, now: nat, b: BathReading): (r: Result<Property, TransformError>)
    ensures r.Err? <==> raw == JNull || (NeedsSynthetic(raw, b) && !SyntheticId(raw).JStr?) || !TypeValue(raw).JStr?
    ensures raw == JNull ==> r == Err(NullRecord)
  {
    if raw == JNull then Err(NullRecord)
    else
      match Measure(raw, b)
      case Err(e) => Err(e)
      case Ok(m) =>
        match TypeValue(raw)
        case JStr(t) => Ok(Assemble(raw, now, m, t))
        case _ => Err(TypeNotString)
  }

  /** The returned object literal, given the measurements and the type string. */
  function Assemble(raw: Json, now: nat, m: Measurements, t: string): Property {
    Property(
      id := IdValue(raw, now),
      price := Price(raw),
      address := AddressLine(raw),
      city := City(raw),
      state := State(raw),
      zipCode := ZipCode(raw),
      beds := m.beds,
      baths := m.baths,
      sqft := m.sqft,
      image := PrimaryImage(raw),
      images := Images(raw),
      homeType := MapPropertyType(Some(t)),
      yearBuilt := YearBuilt(raw),
      description := Description(raw),
      features := Features(raw))
  }

  // ---------------------------------------------------------------------------
  // Properties of the normalizer

  /** `sub` is not in `s` when one of its characters is missing from `s`. */
  lemma LacksChar(s: string, sub: string, k: nat)
    requires k < |sub| && sub[k] !in s
    ensures !Contains(s, sub)
  {
    if Contains(s, sub) {
      ContainsChar(s, sub, k);
    }
  }

  /** The classifications the type strings of the listings API receive. */
  lemma MapPropertyTypeExamples()
    ensures MapPropertyType(Some("Condominium")) == Condo
    ensures MapPropertyType(Some("Town Home")) == Townhouse
    ensures MapPropertyType(Some("Multi-Family")) == Apartment
    ensures MapPropertyType(None) == House
    ensures MapPropertyType(Some("")) == House
  {
    CondominiumExample();
    TownHomeExample();
    MultiFamilyExample();
  }

  /** "Condominium" lower-cases to a string containing "condo". */
  lemma CondominiumExample()
    ensures MapPropertyType(Some("Condominium")) == Condo
  {
    assert ToLower("Condominium") == "condominium";
    assert OccursAt("condominium", "condo", 0);
  }

  /** "Town Home" lower-cases to "town home", which misses "condo". */
  lemma TownHomeExample()
    ensures MapPropertyType(Some("Town Home")) == Townhouse
  {
    assert ToLower("Town Home") == "town home";
    LacksChar("town home", "condo", 0);
    assert OccursAt("town home", "town home", 0);
  }

  /** "Multi-Family" lower-cases to "multi-family", which misses every earlier category. */
  lemma MultiFamilyExample()
    ensures MapPropertyType(Some("Multi-Family")) == Apartment
  {
    assert ToLower("Multi-Family") == "multi-family";
    LacksChar("multi-family", "condo", 0);
    LacksChar("multi-family", "townhouse", 2);
    LacksChar("multi-family", "town home", 2);
    LacksChar("multi-family", "apartment", 1);
    assert OccursAt("multi-family", "multi-family", 0);
  }

  /** The scan's first hit, when there is one. */
  lemma ScanFirstHit(raw: Json, c: Category, i: nat)
    requires FirstHit(raw, c, i)
    ensures Scan(raw, c) > 0.0
    ensures ScanValue(raw, ScanKeys(raw)[i]) == Some(JNum(Scan(raw, c)))
  {
  }

  /** The named fallbacks apply only to a category the scan left empty: a scan hit gives
      the count, and only when no key hits do the aliases (for baths, the weighting and then
      the aliases) decide. A bath total the corrected scan finds is its count too. */
  lemma FallbacksOnlyAfterEmptyScan(raw: Json)
    ensures forall i :: FirstHit(raw, Bedrooms, i) ==> ScanValue(raw, ScanKeys(raw)[i]) == Some(Beds(raw))
    ensures forall i :: FirstHit(raw, Area, i) ==> ScanValue(raw, ScanKeys(raw)[i]) == Some(Sqft(raw))
    ensures forall i :: FirstHit(raw, Bathrooms, i) ==> ScanValue(raw, ScanKeys(raw)[i]) == Some(Baths(raw))
    ensures forall i :: FirstHit(raw, BathTotals, i) ==> ScanValue(raw, ScanKeys(raw)[i]) == Some(CorrectedBaths(raw))
    ensures (forall i :: 0 <= i < |ScanKeys(raw)| ==> !Hit(raw, Bedrooms, ScanKeys(raw)[i]))
            ==> Beds(raw) == FirstTruthy(BedAliases(raw), Zero)
    ensures (forall i :: 0 <= i < |ScanKeys(raw)| ==> !Hit(raw, Area, ScanKeys(raw)[i]))
            ==> Sqft(raw) == FirstTruthy(AreaAliases(raw), Zero)
    ensures (forall i :: 0 <= i < |ScanKeys(raw)| ==> !Hit(raw, Bathrooms, ScanKeys(raw)[i]))
            ==> Baths(raw) == BathsAfterScan(raw, 0.0)
  {
    forall c: Category, i | FirstHit(raw, c, i)
      ensures Scan(raw, c) > 0.0
    {
      ScanFirstHit(raw, c, i);
    }
  }

  /** An explicit positive `bedrooms` number gives the bedroom count when no other key
      that the scan visits names bedrooms. */
  lemma ExplicitBedroomsWin(raw: Json, v: real)
    requires Get(raw, "bedrooms") == Some(JNum(v)) && v > 0.0
    requires forall k :: k in ScanKeys(raw) && InCategory(Bedrooms, k) ==> k == "bedrooms"
    ensures Beds(raw) == JNum(v)
  {
    var i :| 0 <= i < |raw.entries| && raw.entries[i].key == "bedrooms";
    assert Keys(raw)[i] == "bedrooms";
    assert ScanKeys(raw)[i] == "bedrooms";
    assert OccursAt(ToLower("bedrooms"), "bed", 0);
    OnlyCandidate(raw, Bedrooms, "bedrooms", i);
  }

  /** When `key` is the only scanned key in the category and it hits, the scan stops there. */
  lemma OnlyCandidate(raw: Json, c: Category, key: string, i: nat)
    requires i < |ScanKeys(raw)| && ScanKeys(raw)[i] == key && Hit(raw, c, key)
    requires forall k :: k in ScanKeys(raw) && InCategory(c, k) ==> k == key
    ensures Scan(raw, c) > 0.0 && ScanValue(raw, key) == Some(JNum(Scan(raw, c)))
  {
    var keys := ScanKeys(raw);
    match FindFirst(keys, k => Hit(raw, c, k))
    case Some(j) =>
      assert FirstHit(raw, c, j);
      assert keys[j] in keys;
      ScanFirstHit(raw, c, j);
    case None =>
      assert false;
  }

  /** A positive `bedrooms` field does not decide the bedroom count by itself: an earlier
      key that names bedrooms wins the scan. */
  lemma ExplicitBedroomsNotAuthoritative()
    ensures var raw := JObj([Field("bedroomsTotal", JNum(4.0)), Field("bedrooms", JNum(3.0))]);
            Get(raw, "bedrooms") == Some(JNum(3.0)) && Beds(raw) == JNum(4.0)
  {
    var raw := JObj([Field("bedroomsTotal", JNum(4.0)), Field("bedrooms", JNum(3.0))]);
    assert Get(raw, "property") == None;
    assert Details(raw) == raw;
    assert ScanKeys(raw)[0] == "bedroomsTotal";
    assert ScanValue(raw, "bedroomsTotal") == Some(JNum(4.0));
    assert OccursAt(ToLower("bedroomsTotal"), "bed", 0);
    assert FirstHit(raw, Bedrooms, 0);
    ScanFirstHit(raw, Bedrooms, 0);
  }

  /** The records of the findings: nothing but the nested part counts, such as
      `{property: {bathsFull: 2, bathsHalf: 1, bathsThreeQuarter: 0}}`. */
  function PartsRecord(full: real, half: real, threeQuarter: real): Json {
    JObj([Field("property", JObj([Field("bathsFull", JNum(full)), Field("bathsHalf", JNum(half)),
                                  Field("bathsThreeQuarter", JNum(threeQuarter))]))])
  }

  /** What the scans see in a record of the findings. */
  lemma PartsReadings(full: real, half: real, threeQuarter: real)
    ensures var raw := PartsRecord(full, half, threeQuarter);
            && ScanKeys(raw) == ["property", "bathsFull", "bathsHalf", "bathsThreeQuarter"]
            && ScanValue(raw, "property") == Get(raw, "property")
            && ScanValue(raw, "bathsFull") == Some(JNum(full))
            && DetailsField(raw, "bathsFull") == Some(JNum(full))
            && DetailsField(raw, "bathsHalf") == Some(JNum(half))
            && DetailsField(raw, "bathsThreeQuarter") == Some(JNum(threeQuarter))
  {
    var raw := PartsRecord(full, half, threeQuarter);
    var pd := JObj([Field("bathsFull", JNum(full)), Field("bathsHalf", JNum(half)),
                    Field("bathsThreeQuarter", JNum(threeQuarter))]);
    assert Get(raw, "property") == Some(pd);
    assert Details(raw) == pd;
    assert "bathsFull" != "bathsHalf" && "bathsFull" != "bathsThreeQuarter" && "bathsHalf" != "bathsThreeQuarter" by {
      assert "bathsFull"[5] != "bathsHalf"[5];
      assert "bathsFull"[5] != "bathsThreeQuarter"[5];
      assert "bathsHalf"[5] != "bathsThreeQuarter"[5];
    }
    assert pd.entries[1..] == [Field("bathsHalf", JNum(half)), Field("bathsThreeQuarter", JNum(threeQuarter))];
    assert pd.entries[2..] == [Field("bathsThreeQuarter", JNum(threeQuarter))];
    assert Lookup(pd.entries, "bathsHalf") == Some(JNum(half));
    assert Lookup(pd.entries[2..], "bathsThreeQuarter") == Some(JNum(threeQuarter));
    assert Lookup(pd.entries[1..], "bathsThreeQuarter") == Some(JNum(threeQuarter));
    assert Lookup(pd.entries, "bathsThreeQuarter") == Some(JNum(threeQuarter));
  }

  /** "property" names no bath. */
  lemma PropertyNotBath()
    ensures !InCategory(Bathrooms, "property") && !InCategory(BathTotals, "property")
  {
    LacksChar(ToLower("property"), "bath", 0);
  }

  /** As written, the scan stops at `bathsFull` whenever it is positive. */
  lemma PartsAsWritten(full: real, half: real, threeQuarter: real)
    requires full > 0.0
    ensures Scan(PartsRecord(full, half, threeQuarter), Bathrooms) == full
    ensures Baths(PartsRecord(full, half, threeQuarter)) == JNum(full)
  {
    var raw := PartsRecord(full, half, threeQuarter);
    PartsReadings(full, half, threeQuarter);
    PropertyNotBath();
    assert OccursAt(ToLower("bathsFull"), "bath", 0);
    assert FirstHit(raw, Bathrooms, 1);
    ScanFirstHit(raw, Bathrooms, 1);
  }

  /** The corrected scan finds no bath total in a record of the findings. */
  lemma PartsCorrectedScan(full: real, half: real, threeQuarter: real)
    ensures Scan(PartsRecord(full, half, threeQuarter), BathTotals) == 0.0
  {
    var raw := PartsRecord(full, half, threeQuarter);
    PartsReadings(full, half, threeQuarter);
    PropertyNotBath();
    var keys := ScanKeys(raw);
    assert !Hit(raw, BathTotals, keys[0]) && !Hit(raw, BathTotals, keys[1]);
    assert !Hit(raw, BathTotals, keys[2]) && !Hit(raw, BathTotals, keys[3]);
  }

  /** The corrected bath count of a record of the findings is the weighted total of its
      non-negative parts, when they are not all zero. */
  lemma PartsWeighted(full: real, half: real, threeQuarter: real)
    requires full >= 0.0 && half >= 0.0 && threeQuarter >= 0.0 && full + half + threeQuarter > 0.0
    ensures CorrectedBaths(PartsRecord(full, half, threeQuarter)) == JNum(full + half * 0.5 + threeQuarter * 0.75)
  {
    PartsReadings(full, half, threeQuarter);
    PartsCorrectedScan(full, half, threeQuarter);
    WeightedParts(PartsRecord(full, half, threeQuarter), full, half, threeQuarter);
  }

  /** As written, a positive full count stops the scan, so every half and three-quarter bath
      is lost: with 2 full baths and 1 half bath the source gives 2 baths where 2.5 is meant. */
  lemma BathsAsWrittenDropsPartialBaths(full: real, half: real, threeQuarter: real)
    requires full > 0.0 && half >= 0.0 && threeQuarter >= 0.0 && half + threeQuarter > 0.0
    ensures Baths(PartsRecord(full, half, threeQuarter)) == JNum(full)
    ensures Baths(PartsRecord(full, half, threeQuarter)) != JNum(full + half * 0.5 + threeQuarter * 0.75)
  {
    PartsAsWritten(full, half, threeQuarter);
  }

  /** A record with a part count outside the details object, such as
      `{id: 7, property: {}, bathsFull: 2}`. */
  function TopLevelPartRecord(id: real, full: real): Json {
    JObj([Field("id", JNum(id)), Field("property", JObj([])), Field("bathsFull", JNum(full))])
  }

  /** What the scans see in such a record: the details object is empty. */
  lemma TopLevelPartReadings(id: real, full: real)
    ensures var raw := TopLevelPartRecord(id, full);
            && ScanKeys(raw) == ["id", "property", "bathsFull"]
            && Get(raw, "bathsFull") == Some(JNum(full))
            && DetailsField(raw, "bathsFull") == None && DetailsField(raw, "bathsHalf") == None
            && DetailsField(raw, "bathsThreeQuarter") == None
  {
    var raw := TopLevelPartRecord(id, full);
    assert |"id"| != |"property"| && |"id"| != |"bathsFull"| && |"property"| != |"bathsFull"|;
    assert Lookup(raw.entries[1..], "property") == Some(JObj([]));
    assert Get(raw, "property") == Some(JObj([]));
    assert Details(raw) == JObj([]);
    assert Lookup(raw.entries[2..], "bathsFull") == Some(JNum(full));
    assert Lookup(raw.entries[1..], "bathsFull") == Some(JNum(full));
  }

  /** The weighting never reads a part count outside the details object, so the source's scan
      and the corrected count both give the full count. */
  lemma TopLevelPartCount(id: real, full: real)
    requires full > 0.0
    ensures Baths(TopLevelPartRecord(id, full)) == JNum(full)
    ensures CorrectedBaths(TopLevelPartRecord(id, full)) == JNum(full)
  {
    TopLevelPartReadings(id, full);
    TopLevelScans(TopLevelPartRecord(id, full), full);
  }

  /** The bath counts of any record that reads like `{id, property: {}, bathsFull}`. */
  lemma TopLevelScans(raw: Json, full: real)
    requires full > 0.0
    requires ScanKeys(raw) == ["id", "property", "bathsFull"] && Get(raw, "bathsFull") == Some(JNum(full))
    requires DetailsField(raw, "bathsFull") == None && DetailsField(raw, "bathsHalf") == None
    requires DetailsField(raw, "bathsThreeQuarter") == None
    ensures Baths(raw) == JNum(full) && CorrectedBaths(raw) == JNum(full)
  {
    PropertyNotBath();
    LacksChar(ToLower("id"), "bath", 0);
    assert !InCategory(Bathrooms, "id") && !InCategory(BathTotals, "id");
    TopLevelScanHit(raw, full);
    TopLevelNoTotal(raw);
    NoNestedParts(raw);
  }

  /** Without nested part counts the weighting has nothing to add. */
  lemma NoNestedParts(raw: Json)
    requires DetailsField(raw, "bathsFull") == None && DetailsField(raw, "bathsHalf") == None
    requires DetailsField(raw, "bathsThreeQuarter") == None
    ensures !HasParts(raw)
  {
    assert BathPart(raw, "bathsFull") == 0.0;
    assert BathPart(raw, "bathsHalf") == 0.0;
    assert BathPart(raw, "bathsThreeQuarter") == 0.0;
  }

  /** The source's scan stops at the third key, `bathsFull`. */
  lemma TopLevelScanHit(raw: Json, full: real)
    requires full > 0.0
    requires ScanKeys(raw) == ["id", "property", "bathsFull"] && Get(raw, "bathsFull") == Some(JNum(full))
    requires !InCategory(Bathrooms, "id") && !InCategory(Bathrooms, "property")
    ensures Baths(raw) == JNum(full)
  {
    assert OccursAt(ToLower("bathsFull"), "bath", 0);
    assert FirstHit(raw, Bathrooms, 2);
    ScanFirstHit(raw, Bathrooms, 2);
  }

  /** The corrected scan finds no bath total among the keys "id", "property" and "bathsFull". */
  lemma TopLevelNoTotal(raw: Json)
    requires ScanKeys(raw) == ["id", "property", "bathsFull"]
    requires !InCategory(BathTotals, "id") && !InCategory(BathTotals, "property")
    ensures Scan(raw, BathTotals) == 0.0
  {
    assert !InCategory(BathTotals, "bathsFull");
    assert !Hit(raw, BathTotals, ScanKeys(raw)[0]) && !Hit(raw, BathTotals, ScanKeys(raw)[1]);
    assert !Hit(raw, BathTotals, ScanKeys(raw)[2]);
  }

  /** Such a record is measured without placeholders, which its numeric id would make throw. */
  lemma TopLevelPartMeasured(id: real, full: real, b: BathReading)
    requires full > 0.0
    ensures Measure(TopLevelPartRecord(id, full), b)
            == Ok(Measurements(Beds(TopLevelPartRecord(id, full)), JNum(full), Sqft(TopLevelPartRecord(id, full))))
  {
    TopLevelPartCount(id, full);
    assert BathsBy(TopLevelPartRecord(id, full), b) == JNum(full);
  }

  /** When no bath key other than the parts holds a positive number and the nested parts are
      non-negative counts, not all zero, the bath count is full + ½·half + ¾·three-quarter
      (in quarter baths: 4·full + 2·half + 3·three-quarter). */
  lemma WeightedBaths(raw: Json, full: real, half: real, threeQuarter: real)
    requires Scan(raw, BathTotals) == 0.0
    requires DetailsField(raw, "bathsFull") == Some(JNum(full)) && full >= 0.0
    requires DetailsField(raw, "bathsHalf") == Some(JNum(half)) && half >= 0.0
    requires DetailsField(raw, "bathsThreeQuarter") == Some(JNum(threeQuarter)) && threeQuarter >= 0.0
    requires full + half + threeQuarter > 0.0
    ensures CorrectedBaths(raw) == JNum(full + half * 0.5 + threeQuarter * 0.75)
    ensures 4.0 * CorrectedBaths(raw).n == 4.0 * full + 2.0 * half + 3.0 * threeQuarter
  {
    WeightedParts(raw, full, half, threeQuarter);
  }

  /** The weighting over the part counts as `Number(… || 0)` reads them: a missing part counts 0. */
  lemma WeightedParts(raw: Json, full: real, half: real, threeQuarter: real)
    requires Scan(raw, BathTotals) == 0.0
    requires DetailsField(raw, "bathsFull") == Some(JNum(full)) || (DetailsField(raw, "bathsFull") == None && full == 0.0)
    requires DetailsField(raw, "bathsHalf") == Some(JNum(half)) || (DetailsField(raw, "bathsHalf") == None && half == 0.0)
    requires DetailsField(raw, "bathsThreeQuarter") == Some(JNum(threeQuarter))
             || (DetailsField(raw, "bathsThreeQuarter") == None && threeQuarter == 0.0)
    requires full >= 0.0 && half >= 0.0 && threeQuarter >= 0.0 && full + half + threeQuarter > 0.0
    ensures CorrectedBaths(raw) == JNum(full + half * 0.5 + threeQuarter * 0.75)
  {
    PartRead(raw, "bathsFull", full);
    PartRead(raw, "bathsHalf", half);
    PartRead(raw, "bathsThreeQuarter", threeQuarter);
  }

  /** A part count reads as its number, or 0 when the details object lacks it. */
  lemma PartRead(raw: Json, key: string, v: real)
    requires DetailsField(raw, key) == Some(JNum(v)) || (DetailsField(raw, key) == None && v == 0.0)
    ensures BathPart(raw, key) == v
  {
  }

  /** Placeholder values are used exactly when beds, baths and area are all 0 after the
      fallbacks; then they lie in [2, 5] beds and [1600, 3599] sq ft, otherwise the found
      values are kept. This holds of the source's bath count and of the corrected one. */
  lemma TransformMeasurements(raw: Json, now: nat, b: BathReading)
    requires Transform(raw, now, b).Ok?
    ensures var p := Transform(raw, now, b).value;
            if NeedsSynthetic(raw, b) then
              && SyntheticId(raw).JStr?
              && var d := SyntheticDimensions(SyntheticId(raw).s);
              && p.beds == JNum(d.beds as real) && p.baths == JNum(d.baths as real) && p.sqft == JNum(d.sqft as real)
              && 2 <= d.beds <= 5 && 1600 <= d.sqft <= 3599
              && d.baths as real >= 0.75 * d.beds as real > (d.baths - 1) as real
            else
              p.beds == Beds(raw) && p.baths == BathsBy(raw, b) && p.sqft == Sqft(raw)
  {
    var m := TransformAssembles(raw, now, b);
    if NeedsSynthetic(raw, b) {
      PlaceholderMeasurements(raw, b, SyntheticId(raw).s);
    }
  }

  /** A normalized listing is the object literal over the record's measurements and type
      string; returns the measurements. */
  lemma TransformAssembles(raw: Json, now: nat, b: BathReading) returns (m: Measurements)
    requires Transform(raw, now, b).Ok?
    ensures Measure(raw, b) == Ok(m) && TypeValue(raw).JStr? && raw != JNull
    ensures Transform(raw, now, b).value == Assemble(raw, now, m, TypeValue(raw).s)
  {
    m := Measure(raw, b).value;
  }

  /** A normalized listing never shows beds, baths and area all 0. */
  lemma NeverAllZero(raw: Json, now: nat, b: BathReading)
    requires Transform(raw, now, b).Ok?
    ensures var p := Transform(raw, now, b).value;
            !(p.beds == Zero && p.baths == Zero && p.sqft == Zero)
  {
    TransformMeasurements(raw, now, b);
  }

  /** The placeholder values depend on the id alone: two records that both need them and
      share the id get the same beds, baths and area, whatever else they hold. */
  lemma SyntheticDependsOnlyOnId(raw1: Json, raw2: Json, now1: nat, now2: nat, b: BathReading)
    requires Transform(raw1, now1, b).Ok? && Transform(raw2, now2, b).Ok?
    requires NeedsSynthetic(raw1, b) && NeedsSynthetic(raw2, b)
    requires SyntheticId(raw1) == SyntheticId(raw2)
    ensures Transform(raw1, now1, b).value.beds == Transform(raw2, now2, b).value.beds
    ensures Transform(raw1, now1, b).value.baths == Transform(raw2, now2, b).value.baths
    ensures Transform(raw1, now1, b).value.sqft == Transform(raw2, now2, b).value.sqft
  {
    TransformMeasurements(raw1, now1, b);
    TransformMeasurements(raw2, now2, b);
  }

  /** Every field of a normalized listing other than the measurements is the source's
      `||` chain over its own field names, ending in the stock default. */
  lemma TransformFields(raw: Json, now: nat, b: BathReading)
    requires Transform(raw, now, b).Ok?
    ensures var p := Transform(raw, now, b).value;
            var address := FirstTruthy([Get(raw, "address")], JObj([]));
            var photos := FirstTruthy([Get(raw, "photos"), Get(raw, "images"), Get(raw, "media")], JArr([]));
            && p.id == FirstTruthy([Get(raw, "propertyId"), Get(raw, "id"), Get(raw, "mlsId")],
                                   JStr("property-" + NatToString(now)))
            && p.price == FirstTruthy([Get(raw, "listPrice"), Get(raw, "price"), Get(raw, "askingPrice"),
                                       Get(raw, "salePrice")], JNum(0.0))
            && p.address == FirstTruthy([Get(address, "line1"), Get(address, "full"), Get(address, "street"),
                                         Get(address, "streetAddress")], JStr("Address not available"))
            && p.city == FirstTruthy([Get(address, "city")], JStr("City not available"))
            && p.state == FirstTruthy([Get(address, "state"), Get(address, "stateOrProvince")],
                                      JStr("State not available"))
            && p.zipCode == FirstTruthy([Get(address, "postalCode"), Get(address, "zipCode"), Get(address, "postal")],
                                        JStr("ZIP not available"))
            && p.image == FirstTruthy([FirstElement(photos)], JStr("/images/vibrant.jpg"))
            && p.images == (if HasPositiveLength(photos) then photos else JArr([JStr("/images/vibrant.jpg")]))
            && p.yearBuilt == FirstTruthy([Get(raw, "yearBuilt"), Get(raw, "year")], JNum(2020.0))
            && p.description == FirstTruthy([Get(raw, "description"), Get(raw, "remarks")],
                                            JStr("Beautiful property with great features."))
            && p.features == FirstTruthy([Get(raw, "features"), Get(raw, "amenities")],
                                         JArr([JStr("Modern Features"), JStr("Great Location"), JStr("Well Maintained")]))
            && var t := FirstTruthy([Get(raw, "propertyType"), Get(raw, "type"), Get(raw, "style")], JStr("house"));
            && t.JStr? && p.homeType == MapPropertyType(Some(t.s))
  {
    var m := TransformAssembles(raw, now, b);
  }

  /** The corrected normalizer differs from the source's in the bath count alone: a record
      both normalize without placeholders gets the same listing except for `baths`, and
      the same listing outright when the two bath counts agree. */
  lemma ReadingsDifferOnlyInBaths(raw: Json, now: nat)
    requires Transform(raw, now, AsWritten).Ok? && Transform(raw, now, Corrected).Ok?
    requires !NeedsSynthetic(raw, AsWritten) && !NeedsSynthetic(raw, Corrected)
    ensures Transform(raw, now, Corrected).value
            == Transform(raw, now, AsWritten).value.(baths := CorrectedBaths(raw))
    ensures Baths(raw) == CorrectedBaths(raw) ==> Transform(raw, now, Corrected) == Transform(raw, now, AsWritten)
  {
    assert Measure(raw, AsWritten) == Ok(Measurements(Beds(raw), Baths(raw), Sqft(raw)));
    assert Measure(raw, Corrected) == Ok(Measurements(Beds(raw), CorrectedBaths(raw), Sqft(raw)));
  }

  /** The image list is never empty and the primary image is always set: both fall back
      to the default image when the record has no photos. */
  lemma ImagesNeverEmpty(raw: Json)
    ensures HasPositiveLength(Images(raw))
    ensures Truthy(Some(PrimaryImage(raw)))
    ensures !Truthy(Get(raw, "photos")) && !Truthy(Get(raw, "images")) && !Truthy(Get(raw, "media"))
            ==> Images(raw) == JArr([JStr(DefaultImage)]) && PrimaryImage(raw) == JStr(DefaultImage)
  {
  }

  /** An absent type is a house. */
  lemma HouseIsHouse()
    ensures MapPropertyType(Some("house")) == House
  {
    assert ToLower("house") == "house";
    LacksChar("house", "condo", 0);
    LacksChar("house", "townhouse", 0);
    LacksChar("house", "town home", 0);
    LacksChar("house", "apartment", 0);
    LacksChar("house", "multi-family", 0);
  }

  /** Price, year built, description, features and home type fall back to 0, 2020, the stock
      sentence, the three stock features and a house when every alias is falsy. */
  lemma FallbackDefaults(raw: Json)
    ensures (!Truthy(Get(raw, "listPrice")) && !Truthy(Get(raw, "price")) && !Truthy(Get(raw, "askingPrice")) &&
             !Truthy(Get(raw, "salePrice"))) ==> Price(raw) == Zero
    ensures !Truthy(Get(raw, "yearBuilt")) && !Truthy(Get(raw, "year")) ==> YearBuilt(raw) == JNum(DefaultYearBuilt)
    ensures !Truthy(Get(raw, "description")) && !Truthy(Get(raw, "remarks")) ==> Description(raw) == JStr(DefaultDescription)
    ensures !Truthy(Get(raw, "features")) && !Truthy(Get(raw, "amenities")) ==> Features(raw) == JArr(DefaultFeatures)
    ensures !Truthy(Get(raw, "propertyType")) && !Truthy(Get(raw, "type")) && !Truthy(Get(raw, "style"))
            ==> TypeValue(raw) == JStr("house") && MapPropertyType(Some(TypeValue(raw).s)) == House
  {
    FallbackNumbers(raw);
    FallbackTexts(raw);
  }

  /** The numeric defaults: price 0 and year built 2020. */
  lemma FallbackNumbers(raw: Json)
    ensures (!Truthy(Get(raw, "listPrice")) && !Truthy(Get(raw, "price")) && !Truthy(Get(raw, "askingPrice")) &&
             !Truthy(Get(raw, "salePrice"))) ==> Price(raw) == Zero
    ensures !Truthy(Get(raw, "yearBuilt")) && !Truthy(Get(raw, "year")) ==> YearBuilt(raw) == JNum(DefaultYearBuilt)
  {
  }

  /** The text defaults: description, features and the house type. */
  lemma FallbackTexts(raw: Json)
    ensures !Truthy(Get(raw, "description")) && !Truthy(Get(raw, "remarks")) ==> Description(raw) == JStr(DefaultDescription)
    ensures !Truthy(Get(raw, "features")) && !Truthy(Get(raw, "amenities")) ==> Features(raw) == JArr(DefaultFeatures)
    ensures !Truthy(Get(raw, "propertyType")) && !Truthy(Get(raw, "type")) && !Truthy(Get(raw, "style"))
            ==> TypeValue(raw) == JStr("house") && MapPropertyType(Some(TypeValue(raw).s)) == House
  {
    HouseIsHouse();
  }

  /** How the fields of an empty record read. */
  lemma EmptyRecordReadings(now: nat)
    ensures IdValue(JObj([]), now) == JStr("property-" + NatToString(now))
    ensures AddressLine(JObj([])) == JStr("Address not available")
    ensures City(JObj([])) == JStr("City not available")
    ensures State(JObj([])) == JStr("State not available")
    ensures ZipCode(JObj([])) == JStr("ZIP not available")
  {
    assert AddressObject(JObj([])) == JObj([]);
  }

  /** An empty record has no beds, baths or area of its own. */
  lemma EmptyNeedsSynthetic(b: BathReading)
    ensures NeedsSynthetic(JObj([]), b)
  {
    var raw := JObj([]);
    assert ScanKeys(raw) == [];
    assert DetailsField(raw, "bathsFull") == None;
    assert DetailsField(raw, "bathsHalf") == None;
    assert DetailsField(raw, "bathsThreeQuarter") == None;
  }

  /** An empty record gets the placeholder values of the empty id. */
  lemma EmptyRecordMeasurements(b: BathReading)
    ensures Measure(JObj([]), b) == Ok(Measurements(JNum(2.0), JNum(2.0), JNum(1600.0)))
  {
    EmptyPlaceholders(JObj([]), b);
  }

  /** The placeholder values of a record equal to the empty one, stated for a variable so the
      record is not unfolded as a literal. */
  lemma EmptyPlaceholders(raw: Json, b: BathReading)
    requires raw == JObj([])
    ensures Measure(raw, b) == Ok(Measurements(JNum(2.0), JNum(2.0), JNum(1600.0)))
  {
    assert SyntheticDimensions("") == Dimensions(2, 2, 1600) by {
      assert CharCodeSum("") == 0;
    }
    assert SyntheticId(raw) == JStr("") by {
      assert Get(raw, "propertyId") == None && Get(raw, "id") == None;
    }
    EmptyNeedsSynthetic(b);
    PlaceholderMeasurements(raw, b, "");
  }

  /** A record that needs placeholders and has a string id is measured by that id alone. */
  lemma PlaceholderMeasurements(raw: Json, b: BathReading, id: string)
    requires NeedsSynthetic(raw, b) && SyntheticId(raw) == JStr(id)
    ensures var d := SyntheticDimensions(id);
            Measure(raw, b) == Ok(Measurements(JNum(d.beds as real), JNum(d.baths as real), JNum(d.sqft as real)))
  {
  }

  /** Normalizing an empty record: every default, placeholder values for the empty id
      (character-code sum 0), and an id made from the clock. */
  lemma EmptyRecord(now: nat, b: BathReading)
    ensures Transform(JObj([]), now, b) == Ok(Property(
      id := JStr("property-" + NatToString(now)),
      price := Zero,
      address := JStr("Address not available"),
      city := JStr("City not available"),
      state := JStr("State not available"),
      zipCode := JStr("ZIP not available"),
      beds := JNum(2.0), baths := JNum(2.0), sqft := JNum(1600.0),
      image := JStr(DefaultImage),
      images := JArr([JStr(DefaultImage)]),
      homeType := House,
      yearBuilt := JNum(DefaultYearBuilt),
      description := JStr(DefaultDescription),
      features := JArr(DefaultFeatures)))
  {
    var raw := JObj([]);
    EmptyAssembles(raw, now, b);
    EmptyAssembled(raw, now);
  }

  /** The empty record's listing once its placeholder measurements are known. */
  lemma EmptyAssembled(raw: Json, now: nat)
    requires raw == JObj([])
    ensures Assemble(raw, now, Measurements(JNum(2.0), JNum(2.0), JNum(1600.0)), "house") == Property(
      id := JStr("property-" + NatToString(now)),
      price := Zero,
      address := JStr("Address not available"),
      city := JStr("City not available"),
      state := JStr("State not available"),
      zipCode := JStr("ZIP not available"),
      beds := JNum(2.0), baths := JNum(2.0), sqft := JNum(1600.0),
      image := JStr(DefaultImage),
      images := JArr([JStr(DefaultImage)]),
      homeType := House,
      yearBuilt := JNum(DefaultYearBuilt),
      description := JStr(DefaultDescription),
      features := JArr(DefaultFeatures))
  {
    FallbackDefaults(raw);
    ImagesNeverEmpty(raw);
    EmptyRecordReadings(now);
  }

  /** An empty record normalizes to the object literal over its placeholder values and the
      "house" type, stated for a variable so the record is not unfolded as a literal. */
  lemma EmptyAssembles(raw: Json, now: nat, b: BathReading)
    requires raw == JObj([])
    ensures Transform(raw, now, b) == Ok(Assemble(raw, now, Measurements(JNum(2.0), JNum(2.0), JNum(1600.0)), "house"))
  {
    EmptyPlaceholders(raw, b);
    assert TypeValue(raw) == JStr("house") by {
      assert Get(raw, "propertyType") == None && Get(raw, "type") == None && Get(raw, "style") == None;
    }
    TransformOf(raw, now, b, Measurements(JNum(2.0), JNum(2.0), JNum(1600.0)), "house");
  }

  /** A non-null record with measurements `m` and type string `t` normalizes to the object
      literal over them. */
  lemma TransformOf(raw: Json, now: nat, b: BathReading, m: Measurements, t: string)
    requires raw != JNull && Measure(raw, b) == Ok(m) && TypeValue(raw) == JStr(t)
    ensures Transform(raw, now, b) == Ok(Assemble(raw, now, m, t))
  {
  }
}
