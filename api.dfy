/** The NationalAddress client: construction, the query of each operation,
    the bulk address string, and the mapping of a parsed response body to
    records. The HTTP GET and `r.json()` are outside the model: a request is
    a value, and the parsed body is an input. */
module Api {
  import opened Builtins
  import opened Json
  import opened Models

  const ServiceUrl := "https://apina.address.gov.sa"
  const ApiRoot := "/NationalAddress/v3.1/"
  const FormatJson := "json"
  const EncodeUtf8 := "utf8"

  /** A configured client: base URL and API key. */
  datatype Client = Client(url: string, key: string)

  /** A Python str-or-None argument that is truthy. */
  predicate Given(v: Option<string>) {
    v.Some? && v.value != ""
  }

  /** `NationalAddress(url, key)`: raises ValueError exactly when `key` is
      falsy; the URL falls back to the service root when falsy. */
  function NewClient(url: Option<string>, key: Option<string>): (r: Result<Client>)
    ensures r.Err? <==> !Given(key)
    ensures r.Err? ==> r.error == ValueError
    ensures r.Ok? ==> r.value.key == key.value && r.value.key != ""
    ensures r.Ok? ==> r.value.url == (if Given(url) then url.value else ServiceUrl)
    ensures r.Ok? ==> r.value.url != ""
  {
    var u := if Given(url) then url.value else ServiceUrl;
    if Given(key) then Ok(Client(u, key.value)) else Err(ValueError)
  }

  /** An IEEE-754 double passed through to the query untouched (lat, long,
      radius); the client never computes with it. */
  datatype Double = Double(bits: bv64)

  /** A query-parameter value as the caller passes it. */
  datatype Value = PNone | PStr(s: string) | PInt(i: int) | PFloat(f: Double)

  /** Default arguments of the client methods: language 'E', page 1, the
      lookups' id -1 and `nearest_poi`'s radius 0.5. */
  const DefaultLanguage := PStr("E")
  const DefaultPage := PInt(1)
  /** Default region, city or category id of the lookups. */
  const AnyId := PInt(-1)
  const DefaultRadius := PFloat(Double(0x3FE0_0000_0000_0000))

  /** One component of a bulk-search triple. */
  datatype Component = Number(n: int) | Text(s: string)

  /** A (building_number, post_code, additional_number) triple. */
  datatype Triple = Triple(building: Component, postCode: Component, additional: Component)

  /** `str(component)`; a number never contains a separator. */
  function ComponentText(c: Component): (s: string)
    ensures c.Number? ==> '|' !in s && ';' !in s
  {
    match c
    case Number(n) => IntToString(n)
    case Text(s) => s
  }

  /** The texts of a triple's components, in order. */
  function Texts(t: Triple): seq<string> {
    [ComponentText(t.building), ComponentText(t.postCode), ComponentText(t.additional)]
  }

  /** One address of a bulk search: its components joined by '|'. */
  function Piece(t: Triple): string {
    Join('|', Texts(t))
  }

  /** The pieces of a bulk search, in the order given. */
  function Pieces(ts: seq<Triple>): (ps: seq<string>)
    ensures |ps| == |ts|
  {
    seq(|ts|, i requires 0 <= i < |ts| => Piece(ts[i]))
  }

  /** The `addressstring` of a bulk search: the pieces joined by ';'. */
  function AddressString(ts: seq<Triple>): string {
    Join(';', Pieces(ts))
  }

  /** `bulk_search`'s loop appending one piece per triple, then the join. */
  method BuildAddressString(ts: seq<Triple>) returns (s: string)
    ensures s == AddressString(ts)
  {
    var pieces: seq<string> := [];
    for i := 0 to |ts|
      invariant |pieces| == i
      invariant forall j :: 0 <= j < i ==> pieces[j] == Piece(ts[j])
    {
      pieces := pieces + [Join('|', [ComponentText(ts[i].building), ComponentText(ts[i].postCode),
                                     ComponentText(ts[i].additional)])];
    }
    assert pieces == Pieces(ts);
    s := Join(';', pieces);
  }

  /** No component text holds a ';'. */
  predicate SemicolonFree(ts: seq<Triple>) {
    forall i :: 0 <= i < |ts| ==>
      forall t :: t in Texts(ts[i]) ==> ';' !in t
  }

  /** No component text holds either separator. */
  predicate SeparatorFree(ts: seq<Triple>) {
    forall i :: 0 <= i < |ts| ==>
      forall t :: t in Texts(ts[i]) ==> '|' !in t && ';' !in t
  }

  /** Every all-number bulk search is separator-free. */
  lemma NumbersAreSeparatorFree(ts: seq<Triple>)
    requires forall i :: 0 <= i < |ts| ==>
      ts[i].building.Number? && ts[i].postCode.Number? && ts[i].additional.Number?
    ensures SeparatorFree(ts)
  {
  }

  lemma PiecesSemicolonFree(ts: seq<Triple>)
    requires SemicolonFree(ts)
    ensures forall i :: 0 <= i < |ts| ==> ';' !in Pieces(ts)[i]
  {
    forall i | 0 <= i < |ts| ensures ';' !in Pieces(ts)[i] {
      JoinCharacters('|', Texts(ts[i]), ';');
    }
  }

  /** No triples give ''; n >= 1 triples whose texts hold no ';' give n - 1 ';'. */
  lemma AddressStringSeparators(ts: seq<Triple>)
    requires SemicolonFree(ts)
    ensures ts == [] ==> AddressString(ts) == ""
    ensures ts != [] ==> Occurrences(';', AddressString(ts)) == |ts| - 1
  {
    if ts != [] {
      PiecesSemicolonFree(ts);
      JoinSeparatorCount(';', Pieces(ts));
    }
  }

  /** Splitting the address string on ';' and then '|' gives back every
      component's text, in order. */
  lemma AddressStringRoundTrip(ts: seq<Triple>)
    requires ts != [] && SeparatorFree(ts)
    ensures |Split(';', AddressString(ts))| == |ts|
    ensures forall i :: 0 <= i < |ts| ==> Split('|', Split(';', AddressString(ts))[i]) == Texts(ts[i])
  {
    PiecesSemicolonFree(ts);
    SplitJoin(';', Pieces(ts));
    forall i | 0 <= i < |ts| ensures Split('|', Pieces(ts)[i]) == Texts(ts[i]) {
      SplitJoin('|', Texts(ts[i]));
    }
  }

  /** The piece of an all-number triple is its three decimals joined by '|'. */
  lemma NumberPiece(b: int, p: int, a: int)
    ensures Piece(Triple(Number(b), Number(p), Number(a)))
         == IntToString(b) + "|" + IntToString(p) + "|" + IntToString(a)
  {
    var texts := [IntToString(b), IntToString(p), IntToString(a)];
    assert texts[1..] == [IntToString(p), IntToString(a)];
    assert texts[1..][1..] == [IntToString(a)];
    assert Texts(Triple(Number(b), Number(p), Number(a))) == texts;
    assert Join('|', texts[1..]) == IntToString(p) + "|" + IntToString(a);
    assert Join('|', texts) == IntToString(b) + "|" + Join('|', texts[1..]);
  }

  /** Two addresses are sent as their pieces around one ';'. */
  lemma AddressStringOfTwo(t1: Triple, t2: Triple)
    ensures AddressString([t1, t2]) == Piece(t1) + ";" + Piece(t2)
  {
    var p1, p2 := Piece(t1), Piece(t2);
    assert Pieces([t1, t2]) == [p1, p2];
    assert [p1, p2][1..] == [p2];
    assert Join(';', [p1, p2]) == p1 + [';'] + Join(';', [p2]);
  }

  /** Two all-number addresses, as in the library's usage example, are sent
      as their six decimals, '|' inside an address and ';' between the two. */
  lemma AddressStringOfNumbers(b1: int, p1: int, a1: int, b2: int, p2: int, a2: int)
    ensures AddressString([Triple(Number(b1), Number(p1), Number(a1)),
                           Triple(Number(b2), Number(p2), Number(a2))])
         == IntToString(b1) + "|" + IntToString(p1) + "|" + IntToString(a1) + ";"
          + IntToString(b2) + "|" + IntToString(p2) + "|" + IntToString(a2)
  {
    NumberPiece(b1, p1, a1);
    NumberPiece(b2, p2, a2);
    AddressStringOfTwo(Triple(Number(b1), Number(p1), Number(a1)),
                       Triple(Number(b2), Number(p2), Number(a2)));
  }

  /** The location filters shared by `fixed_search` and `poi_fixed_search`;
      each defaults to None. */
  datatype Filters = Filters(
    cityId: Value, districtId: Value, buildingNumber: Value, postCode: Value,
    additionalNumber: Value, cityName: Value, districtName: Value, streetName: Value)

  const NoFilters := Filters(PNone, PNone, PNone, PNone, PNone, PNone, PNone, PNone)

  /** One call of the client, with its arguments. */
  datatype Operation =
    | GetAddress(lat: Value, long: Value, language: Value)
    | BulkSearch(triples: seq<Triple>, language: Value, page: Value)
    | FixedSearch(language: Value, page: Value, filters: Filters)
    | FreeTextSearch(addressString: Value, language: Value, page: Value)
    | NearestPoi(lat: Value, long: Value, language: Value, page: Value, radius: Value)
    | PoiFixedSearch(serviceString: Value, language: Value, page: Value, filters: Filters,
                     serviceCategoryId: Value, serviceSubcategoryId: Value, regionId: Value)
    | PoiFreeTextSearch(serviceString: Value, language: Value, page: Value)
    | VerifyAddress(buildingNumber: Value, postCode: Value, additionalNumber: Value,
                    language: Value, page: Value)
    | GetRegions(language: Value)
    | GetCities(regionId: Value, language: Value)
    | GetDistricts(cityId: Value, language: Value)
    | GetCategories(language: Value)
    | GetSubcategories(serviceCategoryId: Value, language: Value)

  /** The seven address and POI searches, answered with a ResultSet. */
  predicate IsSearch(op: Operation) {
    op.GetAddress? || op.BulkSearch? || op.FixedSearch? || op.FreeTextSearch?
    || op.NearestPoi? || op.PoiFixedSearch? || op.PoiFreeTextSearch?
  }

  /** The five lookups, answered with a plain list. */
  predicate IsLookup(op: Operation) {
    op.GetRegions? || op.GetCities? || op.GetDistricts? || op.GetCategories? || op.GetSubcategories?
  }

  /** The path of an operation below the API root: searches and
      `verify_address` go below `Address/`, lookups below `lookup/`. */
  function Endpoint(op: Operation): (e: string)
    ensures !IsLookup(op) ==> |e| > 8 && e[..8] == "Address/"
    ensures IsLookup(op) ==> |e| > 7 && e[..7] == "lookup/"
  {
    match op
    case GetAddress(_, _, _) => "Address/address-geocode"
    case BulkSearch(_, _, _) => "Address/address-bulk"
    case FixedSearch(_, _, _) => "Address/address-fixed-params"
    case FreeTextSearch(_, _, _) => "Address/address-free-text"
    case NearestPoi(_, _, _, _, _) => "Address/poi-nearest"
    case PoiFixedSearch(_, _, _, _, _, _, _) => "Address/poi-fixed-params"
    case PoiFreeTextSearch(_, _, _) => "Address/poi-free-text"
    case VerifyAddress(_, _, _, _, _) => "Address/address-verify"
    case GetRegions(_) => "lookup/regions"
    case GetCities(_, _) => "lookup/cities"
    case GetDistricts(_, _) => "lookup/districts"
    case GetCategories(_) => "lookup/service-categories"
    case GetSubcategories(_, _) => "lookup/services-sub-categories"
  }

  /** The query-parameter names the client sends. */
  datatype ParamName =
    | Lat | Long | Language | Format | Encode | Page | Radius
    | AddressText | ServiceText
    | CityId | DistrictId | BuildingNumber | ZipCode | AdditionalNumber
    | CityName | DistrictName | StreetName
    | ServiceCategoryId | ServiceSubcategoryId | RegionId
    | LowerCityId | LowerServiceCategoryId

  /** The exact spelling of each name in the query string. */
  function WireName(n: ParamName): (w: string)
    ensures w != "api_key"
  {
    match n
    case Lat => "lat"
    case Long => "long"
    case Language => "language"
    case Format => "format"
    case Encode => "encode"
    case Page => "page"
    case Radius => "radius"
    case AddressText => "addressstring"
    case ServiceText => "servicestring"
    case CityId => "cityId"
    case DistrictId => "districtId"
    case BuildingNumber => "buildingnumber"
    case ZipCode => "zipcode"
    case AdditionalNumber => "additionalnumber"
    case CityName => "cityname"
    case DistrictName => "districtname"
    case StreetName => "streetname"
    case ServiceCategoryId => "servicecategoryId"
    case ServiceSubcategoryId => "servicesubcategoryId"
    case RegionId => "regionid"
    case LowerCityId => "cityid"
    case LowerServiceCategoryId => "servicecategoryid"
  }

  /** Distinct names have distinct spellings, so a map keyed by `ParamName`
      stands for the query dict keyed by its strings. */
  lemma WireNameInjective(a: ParamName, b: ParamName)
    ensures WireName(a) == WireName(b) ==> a == b
  {
  }

  /** The query filters of a location search. */
  function FilterParams(f: Filters): map<ParamName, Value> {
    map[
      CityId := f.cityId, DistrictId := f.districtId, BuildingNumber := f.buildingNumber,
      ZipCode := f.postCode, AdditionalNumber := f.additionalNumber, CityName := f.cityName,
      DistrictName := f.districtName, StreetName := f.streetName]
  }

  /** Parameters common to all searches, `verify_address` and `get_regions`. */
  function Common(language: Value): map<ParamName, Value> {
    map[Language := language, Format := PStr(FormatJson), Encode := PStr(EncodeUtf8)]
  }

  /** The parameters of a location search: the common ones, the page and
      every filter. */
  function LocationParams(language: Value, page: Value, f: Filters): (p: map<ParamName, Value>)
    ensures Language in p && p[Language] == language
    ensures Format in p && p[Format] == PStr(FormatJson)
    ensures Encode in p && p[Encode] == PStr(EncodeUtf8)
    ensures Page in p && p[Page] == page
  {
    var filters := FilterParams(f);
    assert Language !in filters && Format !in filters && Encode !in filters && Page !in filters;
    Common(language)[Page := page] + filters
  }

  /** The query parameters of an operation. None-valued filters stay in the map. */
  function Params(op: Operation): (p: map<ParamName, Value>)
    ensures Language in p && p[Language] == op.language
    ensures Format in p && p[Format] == PStr(FormatJson)
    ensures (Encode in p) <==> !(op.GetCities? || op.GetDistricts? || op.GetCategories? || op.GetSubcategories?)
    ensures Encode in p ==> p[Encode] == PStr(EncodeUtf8)
    ensures (Page in p) <==> !(op.GetAddress? || IsLookup(op))
    ensures Page in p ==> p[Page] == op.page
  {
    match op
    case GetAddress(lat, long, language) =>
      Common(language)[Lat := lat][Long := long]
    case BulkSearch(triples, language, page) =>
      Common(language)[AddressText := PStr(AddressString(triples))][Page := page]
    case FixedSearch(language, page, filters) =>
      LocationParams(language, page, filters)
    case FreeTextSearch(addressString, language, page) =>
      Common(language)[AddressText := addressString][Page := page]
    case NearestPoi(lat, long, language, page, radius) =>
      Common(language)[Lat := lat][Long := long][Page := page][Radius := radius]
    case PoiFixedSearch(serviceString, language, page, filters, categoryId, subcategoryId, regionId) =>
      LocationParams(language, page, filters)[ServiceText := serviceString]
        [ServiceCategoryId := categoryId][ServiceSubcategoryId := subcategoryId][RegionId := regionId]
    case PoiFreeTextSearch(serviceString, language, page) =>
      Common(language)[ServiceText := serviceString][Page := page]
    case VerifyAddress(buildingNumber, postCode, additionalNumber, language, page) =>
      Common(language)[BuildingNumber := buildingNumber][ZipCode := postCode]
        [AdditionalNumber := additionalNumber][Page := page]
    case GetRegions(language) =>
      Common(language)
    case GetCities(regionId, language) =>
      map[Language := language, Format := PStr(FormatJson), RegionId := regionId]
    case GetDistricts(cityId, language) =>
      map[Language := language, Format := PStr(FormatJson), LowerCityId := cityId]
    case GetCategories(language) =>
      map[Language := language, Format := PStr(FormatJson)]
    case GetSubcategories(serviceCategoryId, language) =>
      map[Language := language, Format := PStr(FormatJson), LowerServiceCategoryId := serviceCategoryId]
  }

  /** The bulk search sends its triples as one `addressstring`. */
  lemma BulkSearchParams(triples: seq<Triple>, language: Value, page: Value)
    ensures Params(BulkSearch(triples, language, page))
         == map[AddressText := PStr(AddressString(triples)), Language := language,
                Format := PStr(FormatJson), Encode := PStr(EncodeUtf8), Page := page]
  {
  }

  /** The lookups other than regions send no `encode` and take their id
      under a lower-case name. */
  lemma LookupParams(id: Value, language: Value)
    ensures Params(GetCities(id, language)).Keys == {Language, Format, RegionId}
    ensures Params(GetCities(id, language))[RegionId] == id
    ensures Params(GetDistricts(id, language)).Keys == {Language, Format, LowerCityId}
    ensures Params(GetDistricts(id, language))[LowerCityId] == id
    ensures Params(GetSubcategories(id, language)).Keys == {Language, Format, LowerServiceCategoryId}
    ensures Params(GetSubcategories(id, language))[LowerServiceCategoryId] == id
    ensures Params(GetCategories(language)).Keys == {Language, Format}
  {
  }

  /** `fixed_search` sends every filter, None included, beside the common
      parameters and the page. */
  lemma FixedSearchParams(language: Value, page: Value, f: Filters)
    ensures Params(FixedSearch(language, page, f))
         == map[Language := language, Format := PStr(FormatJson), Encode := PStr(EncodeUtf8), Page := page]
            + FilterParams(f)
  {
  }

  /** `poi_fixed_search` sends the parameters of `fixed_search` plus its
      service text, category, sub-category and region. */
  lemma PoiFixedSearchParams(service: Value, language: Value, page: Value, f: Filters,
                             category: Value, subcategory: Value, region: Value)
    ensures Params(PoiFixedSearch(service, language, page, f, category, subcategory, region))
         == Params(FixedSearch(language, page, f))[ServiceText := service][ServiceCategoryId := category]
              [ServiceSubcategoryId := subcategory][RegionId := region]
  {
  }

  /** A call that leaves its optional arguments at their defaults sends
      `language=E`, `page=1`, radius 0.5, None for every filter and -1 for
      a lookup's id. */
  lemma DefaultArguments(lat: Value, long: Value)
    ensures Params(GetAddress(lat, long, DefaultLanguage))
         == map[Lat := lat, Long := long, Language := PStr("E"),
                Format := PStr(FormatJson), Encode := PStr(EncodeUtf8)]
    ensures Params(NearestPoi(lat, long, DefaultLanguage, DefaultPage, DefaultRadius))[Page] == PInt(1)
    ensures Params(NearestPoi(lat, long, DefaultLanguage, DefaultPage, DefaultRadius))[Radius]
         == PFloat(Double(0x3FE0_0000_0000_0000))
    ensures forall n :: n in FilterParams(NoFilters) ==>
      Params(FixedSearch(DefaultLanguage, DefaultPage, NoFilters))[n] == PNone
    ensures Params(GetCities(AnyId, DefaultLanguage))[RegionId] == PInt(-1)
    ensures Params(GetDistricts(AnyId, DefaultLanguage))[LowerCityId] == PInt(-1)
    ensures Params(GetSubcategories(AnyId, DefaultLanguage))[LowerServiceCategoryId] == PInt(-1)
  {
  }

  /** A GET request: full URL, query parameters and headers. */
  datatype Request = Request(url: string, params: map<ParamName, Value>, headers: map<string, string>)

  /** The request an operation sends: the API key travels only in the
      `api_key` header, and no query parameter carries that name. */
  function BuildRequest(c: Client, op: Operation): (r: Request)
    ensures r.headers.Keys == {"api_key"} && r.headers["api_key"] == c.key
    ensures forall n :: n in r.params ==> WireName(n) != "api_key"
    ensures r.url == c.url + ApiRoot + Endpoint(op)
    ensures r.params == Params(op)
  {
    Request(c.url + ApiRoot + Endpoint(op), Params(op), map["api_key" := c.key])
  }

  /** The body key holding the records of a class. */
  function RecordKey(k: Kind): string {
    match k
    case Address => "Addresses"
    case Region => "Regions"
    case City => "Cities"
    case District => "Districts"
    case ServiceCategory => "ServiceCategories"
    case ServiceSubCategory => "ServiceSubCategories"
  }

  /** `result.get('success')` is truthy. */
  predicate Succeeded(body: map<string, Json>) {
    Truthy(Get(body, "success", JNull))
  }

  /** The entries `for record in records` visits, where `records =
      result.get(key)`: nothing when falsy, the items of a list. A truthy
      string or dict yields strings, whose `.copy()` is missing
      (AttributeError); a truthy number or bool is not iterable (TypeError). */
  function Entries(body: map<string, Json>, key: string): (r: Result<seq<Json>>)
    ensures !Truthy(Get(body, key, JNull)) ==> r == Ok([])
    ensures Get(body, key, JNull).JArr? ==> r == Ok(Get(body, key, JNull).items)
    ensures r.Err? <==> Truthy(Get(body, key, JNull)) && !Get(body, key, JNull).JArr?
    ensures r.Err? ==> (r.error == TypeError <==> Get(body, key, JNull).JInt? || Get(body, key, JNull).JBool?)
  {
    var records := Get(body, key, JNull);
    if !Truthy(records) then Ok([])
    else
      match records
      case JArr(items) => Ok(items)
      case JInt(_) => Err(TypeError)
      case JBool(_) => Err(TypeError)
      case _ => Err(AttributeError)
  }

  /** `from_json` of each entry, in order, stopping at the first that raises. */
  function MappedRecords(k: Kind, entries: seq<Json>): (r: Result<seq<Model>>)
    ensures r.Ok? <==> forall i :: 0 <= i < |entries| ==> Decodable(entries[i], map[])
    ensures r.Ok? ==> |r.value| == |entries|
    ensures r.Ok? ==> forall i :: 0 <= i < |entries| ==> r.value[i] == Decoded(k, entries[i], map[]).value
    ensures r.Err? ==> exists i :: 0 <= i < |entries| && !Decodable(entries[i], map[])
                                   && (forall j :: 0 <= j < i ==> Decodable(entries[j], map[]))
                                   && r == Decoded(k, entries[i], map[]).PropagateFailure()
    decreases |entries|
  {
    if entries == [] then Ok([])
    else
      var first :- Decoded(k, entries[0], map[]);
      var rest :- MappedRecords(k, entries[1..]);
      Ok([first] + rest)
  }

  /** The response of a search: an empty set when the body does not
      succeed, else the mapped `Addresses` and `int(totalSearchResults)`
      (default 0). A body that is not a dict has no `.get`. */
  function SearchResponse(body: Json): (r: Result<ResultSet>)
    ensures !body.JObj? ==> r == Err(AttributeError)
    ensures body.JObj? && !Succeeded(body.fields) ==> r == Ok(ResultSet([], 0))
    ensures r.Ok? ==> forall m :: m in r.value.records ==> m.kind == Address && WellFormed(m)
    ensures r.Ok? && body.JObj? && Succeeded(body.fields) ==>
      Entries(body.fields, "Addresses").Ok?
      && |r.value.records| == |Entries(body.fields, "Addresses").value|
      && ToInt(Get(body.fields, "totalSearchResults", JInt(0))) == Ok(r.value.count)
  {
    match body
    case JObj(d) =>
      if !Succeeded(d) then Ok(ResultSet([], 0))
      else
        var entries :- Entries(d, RecordKey(Address));
        var records :- MappedRecords(Address, entries);
        var count :- ToInt(Get(d, "totalSearchResults", JInt(0)));
        Ok(ResultSet(records, count))
    case _ => Err(AttributeError)
  }

  /** The response of a lookup: the mapped records under the class's key,
      no count. */
  function LookupResponse(k: Kind, body: Json): (r: Result<seq<Model>>)
    ensures !body.JObj? ==> r == Err(AttributeError)
    ensures body.JObj? && !Succeeded(body.fields) ==> r == Ok([])
    ensures r.Ok? ==> forall m :: m in r.value ==> m.kind == k && WellFormed(m)
    ensures r.Ok? && body.JObj? && Succeeded(body.fields) ==>
      Entries(body.fields, RecordKey(k)).Ok?
      && |r.value| == |Entries(body.fields, RecordKey(k)).value|
  {
    match body
    case JObj(d) =>
      if !Succeeded(d) then Ok([])
      else
        var entries :- Entries(d, RecordKey(k));
        MappedRecords(k, entries)
    case _ => Err(AttributeError)
  }

  /** `verify_address`: `result.get('addressfound')` on success (None when
      the key is missing), None otherwise. */
  function VerifyResponse(body: Json): (r: Result<Json>)
    ensures r.Err? <==> !body.JObj?
    ensures r.Ok? && !Succeeded(body.fields) ==> r.value == JNull
    ensures r.Ok? && Succeeded(body.fields) ==> r.value == Get(body.fields, "addressfound", JNull)
  {
    match body
    case JObj(d) => if Succeeded(d) then Ok(Get(d, "addressfound", JNull)) else Ok(JNull)
    case _ => Err(AttributeError)
  }

  /** The loop `for record in records: out.append(cls.from_json(record))`. */
  method MapRecords(k: Kind, entries: seq<Json>) returns (r: Result<seq<Model>>)
    ensures r == MappedRecords(k, entries)
  {
    var out: seq<Model> := [];
    var i := 0;
    while i < |entries|
      invariant 0 <= i <= |entries|
      invariant |out| == i
      invariant forall j :: 0 <= j < i ==> Decodable(entries[j], map[]) && out[j] == Decoded(k, entries[j], map[]).value
    {
      var m := FromJson(k, entries[i], map[]);
      if m.Err? {
        return Err(m.error);
      }
      out := out + [m.value];
      i := i + 1;
    }
    var spec := MappedRecords(k, entries);
    assert spec.Ok? && |spec.value| == |out|;
    assert forall j :: 0 <= j < |out| ==> out[j] == spec.value[j];
    assert out == spec.value;
    return Ok(out);
  }

  /** The search methods' handling of a parsed body. */
  method HandleSearch(body: Json) returns (r: Result<ResultSet>)
    ensures r == SearchResponse(body)
  {
    if !body.JObj? {
      return Err(AttributeError);
    }
    var result := body.fields;
    var records: seq<Model> := [];
    var total := JInt(0);
    if Truthy(Get(result, "success", JNull)) {
      var entries := Entries(result, "Addresses");
      total := Get(result, "totalSearchResults", JInt(0));
      if entries.Err? {
        return Err(entries.error);
      }
      var mapped := MapRecords(Address, entries.value);
      if mapped.Err? {
        return Err(mapped.error);
      }
      records := mapped.value;
    }
    var count := ToInt(total);
    if count.Err? {
      return Err(count.error);
    }
    r := Ok(ResultSet(records, count.value));
  }

  /** The lookup methods' handling of a parsed body. */
  method HandleLookup(k: Kind, body: Json) returns (r: Result<seq<Model>>)
    ensures r == LookupResponse(k, body)
  {
    if !body.JObj? {
      return Err(AttributeError);
    }
    var result := body.fields;
    r := Ok([]);
    if Truthy(Get(result, "success", JNull)) {
      var entries := Entries(result, RecordKey(k));
      if entries.Err? {
        return Err(entries.error);
      }
      r := MapRecords(k, entries.value);
    }
  }

  /** Without success every operation answers empty, whatever else the body holds. */
  lemma NoSuccessIsEmpty(body: map<string, Json>, k: Kind)
    requires !Succeeded(body)
    ensures SearchResponse(JObj(body)) == Ok(ResultSet([], 0))
    ensures LookupResponse(k, JObj(body)) == Ok([])
    ensures VerifyResponse(JObj(body)) == Ok(JNull)
  {
  }

  /** On success each list entry becomes one record, in order, and the count
      is the reported total, independent of the number of records. */
  lemma SearchMapsEachEntry(body: map<string, Json>, items: seq<Json>, total: int)
    requires Succeeded(body)
    requires Get(body, "Addresses", JNull) == JArr(items)
    requires forall i :: 0 <= i < |items| ==> Decodable(items[i], map[])
    requires Get(body, "totalSearchResults", JInt(0)) == JInt(total)
    ensures SearchResponse(JObj(body)).Ok?
    ensures |SearchResponse(JObj(body)).value.records| == |items|
    ensures forall i :: 0 <= i < |items| ==>
      SearchResponse(JObj(body)).value.records[i] == Decoded(Address, items[i], map[]).value
    ensures SearchResponse(JObj(body)).value.count == total
  {
  }

  /** On success with no records (absent, null or empty), the count still
      comes from `totalSearchResults`, 0 when it is absent. */
  lemma SearchWithoutRecords(body: map<string, Json>)
    requires Succeeded(body)
    requires !Truthy(Get(body, "Addresses", JNull))
    ensures ToInt(Get(body, "totalSearchResults", JInt(0))).Ok? ==>
      SearchResponse(JObj(body)) == Ok(ResultSet([], ToInt(Get(body, "totalSearchResults", JInt(0))).value))
    ensures "totalSearchResults" !in body ==> SearchResponse(JObj(body)) == Ok(ResultSet([], 0))
  {
  }

  /** `success: true, Addresses: [], totalSearchResults: 5` gives no records and count 5. */
  lemma CountDivergesExample()
    ensures SearchResponse(JObj(map["success" := JBool(true), "Addresses" := JArr([]),
                                    "totalSearchResults" := JInt(5)]))
         == Ok(ResultSet([], 5))
  {
  }

  /** An entry `from_json` rejects (not a dict, or a dict holding `self`)
      makes the whole search raise, with the error of the first such entry. */
  lemma SearchRaisesOnBadEntry(body: map<string, Json>, items: seq<Json>, i: nat)
    requires Succeeded(body)
    requires Get(body, "Addresses", JNull) == JArr(items)
    requires i < |items| && !Decodable(items[i], map[])
    requires forall j :: 0 <= j < i ==> Decodable(items[j], map[])
    ensures SearchResponse(JObj(body)) == Decoded(Address, items[i], map[]).PropagateFailure()
  {
    var r := MappedRecords(Address, items);
    var i' :| 0 <= i' < |items| && !Decodable(items[i'], map[])
              && (forall j :: 0 <= j < i' ==> Decodable(items[j], map[]))
              && r == Decoded(Address, items[i'], map[]).PropagateFailure();
    assert i' == i;
  }

  /** A record holding `self` makes the search raise TypeError. */
  lemma SelfEntryRaises(body: map<string, Json>, entry: map<string, Json>)
    requires body == map["success" := JBool(true), "Addresses" := JArr([JObj(entry)])]
    requires entry == map["self" := JInt(1)]
    ensures SearchResponse(JObj(body)) == Err(TypeError)
  {
    assert Get(body, "Addresses", JNull) == JArr([JObj(entry)]);
    SelfKeyRaises(Address, entry, map[]);
    SearchRaisesOnBadEntry(body, [JObj(entry)], 0);
  }

  /** On success a lookup holds one record of its class per entry, in order. */
  lemma LookupMapsEachEntry(k: Kind, body: map<string, Json>, items: seq<Json>)
    requires Succeeded(body)
    requires Get(body, RecordKey(k), JNull) == JArr(items)
    requires forall i :: 0 <= i < |items| ==> Decodable(items[i], map[])
    ensures LookupResponse(k, JObj(body)).Ok?
    ensures |LookupResponse(k, JObj(body)).value| == |items|
    ensures forall i :: 0 <= i < |items| ==>
      LookupResponse(k, JObj(body)).value[i].kind == k
      && LookupResponse(k, JObj(body)).value[i] == Decoded(k, items[i], map[]).value
  {
  }

  /** A missing endpoint key gives an empty lookup even on success. */
  lemma LookupWithoutKey(k: Kind, body: map<string, Json>)
    requires RecordKey(k) !in body
    ensures LookupResponse(k, JObj(body)) == Ok([])
  {
  }

  /** "No success" and a missing `addressfound` both give None, while
      `addressfound: false` gives False: only the value tells them apart. */
  lemma VerifyOutcomes()
    ensures VerifyResponse(JObj(map["success" := JBool(false), "addressfound" := JBool(true)])) == Ok(JNull)
    ensures VerifyResponse(JObj(map["success" := JBool(true)])) == Ok(JNull)
    ensures VerifyResponse(JObj(map["success" := JBool(true), "addressfound" := JBool(false)])) == Ok(JBool(false))
  {
  }

  /** What a call returns. */
  datatype Outcome = Searched(results: ResultSet) | Verified(found: Json) | Listed(records: seq<Model>)

  /** The record class a lookup returns. */
  function LookupKind(op: Operation): Kind
    requires IsLookup(op)
  {
    match op
    case GetRegions(_) => Region
    case GetCities(_, _) => City
    case GetDistricts(_, _) => District
    case GetCategories(_) => ServiceCategory
    case GetSubcategories(_, _) => ServiceSubCategory
  }

  /** The result of an operation given the parsed body of its response. */
  function Response(op: Operation, body: Json): Result<Outcome> {
    if IsSearch(op) then
      var rs :- SearchResponse(body);
      Ok(Searched(rs))
    else if op.VerifyAddress? then
      var found :- VerifyResponse(body);
      Ok(Verified(found))
    else
      var records :- LookupResponse(LookupKind(op), body);
      Ok(Listed(records))
  }

  /** One client method: the request it sends, and what it makes of the
      parsed body `body` of the reply. */
  method Call(c: Client, op: Operation, body: Json) returns (req: Request, out: Result<Outcome>)
    ensures req == BuildRequest(c, op)
    ensures out == Response(op, body)
    ensures IsSearch(op) && out.Ok? ==> out.value.Searched?
    ensures IsLookup(op) && out.Ok? ==> out.value.Listed?
  {
    req := Request(c.url + ApiRoot + Endpoint(op), Params(op), map["api_key" := c.key]);
    if IsSearch(op) {
      var rs := HandleSearch(body);
      out := if rs.Err? then Err(rs.error) else Ok(Searched(rs.value));
    } else if op.VerifyAddress? {
      var found := VerifyResponse(body);
      out := if found.Err? then Err(found.error) else Ok(Verified(found.value));
    } else {
      var records := HandleLookup(LookupKind(op), body);
      out := if records.Err? then Err(records.error) else Ok(Listed(records.value));
    }
  }
}
