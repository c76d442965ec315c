/** The record classes of the client: Address and the five Id/Name lookup
    records, built from one JSON dict each, and the paged ResultSet. */
module Models {
  import opened Builtins
  import opened Json

  /** The six record classes. */
  datatype Kind = Address | Region | City | District | ServiceCategory | ServiceSubCategory

  /** Declared fields of an Address, in declaration order; each defaults to None. */
  const AddressFields: seq<string> := [
    "Title", "Address1", "Address2", "ObjLatLng", "BuildingNumber", "Street",
    "District", "City", "PostCode", "AdditionalNumber", "UnitNumber",
    "RegionName", "IsPrimaryAddress", "Latitude", "Longitude"
  ]

  /** Declared fields of every lookup record. */
  const LookupFields: seq<string> := ["Id", "Name"]

  /** The `param_defaults` table of a record class, as its field names. */
  function Declared(k: Kind): seq<string> {
    if k == Address then AddressFields else LookupFields
  }

  function DeclaredSet(k: Kind): set<string> {
    set n | n in Declared(k)
  }

  /** A constructed record: its class, the attributes its initialiser set,
      and the dict it was built from (`_json`). */
  datatype Model = Model(kind: Kind, attrs: map<string, Json>, json: Json)

  /** The paged result of a search: records plus the total the service reported. */
  datatype ResultSet = ResultSet(records: seq<Model>, count: int)

  /** A record whose every declared field is set. */
  predicate WellFormed(m: Model) {
    forall n :: n in Declared(m.kind) ==> n in m.attrs
  }

  /** The value an initialiser stores for field `name`: the keyword argument
      when present and truthy, otherwise the empty string. */
  function FieldValue(kwargs: map<string, Json>, name: string): (v: Json)
    ensures v != JNull
    ensures Truthy(v) <==> name in kwargs && Truthy(kwargs[name])
    ensures Truthy(v) ==> v == kwargs[name]
    ensures !Truthy(v) ==> v == JStr("")
  {
    var value := Get(kwargs, name, JNull);
    if Truthy(value) then value else JStr("")
  }

  /** The attributes an initialiser of class `k` sets from `kwargs`. */
  function Attributes(k: Kind, kwargs: map<string, Json>): map<string, Json> {
    map n | n in Declared(k) :: FieldValue(kwargs, n)
  }

  /** Keyword arguments `from_json` can receive: `cls` and `data` are its own
      parameters, so a second value for either raises TypeError at the call. */
  predicate BindsKeywords(kwargs: map<string, Json>) {
    "cls" !in kwargs && "data" !in kwargs
  }

  /** A dict `cls(**d)` accepts: every initialiser is `__init__(self, **kwargs)`,
      so a `self` key is a second value for `self` and raises TypeError. */
  predicate Constructible(d: map<string, Json>) {
    "self" !in d
  }

  /** The arguments for which `from_json` returns a record. */
  predicate Decodable(data: Json, kwargs: map<string, Json>) {
    BindsKeywords(kwargs) && data.JObj? && Constructible(data.fields + kwargs)
  }

  /** `cls.from_json(data, **kwargs)`: a dict is copied, `kwargs` override
      its keys, the class is built from the copy and keeps `data` itself.
      A list fails in `cls(**data)` with TypeError, as does a copy holding
      `self`; any other value has no `.copy()` and fails with AttributeError. */
  function Decoded(k: Kind, data: Json, kwargs: map<string, Json>): (r: Result<Model>)
    ensures r.Ok? <==> Decodable(data, kwargs)
    ensures data.JArr? ==> r == Err(TypeError)
    ensures r.Err? ==> (r.error == AttributeError <==> BindsKeywords(kwargs) && !data.JObj? && !data.JArr?)
    ensures r.Err? ==> r.error != ValueError
    ensures r.Ok? ==> r.value.kind == k && r.value.json == data && WellFormed(r.value)
    ensures r.Ok? ==> r.value.attrs.Keys == DeclaredSet(k)
    ensures r.Ok? ==> forall n :: n in DeclaredSet(k) ==>
      r.value.attrs[n] == FieldValue(data.fields + kwargs, n)
  {
    if !BindsKeywords(kwargs) then Err(TypeError)
    else
      match data
      case JObj(d) => if Constructible(d + kwargs) then Ok(Model(k, Attributes(k, d + kwargs), data)) else Err(TypeError)
      case JArr(_) => Err(TypeError)
      case _ => Err(AttributeError)
  }

  /** The dict copy of `from_json`, with every keyword argument written over it. */
  method CopyWithOverrides(data: map<string, Json>, kwargs: map<string, Json>)
    returns (copy: map<string, Json>)
    ensures copy == data + kwargs
  {
    copy := data;
    if kwargs != map[] {
      var pending := kwargs.Keys;
      while pending != {}
        invariant pending <= kwargs.Keys
        invariant copy == data + (map key | key in kwargs.Keys - pending :: kwargs[key])
        decreases pending
      {
        var key :| key in pending;
        copy := copy[key := kwargs[key]];
        pending := pending - {key};
      }
      assert (map key | key in kwargs.Keys - {} :: kwargs[key]) == kwargs;
    }
  }

  /** The initialiser's loop over `param_defaults`, one `setattr` per field. */
  method Populate(k: Kind, kwargs: map<string, Json>) returns (attrs: map<string, Json>)
    ensures attrs == Attributes(k, kwargs)
  {
    var names := Declared(k);
    attrs := map[];
    var i := 0;
    while i < |names|
      invariant 0 <= i <= |names|
      invariant forall n :: n in attrs <==> n in names[..i]
      invariant forall n :: n in attrs ==> attrs[n] == FieldValue(kwargs, n)
    {
      var name := names[i];
      var value := Get(kwargs, name, JNull);
      value := if Truthy(value) then value else JStr("");
      assert names[..i + 1] == names[..i] + [name];
      attrs := attrs[name := value];
      i := i + 1;
    }
    assert names[..i] == names;
    assert attrs.Keys == Attributes(k, kwargs).Keys;
  }

  /** `cls.from_json(data, **kwargs)`, step by step. */
  method FromJson(k: Kind, data: Json, kwargs: map<string, Json>) returns (r: Result<Model>)
    ensures r == Decoded(k, data, kwargs)
  {
    if "cls" in kwargs || "data" in kwargs {
      return Err(TypeError);
    }
    match data {
      case JObj(d) =>
        var copy := CopyWithOverrides(d, kwargs);
        if "self" in copy {
          r := Err(TypeError);
        } else {
          var attrs := Populate(k, copy);
          r := Ok(Model(k, attrs, data));
        }
      case JArr(_) =>
        r := Err(TypeError);
      case _ =>
        r := Err(AttributeError);
    }
  }

  /** No declared field is ever None: each is a truthy value or ''. */
  lemma DeclaredFieldsNeverNull(k: Kind, data: Json, kwargs: map<string, Json>, n: string)
    requires Decodable(data, kwargs) && n in Declared(k)
    ensures n in Decoded(k, data, kwargs).value.attrs
    ensures Decoded(k, data, kwargs).value.attrs[n] != JNull
    ensures Truthy(Decoded(k, data, kwargs).value.attrs[n])
         || Decoded(k, data, kwargs).value.attrs[n] == JStr("")
  {
  }

  /** A copy holding `self` makes `cls(**data_copy)` raise TypeError, whether
      the key came from the dict or from a keyword argument. */
  lemma SelfKeyRaises(k: Kind, d: map<string, Json>, kwargs: map<string, Json>)
    requires "self" in d || "self" in kwargs
    ensures Decoded(k, JObj(d), kwargs) == Err(TypeError)
  {
    assert "self" in d + kwargs;
  }

  /** Apart from `self`, only declared keys matter: two dicts without `self`
      that agree on every declared key give records with the same
      attributes, whatever else they hold. */
  lemma UndeclaredKeysIgnored(k: Kind, d1: map<string, Json>, d2: map<string, Json>)
    requires forall n :: n in Declared(k) ==> Get(d1, n, JNull) == Get(d2, n, JNull)
    ensures Decoded(k, JObj(d1), map[]).Ok? <==> "self" !in d1
    ensures Decoded(k, JObj(d2), map[]).Ok? <==> "self" !in d2
    ensures "self" !in d1 && "self" !in d2 ==>
      Decoded(k, JObj(d1), map[]).value.attrs == Decoded(k, JObj(d2), map[]).value.attrs
  {
    assert d1 + map[] == d1 && d2 + map[] == d2;
  }

  /** A keyword argument of `from_json` wins over the dict's own value. */
  lemma KeywordOverrides(k: Kind, data: map<string, Json>, kwargs: map<string, Json>, n: string)
    requires n in Declared(k) && n in kwargs
    ensures Decoded(k, JObj(data), kwargs).Ok? ==>
      Decoded(k, JObj(data), kwargs).value.attrs[n] == FieldValue(kwargs, n)
  {
  }

  /** The five lookup records set exactly `Id` and `Name`, each by the
      truthy-else-'' rule. */
  lemma LookupRecordsSetIdAndName(k: Kind, d: map<string, Json>)
    requires k != Address && "self" !in d
    ensures Decoded(k, JObj(d), map[]).Ok?
    ensures Decoded(k, JObj(d), map[]).value.attrs.Keys == {"Id", "Name"}
    ensures Decoded(k, JObj(d), map[]).value.attrs["Id"] == FieldValue(d, "Id")
    ensures Decoded(k, JObj(d), map[]).value.attrs["Name"] == FieldValue(d, "Name")
  {
    assert d + map[] == d;
    assert DeclaredSet(k) == {"Id", "Name"};
  }

  /** A falsy value of a declared field, such as False, 0 or [], becomes ''. */
  lemma FalsyBecomesEmpty(k: Kind, d: map<string, Json>, n: string)
    requires n in Declared(k) && n in d && !Truthy(d[n])
    ensures Decoded(k, JObj(d), map[]).Ok? <==> "self" !in d
    ensures "self" !in d ==> Decoded(k, JObj(d), map[]).value.attrs[n] == JStr("")
  {
    assert d + map[] == d;
  }

  /** `IsPrimaryAddress: False` becomes '' while a truthy `City` is kept
      and `_json` keeps the whole dict. */
  lemma IsPrimaryAddressExample(d: map<string, Json>)
    requires d == map["IsPrimaryAddress" := JBool(false), "City" := JStr("Riyadh")]
    ensures Decoded(Address, JObj(d), map[]).value.attrs["IsPrimaryAddress"] == JStr("")
    ensures Decoded(Address, JObj(d), map[]).value.attrs["City"] == JStr("Riyadh")
    ensures Decoded(Address, JObj(d), map[]).value.json == JObj(d)
  {
    assert AddressFields[12] == "IsPrimaryAddress" && AddressFields[7] == "City";
    assert d["IsPrimaryAddress"] == JBool(false) && d["City"] == JStr("Riyadh");
    FalsyBecomesEmpty(Address, d, "IsPrimaryAddress");
    assert d + map[] == d;
  }

  /** The class name a lookup record's repr starts with. */
  function Label(k: Kind): string
    requires k != Address
  {
    if k == Region then "Region"
    else if k == City then "City"
    else if k == District then "District"
    else if k == ServiceCategory then "Category"
    else "Sub-Category"
  }

  /** `s.endswith(suffix)`. */
  predicate EndsWith(s: string, suffix: string) {
    |suffix| <= |s| && s[|s| - |suffix|..] == suffix
  }

  /** The format of an address repr over its six shown fields. */
  function AddressReprText(building: string, street: string, district: string,
                       city: string, postCode: string, additional: string): (r: string)
    ensures building <= r
    ensures EndsWith(r, additional)
  {
    var middle := " " + street + " - " + district + " " + city + " " + postCode + " - ";
    assert (building + middle + additional)[..|building|] == building;
    assert (building + middle + additional)[|building + middle|..] == additional;
    building + middle + additional
  }

  /** The format of a lookup record's repr. */
  function LookupText(className: string, id: string, name: string): (r: string)
    ensures |className| + 5 <= |r| && r[..|className| + 5] == className + " (ID="
    ensures |r| > 0 && r[|r| - 1] == ')'
  {
    var head := className + " (ID=";
    var tail := id + ", Name=" + name + ")";
    assert (head + tail)[..|head|] == head;
    head + tail
  }

  /** `__repr__` of a record: an address starts with its building number and
      ends with its additional number; a lookup record names its class and
      ends with ')'. */
  function Repr(m: Model): (r: string)
    requires WellFormed(m)
    ensures m.kind == Address ==> Str(m.attrs["BuildingNumber"]) <= r
    ensures m.kind == Address ==> EndsWith(r, Str(m.attrs["AdditionalNumber"]))
    ensures m.kind != Address ==> |Label(m.kind)| + 5 <= |r| && r[..|Label(m.kind)| + 5] == Label(m.kind) + " (ID="
    ensures m.kind != Address ==> |r| > 0 && r[|r| - 1] == ')'
  {
    if m.kind == Address then
      assert AddressFields[4] == "BuildingNumber" && AddressFields[5] == "Street";
      assert AddressFields[6] == "District" && AddressFields[7] == "City";
      assert AddressFields[8] == "PostCode" && AddressFields[9] == "AdditionalNumber";
      AddressReprText(Str(m.attrs["BuildingNumber"]), Str(m.attrs["Street"]), Str(m.attrs["District"]),
                  Str(m.attrs["City"]), Str(m.attrs["PostCode"]), Str(m.attrs["AdditionalNumber"]))
    else
      LookupText(Label(m.kind), Str(m.attrs["Id"]), Str(m.attrs["Name"]))
  }

  /** Splitting an address repr on '-' gives back its three groups, in order,
      when no shown field contains a '-'. */
  lemma AddressReprGroups(b: string, s: string, d: string, c: string, p: string, a: string)
    requires '-' !in b && '-' !in s && '-' !in d && '-' !in c && '-' !in p && '-' !in a
    ensures Split('-', AddressReprText(b, s, d, c, p, a))
         == [b + " " + s + " ", " " + d + " " + c + " " + p + " ", " " + a]
  {
    var g1, g2, g3 := b + " " + s + " ", " " + d + " " + c + " " + p + " ", " " + a;
    assert AddressReprText(b, s, d, c, p, a) == g1 + ['-'] + (g2 + ['-'] + g3);
    SplitAfterPiece('-', g1, g2 + ['-'] + g3);
    SplitAfterPiece('-', g2, g3);
    SplitNoSeparator('-', g3);
  }

  /** An address whose six shown fields are '' shows only its separators,
      whatever its other fields hold. */
  lemma EmptyFieldsRepr(m: Model)
    requires m.kind == Address && WellFormed(m)
    requires forall n :: n in AddressFields[4..10] ==> m.attrs[n] == JStr("")
    ensures Repr(m) == "  -    - "
  {
    assert forall j :: 4 <= j < 10 ==> AddressFields[j] in AddressFields[4..10];
    assert AddressFields[4] == "BuildingNumber" && AddressFields[5] == "Street";
    assert AddressFields[6] == "District" && AddressFields[7] == "City";
    assert AddressFields[8] == "PostCode" && AddressFields[9] == "AdditionalNumber";
    assert AddressReprText("", "", "", "", "", "") == "  -    - ";
  }

  /** The repr of an address built from an empty dict. */
  lemma EmptyAddressRepr()
    ensures Decoded(Address, JObj(map[]), map[]).Ok?
    ensures Repr(Decoded(Address, JObj(map[]), map[]).value) == "  -    - "
  {
    var empty: map<string, Json> := map[];
    assert empty + empty == empty;
    assert Decodable(JObj(empty), empty);
    var m := Decoded(Address, JObj(empty), empty).value;
    forall n | n in Declared(Address) ensures m.attrs[n] == JStr("") {
      assert !Truthy(FieldValue(empty, n));
    }
    EmptyFieldsRepr(m);
  }
}
