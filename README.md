# saudiaddress in Dafny

A model of the client library for the Saudi National Address REST service
(`NationalAddress`). It covers the four parts of the library that hold
logic:

- constructing a client from a URL and an API key;
- building each operation's request: endpoint path, query parameters and the
  `api_key` header, including the `addressstring` of a bulk search (`a|b|c;d|e|f`);
- mapping a parsed response body to results. The seven searches give a
  `ResultSet`, `verify_address` gives the raw `addressfound` value, and the five
  lookups give a plain list;
- building records (`Address`, `Region`, `City`, `District`, `ServiceCategory`,
  `ServiceSubCategory`) from a JSON dict with the truthy-else-`''` default,
  and their `__repr__`.

The HTTP GET and `r.json()` are not modelled. A request is a value
(`Api.Request`), and the parsed body of the reply is an input (`Json.Json`) of
the response mapping. `Api.Call` puts both halves of one client method together.

Files:

- `builtins.dfy`: the Python built-ins used. Exceptions become `Result`/`Error`.
  Also `str(int)`, `int(str)`, and `str.join`/`str.split` with one-character
  separators, with their round-trip and separator-count lemmas.
- `json.dfy`: JSON values, Python truthiness, `dict.get`, `int()` and `str()`.
- `models.dfy`: the record classes of `saudiaddress/models.py`.
- `api.dfy`: the client of `saudiaddress/api.py`.

Two loops in the source are modelled as methods with loop invariants. Each is
proved equal to a specification function, and lemmas state what the source
promises about that function:

- the `setattr` loop of every `__init__` (`Models.Populate`, specified by
  `Models.Attributes`);
- the `for record in records` loop of every search and lookup
  (`Api.MapRecords`, specified by `Api.MappedRecords`).

The copy-and-override of `from_json` (`Models.CopyWithOverrides`) and the
bulk-string loop (`Api.BuildAddressString`) are also methods. The twelve copies
of the response-mapping code (seven searches and five lookups) are modelled once, as `Api.SearchResponse` and
`Api.LookupResponse`. Each is instantiated by the record class and its body key
(`Addresses`, `Regions`, `Cities`, `Districts`, `ServiceCategories`,
`ServiceSubCategories`).

Records are immutable values here (`Models.Model`: class, attribute map, and
the original dict as `_json`). `from_json` sets `_json` right after `__init__`
returns, and nothing changes a record after `from_json` returns, so the model
uses a datatype for records, built with their final `_json` in one step, and for
the client.

Behaviour of the code worth knowing, which the model keeps:

- A query parameter whose value is `None` stays in the parameter map. Whether
  it is then sent is up to `requests`, which is not part of this model.
- `from_json` raises on some entries, and then so does the whole search or
  lookup. An entry that is a list raises `TypeError` in `cls(**data)`. Any other
  entry that is not a dict raises `AttributeError`, since it has no `.copy()`.
  A dict holding the key `self` raises `TypeError`, because every
  `__init__(self, **kwargs)` then receives two values for `self`.
- `get_cities`, `get_districts`, `get_categories` and `get_subcategories` send
  no `encode` parameter, and they spell their ids `regionid`, `cityid` and
  `servicecategoryid`. `get_regions` does send `encode`.
- `Address` declares 15 fields, including `ObjLatLng`.
- `verify_address` returns `None` without success. It also returns `None` when
  `addressfound` is missing. `False` is returned only when the service says so.

## Model

| member | source | states |
|---|---|---|
| Api.NewClient | saudiaddress/api.py:12-21 | Construction fails with ValueError exactly when the key is falsy. Otherwise the client keeps the key, and uses the given URL when truthy, else `https://apina.address.gov.sa`. |
| Api.BuildAddressString | saudiaddress/api.py:53-56 | The loop builds one `'|'`-joined piece per triple, in order, and joins the pieces with `';'`. The result equals `AddressString`. |
| Api.AddressStringSeparators | saudiaddress/api.py:53-56 | No triples give `''`. n >= 1 triples whose component texts hold no `';'` give exactly n - 1 `';'`, whatever `'|'` they hold. |
| Api.AddressStringRoundTrip | saudiaddress/api.py:53-56 | For n >= 1 separator-free triples, splitting the bulk string on `';'` gives n pieces, and splitting piece i on `'|'` gives back the texts of triple i's three components, in order. |
| Api.NumbersAreSeparatorFree | saudiaddress/api.py:55 | Triples made of integers never contain either separator, so the round trip always applies to them. |
| Api.NumberPiece | saudiaddress/api.py:55 | The piece of an all-integer triple is the three decimal texts joined by `'|'`. |
| Api.AddressStringOfTwo | saudiaddress/api.py:56 | Two addresses are sent as their two pieces around one `';'`. |
| Api.AddressStringOfNumbers | saudiaddress/api.py:53-56 | Two all-integer addresses, as in the usage example `[(3468, 23955, 7487), (6418, 34412, 3618)]`, are sent as their six decimal texts, `'|'` inside an address and `';'` between the two. |
| Api.Params | saudiaddress/api.py:23-263 | Every operation sends `language` and `format='json'`. `encode='utf8'` is sent by exactly the searches, `verify_address` and `get_regions`. `page` is sent by exactly the operations that take one (not `get_address`, not the lookups). |
| Api.BulkSearchParams | saudiaddress/api.py:57-59 | A bulk search sends exactly `addressstring`, `language`, `format`, `encode` and `page`. |
| Api.LocationParams | saudiaddress/api.py:78-81 | A location search always sends its `language`, its `page`, `format='json'` and `encode='utf8'`; no filter overwrites them. |
| Api.FixedSearchParams | saudiaddress/api.py:78-81 | `fixed_search` sends every location filter under its wire name, `None` included, plus `language`, `page`, `format` and `encode`. |
| Api.DefaultArguments | saudiaddress/api.py:23-249 | Calls left at their default arguments send `language=E`, `page=1`, radius 0.5, `None` for every `fixed_search` filter and -1 for a lookup's id. |
| Api.PoiFixedSearchParams | saudiaddress/api.py:141-145 | `poi_fixed_search` sends the `fixed_search` parameters plus `servicestring`, `servicecategoryId`, `servicesubcategoryId` and `regionid`. |
| Api.LookupParams | saudiaddress/api.py:204-263 | `get_cities`, `get_districts` and `get_subcategories` send exactly `language`, `format` and their lower-case id. `get_categories` sends exactly `language` and `format`. |
| Api.WireNameInjective | saudiaddress/api.py:31-252 | Distinct parameter names have distinct spellings on the wire, so the model's parameter maps stand for the source's string-keyed dicts. |
| Api.WireName | saudiaddress/api.py:31-252 | The query spelling of each parameter name, such as `cityId` in the searches and `cityid` in `get_districts`; none is `api_key`. |
| Api.Endpoint | saudiaddress/api.py:32-253 | The path of each operation below the API root: searches and `verify_address` go below `Address/`, lookups below `lookup/`. |
| Api.BuildRequest | saudiaddress/api.py:30-32 | The request goes to the client URL + `/NationalAddress/v3.1/` + the operation's path. The only header is `api_key` with the client's key, and no query parameter carries that name. |
| Api.MappedRecords | saudiaddress/api.py:39-41 | Mapping succeeds iff `from_json` accepts every entry: each is a dict without a `self` key. It then gives one record per entry, in order, where the i-th is `from_json` of the i-th entry. Otherwise it fails with the error of the first entry `from_json` rejects. |
| Api.MapRecords | saudiaddress/api.py:39-41 | The `for record in records` loop computes `MappedRecords`. |
| Api.HandleSearch | saudiaddress/api.py:33-44 | The search methods' handling of a parsed body computes `SearchResponse`. |
| Api.Entries | saudiaddress/api.py:37-40 | The entries `for record in records` visits: none when the body value is falsy, the items of a list; a truthy number or boolean raises TypeError and any other truthy value AttributeError. |
| Api.SearchResponse | saudiaddress/api.py:33-44 | A body that is not a dict raises AttributeError; without success the answer is `ResultSet([], 0)`; otherwise every record is a well-formed `Address`, one per entry of `Addresses`, and the count is `int(totalSearchResults)`. |
| Api.LookupResponse | saudiaddress/api.py:194-202 | A body that is not a dict raises AttributeError; without success the answer is `[]`; otherwise it holds one well-formed record of the lookup's class per entry under its body key. |
| Api.HandleLookup | saudiaddress/api.py:194-202 | The lookup methods' handling of a parsed body computes `LookupResponse`. |
| Api.NoSuccessIsEmpty | saudiaddress/api.py:34-44 | Without a truthy `success`, whatever else the body holds, a search gives `ResultSet([], 0)`, a lookup gives `[]` and `verify_address` gives `None`. |
| Api.SearchMapsEachEntry | saudiaddress/api.py:36-43 | On success with a list of dicts none of which holds `self`, a search has one `Address` per entry in order, and its count is `totalSearchResults`. |
| Api.SearchWithoutRecords | saudiaddress/api.py:37-43 | On success with `Addresses` absent, null or empty, the records are empty and the count is still `int(totalSearchResults)`, or 0 when that key is absent. |
| Api.CountDivergesExample | saudiaddress/api.py:36-43 | `success: true, Addresses: [], totalSearchResults: 5` gives no records and count 5. |
| Api.SearchRaisesOnBadEntry | saudiaddress/api.py:40-41 | The first entry of `Addresses` that `from_json` rejects makes the search raise that entry's error. |
| Api.SelfEntryRaises | saudiaddress/api.py:40-41 | `{"success": true, "Addresses": [{"self": 1}]}` makes the search raise TypeError. |
| Api.LookupMapsEachEntry | saudiaddress/api.py:196-200 | On success, a lookup holds one record of its class per entry of its body key, in order, when no entry holds `self`. |
| Api.LookupWithoutKey | saudiaddress/api.py:197-198 | A lookup whose body key is missing gives `[]`. |
| Api.VerifyResponse | saudiaddress/api.py:185-187 | On success the result is `addressfound` (`None` when missing). Otherwise it is `None`. It raises only when the body is not a dict. |
| Api.VerifyOutcomes | saudiaddress/api.py:186-187 | No success and a missing `addressfound` both give `None`. `addressfound: false` gives `False`. |
| Api.Call | saudiaddress/api.py:23-263 | Each client method sends `BuildRequest`. A search answers a `ResultSet`, `verify_address` the found value, and a lookup a list. |
| Json.ToInt | saudiaddress/api.py:43 | `int()` returns integers unchanged and booleans as 0/1. It parses decimal strings. It raises TypeError for null, lists and dicts, and ValueError for other strings. |
| Json.ToIntOfText | saudiaddress/api.py:43 | `int()` of the decimal text of any integer gives that integer back. |
| Builtins.SplitJoin | saudiaddress/api.py:55-56 | `s.split(sep)` undoes `sep.join(parts)` for n >= 1 parts that do not contain `sep`. |
| Builtins.JoinSeparatorCount | saudiaddress/api.py:56 | `sep.join` of n >= 1 separator-free parts contains n - 1 separators. |
| Builtins.IntToStringRoundTrip | saudiaddress/api.py:55 | `int(str(n)) == n` for every integer. |
| Models.FieldValue | saudiaddress/models.py:52-55 | A declared field is never `None`. It is the keyword value when that is present and truthy, and `''` otherwise. |
| Models.Populate | saudiaddress/models.py:52-55 | The `setattr` loop over `param_defaults` sets exactly the declared fields, each by the truthy-else-`''` rule. |
| Models.CopyWithOverrides | saudiaddress/models.py:19-22 | The copy of `from_json` holds the dict's entries, with every keyword argument written over them. |
| Models.Decoded | saudiaddress/models.py:14-26 | `from_json` succeeds iff the data is a dict, the keyword arguments do not repeat `cls` or `data`, and the overridden copy holds no `self` key. The record then has the requested class and exactly the declared fields, each taken from the dict overridden by the keyword arguments, and keeps the original dict as `_json`. A list, a repeated `cls`/`data` or a `self` key raises TypeError; any other value raises AttributeError. |
| Models.FromJson | saudiaddress/models.py:14-26 | Binding the arguments, copying, overriding, constructing (which rejects `self`) and populating computes `Decoded`. |
| Models.DeclaredFieldsNeverNull | saudiaddress/models.py:34-55 | Each of the 15 `Address` fields and each lookup field is set, and never `None`: it is a truthy value or `''`. |
| Models.UndeclaredKeysIgnored | saudiaddress/models.py:52-55 | A dict decodes iff it holds no `self` key, and two such dicts that agree on the declared keys give the same attributes, whatever other undeclared keys they hold. |
| Models.SelfKeyRaises | saudiaddress/models.py:24 | A copy holding `self`, from the dict or from a keyword argument, makes `from_json` raise TypeError. |
| Models.KeywordOverrides | saudiaddress/models.py:20-22 | When `from_json` returns a record, a keyword argument of `from_json` wins over the dict's own value. |
| Models.LookupRecordsSetIdAndName | saudiaddress/models.py:70-154 | From any dict without `self`, `Region` (70-78), `City` (89-97), `District` (108-116), `ServiceCategory` (127-135) and `ServiceSubCategory` (146-154) set exactly `Id` and `Name`, each by the truthy-else-`''` rule. |
| Models.FalsyBecomesEmpty | saudiaddress/models.py:53-54 | A declared field whose value is falsy (False, 0, `''`, `[]`, `{}`, None) is stored as `''`; the dict decodes iff it holds no `self`. |
| Models.IsPrimaryAddressExample | saudiaddress/models.py:53-54 | From `{'IsPrimaryAddress': False, 'City': 'Riyadh'}` the address stores `''` for `IsPrimaryAddress`, keeps `'Riyadh'` and keeps the whole dict as its JSON. |
| Models.AddressReprGroups | saudiaddress/models.py:57-62 | Splitting an address repr on `'-'` gives back `"{BuildingNumber} {Street} "`, `" {District} {City} {PostCode} "` and `" {AdditionalNumber}"`, in that order, when no shown field contains `'-'`. |
| Models.EmptyFieldsRepr | saudiaddress/models.py:57-62 | An address whose six shown fields (`BuildingNumber`, `Street`, `District`, `City`, `PostCode`, `AdditionalNumber`) are `''` has repr `"  -    - "`, whatever its other fields hold. |
| Models.EmptyAddressRepr | saudiaddress/models.py:57-62 | An empty dict decodes, and the repr of the address built from it is `"  -    - "`. |
| Models.Repr | saudiaddress/models.py:57-157 | `__repr__`: an address's text starts with its building number and ends with its additional number; a lookup record's text starts with its class label and ` (ID=` and ends with `)`. The lookup formats are at lines 80-81, 99-100, 118-119, 137-138 and 156-157. |

## Left out

- The HTTP GET (`requests.get`) and `r.json()`. The parsed body is an input, and transport or parse errors propagate in the source without being caught.
- Dropping `None`-valued query parameters. If that happens, it happens inside `requests`, which is not part of this model.
- Floating-point values. `lat`, `long` and `radius` are opaque 64-bit patterns passed through untouched (`Api.Double`; `Api.DefaultRadius` holds the bits of 0.5). JSON numbers with a fractional part are not in `Json.Json`.
- Python 3 semantics are modelled. Under Python 2, which the source also supports, a list entry has no `.copy()` and `from_json` raises AttributeError instead of TypeError.
- `str()` and `int()` beyond CPython's 4300-digit conversion limit (ValueError since Python 3.11) are not modelled: `Builtins.IntToString` and `Builtins.ParseInt` are total. No bulk-search component or `totalSearchResults` comes near that size.
- Json.ToInt: `int()` of a string accepts only `[+-]?[0-9]+`. Python also accepts surrounding whitespace, underscores between digits and non-ASCII digits; the model raises ValueError for those.
- Json.Str: a list or dict attribute value is shown as `[...]` or `{...}` instead of Python's repr of its contents.
- Bulk-search triples hold integers or strings (`Api.Component`). `str()` of `None`, floats or other objects, and tuples of other lengths, are not modelled.
- The client's `url` and `key` are strings or `None`. Other Python objects are not modelled.
- `param_defaults` is not stored in a record. It is fixed by the record's class (`Models.Declared`).
- `python_2_unicode_compatible` is a Python 2/3 compatibility decorator with no behaviour here.
- `example.py` is a demonstration script (environment variables, sleeps, printing). Only the shape of its bulk-search input appears, in `Api.AddressStringOfNumbers`.
