/** The product catalogue endpoint (netlify/functions/products.js): it builds
    a parameterised SQL statement from the optional `category` and `search`
    query parameters, reads the rows back from the database's HTTP answer,
    maps each row to a product and groups the products by category, with the
    sorted list of categories. The database's answer, the credentials and the
    JSON parser are parameters. */
module Products {
  import opened Json
  import opened Text
  import opened Numbers
  import opened Lists

  // ---------------------------------------------------------------------------
  // `getHttpUrl`
  // ---------------------------------------------------------------------------

  /** `getHttpUrl(url)`: null for a missing or empty URL, otherwise the URL
      with its first `libsql://` replaced by `https://`. */
  function HttpUrl(url: Option<string>): (r: Option<string>)
    ensures r.None? <==> url.None? || url.value == ""
    ensures r.Some? ==> |r.value| == |url.value| || |r.value| == |url.value| - 1
  {
    if url.None? || url.value == "" then None else Some(ReplaceFirst(url.value, "libsql://", "https://"))
  }

  /** A `libsql://` URL becomes the same address under `https://`; a URL
      without that scheme anywhere is kept; a missing or empty one gives null. */
  lemma HttpUrlCases(url: Option<string>)
    ensures HttpUrl(url).None? <==> url.None? || url.value == ""
    ensures url.Some? && OccursAt(url.value, "libsql://", 0) ==> HttpUrl(url) == Some("https://" + url.value[9..])
    ensures url.Some? && url.value != "" && (forall j :: 0 <= j ==> !OccursAt(url.value, "libsql://", j)) ==>
      HttpUrl(url) == url
  {
    if url.Some? && OccursAt(url.value, "libsql://", 0) {
      var s := url.value;
      assert IndexOf(s, "libsql://") == Some(0);
      assert s[..0] + "https://" + s[9..] == "https://" + s[9..];
    }
  }

  // ---------------------------------------------------------------------------
  // The SQL statement and its parameters
  // ---------------------------------------------------------------------------

  const SelectAll: string := "SELECT * FROM products"
  const WhereCategory: string := " WHERE category = ?"
  const NameLike: string := "(LOWER(name) LIKE ?"
  const SkuLike: string := " OR LOWER(sku) LIKE ?)"
  const AndSearch: string := " AND " + NameLike + SkuLike
  const WhereSearch: string := " WHERE " + NameLike + SkuLike
  const OrderBy: string := " ORDER BY category, name"

  /** The number of `?` placeholders in a statement. */
  function Placeholders(s: string): nat {
    if s == [] then 0 else Placeholders(s[..|s| - 1]) + (if s[|s| - 1] == '?' then 1 else 0)
  }

  lemma {:induction false} PlaceholdersAppend(a: string, b: string)
    ensures Placeholders(a + b) == Placeholders(a) + Placeholders(b)
    decreases |b|
  {
    if b == [] {
      assert a + b == a;
    } else {
      assert (a + b)[..|a + b| - 1] == a + b[..|b| - 1];
      PlaceholdersAppend(a, b[..|b| - 1]);
    }
  }

  lemma {:induction false} NoPlaceholders(s: string)
    requires '?' !in s
    ensures Placeholders(s) == 0
  {
    if s != [] {
      assert s == s[..|s| - 1] + [s[|s| - 1]];
      NoPlaceholders(s[..|s| - 1]);
    }
  }

  /** A text with `?` only at the given positions has that many placeholders. */
  lemma {:induction false} PlaceholdersAt(s: string, at: set<nat>)
    requires forall i :: 0 <= i < |s| ==> (s[i] == '?' <==> i in at)
    requires forall i :: i in at ==> i < |s|
    ensures Placeholders(s) == |at|
    decreases |s|
  {
    if s == [] {
      assert at == {};
    } else {
      var n := |s| - 1;
      var rest := at - {n};
      PlaceholdersAt(s[..n], rest);
      if s[n] == '?' {
        assert at == rest + {n};
      } else {
        assert at == rest;
      }
    }
  }

  lemma FragmentPlaceholders()
    ensures Placeholders(SelectAll) == 0 && Placeholders(OrderBy) == 0
    ensures Placeholders(WhereCategory) == 1
  {
    NoPlaceholders(SelectAll);
    NoPlaceholders(OrderBy);
    OnePlaceholder(" WHERE category = ", "", WhereCategory);
  }

  /** One `?` between two texts without any. */
  lemma OnePlaceholder(a: string, b: string, s: string)
    requires '?' !in a && '?' !in b && s == a + "?" + b
    ensures Placeholders(s) == 1
  {
    NoPlaceholders(a);
    NoPlaceholders(b);
    PlaceholdersAppend(a, "?");
    PlaceholdersAppend(a + "?", b);
    assert Placeholders("?") == Placeholders("") + 1;
  }

  /** The two search conditions: a connective without placeholders before
      the name and SKU patterns, one placeholder each. */
  lemma SearchPieces(conj: string, name: string, sku: string)
    requires Placeholders(conj) == 0 && Placeholders(name) == 1 && Placeholders(sku) == 1
    ensures Placeholders(conj + name + sku) == 2
  {
    PlaceholdersAppend(conj, name);
    PlaceholdersAppend(conj + name, sku);
  }

  lemma SearchPlaceholders()
    ensures Placeholders(AndSearch) == 2 && Placeholders(WhereSearch) == 2
  {
    OnePlaceholder("(LOWER(name) LIKE ", "", NameLike);
    OnePlaceholder(" OR LOWER(sku) LIKE ", ")", SkuLike);
    NoPlaceholders(" AND ");
    NoPlaceholders(" WHERE ");
    SearchPieces(" AND ", NameLike, SkuLike);
    SearchPieces(" WHERE ", NameLike, SkuLike);
  }

  /** `category` is used when it is a non-empty text. */
  predicate Given(v: Option<string>) {
    v.Some? && v.value != ""
  }

  /** `%${search}%`, the LIKE pattern for a search term. */
  function Pattern(search: string): string {
    "%" + search + "%"
  }

  /** The statement the handler sends for the two optional filters. */
  function QueryFor(category: Option<string>, search: Option<string>): string {
    SelectAll + (if Given(category) then WhereCategory else "")
      + (if Given(search) then (if Given(category) then AndSearch else WhereSearch) else "") + OrderBy
  }

  /** The values bound to the statement's placeholders, in order. */
  function ParamsFor(category: Option<string>, search: Option<string>): seq<string> {
    (if Given(category) then [category.value] else [])
      + (if Given(search) then [Pattern(search.value), Pattern(search.value)] else [])
  }

  /** Every placeholder of the statement gets one value. */
  lemma PlaceholdersMatchParams(category: Option<string>, search: Option<string>)
    ensures Placeholders(QueryFor(category, search)) == |ParamsFor(category, search)|
  {
    FragmentPlaceholders();
    SearchPlaceholders();
    var a := SelectAll + (if Given(category) then WhereCategory else "");
    var b := if Given(search) then (if Given(category) then AndSearch else WhereSearch) else "";
    PlaceholdersAppend(SelectAll, if Given(category) then WhereCategory else "");
    PlaceholdersAppend(a, b);
    PlaceholdersAppend(a + b, OrderBy);
  }

  /** The `let query` / `params.push` part of the handler: the category is
      bound first and the two search patterns after it (with
      `PlaceholdersMatchParams`, one value per placeholder). */
  method BuildQuery(category: Option<string>, search: Option<string>) returns (query: string, params: seq<string>)
    ensures query == QueryFor(category, search) && params == ParamsFor(category, search)
    ensures Given(category) ==> params[0] == category.value
    ensures Given(search) ==> params[|params| - 1] == params[|params| - 2] == Pattern(search.value)
  {
    query := SelectAll;
    params := [];
    if Given(category) {
      query := query + WhereCategory;
      params := params + [category.value];
    }
    ghost var filtered := query;
    assert filtered == SelectAll + (if Given(category) then WhereCategory else "");
    if Given(search) {
      if Given(category) {
        query := query + AndSearch;
      } else {
        query := query + WhereSearch;
      }
      var pattern := Pattern(search.value);
      params := params + [pattern, pattern];
    }
    assert query == filtered + (if Given(search) then (if Given(category) then AndSearch else WhereSearch) else "");
    query := query + OrderBy;
  }

  // ---------------------------------------------------------------------------
  // Rows from the database's answer (`executeQuery`)
  // ---------------------------------------------------------------------------

  type Row = map<string, Value>

  /** `cols[i]` as a property key: past the end it reads `undefined`. */
  function ColumnName(cols: seq<string>, i: nat): string {
    if i < |cols| then cols[i] else "undefined"
  }

  /** `row.forEach((cell, i) => { obj[cols[i]] = cell.value })`, where `cells`
      are the cells' values. */
  function RowObject(cols: seq<string>, cells: seq<Value>): Row
    decreases |cells|
  {
    if cells == [] then map[]
    else RowObject(cols, cells[..|cells| - 1])[ColumnName(cols, |cells| - 1) := cells[|cells| - 1]]
  }

  /** The object has one property per column name used. */
  lemma {:induction false} RowObjectKeys(cols: seq<string>, cells: seq<Value>, k: string)
    ensures k in RowObject(cols, cells) <==> exists i :: 0 <= i < |cells| && ColumnName(cols, i) == k
    decreases |cells|
  {
    if cells != [] {
      var n := |cells| - 1;
      RowObjectKeys(cols, cells[..n], k);
    }
  }

  /** Each property holds the last cell written under its name. */
  lemma {:induction false} RowObjectLast(cols: seq<string>, cells: seq<Value>, i: nat)
    requires i < |cells|
    requires forall j :: i < j < |cells| ==> ColumnName(cols, j) != ColumnName(cols, i)
    ensures ColumnName(cols, i) in RowObject(cols, cells) && RowObject(cols, cells)[ColumnName(cols, i)] == cells[i]
    decreases |cells|
  {
    var n := |cells| - 1;
    if i < n {
      var init := cells[..n];
      assert init[i] == cells[i];
      RowObjectLast(cols, init, i);
      assert ColumnName(cols, n) != ColumnName(cols, i);
    }
  }

  /** With distinct column names and one cell per column, the object maps each
      column to its cell. */
  lemma DistinctColumns(cols: seq<string>, cells: seq<Value>)
    requires |cells| == |cols|
    requires forall i, j :: 0 <= i < j < |cols| ==> cols[i] != cols[j]
    ensures forall i :: 0 <= i < |cols| ==> cols[i] in RowObject(cols, cells) && RowObject(cols, cells)[cols[i]] == cells[i]
  {
    forall i | 0 <= i < |cols|
      ensures cols[i] in RowObject(cols, cells) && RowObject(cols, cells)[cols[i]] == cells[i]
    {
      assert ColumnName(cols, i) == cols[i];
      RowObjectLast(cols, cells, i);
    }
  }

  /** The parts of the database's answer the function reads: the column
      names and the rows of cell values. */
  datatype QueryResult = QueryResult(cols: seq<string>, rows: seq<seq<Value>>)

  /** The HTTP answer: a status that is not OK with its text, a JSON body,
      whose `results[0].response.result` with `rows` may be missing, or the
      error with which `fetch` rejected or `response.json()` threw. */
  datatype Answer = HttpError(status: nat, text: string) | Body(result: Option<QueryResult>) | Thrown(message: string)

  const CredentialsMissing: string := "Turso credentials not configured"

  function RowsOf(q: QueryResult): (rows: seq<Row>)
    ensures |rows| == |q.rows|
  {
    seq(|q.rows|, i requires 0 <= i < |q.rows| => RowObject(q.cols, q.rows[i]))
  }

  /** `executeQuery(sql, args)`: Err with the thrown message, or the rows. */
  function ExecuteQuery(url: Option<string>, token: Option<string>, answer: Answer): (r: Result<seq<Row>, string>)
    ensures r == Err(CredentialsMissing) <==>
      HttpUrl(url).None? || !Given(token) || answer == Thrown(CredentialsMissing)
    ensures Given(token) && HttpUrl(url).Some? && answer.Body? ==>
      r == Ok(if answer.result.None? then [] else RowsOf(answer.result.value))
    ensures Given(token) && HttpUrl(url).Some? && answer.HttpError? ==>
      r == Err(ApiErrorMessage(answer.status, answer.text))
    ensures Given(token) && HttpUrl(url).Some? && answer.Thrown? ==> r == Err(answer.message)
  {
    if HttpUrl(url).None? || !Given(token) then Err(CredentialsMissing)
    else match answer
      case HttpError(status, text) => Err(ApiErrorMessage(status, text))
      case Body(None) => Ok([])
      case Body(Some(q)) => Ok(RowsOf(q))
      case Thrown(message) => Err(message)
  }

  /** `Turso API error: ${status} - ${text}`. */
  function ApiErrorMessage(status: nat, text: string): (m: string)
    ensures m != CredentialsMissing
  {
    assert ("Turso API error: " + NatToString(status) + " - " + text)[6] == 'A' != CredentialsMissing[6];
    "Turso API error: " + NatToString(status) + " - " + text
  }

  // ---------------------------------------------------------------------------
  // One product per row
  // ---------------------------------------------------------------------------

  /** `row.k`: the cell under column `k`, `undefined` when there is none. */
  function Col(row: Row, k: string): Value {
    if k in row then row[k] else Undefined
  }

  /** `Number(v)` as the response carries it: the JSON text has `null` where
      the number is NaN. */
  function NumberValue(v: Value): (r: Value)
    ensures r.Num? || r.Null?
    ensures r.Num? <==> JsNumber(v).Some?
    ensures r.Num? ==> r.n == JsNumber(v).value
  {
    match JsNumber(v)
    case Some(x) => Num(x)
    case None => Null
  }

  /** `Boolean(Number(v))`: false for zero and for NaN. */
  function NumberFlag(v: Value): (r: Value)
    ensures r.Bool? && (r.b <==> JsNumber(v).Some? && JsNumber(v).value != 0.0)
  {
    Bool(JsNumber(v).Some? && JsNumber(v).value != 0.0)
  }

  /** The fields every product has. */
  function BaseProduct(row: Row): (p: map<string, Value>)
    ensures p.Keys == BaseKeys
  {
    map[
      "id" := Col(row, "id"),
      "sku" := Col(row, "sku"),
      "name" := Col(row, "name"),
      "category" := Col(row, "category"),
      "price" := NumberValue(Col(row, "price")),
      "currency" := Or(Col(row, "currency"), Str("MAD")),
      "laborHours" := NumberValue(Col(row, "labor_hours")),
      "image" := Col(row, "image")
    ]
  }

  const BaseKeys: set<string> := {"id", "sku", "name", "category", "price", "currency", "laborHours", "image"}

  /** How an optional column becomes a field: copied, converted with
      `Number`, with `Boolean(Number(...))`, or parsed as JSON text with `[]`
      when parsing throws. */
  datatype Conversion = Copy | ToNumber | ToFlag | ParseJson

  /** An optional field: set only when its column is truthy. */
  datatype Extra = Extra(key: string, column: string, conversion: Conversion)

  /** The optional fields, in the order the handler sets them. */
  const Extras: seq<Extra> := [
    Extra("color", "color", Copy),
    Extra("finish", "finish", Copy),
    Extra("warranty", "warranty", Copy),
    Extra("type", "type", Copy),
    Extra("size", "size", Copy),
    Extra("set", "set_count", ToNumber),
    Extra("stars", "stars", ToNumber),
    Extra("fiber", "fiber", Copy),
    Extra("shooting", "shooting", ToFlag),
    Extra("constellations", "constellations", ToFlag),
    Extra("includes", "includes", ParseJson),
    Extra("materials", "materials", ParseJson),
    Extra("colors", "colors", ParseJson)
  ]

  /** `parse(v)` is what `JSON.parse(v)` returns, None when it throws. */
  function Convert(c: Conversion, v: Value, parse: Value -> Option<Value>): Value {
    match c
    case Copy => v
    case ToNumber => NumberValue(v)
    case ToFlag => NumberFlag(v)
    case ParseJson => if parse(v).Some? then parse(v).value else Arr([])
  }

  function WithExtras(p: map<string, Value>, row: Row, parse: Value -> Option<Value>, extras: seq<Extra>): map<string, Value>
    decreases |extras|
  {
    if extras == [] then p
    else
      var q := WithExtras(p, row, parse, extras[..|extras| - 1]);
      var e := extras[|extras| - 1];
      if Truthy(Col(row, e.column)) then q[e.key := Convert(e.conversion, Col(row, e.column), parse)] else q
  }

  /** The product object the handler builds from a row. */
  function ProductOf(row: Row, parse: Value -> Option<Value>): map<string, Value> {
    WithExtras(BaseProduct(row), row, parse, Extras)
  }

  predicate ExtraKey(extras: seq<Extra>, k: string) {
    exists i :: 0 <= i < |extras| && extras[i].key == k
  }

  /** Adding the optional fields leaves every key that none of them names as
      it was. */
  lemma {:induction false} WithExtrasOther(p: map<string, Value>, row: Row, parse: Value -> Option<Value>,
                                           extras: seq<Extra>, k: string)
    requires !ExtraKey(extras, k)
    ensures k in WithExtras(p, row, parse, extras) <==> k in p
    ensures k in p ==> WithExtras(p, row, parse, extras)[k] == p[k]
    decreases |extras|
  {
    if extras != [] {
      var init := extras[..|extras| - 1];
      assert !ExtraKey(init, k);
      WithExtrasOther(p, row, parse, init, k);
    }
  }

  predicate DistinctKeys(extras: seq<Extra>) {
    forall a, b :: 0 <= a < b < |extras| ==> extras[a].key != extras[b].key
  }

  /** With distinct names, an optional field is set exactly when its column
      is truthy, to the converted cell; otherwise the key keeps what it had. */
  lemma {:induction false} WithExtrasField(p: map<string, Value>, row: Row, parse: Value -> Option<Value>,
                                           extras: seq<Extra>, i: nat)
    requires i < |extras| && DistinctKeys(extras)
    ensures var e := extras[i]; var w := WithExtras(p, row, parse, extras);
      (Truthy(Col(row, e.column)) ==> e.key in w && w[e.key] == Convert(e.conversion, Col(row, e.column), parse)) &&
      (!Truthy(Col(row, e.column)) ==> (e.key in w <==> e.key in p) && (e.key in p ==> w[e.key] == p[e.key]))
    decreases |extras|
  {
    var n := |extras| - 1;
    var init := extras[..n];
    if i == n {
      assert !ExtraKey(init, extras[i].key);
      WithExtrasOther(p, row, parse, init, extras[i].key);
    } else {
      assert init[i] == extras[i];
      assert extras[n].key != extras[i].key;
      WithExtrasField(p, row, parse, init, i);
    }
  }

  lemma ExtrasNamed()
    ensures DistinctKeys(Extras)
    ensures forall i :: 0 <= i < |Extras| ==> Extras[i].key !in BaseKeys
  {
    ExtrasDistinct();
    ExtrasNotBase();
  }

  /** No two optional fields share a name: their names differ in length or
      in their first letter. */
  lemma ExtrasDistinct()
    ensures DistinctKeys(Extras)
  {
    forall a, b | 0 <= a < b < |Extras| ensures Extras[a].key != Extras[b].key {
      assert |Extras[a].key| != |Extras[b].key| || Extras[a].key[0] != Extras[b].key[0];
    }
  }

  lemma ExtrasNotBase()
    ensures forall i :: 0 <= i < |Extras| ==> Extras[i].key !in BaseKeys
  {
  }

  /** Every product has the eight base fields, taken from its row; an
      optional field is present exactly when its column is truthy, and then
      holds the converted cell; there are no other fields. */
  lemma ProductFields(row: Row, parse: Value -> Option<Value>, k: string)
    ensures k in BaseKeys ==> k in ProductOf(row, parse) && ProductOf(row, parse)[k] == BaseProduct(row)[k]
    ensures k !in BaseKeys && !ExtraKey(Extras, k) ==> k !in ProductOf(row, parse)
  {
    ExtrasNamed();
    if k in BaseKeys {
      assert !ExtraKey(Extras, k);
    }
    if !ExtraKey(Extras, k) {
      WithExtrasOther(BaseProduct(row), row, parse, Extras, k);
    }
  }

  lemma ProductExtra(row: Row, parse: Value -> Option<Value>, i: nat)
    requires i < |Extras|
    ensures var e := Extras[i]; var c := Col(row, e.column);
      (e.key in ProductOf(row, parse) <==> Truthy(c)) &&
      (Truthy(c) ==> ProductOf(row, parse)[e.key] == Convert(e.conversion, c, parse))
  {
    ExtrasNamed();
    WithExtrasField(BaseProduct(row), row, parse, Extras, i);
  }

  // ---------------------------------------------------------------------------
  // Grouping by category
  // ---------------------------------------------------------------------------

  /** The schema declares `category TEXT NOT NULL`, so every row's category
      is a text. */
  predicate TextCategories(rows: seq<Row>) {
    forall i :: 0 <= i < |rows| ==> Col(rows[i], "category").Str?
  }

  function RowCategory(row: Row): string {
    if Col(row, "category").Str? then Col(row, "category").s else ""
  }

  function CategoriesOf(rows: seq<Row>): (cs: seq<string>)
    ensures |cs| == |rows|
  {
    seq(|rows|, i requires 0 <= i < |rows| => RowCategory(rows[i]))
  }

  /** The product for each row, as a value. */
  function ProductMaker(parse: Value -> Option<Value>): Row -> Value {
    row => Obj(ProductOf(row, parse))
  }

  function ProductList(rows: seq<Row>, make: Row -> Value): (ps: seq<Value>)
    ensures |ps| == |rows|
  {
    seq(|rows|, i requires 0 <= i < |rows| => make(rows[i]))
  }

  /** The `products` object: the rows grouped under their category, each
      group's rows turned into products. */
  function Grouped(rows: seq<Row>, make: Row -> Value): map<string, seq<Value>> {
    var g := Group(rows, RowCategory);
    map k | k in g :: ProductList(g[k], make)
  }

  lemma GroupedStep(rows: seq<Row>, make: Row -> Value, i: nat)
    requires i < |rows|
    ensures var p := Grouped(rows[..i], make); var c := RowCategory(rows[i]);
      Grouped(rows[..i + 1], make) == p[c := (if c in p then p[c] else []) + [make(rows[i])]]
  {
    var xs := rows[..i + 1];
    assert xs[..|xs| - 1] == rows[..i];
    var g := Group(rows[..i], RowCategory);
    var c := RowCategory(rows[i]);
    var old_ := if c in g then g[c] else [];
    assert ProductList(old_ + [rows[i]], make) == ProductList(old_, make) + [make(rows[i])];
  }

  /** The `for (const row of rows)` loop: `products` starts empty and each row
      is pushed, as `make` turns it into a product, under its category, a
      missing list being created first; `categories` is the `Set` of
      categories met. The handler's `make` is `ProductMaker(parse)`. */
  method GroupRows(rows: seq<Row>, make: Row -> Value) returns (products: map<string, seq<Value>>, categories: seq<string>)
    requires TextCategories(rows)
    ensures products == Grouped(rows, make)
    ensures categories == FirstSeen(CategoriesOf(rows))
  {
    products := map[];
    categories := [];
    for i := 0 to |rows|
      invariant products == Grouped(rows[..i], make)
      invariant categories == FirstSeen(CategoriesOf(rows[..i]))
    {
      var row := rows[i];
      var cat := Col(row, "category").s;
      assert CategoriesOf(rows[..i + 1]) == CategoriesOf(rows[..i]) + [cat];
      if cat !in categories {
        categories := categories + [cat];
      }
      if cat !in products {
        products := products[cat := []];
      }
      var product := make(row);
      GroupedStep(rows, make, i);
      products := products[cat := products[cat] + [product]];
    }
    assert rows[..|rows|] == rows;
  }

  /** The products under one category are that category's rows, in the
      order the statement returned them, each turned into a product; a
      category has a list exactly when some row has it. */
  lemma GroupedSpec(rows: seq<Row>, make: Row -> Value, c: string)
    ensures c in Grouped(rows, make) <==> exists i :: 0 <= i < |rows| && RowCategory(rows[i]) == c
    ensures c in Grouped(rows, make) ==> Grouped(rows, make)[c] == ProductList(Select(rows, RowCategory, c), make)
  {
    GroupSelect(rows, RowCategory, c);
  }

  lemma SameCounts(s: seq<string>, t: seq<string>, cs: seq<string>)
    requires forall c :: multiset(s)[c] == if c in cs then 1 else 0
    requires forall c :: multiset(t)[c] == if c in cs then 1 else 0
    ensures multiset(s) == multiset(t)
  {
  }

  /** The category list of the response: in code-unit order, each
      category of the rows exactly once and nothing else, and equal to any
      other sorted arrangement of those categories. */
  lemma CategoriesSpec(rows: seq<Row>, s: seq<string>)
    ensures Sorted(SortStrings(FirstSeen(CategoriesOf(rows))))
    ensures forall c :: multiset(SortStrings(FirstSeen(CategoriesOf(rows))))[c] == if c in CategoriesOf(rows) then 1 else 0
    ensures Sorted(s) && (forall c :: multiset(s)[c] == if c in CategoriesOf(rows) then 1 else 0) ==>
      s == SortStrings(FirstSeen(CategoriesOf(rows)))
  {
    var cs := CategoriesOf(rows);
    var fs := FirstSeen(cs);
    SortStringsSpec(fs);
    FirstSeenOnce(cs);
    if Sorted(s) && (forall c :: multiset(s)[c] == if c in cs then 1 else 0) {
      SameCounts(s, SortStrings(fs), cs);
      SortedUnique(s, SortStrings(fs));
    }
  }

  // ---------------------------------------------------------------------------
  // The handler
  // ---------------------------------------------------------------------------

  /** The request: its method and the optional `category` and `search`
      query parameters. */
  datatype Event = Event(httpMethod: string, category: Option<string>, search: Option<string>)

  /** The status code and the body before `JSON.stringify`; the fixed CORS
      headers are not modelled. */
  datatype Response = Response(statusCode: nat, body: Value)

  const FailureText: string := "Failed to fetch products"

  /** `search?.toLowerCase()`. */
  function Lowered(search: Option<string>): (r: Option<string>)
    ensures r.Some? <==> search.Some?
    ensures Given(r) <==> Given(search)
  {
    if search.Some? then Some(ToLower(search.value)) else None
  }

  function Strings(xs: seq<string>): (r: seq<Value>)
    ensures |r| == |xs| && forall i :: 0 <= i < |xs| ==> r[i] == Str(xs[i])
  {
    seq(|xs|, i requires 0 <= i < |xs| => Str(xs[i]))
  }

  /** The 200 body: the grouped products, the sorted categories, the labour
      rate of 350, the currency and the data source. */
  function SuccessBody(products: map<string, seq<Value>>, categories: seq<string>): (v: Value)
    ensures v.Obj? && v.fields.Keys == {"products", "categories", "laborRate", "currency", "source"}
    ensures v.fields["laborRate"] == Num(350.0) && v.fields["currency"] == Str("MAD") && v.fields["source"] == Str("turso")
  {
    Obj(map[
      "products" := Obj(map k | k in products :: Arr(products[k])),
      "categories" := Arr(Strings(categories)),
      "laborRate" := Num(350.0),
      "currency" := Str("MAD"),
      "source" := Str("turso")
    ])
  }

  /** The answer for the outcome of `executeQuery`: 500 with the thrown
      message, or 200 with the products grouped by category. */
  function Respond(result: Result<seq<Row>, string>, parse: Value -> Option<Value>): (r: Response)
    ensures result.Err? ==> r == Response(500, Obj(map["error" := Str(FailureText), "message" := Str(result.error)]))
    ensures result.Ok? ==> r.statusCode == 200 && r.body.Obj? && "categories" in r.body.fields
  {
    match result
    case Err(m) => Response(500, Obj(map["error" := Str(FailureText), "message" := Str(m)]))
    case Ok(rows) =>
      Response(200, SuccessBody(Grouped(rows, ProductMaker(parse)), SortStrings(FirstSeen(CategoriesOf(rows)))))
  }

  /** A 200 answer carries, under each category that some row has, that
      category's products in row order, and no other category; its
      category list is sorted and names each category once. */
  lemma RespondProducts(rows: seq<Row>, parse: Value -> Option<Value>, c: string)
    ensures var b := Respond(Ok(rows), parse).body;
      b.Obj? && "products" in b.fields && b.fields["products"].Obj? &&
      (c in b.fields["products"].fields <==> exists i :: 0 <= i < |rows| && RowCategory(rows[i]) == c) &&
      (c in b.fields["products"].fields ==>
        b.fields["products"].fields[c] == Arr(ProductList(Select(rows, RowCategory, c), ProductMaker(parse))))
    ensures var b := Respond(Ok(rows), parse).body; var s := SortStrings(FirstSeen(CategoriesOf(rows)));
      b.Obj? && "categories" in b.fields && b.fields["categories"] == Arr(Strings(s)) && Sorted(s) &&
      forall x :: multiset(s)[x] == if x in CategoriesOf(rows) then 1 else 0
  {
    GroupedSpec(rows, ProductMaker(parse), c);
    CategoriesSpec(rows, []);
  }

  /** `handler(event)`. A preflight request is answered at once; otherwise
      the statement for the two filters is built, `answer` is the database's
      reply to it over HTTP, and the response follows from the rows or the
      error. The statement and its values are returned as well. */
  method Handler(event: Event, url: Option<string>, token: Option<string>, answer: Answer, parse: Value -> Option<Value>)
    returns (r: Response, query: string, params: seq<string>)
    requires ExecuteQuery(url, token, answer).Ok? ==> TextCategories(ExecuteQuery(url, token, answer).value)
    ensures event.httpMethod == "OPTIONS" ==> r == Response(200, Str("")) && query == "" && params == []
    ensures event.httpMethod != "OPTIONS" ==>
      query == QueryFor(event.category, Lowered(event.search)) &&
      params == ParamsFor(event.category, Lowered(event.search)) &&
      r == Respond(ExecuteQuery(url, token, answer), parse)
  {
    if event.httpMethod == "OPTIONS" {
      return Response(200, Str("")), "", [];
    }
    var search := Lowered(event.search);
    query, params := BuildQuery(event.category, search);
    var result := ExecuteQuery(url, token, answer);
    if result.Err? {
      return Response(500, Obj(map["error" := Str(FailureText), "message" := Str(result.error)])), query, params;
    }
    var products, categories := GroupRows(result.value, ProductMaker(parse));
    var sorted := SortStrings(categories);
    r := Response(200, SuccessBody(products, sorted));
  }
}
