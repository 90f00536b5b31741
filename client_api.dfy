/** The browser-side API helpers (src/utils/api.js): the quote the UI actually
    shows, the database-backed availability filter over eight daily slots,
    the booking row sent to the database, and the normalisation and grouping
    of catalogue rows. Database calls are inputs: the model receives what the
    query returned (or that no client is configured, or that it failed). */
module ClientApi {
  import opened Json
  import opened Text
  import opened Lists
  import opened Numbers
  import ServerQuote

  // ---------------------------------------------------------------------------
  // calculateQuote
  // ---------------------------------------------------------------------------

  const LaborRate: real := 350.0

  /** `Number(item.price) || 0`. */
  function ItemPrice(item: Value): real {
    NumberOrZero(Field(item, "price"))
  }

  /** `Number(item.labor_hours || item.laborHours) || 0`. */
  function ItemHours(item: Value): real {
    NumberOrZero(Or(Field(item, "labor_hours"), Field(item, "laborHours")))
  }

  function PartsSubtotal(items: seq<Value>): real {
    if items == [] then 0.0 else PartsSubtotal(items[..|items| - 1]) + ItemPrice(items[|items| - 1])
  }

  function LaborHours(items: seq<Value>): real {
    if items == [] then 0.0 else LaborHours(items[..|items| - 1]) + ItemHours(items[|items| - 1])
  }

  datatype Summary = Summary(partsSubtotal: real, laborHours: real, laborRate: real, laborCost: real,
                             rushFee: real, tax: real, total: real)

  /** The quote object; `items` and `vehicle` are the arguments as given. */
  datatype Quote = Quote(id: string, items: seq<Value>, vehicle: Value, summary: Summary, estimatedDays: int)

  /** The money rules as this copy writes them: the rush fee is a quarter of
      parts plus labour, and VAT is charged on the taxable amount. */
  function SummaryOf(parts: real, hours: real, rush: bool): Summary {
    var laborCost := hours * LaborRate;
    var subtotal := parts + laborCost;
    var rushFee := if rush then subtotal * 0.25 else 0.0;
    var taxableAmount := subtotal + rushFee;
    var tax := taxableAmount * 0.2;
    Summary(parts, hours, LaborRate, laborCost, rushFee, tax, taxableAmount + tax)
  }

  /** `Math.ceil(laborHours / 8) + (rushOrder ? 0 : 2)`. */
  function EstimatedDays(hours: real, rush: bool): int {
    ServerQuote.Ceil(hours / 8.0) + (if rush then 0 else 2)
  }

  /** `calculateQuote(items, vehicle, rushOrder)`; `random36` is the base-36
      text of the random number behind the id. Reading `price` of a null or
      undefined item throws. */
  function CalculateQuote(items: seq<Value>, vehicle: Value, rushOrder: Value, random36: string): (r: Result<Quote, string>)
    ensures r.Err? <==> exists i :: 0 <= i < |items| && IsNullish(items[i])
    ensures r.Ok? ==>
      r.value.summary == SummaryOf(PartsSubtotal(items), LaborHours(items), Truthy(rushOrder)) &&
      r.value.estimatedDays == EstimatedDays(LaborHours(items), Truthy(rushOrder)) &&
      r.value.items == items && r.value.vehicle == vehicle
    ensures r.Ok? ==> 2 <= |r.value.id| <= 11 && r.value.id[..2] == "Q-"
  {
    if exists i :: 0 <= i < |items| && IsNullish(items[i]) then Err("TypeError")
    else
      var hours := LaborHours(items);
      var rush := Truthy(rushOrder);
      Ok(Quote("Q-" + ToUpper(Substring(random36, 2, 11)), items, vehicle,
               SummaryOf(PartsSubtotal(items), hours, rush), EstimatedDays(hours, rush)))
  }

  /** The client's money rules are the server's: the same parts, labour, rush
      fee, tax and total for the same inputs, and the client's taxable amount
      is the server's `subtotal`. */
  lemma SameMoneyAsServer(parts: real, hours: real, rush: bool)
    ensures var c := SummaryOf(parts, hours, rush);
      var s := ServerQuote.SummaryOf(parts, hours, rush);
      c.partsSubtotal == s.partsSubtotal && c.laborHours == s.laborHours &&
      c.laborCost == s.laborCost && c.rushFee == s.rushFee &&
      c.tax == s.tax && c.total == s.total && c.laborRate == s.laborRate
    ensures var c := SummaryOf(parts, hours, rush);
      c.tax == 0.2 * (parts + c.laborCost + c.rushFee) && c.total == 1.2 * (parts + c.laborCost + c.rushFee)
  {
  }

  /** The client's completion estimate is never the server's: it is 2 days
      shorter for a rush order and 3 days shorter otherwise. */
  lemma EstimateDiffersFromServer(hours: real, rushOrder: Value)
    ensures ServerQuote.TimelineOf(hours, rushOrder).estimatedDays - EstimatedDays(hours, Truthy(rushOrder))
      == (if Truthy(rushOrder) then 2 else 3)
    ensures ServerQuote.TimelineOf(hours, rushOrder).estimatedDays != EstimatedDays(hours, Truthy(rushOrder))
  {
  }

  /** `labor_hours` wins whenever it is truthy; otherwise `laborHours` is used. */
  lemma HoursPreferSnakeCase(item: Value)
    ensures Truthy(Field(item, "labor_hours")) ==> ItemHours(item) == NumberOrZero(Field(item, "labor_hours"))
    ensures !Truthy(Field(item, "labor_hours")) ==> ItemHours(item) == NumberOrZero(Field(item, "laborHours"))
  {
  }

  /** The parts sum is additive over concatenated item lists. */
  lemma {:induction false} PartsSubtotalAppend(a: seq<Value>, b: seq<Value>)
    ensures PartsSubtotal(a + b) == PartsSubtotal(a) + PartsSubtotal(b)
    decreases |b|
  {
    if b == [] {
      assert a + b == a;
    } else {
      var b' := b[..|b| - 1];
      assert (a + b)[..|a + b| - 1] == a + b';
      assert (a + b)[|a + b| - 1] == b[|b| - 1];
      PartsSubtotalAppend(a, b');
    }
  }

  /** The hours sum is additive over concatenated item lists. */
  lemma {:induction false} LaborHoursAppend(a: seq<Value>, b: seq<Value>)
    ensures LaborHours(a + b) == LaborHours(a) + LaborHours(b)
    decreases |b|
  {
    if b == [] {
      assert a + b == a;
    } else {
      var b' := b[..|b| - 1];
      assert (a + b)[..|a + b| - 1] == a + b';
      assert (a + b)[|a + b| - 1] == b[|b| - 1];
      LaborHoursAppend(a, b');
    }
  }

  /** A catalogue row as the UI holds it: price and labour hours as numbers. */
  function SeedProduct(): Value {
    Obj(map["id" := Str("p001"), "category" := Str("paints"), "price" := Num(4500.0), "labor_hours" := Num(24.0)])
  }

  /** The seeded paint quoted in the browser: the server's 15480 MAD (19350
      with rush), but 5 days (3 with rush) where the server says 8 (5). */
  lemma SeedExample(random36: string)
    ensures var q := CalculateQuote([SeedProduct()], Null, Bool(false), random36);
      q.Ok? && q.value.summary.total == 15480.0 && q.value.estimatedDays == 5
    ensures var q := CalculateQuote([SeedProduct()], Null, Bool(true), random36);
      q.Ok? && q.value.summary.total == 19350.0 && q.value.estimatedDays == 3
  {
    assert [SeedProduct()][..0] == [];
    assert ItemHours(SeedProduct()) == 24.0;
    assert ServerQuote.Ceil(24.0 / 8.0) == 3 by {
      assert (24.0 / 8.0) == 3.0;
      assert (-3.0).Floor == -3;
    }
  }

  // ---------------------------------------------------------------------------
  // getAvailability / generateTimeSlots
  // ---------------------------------------------------------------------------

  /** `generateTimeSlots()`: eight slots, with 12:00 left out. */
  const TimeSlots: seq<string> := ["09:00", "10:00", "11:00", "13:00", "14:00", "15:00", "16:00", "17:00"]

  /** What the `bookings` query gave: no configured client, an error, or the
      `time` column of the rows for the location and date. */
  datatype BookingsQuery = NoClient | QueryError | Times(times: seq<Value>)

  /** The string values among the booked times; `includes` compares with
      SameValueZero, under which a slot text equals only the same string, so
      only strings can exclude a slot. */
  function StringsOf(vs: seq<Value>): (r: seq<string>)
    ensures forall t :: t in r <==> Str(t) in vs
  {
    if vs == [] then []
    else
      var last := vs[|vs| - 1];
      assert vs == vs[..|vs| - 1] + [last];
      StringsOf(vs[..|vs| - 1]) + (if last.Str? then [last.s] else [])
  }

  /** `getAvailability(locationId, date)` given the query outcome. */
  function GetAvailability(q: BookingsQuery): (r: seq<string>)
    ensures q.NoClient? || q.QueryError? ==> r == TimeSlots
    ensures q.Times? ==> r == Without(TimeSlots, StringsOf(q.times))
  {
    match q
    case NoClient => TimeSlots
    case QueryError => TimeSlots
    case Times(times) => Without(TimeSlots, StringsOf(times))
  }

  /** The free slots are the eight fixed slots without the booked times, in
      their fixed order; a missing client or a failed query leaves all open. */
  lemma AvailabilityFilter(q: BookingsQuery, t: string)
    ensures t in GetAvailability(q) <==> t in TimeSlots && !(q.Times? && Str(t) in q.times)
    ensures IsSublist(GetAvailability(q), TimeSlots)
    ensures |GetAvailability(q)| <= 8
  {
    if q.Times? {
      WithoutMembers(TimeSlots, StringsOf(q.times), t);
      WithoutIsSublist(TimeSlots, StringsOf(q.times));
    } else {
      IsSublistRefl(TimeSlots);
    }
  }

  lemma {:induction false} IsSublistRefl<T>(xs: seq<T>)
    ensures IsSublist(xs, xs)
  {
    if xs != [] {
      IsSublistRefl(xs[..|xs| - 1]);
    }
  }

  // ---------------------------------------------------------------------------
  // createBooking
  // ---------------------------------------------------------------------------

  /** The own enumerable properties `{...v}` copies: an object's fields;
      null, undefined and other primitives give none. (The index properties an
      array or a string would contribute are not modelled.) */
  function SpreadProps(v: Value): map<string, Value> {
    match v
    case Obj(fields) => fields
    case _ => map[]
  }

  /** The row `createBooking` sends: the nine snake_case columns with status
      pending, or None when reading `customer.name` of a missing customer
      (or any field of missing data) throws. */
  function Flatten(b: Value): (r: Option<map<string, Value>>)
    ensures r.None? <==> IsNullish(b) || IsNullish(Field(b, "customer"))
    ensures r.Some? ==> r.value.Keys == RowColumns && r.value["status"] == Str("pending")
  {
    if IsNullish(b) then None
    else
      var customer := Field(b, "customer");
      if IsNullish(customer) then None
      else Some(map[
        "location_id" := Field(b, "locationId"),
        "date" := Field(b, "date"),
        "time" := Field(b, "time"),
        "customer_name" := Field(customer, "name"),
        "customer_email" := Field(customer, "email"),
        "customer_phone" := Field(customer, "phone"),
        "vehicle_info" := Field(b, "vehicle"),
        "quote_id" := Field(b, "quoteId"),
        "status" := Str("pending")])
  }

  const RowColumns: set<string> := {"location_id", "date", "time", "customer_name", "customer_email",
                                    "customer_phone", "vehicle_info", "quote_id", "status"}

  /** What the `bookings` insert (`insert(dbData).select().single()`) gave:
      no configured client, an `error` with its message, or the inserted
      record `data`. */
  datatype InsertReply = NoClient | InsertFailed(message: string) | Inserted(data: Value)

  /** What `createBooking` returns or throws: the simulated record, the
      record the database hands back, the `Error(error.message)` it throws on
      a failed insert, or the `TypeError` of flattening missing data. */
  datatype BookingOutcome = Simulated(record: map<string, Value>) | Saved(data: Value) | Failed(message: string) | Rejected

  /** `createBooking(bookingData)`; `now` is the clock in milliseconds and
      `reply` is the database's answer to the insert of `Flatten(bookingData)`. */
  function CreateBooking(bookingData: Value, reply: InsertReply, now: nat): (r: BookingOutcome)
    ensures reply.NoClient? ==> r.Simulated? && "status" in r.record && r.record["status"] == Str("pending")
    ensures reply.NoClient? ==> r.record.Keys == {"id", "status"} + SpreadProps(bookingData).Keys
    ensures reply.NoClient? ==> forall k :: k in SpreadProps(bookingData) && k != "status" ==>
      k in r.record && r.record[k] == SpreadProps(bookingData)[k]
    ensures reply.NoClient? && "id" !in SpreadProps(bookingData) ==> "id" in r.record && r.record["id"] == Str("SIMULATED-" + NatToString(now))
    ensures !reply.NoClient? ==> (r.Rejected? <==> Flatten(bookingData).None?)
    ensures !reply.NoClient? && Flatten(bookingData).Some? ==>
      (reply.InsertFailed? ==> r == Failed(reply.message)) && (reply.Inserted? ==> r == Saved(reply.data))
  {
    match reply
    case NoClient =>
      Simulated((map["id" := Str("SIMULATED-" + NatToString(now))] + SpreadProps(bookingData))["status" := Str("pending")])
    case InsertFailed(message) => if Flatten(bookingData).None? then Rejected else Failed(message)
    case Inserted(data) => if Flatten(bookingData).None? then Rejected else Saved(data)
  }

  /** The booking data a database row stands for: the inverse of `Flatten`. */
  function Unflatten(row: map<string, Value>): Value
    requires RowColumns <= row.Keys
  {
    Obj(map[
      "locationId" := row["location_id"], "date" := row["date"], "time" := row["time"],
      "customer" := Obj(map["name" := row["customer_name"], "email" := row["customer_email"],
                            "phone" := row["customer_phone"]]),
      "vehicle" := row["vehicle_info"], "quoteId" := row["quote_id"]])
  }

  /** The row under exactly the columns `Flatten` writes, status pending. */
  function PendingRow(row: map<string, Value>): map<string, Value>
    requires RowColumns <= row.Keys
  {
    map[
      "location_id" := row["location_id"], "date" := row["date"], "time" := row["time"],
      "customer_name" := row["customer_name"], "customer_email" := row["customer_email"],
      "customer_phone" := row["customer_phone"], "vehicle_info" := row["vehicle_info"],
      "quote_id" := row["quote_id"], "status" := Str("pending")]
  }

  lemma PendingRowIsRow(row: map<string, Value>)
    requires row.Keys == RowColumns && row["status"] == Str("pending")
    ensures PendingRow(row) == row
  {
    var flat := PendingRow(row);
    assert flat.Keys == row.Keys;
    forall k | k in row.Keys ensures flat[k] == row[k] {
    }
  }

  /** Every pending row is the flattening of the booking data it stands for. */
  lemma FlattenUnflatten(row: map<string, Value>)
    requires row.Keys == RowColumns && row["status"] == Str("pending")
    ensures Flatten(Unflatten(row)) == Some(row)
  {
    var b := Unflatten(row);
    var customer := Field(b, "customer");
    assert customer == Obj(map["name" := row["customer_name"], "email" := row["customer_email"],
                                "phone" := row["customer_phone"]]);
    assert Field(customer, "name") == row["customer_name"];
    assert Field(customer, "email") == row["customer_email"];
    assert Field(customer, "phone") == row["customer_phone"];
    assert Field(b, "locationId") == row["location_id"];
    assert Field(b, "date") == row["date"];
    assert Field(b, "time") == row["time"];
    assert Field(b, "vehicle") == row["vehicle_info"];
    assert Field(b, "quoteId") == row["quote_id"];
    assert Flatten(b) == Some(PendingRow(row));
    PendingRowIsRow(row);
  }

  // ---------------------------------------------------------------------------
  // getProducts
  // ---------------------------------------------------------------------------

  /** A `products` row. The column is `TEXT NOT NULL`, so the category is
      modelled as a string; `columns` holds every column, category included. */
  datatype ProductRow = ProductRow(category: string, columns: map<string, Value>)

  /** A normalised product keeps its row's category for grouping. */
  datatype Product = Product(category: string, fields: map<string, Value>)

  /** `{...item, laborHours: item.labor_hours, id: item.id}`. */
  function Normalize(row: ProductRow): (p: Product)
    ensures p.category == row.category
    ensures p.fields.Keys == row.columns.Keys + {"laborHours", "id"}
    ensures p.fields["laborHours"] == Field(Obj(row.columns), "labor_hours")
    ensures forall k :: k in row.columns && k != "laborHours" ==> p.fields[k] == row.columns[k]
  {
    var item := Obj(row.columns);
    Product(row.category, row.columns["laborHours" := Field(item, "labor_hours")]["id" := Field(item, "id")])
  }

  function NormalizeAll(rows: seq<ProductRow>): (ps: seq<Product>)
    ensures |ps| == |rows| && forall i :: 0 <= i < |rows| ==> ps[i] == Normalize(rows[i])
  {
    seq(|rows|, i requires 0 <= i < |rows| => Normalize(rows[i]))
  }

  function CategoryOf(p: Product): string {
    p.category
  }

  datatype ProductsQuery = NoProductsClient | ProductsError(message: Value) | Rows(rows: seq<ProductRow>)

  /** The `products` field of the result: a flat list, or lists by category. */
  datatype Products = Flat(items: seq<Product>) | Grouped(groups: map<string, seq<Product>>)

  /** `getProducts(category)` given the query outcome; an error is rethrown
      with its message. */
  function GetProducts(category: Value, q: ProductsQuery): (r: Result<Products, Value>)
    ensures q.NoProductsClient? ==> r == Ok(Flat([]))
    ensures q.ProductsError? ==> r == Err(q.message)
    ensures q.Rows? && Truthy(category) ==> r == Ok(Flat(NormalizeAll(q.rows)))
    ensures q.Rows? && !Truthy(category) ==> r == Ok(Grouped(Group(NormalizeAll(q.rows), CategoryOf)))
  {
    match q
    case NoProductsClient => Ok(Flat([]))
    case ProductsError(message) => Err(message)
    case Rows(rows) =>
      var normalized := NormalizeAll(rows);
      if Truthy(category) then Ok(Flat(normalized)) else Ok(Grouped(Group(normalized, CategoryOf)))
  }

  /** Normalising keeps each row's category at its position. */
  lemma NormalizedCategories(rows: seq<ProductRow>, c: string)
    ensures (exists i :: 0 <= i < |rows| && rows[i].category == c) <==>
            (exists i :: 0 <= i < |NormalizeAll(rows)| && CategoryOf(NormalizeAll(rows)[i]) == c)
  {
    var ps := NormalizeAll(rows);
    if exists i :: 0 <= i < |ps| && CategoryOf(ps[i]) == c {
      var i :| 0 <= i < |ps| && CategoryOf(ps[i]) == c;
      assert rows[i].category == c;
    }
    if exists i :: 0 <= i < |rows| && rows[i].category == c {
      var i :| 0 <= i < |rows| && rows[i].category == c;
      assert CategoryOf(ps[i]) == c;
    }
  }

  /** Without a category the products come back grouped: a group exists for
      exactly the categories that occur, and holds that category's products in
      row order. */
  lemma GroupedProducts(rows: seq<ProductRow>, c: string)
    ensures var g := GetProducts(Null, Rows(rows)).value.groups;
      (c in g <==> exists i :: 0 <= i < |rows| && rows[i].category == c) &&
      (c in g ==> g[c] == Select(NormalizeAll(rows), CategoryOf, c)) &&
      (c in g ==> forall p :: p in g[c] <==> p in NormalizeAll(rows) && p.category == c)
  {
    var ps := NormalizeAll(rows);
    GroupSelect(ps, CategoryOf, c);
    SelectCount(ps, CategoryOf, c);
    NormalizedCategories(rows, c);
  }
}
