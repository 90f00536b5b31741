/** The server quote (netlify/functions/quote.js): sums the parts and the
    labour hours of the requested items, charges labour at 350 MAD an hour,
    adds a 25% rush fee on parts plus labour, 20% VAT on the rush-inclusive
    subtotal, and estimates the completion time in days. Money and hours are
    exact reals. */
module ServerQuote {
  import opened Json
  import Text

  const LaborRate: real := 350.0
  const TaxRate: real := 0.2
  const RushRate: real := 0.25
  const HoursPerWorkDay: real := 8.0
  const RushBufferDays: int := 2
  const StandardBufferDays: int := 5
  /** 30 days in milliseconds: how long a quote stays valid. */
  const ValidityMs: int := 30 * 24 * 60 * 60 * 1000

  /** An item of the request. `price` and `laborHours` are None when absent
      (or falsy); `sku`, `name` and `category` are copied as they come. */
  datatype Item = Item(sku: Value, name: Value, category: Value, price: Option<real>, laborHours: Option<real>)

  datatype LineItem = LineItem(sku: Value, name: Value, category: Value, price: real, laborHours: real, laborCost: real)

  datatype Summary = Summary(
    partsSubtotal: real, laborHours: real, laborRate: real, laborCost: real,
    rushFee: real, subtotal: real, taxRate: real, tax: real, total: real, currency: string)

  /** `rushOrder` is the request's value under `|| false`. */
  datatype Timeline = Timeline(estimatedDays: int, rushOrder: Value, workDays: int)

  /** A quote; `createdAt` and `validUntil` are clock readings in milliseconds
      (their ISO-8601 rendering is not modelled). */
  datatype Quote = Quote(
    id: string, createdAt: int, validUntil: int, vehicle: Value,
    lineItems: seq<LineItem>, summary: Summary, timeline: Timeline)

  // ---------------------------------------------------------------------------
  // Specification
  // ---------------------------------------------------------------------------

  /** The sum of `price || 0` over the items, added left to right. */
  function PartsSubtotal(items: seq<Item>): real {
    if items == [] then 0.0
    else PartsSubtotal(items[..|items| - 1]) + OrZero(items[|items| - 1].price)
  }

  /** The sum of `laborHours || 0` over the items. */
  function TotalLaborHours(items: seq<Item>): real {
    if items == [] then 0.0
    else TotalLaborHours(items[..|items| - 1]) + OrZero(items[|items| - 1].laborHours)
  }

  function LineOf(item: Item): LineItem {
    var hours := OrZero(item.laborHours);
    LineItem(item.sku, item.name, item.category, OrZero(item.price), hours, hours * LaborRate)
  }

  /** `Math.ceil`. */
  function Ceil(x: real): (r: int)
    ensures r as real >= x && (r as real) - 1.0 < x
  {
    -((-x).Floor)
  }

  function WorkDays(hours: real): int {
    Ceil(hours / HoursPerWorkDay)
  }

  function SummaryOf(parts: real, hours: real, rush: bool): Summary {
    var laborCost := hours * LaborRate;
    var rushFee := if rush then (parts + laborCost) * RushRate else 0.0;
    var subtotal := parts + laborCost + rushFee;
    var tax := subtotal * TaxRate;
    Summary(parts, hours, LaborRate, laborCost, rushFee, subtotal, TaxRate, tax, subtotal + tax, "MAD")
  }

  function TimelineOf(hours: real, rushOrder: Value): Timeline {
    var workDays := WorkDays(hours);
    Timeline(workDays + (if Truthy(rushOrder) then RushBufferDays else StandardBufferDays),
             Or(rushOrder, Bool(false)), workDays)
  }

  /** `vehicle || {}`. */
  function VehicleOrEmpty(vehicle: Value): Value {
    if Truthy(vehicle) then vehicle else Obj(map[])
  }

  // ---------------------------------------------------------------------------
  // The computation (the `forEach` loop and the totals after it)
  // ---------------------------------------------------------------------------

  method ComputeQuote(items: seq<Item>, vehicle: Value, rushOrder: Value, now: nat) returns (q: Quote)
    ensures |q.lineItems| == |items|
    ensures forall i :: 0 <= i < |items| ==> q.lineItems[i] == LineOf(items[i])
    ensures q.summary == SummaryOf(PartsSubtotal(items), TotalLaborHours(items), Truthy(rushOrder))
    ensures q.timeline == TimelineOf(TotalLaborHours(items), rushOrder)
    ensures q.id == "QT-" + Text.NatToString(now)
    ensures q.createdAt == now && q.validUntil == now + ValidityMs
    ensures q.vehicle == VehicleOrEmpty(vehicle)
  {
    var subtotal := 0.0;
    var totalLaborHours := 0.0;
    var lineItems: seq<LineItem> := [];
    var i := 0;
    while i < |items|
      invariant 0 <= i <= |items|
      invariant subtotal == PartsSubtotal(items[..i])
      invariant totalLaborHours == TotalLaborHours(items[..i])
      invariant |lineItems| == i
      invariant forall k :: 0 <= k < i ==> lineItems[k] == LineOf(items[k])
    {
      var item := items[i];
      var itemTotal := OrZero(item.price);
      var laborHours := OrZero(item.laborHours);
      assert items[..i + 1][..i] == items[..i];
      subtotal := subtotal + itemTotal;
      totalLaborHours := totalLaborHours + laborHours;
      lineItems := lineItems + [LineItem(item.sku, item.name, item.category, itemTotal, laborHours, laborHours * LaborRate)];
      i := i + 1;
    }
    assert items[..|items|] == items;
    var laborCost := totalLaborHours * LaborRate;
    var rushFee := if Truthy(rushOrder) then (subtotal + laborCost) * RushRate else 0.0;
    var subtotalWithLabor := subtotal + laborCost + rushFee;
    var tax := subtotalWithLabor * TaxRate;
    var total := subtotalWithLabor + tax;
    var workDays := Ceil(totalLaborHours / HoursPerWorkDay);
    var bufferDays := if Truthy(rushOrder) then RushBufferDays else StandardBufferDays;
    q := Quote(
      "QT-" + Text.NatToString(now), now, now + ValidityMs, VehicleOrEmpty(vehicle), lineItems,
      Summary(subtotal, totalLaborHours, LaborRate, laborCost, rushFee, subtotalWithLabor, TaxRate, tax, total, "MAD"),
      Timeline(workDays + bufferDays, Or(rushOrder, Bool(false)), workDays));
  }

  // ---------------------------------------------------------------------------
  // The HTTP handler
  // ---------------------------------------------------------------------------

  /** An element of the `items` array: an item, or `null`/`undefined`, whose
      `.price` throws. Any other element reads as an item: a primitive such as
      a number or a string has none of the fields, so it is the item whose
      fields are all absent. */
  datatype Entry = ItemEntry(item: Item) | NullishEntry

  /** The parsed request body; `items` is None when it is absent, falsy or not
      an array. */
  datatype QuoteRequest = QuoteRequest(items: Option<seq<Entry>>, vehicle: Value, rushOrder: Value)

  /** The body as `JSON.parse(event.body || '{}')` sees it: text that does not
      parse (or parses to `null`, which the destructuring rejects) is Malformed. */
  datatype Body = Malformed | Parsed(request: QuoteRequest)

  datatype Response = Preflight | MethodNotAllowed | NoItems | Failed | Quoted(quote: Quote)

  function StatusCode(r: Response): int {
    match r
    case Preflight => 200
    case MethodNotAllowed => 405
    case NoItems => 400
    case Failed => 500
    case Quoted(_) => 200
  }

  function ErrorText(r: Response): string {
    match r
    case MethodNotAllowed => "Method not allowed"
    case NoItems => "No items provided"
    case Failed => "Failed to calculate quote"
    case _ => ""
  }

  method Handle(httpMethod: string, body: Body, now: nat) returns (r: Response)
    ensures httpMethod == "OPTIONS" ==> r == Preflight
    ensures httpMethod != "OPTIONS" && httpMethod != "POST" ==> r == MethodNotAllowed
    ensures httpMethod == "POST" && body.Malformed? ==> r == Failed
    ensures httpMethod == "POST" && body.Parsed? ==>
      (r == NoItems <==> body.request.items.None? || body.request.items.value == [])
    ensures httpMethod == "POST" && body.Parsed? && body.request.items.Some? ==>
      ((exists i :: 0 <= i < |body.request.items.value| && body.request.items.value[i].NullishEntry?)
       ==> r == Failed)
    ensures (httpMethod == "POST" && body.Parsed? && body.request.items.Some? &&
             body.request.items.value != [] &&
             forall i :: 0 <= i < |body.request.items.value| ==> body.request.items.value[i].ItemEntry?)
      ==> r.Quoted?
    ensures r.Quoted? ==>
      httpMethod == "POST" && body.Parsed? && body.request.items.Some? &&
      var entries := body.request.items.value;
      entries != [] && (forall i :: 0 <= i < |entries| ==> entries[i].ItemEntry?) &&
      var items := Items(entries);
      r.quote.id == "QT-" + Text.NatToString(now) &&
      r.quote.createdAt == now && r.quote.validUntil == now + ValidityMs &&
      r.quote.vehicle == VehicleOrEmpty(body.request.vehicle) &&
      r.quote.summary == SummaryOf(PartsSubtotal(items), TotalLaborHours(items), Truthy(body.request.rushOrder)) &&
      r.quote.timeline == TimelineOf(TotalLaborHours(items), body.request.rushOrder) &&
      |r.quote.lineItems| == |items| &&
      forall i :: 0 <= i < |items| ==> r.quote.lineItems[i] == LineOf(items[i])
    ensures StatusCode(r) == 400 <==> r == NoItems
  {
    if httpMethod == "OPTIONS" {
      return Preflight;
    }
    if httpMethod != "POST" {
      return MethodNotAllowed;
    }
    if body.Malformed? {
      return Failed;
    }
    var request := body.request;
    if request.items.None? || request.items.value == [] {
      return NoItems;
    }
    var entries := request.items.value;
    if exists i :: 0 <= i < |entries| && entries[i].NullishEntry? {
      return Failed;
    }
    var q := ComputeQuote(Items(entries), request.vehicle, request.rushOrder, now);
    r := Quoted(q);
  }

  /** The items of an array none of whose elements is nullish. */
  function Items(entries: seq<Entry>): (items: seq<Item>)
    requires forall i :: 0 <= i < |entries| ==> entries[i].ItemEntry?
    ensures |items| == |entries|
    ensures forall i :: 0 <= i < |entries| ==> entries[i] == ItemEntry(items[i])
  {
    seq(|entries|, i requires 0 <= i < |entries| => entries[i].item)
  }

  // ---------------------------------------------------------------------------
  // Laws of the pricing rules
  // ---------------------------------------------------------------------------

  /** The parts subtotal is additive over concatenated item lists. */
  lemma {:induction false} PartsSubtotalAppend(a: seq<Item>, b: seq<Item>)
    ensures PartsSubtotal(a + b) == PartsSubtotal(a) + PartsSubtotal(b)
    decreases |b|
  {
    if b == [] {
      assert a + b == a;
    } else {
      var b' := b[..|b| - 1];
      assert (a + b)[..|a + b| - 1] == a + b';
      assert (a + b)[|a + b| - 1] == b[|b| - 1];
      PartsSubtotalAppend(a, b');
    }
  }

  /** The labour hours are additive over concatenated item lists. */
  lemma {:induction false} TotalLaborHoursAppend(a: seq<Item>, b: seq<Item>)
    ensures TotalLaborHours(a + b) == TotalLaborHours(a) + TotalLaborHours(b)
    decreases |b|
  {
    if b == [] {
      assert a + b == a;
    } else {
      var b' := b[..|b| - 1];
      assert (a + b)[..|a + b| - 1] == a + b';
      assert (a + b)[|a + b| - 1] == b[|b| - 1];
      TotalLaborHoursAppend(a, b');
    }
  }

  function SumLineLaborCost(lines: seq<LineItem>): real {
    if lines == [] then 0.0 else SumLineLaborCost(lines[..|lines| - 1]) + lines[|lines| - 1].laborCost
  }

  /** The per-line labour costs add up to the summary's labour cost. */
  lemma {:induction false} LineLaborCostsAddUp(items: seq<Item>)
    ensures SumLineLaborCost(seq(|items|, i requires 0 <= i < |items| => LineOf(items[i])))
         == TotalLaborHours(items) * LaborRate
  {
    var lines := seq(|items|, i requires 0 <= i < |items| => LineOf(items[i]));
    if items != [] {
      var init := items[..|items| - 1];
      LineLaborCostsAddUp(init);
      assert lines[..|lines| - 1] == seq(|init|, i requires 0 <= i < |init| => LineOf(init[i]));
    }
  }

  /** Tax is 20% of the rush-inclusive subtotal and the total is 1.2 times it;
      the rush fee is charged on parts plus labour only. */
  lemma TaxAndTotal(parts: real, hours: real, rush: bool)
    ensures var s := SummaryOf(parts, hours, rush);
      s.laborCost == 350.0 * hours &&
      s.rushFee == (if rush then 0.25 * (parts + s.laborCost) else 0.0) &&
      s.subtotal == parts + s.laborCost + s.rushFee &&
      s.tax == 0.2 * s.subtotal &&
      s.total == 1.2 * s.subtotal
  {
  }

  /** A rush order costs exactly 25% more than the same order without rush,
      tax included: the fee never compounds on itself or on the tax. */
  lemma RushScalesTotal(parts: real, hours: real)
    ensures SummaryOf(parts, hours, true).total == 1.25 * SummaryOf(parts, hours, false).total
    ensures SummaryOf(parts, hours, true).tax == 1.25 * SummaryOf(parts, hours, false).tax
  {
  }

  /** With nonnegative inputs: total >= subtotal >= parts + labour, and a rush
      order is strictly dearer whenever parts plus labour is positive. */
  lemma TotalsOrdered(parts: real, hours: real, rush: bool)
    requires parts >= 0.0 && hours >= 0.0
    ensures var s := SummaryOf(parts, hours, rush);
      s.total >= s.subtotal >= parts + s.laborCost
    ensures parts + hours * LaborRate > 0.0 ==>
      SummaryOf(parts, hours, true).total > SummaryOf(parts, hours, false).total
  {
  }

  /** `Ceil` is monotone. */
  lemma CeilMonotone(x: real, y: real)
    requires x <= y
    ensures Ceil(x) <= Ceil(y)
  {
    assert (Ceil(y) as real) >= y >= x;
    assert (Ceil(x) as real) - 1.0 < x;
  }

  /** More labour hours never give fewer work days, and the estimate is the
      work days plus 2 (rush) or 5 (standard) buffer days. */
  lemma WorkDaysMonotone(h1: real, h2: real, rush: Value)
    requires h1 <= h2
    ensures WorkDays(h1) <= WorkDays(h2)
    ensures TimelineOf(h1, rush).estimatedDays <= TimelineOf(h2, rush).estimatedDays
    ensures TimelineOf(h1, rush).estimatedDays == WorkDays(h1) + (if Truthy(rush) then 2 else 5)
  {
    CeilMonotone(h1 / 8.0, h2 / 8.0);
  }

  function SeedItem(): Item {
    Item(Str("PPG-ENV-SG01"), Str("Sahara Gold Metallic"), Str("paints"), Some(4500.0), Some(24.0))
  }

  /** The seeded paint (4500 MAD, 24 h) without rush: 15480 MAD in 8 days. */
  lemma SeedExampleStandard()
    ensures var s := SummaryOf(PartsSubtotal([SeedItem()]), TotalLaborHours([SeedItem()]), false);
      s.partsSubtotal == 4500.0 && s.laborCost == 8400.0 && s.rushFee == 0.0 &&
      s.tax == 2580.0 && s.total == 15480.0
    ensures TimelineOf(TotalLaborHours([SeedItem()]), Bool(false)) == Timeline(8, Bool(false), 3)
  {
    assert [SeedItem()][..0] == [];
    assert WorkDays(24.0) == 3 by {
      assert (24.0 / 8.0) == 3.0;
      assert (-3.0).Floor == -3;
    }
  }

  /** The same item with rush: fee 3225, total 19350, estimate 5 days. */
  lemma SeedExampleRush()
    ensures var s := SummaryOf(PartsSubtotal([SeedItem()]), TotalLaborHours([SeedItem()]), true);
      s.rushFee == 3225.0 && s.subtotal == 16125.0 && s.tax == 3225.0 && s.total == 19350.0
    ensures TimelineOf(TotalLaborHours([SeedItem()]), Bool(true)) == Timeline(5, Bool(true), 3)
  {
    assert [SeedItem()][..0] == [];
    assert WorkDays(24.0) == 3 by {
      assert (24.0 / 8.0) == 3.0;
      assert (-3.0).Floor == -3;
    }
  }
}
