/** The product picker (src/components/ProductSelector.jsx): the colour helper
    `adjustBrightness` and the selection handler, which toggles a product in
    the store under the picker's category name and updates the preview
    colours. */
module ProductSelector {
  import opened Json
  import opened Text
  import opened Store

  // ---------------------------------------------------------------------------
  // Hexadecimal text
  // ---------------------------------------------------------------------------

  predicate IsHexDigit(c: char) {
    IsDigit(c) || ('a' <= c <= 'f') || ('A' <= c <= 'F')
  }

  function HexDigitValue(c: char): (r: nat)
    requires IsHexDigit(c)
    ensures r < 16
  {
    if IsDigit(c) then (c as int) - ('0' as int)
    else if 'a' <= c <= 'f' then (c as int) - ('a' as int) + 10
    else (c as int) - ('A' as int) + 10
  }

  /** The lowercase digit `Number.prototype.toString(16)` writes. */
  function HexChar(d: nat): (c: char)
    requires d < 16
    ensures IsHexDigit(c) && HexDigitValue(c) == d && !('A' <= c <= 'F')
  {
    "0123456789abcdef"[d]
  }

  /** The first position at or after `i` that is not white space. */
  function SkipSpaces(s: string, i: nat): (r: nat)
    requires i <= |s|
    ensures i <= r <= |s|
    decreases |s| - i
  {
    if i < |s| && IsSpace(s[i]) then SkipSpaces(s, i + 1) else i
  }

  /** `parseInt`'s digit loop: reads hexadecimal digits from position `i`
      while there are any, `acc` holding the value so far; None when none
      was read. */
  function HexDigits(s: string, i: nat, acc: nat, seen: bool): (r: Option<nat>)
    requires i <= |s|
    decreases |s| - i
  {
    if i < |s| && IsHexDigit(s[i]) then HexDigits(s, i + 1, 16 * acc + HexDigitValue(s[i]), true)
    else if seen then Some(acc) else None
  }

  /** `parseInt(s, 16)`: leading white space, an optional sign, an optional
      `0x`/`0X`, then the longest run of hexadecimal digits; None (NaN) when
      that run is empty. */
  function ParseIntHex(s: string): (r: Option<int>) {
    var i := SkipSpaces(s, 0);
    var negative := i < |s| && s[i] == '-';
    var j := if i < |s| && (s[i] == '-' || s[i] == '+') then i + 1 else i;
    var k := if j + 2 <= |s| && s[j] == '0' && (s[j + 1] == 'x' || s[j + 1] == 'X') then j + 2 else j;
    match HexDigits(s, k, 0, false)
    case None => None
    case Some(v) => var n: int := v; Some(if negative then -n else n)
  }

  /** `n.toString(16)` for a natural number. */
  function NatToHex(n: nat): (r: string)
    ensures |r| >= 1
  {
    if n < 16 then [HexChar(n)] else NatToHex(n / 16) + [HexChar(n % 16)]
  }

  /** `s.padStart(2, '0')`. */
  function PadStart2(s: string): (r: string) {
    if |s| >= 2 then s else seq(2 - |s|, _ => '0') + s
  }

  // ---------------------------------------------------------------------------
  // adjustBrightness
  // ---------------------------------------------------------------------------

  /** `Math.round`: halves go up. */
  function Round(x: real): int {
    (x + 0.5).Floor
  }

  function Clamp(n: int): (r: int)
    ensures 0 <= r <= 255
    ensures 0 <= n <= 255 ==> r == n
  {
    if n > 255 then 255 else if n < 0 then 0 else n
  }

  /** The inner `adjust`: scale by `percent`, round and clamp; NaN stays NaN. */
  function Adjust(value: Option<int>, percent: real): (r: Option<int>)
    ensures r.Some? <==> value.Some?
    ensures r.Some? ==> 0 <= r.value <= 255
  {
    match value
    case None => None
    case Some(v) => Some(Scale(v, percent))
  }

  /** `Math.max(0, Math.min(255, Math.round(v + (v * percent) / 100)))`. */
  function Scale(v: int, percent: real): (r: int)
    ensures 0 <= r <= 255
  {
    Clamp(Round(v as real + (v as real * percent) / 100.0))
  }

  /** A channel's text: two lowercase hex digits, or "NaN". */
  function ChannelText(c: Option<int>): string
    requires c.Some? ==> 0 <= c.value <= 255
  {
    match c
    case None => "NaN"
    case Some(n) => PadStart2(NatToHex(n))
  }

  /** Channel `i` (0 red, 1 green, 2 blue) of the colour: its two characters
      parsed, adjusted and printed back. */
  function Channel(hex: string, i: nat, percent: real): string {
    ChannelText(Adjust(ParseIntHex(Substring(hex, 2 * i, 2 * i + 2)), percent))
  }

  /** The colour rebuilt from the three channels of `hex` (the text after
      the `#` is removed). */
  function Brighten(hex: string, percent: real): string {
    "#" + Channel(hex, 0, percent) + Channel(hex, 1, percent) + Channel(hex, 2, percent)
  }

  function AdjustBrightness(hexColor: string, percent: real): (r: string)
    ensures |r| > 0 && r[0] == '#'
  {
    Brighten(ReplaceFirst(hexColor, "#", ""), percent)
  }

  /** Channel `i` of the colour parses. */
  predicate Parses(hexColor: string, i: nat) {
    ParseIntHex(Substring(ReplaceFirst(hexColor, "#", ""), 2 * i, 2 * i + 2)).Some?
  }

  predicate IsLowerHex(s: string) {
    forall i :: 0 <= i < |s| ==> IsLowerHexDigit(s[i])
  }

  /** A byte prints as exactly two lowercase digits: high nibble, low nibble. */
  lemma ByteText(n: nat)
    requires n <= 255
    ensures PadStart2(NatToHex(n)) == [HexChar(n / 16), HexChar(n % 16)]
  {
    if n < 16 {
      assert NatToHex(n) == [HexChar(n)];
      assert PadStart2(NatToHex(n)) == ['0'] + [HexChar(n)];
    } else {
      assert NatToHex(n / 16) == [HexChar(n / 16)];
    }
  }

  /** Two hex digits parse to their value. */
  lemma ParsePair(a: char, b: char)
    requires IsHexDigit(a) && IsHexDigit(b)
    ensures ParseIntHex([a, b]) == Some(16 * HexDigitValue(a) + HexDigitValue(b))
  {
    var s := [a, b];
    assert SkipSpaces(s, 0) == 0;
    var va := HexDigitValue(a);
    assert HexDigits(s, 1, va, true) == HexDigits(s, 2, 16 * va + HexDigitValue(b), true);
  }

  /** Printing a byte and parsing it back gives the byte. */
  lemma ByteRoundTrip(n: nat)
    requires n <= 255
    ensures ParseIntHex(PadStart2(NatToHex(n))) == Some(n)
  {
    ByteText(n);
    ParsePair(HexChar(n / 16), HexChar(n % 16));
  }

  /** A channel that parses prints as two lowercase hex digits. */
  lemma ChannelFormat(hex: string, i: nat, percent: real)
    requires ParseIntHex(Substring(hex, 2 * i, 2 * i + 2)).Some?
    ensures |Channel(hex, i, percent)| == 2 && IsLowerHex(Channel(hex, i, percent))
  {
    ByteText(Adjust(ParseIntHex(Substring(hex, 2 * i, 2 * i + 2)), percent).value);
  }

  /** When all three channels parse, the result is `#` and six lowercase hex
      digits. */
  lemma BrightenFormat(hex: string, percent: real)
    requires ParseIntHex(Substring(hex, 0, 2)).Some? && ParseIntHex(Substring(hex, 2, 4)).Some?
    requires ParseIntHex(Substring(hex, 4, 6)).Some?
    ensures var out := Brighten(hex, percent);
      |out| == 7 && out[0] == '#' && IsLowerHex(out[1..])
  {
    ChannelFormat(hex, 0, percent);
    ChannelFormat(hex, 1, percent);
    ChannelFormat(hex, 2, percent);
    Assemble(Channel(hex, 0, percent), Channel(hex, 1, percent), Channel(hex, 2, percent));
  }

  /** Three two-digit channels after a `#` make a seven-character colour. */
  lemma Assemble(r: string, g: string, b: string)
    requires |r| == 2 && |g| == 2 && |b| == 2 && IsLowerHex(r) && IsLowerHex(g) && IsLowerHex(b)
    ensures var out := "#" + r + g + b; |out| == 7 && out[0] == '#' && IsLowerHex(out[1..])
  {
    LowerHexConcat(r, g);
    LowerHexConcat(r + g, b);
    assert ("#" + r + g + b)[1..] == r + g + b;
  }

  lemma LowerHexConcat(a: string, b: string)
    requires IsLowerHex(a) && IsLowerHex(b)
    ensures IsLowerHex(a + b)
  {
    forall j | 0 <= j < |a + b| ensures IsLowerHexDigit((a + b)[j]) {
      if j >= |a| {
        assert (a + b)[j] == b[j - |a|];
      }
    }
  }

  lemma AdjustBrightnessFormat(hexColor: string, percent: real)
    requires Parses(hexColor, 0) && Parses(hexColor, 1) && Parses(hexColor, 2)
    ensures var out := AdjustBrightness(hexColor, percent);
      |out| == 7 && out[0] == '#' && IsLowerHex(out[1..])
  {
    BrightenFormat(ReplaceFirst(hexColor, "#", ""), percent);
  }

  lemma BrightenNaN(hex: string, percent: real)
    requires ParseIntHex(Substring(hex, 0, 2)).None?
    ensures Brighten(hex, percent)[..4] == "#NaN"
  {
  }

  /** A red channel that does not parse prints as "NaN". */
  lemma AdjustBrightnessNaN(hexColor: string, percent: real)
    requires !Parses(hexColor, 0)
    ensures AdjustBrightness(hexColor, percent)[..4] == "#NaN"
  {
    BrightenNaN(ReplaceFirst(hexColor, "#", ""), percent);
  }

  /** A lowercase hex digit is the digit its value prints as. */
  lemma LowerHexDigit(c: char)
    requires IsHexDigit(c) && !('A' <= c <= 'F')
    ensures HexChar(HexDigitValue(c)) == c
  {
  }

  /** Two lowercase hex digits survive a 0% adjustment. */
  lemma PairUnchanged(a: char, b: char)
    requires IsHexDigit(a) && !('A' <= a <= 'F') && IsHexDigit(b) && !('A' <= b <= 'F')
    ensures ChannelText(Adjust(ParseIntHex([a, b]), 0.0)) == [a, b]
  {
    ParsePair(a, b);
    var va, vb := HexDigitValue(a), HexDigitValue(b);
    var n := 16 * va + vb;
    assert Scale(n, 0.0) == n by {
      assert Round(n as real + (n as real * 0.0) / 100.0) == n;
    }
    assert n / 16 == va && n % 16 == vb;
    ByteText(n);
    LowerHexDigit(a);
    LowerHexDigit(b);
  }

  /** The leading `#` is the first occurrence the replace removes. */
  lemma StripHash(hexColor: string)
    requires |hexColor| >= 1 && hexColor[0] == '#'
    ensures ReplaceFirst(hexColor, "#", "") == hexColor[1..]
  {
    assert OccursAt(hexColor, "#", 0) by {
      assert hexColor[0..1] == "#";
    }
  }

  predicate IsLowerHexDigit(c: char) {
    IsHexDigit(c) && !('A' <= c <= 'F')
  }

  /** A channel of two lowercase hex digits is kept by a 0% adjustment. */
  lemma ChannelKept(hex: string, i: nat)
    requires 2 * i + 2 <= |hex| && IsLowerHexDigit(hex[2 * i]) && IsLowerHexDigit(hex[2 * i + 1])
    ensures Channel(hex, i, 0.0) == hex[2 * i..2 * i + 2]
  {
    assert Substring(hex, 2 * i, 2 * i + 2) == [hex[2 * i], hex[2 * i + 1]];
    PairUnchanged(hex[2 * i], hex[2 * i + 1]);
  }

  lemma BrightenByZero(hex: string)
    requires |hex| == 6 && IsLowerHex(hex)
    ensures Brighten(hex, 0.0) == "#" + hex
  {
    assert IsLowerHexDigit(hex[0]) && IsLowerHexDigit(hex[1]) && IsLowerHexDigit(hex[2]);
    assert IsLowerHexDigit(hex[3]) && IsLowerHexDigit(hex[4]) && IsLowerHexDigit(hex[5]);
    ChannelKept(hex, 0);
    ChannelKept(hex, 1);
    ChannelKept(hex, 2);
    Rejoin(hex, Channel(hex, 0, 0.0), Channel(hex, 1, 0.0), Channel(hex, 2, 0.0));
  }

  /** The three two-character slices of a six-character text rebuild it. */
  lemma Rejoin(hex: string, r: string, g: string, b: string)
    requires |hex| == 6 && r == hex[0..2] && g == hex[2..4] && b == hex[4..6]
    ensures "#" + r + g + b == "#" + hex
  {
    assert hex == hex[0..2] + hex[2..4] + hex[4..6];
  }

  /** `"#rrggbb"` in lowercase hex: a 0% adjustment returns it unchanged. */
  lemma AdjustByZeroIsIdentity(hexColor: string)
    requires |hexColor| == 7 && hexColor[0] == '#' && IsLowerHex(hexColor[1..])
    ensures AdjustBrightness(hexColor, 0.0) == hexColor
  {
    StripHash(hexColor);
    BrightenByZero(hexColor[1..]);
    assert hexColor == "#" + hexColor[1..];
  }

  /** A channel that parses is 0 after a -100% adjustment. */
  lemma ChannelBlack(hex: string, i: nat)
    requires ParseIntHex(Substring(hex, 2 * i, 2 * i + 2)).Some?
    ensures Channel(hex, i, -100.0) == "00"
  {
    ByteText(0);
  }

  lemma BrightenByMinusHundred(hex: string)
    requires ParseIntHex(Substring(hex, 0, 2)).Some? && ParseIntHex(Substring(hex, 2, 4)).Some?
    requires ParseIntHex(Substring(hex, 4, 6)).Some?
    ensures Brighten(hex, -100.0) == "#000000"
  {
    ChannelBlack(hex, 0);
    ChannelBlack(hex, 1);
    ChannelBlack(hex, 2);
    AllBlack(Channel(hex, 0, -100.0), Channel(hex, 1, -100.0), Channel(hex, 2, -100.0));
  }

  lemma AllBlack(r: string, g: string, b: string)
    requires r == "00" && g == "00" && b == "00"
    ensures "#" + r + g + b == "#000000"
  {
  }

  /** A -100% adjustment turns any parseable colour black. */
  lemma AdjustByMinusHundredIsBlack(hexColor: string)
    requires Parses(hexColor, 0) && Parses(hexColor, 1) && Parses(hexColor, 2)
    ensures AdjustBrightness(hexColor, -100.0) == "#000000"
  {
    BrightenByMinusHundred(ReplaceFirst(hexColor, "#", ""));
  }

  // ---------------------------------------------------------------------------
  // handleSelect
  // ---------------------------------------------------------------------------

  /** The wheel finish colours; any other finish gets '#4a4a4a'. */
  const FinishMap: map<string, string> := map[
    "Gloss Black" := "#1a1a1a", "Satin Black" := "#1a1a1a", "Brushed Bronze" := "#8B7355",
    "Machined Silver" := "#C0C0C0", "Polished Chrome" := "#E8E8E8", "Carbon Weave" := "#2a2a2a"]

  /** `finishMap[finish] || '#4a4a4a'`. */
  function FinishColor(finish: Value): (c: string)
    ensures finish.Str? && finish.s in FinishMap ==> c == FinishMap[finish.s]
    ensures !(finish.Str? && finish.s in FinishMap) ==> c == "#4a4a4a"
  {
    if finish.Str? && finish.s in FinishMap then FinishMap[finish.s] else "#4a4a4a"
  }

  /** `selectedProduct?.id`. */
  function SelectedId(selected: Value): Value {
    if IsNullish(selected) then Undefined else Field(selected, "id")
  }

  /** The part of the store the handler touches. */
  datatype View = View(configuration: map<string, Value>, carColor: Value, wheelColor: Value)

  /** The car colour after a new selection: paints and wraps with a
      truthy colour recolour the car. */
  function CarColorAfter(car: Value, category: string, product: Value): Value {
    if (category == "paints" || category == "wraps") && Truthy(Field(product, "color"))
    then Field(product, "color") else car
  }

  /** The wheel colour after a new selection: wheels take their finish's colour. */
  function WheelColorAfter(wheel: Value, category: string, product: Value): Value {
    if category == "wheels" then Str(FinishColor(Field(product, "finish"))) else wheel
  }

  /** What `handleSelect(product)` does in the picker for `category`: the
      same id deselects (stores null); otherwise the product is stored under
      the category name, paints and wraps with a colour recolour the car, and
      wheels set the wheel colour from the finish. */
  function SelectEffect(v: View, category: string, product: Value): (r: View)
    ensures r.configuration.Keys == v.configuration.Keys + {category}
    ensures r.configuration[category] == Null || r.configuration[category] == product
    ensures forall k :: k in v.configuration && k != category ==> r.configuration[k] == v.configuration[k]
    ensures r.configuration[category] == Null && product != Null ==> r.carColor == v.carColor && r.wheelColor == v.wheelColor
    ensures category != "paints" && category != "wraps" ==> r.carColor == v.carColor
    ensures category != "wheels" ==> r.wheelColor == v.wheelColor
  {
    if StrictEquals(SelectedId(Lookup(v.configuration, category)), Field(product, "id")) then
      v.(configuration := v.configuration[category := Null])
    else
      View(v.configuration[category := product], CarColorAfter(v.carColor, category, product),
           WheelColorAfter(v.wheelColor, category, product))
  }

  method HandleSelect(store: Store, category: string, product: Value)
    requires !IsNullish(product)
    modifies store
    ensures View(store.configuration, store.carColor, store.wheelColor) ==
      SelectEffect(View(old(store.configuration), old(store.carColor), old(store.wheelColor)), category, product)
    ensures store.currentStep == old(store.currentStep) && store.vehicle == old(store.vehicle)
    ensures store.selectedLocation == old(store.selectedLocation) && store.selectedSeason == old(store.selectedSeason)
    ensures store.timeOfDay == old(store.timeOfDay) && store.quote == old(store.quote)
    ensures store.booking == old(store.booking) && store.products == old(store.products)
    ensures store.isLoading == old(store.isLoading)
  {
    var selectedProduct := Lookup(store.configuration, category);
    if StrictEquals(SelectedId(selectedProduct), Field(product, "id")) {
      store.SetConfiguration(category, Null);
      return;
    }
    store.SetConfiguration(category, product);
    if category == "paints" || category == "wraps" {
      if Truthy(Field(product, "color")) {
        store.SetCarColor(Field(product, "color"));
      }
    }
    if category == "wheels" {
      var color := FinishColor(Field(product, "finish"));
      store.SetWheelColor(Str(color));
    }
  }

  /** Clicking the same product twice selects and then deselects it. */
  lemma SelectTwiceDeselects(v: View, category: string, product: Value)
    requires !IsNullish(product) && !Field(product, "id").Obj? && !Field(product, "id").Arr?
    requires !StrictEquals(SelectedId(Lookup(v.configuration, category)), Field(product, "id"))
    ensures SelectEffect(SelectEffect(v, category, product), category, product).configuration ==
      v.configuration[category := Null]
  {
    var w := SelectEffect(v, category, product);
    assert Lookup(w.configuration, category) == product;
  }

  // ---------------------------------------------------------------------------
  // The category names against the store keys
  // ---------------------------------------------------------------------------

  /** As written: a paint, wrap or body-kit selection is stored under
      `'paints'`, `'wraps'` or `'bodykits'`, keys `getSelectedItems` never
      reads, so it never reaches the quote. */
  lemma PluralCategoryNotQuoted(v: View, category: string, product: Value)
    requires category == "paints" || category == "wraps" || category == "bodykits"
    ensures SelectedItems(SelectEffect(v, category, product).configuration) == SelectedItems(v.configuration)
  {
    SelectedItemsIgnoreOtherKeys(v.configuration, category,
      SelectEffect(v, category, product).configuration[category]);
    assert SelectEffect(v, category, product).configuration ==
      v.configuration[category := SelectEffect(v, category, product).configuration[category]];
  }

  /** As written: an accessory selection replaces the accessories list with
      one object (or with null when deselecting), after which
      `getSelectedItems` throws. */
  lemma AccessorySelectionBreaksItems(v: View, product: Value)
    requires product.Obj?
    ensures SelectedItems(SelectEffect(v, "accessories", product).configuration).None?
  {
  }

  /** The store key a picker category evidently stands for. */
  function StoreKey(category: string): string {
    if category == "paints" then "paint"
    else if category == "wraps" then "wrap"
    else if category == "bodykits" then "bodykit"
    else category
  }

  /** The evident intent: a single-item category toggles its store key, and
      the accessories picker adds the product to the list or, when its id is
      already there, removes it. */
  function IntendedSelect(v: View, category: string, product: Value): View {
    if category == "accessories" then
      var acc := Lookup(v.configuration, "accessories");
      if acc.Arr? && RemoveById(acc.elems, Field(product, "id")).Some? &&
         exists i :: 0 <= i < |acc.elems| && StrictEquals(Field(acc.elems[i], "id"), Field(product, "id")) then
        v.(configuration := v.configuration["accessories" := Arr(RemoveById(acc.elems, Field(product, "id")).value)])
      else if Spread(acc).Some? then
        v.(configuration := v.configuration["accessories" := Arr(Spread(acc).value + [product])])
      else v
    else
      var k := StoreKey(category);
      if StrictEquals(SelectedId(Lookup(v.configuration, k)), Field(product, "id")) then
        v.(configuration := v.configuration[k := Null])
      else
        View(v.configuration[k := product], CarColorAfter(v.carColor, category, product),
             WheelColorAfter(v.wheelColor, category, product))
  }

  /** A truthy value under one of the keys is among the truthy values. */
  lemma {:induction false} TruthyValueListed(config: map<string, Value>, keys: seq<string>, k: string)
    requires k in keys && Truthy(Lookup(config, k))
    ensures Lookup(config, k) in TruthyValues(config, keys)
  {
    if keys[|keys| - 1] != k {
      assert k in keys[..|keys| - 1] by {
        var i :| 0 <= i < |keys| && keys[i] == k;
        assert keys[..|keys| - 1][i] == k;
      }
      TruthyValueListed(config, keys[..|keys| - 1], k);
    }
  }

  /** With the intended handler, selecting a new product of any of the
      seven pickers puts it among the selected items that are quoted. */
  lemma IntendedSelectionQuoted(v: View, category: string, product: Value)
    requires product.Obj?
    requires category in ["paints", "wraps", "bodykits", "wheels", "interior", "starlight", "accessories"]
    requires SelectedItems(v.configuration).Some?
    requires category != "accessories" ==>
      !StrictEquals(SelectedId(Lookup(v.configuration, StoreKey(category))), Field(product, "id"))
    requires category == "accessories" ==> (Truthy(Field(product, "id")) &&
      forall a :: a in Spread(Lookup(v.configuration, "accessories")).value ==> !StrictEquals(Field(a, "id"), Field(product, "id")))
    ensures var items := SelectedItems(IntendedSelect(v, category, product).configuration);
      items.Some? && product in items.value
  {
    if category == "accessories" {
      var acc := Lookup(v.configuration, "accessories");
      if acc.Arr? {
        forall i | 0 <= i < |acc.elems|
          ensures !StrictEquals(Field(acc.elems[i], "id"), Field(product, "id"))
        {
          assert acc.elems[i] in Spread(acc).value;
        }
      }
      AddAccessoryAppends(v.configuration, product);
    } else {
      var k := StoreKey(category);
      assert k in ItemKeys;
      var config := IntendedSelect(v, category, product).configuration;
      assert config == v.configuration[k := product];
      assert Lookup(config, "accessories") == Lookup(v.configuration, "accessories");
      TruthyValueListed(config, ItemKeys, k);
    }
  }
}
