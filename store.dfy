/** The configurator store (src/store/useStore.js): the wizard step, the
    decoded vehicle, the selected configuration (a dictionary, so any key may
    be set), the preview colours and scene, the quote, booking and catalogue,
    and the derived list of selected items with its total. Each setter
    replaces one field; a setter whose update function throws leaves the
    state as it was. */
module Store {
  import opened Json
  import opened Lists

  /** The single-item keys `getSelectedItems` reads, in its order. */
  const ItemKeys: seq<string> := ["paint", "wrap", "bodykit", "wheels", "interior", "starlight"]

  const DefaultColor: string := "#1C1C1C"

  /** The configuration the store starts with and returns to. */
  function DefaultConfiguration(): (c: map<string, Value>)
    ensures c.Keys == {"paint", "wrap", "bodykit", "wheels", "interior", "starlight", "accessories"}
    ensures forall k :: k in ItemKeys ==> c[k] == Null
    ensures c["accessories"] == Arr([])
  {
    map["paint" := Null, "wrap" := Null, "bodykit" := Null, "wheels" := Null,
        "interior" := Null, "starlight" := Null, "accessories" := Arr([])]
  }

  /** `config[k]`: `undefined` for a key that is not there. */
  function Lookup(config: map<string, Value>, k: string): Value {
    if k in config then config[k] else Undefined
  }

  // ---------------------------------------------------------------------------
  // Specification of the derived values
  // ---------------------------------------------------------------------------

  /** The truthy values under `keys`, in the order of `keys`. */
  function TruthyValues(config: map<string, Value>, keys: seq<string>): seq<Value> {
    if keys == [] then []
    else
      var v := Lookup(config, keys[|keys| - 1]);
      TruthyValues(config, keys[..|keys| - 1]) + (if Truthy(v) then [v] else [])
  }

  /** `getSelectedItems()`: the truthy single items in key order, then the
      accessories spread in; None when the accessories value is not iterable
      (the spread throws). */
  function SelectedItems(config: map<string, Value>): Option<seq<Value>> {
    match Spread(Lookup(config, "accessories"))
    case None => None
    case Some(acc) => Some(TruthyValues(config, ItemKeys) + acc)
  }

  /** Why `getTotal` gives no number: a selected item is null or undefined
      (reading `price` throws), or a price is a string, an object or an
      array (the sum would turn into string concatenation, which is not
      modelled). */
  datatype TotalError = SelectionThrows | ReadOfNullish | NonNumericPrice

  /** `item.price || 0` as a number adds it: a number as itself and `true`
      as 1. */
  function PriceOf(item: Value): Result<real, TotalError> {
    if IsNullish(item) then Err(ReadOfNullish)
    else
      var p := Field(item, "price");
      if !Truthy(p) then Ok(0.0)
      else if p.Num? then Ok(p.n)
      else if p.Bool? then Ok(1.0)
      else Err(NonNumericPrice)
  }

  /** `items.reduce((sum, item) => sum + (item.price || 0), 0)`. */
  function Total(items: seq<Value>): Result<real, TotalError> {
    if items == [] then Ok(0.0)
    else
      match Total(items[..|items| - 1])
      case Err(e) => Err(e)
      case Ok(sum) =>
        match PriceOf(items[|items| - 1])
        case Err(e) => Err(e)
        case Ok(p) => Ok(sum + p)
  }

  /** `accessories.filter(a => a.id !== id)`; None when an element is null or
      undefined (reading `id` throws). */
  function RemoveById(xs: seq<Value>, id: Value): Option<seq<Value>> {
    if xs == [] then Some([])
    else
      match RemoveById(xs[..|xs| - 1], id)
      case None => None
      case Some(kept) =>
        var a := xs[|xs| - 1];
        if IsNullish(a) then None
        else Some(kept + (if StrictEquals(Field(a, "id"), id) then [] else [a]))
  }

  // ---------------------------------------------------------------------------
  // The store
  // ---------------------------------------------------------------------------

  class Store {
    var currentStep: Value
    var vehicle: Value
    var configuration: map<string, Value>
    var carColor: Value
    var wheelColor: Value
    var selectedLocation: Value
    var selectedSeason: Value
    var timeOfDay: Value
    var quote: Value
    var booking: Value
    var products: Value
    var isLoading: Value

    constructor()
      ensures currentStep == Num(0.0) && vehicle == Null && configuration == DefaultConfiguration()
      ensures carColor == Str(DefaultColor) && wheelColor == Str(DefaultColor)
      ensures selectedLocation == Str("casablanca") && selectedSeason == Str("summer") && timeOfDay == Str("day")
      ensures quote == Null && booking == Null && products == Null && isLoading == Bool(false)
    {
      currentStep := Num(0.0);
      vehicle := Null;
      configuration := DefaultConfiguration();
      carColor := Str(DefaultColor);
      wheelColor := Str(DefaultColor);
      selectedLocation := Str("casablanca");
      selectedSeason := Str("summer");
      timeOfDay := Str("day");
      quote := Null;
      booking := Null;
      products := Null;
      isLoading := Bool(false);
    }

    method SetCurrentStep(step: Value)
      modifies this
      ensures currentStep == step
      ensures vehicle == old(vehicle) && configuration == old(configuration)
      ensures carColor == old(carColor) && wheelColor == old(wheelColor)
      ensures selectedLocation == old(selectedLocation) && selectedSeason == old(selectedSeason) && timeOfDay == old(timeOfDay)
      ensures quote == old(quote) && booking == old(booking) && products == old(products) && isLoading == old(isLoading)
    {
      currentStep := step;
    }

    method SetVehicle(v: Value)
      modifies this
      ensures vehicle == v
      ensures currentStep == old(currentStep) && configuration == old(configuration)
      ensures carColor == old(carColor) && wheelColor == old(wheelColor)
      ensures selectedLocation == old(selectedLocation) && selectedSeason == old(selectedSeason) && timeOfDay == old(timeOfDay)
      ensures quote == old(quote) && booking == old(booking) && products == old(products) && isLoading == old(isLoading)
    {
      vehicle := v;
    }

    /** `setConfiguration(key, value)`: only `key` changes, and any key is
        accepted, including ones outside the default configuration. */
    method SetConfiguration(key: string, value: Value)
      modifies this
      ensures configuration == old(configuration)[key := value]
      ensures forall k :: k != key ==> Lookup(configuration, k) == Lookup(old(configuration), k)
      ensures currentStep == old(currentStep) && vehicle == old(vehicle)
      ensures carColor == old(carColor) && wheelColor == old(wheelColor)
      ensures selectedLocation == old(selectedLocation) && selectedSeason == old(selectedSeason) && timeOfDay == old(timeOfDay)
      ensures quote == old(quote) && booking == old(booking) && products == old(products) && isLoading == old(isLoading)
    {
      configuration := configuration[key := value];
    }

    /** `addAccessory(accessory)`: appends at the end; fails (and changes
        nothing) when the accessories value is not iterable. */
    method AddAccessory(accessory: Value) returns (ok: bool)
      modifies this
      ensures ok <==> Spread(Lookup(old(configuration), "accessories")).Some?
      ensures ok ==> (configuration ==
        old(configuration)["accessories" := Arr(Spread(Lookup(old(configuration), "accessories")).value + [accessory])])
      ensures !ok ==> configuration == old(configuration)
      ensures currentStep == old(currentStep) && vehicle == old(vehicle)
      ensures carColor == old(carColor) && wheelColor == old(wheelColor)
      ensures selectedLocation == old(selectedLocation) && selectedSeason == old(selectedSeason) && timeOfDay == old(timeOfDay)
      ensures quote == old(quote) && booking == old(booking) && products == old(products) && isLoading == old(isLoading)
    {
      var current := Spread(Lookup(configuration, "accessories"));
      if current.None? {
        return false;
      }
      configuration := configuration["accessories" := Arr(current.value + [accessory])];
      ok := true;
    }

    /** `removeAccessory(id)`: `filter` needs an array of non-null elements;
        otherwise it throws and nothing changes. */
    method RemoveAccessory(id: Value) returns (ok: bool)
      modifies this
      ensures var acc := Lookup(old(configuration), "accessories");
        ok <==> acc.Arr? && RemoveById(acc.elems, id).Some?
      ensures ok ==> (configuration ==
        old(configuration)["accessories" := Arr(RemoveById(Lookup(old(configuration), "accessories").elems, id).value)])
      ensures !ok ==> configuration == old(configuration)
      ensures currentStep == old(currentStep) && vehicle == old(vehicle)
      ensures carColor == old(carColor) && wheelColor == old(wheelColor)
      ensures selectedLocation == old(selectedLocation) && selectedSeason == old(selectedSeason) && timeOfDay == old(timeOfDay)
      ensures quote == old(quote) && booking == old(booking) && products == old(products) && isLoading == old(isLoading)
    {
      var acc := Lookup(configuration, "accessories");
      if !acc.Arr? {
        return false;
      }
      var kept := RemoveById(acc.elems, id);
      if kept.None? {
        return false;
      }
      configuration := configuration["accessories" := Arr(kept.value)];
      ok := true;
    }

    /** `clearConfiguration()`: only the configuration changes. */
    method ClearConfiguration()
      modifies this
      ensures configuration == DefaultConfiguration()
      ensures currentStep == old(currentStep) && vehicle == old(vehicle)
      ensures carColor == old(carColor) && wheelColor == old(wheelColor)
      ensures selectedLocation == old(selectedLocation) && selectedSeason == old(selectedSeason) && timeOfDay == old(timeOfDay)
      ensures quote == old(quote) && booking == old(booking) && products == old(products) && isLoading == old(isLoading)
    {
      configuration := DefaultConfiguration();
    }

    method SetCarColor(color: Value)
      modifies this
      ensures carColor == color
      ensures currentStep == old(currentStep) && vehicle == old(vehicle) && configuration == old(configuration)
      ensures wheelColor == old(wheelColor)
      ensures selectedLocation == old(selectedLocation) && selectedSeason == old(selectedSeason) && timeOfDay == old(timeOfDay)
      ensures quote == old(quote) && booking == old(booking) && products == old(products) && isLoading == old(isLoading)
    {
      carColor := color;
    }

    method SetWheelColor(color: Value)
      modifies this
      ensures wheelColor == color
      ensures currentStep == old(currentStep) && vehicle == old(vehicle) && configuration == old(configuration)
      ensures carColor == old(carColor)
      ensures selectedLocation == old(selectedLocation) && selectedSeason == old(selectedSeason) && timeOfDay == old(timeOfDay)
      ensures quote == old(quote) && booking == old(booking) && products == old(products) && isLoading == old(isLoading)
    {
      wheelColor := color;
    }

    method SetSelectedLocation(location: Value)
      modifies this
      ensures selectedLocation == location
      ensures currentStep == old(currentStep) && vehicle == old(vehicle) && configuration == old(configuration)
      ensures carColor == old(carColor) && wheelColor == old(wheelColor)
      ensures selectedSeason == old(selectedSeason) && timeOfDay == old(timeOfDay)
      ensures quote == old(quote) && booking == old(booking) && products == old(products) && isLoading == old(isLoading)
    {
      selectedLocation := location;
    }

    method SetSelectedSeason(season: Value)
      modifies this
      ensures selectedSeason == season
      ensures currentStep == old(currentStep) && vehicle == old(vehicle) && configuration == old(configuration)
      ensures carColor == old(carColor) && wheelColor == old(wheelColor)
      ensures selectedLocation == old(selectedLocation) && timeOfDay == old(timeOfDay)
      ensures quote == old(quote) && booking == old(booking) && products == old(products) && isLoading == old(isLoading)
    {
      selectedSeason := season;
    }

    method SetTimeOfDay(time: Value)
      modifies this
      ensures timeOfDay == time
      ensures currentStep == old(currentStep) && vehicle == old(vehicle) && configuration == old(configuration)
      ensures carColor == old(carColor) && wheelColor == old(wheelColor)
      ensures selectedLocation == old(selectedLocation) && selectedSeason == old(selectedSeason)
      ensures quote == old(quote) && booking == old(booking) && products == old(products) && isLoading == old(isLoading)
    {
      timeOfDay := time;
    }

    method SetQuote(q: Value)
      modifies this
      ensures quote == q
      ensures currentStep == old(currentStep) && vehicle == old(vehicle) && configuration == old(configuration)
      ensures carColor == old(carColor) && wheelColor == old(wheelColor)
      ensures selectedLocation == old(selectedLocation) && selectedSeason == old(selectedSeason) && timeOfDay == old(timeOfDay)
      ensures booking == old(booking) && products == old(products) && isLoading == old(isLoading)
    {
      quote := q;
    }

    method SetBooking(b: Value)
      modifies this
      ensures booking == b
      ensures currentStep == old(currentStep) && vehicle == old(vehicle) && configuration == old(configuration)
      ensures carColor == old(carColor) && wheelColor == old(wheelColor)
      ensures selectedLocation == old(selectedLocation) && selectedSeason == old(selectedSeason) && timeOfDay == old(timeOfDay)
      ensures quote == old(quote) && products == old(products) && isLoading == old(isLoading)
    {
      booking := b;
    }

    method SetProducts(p: Value)
      modifies this
      ensures products == p
      ensures currentStep == old(currentStep) && vehicle == old(vehicle) && configuration == old(configuration)
      ensures carColor == old(carColor) && wheelColor == old(wheelColor)
      ensures selectedLocation == old(selectedLocation) && selectedSeason == old(selectedSeason) && timeOfDay == old(timeOfDay)
      ensures quote == old(quote) && booking == old(booking) && isLoading == old(isLoading)
    {
      products := p;
    }

    method SetIsLoading(loading: Value)
      modifies this
      ensures isLoading == loading
      ensures currentStep == old(currentStep) && vehicle == old(vehicle) && configuration == old(configuration)
      ensures carColor == old(carColor) && wheelColor == old(wheelColor)
      ensures selectedLocation == old(selectedLocation) && selectedSeason == old(selectedSeason) && timeOfDay == old(timeOfDay)
      ensures quote == old(quote) && booking == old(booking) && products == old(products)
    {
      isLoading := loading;
    }

    /** `reset()`: step, vehicle, configuration, colours, quote and booking
        go back to their initial values; the scene, the catalogue and the
        loading flag are kept. */
    method Reset()
      modifies this
      ensures currentStep == Num(0.0) && vehicle == Null && configuration == DefaultConfiguration()
      ensures carColor == Str(DefaultColor) && wheelColor == Str(DefaultColor)
      ensures quote == Null && booking == Null
      ensures selectedLocation == old(selectedLocation) && selectedSeason == old(selectedSeason) && timeOfDay == old(timeOfDay)
      ensures products == old(products) && isLoading == old(isLoading)
    {
      currentStep, vehicle, configuration := Num(0.0), Null, DefaultConfiguration();
      carColor, wheelColor := Str(DefaultColor), Str(DefaultColor);
      quote, booking := Null, Null;
    }

    /** `if (v) items.push(v)`. */
    static method PushIfTruthy(items: seq<Value>, v: Value) returns (out: seq<Value>)
      ensures out == items + (if Truthy(v) then [v] else [])
    {
      out := items;
      if Truthy(v) {
        out := out + [v];
      }
    }

    /** `getSelectedItems()`: six guarded pushes, then the accessories spread. */
    method GetSelectedItems() returns (r: Option<seq<Value>>)
      ensures r == SelectedItems(configuration)
    {
      var config := configuration;
      var items: seq<Value> := [];
      items := PushIfTruthy(items, Lookup(config, "paint"));
      PushStep(config, [], [], items, "paint");
      ghost var keys := ["paint"];
      var items1 := items;
      items := PushIfTruthy(items, Lookup(config, "wrap"));
      PushStep(config, keys, items1, items, "wrap");
      keys := keys + ["wrap"];
      var items2 := items;
      items := PushIfTruthy(items, Lookup(config, "bodykit"));
      PushStep(config, keys, items2, items, "bodykit");
      keys := keys + ["bodykit"];
      var items3 := items;
      items := PushIfTruthy(items, Lookup(config, "wheels"));
      PushStep(config, keys, items3, items, "wheels");
      keys := keys + ["wheels"];
      var items4 := items;
      items := PushIfTruthy(items, Lookup(config, "interior"));
      PushStep(config, keys, items4, items, "interior");
      keys := keys + ["interior"];
      var items5 := items;
      items := PushIfTruthy(items, Lookup(config, "starlight"));
      PushStep(config, keys, items5, items, "starlight");
      keys := keys + ["starlight"];
      assert keys == ItemKeys;
      match Spread(Lookup(config, "accessories"))
      case None =>
        r := None;
      case Some(acc) =>
        r := Some(items + acc);
    }

    /** `getTotal()`: the sum of `price || 0` over the selected items. */
    method GetTotal() returns (r: Result<real, TotalError>)
      ensures SelectedItems(configuration).None? ==> r == Err(SelectionThrows)
      ensures SelectedItems(configuration).Some? ==> r == Total(SelectedItems(configuration).value)
    {
      var items := GetSelectedItems();
      if items.None? {
        return Err(SelectionThrows);
      }
      r := Total(items.value);
    }
  }

  // ---------------------------------------------------------------------------
  // Laws
  // ---------------------------------------------------------------------------

  /** One guarded push: `key`'s value is added after the values of `keys`
      when it is truthy. */
  lemma PushStep(config: map<string, Value>, keys: seq<string>, before: seq<Value>, after: seq<Value>, key: string)
    requires before == TruthyValues(config, keys)
    requires var v := Lookup(config, key); after == before + (if Truthy(v) then [v] else [])
    ensures after == TruthyValues(config, keys + [key])
  {
    assert (keys + [key])[..|keys|] == keys;
  }

  /** One more key adds its value when that value is truthy. */
  lemma TruthyValuesStep(config: map<string, Value>, keys: seq<string>, n: nat)
    requires n < |keys|
    ensures TruthyValues(config, keys[..n + 1]) ==
      TruthyValues(config, keys[..n]) + (if Truthy(Lookup(config, keys[n])) then [Lookup(config, keys[n])] else [])
  {
    assert keys[..n + 1][..n] == keys[..n];
  }

  lemma {:induction false} TruthyValuesAreTruthy(config: map<string, Value>, keys: seq<string>)
    ensures forall i :: 0 <= i < |TruthyValues(config, keys)| ==> Truthy(TruthyValues(config, keys)[i])
    ensures |TruthyValues(config, keys)| <= |keys|
  {
    if keys != [] {
      TruthyValuesAreTruthy(config, keys[..|keys| - 1]);
    }
  }

  /** Keys other than the six item keys and `accessories` never reach the
      selected items (`'paints'`, `'wraps'` and `'bodykits'` among them). */
  lemma {:induction false} OtherKeysIgnored(config: map<string, Value>, keys: seq<string>, k: string, v: Value)
    requires k !in keys
    ensures TruthyValues(config[k := v], keys) == TruthyValues(config, keys)
  {
    if keys != [] {
      OtherKeysIgnored(config, keys[..|keys| - 1], k, v);
    }
  }

  lemma SelectedItemsIgnoreOtherKeys(config: map<string, Value>, k: string, v: Value)
    requires k !in ItemKeys && k != "accessories"
    ensures SelectedItems(config[k := v]) == SelectedItems(config)
  {
    OtherKeysIgnored(config, ItemKeys, k, v);
    assert Lookup(config[k := v], "accessories") == Lookup(config, "accessories");
  }

  /** The initial (and reset) configuration selects nothing and totals 0. */
  lemma DefaultSelectsNothing()
    ensures SelectedItems(DefaultConfiguration()) == Some([])
    ensures Total([]) == Ok(0.0)
  {
    var c := DefaultConfiguration();
    assert ItemKeys[..0] == [];
    TruthyValuesStep(c, ItemKeys, 0);
    TruthyValuesStep(c, ItemKeys, 1);
    TruthyValuesStep(c, ItemKeys, 2);
    TruthyValuesStep(c, ItemKeys, 3);
    TruthyValuesStep(c, ItemKeys, 4);
    TruthyValuesStep(c, ItemKeys, 5);
    assert ItemKeys[..6] == ItemKeys;
  }

  /** After `addAccessory(a)` the selected items are the old ones with `a` at
      the end. */
  lemma AddAccessoryAppends(config: map<string, Value>, a: Value)
    requires Spread(Lookup(config, "accessories")).Some?
    ensures var acc := Spread(Lookup(config, "accessories")).value;
      SelectedItems(config["accessories" := Arr(acc + [a])]) == Some(SelectedItems(config).value + [a])
  {
    var acc := Spread(Lookup(config, "accessories")).value;
    OtherKeysIgnored(config, ItemKeys, "accessories", Arr(acc + [a]));
    assert TruthyValues(config, ItemKeys) + (acc + [a]) == (TruthyValues(config, ItemKeys) + acc) + [a];
  }

  /** Removing by id succeeds exactly when no accessory is null or undefined. */
  lemma {:induction false} RemoveByIdDefined(xs: seq<Value>, id: Value)
    ensures RemoveById(xs, id).Some? <==> forall i :: 0 <= i < |xs| ==> !IsNullish(xs[i])
  {
    if xs != [] {
      var init := xs[..|xs| - 1];
      RemoveByIdDefined(init, id);
      assert forall i :: 0 <= i < |init| ==> init[i] == xs[i];
    }
  }

  /** Removing by id keeps exactly the other accessories. */
  lemma {:induction false} RemoveByIdMembers(xs: seq<Value>, id: Value, a: Value)
    requires RemoveById(xs, id).Some?
    ensures a in RemoveById(xs, id).value <==> a in xs && !StrictEquals(Field(a, "id"), id)
  {
    if xs != [] {
      var init := xs[..|xs| - 1];
      RemoveByIdMembers(init, id, a);
      assert xs == init + [xs[|xs| - 1]];
    }
  }

  /** The accessories that remain keep their order. */
  lemma {:induction false} RemoveByIdOrdered(xs: seq<Value>, id: Value)
    requires RemoveById(xs, id).Some?
    ensures IsSublist(RemoveById(xs, id).value, xs)
  {
    if xs != [] {
      var init := xs[..|xs| - 1];
      var a := xs[|xs| - 1];
      RemoveByIdOrdered(init, id);
      var kept := RemoveById(init, id).value;
      assert xs == init + [a];
      if StrictEquals(Field(a, "id"), id) {
        assert RemoveById(xs, id).value == kept + [];
        assert kept + [] == kept;
        SublistExtend(kept, init, a);
      } else {
        var r := kept + [a];
        assert r[..|r| - 1] == kept;
      }
    }
  }

  /** `removeAccessory` is idempotent. */
  lemma {:induction false} RemoveByIdIdempotent(xs: seq<Value>, id: Value)
    requires RemoveById(xs, id).Some?
    ensures RemoveById(RemoveById(xs, id).value, id) == RemoveById(xs, id)
  {
    if xs != [] {
      var init := xs[..|xs| - 1];
      var a := xs[|xs| - 1];
      RemoveByIdIdempotent(init, id);
      var kept := RemoveById(init, id).value;
      if !StrictEquals(Field(a, "id"), id) {
        var r := kept + [a];
        assert r[..|r| - 1] == kept;
      } else {
        assert RemoveById(xs, id).value == kept + [];
        assert kept + [] == kept;
      }
    }
  }

  /** Adding an accessory and removing its id is removing the id. */
  lemma AddThenRemove(xs: seq<Value>, a: Value)
    requires !IsNullish(a) && StrictEquals(Field(a, "id"), Field(a, "id"))
    ensures RemoveById(xs + [a], Field(a, "id")) == RemoveById(xs, Field(a, "id"))
  {
    assert (xs + [a])[..|xs + [a]| - 1] == xs;
    if RemoveById(xs, Field(a, "id")).Some? {
      var kept := RemoveById(xs, Field(a, "id")).value;
      assert kept + [] == kept;
    }
  }

  /** The total is additive over concatenated selections. */
  lemma {:induction false} TotalAppend(a: seq<Value>, b: seq<Value>)
    requires Total(a).Ok? && Total(b).Ok?
    ensures Total(a + b) == Ok(Total(a).value + Total(b).value)
    decreases |b|
  {
    if b == [] {
      assert a + b == a;
    } else {
      var b' := b[..|b| - 1];
      assert (a + b)[..|a + b| - 1] == a + b';
      assert (a + b)[|a + b| - 1] == b[|b| - 1];
      TotalAppend(a, b');
    }
  }
}
