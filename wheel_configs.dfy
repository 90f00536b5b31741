/** The rim and tyre catalogues (src/config/wheelConfigs.js): each entry
    carries its display data and the URL of its 3D model, looked up in the
    model registry; the getters look an id up, and the listings turn the
    catalogue, in declaration order, into records that also carry the id. */
module WheelConfigs {
  import opened Json
  import StorageConfig

  datatype Specs = Specs(diameter: nat, width: real, spokes: nat, finish: string)

  /** One rim: `name`, `glbPath` (null when the registry has no model),
      `fallbackColor`, `scale`, `brand`, `style` and `specs`. */
  datatype Wheel = Wheel(name: string, glbPath: Option<string>, fallbackColor: string, scale: real,
                         brand: string, style: string, specs: Specs)

  /** One tyre: `name`, `glbPath`, `brand`, `type` and `sizes`. */
  datatype Tire = Tire(name: string, glbPath: Option<string>, brand: string, kind: string, sizes: seq<string>)

  type Registry = map<string, StorageConfig.Category>

  /** `getWheelModelUrl(id)`: the registry URL under `wheels`. The catalogues
      are built over a registry given as a parameter; the shipped ones are
      built over `StorageConfig.ModelRegistry`. */
  function WheelModelUrl(registry: Registry, id: string): Option<string> {
    StorageConfig.ModelUrl(registry, "wheels", id)
  }

  /** `getTireModelUrl(id)`: the registry URL under `tires`. */
  function TireModelUrl(registry: Registry, id: string): Option<string> {
    StorageConfig.ModelUrl(registry, "tires", id)
  }

  /** The fields of one rim entry other than its model path. */
  datatype RimData = RimData(id: string, name: string, fallbackColor: string, brand: string, style: string,
                             diameter: nat, width: real, spokes: nat, finish: string)

  /** A catalogue entry `'id': { ..., glbPath: getWheelModelUrl('id') }`. */
  function Rim(registry: Registry, d: RimData): (e: (string, Wheel))
    ensures e.0 == d.id && e.1.glbPath == WheelModelUrl(registry, d.id) && e.1.scale == 1.0
  {
    (d.id, Wheel(d.name, WheelModelUrl(registry, d.id), d.fallbackColor, 1.0, d.brand, d.style,
                 Specs(d.diameter, d.width, d.spokes, d.finish)))
  }

  /** A catalogue entry `'id': { ..., glbPath: getTireModelUrl('id') }`. */
  function Tyre(registry: Registry, id: string, name: string, brand: string, kind: string, sizes: seq<string>): (e: (string, Tire))
    ensures e.0 == id && e.1.glbPath == TireModelUrl(registry, id)
  {
    (id, Tire(name, TireModelUrl(registry, id), brand, kind, sizes))
  }

  /** The rims of `wheelConfigs`, in declaration order. */
  const RimRows: seq<RimData> := [
    RimData("r001", "Method 305 NV", "#1a1a1a", "Method", "Off-Road", 17, 8.5, 6, "Matte Black"),
    RimData("r002", "Method 312", "#2a2a2a", "Method", "Racing", 18, 9.0, 8, "Matte Black"),
    RimData("r003", "XD Grenade", "#1a1a1a", "XD Wheels", "Aggressive", 20, 9.0, 8, "Gloss Black"),
    RimData("r004", "XD Machete", "#1a1a1a", "XD Wheels", "Split-Spoke", 20, 10.0, 10, "Satin Black"),
    RimData("r005", "KMC Terra", "#3a3a3a", "KMC", "Beadlock", 17, 9.0, 6, "Satin Bronze"),
    RimData("r006", "Fuel Syndicate", "#1a1a1a", "Fuel", "Mesh", 20, 10.0, 12, "Gloss Black Milled"),
    RimData("r007", "BMW M Performance Style 1", "#C0C0C0", "BMW", "Sport", 19, 8.5, 5, "Machined Silver"),
    RimData("r008", "BMW M Performance Style 2", "#1a1a1a", "BMW", "Competition", 20, 9.0, 10, "Jet Black"),
    RimData("r009", "BMW M Performance Style 3", "#8B7355", "BMW", "Luxury", 20, 9.5, 7, "Frozen Bronze"),
    RimData("r010", "Konig Countersteer", "#D4AF37", "Konig", "Classic", 15, 8.0, 5, "Bronze"),
    RimData("r011", "American Racing Mojave", "#C0C0C0", "American Racing", "Classic", 16, 8.0, 5, "Polished"),
    RimData("r012", "Cragar Soft 8", "#1a1a1a", "Cragar", "Retro", 15, 7.0, 8, "Black Steel"),
    RimData("r013", "Dirty Life Mesa Race", "#1a1a1a", "Dirty Life", "Beadlock Race", 17, 9.0, 6, "Matte Black"),
    RimData("r014", "Level 8 Strike 6", "#2a2a2a", "Level 8", "Tactical", 17, 8.0, 6, "Matte Gunmetal"),
    RimData("r015", "Moto Metal MO951", "#E8E8E8", "Moto Metal", "Chrome", 20, 9.0, 8, "Chrome"),
    RimData("r016", "Toyota TRD Pro", "#1a1a1a", "Toyota", "OEM TRD", 17, 7.5, 6, "Matte Black"),
    RimData("r017", "Toyota 4Runner OEM", "#4a4a4a", "Toyota", "OEM", 17, 7.0, 5, "Charcoal"),
    RimData("r018", "Ford Bronco OEM", "#3a3a3a", "Ford", "OEM", 17, 8.0, 5, "Carbonized Gray"),
    RimData("r019", "BMW Performance Wheel", "#1a1a1a", "BMW", "Performance", 19, 8.5, 5, "Matte Black")]

  /** `wheelConfigs`, in declaration order. */
  function WheelCatalogue(registry: Registry): seq<(string, Wheel)> {
    seq(|RimRows|, i requires 0 <= i < |RimRows| => Rim(registry, RimRows[i]))
  }

  /** `tireConfigs`, in declaration order; the last entry borrows the model
      of rim `r019`. */
  function TireCatalogue(registry: Registry): seq<(string, Tire)> {
    [
    Tyre(registry, "t001", "BFGoodrich All-Terrain T/A KO2", "BFGoodrich", "All-Terrain", ["265/70R17", "285/70R17", "315/70R17"]),
    Tyre(registry, "t002", "BFGoodrich Mud-Terrain T/A KM2", "BFGoodrich", "Mud-Terrain", ["285/75R16", "305/70R16", "35x12.5R17"]),
    Tyre(registry, "t003", "BFGoodrich Mud-Terrain T/A KM3", "BFGoodrich", "Mud-Terrain", ["285/70R17", "315/70R17", "37x12.5R17"]),
    Tyre(registry, "t004", "Maxxis Trepador", "Maxxis", "Extreme Off-Road", ["37x12.5R17", "40x13.5R17", "42x14.5R17"]),
    Tyre(registry, "t005", "Nitto Mud Grappler", "Nitto", "Mud-Terrain", ["33x12.5R17", "35x12.5R17", "38x15.5R17"]),
    Tyre(registry, "t006", "Interco Thornbird", "Interco", "Extreme Mud", ["35x14.5R15", "38x15.5R15", "44x19.5R15"]),
    Tyre(registry, "t007", "Toyo Open Country M/T", "Toyo", "Mud-Terrain", ["285/75R16", "315/75R16", "35x12.5R17"]),
    BorrowedTyre(registry)]
  }

  /** `'t008'`, whose `glbPath` is `getWheelModelUrl('r019')`. */
  function BorrowedTyre(registry: Registry): (string, Tire) {
    ("t008", Tire("BMW Performance Tire", WheelModelUrl(registry, "r019"), "Michelin", "Performance",
                  ["245/40R19", "275/35R19", "285/30R20"]))
  }

  predicate DistinctKeys<T>(table: seq<(string, T)>) {
    forall i, j :: 0 <= i < j < |table| ==> table[i].0 != table[j].0
  }

  /** `table[productId] || null`: the first entry under the id; every entry is
      an object, so none is falsy. */
  function Get<T(==)>(table: seq<(string, T)>, productId: string): (r: Option<T>)
    ensures r.None? <==> forall j :: 0 <= j < |table| ==> table[j].0 != productId
    ensures r.Some? ==> exists j :: (0 <= j < |table| && table[j] == (productId, r.value) &&
      forall i :: 0 <= i < j ==> table[i].0 != productId)
  {
    if table == [] then None
    else if table[0].0 == productId then Some(table[0].1)
    else
      var r := Get(table[1..], productId);
      if r.Some? then
        var j :| 0 <= j < |table[1..]| && table[1..][j] == (productId, r.value) &&
          forall i :: 0 <= i < j ==> table[1..][i].0 != productId;
        assert table[j + 1] == (productId, r.value);
        assert forall i :: 0 < i < j + 1 ==> table[i] == table[1..][i - 1];
        r
      else
        assert forall k :: 0 < k < |table| ==> table[k] == table[1..][k - 1];
        r
  }

  /** `getWheelConfig(productId)`. */
  function WheelConfig(productId: string): (r: Option<Wheel>)
    ensures r.Some? ==> (productId, r.value) in WheelCatalogue(StorageConfig.ModelRegistry)
    ensures r.None? <==> forall j :: 0 <= j < |WheelCatalogue(StorageConfig.ModelRegistry)| ==>
      WheelCatalogue(StorageConfig.ModelRegistry)[j].0 != productId
  {
    Get(WheelCatalogue(StorageConfig.ModelRegistry), productId)
  }

  /** `getTireConfig(productId)`. */
  function TireConfig(productId: string): (r: Option<Tire>)
    ensures r.Some? ==> (productId, r.value) in TireCatalogue(StorageConfig.ModelRegistry)
    ensures r.None? <==> forall j :: 0 <= j < |TireCatalogue(StorageConfig.ModelRegistry)| ==>
      TireCatalogue(StorageConfig.ModelRegistry)[j].0 != productId
  {
    Get(TireCatalogue(StorageConfig.ModelRegistry), productId)
  }

  /** `config?.glbPath || null`: null for an unknown id, a null path or an
      empty one. */
  function PathOr(config: Option<Option<string>>): (r: Option<string>)
    ensures r.Some? <==> config.Some? && config.value.Some? && config.value.value != ""
    ensures r.Some? ==> r == config.value
  {
    if config.Some? && config.value.Some? && config.value.value != "" then config.value else None
  }

  /** `getWheelGLBPath(productId)` over `table`. */
  function WheelGlbPath(table: seq<(string, Wheel)>, productId: string): (r: Option<string>)
    ensures r.Some? <==>
      Get(table, productId).Some? && Get(table, productId).value.glbPath.Some? &&
      Get(table, productId).value.glbPath.value != ""
    ensures r.Some? ==> r == Get(table, productId).value.glbPath
  {
    PathOr(match Get(table, productId) case None => None case Some(w) => Some(w.glbPath))
  }

  /** `getTireGLBPath(productId)` over `table`. */
  function TireGlbPath(table: seq<(string, Tire)>, productId: string): (r: Option<string>)
    ensures r.Some? <==>
      Get(table, productId).Some? && Get(table, productId).value.glbPath.Some? &&
      Get(table, productId).value.glbPath.value != ""
    ensures r.Some? ==> r == Get(table, productId).value.glbPath
  {
    PathOr(match Get(table, productId) case None => None case Some(t) => Some(t.glbPath))
  }

  /** `{ id, ...config }` for a rim. */
  datatype WheelOption = WheelOption(id: string, name: string, glbPath: Option<string>, fallbackColor: string,
                                     scale: real, brand: string, style: string, specs: Specs)

  /** `{ id, ...config }` for a tyre. */
  datatype TireOption = TireOption(id: string, name: string, glbPath: Option<string>, brand: string,
                                   kind: string, sizes: seq<string>)

  function WithWheelId(id: string, w: Wheel): WheelOption {
    WheelOption(id, w.name, w.glbPath, w.fallbackColor, w.scale, w.brand, w.style, w.specs)
  }

  function WithTireId(id: string, t: Tire): TireOption {
    TireOption(id, t.name, t.glbPath, t.brand, t.kind, t.sizes)
  }

  /** The rim again, without its id. */
  function WheelOf(o: WheelOption): Wheel {
    Wheel(o.name, o.glbPath, o.fallbackColor, o.scale, o.brand, o.style, o.specs)
  }

  /** The tyre again, without its id. */
  function TireOf(o: TireOption): Tire {
    Tire(o.name, o.glbPath, o.brand, o.kind, o.sizes)
  }

  /** `getAllWheelOptions()` over `table`: `Object.entries(...).map(...)`. */
  function AllWheelOptions(table: seq<(string, Wheel)>): (r: seq<WheelOption>)
    ensures |r| == |table|
  {
    seq(|table|, i requires 0 <= i < |table| => WithWheelId(table[i].0, table[i].1))
  }

  /** `getAllTireOptions()` over `table`. */
  function AllTireOptions(table: seq<(string, Tire)>): (r: seq<TireOption>)
    ensures |r| == |table|
  {
    seq(|table|, i requires 0 <= i < |table| => WithTireId(table[i].0, table[i].1))
  }

  /** The listing has one record per entry, in order: its id is the entry's
      key, and without the id it is the entry itself; with distinct keys,
      looking the id up gives that entry back. */
  lemma AllWheelOptionsSpec(table: seq<(string, Wheel)>)
    ensures forall i :: 0 <= i < |table| ==>
      AllWheelOptions(table)[i].id == table[i].0 && WheelOf(AllWheelOptions(table)[i]) == table[i].1
    ensures DistinctKeys(table) ==> forall i :: 0 <= i < |table| ==>
      Get(table, AllWheelOptions(table)[i].id) == Some(WheelOf(AllWheelOptions(table)[i]))
  {
    if DistinctKeys(table) {
      forall i | 0 <= i < |table|
        ensures Get(table, table[i].0) == Some(table[i].1)
      {
        DistinctGet(table, i);
      }
    }
  }

  /** The same for the tyre listing. */
  lemma AllTireOptionsSpec(table: seq<(string, Tire)>)
    ensures forall i :: 0 <= i < |table| ==>
      AllTireOptions(table)[i].id == table[i].0 && TireOf(AllTireOptions(table)[i]) == table[i].1
    ensures DistinctKeys(table) ==> forall i :: 0 <= i < |table| ==>
      Get(table, AllTireOptions(table)[i].id) == Some(TireOf(AllTireOptions(table)[i]))
  {
    if DistinctKeys(table) {
      forall i | 0 <= i < |table|
        ensures Get(table, table[i].0) == Some(table[i].1)
      {
        DistinctGet(table, i);
      }
    }
  }

  /** With distinct keys, every entry is what its key looks up. */
  lemma DistinctGet<T>(table: seq<(string, T)>, i: nat)
    requires DistinctKeys(table) && i < |table|
    ensures Get(table, table[i].0) == Some(table[i].1)
  {
    var r := Get(table, table[i].0);
    var j :| 0 <= j < |table| && table[j] == (table[i].0, r.value) &&
      forall k :: 0 <= k < j ==> table[k].0 != table[i].0;
    assert j == i;
  }

  /** Every registry URL is a non-empty text, so `|| null` only turns a
      null path into null. */
  lemma ModelUrlNonEmpty(registry: Registry, category: string, id: string)
    ensures var u := StorageConfig.ModelUrl(registry, category, id); u.Some? ==> u.value != ""
  {
    var u := StorageConfig.ModelUrl(registry, category, id);
    if u.Some? {
      StorageConfig.ModelUrlCases(registry, category, id);
      assert |u.value| >= |StorageConfig.LocalBaseUrl|;
    }
  }

  /** Each rim's path is the `wheels` registry URL of its own id, and
      `getWheelGLBPath` returns it unchanged. */
  lemma WheelPathsFromRegistry(registry: Registry, productId: string)
    ensures forall i :: 0 <= i < |WheelCatalogue(registry)| ==>
      WheelCatalogue(registry)[i].1.glbPath == WheelModelUrl(registry, WheelCatalogue(registry)[i].0)
    ensures Get(WheelCatalogue(registry), productId).Some? ==>
      WheelGlbPath(WheelCatalogue(registry), productId) == WheelModelUrl(registry, productId)
  {
    RimPaths(registry, WheelCatalogue(registry));
    PathOfOwnId(registry, WheelCatalogue(registry), productId);
  }

  lemma RimPaths(registry: Registry, table: seq<(string, Wheel)>)
    requires table == WheelCatalogue(registry)
    ensures forall i :: 0 <= i < |table| ==> table[i].1.glbPath == WheelModelUrl(registry, table[i].0)
  {
  }

  /** In a rim table whose paths are the registry URLs of their ids, the
      getter returns the URL of the id looked up. */
  lemma PathOfOwnId(registry: Registry, table: seq<(string, Wheel)>, productId: string)
    requires forall i :: 0 <= i < |table| ==> table[i].1.glbPath == WheelModelUrl(registry, table[i].0)
    ensures Get(table, productId).Some? ==> WheelGlbPath(table, productId) == WheelModelUrl(registry, productId)
  {
    if Get(table, productId).Some? {
      var w := Get(table, productId).value;
      var j :| 0 <= j < |table| && table[j] == (productId, w);
      ModelUrlNonEmpty(registry, "wheels", productId);
    }
  }

  /** Every tyre but the last has the `tires` registry URL of its own id; the
      last is `t008`, with the `wheels` URL of `r019`. */
  lemma TirePathsFromRegistry(registry: Registry)
    ensures |TireCatalogue(registry)| == 8
    ensures forall i :: 0 <= i < 7 ==>
      TireCatalogue(registry)[i].1.glbPath == TireModelUrl(registry, TireCatalogue(registry)[i].0)
    ensures TireCatalogue(registry)[7] == BorrowedTyre(registry)
  {
  }

  /** `getTireGLBPath('t008')` is the model of rim `r019`. */
  lemma BorrowedTyrePath(registry: Registry)
    ensures Get(TireCatalogue(registry), "t008") == Some(BorrowedTyre(registry).1)
    ensures TireGlbPath(TireCatalogue(registry), "t008") == WheelModelUrl(registry, "r019")
  {
    var table := TireCatalogue(registry);
    assert table[7] == BorrowedTyre(registry);
    assert DistinctKeys(table);
    DistinctGet(table, 7);
    ModelUrlNonEmpty(registry, "wheels", "r019");
  }

  /** The shipped registry has no `tires` entry for `t008`. */
  lemma NoTyreModelT008()
    ensures TireModelUrl(StorageConfig.ModelRegistry, "t008").None?
  {
    assert StorageConfig.ModelRegistry["tires"] == StorageConfig.Tires;
    assert "t008" !in StorageConfig.Tires;
  }
}
