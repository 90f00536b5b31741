/** The registry of 3D model files and the URL each one is served from
    (src/config/storageConfig.js). */
module StorageConfig {
  import opened Json

  const Local: string := "local"
  const Supabase: string := "supabase"

  /** `STORAGE_CONFIG.local.baseUrl` and `STORAGE_CONFIG.supabase.baseUrl`. */
  const LocalBaseUrl: string := "/models"
  const SupabaseBaseUrl: string := "https://xoyyudojecpytvyisjqv.supabase.co/storage/v1/object/public"

  /** One registry entry: the storage backend's name and the file's path. */
  datatype Entry = Entry(backend: string, path: string)

  /** A category of the registry: product id to entry. */
  type Category = map<string, Entry>

  /** `{ backend: STORAGE_BACKENDS.LOCAL, path }`. */
  function LocalEntry(path: string): (e: Entry)
    ensures e.backend == Local && e.path == path
  {
    Entry(Local, path)
  }

  const Wheels: Category := map[
    "r001" := LocalEntry("/wheels/rims/method_305.glb"),
    "r002" := LocalEntry("/wheels/rims/method_312.glb"),
    "r003" := LocalEntry("/wheels/rims/xd_grenade.glb"),
    "r004" := LocalEntry("/wheels/rims/xd_machete.glb"),
    "r005" := LocalEntry("/wheels/rims/kmc_terra.glb"),
    "r006" := LocalEntry("/wheels/rims/fuel_syndicate.glb"),
    "r007" := LocalEntry("/wheels/rims/rim1.glb"),
    "r008" := LocalEntry("/wheels/rims/rim2.glb"),
    "r009" := LocalEntry("/wheels/rims/rim3.glb"),
    "r010" := LocalEntry("/wheels/rims/konig_countersteer.glb"),
    "r011" := LocalEntry("/wheels/rims/ar_mojave.glb"),
    "r012" := LocalEntry("/wheels/rims/cragar_soft_8.glb"),
    "r013" := LocalEntry("/wheels/rims/dirty_life_mesa_race.glb"),
    "r014" := LocalEntry("/wheels/rims/level_8_strike_6.glb"),
    "r015" := LocalEntry("/wheels/rims/moto_metal_mo951.glb"),
    "r016" := LocalEntry("/wheels/rims/toyota_trd.glb"),
    "r017" := LocalEntry("/wheels/rims/toyota_4runner.glb"),
    "r018" := LocalEntry("/wheels/rims/ford_bronco.glb"),
    "r019" := LocalEntry("/wheels/rims/bmw_tyre.glb")]

  const Tires: Category := map[
    "t001" := LocalEntry("/wheels/tires/bfg_at.glb"),
    "t002" := LocalEntry("/wheels/tires/bfg_km2.glb"),
    "t003" := LocalEntry("/wheels/tires/bfg_km3.glb"),
    "t004" := LocalEntry("/wheels/tires/maxxis_trepador.glb"),
    "t005" := LocalEntry("/wheels/tires/mud_grappler.glb"),
    "t006" := LocalEntry("/wheels/tires/thornbird.glb"),
    "t007" := LocalEntry("/wheels/tires/toyo_open_country_mt.glb")]

  const Accessories: Category := map[
    "a001" := LocalEntry("/accessories/exhaust.glb"),
    "a001_cover" := LocalEntry("/accessories/exhaustcover.glb"),
    "a003" := LocalEntry("/accessories/calipers.glb"),
    "a003_disc" := LocalEntry("/accessories/brakedisc.glb")]

  const Bodykits: Category := map[
    "b001" := LocalEntry("/bodykits/gt_wing_spoiler.glb"),
    "b005" := LocalEntry("/bodykits/body.glb"),
    "b006" := LocalEntry("/bodykits/undertray.glb"),
    "b007" := LocalEntry("/bodykits/frame.glb"),
    "b008" := LocalEntry("/bodykits/window.glb")]

  const Cars: Category := map[
    "bmw_m4" := LocalEntry("/2021_bmw_m4_competition.glb"),
    "ferrari_488" := LocalEntry("/2016_ferrari_488_gtb.glb"),
    "lamborghini_huracan" := LocalEntry("/2019_lamborghini_huracan_gt_lbsilhouette.glb"),
    "ferrari_f8" := LocalEntry("/2020_ferrari_f8_tributo.glb"),
    "porsche_cayman" := LocalEntry("/2014_porsche_cayman_s_981.glb"),
    "porsche_panamera" := LocalEntry("/2021_porsche_panamera_turbo_s_sport_turismo.glb"),
    "audi_r8" := LocalEntry("/audi_r8.glb"),
    "audi_rs7" := LocalEntry("/audi_rs7_2014.glb"),
    "bmw_m3" := LocalEntry("/bmw_m3_sedan_topaz_blue_car.glb"),
    "mercedes_amg_gt" := LocalEntry("/mercedes_amg_gt.glb"),
    "ferrari_threejs" := LocalEntry("/cars/ferrari_threejs.glb"),
    "toycar_sample" := LocalEntry("/cars/toycar_khronos.glb")]

  /** `MODEL_REGISTRY`. */
  const ModelRegistry: map<string, Category> := map[
    "wheels" := Wheels,
    "tires" := Tires,
    "accessories" := Accessories,
    "bodykits" := Bodykits,
    "cars" := Cars]

  /** `MODEL_REGISTRY[category][productId]`, when both lookups find an own
      entry. */
  function Find(registry: map<string, Category>, category: string, productId: string): (r: Option<Entry>)
    ensures r.Some? <==> category in registry && productId in registry[category]
    ensures r.Some? ==> r.value == registry[category][productId]
  {
    if category in registry && productId in registry[category] then Some(registry[category][productId])
    else None
  }

  /** `getModelUrl(category, productId)` over `registry`: null for a missing
      entry or an unknown backend. */
  function ModelUrl(registry: map<string, Category>, category: string, productId: string): (r: Option<string>)
    ensures r.Some? ==> category in registry && productId in registry[category]
    ensures r.Some? ==>
      |r.value| > |registry[category][productId].path| &&
      r.value[|r.value| - |registry[category][productId].path|..] == registry[category][productId].path
  {
    match Find(registry, category, productId)
    case None => None
    case Some(entry) =>
      if entry.backend == Local then Some(LocalBaseUrl + entry.path)
      else if entry.backend == Supabase then Some(SupabaseBaseUrl + entry.path)
      else None
  }

  /** `isModelAvailable(category, productId)` over `registry`. */
  function IsModelAvailable(registry: map<string, Category>, category: string, productId: string): (b: bool)
    ensures b <==> category in registry && productId in registry[category]
  {
    Find(registry, category, productId).Some?
  }

  /** The three outcomes of `getModelUrl`: a LOCAL entry gives the local path,
      a SUPABASE entry the bucket URL, and a missing entry or any other backend
      null. */
  lemma ModelUrlCases(registry: map<string, Category>, category: string, productId: string)
    ensures var r := ModelUrl(registry, category, productId);
      (r.Some? <==> (category in registry && productId in registry[category] &&
        registry[category][productId].backend in {Local, Supabase})) &&
      (r.Some? && registry[category][productId].backend == Local ==>
        r.value == LocalBaseUrl + registry[category][productId].path) &&
      (r.Some? && registry[category][productId].backend == Supabase ==>
        r.value == SupabaseBaseUrl + registry[category][productId].path)
  {
  }

  /** A model with a URL is available; the converse fails only for an entry
      whose backend is neither LOCAL nor SUPABASE. */
  lemma UrlMeansAvailable(registry: map<string, Category>, category: string, productId: string)
    ensures ModelUrl(registry, category, productId).Some? ==> IsModelAvailable(registry, category, productId)
    ensures IsModelAvailable(registry, category, productId) && ModelUrl(registry, category, productId).None? <==>
      (IsModelAvailable(registry, category, productId) &&
       registry[category][productId].backend != Local && registry[category][productId].backend != Supabase)
  {
  }

  predicate AllLocal(registry: map<string, Category>) {
    forall c :: c in registry ==> LocalCategory(registry[c])
  }

  predicate LocalCategory(entries: Category) {
    forall p :: p in entries ==> entries[p].backend == Local
  }

  /** The shipped registry holds LOCAL entries only. */
  lemma ShippedRegistryIsLocal()
    ensures AllLocal(ModelRegistry)
  {
    WheelsLocal();
    TiresLocal();
    AccessoriesLocal();
    BodykitsLocal();
    CarsLocal();
  }

  lemma WheelsLocal() ensures LocalCategory(Wheels) {}
  lemma TiresLocal() ensures LocalCategory(Tires) {}
  lemma AccessoriesLocal() ensures LocalCategory(Accessories) {}
  lemma BodykitsLocal() ensures LocalCategory(Bodykits) {}
  lemma CarsLocal() ensures LocalCategory(Cars) {}

  /** With LOCAL entries only, `getModelUrl` is non-null exactly when
      `isModelAvailable` holds, and then it is `/models` followed by the path. */
  lemma LocalRegistryUrls(registry: map<string, Category>, category: string, productId: string)
    requires AllLocal(registry)
    ensures ModelUrl(registry, category, productId).Some? <==> IsModelAvailable(registry, category, productId)
    ensures IsModelAvailable(registry, category, productId) ==>
      ModelUrl(registry, category, productId) == Some(LocalBaseUrl + registry[category][productId].path)
  {
    if category in registry {
      assert LocalCategory(registry[category]);
    }
  }

  /** The exhaust is served from the public folder. */
  lemma Exhaust()
    ensures ModelUrl(ModelRegistry, "accessories", "a001") == Some(LocalBaseUrl + "/accessories/exhaust.glb")
  {
    assert ModelRegistry["accessories"] == Accessories;
    assert Accessories["a001"] == LocalEntry("/accessories/exhaust.glb");
  }
}
