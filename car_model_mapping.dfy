/** The lookup from a vehicle's make and model to the 3D model file the viewer
    loads (src/utils/carModelMapping.js, with the public URL built by
    src/utils/supabaseClient.js). */
module CarModelMapping {
  import opened Json
  import opened Text

  /** `modelFiles`, in declaration order: lookup key, then GLB file name,
      grouped by make as the table is. */
  const ModelFiles: seq<(string, string)> :=
    BmwFiles + (PorscheFiles + (MercedesFiles + (FerrariFiles + (LamborghiniFiles + (AudiFiles + OtherFiles)))))

  const BmwFiles: seq<(string, string)> := [
    ("bmw-m3", "bmw_m3_sedan_topaz_blue_car.glb"),
    ("bmw-m4", "2021_bmw_m4_competition.glb"),
    ("bmw-m4-competition", "2021_bmw_m4_competition.glb"),
    ("bmw-i8", "bmw_i8_xs_2015__www.vecarz.com.glb"),
    ("bmw-328i", "bmw_m3_sedan_topaz_blue_car.glb")]

  const PorscheFiles: seq<(string, string)> := [
    ("porsche-911", "2014_porsche_cayman_s_981.glb"),
    ("porsche-911-carrera", "2014_porsche_cayman_s_981.glb"),
    ("porsche-718-cayman", "2014_porsche_cayman_s_981.glb"),
    ("porsche-cayman", "2014_porsche_cayman_s_981.glb"),
    ("porsche-panamera", "2021_porsche_panamera_turbo_s_sport_turismo.glb"),
    ("porsche-panamera-turbo-s-sport-turismo", "2021_porsche_panamera_turbo_s_sport_turismo.glb"),
    ("porsche-taycan", "porsche_taycan_turbo_s_project_cars_3.glb"),
    ("porsche-taycan-turbo-s", "porsche_taycan_turbo_s_project_cars_3.glb"),
    ("porsche-cayenne", "2021_porsche_panamera_turbo_s_sport_turismo.glb")]

  const MercedesFiles: seq<(string, string)> := [
    ("mercedes-benz-c63-amg", "low_poly_mercedes.glb"),
    ("mercedes-benz-amg-gt", "low_poly_mercedes.glb"),
    ("mercedes-benz-e-class", "low_poly_mercedes.glb"),
    ("mercedes-benz-gle-450", "low_poly_mercedes.glb")]

  const FerrariFiles: seq<(string, string)> := [
    ("ferrari-488-gtb", "2016_ferrari_488_gtb.glb"),
    ("ferrari-f8-tributo", "2020_ferrari_f8_tributo.glb"),
    ("ferrari-roma", "2020_ferrari_f8_tributo.glb")]

  const LamborghiniFiles: seq<(string, string)> := [
    ("lamborghini-huracan", "2019_lamborghini_huracan_gt_lbsilhouette.glb"),
    ("lamborghini-hurac\U{00E1}n", "2019_lamborghini_huracan_gt_lbsilhouette.glb"),
    ("lamborghini-aventador", "2020_lamborghini_aventador_svj_63_roadster.glb"),
    ("lamborghini-urus", "2020_lamborghini_aventador_svj_63_roadster.glb")]

  const AudiFiles: seq<(string, string)> := [
    ("audi-r8", "audi_r8.glb"),
    ("audi-rs6-avant", "audi_r8.glb"),
    ("audi-rs7", "audi_r8.glb"),
    ("audi-a6", "audi_r8.glb")]

  const OtherFiles: seq<(string, string)> := [
    ("mclaren-720s", "2017_mclaren_720s.glb"),
    ("aston-martin-vantage", "aston_martin_vantage_roadster__www.vecarz.com.glb"),
    ("chevrolet-corvette", "2020_chevrolet_corvette_c8_stingray_convertible.glb"),
    ("chevrolet-corvette-c8", "2020_chevrolet_corvette_c8_stingray_convertible.glb"),
    ("chevrolet-camaro", "2016_chevrolet_camaro_ss.glb"),
    ("chevrolet-camaro-ss", "2016_chevrolet_camaro_ss.glb"),
    ("toyota-supra", "toyota_supra_mk5_a90.glb"),
    ("toyota-land-cruiser", "2022_toyota_land_cruiser_300_vx.r.glb"),
    ("nissan-gt-r", "nissan_aimgain_gt_r35_type2.glb"),
    ("nissan-370z", "nissan_370z_z34.glb"),
    ("ford-mustang", "ford_mustang_gt_convertible_1968.glb"),
    ("ford-f-150", "2018_ford_f-150_raptor.glb"),
    ("ford-f-150-raptor", "2018_ford_f-150_raptor.glb"),
    ("dodge-challenger", "2018_dodge_challenger_srt_hellcat.glb"),
    ("dodge-challenger-srt", "2018_dodge_challenger_srt_hellcat.glb"),
    ("honda-civic", "custom_honda_civic_type-r_2024.glb"),
    ("honda-civic-type-r", "custom_honda_civic_type-r_2024.glb"),
    ("honda-nsx", "honda_nsx_1990.glb"),
    ("hyundai-veloster", "2021_hyundai_veloster_n.glb"),
    ("hyundai-elantra", "2022_hyundai_elantra_n.glb"),
    ("hyundai-tucson", "2015_hyundai_tucson.glb"),
    ("hyundai-sonata", "hyundai_sonata_2009.glb"),
    ("hyundai-creta", "2015_hyundai_tucson.glb"),
    ("mazda-rx-7", "mazda_rx-7_car.glb"),
    ("subaru-impreza", "subaru_impreza_wrx.glb"),
    ("subaru-wrx", "subaru_impreza_wrx.glb"),
    ("maserati-granturismo", "maserati_granturismo_mc_stradale.glb"),
    ("volkswagen-golf", "volkswagen_golf_ii.glb"),
    ("land-rover-range-rover", "2022_toyota_land_cruiser_300_vx.r.glb"),
    ("land-rover-range-rover-sport", "2022_toyota_land_cruiser_300_vx.r.glb")]

  /** The bucket's address when no `VITE_SUPABASE_URL` is configured. */
  const SupabaseUrlFallback: string := "https://xoyyudojecpytvyisjqv.supabase.co"

  /** `modelFiles[key]`: the file under `key`, from the first entry holding it.
      Every lookup key contains '-', and no inherited property name of a plain
      object does, so only the table's own entries can be found. */
  function Lookup(files: seq<(string, string)>, key: string): (r: Option<string>)
    ensures r.Some? ==> (key, r.value) in files
  {
    if files == [] then None
    else if files[0].0 == key then Some(files[0].1)
    else Lookup(files[1..], key)
  }

  /** The lookup finds a file exactly when some entry has the key, and what it
      finds is the file of the first such entry. */
  lemma {:induction false} LookupSpec(files: seq<(string, string)>, key: string)
    ensures Lookup(files, key).Some? <==> exists j :: 0 <= j < |files| && files[j].0 == key
    ensures Lookup(files, key).Some? ==> exists j :: (0 <= j < |files| && files[j] == (key, Lookup(files, key).value) &&
      forall i :: 0 <= i < j ==> files[i].0 != key)
  {
    if files != [] && files[0].0 != key {
      LookupSpec(files[1..], key);
      if Lookup(files, key).Some? {
        var j :| 0 <= j < |files[1..]| && files[1..][j] == (key, Lookup(files, key).value) &&
          forall i :: 0 <= i < j ==> files[1..][i].0 != key;
        assert files[j + 1] == (key, Lookup(files, key).value);
        forall i | 0 <= i < j + 1 ensures files[i].0 != key {
          if i > 0 {
            assert files[i] == files[1..][i - 1];
          }
        }
      } else {
        forall j | 0 <= j < |files| ensures files[j].0 != key {
          if j > 0 {
            assert files[j] == files[1..][j - 1];
          }
        }
      }
    }
  }

  /** `s.toLowerCase().replace(/\s+/g, '-')`. */
  function Normalise(s: string): (r: string)
    ensures NoSpace(r) && NoUpper(r)
  {
    ReplaceSpaceRunsNoSpace(ToLower(s), "-");
    ReplaceSpaceRunsNoUpper(ToLower(s), "-");
    ReplaceSpaceRuns(ToLower(s), "-")
  }

  /** The full lookup key `make-model`. */
  function FullKey(make: string, model: string): string {
    Normalise(make) + "-" + Normalise(model)
  }

  /** The key without trim levels: `make-` and the model's first '-' segment. */
  function BaseKey(make: string, model: string): string {
    Normalise(make) + "-" + Split(Normalise(model), '-')[0]
  }

  /** `getSupabaseModelUrl(fileName)`; `envUrl` is `VITE_SUPABASE_URL`, empty
      when it is not set. */
  function SupabaseModelUrl(envUrl: string, fileName: string): (r: string)
    ensures envUrl != "" ==> r == envUrl + "/storage/v1/object/public/cars/" + fileName
    ensures envUrl == "" ==> r == SupabaseUrlFallback + "/storage/v1/object/public/cars/" + fileName
  {
    var baseUrl := if envUrl != "" then envUrl else SupabaseUrlFallback;
    baseUrl + "/storage/v1/object/public/cars/" + fileName
  }

  /** What `getCarModelPath` gives: null, a URL, or a TypeError thrown by
      `toLowerCase` on a make or model that is truthy but not a string. */
  datatype ModelPath = NoModel | Path(url: string) | TypeError

  /** The file `getCarModelPath` settles on for a make and model: the full
      key first, then the base key. */
  function FileFor(files: seq<(string, string)>, make: string, model: string): Option<string> {
    match Lookup(files, FullKey(make, model))
    case Some(f) => Some(f)
    case None => Lookup(files, BaseKey(make, model))
  }

  /** `getCarModelPath(vehicle)` over the table `files` (`ModelFiles` in the
      application), with the Supabase URL tried before the local `/models/`
      path. */
  function CarModelPath(files: seq<(string, string)>, vehicle: Value, envUrl: string): (r: ModelPath)
    ensures !Truthy(vehicle) || !Truthy(Field(vehicle, "make")) || !Truthy(Field(vehicle, "model")) ==>
      r == NoModel
    ensures r == TypeError <==> (Truthy(vehicle) && Truthy(Field(vehicle, "make")) &&
      Truthy(Field(vehicle, "model")) && !(Field(vehicle, "make").Str? && Field(vehicle, "model").Str?))
    ensures r.Path? ==> (Field(vehicle, "make").Str? && Field(vehicle, "model").Str? &&
      FileFor(files, Field(vehicle, "make").s, Field(vehicle, "model").s).Some? &&
      r.url == SupabaseModelUrl(envUrl, FileFor(files, Field(vehicle, "make").s, Field(vehicle, "model").s).value))
  {
    var make := Field(vehicle, "make");
    var model := Field(vehicle, "model");
    if !Truthy(vehicle) || !Truthy(make) || !Truthy(model) then NoModel
    else if !make.Str? || !model.Str? then TypeError
    else
      match FileFor(files, make.s, model.s)
      case None => NoModel
      case Some(fileName) =>
        var supabaseUrl := SupabaseModelUrl(envUrl, fileName);
        if supabaseUrl != "" then Path(supabaseUrl) else Path("/models/" + fileName)
  }

  /** `hasCarModel(vehicle)`: None where `getCarModelPath` throws. */
  function HasCarModel(files: seq<(string, string)>, vehicle: Value, envUrl: string): (r: Option<bool>)
    ensures r.None? <==> CarModelPath(files, vehicle, envUrl).TypeError?
    ensures r == Some(true) <==> CarModelPath(files, vehicle, envUrl).Path?
  {
    match CarModelPath(files, vehicle, envUrl)
    case TypeError => None
    case NoModel => Some(false)
    case Path(_) => Some(true)
  }

  /** `getAvailableModels()`: the table's keys in declaration order. */
  function AvailableModels(files: seq<(string, string)>): (r: seq<string>)
    ensures |r| == |files|
    ensures forall i :: 0 <= i < |r| ==> r[i] == files[i].0
  {
    seq(|files|, i requires 0 <= i < |files| => files[i].0)
  }

  /** The vehicle a string make and model describe. */
  function Vehicle(make: string, model: string): Value {
    Obj(map["make" := Str(make), "model" := Str(model)])
  }

  /** For a non-empty make and model the result is null exactly when neither
      the full key nor the base key is in the table; the full key wins when it
      is there. */
  lemma NullIffNoKey(files: seq<(string, string)>, make: string, model: string, envUrl: string)
    requires make != "" && model != ""
    ensures CarModelPath(files, Vehicle(make, model), envUrl) == NoModel <==>
      (Lookup(files, FullKey(make, model)).None? && Lookup(files, BaseKey(make, model)).None?)
    ensures Lookup(files, FullKey(make, model)).Some? ==>
      CarModelPath(files, Vehicle(make, model), envUrl) ==
      Path(SupabaseModelUrl(envUrl, Lookup(files, FullKey(make, model)).value))
    ensures Lookup(files, FullKey(make, model)).None? && Lookup(files, BaseKey(make, model)).Some? ==>
      CarModelPath(files, Vehicle(make, model), envUrl) ==
      Path(SupabaseModelUrl(envUrl, Lookup(files, BaseKey(make, model)).value))
  {
    StringVehicle(files, make, model, envUrl);
  }

  /** A vehicle with a non-empty make and model gets the URL of the file found
      for them, or null. */
  lemma StringVehicle(files: seq<(string, string)>, make: string, model: string, envUrl: string)
    requires make != "" && model != ""
    ensures CarModelPath(files, Vehicle(make, model), envUrl) ==
      match FileFor(files, make, model)
      case None => NoModel
      case Some(f) => Path(SupabaseModelUrl(envUrl, f))
  {
    var v := Vehicle(make, model);
    assert Field(v, "make") == Str(make) && Field(v, "model") == Str(model);
  }

  /** The local `/models/` fallback is never taken: every URL found is the
      bucket URL, which is never empty. */
  lemma LocalFallbackUnreachable(files: seq<(string, string)>, vehicle: Value, envUrl: string)
    requires CarModelPath(files, vehicle, envUrl).Path?
    ensures var u := CarModelPath(files, vehicle, envUrl).url;
      (envUrl != "" ==> u[..|envUrl|] == envUrl) &&
      (envUrl == "" ==> u[..|SupabaseUrlFallback|] == SupabaseUrlFallback)
  {
  }

  /** `hasCarModel` is true exactly when `getCarModelPath` is not null. */
  lemma HasCarModelIffPath(files: seq<(string, string)>, make: string, model: string, envUrl: string)
    ensures HasCarModel(files, Vehicle(make, model), envUrl) == Some(CarModelPath(files, Vehicle(make, model), envUrl) != NoModel)
  {
    assert Field(Vehicle(make, model), "make") == Str(make);
    assert Field(Vehicle(make, model), "model") == Str(model);
  }

  /** A key is listed by `getAvailableModels` exactly when looking it up finds a file. */
  lemma AvailableIffFound(files: seq<(string, string)>, key: string)
    ensures key in AvailableModels(files) <==> Lookup(files, key).Some?
  {
    LookupSpec(files, key);
    if key in AvailableModels(files) {
      var i :| 0 <= i < |AvailableModels(files)| && AvailableModels(files)[i] == key;
      assert files[i].0 == key;
    }
    if Lookup(files, key).Some? {
      var j :| 0 <= j < |files| && files[j].0 == key;
      assert AvailableModels(files)[j] == key;
    }
  }

  predicate NoUpper(s: string) {
    forall i :: 0 <= i < |s| ==> !IsUpperAscii(s[i])
  }

  lemma {:induction false} ReplaceSpaceRunsNoUpper(s: string, rep: string)
    requires NoUpper(s) && NoUpper(rep)
    ensures NoUpper(ReplaceSpaceRuns(s, rep))
    decreases |s|
  {
    if s != [] {
      if IsSpace(s[0]) {
        var d := DropSpaces(s);
        assert NoUpper(d) by {
          forall i | 0 <= i < |d| ensures !IsUpperAscii(d[i]) {
            assert d[i] == s[|s| - |d| + i];
          }
        }
        ReplaceSpaceRunsNoUpper(d, rep);
      } else {
        assert NoUpper(s[1..]) by {
          forall i | 0 <= i < |s| - 1 ensures !IsUpperAscii(s[1..][i]) {
            assert s[1..][i] == s[i + 1];
          }
        }
        ReplaceSpaceRunsNoUpper(s[1..], rep);
      }
    }
  }

  /** A normalised make or model has no white space and no uppercase ASCII
      letter, so neither has the key. */
  lemma KeyNormalised(make: string, model: string)
    ensures NoSpace(FullKey(make, model)) && NoUpper(FullKey(make, model))
  {
    ReplaceSpaceRunsNoSpace(ToLower(make), "-");
    ReplaceSpaceRunsNoSpace(ToLower(model), "-");
    ReplaceSpaceRunsNoUpper(ToLower(make), "-");
    ReplaceSpaceRunsNoUpper(ToLower(model), "-");
    var a := Normalise(make);
    var b := Normalise(model);
    var k := FullKey(make, model);
    forall i | 0 <= i < |k| ensures !IsSpace(k[i]) && !IsUpperAscii(k[i]) {
      if i < |a| {
        assert k[i] == a[i];
      } else if i > |a| {
        assert k[i] == b[i - |a| - 1];
      }
    }
  }

  /** A word without spaces is only lowercased. */
  lemma NormaliseWord(w: string, lower: string)
    requires ToLower(w) == lower && NoSpace(lower)
    ensures Normalise(w) == lower
  {
    ReplaceSpaceRunsIdentity(lower, "-");
  }

  /** Two words with one space between them are joined by '-'. */
  lemma NormaliseTwoWords(w: string, a: string, b: string)
    requires ToLower(w) == a + " " + b && NoSpace(a) && NoSpace(b) && b != []
    ensures Normalise(w) == a + "-" + b
  {
    assert a + " " + b == a + (" " + b);
    ReplaceSpaceRunsPrefix(a, " " + b, "-");
    assert (" " + b)[1..] == b;
    assert !IsSpace(b[0]);
    assert DropSpaces(" " + b) == b;
    ReplaceSpaceRunsIdentity(b, "-");
  }

  /** Looking up in a concatenation looks in the first part, then the second. */
  lemma {:induction false} LookupAppend(a: seq<(string, string)>, b: seq<(string, string)>, key: string)
    ensures Lookup(a + b, key) == if Lookup(a, key).Some? then Lookup(a, key) else Lookup(b, key)
  {
    if a == [] {
      assert a + b == b;
    } else {
      assert (a + b)[1..] == a[1..] + b;
      LookupAppend(a[1..], b, key);
    }
  }

  /** The table holds the M4 Competition file under its own key. */
  lemma M4CompetitionEntry()
    ensures Lookup(ModelFiles, "bmw-m4-competition") == Some("2021_bmw_m4_competition.glb")
  {
    LookupAppend(BmwFiles, ModelFiles[|BmwFiles|..], "bmw-m4-competition");
  }

  const AfterPorsche: seq<(string, string)> :=
    MercedesFiles + (FerrariFiles + (LamborghiniFiles + (AudiFiles + OtherFiles)))

  /** The table holds the Cayman file under `porsche-911`. */
  lemma Porsche911Entry()
    ensures Lookup(ModelFiles, "porsche-911") == Some("2014_porsche_cayman_s_981.glb")
  {
    var k := "porsche-911";
    LookupAppend(BmwFiles, PorscheFiles + AfterPorsche, k);
    LookupAppend(PorscheFiles, AfterPorsche, k);
  }

  /** "BMW" "M4 Competition" is looked up under `bmw-m4-competition`. */
  lemma M4Competition(make: string, model: string)
    requires make == "BMW" && model == "M4 Competition"
    ensures FullKey(make, model) == "bmw-m4-competition"
  {
    NormaliseOne(make, "bmw");
    NormaliseTwo(model, "m4", "competition");
  }

  /** "Porsche" "911 Turbo" is looked up under `porsche-911-turbo`, then
      under the base key `porsche-911`. */
  lemma Porsche911Turbo(make: string, model: string)
    requires make == "Porsche" && model == "911 Turbo"
    ensures FullKey(make, model) == "porsche-911-turbo"
    ensures BaseKey(make, model) == "porsche-911"
  {
    NormaliseOne(make, "porsche");
    NormaliseTwo(model, "911", "turbo");
    FirstSegment("911", "turbo");
  }

  lemma NormaliseOne(w: string, lower: string)
    requires (w == "BMW" && lower == "bmw") || (w == "Porsche" && lower == "porsche")
    ensures Normalise(w) == lower
  {
    NormaliseWord(w, lower);
  }

  lemma NormaliseTwo(w: string, a: string, b: string)
    requires (w == "M4 Competition" && a == "m4" && b == "competition") ||
      (w == "911 Turbo" && a == "911" && b == "turbo")
    ensures Normalise(w) == a + "-" + b
  {
    NormaliseTwoWords(w, a, b);
  }

  /** The first '-' segment of `a-b` for a word `a` without '-'. */
  lemma FirstSegment(a: string, b: string)
    requires '-' !in a
    ensures Split(a + "-" + b, '-')[0] == a
  {
    var m := a + "-" + b;
    assert m[|a|] == '-' && m[..|a|] == a;
    SplitFirstSegment(m, '-');
  }
}
