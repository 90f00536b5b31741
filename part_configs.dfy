/** The configuration tables of body kits, interiors, starlight headliners
    and accessories, and their lookup helpers (src/config/partConfigs.js).
    The interior materials are objects shared between the table and every
    result of `getInteriorMaterials`, so they are modelled as a class. */
module PartConfigs {
  import opened Json
  import StorageConfig

  /** `SUPABASE_URL`, the Supabase storage base URL. */
  const SupabaseUrl: string := StorageConfig.SupabaseBaseUrl

  /** `X[productId] || null` for a table whose entries are all objects, so
      every entry found is truthy. */
  function GetConfig<T>(table: map<string, T>, productId: string): (r: Option<T>)
    ensures r.Some? <==> productId in table
    ensures r.Some? ==> r.value == table[productId]
  {
    if productId in table then Some(table[productId]) else None
  }

  /** `getPartGLBUrl(basePath)`: null for an empty path, otherwise the path
      under the Supabase base URL. */
  function PartGlbUrl(basePath: string): (r: Option<string>)
    ensures r.None? <==> basePath == ""
    ensures r.Some? ==> |r.value| == |SupabaseUrl| + |basePath|
  {
    if basePath == "" then None else Some(SupabaseUrl + basePath)
  }

  /** The URL gives back its path: the base URL is a prefix and the rest is the path. */
  lemma PartGlbUrlInverse(basePath: string)
    requires basePath != ""
    ensures var u := PartGlbUrl(basePath).value;
      u[..|SupabaseUrl|] == SupabaseUrl && u[|SupabaseUrl|..] == basePath
  {
  }

  // ---------------------------------------------------------------------------
  // Body kits
  // ---------------------------------------------------------------------------

  /** One 3D part: its model URL (null when the registry has none), placement and scale. */
  datatype Part = Part(glbPath: Option<string>, position: seq<real>, rotation: seq<real>, scale: real)

  /** A body kit; `parts` is None when the entry has no `parts` object. */
  datatype Bodykit = Bodykit(name: string, kind: string, parts: Option<seq<(string, Part)>>)

  /** `getPartUrl(category, productId)`. */
  function PartUrl(category: string, productId: string): Option<string> {
    StorageConfig.ModelUrl(StorageConfig.ModelRegistry, category, productId)
  }

  function Placed(glbPath: Option<string>, position: seq<real>): Part {
    Part(glbPath, position, [0.0, 0.0, 0.0], 1.0)
  }

  /** `bodykitConfigs`. */
  const BodykitConfigs: map<string, Bodykit> := map[
    "b001" := Bodykit("GT Wing Spoiler", "Spoiler",
      Some([("spoiler", Placed(PartUrl("bodykits", "b001"), [-1.8, 0.8, 0.0]))])),
    "b005" := Bodykit("BMW Body Shell", "Body",
      Some([("body", Placed(PartUrl("bodykits", "b005"), [0.0, 0.0, 0.0]))])),
    "b006" := Bodykit("Carbon Undertray", "Aero",
      Some([("undertray", Placed(PartUrl("bodykits", "b006"), [0.0, -0.5, 0.0]))])),
    "b007" := Bodykit("Performance Frame", "Structure",
      Some([("frame", Placed(PartUrl("bodykits", "b007"), [0.0, 0.0, 0.0]))])),
    "b008" := Bodykit("Tinted Windows", "Glass",
      Some([("window", Placed(PartUrl("bodykits", "b008"), [0.0, 0.0, 0.0]))]))]

  /** One element of `getBodykitParts`: the part's key, also used as its
      name, and the part's fields. */
  datatype PartRecord = PartRecord(key: string, name: string, glbUrl: Option<string>,
                                   position: seq<real>, rotation: seq<real>, scale: real)

  /** `getBodykitParts(productId)` over `configs`. */
  function BodykitParts(configs: map<string, Bodykit>, productId: string): (r: seq<PartRecord>)
    ensures productId !in configs || configs[productId].parts.None? ==> r == []
    ensures productId in configs && configs[productId].parts.Some? ==>
      |r| == |configs[productId].parts.value|
  {
    if productId !in configs || configs[productId].parts.None? then []
    else
      var parts := configs[productId].parts.value;
      seq(|parts|, i requires 0 <= i < |parts| =>
        PartRecord(parts[i].0, parts[i].0, parts[i].1.glbPath, parts[i].1.position,
                   parts[i].1.rotation, parts[i].1.scale))
  }

  /** The part's entry a record was made from, given back by the record. */
  function RecordPart(p: PartRecord): (string, Part) {
    (p.key, Part(p.glbUrl, p.position, p.rotation, p.scale))
  }

  /** The records list the parts in key order, each named by its key; reading
      each record back gives the entry it came from. */
  lemma BodykitPartsInOrder(configs: map<string, Bodykit>, productId: string)
    requires productId in configs && configs[productId].parts.Some?
    ensures var r := BodykitParts(configs, productId); var parts := configs[productId].parts.value;
      forall i :: 0 <= i < |r| ==> r[i].name == r[i].key && RecordPart(r[i]) == parts[i]
  {
  }

  /** There is no kit "b002": its config is null and it has no parts. */
  lemma NoKitB002()
    ensures GetConfig(BodykitConfigs, "b002").None? && BodykitParts(BodykitConfigs, "b002") == []
  {
  }

  /** The spoiler kit has one part, `spoiler`, named by its key. */
  lemma SpoilerParts()
    ensures var r := BodykitParts(BodykitConfigs, "b001");
      |r| == 1 && r[0].key == "spoiler" && r[0].name == "spoiler" && r[0].position == [-1.8, 0.8, 0.0]
  {
    var part := Placed(PartUrl("bodykits", "b001"), [-1.8, 0.8, 0.0]);
    assert BodykitConfigs["b001"].parts == Some([("spoiler", part)]);
  }

  // ---------------------------------------------------------------------------
  // Interiors
  // ---------------------------------------------------------------------------

  /** A material object `{ color, metalness, roughness }`, shared by reference. */
  class Material {
    var color: string
    var metalness: real
    var roughness: real

    constructor (color: string, metalness: real, roughness: real)
      ensures this.color == color && this.metalness == metalness && this.roughness == roughness
    {
      this.color := color;
      this.metalness := metalness;
      this.roughness := roughness;
    }
  }

  /** An interior entry: `materials` is None for an entry without it (the
      ambient lighting kit), `colorOptions` None for one without options. */
  datatype Interior = Interior(name: string, kind: string, materials: Option<map<string, Material>>,
                               colorOptions: Option<map<string, string>>)

  /** The material objects of an interior. */
  function MaterialsOf(i: Interior): set<Material> {
    if i.materials.None? then {} else set k | k in i.materials.value :: i.materials.value[k]
  }

  /** `{ ...config.materials }`: a new object holding the same material objects. */
  function Copy(i: Interior): map<string, Material> {
    if i.materials.None? then map[] else i.materials.value
  }

  /** The colour `getInteriorMaterials` applies, if any: the selected name must
      be truthy and be a key of `colorOptions` with a truthy value. */
  function AppliedColor(i: Interior, selectedColor: string): (r: Option<string>)
    ensures r.Some? <==> (selectedColor != "" && i.colorOptions.Some? &&
      selectedColor in i.colorOptions.value && i.colorOptions.value[selectedColor] != "")
    ensures r.Some? ==> r.value == i.colorOptions.value[selectedColor]
  {
    if selectedColor != "" && i.colorOptions.Some? && selectedColor in i.colorOptions.value
       && i.colorOptions.value[selectedColor] != ""
    then Some(i.colorOptions.value[selectedColor])
    else None
  }

  /** Whether `o` is the `seats` or the `doorPanels` object of `m`, the two
      materials that are recoloured. */
  predicate Recoloured(m: map<string, Material>, o: Material) {
    ("seats" in m && m["seats"] == o) || ("doorPanels" in m && m["doorPanels"] == o)
  }

  /** `getInteriorMaterials(productId, selectedColor)`; `selectedColor` is
      empty for the default `null`. The seats and door panels are recoloured
      in place, so the table's own material objects change. */
  method GetInteriorMaterials(configs: map<string, Interior>, productId: string, selectedColor: string)
    returns (r: Option<map<string, Material>>)
    modifies if productId in configs then MaterialsOf(configs[productId]) else {}
    ensures productId !in configs ==> r.None?
    ensures productId in configs ==> r == Some(Copy(configs[productId]))
    ensures productId in configs ==> var i := configs[productId]; var m := Copy(i);
      forall k :: k in m ==>
        m[k].color == (if AppliedColor(i, selectedColor).Some? && Recoloured(m, m[k])
                       then AppliedColor(i, selectedColor).value
                       else old(m[k].color))
    ensures productId in configs ==> var m := Copy(configs[productId]);
      forall k :: k in m ==> m[k].metalness == old(m[k].metalness) && m[k].roughness == old(m[k].roughness)
  {
    if productId !in configs {
      return None;
    }
    var config := configs[productId];
    var materials := Copy(config);
    var hex := AppliedColor(config, selectedColor);
    if hex.Some? {
      if "seats" in materials {
        materials["seats"].color := hex.value;
      }
      if "doorPanels" in materials {
        materials["doorPanels"].color := hex.value;
      }
    }
    return Some(materials);
  }

  /** `interiorConfigs`, built fresh. */
  method InteriorConfigs() returns (configs: map<string, Interior>)
    ensures configs.Keys == {"i001", "i002", "i003", "i004", "i005", "i006"}
    ensures configs["i001"].materials.Some? && "seats" in configs["i001"].materials.value &&
      configs["i001"].materials.value["seats"].color == "#8B4513"
    ensures configs["i001"].colorOptions == Some(map["Tan" := "#D2691E", "Black" := "#1A1A1A",
      "Red" := "#8B0000", "White" := "#F5F5DC"])
    ensures configs["i005"].materials.None?
    ensures fresh(MaterialsOf(configs["i001"]))
  {
    var seats1 := new Material("#8B4513", 0.1, 0.8);
    var dash1 := new Material("#2C1810", 0.05, 0.9);
    var doors1 := new Material("#8B4513", 0.1, 0.8);
    var wheel1 := new Material("#1A0F0A", 0.1, 0.7);
    var seats2 := new Material("#1A1A1A", 0.0, 0.95);
    var dash2 := new Material("#0D0D0D", 0.0, 0.9);
    var wheel2 := new Material("#1A1A1A", 0.0, 0.95);
    var dashTrim := new Material("#1A1A1A", 0.3, 0.4);
    var doorTrim := new Material("#1A1A1A", 0.3, 0.4);
    var consoleTrim := new Material("#1A1A1A", 0.3, 0.4);
    var wheel4 := new Material("#1A1A1A", 0.2, 0.6);
    var carpet := new Material("#1A1A1A", 0.0, 0.95);
    configs := map[
      "i001" := Interior("Full Leather Retrim", "Complete",
        Some(map["seats" := seats1, "dashboard" := dash1, "doorPanels" := doors1, "steeringWheel" := wheel1]),
        Some(map["Tan" := "#D2691E", "Black" := "#1A1A1A", "Red" := "#8B0000", "White" := "#F5F5DC"])),
      "i002" := Interior("Alcantara Sport Package", "Sport",
        Some(map["seats" := seats2, "dashboard" := dash2, "steeringWheel" := wheel2]),
        Some(map["Black" := "#1A1A1A", "Grey" := "#4A4A4A"])),
      "i003" := Interior("Carbon Fiber Trim Set", "Trim",
        Some(map["dashTrim" := dashTrim, "doorTrim" := doorTrim, "consoleTrim" := consoleTrim]), None),
      "i004" := Interior("Custom Steering Wheel", "Steering", Some(map["steeringWheel" := wheel4]), None),
      "i005" := Interior("Ambient Lighting Kit", "Lighting", None,
        Some(map["Gold" := "#C4A661", "Blue" := "#4169E1", "Red" := "#DC143C", "White" := "#FFFFFF",
                 "Green" := "#32CD32", "Purple" := "#9400D3"])),
      "i006" := Interior("Custom Floor Mats", "Accessories", Some(map["carpet" := carpet]), None)];
  }

  /** The copy is shallow, so a recolour is kept by the table: after "Red"
      is chosen for the leather retrim, a later call without a colour returns
      seats in "#8B0000" rather than the table's first "#8B4513". */
  method RecolourPersists() returns (before: string, after: string)
    ensures before == "#8B4513" && after == "#8B0000"
  {
    var configs := InteriorConfigs();
    before := configs["i001"].materials.value["seats"].color;
    var first := GetInteriorMaterials(configs, "i001", "Red");
    var second := GetInteriorMaterials(configs, "i001", "");
    after := second.value["seats"].color;
  }
}
