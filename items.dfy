/**
  The per-entry translations of `IAConverter` (src/converters/ia_to_ce.py): one ItemsAdder item,
  category or equipment entry in, one CraftEngine entry out. The converter class in
  `converter.dfy` runs these over whole sections and stores the results.

  The converter has no error handling of its own, so a value of the wrong type makes the source
  raise and abandon the conversion. The model reads such a value as missing instead: a
  non-mapping has no keys, a non-string reads as "" and a non-list has no elements.
*/
module Items {
  import opened Wrappers
  import opened Text
  import opened Document
  import opened Placement
  import Migrator

  /** `f"{ns}:{key}"` */
  function NsId(ns: string, key: string): string {
    ns + ":" + key
  }

  lemma NsIdInjective(ns: string, a: string, b: string)
    requires NsId(ns, a) == NsId(ns, b)
    ensures a == b
  {
    var p := ns + ":";
    assert NsId(ns, a)[|p|..] == a;
    assert NsId(ns, b)[|p|..] == b;
  }

  // ---------------------------------------------------------------------------------------
  // The CraftEngine item

  datatype EquipmentSetting = EquipmentSetting(assetId: string, slot: string)

  /** `{"type": "minecraft:model", "path": p}` or `{"template": t, "arguments": args}`. */
  datatype ModelRef =
    | Direct(path: string)
    | Templated(template: string, arguments: seq<(string, string)>)

  datatype FurnitureBehavior = FurnitureBehavior(item: string, breakSound: string, placeSound: string,
                                                 lootTemplate: string, lootItem: string,
                                                 placement: map<Surface, PlacementBlock>)

  /**
    A converted item: `material`, `data.item-name`, `data.equippable.slot`,
    `settings.equipment`, `behavior` and `model`; None stands for an absent key.
  */
  datatype CeItem = CeItem(material: string, itemName: string, equippable: Option<string>,
                           equipment: Option<EquipmentSetting>, behavior: Option<FurnitureBehavior>,
                           model: Option<ModelRef>)

  /** A model file the converter registers for writing under `models/`: its key and its JSON. */
  datatype Generated = Generated(key: string, model: Value)

  const DefaultMaterial: string := "STONE"
  const BreakSound: string := "minecraft:block.stone.break"
  const PlaceSound: string := "minecraft:block.stone.place"
  const FurnitureLoot: string := "default:loot_table/furniture"

  // ---------------------------------------------------------------------------------------
  // Reading the ItemsAdder item

  function Resource(data: Value): Value {
    GetOr(data, "resource", Dict([]))
  }

  function Material(data: Value): string {
    AsText(GetOr(Resource(data), "material", Str(DefaultMaterial)))
  }

  function Behaviours(data: Value): Value {
    GetOr(data, "behaviours", Dict([]))
  }

  function DisplayName(key: string, data: Value): string {
    AsText(GetOr(data, "display_name", Str(key)))
  }

  const NameStyle: string := "<!i>"
  const EliteColour: string := "<#FFCF20>"
  const PlainColour: string := "<white>"

  /** The colour tag: gold for the `elitecreatures` namespace, white otherwise. */
  function NameColour(ns: string, data: Value): string {
    if Truthy(data) && Contains(ns, "elitecreatures") then EliteColour else PlainColour
  }

  /** `_format_display_name`: legacy `&` codes become `§`, behind a non-italic colour prefix. */
  function FormatDisplayName(ns: string, name: string, data: Value): string {
    NameStyle + NameColour(ns, data) + ReplaceChar(name, '&', '§')
  }

  /**
    A formatted name starts with `<!i>` and a colour tag, ends with the name itself, and no
    legacy `&` code survives after the prefix.
  */
  lemma DisplayNameShape(ns: string, name: string, data: Value)
    ensures var r := FormatDisplayName(ns, name, data);
      && StartsWith(r, "<!i>")
      && EndsWith(r, ReplaceChar(name, '&', '§'))
      && '&' !in r[4..]
  {
    StyledShape(NameColour(ns, data), ReplaceChar(name, '&', '§'));
  }

  lemma StyledShape(c: string, tail: string)
    requires c == EliteColour || c == PlainColour
    requires '&' !in tail
    ensures var r := NameStyle + c + tail;
      && StartsWith(r, "<!i>") && EndsWith(r, tail) && '&' !in r[4..]
  {
    var r := NameStyle + c + tail;
    assert r[..4] == NameStyle;
    assert r[|r| - |tail|..] == tail;
    assert r[4..] == c + tail;
    assert '&' !in c;
  }

  /** The four armour suffixes `_is_armor` looks for. */
  predicate HasArmorSuffix(material: string) {
    EndsWith(material, "_HELMET") || EndsWith(material, "_CHESTPLATE") ||
    EndsWith(material, "_LEGGINGS") || EndsWith(material, "_BOOTS")
  }

  /** `_is_armor(material, data)`. */
  predicate IsArmor(material: string, data: Value) {
    HasArmorSuffix(material) || Has(GetOr(data, "specific_properties", Null), "armor") || Has(data, "equipment")
  }

  /** `_is_complex_item`: the materials whose model depends on use state. */
  predicate IsComplex(material: string) {
    material == "BOW" || material == "CROSSBOW" || material == "FISHING_ROD" || material == "SHIELD"
  }

  datatype Kind = ArmorItem | FurnitureItem | ComplexItem | HatItem | GenericItem

  /** The branch `_convert_item` takes: the first match in this order. */
  function KindOf(material: string, data: Value): Kind {
    if IsArmor(material, data) then ArmorItem
    else if Truthy(GetOr(Behaviours(data), "furniture", Null)) then FurnitureItem
    else if IsComplex(material) then ComplexItem
    else if Truthy(GetOr(Behaviours(data), "hat", Null)) then HatItem
    else GenericItem
  }

  // ---------------------------------------------------------------------------------------
  // Armour

  /** `ia_data["equipment"].get("id")`, or nothing without a legacy `equipment` block. */
  function LegacyEquipmentId(data: Value): Value {
    if Has(data, "equipment") then GetOr(GetOr(data, "equipment", Null), "id", Null) else Null
  }

  /** The `specific_properties.armor` block is consulted only without a legacy id. */
  predicate ReadsArmorProps(data: Value) {
    !Truthy(LegacyEquipmentId(data)) && Has(data, "specific_properties")
  }

  function ArmorProps(data: Value): Value {
    GetOr(GetOr(data, "specific_properties", Null), "armor", Dict([]))
  }

  function EquipmentId(data: Value): Value {
    if ReadsArmorProps(data) then GetOr(ArmorProps(data), "custom_armor", Null) else LegacyEquipmentId(data)
  }

  /** The slot before the material suffix is looked at: an explicit `slot`, else `head`. */
  function ExplicitSlot(data: Value): string {
    if ReadsArmorProps(data) && Has(ArmorProps(data), "slot") then AsText(GetOr(ArmorProps(data), "slot", Null))
    else "head"
  }

  /** The material suffix decides the slot whenever it names one; it overrides `slot`. */
  function ArmorSlot(material: string, data: Value): string {
    if EndsWith(material, "_CHESTPLATE") then "chest"
    else if EndsWith(material, "_LEGGINGS") then "legs"
    else if EndsWith(material, "_BOOTS") then "feet"
    else ExplicitSlot(data)
  }

  function LeatherFor(slot: string): Option<string> {
    if slot == "head" then Some("LEATHER_HELMET")
    else if slot == "chest" then Some("LEATHER_CHESTPLATE")
    else if slot == "legs" then Some("LEATHER_LEGGINGS")
    else if slot == "feet" then Some("LEATHER_BOOTS")
    else None
  }

  /** What `_handle_armor` does to the item before the model is resolved. */
  function ArmorSettings(ns: string, item: CeItem, data: Value): CeItem {
    var id := EquipmentId(data);
    var slot := ArmorSlot(item.material, data);
    if !Truthy(id) then item
    else
      var material := if item.material == DefaultMaterial && LeatherFor(slot).Some? then LeatherFor(slot).value
                      else item.material;
      item.(material := material, equipment := Some(EquipmentSetting(NsId(ns, AsText(id)), slot)))
  }

  // ---------------------------------------------------------------------------------------
  // Generic model resolution

  /** `resource["textures"][0]` once `textures` is known to be truthy. */
  function FirstTexture(textures: Value): Option<string> {
    match textures
    case List(e) => if |e| > 0 then Some(AsText(e[0])) else None
    case Str(s) => if |s| > 0 then Some([s[0]]) else None
    case _ => None
  }

  /** The texture path a generated model is built from, `.png` stripped; None when no model is generated. */
  function GeneratedTexture(resource: Value): Option<string> {
    if Truthy(GetOr(resource, "model_path", Null)) then None
    else if GetOr(resource, "generate", Null) == Bool(true) && Truthy(GetOr(resource, "textures", Null)) then
      match FirstTexture(GetOr(resource, "textures", Null))
      case Some(t) => Some(StripSuffix(t, ".png"))
      case None => None
    else None
  }

  function ItemModelPath(ns: string, path: string): string {
    ns + ":item/" + path
  }

  /** The `model` `_handle_generic_model` sets, if any. */
  function GenericModel(ns: string, resource: Value): Option<ModelRef> {
    var mp := GetOr(resource, "model_path", Null);
    if Truthy(mp) then Some(Direct(ItemModelPath(ns, AsText(mp))))
    else match GeneratedTexture(resource)
      case Some(t) => Some(Direct(ItemModelPath(ns, t)))
      case None => None
  }

  /** The model file `_handle_generic_model` registers, if any: `item/<t>.json` with layer0 `ns:item/<t>`. */
  function GenericGenerated(ns: string, resource: Value): Option<Generated> {
    match GeneratedTexture(resource)
    case Some(t) => Some(Generated("item/" + t + ".json", Migrator.BasicModel(ItemModelPath(ns, t))))
    case None => None
  }

  /**
    An explicit `model_path` wins; else `generate: true` with textures points the item at the
    generated model, whose layer0 is exactly that path; else no model and nothing registered.
  */
  lemma GenericModelCases(ns: string, resource: Value)
    ensures Truthy(GetOr(resource, "model_path", Null)) ==>
      GenericModel(ns, resource) == Some(Direct(ns + ":item/" + AsText(GetOr(resource, "model_path", Null))))
      && GenericGenerated(ns, resource).None?
    ensures GenericGenerated(ns, resource).Some? <==>
      !Truthy(GetOr(resource, "model_path", Null)) && GetOr(resource, "generate", Null) == Bool(true)
      && FirstTexture(GetOr(resource, "textures", Null)).Some?
    ensures GenericGenerated(ns, resource).Some? ==>
      var g := GenericGenerated(ns, resource).value;
      var t := StripSuffix(FirstTexture(GetOr(resource, "textures", Null)).value, ".png");
      && g.key == "item/" + t + ".json"
      && g.model == Dict([("parent", Str("minecraft:item/generated")), ("textures", Dict([("layer0", Str(ns + ":item/" + t))]))])
      && GenericModel(ns, resource) == Some(Direct(ns + ":item/" + t))
    ensures GenericModel(ns, resource).None? <==>
      !Truthy(GetOr(resource, "model_path", Null)) && GenericGenerated(ns, resource).None?
  {
    var textures := GetOr(resource, "textures", Null);
    if FirstTexture(textures).Some? {
      assert Truthy(textures);
    }
  }

  // ---------------------------------------------------------------------------------------
  // Use-state items: bow, crossbow, shield and fishing rod

  /** A CraftEngine item-model definition with `${...}` placeholders at its leaves. */
  datatype ModelTree =
    | Leaf(path: string)
    | Condition(property: string, onFalse: ModelTree, onTrue: ModelTree)
    | RangeDispatch(property: string, scale: Option<real>, entries: seq<(real, ModelTree)>, fallback: ModelTree)
    | Select(property: string, cases: seq<(string, ModelTree)>, fallback: ModelTree)

  function Placeholder(name: string): string {
    "${" + name + "}"
  }

  function P(name: string): ModelTree {
    Leaf(Placeholder(name))
  }

  /** `models:<ns>_<key>_model` */
  function TemplateId(ns: string, key: string): string {
    "models:" + ns + "_" + key + "_model"
  }

  /** The template `_handle_complex_item` registers for each use-state material. */
  function TemplateTree(material: string): ModelTree
    requires IsComplex(material)
  {
    if material == "BOW" then
      Condition("minecraft:using_item", P("bow_model"),
        RangeDispatch("minecraft:use_duration", Some(0.05),
          [(0.65, P("bow_pulling_1_model")), (0.9, P("bow_pulling_2_model"))], P("bow_pulling_0_model")))
    else if material == "CROSSBOW" then
      Condition("minecraft:using_item",
        Select("minecraft:charge_type", [("arrow", P("arrow_model")), ("rocket", P("firework_model"))], P("model")),
        RangeDispatch("minecraft:crossbow/pull", None,
          [(0.58, P("pulling_1_model")), (1.0, P("pulling_2_model"))], P("pulling_0_model")))
    else if material == "SHIELD" then
      Condition("minecraft:using_item", P("shield_model"), P("shield_blocking_model"))
    else
      Condition("minecraft:fishing_rod/cast", P("path"), P("cast_path"))
  }

  /** Argument names with the suffix each one appends to the base model path, in insertion order. */
  function ArgumentSuffixes(material: string): seq<(string, string)>
    requires IsComplex(material)
  {
    if material == "BOW" then
      [("bow_model", ""), ("bow_pulling_0_model", "_0"), ("bow_pulling_1_model", "_1"), ("bow_pulling_2_model", "_2")]
    else if material == "CROSSBOW" then
      [("model", ""), ("arrow_model", "_charged"), ("firework_model", "_firework"),
       ("pulling_0_model", "_0"), ("pulling_1_model", "_1"), ("pulling_2_model", "_2")]
    else if material == "SHIELD" then
      [("shield_model", ""), ("shield_blocking_model", "_blocking")]
    else
      [("path", ""), ("cast_path", "_cast")]
  }

  function TemplateArguments(ns: string, material: string, base: string): (args: seq<(string, string)>)
    requires IsComplex(material)
  {
    var sfx := ArgumentSuffixes(material);
    seq(|sfx|, i requires 0 <= i < |sfx| => (sfx[i].0, ItemModelPath(ns, base + sfx[i].1)))
  }

  /** The leaves of a two-branch dispatch are those of its two branches. */
  lemma PairLeaves<K>(es: seq<(K, ModelTree)>)
    requires |es| == 2
    ensures (set i, p | 0 <= i < |es| && p in Leaves(es[i].1) :: p) == Leaves(es[0].1) + Leaves(es[1].1)
  {
  }

  function Leaves(t: ModelTree): set<string> {
    match t
    case Leaf(p) => {p}
    case Condition(_, f, u) => Leaves(f) + Leaves(u)
    case RangeDispatch(_, _, es, fb) => (set i, p | 0 <= i < |es| && p in Leaves(es[i].1) :: p) + Leaves(fb)
    case Select(_, cs, fb) => (set i, p | 0 <= i < |cs| && p in Leaves(cs[i].1) :: p) + Leaves(fb)
  }

  /**
    BOW has 4 arguments, CROSSBOW 6, SHIELD and FISHING_ROD 2; each is `ns:item/<model_path>`
    plus its suffix, the first with the empty suffix; the names are distinct and are exactly
    the placeholders the template refers to.
  */
  lemma TemplateArgumentsMatch(ns: string, material: string, base: string)
    requires IsComplex(material)
    ensures var args := TemplateArguments(ns, material, base);
      && |args| == (if material == "BOW" then 4 else if material == "CROSSBOW" then 6 else 2)
      && args[0].1 == ns + ":item/" + base
      && (forall i :: 0 <= i < |args| ==>
            args[i].1 == ns + ":item/" + base + ArgumentSuffixes(material)[i].1)
      && (forall i, j :: 0 <= i < j < |args| ==> args[i].0 != args[j].0)
      && Leaves(TemplateTree(material)) == set i | 0 <= i < |args| :: Placeholder(args[i].0)
  {
    var args := TemplateArguments(ns, material, base);
    assert ItemModelPath(ns, base + "") == ns + ":item/" + base;
    forall i | 0 <= i < |args|
      ensures args[i].1 == ns + ":item/" + base + ArgumentSuffixes(material)[i].1
    {
      assert ns + ":item/" + (base + ArgumentSuffixes(material)[i].1) == ns + ":item/" + base + ArgumentSuffixes(material)[i].1;
    }
    PlaceholdersMatch(ns, material, base);
  }

  lemma PlaceholdersMatch(ns: string, material: string, base: string)
    requires IsComplex(material)
    ensures var args := TemplateArguments(ns, material, base);
      && (forall i, j :: 0 <= i < j < |args| ==> args[i].0 != args[j].0)
      && Leaves(TemplateTree(material)) == set i | 0 <= i < |args| :: Placeholder(args[i].0)
  {
    var args := TemplateArguments(ns, material, base);
    var sfx := ArgumentSuffixes(material);
    assert forall i :: 0 <= i < |args| ==> args[i].0 == sfx[i].0;
    NamesMatch(material);
  }

  lemma NamesMatch(material: string)
    requires IsComplex(material)
    ensures var sfx := ArgumentSuffixes(material);
      && (forall i, j :: 0 <= i < j < |sfx| ==> sfx[i].0 != sfx[j].0)
      && Leaves(TemplateTree(material)) == set i | 0 <= i < |sfx| :: Placeholder(sfx[i].0)
  {
    if material == "BOW" {
      BowNames();
    } else if material == "CROSSBOW" {
      CrossbowNames();
    } else if material == "SHIELD" {
      ShieldNames();
    } else {
      RodNames();
    }
  }

  lemma BowNames()
    ensures var sfx := ArgumentSuffixes("BOW");
      && (forall i, j :: 0 <= i < j < |sfx| ==> sfx[i].0 != sfx[j].0)
      && Leaves(TemplateTree("BOW")) == set i | 0 <= i < |sfx| :: Placeholder(sfx[i].0)
  {
    var sfx := ArgumentSuffixes("BOW");
    var t := TemplateTree("BOW");
    assert t.onTrue.RangeDispatch?;
    PairLeaves(t.onTrue.entries);
    assert (set i | 0 <= i < |sfx| :: Placeholder(sfx[i].0))
      == {Placeholder(sfx[0].0), Placeholder(sfx[1].0), Placeholder(sfx[2].0), Placeholder(sfx[3].0)};
  }

  lemma CrossbowNames()
    ensures var sfx := ArgumentSuffixes("CROSSBOW");
      && (forall i, j :: 0 <= i < j < |sfx| ==> sfx[i].0 != sfx[j].0)
      && Leaves(TemplateTree("CROSSBOW")) == set i | 0 <= i < |sfx| :: Placeholder(sfx[i].0)
  {
    CrossbowDistinct();
    CrossbowLeaves();
    CrossbowArguments();
  }

  lemma CrossbowLeaves()
    ensures Leaves(TemplateTree("CROSSBOW")) ==
      {Placeholder("model"), Placeholder("arrow_model"), Placeholder("firework_model"),
       Placeholder("pulling_0_model"), Placeholder("pulling_1_model"), Placeholder("pulling_2_model")}
  {
    var t := TemplateTree("CROSSBOW");
    assert t.onFalse.Select? && t.onTrue.RangeDispatch?;
    PairLeaves(t.onFalse.cases);
    PairLeaves(t.onTrue.entries);
  }

  lemma CrossbowArguments()
    ensures var sfx := ArgumentSuffixes("CROSSBOW");
      (set i | 0 <= i < |sfx| :: Placeholder(sfx[i].0)) ==
      {Placeholder("model"), Placeholder("arrow_model"), Placeholder("firework_model"),
       Placeholder("pulling_0_model"), Placeholder("pulling_1_model"), Placeholder("pulling_2_model")}
  {
    var sfx := ArgumentSuffixes("CROSSBOW");
    assert sfx[0].0 == "model" && sfx[1].0 == "arrow_model" && sfx[2].0 == "firework_model";
    assert sfx[3].0 == "pulling_0_model" && sfx[4].0 == "pulling_1_model" && sfx[5].0 == "pulling_2_model";
  }

  lemma CrossbowDistinct()
    ensures var sfx := ArgumentSuffixes("CROSSBOW");
      forall i, j :: 0 <= i < j < |sfx| ==> sfx[i].0 != sfx[j].0
  {
    var sfx := ArgumentSuffixes("CROSSBOW");
    assert |sfx[0].0| == 5 && |sfx[1].0| == 11 && |sfx[2].0| == 14;
    assert sfx[3].0[8] == '0' && sfx[4].0[8] == '1' && sfx[5].0[8] == '2';
  }

  lemma ShieldNames()
    ensures var sfx := ArgumentSuffixes("SHIELD");
      && (forall i, j :: 0 <= i < j < |sfx| ==> sfx[i].0 != sfx[j].0)
      && Leaves(TemplateTree("SHIELD")) == set i | 0 <= i < |sfx| :: Placeholder(sfx[i].0)
  {
    var sfx := ArgumentSuffixes("SHIELD");
    assert (set i | 0 <= i < |sfx| :: Placeholder(sfx[i].0)) == {Placeholder(sfx[0].0), Placeholder(sfx[1].0)};
  }

  lemma RodNames()
    ensures var sfx := ArgumentSuffixes("FISHING_ROD");
      && (forall i, j :: 0 <= i < j < |sfx| ==> sfx[i].0 != sfx[j].0)
      && Leaves(TemplateTree("FISHING_ROD")) == set i | 0 <= i < |sfx| :: Placeholder(sfx[i].0)
  {
    var sfx := ArgumentSuffixes("FISHING_ROD");
    assert (set i | 0 <= i < |sfx| :: Placeholder(sfx[i].0)) == {Placeholder(sfx[0].0), Placeholder(sfx[1].0)};
  }

  // ---------------------------------------------------------------------------------------
  // Furniture

  function FurnitureData(data: Value): Value {
    GetOr(Behaviours(data), "furniture", Dict([]))
  }

  function SitData(data: Value): Value {
    GetOr(Behaviours(data), "furniture_sit", Null)
  }

  /** `placeable_on`, with an empty or absent one read as `{floor: true}`. */
  function PlaceableOn(furniture: Value): Value {
    var p := GetOr(furniture, "placeable_on", Dict([]));
    if Truthy(p) then p else Dict([("floor", Bool(true))])
  }

  /** The surfaces a furniture is placed on: `floor` -> ground, `walls` -> wall, `ceiling` -> ceiling. */
  function Surfaces(furniture: Value): set<Surface> {
    var p := PlaceableOn(furniture);
    (if Truthy(GetOr(p, "floor", Null)) then {Ground} else {}) +
    (if Truthy(GetOr(p, "walls", Null)) then {Wall} else {}) +
    (if Truthy(GetOr(p, "ceiling", Null)) then {Ceiling} else {})
  }

  /** The `placement` mapping: `block` under each surface `p` enables, in the order the source tests them. */
  function PlacementOn(p: Value, block: PlacementBlock): map<Surface, PlacementBlock> {
    var ground := if Truthy(GetOr(p, "floor", Null)) then map[Ground := block] else map[];
    var wall := if Truthy(GetOr(p, "walls", Null)) then ground[Wall := block] else ground;
    if Truthy(GetOr(p, "ceiling", Null)) then wall[Ceiling := block] else wall
  }

  function FurnitureBehaviorFor(ceId: string, data: Value): FurnitureBehavior {
    var furniture := FurnitureData(data);
    FurnitureBehavior(ceId, BreakSound, PlaceSound, FurnitureLoot, ceId,
                      PlacementOn(PlaceableOn(furniture), PlacementFor(ceId, furniture, SitData(data))))
  }

  /**
    The enabled surfaces: a truthy `placeable_on` decides each one; without `placeable_on` (or
    with an empty one) the furniture goes on the ground only.
  */
  lemma SurfacesCases(furniture: Value)
    ensures var p := GetOr(furniture, "placeable_on", Dict([]));
      && (Ground in Surfaces(furniture) <==> !Truthy(p) || Truthy(GetOr(p, "floor", Null)))
      && (Wall in Surfaces(furniture) <==> Truthy(p) && Truthy(GetOr(p, "walls", Null)))
      && (Ceiling in Surfaces(furniture) <==> Truthy(p) && Truthy(GetOr(p, "ceiling", Null)))
      && (!Truthy(p) ==> Surfaces(furniture) == {Ground})
  {
    var dflt: Entries := [("floor", Bool(true))];
    assert Lookup(dflt, "floor") == Some(Bool(true));
    assert !HasKey(dflt, "walls") && !HasKey(dflt, "ceiling");
  }

  /** The behaviour places the furniture on exactly those surfaces, each with the same block. */
  lemma FurniturePlacement(ceId: string, data: Value)
    ensures var b := FurnitureBehaviorFor(ceId, data);
      && b.placement.Keys == Surfaces(FurnitureData(data))
      && b.item == ceId && b.lootItem == ceId
      && forall s :: s in b.placement ==> b.placement[s] == PlacementFor(ceId, FurnitureData(data), SitData(data))
  {
    var furniture := FurnitureData(data);
    var m := PlacementOn(PlaceableOn(furniture), PlacementFor(ceId, furniture, SitData(data)));
    PlacementOnSpec(PlaceableOn(furniture), PlacementFor(ceId, furniture, SitData(data)));
    SurfacesCases(furniture);
    DefaultPlaceable();
    forall s ensures s in m <==> s in Surfaces(furniture) {
      match s
      case Ground =>
      case Wall =>
      case Ceiling =>
    }
  }

  /** The default `{floor: true}` enables the ground only. */
  lemma DefaultPlaceable()
    ensures var d := Dict([("floor", Bool(true))]);
      Truthy(GetOr(d, "floor", Null)) && !Truthy(GetOr(d, "walls", Null)) && !Truthy(GetOr(d, "ceiling", Null))
  {
  }

  lemma PlacementOnSpec(p: Value, block: PlacementBlock)
    ensures Ground in PlacementOn(p, block) <==> Truthy(GetOr(p, "floor", Null))
    ensures Wall in PlacementOn(p, block) <==> Truthy(GetOr(p, "walls", Null))
    ensures Ceiling in PlacementOn(p, block) <==> Truthy(GetOr(p, "ceiling", Null))
    ensures forall s :: s in PlacementOn(p, block) ==> PlacementOn(p, block)[s] == block
  {
  }

  // ---------------------------------------------------------------------------------------
  // The whole item

  /** What converting one item contributes: the item, a template to register, a model to generate. */
  datatype ItemOutcome = ItemOutcome(item: CeItem, template: Option<(string, ModelTree)>, generated: Option<Generated>)

  /** The item before its branch runs: the material and the formatted display name. */
  function BaseItem(ns: string, key: string, data: Value): CeItem {
    CeItem(Material(data), FormatDisplayName(ns, DisplayName(key, data), data), None, None, None, None)
  }

  /** A resolved generic model, if any, set on the item. */
  function WithModel(item: CeItem, m: Option<ModelRef>): CeItem {
    if m.Some? then item.(model := m) else item
  }

  /** The item `_convert_item(key, data)` stores under `ns:key`. */
  function ConvertedItem(ns: string, key: string, data: Value): CeItem {
    var base := BaseItem(ns, key, data);
    var material := base.material;
    var resource := Resource(data);
    match KindOf(material, data)
    case ArmorItem => WithModel(ArmorSettings(ns, base, data), GenericModel(ns, resource))
    case FurnitureItem => WithModel(base.(behavior := Some(FurnitureBehaviorFor(NsId(ns, key), data))), GenericModel(ns, resource))
    case ComplexItem =>
      base.(model := Some(Templated(TemplateId(ns, key), TemplateArguments(ns, material, AsText(GetOr(resource, "model_path", Str("")))))))
    case HatItem => WithModel(base.(equippable := Some("head")), GenericModel(ns, resource))
    case GenericItem => WithModel(base, GenericModel(ns, resource))
  }

  /** The template a use-state item registers. */
  function TemplateFor(ns: string, key: string, data: Value): Option<(string, ModelTree)> {
    if KindOf(Material(data), data) == ComplexItem then Some((TemplateId(ns, key), TemplateTree(Material(data)))) else None
  }

  /** The model file every other item may register. */
  function GeneratedFor(ns: string, data: Value): Option<Generated> {
    if KindOf(Material(data), data) == ComplexItem then None else GenericGenerated(ns, Resource(data))
  }

  /** `_convert_item(key, data)` under namespace `ns`. */
  function ItemFor(ns: string, key: string, data: Value): ItemOutcome {
    ItemOutcome(ConvertedItem(ns, key, data), TemplateFor(ns, key, data), GeneratedFor(ns, data))
  }

  /**
    The dispatch keeps the branches apart: a template only for use-state materials, a furniture
    behaviour only for furniture, equipment settings only for armour (and then only with an
    id), the head slot only for hats. The display name always carries the `<!i>` prefix and an
    item never both registers a template and a generated model.
  */
  lemma ItemShape(ns: string, key: string, data: Value)
    ensures ItemFor(ns, key, data).item.itemName == FormatDisplayName(ns, DisplayName(key, data), data)
    ensures ItemFor(ns, key, data).template.Some? <==> KindOf(Material(data), data) == ComplexItem
    ensures ItemFor(ns, key, data).item.behavior.Some? <==> KindOf(Material(data), data) == FurnitureItem
    ensures ItemFor(ns, key, data).item.equipment.Some? <==>
      KindOf(Material(data), data) == ArmorItem && Truthy(EquipmentId(data))
    ensures ItemFor(ns, key, data).item.equippable.Some? <==> KindOf(Material(data), data) == HatItem
    ensures !(ItemFor(ns, key, data).template.Some? && ItemFor(ns, key, data).generated.Some?)
    ensures KindOf(Material(data), data) != ComplexItem ==>
      ItemFor(ns, key, data).item.model == GenericModel(ns, Resource(data))
    ensures KindOf(Material(data), data) != ArmorItem ==> ItemFor(ns, key, data).item.material == Material(data)
  {
    var o := ItemFor(ns, key, data);
    var base := BaseItem(ns, key, data);
    match KindOf(Material(data), data)
    case ArmorItem =>
      var a := ArmorSettings(ns, base, data);
      assert a.behavior.None? && a.equippable.None? && a.model.None? && a.itemName == base.itemName;
    case FurnitureItem =>
    case ComplexItem =>
    case HatItem =>
    case GenericItem =>
  }

  /** A use-state item points at its own template, `models:<ns>_<key>_model`, with the arguments for its material. */
  lemma ComplexItemTemplate(ns: string, key: string, data: Value)
    requires KindOf(Material(data), data) == ComplexItem
    ensures var o := ItemFor(ns, key, data);
      && o.template == Some(("models:" + ns + "_" + key + "_model", TemplateTree(Material(data))))
      && o.item.model == Some(Templated(o.template.value.0, TemplateArguments(ns, Material(data),
           AsText(GetOr(Resource(data), "model_path", Str(""))))))
  {
  }

  /**
    Armour: the suffix `_CHESTPLATE`/`_LEGGINGS`/`_BOOTS` fixes the slot whatever `slot`
    says; an item with an equipment id gets `asset-id` `ns:id`, and a `STONE` one becomes the
    leather piece for its slot; without an id nothing changes.
  */
  lemma ArmorCases(ns: string, item: CeItem, data: Value)
    ensures EndsWith(item.material, "_CHESTPLATE") ==> ArmorSlot(item.material, data) == "chest"
    ensures !EndsWith(item.material, "_CHESTPLATE") && EndsWith(item.material, "_LEGGINGS") ==>
      ArmorSlot(item.material, data) == "legs"
    ensures !EndsWith(item.material, "_CHESTPLATE") && !EndsWith(item.material, "_LEGGINGS") && EndsWith(item.material, "_BOOTS") ==>
      ArmorSlot(item.material, data) == "feet"
    ensures !EndsWith(item.material, "_CHESTPLATE") && !EndsWith(item.material, "_LEGGINGS") && !EndsWith(item.material, "_BOOTS") ==>
      ArmorSlot(item.material, data) == ExplicitSlot(data)
    ensures ReadsArmorProps(data) && Has(ArmorProps(data), "slot") ==>
      ExplicitSlot(data) == AsText(Get(ArmorProps(data), "slot").value)
    ensures !(ReadsArmorProps(data) && Has(ArmorProps(data), "slot")) ==> ExplicitSlot(data) == "head"
    ensures !HasArmorSuffix(item.material) && !ReadsArmorProps(data) ==> ArmorSlot(item.material, data) == "head"
    ensures var r := ArmorSettings(ns, item, data);
      && (!Truthy(EquipmentId(data)) ==> r == item)
      && (Truthy(EquipmentId(data)) ==>
            r.equipment == Some(EquipmentSetting(ns + ":" + AsText(EquipmentId(data)), ArmorSlot(item.material, data)))
            && (item.material == "STONE" && ArmorSlot(item.material, data) == "head" ==> r.material == "LEATHER_HELMET")
            && (item.material == "STONE" && ArmorSlot(item.material, data) == "chest" ==> r.material == "LEATHER_CHESTPLATE")
            && (item.material == "STONE" && ArmorSlot(item.material, data) == "legs" ==> r.material == "LEATHER_LEGGINGS")
            && (item.material == "STONE" && ArmorSlot(item.material, data) == "feet" ==> r.material == "LEATHER_BOOTS")
            && (item.material != "STONE" ==> r.material == item.material))
      && r.itemName == item.itemName && r.model == item.model && r.behavior == item.behavior
  {
  }

  /** A chestplate keeps `chest` even when `specific_properties.armor.slot` says otherwise. */
  lemma SuffixOverridesSlot()
    ensures var data := Dict([("specific_properties", Dict([("armor", Dict([("custom_armor", Str("ruby")), ("slot", Str("head"))]))]))]);
      && ExplicitSlot(data) == "head"
      && ArmorSlot("DIAMOND_CHESTPLATE", data) == "chest"
  {
    var armor: Entries := [("custom_armor", Str("ruby")), ("slot", Str("head"))];
    var sp: Entries := [("armor", Dict(armor))];
    var data: Entries := [("specific_properties", Dict(sp))];
    assert !HasKey(data, "equipment");
    assert Lookup(data, "specific_properties") == Some(Dict(sp));
    assert Lookup(sp, "armor") == Some(Dict(armor));
    assert Lookup(armor, "slot") == Some(Str("head"));
    assert EndsWith("DIAMOND_CHESTPLATE", "_CHESTPLATE");
  }

  // ---------------------------------------------------------------------------------------
  // Categories

  /** A category list entry or icon: kept when it holds a `:`, else put in the namespace. */
  function Namespaced(ns: string, entry: string): (r: string)
    ensures ':' in r
    ensures ':' in entry ==> r == entry
    ensures ':' !in entry ==> r == ns + ":" + entry
  {
    if ':' in entry then entry else NsId(ns, entry)
  }

  /** Namespacing an entry twice changes nothing more. */
  lemma NamespacedIdempotent(ns: string, entry: string)
    ensures Namespaced(ns, Namespaced(ns, entry)) == Namespaced(ns, entry)
  {
  }

  datatype Category = Category(name: string, priority: int, icon: string, list: seq<string>, hidden: bool)

  function CategoryItems(data: Value): seq<string> {
    var raw := AsList(GetOr(data, "items", List([])));
    seq(|raw|, i requires 0 <= i < |raw| => AsText(raw[i]))
  }

  /** `_convert_categories` for one entry; `list` is filled by the converter's loop. */
  function CategoryFor(ns: string, key: string, data: Value, list: seq<string>): Category {
    Category("<!i>" + AsText(GetOr(data, "name", Str(key))), 1,
             Namespaced(ns, AsText(GetOr(data, "icon", Str("minecraft:stone")))), list,
             !Truthy(GetOr(data, "enabled", Bool(true))))
  }

  // ---------------------------------------------------------------------------------------
  // Equipments

  /** `{"type": "component"}` with the optional `humanoid` and `humanoid-leggings` layers. */
  datatype Equipment = Equipment(humanoid: Option<string>, humanoidLeggings: Option<string>)

  /** `equipments` (legacy form): layers are namespaced as they stand. */
  function LegacyEquipment(ns: string, data: Value): Equipment {
    Equipment(if Has(data, "layer_1") then Some(NsId(ns, AsText(GetOr(data, "layer_1", Null)))) else None,
              if Has(data, "layer_2") then Some(NsId(ns, AsText(GetOr(data, "layer_2", Null)))) else None)
  }

  /** `armors_rendering`: layers are namespaced with a trailing `.png` removed. */
  function RenderedEquipment(ns: string, data: Value): Equipment {
    Equipment(if Has(data, "layer_1") then Some(NsId(ns, StripSuffix(AsText(GetOr(data, "layer_1", Null)), ".png"))) else None,
              if Has(data, "layer_2") then Some(NsId(ns, StripSuffix(AsText(GetOr(data, "layer_2", Null)), ".png"))) else None)
  }

  /**
    Both forms set a layer exactly when the source names it; the rendering form drops `.png`,
    so `layer_1: armor/ruby.png` and `layer_1: armor/ruby` give the same reference, while the
    legacy form keeps the name as written.
  */
  lemma EquipmentLayers(ns: string, data: Value)
    ensures LegacyEquipment(ns, data).humanoid.Some? <==> Has(data, "layer_1")
    ensures RenderedEquipment(ns, data).humanoid.Some? <==> Has(data, "layer_1")
    ensures LegacyEquipment(ns, data).humanoidLeggings.Some? <==> Has(data, "layer_2")
    ensures RenderedEquipment(ns, data).humanoidLeggings.Some? <==> Has(data, "layer_2")
    ensures Has(data, "layer_1") ==>
      RenderedEquipment(ns, data).humanoid.value + (if EndsWith(AsText(GetOr(data, "layer_1", Null)), ".png") then ".png" else "")
        == LegacyEquipment(ns, data).humanoid.value
    ensures Has(data, "layer_2") ==>
      RenderedEquipment(ns, data).humanoidLeggings.value + (if EndsWith(AsText(GetOr(data, "layer_2", Null)), ".png") then ".png" else "")
        == LegacyEquipment(ns, data).humanoidLeggings.value
  {
    if Has(data, "layer_1") {
      StrippedLayer(ns, AsText(GetOr(data, "layer_1", Null)));
    }
    if Has(data, "layer_2") {
      StrippedLayer(ns, AsText(GetOr(data, "layer_2", Null)));
    }
  }

  /** The rendering form's reference, with the `.png` it stripped put back, is the legacy form's. */
  lemma StrippedLayer(ns: string, l: string)
    ensures NsId(ns, StripSuffix(l, ".png")) + (if EndsWith(l, ".png") then ".png" else "") == NsId(ns, l)
  {
    var s := StripSuffix(l, ".png");
    if EndsWith(l, ".png") {
      assert NsId(ns, s) + ".png" == ns + ":" + (s + ".png");
    }
  }
}
