/**
  `IAConverter` (src/converters/ia_to_ce.py): the object that collects a CraftEngine
  configuration while it walks the sections of an ItemsAdder one, and that writes it out
  split over `items.yml`, `armor.yml` and `categories.yml`, migrating the resource pack and
  adding the model files it registered on the way.

  The sections (`items`, `equipments`, `armors_rendering`, `categories`) are mappings, walked
  entry by entry; every entry is written under `ns:key`, so an entry repeated under the same
  key leaves the value of its last occurrence, the one a parsed mapping keeps.
*/
module Converter {
  import opened Wrappers
  import opened Text
  import opened Document
  import opened Placement
  import opened Items
  import Migrator

  /** The namespace a converter starts with (src/converters/base.py). */
  const DefaultNamespace: string := "converted"

  /** `convert`'s choice of namespace: a non-empty argument, else `info.namespace`, else the current one. */
  function ResolveNamespace(current: string, arg: Option<string>, data: Value): string {
    if arg.Some? && arg.value != "" then arg.value
    else if Has(data, "info") && Has(GetOr(data, "info", Null), "namespace") then
      AsText(GetOr(GetOr(data, "info", Null), "namespace", Null))
    else current
  }

  /**
    A fresh converter converts under the argument when one is given, else under the document's
    `info.namespace`, else under `converted`.
  */
  lemma NamespaceResolution(arg: Option<string>, data: Value, s: string)
    ensures arg.Some? && arg.value != "" ==> ResolveNamespace(DefaultNamespace, arg, data) == arg.value
    ensures (arg.None? || arg.value == "") && Get(data, "info").Some? && Get(data, "info").value.Dict?
              && Lookup(Get(data, "info").value.entries, "namespace") == Some(Str(s)) ==>
      ResolveNamespace(DefaultNamespace, arg, data) == s
    ensures (arg.None? || arg.value == "") && !Has(GetOr(data, "info", Null), "namespace") ==>
      ResolveNamespace(DefaultNamespace, arg, data) == "converted"
  {
  }

  /** The entries of section `k`; none when the document has no such mapping. */
  function Section(data: Value, k: string): Entries {
    AsEntries(GetOr(data, k, Null))
  }

  // ---------------------------------------------------------------------------------------
  // Sections walked entry by entry

  /** `for key, value in entries: target[f"{ns}:{key}"] = f(key, value)` */
  function Keyed<T>(ns: string, es: Entries, base: map<string, T>, f: (string, Value) -> T): map<string, T>
    decreases |es|
  {
    if es == [] then base
    else Keyed(ns, es[..|es| - 1], base, f)[NsId(ns, es[|es| - 1].0) := f(es[|es| - 1].0, es[|es| - 1].1)]
  }

  /**
    Each key of the section yields exactly one entry, `ns:key`, made from the key's value in
    the section; an id of the namespace whose key the section lacks keeps what it had.
  */
  lemma {:induction false} KeyedAt<T>(ns: string, es: Entries, base: map<string, T>, f: (string, Value) -> T, k: string)
    ensures NsId(ns, k) in Keyed(ns, es, base, f) <==> HasKey(es, k) || NsId(ns, k) in base
    ensures HasKey(es, k) ==> Keyed(ns, es, base, f)[NsId(ns, k)] == f(k, Lookup(es, k).value)
    ensures !HasKey(es, k) && NsId(ns, k) in base ==> Keyed(ns, es, base, f)[NsId(ns, k)] == base[NsId(ns, k)]
    decreases |es|
  {
    if es != [] {
      var pre := es[..|es| - 1];
      KeyedAt(ns, pre, base, f, k);
      HasKeyInit(es, k);
      if es[|es| - 1].0 != k && NsId(ns, es[|es| - 1].0) == NsId(ns, k) {
        NsIdInjective(ns, es[|es| - 1].0, k);
      }
    }
  }

  /** One more entry is one more write. */
  lemma KeyedSnoc<T>(ns: string, es: Entries, i: nat, base: map<string, T>, f: (string, Value) -> T)
    requires i < |es|
    ensures Keyed(ns, es[..i + 1], base, f) == Keyed(ns, es[..i], base, f)[NsId(ns, es[i].0) := f(es[i].0, es[i].1)]
  {
    assert es[..i + 1][..i] == es[..i];
  }

  /** An id outside the namespace is never written. */
  lemma {:induction false} KeyedForeign<T>(ns: string, es: Entries, base: map<string, T>, f: (string, Value) -> T, id: string)
    requires !StartsWith(id, ns + ":")
    ensures id in Keyed(ns, es, base, f) <==> id in base
    ensures id in base ==> Keyed(ns, es, base, f)[id] == base[id]
    decreases |es|
  {
    if es != [] {
      KeyedForeign(ns, es[..|es| - 1], base, f, id);
      var written := NsId(ns, es[|es| - 1].0);
      assert written[..|ns + ":"|] == ns + ":";
    }
  }

  function ItemOf(ns: string): (string, Value) -> CeItem {
    (k, v) => ConvertedItem(ns, k, v)
  }

  function AddTemplate(m: map<string, ModelTree>, t: Option<(string, ModelTree)>): map<string, ModelTree> {
    if t.Some? then m[t.value.0 := t.value.1] else m
  }

  function AddGenerated(m: map<string, Value>, g: Option<Generated>): map<string, Value> {
    if g.Some? then m[g.value.key := g.value.model] else m
  }

  /** The templates registered while walking `items`. */
  function Registered(ns: string, es: Entries, base: map<string, ModelTree>): map<string, ModelTree>
    decreases |es|
  {
    if es == [] then base
    else AddTemplate(Registered(ns, es[..|es| - 1], base), TemplateFor(ns, es[|es| - 1].0, es[|es| - 1].1))
  }

  /** The model files registered while walking `items`. */
  function GeneratedModels(ns: string, es: Entries, base: map<string, Value>): map<string, Value>
    decreases |es|
  {
    if es == [] then base
    else AddGenerated(GeneratedModels(ns, es[..|es| - 1], base), GeneratedFor(ns, es[|es| - 1].1))
  }

  /** One more entry of `items` is one more template registration. */
  lemma RegisteredSnoc(ns: string, es: Entries, i: nat, base: map<string, ModelTree>)
    requires i < |es|
    ensures Registered(ns, es[..i + 1], base) == AddTemplate(Registered(ns, es[..i], base), TemplateFor(ns, es[i].0, es[i].1))
  {
    assert es[..i + 1][..i] == es[..i];
  }

  /** One more entry of `items` is one more model registration. */
  lemma GeneratedSnoc(ns: string, es: Entries, i: nat, base: map<string, Value>)
    requires i < |es|
    ensures GeneratedModels(ns, es[..i + 1], base) == AddGenerated(GeneratedModels(ns, es[..i], base), GeneratedFor(ns, es[i].1))
  {
    assert es[..i + 1][..i] == es[..i];
  }

  /** The items section: item `ns:key` is the conversion of the key's entry. */
  lemma ItemsConverted(ns: string, es: Entries, base: map<string, CeItem>, k: string)
    requires HasKey(es, k)
    ensures var r := Keyed(ns, es, base, ItemOf(ns));
      NsId(ns, k) in r && r[NsId(ns, k)] == ConvertedItem(ns, k, Lookup(es, k).value)
  {
    KeyedAt(ns, es, base, ItemOf(ns), k);
  }

  lemma TemplateIdInjective(ns: string, a: string, b: string)
    requires TemplateId(ns, a) == TemplateId(ns, b)
    ensures a == b
  {
    var n := |"models:" + ns + "_"|;
    assert TemplateId(ns, a)[n..|TemplateId(ns, a)| - 6] == a;
    assert TemplateId(ns, b)[n..|TemplateId(ns, b)| - 6] == b;
  }

  /**
    A use-state item registers its template under `models:<ns>_<key>_model`; a key the section
    lacks registers nothing.
  */
  lemma {:induction false} TemplatesRegistered(ns: string, es: Entries, base: map<string, ModelTree>, k: string)
    ensures var v := Lookup(es, k);
      v.Some? && KindOf(Material(v.value), v.value) == ComplexItem ==>
        TemplateId(ns, k) in Registered(ns, es, base) && Registered(ns, es, base)[TemplateId(ns, k)] == TemplateTree(Material(v.value))
    ensures !HasKey(es, k) ==>
      (TemplateId(ns, k) in Registered(ns, es, base) <==> TemplateId(ns, k) in base)
    decreases |es|
  {
    if es != [] {
      var pre := es[..|es| - 1];
      var (k', v') := es[|es| - 1];
      TemplatesRegistered(ns, pre, base, k);
      HasKeyInit(es, k);
      if TemplateFor(ns, k', v').Some? && k' != k && TemplateId(ns, k') == TemplateId(ns, k) {
        TemplateIdInjective(ns, k', k);
      }
    }
  }

  /** `key` is `item/<t>.json` and `model` the basic model with layer0 `ns:item/<t>`. */
  predicate GeneratedEntry(ns: string, key: string, model: Value) {
    |key| >= 10 && key[..5] == "item/" && key[|key| - 5..] == ".json" &&
    model == Migrator.BasicModel(ItemModelPath(ns, key[5..|key| - 5]))
  }

  predicate AllGenerated(ns: string, m: map<string, Value>) {
    forall key :: key in m ==> GeneratedEntry(ns, key, m[key])
  }

  lemma GeneratedEntryOf(ns: string, t: string)
    ensures GeneratedEntry(ns, "item/" + t + ".json", Migrator.BasicModel(ItemModelPath(ns, t)))
  {
    var key := "item/" + t + ".json";
    assert key[..5] == "item/";
    assert key[|key| - 5..] == ".json";
    assert key[5..|key| - 5] == t;
  }

  /** Every registered model file is `item/<t>.json` holding the basic model of `ns:item/<t>`. */
  lemma {:induction false} GeneratedModelsShape(ns: string, es: Entries, base: map<string, Value>)
    requires AllGenerated(ns, base)
    ensures AllGenerated(ns, GeneratedModels(ns, es, base))
    decreases |es|
  {
    if es != [] {
      GeneratedModelsShape(ns, es[..|es| - 1], base);
      var g := GeneratedFor(ns, es[|es| - 1].1);
      if g.Some? {
        GeneratedEntryOf(ns, GeneratedTexture(Resource(es[|es| - 1].1)).value);
      }
    }
  }

  /** An item that asks for a generated model has its file registered; registering never drops a file. */
  lemma {:induction false} GeneratedModelsCover(ns: string, es: Entries, base: map<string, Value>, k: string)
    ensures base.Keys <= GeneratedModels(ns, es, base).Keys
    ensures HasKey(es, k) && GeneratedFor(ns, Lookup(es, k).value).Some? ==>
      GeneratedFor(ns, Lookup(es, k).value).value.key in GeneratedModels(ns, es, base)
    decreases |es|
  {
    if es != [] {
      GeneratedModelsCover(ns, es[..|es| - 1], base, k);
      HasKeyInit(es, k);
    }
  }

  // ---------------------------------------------------------------------------------------
  // Categories and equipments

  /** The category list with every entry namespaced. */
  function NamespacedList(ns: string, list: seq<string>): seq<string>
    decreases |list|
  {
    if list == [] then []
    else NamespacedList(ns, list[..|list| - 1]) + [Namespaced(ns, list[|list| - 1])]
  }

  /**
    Order and length are kept; an entry with a `:` is copied unchanged, any other becomes
    `ns:entry`.
  */
  lemma {:induction false} NamespacedListSpec(ns: string, list: seq<string>)
    ensures |NamespacedList(ns, list)| == |list|
    ensures forall i :: 0 <= i < |list| && ':' in list[i] ==> NamespacedList(ns, list)[i] == list[i]
    ensures forall i :: 0 <= i < |list| && ':' !in list[i] ==> NamespacedList(ns, list)[i] == ns + ":" + list[i]
    decreases |list|
  {
    if list != [] {
      NamespacedListSpec(ns, list[..|list| - 1]);
    }
  }

  function CategoryOf(ns: string): (string, Value) -> Category {
    (k, v) => CategoryFor(ns, k, v, NamespacedList(ns, CategoryItems(v)))
  }

  /**
    Category `ns:key` is named `<!i>` + `name` (or the key), has priority 1, a namespaced icon
    defaulting to `minecraft:stone`, the namespaced item list, and is hidden exactly when
    `enabled` (default true) is false.
  */
  lemma CategoriesConverted(ns: string, es: Entries, base: map<string, Category>, k: string)
    requires HasKey(es, k)
    ensures var r := Keyed(ns, es, base, CategoryOf(ns));
      var v := Lookup(es, k).value;
      && NsId(ns, k) in r
      && r[NsId(ns, k)].name == "<!i>" + AsText(GetOr(v, "name", Str(k)))
      && r[NsId(ns, k)].priority == 1
      && r[NsId(ns, k)].icon == Namespaced(ns, AsText(GetOr(v, "icon", Str("minecraft:stone"))))
      && ':' in r[NsId(ns, k)].icon
      && (!Has(v, "icon") ==> r[NsId(ns, k)].icon == "minecraft:stone")
      && r[NsId(ns, k)].list == NamespacedList(ns, CategoryItems(v))
      && (r[NsId(ns, k)].hidden <==> Has(v, "enabled") && !Truthy(GetOr(v, "enabled", Null)))
  {
    KeyedAt(ns, es, base, CategoryOf(ns), k);
  }

  datatype EquipmentForm = Legacy | Rendered

  function EquipmentFor(ns: string, form: EquipmentForm, data: Value): Equipment {
    if form == Legacy then LegacyEquipment(ns, data) else RenderedEquipment(ns, data)
  }

  function EquipmentOf(ns: string, form: EquipmentForm): (string, Value) -> Equipment {
    (k, v) => EquipmentFor(ns, form, v)
  }

  /** The equipments after both sections, `equipments` first, then `armors_rendering`. */
  function ConvertedEquipments(ns: string, legacy: Entries, rendered: Entries, base: map<string, Equipment>): map<string, Equipment> {
    Keyed(ns, rendered, Keyed(ns, legacy, base, EquipmentOf(ns, Legacy)), EquipmentOf(ns, Rendered))
  }

  /**
    Both sections write into the same mapping: a key in `armors_rendering` takes its rendered
    form even when `equipments` has it too; a key only in `equipments` keeps the legacy form.
  */
  lemma EquipmentsConverted(ns: string, legacy: Entries, rendered: Entries, base: map<string, Equipment>, k: string)
    ensures var r := ConvertedEquipments(ns, legacy, rendered, base);
      && (HasKey(rendered, k) ==> NsId(ns, k) in r && r[NsId(ns, k)] == RenderedEquipment(ns, Lookup(rendered, k).value))
      && (!HasKey(rendered, k) && HasKey(legacy, k) ==> NsId(ns, k) in r && r[NsId(ns, k)] == LegacyEquipment(ns, Lookup(legacy, k).value))
      && (!HasKey(rendered, k) && !HasKey(legacy, k) ==> (NsId(ns, k) in r <==> NsId(ns, k) in base))
  {
    var mid := Keyed(ns, legacy, base, EquipmentOf(ns, Legacy));
    KeyedAt(ns, legacy, base, EquipmentOf(ns, Legacy), k);
    KeyedAt(ns, rendered, mid, EquipmentOf(ns, Rendered), k);
  }

  // ---------------------------------------------------------------------------------------
  // Saving

  /** `save_config` sends an item to `armor.yml` when its material has an armour suffix or it has equipment settings. */
  predicate WornItem(item: CeItem) {
    HasArmorSuffix(item.material) || item.equipment.Some?
  }

  function ArmorPart(items: map<string, CeItem>): map<string, CeItem> {
    map k | k in items && WornItem(items[k]) :: items[k]
  }

  function OtherPart(items: map<string, CeItem>): map<string, CeItem> {
    map k | k in items && !WornItem(items[k]) :: items[k]
  }

  /** The two parts are disjoint and together hold every item unchanged. */
  lemma PartitionSplits(items: map<string, CeItem>)
    ensures ArmorPart(items).Keys !! OtherPart(items).Keys
    ensures ArmorPart(items) + OtherPart(items) == items
    ensures forall k :: k in ArmorPart(items) <==> k in items && WornItem(items[k])
  {
    var u := ArmorPart(items) + OtherPart(items);
    assert u.Keys == items.Keys;
    assert forall k :: k in u ==> u[k] == items[k];
  }

  /**
    A converted item goes to `armor.yml` exactly when its ItemsAdder material has an armour
    suffix or it took the armour branch with an equipment id: an item that is armour only by
    `specific_properties.armor`, without `custom_armor`, is saved with the other items.
  */
  lemma ArmorFileMembership(ns: string, key: string, data: Value)
    ensures WornItem(ItemFor(ns, key, data).item) <==>
      HasArmorSuffix(Material(data)) || (KindOf(Material(data), data) == ArmorItem && Truthy(EquipmentId(data)))
  {
    ItemShape(ns, key, data);
    if KindOf(Material(data), data) == ArmorItem {
      var base := BaseItem(ns, key, data);
      ArmorCases(ns, base, data);
      if Truthy(EquipmentId(data)) {
        assert ArmorSettings(ns, base, data).equipment.Some?;
      }
    }
  }

  datatype ItemsFile = ItemsFile(templates: Option<map<string, ModelTree>>, items: Option<map<string, CeItem>>)
  datatype ArmorFile = ArmorFile(items: Option<map<string, CeItem>>, equipments: Option<map<string, Equipment>>)

  /** The three configuration files; None for a file that is not written. */
  datatype ConfigFiles = ConfigFiles(itemsYml: Option<ItemsFile>, armorYml: Option<ArmorFile>,
                                     categoriesYml: Option<map<string, Category>>)

  /** A section is written only when it is non-empty. */
  function NonEmpty<T>(m: map<string, T>): Option<map<string, T>> {
    if m == map[] then None else Some(m)
  }

  function ConfigFilesFor(items: map<string, CeItem>, templates: map<string, ModelTree>,
                          equipments: map<string, Equipment>, categories: map<string, Category>): ConfigFiles
  {
    var itemsYml := ItemsFile(NonEmpty(templates), NonEmpty(OtherPart(items)));
    var armorYml := ArmorFile(NonEmpty(ArmorPart(items)), NonEmpty(equipments));
    ConfigFiles(if itemsYml == ItemsFile(None, None) then None else Some(itemsYml),
                if armorYml == ArmorFile(None, None) then None else Some(armorYml),
                NonEmpty(categories))
  }

  /**
    Every item is saved in exactly one file, `armor.yml` when it is worn and `items.yml`
    otherwise; `items.yml` is written exactly when there are templates or unworn items, and
    `armor.yml` exactly when there are worn items or equipments.
  */
  lemma ConfigFilesCover(items: map<string, CeItem>, templates: map<string, ModelTree>,
                         equipments: map<string, Equipment>, categories: map<string, Category>, k: string)
    requires k in items
    ensures var f := ConfigFilesFor(items, templates, equipments, categories);
      && (WornItem(items[k]) ==>
            && f.armorYml.Some? && f.armorYml.value.items.Some? && f.armorYml.value.items.value[k] == items[k]
            && !(f.itemsYml.Some? && f.itemsYml.value.items.Some? && k in f.itemsYml.value.items.value))
      && (!WornItem(items[k]) ==>
            && f.itemsYml.Some? && f.itemsYml.value.items.Some? && f.itemsYml.value.items.value[k] == items[k]
            && !(f.armorYml.Some? && f.armorYml.value.items.Some? && k in f.armorYml.value.items.value))
      && (f.itemsYml.Some? <==> templates != map[] || exists j :: j in items && !WornItem(items[j]))
      && (f.armorYml.Some? <==> equipments != map[] || exists j :: j in items && WornItem(items[j]))
      && (f.categoriesYml.Some? <==> categories != map[])
  {
    assert k in ArmorPart(items) <==> WornItem(items[k]);
    assert k in OtherPart(items) <==> !WornItem(items[k]);
    if exists j :: j in items && !WornItem(items[j]) {
      var j :| j in items && !WornItem(items[j]);
      assert j in OtherPart(items);
    }
    if exists j :: j in items && WornItem(items[j]) {
      var j :| j in items && WornItem(items[j]);
      assert j in ArmorPart(items);
    }
  }

  /** Where the registered file `models/<key>` lands: the `/`-separated key as directories and a name. */
  function KeyPath(ns: string, key: string): Migrator.Path {
    var parts := Split(key, '/');
    Migrator.Asset(ns, Migrator.ModelsDir, parts[..|parts| - 1], parts[|parts| - 1])
  }

  lemma KeyPathInjective(ns: string, a: string, b: string)
    requires KeyPath(ns, a) == KeyPath(ns, b)
    ensures a == b
  {
    var pa, pb := Split(a, '/'), Split(b, '/');
    assert KeyPath(ns, a).rel == pa[..|pa| - 1] && KeyPath(ns, a).name == pa[|pa| - 1];
    assert KeyPath(ns, b).rel == pb[..|pb| - 1] && KeyPath(ns, b).name == pb[|pb| - 1];
    SnocInjective(pa, pb);
    SplitInjective(a, b, '/');
  }

  /** Two non-empty sequences with the same front and the same last element are equal. */
  lemma SnocInjective<T>(p: seq<T>, q: seq<T>)
    requires |p| >= 1 && |q| >= 1
    requires p[..|p| - 1] == q[..|q| - 1] && p[|p| - 1] == q[|q| - 1]
    ensures p == q
  {
    assert p == p[..|p| - 1] + [p[|p| - 1]];
    assert q == q[..|q| - 1] + [q[|q| - 1]];
  }

  lemma KeyPathsDiffer(ns: string)
    ensures forall a, b :: KeyPath(ns, a) == KeyPath(ns, b) ==> a == b
  {
    forall a, b | KeyPath(ns, a) == KeyPath(ns, b) ensures a == b {
      KeyPathInjective(ns, a, b);
    }
  }

  /** The files `keys` of `models`, each at its path. */
  function Planted(ns: string, keys: set<string>, models: map<string, Value>): Migrator.Tree
    requires keys <= models.Keys
  {
    KeyPathsDiffer(ns);
    map k | k in keys :: KeyPath(ns, k) := Migrator.Json(models[k])
  }

  /** The pack with every registered model written over it. */
  function WithGenerated(ns: string, pack: Migrator.Tree, models: map<string, Value>): Migrator.Tree {
    pack + Planted(ns, models.Keys, models)
  }

  /**
    Every registered model is at its path, and a path that is no registered model's keeps
    what the pack had there.
  */
  lemma WithGeneratedSpec(ns: string, pack: Migrator.Tree, models: map<string, Value>, d: Migrator.Path)
    ensures forall k :: k in models ==>
      KeyPath(ns, k) in WithGenerated(ns, pack, models) && WithGenerated(ns, pack, models)[KeyPath(ns, k)] == Migrator.Json(models[k])
    ensures (forall k :: k in models ==> KeyPath(ns, k) != d) ==>
      (d in WithGenerated(ns, pack, models) <==> d in pack) &&
      (d in pack ==> WithGenerated(ns, pack, models)[d] == pack[d])
  {
    var planted := Planted(ns, models.Keys, models);
    forall k | k in models
      ensures KeyPath(ns, k) in planted && planted[KeyPath(ns, k)] == Migrator.Json(models[k])
    {
      PlantedAt(ns, models.Keys, models, k);
    }
  }

  /** A planted key is at its path with its model. */
  lemma PlantedAt(ns: string, keys: set<string>, models: map<string, Value>, k: string)
    requires keys <= models.Keys && k in keys
    ensures KeyPath(ns, k) in Planted(ns, keys, models)
    ensures Planted(ns, keys, models)[KeyPath(ns, k)] == Migrator.Json(models[k])
  {
    KeyPathsDiffer(ns);
    var planted := Planted(ns, keys, models);
    var q :| q in keys && KeyPath(ns, q) == KeyPath(ns, k) && planted[KeyPath(ns, k)] == Migrator.Json(models[q]);
  }

  /** Writing the models of `order` one after the other. */
  function Written(ns: string, base: Migrator.Tree, order: seq<string>, models: map<string, Value>): Migrator.Tree
    decreases |order|
  {
    if order == [] then base
    else
      var k := order[|order| - 1];
      var pre := Written(ns, base, order[..|order| - 1], models);
      if k in models then pre[KeyPath(ns, k) := Migrator.Json(models[k])] else pre
  }

  /** The loop of `save_config` so far: `order` lists the keys written, each once, `todo` the rest. */
  ghost predicate WriteProgress(models: map<string, Value>, todo: set<string>, order: seq<string>) {
    todo <= models.Keys && Distinct(order) && forall x :: x in order <==> x in models && x !in todo
  }

  lemma WriteProgressStep(models: map<string, Value>, todo: set<string>, order: seq<string>, k: string)
    requires WriteProgress(models, todo, order) && k in todo
    ensures WriteProgress(models, todo - {k}, order + [k])
  {
    var o := order + [k];
    forall i, j | 0 <= i < j < |o|
      ensures o[i] != o[j]
    {
      if j == |order| {
        assert order[i] in order;
      } else {
        assert o[i] == order[i] && o[j] == order[j];
      }
    }
  }

  lemma WrittenSnoc(ns: string, base: Migrator.Tree, order: seq<string>, k: string, models: map<string, Value>)
    requires k in models
    ensures Written(ns, base, order + [k], models) == Written(ns, base, order, models)[KeyPath(ns, k) := Migrator.Json(models[k])]
  {
    assert (order + [k])[..|order|] == order;
  }

  lemma PlantOne(ns: string, done: set<string>, k: string, models: map<string, Value>)
    requires done + {k} <= models.Keys && k !in done
    ensures Planted(ns, done + {k}, models) == Planted(ns, done, models)[KeyPath(ns, k) := Migrator.Json(models[k])]
  {
    KeyPathsDiffer(ns);
    var a := Planted(ns, done + {k}, models);
    var b := Planted(ns, done, models)[KeyPath(ns, k) := Migrator.Json(models[k])];
    forall d | d in a
      ensures d in b && a[d] == b[d]
    {
      var q :| q in done + {k} && d == KeyPath(ns, q);
    }
    forall d | d in b
      ensures d in a
    {
      if d != KeyPath(ns, k) {
        var q :| q in done && d == KeyPath(ns, q);
      }
    }
  }

  lemma PlantStep(ns: string, base: Migrator.Tree, done: set<string>, k: string, models: map<string, Value>)
    requires done + {k} <= models.Keys && k !in done
    ensures base + Planted(ns, done + {k}, models) == (base + Planted(ns, done, models))[KeyPath(ns, k) := Migrator.Json(models[k])]
  {
    PlantOne(ns, done, k, models);
  }

  /** Whatever the order, writing each registered model once gives the same pack. */
  lemma {:induction false} WrittenPlanted(ns: string, base: Migrator.Tree, order: seq<string>, done: set<string>, models: map<string, Value>)
    requires done <= models.Keys
    requires Distinct(order) && (forall x :: x in order <==> x in done)
    ensures Written(ns, base, order, models) == base + Planted(ns, done, models)
    decreases |order|
  {
    if order != [] {
      var init := order[..|order| - 1];
      var k := order[|order| - 1];
      var pre := done - {k};
      assert forall x :: x in init <==> x in pre by {
        forall x | x in init ensures x != k {
          var i :| 0 <= i < |init| && init[i] == x;
          assert order[i] == x;
        }
        assert forall x :: x in order <==> x in init || x == k;
      }
      WrittenPlanted(ns, base, init, pre, models);
      assert pre + {k} == done;
      PlantStep(ns, base, pre, k, models);
    } else {
      assert done == {};
      assert Planted(ns, {}, models) == map[];
    }
  }

  /** The CraftEngine pack after the migration step of `save_config`: migrated when both packs are known. */
  function MigratedPack(ns: string, ia: Option<Migrator.Tree>, ce: Option<Migrator.Tree>): Option<Migrator.Tree> {
    if ia.Some? && ce.Some? then Some(Migrator.Migrated(ns, ia.value, ce.value)) else ce
  }

  /** The CraftEngine pack after `save_config`: the migrated pack with the registered models on top. */
  function SavedPack(ns: string, ia: Option<Migrator.Tree>, ce: Option<Migrator.Tree>, models: map<string, Value>): Option<Migrator.Tree> {
    var migrated := MigratedPack(ns, ia, ce);
    if migrated.Some? && models != map[] then Some(WithGenerated(ns, migrated.value, models)) else migrated
  }

  /**
    A registered model file wins over whatever the migration wrote at its path, missing-model
    generation included; without an ItemsAdder pack the CraftEngine pack is only added to.
  */
  lemma SavedModelsWin(ns: string, ia: Option<Migrator.Tree>, ce: Migrator.Tree, models: map<string, Value>, k: string)
    requires k in models
    ensures var r := SavedPack(ns, ia, Some(ce), models);
      r.Some? && KeyPath(ns, k) in r.value && r.value[KeyPath(ns, k)] == Migrator.Json(models[k])
    ensures ia.None? ==> ce.Keys <= SavedPack(ns, ia, Some(ce), models).value.Keys
  {
    var migrated := MigratedPack(ns, ia, Some(ce)).value;
    assert SavedPack(ns, ia, Some(ce), models) == Some(WithGenerated(ns, migrated, models));
    WithGeneratedSpec(ns, migrated, models, KeyPath(ns, k));
  }

  // The five branches of `_convert_item`, one at a time.

  lemma ArmorBranch(ns: string, key: string, data: Value)
    requires KindOf(Material(data), data) == ArmorItem
    ensures ConvertedItem(ns, key, data) == WithModel(ArmorSettings(ns, BaseItem(ns, key, data), data), GenericModel(ns, Resource(data)))
    ensures TemplateFor(ns, key, data).None? && GeneratedFor(ns, data) == GenericGenerated(ns, Resource(data))
  {
  }

  lemma FurnitureBranch(ns: string, key: string, data: Value)
    requires KindOf(Material(data), data) == FurnitureItem
    ensures ConvertedItem(ns, key, data) ==
      WithModel(BaseItem(ns, key, data).(behavior := Some(FurnitureBehaviorFor(NsId(ns, key), data))), GenericModel(ns, Resource(data)))
    ensures TemplateFor(ns, key, data).None? && GeneratedFor(ns, data) == GenericGenerated(ns, Resource(data))
  {
  }

  lemma ComplexBranch(ns: string, key: string, data: Value)
    requires KindOf(Material(data), data) == ComplexItem
    ensures ConvertedItem(ns, key, data) == BaseItem(ns, key, data).(model := Some(Templated(TemplateId(ns, key),
      TemplateArguments(ns, Material(data), AsText(GetOr(Resource(data), "model_path", Str("")))))))
    ensures TemplateFor(ns, key, data) == Some((TemplateId(ns, key), TemplateTree(Material(data)))) && GeneratedFor(ns, data).None?
  {
  }

  lemma HatBranch(ns: string, key: string, data: Value)
    requires KindOf(Material(data), data) == HatItem
    ensures ConvertedItem(ns, key, data) == WithModel(BaseItem(ns, key, data).(equippable := Some("head")), GenericModel(ns, Resource(data)))
    ensures TemplateFor(ns, key, data).None? && GeneratedFor(ns, data) == GenericGenerated(ns, Resource(data))
  {
  }

  lemma GenericBranch(ns: string, key: string, data: Value)
    requires KindOf(Material(data), data) == GenericItem
    ensures ConvertedItem(ns, key, data) == WithModel(BaseItem(ns, key, data), GenericModel(ns, Resource(data)))
    ensures TemplateFor(ns, key, data).None? && GeneratedFor(ns, data) == GenericGenerated(ns, Resource(data))
  {
  }

  /** The configuration `convert` returns. */
  datatype CeConfig = CeConfig(items: map<string, CeItem>, equipments: map<string, Equipment>,
                               templates: map<string, ModelTree>, categories: map<string, Category>)

  // ---------------------------------------------------------------------------------------
  // The converter

  class IAConverter {
    var namespace: string
    var items: map<string, CeItem>
    var equipments: map<string, Equipment>
    var templates: map<string, ModelTree>
    var categories: map<string, Category>
    /** `generated_models`: file key under `models/` to model JSON. */
    var generatedModels: map<string, Value>
    /** The resource packs behind `ia_resourcepack_root` / `ce_resourcepack_root`, when set. */
    var iaPack: Option<Migrator.Tree>
    var cePack: Option<Migrator.Tree>

    constructor ()
      ensures namespace == DefaultNamespace
      ensures items == map[] && equipments == map[] && templates == map[] && categories == map[]
      ensures generatedModels == map[] && iaPack == None && cePack == None
    {
      namespace := DefaultNamespace;
      items := map[];
      equipments := map[];
      templates := map[];
      categories := map[];
      generatedModels := map[];
      iaPack := None;
      cePack := None;
    }

    method SetResourcePaths(ia: Option<Migrator.Tree>, ce: Option<Migrator.Tree>)
      modifies this`iaPack, this`cePack
      ensures iaPack == ia && cePack == ce
    {
      iaPack := ia;
      cePack := ce;
    }

    /** `convert`: the namespace first, then items, equipments, armours rendering and categories. */
    method Convert(data: Value, arg: Option<string>) returns (config: CeConfig)
      modifies this`namespace, this`items, this`templates, this`generatedModels, this`equipments, this`categories
      ensures namespace == ResolveNamespace(old(namespace), arg, data)
      ensures items == Keyed(namespace, Section(data, "items"), old(items), ItemOf(namespace))
      ensures templates == Registered(namespace, Section(data, "items"), old(templates))
      ensures generatedModels == GeneratedModels(namespace, Section(data, "items"), old(generatedModels))
      ensures equipments == ConvertedEquipments(namespace, Section(data, "equipments"), Section(data, "armors_rendering"), old(equipments))
      ensures categories == Keyed(namespace, Section(data, "categories"), old(categories), CategoryOf(namespace))
      ensures config == CeConfig(items, equipments, templates, categories)
    {
      SelectNamespace(data, arg);
      ConvertItems(GetOr(data, "items", Null));
      ConvertEquipments(GetOr(data, "equipments", Null), Legacy);
      ConvertEquipments(GetOr(data, "armors_rendering", Null), Rendered);
      ConvertCategories(GetOr(data, "categories", Null));
      config := CeConfig(items, equipments, templates, categories);
    }

    /** The opening of `convert`: a non-empty argument, else `info.namespace`, else unchanged. */
    method SelectNamespace(data: Value, arg: Option<string>)
      modifies this`namespace
      ensures namespace == ResolveNamespace(old(namespace), arg, data)
    {
      if arg.Some? && arg.value != "" {
        namespace := arg.value;
      } else if Has(data, "info") && Has(GetOr(data, "info", Null), "namespace") {
        namespace := AsText(GetOr(GetOr(data, "info", Null), "namespace", Null));
      }
    }

    /** `_convert_items` */
    method ConvertItems(section: Value)
      modifies this`items, this`templates, this`generatedModels
      ensures namespace == old(namespace)
      ensures items == Keyed(namespace, AsEntries(section), old(items), ItemOf(namespace))
      ensures templates == Registered(namespace, AsEntries(section), old(templates))
      ensures generatedModels == GeneratedModels(namespace, AsEntries(section), old(generatedModels))
    {
      var es := AsEntries(section);
      var i := 0;
      while i < |es|
        invariant 0 <= i <= |es|
        invariant items == Keyed(namespace, es[..i], old(items), ItemOf(namespace))
        invariant templates == Registered(namespace, es[..i], old(templates))
        invariant generatedModels == GeneratedModels(namespace, es[..i], old(generatedModels))
      {
        ConvertItem(es[i].0, es[i].1);
        KeyedSnoc(namespace, es, i, old(items), ItemOf(namespace));
        RegisteredSnoc(namespace, es, i, old(templates));
        GeneratedSnoc(namespace, es, i, old(generatedModels));
        i := i + 1;
      }
      assert es[..|es|] == es;
    }

    /**
      `_convert_item`: the item `ns:key` made by the first branch of the armour, furniture,
      use-state, hat, generic chain that applies (KindOf), with the template or model file that
      branch registers.
    */
    method ConvertItem(key: string, data: Value)
      modifies this`items, this`templates, this`generatedModels
      ensures items == old(items)[NsId(namespace, key) := ConvertedItem(namespace, key, data)]
      ensures templates == AddTemplate(old(templates), TemplateFor(namespace, key, data))
      ensures generatedModels == AddGenerated(old(generatedModels), GeneratedFor(namespace, data))
    {
      var item;
      var kind := KindOf(Material(data), data);
      if kind == ArmorItem {
        item := ConvertArmorItem(key, data);
      } else if kind == FurnitureItem {
        item := ConvertFurnitureItem(key, data);
      } else {
        item := ConvertOtherItem(key, data);
      }
      items := items[NsId(namespace, key) := item];
    }

    /** The `ce_item` every branch starts from: the material and the formatted display name. */
    method NewItem(key: string, data: Value) returns (item: CeItem)
      ensures item == BaseItem(namespace, key, data)
    {
      var resource := GetOr(data, "resource", Dict([]));
      var material := AsText(GetOr(resource, "material", Str(DefaultMaterial)));
      var displayName := AsText(GetOr(data, "display_name", Str(key)));
      item := CeItem(material, FormatDisplayName(namespace, displayName, data), None, None, None, None);
    }

    /** The armour branch of `_convert_item`. */
    method ConvertArmorItem(key: string, data: Value) returns (item: CeItem)
      requires KindOf(Material(data), data) == ArmorItem
      modifies this`generatedModels
      ensures item == ConvertedItem(namespace, key, data)
      ensures templates == AddTemplate(old(templates), TemplateFor(namespace, key, data))
      ensures generatedModels == AddGenerated(old(generatedModels), GeneratedFor(namespace, data))
    {
      item := NewItem(key, data);
      item := HandleArmor(item, data);
      ArmorBranch(namespace, key, data);
    }

    /** The furniture branch of `_convert_item`. */
    method ConvertFurnitureItem(key: string, data: Value) returns (item: CeItem)
      requires KindOf(Material(data), data) == FurnitureItem
      modifies this`generatedModels
      ensures item == ConvertedItem(namespace, key, data)
      ensures templates == AddTemplate(old(templates), TemplateFor(namespace, key, data))
      ensures generatedModels == AddGenerated(old(generatedModels), GeneratedFor(namespace, data))
    {
      FurnitureBranch(namespace, key, data);
      var base := NewItem(key, data);
      item := HandleFurniture(base, data, NsId(namespace, key));
    }

    /** The use-state, hat and generic branches of `_convert_item`. */
    method ConvertOtherItem(key: string, data: Value) returns (item: CeItem)
      requires KindOf(Material(data), data) !in {ArmorItem, FurnitureItem}
      modifies this`templates, this`generatedModels
      ensures item == ConvertedItem(namespace, key, data)
      ensures templates == AddTemplate(old(templates), TemplateFor(namespace, key, data))
      ensures generatedModels == AddGenerated(old(generatedModels), GeneratedFor(namespace, data))
    {
      if IsComplex(Material(data)) {
        item := ConvertComplexItem(key, data);
      } else {
        item := ConvertModelItem(key, data);
      }
    }

    /** The use-state branch of `_convert_item`: a template per item. */
    method ConvertComplexItem(key: string, data: Value) returns (item: CeItem)
      requires KindOf(Material(data), data) == ComplexItem
      modifies this`templates
      ensures item == ConvertedItem(namespace, key, data)
      ensures templates == AddTemplate(old(templates), TemplateFor(namespace, key, data))
      ensures GeneratedFor(namespace, data).None?
    {
      item := NewItem(key, data);
      item := HandleComplexItem(item, key, data, item.material);
      ComplexBranch(namespace, key, data);
    }

    /** The hat and generic branches of `_convert_item`: `equippable` for a hat, then the model. */
    method ConvertModelItem(key: string, data: Value) returns (item: CeItem)
      requires KindOf(Material(data), data) in {HatItem, GenericItem}
      modifies this`generatedModels
      ensures item == ConvertedItem(namespace, key, data)
      ensures TemplateFor(namespace, key, data).None?
      ensures generatedModels == AddGenerated(old(generatedModels), GeneratedFor(namespace, data))
    {
      item := NewItem(key, data);
      if KindOf(item.material, data) == HatItem {
        item := item.(equippable := Some("head"));
        item := HandleGenericModel(item, Resource(data));
        HatBranch(namespace, key, data);
      } else {
        item := HandleGenericModel(item, Resource(data));
        GenericBranch(namespace, key, data);
      }
    }

    /** `_handle_armor`: equipment id and slot, the leather upgrade of `STONE`, then the model. */
    method HandleArmor(item: CeItem, data: Value) returns (r: CeItem)
      modifies this`generatedModels
      ensures r == WithModel(ArmorSettings(namespace, item, data), GenericModel(namespace, Resource(data)))
      ensures generatedModels == AddGenerated(old(generatedModels), GenericGenerated(namespace, Resource(data)))
    {
      var equipmentId := Null;
      var slot := "head";
      if Has(data, "equipment") {
        equipmentId := GetOr(GetOr(data, "equipment", Null), "id", Null);
      }
      if !Truthy(equipmentId) && Has(data, "specific_properties") {
        var armorProps := GetOr(GetOr(data, "specific_properties", Null), "armor", Dict([]));
        equipmentId := GetOr(armorProps, "custom_armor", Null);
        if Has(armorProps, "slot") {
          slot := AsText(GetOr(armorProps, "slot", Null));
        }
      }
      var material := item.material;
      if EndsWith(material, "_CHESTPLATE") {
        slot := "chest";
      } else if EndsWith(material, "_LEGGINGS") {
        slot := "legs";
      } else if EndsWith(material, "_BOOTS") {
        slot := "feet";
      }
      r := item;
      if Truthy(equipmentId) {
        if r.material == DefaultMaterial {
          if slot == "head" {
            r := r.(material := "LEATHER_HELMET");
          } else if slot == "chest" {
            r := r.(material := "LEATHER_CHESTPLATE");
          } else if slot == "legs" {
            r := r.(material := "LEATHER_LEGGINGS");
          } else if slot == "feet" {
            r := r.(material := "LEATHER_BOOTS");
          }
        }
        r := r.(equipment := Some(EquipmentSetting(NsId(namespace, AsText(equipmentId)), slot)));
      }
      r := HandleGenericModel(r, Resource(data));
    }

    /** `_handle_furniture`: the furniture behaviour with one placement block per enabled surface, then the model. */
    method HandleFurniture(item: CeItem, data: Value, ceId: string) returns (r: CeItem)
      modifies this`generatedModels
      ensures r == WithModel(item.(behavior := Some(FurnitureBehaviorFor(ceId, data))), GenericModel(namespace, Resource(data)))
      ensures generatedModels == AddGenerated(old(generatedModels), GenericGenerated(namespace, Resource(data)))
    {
      var furniture := FurnitureData(data);
      var sit := SitData(data);
      var placement: map<Surface, PlacementBlock> := map[];
      var placeableOn := GetOr(furniture, "placeable_on", Dict([]));
      if !Truthy(placeableOn) {
        placeableOn := Dict([("floor", Bool(true))]);
      }
      if Truthy(GetOr(placeableOn, "floor", Null)) {
        var block := CreatePlacementBlock(ceId, furniture, sit);
        placement := placement[Ground := block];
      }
      if Truthy(GetOr(placeableOn, "walls", Null)) {
        var block := CreatePlacementBlock(ceId, furniture, sit);
        placement := placement[Wall := block];
      }
      if Truthy(GetOr(placeableOn, "ceiling", Null)) {
        var block := CreatePlacementBlock(ceId, furniture, sit);
        placement := placement[Ceiling := block];
      }
      r := item.(behavior := Some(FurnitureBehavior(ceId, BreakSound, PlaceSound, FurnitureLoot, ceId, placement)));
      r := HandleGenericModel(r, Resource(data));
    }

    /** `_handle_complex_item`: registers the material's template and points the item at it. */
    method HandleComplexItem(item: CeItem, key: string, data: Value, material: string) returns (r: CeItem)
      requires IsComplex(material)
      modifies this`templates
      ensures r == item.(model := Some(Templated(TemplateId(namespace, key),
                TemplateArguments(namespace, material, AsText(GetOr(Resource(data), "model_path", Str("")))))))
      ensures templates == old(templates)[TemplateId(namespace, key) := TemplateTree(material)]
    {
      var templateId := TemplateId(namespace, key);
      var basePath := AsText(GetOr(Resource(data), "model_path", Str("")));
      templates := templates[templateId := TemplateTree(material)];
      r := item.(model := Some(Templated(templateId, TemplateArguments(namespace, material, basePath))));
    }

    /** `_handle_generic_model`: an explicit `model_path`, else a model generated from the first texture. */
    method HandleGenericModel(item: CeItem, resource: Value) returns (r: CeItem)
      modifies this`generatedModels
      ensures r == WithModel(item, GenericModel(namespace, resource))
      ensures generatedModels == AddGenerated(old(generatedModels), GenericGenerated(namespace, resource))
    {
      r := item;
      var modelPath := GetOr(resource, "model_path", Null);
      if Truthy(modelPath) {
        r := r.(model := Some(Direct(ItemModelPath(namespace, AsText(modelPath)))));
      } else if GetOr(resource, "generate", Null) == Bool(true) && Truthy(GetOr(resource, "textures", Null)) {
        var first := FirstTexture(GetOr(resource, "textures", Null));
        if first.Some? {
          var texturePath := first.value;
          if EndsWith(texturePath, ".png") {
            texturePath := texturePath[..|texturePath| - 4];
          }
          r := r.(model := Some(Direct(ItemModelPath(namespace, texturePath))));
          generatedModels := generatedModels["item/" + texturePath + ".json" := Migrator.BasicModel(ItemModelPath(namespace, texturePath))];
        }
      }
    }

    /** `_convert_categories` */
    method ConvertCategories(section: Value)
      modifies this`categories
      ensures namespace == old(namespace)
      ensures categories == Keyed(namespace, AsEntries(section), old(categories), CategoryOf(namespace))
    {
      var es := AsEntries(section);
      var i := 0;
      while i < |es|
        invariant 0 <= i <= |es|
        invariant categories == Keyed(namespace, es[..i], old(categories), CategoryOf(namespace))
      {
        var (key, data) := es[i];
        var list := NamespaceList(CategoryItems(data));
        var icon := AsText(GetOr(data, "icon", Str("minecraft:stone")));
        if ':' !in icon {
          icon := NsId(namespace, icon);
        }
        var category := Category("<!i>" + AsText(GetOr(data, "name", Str(key))), 1, icon, list,
                                 !Truthy(GetOr(data, "enabled", Bool(true))));
        categories := categories[NsId(namespace, key) := category];
        KeyedSnoc(namespace, es, i, old(categories), CategoryOf(namespace));
        i := i + 1;
      }
      assert es[..|es|] == es;
    }

    /** The inner loop of `_convert_categories` over the category's `items`. */
    method NamespaceList(list: seq<string>) returns (r: seq<string>)
      ensures r == NamespacedList(namespace, list)
    {
      r := [];
      for i := 0 to |list|
        invariant r == NamespacedList(namespace, list[..i])
      {
        if ':' in list[i] {
          r := r + [list[i]];
        } else {
          r := r + [NsId(namespace, list[i])];
        }
        assert list[..i + 1][..i] == list[..i];
      }
      assert list[..|list|] == list;
    }

    /** `_convert_equipments` (Legacy) and `_convert_armors_rendering` (Rendered). */
    method ConvertEquipments(section: Value, form: EquipmentForm)
      modifies this`equipments
      ensures namespace == old(namespace)
      ensures equipments == Keyed(namespace, AsEntries(section), old(equipments), EquipmentOf(namespace, form))
    {
      var es := AsEntries(section);
      var i := 0;
      while i < |es|
        invariant 0 <= i <= |es|
        invariant equipments == Keyed(namespace, es[..i], old(equipments), EquipmentOf(namespace, form))
      {
        var equipment := ConvertEquipment(es[i].1, form);
        equipments := equipments[NsId(namespace, es[i].0) := equipment];
        KeyedSnoc(namespace, es, i, old(equipments), EquipmentOf(namespace, form));
        i := i + 1;
      }
      assert es[..|es|] == es;
    }

    /** One entry of `equipments` or `armors_rendering`: the layers, `.png` dropped in the rendering form. */
    method ConvertEquipment(data: Value, form: EquipmentForm) returns (e: Equipment)
      ensures e == EquipmentFor(namespace, form, data)
    {
      var humanoid: Option<string> := None;
      var leggings: Option<string> := None;
      if Has(data, "layer_1") {
        var layer := AsText(GetOr(data, "layer_1", Null));
        if form == Rendered && EndsWith(layer, ".png") {
          layer := layer[..|layer| - 4];
        }
        humanoid := Some(NsId(namespace, layer));
      }
      if Has(data, "layer_2") {
        var layer := AsText(GetOr(data, "layer_2", Null));
        if form == Rendered && EndsWith(layer, ".png") {
          layer := layer[..|layer| - 4];
        }
        leggings := Some(NsId(namespace, layer));
      }
      e := Equipment(humanoid, leggings);
    }

    /** The armour / other split of `save_config`. */
    method PartitionItems() returns (armor: map<string, CeItem>, other: map<string, CeItem>)
      ensures armor == ArmorPart(items) && other == OtherPart(items)
    {
      armor, other := map[], map[];
      var todo := items.Keys;
      while todo != {}
        invariant todo <= items.Keys
        invariant armor == map k | k in items.Keys - todo && WornItem(items[k]) :: items[k]
        invariant other == map k | k in items.Keys - todo && !WornItem(items[k]) :: items[k]
        decreases |todo|
      {
        var k :| k in todo;
        if HasArmorSuffix(items[k].material) || items[k].equipment.Some? {
          armor := armor[k := items[k]];
        } else {
          other := other[k := items[k]];
        }
        todo := todo - {k};
      }
    }

    /**
      `save_config`: the three files, each written only when it has content; the migration when
      both packs are known; then every registered model written under `models/`.
    */
    method SaveConfig() returns (files: ConfigFiles)
      modifies this`cePack
      ensures files == ConfigFilesFor(items, templates, equipments, categories)
      ensures cePack == SavedPack(namespace, iaPack, old(cePack), generatedModels)
    {
      files := BuildConfigFiles();
      MigratePacks();
      if cePack.Some? && generatedModels != map[] {
        var pack := WriteGeneratedModels(cePack.value);
        cePack := Some(pack);
      }
    }

    /** The three configuration files of `save_config`. */
    method BuildConfigFiles() returns (files: ConfigFiles)
      ensures files == ConfigFilesFor(items, templates, equipments, categories)
    {
      var armor, other := PartitionItems();
      var itemsYml := ItemsFile(if templates != map[] then Some(templates) else None,
                                if other != map[] then Some(other) else None);
      var armorYml := ArmorFile(if armor != map[] then Some(armor) else None,
                                if equipments != map[] then Some(equipments) else None);
      files := ConfigFiles(if itemsYml != ItemsFile(None, None) then Some(itemsYml) else None,
                           if armorYml != ArmorFile(None, None) then Some(armorYml) else None,
                           if categories != map[] then Some(categories) else None);
    }

    /** The `IAMigrator` run of `save_config`, when both packs are known. */
    method MigratePacks()
      modifies this`cePack
      ensures cePack == MigratedPack(namespace, iaPack, old(cePack))
    {
      if iaPack.Some? && cePack.Some? {
        var migrator := new Migrator.IAMigrator(iaPack.value, cePack.value, namespace);
        migrator.Migrate();
        cePack := Some(migrator.output);
      }
    }

    /** The last loop of `save_config`: each registered model written to `models/<key>`. */
    method WriteGeneratedModels(pack: Migrator.Tree) returns (r: Migrator.Tree)
      ensures r == WithGenerated(namespace, pack, generatedModels)
    {
      var models := generatedModels;
      r := pack;
      var todo := models.Keys;
      ghost var order: seq<string> := [];
      while todo != {}
        invariant WriteProgress(models, todo, order)
        invariant r == Written(namespace, pack, order, models)
        decreases |todo|
      {
        var k :| k in todo;
        WriteProgressStep(models, todo, order, k);
        WrittenSnoc(namespace, pack, order, k, models);
        r := r[KeyPath(namespace, k) := Migrator.Json(models[k])];
        order := order + [k];
        todo := todo - {k};
      }
      WrittenPlanted(namespace, pack, order, models.Keys, models);
    }
  }
}
