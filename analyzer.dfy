/**
  `PackageAnalyzer` (src/analyzer.py): walks an extracted upload and reports which formats it
  holds (ItemsAdder, CraftEngine, Nexo), which kinds of content it carries, whether the main
  configuration parts are present, and how many items, textures and models it found.

  The report only ever grows while the walk goes on: formats are appended once each, content
  types are gathered in a set, flags are only switched on and counters only increase.
  The walk itself (`os.walk`) and the parsed YAML files are inputs.
*/
module Analyzer {
  import opened Wrappers
  import opened Text
  import opened Document

  /** The tags of `report["formats"]`. */
  datatype Format = ItemsAdder | CraftEngine | Nexo

  /** The tags of `report["content_types"]`: 贴图 (textures), 模型 (models), 装备 (equipment), 装饰 (decoration). */
  datatype ContentType = Textures | Models | Equipment | Decoration

  /** The lower-case directory name that marks a format. */
  function DirName(f: Format): string {
    match f
    case ItemsAdder => "itemsadder"
    case CraftEngine => "craftengine"
    case Nexo => "nexo"
  }

  /** One step of `os.walk`: the directory, the names of its subdirectories and of its files. */
  datatype WalkStep = WalkStep(root: string, dirs: seq<string>, files: seq<string>)

  /**
    What opening and parsing one YAML file gives: the document, with whether its Python
    `str()` contains `item_id`, or a failure to read or parse it.
  */
  datatype YamlFile = Parsed(doc: Value, reprHasItemId: bool) | Unreadable

  /** `self.report`, with `content_types` still a set. */
  datatype Report = Report(
    formats: seq<Format>,
    contentTypes: set<ContentType>,
    itemsConfig: bool,
    categoriesConfig: bool,
    resourceFiles: bool,
    itemCount: nat,
    textureCount: nat,
    modelCount: nat)

  /** The report a new analyzer starts with. */
  const Initial := Report([], {}, false, false, false, 0, 0, 0)

  /** `if f not in formats: formats.append(f)` */
  function Tag(fs: seq<Format>, f: Format): (r: seq<Format>)
    ensures f in r && fs <= r
    ensures forall g :: g in r <==> g in fs || g == f
    ensures Distinct(fs) ==> Distinct(r)
  {
    if f in fs then fs else fs + [f]
  }

  function WithFormat(r: Report, f: Format): Report {
    r.(formats := Tag(r.formats, f))
  }

  /** `b` extends `a`: formats only appended, content types only added, flags only set, counters only raised. */
  predicate Grows(a: Report, b: Report) {
    a.formats <= b.formats && a.contentTypes <= b.contentTypes
    && (a.itemsConfig ==> b.itemsConfig) && (a.categoriesConfig ==> b.categoriesConfig)
    && (a.resourceFiles ==> b.resourceFiles)
    && a.itemCount <= b.itemCount && a.textureCount <= b.textureCount && a.modelCount <= b.modelCount
  }

  // ---------------------------------------------------------------------------------------
  // Format detection on one document

  /**
    A loop that returns True at the first element the test accepts and stops, raising, at the
    first element whose test raises (None); False when it runs to the end.
  */
  function Scan<T>(xs: seq<T>, test: T -> Option<bool>): Option<bool>
    decreases |xs|
  {
    if |xs| == 0 then Some(false)
    else if test(xs[0]).None? then None
    else if test(xs[0]).value then Some(true)
    else Scan(xs[1..], test)
  }

  /** The loop finds an element iff one is accepted with every earlier one rejected without a raise, and runs out iff none raises or is accepted. */
  lemma {:induction false} ScanFinds<T>(xs: seq<T>, test: T -> Option<bool>)
    ensures Scan(xs, test) == Some(true) <==>
      exists i :: 0 <= i < |xs| && test(xs[i]) == Some(true) && forall j :: 0 <= j < i ==> test(xs[j]) == Some(false)
    ensures Scan(xs, test) == Some(false) <==> forall i :: 0 <= i < |xs| ==> test(xs[i]) == Some(false)
    ensures (forall i :: 0 <= i < |xs| ==> test(xs[i]).Some?) ==> Scan(xs, test).Some?
    decreases |xs|
  {
    if |xs| > 0 {
      var rest := xs[1..];
      ScanFinds(rest, test);
      if test(xs[0]) == Some(false) {
        if Scan(rest, test) == Some(true) {
          var i :| 0 <= i < |rest| && test(rest[i]) == Some(true) && forall j :: 0 <= j < i ==> test(rest[j]) == Some(false);
          assert test(xs[i + 1]) == Some(true);
          assert forall j :: 0 <= j < i + 1 ==> test(xs[j]) == Some(false) by {
            forall j | 0 <= j < i + 1 ensures test(xs[j]) == Some(false) {
              if j > 0 { assert xs[j] == rest[j - 1]; }
            }
          }
        }
        if exists i :: 0 <= i < |xs| && test(xs[i]) == Some(true) && forall j :: 0 <= j < i ==> test(xs[j]) == Some(false) {
          var i :| 0 <= i < |xs| && test(xs[i]) == Some(true) && forall j :: 0 <= j < i ==> test(xs[j]) == Some(false);
          assert i > 0 && test(rest[i - 1]) == Some(true);
          assert forall j :: 0 <= j < i - 1 ==> test(rest[j]) == Some(false) by {
            forall j | 0 <= j < i - 1 ensures test(rest[j]) == Some(false) {
              assert rest[j] == xs[j + 1];
            }
          }
        }
        if forall i :: 0 <= i < |rest| ==> test(rest[i]) == Some(false) {
          forall i | 0 <= i < |xs| ensures test(xs[i]) == Some(false) {
            if i > 0 { assert xs[i] == rest[i - 1]; }
          }
        }
        if forall i :: 0 <= i < |xs| ==> test(xs[i]) == Some(false) {
          forall i | 0 <= i < |rest| ensures test(rest[i]) == Some(false) {
            assert rest[i] == xs[i + 1];
          }
        }
        if forall i :: 0 <= i < |xs| ==> test(xs[i]).Some? {
          forall i | 0 <= i < |rest| ensures test(rest[i]).Some? {
            assert rest[i] == xs[i + 1];
          }
        }
      }
    }
  }

  /** The first value of a mapping (`next(iter(d.values()), {})`); parsed documents have distinct keys. */
  function FirstValue(es: Entries): Value {
    if |es| == 0 then Dict([]) else es[0].1
  }

  /**
    The key loop of `_is_ia_config`: `items` comes first in its key list and is the only key
    looked into; whether the other keys are present never decides anything.
  */
  function IaItems(data: Value): Option<bool> {
    var hasItems := PyIn("items", data);
    if hasItems.None? then None
    else if !hasItems.value then Some(false)
    else
      var items := Subscript(data, "items");
      if items.None? then None
      else if !items.value.Dict? then Some(false)
      else
        var first := FirstValue(items.value.entries);
        var hasResource := PyIn("resource", first);
        if hasResource.None? then None
        else if hasResource.value then Some(true)
        else PyIn("behaviours", first)
  }

  /** `_is_ia_config`; None when it raises. */
  function IsIaConfig(data: Value): (r: Option<bool>)
    ensures r == Some(true) ==> data.Dict?
  {
    var hasInfo := PyIn("info", data);
    if hasInfo.None? then None
    else if !hasInfo.value then IaItems(data)
    else
      var info := Subscript(data, "info");
      if info.None? then None
      else
        var hasNamespace := PyIn("namespace", info.value);
        if hasNamespace.None? then None
        else if hasNamespace.value then Some(true)
        else IaItems(data)
  }

  /** `info` is a mapping holding `namespace`. */
  predicate InfoHasNamespace(data: Value) {
    Get(data, "info").Some? && Get(data, "info").value.Dict? && Has(Get(data, "info").value, "namespace")
  }

  /** `items` is a mapping whose first item holds `resource` or `behaviours`. */
  predicate FirstItemLooksIa(data: Value) {
    Get(data, "items").Some? && Get(data, "items").value.Dict?
    && var first := FirstValue(Get(data, "items").value.entries);
       Has(first, "resource") || Has(first, "behaviours")
  }

  /**
    For a mapping whose `info` (when present) is a mapping and whose first item (when `items` is
    a mapping) is a mapping, `_is_ia_config` is true iff `info` has `namespace` or the first item
    has `resource` or `behaviours`.
  */
  lemma IaConfigCharacterised(data: Value)
    requires data.Dict?
    requires Get(data, "info").Some? ==> Get(data, "info").value.Dict?
    requires Get(data, "items").Some? && Get(data, "items").value.Dict? ==>
      FirstValue(Get(data, "items").value.entries).Dict?
    ensures IsIaConfig(data) == Some(InfoHasNamespace(data) || FirstItemLooksIa(data))
  {
  }

  /** Only `info` and `items` decide `_is_ia_config`: mappings that agree on them get the same answer. */
  lemma IaConfigOnlyInfoAndItems(d1: Value, d2: Value)
    requires d1.Dict? && d2.Dict?
    requires Get(d1, "info") == Get(d2, "info") && Get(d1, "items") == Get(d2, "items")
    ensures IsIaConfig(d1) == IsIaConfig(d2)
  {
  }

  /** `item["behavior"]["type"] == "furniture_item"`, behind `"type" in item["behavior"]`. */
  function FurnitureBehavior(behavior: Option<Value>): Option<bool> {
    if behavior.None? then None
    else
      var hasType := PyIn("type", behavior.value);
      if hasType.None? then None
      else if !hasType.value then Some(false)
      else
        var ty := Subscript(behavior.value, "type");
        if ty.None? then None else Some(ty.value == Str("furniture_item"))
  }

  /** One iteration of `_is_ce_config`'s loop: a furniture behaviour, else a `model` key. */
  function CeMark(item: Value): Option<bool> {
    var hasBehavior := PyIn("behavior", item);
    if hasBehavior.None? then None
    else
      var furniture := if hasBehavior.value then FurnitureBehavior(Subscript(item, "behavior")) else Some(false);
      if furniture.None? then None
      else if furniture.value then Some(true)
      else PyIn("model", item)
  }

  /** The loop test of `_is_ce_config` on one `(key, item)` entry. */
  function CeEntry(e: (string, Value)): Option<bool> {
    CeMark(e.1)
  }

  /** `_is_ce_config`; None when it raises. */
  function IsCeConfig(data: Value): Option<bool> {
    var hasItems := PyIn("items", data);
    if hasItems.None? then None
    else if !hasItems.value then Some(false)
    else
      var items := Subscript(data, "items");
      if items.None? || !items.value.Dict? then None
      else Scan(items.value.entries, CeEntry)
  }

  /** An item with `behavior.type == "furniture_item"` or with a `model` key. */
  predicate CeItem(item: Value) {
    (Get(item, "behavior").Some? && Get(Get(item, "behavior").value, "type") == Some(Str("furniture_item")))
    || Has(item, "model")
  }

  /** Items that are mappings, each `behavior` a mapping: nothing in `_is_ce_config` can raise on them. */
  predicate PlainItems(es: Entries) {
    forall i :: 0 <= i < |es| ==> es[i].1.Dict? && (Get(es[i].1, "behavior").Some? ==> Get(es[i].1, "behavior").value.Dict?)
  }

  /** On a mapping whose `behavior` (when present) is a mapping, one loop iteration decides by `CeItem`. */
  lemma CeMarkPlain(item: Value)
    requires item.Dict? && (Get(item, "behavior").Some? ==> Get(item, "behavior").value.Dict?)
    ensures CeMark(item) == Some(CeItem(item))
  {
  }

  /** Some item has a furniture behaviour or a model. */
  predicate AnyCeItem(es: Entries) {
    exists i :: 0 <= i < |es| && CeItem(es[i].1)
  }

  /** On plain items the loop of `_is_ce_config` runs without raising and finds exactly the items `CeItem` accepts. */
  lemma {:induction false} CeScanPlain(es: Entries)
    requires PlainItems(es)
    ensures Scan(es, CeEntry) == Some(AnyCeItem(es))
    decreases |es|
  {
    if |es| > 0 {
      var rest := es[1..];
      CeMarkPlain(es[0].1);
      assert PlainItems(rest) by {
        forall i | 0 <= i < |rest| ensures rest[i] == es[i + 1] { }
      }
      CeScanPlain(rest);
      if CeItem(es[0].1) {
        assert AnyCeItem(es);
      } else {
        if AnyCeItem(rest) {
          var i :| 0 <= i < |rest| && CeItem(rest[i].1);
          assert es[i + 1] == rest[i];
        }
        if AnyCeItem(es) {
          var i :| 0 <= i < |es| && CeItem(es[i].1);
          assert i > 0 && rest[i - 1] == es[i];
        }
      }
    }
  }

  /** On plain items, `_is_ce_config` is true iff some item has a furniture behaviour or a model. */
  lemma CeConfigCharacterised(data: Value)
    requires data.Dict? && Get(data, "items").Some? && Get(data, "items").value.Dict?
    requires PlainItems(Get(data, "items").value.entries)
    ensures IsCeConfig(data) == Some(AnyCeItem(Get(data, "items").value.entries))
  {
    var es := Get(data, "items").value.entries;
    assert IsCeConfig(data) == Scan(es, CeEntry);
    CeScanPlain(es);
  }

  /** One iteration of `_is_nexo_config`'s loop over the top-level values. */
  function NexoMark(value: Value): Option<bool> {
    if !value.Dict? then Some(false)
    else if HasKey(value.entries, "Mechanics") then Some(true)
    else if !HasKey(value.entries, "Pack") then Some(false)
    else PyIn("generate", Lookup(value.entries, "Pack").value)
  }

  /** The loop test of `_is_nexo_config` on one `(key, value)` entry. */
  function NexoEntry(e: (string, Value)): Option<bool> {
    NexoMark(e.1)
  }

  /** `_is_nexo_config`, with the `"item_id" in str(data)` test given as `reprHasItemId`. */
  function IsNexoConfig(data: Value, reprHasItemId: bool): Option<bool> {
    if reprHasItemId then Some(true)
    else if !data.Dict? then Some(false)
    else Scan(data.entries, NexoEntry)
  }

  /** Without `item_id` in the text, a Nexo document is a mapping with a value holding `Mechanics` or a `Pack` with `generate`. */
  lemma NexoConfigWitness(data: Value)
    requires IsNexoConfig(data, false) == Some(true)
    ensures data.Dict?
    ensures exists i :: (0 <= i < |data.entries| && data.entries[i].1.Dict?
      && (Has(data.entries[i].1, "Mechanics")
          || (Has(data.entries[i].1, "Pack") && PyIn("generate", Get(data.entries[i].1, "Pack").value) == Some(true))))
  {
    ScanFinds(data.entries, NexoEntry);
    var i :| 0 <= i < |data.entries| && NexoEntry(data.entries[i]) == Some(true)
      && forall j :: 0 <= j < i ==> NexoEntry(data.entries[j]) == Some(false);
    assert NexoMark(data.entries[i].1) == Some(true);
  }

  /** A top-level value that marks a Nexo document: a mapping with `Mechanics`, or with a `Pack` that has `generate`. */
  predicate NexoItem(v: Value) {
    v.Dict? && (Has(v, "Mechanics") || (Has(v, "Pack") && PyIn("generate", Get(v, "Pack").value) == Some(true)))
  }

  predicate AnyNexoItem(es: Entries) {
    exists i :: 0 <= i < |es| && NexoItem(es[i].1)
  }

  /** Every `Pack` under a top-level mapping is a mapping, a list or a string, so `"generate" in ...` never raises. */
  predicate PlainPacks(es: Entries) {
    forall i :: 0 <= i < |es| ==> (Get(es[i].1, "Pack").Some? ==>
      Get(es[i].1, "Pack").value.Dict? || Get(es[i].1, "Pack").value.List? || Get(es[i].1, "Pack").value.Str?)
  }

  /** On a value whose `Pack` (when present) is a mapping, a list or a string, one loop iteration decides by `NexoItem`. */
  lemma NexoMarkPlain(v: Value)
    requires Get(v, "Pack").Some? ==> Get(v, "Pack").value.Dict? || Get(v, "Pack").value.List? || Get(v, "Pack").value.Str?
    ensures NexoMark(v) == Some(NexoItem(v))
  {
  }

  /** On plain packs the loop of `_is_nexo_config` runs without raising and finds exactly the values `NexoItem` accepts. */
  lemma {:induction false} NexoScanPlain(es: Entries)
    requires PlainPacks(es)
    ensures Scan(es, NexoEntry) == Some(AnyNexoItem(es))
    decreases |es|
  {
    if |es| > 0 {
      var rest := es[1..];
      NexoMarkPlain(es[0].1);
      assert PlainPacks(rest) by {
        forall i | 0 <= i < |rest| ensures rest[i] == es[i + 1] { }
      }
      NexoScanPlain(rest);
      if NexoItem(es[0].1) {
        assert AnyNexoItem(es);
      } else {
        if AnyNexoItem(rest) {
          var i :| 0 <= i < |rest| && NexoItem(rest[i].1);
          assert es[i + 1] == rest[i];
        }
        if AnyNexoItem(es) {
          var i :| 0 <= i < |es| && NexoItem(es[i].1);
          assert i > 0 && rest[i - 1] == es[i];
        }
      }
    }
  }

  /** The loop stops with a find at an accepted element when no earlier test raises. */
  lemma {:induction false} ScanReaches<T>(xs: seq<T>, test: T -> Option<bool>, i: nat)
    requires i < |xs| && test(xs[i]) == Some(true)
    requires forall j :: 0 <= j < i ==> test(xs[j]).Some?
    ensures Scan(xs, test) == Some(true)
    decreases i
  {
    if i > 0 && test(xs[0]) == Some(false) {
      assert forall j :: 0 <= j < i - 1 ==> test(xs[1..][j]).Some? by {
        forall j | 0 <= j < i - 1 ensures test(xs[1..][j]).Some? {
          assert xs[1..][j] == xs[j + 1];
        }
      }
      ScanReaches(xs[1..], test, i - 1);
    }
  }

  /** A value holding `Mechanics` or a `Pack` with `generate` gives the Nexo verdict once every earlier value was examined without a raise. */
  lemma NexoWitnessFound(data: Value, i: nat)
    requires data.Dict? && i < |data.entries| && NexoItem(data.entries[i].1)
    requires forall j :: 0 <= j < i ==> NexoMark(data.entries[j].1).Some?
    ensures IsNexoConfig(data, false) == Some(true)
  {
    assert NexoEntry(data.entries[i]) == Some(true);
    ScanReaches(data.entries, NexoEntry, i);
  }

  /** Without `item_id` in the text and with plain packs, `_is_nexo_config` holds iff the document is a mapping with a Nexo value. */
  lemma NexoConfigCharacterised(data: Value)
    requires data.Dict? ==> PlainPacks(data.entries)
    ensures IsNexoConfig(data, false) == Some(data.Dict? && AnyNexoItem(data.entries))
    ensures IsNexoConfig(data, true) == Some(true)
  {
    if data.Dict? {
      NexoScanPlain(data.entries);
    }
  }

  // ---------------------------------------------------------------------------------------
  // The report after one YAML file

  /** One iteration of the item loop: `"furniture" in item["behaviours"]` behind `"behaviours" in item`. */
  function FurnitureMark(item: Value): Option<bool> {
    var hasBehaviours := PyIn("behaviours", item);
    if hasBehaviours.None? then None
    else if !hasBehaviours.value then Some(false)
    else
      var behaviours := Subscript(item, "behaviours");
      if behaviours.None? then None else PyIn("furniture", behaviours.value)
  }

  /**
    The item loop of `_analyze_yaml`: whether a furniture item comes before the first item that
    raises, and whether the loop ran to the end.
  */
  function FurnitureScan(es: Entries): (bool, bool)
    decreases |es|
  {
    if |es| == 0 then (false, true)
    else if FurnitureMark(es[0].1).None? then (false, false)
    else
      var rest := FurnitureScan(es[1..]);
      (FurnitureMark(es[0].1).value || rest.0, rest.1)
  }

  /** No item of the loop raises. */
  predicate NoneRaise(es: Entries) {
    forall i :: 0 <= i < |es| ==> FurnitureMark(es[i].1).Some?
  }

  /** A furniture item comes before any item that raises. */
  predicate FurnitureFirst(es: Entries) {
    exists i :: 0 <= i < |es| && FurnitureMark(es[i].1) == Some(true) && NoneRaise(es[..i])
  }

  /** The item loop completes iff no item raises. */
  lemma {:induction false} FurnitureScanCompletes(es: Entries)
    ensures FurnitureScan(es).1 <==> NoneRaise(es)
    decreases |es|
  {
    if |es| > 0 && FurnitureMark(es[0].1).Some? {
      var rest := es[1..];
      FurnitureScanCompletes(rest);
      assert forall i :: 0 < i < |es| ==> es[i] == rest[i - 1];
    }
  }

  /** `装饰` is added iff a furniture item comes before any item that raises. */
  lemma {:induction false} FurnitureScanFinds(es: Entries)
    ensures FurnitureScan(es).0 <==> FurnitureFirst(es)
    decreases |es|
  {
    if |es| > 0 && FurnitureMark(es[0].1).Some? {
      var rest := es[1..];
      FurnitureScanFinds(rest);
      if FurnitureMark(es[0].1) == Some(true) {
        assert es[..0] == [];
        assert FurnitureFirst(es);
      } else {
        if FurnitureFirst(rest) {
          var i :| 0 <= i < |rest| && FurnitureMark(rest[i].1) == Some(true) && NoneRaise(rest[..i]);
          assert es[i + 1] == rest[i];
          var pre, restPre := es[..i + 1], rest[..i];
          forall j | 0 <= j < |pre| ensures FurnitureMark(pre[j].1).Some? {
            if j > 0 { assert pre[j] == restPre[j - 1]; }
          }
        }
        if FurnitureFirst(es) {
          var i :| 0 <= i < |es| && FurnitureMark(es[i].1) == Some(true) && NoneRaise(es[..i]);
          assert i > 0 && rest[i - 1] == es[i];
          var pre, restPre := es[..i], rest[..i - 1];
          forall j | 0 <= j < |restPre| ensures FurnitureMark(restPre[j].1).Some? {
            assert restPre[j] == pre[j + 1];
          }
        }
      }
    } else if |es| > 0 {
      forall i | 0 <= i < |es| && FurnitureMark(es[i].1) == Some(true) ensures !NoneRaise(es[..i]) {
        assert es[..i][0] == es[0];
      }
    }
  }

  /** The report after the IA branch of `_analyze_yaml`, and whether it ran to the end without raising. */
  datatype Outcome = Outcome(report: Report, completed: bool)

  /** `if "categories" in data: completeness["categories_config"] = True` */
  function CategoriesSeen(r: Report, es: Entries): Report {
    if HasKey(es, "categories") then r.(categoriesConfig := true) else r
  }

  /** The `if is_ia:` block of `_analyze_yaml` on a mapping. */
  function IaReport(r: Report, es: Entries): Outcome {
    var r1 := WithFormat(r, ItemsAdder);
    if !HasKey(es, "items") then Outcome(CategoriesSeen(r1, es), true)
    else
      var r2 := r1.(itemsConfig := true, contentTypes := r1.contentTypes + {Equipment});
      var items := Lookup(es, "items").value;
      if !items.Dict? then Outcome(CategoriesSeen(r2, es), true)
      else
        var scan := FurnitureScan(items.entries);
        var r3 := r2.(itemCount := r2.itemCount + |items.entries|,
                      contentTypes := r2.contentTypes + (if scan.0 then {Decoration} else {}));
        if scan.1 then Outcome(CategoriesSeen(r3, es), true) else Outcome(r3, false)
  }

  /**
    A file whose analysis changes nothing: unreadable, empty, or a document on which one of
    the three format tests raises.
  */
  predicate Inert(file: YamlFile) {
    file.Unreadable? || !Truthy(file.doc)
    || IsIaConfig(file.doc).None? || IsCeConfig(file.doc).None?
    || IsNexoConfig(file.doc, file.reprHasItemId).None?
  }

  /** The updates `_analyze_yaml` makes once the three format tests have answered `ia`, `ce` and `nexo`. */
  function Classified(r: Report, data: Value, ia: bool, ce: bool, nexo: bool): Report
    requires ia ==> data.Dict?
  {
    var afterIa := if ia then IaReport(r, data.entries) else Outcome(r, true);
    if !afterIa.completed then afterIa.report
    else
      var r1 := if ce then WithFormat(afterIa.report, CraftEngine) else afterIa.report;
      if nexo then WithFormat(r1, Nexo) else r1
  }

  /** `_analyze_yaml`: an exception anywhere ends the file's analysis, keeping what it already recorded. */
  function YamlReport(r: Report, file: YamlFile): Report {
    if Inert(file) then r
    else Classified(r, file.doc, IsIaConfig(file.doc).value, IsCeConfig(file.doc).value,
                    IsNexoConfig(file.doc, file.reprHasItemId).value)
  }

  /** An inert file leaves the report as it was. */
  lemma InertKeepsReport(r: Report, file: YamlFile)
    requires Inert(file)
    ensures YamlReport(r, file) == r
  {
  }

  /** The IA block only grows the report and keeps its formats free of duplicates. */
  lemma IaGrows(r: Report, es: Entries)
    ensures Grows(r, IaReport(r, es).report)
    ensures Distinct(r.formats) ==> Distinct(IaReport(r, es).report.formats)
    ensures ItemsAdder in IaReport(r, es).report.formats
  {
  }

  lemma ClassifiedGrows(r: Report, data: Value, ia: bool, ce: bool, nexo: bool)
    requires ia ==> data.Dict?
    ensures Grows(r, Classified(r, data, ia, ce, nexo))
    ensures Distinct(r.formats) ==> Distinct(Classified(r, data, ia, ce, nexo).formats)
  {
    if ia {
      IaGrows(r, data.entries);
    }
  }

  /** One file's analysis only grows the report and keeps its formats free of duplicates. */
  lemma YamlGrows(r: Report, file: YamlFile)
    ensures Grows(r, YamlReport(r, file))
    ensures Distinct(r.formats) ==> Distinct(YamlReport(r, file).formats)
  {
    if !Inert(file) {
      ClassifiedGrows(r, file.doc, IsIaConfig(file.doc).value, IsCeConfig(file.doc).value,
                      IsNexoConfig(file.doc, file.reprHasItemId).value);
    }
  }

  /**
    An ItemsAdder document whose `items` is a mapping of mappings (so nothing raises): it tags
    ItemsAdder, sets `items_config`, adds `装备`, counts every item, and adds `装饰` iff some
    item's `behaviours` holds `furniture`.
  */
  lemma IaItemsCounted(r: Report, data: Value, reprHasItemId: bool)
    requires IsIaConfig(data) == Some(true)
    requires IsCeConfig(data).Some? && IsNexoConfig(data, reprHasItemId).Some?
    requires Get(data, "items").Some? && Get(data, "items").value.Dict?
    requires NoneRaise(Get(data, "items").value.entries)
    ensures var after := YamlReport(r, Parsed(data, reprHasItemId));
      var es := Get(data, "items").value.entries;
      && ItemsAdder in after.formats && after.itemsConfig && Equipment in after.contentTypes
      && after.itemCount == r.itemCount + |es|
      && (Decoration in after.contentTypes <==>
            Decoration in r.contentTypes || exists i :: 0 <= i < |es| && FurnitureMark(es[i].1) == Some(true))
  {
    var es := Get(data, "items").value.entries;
    assert YamlReport(r, Parsed(data, reprHasItemId)) ==
      Classified(r, data, true, IsCeConfig(data).value, IsNexoConfig(data, reprHasItemId).value);
    FurnitureScanCompletes(es);
    FurnitureScanFinds(es);
    if exists i :: 0 <= i < |es| && FurnitureMark(es[i].1) == Some(true) {
      var i :| 0 <= i < |es| && FurnitureMark(es[i].1) == Some(true);
      assert NoneRaise(es[..i]) by {
        assert forall j :: 0 <= j < i ==> es[..i][j] == es[j];
      }
    }
  }

  // ---------------------------------------------------------------------------------------
  // The report after a directory and after the walk

  /** Whether a step marks format `f` by name: its own basename lower-cased, or a child with exactly that name. */
  predicate MarksFormat(s: WalkStep, f: Format) {
    Lower(Basename(s.root)) == DirName(f) || DirName(f) in s.dirs
  }

  /** The format tags a step's names call for, checked in the order `analyze` checks them. */
  function NameTags(fs: seq<Format>, s: WalkStep): seq<Format> {
    var f1 := if MarksFormat(s, ItemsAdder) then Tag(fs, ItemsAdder) else fs;
    var f2 := if MarksFormat(s, CraftEngine) then Tag(f1, CraftEngine) else f1;
    if MarksFormat(s, Nexo) then Tag(f2, Nexo) else f2
  }

  /** A step's names add exactly the formats they mark, each at most once. */
  lemma NameTagsSpec(fs: seq<Format>, s: WalkStep, f: Format)
    ensures f in NameTags(fs, s) <==> f in fs || MarksFormat(s, f)
    ensures fs <= NameTags(fs, s)
    ensures Distinct(fs) ==> Distinct(NameTags(fs, s))
  {
    assert f == ItemsAdder || f == CraftEngine || f == Nexo;
  }

  /** The resource-folder and resource-pack checks of one step. */
  function FolderReport(r: Report, s: WalkStep): Report {
    var r1 := if "textures" in s.dirs || Contains(s.root, "textures") then
      r.(contentTypes := r.contentTypes + {Textures}, textureCount := r.textureCount + CountEndingWith(s.files, ".png"))
      else r;
    var r2 := if "models" in s.dirs || Contains(s.root, "models") then
      r1.(contentTypes := r1.contentTypes + {Models}, modelCount := r1.modelCount + CountEndingWith(s.files, ".json"))
      else r1;
    if "resourcepack" in s.dirs then r2.(resourceFiles := true) else r2
  }

  /** The folder checks leave the formats alone and only grow the report. */
  lemma FolderGrows(r: Report, s: WalkStep)
    ensures Grows(r, FolderReport(r, s))
    ensures FolderReport(r, s).formats == r.formats
  {
  }

  /** The directory part of one step of `analyze`: names first, then folders. */
  function DirReport(r: Report, s: WalkStep): Report {
    FolderReport(r.(formats := NameTags(r.formats, s)), s)
  }

  /** A step's directory part tags exactly the formats its names mark, and only grows the report. */
  lemma DirTags(r: Report, s: WalkStep, f: Format)
    ensures f in DirReport(r, s).formats <==> f in r.formats || MarksFormat(s, f)
    ensures Grows(r, DirReport(r, s))
    ensures Distinct(r.formats) ==> Distinct(DirReport(r, s).formats)
  {
    NameTagsSpec(r.formats, s, f);
    FolderGrows(r.(formats := NameTags(r.formats, s)), s);
  }

  predicate IsYaml(name: string) {
    EndsWith(name, ".yml") || EndsWith(name, ".yaml")
  }

  /** `os.path.join(root, name)` for a plain file name. */
  function PathJoin(root: string, name: string): string {
    if root == "" || EndsWith(root, "/") then root + name else root + "/" + name
  }

  /** The parsed file at a path; a path with no entry cannot be opened. */
  function Read(docs: map<string, YamlFile>, path: string): YamlFile {
    if path in docs then docs[path] else Unreadable
  }

  /** The YAML files of one directory analysed in order. */
  function FilesReport(r: Report, root: string, files: seq<string>, docs: map<string, YamlFile>): Report
    decreases |files|
  {
    if |files| == 0 then r
    else
      var before := FilesReport(r, root, files[..|files| - 1], docs);
      var name := files[|files| - 1];
      if IsYaml(name) then YamlReport(before, Read(docs, PathJoin(root, name))) else before
  }

  /** Analysing one more file of the directory. */
  lemma FilesReportSnoc(r: Report, root: string, files: seq<string>, i: nat, docs: map<string, YamlFile>)
    requires i < |files|
    ensures var before := FilesReport(r, root, files[..i], docs);
      FilesReport(r, root, files[..i + 1], docs) ==
        if IsYaml(files[i]) then YamlReport(before, Read(docs, PathJoin(root, files[i]))) else before
  {
    assert files[..i + 1][..i] == files[..i];
  }

  /** One step of `analyze`. */
  function StepReport(r: Report, s: WalkStep, docs: map<string, YamlFile>): Report {
    FilesReport(DirReport(r, s), s.root, s.files, docs)
  }

  /** The whole walk. */
  function WalkReport(r: Report, walk: seq<WalkStep>, docs: map<string, YamlFile>): Report
    decreases |walk|
  {
    if |walk| == 0 then r
    else StepReport(WalkReport(r, walk[..|walk| - 1], docs), walk[|walk| - 1], docs)
  }

  lemma {:induction false} FilesGrow(r: Report, root: string, files: seq<string>, docs: map<string, YamlFile>)
    ensures Grows(r, FilesReport(r, root, files, docs))
    ensures Distinct(r.formats) ==> Distinct(FilesReport(r, root, files, docs).formats)
    decreases |files|
  {
    if |files| > 0 {
      var before := FilesReport(r, root, files[..|files| - 1], docs);
      FilesGrow(r, root, files[..|files| - 1], docs);
      YamlGrows(before, Read(docs, PathJoin(root, files[|files| - 1])));
    }
  }

  /** One step only grows the report and keeps its formats free of duplicates. */
  lemma StepGrows(r: Report, s: WalkStep, docs: map<string, YamlFile>)
    ensures Grows(r, StepReport(r, s, docs))
    ensures Distinct(r.formats) ==> Distinct(StepReport(r, s, docs).formats)
  {
    DirTags(r, s, ItemsAdder);
    FilesGrow(DirReport(r, s), s.root, s.files, docs);
  }

  /**
    The walk only grows the report: no format is listed twice, flags once set stay set, and
    the counters never decrease.
  */
  lemma {:induction false} WalkGrows(r: Report, walk: seq<WalkStep>, docs: map<string, YamlFile>)
    ensures Grows(r, WalkReport(r, walk, docs))
    ensures Distinct(r.formats) ==> Distinct(WalkReport(r, walk, docs).formats)
    decreases |walk|
  {
    if |walk| > 0 {
      WalkGrows(r, walk[..|walk| - 1], docs);
      StepGrows(WalkReport(r, walk[..|walk| - 1], docs), walk[|walk| - 1], docs);
    }
  }

  /** A directory of the walk named after a format, or with a child so named, puts the format in the report. */
  lemma {:induction false} WalkTagsMarkedDirs(r: Report, walk: seq<WalkStep>, docs: map<string, YamlFile>, k: nat, f: Format)
    requires k < |walk| && MarksFormat(walk[k], f)
    ensures f in WalkReport(r, walk, docs).formats
    decreases |walk|
  {
    var pre := walk[..|walk| - 1];
    var before := WalkReport(r, pre, docs);
    if k < |walk| - 1 {
      assert pre[k] == walk[k];
      WalkTagsMarkedDirs(r, pre, docs, k, f);
    } else {
      DirTags(before, walk[k], f);
    }
    var s := walk[|walk| - 1];
    DirTags(before, s, f);
    FilesGrow(DirReport(before, s), s.root, s.files, docs);
  }

  /** Dropping an inert file from a directory listing changes nothing: its failure ends only its own analysis. */
  lemma {:induction false} InertFileSkipped(r: Report, root: string, pre: seq<string>, name: string, post: seq<string>, docs: map<string, YamlFile>)
    requires Inert(Read(docs, PathJoin(root, name)))
    ensures FilesReport(r, root, pre + [name] + post, docs) == FilesReport(r, root, pre + post, docs)
    decreases |post|
  {
    if |post| == 0 {
      assert (pre + [name] + post)[..|pre| + 1 - 1] == pre;
      assert pre + post == pre;
    } else {
      var init := post[..|post| - 1];
      InertFileSkipped(r, root, pre, name, init, docs);
      assert (pre + [name] + post)[..|pre + [name] + post| - 1] == pre + [name] + init;
      assert (pre + post)[..|pre + post| - 1] == pre + init;
    }
  }

  // ---------------------------------------------------------------------------------------
  // The analyzer object

  class PackageAnalyzer {
    const extractPath: string
    var formats: seq<Format>
    var contentTypes: set<ContentType>
    var itemsConfig: bool
    var categoriesConfig: bool
    var resourceFiles: bool
    var itemCount: nat
    var textureCount: nat
    var modelCount: nat

    /** The report held by the object. */
    function Snapshot(): Report
      reads this
    {
      Report(formats, contentTypes, itemsConfig, categoriesConfig, resourceFiles, itemCount, textureCount, modelCount)
    }

    constructor (extractPath: string)
      ensures this.extractPath == extractPath && Snapshot() == Initial
    {
      this.extractPath := extractPath;
      formats := [];
      contentTypes := {};
      itemsConfig := false;
      categoriesConfig := false;
      resourceFiles := false;
      itemCount := 0;
      textureCount := 0;
      modelCount := 0;
    }

    /**
      `analyze`: every step of the walk of `extractPath`, then `content_types` handed out as a
      list holding each gathered type once.
    */
    method Analyze(walk: seq<WalkStep>, docs: map<string, YamlFile>) returns (types: seq<ContentType>)
      modifies this
      ensures Snapshot() == WalkReport(old(Snapshot()), walk, docs)
      ensures forall t :: t in types <==> t in contentTypes
      ensures Distinct(types)
    {
      var i := 0;
      while i < |walk|
        invariant i <= |walk|
        invariant Snapshot() == WalkReport(old(Snapshot()), walk[..i], docs)
      {
        AnalyzeStep(walk[i], docs);
        assert walk[..i + 1][..i] == walk[..i];
        i := i + 1;
      }
      assert walk[..i] == walk;
      types := ContentTypeList();
    }

    /** `list(self.report["content_types"])`, in whatever order the set yields. */
    method ContentTypeList() returns (types: seq<ContentType>)
      ensures forall t :: t in types <==> t in contentTypes
      ensures Distinct(types)
    {
      var rest := contentTypes;
      types := [];
      while rest != {}
        invariant rest <= contentTypes
        invariant forall t :: t in types <==> t in contentTypes && t !in rest
        invariant Distinct(types)
        decreases rest
      {
        var t :| t in rest;
        types := types + [t];
        rest := rest - {t};
      }
    }

    /** One step of `analyze`'s walk. */
    method AnalyzeStep(s: WalkStep, docs: map<string, YamlFile>)
      modifies this
      ensures Snapshot() == StepReport(old(Snapshot()), s, docs)
    {
      AnalyzeDir(s);
      ghost var start := Snapshot();
      var i := 0;
      while i < |s.files|
        invariant i <= |s.files|
        invariant Snapshot() == FilesReport(start, s.root, s.files[..i], docs)
      {
        var name := s.files[i];
        FilesReportSnoc(start, s.root, s.files, i, docs);
        if IsYaml(name) {
          AnalyzeYaml(Read(docs, PathJoin(s.root, name)));
        }
        i := i + 1;
      }
      assert s.files[..i] == s.files;
    }

    /** `if f not in self.report["formats"]: ...append(f)` */
    method AddFormat(f: Format)
      modifies this`formats
      ensures formats == Tag(old(formats), f)
    {
      if f !in formats {
        formats := formats + [f];
      }
    }

    /** The directory-name, resource-folder and resource-pack checks of one walk step. */
    method AnalyzeDir(s: WalkStep)
      modifies this
      ensures Snapshot() == DirReport(old(Snapshot()), s)
    {
      TagNames(s);
      RecordFolders(s);
    }

    /** The basename of the directory, lower-cased, or a child directory, naming a format. */
    method TagNames(s: WalkStep)
      modifies this`formats
      ensures formats == NameTags(old(formats), s)
    {
      var name := Lower(Basename(s.root));
      if name == "itemsadder" || "itemsadder" in s.dirs {
        AddFormat(ItemsAdder);
      }
      if name == "craftengine" || "craftengine" in s.dirs {
        AddFormat(CraftEngine);
      }
      if name == "nexo" || "nexo" in s.dirs {
        AddFormat(Nexo);
      }
    }

    /** Texture and model folders counted, a resource pack noted. */
    method RecordFolders(s: WalkStep)
      modifies this
      ensures Snapshot() == FolderReport(old(Snapshot()), s)
    {
      if "textures" in s.dirs || Contains(s.root, "textures") {
        contentTypes := contentTypes + {Textures};
        textureCount := textureCount + CountEndingWith(s.files, ".png");
      }
      if "models" in s.dirs || Contains(s.root, "models") {
        contentTypes := contentTypes + {Models};
        modelCount := modelCount + CountEndingWith(s.files, ".json");
      }
      if "resourcepack" in s.dirs {
        resourceFiles := true;
      }
    }

    /** `_analyze_yaml`: the three format tests first, then the updates they call for. */
    method AnalyzeYaml(file: YamlFile)
      modifies this
      ensures Snapshot() == YamlReport(old(Snapshot()), file)
    {
      if file.Unreadable? || !Truthy(file.doc) {
        return;
      }
      var data := file.doc;
      var isIa := IsIaConfig(data);
      var isCe := IsCeConfig(data);
      var isNexo := IsNexoConfig(data, file.reprHasItemId);
      if isIa.None? || isCe.None? || isNexo.None? {
        return;
      }
      Record(data, isIa.value, isCe.value, isNexo.value);
    }

    /** The updates of `_analyze_yaml` once the three format tests have answered. */
    method Record(data: Value, ia: bool, ce: bool, nexo: bool)
      requires ia ==> data.Dict?
      modifies this
      ensures Snapshot() == Classified(old(Snapshot()), data, ia, ce, nexo)
    {
      if ia {
        var completed := RecordIa(data.entries);
        if !completed {
          return;
        }
      }
      if ce {
        AddFormat(CraftEngine);
      }
      if nexo {
        AddFormat(Nexo);
      }
    }

    /** The `if is_ia:` block; `completed` is false when the item loop raised. */
    method RecordIa(es: Entries) returns (completed: bool)
      modifies this
      ensures Outcome(Snapshot(), completed) == IaReport(old(Snapshot()), es)
    {
      AddFormat(ItemsAdder);
      if HasKey(es, "items") {
        itemsConfig := true;
        contentTypes := contentTypes + {Equipment};
        var items := Lookup(es, "items").value;
        if items.Dict? {
          itemCount := itemCount + |items.entries|;
          completed := ScanItems(items.entries);
          if !completed {
            return;
          }
        }
      }
      if HasKey(es, "categories") {
        categoriesConfig := true;
      }
      completed := true;
    }

    /** `for item in data["items"].values(): ...`, adding `装饰` for furniture items. */
    method ScanItems(es: Entries) returns (completed: bool)
      modifies this`contentTypes
      ensures contentTypes == old(contentTypes) + (if FurnitureScan(es).0 then {Decoration} else {})
      ensures completed == FurnitureScan(es).1
    {
      ghost var found := false;
      var i := 0;
      while i < |es|
        invariant i <= |es|
        invariant contentTypes == old(contentTypes) + (if found then {Decoration} else {})
        invariant FurnitureScan(es) == (found || FurnitureScan(es[i..]).0, FurnitureScan(es[i..]).1)
      {
        assert es[i..][1..] == es[i + 1..];
        var mark := FurnitureMark(es[i].1);
        if mark.None? {
          return false;
        }
        if mark.value {
          contentTypes := contentTypes + {Decoration};
          found := true;
        }
        i := i + 1;
      }
      completed := true;
    }
  }
}
