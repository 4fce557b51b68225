/**
  `IAMigrator` (src/migrators/ia_to_ce.py): copies an ItemsAdder resource pack's textures and
  models into a CraftEngine pack under `item/`, rewrites in-namespace references inside the
  model JSON, and writes a basic model for every item texture that has none.

  A pack is a finite map from paths to file contents. The order in which `os.walk` lists
  files is an input the model does not fix: each copy loop is proved to give the same pack
  whatever that order is.
*/
module Migrator {
  import opened Wrappers
  import opened Text
  import opened Document

  /**
    A file of a pack: `assets/<ns>/<kind>/<rel...>/<name>`, or any other file, given by its
    path segments. `rel` is empty for a file directly in the `<kind>` directory, where
    `os.path.relpath` gives `.`.
  */
  datatype Path =
    | Asset(ns: string, kind: string, rel: seq<string>, name: string)
    | Other(segments: seq<string>)

  /** A file: parsed JSON, or bytes the migrator only copies. */
  datatype Content = Json(doc: Value) | Raw(bytes: seq<bv8>)

  type Tree = map<Path, Content>

  const TexturesDir: string := "textures"
  const ModelsDir: string := "models"
  const ItemDir: string := "item"
  const GeneratedParent: string := "minecraft:item/generated"

  // ---------------------------------------------------------------------------------------
  // Placing a set of files along a path mapping

  /** The three copy steps, each with its own destination for a source path. */
  datatype Route = TextureCopy | ModelCopy | MissingModel

  function Target(ns: string, route: Route, p: Path): Path {
    match route
    case TextureCopy => TextureTarget(ns, p)
    case ModelCopy => ModelTarget(ns, p)
    case MissingModel => MissingModelTarget(ns, p)
  }

  predicate Injective(ns: string, route: Route, sources: set<Path>) {
    forall p, q :: p in sources && q in sources && p != q ==> Target(ns, route, p) != Target(ns, route, q)
  }

  /** The files `sources` of `src`, each at its destination. */
  function Placed(ns: string, route: Route, sources: set<Path>, src: Tree): Tree
    requires sources <= src.Keys && Injective(ns, route, sources)
  {
    map p | p in sources :: Target(ns, route, p) := src[p]
  }

  /** Each source lands at its destination, and nothing else is placed. */
  lemma PlacedSpec(ns: string, route: Route, sources: set<Path>, src: Tree)
    requires sources <= src.Keys && Injective(ns, route, sources)
    ensures forall p :: p in sources ==>
      Target(ns, route, p) in Placed(ns, route, sources, src) && Placed(ns, route, sources, src)[Target(ns, route, p)] == src[p]
    ensures forall d :: d in Placed(ns, route, sources, src) ==> exists p :: p in sources && d == Target(ns, route, p)
  {
    forall p | p in sources
      ensures Placed(ns, route, sources, src)[Target(ns, route, p)] == src[p]
    {
      var d := Target(ns, route, p);
      var q :| q in sources && Target(ns, route, q) == d && Placed(ns, route, sources, src)[d] == src[q];
    }
  }

  /** Placing one more file is one more map update. */
  lemma PlaceOne(ns: string, route: Route, done: set<Path>, p: Path, src: Tree)
    requires done + {p} <= src.Keys && Injective(ns, route, done + {p}) && p !in done
    ensures Placed(ns, route, done + {p}, src) == Placed(ns, route, done, src)[Target(ns, route, p) := src[p]]
  {
    var a := Placed(ns, route, done + {p}, src);
    var b := Placed(ns, route, done, src)[Target(ns, route, p) := src[p]];
    forall d | d in a
      ensures d in b && a[d] == b[d]
    {
      var q :| q in done + {p} && d == Target(ns, route, q);
    }
    forall d | d in b
      ensures d in a
    {
      if d != Target(ns, route, p) {
        var q :| q in done && d == Target(ns, route, q);
      }
    }
  }

  lemma PlaceStep(base: Tree, ns: string, route: Route, sources: set<Path>, done: set<Path>, p: Path, src: Tree)
    requires sources <= src.Keys && Injective(ns, route, sources)
    requires done <= sources && p in sources && p !in done
    ensures base + Placed(ns, route, done + {p}, src) == (base + Placed(ns, route, done, src))[Target(ns, route, p) := src[p]]
  {
    PlaceOne(ns, route, done, p, src);
  }

  /** Writing the files of `order` one after the other; a path `src` lacks is skipped. */
  function Replay(ns: string, route: Route, base: Tree, order: seq<Path>, src: Tree): Tree
    decreases |order|
  {
    if order == [] then base
    else
      var pre := Replay(ns, route, base, order[..|order| - 1], src);
      var p := order[|order| - 1];
      if p in src then pre[Target(ns, route, p) := src[p]] else pre
  }

  lemma ReplaySnoc(ns: string, route: Route, base: Tree, order: seq<Path>, p: Path, src: Tree)
    ensures Replay(ns, route, base, order + [p], src) ==
      if p in src then Replay(ns, route, base, order, src)[Target(ns, route, p) := src[p]]
      else Replay(ns, route, base, order, src)
  {
    assert (order + [p])[..|order|] == order;
  }

  /** Writing files only adds destinations. */
  lemma {:induction false} ReplayGrows(ns: string, route: Route, base: Tree, order: seq<Path>, src: Tree)
    ensures base.Keys <= Replay(ns, route, base, order, src).Keys
    decreases |order|
  {
    if order != [] {
      ReplayGrows(ns, route, base, order[..|order| - 1], src);
    }
  }

  /** A destination no file of `order` is written to is present only if it was in `base`. */
  lemma {:induction false} ReplayOther(ns: string, route: Route, base: Tree, order: seq<Path>, src: Tree, d: Path)
    requires forall i :: 0 <= i < |order| && order[i] in src ==> Target(ns, route, order[i]) != d
    ensures d in Replay(ns, route, base, order, src) ==> d in base
    decreases |order|
  {
    if order != [] {
      ReplayOther(ns, route, base, order[..|order| - 1], src, d);
    }
  }

  /**
    Whatever the order, writing the files of `done` once each gives the same pack: the
    ones present in `src` placed at their destinations over `base`.
  */
  lemma {:induction false} ReplayPlaced(ns: string, route: Route, base: Tree, order: seq<Path>, done: set<Path>, src: Tree)
    requires Injective(ns, route, done * src.Keys)
    requires Distinct(order) && (forall x :: x in order <==> x in done)
    ensures Replay(ns, route, base, order, src) == base + Placed(ns, route, done * src.Keys, src)
    decreases |order|
  {
    if order != [] {
      var init := order[..|order| - 1];
      var p := order[|order| - 1];
      var pre := done - {p};
      assert forall x :: x in init <==> x in pre by {
        forall x | x in init ensures x != p {
          var i :| 0 <= i < |init| && init[i] == x;
          assert order[i] == x;
        }
        assert forall x :: x in order <==> x in init || x == p;
      }
      assert pre * src.Keys <= done * src.Keys;
      ReplayPlaced(ns, route, base, init, pre, src);
      if p in src {
        PlaceStep(base, ns, route, done * src.Keys, pre * src.Keys, p, src);
        assert pre * src.Keys + {p} == done * src.Keys;
      } else {
        assert pre * src.Keys == done * src.Keys;
      }
    } else {
      assert done * src.Keys == {};
    }
  }

  // ---------------------------------------------------------------------------------------
  // Textures

  /** A `.png` or `.mcmeta` file under `assets/<ns>/textures`. */
  predicate IsTextureFile(ns: string, p: Path) {
    p.Asset? && p.ns == ns && p.kind == TexturesDir && (EndsWith(p.name, ".png") || EndsWith(p.name, ".mcmeta"))
  }

  /** An armour layer (`layer_` in the name) keeps its directory; anything else moves under `item/`. */
  function TextureTarget(ns: string, p: Path): Path {
    if p.Other? then p
    else Asset(ns, TexturesDir, if Contains(p.name, "layer_") then p.rel else [ItemDir] + p.rel, p.name)
  }

  function TextureSources(ns: string, t: Tree): set<Path> {
    set p | p in t && IsTextureFile(ns, p)
  }

  /** Two texture files never land on the same destination. */
  lemma TextureTargetsDiffer(ns: string, p: Path, q: Path)
    requires IsTextureFile(ns, p) && IsTextureFile(ns, q) && p != q
    ensures TextureTarget(ns, p) != TextureTarget(ns, q)
  {
    var tp, tq := TextureTarget(ns, p), TextureTarget(ns, q);
    assert !Contains(p.name, "layer_") ==> tp.rel[1..] == p.rel;
    assert !Contains(q.name, "layer_") ==> tq.rel[1..] == q.rel;
  }

  lemma TextureTargetInjective(ns: string, sources: set<Path>)
    requires forall p :: p in sources ==> IsTextureFile(ns, p)
    ensures Injective(ns, TextureCopy, sources)
  {
    forall p, q | p in sources && q in sources && p != q
      ensures TextureTarget(ns, p) != TextureTarget(ns, q)
    {
      TextureTargetsDiffer(ns, p, q);
    }
  }

  /** The pack after `_migrate_textures`. */
  function TexturesMigrated(ns: string, input: Tree, output: Tree): Tree {
    TextureTargetInjective(ns, TextureSources(ns, input));
    output + Placed(ns, TextureCopy, TextureSources(ns, input), input)
  }

  // ---------------------------------------------------------------------------------------
  // Models

  predicate IsModelFile(ns: string, p: Path) {
    p.Asset? && p.ns == ns && p.kind == ModelsDir && EndsWith(p.name, ".json")
  }

  /** `models/<rel>/<file>` -> `models/item/<rel>/<file>` */
  function ModelTarget(ns: string, p: Path): Path {
    if p.Other? then p else Asset(ns, ModelsDir, [ItemDir] + p.rel, p.name)
  }

  lemma ModelTargetsDiffer(ns: string, p: Path, q: Path)
    requires IsModelFile(ns, p) && IsModelFile(ns, q) && p != q
    ensures ModelTarget(ns, p) != ModelTarget(ns, q)
  {
    var tp, tq := ModelTarget(ns, p), ModelTarget(ns, q);
    assert tp.rel[1..] == p.rel && tq.rel[1..] == q.rel;
  }

  lemma ModelTargetInjective(ns: string, sources: set<Path>)
    requires forall p :: p in sources ==> IsModelFile(ns, p)
    ensures Injective(ns, ModelCopy, sources)
  {
    forall p, q | p in sources && q in sources && p != q
      ensures ModelTarget(ns, p) != ModelTarget(ns, q)
    {
      ModelTargetsDiffer(ns, p, q);
    }
  }

  function RewriteRef(ns: string, s: string): string {
    if StartsWith(s, ns + ":") then
      assert s[|ns|] == (ns + ":")[|ns|];
      ns + ":item/" + AfterFirst(s, ':')
    else s
  }

  /**
    With a namespace free of `:`, the rewrite inserts `item/` right after `ns:` and keeps the
    rest; it touches no reference to another namespace.
  */
  lemma RewriteRefSpec(ns: string, s: string)
    requires ':' !in ns
    ensures StartsWith(s, ns + ":") ==> RewriteRef(ns, s) == ns + ":item/" + s[|ns| + 1..]
    ensures !StartsWith(s, ns + ":") ==> RewriteRef(ns, s) == s
    ensures StartsWith(RewriteRef(ns, s), ns + ":") <==> StartsWith(s, ns + ":")
  {
    if StartsWith(s, ns + ":") {
      var rest := s[|ns| + 1..];
      assert s == ns + [':'] + rest;
      AfterFirstPrefix(ns, ':', rest);
      var r := ns + ":item/" + rest;
      assert r[..|ns| + 1] == ns + ":";
    }
  }

  /** The new `textures` map: None when a value is not a string (`startswith` raises). */
  function RewriteTextures(ns: string, es: Entries): (r: Option<Entries>)
    ensures r.Some? <==> forall i :: 0 <= i < |es| ==> es[i].1.Str?
    ensures r.Some? ==>
      && |r.value| == |es|
      && forall i :: 0 <= i < |es| ==> r.value[i] == (es[i].0, Str(RewriteRef(ns, es[i].1.s)))
  {
    if forall i :: 0 <= i < |es| ==> es[i].1.Str? then
      Some(seq(|es|, i requires 0 <= i < |es| => (es[i].0, Str(RewriteRef(ns, AsText(es[i].1))))))
    else None
  }

  /** One element of `overrides`: its `model` is rewritten when it is a string in the namespace. */
  function RewriteOverride(ns: string, o: Value): Option<Value> {
    match PyIn("model", o)
    case None => None
    case Some(false) => Some(o)
    case Some(true) =>
      match Subscript(o, "model")
      case None => None
      case Some(m) =>
        if !m.Str? then None
        else if StartsWith(m.s, ns + ":") then Some(Dict(Put(o.entries, "model", Str(RewriteRef(ns, m.s)))))
        else Some(o)
  }

  function RewriteOverrideList(ns: string, os: seq<Value>): (r: Option<seq<Value>>)
    ensures r.Some? <==> forall i :: 0 <= i < |os| ==> RewriteOverride(ns, os[i]).Some?
    ensures r.Some? ==>
      && |r.value| == |os|
      && forall i :: 0 <= i < |os| ==> r.value[i] == RewriteOverride(ns, os[i]).value
  {
    if forall i :: 0 <= i < |os| ==> RewriteOverride(ns, os[i]).Some? then
      Some(seq(|os|, i requires 0 <= i < |os| => RewriteOverride(ns, os[i]).GetOr(Null)))
    else None
  }

  /** A mapping's key mentions `model`; iterating such a mapping makes `override["model"]` raise. */
  predicate SomeKeyMentionsModel(es: Entries) {
    exists i :: 0 <= i < |es| && Contains(es[i].0, "model")
  }

  /** The `textures` step of `_process_model_file`; None when it raises. */
  function FixTextures(ns: string, data: Value): Option<Value> {
    match PyIn("textures", data)
    case None => None
    case Some(false) => Some(data)
    case Some(true) =>
      match Subscript(data, "textures")
      case None => None
      case Some(tex) =>
        if !tex.Dict? then None
        else match RewriteTextures(ns, tex.entries)
          case None => None
          case Some(es) => Some(Dict(Put(data.entries, "textures", Dict(es))))
  }

  /**
    The `overrides` step: a list is rewritten element by element; iterating a mapping visits
    its keys and raises on one containing `model`; iterating a string visits characters, none
    of which contains `model`; anything else cannot be iterated.
  */
  function FixOverrides(ns: string, data: Value): Option<Value> {
    match PyIn("overrides", data)
    case None => None
    case Some(false) => Some(data)
    case Some(true) =>
      match Subscript(data, "overrides")
      case None => None
      case Some(ov) =>
        match ov
        case List(os) =>
          (match RewriteOverrideList(ns, os)
           case None => None
           case Some(r) => Some(Dict(Put(data.entries, "overrides", List(r)))))
        case Dict(es) => if SomeKeyMentionsModel(es) then None else Some(data)
        case Str(_) => Some(data)
        case _ => None
  }

  /** `_process_model_file` on a parsed document: the document to write, or None when it raises. */
  function ProcessModel(ns: string, data: Value): Option<Value> {
    match FixTextures(ns, data)
    case None => None
    case Some(d) => FixOverrides(ns, d)
  }

  /** The contents `_migrate_models` writes: the processed model of every source that goes through. */
  function ProcessedModels(ns: string, input: Tree): Tree {
    map p | p in input && IsModelFile(ns, p) && input[p].Json? && ProcessModel(ns, input[p].doc).Some?
      :: Json(ProcessModel(ns, input[p].doc).value)
  }

  /** The pack after `_migrate_models`. */
  function ModelsMigrated(ns: string, input: Tree, output: Tree): Tree {
    var processed := ProcessedModels(ns, input);
    ModelTargetInjective(ns, processed.Keys);
    output + Placed(ns, ModelCopy, processed.Keys, processed)
  }

  // ---------------------------------------------------------------------------------------
  // Missing item models

  /** `{"parent": "minecraft:item/generated", "textures": {"layer0": ref}}` */
  function BasicModel(textureRef: string): Value {
    Dict([("parent", Str(GeneratedParent)), ("textures", Dict([("layer0", Str(textureRef))]))])
  }

  /** A `.png` file under `assets/<ns>/textures/item`. */
  predicate IsItemTexture(ns: string, p: Path) {
    p.Asset? && p.ns == ns && p.kind == TexturesDir && |p.rel| > 0 && p.rel[0] == ItemDir && EndsWith(p.name, ".png")
  }

  /** The texture's name without `.png`. */
  function TextureName(p: Path): string {
    if p.Other? then "" else StripSuffix(p.name, ".png")
  }

  /** `models/item/<sub>/<name>.json` for `textures/item/<sub>/<name>.png`. */
  function MissingModelTarget(ns: string, p: Path): Path {
    if p.Other? then p else Asset(ns, ModelsDir, p.rel, TextureName(p) + ".json")
  }

  /** `ns:item/<name>` directly in `textures/item`, `ns:item/<sub>/<name>` below it, with `\` turned into `/`. */
  function TextureRef(ns: string, p: Path): string
    requires IsItemTexture(ns, p)
  {
    var sub := p.rel[1..];
    if sub == [] then ns + ":item/" + TextureName(p)
    else ns + ":item/" + ReplaceChar(Join(sub, '/'), '\\', '/') + "/" + TextureName(p)
  }

  /** Two item textures never share a model file. */
  lemma MissingModelTargetsDiffer(ns: string, p: Path, q: Path)
    requires IsItemTexture(ns, p) && IsItemTexture(ns, q) && p != q
    ensures MissingModelTarget(ns, p) != MissingModelTarget(ns, q)
  {
    var tp, tq := MissingModelTarget(ns, p), MissingModelTarget(ns, q);
    var np, nq := TextureName(p), TextureName(q);
    assert np == tp.name[..|np|] && nq == tq.name[..|nq|];
  }

  lemma MissingModelTargetInjective(ns: string, sources: set<Path>)
    requires forall p :: p in sources ==> IsItemTexture(ns, p)
    ensures Injective(ns, MissingModel, sources)
  {
    forall p, q | p in sources && q in sources && p != q
      ensures MissingModelTarget(ns, p) != MissingModelTarget(ns, q)
    {
      MissingModelTargetsDiffer(ns, p, q);
    }
  }

  /** The basic model of every item texture whose model file does not exist yet. */
  function MissingModels(ns: string, t: Tree): Tree {
    map p | p in t && IsItemTexture(ns, p) && MissingModelTarget(ns, p) !in t :: Json(BasicModel(TextureRef(ns, p)))
  }

  lemma MissingModelsAt(ns: string, t: Tree, p: Path)
    requires p in t && IsItemTexture(ns, p)
    ensures p in MissingModels(ns, t) <==> MissingModelTarget(ns, p) !in t
    ensures p in MissingModels(ns, t) ==> MissingModels(ns, t)[p] == Json(BasicModel(TextureRef(ns, p)))
  {
  }

  /** The pack after the step for item texture `p`: its basic model, unless the model file exists. */
  function MissingModelWritten(ns: string, t: Tree, p: Path): Tree
    requires IsItemTexture(ns, p)
  {
    var target := MissingModelTarget(ns, p);
    if target in t then t else t[target := Json(BasicModel(TextureRef(ns, p)))]
  }

  /** While walking the item textures of `base`, each step writes what the generation of `base` writes for it. */
  lemma MissingStep(ns: string, base: Tree, order: seq<Path>, p: Path, t: Tree)
    requires p in base && IsItemTexture(ns, p)
    requires p !in order && forall x :: x in order ==> x in base && IsItemTexture(ns, x)
    requires t == Replay(ns, MissingModel, base, order, MissingModels(ns, base))
    ensures Replay(ns, MissingModel, base, order + [p], MissingModels(ns, base)) == MissingModelWritten(ns, t, p)
  {
    var missing := MissingModels(ns, base);
    var target := MissingModelTarget(ns, p);
    MissingModelsAt(ns, base, p);
    if p in missing {
      forall i | 0 <= i < |order| && order[i] in missing
        ensures Target(ns, MissingModel, order[i]) != target
      {
        MissingModelTargetsDiffer(ns, order[i], p);
      }
      ReplayOther(ns, MissingModel, base, order, missing, target);
    } else {
      ReplayGrows(ns, MissingModel, base, order, missing);
    }
    ReplaySnoc(ns, MissingModel, base, order, p, missing);
  }

  /** The pack after `generate_missing_item_models`. */
  function MissingModelsGenerated(ns: string, t: Tree): Tree {
    var missing := MissingModels(ns, t);
    MissingModelTargetInjective(ns, missing.Keys);
    t + Placed(ns, MissingModel, missing.Keys, missing)
  }

  /** The pack after `migrate`: textures, then models, then the missing models. */
  function Migrated(ns: string, input: Tree, output: Tree): Tree {
    MissingModelsGenerated(ns, ModelsMigrated(ns, input, TexturesMigrated(ns, input, output)))
  }

  // ---------------------------------------------------------------------------------------
  // What the migration promises

  /** The reference `ns:<rel>/<stem>` through which a model names a `.png` texture. */
  function ReferenceOf(ns: string, p: Path): string
    requires p.Asset?
  {
    ns + ":" + Join(p.rel + [TextureName(p)], '/')
  }

  /** Every texture file reaches its destination unchanged. */
  lemma TextureCopied(ns: string, input: Tree, output: Tree, p: Path)
    requires p in input && IsTextureFile(ns, p)
    ensures TextureTarget(ns, p) in TexturesMigrated(ns, input, output)
    ensures TexturesMigrated(ns, input, output)[TextureTarget(ns, p)] == input[p]
  {
    var sources := TextureSources(ns, input);
    TextureTargetInjective(ns, sources);
    PlacedSpec(ns, TextureCopy, sources, input);
  }

  /** A path no texture is copied to keeps what the output pack had there. */
  lemma TexturesElsewhereKept(ns: string, input: Tree, output: Tree, d: Path)
    requires forall p :: p in input && IsTextureFile(ns, p) ==> TextureTarget(ns, p) != d
    ensures d in TexturesMigrated(ns, input, output) <==> d in output
    ensures d in output ==> TexturesMigrated(ns, input, output)[d] == output[d]
  {
    var sources := TextureSources(ns, input);
    TextureTargetInjective(ns, sources);
    PlacedSpec(ns, TextureCopy, sources, input);
  }

  /**
    A model file that processes is written, processed, to `models/item/...`; one whose
    processing raises leaves its destination as it was.
  */
  lemma ModelWritten(ns: string, input: Tree, output: Tree, p: Path)
    requires p in input && IsModelFile(ns, p) && input[p].Json?
    ensures ProcessModel(ns, input[p].doc).Some? ==>
      && ModelTarget(ns, p) in ModelsMigrated(ns, input, output)
      && ModelsMigrated(ns, input, output)[ModelTarget(ns, p)] == Json(ProcessModel(ns, input[p].doc).value)
    ensures ProcessModel(ns, input[p].doc).None? ==>
      && (ModelTarget(ns, p) in ModelsMigrated(ns, input, output) <==> ModelTarget(ns, p) in output)
      && (ModelTarget(ns, p) in output ==> ModelsMigrated(ns, input, output)[ModelTarget(ns, p)] == output[ModelTarget(ns, p)])
  {
    var processed := ProcessedModels(ns, input);
    ModelTargetInjective(ns, processed.Keys);
    PlacedSpec(ns, ModelCopy, processed.Keys, processed);
    forall q | q in processed.Keys && p !in processed
      ensures ModelTarget(ns, q) != ModelTarget(ns, p)
    {
      ModelTargetsDiffer(ns, q, p);
    }
  }

  /** A path no model is written to keeps what the pack had there. */
  lemma ModelsElsewhereKept(ns: string, input: Tree, output: Tree, d: Path)
    requires forall p :: p in input && IsModelFile(ns, p) ==> ModelTarget(ns, p) != d
    ensures d in ModelsMigrated(ns, input, output) <==> d in output
    ensures d in output ==> ModelsMigrated(ns, input, output)[d] == output[d]
  {
    var processed := ProcessedModels(ns, input);
    ModelTargetInjective(ns, processed.Keys);
    PlacedSpec(ns, ModelCopy, processed.Keys, processed);
  }

  /** A model with neither `textures` nor `overrides` is written as it was read. */
  lemma PlainModelKept(ns: string, es: Entries)
    requires !HasKey(es, "textures") && !HasKey(es, "overrides")
    ensures ProcessModel(ns, Dict(es)) == Some(Dict(es))
  {
  }

  /** The `overrides` step leaves a mapping without `overrides` as it is. */
  lemma NoOverridesKept(ns: string, es: Entries)
    requires !HasKey(es, "overrides")
    ensures FixOverrides(ns, Dict(es)) == Some(Dict(es))
  {
  }

  /**
    A `textures` mapping of strings is replaced by the mapping with every reference
    rewritten; every other key of the model keeps its value.
  */
  lemma TexturesRewritten(ns: string, es: Entries, tex: Entries, k: string)
    requires Lookup(es, "textures") == Some(Dict(tex)) && !HasKey(es, "overrides")
    requires forall i :: 0 <= i < |tex| ==> tex[i].1.Str?
    ensures ProcessModel(ns, Dict(es)).Some?
    ensures Get(ProcessModel(ns, Dict(es)).value, "textures") == Some(Dict(RewriteTextures(ns, tex).value))
    ensures k != "textures" ==> Get(ProcessModel(ns, Dict(es)).value, k) == Lookup(es, k)
  {
    var es' := Put(es, "textures", Dict(RewriteTextures(ns, tex).value));
    assert FixTextures(ns, Dict(es)) == Some(Dict(es'));
    LookupPut(es, "textures", Dict(RewriteTextures(ns, tex).value), "overrides");
    NoOverridesKept(ns, es');
    LookupPut(es, "textures", Dict(RewriteTextures(ns, tex).value), "textures");
    LookupPut(es, "textures", Dict(RewriteTextures(ns, tex).value), k);
  }

  /** A texture value that is not a string makes processing raise: the model is not written. */
  lemma NonStringTextureFails(ns: string, es: Entries, tex: Entries, i: nat)
    requires Lookup(es, "textures") == Some(Dict(tex)) && i < |tex| && !tex[i].1.Str?
    ensures ProcessModel(ns, Dict(es)) == None
  {
  }

  /**
    The `model` of an override is rewritten when it is a reference into the namespace and
    kept otherwise; the override's other keys keep their values.
  */
  lemma OverrideModelRewritten(ns: string, o: Entries, m: string, k: string)
    requires Lookup(o, "model") == Some(Str(m))
    ensures RewriteOverride(ns, Dict(o)).Some?
    ensures Get(RewriteOverride(ns, Dict(o)).value, "model") == Some(Str(RewriteRef(ns, m)))
    ensures k != "model" ==> Get(RewriteOverride(ns, Dict(o)).value, k) == Lookup(o, k)
  {
    LookupPut(o, "model", Str(RewriteRef(ns, m)), "model");
    LookupPut(o, "model", Str(RewriteRef(ns, m)), k);
  }

  /** `overrides` given as a mapping with a key mentioning `model` makes processing raise. */
  lemma OverrideMappingFails(ns: string, es: Entries, ov: Entries)
    requires !HasKey(es, "textures") && Lookup(es, "overrides") == Some(Dict(ov)) && SomeKeyMentionsModel(ov)
    ensures ProcessModel(ns, Dict(es)) == None
  {
  }

  /**
    A `.png` texture outside the armour layers keeps its model references working: the
    reference to it, rewritten, names the place the texture was copied to.
  */
  lemma ReferenceFollowsTexture(ns: string, p: Path)
    requires ':' !in ns && IsTextureFile(ns, p) && EndsWith(p.name, ".png") && !Contains(p.name, "layer_")
    ensures RewriteRef(ns, ReferenceOf(ns, p)) == ReferenceOf(ns, TextureTarget(ns, p))
  {
    var parts := p.rel + [TextureName(p)];
    var t := TextureTarget(ns, p);
    assert t.rel == [ItemDir] + p.rel && TextureName(t) == TextureName(p);
    assert t.rel + [TextureName(t)] == [ItemDir] + parts;
    var j := Join(parts, '/');
    assert Join([ItemDir] + parts, '/') == ItemDir + "/" + j by {
      assert ([ItemDir] + parts)[1..] == parts;
    }
    assert ReferenceOf(ns, t) == ns + ":item/" + j by {
      assert ReferenceOf(ns, t) == ns + ":" + (ItemDir + "/" + j);
    }
    RewriteInNamespace(ns, j);
  }

  /** `ns:<x>` becomes `ns:item/<x>`. */
  lemma RewriteInNamespace(ns: string, x: string)
    requires ':' !in ns
    ensures RewriteRef(ns, ns + ":" + x) == ns + ":item/" + x
  {
    var s := ns + ":" + x;
    assert s[..|ns| + 1] == ns + ":";
    RewriteRefSpec(ns, s);
    assert s[|ns| + 1..] == x;
  }

  /**
    An armour layer stays where it was while references to it still gain `item/`: the
    rewritten reference names a place where the texture is not.
  */
  lemma LayerReferenceNotFollowed(ns: string, p: Path)
    requires ':' !in ns && IsTextureFile(ns, p) && Contains(p.name, "layer_")
    ensures TextureTarget(ns, p) == p
    ensures RewriteRef(ns, ReferenceOf(ns, p)) != ReferenceOf(ns, TextureTarget(ns, p))
  {
    RewriteInNamespace(ns, Join(p.rel + [TextureName(p)], '/'));
  }

  /** The generated model names its texture: `TextureRef` is the reference to the texture. */
  lemma TextureRefNamesTexture(ns: string, p: Path)
    requires IsItemTexture(ns, p) && forall i :: 0 <= i < |p.rel| ==> '\\' !in p.rel[i]
    ensures TextureRef(ns, p) == ReferenceOf(ns, p)
  {
    var sub := p.rel[1..];
    var stem := TextureName(p);
    assert p.rel + [stem] == [ItemDir] + (sub + [stem]);
    assert Join([ItemDir] + (sub + [stem]), '/') == ItemDir + "/" + Join(sub + [stem], '/') by {
      assert ([ItemDir] + (sub + [stem]))[1..] == sub + [stem];
    }
    if sub != [] {
      JoinSnoc(sub, stem, '/');
      JoinWithout(sub, '/', '\\');
      ReplaceAbsent(Join(sub, '/'), '\\', '/');
    }
  }

  /** After generation every item texture has a model file. */
  lemma GeneratedCoverage(ns: string, t: Tree, p: Path)
    requires p in t && IsItemTexture(ns, p)
    ensures MissingModelTarget(ns, p) in MissingModelsGenerated(ns, t)
  {
    var missing := MissingModels(ns, t);
    MissingModelTargetInjective(ns, missing.Keys);
    PlacedSpec(ns, MissingModel, missing.Keys, missing);
    MissingModelsAt(ns, t, p);
  }

  /** A generated model is the basic model of its texture. */
  lemma GeneratedModelContent(ns: string, t: Tree, p: Path)
    requires p in t && IsItemTexture(ns, p) && MissingModelTarget(ns, p) !in t
    ensures MissingModelsGenerated(ns, t)[MissingModelTarget(ns, p)] == Json(BasicModel(TextureRef(ns, p)))
  {
    var missing := MissingModels(ns, t);
    MissingModelTargetInjective(ns, missing.Keys);
    PlacedSpec(ns, MissingModel, missing.Keys, missing);
    MissingModelsAt(ns, t, p);
  }

  /** Generation never overwrites a file: everything already there stays as it was. */
  lemma GenerationKeeps(ns: string, t: Tree, d: Path)
    requires d in t
    ensures d in MissingModelsGenerated(ns, t) && MissingModelsGenerated(ns, t)[d] == t[d]
  {
    var missing := MissingModels(ns, t);
    MissingModelTargetInjective(ns, missing.Keys);
    PlacedSpec(ns, MissingModel, missing.Keys, missing);
  }

  /** Once generated, no item texture lacks its model. */
  lemma NothingMissingAfterGeneration(ns: string, t: Tree)
    ensures MissingModels(ns, MissingModelsGenerated(ns, t)) == map[]
  {
    var r := MissingModelsGenerated(ns, t);
    forall p | p in r && IsItemTexture(ns, p)
      ensures MissingModelTarget(ns, p) in r
    {
      var missing := MissingModels(ns, t);
      MissingModelTargetInjective(ns, missing.Keys);
      PlacedSpec(ns, MissingModel, missing.Keys, missing);
      assert p in t;
      GeneratedCoverage(ns, t, p);
    }
  }

  lemma NothingToGenerate(ns: string, t: Tree)
    requires MissingModels(ns, t) == map[]
    ensures MissingModelsGenerated(ns, t) == t
  {
    assert Placed(ns, MissingModel, {}, map[]) == map[];
  }

  /** Generating a second time adds nothing. */
  lemma GenerationIdempotent(ns: string, t: Tree)
    ensures MissingModelsGenerated(ns, MissingModelsGenerated(ns, t)) == MissingModelsGenerated(ns, t)
  {
    NothingMissingAfterGeneration(ns, t);
    NothingToGenerate(ns, MissingModelsGenerated(ns, t));
  }

  /** The whole migration delivers every texture file to its destination unchanged. */
  lemma MigrationKeepsTextures(ns: string, input: Tree, output: Tree, p: Path)
    requires p in input && IsTextureFile(ns, p)
    ensures TextureTarget(ns, p) in Migrated(ns, input, output)
    ensures Migrated(ns, input, output)[TextureTarget(ns, p)] == input[p]
  {
    var d := TextureTarget(ns, p);
    var t1 := TexturesMigrated(ns, input, output);
    TextureCopied(ns, input, output, p);
    ModelsElsewhereKept(ns, input, t1, d);
    GenerationKeeps(ns, ModelsMigrated(ns, input, t1), d);
  }

  // ---------------------------------------------------------------------------------------
  // The migrator

  class IAMigrator {
    const input: Tree
    const namespace: string
    var output: Tree

    constructor (input: Tree, output: Tree, namespace: string)
      ensures this.input == input && this.output == output && this.namespace == namespace
    {
      this.input := input;
      this.output := output;
      this.namespace := namespace;
    }

    /** `migrate`; the sounds step is an empty placeholder in the source. */
    method Migrate()
      modifies this
      ensures output == Migrated(namespace, input, old(output))
    {
      MigrateTextures();
      MigrateModels();
      GenerateMissingItemModels();
    }

    /** `_migrate_textures`: every texture file is copied to its target, in whatever order the walk gives. */
    method MigrateTextures()
      modifies this
      ensures output == TexturesMigrated(namespace, input, old(output))
    {
      var sources := TextureSources(namespace, input);
      var todo := sources;
      ghost var order: seq<Path> := [];
      while todo != {}
        invariant todo <= sources
        invariant Distinct(order) && forall x :: x in order <==> x in sources && x !in todo
        invariant output == Replay(namespace, TextureCopy, old(output), order, input)
        decreases |todo|
      {
        var p :| p in todo;
        output := output[TextureTarget(namespace, p) := input[p]];
        ReplaySnoc(namespace, TextureCopy, old(output), order, p, input);
        order := order + [p];
        todo := todo - {p};
      }
      assert sources * input.Keys == sources;
      TextureTargetInjective(namespace, sources);
      ReplayPlaced(namespace, TextureCopy, old(output), order, sources, input);
    }

    /** `_migrate_models`: every `.json` model is processed and, when that goes through, written to its target. */
    method MigrateModels()
      modifies this
      ensures output == ModelsMigrated(namespace, input, old(output))
    {
      var files := set p | p in input && IsModelFile(namespace, p);
      ghost var processed := ProcessedModels(namespace, input);
      var todo := files;
      ghost var order: seq<Path> := [];
      while todo != {}
        invariant todo <= files
        invariant Distinct(order) && forall x :: x in order <==> x in files && x !in todo
        invariant output == Replay(namespace, ModelCopy, old(output), order, processed)
        decreases |todo|
      {
        var p :| p in todo;
        MigrateModelFile(p);
        ReplaySnoc(namespace, ModelCopy, old(output), order, p, processed);
        order := order + [p];
        todo := todo - {p};
      }
      assert files * processed.Keys == processed.Keys;
      ModelTargetInjective(namespace, processed.Keys);
      ReplayPlaced(namespace, ModelCopy, old(output), order, files, processed);
    }

    /** `_process_model_file` on one model file: the processed document is written to the target, unless processing raises. */
    method MigrateModelFile(p: Path)
      requires p in input && IsModelFile(namespace, p)
      modifies this
      ensures p in ProcessedModels(namespace, input) ==>
        output == old(output)[ModelTarget(namespace, p) := ProcessedModels(namespace, input)[p]]
      ensures p !in ProcessedModels(namespace, input) ==> output == old(output)
    {
      if input[p].Json? {
        var r := RewriteModel(input[p].doc);
        if r.Some? {
          output := output[ModelTarget(namespace, p) := Json(r.value)];
        }
      }
    }

    /** `_process_model_file` after `json.load`: the document written, or None when processing raises. */
    method RewriteModel(doc: Value) returns (r: Option<Value>)
      ensures r == ProcessModel(namespace, doc)
    {
      var data := doc;
      var hasTextures := PyIn("textures", data);
      if hasTextures.None? {
        return None;
      }
      if hasTextures.value {
        var tex := Subscript(data, "textures");
        if tex.None? || !tex.value.Dict? {
          return None;
        }
        var es := tex.value.entries;
        var rewritten: Entries := [];
        for i := 0 to |es|
          invariant |rewritten| == i
          invariant forall j :: 0 <= j < i ==> es[j].1.Str? && rewritten[j] == (es[j].0, Str(RewriteRef(namespace, es[j].1.s)))
        {
          if !es[i].1.Str? {
            return None;
          }
          rewritten := rewritten + [(es[i].0, Str(RewriteRef(namespace, es[i].1.s)))];
        }
        assert RewriteTextures(namespace, es).value == rewritten;
        data := Dict(Put(data.entries, "textures", Dict(rewritten)));
      }
      assert FixTextures(namespace, doc) == Some(data);
      r := RewriteOverrides(data);
    }

    method RewriteOverrides(data: Value) returns (r: Option<Value>)
      ensures r == FixOverrides(namespace, data)
    {
      var hasOverrides := PyIn("overrides", data);
      if hasOverrides.None? {
        return None;
      }
      if !hasOverrides.value {
        return Some(data);
      }
      var ov := Subscript(data, "overrides");
      if ov.None? {
        return None;
      }
      match ov.value
      case List(os) =>
        var list := os;
        for i := 0 to |os|
          invariant |list| == |os|
          invariant forall j :: 0 <= j < i ==> RewriteOverride(namespace, os[j]) == Some(list[j])
          invariant forall j :: i <= j < |os| ==> list[j] == os[j]
        {
          var o := RewriteOverride(namespace, os[i]);
          if o.None? {
            return None;
          }
          list := list[i := o.value];
        }
        assert RewriteOverrideList(namespace, os).value == list;
        return Some(Dict(Put(data.entries, "overrides", List(list))));
      case Dict(es) =>
        for i := 0 to |es|
          invariant forall j :: 0 <= j < i ==> !Contains(es[j].0, "model")
        {
          if Contains(es[i].0, "model") {
            return None;
          }
        }
        return Some(data);
      case Str(_) =>
        return Some(data);
      case _ =>
        return None;
    }

    /** `generate_missing_item_models`: a basic model for each item texture whose model file does not exist yet. */
    method GenerateMissingItemModels()
      modifies this
      ensures output == MissingModelsGenerated(namespace, old(output))
    {
      var textures := set p | p in output && IsItemTexture(namespace, p);
      ghost var missing := MissingModels(namespace, output);
      var todo := textures;
      ghost var order: seq<Path> := [];
      while todo != {}
        invariant todo <= textures
        invariant forall x :: x in textures ==> x in old(output) && IsItemTexture(namespace, x)
        invariant Distinct(order) && forall x :: x in order <==> x in textures && x !in todo
        invariant output == Replay(namespace, MissingModel, old(output), order, missing)
        decreases |todo|
      {
        var p :| p in todo;
        MissingStep(namespace, old(output), order, p, output);
        GenerateModelFor(p);
        order := order + [p];
        todo := todo - {p};
      }
      assert textures * missing.Keys == missing.Keys;
      MissingModelTargetInjective(namespace, missing.Keys);
      ReplayPlaced(namespace, MissingModel, old(output), order, textures, missing);
    }

    /** One texture of the walk: its basic model is written unless the model file exists. */
    method GenerateModelFor(p: Path)
      requires IsItemTexture(namespace, p)
      modifies this
      ensures output == MissingModelWritten(namespace, old(output), p)
    {
      var target := MissingModelTarget(namespace, p);
      if target !in output {
        output := output[target := Json(BasicModel(TextureRef(namespace, p)))];
      }
    }
  }
}
