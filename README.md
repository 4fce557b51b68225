# Minecraft Config Converter: the ItemsAdder to CraftEngine core

This project models, in Dafny, the part of Minecraft Config Converter that turns an
ItemsAdder content pack into a CraftEngine one, and proves properties of that model:

- `Converter` (converter.dfy), with `Items` (items.dfy) and `Placement` (placement.dfy):
  `IAConverter`. It converts the merged ItemsAdder configuration into CraftEngine `items`,
  `templates`, `equipments` and `categories`, and records the item models to generate. It
  splits the result into `items.yml`, `armor.yml` and `categories.yml`. It runs the migrator
  and writes the generated models into the CraftEngine resource pack.
- `Migrator` (migrator.dfy): `IAMigrator`. It copies textures into `textures/item/` (armour
  layers stay where they are) and copies models into `models/item/`, rewriting their
  namespaced references. It then writes a basic `item/generated` model for each item
  texture that has none.
- `Analyzer` (analyzer.dfy): `PackageAnalyzer`. It walks an extracted upload and reports the
  formats it recognises (by folder name and by YAML content), the content types, the
  completeness flags and the file counts.
- `WebApp` (webapp.dfy): the pure steps of the `/api/convert` handler. These are the
  configuration scan, the merge of item and category configurations, the namespace choice
  with its validation rule, and the name of the returned archive.
- `Document` (document.dfy), `Text` (text.dfy) and `Wrappers` (wrappers.dfy) hold what they
  share:
  - a parsed YAML/JSON value whose mappings keep their entries in order (a lookup finds the
    last entry with the key, as a Python dict built from that key stream would);
  - Python's `in` and `d[k]`, with their `TypeError`;
  - `dict.get` and `dict.update`;
  - the string operations the source uses.

Objects whose methods update their fields are classes here: `IAConverter`, `IAMigrator` and
`PackageAnalyzer`. Each method is proved against a specification function of the inputs and
the old state. Directory trees are maps from paths to file contents. The order of
`os.walk` and of dictionary iteration is an input (the analyzer's walk) or does not matter
(every copy and every write goes to a distinct destination, which is proved).

## Model

| member | source | states |
|---|---|---|
| Placement.RoundHalfEven | src/converters/ia_to_ce.py:375-377 | Python's `round`: the result is within one half of the real, and an exact half goes to the even neighbour |
| Placement.CellCount | src/converters/ia_to_ce.py:375-382 | the shulker count along one axis is at least 1, is the rounded size when the size exceeds one half, and is 1 otherwise |
| Placement.MakeBox | src/converters/ia_to_ce.py:297-305 | the hitbox read from `furniture.hitbox` always spans at least one cell on every axis |
| Placement.BuildShulkerGrid | src/converters/ia_to_ce.py:384-410 | the triple loop emits exactly the shulker grid of the box, y outermost, then x, then z |
| Placement.CellsLength | src/converters/ia_to_ce.py:386-410 | the innermost loop emits one shulker per z cell |
| Placement.RowsLength | src/converters/ia_to_ce.py:385-410 | a row of the x loop emits width times length shulkers |
| Placement.LayersLength | src/converters/ia_to_ce.py:384-410 | the y loop emits height layers of width times length shulkers |
| Placement.GridSize | src/converters/ia_to_ce.py:384-410 | a solid furniture hitbox has width × height × length shulkers |
| Placement.CellInCells | src/converters/ia_to_ce.py:386-410 | every z index of the innermost loop yields its shulker |
| Placement.CellInRows | src/converters/ia_to_ce.py:385-410 | every (x, z) pair of a layer yields its shulker |
| Placement.CellInLayers | src/converters/ia_to_ce.py:384-410 | every (y, x, z) triple yields its shulker |
| Placement.CellsAllCells | src/converters/ia_to_ce.py:386-410 | the innermost loop yields nothing but cells of its range |
| Placement.RowsAllCells | src/converters/ia_to_ce.py:385-410 | a layer yields nothing but cells of its ranges |
| Placement.LayersAllCells | src/converters/ia_to_ce.py:384-410 | the grid yields nothing but cells of its ranges |
| Placement.GridCells | src/converters/ia_to_ce.py:384-410 | the grid holds exactly the building-blocking interactive shulkers at the cells of the box: each one is a cell, and every cell is present |
| Placement.CellsDistinct | src/converters/ia_to_ce.py:386-410 | the innermost loop yields no shulker twice |
| Placement.RowsDistinct | src/converters/ia_to_ce.py:385-410 | a layer yields no shulker twice |
| Placement.LayersDistinct | src/converters/ia_to_ce.py:384-410 | the grid loops yield no shulker twice |
| Placement.GridDistinct | src/converters/ia_to_ce.py:384-410 | no two shulkers of the grid share a position |
| Placement.Centred | src/converters/ia_to_ce.py:390-399 | x and z positions are symmetric about the offset, and a middle cell sits on the offset |
| Placement.TwoHighExample | src/converters/ia_to_ce.py:384-410 | a 1×2×1 solid hitbox gives shulkers at y = 0 and y = 1 |
| Placement.RoundExamples | src/converters/ia_to_ce.py:375-377 | round(0.5) = 0, round(1.5) = 2, round(2.5) = 2, and integers are fixed |
| Placement.SubUnitBox | src/converters/ia_to_ce.py:379-382 | widths and lengths below one half still get one cell |
| Placement.CreatePlacementBlock | src/converters/ia_to_ce.py:291-424 | the block built is the placement block specified for the item, furniture and seat |
| Placement.HitboxesFor | src/converters/ia_to_ce.py:327-424 | defined as: nothing without `hitbox`; one seat interaction for seated furniture; the shulker grid for solid furniture; one interaction otherwise; its cases are in `Placement.PlacementShape` |
| Placement.PlacementFor | src/converters/ia_to_ce.py:291-424 | defined as: the fixed loot offset and rules, one display element and `Placement.HitboxesFor`; its shape is in `Placement.PlacementShape` |
| Placement.PlacementShape | src/converters/ia_to_ce.py:291-424 | one element, for the item, raised by half the height. Hitboxes are present iff `hitbox` is. Seated furniture gets one interaction with the seat 0.85 below `sit_height`. Solid furniture gets the shulker grid. Otherwise one non-blocking interaction |
| Placement.SeatExample | src/converters/ia_to_ce.py:357-359 | `sit_height` 0.8 puts the seat at -0.05, and the default 0.5 puts it at -0.35 |
| Items.NsIdInjective | src/converters/ia_to_ce.py:167 | `namespace:key` identifiers of distinct keys differ |
| Items.FormatDisplayName | src/converters/ia_to_ce.py:612-631 | defined as: `<!i>`, the colour tag, then the name with `&` replaced by `§`; its shape is in `Items.DisplayNameShape` |
| Items.DisplayNameShape | src/converters/ia_to_ce.py:612-631 | the name starts with `<!i>`, ends with the input with `&` replaced by `§`, and has no `&` after the prefix |
| Items.StyledShape | src/converters/ia_to_ce.py:627-631 | both colour prefixes keep the `<!i>` prefix and the name's tail |
| Items.GenericModel | src/converters/ia_to_ce.py:524-561 | defined as: a truthy `model_path` gives `<ns>:item/<path>`, else `generate: true` with textures gives `<ns>:item/<first texture>`, else no model; its cases are in `Items.GenericModelCases` |
| Items.GenericModelCases | src/converters/ia_to_ce.py:524-561 | a truthy `model_path` gives a direct model and nothing to generate. A generated model happens iff there is no model path, `generate` is `true` and a first texture exists; it then points at the first texture without `.png`, registered under `item/<texture>.json` |
| Items.TemplateArgumentsMatch | src/converters/ia_to_ce.py:429-513 | a complex item gets 4, 6 or 2 arguments, all under `<ns>:item/<model_path>` with their suffixes, with distinct names that are exactly the template's placeholders |
| Items.PlaceholdersMatch | src/converters/ia_to_ce.py:442-513 | the argument names are distinct and are exactly the template's placeholders |
| Items.NamesMatch | src/converters/ia_to_ce.py:442-513 | for every complex material, the suffix table's names are distinct and equal the template's placeholders |
| Items.BowNames | src/converters/ia_to_ce.py:442-462 | the bow's four arguments fill exactly its four placeholders |
| Items.CrossbowNames | src/converters/ia_to_ce.py:464-493 | the crossbow's six arguments fill exactly its six placeholders |
| Items.CrossbowLeaves | src/converters/ia_to_ce.py:466-487 | the crossbow template's placeholders are its six model names |
| Items.CrossbowArguments | src/converters/ia_to_ce.py:488-493 | the crossbow's arguments are named by those six model names |
| Items.CrossbowDistinct | src/converters/ia_to_ce.py:488-493 | no two crossbow arguments share a name |
| Items.ShieldNames | src/converters/ia_to_ce.py:495-503 | the shield's two arguments fill exactly its two placeholders |
| Items.RodNames | src/converters/ia_to_ce.py:505-513 | the fishing rod's two arguments fill exactly its two placeholders |
| Items.SurfacesCases | src/converters/ia_to_ce.py:273-285 | ground iff `placeable_on` is empty or has `floor`; wall iff it has `walls`; ceiling iff it has `ceiling`; an empty one gives only ground |
| Items.FurniturePlacement | src/converters/ia_to_ce.py:249-289 | the furniture behaviour names the item in its settings and loot, and places the same block on exactly the chosen surfaces |
| Items.DefaultPlaceable | src/converters/ia_to_ce.py:277-278 | the default `placeable_on` allows only the floor |
| Items.PlacementOnSpec | src/converters/ia_to_ce.py:280-287 | each surface key is present iff its flag is truthy, and every key maps to the same block |
| Items.KindOf | src/converters/ia_to_ce.py:179-193 | defined as: the first of armour, truthy furniture behaviour, complex material, truthy hat behaviour, else generic; what each branch builds is in `Items.ItemShape` |
| Items.ItemShape | src/converters/ia_to_ce.py:166-195 | the item name is the formatted display name. A template exists iff complex, a behaviour iff furniture, equipment settings iff armour with an id, `equippable` iff hat. The dispatch order is armour, furniture, complex, hat, generic |
| Items.ComplexItemTemplate | src/converters/ia_to_ce.py:429-522 | a complex item registers `models:<ns>_<key>_model` with its material's template and refers to it with the material's arguments |
| Items.IsArmor | src/converters/ia_to_ce.py:197-208 | defined as: an armour suffix, or `specific_properties` holding `armor`, or an `equipment` block; used by `Items.KindOf` |
| Items.ExplicitSlot | src/converters/ia_to_ce.py:219-223 | defined as: the `slot` of `specific_properties.armor` when no legacy equipment id was found, else head; its cases are in `Items.ArmorCases` |
| Items.ArmorSlot | src/converters/ia_to_ce.py:212-229 | defined as: the material suffix decides, else `Items.ExplicitSlot`; its cases are in `Items.ArmorCases` |
| Items.ArmorCases | src/converters/ia_to_ce.py:210-247 | the slot comes from the material suffix (chest, legs, feet, in that order); without one it is the explicit `specific_properties.armor.slot` when that is read, else head. Without an equipment id the item is unchanged; with one it gets `<ns>:<id>` and the slot, and a STONE material becomes the leather piece of that slot |
| Items.SuffixOverridesSlot | src/converters/ia_to_ce.py:222-229 | an explicit slot `head` on a `_CHESTPLATE` material ends as `chest` |
| Items.Namespaced | src/converters/ia_to_ce.py:133-149 | the result always holds `:`; an entry with a namespace is kept, and one without gets the current namespace |
| Items.NamespacedIdempotent | src/converters/ia_to_ce.py:133-149 | namespacing twice is namespacing once |
| Items.EquipmentLayers | src/converters/ia_to_ce.py:563-610 | both forms write `humanoid` iff `layer_1` exists and `humanoid-leggings` iff `layer_2` exists; the rendering form differs from the legacy one only by the stripped `.png` |
| Document.Subscript | src/converters/ia_to_ce.py:98 | `v[k]` succeeds iff `v` is a mapping holding `k` |
| Document.LookupPut | src/migrators/ia_to_ce.py:171 | after `d[k] = x`, `k` reads `x` and every other key is unchanged |
| Document.LookupUpdate | web/app.py:233 | after `d.update(o)`, a key reads its value in `o` when `o` has it, and its old value otherwise |
| Text.StripSuffix | src/converters/ia_to_ce.py:542-543 | with the suffix, the result plus the suffix is the input; without it, the input is unchanged |
| Text.AfterFirst | src/migrators/ia_to_ce.py:160 | `split(":", 1)[1]` is a strictly shorter tail of the input |
| Text.ReplaceChar | src/converters/ia_to_ce.py:618 | `str.replace` of one character: same length, each position mapped, and no old character left |
| Text.RemoveChars | web/app.py:325 | deleting a character class never lengthens the string, leaves none of those characters, and keeps a clean string unchanged |
| Text.Lower | src/analyzer.py:30 | same length, and no upper-case ASCII letter is left; the value is fixed by `Text.LowerSpec` |
| Text.LowerSpec | src/analyzer.py:30 | every upper-case ASCII letter becomes its lower-case form and every other character is kept |
| Text.LowerIdempotent | src/analyzer.py:30 | lowering twice is lowering once, and a name with no upper-case letter is kept |
| Text.Basename | src/analyzer.py:30 | the last path component has no `/` and is a suffix of the path; the value is fixed by `Text.BasenameSpec` |
| Text.BasenameSpec | src/analyzer.py:30 | the whole path when it has no `/`, else exactly what follows the last `/` |
| Text.CountEndingWith | src/analyzer.py:47 | the counted files are at most all the files; the value is fixed by `Text.CountEndingWithConcat` and `Text.CountEndingWithSingle` |
| Text.CountEndingWithSpec | src/analyzer.py:47-51 | 0 iff no name ends with the suffix, all of them iff every name does |
| Text.CountEndingWithConcat | src/analyzer.py:47-51 | counting over two lists of names adds the two counts |
| Text.CountEndingWithSingle | src/analyzer.py:47-51 | one name counts 1 iff it ends with the suffix, so the count is the number of matching names |
| Migrator.PlacedSpec | src/migrators/ia_to_ce.py:44-66 | with distinct targets, every source file lands at its target with its content, and nothing else is written |
| Migrator.ReplayPlaced | src/migrators/ia_to_ce.py:44-45 | copying the files one by one in any walk order gives the same tree as placing them all at once |
| Migrator.TextureTarget | src/migrators/ia_to_ce.py:57-60 | defined as: a file named with `layer_` keeps its path, any other goes under `item/`; it is injective, by `Migrator.TextureTargetsDiffer` |
| Migrator.TextureTargetsDiffer | src/migrators/ia_to_ce.py:57-65 | two texture files never get the same destination |
| Migrator.TextureTargetInjective | src/migrators/ia_to_ce.py:44-66 | the texture copy is injective over any set of texture files |
| Migrator.ModelTargetsDiffer | src/migrators/ia_to_ce.py:83-91 | two model files never get the same destination |
| Migrator.ModelTargetInjective | src/migrators/ia_to_ce.py:78-94 | the model copy is injective over any set of model files |
| Migrator.RewriteRef | src/migrators/ia_to_ce.py:159-170 | defined as: `<ns>:x` becomes `<ns>:item/x`, anything else is kept; its cases are in `Migrator.RewriteRefSpec` |
| Migrator.RewriteRefSpec | src/migrators/ia_to_ce.py:159-170 | a reference in the namespace becomes `<ns>:item/<path>`, any other is kept, and the rewrite stays in the namespace exactly when the input was in it |
| Migrator.RewriteTextures | src/migrators/ia_to_ce.py:155-171 | it succeeds iff every texture value is a string; then each key keeps its place with its value rewritten |
| Migrator.RewriteOverrideList | src/migrators/ia_to_ce.py:174-180 | it succeeds iff every override can be rewritten; then each override is rewritten in place |
| Migrator.MissingModelTargetsDiffer | src/migrators/ia_to_ce.py:115-128 | two item textures never map to the same model file |
| Migrator.MissingModelTargetInjective | src/migrators/ia_to_ce.py:109-133 | the model-generation targets are injective |
| Migrator.MissingModelsAt | src/migrators/ia_to_ce.py:128-133 | an item texture needs a model iff its model file is absent, and that model is the basic one for its texture reference |
| Migrator.MissingStep | src/migrators/ia_to_ce.py:128-133 | one iteration writes the texture's model exactly when it was missing before the walk |
| Migrator.TextureCopied | src/migrators/ia_to_ce.py:44-66 | every texture file lands at its target with its bytes |
| Migrator.TexturesElsewhereKept | src/migrators/ia_to_ce.py:44-66 | a path that no texture targets is unchanged by the texture step |
| Migrator.ProcessModel | src/migrators/ia_to_ce.py:146-186 | defined as: the model with its `textures` and override `model` references rewritten, or nothing when a step raises; its cases are in `Migrator.TexturesRewritten`, `Migrator.NonStringTextureFails` and `Migrator.OverrideMappingFails` |
| Migrator.ModelWritten | src/migrators/ia_to_ce.py:78-94 | a model that rewrites cleanly is written at its target; one that raises leaves the target as it was |
| Migrator.ModelsElsewhereKept | src/migrators/ia_to_ce.py:78-94 | a path that no model targets is unchanged by the model step |
| Migrator.PlainModelKept | src/migrators/ia_to_ce.py:155-183 | a model without `textures` or `overrides` is written unchanged |
| Migrator.NoOverridesKept | src/migrators/ia_to_ce.py:174 | without `overrides` the override pass changes nothing |
| Migrator.TexturesRewritten | src/migrators/ia_to_ce.py:155-171 | with string textures, `textures` is replaced by its rewrite and every other key is kept |
| Migrator.NonStringTextureFails | src/migrators/ia_to_ce.py:159 | a non-string texture value raises and the model is skipped |
| Migrator.OverrideModelRewritten | src/migrators/ia_to_ce.py:176-180 | an override's string `model` is rewritten and its other keys are kept |
| Migrator.OverrideMappingFails | src/migrators/ia_to_ce.py:174-177 | `overrides` given as a mapping with a key containing "model" raises, so the model is skipped |
| Migrator.ReferenceFollowsTexture | src/migrators/ia_to_ce.py:57-60 | for a non-layer `.png`, the rewritten model reference names the copied texture |
| Migrator.RewriteInNamespace | src/migrators/ia_to_ce.py:159-167 | `<ns>:x` always becomes `<ns>:item/x`, whether or not x mentions layer or armor |
| Migrator.LayerReferenceNotFollowed | src/migrators/ia_to_ce.py:57-58 | a layer texture stays in place, but a model reference to it is still redirected under `item/` |
| Migrator.TextureRefNamesTexture | src/migrators/ia_to_ce.py:119-126 | the generated model's `layer0` is the texture's own reference |
| Migrator.GeneratedCoverage | src/migrators/ia_to_ce.py:109-133 | after generation, every item texture has a model |
| Migrator.GeneratedModelContent | src/migrators/ia_to_ce.py:136-144 | a model that was missing is the basic `item/generated` model of its texture |
| Migrator.GenerationKeeps | src/migrators/ia_to_ce.py:131 | existing files are never overwritten |
| Migrator.NothingMissingAfterGeneration | src/migrators/ia_to_ce.py:96-134 | after generation, no model is missing |
| Migrator.NothingToGenerate | src/migrators/ia_to_ce.py:131 | when no model is missing, generation changes nothing |
| Migrator.GenerationIdempotent | src/migrators/ia_to_ce.py:96-134 | generating twice is generating once |
| Migrator.MigrationKeepsTextures | src/migrators/ia_to_ce.py:11-25 | after the whole migration, every texture is at its target with its bytes |
| Migrator.IAMigrator.constructor | src/migrators/ia_to_ce.py:7-9 | records the input pack, the output pack and the namespace |
| Migrator.IAMigrator.Migrate | src/migrators/ia_to_ce.py:11-27 | the output is textures, then models, then missing models applied to the old output |
| Migrator.IAMigrator.MigrateTextures | src/migrators/ia_to_ce.py:29-66 | the output is the old output with every texture copied to its target |
| Migrator.IAMigrator.MigrateModels | src/migrators/ia_to_ce.py:69-94 | the output is the old output with every model that rewrites cleanly written at its target |
| Migrator.IAMigrator.MigrateModelFile | src/migrators/ia_to_ce.py:146-186 | one model is written at its target when it rewrites, and the output is unchanged when it raises |
| Migrator.IAMigrator.RewriteModel | src/migrators/ia_to_ce.py:151-180 | returns the processed model, or None when processing raises |
| Migrator.IAMigrator.RewriteOverrides | src/migrators/ia_to_ce.py:174-180 | returns the model with its override references rewritten, or None when that raises |
| Migrator.IAMigrator.GenerateMissingItemModels | src/migrators/ia_to_ce.py:96-134 | the output is the old output with every missing item model added |
| Migrator.IAMigrator.GenerateModelFor | src/migrators/ia_to_ce.py:114-133 | one texture's model is written only when absent |
| Converter.ResolveNamespace | src/converters/ia_to_ce.py:94-98 | defined as: a non-empty argument, else `info.namespace`, else the current namespace; its cases are in `Converter.NamespaceResolution` |
| Converter.NamespaceResolution | src/converters/ia_to_ce.py:94-98 | a non-empty namespace argument wins; else a string `info.namespace`, whatever its value, becomes the namespace; else the namespace stays `converted` |
| Converter.KeyedAt | src/converters/ia_to_ce.py:118-120 | after a section loop, `<ns>:<key>` holds the conversion of the key's last entry; ids the section lacks are kept |
| Converter.KeyedForeign | src/converters/ia_to_ce.py:195 | entries outside the current namespace are untouched by a section loop |
| Converter.ItemsConverted | src/converters/ia_to_ce.py:166-195 | every item key yields `<ns>:<key>` mapped to its converted item |
| Converter.TemplateIdInjective | src/converters/ia_to_ce.py:431 | template ids of distinct keys differ |
| Converter.TemplatesRegistered | src/converters/ia_to_ce.py:516 | a complex item registers its material's template under its id; other ids keep their earlier value |
| Converter.GeneratedEntryOf | src/converters/ia_to_ce.py:555-561 | a generated model key `item/<t>.json` holds the basic model with layer0 `<ns>:item/<t>` |
| Converter.GeneratedModelsShape | src/converters/ia_to_ce.py:555-561 | every registered model is such a basic model |
| Converter.GeneratedModelsCover | src/converters/ia_to_ce.py:535-561 | earlier registrations stay, and every item that generates a model has it registered |
| Converter.NamespacedListSpec | src/converters/ia_to_ce.py:131-144 | the category list keeps its length and order; namespaced entries are kept and the others get the namespace |
| Converter.CategoriesConverted | src/converters/ia_to_ce.py:122-164 | each category gets the `<!i>` name, priority 1, a namespaced icon (default `minecraft:stone`), the namespaced list, and hidden iff `enabled` is false |
| Converter.EquipmentsConverted | src/converters/ia_to_ce.py:104-110 | an `armors_rendering` entry wins over an `equipments` entry of the same key; ids neither defines are kept |
| Converter.PartitionSplits | src/converters/ia_to_ce.py:36-49 | armour and other items are disjoint and together are all the items; an item is armour iff it is worn |
| Converter.ArmorFileMembership | src/converters/ia_to_ce.py:39-44 | a converted item goes to `armor.yml` iff it has an armour suffix or is armour with an equipment id |
| Converter.ConfigFilesCover | src/converters/ia_to_ce.py:51-74 | every item appears in exactly one of `armor.yml` and `items.yml`, with its content |
| Converter.KeyPathInjective | src/converters/ia_to_ce.py:87-89 | distinct generated-model keys go to distinct files |
| Converter.KeyPathsDiffer | src/converters/ia_to_ce.py:87-89 | the key-to-file map is injective |
| Converter.WithGeneratedSpec | src/converters/ia_to_ce.py:86-92 | each generated model is written at its file; every other file is unchanged |
| Converter.WrittenPlanted | src/converters/ia_to_ce.py:88-92 | writing the models one by one in any order gives the same pack |
| Converter.SavedModelsWin | src/converters/ia_to_ce.py:76-92 | generated models are written after the migration, so they win; without an ItemsAdder pack, existing files stay |
| Converter.ArmorBranch | src/converters/ia_to_ce.py:183-184 | an armour item is its armour settings plus the generic model, with no template |
| Converter.FurnitureBranch | src/converters/ia_to_ce.py:185-186 | a furniture item gets the furniture behaviour plus the generic model, with no template |
| Converter.ComplexBranch | src/converters/ia_to_ce.py:187-188 | a complex item refers to its template and generates no model |
| Converter.HatBranch | src/converters/ia_to_ce.py:189-191 | a hat gets `equippable: head` plus the generic model |
| Converter.GenericBranch | src/converters/ia_to_ce.py:192-193 | any other item gets only the generic model |
| Converter.IAConverter.constructor | src/converters/ia_to_ce.py:7-17 | starts with namespace `converted`, empty sections, no generated models and no pack paths |
| Converter.IAConverter.SetResourcePaths | src/converters/ia_to_ce.py:19-21 | records both packs |
| Converter.IAConverter.Convert | src/converters/ia_to_ce.py:94-116 | the namespace is resolved, then items, templates, generated models, equipments (legacy, then rendering) and categories are the section loops applied to the old state |
| Converter.IAConverter.SelectNamespace | src/converters/ia_to_ce.py:95-98 | the namespace is the resolved one |
| Converter.IAConverter.ConvertItems | src/converters/ia_to_ce.py:118-120 | items, templates and generated models are the item loop applied to the old state |
| Converter.IAConverter.ConvertItem | src/converters/ia_to_ce.py:166-195 | stores the converted item under `<ns>:<key>`, adds its template and its generated model |
| Converter.IAConverter.NewItem | src/converters/ia_to_ce.py:167-178 | the base item: material (default STONE) and formatted name |
| Converter.IAConverter.ConvertArmorItem | src/converters/ia_to_ce.py:183-184 | the armour branch yields the converted item and its generated model |
| Converter.IAConverter.ConvertFurnitureItem | src/converters/ia_to_ce.py:185-186 | the furniture branch yields the converted item and its generated model |
| Converter.IAConverter.ConvertOtherItem | src/converters/ia_to_ce.py:187-193 | the complex, hat and generic branches yield the converted item, its template and its generated model |
| Converter.IAConverter.ConvertComplexItem | src/converters/ia_to_ce.py:187-188 | the complex branch yields the converted item and registers its template, with no generated model |
| Converter.IAConverter.ConvertModelItem | src/converters/ia_to_ce.py:189-193 | the hat and generic branches yield the converted item and its generated model, with no template |
| Converter.IAConverter.HandleArmor | src/converters/ia_to_ce.py:210-247 | armour settings, then the generic model |
| Converter.IAConverter.HandleFurniture | src/converters/ia_to_ce.py:249-289 | furniture behaviour, then the generic model |
| Converter.IAConverter.HandleComplexItem | src/converters/ia_to_ce.py:429-522 | registers the template under its id and points the item at it |
| Converter.IAConverter.HandleGenericModel | src/converters/ia_to_ce.py:524-561 | sets the model, and registers a generated one when textures are generated |
| Converter.IAConverter.ConvertCategories | src/converters/ia_to_ce.py:122-164 | categories are the category loop applied to the old ones |
| Converter.IAConverter.NamespaceList | src/converters/ia_to_ce.py:131-144 | returns the namespaced category list |
| Converter.IAConverter.ConvertEquipments | src/converters/ia_to_ce.py:563-610 | equipments are the loop of the given form applied to the old ones |
| Converter.IAConverter.ConvertEquipment | src/converters/ia_to_ce.py:568-608 | returns the equipment of the given form |
| Converter.IAConverter.PartitionItems | src/converters/ia_to_ce.py:36-49 | returns the armour part and the other part |
| Converter.IAConverter.SaveConfig | src/converters/ia_to_ce.py:23-92 | returns the three files and leaves the pack migrated, with the generated models written |
| Converter.IAConverter.BuildConfigFiles | src/converters/ia_to_ce.py:51-74 | returns the three files of the current configuration |
| Converter.IAConverter.MigratePacks | src/converters/ia_to_ce.py:76-83 | runs the migrator only when both packs are set |
| Converter.IAConverter.WriteGeneratedModels | src/converters/ia_to_ce.py:86-92 | returns the pack with every generated model written |
| Analyzer.Tag | src/analyzer.py:33-34 | appending a format if absent: it is then present, earlier formats keep their order, and no format repeats |
| Analyzer.ScanFinds | src/analyzer.py:129-136 | a scan with early return answers true iff some element says true before any raises, false iff all say false, and never raises when no element does |
| Analyzer.IsIaConfig | src/analyzer.py:109-124 | an ItemsAdder verdict needs a mapping |
| Analyzer.IaConfigCharacterised | src/analyzer.py:109-124 | on well-shaped data, ItemsAdder iff `info` has `namespace` or the first item has `resource` or `behaviours` |
| Analyzer.IaConfigOnlyInfoAndItems | src/analyzer.py:111-123 | only `info` and `items` decide the verdict; the other listed keys never do |
| Analyzer.CeMarkPlain | src/analyzer.py:131-135 | one well-shaped item marks CraftEngine iff it has a furniture behaviour or a model |
| Analyzer.CeScanPlain | src/analyzer.py:129-136 | over well-shaped items the scan answers whether any item marks CraftEngine |
| Analyzer.IsCeConfig | src/analyzer.py:126-136 | defined as: `items` is a mapping and the scan over its values finds a furniture behaviour or a model; characterised by `Analyzer.CeConfigCharacterised` |
| Analyzer.CeConfigCharacterised | src/analyzer.py:126-136 | CraftEngine iff some item has a `furniture_item` behaviour or a `model` |
| Analyzer.IsNexoConfig | src/analyzer.py:138-157 | defined as: `item_id` in the text, else a mapping whose value scan finds `Mechanics` or a `Pack` with `generate`; characterised by `Analyzer.NexoConfigCharacterised` |
| Analyzer.NexoConfigWitness | src/analyzer.py:149-155 | without `item_id`, a Nexo verdict has a top-level mapping with `Mechanics` or with `Pack` holding `generate` |
| Analyzer.ScanReaches | src/analyzer.py:149-155 | the loop returns true at an accepted value when no earlier value made it raise |
| Analyzer.NexoWitnessFound | src/analyzer.py:149-155 | a top-level mapping with `Mechanics`, or with a `Pack` holding `generate`, gives the Nexo verdict when no earlier value raised |
| Analyzer.NexoScanPlain | src/analyzer.py:149-155 | when every `Pack` is a mapping, list or string, the loop does not raise and finds a value exactly when some top-level value has `Mechanics` or a `Pack` holding `generate` |
| Analyzer.NexoConfigCharacterised | src/analyzer.py:138-157 | with `item_id` in the text the verdict is Nexo; without it, and with such packs, the verdict is Nexo iff the document is a mapping with a value holding `Mechanics` or a `Pack` with `generate` |
| Analyzer.FurnitureScanCompletes | src/analyzer.py:90-93 | the furniture loop completes iff no item raises |
| Analyzer.FurnitureScanFinds | src/analyzer.py:90-93 | decoration is added iff an item has furniture before any item raises |
| Analyzer.InertKeepsReport | src/analyzer.py:66-69 | an unreadable or empty file leaves the report unchanged |
| Analyzer.IaGrows | src/analyzer.py:80-96 | the ItemsAdder branch only adds: it tags ItemsAdder and repeats no format |
| Analyzer.ClassifiedGrows | src/analyzer.py:80-104 | a classified file only adds to the report and repeats no format |
| Analyzer.YamlReport | src/analyzer.py:65-107 | defined as: an unreadable or empty file, or one whose format tests raise, leaves the report; any other gets the IA, CraftEngine and Nexo verdicts recorded; its growth is `Analyzer.YamlGrows` and its counts are `Analyzer.IaItemsCounted` |
| Analyzer.YamlGrows | src/analyzer.py:65-107 | a YAML file, even one that raises part way, only adds to the report |
| Analyzer.IaItemsCounted | src/analyzer.py:84-93 | an ItemsAdder file with an `items` mapping sets the items flag, adds equipment, counts every item, and adds decoration iff an item is furniture |
| Analyzer.NameTagsSpec | src/analyzer.py:30-42 | a format is tagged iff already present or the directory or a child is named after it; no repeats |
| Analyzer.FolderGrows | src/analyzer.py:44-54 | the folder checks only add content types, counts and flags; formats are unchanged |
| Analyzer.DirTags | src/analyzer.py:30-54 | the directory step tags exactly the formats its names mark, and only adds |
| Analyzer.FilesGrow | src/analyzer.py:56-58 | the file loop only adds |
| Analyzer.StepGrows | src/analyzer.py:27-58 | one walk step only adds |
| Analyzer.WalkGrows | src/analyzer.py:27-58 | the whole walk only adds and repeats no format |
| Analyzer.WalkTagsMarkedDirs | src/analyzer.py:30-42 | any directory named after a format anywhere in the walk tags that format |
| Analyzer.InertFileSkipped | src/analyzer.py:56-58 | an unreadable or empty file can be dropped from the walk without changing the report |
| Analyzer.PackageAnalyzer.constructor | src/analyzer.py:5-20 | records the path, and the report starts empty |
| Analyzer.PackageAnalyzer.Analyze | src/analyzer.py:22-63 | the report is the walk's report, and the returned content types are those of the report without repeats |
| Analyzer.PackageAnalyzer.ContentTypeList | src/analyzer.py:61 | `list(set)`: the same elements, no repeats |
| Analyzer.PackageAnalyzer.AnalyzeStep | src/analyzer.py:27-58 | the report after one directory |
| Analyzer.PackageAnalyzer.AddFormat | src/analyzer.py:33-34 | the formats are the tagged ones |
| Analyzer.PackageAnalyzer.AnalyzeDir | src/analyzer.py:30-54 | the report after the name and folder checks |
| Analyzer.PackageAnalyzer.TagNames | src/analyzer.py:30-42 | the formats after the name checks |
| Analyzer.PackageAnalyzer.RecordFolders | src/analyzer.py:44-54 | the report after the folder checks |
| Analyzer.PackageAnalyzer.AnalyzeYaml | src/analyzer.py:65-107 | the report after one YAML file |
| Analyzer.PackageAnalyzer.Record | src/analyzer.py:80-104 | the report after a classified file |
| Analyzer.PackageAnalyzer.RecordIa | src/analyzer.py:80-96 | the report after the ItemsAdder branch, and whether it completed |
| Analyzer.PackageAnalyzer.ScanItems | src/analyzer.py:90-93 | decoration is added iff the scan finds furniture, and it reports whether the loop completed |
| WebApp.RouteOf | web/app.py:198-205 | a non-empty mapping goes to items iff it has `items`, `equipments` or `armors_rendering`, and to categories iff it has none of them but `categories`; an unreadable file is skipped |
| WebApp.RoutedMembers | web/app.py:192-205 | a document is listed under a route iff some file holds it and routes there |
| WebApp.ScanConfigs | web/app.py:192-207 | returns the item documents and the category documents, in scan order |
| WebApp.MergeStep | web/app.py:225-242 | defined as: an empty document is skipped; `info` is taken while the merged one is still empty; each section is updated with the document's; a raise is a crash; the effect per section is `WebApp.StepSection` |
| WebApp.StepSection | web/app.py:232-242 | one merge step writes a document's section entries over the merged ones |
| WebApp.MergedLastWins | web/app.py:222-242 | after the merge, each section key holds the value of the last document defining it |
| WebApp.FirstInfo | web/app.py:229-230 | the `info` taken is truthy |
| WebApp.InfoFromFirst | web/app.py:229-230 | the merged `info` is the first truthy one, or stays empty |
| WebApp.MergeItemConfigs | web/app.py:222-244 | returns the merge of the item documents, or the crash |
| WebApp.MergeFailureStays | web/app.py:224-242 | once a merge step raises, the request fails |
| WebApp.MergeConfig | web/app.py:228-242 | returns one merge step |
| WebApp.CategoriesLastWins | web/app.py:247-255 | each category holds the value of the last file defining it |
| WebApp.MergeCategories | web/app.py:247-255 | returns the merged categories |
| WebApp.CategoriesFailureStays | web/app.py:249-252 | once a category merge raises, the request fails |
| WebApp.AdmittedRun | web/app.py:265 | the longest prefix of namespace characters: all admitted, and the next character is not |
| WebApp.NamespaceMatches | web/app.py:265 | defined as: a non-empty run of admitted characters, then the end or one final newline, as Python's `re.match` with `$` reads the pattern; characterised by `WebApp.NamespaceMatchesIff` |
| WebApp.NamespaceMatchesIff | web/app.py:265 | the rule as written accepts a valid namespace or a valid namespace followed by one newline |
| WebApp.NewlineNamespaceAccepted | web/app.py:265 | `pack\n` passes the rule as written but is not a valid namespace |
| WebApp.MergedDocumentInfo | web/app.py:244-255 | the document handed to the converter carries the merged `info` |
| WebApp.ChooseNamespace | web/app.py:258-267 | a rejected namespace is exactly a non-empty user namespace the pattern refuses; an accepted user namespace is taken as given; with neither a user namespace nor `info.namespace` it is `converted` |
| WebApp.NewlineNamespaceChosen | web/app.py:263-267 | the user namespace `pack` followed by a newline is accepted and used |
| WebApp.PrepareConversion | web/app.py:215-267 | returns `WebApp.Prepared`: the error of the first failing step, else the merged document with the chosen namespace |
| WebApp.PreparedErrors | web/app.py:215-266 | "no item configuration" iff the scan found none; a rejected namespace means a non-empty user namespace the pattern refuses, which is also not a valid namespace |
| WebApp.PreparedNamespace | web/app.py:258-267 | the namespace is the user one when given, which the pattern accepts and so is valid or valid with one final newline; else `info.namespace` (default `converted`); and the converter resolves the same namespace from it |
| WebApp.ArchiveSuffixClean | web/app.py:324 | the archive suffix holds no forbidden character |
| WebApp.OutputFilename | web/app.py:324-325 | defined as: the stem and the CraftEngine tail with every forbidden character removed; its properties are in `WebApp.OutputFilenameSpec` |
| WebApp.OutputFilenameSpec | web/app.py:324-325 | the archive name has no forbidden character, ends with the CraftEngine suffix, and keeps a clean original name whole |

## Left out

- File I/O is replaced by values:
  - YAML and JSON reading and writing are not modelled, nor the footer comment of each YAML file; a parsed document is the `Document.Value` input.
  - Directories are maps from paths to contents; `os.makedirs`, `os.path.exists` and path normalisation are not modelled.
- Dictionary order is kept as entry order, and duplicate keys read as the last entry. The YAML loader's handling of duplicate keys is not modelled.
- Sounds are left out: `_migrate_sounds` does nothing.
- The web plumbing is left out: upload, unzip, sessions, responses, the resource-pack search, the non-standard pack restructure, the namespace-folder rename and the archive writing.
- Converter.IAConverter.Convert: reads a wrong-typed value (e.g. a list where a mapping is expected) as missing or empty, where the source raises. The source has no handler there, so a raise fails the whole request.
- The analyzer's Nexo test `"item_id" in str(data)` depends on Python's `repr`, so it is an input bit on each parsed file.
- Calling `analyze` a second time is not modelled: the first call turns the content-type set into a list.
- The category lore lines are constants the model does not carry.
- Converter.IAConverter.HandleComplexItem: requires a complex material; the source calls it only then, and its other branches are dead code.
- Converter.EquipmentsConverted: an `armors_rendering` entry overwrites an `equipments` entry of the same id, because the source converts the legacy form first.
- Converter.ArmorFileMembership: an armour item without an equipment id, whose material has no armour suffix, goes to `items.yml`. This follows the code.
- WebApp.MergeConfig and WebApp.MergeCategories: `dict.update` with a list of pairs is treated as a crash.
- WebApp.PreparedNamespace: a non-string `info.namespace` together with an accepted user namespace is accepted here. In the source it raises later, and only when the pack has an `assets` folder.
- The configuration files are read twice, once in the scan and once when merging; the model assumes both reads return the same document.
- Only `target_format` CraftEngine is modelled.
- Text.Lower lowers ASCII letters only.
- An armour material suffix overrides an explicit `slot` (src/converters/ia_to_ce.py:222-229), as `Items.SuffixOverridesSlot` shows.
- Only the `armors_rendering` form strips `.png` from its layers (src/converters/ia_to_ce.py:598-607); the legacy `equipments` form keeps them as given (src/converters/ia_to_ce.py:572-575).
- Armour and furniture items also get a direct model from `_handle_generic_model` (src/converters/ia_to_ce.py:247 and 288).
- The namespace rule is checked only in web/app.py:263-267; `convert` takes any namespace it is given.
- Items.EquipmentId, Items.ArmorSettings, Items.GenericModel, Items.ExplicitSlot, Items.ConvertedItem, Items.TemplateArguments, Items.LegacyEquipment, Converter.CategoryOf, Converter.NamespacedList, Placement.HitboxesFor and Converter.ResolveNamespace: a value that the source formats with `str()`, iterates character by character, or keeps as it is, is read here as the empty string, the empty list, or its truth value. This covers:
  - an equipment id that is not a string (src/converters/ia_to_ce.py:241);
  - a `model_path` that is not a string (src/converters/ia_to_ce.py:531);
  - a complex item's `model_path` that is null or not a string, which the template arguments format as `None` or its text (src/converters/ia_to_ce.py:440 and 459-513);
  - a legacy equipment layer that is null or not a string, formatted as `ns:None` or `ns:5` (src/converters/ia_to_ce.py:573-575);
  - a category `name` that is not a string (src/converters/ia_to_ce.py:152);
  - an explicit `slot` that is not a string (src/converters/ia_to_ce.py:223);
  - a category `items` given as one string (src/converters/ia_to_ce.py:133);
  - the seat's `blocks-building`, which the source copies from `solid` as given (src/converters/ia_to_ce.py:363);
  - an `info.namespace` that is not a string (src/converters/ia_to_ce.py:95-98).
- Placement.PlacementFor, Placement.HitboxesFor and Placement.CellPosition: positions are exact reals in `Vec3`. The source writes them as text: the translation with Python's default float formatting (src/converters/ia_to_ce.py:322), and the seat and shulker positions with `:g` (src/converters/ia_to_ce.py:368 and 403), which keeps six significant digits. The model does not capture that text or its rounding.

## Findings

| source | as written | input that shows it | evidently intended | confidence | as-written member | corrected member |
|---|---|---|---|---|---|---|
| web/app.py:265 | `re.match` with `^[0-9a-z_.-]+$` accepts a namespace followed by one newline, because `$` also matches before a final newline | user namespace `pack\n` | only lower-case letters, digits, `_`, `-` and `.` over the whole name | not executed | WebApp.NamespaceMatches | WebApp.ValidNamespace |

`WebApp.ChooseNamespace` applies the pattern as written, so the newline case reaches the converter (`WebApp.NewlineNamespaceChosen`). `WebApp.ValidNamespace` is the intended rule, and `WebApp.NamespaceMatchesIff` proves exactly how far the two differ.
