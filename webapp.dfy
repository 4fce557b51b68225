/**
  The conversion inputs the web handler of `/api/convert` prepares (web/app.py): which
  uploaded YAML documents are item configurations and which are category configurations,
  the single document merged from them for the converter, the namespace to convert under,
  and the name of the archive handed back.

  A document that cannot be read, or on which a key test raises, is skipped during the scan;
  an exception after the scan fails the whole request (the 500 answer, `Crash` here).
*/
module WebApp {
  import opened Wrappers
  import opened Text
  import opened Document
  import Converter

  /** Why no conversion runs: no item configuration, a rejected namespace, or an uncaught exception. */
  datatype WebError = NoItemConfig | BadNamespace | Crash

  // ---------------------------------------------------------------------------------------
  // The scan for configuration files

  /** Where the scan files a YAML document. */
  datatype Route = ItemConfig | CategoryConfig | Skipped

  /**
    The key tests of the scan on one file's document (None when it could not be read or
    parsed): an item configuration has `items`, `equipments` or `armors_rendering`, a category
    configuration has `categories` and none of those.
  */
  function RouteOf(doc: Option<Value>): (r: Route)
    ensures doc.Some? && doc.value.Dict? && Truthy(doc.value) ==>
      && (r == ItemConfig <==> Has(doc.value, "items") || Has(doc.value, "equipments") || Has(doc.value, "armors_rendering"))
      && (r == CategoryConfig <==>
            !Has(doc.value, "items") && !Has(doc.value, "equipments") && !Has(doc.value, "armors_rendering")
            && Has(doc.value, "categories"))
    ensures doc.None? || !Truthy(doc.value) ==> r == Skipped
  {
    if doc.None? || !Truthy(doc.value) then Skipped
    else
      var data := doc.value;
      var hasItems := PyIn("items", data);
      if hasItems.None? then Skipped
      else if hasItems.value then ItemConfig
      else
        var hasEquipments := PyIn("equipments", data);
        if hasEquipments.None? then Skipped
        else if hasEquipments.value then ItemConfig
        else
          var hasRendering := PyIn("armors_rendering", data);
          if hasRendering.None? then Skipped
          else if hasRendering.value then ItemConfig
          else
            var hasCategories := PyIn("categories", data);
            if hasCategories.None? || !hasCategories.value then Skipped else CategoryConfig
  }

  /** The documents of the files the scan files under `route`, in scan order. */
  function Routed(files: seq<Option<Value>>, route: Route): seq<Value>
    decreases |files|
  {
    if |files| == 0 then []
    else
      var before := Routed(files[..|files| - 1], route);
      var last := files[|files| - 1];
      if RouteOf(last) == route && route != Skipped then before + [last.value] else before
  }

  /** A document is among those filed under a route iff some file holds it and is routed there. */
  lemma {:induction false} RoutedMembers(files: seq<Option<Value>>, route: Route, d: Value)
    requires route != Skipped
    ensures d in Routed(files, route) <==> exists i :: 0 <= i < |files| && files[i] == Some(d) && RouteOf(files[i]) == route
    decreases |files|
  {
    if |files| > 0 {
      var init := files[..|files| - 1];
      RoutedMembers(init, route, d);
      if exists i :: 0 <= i < |init| && init[i] == Some(d) && RouteOf(init[i]) == route {
        var i :| 0 <= i < |init| && init[i] == Some(d) && RouteOf(init[i]) == route;
        assert files[i] == init[i];
      }
      if exists i :: 0 <= i < |files| && files[i] == Some(d) && RouteOf(files[i]) == route {
        var i :| 0 <= i < |files| && files[i] == Some(d) && RouteOf(files[i]) == route;
        if i < |init| {
          assert init[i] == files[i];
        }
      }
    }
  }

  /** The scan: item configurations and category configurations, each in the order found. */
  method ScanConfigs(files: seq<Option<Value>>) returns (itemDocs: seq<Value>, categoryDocs: seq<Value>)
    ensures itemDocs == Routed(files, ItemConfig)
    ensures categoryDocs == Routed(files, CategoryConfig)
  {
    itemDocs, categoryDocs := [], [];
    var i := 0;
    while i < |files|
      invariant i <= |files|
      invariant itemDocs == Routed(files[..i], ItemConfig)
      invariant categoryDocs == Routed(files[..i], CategoryConfig)
    {
      var route := RouteOf(files[i]);
      if route == ItemConfig {
        itemDocs := itemDocs + [files[i].value];
      } else if route == CategoryConfig {
        categoryDocs := categoryDocs + [files[i].value];
      }
      assert files[..i + 1][..i] == files[..i];
      i := i + 1;
    }
    assert files[..i] == files;
  }

  // ---------------------------------------------------------------------------------------
  // Merging the item configurations

  /** `merged_items_data`: the four merged sections and `info`. */
  datatype Merged = Merged(items: Entries, equipments: Entries, armorsRendering: Entries, templates: Entries, info: Value)

  /** The merged data before the first configuration: every section and `info` empty. */
  const EmptyMerged := Merged([], [], [], [], Dict([]))

  /** The names of the merged sections. */
  const SectionNames: set<string> := {"items", "equipments", "armors_rendering", "templates"}

  /** The merged section under a name. */
  function Field(m: Merged, k: string): Entries
    requires k in SectionNames
  {
    if k == "items" then m.items
    else if k == "equipments" then m.equipments
    else if k == "armors_rendering" then m.armorsRendering
    else m.templates
  }

  /**
    `target.update(v)`: a mapping's entries are written over the target's; an empty string or
    list changes nothing; anything else raises.
  */
  function UpdateWith(target: Entries, v: Value): Option<Entries> {
    if v.Dict? then Some(Update(target, v.entries))
    else if v == Str("") || v == List([]) then Some(target)
    else None
  }

  /** `if k in data: merged[k].update(data[k])`; None when it raises. */
  function UpdateSection(target: Entries, data: Value, k: string): Option<Entries> {
    var has := PyIn(k, data);
    if has.None? then None
    else if !has.value then Some(target)
    else
      var v := Subscript(data, k);
      if v.None? then None else UpdateWith(target, v.value)
  }

  /** One iteration of the merge loop. */
  function MergeStep(m: Merged, data: Value): Result<Merged, WebError> {
    if !Truthy(data) then Success(m)
    else
      var hasInfo := PyIn("info", data);
      var info := if hasInfo.None? then None
                  else if hasInfo.value && !Truthy(m.info) then Subscript(data, "info")
                  else Some(m.info);
      var items := UpdateSection(m.items, data, "items");
      var equipments := UpdateSection(m.equipments, data, "equipments");
      var rendering := UpdateSection(m.armorsRendering, data, "armors_rendering");
      var templates := UpdateSection(m.templates, data, "templates");
      if info.None? || items.None? || equipments.None? || rendering.None? || templates.None? then Failure(Crash)
      else Success(Merged(items.value, equipments.value, rendering.value, templates.value, info.value))
  }

  /** The merge loop over the item configurations, in scan order. */
  function MergeAll(docs: seq<Value>): Result<Merged, WebError>
    decreases |docs|
  {
    if |docs| == 0 then Success(EmptyMerged)
    else
      var before := MergeAll(docs[..|docs| - 1]);
      if before.Failure? then before else MergeStep(before.value, docs[|docs| - 1])
  }

  /** The entries a document gives section `k`, when it gives it a mapping. */
  function Contribution(data: Value, k: string): Entries {
    if Truthy(data) && Get(data, k).Some? && Get(data, k).value.Dict? then Get(data, k).value.entries else []
  }

  /** The value the last document defining `q` in section `k` gives it. */
  function LastDefinition(docs: seq<Value>, k: string, q: string): Option<Value>
    decreases |docs|
  {
    if |docs| == 0 then None
    else if HasKey(Contribution(docs[|docs| - 1], k), q) then Lookup(Contribution(docs[|docs| - 1], k), q)
    else LastDefinition(docs[..|docs| - 1], k, q)
  }

  /** One merge step writes the document's entries of a section over the merged ones. */
  lemma StepSection(m: Merged, data: Value, k: string, q: string)
    requires k in SectionNames && MergeStep(m, data).Success?
    ensures Lookup(Field(MergeStep(m, data).value, k), q) ==
      if HasKey(Contribution(data, k), q) then Lookup(Contribution(data, k), q) else Lookup(Field(m, k), q)
  {
    if Truthy(data) && PyIn(k, data) == Some(true) {
      var v := Subscript(data, k).value;
      if v.Dict? {
        LookupUpdate(Field(m, k), v.entries, q);
      }
    }
  }

  /** After a successful merge, every key of a section holds the value of its last definition. */
  lemma {:induction false} MergedLastWins(docs: seq<Value>, k: string, q: string)
    requires k in SectionNames && MergeAll(docs).Success?
    ensures Lookup(Field(MergeAll(docs).value, k), q) == LastDefinition(docs, k, q)
    decreases |docs|
  {
    if |docs| > 0 {
      var init := docs[..|docs| - 1];
      MergedLastWins(init, k, q);
      StepSection(MergeAll(init).value, docs[|docs| - 1], k, q);
    }
  }

  /** The `info` of the first configuration whose `info` is truthy. */
  function FirstInfo(docs: seq<Value>): (r: Option<Value>)
    ensures r.Some? ==> Truthy(r.value)
    decreases |docs|
  {
    if |docs| == 0 then None
    else if FirstInfo(docs[..|docs| - 1]).Some? then FirstInfo(docs[..|docs| - 1])
    else
      var last := docs[|docs| - 1];
      if Truthy(last) && Get(last, "info").Some? && Truthy(Get(last, "info").value) then Get(last, "info") else None
  }

  /**
    `info` is taken from the first configuration whose `info` is truthy and is not replaced
    afterwards; while none has been seen, the merged `info` is falsy.
  */
  lemma {:induction false} InfoFromFirst(docs: seq<Value>)
    requires MergeAll(docs).Success?
    ensures FirstInfo(docs).Some? ==> MergeAll(docs).value.info == FirstInfo(docs).value
    ensures FirstInfo(docs).None? ==> !Truthy(MergeAll(docs).value.info)
    decreases |docs|
  {
    if |docs| > 0 {
      var init := docs[..|docs| - 1];
      var last := docs[|docs| - 1];
      assert MergeAll(init).Success?;
      InfoFromFirst(init);
      var m := MergeAll(init).value;
      assert MergeAll(docs) == MergeStep(m, last);
      if Truthy(last) && PyIn("info", last) == Some(true) && !Truthy(m.info) {
        assert last.Dict?;
        assert MergeAll(docs).value.info == Get(last, "info").value;
      }
    }
  }

  /** The merge loop over the item configurations. */
  method MergeItemConfigs(docs: seq<Value>) returns (r: Result<Merged, WebError>)
    ensures r == MergeAll(docs)
  {
    var merged := EmptyMerged;
    var i := 0;
    while i < |docs|
      invariant i <= |docs|
      invariant MergeAll(docs[..i]) == Success(merged)
    {
      assert docs[..i + 1][..i] == docs[..i];
      var step := MergeConfig(merged, docs[i]);
      if step.Failure? {
        MergeFailureStays(docs, i + 1);
        return step;
      }
      merged := step.value;
      i := i + 1;
    }
    assert docs[..i] == docs;
    r := Success(merged);
  }

  /** A failed merge stays failed through the rest of the configurations. */
  lemma {:induction false} MergeFailureStays(docs: seq<Value>, n: nat)
    requires n <= |docs| && MergeAll(docs[..n]).Failure?
    ensures MergeAll(docs) == MergeAll(docs[..n])
    decreases |docs| - n
  {
    if n < |docs| {
      assert docs[..n + 1][..n] == docs[..n];
      MergeFailureStays(docs, n + 1);
    } else {
      assert docs[..n] == docs;
    }
  }

  /** One configuration merged in: `info` if none is set yet, then the four sections. */
  method MergeConfig(merged: Merged, data: Value) returns (r: Result<Merged, WebError>)
    ensures r == MergeStep(merged, data)
  {
    if !Truthy(data) {
      return Success(merged);
    }
    var m := merged;
    var hasInfo := PyIn("info", data);
    if hasInfo.None? {
      return Failure(Crash);
    }
    if hasInfo.value && !Truthy(m.info) {
      var info := Subscript(data, "info");
      if info.None? {
        return Failure(Crash);
      }
      m := m.(info := info.value);
    }
    var items := UpdateSection(m.items, data, "items");
    var equipments := UpdateSection(m.equipments, data, "equipments");
    var rendering := UpdateSection(m.armorsRendering, data, "armors_rendering");
    var templates := UpdateSection(m.templates, data, "templates");
    if items.None? || equipments.None? || rendering.None? || templates.None? {
      return Failure(Crash);
    }
    r := Success(m.(items := items.value, equipments := equipments.value,
                    armorsRendering := rendering.value, templates := templates.value));
  }

  // ---------------------------------------------------------------------------------------
  // Merging the category configurations

  /** One iteration of the category loop: `if data and "categories" in data: merged.update(...)`. */
  function CategoriesStep(acc: Entries, data: Value): Result<Entries, WebError> {
    if !Truthy(data) then Success(acc)
    else
      var r := UpdateSection(acc, data, "categories");
      if r.None? then Failure(Crash) else Success(r.value)
  }

  /** The category loop over the category configurations. */
  function CategoriesAll(docs: seq<Value>): Result<Entries, WebError>
    decreases |docs|
  {
    if |docs| == 0 then Success([])
    else
      var before := CategoriesAll(docs[..|docs| - 1]);
      if before.Failure? then before else CategoriesStep(before.value, docs[|docs| - 1])
  }

  /** After a successful category merge, every category holds its last definition. */
  lemma {:induction false} CategoriesLastWins(docs: seq<Value>, q: string)
    requires CategoriesAll(docs).Success?
    ensures Lookup(CategoriesAll(docs).value, q) == LastDefinition(docs, "categories", q)
    decreases |docs|
  {
    if |docs| > 0 {
      var init := docs[..|docs| - 1];
      var last := docs[|docs| - 1];
      CategoriesLastWins(init, q);
      if Truthy(last) && PyIn("categories", last) == Some(true) && Subscript(last, "categories").value.Dict? {
        LookupUpdate(CategoriesAll(init).value, Subscript(last, "categories").value.entries, q);
      }
    }
  }

  /** The category loop. */
  method MergeCategories(docs: seq<Value>) returns (r: Result<Entries, WebError>)
    ensures r == CategoriesAll(docs)
  {
    var merged: Entries := [];
    var i := 0;
    while i < |docs|
      invariant i <= |docs|
      invariant CategoriesAll(docs[..i]) == Success(merged)
    {
      assert docs[..i + 1][..i] == docs[..i];
      var data := docs[i];
      if Truthy(data) {
        var updated := UpdateSection(merged, data, "categories");
        if updated.None? {
          CategoriesFailureStays(docs, i + 1);
          return Failure(Crash);
        }
        merged := updated.value;
      }
      i := i + 1;
    }
    assert docs[..i] == docs;
    r := Success(merged);
  }

  lemma {:induction false} CategoriesFailureStays(docs: seq<Value>, n: nat)
    requires n <= |docs| && CategoriesAll(docs[..n]).Failure?
    ensures CategoriesAll(docs) == CategoriesAll(docs[..n])
    decreases |docs| - n
  {
    if n < |docs| {
      assert docs[..n + 1][..n] == docs[..n];
      CategoriesFailureStays(docs, n + 1);
    } else {
      assert docs[..n] == docs;
    }
  }

  // ---------------------------------------------------------------------------------------
  // The namespace

  /** A character the namespace pattern admits: a lower-case letter, a digit, `_`, `.` or `-`. */
  predicate NamespaceChar(c: char) {
    'a' <= c <= 'z' || '0' <= c <= '9' || c == '_' || c == '.' || c == '-'
  }

  /** The length of the longest prefix made of admitted characters. */
  function AdmittedRun(s: string): (n: nat)
    ensures n <= |s|
    ensures forall i :: 0 <= i < n ==> NamespaceChar(s[i])
    ensures n < |s| ==> !NamespaceChar(s[n])
    decreases |s|
  {
    if |s| == 0 || !NamespaceChar(s[0]) then 0 else 1 + AdmittedRun(s[1..])
  }

  /**
    `re.match(r'^[0-9a-z_.-]+$', s)` as Python evaluates it: at least one admitted character
    from the start, then the end of the string or a final newline, which Python's `$` also
    accepts.
  */
  predicate NamespaceMatches(s: string) {
    var n := AdmittedRun(s);
    n > 0 && (n == |s| || (n == |s| - 1 && s[n] == '\n'))
  }

  /** The namespace rule as the error message states it: non-empty, admitted characters only. */
  predicate ValidNamespace(s: string) {
    |s| > 0 && forall i :: 0 <= i < |s| ==> NamespaceChar(s[i])
  }

  /** The pattern accepts exactly the valid namespaces and the valid namespaces followed by one newline. */
  lemma NamespaceMatchesIff(s: string)
    ensures NamespaceMatches(s) <==>
      ValidNamespace(s) || (|s| >= 2 && s[|s| - 1] == '\n' && ValidNamespace(s[..|s| - 1]))
  {
    var n := AdmittedRun(s);
    if |s| > 0 {
      var init := s[..|s| - 1];
      assert forall i :: 0 <= i < |init| ==> init[i] == s[i];
    }
    if ValidNamespace(s) {
      assert n == |s|;
    }
  }

  /** As written, the pattern lets `pack` followed by a newline through, which the rule excludes. */
  lemma NewlineNamespaceAccepted()
    ensures NamespaceMatches("pack\n") && !ValidNamespace("pack\n")
  {
    assert AdmittedRun("pack\n") == 4 by {
      assert "pack\n"[1..] == "ack\n" && "ack\n"[1..] == "ck\n" && "ck\n"[1..] == "k\n" && "k\n"[1..] == "\n";
    }
    assert !NamespaceChar("pack\n"[4]);
  }

  /**
    `info.namespace` of the merged data, else `converted`; a user namespace overrides it once it
    passes the pattern as Python matches it. `info` that is not a mapping, or a fallback that is
    not a string, raises.
  */
  function ChooseNamespace(info: Value, user: Option<string>): (r: Result<string, WebError>)
    ensures r == Failure(BadNamespace) <==> info.Dict? && user.Some? && user.value != "" && !NamespaceMatches(user.value)
    ensures r.Success? && user.Some? && user.value != "" ==> r.value == user.value
    ensures info.Dict? && (user.None? || user.value == "") && !Has(info, "namespace") ==> r == Success("converted")
  {
    if !info.Dict? then Failure(Crash)
    else
      var original := GetOr(info, "namespace", Str("converted"));
      if user.Some? && user.value != "" then
        if NamespaceMatches(user.value) then Success(user.value) else Failure(BadNamespace)
      else if original.Str? then Success(original.s)
      else Failure(Crash)
  }

  /** A user namespace with a trailing newline passes the check and becomes the namespace of the conversion. */
  lemma NewlineNamespaceChosen()
    ensures ChooseNamespace(Dict([]), Some("pack\n")) == Success("pack\n")
  {
    NewlineNamespaceAccepted();
  }

  // ---------------------------------------------------------------------------------------
  // The whole preparation

  /** What the converter is run on: the merged document and the namespace. */
  datatype Conversion = Conversion(data: Value, namespace: string)

  /** `merged_items_data` as a mapping, its keys in the order it was created with. */
  function MergedEntries(m: Merged): Entries {
    [("items", Dict(m.items)), ("equipments", Dict(m.equipments)),
     ("armors_rendering", Dict(m.armorsRendering)), ("templates", Dict(m.templates)),
     ("info", m.info)]
  }

  /** The merged data as the document handed to `convert`, with `categories` added when any were merged. */
  function MergedDocument(m: Merged, categories: Entries): Value {
    if |categories| > 0 then Dict(MergedEntries(m) + [("categories", Dict(categories))]) else Dict(MergedEntries(m))
  }

  /** The document's `info` is the merged `info`. */
  lemma MergedDocumentInfo(m: Merged, categories: Entries)
    ensures Get(MergedDocument(m, categories), "info") == Some(m.info)
  {
    var base := MergedEntries(m);
    assert Lookup(base, "info") == Some(m.info);
    if |categories| > 0 {
      var es := base + [("categories", Dict(categories))];
      assert es[..|es| - 1] == base;
    }
  }

  /** Scan, no-config check, merges, then the namespace. */
  function Prepared(files: seq<Option<Value>>, user: Option<string>): Result<Conversion, WebError> {
    var itemDocs := Routed(files, ItemConfig);
    if itemDocs == [] then Failure(NoItemConfig)
    else
      var merged := MergeAll(itemDocs);
      var categories := CategoriesAll(Routed(files, CategoryConfig));
      if merged.Failure? || categories.Failure? then Failure(Crash)
      else
        var ns := ChooseNamespace(merged.value.info, user);
        if ns.Failure? then Failure(ns.error)
        else Success(Conversion(MergedDocument(merged.value, categories.value), ns.value))
  }

  /** The steps of `/api/convert` that decide what the converter runs on. */
  method PrepareConversion(files: seq<Option<Value>>, user: Option<string>) returns (r: Result<Conversion, WebError>)
    ensures r == Prepared(files, user)
  {
    var itemDocs, categoryDocs := ScanConfigs(files);
    if itemDocs == [] {
      return Failure(NoItemConfig);
    }
    var merged := MergeItemConfigs(itemDocs);
    if merged.Failure? {
      return Failure(Crash);
    }
    var categories := MergeCategories(categoryDocs);
    if categories.Failure? {
      return Failure(Crash);
    }
    var ns := ChooseNamespace(merged.value.info, user);
    if ns.Failure? {
      return Failure(ns.error);
    }
    r := Success(Conversion(MergedDocument(merged.value, categories.value), ns.value));
  }

  /**
    No conversion runs without an item configuration, and that is the only way to get that
    error; a rejected namespace means the user gave a non-empty one the pattern refuses, which
    is neither valid nor valid with one final newline.
  */
  lemma PreparedErrors(files: seq<Option<Value>>, user: Option<string>)
    ensures Prepared(files, user) == Failure(NoItemConfig) <==> Routed(files, ItemConfig) == []
    ensures Prepared(files, user) == Failure(BadNamespace) ==>
      user.Some? && user.value != "" && !NamespaceMatches(user.value)
      && !ValidNamespace(user.value)
  {
    if Prepared(files, user) == Failure(BadNamespace) {
      NamespaceMatchesIff(user.value);
    }
  }

  /**
    A successful preparation converts under the user's namespace when one was given (and the
    pattern accepts it: a valid namespace, or one followed by a single newline), else under the `info.namespace` the merge kept, else under `converted`; and the
    converter, handed that namespace, keeps it.
  */
  lemma PreparedNamespace(files: seq<Option<Value>>, user: Option<string>)
    requires Prepared(files, user).Success?
    ensures var c := Prepared(files, user).value;
      && (user.Some? && user.value != "" ==>
            && c.namespace == user.value
            && NamespaceMatches(user.value)
            && (|| ValidNamespace(user.value)
                || (|user.value| >= 2 && user.value[|user.value| - 1] == '\n' && ValidNamespace(user.value[..|user.value| - 1]))))
      && (user.None? || user.value == "" ==>
            Str(c.namespace) == GetOr(GetOr(c.data, "info", Null), "namespace", Str("converted")))
      && Converter.ResolveNamespace(Converter.DefaultNamespace, Some(c.namespace), c.data) == c.namespace
  {
    var c := Prepared(files, user).value;
    if user.Some? {
      NamespaceMatchesIff(user.value);
    }
    var m := MergeAll(Routed(files, ItemConfig)).value;
    var cats := CategoriesAll(Routed(files, CategoryConfig)).value;
    assert c.data == MergedDocument(m, cats);
    MergedDocumentInfo(m, cats);
    if c.namespace == "" {
      assert GetOr(m.info, "namespace", Str("converted")) == Str("");
      assert Has(c.data, "info") && Has(GetOr(c.data, "info", Null), "namespace");
    }
  }

  // ---------------------------------------------------------------------------------------
  // The archive name

  /** The characters the archive name is cleaned of: backslash, slash, star, question mark, colon, double quote, angle brackets and bar. */
  const ForbiddenChars: set<char> := {'\\', '/', '*', '?', ':', '"', '<', '>', '|'}

  /** The fixed tail of the archive name on the CraftEngine branch. */
  const ArchiveSuffix: string := " [CraftEngine by MCC].zip"

  /** The archive name: the uploaded archive's stem and the tail, with every forbidden character removed. */
  function OutputFilename(original: string): string {
    RemoveChars(original + ArchiveSuffix, ForbiddenChars)
  }

  /** Removing characters commutes with concatenation. */
  lemma {:induction false} RemoveCharsConcat(a: string, b: string, bad: set<char>)
    ensures RemoveChars(a + b, bad) == RemoveChars(a, bad) + RemoveChars(b, bad)
    decreases |a|
  {
    if |a| > 0 {
      assert (a + b)[0] == a[0];
      assert (a + b)[1..] == a[1..] + b;
      RemoveCharsConcat(a[1..], b, bad);
    } else {
      assert a + b == b;
    }
  }

  /** The tail holds no forbidden character. */
  lemma ArchiveSuffixClean()
    ensures forall c :: c in ArchiveSuffix ==> c !in ForbiddenChars
  {
  }

  /** Cleaning a name whose tail has nothing to remove keeps the tail at its end. */
  lemma CleanTailKept(stem: string, tail: string, bad: set<char>)
    requires forall c :: c in tail ==> c !in bad
    ensures EndsWith(RemoveChars(stem + tail, bad), tail)
    ensures (forall c :: c in stem ==> c !in bad) ==> RemoveChars(stem + tail, bad) == stem + tail
  {
    RemoveCharsConcat(stem, tail, bad);
    var out := RemoveChars(stem + tail, bad);
    assert out[|out| - |tail|..] == tail;
    if forall c :: c in stem ==> c !in bad {
      assert forall c :: c in stem + tail ==> c !in bad;
    }
  }

  /**
    The archive name holds no forbidden character, still ends with the tail (so in `.zip`),
    and keeps a stem that had none unchanged.
  */
  lemma OutputFilenameSpec(original: string)
    ensures forall c :: c in OutputFilename(original) ==> c !in ForbiddenChars
    ensures EndsWith(OutputFilename(original), ArchiveSuffix)
    ensures (forall c :: c in original ==> c !in ForbiddenChars) ==> OutputFilename(original) == original + ArchiveSuffix
  {
    ArchiveSuffixClean();
    CleanTailKept(original, ArchiveSuffix, ForbiddenChars);
  }
}
