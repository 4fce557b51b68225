/**
  A parsed YAML or JSON document, as `yaml.safe_load` / `json.load` hand it to the source.
  A mapping keeps its entries in insertion order, as a Python dict does; looking a key up
  returns the value of its LAST entry, the one a Python dict built from the same key stream
  would keep. Parsed documents have distinct keys; lemmas that rely on that say so.
*/
module Document {
  import opened Wrappers
  import opened Text

  datatype Value =
    | Null
    | Bool(b: bool)
    | Num(n: real)
    | Str(s: string)
    | List(elems: seq<Value>)
    | Dict(entries: seq<(string, Value)>)

  type Entries = seq<(string, Value)>

  /** Every key of the mapping occurs once, as in every Python dict. */
  predicate UniqueKeys(es: Entries) {
    forall i, j :: 0 <= i < j < |es| ==> es[i].0 != es[j].0
  }

  /** `d.get(k)` on a dict given by its entries. */
  function Lookup(es: Entries, k: string): Option<Value>
    decreases |es|
  {
    if |es| == 0 then None
    else if es[|es| - 1].0 == k then Some(es[|es| - 1].1)
    else Lookup(es[..|es| - 1], k)
  }

  /** `k in d`: the key has an entry. */
  predicate HasKey(es: Entries, k: string) {
    Lookup(es, k).Some?
  }

  /** A key is present iff some entry carries it, and what is found is the value of such an entry. */
  lemma {:induction false} LookupFound(es: Entries, k: string)
    ensures HasKey(es, k) <==> exists i :: 0 <= i < |es| && es[i].0 == k
    ensures HasKey(es, k) ==> exists i :: 0 <= i < |es| && es[i] == (k, Lookup(es, k).value)
    decreases |es|
  {
    if |es| > 0 && es[|es| - 1].0 != k {
      var pre := es[..|es| - 1];
      LookupFound(pre, k);
      if HasKey(pre, k) {
        var i :| 0 <= i < |pre| && pre[i] == (k, Lookup(pre, k).value);
        assert es[i] == pre[i];
      }
      if exists i :: 0 <= i < |es| && es[i].0 == k {
        var i :| 0 <= i < |es| && es[i].0 == k;
        assert pre[i].0 == k;
      }
    } else if |es| > 0 {
      assert es[|es| - 1] == (k, Lookup(es, k).value);
    }
  }

  /** A key other than the last entry's is present iff it is present before that entry. */
  lemma HasKeyInit(es: Entries, k: string)
    requires |es| > 0
    ensures HasKey(es, k) <==> HasKey(es[..|es| - 1], k) || es[|es| - 1].0 == k
  {
  }

  /** With distinct keys, the value found for an entry's key is that entry's value. */
  lemma {:induction false} LookupUnique(es: Entries, i: nat)
    requires UniqueKeys(es) && i < |es|
    ensures Lookup(es, es[i].0) == Some(es[i].1)
    decreases |es|
  {
    if i < |es| - 1 {
      LookupUnique(es[..|es| - 1], i);
    }
  }

  /** `d.get(k)`; a value that is not a mapping is read as an empty one. */
  function Get(v: Value, k: string): Option<Value> {
    if v.Dict? then Lookup(v.entries, k) else None
  }

  predicate Has(v: Value, k: string) {
    Get(v, k).Some?
  }

  /** `d.get(k, default)`. */
  function GetOr(v: Value, k: string, default: Value): Value {
    Get(v, k).GetOr(default)
  }

  /** Python truthiness: `if v:`. */
  predicate Truthy(v: Value) {
    match v
    case Null => false
    case Bool(b) => b
    case Num(n) => n != 0.0
    case Str(s) => s != ""
    case List(e) => |e| > 0
    case Dict(e) => |e| > 0
  }

  /** A value used where the source expects a string (non-strings read as ""). */
  function AsText(v: Value): string {
    if v.Str? then v.s else ""
  }

  /** A value used where the source does arithmetic: a bool counts as 0 or 1, a non-number as 0. */
  function AsNum(v: Value): real {
    match v
    case Num(n) => n
    case Bool(b) => if b then 1.0 else 0.0
    case _ => 0.0
  }

  /** The `.items()` of a mapping; no entries for anything else. */
  function AsEntries(v: Value): Entries {
    if v.Dict? then v.entries else []
  }

  /** The elements of a list; none for anything else. */
  function AsList(v: Value): seq<Value> {
    if v.List? then v.elems else []
  }

  /**
    Python's `k in v` for a string `k`: key membership for a dict, element equality for a
    list, substring for a string; None stands for the TypeError any other value raises.
  */
  function PyIn(k: string, v: Value): Option<bool> {
    match v
    case Dict(es) => Some(HasKey(es, k))
    case List(e) => Some(Str(k) in e)
    case Str(s) => Some(Contains(s, k))
    case _ => None
  }

  /** Python's `v[k]` for a string `k`: None for a missing key (KeyError) or a non-mapping (TypeError). */
  function Subscript(v: Value, k: string): (r: Option<Value>)
    ensures r.Some? <==> v.Dict? && HasKey(v.entries, k)
  {
    if v.Dict? then Lookup(v.entries, k) else None
  }

  /** Overwrite the value of every entry with key `k`, keeping positions. */
  function Replace(es: Entries, k: string, x: Value): (r: Entries)
    ensures |r| == |es|
    ensures forall i :: 0 <= i < |es| ==> r[i].0 == es[i].0
    decreases |es|
  {
    if |es| == 0 then []
    else Replace(es[..|es| - 1], k, x) + [if es[|es| - 1].0 == k then (k, x) else es[|es| - 1]]
  }

  /** `d[k] = x`: an existing key keeps its position, a new key goes last. */
  function Put(es: Entries, k: string, x: Value): Entries {
    if HasKey(es, k) then Replace(es, k, x) else es + [(k, x)]
  }

  /** `d.update(other)`. */
  function Update(es: Entries, other: Entries): Entries
    decreases |other|
  {
    if |other| == 0 then es
    else
      var last := other[|other| - 1];
      Put(Update(es, other[..|other| - 1]), last.0, last.1)
  }

  lemma {:induction false} LookupReplace(es: Entries, k: string, x: Value, q: string)
    ensures Lookup(Replace(es, k, x), q) ==
      if q == k then (if HasKey(es, k) then Some(x) else None) else Lookup(es, q)
    decreases |es|
  {
    if |es| > 0 {
      var pre := es[..|es| - 1];
      LookupReplace(pre, k, x, q);
      var r := Replace(es, k, x);
      assert r[..|r| - 1] == Replace(pre, k, x);
    }
  }

  /** After `d[k] = x`, `d[k]` is `x` and every other key reads as before. */
  lemma LookupPut(es: Entries, k: string, x: Value, q: string)
    ensures Lookup(Put(es, k, x), q) == if q == k then Some(x) else Lookup(es, q)
  {
    if HasKey(es, k) {
      LookupReplace(es, k, x, q);
    } else {
      var r := es + [(k, x)];
      assert r[..|r| - 1] == es;
    }
  }

  /** `d.update(other)`: keys of `other` take its values, the rest keep theirs. */
  lemma {:induction false} LookupUpdate(es: Entries, other: Entries, q: string)
    ensures Lookup(Update(es, other), q) ==
      if HasKey(other, q) then Lookup(other, q) else Lookup(es, q)
    decreases |other|
  {
    if |other| > 0 {
      var pre := other[..|other| - 1];
      var last := other[|other| - 1];
      LookupUpdate(es, pre, q);
      LookupPut(Update(es, pre), last.0, last.1, q);
      HasKeyInit(other, q);
    }
  }
}
