/** String operations the source performs with Python's `str` methods, on `seq<char>`. */
module Text {

  /** `s.startswith(p)` */
  predicate StartsWith(s: string, p: string) {
    |p| <= |s| && s[..|p|] == p
  }

  /** `s.endswith(p)` */
  predicate EndsWith(s: string, p: string) {
    |p| <= |s| && s[|s| - |p|..] == p
  }

  /** `sub in s`: substring containment (the empty string is in every string). */
  predicate Contains(s: string, sub: string)
    decreases |s|
  {
    StartsWith(s, sub) || (|s| > 0 && Contains(s[1..], sub))
  }

  lemma {:induction false} ContainsAt(s: string, sub: string, i: nat)
    requires i + |sub| <= |s| && s[i..i + |sub|] == sub
    ensures Contains(s, sub)
    decreases i
  {
    if i > 0 {
      assert s[1..][i - 1..i - 1 + |sub|] == sub;
      ContainsAt(s[1..], sub, i - 1);
    }
  }

  /** A string shorter than `sub` does not contain it. */
  lemma {:induction false} ShortNotContains(s: string, sub: string)
    requires |s| < |sub|
    ensures !Contains(s, sub)
    decreases |s|
  {
    if |s| > 0 {
      ShortNotContains(s[1..], sub);
    }
  }

  /** `s[:-len(suf)]` when `s.endswith(suf)`, otherwise `s` unchanged. */
  function StripSuffix(s: string, suf: string): (r: string)
    ensures EndsWith(s, suf) ==> r + suf == s
    ensures !EndsWith(s, suf) ==> r == s
  {
    if EndsWith(s, suf) then s[..|s| - |suf|] else s
  }

  /** `s.split(c, 1)[1]`: everything after the first occurrence of `c`. */
  function AfterFirst(s: string, c: char): (r: string)
    requires c in s
    ensures |r| < |s|
    ensures EndsWith(s, r)
  {
    if s[0] == c then s[1..] else AfterFirst(s[1..], c)
  }

  /** When the prefix holds no `c`, splitting at the first `c` returns what follows the prefix. */
  lemma {:induction false} AfterFirstPrefix(p: string, c: char, s: string)
    requires c !in p
    ensures c in p + [c] + s
    ensures AfterFirst(p + [c] + s, c) == s
    decreases |p|
  {
    var w := p + [c] + s;
    assert w[|p|] == c;
    if |p| > 0 {
      assert w[1..] == p[1..] + [c] + s;
      AfterFirstPrefix(p[1..], c, s);
    }
  }

  /** `s.replace(a, b)` for one-character `a` and `b`. */
  function ReplaceChar(s: string, a: char, b: char): (r: string)
    ensures |r| == |s|
    ensures a != b ==> a !in r
    ensures forall i :: 0 <= i < |s| ==> r[i] == (if s[i] == a then b else s[i])
  {
    seq(|s|, i requires 0 <= i < |s| => if s[i] == a then b else s[i])
  }

  /** `re.sub("[...]", "", s)`: drop every character of `bad`, keep the others in order. */
  function RemoveChars(s: string, bad: set<char>): (r: string)
    ensures |r| <= |s|
    ensures forall c :: c in r ==> c in s && c !in bad
    ensures (forall c :: c in s ==> c !in bad) ==> r == s
    decreases |s|
  {
    if |s| == 0 then ""
    else if s[0] in bad then RemoveChars(s[1..], bad)
    else [s[0]] + RemoveChars(s[1..], bad)
  }

  /** Join with a one-character separator. */
  function Join(parts: seq<string>, sep: char): string
    decreases |parts|
  {
    if |parts| == 0 then ""
    else if |parts| == 1 then parts[0]
    else parts[0] + [sep] + Join(parts[1..], sep)
  }

  /** Appending a part appends the separator and the part. */
  lemma {:induction false} JoinSnoc(parts: seq<string>, last: string, sep: char)
    requires |parts| > 0
    ensures Join(parts + [last], sep) == Join(parts, sep) + [sep] + last
    decreases |parts|
  {
    if |parts| > 1 {
      assert (parts + [last])[1..] == parts[1..] + [last];
      JoinSnoc(parts[1..], last, sep);
    }
  }

  /** A character found in no part and distinct from the separator is not in the joined string. */
  lemma {:induction false} JoinWithout(parts: seq<string>, sep: char, c: char)
    requires c != sep && forall i :: 0 <= i < |parts| ==> c !in parts[i]
    ensures c !in Join(parts, sep)
    decreases |parts|
  {
    if |parts| > 1 {
      JoinWithout(parts[1..], sep, c);
    }
  }

  /** Replacing a character that does not occur changes nothing. */
  lemma ReplaceAbsent(s: string, a: char, b: char)
    requires a !in s
    ensures ReplaceChar(s, a, b) == s
  {
    assert forall i :: 0 <= i < |s| ==> s[i] != a;
  }

  /** `s.split(sep)`: at least one part, none containing the separator. */
  function Split(s: string, sep: char): (r: seq<string>)
    ensures |r| >= 1
    ensures forall i :: 0 <= i < |r| ==> sep !in r[i]
    decreases |s|
  {
    if |s| == 0 then [""]
    else
      var rest := Split(s[1..], sep);
      if s[0] == sep then [""] + rest
      else [[s[0]] + rest[0]] + rest[1..]
  }

  /** Splitting and joining again with the same separator gives back the string. */
  lemma {:induction false} JoinSplit(s: string, sep: char)
    ensures Join(Split(s, sep), sep) == s
    decreases |s|
  {
    if |s| > 0 {
      var rest := Split(s[1..], sep);
      JoinSplit(s[1..], sep);
      if s[0] == sep {
        assert Split(s, sep) == [""] + rest;
        assert ([""] + rest)[1..] == rest;
        assert s == [sep] + s[1..];
      } else {
        var parts := [[s[0]] + rest[0]] + rest[1..];
        assert Split(s, sep) == parts;
        if |rest| == 1 {
          assert Join(parts, sep) == [s[0]] + rest[0];
        } else {
          assert parts[1..] == rest[1..];
          assert Join(rest, sep) == rest[0] + [sep] + Join(rest[1..], sep);
        }
        assert s == [s[0]] + s[1..];
      }
    }
  }

  /** Two strings that split the same way are equal. */
  lemma SplitInjective(s: string, t: string, sep: char)
    requires Split(s, sep) == Split(t, sep)
    ensures s == t
  {
    JoinSplit(s, sep);
    JoinSplit(t, sep);
  }

  /** `str.lower()` on the ASCII letters. */
  function Lower(s: string): (r: string)
    ensures |r| == |s|
    ensures forall i :: 0 <= i < |s| ==> !('A' <= r[i] <= 'Z')
  {
    seq(|s|, i requires 0 <= i < |s| =>
      if 'A' <= s[i] <= 'Z' then (s[i] as int + 32) as char else s[i])
  }

  /** Every upper-case letter becomes its lower-case form and every other character is kept. */
  lemma LowerSpec(s: string)
    ensures forall i :: 0 <= i < |s| && 'A' <= s[i] <= 'Z' ==> Lower(s)[i] as int == s[i] as int + 32
    ensures forall i :: 0 <= i < |s| && !('A' <= s[i] <= 'Z') ==> Lower(s)[i] == s[i]
  {
  }

  /** Lowering twice is lowering once, and a string without upper-case letters is kept. */
  lemma LowerIdempotent(s: string)
    ensures Lower(Lower(s)) == Lower(s)
    ensures (forall i :: 0 <= i < |s| ==> !('A' <= s[i] <= 'Z')) ==> Lower(s) == s
  {
  }

  /** `os.path.basename(path)`: the part after the last `/`. */
  function Basename(path: string): (r: string)
    ensures '/' !in r
    ensures |r| <= |path| && path[|path| - |r|..] == r
    decreases |path|
  {
    if |path| == 0 || path[|path| - 1] == '/' then ""
    else
      var init := path[..|path| - 1];
      var b := Basename(init);
      assert path[|path| - 1 - |b|..] == init[|init| - |b|..] + [path[|path| - 1]];
      b + [path[|path| - 1]]
  }

  /** The base name is the whole path when it has no `/`, else exactly what follows the last `/`. */
  lemma {:induction false} BasenameSpec(path: string)
    ensures '/' !in path ==> Basename(path) == path
    ensures '/' in path ==> |Basename(path)| < |path| && path[|path| - |Basename(path)| - 1] == '/'
    decreases |path|
  {
    if |path| > 0 && path[|path| - 1] != '/' {
      var init := path[..|path| - 1];
      assert path == init + [path[|path| - 1]];
      BasenameSpec(init);
    }
  }

  /** How many names end with `suf` (`len([f for f in names if f.endswith(suf)])`). */
  function CountEndingWith(names: seq<string>, suf: string): (n: nat)
    ensures n <= |names|
    decreases |names|
  {
    if |names| == 0 then 0
    else CountEndingWith(names[..|names| - 1], suf) + (if EndsWith(names[|names| - 1], suf) then 1 else 0)
  }

  /** No name is counted iff none ends with `suf`; all are iff every one does. */
  lemma {:induction false} CountEndingWithSpec(names: seq<string>, suf: string)
    ensures CountEndingWith(names, suf) == 0 <==> forall i :: 0 <= i < |names| ==> !EndsWith(names[i], suf)
    ensures CountEndingWith(names, suf) == |names| <==> forall i :: 0 <= i < |names| ==> EndsWith(names[i], suf)
    decreases |names|
  {
    if |names| > 0 {
      var init := names[..|names| - 1];
      assert forall i :: 0 <= i < |init| ==> init[i] == names[i];
      CountEndingWithSpec(init, suf);
    }
  }

  /** Counting over two lists of names adds up. */
  lemma {:induction false} CountEndingWithConcat(a: seq<string>, b: seq<string>, suf: string)
    ensures CountEndingWith(a + b, suf) == CountEndingWith(a, suf) + CountEndingWith(b, suf)
    decreases |b|
  {
    var c := a + b;
    if |b| == 0 {
      assert c == a;
    } else {
      var bi := b[..|b| - 1];
      assert c[..|c| - 1] == a + bi;
      assert c[|c| - 1] == b[|b| - 1];
      CountEndingWithConcat(a, bi, suf);
      assert CountEndingWith(c, suf) == CountEndingWith(a + bi, suf) + (if EndsWith(b[|b| - 1], suf) then 1 else 0);
      assert CountEndingWith(b, suf) == CountEndingWith(bi, suf) + (if EndsWith(b[|b| - 1], suf) then 1 else 0);
    }
  }

  /** A single name counts 1 exactly when it ends with `suf`; with `CountEndingWithConcat` this fixes every count. */
  lemma CountEndingWithSingle(x: string, suf: string)
    ensures CountEndingWith([x], suf) == if EndsWith(x, suf) then 1 else 0
  {
    assert [x][..0] == [];
  }
}
