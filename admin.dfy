/** Extension-name handling of the admin commands (`src/modules/admin/cog.py`):
    normalising a user-typed name to a module path, listing the discovered
    cog modules in sorted order, autocompletion and the unloaded set. */
module Admin {
  import opened Strings

  const PathPrefix := "src.modules"
  const CogSuffix := "cog"
  /** `"." + COG_SUFFIX` */
  const DotCog := ".cog"
  /** Discord accepts at most this many autocomplete choices. */
  const MaxChoices := 25

  function Last(parts: seq<string>): string
    requires |parts| >= 1
  {
    parts[|parts| - 1]
  }

  /** The last dot-separated component, `name.split(".")[-1]`. */
  function LastComponent(name: string): string {
    Last(Split(name, '.'))
  }

  /** `(a + "." + b).split(".")` is the pieces of `a` followed by those of `b`. */
  lemma {:induction false} SplitAppend(a: string, b: string)
    ensures Split(a + "." + b, '.') == Split(a, '.') + Split(b, '.')
  {
    if a == [] {
      assert a + "." + b == "." + b;
      assert ("." + b)[1..] == b;
    } else {
      assert (a + "." + b)[1..] == a[1..] + "." + b;
      SplitAppend(a[1..], b);
    }
  }

  lemma LastComponentAppend(a: string, b: string)
    ensures LastComponent(a + "." + b) == LastComponent(b)
  {
    SplitAppend(a, b);
  }

  /** `full_ext(name)` */
  function FullExt(name: string): (r: string)
    ensures StartsWith(r, PathPrefix)
    ensures StartsWith(Strip(name), PathPrefix) ==> r == Strip(name)
  {
    var n := Strip(name);
    if StartsWith(n, PathPrefix) then n
    else
      var withCog := if LastComponent(n) != CogSuffix then n + DotCog else n;
      assert (PathPrefix + "." + withCog)[..|PathPrefix|] == PathPrefix;
      PathPrefix + "." + withCog
  }

  /** A stripped name that already starts with `src.modules` comes back
      unchanged; any other name becomes `src.modules.` + the stripped name,
      with `.cog` appended exactly when its last component is not `cog`, so
      that every such result names a `cog` module. */
  lemma FullExtShape(name: string)
    ensures StartsWith(FullExt(name), PathPrefix)
    ensures StartsWith(Strip(name), PathPrefix) ==> FullExt(name) == Strip(name)
    ensures !StartsWith(Strip(name), PathPrefix) ==>
      && StartsWith(FullExt(name), PathPrefix + "." + Strip(name))
      && LastComponent(FullExt(name)) == CogSuffix
      && (|FullExt(name)| == |PathPrefix| + 1 + |Strip(name)| <==> LastComponent(Strip(name)) == CogSuffix)
  {
    var n := Strip(name);
    if !StartsWith(n, PathPrefix) {
      var r := FullExt(name);
      if LastComponent(n) != CogSuffix {
        assert r == PathPrefix + "." + (n + "." + CogSuffix);
        LastComponentAppend(n, CogSuffix);
        LastComponentAppend(PathPrefix, n + "." + CogSuffix);
        assert LastComponent(CogSuffix) == CogSuffix by {
          SplitNoSep(CogSuffix, '.');
        }
      } else {
        LastComponentAppend(PathPrefix, n);
      }
      assert (PathPrefix + "." + n) == r[..|PathPrefix + "." + n|];
    }
  }

  /** Normalising an already normalised name changes nothing. */
  lemma FullExtIdempotent(name: string)
    ensures FullExt(FullExt(name)) == FullExt(name)
  {
    var r := FullExt(name);
    var n := Strip(name);
    StripShape(name);
    FullExtShape(name);
    if StartsWith(n, PathPrefix) {
      StripIdempotent(name);
    } else {
      if LastComponent(n) == CogSuffix {
        assert n != [] by {
          assert Split([], '.') == [[]];
        }
        assert r[|r| - 1] == n[|n| - 1];
      }
      StripNoop(r);
    }
  }

  /** The name the load, unload and reload commands act on:
      `full_ext(ext) if not ext.startswith(PATH_PREFIX) else ext`. */
  function ResolveExt(ext: string): (r: string)
    ensures StartsWith(r, PathPrefix)
    ensures StartsWith(ext, PathPrefix) ==> r == ext
    ensures !StartsWith(ext, PathPrefix) ==> r == FullExt(ext)
  {
    FullExtShape(ext);
    if StartsWith(ext, PathPrefix) then ext else FullExt(ext)
  }

  /** The names that the discovery keeps: those ending in `.cog`, in order. */
  function CogModules(names: seq<string>): (r: seq<string>)
    ensures |r| <= |names|
    ensures forall x :: x in r <==> x in names && EndsWith(x, DotCog)
  {
    if names == [] then []
    else if EndsWith(names[0], DotCog) then [names[0]] + CogModules(names[1..])
    else CogModules(names[1..])
  }

  /** The filter keeps the discovery order: it distributes over concatenation. */
  lemma {:induction false} CogModulesAppend(a: seq<string>, b: seq<string>)
    ensures CogModules(a + b) == CogModules(a) + CogModules(b)
  {
    if a == [] {
      assert a + b == b;
    } else {
      assert (a + b)[0] == a[0];
      assert (a + b)[1..] == a[1..] + b;
      CogModulesAppend(a[1..], b);
    }
  }

  /** Python's `str` ordering: lexicographic by code point. */
  predicate LessEq(a: string, b: string) {
    a == [] || (b != [] && (a[0] < b[0] || (a[0] == b[0] && LessEq(a[1..], b[1..]))))
  }

  lemma {:induction false} LessEqTotal(a: string, b: string)
    ensures LessEq(a, b) || LessEq(b, a)
  {
    if a != [] && b != [] && a[0] == b[0] {
      LessEqTotal(a[1..], b[1..]);
    }
  }

  lemma {:induction false} LessEqTrans(a: string, b: string, c: string)
    requires LessEq(a, b) && LessEq(b, c)
    ensures LessEq(a, c)
  {
    if a != [] && b != [] && c != [] && a[0] == b[0] == c[0] {
      LessEqTrans(a[1..], b[1..], c[1..]);
    }
  }

  predicate Sorted(s: seq<string>) {
    forall i, j :: 0 <= i < j < |s| ==> LessEq(s[i], s[j])
  }

  /** A sorted list stays sorted without its head. */
  lemma SortedTail(s: seq<string>)
    requires Sorted(s) && s != []
    ensures Sorted(s[1..])
  {
    forall i, j | 0 <= i < j < |s[1..]| ensures LessEq(s[1..][i], s[1..][j]) {
      assert s[1..][i] == s[i + 1] && s[1..][j] == s[j + 1];
    }
  }

  /** A head no greater than anything after it keeps a list sorted. */
  lemma SortedCons(h: string, t: seq<string>)
    requires Sorted(t)
    requires forall y :: y in t ==> LessEq(h, y)
    ensures Sorted([h] + t)
  {
    forall i, j | 0 <= i < j < |[h] + t| ensures LessEq(([h] + t)[i], ([h] + t)[j]) {
      assert ([h] + t)[j] == t[j - 1];
      if i > 0 {
        assert ([h] + t)[i] == t[i - 1];
      } else {
        assert t[j - 1] in t;
      }
    }
  }

  /** Whatever is at most the head of a sorted list is at most all of it. */
  lemma BelowHead(x: string, s: seq<string>)
    requires Sorted(s) && s != [] && LessEq(x, s[0])
    ensures forall y :: y in s ==> LessEq(x, y)
  {
    forall y | y in s ensures LessEq(x, y) {
      var j :| 0 <= j < |s| && s[j] == y;
      if j > 0 { LessEqTrans(x, s[0], s[j]); }
    }
  }

  /** The head of a sorted list is at most every item of its tail with `x`
      added, when it is at most `x`. */
  lemma HeadBelow(s: seq<string>, x: string, rest: seq<string>)
    requires Sorted(s) && s != [] && LessEq(s[0], x)
    requires multiset(rest) == multiset(s[1..]) + multiset{x}
    ensures forall y :: y in rest ==> LessEq(s[0], y)
  {
    forall y | y in rest ensures LessEq(s[0], y) {
      assert y in multiset(rest);
      if y != x {
        assert y in multiset(s[1..]);
        var j :| 0 <= j < |s[1..]| && s[1..][j] == y;
        assert s[j + 1] == y;
      }
    }
  }

  /** Inserts `x` into a sorted list, keeping it sorted. */
  function Insert(x: string, s: seq<string>): (r: seq<string>)
    requires Sorted(s)
    ensures Sorted(r)
    ensures multiset(r) == multiset(s) + multiset{x}
  {
    if s == [] then [x]
    else if LessEq(x, s[0]) then
      BelowHead(x, s);
      SortedCons(x, s);
      [x] + s
    else
      LessEqTotal(x, s[0]);
      SortedTail(s);
      var rest := Insert(x, s[1..]);
      HeadBelow(s, x, rest);
      SortedCons(s[0], rest);
      assert s == [s[0]] + s[1..];
      [s[0]] + rest
  }

  /** `sorted(names)` */
  function Sort(s: seq<string>): (r: seq<string>)
    ensures Sorted(r)
    ensures multiset(r) == multiset(s)
  {
    if s == [] then []
    else
      assert s == [s[0]] + s[1..];
      Insert(s[0], Sort(s[1..]))
  }

  /** `all_extensions()` over the module names the package walk reports. */
  function AllExtensions(discovered: seq<string>): (r: seq<string>)
    ensures Sorted(r)
    ensures multiset(r) == multiset(CogModules(discovered))
  {
    Sort(CogModules(discovered))
  }

  /** The discovered extensions are sorted, each is a `.cog` module, and they
      are exactly the discovered `.cog` modules, each as often as discovered. */
  lemma AllExtensionsSpec(discovered: seq<string>)
    ensures Sorted(AllExtensions(discovered))
    ensures forall e :: e in AllExtensions(discovered) ==> EndsWith(e, DotCog)
    ensures multiset(AllExtensions(discovered)) == multiset(CogModules(discovered))
    ensures forall e :: e in AllExtensions(discovered) <==> e in discovered && EndsWith(e, DotCog)
  {
    var c := CogModules(discovered);
    forall e ensures e in AllExtensions(discovered) <==> e in c {
      assert e in AllExtensions(discovered) <==> e in multiset(AllExtensions(discovered));
      assert e in c <==> e in multiset(c);
    }
  }

  /** `current.lower() in e.lower()` */
  predicate Matches(e: string, current: string) {
    Contains(Lower(e), Lower(current))
  }

  /** `[e for e in exts if current.lower() in e.lower()]` */
  function Matching(exts: seq<string>, current: string): (r: seq<string>)
    ensures |r| <= |exts|
    ensures forall e :: e in r <==> e in exts && Matches(e, current)
  {
    if exts == [] then []
    else if Matches(exts[0], current) then [exts[0]] + Matching(exts[1..], current)
    else Matching(exts[1..], current)
  }

  /** The matching filter keeps the order of its input. */
  lemma {:induction false} MatchingAppend(a: seq<string>, b: seq<string>, current: string)
    ensures Matching(a + b, current) == Matching(a, current) + Matching(b, current)
  {
    if a == [] {
      assert a + b == b;
    } else {
      assert (a + b)[0] == a[0];
      assert (a + b)[1..] == a[1..] + b;
      MatchingAppend(a[1..], b, current);
    }
  }

  /** `_ext_autocomplete(interaction, current)`: the first 25 discovered
      extensions that contain `current`, ignoring case. */
  function Autocomplete(discovered: seq<string>, current: string): (r: seq<string>)
    ensures |r| <= MaxChoices
    ensures |r| <= |Matching(AllExtensions(discovered), current)|
    ensures r == Matching(AllExtensions(discovered), current)[..|r|]
  {
    var candidates := Matching(AllExtensions(discovered), current);
    if |candidates| <= MaxChoices then candidates else candidates[..MaxChoices]
  }

  /** At most 25 choices; each is a discovered extension matching `current`;
      they are the first matches in sorted order, and fewer than 25 only when
      there are no more matches. */
  lemma AutocompleteSpec(discovered: seq<string>, current: string)
    ensures |Autocomplete(discovered, current)| <= MaxChoices
    ensures forall e :: e in Autocomplete(discovered, current) ==>
      e in AllExtensions(discovered) && Matches(e, current)
    ensures Autocomplete(discovered, current) ==
      Matching(AllExtensions(discovered), current)[..|Autocomplete(discovered, current)|]
    ensures |Autocomplete(discovered, current)| < MaxChoices ==>
      Autocomplete(discovered, current) == Matching(AllExtensions(discovered), current)
  {
    var candidates := Matching(AllExtensions(discovered), current);
    var r := Autocomplete(discovered, current);
    forall e | e in r ensures e in AllExtensions(discovered) && Matches(e, current) {
      assert e in candidates;
    }
  }

  /** The unloaded set of `list_ext`: `available - loaded`. */
  function Unloaded(discovered: seq<string>, loaded: set<string>): (u: set<string>)
    ensures u !! loaded
    ensures u + (loaded * set e | e in AllExtensions(discovered)) == set e | e in AllExtensions(discovered)
  {
    (set e | e in AllExtensions(discovered)) - loaded
  }
}
