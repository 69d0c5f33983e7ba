/** The parts of Go's `strings`, `path` and `path/filepath` packages that
    the services rely on (Unix paths: `filepath` and `path` agree there).
    Characters stand for bytes; every separator used is ASCII. */
module GoStrings {

  // ---------------------------------------------------------------------
  // strings

  /** strings.Join with a one-character separator. */
  function JoinWith(parts: seq<string>, sep: char): string
  {
    if |parts| == 0 then ""
    else if |parts| == 1 then parts[0]
    else parts[0] + [sep] + JoinWith(parts[1..], sep)
  }

  /** strings.Split with a one-character separator: the pieces between
      separators, never fewer than one, which joined back give `s`. */
  function Split(s: string, sep: char): (parts: seq<string>)
    ensures |parts| >= 1
    ensures forall i :: 0 <= i < |parts| ==> sep !in parts[i]
    ensures JoinWith(parts, sep) == s
  {
    if s == [] then [""]
    else if s[0] == sep then
      var rest := Split(s[1..], sep);
      assert ([""] + rest)[1..] == rest;
      [""] + rest
    else
      var rest := Split(s[1..], sep);
      var parts := [[s[0]] + rest[0]] + rest[1..];
      assert parts[1..] == rest[1..];
      assert s == [s[0]] + s[1..];
      parts
  }

  /** A string with k separators splits into k + 1 pieces. */
  lemma {:induction false} SplitCount(s: string, sep: char)
    ensures |Split(s, sep)| == multiset(s)[sep] + 1
    decreases |s|
  {
    if s != [] {
      SplitCount(s[1..], sep);
      var n := |Split(s[1..], sep)|;
      assert |Split(s, sep)| == if s[0] == sep then n + 1 else n;
      assert s == [s[0]] + s[1..];
      assert multiset(s) == multiset([s[0]]) + multiset(s[1..]);
      assert multiset(s)[sep] == multiset(s[1..])[sep] + (if s[0] == sep then 1 else 0);
    }
  }

  /** With at least one separator, the last piece is what follows the last
      separator. */
  lemma LastPiece(s: string, sep: char)
    requires |Split(s, sep)| >= 2
    ensures HasSuffix(s, [sep] + Split(s, sep)[|Split(s, sep)| - 1])
  {
    var parts := Split(s, sep);
    var n := |parts|;
    var last := parts[n - 1];
    JoinWithAppend(parts[..n - 1], [last], sep);
    assert parts[..n - 1] + [last] == parts;
    assert JoinWith([last], sep) == last;
    var front := JoinWith(parts[..n - 1], sep);
    assert s == front + [sep] + last;
    assert s[|s| - |[sep] + last|..] == [sep] + last;
  }

  /** Splitting around one separator splits each side independently. */
  lemma {:induction false} SplitAround(a: string, b: string, sep: char)
    ensures Split(a + [sep] + b, sep) == Split(a, sep) + Split(b, sep)
    decreases |a|
  {
    if a == [] {
      assert a + [sep] + b == [sep] + b;
      assert ([sep] + b)[1..] == b;
    } else {
      var s := a + [sep] + b;
      assert s[0] == a[0] && s[1..] == a[1..] + [sep] + b;
      SplitAround(a[1..], b, sep);
    }
  }

  /** A string without the separator is a single piece. */
  lemma {:induction false} SplitNoSep(s: string, sep: char)
    requires sep !in s
    ensures Split(s, sep) == [s]
    decreases |s|
  {
    if s != [] {
      assert sep !in s[1..] by {
        forall i | 0 <= i < |s[1..]| ensures s[1..][i] != sep { assert s[1..][i] == s[i + 1]; }
      }
      SplitNoSep(s[1..], sep);
      assert s == [s[0]] + s[1..];
    }
  }

  /** Split undoes JoinWith when no piece holds the separator. */
  lemma {:induction false} SplitOfJoin(parts: seq<string>, sep: char)
    requires |parts| >= 1
    requires forall i :: 0 <= i < |parts| ==> sep !in parts[i]
    ensures Split(JoinWith(parts, sep), sep) == parts
    decreases |parts|
  {
    if |parts| == 1 {
      SplitNoSep(parts[0], sep);
    } else {
      SplitOfJoin(parts[1..], sep);
      SplitAround(parts[0], JoinWith(parts[1..], sep), sep);
      SplitNoSep(parts[0], sep);
      assert parts == [parts[0]] + parts[1..];
    }
  }

  /** Joining two non-empty lists puts one separator between their joins. */
  lemma {:induction false} JoinWithAppend(a: seq<string>, b: seq<string>, sep: char)
    requires a != [] && b != []
    ensures JoinWith(a + b, sep) == JoinWith(a, sep) + [sep] + JoinWith(b, sep)
    decreases |a|
  {
    if |a| == 1 {
      assert (a + b)[1..] == b;
    } else {
      assert (a + b)[1..] == a[1..] + b;
      JoinWithAppend(a[1..], b, sep);
    }
  }

  /** Split is the only way to write `s` as separator-free pieces joined by
      the separator. */
  lemma SplitUnique(s: string, parts: seq<string>, sep: char)
    ensures Split(s, sep) == parts <==>
            (|parts| >= 1 && (forall i :: 0 <= i < |parts| ==> sep !in parts[i]) && JoinWith(parts, sep) == s)
  {
    if |parts| >= 1 && (forall i :: 0 <= i < |parts| ==> sep !in parts[i]) && JoinWith(parts, sep) == s {
      SplitOfJoin(parts, sep);
    }
  }

  /** The first piece of a split is what precedes the first separator:
      a prefix without the separator, followed by one or by the end. */
  lemma FirstPiece(s: string, sep: char)
    ensures var p := Split(s, sep)[0];
            HasPrefix(s, p) && sep !in p && (|p| == |s| || s[|p|] == sep)
    ensures |Split(s, sep)| >= 2 ==>
              s == Split(s, sep)[0] + [sep] + JoinWith(Split(s, sep)[1..], sep)
  {
    var parts := Split(s, sep);
    if |parts| >= 2 {
      assert s == parts[0] + [sep] + JoinWith(parts[1..], sep);
      assert s[..|parts[0]|] == parts[0];
    }
  }

  /** A split has a second piece exactly when the separator occurs. */
  lemma SeveralPieces(s: string, sep: char)
    ensures |Split(s, sep)| >= 2 <==> sep in s
  {
    SplitCount(s, sep);
    assert sep in s <==> sep in multiset(s);
  }

  /** The second piece of a split lies between the first separator and the
      next one (or the end). */
  lemma SecondPiece(s: string, sep: char)
    requires |Split(s, sep)| >= 2
    ensures var parts := Split(s, sep);
            var n := |parts[0]| + 1 + |parts[1]|;
            sep !in parts[0] && sep !in parts[1] &&
            HasPrefix(s, parts[0] + [sep] + parts[1]) && (n == |s| || s[n] == sep)
  {
    var parts := Split(s, sep);
    FirstPiece(s, sep);
    var tail := JoinWith(parts[1..], sep);
    if |parts| >= 3 {
      assert tail == parts[1] + [sep] + JoinWith(parts[2..], sep) by {
        assert parts[1..][1..] == parts[2..];
      }
    }
    assert s[..|parts[0]| + 1 + |parts[1]|] == parts[0] + [sep] + parts[1];
  }

  /** strings.HasPrefix */
  predicate HasPrefix(s: string, prefix: string)
  {
    |prefix| <= |s| && s[..|prefix|] == prefix
  }

  /** strings.HasSuffix */
  predicate HasSuffix(s: string, suffix: string)
  {
    |suffix| <= |s| && s[|s| - |suffix|..] == suffix
  }

  /** strings.Contains */
  predicate Contains(s: string, sub: string)
    decreases |s|
  {
    HasPrefix(s, sub) || (s != [] && Contains(s[1..], sub))
  }

  // ---------------------------------------------------------------------
  // path and path/filepath

  /** The elements path.Clean keeps, processed left to right: empty and "."
      elements vanish, ".." removes the element before it, and a ".." that
      would climb above the root of a rooted path is dropped. */
  function Resolve(stack: seq<string>, elems: seq<string>, rooted: bool): seq<string>
    decreases |elems|
  {
    if elems == [] then stack
    else
      var e := elems[0];
      if e == "" || e == "." then Resolve(stack, elems[1..], rooted)
      else if e == ".." then
        if |stack| > 0 && stack[|stack| - 1] != ".." then Resolve(stack[..|stack| - 1], elems[1..], rooted)
        else if rooted then Resolve(stack, elems[1..], rooted)
        else Resolve(stack + [".."], elems[1..], rooted)
      else Resolve(stack + [e], elems[1..], rooted)
  }

  /** path.Clean (and filepath.Clean on Unix). */
  function Clean(p: string): (r: string)
    ensures r != ""
  {
    if p == "" then "."
    else
      var rooted := p[0] == '/';
      var out := JoinWith(Resolve([], Split(p, '/'), rooted), '/');
      if rooted then "/" + out else if out == "" then "." else out
  }

  /** A path element that Clean leaves alone: not empty, no slash, no dot
      element. */
  predicate IsName(e: string)
  {
    e != "" && e != "." && e != ".." && '/' !in e
  }

  /** The non-empty elements of `elems`, in order. */
  function NonEmpty(elems: seq<string>): (r: seq<string>)
    ensures forall i :: 0 <= i < |r| ==> r[i] != ""
  {
    if elems == [] then []
    else if elems[0] == "" then NonEmpty(elems[1..])
    else [elems[0]] + NonEmpty(elems[1..])
  }

  /** Without dot elements, Resolve only drops the empty elements. */
  lemma {:induction false} ResolveNames(stack: seq<string>, elems: seq<string>, rooted: bool)
    requires forall i :: 0 <= i < |elems| ==> elems[i] != "." && elems[i] != ".."
    ensures Resolve(stack, elems, rooted) == stack + NonEmpty(elems)
    decreases |elems|
  {
    if elems != [] {
      ResolveNames(if elems[0] == "" then stack else stack + [elems[0]], elems[1..], rooted);
    }
  }

  /** Lists without empty elements are left alone by NonEmpty. */
  lemma {:induction false} NonEmptyOfNames(elems: seq<string>)
    requires forall i :: 0 <= i < |elems| ==> elems[i] != ""
    ensures NonEmpty(elems) == elems
    decreases |elems|
  {
    if elems != [] {
      NonEmptyOfNames(elems[1..]);
      assert elems == [elems[0]] + elems[1..];
    }
  }

  /** path.Join of elements whose first is non-empty cleans their plain
      join. */
  lemma JoinFirstNonEmpty(elems: seq<string>)
    requires elems != [] && elems[0] != ""
    ensures Join(elems) == Clean(JoinWith(elems, '/'))
  {
    assert DropLeadingEmpty(elems) == elems;
  }

  /** path.Join of a rooted one-name prefix written with slashes on both
      sides ("/p/") and further names: the names under "/p", one slash
      apart. */
  lemma JoinUnderPrefix(prefix: string, names: seq<string>)
    requires IsName(prefix) && names != []
    requires forall i :: 0 <= i < |names| ==> IsName(names[i])
    ensures Join(["/" + prefix + "/"] + names) == JoinWith(["", prefix] + names, '/')
  {
    var elems := ["/" + prefix + "/"] + names;
    var rest := [prefix, ""] + names;
    JoinFirstNonEmpty(elems);
    PrefixElements(prefix, names);
    CleanRooted(rest);
    DropEmptySecond(prefix, names);
    RootedJoin(prefix, names);
  }

  lemma PrefixElements(prefix: string, names: seq<string>)
    requires IsName(prefix)
    requires forall i :: 0 <= i < |names| ==> IsName(names[i])
    requires names != []
    ensures JoinWith(["/" + prefix + "/"] + names, '/') == JoinWith([""] + ([prefix, ""] + names), '/')
    ensures forall i :: 0 <= i < |[prefix, ""] + names| ==> ([prefix, ""] + names)[i] == "" || IsName(([prefix, ""] + names)[i])
  {
    var head := "/" + prefix + "/";
    var rest := [prefix, ""] + names;
    JoinWithAppend([head], names, '/');
    assert [""] + rest == ["", prefix, ""] + names;
    JoinWithAppend(["", prefix, ""], names, '/');
    assert ["", prefix, ""][1..] == [prefix, ""];
    assert [prefix, ""][1..] == [""];
    assert JoinWith([""], '/') == "";
    assert JoinWith([prefix, ""], '/') == prefix + "/";
    assert JoinWith(["", prefix, ""], '/') == "/" + prefix + "/";
    assert JoinWith([head], '/') == head;
    forall i | 0 <= i < |rest| ensures rest[i] == "" || IsName(rest[i]) {
      if i >= 2 { assert rest[i] == names[i - 2]; }
    }
  }

  lemma RootedJoin(prefix: string, names: seq<string>)
    ensures "/" + JoinWith([prefix] + names, '/') == JoinWith(["", prefix] + names, '/')
  {
    var x := [prefix] + names;
    var y := ["", prefix] + names;
    assert y[1..] == x;
    assert JoinWith(y, '/') == "" + ['/'] + JoinWith(x, '/');
  }

  lemma DropEmptySecond(prefix: string, names: seq<string>)
    requires prefix != ""
    requires forall i :: 0 <= i < |names| ==> IsName(names[i])
    ensures NonEmpty([prefix, ""] + names) == [prefix] + names
  {
    var rest := [prefix, ""] + names;
    NonEmptyOfNames(names);
    assert rest[1..] == [""] + names;
    assert ([""] + names)[1..] == names;
    assert NonEmpty(rest[1..]) == NonEmpty(names);
  }

  /** Clean of a rooted path whose elements are names or empty: the slashes
      collapse and nothing else changes. */
  lemma CleanRooted(elems: seq<string>)
    requires elems != []
    requires forall i :: 0 <= i < |elems| ==> elems[i] == "" || IsName(elems[i])
    ensures Clean(JoinWith([""] + elems, '/')) == "/" + JoinWith(NonEmpty(elems), '/')
  {
    var parts := [""] + elems;
    RootedParts(elems);
    var p := JoinWith(parts, '/');
    SplitOfJoin(parts, '/');
    assert Split(p, '/') == parts;
    ResolveNames([], parts, true);
    assert parts[1..] == elems;
    assert NonEmpty(parts) == NonEmpty(elems);
    assert Resolve([], parts, true) == NonEmpty(elems);
    CleanRootedSplit(p);
  }

  /** The elements behind a leading empty one, joined: a rooted path whose
      elements are free of slashes and dots. */
  lemma RootedParts(elems: seq<string>)
    requires elems != []
    requires forall i :: 0 <= i < |elems| ==> elems[i] == "" || IsName(elems[i])
    ensures var parts := [""] + elems;
            && JoinWith(parts, '/') == "/" + JoinWith(elems, '/')
            && forall i :: 0 <= i < |parts| ==> '/' !in parts[i] && parts[i] != "." && parts[i] != ".."
  {
    var parts := [""] + elems;
    assert parts[1..] == elems;
    forall i | 0 <= i < |parts| ensures '/' !in parts[i] && parts[i] != "." && parts[i] != ".." {
      if i > 0 { assert parts[i] == elems[i - 1]; }
    }
  }

  /** Clean of a rooted path, one unfolding. */
  lemma CleanRootedSplit(p: string)
    requires p != [] && p[0] == '/'
    ensures Clean(p) == "/" + JoinWith(Resolve([], Split(p, '/'), true), '/')
  {
  }

  /** path.Join: the elements from the first non-empty one on, joined by
      slashes and cleaned; "" when every element is empty. */
  function Join(elems: seq<string>): string
  {
    var rest := DropLeadingEmpty(elems);
    if forall i :: 0 <= i < |elems| ==> elems[i] == "" then ""
    else Clean(JoinWith(rest, '/'))
  }

  function DropLeadingEmpty(elems: seq<string>): (r: seq<string>)
    ensures |r| <= |elems| && r == elems[|elems| - |r|..]
    ensures r != [] ==> r[0] != ""
    ensures forall i :: 0 <= i < |elems| - |r| ==> elems[i] == ""
  {
    if elems == [] then []
    else if elems[0] == "" then DropLeadingEmpty(elems[1..])
    else elems
  }

  /** `p` without its trailing slashes. */
  function TrimTrailingSlashes(p: string): (r: string)
    ensures r == [] || r[|r| - 1] != '/'
    ensures |r| <= |p| && r == p[..|r|]
  {
    if p == [] || p[|p| - 1] != '/' then p else TrimTrailingSlashes(p[..|p| - 1])
  }

  /** path.Base (and filepath.Base on Unix): the last element. */
  function Base(p: string): (r: string)
    ensures r != ""
    ensures r != "/" ==> '/' !in r
  {
    if p == "" then "."
    else
      var q := TrimTrailingSlashes(p);
      if q == "" then "/"
      else
        var parts := Split(q, '/');
        var last := parts[|parts| - 1];
        if last == "" then "/" else last
  }

  /** `p` up to and including its last slash; "" when it has none. */
  function UpToLastSlash(p: string): (r: string)
    ensures |r| <= |p| && r == p[..|r|]
    ensures r == [] || r[|r| - 1] == '/'
    ensures '/' !in p[|r|..]
  {
    if p == [] then []
    else if p[|p| - 1] == '/' then p
    else
      var r := UpToLastSlash(p[..|p| - 1]);
      assert p[|r|..] == p[..|p| - 1][|r|..] + [p[|p| - 1]];
      r
  }

  /** filepath.Dir on Unix (and path.Dir): everything before the last
      element, cleaned. */
  function Dir(p: string): string
  {
    Clean(UpToLastSlash(p))
  }

  /** filepath.Ext: the suffix from the last dot of the last element; ""
      when that element has no dot. */
  function Ext(p: string): (r: string)
    ensures r == "" || (r[0] == '.' && HasSuffix(p, r) && '/' !in r)
  {
    if p == [] || p[|p| - 1] == '/' then ""
    else if p[|p| - 1] == '.' then "."
    else
      var e := Ext(p[..|p| - 1]);
      if e == "" then "" else e + [p[|p| - 1]]
  }

  /** filepath.IsAbs on Unix. */
  predicate IsAbs(p: string)
  {
    |p| > 0 && p[0] == '/'
  }
}
