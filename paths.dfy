/**
 * The file-path helpers of the parser: where an alerts file's owner and
 * repository come from, and how a tool type can be read off a path.
 *
 * A path goes through java.io.File first, which on a Unix file system
 * collapses repeated separators and drops a trailing one; getParent then
 * cuts at the last separator. The model states both, so that it can say
 * exactly which paths make parseOwnerRepoFromPath throw.
 */
module Paths {
  import opened Wrappers
  import opened Text

  const Separator: char := '/'

  // ---------------------------------------------------------------------
  // java.io.File on a Unix file system
  // ---------------------------------------------------------------------

  /** No two separators in a row. */
  predicate NoDoubleSeparator(s: string) {
    forall i :: 0 <= i < |s| - 1 ==> !(s[i] == Separator && s[i + 1] == Separator)
  }

  /** The form java.io.File keeps a path in: no doubled separator, no trailing one except for the root. */
  predicate IsNormal(s: string) {
    NoDoubleSeparator(s) && (|s| > 1 ==> s[|s| - 1] != Separator)
  }

  /** The pieces of a split that are not empty. */
  function DropEmpty(parts: seq<string>): (r: seq<string>)
    ensures forall k :: 0 <= k < |r| ==> r[k] != ""
  {
    if |parts| == 0 then []
    else (if parts[0] == "" then [] else [parts[0]]) + DropEmpty(parts[1..])
  }

  /** The names a path holds, in order, whatever separators surround them. */
  function Names(s: string): seq<string> {
    DropEmpty(SplitAll(s, Separator))
  }

  /** Dropping the empty pieces of two lists of pieces one after the other. */
  lemma {:induction false} DropEmptyAppend(a: seq<string>, b: seq<string>)
    ensures DropEmpty(a + b) == DropEmpty(a) + DropEmpty(b)
  {
    if |a| == 0 {
      assert a + b == b;
    } else {
      var h := if a[0] == "" then [] else [a[0]];
      DropEmptyAppend(a[1..], b);
      assert (a + b)[0] == a[0] && (a + b)[1..] == a[1..] + b;
      assert DropEmpty(a + b) == h + DropEmpty(a[1..] + b);
      assert DropEmpty(a) == h + DropEmpty(a[1..]);
      assert h + (DropEmpty(a[1..]) + DropEmpty(b)) == (h + DropEmpty(a[1..])) + DropEmpty(b);
    }
  }

  /** The first piece of a split is empty exactly when the text is empty or starts with the separator. */
  lemma SplitAllFirstEmpty(t: string)
    ensures SplitAll(t, Separator)[0] == "" <==> (|t| == 0 || t[0] == Separator)
  {
    var i := IndexOfChar(t, Separator);
    if i > 0 {
      assert t[..i][0] == t[0];
    }
  }

  /** A leading separator adds no name. */
  lemma NamesSeparatorCons(t: string)
    ensures Names([Separator] + t) == Names(t)
  {
    var s := [Separator] + t;
    IndexOfCharAt(s, Separator, 0);
    assert s[1..] == t;
    assert SplitAll(s, Separator) == [""] + SplitAll(t, Separator);
  }

  /** A leading character other than the separator joins the first piece of the split. */
  lemma SplitAllCharCons(x: char, t: string)
    requires x != Separator
    ensures var parts := SplitAll(t, Separator);
      SplitAll([x] + t, Separator) == [[x] + parts[0]] + parts[1..]
  {
    var s := [x] + t;
    var i := IndexOfChar(t, Separator);
    if i < 0 {
      assert Separator !in s;
      assert SplitAll(s, Separator) == [s];
      assert SplitAll(t, Separator) == [t];
    } else {
      SplitAllCharConsAt(x, t, i);
    }
  }

  /** SplitAllCharCons when the first separator of `t` is at `i`. */
  lemma SplitAllCharConsAt(x: char, t: string, i: nat)
    requires x != Separator && i < |t| && t[i] == Separator && Separator !in t[..i]
    ensures var parts := SplitAll(t, Separator);
      SplitAll([x] + t, Separator) == [[x] + parts[0]] + parts[1..]
  {
    var s := [x] + t;
    var rest := SplitAll(t[i + 1..], Separator);
    assert s[..i + 1] == [x] + t[..i];
    IndexOfCharAt(s, Separator, i + 1);
    IndexOfCharAt(t, Separator, i);
    assert s[i + 2..] == t[i + 1..];
    assert SplitAll(s, Separator) == [[x] + t[..i]] + rest;
    var parts := [t[..i]] + rest;
    assert SplitAll(t, Separator) == parts;
    assert parts[0] == t[..i] && parts[1..] == rest;
  }

  /** Dropping the empty pieces of a list, one piece at a time. */
  lemma DropEmptyCons(h: string, rest: seq<string>)
    ensures DropEmpty([h] + rest) == (if h == "" then [] else [h]) + DropEmpty(rest)
  {
    assert ([h] + rest)[0] == h && ([h] + rest)[1..] == rest;
  }

  /**
   * Two splits whose first pieces are both empty or both not, and which
   * drop to the same names, still do when the same character is put in
   * front of both first pieces.
   */
  lemma ConsFirstPiece(x: char, t0: string, ts: seq<string>, u0: string, us: seq<string>)
    requires t0 == "" <==> u0 == ""
    requires DropEmpty([t0] + ts) == DropEmpty([u0] + us)
    ensures DropEmpty([[x] + t0] + ts) == DropEmpty([[x] + u0] + us)
  {
    DropEmptyCons(t0, ts);
    DropEmptyCons(u0, us);
    DropEmptyCons([x] + t0, ts);
    DropEmptyCons([x] + u0, us);
    if t0 == "" {
      var none: seq<string> := [];
      assert DropEmpty([t0] + ts) == none + DropEmpty(ts) == DropEmpty(ts);
      assert DropEmpty([u0] + us) == none + DropEmpty(us) == DropEmpty(us);
      assert [x] + t0 == [x] + u0 == [x];
      assert DropEmpty([[x] + t0] + ts) == [[x]] + DropEmpty(ts);
      assert DropEmpty([[x] + u0] + us) == [[x]] + DropEmpty(us);
    } else {
      var l := DropEmpty([t0] + ts);
      assert l == [t0] + DropEmpty(ts) && l == [u0] + DropEmpty(us);
      assert l[0] == t0 == u0;
      assert l[1..] == DropEmpty(ts) == DropEmpty(us);
    }
  }

  /**
   * Two texts with the same names that start alike (both empty, both with
   * the separator, or with the same character) keep the same names after
   * the same non-separator character is put in front.
   */
  lemma NamesCharCons(x: char, t: string, u: string)
    requires x != Separator
    requires Names(t) == Names(u)
    requires |t| == 0 <==> |u| == 0
    requires |t| > 0 ==> t[0] == u[0]
    ensures Names([x] + t) == Names([x] + u)
  {
    var ts := SplitAll(t, Separator);
    var us := SplitAll(u, Separator);
    SplitAllCharCons(x, t);
    SplitAllCharCons(x, u);
    SplitAllFirstEmpty(t);
    SplitAllFirstEmpty(u);
    assert ts == [ts[0]] + ts[1..] && us == [us[0]] + us[1..];
    ConsFirstPiece(x, ts[0], ts[1..], us[0], us[1..]);
  }

  /** What CollapseSeparators promises of `r` as the collapsed form of `s`. */
  predicate Collapsed(r: string, s: string) {
    && NoDoubleSeparator(r)
    && |r| <= |s|
    && (|r| == 0 <==> |s| == 0)
    && (|s| > 0 ==> r[0] == s[0] && r[|r| - 1] == s[|s| - 1])
    && (Separator in r <==> Separator in s)
    && Names(r) == Names(s)
  }

  /** A separator followed by another one is dropped. */
  lemma CollapseDropStep(s: string, rest: string)
    requires |s| > 1 && s[0] == Separator && s[1] == Separator
    requires Collapsed(rest, s[1..])
    ensures Collapsed(rest, s)
  {
    var t := s[1..];
    assert s == [Separator] + t;
    NamesSeparatorCons(t);
    assert t[0] == s[1] && t[|t| - 1] == s[|s| - 1];
    assert Separator in t;
  }

  /** A separator not followed by another one is kept. */
  lemma CollapseSeparatorStep(s: string, rest: string)
    requires |s| > 0 && s[0] == Separator && !(|s| > 1 && s[1] == Separator)
    requires Collapsed(rest, s[1..])
    ensures Collapsed([Separator] + rest, s)
  {
    var t := s[1..];
    assert s == [Separator] + t;
    NamesSeparatorCons(t);
    NamesSeparatorCons(rest);
    if |t| > 0 {
      assert rest[0] == t[0] == s[1];
    }
    SeparatorConsKeepsSingle(rest);
  }

  /** A character other than the separator is kept. */
  lemma CollapseCharStep(s: string, rest: string)
    requires |s| > 0 && s[0] != Separator
    requires Collapsed(rest, s[1..])
    ensures Collapsed([s[0]] + rest, s)
  {
    var t := s[1..];
    assert s == [s[0]] + t;
    NamesCharCons(s[0], rest, t);
    CharConsKeepsSingle(s[0], rest);
  }

  /**
   * Each run of separators reduced to one. The first and the last character
   * are kept, and CollapseKeepsNames shows that the names are too: the
   * result is fixed by them and by having no doubled separator.
   */
  function CollapseSeparators(s: string): (r: string)
    decreases |s|
    ensures NoDoubleSeparator(r)
    ensures |r| <= |s|
    ensures |r| == 0 <==> |s| == 0
    ensures |s| > 0 ==> r[0] == s[0] && r[|r| - 1] == s[|s| - 1]
    ensures Separator in r <==> Separator in s
  {
    if |s| == 0 then ""
    else
      var rest := CollapseSeparators(s[1..]);
      if s[0] == Separator && |s| > 1 && s[1] == Separator then rest
      else
        ConsKeepsSingle(s[0], rest);
        [s[0]] + rest
  }

  /** Collapsing keeps the names of the path, in order. */
  lemma {:induction false} CollapseKeepsNames(s: string)
    ensures Names(CollapseSeparators(s)) == Names(s)
    decreases |s|
  {
    if |s| > 0 {
      var r := CollapseSeparators(s);
      var rest := CollapseSeparators(s[1..]);
      CollapseKeepsNames(s[1..]);
      assert Collapsed(rest, s[1..]);
      if s[0] == Separator && |s| > 1 && s[1] == Separator {
        assert r == rest;
        CollapseDropStep(s, rest);
      } else if s[0] == Separator {
        assert r == [Separator] + rest;
        CollapseSeparatorStep(s, rest);
      } else {
        assert r == [s[0]] + rest;
        CollapseCharStep(s, rest);
      }
    }
  }

  /** A character in front of a text without doubled separators, unless both are separators. */
  lemma ConsKeepsSingle(x: char, t: string)
    requires NoDoubleSeparator(t) && (x == Separator && |t| > 0 ==> t[0] != Separator)
    ensures NoDoubleSeparator([x] + t)
  {
    if x == Separator {
      SeparatorConsKeepsSingle(t);
    } else {
      CharConsKeepsSingle(x, t);
    }
  }

  /** A separator in front of a text without doubled separators that does not start with one. */
  lemma SeparatorConsKeepsSingle(t: string)
    requires NoDoubleSeparator(t) && (|t| > 0 ==> t[0] != Separator)
    ensures NoDoubleSeparator([Separator] + t)
  {
    var s := [Separator] + t;
    forall i | 0 <= i < |s| - 1
      ensures !(s[i] == Separator && s[i + 1] == Separator)
    {
      if i > 0 {
        assert s[i] == t[i - 1] && s[i + 1] == t[i];
      }
    }
  }

  /** A character other than the separator in front of a text without doubled separators. */
  lemma CharConsKeepsSingle(x: char, t: string)
    requires x != Separator && NoDoubleSeparator(t)
    ensures NoDoubleSeparator([x] + t)
  {
    var s := [x] + t;
    forall i | 0 <= i < |s| - 1
      ensures !(s[i] == Separator && s[i + 1] == Separator)
    {
      if i > 0 {
        assert s[i] == t[i - 1] && s[i + 1] == t[i];
      }
    }
  }

  /** Collapsing changes nothing in a text without doubled separators. */
  lemma {:induction false} CollapseKeepsSingle(s: string)
    requires NoDoubleSeparator(s)
    ensures CollapseSeparators(s) == s
    decreases |s|
  {
    if |s| > 0 {
      var t := s[1..];
      NoDoubleTail(s);
      CollapseKeepsSingle(t);
      assert !(|s| > 1 && s[0] == Separator && s[1] == Separator);
      assert s == [s[0]] + t;
    }
  }

  /** Dropping the first character keeps a text free of doubled separators. */
  lemma NoDoubleTail(s: string)
    requires |s| > 0 && NoDoubleSeparator(s)
    ensures NoDoubleSeparator(s[1..])
  {
    var t := s[1..];
    forall i | 0 <= i < |t| - 1
      ensures !(t[i] == Separator && t[i + 1] == Separator)
    {
      assert t[i] == s[i + 1] && t[i + 1] == s[i + 2];
    }
  }

  /** A trailing separator adds no name. */
  lemma NamesDropTrailing(p: string)
    ensures Names(p + [Separator]) == Names(p)
  {
    SplitAllConcat(p, "", Separator);
    assert p + [Separator] + "" == p + [Separator];
    assert SplitAll("", Separator) == [""];
    DropEmptyAppend(SplitAll(p, Separator), [""]);
  }

  /** The path java.io.File stores for a path name. */
  function NormalizePath(s: string): (r: string)
    ensures IsNormal(r)
    ensures |r| == 0 <==> |s| == 0
    ensures |s| > 0 ==> r[0] == s[0]
    ensures Names(r) == Names(s)
  {
    var c := CollapseSeparators(s);
    CollapseKeepsNames(s);
    if |c| > 1 && c[|c| - 1] == Separator then
      TrailingSeparatorDropped(c);
      c[..|c| - 1]
    else c
  }

  /** Dropping the trailing separator of a collapsed path leaves a normal path with the same names. */
  lemma TrailingSeparatorDropped(c: string)
    requires NoDoubleSeparator(c) && |c| > 1 && c[|c| - 1] == Separator
    ensures var r := c[..|c| - 1];
      IsNormal(r) && |r| > 0 && r[0] == c[0] && Names(r) == Names(c)
  {
    var r := c[..|c| - 1];
    assert c[|c| - 2] != Separator;
    assert c == r + [Separator];
    NamesDropTrailing(r);
  }

  /** A path already in normal form is kept as it is. */
  lemma NormalizeKeepsNormal(s: string)
    requires IsNormal(s)
    ensures NormalizePath(s) == s
  {
    CollapseKeepsSingle(s);
  }

  /** Normalising twice is normalising once. */
  lemma NormalizeIdempotent(s: string)
    ensures NormalizePath(NormalizePath(s)) == NormalizePath(s)
  {
    NormalizeKeepsNormal(NormalizePath(s));
  }

  /**
   * File.getParent on a normal path: the text before the last separator,
   * the root when that separator is the leading one, and null when there
   * is no separator or the path is the root itself.
   */
  function ParentOf(n: string): (r: Option<string>)
    ensures r.None? <==> (Separator !in n || n == [Separator])
    ensures r.Some? ==> |r.value| < |n| && r.value == n[..|r.value|]
    ensures var k := LastIndexOfChar(n, Separator);
      && (k >= 1 ==> r == Some(n[..k]))
      && (k == 0 && |n| > 1 ==> r == Some([Separator]))
  {
    var prefix := if |n| > 0 && n[0] == Separator then 1 else 0;
    var k := LastIndexOfChar(n, Separator);
    if k < prefix then
      if prefix > 0 && |n| > prefix then
        assert n[..prefix] == [Separator];
        Some(n[..prefix])
      else None
    else Some(n[..k])
  }

  // ---------------------------------------------------------------------
  // Owner and repository
  // ---------------------------------------------------------------------

  /** The folder name after its first '_' (the scan-run prefix), or all of it without one. */
  function StripRunPrefix(seg: string): (r: string)
    ensures '_' !in seg ==> r == seg
    ensures '_' in seg ==>
      (|r| < |seg| && seg[|seg| - |r| - 1] == '_' && '_' !in seg[..|seg| - |r| - 1] && r == seg[|seg| - |r|..])
  {
    var u := IndexOfChar(seg, '_');
    if u >= 0 then seg[u + 1..] else seg
  }

  const UnknownOwnerRepo: (string, string) := ("unknownOwner", "unknownRepo")

  /**
   * Owner and repository from a folder name "<run>_<owner>-<repo>": the
   * repository is what follows the last '-', so an owner may hold dashes
   * and a repository never does.
   */
  function OwnerRepoFromSegment(seg: string): (r: (string, string))
    ensures var s := StripRunPrefix(seg);
      && ('-' !in s ==> r == UnknownOwnerRepo)
      && ('-' in s ==> r.0 + "-" + r.1 == s && '-' !in r.1)
  {
    var s := StripRunPrefix(seg);
    var d := LastIndexOfChar(s, '-');
    if d == -1 then UnknownOwnerRepo
    else
      assert s == s[..d] + "-" + s[d + 1..];
      (s[..d], s[d + 1..])
  }

  /**
   * parseOwnerRepoFromPath: the second-to-last folder of the file's parent
   * directory names the owner and repository. None stands for the
   * exception thrown when the path has no parent (a NullPointerException)
   * or its parent splits into fewer than two names (an index out of bounds).
   */
  function ParseOwnerRepoFromPath(filePath: string): (r: Option<(string, string)>)
  {
    var parent := ParentOf(NormalizePath(filePath));
    if parent.None? then None
    else
      var parts := JavaSplit(parent.value, Separator);
      if |parts| < 2 then None else Some(OwnerRepoFromSegment(parts[|parts| - 2]))
  }

  /** The normal path holds a separator before its last one: the file sits at least two folders deep. */
  predicate TwoLevels(n: string) {
    var k := LastIndexOfChar(n, Separator);
    k >= 0 && Separator in n[..k]
  }

  /** A text that contains `c` splits into at least two pieces. */
  lemma SplitAllAtLeastTwo(s: string, c: char)
    requires c in s
    ensures |SplitAll(s, c)| >= 2
  {
  }

  /** A text that does not end in `c` does not end in an empty piece. */
  lemma {:induction false} SplitAllLastNonEmpty(s: string, c: char)
    requires |s| > 0 && s[|s| - 1] != c
    ensures var parts := SplitAll(s, c); parts[|parts| - 1] != ""
    decreases |s|
  {
    var i := IndexOfChar(s, c);
    if i >= 0 {
      var rest := s[i + 1..];
      assert rest[|rest| - 1] == s[|s| - 1];
      SplitAllLastNonEmpty(rest, c);
      assert SplitAll(s, c) == [s[..i]] + SplitAll(rest, c);
    }
  }

  /**
   * parseOwnerRepoFromPath succeeds exactly for paths at least two folders
   * deep once normalised; every shallower path throws.
   */
  lemma OwnerRepoSucceedsIff(filePath: string)
    ensures ParseOwnerRepoFromPath(filePath).Some? <==> TwoLevels(NormalizePath(filePath))
  {
    var n := NormalizePath(filePath);
    var k := LastIndexOfChar(n, Separator);
    if k == 0 && |n| > 1 {
      RootSplitsEmpty();
    } else if k >= 1 {
      var p := n[..k];
      assert ParentOf(n) == Some(p);
      assert p[|p| - 1] != Separator by {
        assert p[|p| - 1] == n[k - 1] && k - 1 < |n| - 1;
      }
      ParentSplitIff(p);
    }
  }

  /** The root splits into no names at all. */
  lemma RootSplitsEmpty()
    ensures JavaSplit([Separator], Separator) == []
  {
    assert SplitAll([Separator], Separator) == [""] + SplitAll("", Separator);
  }

  /** A folder path not ending in a separator splits into two names or more exactly when it holds a separator. */
  lemma ParentSplitIff(p: string)
    requires |p| > 0 && p[|p| - 1] != Separator
    ensures |JavaSplit(p, Separator)| >= 2 <==> Separator in p
  {
    if Separator in p {
      SplitAllAtLeastTwo(p, Separator);
      SplitAllLastNonEmpty(p, Separator);
      assert JavaSplit(p, Separator) == SplitAll(p, Separator);
    }
  }

  /** With no `c` in `a`, the first piece of a + c + b is `a` itself. */
  lemma SplitAfterPlain(a: string, b: string, c: char)
    requires c !in a
    ensures SplitAll(a + [c] + b, c) == [a] + SplitAll(b, c)
  {
    var s := a + [c] + b;
    assert s[..|a|] == a;
    IndexOfCharAt(s, c, |a|);
    assert s[|a| + 1..] == b;
  }

  /** With a first `c` at `i` in `a`, the first piece of a + c + b is the one of `a`. */
  lemma SplitAtFirst(a: string, b: string, c: char, i: nat)
    requires i < |a| && a[i] == c && c !in a[..i]
    ensures SplitAll(a + [c] + b, c) == [a[..i]] + SplitAll(a[i + 1..] + [c] + b, c)
  {
    var s := a + [c] + b;
    assert s[..i] == a[..i];
    IndexOfCharAt(s, c, i);
    assert s[i + 1..] == a[i + 1..] + [c] + b;
  }

  /** Splitting at a separator between two texts splits each of them. */
  lemma {:induction false} SplitAllConcat(a: string, b: string, c: char)
    ensures SplitAll(a + [c] + b, c) == SplitAll(a, c) + SplitAll(b, c)
    decreases |a|
  {
    var i := IndexOfChar(a, c);
    if i < 0 {
      SplitPlainConcat(a, b, c);
    } else {
      SplitAllConcat(a[i + 1..], b, c);
      SplitFirstConcat(a, b, c, i);
    }
  }

  /** SplitAllConcat when `a` holds no `c`. */
  lemma SplitPlainConcat(a: string, b: string, c: char)
    requires c !in a
    ensures SplitAll(a + [c] + b, c) == SplitAll(a, c) + SplitAll(b, c)
  {
    SplitAfterPlain(a, b, c);
    assert SplitAll(a, c) == [a];
  }

  /** SplitAllConcat for `a` whose first `c` is at `i`, given it for the rest of `a`. */
  lemma SplitFirstConcat(a: string, b: string, c: char, i: nat)
    requires i < |a| && a[i] == c && c !in a[..i]
    requires SplitAll(a[i + 1..] + [c] + b, c) == SplitAll(a[i + 1..], c) + SplitAll(b, c)
    ensures SplitAll(a + [c] + b, c) == SplitAll(a, c) + SplitAll(b, c)
  {
    var rest := a[i + 1..];
    SplitAtFirst(a, b, c, i);
    IndexOfCharAt(a, c, i);
    assert SplitAll(a, c) == [a[..i]] + SplitAll(rest, c);
    PrependRegroups(a[..i], SplitAll(rest, c), SplitAll(b, c),
                    SplitAll(a + [c] + b, c), SplitAll(rest + [c] + b, c), SplitAll(a, c));
  }

  /** Putting a piece in front commutes with appending further pieces. */
  lemma PrependRegroups(head: string, x: seq<string>, y: seq<string>,
                        whole: seq<string>, tail: seq<string>, left: seq<string>)
    requires whole == [head] + tail && tail == x + y && left == [head] + x
    ensures whole == left + y
  {
    assert [head] + (x + y) == ([head] + x) + y;
  }

  lemma JoinKeepsSingle(x: string, y: string)
    requires NoDoubleSeparator(x) && NoDoubleSeparator(y)
    requires |x| > 0 ==> x[|x| - 1] != Separator
    requires |y| > 0 ==> y[0] != Separator
    ensures NoDoubleSeparator(x + [Separator] + y)
  {
    var s := x + [Separator] + y;
    forall i | 0 <= i < |s| - 1
      ensures !(s[i] == Separator && s[i + 1] == Separator)
    {
      if i < |x| - 1 {
        assert s[i] == x[i] && s[i + 1] == x[i + 1];
      } else if i == |x| - 1 {
        assert s[i] == x[i];
      } else if i == |x| {
        assert s[i + 1] == y[0];
      } else {
        assert s[i] == y[i - |x| - 1] && s[i + 1] == y[i - |x|];
      }
    }
  }

  /** A text without separators has no doubled one. */
  lemma NoSeparatorNoDouble(x: string)
    requires Separator !in x
    ensures NoDoubleSeparator(x)
  {
    forall i | 0 <= i < |x| - 1
      ensures x[i] != Separator
    {
    }
  }

  /** The conditions the layout lemma puts on the base folder. */
  predicate IsBase(base: string) {
    NoDoubleSeparator(base) && (|base| > 0 ==> base[|base| - 1] != Separator)
  }

  /** A single folder or file name. */
  predicate IsName(x: string) {
    |x| > 0 && Separator !in x
  }

  /** A base followed by a relative path of names is already in normal form. */
  lemma LayoutIsNormal(base: string, seg: string, tool: string, file: string)
    requires IsBase(base) && IsName(seg) && IsName(tool) && IsName(file)
    ensures IsNormal(base + [Separator] + (seg + [Separator] + (tool + [Separator] + file)))
  {
    var t := tool + [Separator] + file;
    var u := seg + [Separator] + t;
    NoSeparatorNoDouble(seg);
    NoSeparatorNoDouble(tool);
    NoSeparatorNoDouble(file);
    JoinKeepsSingle(tool, file);
    JoinKeepsSingle(seg, t);
    JoinKeepsSingle(base, u);
    var path := base + [Separator] + u;
    assert path[|path| - 1] == file[|file| - 1];
  }

  /** The parent of a file in a folder is that folder. */
  lemma ParentOfName(dir: string, file: string)
    requires IsName(file) && |dir| > 0 && dir[|dir| - 1] != Separator && Separator in dir
    ensures ParentOf(dir + [Separator] + file) == Some(dir)
  {
    var path := dir + [Separator] + file;
    assert path[|dir| + 1..] == file;
    LastIndexOfCharAt(path, Separator, |dir|);
    assert path[..|dir|] == dir;
  }

  /** A folder path ending in two names splits with those two names last. */
  lemma SplitEndsWithNames(base: string, seg: string, tool: string)
    requires IsName(seg) && IsName(tool)
    ensures var parts := JavaSplit(base + [Separator] + seg + [Separator] + tool, Separator);
      |parts| >= 2 && parts[|parts| - 2] == seg
  {
    var parent := base + [Separator] + seg + [Separator] + tool;
    SplitAllConcat(base + [Separator] + seg, tool, Separator);
    SplitAllConcat(base, seg, Separator);
    assert SplitAll(seg, Separator) == [seg] && SplitAll(tool, Separator) == [tool];
    var parts := SplitAll(base, Separator) + [seg] + [tool];
    assert SplitAll(parent, Separator) == parts;
    assert parent[|base|] == Separator;
    assert JavaSplit(parent, Separator) == parts;
  }

  /**
   * The layout the scanner writes, <base>/<run>_<owner>-<repo>/<tool>/<file>:
   * owner and repository come from the repository folder. The base may be
   * empty, which stands for an absolute path from the root.
   */
  lemma LayoutOwnerRepo(base: string, seg: string, tool: string, file: string)
    requires IsBase(base) && IsName(seg) && IsName(tool) && IsName(file)
    ensures ParseOwnerRepoFromPath(base + "/" + seg + "/" + tool + "/" + file) == Some(OwnerRepoFromSegment(seg))
  {
    var parent := base + [Separator] + seg + [Separator] + tool;
    var path := base + [Separator] + (seg + [Separator] + (tool + [Separator] + file));
    assert base + "/" + seg + "/" + tool + "/" + file == path;
    assert path == parent + [Separator] + file;
    LayoutIsNormal(base, seg, tool, file);
    NormalizeKeepsNormal(path);
    assert parent[|parent| - 1] == tool[|tool| - 1];
    assert parent[|base|] == Separator;
    ParentOfName(parent, file);
    SplitEndsWithNames(base, seg, tool);
    ParseOwnerRepoFromParent(path, parent);
  }

  /** Once the parent of the normal path is known, the owner and repository come from its next-to-last folder. */
  lemma ParseOwnerRepoFromParent(filePath: string, parent: string)
    requires ParentOf(NormalizePath(filePath)) == Some(parent)
    requires |JavaSplit(parent, Separator)| >= 2
    ensures var parts := JavaSplit(parent, Separator);
      ParseOwnerRepoFromPath(filePath) == Some(OwnerRepoFromSegment(parts[|parts| - 2]))
  {
  }

  /** The run prefix ends at the first '_'. */
  lemma StripRunAt(run: string, rest: string)
    requires '_' !in run
    ensures StripRunPrefix(run + "_" + rest) == rest
  {
    var seg := run + "_" + rest;
    assert seg[..|run|] == run;
    IndexOfCharAt(seg, '_', |run|);
    assert seg[|run| + 1..] == rest;
  }

  /** The repository starts after the last '-'. */
  lemma LastDashAt(owner: string, repo: string)
    requires '-' !in repo
    ensures LastIndexOfChar(owner + "-" + repo, '-') == |owner|
  {
    var s := owner + "-" + repo;
    assert s[|owner| + 1..] == repo;
    LastIndexOfCharAt(s, '-', |owner|);
  }

  /** A folder "<run>_<owner>-<repo>" names that owner and repository; the owner may hold '_' and '-'. */
  lemma SegmentOwnerRepo(run: string, owner: string, repo: string)
    requires '_' !in run && '-' !in repo
    ensures OwnerRepoFromSegment(run + "_" + owner + "-" + repo) == (owner, repo)
  {
    var s := owner + "-" + repo;
    assert run + "_" + owner + "-" + repo == run + "_" + s;
    StripRunAt(run, s);
    LastDashAt(owner, repo);
    assert s[..|owner|] == owner && s[|owner| + 1..] == repo;
  }

  // ---------------------------------------------------------------------
  // Tool type from a path
  // ---------------------------------------------------------------------

  /**
   * deduceToolType: the first of "code_scanning", "dependabot",
   * "secret_scanning" that the lower-cased path contains decides the tool.
   */
  function DeduceToolType(filePath: string): (r: string)
    ensures var lower := ToLower(filePath);
      && (r == "CODE_SCANNING" <==> Contains(lower, "code_scanning"))
      && (r == "DEPENDABOT" <==> !Contains(lower, "code_scanning") && Contains(lower, "dependabot"))
      && (r == "SECRET_SCANNING" <==>
            (!Contains(lower, "code_scanning") && !Contains(lower, "dependabot") && Contains(lower, "secret_scanning")))
      && (r == "UNKNOWN_TOOL" <==>
            (!Contains(lower, "code_scanning") && !Contains(lower, "dependabot") && !Contains(lower, "secret_scanning")))
  {
    var lower := ToLower(filePath);
    if Contains(lower, "code_scanning") then "CODE_SCANNING"
    else if Contains(lower, "dependabot") then "DEPENDABOT"
    else if Contains(lower, "secret_scanning") then "SECRET_SCANNING"
    else "UNKNOWN_TOOL"
  }

  /** The deduction ignores letter case. */
  lemma DeduceIgnoresCase(filePath: string)
    ensures DeduceToolType(ToUpper(filePath)) == DeduceToolType(filePath)
    ensures DeduceToolType(ToLower(filePath)) == DeduceToolType(filePath)
  {
    LowerOfUpper(filePath);
    LowerIdempotent(filePath);
  }
}
