/** Normal form and containment of paths supplied by users and agents. */
module Paths {
  import opened Prelude
  import opened Text

  const FALLBACK := "untitled.txt"

  // ---- components ----

  /** `s.split('/')`. */
  function Split(s: string): (r: seq<string>)
    ensures r != []
    ensures forall c :: c in r ==> '/' !in c
  {
    if s == "" then [""]
    else if s[0] == '/' then [""] + Split(s[1..])
    else
      var r := Split(s[1..]);
      [[s[0]] + r[0]] + r[1..]
  }

  predicate Plain(cs: seq<string>) {
    forall c :: c in cs ==> '/' !in c
  }

  /** No component that is empty, `.` or `..`. */
  predicate Clean(cs: seq<string>) {
    forall c :: c in cs ==> c != "" && c != "." && c != ".."
  }

  lemma {:induction false} JoinSplit(s: string)
    ensures Join(Split(s), "/") == s
  {
    if s != "" {
      var r := Split(s[1..]);
      JoinSplit(s[1..]);
      if s[0] == '/' {
        assert ([""] + r)[1..] == r;
        assert s == "" + "/" + s[1..];
      } else {
        JoinGrow(s[0], r);
        assert s == [s[0]] + s[1..];
      }
    }
  }

  lemma JoinGrow(c: char, r: seq<string>)
    requires r != []
    ensures Join([[c] + r[0]] + r[1..], "/") == [c] + Join(r, "/")
  {
    assert ([[c] + r[0]] + r[1..])[1..] == r[1..];
    if |r| > 1 {
      assert [c] + r[0] + "/" + Join(r[1..], "/") == [c] + (r[0] + "/" + Join(r[1..], "/"));
    }
  }

  lemma {:induction false} SplitConcat(x: string, y: string)
    ensures Split(x + "/" + y) == Split(x) + Split(y)
    decreases |x|
  {
    hide Split;
    if x == "" {
      SplitStep('/', y);
      SplitNothing();
      assert "" + "/" + y == ['/'] + y;
    } else {
      SplitConcat(x[1..], y);
      SplitStep(x[0], x[1..] + "/" + y);
      SplitStep(x[0], x[1..]);
      Regroup(x[0], Split(x[1..]), Split(y));
      assert x + "/" + y == [x[0]] + (x[1..] + "/" + y);
      assert x == [x[0]] + x[1..];
    }
  }

  lemma SplitNothing()
    ensures Split("") == [""]
  {
  }

  function Prefixed(c: char, r: seq<string>): seq<string>
    requires r != []
  {
    if c == '/' then [""] + r else [[c] + r[0]] + r[1..]
  }

  lemma Regroup(c: char, r: seq<string>, q: seq<string>)
    requires r != []
    ensures Prefixed(c, r + q) == Prefixed(c, r) + q
  {
    assert (r + q)[0] == r[0] && (r + q)[1..] == r[1..] + q;
  }

  lemma SplitStep(c: char, s: string)
    ensures Split([c] + s) == Prefixed(c, Split(s))
  {
    assert ([c] + s)[1..] == s;
  }

  lemma {:induction false} SplitPlain(c: string)
    requires '/' !in c
    ensures Split(c) == [c]
  {
    if c != "" {
      SplitPlain(c[1..]);
      assert c == [c[0]] + c[1..];
    }
  }

  lemma {:induction false} SplitJoin(cs: seq<string>)
    requires cs != [] && Plain(cs)
    ensures Split(Join(cs, "/")) == cs
  {
    SplitPlain(cs[0]);
    if |cs| > 1 {
      SplitJoin(cs[1..]);
      SplitConcat(cs[0], Join(cs[1..], "/"));
    }
    assert cs == [cs[0]] + cs[1..];
  }

  // ---- the stack reading ----

  /** Where one component leads from `dir`: a name goes down, `..` goes up and stays at the root. */
  function Move(dir: seq<string>, c: string): seq<string> {
    if c == "" || c == "." then dir
    else if c == ".." then (if dir == [] then [] else dir[..|dir| - 1])
    else dir + [c]
  }

  function Walk(dir: seq<string>, cs: seq<string>): seq<string>
    decreases cs
  {
    if cs == [] then dir else Walk(Move(dir, cs[0]), cs[1..])
  }

  lemma MoveIsClean(dir: seq<string>, c: string)
    requires Clean(dir) && Plain(dir) && '/' !in c
    ensures Clean(Move(dir, c)) && Plain(Move(dir, c))
  {
    forall x | x in Move(dir, c) ensures x in dir || (x == c && c != "" && c != "." && c != "..") {
    }
  }

  lemma {:induction false} WalkIsClean(dir: seq<string>, cs: seq<string>)
    requires Clean(dir) && Plain(dir) && Plain(cs)
    ensures Clean(Walk(dir, cs)) && Plain(Walk(dir, cs))
    decreases cs
  {
    if cs != [] {
      assert cs[0] in cs && forall c :: c in cs[1..] ==> c in cs;
      MoveIsClean(dir, cs[0]);
      WalkIsClean(Move(dir, cs[0]), cs[1..]);
    }
  }

  lemma {:induction false} WalkOfClean(dir: seq<string>, cs: seq<string>)
    requires Clean(cs)
    ensures Walk(dir, cs) == dir + cs
    decreases cs
  {
    if cs != [] {
      assert cs[0] in cs && forall c :: c in cs[1..] ==> c in cs;
      WalkOfClean(dir + [cs[0]], cs[1..]);
      assert dir + [cs[0]] + cs[1..] == dir + cs;
    }
  }

  lemma {:induction false} WalkConcat(dir: seq<string>, a: seq<string>, b: seq<string>)
    ensures Walk(dir, a + b) == Walk(Walk(dir, a), b)
    decreases a
  {
    if a == [] {
      assert a + b == b;
    } else {
      WalkConcat(Move(dir, a[0]), a[1..], b);
      assert (a + b)[1..] == a[1..] + b;
    }
  }

  // ---- safe_relative_path ----

  /** `s.replace("\\", "/")`. */
  function Slashed(s: string): (r: string)
    ensures |r| == |s|
    ensures forall i :: 0 <= i < |s| ==> r[i] == if s[i] == '\\' then '/' else s[i]
  {
    seq(|s|, i requires 0 <= i < |s| => if s[i] == '\\' then '/' else s[i])
  }

  function Components(name: string): seq<string> {
    Walk([], Split(Strip(Slashed(name))))
  }

  function SafeRelative(name: string): string {
    var cs := Components(name);
    if cs == [] then FALLBACK else Join(cs, "/")
  }

  lemma FallbackIsClean()
    ensures Clean(Split(FALLBACK)) && '\\' !in FALLBACK && Strip(FALLBACK) == FALLBACK && FALLBACK[0] != '/'
  {
    hide Split, Strip;
    SplitPlain(FALLBACK);
    StripFixed(FALLBACK);
  }

  /** The result is not empty, is relative, and no component of it is empty, `.` or `..`. */
  lemma SafeRelativeIsNormal(name: string)
    ensures SafeRelative(name) != "" && SafeRelative(name)[0] != '/' && Clean(Split(SafeRelative(name)))
    ensures Components(name) != [] ==> Split(SafeRelative(name)) == Components(name)
  {
    hide Strip, Split, Walk;
    var cs := Components(name);
    WalkIsClean([], Split(Strip(Slashed(name))));
    if cs == [] {
      FallbackIsClean();
    } else {
      SplitJoin(cs);
      assert cs[0] in cs && cs[0][0] in cs[0];
      JoinStarts(cs);
    }
  }

  lemma JoinStarts(cs: seq<string>)
    requires cs != [] && cs[0] != ""
    ensures Join(cs, "/") != "" && Join(cs, "/")[0] == cs[0][0]
  {
  }

  /** The characters of a path, with one more for each component. */
  function Weight(cs: seq<string>): nat {
    if cs == [] then 0 else Weight(cs[..|cs| - 1]) + |cs[|cs| - 1]| + 1
  }

  lemma {:induction false} WeightConcat(a: seq<string>, b: seq<string>)
    ensures Weight(a + b) == Weight(a) + Weight(b)
  {
    if b == [] {
      assert a + b == a;
    } else {
      WeightConcat(a, b[..|b| - 1]);
      assert (a + b)[..|a + b| - 1] == a + b[..|b| - 1];
    }
  }

  lemma {:induction false} JoinWeight(cs: seq<string>)
    requires cs != []
    ensures |Join(cs, "/")| == Weight(cs) - 1
  {
    assert cs == [cs[0]] + cs[1..];
    WeightConcat([cs[0]], cs[1..]);
    assert [cs[0]][..0] == [];
    if |cs| > 1 { JoinWeight(cs[1..]); }
  }

  lemma {:induction false} WalkWeight(dir: seq<string>, cs: seq<string>)
    ensures Weight(Walk(dir, cs)) <= Weight(dir) + Weight(cs)
    decreases cs
  {
    if cs != [] {
      WalkWeight(Move(dir, cs[0]), cs[1..]);
      assert cs == [cs[0]] + cs[1..];
      WeightConcat([cs[0]], cs[1..]);
      assert [cs[0]][..0] == [] && (dir + [cs[0]])[..|dir|] == dir;
    }
  }

  lemma NeverLonger(name: string)
    ensures Components(name) != [] ==> |SafeRelative(name)| <= |Strip(Slashed(name))|
  {
    hide Strip, Split, Walk, Weight, Join;
    var s := Strip(Slashed(name));
    if Components(name) != [] {
      WalkWeight([], Split(s));
      JoinSplit(s);
      JoinWeight(Split(s));
      JoinWeight(Components(name));
      WeightOfNone();
    }
  }

  lemma WeightOfNone()
    ensures Weight([]) == 0
  {
  }

  lemma {:induction false} NoBackslash(cs: seq<string>, c: char)
    requires c != '/' && forall x :: x in cs ==> c !in x
    ensures c !in Join(cs, "/")
  {
    if |cs| > 1 { NoBackslash(cs[1..], c); }
  }

  lemma {:induction false} WalkFromInput(dir: seq<string>, cs: seq<string>)
    ensures forall x :: x in Walk(dir, cs) ==> x in dir || x in cs
    decreases cs
  {
    if cs != [] { WalkFromInput(Move(dir, cs[0]), cs[1..]); }
  }

  lemma {:induction false} SplitFromInput(s: string, c: char)
    requires c !in s
    ensures forall x :: x in Split(s) ==> c !in x
  {
    if s != "" { SplitFromInput(s[1..], c); }
  }

  lemma ResultHasNoBackslash(name: string)
    ensures '\\' !in SafeRelative(name)
  {
    hide Split, Walk, Join;
    var t := Slashed(name);
    var s := Strip(t);
    assert '\\' !in t;
    StripFromInput(t, '\\');
    SplitFromInput(s, '\\');
    WalkFromInput([], Split(s));
    NoBackslash(Components(name), '\\');
    FallbackIsClean();
  }

  lemma StripFromInput(s: string, c: char)
    requires c !in s
    ensures c !in Strip(s)
  {
    var l := LStrip(s);
    assert c !in l;
  }

  /** The normal form is a fixed point exactly when it neither begins nor ends with a blank. */
  lemma FixedPointIff(name: string)
    ensures var r := SafeRelative(name); SafeRelative(r) == r <==> Strip(r) == r
  {
    hide Strip, Split, Walk, Join, Clean;
    var r := SafeRelative(name);
    ResultHasNoBackslash(name);
    assert Slashed(r) == r;
    SafeRelativeIsNormal(name);
    if Strip(r) == r {
      WalkOfClean([], Split(r));
      assert [] + Split(r) == Split(r);
      JoinSplit(r);
    } else {
      FallbackIsClean();
      NeverLonger(r);
      StripShrinks(r);
    }
  }

  lemma StripShrinks(s: string)
    ensures Strip(s) == s || |Strip(s)| < |s|
  {
    var l := LStrip(s);
    if |RStrip(l)| == |s| {
      assert l == s && RStrip(l) == l;
    }
  }

  // ---- confine_to_dir, lexically ----

  /** `realpath` of an absolute path without links. */
  function Resolve(path: string): string {
    "/" + Join(Walk([], Split(path)), "/")
  }

  /** `os.path.join`. */
  function JoinPath(a: string, b: string): string {
    if b != "" && b[0] == '/' then b
    else if a == "" || a[|a| - 1] == '/' then a + b
    else a + "/" + b
  }

  /** The resolved target, or the `ValueError` of an escape. */
  function Confine(base: string, relative: string): Option<string> {
    var root := Resolve(base);
    var target := Resolve(JoinPath(root, relative));
    if target != root && !(root + "/" <= target) then None else Some(target)
  }

  lemma ResolvedComponents(path: string)
    ensures var cs := Walk([], Split(path));
      Split(Resolve(path)) == [""] + (if cs == [] then [""] else cs) && Walk([], Split(Resolve(path))) == cs
      && Clean(cs) && Plain(cs)
  {
    hide Split, Walk, Join;
    var cs := Walk([], Split(path));
    WalkIsClean([], Split(path));
    var j := Join(cs, "/");
    assert Resolve(path) == "" + "/" + j;
    SplitConcat("", j);
    SplitPlain("");
    WalkConcat([], [""], Split(j));
    WalkBlank();
    if cs == [] {
      JoinNothing();
      SplitPlain("");
    } else {
      SplitJoin(cs);
      WalkOfClean([], cs);
      assert [] + cs == cs;
    }
  }

  lemma JoinNothing()
    ensures Join([], "/") == ""
  {
  }

  lemma WalkBlank()
    ensures Walk([], [""]) == []
  {
    assert [""][1..] == [];
  }

  /** For a base other than the root, the string test accepts exactly the base and what is beneath it. */
  lemma ConfineIsContainment(base: string, relative: string)
    requires Walk([], Split(base)) != []
    ensures var root := Resolve(base); var target := Resolve(JoinPath(root, relative));
      Confine(base, relative).Some? <==> Walk([], Split(base)) <= Walk([], Split(JoinPath(root, relative)))
  {
    hide Split, Walk, Join, Clean, Plain;
    var root := Resolve(base);
    var bs := Walk([], Split(base));
    var path := JoinPath(root, relative);
    var ts := Walk([], Split(path));
    var target := Resolve(path);
    ResolvedComponents(base);
    ResolvedComponents(path);
    if root + "/" <= target {
      var y := target[|root| + 1..];
      assert target == root + "/" + y;
      SplitConcat(root, y);
      FirstOfClean(bs);
      BelowRoot(bs, ts, Split(y));
    }
    if bs <= ts && bs != ts {
      JoinExtends(bs, ts);
      var b, t := Join(bs, "/"), Join(ts, "/");
      assert t == b + "/" + t[|b| + 1..];
      assert "/" + t == "/" + b + "/" + t[|b| + 1..];
    }
  }

  lemma FirstOfClean(cs: seq<string>)
    requires cs != [] && Clean(cs)
    ensures cs[0] != ""
  {
    assert cs[0] in cs;
  }

  lemma BelowRoot(bs: seq<string>, ts: seq<string>, ys: seq<string>)
    requires bs != [] && bs[0] != "" && [""] + (if ts == [] then [""] else ts) == [""] + bs + ys
    ensures bs <= ts
  {
    var full := if ts == [] then [""] else ts;
    assert full == ([""] + full)[1..] == bs + ys;
    assert full[0] == bs[0];
  }

  lemma {:induction false} JoinExtends(bs: seq<string>, ts: seq<string>)
    requires bs != [] && bs <= ts && bs != ts
    ensures Join(bs, "/") + "/" <= Join(ts, "/")
  {
    assert ts[0] == bs[0];
    if |bs| == 1 {
      assert Join(ts, "/") == bs[0] + "/" + Join(ts[1..], "/");
    } else {
      JoinExtends(bs[1..], ts[1..]);
      var b, t := Join(bs[1..], "/"), Join(ts[1..], "/");
      assert t == b + "/" + t[|b| + 1..];
      assert bs[0] + "/" + t == bs[0] + "/" + b + "/" + t[|b| + 1..];
    }
  }

  /** A normalised name passes under every base but the root, and the root rejects every name. */
  lemma NormalFormIsContained(base: string, name: string)
    ensures Confine(base, SafeRelative(name)).Some? <==> Walk([], Split(base)) != []
    ensures Confine(base, SafeRelative(name)).Some? ==>
      Confine(base, SafeRelative(name)) == Some(Resolve(base) + "/" + SafeRelative(name))
  {
    hide Split, Walk, Join, Clean, Plain, SafeRelative;
    var r := SafeRelative(name);
    SafeRelativeIsNormal(name);
    ResolvedComponents(base);
    var root := Resolve(base);
    var bs := Walk([], Split(base));
    if bs == [] {
      RootJoin(root, r);
    } else {
      ResolvedUnder(base, r);
    }
  }

  lemma RootJoin(root: string, r: string)
    requires root == "/" + Join([], "/") && r != "" && r[0] != '/' && Clean(Split(r))
    ensures var t := Resolve(JoinPath(root, r)); t != root && !(root + "/" <= t)
  {
    hide Split, Walk, Clean;
    JoinNothing();
    assert JoinPath(root, r) == "" + "/" + r;
    SplitConcat("", r);
    SplitPlain("");
    WalkConcat([], [""], Split(r));
    WalkBlank();
    WalkOfClean([], Split(r));
    assert [] + Split(r) == Split(r);
    JoinSplit(r);
    assert Resolve(JoinPath(root, r)) == "/" + r;
    assert (root + "/")[1] != ("/" + r)[1];
  }

  lemma ResolvedUnder(base: string, r: string)
    requires Walk([], Split(base)) != [] && r != "" && r[0] != '/' && Clean(Split(r))
    ensures Resolve(JoinPath(Resolve(base), r)) == Resolve(base) + "/" + r
  {
    hide Split, Walk, Join, Clean;
    var root := Resolve(base);
    var bs := Walk([], Split(base));
    LastIsNotSlashOf(base);
    assert JoinPath(root, r) == root + "/" + r;
    WalkUnder(base, r);
    JoinAppend(bs, Split(r));
    JoinSplit(r);
    assert "/" + (Join(bs, "/") + "/" + r) == root + "/" + r;
  }

  lemma WalkUnder(base: string, r: string)
    requires Clean(Split(r))
    ensures Walk([], Split(Resolve(base) + "/" + r)) == Walk([], Split(base)) + Split(r)
  {
    hide *;
    ResolvedComponents(base);
    SplitConcat(Resolve(base), r);
    WalkConcat([], Split(Resolve(base)), Split(r));
    WalkOfClean(Walk([], Split(base)), Split(r));
  }

  lemma LastIsNotSlashOf(base: string)
    requires Walk([], Split(base)) != []
    ensures Resolve(base)[|Resolve(base)| - 1] != '/'
  {
    hide Split, Walk, Join, Clean, Plain;
    ResolvedComponents(base);
    LastIsNotSlash(Walk([], Split(base)));
  }

  lemma {:induction false} LastIsNotSlash(cs: seq<string>)
    requires cs != [] && Clean(cs) && Plain(cs)
    ensures var j := "/" + Join(cs, "/"); j[|j| - 1] != '/' && Join(cs, "/") != ""
  {
    assert cs[0] in cs;
    if |cs| == 1 {
      assert cs[0][|cs[0]| - 1] in cs[0];
    } else {
      assert forall c :: c in cs[1..] ==> c in cs;
      LastIsNotSlash(cs[1..]);
    }
  }

  lemma {:induction false} JoinAppend(a: seq<string>, b: seq<string>)
    requires a != [] && b != []
    ensures Join(a + b, "/") == Join(a, "/") + "/" + Join(b, "/")
  {
    assert (a + b)[1..] == a[1..] + b && (a + b)[0] == a[0];
    if |a| == 1 {
      assert a[1..] + b == b;
    } else {
      JoinAppend(a[1..], b);
    }
  }

  // ---- the loop of os.path.normpath ----

  /** `os.path.normpath` on an absolute path: its components, read with the branches of the library. */
  method NormComponents(comps: seq<string>) returns (stack: seq<string>)
    ensures stack == Walk([], comps)
  {
    stack := [];
    for i := 0 to |comps|
      invariant forall k :: 0 <= k < |stack| ==> stack[k] != ".."
      invariant Walk(stack, comps[i..]) == Walk([], comps)
    {
      var comp := comps[i];
      assert comps[i..][0] == comp && comps[i..][1..] == comps[i + 1..];
      ghost var next := Move(stack, comp);
      if comp == "" || comp == "." {
      } else if comp != ".." || (stack != [] && stack[|stack| - 1] == "..") {
        stack := stack + [comp];
      } else if stack != [] {
        stack := stack[..|stack| - 1];
      }
      assert stack == next;
    }
  }

  method SafeRelativePath(name: string) returns (r: string)
    ensures r == SafeRelative(name)
  {
    hide Strip, Split, Join, Walk;
    var candidate := Strip(Slashed(name));
    var stack := NormComponents(Split("/" + candidate));
    assert "/" + candidate == "" + "/" + candidate;
    SplitConcat("", candidate);
    SplitPlain("");
    WalkConcat([], [""], Split(candidate));
    WalkBlank();
    var normalized := Join(stack, "/");
    WalkIsClean([], Split(candidate));
    if stack == [] {
      JoinNothing();
    } else {
      assert stack[0] in stack;
      JoinStarts(stack);
    }
    r := if normalized == "" then FALLBACK else normalized;
  }
}
