/**
  POSIX path handling as used by `Agent._tool_write_file`: `Path.cwd().joinpath(name)`
  followed by `.resolve()` and `.parent`. Resolution is lexical: `.` and empty
  components vanish, `..` removes the last component (the root is its own parent),
  and an absolute name replaces the working directory.
*/
module Paths {

  /** A path as the list of its components below the root; `[]` is the root itself. */
  type Path = seq<string>

  /** A component that survives resolution. */
  predicate ProperName(n: string) {
    n != "" && n != "." && n != ".." && '/' !in n
  }

  predicate IsResolved(p: Path) {
    forall i :: 0 <= i < |p| ==> ProperName(p[i])
  }

  predicate NoSlashes(parts: seq<string>) {
    forall i :: 0 <= i < |parts| ==> '/' !in parts[i]
  }

  /** Splits a name at every `/`; `"a//b/"` gives `["a", "", "b", ""]`. */
  function Split(s: string): (parts: seq<string>)
    ensures |parts| >= 1
    ensures NoSlashes(parts)
  {
    if |s| == 0 then [""]
    else if s[0] == '/' then [""] + Split(s[1..])
    else
      var rest := Split(s[1..]);
      [[s[0]] + rest[0]] + rest[1..]
  }

  /** Joins components with `/`: the inverse of `Split`. */
  function Unsplit(parts: seq<string>): string
    requires |parts| >= 1
  {
    if |parts| == 1 then parts[0] else parts[0] + "/" + Unsplit(parts[1..])
  }

  lemma {:induction false} SplitRoundTrip(s: string)
    ensures Unsplit(Split(s)) == s
  {
    if |s| == 0 {
    } else if s[0] == '/' {
      SplitRoundTrip(s[1..]);
      assert s == "/" + s[1..];
    } else {
      SplitRoundTrip(s[1..]);
      var rest := Split(s[1..]);
      if |rest| == 1 {
        assert s == [s[0]] + s[1..];
      } else {
        assert Unsplit(rest) == rest[0] + "/" + Unsplit(rest[1..]);
        assert s == [s[0]] + s[1..];
      }
    }
  }

  /** `path.parent`: the path without its last component; the root stays the root. */
  function Parent(p: Path): (q: Path)
    ensures p == [] ==> q == []
    ensures p != [] ==> p == q + [p[|p| - 1]]
  {
    if p == [] then [] else p[..|p| - 1]
  }

  /** Resolution of one component against an already resolved path. */
  function Step(p: Path, c: string): Path {
    if c == "" || c == "." then p
    else if c == ".." then Parent(p)
    else p + [c]
  }

  function Normalize(p: Path, comps: seq<string>): Path
    decreases |comps|
  {
    if |comps| == 0 then p else Normalize(Step(p, comps[0]), comps[1..])
  }

  lemma {:induction false} NormalizeKeepsResolved(p: Path, comps: seq<string>)
    requires IsResolved(p) && NoSlashes(comps)
    ensures IsResolved(Normalize(p, comps))
    decreases |comps|
  {
    if |comps| > 0 {
      NormalizeKeepsResolved(Step(p, comps[0]), comps[1..]);
    }
  }

  predicate IsAbsolute(name: string) {
    |name| > 0 && name[0] == '/'
  }

  /** `cwd.joinpath(name).resolve()`, without symbolic links. */
  function Resolve(cwd: Path, name: string): Path {
    Normalize(if IsAbsolute(name) then [] else cwd, Split(name))
  }

  /** From a resolved working directory, every name resolves to a path free of `""`, `.` and `..`. */
  lemma ResolveIsResolved(cwd: Path, name: string)
    requires IsResolved(cwd)
    ensures IsResolved(Resolve(cwd, name))
  {
    NormalizeKeepsResolved(if IsAbsolute(name) then [] else cwd, Split(name));
  }

  /** The components that name something: `""` and `"."` dropped. */
  function Named(comps: seq<string>): seq<string> {
    if |comps| == 0 then []
    else if comps[0] == "" || comps[0] == "." then Named(comps[1..])
    else [comps[0]] + Named(comps[1..])
  }

  predicate NoParentSteps(comps: seq<string>) {
    forall i :: 0 <= i < |comps| ==> comps[i] != ".."
  }

  /** Without `..`, resolution only appends the named components. */
  lemma {:induction false} NormalizeAppends(p: Path, comps: seq<string>)
    requires NoParentSteps(comps)
    ensures Normalize(p, comps) == p + Named(comps)
    decreases |comps|
  {
    if |comps| > 0 {
      NormalizeAppends(Step(p, comps[0]), comps[1..]);
    }
  }

  /** The containment test of `_tool_write_file`: the resolved target's parent is the working directory. */
  predicate DirectlyInside(cwd: Path, name: string) {
    Parent(Resolve(cwd, name)) == cwd
  }

  /**
    The containment test holds exactly when the target is one proper component
    below the working directory, or, for the root as working directory, the root itself.
  */
  lemma DirectlyInsideMeansChild(cwd: Path, name: string)
    ensures var t := Resolve(cwd, name);
      DirectlyInside(cwd, name) <==>
        (|t| == |cwd| + 1 && t[..|cwd|] == cwd) || (cwd == [] && t == [])
  {
    var t := Resolve(cwd, name);
    if |t| == |cwd| + 1 && t[..|cwd|] == cwd {
      assert Parent(t) == t[..|cwd|];
    }
  }

  /**
    For a relative name without `..`, the write is allowed in a working directory
    other than the root exactly when the name has one named component.
  */
  lemma RelativeNameInside(cwd: Path, name: string)
    requires cwd != []
    requires !IsAbsolute(name) && NoParentSteps(Split(name))
    ensures Resolve(cwd, name) == cwd + Named(Split(name))
    ensures DirectlyInside(cwd, name) <==> |Named(Split(name))| == 1
  {
    NormalizeAppends(cwd, Split(name));
    var t := cwd + Named(Split(name));
    if |Named(Split(name))| == 1 {
      assert Parent(t) == cwd;
    } else if |Named(Split(name))| == 0 {
      assert Parent(t) == cwd[..|cwd| - 1];
    } else {
      assert |Parent(t)| > |cwd|;
    }
  }

  lemma SplitCons(c: char, t: string)
    ensures c == '/' ==> Split([c] + t) == [""] + Split(t)
    ensures c != '/' ==> Split([c] + t) == [[c] + Split(t)[0]] + Split(t)[1..]
  {
    assert ([c] + t)[1..] == t;
  }

  /** A name without `/` is a single component. */
  lemma {:induction false} SplitSingle(a: string)
    requires '/' !in a
    ensures Split(a) == [a]
  {
    if |a| > 0 {
      SplitSingle(a[1..]);
      SplitCons(a[0], a[1..]);
      assert a == [a[0]] + a[1..];
    }
  }

  /** The first `/` of a name ends its first component. */
  lemma {:induction false} SplitAtSlash(a: string, b: string)
    requires '/' !in a
    ensures Split(a + "/" + b) == [a] + Split(b)
  {
    if |a| == 0 {
      assert a + "/" + b == ['/'] + b;
      SplitCons('/', b);
    } else {
      SplitAtSlash(a[1..], b);
      assert a + "/" + b == [a[0]] + (a[1..] + "/" + b);
      SplitCons(a[0], a[1..] + "/" + b);
      assert [a[0]] + a[1..] == a;
    }
  }

  /** A plain name names an entry of the working directory. */
  lemma ResolvePlain(cwd: Path, a: string)
    requires ProperName(a)
    ensures Resolve(cwd, a) == cwd + [a]
  {
    SplitSingle(a);
    assert Normalize(cwd, [a]) == Normalize(cwd + [a], [a][1..]);
  }

  /** `d/f` names an entry of the subdirectory `d`. */
  lemma ResolveNested(cwd: Path, d: string, f: string)
    requires ProperName(d) && ProperName(f)
    ensures Resolve(cwd, d + "/" + f) == cwd + [d, f]
  {
    SplitSingle(f);
    SplitAtSlash(d, f);
    var comps := Split(d + "/" + f);
    assert comps == [d, f];
    assert !IsAbsolute(d + "/" + f) by { assert (d + "/" + f)[0] == d[0]; }
    assert Normalize(cwd, comps) == Normalize(cwd + [d], comps[1..]);
    assert Normalize(cwd + [d], comps[1..]) == Normalize(cwd + [d] + [f], comps[2..]);
  }

  /** `.` names the working directory itself. */
  lemma ResolveDot(cwd: Path)
    ensures Resolve(cwd, ".") == cwd
  {
    SplitSingle(".");
    assert Normalize(cwd, ["."]) == Normalize(cwd, ["."][1..]);
  }

  /** A name that first climbs out of a working directory other than the root ends up outside it. */
  lemma ClimbingOutEscapes(cwd: Path, rest: string)
    requires cwd != []
    requires NoParentSteps(Split(rest)) && |Named(Split(rest))| == 1
    ensures !DirectlyInside(cwd, "../" + rest)
  {
    SplitAtSlash("..", rest);
    assert ".." + "/" + rest == "../" + rest;
    var comps := [".."] + Split(rest);
    assert comps[1..] == Split(rest);
    assert Normalize(cwd, comps) == Normalize(Parent(cwd), Split(rest));
    NormalizeAppends(Parent(cwd), Split(rest));
    assert Resolve(cwd, "../" + rest) == Parent(cwd) + Named(Split(rest));
  }

  /** `d/../f` names `f` in the working directory. */
  lemma ResolveClimbBack(cwd: Path, d: string, f: string)
    requires ProperName(d) && ProperName(f)
    ensures Resolve(cwd, d + "/../" + f) == cwd + [f]
  {
    SplitSingle(f);
    SplitAtSlash("..", f);
    assert ".." + "/" + f == "../" + f;
    SplitAtSlash(d, "../" + f);
    assert d + "/" + ("../" + f) == d + "/../" + f;
    var comps := Split(d + "/../" + f);
    assert comps == [d, "..", f];
    assert !IsAbsolute(d + "/../" + f) by { assert (d + "/../" + f)[0] == d[0]; }
    assert Normalize(cwd, comps) == Normalize(cwd + [d], comps[1..]);
    assert Normalize(cwd + [d], comps[1..]) == Normalize(cwd, comps[2..]);
  }

  /** An absolute name ignores the working directory. */
  lemma ResolveAbsolute(cwd: Path, a: string, b: string)
    requires ProperName(a) && ProperName(b)
    ensures Resolve(cwd, "/" + a + "/" + b) == [a, b]
  {
    SplitSingle(b);
    SplitAtSlash(a, b);
    SplitAtSlash("", a + "/" + b);
    assert "" + "/" + (a + "/" + b) == "/" + a + "/" + b;
    var comps := Split("/" + a + "/" + b);
    assert comps == ["", a, b];
    assert Normalize([], comps) == Normalize([], comps[1..]);
    assert Step([], a) == [a];
    assert Normalize([], comps[1..]) == Normalize([a], comps[2..]);
    assert Step([a], b) == [a, b];
    assert Normalize([a], comps[2..]) == Normalize([a, b], comps[3..]);
  }
}
