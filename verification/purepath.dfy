/** A model of Python's `pathlib.PurePosixPath`, as far as the server uses
    it: building a path from a string and joining with the `/` operator.
    A path is a flag saying whether it is anchored at the root and the list
    of its components; empty components and `.` are dropped, `..` is kept
    as it is (pathlib never resolves it), and joining with an absolute
    string discards everything on the left. */
module PurePath {

  datatype Path = Path(absolute: bool, parts: seq<string>)

  /** A string pathlib keeps as one component. */
  predicate IsPart(s: string) {
    s != "" && s != "." && '/' !in s
  }

  predicate IsAbsolute(s: string) {
    |s| > 0 && s[0] == '/'
  }

  /** The index of the first `/` in `s`, or `|s|` when there is none. */
  function FirstSlash(s: string): (n: nat)
    ensures n <= |s|
    ensures forall k :: 0 <= k < n ==> s[k] != '/'
    ensures n < |s| ==> s[n] == '/'
    decreases |s|
  {
    if s == [] || s[0] == '/' then 0 else 1 + FirstSlash(s[1..])
  }

  /** The components pathlib keeps when it splits `s` on `/`: the
      segments between slashes, in order, without the empty ones and `.`
      (`ComponentsOfSegment` and `ComponentsSplit` state this). */
  function Components(s: string): (r: seq<string>)
    ensures forall i :: 0 <= i < |r| ==> IsPart(r[i])
    ensures s == "" || s == "." ==> r == []
    decreases |s|
  {
    if s == [] then []
    else
      var n := FirstSlash(s);
      var head := if IsPart(s[..n]) then [s[..n]] else [];
      if n < |s| then head + Components(s[n + 1..]) else head
  }

  /** `PurePosixPath(s)`. */
  function Parse(s: string): (p: Path)
    ensures p.absolute <==> IsAbsolute(s)
    ensures p.parts == Components(s)
    ensures forall i :: 0 <= i < |p.parts| ==> IsPart(p.parts[i])
  {
    Path(IsAbsolute(s), Components(s))
  }

  /** `p / s`. */
  function Join(p: Path, s: string): (q: Path)
    ensures IsAbsolute(s) ==> q == Parse(s)
    ensures !IsAbsolute(s) ==> q == Path(p.absolute, p.parts + Components(s))
  {
    if IsAbsolute(s) then Parse(s) else Path(p.absolute, p.parts + Components(s))
  }

  /** `p / s0 / s1 / ...`: joining the strings one by one, from the left. */
  function JoinAll(p: Path, strs: seq<string>): Path
    decreases |strs|
  {
    if strs == [] then p else JoinAll(Join(p, strs[0]), strs[1..])
  }

  /** A string without `/` is one segment: kept as it is, unless it is
      empty or `.`. */
  lemma ComponentsOfSegment(s: string)
    requires '/' !in s
    ensures Components(s) == if IsPart(s) then [s] else []
  {
    if s != [] {
      assert FirstSlash(s) == |s|;
      assert s[..|s|] == s;
    }
  }

  /** Splitting at the first `/`: the segment before it (unless empty or
      `.`) followed by the components of the rest. */
  lemma ComponentsSplit(a: string, b: string)
    requires '/' !in a
    ensures Components(a + "/" + b) == (if IsPart(a) then [a] else []) + Components(b)
  {
    var t := a + "/" + b;
    FirstSlashOfJoined(a, b);
    assert t[..|a|] == a;
    assert t[|a| + 1..] == b;
  }

  /** A string that is one component on its own is its own only component. */
  lemma SingleComponent(s: string)
    requires IsPart(s)
    ensures Components(s) == [s]
  {
    assert FirstSlash(s) == |s|;
    assert s[..|s|] == s;
  }

  /** Joining a relative path with a single component appends it. */
  lemma JoinComponent(p: Path, s: string)
    requires IsPart(s)
    ensures Join(p, s) == Path(p.absolute, p.parts + [s])
  {
    SingleComponent(s);
  }

  /** Joining proper components one by one appends them all. */
  lemma {:induction false} JoinAllComponents(p: Path, strs: seq<string>)
    requires forall i :: 0 <= i < |strs| ==> IsPart(strs[i])
    ensures JoinAll(p, strs) == Path(p.absolute, p.parts + strs)
    decreases |strs|
  {
    if strs != [] {
      JoinComponent(p, strs[0]);
      JoinAllComponents(Join(p, strs[0]), strs[1..]);
      Reassociate(p.parts, strs[0], strs[1..]);
      assert [strs[0]] + strs[1..] == strs;
    }
  }

  /** A chain of joins that ends with an absolute string is that string's
      path alone: everything to its left is discarded. */
  lemma {:induction false} JoinAllEndsAbsolute(p: Path, strs: seq<string>)
    requires |strs| > 0 && IsAbsolute(strs[|strs| - 1])
    ensures JoinAll(p, strs) == Parse(strs[|strs| - 1])
    decreases |strs|
  {
    if |strs| > 1 {
      JoinAllEndsAbsolute(Join(p, strs[0]), strs[1..]);
    }
  }

  lemma Reassociate<T>(a: seq<T>, x: T, b: seq<T>)
    ensures a + [x] + b == a + ([x] + b)
  {
  }

  /** The first `/` of `a + "/" + b` is the one after `a` when `a` has none. */
  lemma {:induction false} FirstSlashOfJoined(a: string, b: string)
    requires '/' !in a
    ensures FirstSlash(a + "/" + b) == |a|
    decreases |a|
  {
    var t := a + "/" + b;
    if a != [] {
      assert a[0] in a;
      assert t[1..] == a[1..] + "/" + b;
      assert forall c :: c in a[1..] ==> c in a;
      FirstSlashOfJoined(a[1..], b);
    }
  }
}
