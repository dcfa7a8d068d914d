/**
 * `path.join` of Node's posix path module: the arguments are joined with
 * '/', then normalised.  Empty and '.' segments are dropped, '..' removes the
 * segment before it, and a relative path keeps the '..' segments that climb
 * above its start.
 */
module PosixPath {

  /** `s.split('/')`. */
  function Split(s: string): (parts: seq<string>)
    ensures |parts| >= 1
    decreases |s|
  {
    if s == [] then [""]
    else
      var parts := Split(s[..|s| - 1]);
      var c := s[|s| - 1];
      if c == '/' then parts + [""]
      else parts[..|parts| - 1] + [parts[|parts| - 1] + [c]]
  }

  /** One segment of normalisation applied to the segments kept so far. */
  function Step(kept: seq<string>, s: string, aboveRoot: bool): seq<string>
  {
    if s == "" || s == "." then kept
    else if s == ".." then
      if |kept| > 0 && kept[|kept| - 1] != ".." then kept[..|kept| - 1]
      else if aboveRoot then kept + [".."]
      else kept
    else kept + [s]
  }

  /** The segments that normalisation keeps, read left to right; `aboveRoot` says whether '..' may climb above the start. */
  function Resolve(segments: seq<string>, aboveRoot: bool): seq<string>
    decreases |segments|
  {
    if segments == [] then []
    else Step(Resolve(segments[..|segments| - 1], aboveRoot), segments[|segments| - 1], aboveRoot)
  }

  lemma ResolveSnoc(segments: seq<string>, s: string, aboveRoot: bool)
    ensures Resolve(segments + [s], aboveRoot) == Step(Resolve(segments, aboveRoot), s, aboveRoot)
  {
    assert (segments + [s])[..|segments|] == segments;
  }

  /** `segments.join('/')`. */
  function JoinSegments(segments: seq<string>): string
    decreases |segments|
  {
    if segments == [] then ""
    else if |segments| == 1 then segments[0]
    else JoinSegments(segments[..|segments| - 1]) + "/" + segments[|segments| - 1]
  }

  /** `path.normalize(p)`: never empty; an absolute path stays absolute and a trailing '/' is kept. */
  function Normalize(p: string): (r: string)
    ensures r != ""
    ensures p != "" && p[0] == '/' ==> r[0] == '/'
    ensures p != "" && p[|p| - 1] == '/' ==> r[|r| - 1] == '/'
  {
    if p == "" then "."
    else
      var absolute := p[0] == '/';
      var trailing := p[|p| - 1] == '/';
      var body := JoinSegments(Resolve(Split(p), !absolute));
      if body == "" then (if absolute then "/" else if trailing then "./" else ".")
      else (if absolute then "/" else "") + body + (if trailing then "/" else "")
  }

  /**
   * `path.join(a, b)`: empty arguments are skipped.  The result is never
   * empty, is absolute when `a` is, and keeps a trailing '/' of `b`.
   */
  function Join(a: string, b: string): (r: string)
    ensures r != ""
    ensures a != "" && a[0] == '/' ==> r[0] == '/'
    ensures b != "" && b[|b| - 1] == '/' ==> r[|r| - 1] == '/'
  {
    if a == "" && b == "" then "."
    else if a == "" then Normalize(b)
    else if b == "" then Normalize(a)
    else Normalize(a + "/" + b)
  }

  lemma {:induction false} SplitNoSlash(s: string)
    requires '/' !in s
    ensures Split(s) == [s]
  {
    if s != [] {
      var front := s[..|s| - 1];
      assert '/' !in front by {
        forall i | 0 <= i < |front| ensures front[i] != '/' { assert front[i] == s[i]; }
      }
      SplitNoSlash(front);
      assert front + [s[|s| - 1]] == s;
    }
  }

  /** A slash followed by a slash-free tail adds that tail as one last segment. */
  lemma {:induction false} SplitSlash(a: string, b: string)
    requires '/' !in b
    ensures Split(a + "/" + b) == Split(a) + [b]
  {
    if b == [] {
      assert (a + "/" + b)[..|a + "/" + b| - 1] == a;
    } else {
      var front := b[..|b| - 1];
      var c := b[|b| - 1];
      assert '/' !in front by {
        forall i | 0 <= i < |front| ensures front[i] != '/' { assert front[i] == b[i]; }
      }
      SplitSlash(a, front);
      var s := a + "/" + b;
      assert s[..|s| - 1] == a + "/" + front;
      assert s[|s| - 1] == c;
      assert front + [c] == b;
    }
  }

  /** A segment that is neither empty, '.' nor '..' and holds no slash. */
  predicate PlainSegment(f: string)
  {
    f != "" && f != "." && f != ".." && '/' !in f
  }

  /** A relative path without a trailing slash whose segments do not all cancel normalises to its kept segments. */
  lemma NormalizeRelative(p: string)
    requires p != "" && p[0] != '/' && p[|p| - 1] != '/'
    requires JoinSegments(Resolve(Split(p), true)) != ""
    ensures Normalize(p) == JoinSegments(Resolve(Split(p), true))
  {
  }

  lemma JoinTwo(a: string, b: string)
    ensures JoinSegments([a, b]) == a + "/" + b
  {
    assert [a, b][..1] == [a];
  }

  /** Joining a slash-free name that is not '.' or '..' below a directory places it directly in that directory. */
  lemma JoinPlainSegment(dir: string, f: string)
    requires PlainSegment(dir) && PlainSegment(f)
    ensures Join(dir, f) == dir + "/" + f
  {
    var p := dir + "/" + f;
    assert Split(p) == [dir, f] by {
      SplitSlash(dir, f);
      SplitNoSlash(dir);
    }
    assert Resolve([dir, f], true) == [dir, f] by {
      ResolveSnoc([], dir, true);
      assert [] + [dir] == [dir];
      ResolveSnoc([dir], f, true);
      assert [dir] + [f] == [dir, f];
    }
    JoinTwo(dir, f);
    assert p[0] != '/' by { assert p[0] == dir[0] && dir[0] in dir; }
    assert p[|p| - 1] != '/' by { assert p[|p| - 1] == f[|f| - 1] && f[|f| - 1] in f; }
    NormalizeRelative(p);
  }

  lemma ResolveClimb(d: string, f: string)
    requires PlainSegment(d) && PlainSegment(f)
    ensures Resolve([d, "..", f], true) == [f]
  {
    ResolveSnoc([], d, true);
    assert [] + [d] == [d];
    ResolveSnoc([d], "..", true);
    assert [d] + [".."] == [d, ".."];
    assert Resolve([d, ".."], true) == [];
    ResolveSnoc([d, ".."], f, true);
    assert [d, ".."] + [f] == [d, "..", f];
  }

  lemma SplitUp(d: string)
    requires '/' !in d
    ensures Split(d + "/" + "..") == [d, ".."]
  {
    SplitNoSlash(d);
    SplitSlash(d, "..");
  }

  lemma ClimbAssoc(d: string, f: string)
    ensures d + "/" + ("../" + f) == (d + "/" + "..") + "/" + f
  {
  }

  lemma SplitClimb(d: string, f: string)
    requires '/' !in d && '/' !in f
    ensures Split(d + "/" + ("../" + f)) == [d, "..", f]
  {
    var q := d + "/" + "..";
    SplitUp(d);
    SplitSlash(q, f);
    ClimbAssoc(d, f);
  }

  /** A name that starts with '../' climbs out of the directory it is joined to. */
  lemma JoinClimb(d: string, f: string)
    requires PlainSegment(d) && PlainSegment(f)
    ensures Join(d, "../" + f) == f
  {
    var p := d + "/" + ("../" + f);
    SplitClimb(d, f);
    ResolveClimb(d, f);
    assert JoinSegments([f]) == f;
    assert p[0] != '/' by { assert p[0] == d[0] && d[0] in d; }
    assert p[|p| - 1] != '/' by { assert p[|p| - 1] == f[|f| - 1] && f[|f| - 1] in f; }
    NormalizeRelative(p);
  }
}
