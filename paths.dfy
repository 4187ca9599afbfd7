/** The three pieces of Go's standard library that Generate uses to turn a
    template name into an output path: `filepath.Base`, `strings.HasSuffix` /
    `strings.TrimSuffix` and `filepath.Join`. Paths are `/`-separated;
    Go's `filepath.Clean` normalisation is not modelled. */
module Paths {

  const Separator: char := '/'

  /** `filepath.Base` on a path with non-empty segments: the segment after
      the last separator (the whole path when it has none). */
  function Base(path: string): (base: string)
  {
    if path == [] then []
    else if path[|path| - 1] == Separator then []
    else Base(path[..|path| - 1]) + [path[|path| - 1]]
  }

  /** `Base` is the longest suffix free of separators: it ends the path, has
      no separator in it, and is preceded by a separator unless it is the
      whole path. */
  lemma {:induction false} BaseIsLastSegment(path: string)
    ensures var base := Base(path);
      && |base| <= |path| && base == path[|path| - |base|..]
      && Separator !in base
      && (|base| < |path| ==> path[|path| - |base| - 1] == Separator)
  {
    if path != [] && path[|path| - 1] != Separator {
      var init := path[..|path| - 1];
      BaseIsLastSegment(init);
      assert path == init + [path[|path| - 1]];
    }
  }

  /** `strings.HasSuffix`. */
  predicate HasSuffix(s: string, suffix: string)
  {
    |suffix| <= |s| && s[|s| - |suffix|..] == suffix
  }

  /** `HasSuffix` holds exactly when `s` is some string followed by
      `suffix`. */
  lemma HasSuffixIffEndsWith(s: string, suffix: string)
    ensures HasSuffix(s, suffix) <==> exists prefix :: s == prefix + suffix
  {
    if HasSuffix(s, suffix) {
      assert s == s[..|s| - |suffix|] + suffix;
    }
    if exists prefix :: s == prefix + suffix {
      var prefix :| s == prefix + suffix;
      assert s[|prefix|..] == suffix;
    }
  }

  /** `strings.TrimSuffix`: removes ONE trailing occurrence of `suffix`, and
      leaves `s` alone when it does not end with it. */
  function TrimSuffix(s: string, suffix: string): (trimmed: string)
  {
    if HasSuffix(s, suffix) then s[..|s| - |suffix|] else s
  }

  /** Trimming removes exactly one copy of the suffix: putting it back gives
      the original string; a string without the suffix is left as it is. */
  lemma TrimSuffixRemovesOne(s: string, suffix: string)
    ensures HasSuffix(s, suffix) ==> TrimSuffix(s, suffix) + suffix == s
    ensures !HasSuffix(s, suffix) ==> TrimSuffix(s, suffix) == s
  {
  }

  /** `filepath.Join(dir, name)` for a clean `dir`: `name` placed directly
      inside `dir`, with exactly one separator between them. An empty
      element is ignored, as in Go. */
  function Join(dir: string, name: string): (p: string)
  {
    if dir == [] then name
    else if name == [] then dir
    else if dir[|dir| - 1] == Separator then dir + name
    else dir + [Separator] + name
  }

  /** `Join` puts `name` directly inside `dir`: `dir` comes first, `name`
      last, and between them nothing but the one separator `dir` may lack. */
  lemma JoinPlacesNameInDir(dir: string, name: string)
    ensures dir == [] ==> Join(dir, name) == name
    ensures name == [] ==> Join(dir, name) == dir
    ensures dir != [] && name != [] ==>
      var p := Join(dir, name);
      && dir <= p
      && |dir| + |name| <= |p| <= |dir| + |name| + 1
      && p[|p| - |name|..] == name
      && (|p| == |dir| + |name| + 1 <==> dir[|dir| - 1] != Separator)
      && forall k :: |dir| <= k < |p| - |name| ==> p[k] == Separator
  {
  }

  /** The directories above `dir` that `os.MkdirAll` creates when they are
      missing: every prefix of `dir` that ends just before a separator. */
  function Parents(dir: string): (parents: set<string>)
    ensures forall p :: p in parents ==> p < dir
    ensures dir !in parents
  {
    set i | 0 < i < |dir| && dir[i] == Separator :: dir[..i]
  }

  /** The base of a path is its last segment, whatever directories precede
      it: `Base` is fully determined by the separator that ends `prefix`. */
  lemma BaseOfLastSegment(prefix: string, segment: string)
    requires Separator !in segment
    requires prefix == [] || prefix[|prefix| - 1] == Separator
    ensures Base(prefix + segment) == segment
  {
    BaseIsLastSegment(prefix + segment);
    assert (prefix + segment)[|prefix|..] == segment;
  }

  /** Joining a single segment onto a directory yields a path whose base is
      that segment. */
  lemma BaseOfJoin(dir: string, name: string)
    requires name != [] && Separator !in name
    ensures Base(Join(dir, name)) == name
  {
    JoinPlacesNameInDir(dir, name);
    var p := Join(dir, name);
    var prefix := p[..|p| - |name|];
    assert p == prefix + name;
    if prefix != [] {
      assert prefix[|prefix| - 1] == p[|p| - |name| - 1];
    }
    BaseOfLastSegment(prefix, name);
  }
}
