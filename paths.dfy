/** The POSIX flavour of Node's `path.resolve`, which `getConfigFilePath`
    relies on. A path is a string; its segments are the pieces between '/'
    characters. Resolution scans the arguments right to left, prepending each
    non-empty one until an absolute one has been seen (falling back to the
    working directory), then normalises the segments: empty and "." segments
    vanish and ".." removes the segment before it. */
module PosixPath {

  predicate IsAbsolute(p: string) {
    |p| > 0 && p[0] == '/'
  }

  /** A segment that normalisation keeps as it is. */
  predicate IsPlainSegment(s: string) {
    s != "" && s != "." && s != ".." && '/' !in s
  }

  /** The pieces of `s` between separators, as `s.split("/")` gives them. */
  function Split(s: string): (r: seq<string>)
    ensures |r| > 0
    ensures forall i :: 0 <= i < |r| ==> '/' !in r[i]
  {
    if s == [] then [""]
    else if s[0] == '/' then [""] + Split(s[1..])
    else
      var t := Split(s[1..]);
      [[s[0]] + t[0]] + t[1..]
  }

  /** The segments glued back together with separators, as `parts.join("/")`. */
  function Join(parts: seq<string>): string {
    if |parts| == 0 then ""
    else if |parts| == 1 then parts[0]
    else parts[0] + "/" + Join(parts[1..])
  }

  /** One segment of Node's `normalizeString`. */
  function NormalizeStep(acc: seq<string>, seg: string, allowAboveRoot: bool): seq<string> {
    if seg == "" || seg == "." then acc
    else if seg == ".." then
      if |acc| > 0 && acc[|acc| - 1] != ".." then acc[..|acc| - 1]
      else if allowAboveRoot then acc + [".."]
      else acc
    else acc + [seg]
  }

  /** Node's `normalizeString` on the segments of a path, left to right.
      Above the root (`allowAboveRoot` false) a ".." is dropped. */
  function Normalize(segs: seq<string>, allowAboveRoot: bool): (r: seq<string>)
    ensures forall i :: 0 <= i < |r| ==> r[i] != "" && r[i] != "." && (r[i] == ".." || r[i] in segs)
    ensures !allowAboveRoot ==> forall i :: 0 <= i < |r| ==> r[i] != ".."
  {
    if |segs| == 0 then []
    else NormalizeStep(Normalize(segs[..|segs| - 1], allowAboveRoot), segs[|segs| - 1], allowAboveRoot)
  }

  /** Node's right-to-left scan over the arguments: the joined string (each
      used argument followed by '/') and whether it starts at an absolute path. */
  function Gather(args: seq<string>, cwd: string): (r: (string, bool))
    ensures r.0 != "" ==> r.0[|r.0| - 1] == '/'
    ensures r.1 ==> IsAbsolute(r.0)
    ensures IsAbsolute(cwd) ==> r.1
  {
    if |args| == 0 then
      if cwd == "" then ("", false) else (cwd + "/", IsAbsolute(cwd))
    else
      var last := args[|args| - 1];
      if last == "" then Gather(args[..|args| - 1], cwd)
      else if IsAbsolute(last) then (last + "/", true)
      else
        var (prefix, absolute) := Gather(args[..|args| - 1], cwd);
        (prefix + last + "/", absolute)
  }

  /** `path.resolve(...args)` with `process.cwd()` given as `cwd`. */
  function Resolve(args: seq<string>, cwd: string): (r: string)
    ensures r != ""
    ensures Gather(args, cwd).1 ==> IsAbsolute(r)
    ensures IsAbsolute(cwd) ==> IsAbsolute(r)
  {
    var (joined, absolute) := Gather(args, cwd);
    var segs := Normalize(Split(joined), !absolute);
    if absolute then "/" + Join(segs)
    else if Join(segs) == "" then "."
    else Join(segs)
  }

  /** `file` placed inside the directory `dir`. */
  function Under(dir: string, file: string): string {
    if dir == "/" then "/" + file else dir + "/" + file
  }

  /** A separator splits the string into the pieces of either side. */
  lemma {:induction false} SplitConcat(a: string, b: string)
    ensures Split(a + "/" + b) == Split(a) + Split(b)
  {
    if a == [] {
      assert a + "/" + b == ['/'] + b;
      assert (['/'] + b)[1..] == b;
    } else {
      var s := a + "/" + b;
      assert s[1..] == a[1..] + "/" + b;
      SplitConcat(a[1..], b);
    }
  }

  /** A string without separators is a single segment. */
  lemma {:induction false} SplitPlain(s: string)
    requires '/' !in s
    ensures Split(s) == [s]
  {
    if s != [] {
      SplitPlain(s[1..]);
      assert [s[0]] + s[1..] == s;
    }
  }

  lemma {:induction false} JoinSnoc(parts: seq<string>, last: string)
    ensures Join(parts + [last]) == if parts == [] then last else Join(parts) + "/" + last
  {
    if |parts| > 1 {
      assert (parts + [last])[1..] == parts[1..] + [last];
      JoinSnoc(parts[1..], last);
    } else if |parts| == 1 {
      assert parts + [last] == [parts[0], last];
    }
  }

  /** Joining non-empty segments gives the empty string only for no segments. */
  lemma JoinEmpty(parts: seq<string>)
    requires forall i :: 0 <= i < |parts| ==> parts[i] != ""
    ensures Join(parts) == "" <==> parts == []
  {
  }

  /** Splitting undoes joining, for segments without separators. */
  lemma {:induction false} SplitJoin(parts: seq<string>)
    requires parts != []
    requires forall i :: 0 <= i < |parts| ==> '/' !in parts[i]
    ensures Split(Join(parts)) == parts
  {
    if |parts| == 1 {
      SplitPlain(parts[0]);
    } else {
      SplitJoin(parts[1..]);
      SplitConcat(parts[0], Join(parts[1..]));
      SplitPlain(parts[0]);
      assert [parts[0]] + parts[1..] == parts;
    }
  }

  /** Normalisation keeps segments that are already plain, after a leading root. */
  lemma {:induction false} NormalizeCanonical(segs: seq<string>)
    requires forall i :: 0 <= i < |segs| ==> IsPlainSegment(segs[i])
    ensures Normalize([""] + segs, false) == segs
  {
    if segs != [] {
      var init := segs[..|segs| - 1];
      NormalizeCanonical(init);
      assert ([""] + segs)[..|segs|] == [""] + init;
      assert init + [segs[|segs| - 1]] == segs;
    }
  }

  /** A trailing separator adds one empty segment. */
  lemma SplitSnocSep(s: string)
    ensures Split(s + "/") == Split(s) + [""]
  {
    assert s + "/" + "" == s + "/";
    SplitConcat(s, "");
  }

  /** A leading separator adds one empty segment. */
  lemma SplitConsSep(s: string)
    ensures Split("/" + s) == [""] + Split(s)
  {
    assert ("/" + s)[1..] == s;
  }

  /** The segments of a gathered string: a trailing separator adds one empty segment. */
  lemma SplitTrailing(q: string, file: string)
    requires q != "" && q[|q| - 1] == '/'
    requires '/' !in file
    ensures Split(q + file + "/") == Split(q[..|q| - 1]) + [file, ""]
    ensures Split(q) == Split(q[..|q| - 1]) + [""]
  {
    var q' := q[..|q| - 1];
    assert q == q' + "/";
    SplitSnocSep(q');
    assert q + file == q' + "/" + file;
    SplitConcat(q', file);
    SplitPlain(file);
    SplitSnocSep(q + file);
  }

  /** Normalisation passes a plain last segment and a trailing empty one through. */
  lemma NormalizeTrailing(x: seq<string>, file: string)
    requires IsPlainSegment(file)
    ensures Normalize(x + [""], false) == Normalize(x, false)
    ensures Normalize(x + [file, ""], false) == Normalize(x, false) + [file]
  {
    assert (x + [file, ""])[..|x| + 1] == x + [file];
    assert (x + [file])[..|x|] == x;
    assert (x + [""])[..|x|] == x;
  }

  /** How an absolute gathered string is printed. */
  lemma ResolveAbsoluteForm(args: seq<string>, cwd: string)
    requires Gather(args, cwd).1
    ensures Resolve(args, cwd) == "/" + Join(Normalize(Split(Gather(args, cwd).0), false))
  {
  }

  /** With an absolute working directory, the gathered string of `[dir]`
      is a non-empty absolute string ending in a separator. */
  function GatheredDir(dir: string, cwd: string): (q: string)
    requires IsAbsolute(cwd)
    ensures q != "" && q[|q| - 1] == '/'
  {
    Gather([dir], cwd).0
  }

  /** The segments that `[dir]` normalises from, without the trailing empty one. */
  function DirSegments(dir: string, cwd: string): seq<string>
    requires IsAbsolute(cwd)
  {
    var q := GatheredDir(dir, cwd);
    Split(q[..|q| - 1])
  }

  lemma ResolveDirForm(dir: string, cwd: string)
    requires IsAbsolute(cwd)
    ensures Resolve([dir], cwd) == "/" + Join(Normalize(DirSegments(dir, cwd), false))
  {
    var q := GatheredDir(dir, cwd);
    ResolveAbsoluteForm([dir], cwd);
    SplitTrailing(q, "");
    NormalizeTrailing(DirSegments(dir, cwd), "x");
  }

  lemma ResolveFileForm(dir: string, file: string, cwd: string)
    requires IsPlainSegment(file)
    requires IsAbsolute(cwd)
    ensures Resolve([dir, file], cwd) == "/" + Join(Normalize(DirSegments(dir, cwd), false) + [file])
  {
    var q := GatheredDir(dir, cwd);
    assert [dir, file][..1] == [dir];
    assert Gather([dir, file], cwd) == (q + file + "/", true);
    ResolveAbsoluteForm([dir, file], cwd);
    SplitTrailing(q, file);
    NormalizeTrailing(DirSegments(dir, cwd), file);
  }

  /** Resolving `[dir, file]` for a plain file name puts that file directly
      inside the resolution of `dir` alone. */
  lemma ResolveUnder(dir: string, file: string, cwd: string)
    requires IsPlainSegment(file)
    requires IsAbsolute(cwd)
    ensures Resolve([dir, file], cwd) == Under(Resolve([dir], cwd), file)
  {
    var n := Normalize(DirSegments(dir, cwd), false);
    ResolveDirForm(dir, cwd);
    ResolveFileForm(dir, file, cwd);
    UnderJoin(n, file);
  }

  /** Placing a file under a rooted join appends it as a last segment. */
  lemma UnderJoin(n: seq<string>, file: string)
    requires forall i :: 0 <= i < |n| ==> n[i] != ""
    ensures Under("/" + Join(n), file) == "/" + Join(n + [file])
  {
    JoinSnoc(n, file);
    JoinEmpty(n);
  }

  /** An empty argument is skipped: it resolves as the working directory. */
  lemma ResolveSkipsEmpty(file: string, cwd: string)
    requires IsAbsolute(cwd)
    ensures Resolve(["", file], cwd) == Resolve([cwd, file], cwd)
  {
    assert ["", file][..1] == [""];
    assert [cwd, file][..1] == [cwd];
    assert [""][..0] == [];
    assert Gather([""], cwd) == Gather([], cwd) == (cwd + "/", true);
    assert Gather([cwd], cwd) == (cwd + "/", true);
    assert Gather(["", file], cwd) == Gather([cwd, file], cwd);
  }

  /** An absolute argument makes the working directory irrelevant, and the
      result absolute. */
  lemma ResolveIgnoresCwd(dir: string, file: string, cwd1: string, cwd2: string)
    requires IsAbsolute(dir)
    ensures Resolve([dir, file], cwd1) == Resolve([dir, file], cwd2)
    ensures IsAbsolute(Resolve([dir, file], cwd1))
  {
    assert [dir, file][..1] == [dir];
    assert Gather([dir], cwd1) == Gather([dir], cwd2) == (dir + "/", true);
    assert Gather([dir, file], cwd1) == Gather([dir, file], cwd2);
  }

  /** The segments of a rooted, separator-terminated string. */
  lemma SplitRooted(j: string)
    ensures Split("/" + j + "/") == [""] + Split(j) + [""]
  {
    var t := j + "/";
    SplitSnocSep(j);
    SplitConsSep(t);
    assert "/" + j + "/" == "/" + t;
  }

  /** An absolute path that is already normal resolves to itself. */
  lemma ResolveCanonical(segs: seq<string>, cwd: string)
    requires segs != []
    requires forall i :: 0 <= i < |segs| ==> IsPlainSegment(segs[i])
    ensures Resolve(["/" + Join(segs)], cwd) == "/" + Join(segs)
  {
    var dir := "/" + Join(segs);
    assert Gather([dir], cwd) == (dir + "/", true);
    ResolveAbsoluteForm([dir], cwd);
    SplitRooted(Join(segs));
    SplitJoin(segs);
    var all := [""] + segs + [""];
    assert all[..|all| - 1] == [""] + segs;
    assert Normalize(all, false) == Normalize([""] + segs, false);
    NormalizeCanonical(segs);
  }

  /** A plain file inside an absolute directory already in normal form. */
  lemma ResolveCanonicalUnder(segs: seq<string>, file: string, cwd: string)
    requires segs != []
    requires forall i :: 0 <= i < |segs| ==> IsPlainSegment(segs[i])
    requires IsPlainSegment(file)
    ensures Resolve(["/" + Join(segs), file], cwd) == "/" + Join(segs) + "/" + file
  {
    var dir := "/" + Join(segs);
    ResolveIgnoresCwd(dir, file, cwd, "/");
    ResolveUnder(dir, file, "/");
    ResolveCanonical(segs, "/");
    JoinEmpty(segs);
  }
}
