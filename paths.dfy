/**
 * The parts of Rust's `std::path` on Unix that the daemon relies on: absolute
 * paths, `Path::join`, the components of a path, `file_name` and `file_stem`.
 */
module Paths {
  import opened Types
  import opened Text

  predicate IsAbsolute(p: string) {
    |p| > 0 && p[0] == '/'
  }

  /**
   * `base.join(p)`: an absolute `p` replaces `base`; otherwise a `/` is put
   * between the two unless `base` is empty or already ends with one.
   */
  function Join(base: string, p: string): string {
    if IsAbsolute(p) then p
    else if base == [] || base[|base| - 1] == '/' then base + p
    else base + "/" + p
  }

  lemma JoinEndsWith(base: string, p: string)
    ensures |Join(base, p)| >= |p|
    ensures Join(base, p)[|Join(base, p)| - |p|..] == p
  {
  }

  /** Joining onto an absolute base gives an absolute path. */
  lemma JoinAbsolute(base: string, p: string)
    requires IsAbsolute(base)
    ensures IsAbsolute(Join(base, p))
  {
  }

  /** The `/`-separated segments that are real components: no empty ones and no `.`. */
  function Components(p: string): (cs: seq<string>)
    ensures forall i :: 0 <= i < |cs| ==> cs[i] != "" && cs[i] != "." && '/' !in cs[i]
  {
    Keep(Split(p, '/'))
  }

  function Keep(segs: seq<string>): (cs: seq<string>)
    requires forall i :: 0 <= i < |segs| ==> '/' !in segs[i]
    ensures forall i :: 0 <= i < |cs| ==> cs[i] != "" && cs[i] != "." && '/' !in cs[i]
    ensures forall c :: c in cs <==> c in segs && c != "" && c != "."
  {
    if segs == [] then []
    else (if segs[0] == "" || segs[0] == "." then [] else [segs[0]]) + Keep(segs[1..])
  }

  /** `Path::file_name`: the last component unless it is `..` or there is none. */
  function FileName(p: string): (r: Option<string>)
    ensures r.Some? ==> r.value != "" && r.value != "." && r.value != ".." && '/' !in r.value
  {
    var cs := Components(p);
    if cs == [] || cs[|cs| - 1] == ".." then None else Some(cs[|cs| - 1])
  }

  /** Index of the last `.` in `s`, if any. */
  function LastDot(s: string): (r: Option<nat>)
    ensures r.Some? ==> r.value < |s| && s[r.value] == '.' && '.' !in s[r.value + 1..]
    ensures r.None? ==> '.' !in s
  {
    if s == [] then None
    else if s[|s| - 1] == '.' then Some(|s| - 1)
    else
      var r := LastDot(s[..|s| - 1]);
      assert s == s[..|s| - 1] + [s[|s| - 1]];
      r
  }

  /**
   * `Path::file_stem`: the file name without its last extension; a name whose
   * only dot is its first character keeps it (".hidden").
   */
  function FileStem(p: string): (r: Option<string>)
    ensures r.Some? ==> FileName(p).Some? && |r.value| > 0
    ensures FileName(p).Some? ==> r.Some?
    ensures r.Some? ==> exists e :: StemOf(FileName(p).value, r.value, e)
  {
    match FileName(p)
    case None => None
    case Some(name) =>
      match LastDot(name)
      case None =>
        assert StemOf(name, name, "");
        Some(name)
      case Some(k) =>
        if k == 0 then
          assert StemOf(name, name, "");
          Some(name)
        else
          assert StemOf(name, name[..k], name[k..]);
          Some(name[..k])
  }

  /**
   * `name` is `stem` followed by the extension `e`: either `e` is empty and
   * `stem` has no dot after its first character, or `e` is a dot with no
   * further dot.
   */
  predicate StemOf(name: string, stem: string, e: string) {
    && |stem| > 0 && name == stem + e
    && (e == [] ==> '.' !in stem[1..])
    && (e != [] ==> e[0] == '.' && '.' !in e[1..])
  }

  /** Only the last extension goes: `a.tar.gz` has the stem `a.tar`. */
  lemma StemExample()
    ensures FileStem("a.tar.gz") == Some("a.tar")
  {
    var n := "a.tar.gz";
    assert forall i :: 0 <= i < |n| ==> n[i] != '/';
    assert Split(n, '/') == [n];
    assert Keep([n]) == [n];
    assert LastDot(n) == Some(5) by {
      assert n[..|n| - 1] == "a.tar.g" && "a.tar.g"[..6] == "a.tar." ;
    }
    assert n[..5] == "a.tar";
  }

  /** `path.components().any(|c| c == "..")`. */
  predicate HasParentComponent(p: string) {
    ".." in Split(p, '/')
  }

  lemma {:induction false} KeepAppend(x: seq<string>, y: seq<string>)
    requires forall i :: 0 <= i < |x| ==> '/' !in x[i]
    requires forall i :: 0 <= i < |y| ==> '/' !in y[i]
    ensures Keep(x + y) == Keep(x) + Keep(y)
    decreases |x|
  {
    if x == [] {
      assert x + y == y;
    } else {
      assert (x + y)[0] == x[0] && (x + y)[1..] == x[1..] + y;
      KeepAppend(x[1..], y);
    }
  }

  /** Appending a plain name to a path appends it as the last component. */
  lemma ComponentsAppend(dir: string, name: string)
    requires '/' !in name && name != "" && name != "."
    ensures Components(dir + "/" + name) == Components(dir) + [name]
  {
    SplitAppend(dir, name, '/');
    assert dir + "/" + name == dir + ['/'] + name;
    assert Split(name, '/') == [name];
    KeepAppend(Split(dir, '/'), [name]);
    assert Keep([name]) == [name];
  }

  /** A trailing `/` adds no component. */
  lemma ComponentsTrailingSlash(dir: string)
    ensures Components(dir + "/") == Components(dir)
  {
    SplitAppend(dir, "", '/');
    assert dir + "/" == dir + ['/'] + "";
    assert Split("", '/') == [""];
    KeepAppend(Split(dir, '/'), [""]);
  }

  /** Joining the empty name adds no component. */
  lemma JoinEmpty(base: string)
    ensures Components(Join(base, "")) == Components(base)
  {
    if base != [] && base[|base| - 1] != '/' {
      assert Join(base, "") == base + "/";
      ComponentsTrailingSlash(base);
    } else {
      assert base + "" == base;
    }
  }

  /** `dir.join(name)` for a plain name starts with `dir` and has `name` as one more component. */
  lemma JoinName(dir: string, name: string)
    requires '/' !in name && name != "" && name != "."
    ensures |dir| <= |Join(dir, name)| && Join(dir, name)[..|dir|] == dir
    ensures Components(Join(dir, name)) == Components(dir) + [name]
  {
    assert !IsAbsolute(name);
    if dir == [] {
      assert Split(name, '/') == [name];
      assert Keep([name]) == [name];
      assert Split("", '/') == [""];
    } else if dir[|dir| - 1] == '/' {
      var d := dir[..|dir| - 1];
      assert dir == d + "/";
      ComponentsTrailingSlash(d);
      assert Join(dir, name) == d + "/" + name;
      ComponentsAppend(d, name);
    } else {
      ComponentsAppend(dir, name);
    }
  }

  /** Every element is a plain name: not empty, not `.`, without a `/`. */
  predicate AreNames(cs: seq<string>) {
    forall i :: 0 <= i < |cs| ==> cs[i] != "" && cs[i] != "." && '/' !in cs[i]
  }

  /** `dir.join(c1).join(c2)...`: the path under `dir` reached through the components `cs`. */
  function JoinAll(dir: string, cs: seq<string>): (p: string)
    requires AreNames(cs)
    decreases |cs|
  {
    if cs == [] then dir else JoinAll(Join(dir, cs[0]), cs[1..])
  }

  /** Joining components onto `dir` keeps `dir` as a prefix. */
  lemma {:induction false} JoinAllPrefix(dir: string, cs: seq<string>)
    requires AreNames(cs)
    ensures |dir| <= |JoinAll(dir, cs)| && JoinAll(dir, cs)[..|dir|] == dir
    decreases |cs|
  {
    if cs != [] {
      var d := Join(dir, cs[0]);
      JoinName(dir, cs[0]);
      JoinAllPrefix(d, cs[1..]);
      var p := JoinAll(d, cs[1..]);
      assert p[..|dir|] == p[..|d|][..|dir|];
    }
  }

  lemma AppendFirst(x: seq<string>, cs: seq<string>)
    requires cs != []
    ensures x + cs == (x + [cs[0]]) + cs[1..]
  {
    assert cs == [cs[0]] + cs[1..];
  }

  /** Joining components onto `dir` extends its components by exactly those. */
  lemma {:induction false} JoinAllComponents(dir: string, cs: seq<string>)
    requires AreNames(cs)
    ensures Components(JoinAll(dir, cs)) == Components(dir) + cs
    decreases |cs|
  {
    if cs != [] {
      var d := Join(dir, cs[0]);
      JoinName(dir, cs[0]);
      JoinAllComponents(d, cs[1..]);
      AppendFirst(Components(dir), cs);
    }
  }
}
