/**
 * Installing a theme pack: the pack name comes from the archive's file stem
 * or, when the archive carries a `manifest.toml` naming the pack, from that
 * name made safe; the pack unpacks into `<base>/<pack name>`, and only when
 * no entry path climbs out with a `..` component.
 *
 * The archive is its list of entries; decoding the manifest is a parameter,
 * and unpacking is recorded as the list of target paths.
 */
module Install {
  import opened Types
  import opened Text
  import opened Paths

  /** A character `sanitize_name` keeps (ASCII letters and digits, `-`, `_`). */
  predicate NameChar(c: char) {
    IsAlphanumeric(c) || c == '-' || c == '_'
  }

  /** `replace(" ", "-")`. */
  function DashSpaces(s: string): (r: string)
    ensures |r| == |s|
    ensures forall i :: 0 <= i < |s| ==> r[i] == (if s[i] == ' ' then '-' else s[i])
  {
    seq(|s|, i requires 0 <= i < |s| => if s[i] == ' ' then '-' else s[i])
  }

  /** `replace(|c| !c.is_alphanumeric() && c != '-' && c != '_', "")`. */
  function KeepNameChars(s: string): (r: string)
    ensures |r| <= |s|
    ensures forall i :: 0 <= i < |r| ==> NameChar(r[i])
    ensures (forall i :: 0 <= i < |s| ==> NameChar(s[i])) ==> r == s
    ensures forall c :: c in r ==> c in s
  {
    if s == [] then []
    else (if NameChar(s[0]) then [s[0]] else []) + KeepNameChars(s[1..])
  }

  /** A single character is kept exactly when it is a name character. */
  lemma KeepNameCharsSingle(c: char)
    ensures KeepNameChars([c]) == if NameChar(c) then [c] else []
  {
    assert [c][1..] == [];
  }

  /**
   * Filtering a concatenation filters each part and concatenates the
   * results: with `KeepNameCharsSingle`, `KeepNameChars` is exactly the
   * in-order filter keeping the name characters.
   */
  lemma {:induction false} KeepNameCharsAppend(a: string, b: string)
    ensures KeepNameChars(a + b) == KeepNameChars(a) + KeepNameChars(b)
    decreases |a|
  {
    if a == [] {
      assert a + b == b;
    } else {
      assert (a + b)[0] == a[0];
      assert (a + b)[1..] == a[1..] + b;
      KeepNameCharsAppend(a[1..], b);
    }
  }

  /** `sanitize_name`. */
  function SanitizeName(name: string): string {
    Lower(KeepNameChars(DashSpaces(name)))
  }

  /** A sanitized name is made of lower-case letters, digits, `-` and `_` only. */
  lemma SanitizedCharset(name: string)
    ensures forall i :: 0 <= i < |SanitizeName(name)| ==>
      (IsLower(SanitizeName(name)[i]) || IsDigit(SanitizeName(name)[i]) || SanitizeName(name)[i] in "-_")
    ensures forall i :: 0 <= i < |SanitizeName(name)| ==> !IsUpper(SanitizeName(name)[i])
  {
    var kept := KeepNameChars(DashSpaces(name));
    assert forall i :: 0 <= i < |kept| ==> NameChar(kept[i]);
  }

  /** A sanitized name is a single path component that cannot climb out of its base directory. */
  lemma SanitizedIsComponent(name: string)
    ensures '/' !in SanitizeName(name) && '.' !in SanitizeName(name)
    ensures !IsAbsolute(SanitizeName(name)) && !HasParentComponent(SanitizeName(name))
  {
    SanitizedCharset(name);
    var r := SanitizeName(name);
    assert '/' !in r by {
      forall i | 0 <= i < |r| ensures r[i] != '/' { }
    }
    assert '.' !in r by {
      forall i | 0 <= i < |r| ensures r[i] != '.' { }
    }
    SplitWithoutSeparator(r, '/');
  }

  lemma SplitWithoutSeparator(s: string, sep: char)
    requires sep !in s
    ensures Split(s, sep) == [s]
  {
  }

  /** Sanitizing twice is sanitizing once. */
  lemma SanitizeIdempotent(name: string)
    ensures SanitizeName(SanitizeName(name)) == SanitizeName(name)
  {
    var r := SanitizeName(name);
    SanitizedCharset(name);
    assert DashSpaces(r) == r;
    assert forall i :: 0 <= i < |r| ==> NameChar(r[i]);
    assert KeepNameChars(r) == r;
    assert Lower(r) == r;
  }

  /** A name of letters, digits, `-`, `_` and spaces keeps its length: spaces become `-`, letters lower case. */
  lemma SanitizeSpaces(name: string)
    requires forall i :: 0 <= i < |name| ==> NameChar(name[i]) || name[i] == ' '
    ensures |SanitizeName(name)| == |name|
    ensures forall i :: 0 <= i < |name| ==>
      SanitizeName(name)[i] == (if name[i] == ' ' then '-' else LowerChar(name[i]))
  {
    assert KeepNameChars(DashSpaces(name)) == DashSpaces(name);
  }

  lemma DashSpacesExample()
    ensures DashSpaces("My Pack!") == "My-Pack!"
  {
  }

  lemma KeepNameCharsExample()
    ensures KeepNameChars("My-Pack!") == "My-Pack"
  {
    var d := "My-Pack!";
    assert d[1..][1..][1..][1..][1..][1..][1..] == "!";
    assert KeepNameChars("!") == "";
  }

  lemma LowerExample()
    ensures Lower("My-Pack") == "my-pack"
  {
  }

  /** `"My Pack!"` becomes `"my-pack"`. */
  lemma SanitizeExample()
    ensures SanitizeName("My Pack!") == "my-pack"
  {
    DashSpacesExample();
    KeepNameCharsExample();
    LowerExample();
  }

  /** One archive entry: its path and contents. */
  datatype Entry = Entry(path: string, contents: string)

  datatype ErrorKind = InvalidData | InvalidInput | Other

  /** `io::Result<()>`. */
  datatype IoResult = IoOk | IoErr(kind: ErrorKind, message: string)

  /** The name a manifest declares (`config.name`), or why it does not parse. */
  datatype Manifest = Unparsable(reason: string) | Parsed(name: Option<string>)

  /** An entry whose file name is `manifest.toml`. */
  predicate IsManifest(e: Entry) {
    FileName(e.path) == Some("manifest.toml")
  }

  /** The first entry satisfying `IsManifest`. */
  function FirstManifest(entries: seq<Entry>): (k: Option<nat>)
    ensures k.Some? ==> (k.value < |entries| && IsManifest(entries[k.value])
      && forall j :: 0 <= j < k.value ==> !IsManifest(entries[j]))
    ensures k.None? ==> forall j :: 0 <= j < |entries| ==> !IsManifest(entries[j])
  {
    if entries == [] then None
    else if IsManifest(entries[0]) then Some(0)
    else match FirstManifest(entries[1..])
      case None => None
      case Some(k) => Some(k + 1)
  }

  /** The first entry whose path has a `..` component. */
  function FirstUnsafe(entries: seq<Entry>): (k: Option<nat>)
    ensures k.Some? ==> (k.value < |entries| && HasParentComponent(entries[k.value].path)
      && forall j :: 0 <= j < k.value ==> !HasParentComponent(entries[j].path))
    ensures k.None? ==> forall j :: 0 <= j < |entries| ==> !HasParentComponent(entries[j].path)
  {
    if entries == [] then None
    else if HasParentComponent(entries[0].path) then Some(0)
    else match FirstUnsafe(entries[1..])
      case None => None
      case Some(k) => Some(k + 1)
  }

  /** The pack name before any manifest is read: the file stem, or `"unknown"`. */
  function DefaultPackName(filePath: string): string {
    FileStem(filePath).GetOr("unknown")
  }

  /** The pack name after reading the manifest of `entries`. */
  function PackName(filePath: string, entries: seq<Entry>, decode: string -> Manifest): (name: string)
    ensures forall k :: (FirstManifest(entries) == Some(k) && decode(entries[k].contents).Parsed?
      && decode(entries[k].contents).name.Some?) ==> name == SanitizeName(decode(entries[k].contents).name.value)
    ensures FirstManifest(entries).None? ==> name == DefaultPackName(filePath)
    ensures FirstManifest(entries).Some? && decode(entries[FirstManifest(entries).value].contents) == Parsed(None) ==>
      name == DefaultPackName(filePath)
  {
    match FirstManifest(entries)
    case Some(k) =>
      (match decode(entries[k].contents)
       case Parsed(Some(n)) => SanitizeName(n)
       case _ => DefaultPackName(filePath))
    case None => DefaultPackName(filePath)
  }

  /** The manifest `read_manifest` picks does not parse. */
  predicate ManifestUnparsable(entries: seq<Entry>, decode: string -> Manifest) {
    FirstManifest(entries).Some? && decode(entries[FirstManifest(entries).value].contents).Unparsable?
  }

  /**
   * A pack name taken from a manifest is empty or a single component with no
   * `/` and no `..`.
   */
  lemma ManifestNameIsComponent(filePath: string, entries: seq<Entry>, decode: string -> Manifest, k: nat, n: string)
    requires FirstManifest(entries) == Some(k) && decode(entries[k].contents) == Parsed(Some(n))
    ensures var name := PackName(filePath, entries, decode);
      name == SanitizeName(n) && '/' !in name && !HasParentComponent(name)
      && (name != "" ==> Components(name) == [name])
  {
    var name := SanitizeName(n);
    SanitizedIsComponent(n);
    if name != "" {
      SanitizedCharset(n);
      assert name != "." by {
        assert NameChar(name[0]);
      }
      assert Split(name, '/') == [name];
      assert Keep([name]) == [name];
    }
  }

  /**
   * A manifest name with no letter, digit, `-` or `_` sanitises to the empty
   * name, and the destination `<base>/<pack name>` is then `base` itself.
   */
  lemma EmptyManifestNameExample(base: string)
    ensures PackName("a.tar.gz", [Entry("manifest.toml", "")], _ => Parsed(Some("!!!"))) == ""
    ensures Components(Join(base, "")) == Components(base)
  {
    var entries, decode := [Entry("manifest.toml", "")], (_: string) => Parsed(Some("!!!"));
    ManifestFoundFirst();
    assert decode(entries[0].contents) == Parsed(Some("!!!"));
    BangsSanitiseEmpty();
    JoinEmpty(base);
  }

  /** `!!!` has no character a pack name keeps. */
  lemma BangsSanitiseEmpty()
    ensures SanitizeName("!!!") == ""
  {
    assert DashSpaces("!!!") == "!!!";
    assert KeepNameChars("!!!") == "";
  }

  /** An archive holding only `manifest.toml` has its manifest first. */
  lemma ManifestFoundFirst()
    ensures FirstManifest([Entry("manifest.toml", "")]) == Some(0)
  {
    var m := "manifest.toml";
    assert forall i :: 0 <= i < |m| ==> m[i] != '/';
    assert Split(m, '/') == [m];
    assert Keep([m]) == [m];
  }

  /**
   * `t` lies strictly inside `dir`: it extends `dir` as text, its components
   * extend those of `dir` by at least one, and none of the added ones is `..`.
   */
  predicate Inside(dir: string, t: string) {
    var cd := Components(dir);
    var ct := Components(t);
    |dir| <= |t| && t[..|dir|] == dir
    && |cd| < |ct| && ct[..|cd|] == cd
    && forall k :: |cd| <= k < |ct| ==> ct[k] != ".."
  }

  /**
   * Where `Archive::unpack` writes an entry: the destination joined with the
   * entry path's normal components, so a leading `/` and `.` components are
   * dropped.
   */
  function Target(dest: string, path: string): string {
    JoinAll(dest, Components(path))
  }

  /** The targets of `entries`, in archive order; an entry whose path has no normal component is skipped. */
  function Targets(dest: string, entries: seq<Entry>): (ts: seq<string>)
    ensures |ts| <= |entries|
  {
    if entries == [] then []
    else
      (if Components(entries[0].path) == [] then [] else [Target(dest, entries[0].path)])
      + Targets(dest, entries[1..])
  }

  /** An entry path with no `..` component unpacks to a target inside the destination. */
  lemma TargetInside(dest: string, path: string)
    requires !HasParentComponent(path) && Components(path) != []
    ensures Inside(dest, Target(dest, path))
  {
    JoinAllPrefix(dest, Components(path));
    JoinAllComponents(dest, Components(path));
    var cd := Components(dest);
    var ct := Components(Target(dest, path));
    forall k | |cd| <= k < |ct|
      ensures ct[k] != ".."
    {
      assert ct[k] == Components(path)[k - |cd|];
      assert ct[k] in Components(path);
    }
  }

  /** When no entry path has a `..` component, every target lies inside the destination. */
  lemma {:induction false} TargetsInside(dest: string, entries: seq<Entry>)
    requires forall j :: 0 <= j < |entries| ==> !HasParentComponent(entries[j].path)
    ensures forall t :: t in Targets(dest, entries) ==> Inside(dest, t)
  {
    if entries != [] {
      TargetsInside(dest, entries[1..]);
      if Components(entries[0].path) != [] {
        TargetInside(dest, entries[0].path);
      }
    }
  }

  /** `PackInstaller`. */
  class PackInstaller {
    var filePath: string
    var packName: string
    var destDir: string

    /** `new`: the pack name starts as `"unknown"`, the destination as the decompression folder. */
    constructor (file: string, decompressionFolder: string)
      ensures filePath == file && packName == "unknown" && destDir == decompressionFolder
    {
      filePath := file;
      packName := "unknown";
      destDir := decompressionFolder;
    }

    /**
     * `read_manifest`: the first `manifest.toml` entry decides; a manifest
     * that does not parse is `InvalidData`, one without a name keeps the
     * default.
     */
    method ReadManifest(entries: seq<Entry>, decode: string -> Manifest) returns (r: IoResult)
      modifies this`packName
      ensures var k := FirstManifest(entries);
        (r.IoErr? <==> k.Some? && decode(entries[k.value].contents).Unparsable?)
        && (r.IoErr? ==> r.kind == InvalidData && packName == DefaultPackName(filePath))
        && (r.IoOk? ==> packName == PackName(filePath, entries, decode))
    {
      packName := DefaultPackName(filePath);
      var i := 0;
      while i < |entries|
        invariant 0 <= i <= |entries|
        invariant forall j :: 0 <= j < i ==> !IsManifest(entries[j])
        invariant packName == DefaultPackName(filePath)
      {
        var e := entries[i];
        if FileName(e.path) == Some("manifest.toml") {
          assert FirstManifest(entries) == Some(i);
          match decode(e.contents)
          case Unparsable(reason) =>
            return IoErr(InvalidData, "Failed to parse manifest.toml: " + reason);
          case Parsed(name) =>
            if name.Some? {
              packName := SanitizeName(name.value);
            }
          break;
        }
        i := i + 1;
      }
      r := IoOk;
    }

    /** `create_dest_dir`: the destination becomes `<destination>/<pack name>`. */
    method CreateDestDir(createOk: bool) returns (r: IoResult)
      modifies this`destDir
      ensures destDir == Join(old(destDir), packName)
      ensures r.IoOk? <==> createOk
      ensures r.IoErr? ==> r.kind == Other
    {
      destDir := Join(destDir, packName);
      if !createOk {
        return IoErr(Other, "could not create the destination directory");
      }
      r := IoOk;
    }

    /**
     * `unpack_archive`: every entry path is checked before anything is
     * unpacked; `unpacked` lists the targets written, in archive order.
     */
    method UnpackArchive(entries: seq<Entry>) returns (r: IoResult, unpacked: seq<string>)
      ensures FirstUnsafe(entries).Some? <==> r.IoErr?
      ensures r.IoErr? ==> (r.kind == InvalidInput && unpacked == []
        && r.message == "Unsafe path detected: " + entries[FirstUnsafe(entries).value].path)
      ensures r.IoOk? ==> unpacked == Targets(destDir, entries)
      ensures forall t :: t in unpacked ==> Inside(destDir, t)
    {
      unpacked := [];
      var i := 0;
      while i < |entries|
        invariant 0 <= i <= |entries|
        invariant forall j :: 0 <= j < i ==> !HasParentComponent(entries[j].path)
      {
        if HasParentComponent(entries[i].path) {
          assert FirstUnsafe(entries) == Some(i) by {
            FirstUnsafeIs(entries, i);
          }
          return IoErr(InvalidInput, "Unsafe path detected: " + entries[i].path), [];
        }
        i := i + 1;
      }
      TargetsInside(destDir, entries);
      unpacked := Targets(destDir, entries);
      r := IoOk;
    }

    /**
     * `install`: read the manifest, create the destination, unpack; the
     * first failure stops it, and nothing is unpacked unless all three steps
     * succeed.
     */
    method Install(entries: seq<Entry>, decode: string -> Manifest, createOk: bool)
      returns (r: IoResult, unpacked: seq<string>)
      modifies this`packName, this`destDir
      ensures r.IoOk? <==> !ManifestUnparsable(entries, decode) && createOk && FirstUnsafe(entries).None?
      ensures ManifestUnparsable(entries, decode) ==>
        r.IoErr? && r.kind == InvalidData && packName == DefaultPackName(filePath) && destDir == old(destDir)
      ensures !ManifestUnparsable(entries, decode) ==>
        packName == PackName(filePath, entries, decode) && destDir == Join(old(destDir), packName)
      ensures !ManifestUnparsable(entries, decode) && !createOk ==> r.IoErr? && r.kind == Other
      ensures !ManifestUnparsable(entries, decode) && createOk && FirstUnsafe(entries).Some? ==>
        r.IoErr? && r.kind == InvalidInput
      ensures r.IoErr? ==> unpacked == []
      ensures r.IoOk? ==> unpacked == Targets(destDir, entries)
      ensures forall t :: t in unpacked ==> Inside(destDir, t)
    {
      unpacked := [];
      r := ReadManifest(entries, decode);
      if r.IoErr? {
        return;
      }
      r := CreateDestDir(createOk);
      if r.IoErr? {
        return;
      }
      r, unpacked := UnpackArchive(entries);
    }
  }

  lemma {:induction false} FirstUnsafeIs(entries: seq<Entry>, i: nat)
    requires i < |entries| && HasParentComponent(entries[i].path)
    requires forall j :: 0 <= j < i ==> !HasParentComponent(entries[j].path)
    ensures FirstUnsafe(entries) == Some(i)
    decreases i
  {
    if i > 0 {
      FirstUnsafeIs(entries[1..], i - 1);
    }
  }
}
