/**
 * Where the checker puts its two outputs: the marked-up copy `<stem>_NEW<suffix>` and the
 * error list `<stem>_errors.json`, both in the directory of the uploaded file. Paths are
 * POSIX paths as Python 3.12's `pathlib` reads and writes them.
 */
module Paths {
  import opened Text

  /** `str.split('/')`: the pieces between the slashes, empty ones included. */
  function Split(s: string): (r: seq<string>)
    ensures |r| >= 1
  {
    if s == [] then [""]
    else if s[0] == '/' then [""] + Split(s[1..])
    else var rest := Split(s[1..]); [[s[0]] + rest[0]] + rest[1..]
  }

  /** `'/'.join(parts)`. */
  function Join(parts: seq<string>): string {
    if parts == [] then ""
    else if |parts| == 1 then parts[0]
    else parts[0] + "/" + Join(parts[1..])
  }

  /** The pieces that name something: neither empty nor `.`. */
  function Named(pieces: seq<string>): (r: seq<string>)
    ensures forall k :: 0 <= k < |r| ==> r[k] in pieces && r[k] != "" && r[k] != "."
  {
    if pieces == [] then []
    else (if pieces[0] == "" || pieces[0] == "." then [] else [pieces[0]]) + Named(pieces[1..])
  }

  /** A pure POSIX path: its root (`""`, `"/"` or `"//"`) and the names below it. */
  datatype PurePath = PurePath(root: string, parts: seq<string>)

  predicate IsPart(x: string) {
    x != "" && x != "." && '/' !in x
  }

  predicate WellFormed(p: PurePath) {
    && (p.root == "" || p.root == "/" || p.root == "//")
    && forall k :: 0 <= k < |p.parts| ==> IsPart(p.parts[k])
  }

  /** `PurePosixPath(s)`: two leading slashes are a root of their own, three or more are one. */
  function Parse(s: string): (p: PurePath) {
    var root := if StartsWith(s, "//") && !StartsWith(s, "///") then "//"
                else if StartsWith(s, "/") then "/" else "";
    PurePath(root, Named(Split(s)))
  }

  /** `str(path)`: the empty relative path is written `.`. */
  function Render(p: PurePath): string {
    if p.root == "" && p.parts == [] then "." else p.root + Join(p.parts)
  }

  /** `path.parent`: a path without names is its own parent. */
  function Parent(p: PurePath): PurePath {
    if p.parts == [] then p else PurePath(p.root, p.parts[..|p.parts| - 1])
  }

  /** `path.name`: the last name, or nothing. */
  function Name(p: PurePath): string {
    if p.parts == [] then "" else p.parts[|p.parts| - 1]
  }

  /** `path / name` for a single name. */
  function Child(p: PurePath, name: string): PurePath {
    PurePath(p.root, p.parts + [name])
  }

  /** `name.rfind('.')`, with -1 for none. */
  function LastDot(name: string): (i: int)
    ensures -1 <= i < |name|
    ensures i >= 0 ==> name[i] == '.'
    ensures forall k :: i < k < |name| ==> name[k] != '.'
  {
    if name == [] then -1
    else if name[|name| - 1] == '.' then |name| - 1
    else LastDot(name[..|name| - 1])
  }

  lemma {:induction false} LastDotAt(name: string, i: int)
    requires 0 <= i < |name| && name[i] == '.'
    requires forall k :: i < k < |name| ==> name[k] != '.'
    ensures LastDot(name) == i
  {
    if i < |name| - 1 {
      var shorter := name[..|name| - 1];
      assert forall k :: i < k < |shorter| ==> shorter[k] == name[k];
      LastDotAt(shorter, i);
    }
  }

  /** Whether the last dot starts an extension: not the first character nor the last. */
  predicate HasSuffix(name: string) {
    0 < LastDot(name) < |name| - 1
  }

  /** `path.suffix`. */
  function Suffix(name: string): string {
    if HasSuffix(name) then name[LastDot(name)..] else ""
  }

  /** `path.stem`. */
  function Stem(name: string): string {
    if HasSuffix(name) then name[..LastDot(name)] else name
  }

  /** `f"{base_name}_NEW{ext}"`: the name of the marked-up copy. */
  function CopyName(name: string): string {
    Stem(name) + "_NEW" + Suffix(name)
  }

  /** `f"{base_name}_errors.json"`: the name of the error list. */
  function ErrorsName(name: string): string {
    Stem(name) + "_errors.json"
  }

  /** `(new_file_path, json_file_path)` for an uploaded file. */
  function GetFilePaths(filePath: string): (paths: (string, string)) {
    var path := Parse(filePath);
    var directory := Parent(path);
    (Render(Child(directory, CopyName(Name(path)))), Render(Child(directory, ErrorsName(Name(path)))))
  }

  lemma {:induction false} SplitPlain(a: string)
    requires '/' !in a
    ensures Split(a) == [a]
  {
    if a != [] {
      assert a[0] != '/' && '/' !in a[1..];
      SplitPlain(a[1..]);
      assert [a[0]] + a[1..] == a;
    }
  }

  lemma {:induction false} SplitFirst(a: string, b: string)
    requires '/' !in a
    ensures Split(a + "/" + b) == [a] + Split(b)
  {
    if a == [] {
      assert ("" + "/" + b)[1..] == b;
    } else {
      assert a[0] != '/' && '/' !in a[1..];
      SplitFirst(a[1..], b);
      assert (a + "/" + b)[0] == a[0];
      assert (a + "/" + b)[1..] == a[1..] + "/" + b;
      assert [a[0]] + a[1..] == a;
    }
  }

  /** Splitting what was joined gives the pieces back. */
  lemma {:induction false} SplitJoin(parts: seq<string>)
    requires |parts| >= 1 && forall k :: 0 <= k < |parts| ==> '/' !in parts[k]
    ensures Split(Join(parts)) == parts
  {
    if |parts| == 1 {
      SplitPlain(parts[0]);
    } else {
      SplitFirst(parts[0], Join(parts[1..]));
      SplitJoin(parts[1..]);
    }
  }

  lemma {:induction false} NamedOfParts(parts: seq<string>)
    requires forall k :: 0 <= k < |parts| ==> IsPart(parts[k])
    ensures Named(parts) == parts
  {
    if parts != [] {
      NamedOfParts(parts[1..]);
    }
  }

  lemma {:induction false} JoinStart(parts: seq<string>)
    requires |parts| >= 1 && IsPart(parts[0])
    ensures |Join(parts)| > 0 && Join(parts)[0] == parts[0][0]
  {
  }

  /** Every parsed path is well formed. */
  lemma ParseWellFormed(s: string)
    ensures WellFormed(Parse(s))
  {
    forall k | 0 <= k < |Parse(s).parts| ensures IsPart(Parse(s).parts[k]) {
      NoSlashInPieces(s, Parse(s).parts[k]);
    }
  }

  lemma {:induction false} NoSlashInPieces(s: string, x: string)
    requires x in Split(s)
    ensures '/' !in x
  {
    if s != [] {
      var rest := Split(s[1..]);
      if s[0] == '/' {
        if x != "" { NoSlashInPieces(s[1..], x); }
      } else if x == [s[0]] + rest[0] {
        NoSlashInPieces(s[1..], rest[0]);
        assert forall k :: 0 < k < |x| ==> x[k] == rest[0][k - 1];
      } else {
        NoSlashInPieces(s[1..], x);
      }
    }
  }

  lemma {:induction false} NamedUnderRoot(root: string, parts: seq<string>)
    requires root == "/" || root == "//"
    requires parts != [] && forall k :: 0 <= k < |parts| ==> IsPart(parts[k])
    ensures Named(Split(root + Join(parts))) == parts
  {
    var j := Join(parts);
    assert Named(Split(j)) == parts by {
      SplitJoin(parts);
      NamedOfParts(parts);
    }
    if root == "/" {
      NamedAfterSlash(j);
    } else {
      NamedAfterSlashes(j);
    }
  }

  lemma NamedAfterSlashes(s: string)
    ensures Named(Split("//" + s)) == Named(Split(s))
  {
    assert "//" + s == "/" + ("/" + s);
    NamedAfterSlash("/" + s);
    NamedAfterSlash(s);
  }

  /** A leading slash adds no name. */
  lemma NamedAfterSlash(s: string)
    ensures Named(Split("/" + s)) == Named(Split(s))
  {
    SplitSlash(s);
    NamedSkipsEmpty(Split(s));
  }

  /** A leading slash splits off an empty piece. */
  lemma SplitSlash(s: string)
    ensures Split("/" + s) == [""] + Split(s)
  {
    assert ("/" + s)[1..] == s;
  }

  /** Empty pieces are not names. */
  lemma NamedSkipsEmpty(pieces: seq<string>)
    ensures Named([""] + pieces) == Named(pieces)
  {
    assert ([""] + pieces)[1..] == pieces;
  }

  /** The names of a path come back from its written form, whatever its root. */
  lemma {:induction false} NamedOfRendered(p: PurePath)
    requires WellFormed(p)
    ensures Named(Split(Render(p))) == p.parts
  {
    if p.parts == [] {
      NamedOfRoot(p.root);
    } else if p.root == "" {
      assert Render(p) == Join(p.parts);
      SplitJoin(p.parts);
      NamedOfParts(p.parts);
    } else {
      NamedUnderRoot(p.root, p.parts);
    }
  }

  /** A path with no names is written `.`, `/` or `//`, and none of these holds a name. */
  lemma NamedOfRoot(root: string)
    requires root == "" || root == "/" || root == "//"
    ensures Named(Split(Render(PurePath(root, [])))) == []
  {
    if root == "" {
      SplitPlain(".");
      assert ["."][1..] == [];
    } else {
      NamedOfSlashes(root);
    }
  }

  lemma NamedOfSlashes(root: string)
    requires root == "/" || root == "//"
    ensures Named(Split(root)) == []
  {
    SplitSlash("");
    assert "/" + "" == "/";
    assert Named([""]) == [] by {
      assert [""][1..] == [];
    }
    NamedSkipsEmpty([""]);
    if root == "//" {
      SplitSlash("/");
      assert "/" + "/" == "//";
      NamedSkipsEmpty(Split("/"));
    }
  }

  /** The root comes back from the written form: what follows it is never a slash. */
  lemma {:induction false} RootOfRendered(p: PurePath)
    requires WellFormed(p)
    ensures Parse(Render(p)).root == p.root
  {
    if p.parts != [] {
      JoinStart(p.parts);
      var j := Join(p.parts);
      assert j[0] != '/' by {
        assert j[0] == p.parts[0][0];
      }
      RootBeforeName(p.root, j);
    }
  }

  lemma RootBeforeName(root: string, j: string)
    requires root == "" || root == "/" || root == "//"
    requires |j| > 0 && j[0] != '/'
    ensures Parse(root + j).root == root
  {
    var s := root + j;
    assert s[|root|] == j[0];
    if root == "//" {
      assert s[..2] == "//";
      assert s[2] != '/';
    } else if root == "/" {
      assert s[..1] == "/";
      assert s[1] != '/';
    } else {
      assert s[0] != '/';
    }
  }

  /** Writing a well-formed path and reading it back gives the same path. */
  lemma ParseRender(p: PurePath)
    requires WellFormed(p)
    ensures Parse(Render(p)) == p
  {
    NamedOfRendered(p);
    RootOfRendered(p);
  }

  /** The new name is neither empty nor `.` and holds no slash. */
  lemma ChildName(name: string, tail: string)
    requires '/' !in name && |tail| > 1 && '/' !in tail
    ensures IsPart(Stem(name) + tail + Suffix(name))
    ensures IsPart(Stem(name) + tail)
  {
    var x := Stem(name) + tail + Suffix(name);
    assert x[|Stem(name)|..|Stem(name)| + |tail|] == tail;
    var y := Stem(name) + tail;
    assert y[|Stem(name)|..] == tail;
  }

  /** The stem and the suffix together are the whole name; the suffix is a dot and what follows the last dot. */
  lemma StemSuffix(name: string)
    ensures Stem(name) + Suffix(name) == name
    ensures Suffix(name) == "" || (|Suffix(name)| >= 2 && Suffix(name)[0] == '.' && '.' !in Suffix(name)[1..] && |Stem(name)| > 0)
  {
    if HasSuffix(name) {
      var i := LastDot(name);
      var t := name[i + 1..];
      assert forall k :: 0 <= k < |t| ==> t[k] == name[i + 1 + k];
    }
  }

  /** A name put under the parent of a parsed path is read back as it was put. */
  lemma {:induction false} BesideParsed(filePath: string, name: string)
    requires IsPart(name)
    ensures Parse(Render(Child(Parent(Parse(filePath)), name))) == Child(Parent(Parse(filePath)), name)
  {
    ParseWellFormed(filePath);
    var d := Parent(Parse(filePath));
    assert WellFormed(d);
    ParseRender(Child(d, name));
  }

  /**
   * Both outputs sit in the uploaded file's directory; the copy is named with `_NEW`
   * between the stem and the suffix, the error list `<stem>_errors.json`.
   */
  lemma OutputsBesideUpload(filePath: string)
    ensures var path := Parse(filePath); var n := Name(path);
      && Parent(Parse(GetFilePaths(filePath).0)) == Parent(path)
      && Parent(Parse(GetFilePaths(filePath).1)) == Parent(path)
      && Name(Parse(GetFilePaths(filePath).0)) == Stem(n) + "_NEW" + Suffix(n)
      && Name(Parse(GetFilePaths(filePath).1)) == Stem(n) + "_errors.json"
  {
    var n := Name(Parse(filePath));
    assert '/' !in n by {
      ParseWellFormed(filePath);
    }
    ChildName(n, "_NEW");
    ChildName(n, "_errors.json");
    BesideParsed(filePath, CopyName(n));
    BesideParsed(filePath, ErrorsName(n));
  }

  /** A `.docx` name: the stem is everything before the extension. */
  lemma DocxName(stem: string)
    requires IsPart(stem)
    ensures Stem(stem + ".docx") == stem && Suffix(stem + ".docx") == ".docx"
    ensures CopyName(stem + ".docx") == stem + "_NEW.docx"
    ensures ErrorsName(stem + ".docx") == stem + "_errors.json"
    ensures IsPart(stem + ".docx")
  {
    var name := stem + ".docx";
    assert name[|stem|] == '.';
    assert forall k :: |stem| < k < |name| ==> name[k] == "docx"[k - |stem| - 1];
    LastDotAt(name, |stem|);
    assert name[..|stem|] == stem && name[|stem|..] == ".docx";
    assert stem + "_NEW" + ".docx" == stem + "_NEW.docx";
  }

  /** How a relative path of one directory and one name is written. */
  lemma RenderRelative(dir: string, name: string)
    requires dir != ""
    ensures Render(PurePath("", [dir, name])) == dir + "/" + name
  {
    assert [dir, name][1..] == [name];
    assert Join([dir, name]) == dir + "/" + name;
    assert "" + (dir + "/" + name) == dir + "/" + name;
  }

  /** A document in a directory: `dir/name.docx` gives `dir/name_NEW.docx` and `dir/name_errors.json`. */
  lemma InDirectory(dir: string, stem: string)
    requires IsPart(dir) && IsPart(stem)
    ensures GetFilePaths(dir + "/" + (stem + ".docx")) == (dir + "/" + (stem + "_NEW.docx"), dir + "/" + (stem + "_errors.json"))
  {
    var name := stem + ".docx";
    DocxName(stem);
    var p := PurePath("", [dir, name]);
    RenderRelative(dir, name);
    ParseRender(p);
    assert Parent(p) == PurePath("", [dir]) && Name(p) == name;
    InDirectoryOutput(dir, stem + "_NEW.docx");
    InDirectoryOutput(dir, stem + "_errors.json");
  }

  lemma InDirectoryOutput(dir: string, out: string)
    requires dir != ""
    ensures Render(Child(PurePath("", [dir]), out)) == dir + "/" + out
  {
    assert Child(PurePath("", [dir]), out) == PurePath("", [dir, out]);
    RenderRelative(dir, out);
  }

  /** A document named without a directory gets outputs without one, since `Path('.') / name` is `name`. */
  lemma WithoutDirectory(stem: string)
    requires IsPart(stem)
    ensures GetFilePaths(stem + ".docx") == (stem + "_NEW.docx", stem + "_errors.json")
  {
    var name := stem + ".docx";
    DocxName(stem);
    var p := PurePath("", [name]);
    assert Render(p) == name;
    ParseRender(p);
    assert Parent(p) == PurePath("", []) && Name(p) == name;
    TopLevelOutput(stem + "_NEW.docx");
    TopLevelOutput(stem + "_errors.json");
  }

  lemma TopLevelOutput(out: string)
    requires out != ""
    ensures Render(Child(PurePath("", []), out)) == out
  {
    assert Child(PurePath("", []), out) == PurePath("", [out]);
  }

  /** Only the last dot starts the suffix, and a leading dot starts none. */
  lemma DotNames()
    ensures Stem("a.tar.gz") == "a.tar" && Suffix("a.tar.gz") == ".gz"
    ensures Stem(".env") == ".env" && Suffix(".env") == ""
    ensures Stem("notes.") == "notes." && Suffix("notes.") == ""
  {
    LastDotAt("a.tar.gz", 5);
    LastDotAt(".env", 0);
    LastDotAt("notes.", 5);
  }
}
