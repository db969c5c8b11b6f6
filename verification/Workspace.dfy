/** executor/container.go:829-918 and 1187-1226: which of a container's files and folders are shown to
    the user, down to the path functions of Go's library on a Unix system. */
module Workspace {
  // ----- strings and paths

  /** `strings.Split` on a one-character separator. */
  function Split(s: string, sep: char): (parts: seq<string>)
    ensures |parts| >= 1
  {
    if s == "" then [""]
    else
      var rest := Split(s[1..], sep);
      if s[0] == sep then [""] + rest else [[s[0]] + rest[0]] + rest[1..]
  }

  function Join(parts: seq<string>, sep: char): string {
    if parts == [] then ""
    else if |parts| == 1 then parts[0]
    else parts[0] + [sep] + Join(parts[1..], sep)
  }

  predicate HasPrefix(s: string, prefix: string) {
    prefix <= s
  }

  function TrimPrefix(s: string, prefix: string): string {
    if prefix <= s then s[|prefix|..] else s
  }

  predicate IsSpace(c: char) {
    c in {'\t', '\n', '\r', ' ', '\U{0b}', '\U{0c}', '\U{85}', '\U{a0}', '\U{1680}', '\U{2028}', '\U{2029}', '\U{202f}',
          '\U{205f}', '\U{3000}'}
    || '\U{2000}' <= c <= '\U{200a}'
  }

  function TrimSpace(s: string): string
    decreases |s|
  {
    if s == "" then ""
    else if IsSpace(s[0]) then TrimSpace(s[1..])
    else if IsSpace(s[|s| - 1]) then TrimSpace(s[..|s| - 1])
    else s
  }

  /** One path element of `filepath.Clean`. */
  function CleanElement(rooted: bool, stack: seq<string>, element: string): seq<string> {
    if element == "" || element == "." then stack
    else if element == ".." then
      if stack != [] && stack[|stack| - 1] != ".." then stack[..|stack| - 1]
      else if rooted then stack
      else stack + [".."]
    else stack + [element]
  }

  function CleanElements(rooted: bool, elements: seq<string>): seq<string> {
    if elements == [] then []
    else CleanElement(rooted, CleanElements(rooted, elements[..|elements| - 1]), elements[|elements| - 1])
  }

  /** `filepath.Clean`. */
  function Clean(path: string): string {
    if path == "" then "."
    else
      var rooted := path[0] == '/';
      var stack := CleanElements(rooted, Split(path, '/'));
      if rooted then "/" + Join(stack, '/') else if stack == [] then "." else Join(stack, '/')
  }

  /** The path up to and including its last slash. */
  function ThroughLastSlash(path: string): (through: string)
    ensures through <= path
  {
    if path == "" || path[|path| - 1] == '/' then path else ThroughLastSlash(path[..|path| - 1])
  }

  /** `filepath.Dir`. */
  function Dir(path: string): string {
    Clean(ThroughLastSlash(path))
  }

  function TrimSlashes(path: string): string {
    if path != "" && path[|path| - 1] == '/' then TrimSlashes(path[..|path| - 1]) else path
  }

  /** `filepath.Base`. */
  function Base(path: string): string {
    if path == "" then "."
    else
      var trimmed := TrimSlashes(path);
      if trimmed == "" then "/" else trimmed[|ThroughLastSlash(trimmed)|..]
  }

  /** `filepath.Ext`. */
  function Ext(path: string): string {
    if path == "" || path[|path| - 1] == '/' then ""
    else if path[|path| - 1] == '.' then "."
    else
      var e := Ext(path[..|path| - 1]);
      if e == "" then "" else e + [path[|path| - 1]]
  }

  // ----- the filter

  predicate BadSegment(segment: string) {
    && segment != "" && segment != "."
    && (HasPrefix(segment, ".")
        || segment in {"__pycache__", "node_modules", "target", "vendor", "dist", "build", ".git"})
  }

  predicate AnyBad(segments: seq<string>) {
    exists k :: 0 <= k < |segments| && BadSegment(segments[k])
  }

  predicate ShouldSkipDir(path: string) {
    AnyBad(Split(path, '/'))
  }

  predicate ShouldSkipFile(path: string) {
    || HasPrefix(Base(path), ".")
    || Ext(Base(path)) in {".o", ".a", ".so", ".pyc", ".pyo", ".class"}
    || ShouldSkipDir(Dir(path))
  }

  // ----- splitting

  lemma {:induction false} SplitConcat(a: string, b: string, sep: char)
    ensures Split(a + [sep] + b, sep) == Split(a, sep) + Split(b, sep)
  {
    if a == "" {
      assert ([sep] + b)[1..] == b && "" + [sep] + b == [sep] + b;
    } else {
      assert (a + [sep] + b)[1..] == a[1..] + [sep] + b;
      SplitConcat(a[1..], b, sep);
    }
  }

  predicate Lacks(parts: seq<string>, sep: char) {
    forall part | part in parts :: sep !in part
  }

  lemma {:induction false} SplitHasNoSeparator(s: string, sep: char)
    ensures Lacks(Split(s, sep), sep)
  {
    if s != "" {
      SplitHasNoSeparator(s[1..], sep);
    }
  }

  lemma {:induction false} SplitPlain(s: string, sep: char)
    requires sep !in s
    ensures Split(s, sep) == [s]
  {
    if s != "" {
      SplitPlain(s[1..], sep);
      assert [s[0]] + s[1..] == s;
    }
  }

  lemma {:induction false} SplitJoin(parts: seq<string>, sep: char)
    requires parts != [] && Lacks(parts, sep)
    ensures Split(Join(parts, sep), sep) == parts
  {
    SplitPlain(parts[0], sep);
    if |parts| > 1 {
      SplitJoin(parts[1..], sep);
      SplitConcat(parts[0], Join(parts[1..], sep), sep);
    }
  }

  /** With `SplitHasNoSeparator`, this determines the parts. */
  lemma {:induction false} JoinSplit(s: string, sep: char)
    ensures Join(Split(s, sep), sep) == s
  {
    if s != "" {
      JoinSplit(s[1..], sep);
      var rest := Split(s[1..], sep);
      if s[0] == sep {
        assert ([""] + rest)[1..] == rest;
        assert s == "" + [sep] + s[1..];
      } else {
        assert ([[s[0]] + rest[0]] + rest[1..])[1..] == rest[1..];
        assert s == [s[0]] + s[1..];
      }
    }
  }

  predicate AllSpace(s: string) {
    forall k | 0 <= k < |s| :: IsSpace(s[k])
  }

  /** Trimming takes white space off both ends, and all of it. */
  lemma {:induction false} Trimmed(s: string) returns (before: string, after: string)
    ensures s == before + TrimSpace(s) + after && AllSpace(before) && AllSpace(after)
    ensures TrimSpace(s) != "" ==> !IsSpace(TrimSpace(s)[0]) && !IsSpace(TrimSpace(s)[|TrimSpace(s)| - 1])
    decreases |s|
  {
    hide IsSpace;
    before, after := "", "";
    if s == "" {
    } else if IsSpace(s[0]) {
      before, after := Trimmed(s[1..]);
      before := [s[0]] + before;
      assert s == [s[0]] + s[1..];
    } else if IsSpace(s[|s| - 1]) {
      before, after := Trimmed(s[..|s| - 1]);
      after := after + [s[|s| - 1]];
      assert s == s[..|s| - 1] + [s[|s| - 1]];
    }
  }

  // ----- skipping is closed under appending segments

  /** `d` is an ancestor directory of `path`, as the path is written. */
  ghost predicate IsAncestor(d: string, path: string) {
    exists rest: string :: path == d + "/" + rest
  }

  lemma SkipIsClosed(d: string, rest: string)
    requires ShouldSkipDir(d)
    ensures ShouldSkipDir(d + "/" + rest)
  {
    SplitConcat(d, rest, '/');
    var k :| 0 <= k < |Split(d, '/')| && BadSegment(Split(d, '/')[k]);
    assert Split(d + "/" + rest, '/')[k] == Split(d, '/')[k];
  }

  /** A folder that is shown lies under no skipped directory. */
  lemma ShownFolderIsClean(path: string, d: string)
    requires !ShouldSkipDir(path) && IsAncestor(d, path)
    ensures !ShouldSkipDir(d)
  {
    var rest: string :| path == d + "/" + rest;
    if ShouldSkipDir(d) {
      SkipIsClosed(d, rest);
    }
  }

  // ----- files

  /** The directory part of a path, as written, in segments. */
  function DirSegments(path: string): seq<string> {
    var parts := Split(path, '/');
    parts[..|parts| - 1]
  }

  lemma {:induction false} LastSlash(path: string)
    ensures ThroughLastSlash(path) <= path
    ensures ThroughLastSlash(path) == "" <==> '/' !in path
    ensures ThroughLastSlash(path) != "" ==>
              var t := ThroughLastSlash(path); t[|t| - 1] == '/' && '/' !in path[|t|..]
  {
    if path != "" && path[|path| - 1] != '/' {
      var front := path[..|path| - 1];
      LastSlash(front);
      assert path == front + [path[|path| - 1]];
      var t := ThroughLastSlash(front);
      assert path[|t|..] == front[|t|..] + [path[|path| - 1]];
    }
  }

  /** The directory part written out: everything before the last slash. */
  lemma DirSegmentsAre(path: string)
    requires '/' in path
    ensures var t := ThroughLastSlash(path);
            && t != "" && DirSegments(path) == Split(t[..|t| - 1], '/')
            && Split(t, '/') == DirSegments(path) + [""]
            && IsAncestor(t[..|t| - 1], path)
  {
    LastSlash(path);
    var t := ThroughLastSlash(path);
    var d, rest := t[..|t| - 1], path[|t|..];
    assert t == d + "/" + "" && path == d + "/" + rest;
    SplitConcat(d, "", '/');
    SplitConcat(d, rest, '/');
    SplitPlain(rest, '/');
  }

  /** Without "..", cleaning only drops empty and "." elements. */
  lemma {:induction false} CleanKeepsBad(rooted: bool, elements: seq<string>)
    requires ".." !in elements
    ensures AnyBad(CleanElements(rooted, elements)) <==> AnyBad(elements)
    ensures ".." !in CleanElements(rooted, elements)
  {
    if elements != [] {
      var front, last := elements[..|elements| - 1], elements[|elements| - 1];
      assert elements == front + [last];
      CleanKeepsBad(rooted, front);
      AnyBadConcat(front, [last]);
      AnyBadConcat(CleanElements(rooted, front), [last]);
    }
  }

  lemma AnyBadConcat(a: seq<string>, b: seq<string>)
    ensures AnyBad(a + b) <==> AnyBad(a) || AnyBad(b)
  {
    if AnyBad(a) {
      var k :| 0 <= k < |a| && BadSegment(a[k]);
      assert (a + b)[k] == a[k];
    }
    if AnyBad(b) {
      var k :| 0 <= k < |b| && BadSegment(b[k]);
      assert (a + b)[|a| + k] == b[k];
    }
  }

  lemma {:induction false} CleanIsPlain(rooted: bool, elements: seq<string>)
    requires Lacks(elements, '/')
    ensures Lacks(CleanElements(rooted, elements), '/')
  {
    if elements != [] {
      CleanIsPlain(rooted, elements[..|elements| - 1]);
    }
  }

  lemma SkipOfClean(path: string)
    requires path != ""
    ensures ShouldSkipDir(Clean(path)) <==> AnyBad(CleanElements(path[0] == '/', Split(path, '/')))
  {
    hide BadSegment;
    var rooted := path[0] == '/';
    var stack := CleanElements(rooted, Split(path, '/'));
    SplitHasNoSeparator(path, '/');
    CleanIsPlain(rooted, Split(path, '/'));
    if stack == [] {
      NoneBad();
    } else {
      SplitJoin(stack, '/');
      SplitConcat("", Join(stack, '/'), '/');
      assert "" + "/" + Join(stack, '/') == "/" + Join(stack, '/');
      AnyBadConcat([""], stack);
      NoneBad();
    }
  }

  lemma NoneBad()
    ensures !AnyBad([""]) && !ShouldSkipDir("/") && !ShouldSkipDir(".")
  {
    SplitConcat("", "", '/');
    SplitPlain(".", '/');
  }

  /** A file that is shown lies under no skipped directory, exactly when its path has no ".." among its
      directories.  `filepath.Dir` cleans the path, so that "target/.." disappears before it is looked at. */
  lemma ShownFileIsClean(path: string)
    requires !ShouldSkipFile(path)
    ensures (forall d | IsAncestor(d, path) :: !ShouldSkipDir(d)) <==> ".." !in DirSegments(path)
  {
    if '/' in path {
      DirSegmentsAre(path);
      var t := ThroughLastSlash(path);
      var parent := t[..|t| - 1];
      var segments := DirSegments(path);
      if ".." in segments {
        var k :| 0 <= k < |segments| && segments[k] == "..";
        assert BadSegment(segments[k]);
        assert IsAncestor(parent, path) && ShouldSkipDir(parent);
      } else {
        SkipOfClean(t);
        assert ".." !in segments + [""];
        CleanKeepsBad(t[0] == '/', segments + [""]);
        AnyBadConcat(segments, [""]);
        forall d | IsAncestor(d, path)
          ensures !ShouldSkipDir(d)
        {
          AncestorSegments(d, path);
        }
      }
    } else {
      SplitPlain(path, '/');
      forall d
        ensures !IsAncestor(d, path)
      {
        NoAncestor(d, path);
      }
    }
  }

  lemma NoAncestor(d: string, path: string)
    requires '/' !in path
    ensures !IsAncestor(d, path)
  {
    forall rest: string
      ensures path != d + "/" + rest
    {
      assert (d + "/" + rest)[|d|] == '/';
    }
  }

  lemma AncestorSegments(d: string, path: string)
    requires IsAncestor(d, path)
    ensures ShouldSkipDir(d) ==> AnyBad(DirSegments(path))
  {
    var rest: string :| path == d + "/" + rest;
    SplitConcat(d, rest, '/');
    var tail := Split(rest, '/');
    assert DirSegments(path) == Split(d, '/') + tail[..|tail| - 1];
    AnyBadConcat(Split(d, '/'), tail[..|tail| - 1]);
  }

  // ----- the filter, said outright

  /** A hidden segment, or a build directory. */
  predicate IsUnwelcome(segment: string) {
    || (|segment| > 0 && segment[0] == '.' && segment != ".")
    || segment in {"__pycache__", "node_modules", "target", "vendor", "dist", "build", ".git"}
  }

  predicate AnyUnwelcome(segments: seq<string>) {
    exists k :: 0 <= k < |segments| && IsUnwelcome(segments[k])
  }

  predicate EndsWith(s: string, suffix: string) {
    |suffix| <= |s| && s[|s| - |suffix|..] == suffix
  }

  function LastSegment(path: string): string {
    var parts := Split(path, '/');
    parts[|parts| - 1]
  }

  /** The path of a file as a listing writes it, without "..". */
  predicate IsRegular(path: string) {
    LastSegment(path) != "" && ".." !in DirSegments(path)
  }

  /** A hidden file, an object or bytecode file, or a file below a hidden or build directory. */
  predicate IsUnwelcomeFile(path: string) {
    var base := LastSegment(path);
    || (base != "" && base[0] == '.')
    || EndsWith(base, ".o") || EndsWith(base, ".a") || EndsWith(base, ".so")
    || EndsWith(base, ".pyc") || EndsWith(base, ".pyo") || EndsWith(base, ".class")
    || AnyUnwelcome(DirSegments(path))
  }

  /** A directory is skipped exactly for a segment that is hidden or the name of a build directory. */
  lemma SkipDirExactly(path: string)
    ensures ShouldSkipDir(path) <==> AnyUnwelcome(Split(path, '/'))
  {
    AnyBadIs(Split(path, '/'));
  }

  lemma AnyBadIs(segments: seq<string>)
    ensures AnyBad(segments) <==> AnyUnwelcome(segments)
  {
    forall k | 0 <= k < |segments|
      ensures BadSegment(segments[k]) <==> IsUnwelcome(segments[k])
    {
      BadIs(segments[k]);
    }
  }

  lemma BadIs(segment: string)
    ensures BadSegment(segment) <==> IsUnwelcome(segment)
  {
    assert HasPrefix(segment, ".") <==> |segment| > 0 && segment[0] == '.';
  }

  /** The extension of a name is `e` exactly if the name ends with it. */
  lemma {:induction false} ExtEnds(b: string, e: string)
    requires '/' !in b && |e| > 0 && e[0] == '.' && '.' !in e[1..]
    ensures Ext(b) == e <==> EndsWith(b, e)
    decreases |b|
  {
    if b != "" {
      var n, m := |b|, |e|;
      var front, last := b[..n - 1], b[n - 1];
      assert b == front + [last];
      if m == 1 {
        assert e == ".";
        assert EndsWith(b, e) <==> last == '.' by { assert b[n - 1..] == [last]; }
      } else {
        var short := e[..m - 1];
        assert e == short + [e[m - 1]] && short[1..] == e[1..][..m - 2];
        assert e[m - 1] == e[1..][m - 2];
        ExtEnds(front, short);
        if last == e[m - 1] && m <= n {
          assert b[n - m..] == front[n - m..] + [last];
          assert front[n - m..] == front[|front| - |short|..];
        }
      }
    }
  }

  lemma LastSegmentIs(path: string)
    ensures LastSegment(path) == path[|ThroughLastSlash(path)|..] && '/' !in LastSegment(path)
  {
    LastSlash(path);
    if '/' in path {
      var t := ThroughLastSlash(path);
      var rest := path[|t|..];
      assert path == t[..|t| - 1] + "/" + rest;
      SplitConcat(t[..|t| - 1], rest, '/');
      SplitPlain(rest, '/');
    } else {
      SplitPlain(path, '/');
    }
  }

  lemma BaseIs(path: string)
    requires LastSegment(path) != ""
    ensures Base(path) == LastSegment(path)
  {
    LastSegmentIs(path);
    assert path[|path| - 1] == LastSegment(path)[|LastSegment(path)| - 1];
    assert path[|path| - 1] != '/';
  }

  lemma DirIs(path: string)
    requires IsRegular(path)
    ensures ShouldSkipDir(Dir(path)) <==> AnyBad(DirSegments(path))
  {
    LastSlash(path);
    if '/' in path {
      DirSegmentsAre(path);
      var t, segments := ThroughLastSlash(path), DirSegments(path);
      SkipOfClean(t);
      assert ".." !in segments + [""];
      CleanKeepsBad(t[0] == '/', segments + [""]);
      AnyBadConcat(segments, [""]);
      NoneBad();
    } else {
      SplitPlain(path, '/');
      NoneBad();
    }
  }

  /** A file is skipped exactly for one of the three reasons. */
  lemma SkipFileExactly(path: string)
    requires IsRegular(path)
    ensures ShouldSkipFile(path) <==> IsUnwelcomeFile(path)
  {
    var base := LastSegment(path);
    BaseIs(path);
    LastSegmentIs(path);
    DirIs(path);
    AnyBadIs(DirSegments(path));
    forall e | e in {".o", ".a", ".so", ".pyc", ".pyo", ".class"}
      ensures Ext(base) == e <==> EndsWith(base, e)
    {
      ExtEnds(base, e);
    }
    assert HasPrefix(base, ".") <==> base[0] == '.';
  }

  lemma DotDotBase()
    ensures ThroughLastSlash("target/../f") == "target/../" && Base("target/../f") == "f" && Ext("f") == ""
  {
    hide Split, CleanElements;
    var path := "target/../f";
    assert path[..10] == "target/../";
    assert ThroughLastSlash(path) == ThroughLastSlash(path[..10]);
    assert TrimSlashes(path) == path && path[10..] == "f";
    assert "f"[..0] == "";
  }

  lemma DotDotSplit()
    ensures Split("target/../", '/') == ["target", "..", ""]
  {
    hide Split;
    assert "target/../" == "target" + "/" + "../" && "../" == ".." + "/" + "";
    SplitConcat("target", "../", '/');
    SplitConcat("..", "", '/');
    SplitPlain("target", '/');
    SplitPlain("..", '/');
    SplitPlain("", '/');
    assert ["target"] + ([".."] + [""]) == ["target", "..", ""];
  }

  lemma DotDotClean()
    ensures CleanElements(false, ["target", "..", ""]) == []
  {
    var e := ["target", "..", ""];
    assert e[..2] == ["target", ".."] && e[..2][..1] == ["target"] && ["target"][..0] == [];
    assert CleanElements(false, ["target"]) == ["target"];
    assert CleanElements(false, e[..2]) == [];
  }

  /** The exception is real: nothing hides this file, yet it lies under "target". */
  lemma DotDotEscapes()
    ensures !ShouldSkipFile("target/../f") && IsAncestor("target", "target/../f") && ShouldSkipDir("target")
  {
    hide Split, CleanElements, Base, Ext, ThroughLastSlash, Clean;
    DotDotBase();
    DotDotSplit();
    DotDotClean();
    SkipOfClean("target/../");
    SplitPlain("target", '/');
    assert BadSegment(Split("target", '/')[0]);
    assert "target/../f" == "target" + "/" + "../f";
    assert "f"[0] != '.';
    assert !HasPrefix("f", ".");
    assert !ShouldSkipDir(Dir("target/../f"));
    assert IsAncestor("target", "target/../f");
    assert ShouldSkipDir("target");
  }

  // ----- reading a container's files

  datatype File = File(name: string, content: string)

  /** The path that a line of a listing gives, and the name under which the user sees it. */
  function PathOf(lines: seq<string>, i: nat): string
    requires i < |lines|
  {
    TrimSpace(lines[i])
  }

  function NameOf(path: string): string {
    if |path| >= 6 && path[..6] == "/code/" then path[6..] else path
  }

  lemma TrimCode(path: string)
    ensures TrimPrefix(path, "/code/") == NameOf(path)
  {
  }

  predicate Increasing(at: seq<nat>, bound: nat) {
    (forall k | 0 <= k < |at| :: at[k] < bound) && forall k, l | 0 <= k < l < |at| :: at[k] < at[l]
  }

  /** The line names a file that can be read. */
  predicate IsReadable(lines: seq<string>, i: nat, contents: map<string, string>)
    requires i < |lines|
  {
    PathOf(lines, i) != "" && PathOf(lines, i) in contents
  }

  /** The line names a folder below /code. */
  predicate IsFolder(lines: seq<string>, i: nat)
    requires i < |lines|
  {
    PathOf(lines, i) != "" && PathOf(lines, i) != "/code" && PathOf(lines, i) != "/code/"
  }

  /** Of the first `n` lines, those at `at` and no others are shown as `files`, in order. */
  ghost predicate FilesAre(lines: seq<string>, n: nat, contents: map<string, string>, files: seq<File>, at: seq<nat>)
    requires n <= |lines|
  {
    && |at| == |files| && Increasing(at, n)
    && (forall k | 0 <= k < |at| ::
          var path := PathOf(lines, at[k]);
          IsReadable(lines, at[k], contents) && files[k] == File(NameOf(path), contents[path]))
    && (forall i | 0 <= i < n ::
          i in at <==> IsReadable(lines, i, contents) && !ShouldSkipFile(NameOf(PathOf(lines, i))))
  }

  ghost predicate FoldersAre(lines: seq<string>, n: nat, folders: seq<string>, at: seq<nat>)
    requires n <= |lines|
  {
    && |at| == |folders| && Increasing(at, n)
    && (forall k | 0 <= k < |at| :: folders[k] == NameOf(PathOf(lines, at[k])))
    && (forall i | 0 <= i < n :: i in at <==> IsFolder(lines, i) && !ShouldSkipDir(NameOf(PathOf(lines, i))))
  }

  /** A line that is shown, and one that is not. */
  lemma FileStep(lines: seq<string>, n: nat, contents: map<string, string>, files: seq<File>, at: seq<nat>)
    returns (at': seq<nat>)
    requires n < |lines| && FilesAre(lines, n, contents, files, at)
    ensures var path := PathOf(lines, n);
            if IsReadable(lines, n, contents) && !ShouldSkipFile(NameOf(path))
            then FilesAre(lines, n + 1, contents, files + [File(NameOf(path), contents[path])], at')
            else FilesAre(lines, n + 1, contents, files, at')
  {
    hide ShouldSkipFile, PathOf, NameOf;
    at' := if IsReadable(lines, n, contents) && !ShouldSkipFile(NameOf(PathOf(lines, n))) then at + [n] else at;
    forall i | 0 <= i < n + 1
      ensures i in at' <==> i in at || (i == n && |at'| > |at|)
    {
    }
  }

  lemma FolderStep(lines: seq<string>, n: nat, folders: seq<string>, at: seq<nat>) returns (at': seq<nat>)
    requires n < |lines| && FoldersAre(lines, n, folders, at)
    ensures var path := PathOf(lines, n);
            if IsFolder(lines, n) && !ShouldSkipDir(NameOf(path))
            then FoldersAre(lines, n + 1, folders + [NameOf(path)], at')
            else FoldersAre(lines, n + 1, folders, at')
  {
    hide ShouldSkipDir, PathOf, NameOf;
    at' := if IsFolder(lines, n) && !ShouldSkipDir(NameOf(PathOf(lines, n))) then at + [n] else at;
    forall i | 0 <= i < n + 1
      ensures i in at' <==> i in at || (i == n && |at'| > |at|)
    {
    }
  }

  /** `ReadFilesFromContainer`, from the two listings on.  It returns, in order and once a line, each listed
      file that can be read and is not unwelcome, with its content and without "/code/", and each listed
      folder that is not; and nothing it returns lies under a skipped directory.  `fileLines` and
      `folderLines` are the lines they come from. */
  method ReadFiles(listOutput: string, dirOutput: string, contents: map<string, string>)
    returns (files: seq<File>, folders: seq<string>, ghost fileLines: seq<nat>, ghost folderLines: seq<nat>)
    ensures var lines := Split(TrimSpace(listOutput), '\n');
            && |fileLines| == |files| && Increasing(fileLines, |lines|)
            && (forall k | 0 <= k < |files| ::
                  var path := PathOf(lines, fileLines[k]);
                  path != "" && path in contents && files[k] == File(NameOf(path), contents[path]))
            && (forall i | 0 <= i < |lines| && PathOf(lines, i) != "" && PathOf(lines, i) in contents ::
                  var name := NameOf(PathOf(lines, i));
                  && (i in fileLines <==> !ShouldSkipFile(name))
                  && (IsRegular(name) ==> (i in fileLines <==> !IsUnwelcomeFile(name))))
    ensures dirOutput == "" ==> folders == []
    ensures var lines := Split(TrimSpace(dirOutput), '\n');
            && |folderLines| == |folders| && Increasing(folderLines, |lines|)
            && (forall k | 0 <= k < |folders| :: folders[k] == NameOf(PathOf(lines, folderLines[k])))
            && (forall i | 0 <= i < |lines| && dirOutput != "" ::
                  i in folderLines <==>
                  && PathOf(lines, i) != "" && PathOf(lines, i) != "/code" && PathOf(lines, i) != "/code/"
                  && !AnyUnwelcome(Split(NameOf(PathOf(lines, i)), '/')))
    ensures forall f, d | f in files && ".." !in DirSegments(f.name) && IsAncestor(d, f.name) :: !ShouldSkipDir(d)
    ensures forall name, d | name in folders && (d == name || IsAncestor(d, name)) :: !ShouldSkipDir(d)
  {
    hide TrimSpace, Split, ShouldSkipFile, ShouldSkipDir, IsUnwelcomeFile, IsRegular, AnyUnwelcome, PathOf;
    files, fileLines := [], [];
    var lines := Split(TrimSpace(listOutput), '\n');
    for i := 0 to |lines|
      invariant FilesAre(lines, i, contents, files, fileLines)
      invariant forall f | f in files :: !ShouldSkipFile(f.name)
    {
      PathIs(lines, i);
      fileLines := FileStep(lines, i, contents, files, fileLines);
      var line := TrimSpace(lines[i]);
      if line == "" {
        continue;
      }
      TrimCode(line);
      var relPath := TrimPrefix(line, "/code/");
      if ShouldSkipFile(relPath) {
        continue;
      }
      if line !in contents {
        continue;
      }
      files := files + [File(relPath, contents[line])];
    }
    folders, folderLines := [], [];
    var dirLines := Split(TrimSpace(dirOutput), '\n');
    if dirOutput != "" {
      for i := 0 to |dirLines|
        invariant FoldersAre(dirLines, i, folders, folderLines)
        invariant forall name | name in folders :: !ShouldSkipDir(name)
      {
        PathIs(dirLines, i);
        folderLines := FolderStep(dirLines, i, folders, folderLines);
        var line := TrimSpace(dirLines[i]);
        if line == "" || line == "/code" {
          continue;
        }
        TrimCode(line);
        var relPath := TrimPrefix(line, "/code/");
        if relPath == "" || ShouldSkipDir(relPath) {
          continue;
        }
        folders := folders + [relPath];
      }
    }
    forall name | IsRegular(name)
      ensures ShouldSkipFile(name) <==> IsUnwelcomeFile(name)
    {
      SkipFileExactly(name);
    }
    forall name
      ensures ShouldSkipDir(name) <==> AnyUnwelcome(Split(name, '/'))
    {
      SkipDirExactly(name);
    }
    forall f | f in files
      ensures ".." !in DirSegments(f.name) ==> forall d | IsAncestor(d, f.name) :: !ShouldSkipDir(d)
    {
      ShownFileIsClean(f.name);
    }
    forall name, d | name in folders && IsAncestor(d, name)
      ensures !ShouldSkipDir(d)
    {
      ShownFolderIsClean(name, d);
    }
  }

  lemma PathIs(lines: seq<string>, i: nat)
    requires i < |lines|
    ensures PathOf(lines, i) == TrimSpace(lines[i])
  {
  }
}
