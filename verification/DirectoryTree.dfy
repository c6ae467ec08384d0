// The published tree: files and directories rows, guarded by UNIQUE constraints
// and SQL triggers that compare paths with LIKE.
module DirectoryTree {
  import opened Wrappers
  import opened PathPolicy

  type RowId = nat

  datatype Entry = Entry(root: int, path: string)

  datatype Tree = Tree(files: map<RowId, Entry>, dirs: map<RowId, Entry>)

  // --- SQLite's LIKE ---

  function FoldCase(c: char): char {
    if 'A' <= c <= 'Z' then (c as int + 32) as char else c
  }

  // '%' stands for any characters, '_' for one; ASCII letters match in any case.
  predicate Like(pattern: string, text: string)
    decreases |pattern| + |text|
  {
    if pattern == "" then text == ""
    else if pattern[0] == '%' then
      Like(pattern[1..], text) || (text != "" && Like(pattern, text[1..]))
    else
      text != "" && (pattern[0] == '_' || FoldCase(pattern[0]) == FoldCase(text[0])) && Like(pattern[1..], text[1..])
  }

  // Any text, wildcard characters included, matches itself as a pattern.
  lemma {:induction false} LikePrefix(p: string, pattern: string, text: string)
    requires Like(pattern, text)
    ensures Like(p + pattern, p + text)
    decreases |p|
  {
    if p == "" {
      assert p + pattern == pattern && p + text == text;
    } else {
      LikePrefix(p[1..], pattern, text);
      assert (p + pattern)[1..] == p[1..] + pattern && (p + text)[1..] == p[1..] + text;
      if p[0] == '%' {
        assert Like((p + pattern)[1..], (p + text)[1..]);
        assert Like(p + pattern, (p + text)[1..]);
      }
    }
  }

  lemma {:induction false} LikeAnything(text: string)
    ensures Like("%", text)
  {
    assert "%"[1..] == "";
    if text != "" {
      LikeAnything(text[1..]);
    }
  }

  // The three kinds of pattern characters, which determine LIKE.
  lemma {:induction false} PercentMeans(pattern: string, text: string)
    ensures Like("%" + pattern, text) <==> exists i :: 0 <= i <= |text| && Like(pattern, text[i..])
    decreases |text|
  {
    assert ("%" + pattern)[1..] == pattern && text[0..] == text;
    if text != "" {
      PercentMeans(pattern, text[1..]);
      if Like("%" + pattern, text[1..]) {
        var i :| 0 <= i <= |text[1..]| && Like(pattern, text[1..][i..]);
        assert text[1..][i..] == text[i + 1..];
      }
      if i :| 0 <= i <= |text| && Like(pattern, text[i..]) {
        assert i > 0 ==> text[i..] == text[1..][i - 1..];
      }
    }
  }

  lemma OneCharMeans(c: char, pattern: string, text: string)
    requires c != '%'
    ensures Like([c] + pattern, text) <==>
              text != "" && Like(pattern, text[1..]) && (c == '_' || FoldCase(c) == FoldCase(text[0]))
  {
    assert ([c] + pattern)[1..] == pattern;
  }

  // Two characters are the same to LIKE if they are equal or the two cases of
  // one ASCII letter.
  lemma SameToLike(c: char, d: char)
    ensures FoldCase(c) == FoldCase(d) <==>
              || c == d || ('A' <= c <= 'Z' && d as int == c as int + 32) || ('A' <= d <= 'Z' && c as int == d as int + 32)
  {
  }

  function Below(directory: string): string {
    directory + "/%"
  }

  predicate LikeBelow(path: string, directory: string) {
    Like(Below(directory), path)
  }

  // The trigger's LIKE never misses a real descendant.
  lemma LiteralIsLike(path: string, directory: string)
    requires LiterallyBelow(path, directory)
    ensures LikeBelow(path, directory)
  {
    var rest := path[|directory| + 1..];
    LikeAnything(rest);
    assert ("/" + "%")[1..] == "%" && ("/" + rest)[1..] == rest;
    assert Like("/" + "%", "/" + rest);
    LikePrefix(directory, "/" + "%", "/" + rest);
    assert (directory + "/") + rest == path && directory + ("/" + rest) == path && directory + ("/" + "%") == Below(directory);
  }

  function Fold(s: string): (r: string)
    ensures |r| == |s| && forall i :: 0 <= i < |s| ==> r[i] == FoldCase(s[i])
  {
    if s == "" then "" else [FoldCase(s[0])] + Fold(s[1..])
  }

  // A path in which LIKE sees no wildcard.
  predicate WithoutWildcards(p: string) {
    '%' !in p && '_' !in p
  }

  lemma {:induction false} PlainPrefix(p: string, pattern: string, text: string)
    requires WithoutWildcards(p)
    ensures Like(p + pattern, text) <==> |p| <= |text| && Fold(text[..|p|]) == Fold(p) && Like(pattern, text[|p|..])
    decreases |p|
  {
    if p == "" {
      assert p + pattern == pattern && text[..0] == "" && text[0..] == text;
    } else {
      assert (p + pattern)[1..] == p[1..] + pattern && (p + pattern)[0] == p[0];
      assert p[0] in p;
      if text != "" {
        PlainPrefix(p[1..], pattern, text[1..]);
        if |p| <= |text| {
          assert text[..|p|] == [text[0]] + text[1..][..|p| - 1] && text[|p|..] == text[1..][|p| - 1..];
          FoldOne(text[0], text[1..][..|p| - 1]);
          FoldOne(p[0], p[1..]);
          assert p == [p[0]] + p[1..];
        }
      }
    }
  }

  lemma FoldOne(c: char, s: string)
    ensures Fold([c] + s) == [FoldCase(c)] + Fold(s)
  {
    assert ([c] + s)[1..] == s;
  }

  // Above a path without wildcards LIKE finds exactly the literal descendants,
  // up to the case of ASCII letters.
  lemma PlainLikeIsLiteral(path: string, directory: string)
    requires WithoutWildcards(directory)
    ensures LikeBelow(path, directory) <==> LiterallyBelow(Fold(path), Fold(directory))
  {
    var p := directory + "/";
    assert p + "%" == Below(directory);
    PlainPrefix(p, "%", path);
    assert Fold(p) == Fold(directory) + "/";
    if |p| <= |path| {
      LikeAnything(path[|p|..]);
      assert Fold(path[..|p|]) == Fold(path)[..|p|];
    }
  }

  function Slashes(s: string): nat {
    if s == "" then 0 else (if s[0] == '/' then 1 else 0) + Slashes(s[1..])
  }

  lemma {:induction false} SlashesAppend(s: string, t: string)
    ensures Slashes(s + t) == Slashes(s) + Slashes(t)
  {
    if s == "" {
      assert s + t == t;
    } else {
      assert (s + t)[1..] == s[1..] + t;
      SlashesAppend(s[1..], t);
    }
  }

  // Each slash of a pattern takes a slash of its own.
  lemma {:induction false} LikeNeedsSlashes(pattern: string, text: string)
    requires Like(pattern, text)
    ensures Slashes(pattern) <= Slashes(text)
    decreases |pattern| + |text|
  {
    if pattern != "" {
      if pattern[0] == '%' {
        if Like(pattern[1..], text) {
          LikeNeedsSlashes(pattern[1..], text);
        } else {
          LikeNeedsSlashes(pattern, text[1..]);
        }
      } else {
        LikeNeedsSlashes(pattern[1..], text[1..]);
      }
    }
  }

  lemma BelowIsDeeper(path: string, directory: string)
    requires LikeBelow(path, directory)
    ensures Slashes(directory) < Slashes(path)
  {
    LikeNeedsSlashes(Below(directory), path);
    SlashesAppend(directory, "/%");
    assert "/%"[1..] == "%" && "%"[1..] == "";
    assert Slashes("/%") == 1;
  }

  // --- the statements ---

  predicate Has(m: map<RowId, Entry>, e: Entry) {
    exists id <- m.Keys :: m[id] == e
  }

  predicate HasBelow(m: map<RowId, Entry>, e: Entry) {
    exists id <- m.Keys :: m[id].root == e.root && LikeBelow(m[id].path, e.path)
  }

  predicate HasAbove(m: map<RowId, Entry>, e: Entry) {
    exists id <- m.Keys :: m[id].root == e.root && LikeBelow(e.path, m[id].path)
  }

  // instr(substr(path, 2), '/') > 0.
  predicate Nested(path: string) {
    |path| > 0 && '/' in path[1..]
  }

  function InsertFile(t: Tree, id: RowId, e: Entry): Option<Tree> {
    if id !in t.files && !Has(t.files, e) && !Has(t.dirs, e) then Some(t.(files := t.files[id := e])) else None
  }

  function InsertDirectory(t: Tree, id: RowId, e: Entry): Option<Tree> {
    if id !in t.dirs && !Has(t.dirs, e) && !Has(t.files, e) && (Nested(e.path) ==> HasAbove(t.dirs, e)) then
      Some(t.(dirs := t.dirs[id := e]))
    else None
  }

  function DeleteFile(t: Tree, id: RowId): Option<Tree> {
    if id in t.files then Some(t.(files := t.files - {id})) else None
  }

  function DeleteDirectory(t: Tree, id: RowId): Option<Tree> {
    if id in t.dirs && !HasBelow(t.files, t.dirs[id]) && !HasBelow(t.dirs, t.dirs[id]) then
      Some(t.(dirs := t.dirs - {id}))
    else None
  }

  // RenameFile is an UPDATE: no trigger looks at it.
  function RenameFile(t: Tree, id: RowId, path: string): Option<Tree> {
    if id in t.files && !Has(t.files - {id}, Entry(t.files[id].root, path)) then
      Some(t.(files := t.files[id := Entry(t.files[id].root, path)]))
    else None
  }

  datatype Event =
    | AddFile(id: RowId, entry: Entry)
    | AddDirectory(id: RowId, entry: Entry)
    | DropFile(id: RowId)
    | DropDirectory(id: RowId)

  function Next(t: Tree, e: Event): Option<Tree> {
    match e
    case AddFile(id, entry) => InsertFile(t, id, entry)
    case AddDirectory(id, entry) => InsertDirectory(t, id, entry)
    case DropFile(id) => DeleteFile(t, id)
    case DropDirectory(id) => DeleteDirectory(t, id)
  }

  ghost predicate Run(t: Tree, evs: seq<Event>, t': Tree)
    decreases |evs|
  {
    if evs == [] then t' == t
    else
      var mid := Next(t, evs[0]);
      mid.Some? && Run(mid.value, evs[1..], t')
  }

  // --- what any interleaving of statements keeps ---

  // No path is a file and a directory; no path is listed twice.
  ghost predicate OneKind(t: Tree) {
    && (forall f <- t.files.Keys, d <- t.dirs.Keys :: t.files[f] != t.dirs[d])
    && (forall f <- t.files.Keys, g <- t.files.Keys :: f != g ==> t.files[f] != t.files[g])
    && (forall d <- t.dirs.Keys, e <- t.dirs.Keys :: d != e ==> t.dirs[d] != t.dirs[e])
  }

  // Every nested directory is LIKE-below some directory row.
  ghost predicate Anchored(t: Tree) {
    forall d <- t.dirs.Keys :: Nested(t.dirs[d].path) ==> HasAbove(t.dirs, t.dirs[d])
  }

  lemma StepKeeps(t: Tree, e: Event)
    requires OneKind(t) && Anchored(t) && Next(t, e).Some?
    ensures OneKind(Next(t, e).value) && Anchored(Next(t, e).value)
  {
    var t' := Next(t, e).value;
    forall d <- t'.dirs.Keys | Nested(t'.dirs[d].path) ensures HasAbove(t'.dirs, t'.dirs[d]) {
      if d in t.dirs && t.dirs[d] == t'.dirs[d] {
        var above :| above in t.dirs && t.dirs[above].root == t.dirs[d].root && LikeBelow(t.dirs[d].path, t.dirs[above].path);
        assert above in t'.dirs && t'.dirs[above] == t.dirs[above];
      } else {
        var above :| above in t.dirs && t.dirs[above].root == t'.dirs[d].root && LikeBelow(t'.dirs[d].path, t.dirs[above].path);
        assert above in t'.dirs && t'.dirs[above] == t.dirs[above];
      }
    }
  }

  lemma {:induction false} RunKeeps(t: Tree, evs: seq<Event>, t': Tree)
    requires OneKind(t) && Anchored(t) && Run(t, evs, t')
    ensures OneKind(t') && Anchored(t')
    decreases |evs|
  {
    if evs != [] {
      StepKeeps(t, evs[0]);
      RunKeeps(Next(t, evs[0]).value, evs[1..], t');
    }
  }

  lemma TreeInvariant(evs: seq<Event>, t: Tree)
    requires Run(Tree(map[], map[]), evs, t)
    ensures OneKind(t) && Anchored(t)
  {
    RunKeeps(Tree(map[], map[]), evs, t);
  }

  // A directory with a real descendant, of either kind, cannot be deleted.
  lemma NonEmptyIsSafe(t: Tree, id: RowId, child: Entry)
    requires id in t.dirs && (Has(t.files, child) || Has(t.dirs, child))
    requires child.root == t.dirs[id].root && LiterallyBelow(child.path, t.dirs[id].path)
    ensures DeleteDirectory(t, id).None?
  {
    LiteralIsLike(child.path, t.dirs[id].path);
  }

  // DirectoryEmpty: the handler's literal test.
  predicate LooksEmpty(t: Tree, e: Entry) {
    && (forall f <- t.files.Keys :: t.files[f].root == e.root ==> !LiterallyBelow(t.files[f].path, e.path))
    && (forall d <- t.dirs.Keys :: t.dirs[d].root == e.root ==> !LiterallyBelow(t.dirs[d].path, e.path))
  }

  // A row the trigger takes for a descendant although it is none.
  predicate FalseDescendant(m: map<RowId, Entry>, e: Entry) {
    exists id <- m.Keys :: m[id].root == e.root && LikeBelow(m[id].path, e.path) && !LiterallyBelow(m[id].path, e.path)
  }

  // A directory that looks empty to the handler can be deleted exactly when no
  // other row is a false descendant of it.
  lemma EmptyIsDeletable(t: Tree, id: RowId)
    requires id in t.dirs && LooksEmpty(t, t.dirs[id])
    ensures DeleteDirectory(t, id).Some? <==>
              !FalseDescendant(t.files, t.dirs[id]) && !FalseDescendant(t.dirs - {id}, t.dirs[id])
  {
    var e := t.dirs[id];
    if LikeBelow(e.path, e.path) {
      BelowIsDeeper(e.path, e.path);
    }
    if HasBelow(t.dirs, e) {
      var d :| d in t.dirs && t.dirs[d].root == e.root && LikeBelow(t.dirs[d].path, e.path);
      assert d in t.dirs - {id} && (t.dirs - {id})[d] == t.dirs[d];
    }
  }

  // For a directory whose path has no wildcard the condition is on the other
  // paths of its root alone: none lies below it, whatever the letters' case.
  lemma PlainIsDeletable(t: Tree, id: RowId)
    requires id in t.dirs && WithoutWildcards(t.dirs[id].path)
    ensures DeleteDirectory(t, id).Some? <==>
              var e := t.dirs[id];
              && (forall f <- t.files.Keys :: t.files[f].root == e.root ==> !LiterallyBelow(Fold(t.files[f].path), Fold(e.path)))
              && (forall d <- t.dirs.Keys :: t.dirs[d].root == e.root ==> !LiterallyBelow(Fold(t.dirs[d].path), Fold(e.path)))
  {
    var e := t.dirs[id];
    forall path ensures LikeBelow(path, e.path) <==> LiterallyBelow(Fold(path), Fold(e.path)) {
      PlainLikeIsLiteral(path, e.path);
    }
    if HasBelow(t.files, e) {
      var f :| f in t.files && t.files[f].root == e.root && LikeBelow(t.files[f].path, e.path);
    }
    if HasBelow(t.dirs, e) {
      var d :| d in t.dirs && t.dirs[d].root == e.root && LikeBelow(t.dirs[d].path, e.path);
    }
  }

  lemma UnderscoreMatches()
    ensures LikeBelow("/axb/c", "/a_b") && !LiterallyBelow("/axb/c", "/a_b") && LiterallyBelow("/axb/c", "/axb")
  {
    LikeAnything("c");
    assert "/%"[1..] == "%" && "/c"[1..] == "c";
    LikePrefix("b", "/%", "/c");
    assert "b" + "/%" == "b/%" && "b" + "/c" == "b/c";
    assert "_b/%"[1..] == "b/%" && "xb/c"[1..] == "b/c";
    assert Like("_b/%", "xb/c");
    LikePrefix("/a", "_b/%", "xb/c");
    assert "/a" + "_b/%" == Below("/a_b") && "/a" + "xb/c" == "/axb/c";
    assert "/a_b" + "/" == "/a_b/" && "/axb" + "/" == "/axb/" && "/axb/c"[..5] == "/axb/";
    assert "/axb/"[2] == 'x' && "/a_b/"[2] == '_';
  }

  // Such rows exist: '_' in a name makes an empty directory undeletable.
  lemma UnderscoreBlocksDeletion()
    ensures var t := Tree(map[], map[0 := Entry(1, "/a_b"), 1 := Entry(1, "/axb"), 2 := Entry(1, "/axb/c")]);
            LooksEmpty(t, t.dirs[0]) && DeleteDirectory(t, 0).None?
  {
    var t := Tree(map[], map[0 := Entry(1, "/a_b"), 1 := Entry(1, "/axb"), 2 := Entry(1, "/axb/c")]);
    UnderscoreMatches();
    assert t.dirs[0] == Entry(1, "/a_b") && t.dirs[2] == Entry(1, "/axb/c");
    assert HasBelow(t.dirs, t.dirs[0]);
  }

  // --- immediate parents ---

  // path.Dir of a canonical path.
  function Dir(path: string): string {
    var i := LastSlash(path);
    if i == 0 then "/" else path[..i]
  }

  function LastSlash(path: string): (i: nat)
    ensures i <= |path| && (i > 0 ==> i < |path| && path[i] == '/')
  {
    if path == "" then 0
    else if path[|path| - 1] == '/' then |path| - 1
    else LastSlash(path[..|path| - 1])
  }

  lemma {:induction false} LastSlashOf(a: string, b: string)
    requires '/' !in b
    ensures LastSlash(a + "/" + b) == |a|
    decreases |b|
  {
    var text := a + "/" + b;
    if b == "" {
      assert text == a + "/";
    } else {
      assert text[|text| - 1] == b[|b| - 1] && b[|b| - 1] in b;
      assert text[..|text| - 1] == a + "/" + b[..|b| - 1];
      LastSlashOf(a, b[..|b| - 1]);
    }
  }

  // path.Dir takes away the last segment of a rooted path.
  lemma DirDropsLast(p: string)
    requires Rooted(p) && p != "/"
    ensures Rooted(Dir(p)) && Segments(Dir(p)) == Segments(p)[..|Segments(p)| - 1]
  {
    RootedJoin(p);
    SplitIsSlashFree(p[1..]);
    var all := Segments(p);
    var init, last := all[..|all| - 1], all[|all| - 1];
    assert last in all && all == init + [last];
    if init == [] {
      DirOfTop(last);
    } else {
      JoinAppend(init, [last]);
      assert forall seg <- init :: seg in all;
      DirOf(init, last);
      Slashed(Join(init), last);
    }
  }

  lemma DirOfTop(last: string)
    requires '/' !in last
    ensures Join([last]) == last && Dir("/" + last) == "/"
  {
    LastSlashOf("", last);
    assert "" + "/" + last == "/" + last;
  }

  lemma Slashed(a: string, b: string)
    ensures "/" + (a + "/" + b) == "/" + a + "/" + b
  {
  }

  lemma DirOf(init: seq<string>, last: string)
    requires init != [] && SlashFree(init) && '/' !in last && forall seg <- init :: seg != ""
    ensures var dir := "/" + Join(init); Rooted(dir) && Segments(dir) == init && Dir(dir + "/" + last) == dir
  {
    var dir := "/" + Join(init);
    SplitJoin(init);
    assert dir[1..] == Join(init);
    assert init[0] in init;
    LastSlashOf(dir, last);
    assert (dir + "/" + last)[..|dir|] == dir;
  }

  // What asks for a parent is what has one besides the root.
  lemma NestedHasTwoSegments(p: string)
    requires Rooted(p)
    ensures Nested(p) <==> |Segments(p)| >= 2
    ensures p != "/" ==> (Nested(p) <==> Dir(p) != "/")
  {
    if p != "/" {
      OneSegment(p[1..]);
      DirDropsLast(p);
    }
  }

  predicate HasParent(t: Tree, e: Entry) {
    Dir(e.path) == "/" || Has(t.dirs, Entry(e.root, Dir(e.path)))
  }

  ghost predicate ParentsExist(t: Tree) {
    forall d <- t.dirs.Keys :: HasParent(t, t.dirs[d])
  }

  lemma ChildIsBelow(path: string)
    requires Dir(path) != "/"
    ensures LiterallyBelow(path, Dir(path))
  {
  }

  // The createDirectory handler run as one step: the preflight checks, then the insert.
  function CreateDirectoryWhole(t: Tree, id: RowId, e: Entry): Option<Tree> {
    if e.path != "/" && HasParent(t, e) && !Has(t.files, e) then InsertDirectory(t, id, e) else None
  }

  // The insert alone keeps every immediate parent in place exactly when the new
  // directory's own parent is there at that moment.
  lemma InsertKeepsParents(t: Tree, id: RowId, e: Entry)
    requires ParentsExist(t) && InsertDirectory(t, id, e).Some? && e.path != "/"
    ensures ParentsExist(InsertDirectory(t, id, e).value) <==> HasParent(t, e)
  {
    var t' := InsertDirectory(t, id, e).value;
    forall d <- t.dirs.Keys ensures HasParent(t', t.dirs[d]) {
      assert HasParent(t, t.dirs[d]);
      if Dir(t.dirs[d].path) != "/" {
        var p :| p in t.dirs && t.dirs[p] == Entry(t.dirs[d].root, Dir(t.dirs[d].path));
        assert p in t'.dirs && t'.dirs[p] == t.dirs[p];
      }
    }
    if HasParent(t, e) && Dir(e.path) != "/" {
      var p :| p in t.dirs && t.dirs[p] == Entry(e.root, Dir(e.path));
      assert p in t'.dirs && t'.dirs[p] == t.dirs[p];
    }
    if ParentsExist(t') {
      assert HasParent(t', t'.dirs[id]);
      if Dir(e.path) != "/" {
        var p :| p in t'.dirs && t'.dirs[p] == Entry(e.root, Dir(e.path));
        assert p in t.dirs;
      }
    }
  }

  lemma DeleteKeepsParents(t: Tree, id: RowId)
    requires ParentsExist(t) && DeleteDirectory(t, id).Some?
    ensures ParentsExist(DeleteDirectory(t, id).value)
  {
    var t' := DeleteDirectory(t, id).value;
    forall d <- t'.dirs.Keys ensures HasParent(t', t'.dirs[d]) {
      assert HasParent(t, t.dirs[d]);
      var e := t.dirs[d];
      if Dir(e.path) != "/" {
        var p :| p in t.dirs && t.dirs[p] == Entry(e.root, Dir(e.path));
        ChildIsBelow(e.path);
        LiteralIsLike(e.path, Dir(e.path));
        assert p != id;
        assert p in t'.dirs && t'.dirs[p] == t.dirs[p];
      }
    }
  }

  datatype Request =
    | PutFile(id: RowId, entry: Entry)
    | CreateDirectory(id: RowId, entry: Entry)
    | RemoveFile(id: RowId)
    | RemoveDirectory(id: RowId)

  // Whole requests, one after the other.
  function Handle(t: Tree, r: Request): Option<Tree> {
    match r
    case PutFile(id, e) => InsertFile(t, id, e)
    case CreateDirectory(id, e) => CreateDirectoryWhole(t, id, e)
    case RemoveFile(id) => DeleteFile(t, id)
    case RemoveDirectory(id) => if id in t.dirs && LooksEmpty(t, t.dirs[id]) then DeleteDirectory(t, id) else None
  }

  ghost predicate Serve(t: Tree, rs: seq<Request>, t': Tree)
    decreases |rs|
  {
    if rs == [] then t' == t
    else
      var mid := Handle(t, rs[0]);
      mid.Some? && Serve(mid.value, rs[1..], t')
  }

  lemma {:induction false} WholeRequestsKeepParents(t: Tree, rs: seq<Request>, t': Tree)
    requires ParentsExist(t) && Serve(t, rs, t')
    ensures ParentsExist(t')
    decreases |rs|
  {
    if rs != [] {
      var mid := Handle(t, rs[0]).value;
      match rs[0] {
        case CreateDirectory(id, e) => InsertKeepsParents(t, id, e);
        case RemoveDirectory(id) => DeleteKeepsParents(t, id);
        case _ => assert forall d <- mid.dirs.Keys :: HasParent(t, t.dirs[d]) ==> HasParent(mid, mid.dirs[d]);
      }
      WholeRequestsKeepParents(mid, rs[1..], t');
    }
  }

  // Without that atomicity it fails: between another request's parent check and
  // its insert, /a/b may go, because /a still lies LIKE-above /a/b/c.
  lemma ParentCheckRaces()
    ensures var t := Tree(map[], map[0 := Entry(1, "/a"), 1 := Entry(1, "/a/b")]);
            var e := Entry(1, "/a/b/c");
            && ParentsExist(t) && HasParent(t, e)
            && DeleteDirectory(t, 1).Some?
            && InsertDirectory(DeleteDirectory(t, 1).value, 2, e).Some?
            && !ParentsExist(InsertDirectory(DeleteDirectory(t, 1).value, 2, e).value)
  {
    var t := Tree(map[], map[0 := Entry(1, "/a"), 1 := Entry(1, "/a/b")]);
    var e := Entry(1, "/a/b/c");
    Paths();
    assert t.dirs[0] == Entry(1, Dir("/a/b"));
    assert t.dirs[1] == Entry(1, Dir("/a/b/c"));
    forall d <- t.dirs.Keys ensures HasParent(t, t.dirs[d]) {}
    if LikeBelow("/a", "/a/b") { BelowIsDeeper("/a", "/a/b"); }
    if LikeBelow("/a/b", "/a/b") { BelowIsDeeper("/a/b", "/a/b"); }
    var t1 := DeleteDirectory(t, 1).value;
    LiteralIsLike("/a/b/c", "/a");
    assert t1.dirs[0] == Entry(1, "/a");
    assert HasAbove(t1.dirs, e);
    var t2 := InsertDirectory(t1, 2, e).value;
    assert t2.dirs == map[0 := Entry(1, "/a"), 2 := e];
    assert !HasParent(t2, t2.dirs[2]);
  }

  lemma Paths()
    ensures Dir("/a") == "/" && Dir("/a/b") == "/a" && Dir("/a/b/c") == "/a/b"
    ensures Slashes("/a") == 1 && Slashes("/a/b") == 2
    ensures LiterallyBelow("/a/b/c", "/a")
  {
    assert "/a/b/c"[..5] == "/a/b/" && "/a/b"[..3] == "/a/" && "/a"[..1] == "/" && "/"[..0] == "";
    assert LastSlash("/a/b/") == 4 && LastSlash("/a/") == 2 && LastSlash("/") == 0;
    assert "/a/b/c"[..4] == "/a/b" && "/a/b"[..2] == "/a";
    assert "/a/b"[1..] == "a/b" && "a/b"[1..] == "/b" && "/b"[1..] == "b" && "b"[1..] == "" && "/a"[1..] == "a" && "a"[1..] == "";
    assert Slashes("/b") == 1;
  }

  // --- rename ---

  // Renaming keeps the kinds apart exactly when no directory has the new path.
  lemma RenameKeepsKinds(t: Tree, id: RowId, path: string)
    requires OneKind(t) && RenameFile(t, id, path).Some?
    ensures OneKind(RenameFile(t, id, path).value) <==> !Has(t.dirs, Entry(t.files[id].root, path))
  {
    var t' := RenameFile(t, id, path).value;
    assert t'.files[id] == Entry(t.files[id].root, path);
    forall f <- t.files.Keys | f != id ensures t.files[f] != t'.files[id] {
      assert f in t.files - {id} && (t.files - {id})[f] == t.files[f];
    }
  }

  lemma RenameOntoDirectory()
    ensures var t := Tree(map[0 := Entry(1, "/f")], map[0 := Entry(1, "/d")]);
            OneKind(t) && RenameFile(t, 0, "/d").Some? && !OneKind(RenameFile(t, 0, "/d").value)
  {
    var t := Tree(map[0 := Entry(1, "/f")], map[0 := Entry(1, "/d")]);
    assert "/f"[1] != "/d"[1];
    assert t.files - {0} == map[];
    RenameKeepsKinds(t, 0, "/d");
    assert t.dirs[0] == Entry(1, "/d");
  }

  // --- the tables and the two handlers ---

  datatype Reply = Created | NoContent | NotFound | Conflict

  class Tables {
    var files: map<RowId, Entry>
    var dirs: map<RowId, Entry>

    function View(): Tree
      reads this
    {
      Tree(files, dirs)
    }

    constructor ()
      ensures View() == Tree(map[], map[])
    {
      files, dirs := map[], map[];
    }

    method DirectoryByRootAndPath(e: Entry) returns (found: bool)
      ensures found <==> Has(dirs, e)
    {
      var todo := dirs.Keys;
      while todo != {}
        invariant todo <= dirs.Keys && forall d <- dirs.Keys :: d !in todo ==> dirs[d] != e
        decreases todo
      {
        var d :| d in todo;
        if dirs[d] == e {
          return true;
        }
        todo := todo - {d};
      }
      found := false;
    }

    // INSERT INTO directories with its constraint and its two triggers.
    method InsertDirectoryRow(id: RowId, e: Entry) returns (ok: bool)
      modifies this`dirs
      ensures ok <==> InsertDirectory(old(View()), id, e).Some?
      ensures View() == if ok then InsertDirectory(old(View()), id, e).value else old(View())
      ensures ok <==>
                && id !in old(dirs) && (forall d <- old(dirs).Keys :: old(dirs)[d] != e)
                && (forall f <- files.Keys :: files[f] != e)
                && ('/' in e.path[if e.path == "" then 0 else 1..] ==>
                      exists d <- old(dirs).Keys :: old(dirs)[d].root == e.root && LikeBelow(e.path, old(dirs)[d].path))
      ensures dirs == if ok then old(dirs)[id := e] else old(dirs)
    {
      var duplicate := DirectoryByRootAndPath(e);
      if id in dirs || duplicate || Has(files, e) {
        return false;
      }
      if Nested(e.path) && !HasAbove(dirs, e) {
        return false;
      }
      dirs := dirs[id := e];
      ok := true;
    }

    method DeleteDirectoryRow(id: RowId) returns (ok: bool)
      modifies this`dirs
      ensures ok <==> DeleteDirectory(old(View()), id).Some?
      ensures View() == if ok then DeleteDirectory(old(View()), id).value else old(View())
      ensures ok <==>
                && id in old(dirs)
                && (forall f <- files.Keys :: files[f].root == old(dirs)[id].root ==> !LikeBelow(files[f].path, old(dirs)[id].path))
                && (forall d <- old(dirs).Keys ::
                      old(dirs)[d].root == old(dirs)[id].root ==> !LikeBelow(old(dirs)[d].path, old(dirs)[id].path))
      ensures dirs == if ok then old(dirs) - {id} else old(dirs)
    {
      if id !in dirs || HasBelow(files, dirs[id]) || HasBelow(dirs, dirs[id]) {
        return false;
      }
      dirs := dirs - {id};
      ok := true;
    }

    // POST /api/directories. A directory is made exactly when the parent row
    // exists and the path is free; then every directory still has its parent.
    method CreateDirectory(id: RowId, e: Entry) returns (reply: Reply)
      requires id !in dirs && e.path != "/"
      modifies this`dirs
      ensures reply == NotFound <==> !HasParent(old(View()), e)
      ensures reply == Created <==> CreateDirectoryWhole(old(View()), id, e).Some?
      ensures reply == Created || reply == NotFound || reply == Conflict
      ensures View() == if reply == Created then CreateDirectoryWhole(old(View()), id, e).value else old(View())
      ensures old(ParentsExist(View())) ==> ParentsExist(View())
      ensures reply == NotFound <==>
                Dir(e.path) != "/" && forall d <- old(dirs).Keys :: old(dirs)[d] != Entry(e.root, Dir(e.path))
      ensures reply != NotFound && Rooted(e.path) ==>
                (reply == Created <==> (forall d <- old(dirs).Keys :: old(dirs)[d] != e) && forall f <- files.Keys :: files[f] != e)
      ensures dirs == if reply == Created then old(dirs)[id := e] else old(dirs)
    {
      if Dir(e.path) != "/" {
        var parent := DirectoryByRootAndPath(Entry(e.root, Dir(e.path)));
        if !parent {
          return NotFound;
        }
      }
      if Has(files, e) {
        return Conflict;
      }
      if Rooted(e.path) {
        NestedHasTwoSegments(e.path);
        if Dir(e.path) != "/" {
          ChildIsBelow(e.path);
          LiteralIsLike(e.path, Dir(e.path));
        }
      }
      var ok := InsertDirectoryRow(id, e);
      if ok && old(ParentsExist(View())) {
        InsertKeepsParents(old(View()), id, e);
      }
      reply := if ok then Created else Conflict;
    }

    // DELETE of a directory: the literal check first, the trigger's check last.
    method RemoveDirectory(id: RowId) returns (reply: Reply)
      modifies this`dirs
      ensures reply == NotFound <==> id !in old(dirs)
      ensures reply == NoContent <==> DeleteDirectory(old(View()), id).Some?
      ensures reply == NoContent || reply == NotFound || reply == Conflict
      ensures View() == if reply == NoContent then DeleteDirectory(old(View()), id).value else old(View())
      ensures dirs == if reply == NoContent then old(dirs) - {id} else old(dirs)
      ensures reply == NoContent <==>
                && id in old(dirs)
                && (forall f <- files.Keys :: files[f].root == old(dirs)[id].root ==> !LikeBelow(files[f].path, old(dirs)[id].path))
                && (forall d <- old(dirs).Keys ::
                      old(dirs)[d].root == old(dirs)[id].root ==> !LikeBelow(old(dirs)[d].path, old(dirs)[id].path))
    {
      if id !in dirs {
        return NotFound;
      }
      if !LooksEmpty(View(), dirs[id]) {
        LooksFullIsFull(View(), id);
        return Conflict;
      }
      var ok := DeleteDirectoryRow(id);
      reply := if ok then NoContent else Conflict;
    }
  }

  // What the handler refuses the trigger would refuse too.
  lemma LooksFullIsFull(t: Tree, id: RowId)
    requires id in t.dirs && !LooksEmpty(t, t.dirs[id])
    ensures DeleteDirectory(t, id).None?
  {
    var e := t.dirs[id];
    if f :| f in t.files && t.files[f].root == e.root && LiterallyBelow(t.files[f].path, e.path) {
      NonEmptyIsSafe(t, id, t.files[f]);
    } else {
      var d :| d in t.dirs && t.dirs[d].root == e.root && LiterallyBelow(t.dirs[d].path, e.path);
      NonEmptyIsSafe(t, id, t.dirs[d]);
    }
  }
}
