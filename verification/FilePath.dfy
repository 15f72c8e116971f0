/** The slash-separated paths of Go's filepath package, as far as the provisioner needs them. */
module FilePath {

  /** `strings.Replace(path, "\\", "/", -1)`. */
  function Slashes(path: string): string
    decreases |path|
  {
    if path == "" then "" else [if path[0] == '\\' then '/' else path[0]] + Slashes(path[1..])
  }

  /** The text up to the first slash. */
  function First(path: string): (e: string)
    ensures |e| <= |path| && '/' !in e
  {
    if path == "" || path[0] == '/' then "" else [path[0]] + First(path[1..])
  }

  /** The texts between slashes. */
  function Elements(path: string): (es: seq<string>)
    ensures forall i :: 0 <= i < |es| ==> '/' !in es[i]
    decreases |path|
  {
    var e := First(path);
    if |e| == |path| then [e] else [e] + Elements(path[|e| + 1..])
  }

  /** One element of `filepath.Clean`: empty ones and dots vanish, and a double dot takes the last
      ordinary element away, or stays if there is none and the path is not rooted. */
  function Step(stack: seq<string>, e: string, rooted: bool): seq<string> {
    if e == "" || e == "." then stack
    else if e != ".." then stack + [e]
    else if stack != [] && stack[|stack| - 1] != ".." then stack[..|stack| - 1]
    else if rooted then stack
    else stack + [e]
  }

  function Resolve(stack: seq<string>, es: seq<string>, rooted: bool): seq<string>
    decreases |es|
  {
    if es == [] then stack else Resolve(Step(stack, es[0], rooted), es[1..], rooted)
  }

  function Join(es: seq<string>): string {
    if es == [] then "" else if |es| == 1 then es[0] else es[0] + "/" + Join(es[1..])
  }

  predicate Rooted(path: string) { path != "" && path[0] == '/' }

  /** The text of a path with these elements. */
  function Spell(stack: seq<string>, rooted: bool): string {
    if rooted then "/" + Join(stack) else if stack == [] then "." else Join(stack)
  }

  /** `filepath.Clean`. */
  function Clean(path: string): string { Spell(Resolve([], Elements(path), Rooted(path)), Rooted(path)) }

  /** The path up to and with its last slash. */
  function UpToSlash(path: string): string
    decreases |path|
  {
    if path == "" || path[|path| - 1] == '/' then path else UpToSlash(path[..|path| - 1])
  }

  /** `filepath.Dir` of the path with its backslashes turned round. */
  function Dir(path: string): string { Clean(UpToSlash(Slashes(path))) }

  /** Elements of a clean path: ordinary ones after double dots, which a rooted path has none of. */
  predicate Settled(stack: seq<string>, rooted: bool) {
    && (forall i :: 0 <= i < |stack| ==> stack[i] != "" && stack[i] != "." && '/' !in stack[i])
    && (forall i :: 0 <= i < |stack| && stack[i] == ".." ==> !rooted && (i > 0 ==> stack[i - 1] == ".."))
  }

  lemma {:induction false} ResolveSettles(stack: seq<string>, es: seq<string>, rooted: bool)
    requires Settled(stack, rooted) && forall i :: 0 <= i < |es| ==> '/' !in es[i]
    ensures Settled(Resolve(stack, es, rooted), rooted)
    decreases |es|
  {
    if es == [] {
    } else {
      ResolveSettles(Step(stack, es[0], rooted), es[1..], rooted);
    }
  }

  /** Elements that are settled resolve to themselves. */
  lemma {:induction false} ResolveSettled(stack: seq<string>, es: seq<string>, rooted: bool)
    requires Settled(stack + es, rooted)
    ensures Resolve(stack, es, rooted) == stack + es
    decreases |es|
  {
    if es == [] {
      assert stack + es == stack;
    } else {
      var all := stack + es;
      assert all[|stack|] == es[0];
      assert stack != [] ==> all[|stack| - 1] == stack[|stack| - 1];
      assert Step(stack, es[0], rooted) == stack + [es[0]];
      assert stack + [es[0]] + es[1..] == all;
      ResolveSettled(stack + [es[0]], es[1..], rooted);
    }
  }

  lemma {:induction false} FirstOf(e: string, rest: string)
    requires '/' !in e
    ensures First(e + "/" + rest) == e && First(e) == e
    decreases |e|
  {
    if e == "" {
    } else {
      FirstOf(e[1..], rest);
      assert (e + "/" + rest)[1..] == e[1..] + "/" + rest;
    }
  }

  /** Splitting undoes joining. */
  lemma {:induction false} ElementsJoin(es: seq<string>)
    requires es != [] && forall i :: 0 <= i < |es| ==> '/' !in es[i]
    ensures Elements(Join(es)) == es
    decreases |es|
  {
    if |es| == 1 {
      FirstOf(es[0], "");
    } else {
      var rest := Join(es[1..]);
      FirstOf(es[0], rest);
      ElementsJoin(es[1..]);
      assert (es[0] + "/" + rest)[|es[0]| + 1..] == rest;
    }
  }

  /** The directory of a file is a clean path: rooted exactly when the file's is, spelled from
      elements that are settled, and left alone by another cleaning. */
  lemma DirIsClean(path: string)
    ensures exists stack :: Settled(stack, Rooted(Slashes(path))) && Dir(path) == Spell(stack, Rooted(Slashes(path)))
    ensures Rooted(Dir(path)) == Rooted(Slashes(path)) && Clean(Dir(path)) == Dir(path)
  {
    var p := UpToSlash(Slashes(path));
    RootedUpToSlash(Slashes(path));
    var stack := Resolve([], Elements(p), Rooted(p));
    ResolveSettles([], Elements(p), Rooted(p));
    SpellCleans(stack, Rooted(p));
  }

  lemma {:induction false} RootedUpToSlash(path: string)
    ensures Rooted(UpToSlash(path)) == Rooted(path)
    decreases |path|
  {
    if path == "" || path[|path| - 1] == '/' {
    } else {
      RootedUpToSlash(path[..|path| - 1]);
    }
  }

  /** A path spelled from settled elements reads back as them. */
  lemma SpellCleans(stack: seq<string>, rooted: bool)
    requires Settled(stack, rooted)
    ensures Rooted(Spell(stack, rooted)) == rooted && Clean(Spell(stack, rooted)) == Spell(stack, rooted)
  {
    var p := Spell(stack, rooted);
    if stack == [] {
      EmptyCleans(rooted);
    } else {
      ElementsJoin(stack);
      assert [] + stack == stack;
      ResolveSettled([], stack, rooted);
      JoinStarts(stack);
      if rooted {
        assert p[1..] == Join(stack) && First(p) == "";
        assert Elements(p) == [""] + stack;
        assert ([""] + stack)[1..] == stack;
      }
    }
  }

  lemma EmptyCleans(rooted: bool)
    ensures Rooted(Spell([], rooted)) == rooted && Clean(Spell([], rooted)) == Spell([], rooted)
  {
    if rooted {
      var p := Spell([], true);
      assert p == "/" && First(p) == "" && p[1..] == "";
      assert Elements("") == [""];
      assert Elements(p) == ["", ""];
      assert ["", ""][1..] == [""] && [""][1..] == [];
    } else {
      FirstOf(".", "");
      assert Elements(".") == ["."];
      assert ["."][1..] == [];
    }
  }

  lemma JoinStarts(stack: seq<string>)
    requires stack != [] && stack[0] != "" && '/' !in stack[0]
    ensures Join(stack) != "" && Join(stack)[0] != '/'
  {
    assert Join(stack)[0] == stack[0][0];
    assert stack[0][0] in stack[0];
  }

  lemma {:induction false} SlashesFixes(path: string)
    requires '\\' !in path
    ensures Slashes(path) == path
    decreases |path|
  {
    if path == "" {
    } else {
      SlashesFixes(path[1..]);
      assert path == [path[0]] + path[1..];
    }
  }

  lemma {:induction false} UpToSlashOf(dir: string, file: string)
    requires '/' !in file && (dir == "" || dir[|dir| - 1] == '/')
    ensures UpToSlash(dir + file) == dir
    decreases |file|
  {
    if file == "" {
      assert dir + file == dir;
    } else {
      var path := dir + file;
      assert path[|path| - 1] == file[|file| - 1] && file[|file| - 1] in file;
      assert path[..|path| - 1] == dir + file[..|file| - 1];
      UpToSlashOf(dir, file[..|file| - 1]);
    }
  }

  /** A path with these directories and this file in them. */
  function PathOf(stack: seq<string>, rooted: bool, file: string): string {
    (if rooted then "/" else "") + (if stack == [] then "" else Join(stack) + "/") + file
  }

  lemma {:induction false} ElementsJoinSlash(es: seq<string>)
    requires es != [] && forall i :: 0 <= i < |es| ==> '/' !in es[i]
    ensures Elements(Join(es) + "/") == es + [""]
    decreases |es|
  {
    assert Elements("") == [""];
    if |es| == 1 {
      FirstOf(es[0], "");
      assert es[0] + "/" + "" == es[0] + "/";
      assert (es[0] + "/")[|es[0]| + 1..] == "";
    } else {
      var rest := Join(es[1..]) + "/";
      FirstOf(es[0], rest);
      ElementsJoinSlash(es[1..]);
      assert Join(es) + "/" == es[0] + "/" + rest;
      assert (es[0] + "/" + rest)[|es[0]| + 1..] == rest;
    }
  }

  /** The directory of a file is what its path names in front of it. */
  lemma DirOfFile(stack: seq<string>, rooted: bool, file: string)
    requires Settled(stack, rooted) && '/' !in file && '\\' !in PathOf(stack, rooted, file)
    ensures Dir(PathOf(stack, rooted, file)) == Spell(stack, rooted)
  {
    var path := PathOf(stack, rooted, file);
    var dir := (if rooted then "/" else "") + (if stack == [] then "" else Join(stack) + "/");
    SlashesFixes(path);
    UpToSlashOf(dir, file);
    CleanDir(stack, rooted, dir);
  }

  lemma CleanDir(stack: seq<string>, rooted: bool, dir: string)
    requires Settled(stack, rooted)
    requires dir == (if rooted then "/" else "") + (if stack == [] then "" else Join(stack) + "/")
    ensures Clean(dir) == Spell(stack, rooted)
  {
    if stack == [] {
      assert dir == (if rooted then "/" else "");
      EmptyCleans(rooted);
      assert Elements("") == [""] && [""][1..] == [];
    } else {
      JoinStarts(stack);
      ElementsJoinSlash(stack);
      ResolveEnds(stack, rooted);
      if rooted {
        assert dir[1..] == Join(stack) + "/" && First(dir) == "";
        assert Elements(dir) == [""] + (stack + [""]);
        assert ([""] + (stack + [""]))[1..] == stack + [""];
      } else {
        assert dir == Join(stack) + "/";
      }
    }
  }

  /** An empty element at the end makes no difference. */
  lemma ResolveEnds(stack: seq<string>, rooted: bool)
    requires Settled(stack, rooted)
    ensures Resolve([], stack + [""], rooted) == stack
  {
    assert [] + stack == stack;
    ResolveSettled([], stack, rooted);
    ResolveConcat([], stack, [""], rooted);
    assert [""][1..] == [];
  }

  lemma {:induction false} ResolveConcat(stack: seq<string>, a: seq<string>, b: seq<string>, rooted: bool)
    ensures Resolve(stack, a + b, rooted) == Resolve(Resolve(stack, a, rooted), b, rooted)
    decreases |a|
  {
    if a == [] {
      assert a + b == b;
    } else {
      ResolveConcat(Step(stack, a[0], rooted), a[1..], b, rooted);
      assert (a + b)[1..] == a[1..] + b;
    }
  }
}
