/** Slash-separated paths. */
module Paths {
  import opened TextLists

  function PathStep(rooted: bool, stack: seq<string>, part: string): seq<string> {
    if part == "" || part == "." then stack
    else if part != ".." then stack + [part]
    else if stack != [] && stack[|stack| - 1] != ".." then stack[..|stack| - 1]
    else if rooted then stack
    else stack + [".."]
  }

  function Walk(rooted: bool, stack: seq<string>, parts: seq<string>): seq<string>
    decreases |parts|
  {
    if parts == [] then stack else Walk(rooted, PathStep(rooted, stack, parts[0]), parts[1..])
  }

  /** path.Clean. */
  function Clean(p: string): string {
    if p == "" then "." else
      var rooted := p[0] == '/';
      var stack := Walk(rooted, [], Split(p, '/'));
      if rooted then "/" + Join(stack, "/") else if stack == [] then "." else Join(stack, "/")
  }

  predicate StartsWith(s: string, prefix: string) {
    prefix <= s
  }

  predicate EndsWith(s: string, suffix: string) {
    |suffix| <= |s| && s[|s| - |suffix|..] == suffix
  }

  /** strings.TrimRight(s, "/"). */
  function TrimSlashes(s: string): (r: string)
    ensures r <= s && (r != "" ==> r[|r| - 1] != '/')
  {
    if s != "" && s[|s| - 1] == '/' then TrimSlashes(s[..|s| - 1]) else s
  }

  predicate Only(s: string, chars: string) {
    forall i :: 0 <= i < |s| ==> s[i] in chars || s[i] == '/' || s[i] == '.'
  }

  predicate GoodStack(stack: seq<string>, chars: string) {
    forall i :: 0 <= i < |stack| ==> stack[i] != "" && '/' !in stack[i] && Only(stack[i], chars)
  }

  lemma {:induction false} WalkKeeps(rooted: bool, stack: seq<string>, parts: seq<string>, chars: string)
    requires GoodStack(stack, chars)
    requires forall i :: 0 <= i < |parts| ==> '/' !in parts[i] && Only(parts[i], chars)
    ensures GoodStack(Walk(rooted, stack, parts), chars)
    decreases |parts|
  {
    if parts != [] {
      WalkKeeps(rooted, PathStep(rooted, stack, parts[0]), parts[1..], chars);
    }
  }

  lemma {:induction false} SplitChars(s: string, sep: char, i: nat, k: nat)
    requires i < |Split(s, sep)| && k < |Split(s, sep)[i]|
    ensures Split(s, sep)[i][k] in s
  {
    var rest := Split(s[1..], sep);
    if s[0] == sep {
      SplitChars(s[1..], sep, i - 1, k);
    } else if i > 0 {
      SplitChars(s[1..], sep, i, k);
    } else if k > 0 {
      SplitChars(s[1..], sep, 0, k - 1);
    }
  }

  lemma {:induction false} JoinShape(stack: seq<string>, chars: string)
    requires GoodStack(stack, chars)
    ensures Only(Join(stack, "/"), chars)
    ensures stack != [] ==> var s := Join(stack, "/"); s != "" && s[|s| - 1] != '/'
    ensures stack == [] ==> Join(stack, "/") == ""
  {
    if stack != [] {
      assert stack[0][|stack[0]| - 1] in stack[0];
      JoinShape(stack[1..], chars);
    }
  }

  /** A cleaned path ends in a slash only when it is the root, and invents no characters. */
  lemma CleanShape(p: string)
    ensures Clean(p) != "" && (Clean(p)[|Clean(p)| - 1] == '/' ==> Clean(p) == "/")
    ensures Only(Clean(p), p)
  {
    if p != "" {
      var parts := Split(p, '/');
      forall i | 0 <= i < |parts| ensures Only(parts[i], p) {
        forall k | 0 <= k < |parts[i]| ensures parts[i][k] in p {
          SplitChars(p, '/', i, k);
        }
      }
      WalkKeeps(p[0] == '/', [], parts, p);
      JoinShape(Walk(p[0] == '/', [], parts), p);
    }
  }

  // ---------- What cleaning means ----------

  lemma {:induction false} WalkOn(rooted: bool, stack: seq<string>, a: seq<string>, b: seq<string>)
    ensures Walk(rooted, stack, a + b) == Walk(rooted, Walk(rooted, stack, a), b)
    decreases |a|
  {
    if a == [] {
      assert a + b == b;
    } else {
      assert (a + b)[1..] == a[1..] + b;
      WalkOn(rooted, PathStep(rooted, stack, a[0]), a[1..], b);
    }
  }

  function Rooted(p: string): bool {
    p != "" && p[0] == '/'
  }

  /** The components a path comes down to. */
  function Stack(p: string): seq<string> {
    Walk(Rooted(p), [], Split(p, '/'))
  }

  lemma StackGrows(d: string, e: string)
    requires d != ""
    ensures Stack(d + "/" + e) == Walk(Rooted(d), Stack(d), Split(e, '/')) && Rooted(d + "/" + e) == Rooted(d)
  {
    SplitConcat(d, '/', e);
    WalkOn(Rooted(d), [], Split(d, '/'), Split(e, '/'));
  }

  lemma WalkOne(rooted: bool, stack: seq<string>, x: string)
    ensures Walk(rooted, stack, [x]) == PathStep(rooted, stack, x)
  {
    assert [x][1..] == [];
  }

  predicate Component(x: string) {
    x != "" && x != "." && x != ".." && '/' !in x
  }

  /** Empty and dot components are nothing, and a component is undone by the two dots after it. */
  lemma CleanForgets(d: string, x: string)
    requires d != "" && Component(x)
    ensures Clean(d + "/") == Clean(d) && Clean(d + "/" + ".") == Clean(d)
    ensures Clean(d + "/" + (x + "/" + "..")) == Clean(d)
  {
    SplitNone("", '/');
    SplitNone(".", '/');
    SplitNone("..", '/');
    SplitNone(x, '/');
    SplitConcat(x, '/', "..");
    assert d + "/" + "" == d + "/";
    StackGrows(d, "");
    StackGrows(d, ".");
    StackGrows(d, x + "/" + "..");
    hide Walk, Split;
    var st := Stack(d);
    WalkOne(Rooted(d), st, "");
    WalkOne(Rooted(d), st, ".");
    WalkOn(Rooted(d), st, [x], [".."]);
    WalkOne(Rooted(d), st, x);
    WalkOne(Rooted(d), st + [x], "..");
    assert (st + [x])[..|st|] == st;
    assert [x] + [".."] == [x, ".."];
  }

  /** A rooted path never climbs above the root, and what is left names no dots. */
  lemma {:induction false} WalkNormal(stack: seq<string>, parts: seq<string>)
    requires forall i :: 0 <= i < |stack| ==> Component(stack[i])
    requires forall i :: 0 <= i < |parts| ==> '/' !in parts[i]
    ensures forall i :: 0 <= i < |Walk(true, stack, parts)| ==> Component(Walk(true, stack, parts)[i])
    decreases |parts|
  {
    if parts != [] {
      WalkNormal(PathStep(true, stack, parts[0]), parts[1..]);
    }
  }

  lemma {:induction false} WalkIdentity(rooted: bool, stack: seq<string>, parts: seq<string>)
    requires forall i :: 0 <= i < |parts| ==> Component(parts[i])
    ensures Walk(rooted, stack, parts) == stack + parts
    decreases |parts|
  {
    if parts != [] {
      WalkIdentity(rooted, stack + [parts[0]], parts[1..]);
      assert stack + [parts[0]] + parts[1..] == stack + parts;
    } else {
      assert stack + parts == stack;
    }
  }

  lemma {:induction false} RootedStack(st: seq<string>)
    requires forall i :: 0 <= i < |st| ==> Component(st[i])
    ensures Stack("/" + Join(st, "/")) == st
  {
    var q := "" + "/" + Join(st, "/");
    assert q == "/" + Join(st, "/");
    SplitConcat("", '/', Join(st, "/"));
    SplitNone("", '/');
    if st == [] {
      WalkOn(true, [], [""], [""]);
    } else {
      SplitJoin(st, '/');
      WalkOn(true, [], [""], st);
      WalkIdentity(true, [], st);
    }
    WalkOne(true, [], "");
    hide Walk, Split, Join, Component;
    assert [""] + [""] == ["", ""];
  }

  /** Cleaning a rooted path gives the root followed by its components, none of them empty, "."
      or "..", and cleaning again changes nothing. */
  lemma CleanNormal(p: string)
    requires Rooted(p)
    ensures Clean(p) == "/" + Join(Stack(p), "/")
    ensures forall i :: 0 <= i < |Stack(p)| ==> Component(Stack(p)[i])
    ensures Clean(Clean(p)) == Clean(p)
  {
    WalkNormal([], Split(p, '/'));
    RootedStack(Stack(p));
    hide Walk, Split, Join, Component;
  }

  /** Two dots with nothing left to undo stay in a relative path, and vanish at the root. */
  lemma TwoDots(d: string)
    requires d != "" && (Stack(d) == [] || Stack(d)[|Stack(d)| - 1] == "..")
    ensures Stack(d + "/" + "..") == if Rooted(d) then Stack(d) else Stack(d) + [".."]
  {
    SplitNone("..", '/');
    StackGrows(d, "..");
    WalkOne(Rooted(d), Stack(d), "..");
    hide Walk, Split;
  }

  /** A relative path is cleaned to its components, or to "." if none are left. */
  lemma CleanRelative(p: string)
    requires !Rooted(p)
    ensures Clean(p) == if Stack(p) == [] then "." else Join(Stack(p), "/")
  {
    assert Split("", '/') == [""];
    WalkOne(false, [], "");
    hide Walk, Join;
  }

  // ---------- What lies below a directory ----------

  lemma BelowSplits(dir: string, rest: string)
    ensures Split(dir, '/') <= Split(dir + "/" + rest, '/')
  {
    SplitConcat(dir, '/', rest);
    hide Split;
  }

  lemma SplitsBelow(path: string, dir: string)
    requires Split(dir, '/') < Split(path, '/')
    ensures dir + "/" <= path
  {
    JoinSplit(dir, '/');
    JoinSplit(path, '/');
    hide Split, Join;
    var a, b := Split(dir, '/'), Split(path, '/');
    assert b == a + b[|a|..];
    JoinConcat(a, b[|a|..], "/");
  }

  /** A path is a directory or lies under it exactly when its components begin with the
      directory's. */
  lemma PrefixIsComponents(path: string, dir: string)
    ensures path == dir || dir + "/" <= path <==> Split(dir, '/') <= Split(path, '/')
  {
    JoinSplit(dir, '/');
    JoinSplit(path, '/');
    hide Split, Join;
    if dir + "/" <= path {
      assert path == dir + "/" + path[|dir| + 1..];
      BelowSplits(dir, path[|dir| + 1..]);
    }
    var a, b := Split(dir, '/'), Split(path, '/');
    if a <= b {
      if |a| < |b| {
        SplitsBelow(path, dir);
      } else {
        assert a == b;
      }
    }
  }
}
