/** ACL rule paths: brace expansion, compilation with de-duplication, matching, and the
    first-match evaluation of an action. */
module AclPatterns {
  import opened Options
  import opened Text
  import opened TextLists
  import opened Paths
  import opened AclRequirement

  // ---------- Brace expansion ----------

  function Braces(s: string): nat {
    if s == "" then 0 else (if s[0] == '{' then 1 else 0) + Braces(s[1..])
  }

  lemma {:induction false} BracesConcat(a: string, b: string)
    ensures Braces(a + b) == Braces(a) + Braces(b)
  {
    if a == "" {
      assert a + b == b;
    } else {
      assert (a + b)[1..] == a[1..] + b;
      BracesConcat(a[1..], b);
    }
  }

  lemma {:induction false} BracesSlice(s: string, i: nat, j: nat)
    requires i <= j <= |s|
    ensures Braces(s) == Braces(s[..i]) + Braces(s[i..j]) + Braces(s[j..])
  {
    hide Braces;
    BracesConcat(s[..i], s[i..j]);
    BracesConcat(s[..j], s[j..]);
    assert s[..i] + s[i..j] == s[..j] && s[..j] + s[j..] == s;
  }

  lemma {:induction false} TrimIsSlice(s: string) returns (i: nat, j: nat)
    ensures i <= j <= |s| && TrimSpace(s) == s[i..j]
  {
    i := TrimLeftSlice(s);
    var l := TrimRightSlice(s[i..]);
    j := i + l;
    assert s[i..][..l] == s[i..j];
  }

  lemma {:induction false} TrimLeftSlice(s: string) returns (i: nat)
    ensures i <= |s| && TrimLeft(s) == s[i..]
  {
    if s != "" && IsSpace(s[0]) {
      var k := TrimLeftSlice(s[1..]);
      i := k + 1;
      assert s[1..][k..] == s[i..];
    } else {
      i := 0;
    }
  }

  lemma {:induction false} TrimRightSlice(s: string) returns (j: nat)
    ensures j <= |s| && TrimRight(s) == s[..j]
  {
    if s != "" && IsSpace(s[|s| - 1]) {
      j := TrimRightSlice(s[..|s| - 1]);
      assert s[..|s| - 1][..j] == s[..j];
    } else {
      j := |s|;
    }
  }

  lemma TrimBraces(s: string)
    ensures Braces(TrimSpace(s)) <= Braces(s)
  {
    var i, j := TrimIsSlice(s);
    BracesSlice(s, i, j);
  }

  lemma {:induction false} SplitBraces(s: string, i: nat)
    requires i < |Split(s, ',')|
    ensures Braces(Split(s, ',')[i]) <= Braces(s)
  {
    if s != "" {
      var rest := Split(s[1..], ',');
      if s[0] == ',' {
        if i > 0 { SplitBraces(s[1..], i - 1); }
      } else if i > 0 {
        SplitBraces(s[1..], i);
      } else {
        SplitBraces(s[1..], 0);
        assert ([s[0]] + rest[0])[1..] == rest[0];
      }
    }
  }

  datatype Group = NoGroup | Group(prefix: string, parts: seq<string>, suffix: string)

  /** The first brace group: the first '{' and the first '}' after it. */
  function FirstGroup(p: string): (g: Group) {
    var start := IndexOf(p, '{');
    if start < 0 then NoGroup else
      var len := IndexOf(p[start..], '}');
      if len < 0 then NoGroup else
        Group(p[..start], Split(p[start + 1..start + len], ','), p[start + len + 1..])
  }

  /** Where the group's braces are. */
  lemma {:induction false} GroupAt(p: string, start: nat, len: nat)
    requires IndexOf(p, '{') == start && IndexOf(p[start..], '}') == len
    ensures start + len < |p| && len > 0 && p[start] == '{'
    ensures FirstGroup(p) == Group(p[..start], Split(p[start + 1..start + len], ','), p[start + len + 1..])
  {
    hide IndexOf, Split;
    assert p[start..][0] == '{';
  }

  lemma {:induction false} SliceShrinks(p: string, start: nat, len: nat)
    requires start + len < |p| && len > 0 && p[start] == '{'
    ensures Braces(p[..start]) + Braces(p[start + 1..start + len]) + Braces(p[start + len + 1..]) < Braces(p)
  {
    BracesSlice(p, start, start + 1);
    BracesSlice(p[start + 1..], len - 1, len);
    assert p[start + 1..][len..] == p[start + len + 1..];
    assert p[start + 1..][..len - 1] == p[start + 1..start + len];
    assert p[start..start + 1] == "{";
    assert Braces("{") == 1 + Braces("{"[1..]);
    hide Braces;
  }

  lemma GroupShrinks(p: string, i: nat)
    requires FirstGroup(p).Group? && i < |FirstGroup(p).parts|
    ensures var g := FirstGroup(p); Braces(g.prefix) + Braces(g.parts[i]) + Braces(g.suffix) < Braces(p)
  {
    hide Braces, Split, IndexOf;
    var start := IndexOf(p, '{');
    var len := IndexOf(p[start..], '}');
    GroupAt(p, start, len);
    SliceShrinks(p, start, len);
    SplitBraces(p[start + 1..start + len], i);
  }

  predicate Bounded(prefix: string, parts: seq<string>, suffix: string, bound: nat) {
    forall i :: 0 <= i < |parts| ==> Braces(prefix) + Braces(parts[i]) + Braces(suffix) < bound
  }

  lemma GroupBounded(p: string)
    requires FirstGroup(p).Group?
    ensures var g := FirstGroup(p); Bounded(g.prefix, g.parts, g.suffix, Braces(p))
  {
    var g := FirstGroup(p);
    forall i | 0 <= i < |g.parts| ensures Braces(g.prefix) + Braces(g.parts[i]) + Braces(g.suffix) < Braces(p) {
      GroupShrinks(p, i);
    }
  }

  /** expandBracePatterns. */
  function Expand(pattern: string): (r: seq<string>)
    ensures r != []
    decreases Braces(pattern), 1, 0
  {
    TrimBraces(pattern);
    var p := TrimSpace(pattern);
    match FirstGroup(p)
    case NoGroup => [p]
    case Group(prefix, parts, suffix) =>
      GroupBounded(p);
      var out := ExpandParts(prefix, parts, suffix, Braces(pattern));
      if out == [] then [p] else out
  }

  function ExpandParts(prefix: string, parts: seq<string>, suffix: string, ghost bound: nat): seq<string>
    requires Bounded(prefix, parts, suffix, bound)
    decreases bound, 0, |parts|
  {
    if parts == [] then [] else
      var part := TrimSpace(parts[0]);
      var rest := ExpandParts(prefix, parts[1..], suffix, bound);
      if part == "" then rest else
        TrimBraces(parts[0]);
        BracesConcat(prefix, part);
        BracesConcat(prefix + part, suffix);
        Expand(prefix + part + suffix) + rest
  }

  // ---------- What expansion means ----------

  /** A pattern as its author means it: literal text and groups of alternatives. */
  datatype Seg = Lit(text: string) | Alt(alts: seq<string>)

  predicate PlainText(s: string) {
    NoSpace(s) && '{' !in s
  }

  predicate WellFormed(segs: seq<Seg>) {
    forall i :: 0 <= i < |segs| ==> SegOk(segs[i])
  }

  predicate SegOk(seg: Seg) {
    match seg
    case Lit(t) => PlainText(t)
    case Alt(alts) =>
      && (forall i :: 0 <= i < |alts| ==> PlainText(alts[i]) && '}' !in alts[i] && ',' !in alts[i])
      && exists i :: 0 <= i < |alts| && alts[i] != ""
  }

  function Written(seg: Seg): string {
    match seg
    case Lit(t) => t
    case Alt(alts) => "{" + Join(alts, ",") + "}"
  }

  function Render(segs: seq<Seg>): string {
    if segs == [] then "" else Written(segs[0]) + Render(segs[1..])
  }

  function Prefixed(prefix: string, all: seq<string>): (r: seq<string>)
    ensures |r| == |all| && forall i :: 0 <= i < |all| ==> r[i] == prefix + all[i]
  {
    seq(|all|, i requires 0 <= i < |all| => prefix + all[i])
  }

  /** Every non-empty alternative, in order, in front of every tail, in order. */
  function Cross(alts: seq<string>, tails: seq<string>): seq<string> {
    if alts == [] then []
    else (if alts[0] == "" then [] else Prefixed(alts[0], tails)) + Cross(alts[1..], tails)
  }

  /** The left-to-right Cartesian product. */
  function Product(segs: seq<Seg>): seq<string> {
    if segs == [] then [""] else
      match segs[0]
      case Lit(t) => Prefixed(t, Product(segs[1..]))
      case Alt(alts) => Cross(alts, Product(segs[1..]))
  }

  lemma PrefixedTwice(a: string, b: string, all: seq<string>)
    ensures Prefixed(a, Prefixed(b, all)) == Prefixed(a + b, all)
  {
    assert forall i :: 0 <= i < |all| ==> a + (b + all[i]) == a + b + all[i];
  }

  lemma PrefixedConcat(p: string, a: seq<string>, b: seq<string>)
    ensures Prefixed(p, a + b) == Prefixed(p, a) + Prefixed(p, b)
  {
  }

  lemma {:induction false} RenderNoSpace(segs: seq<Seg>)
    requires WellFormed(segs)
    ensures NoSpace(Render(segs))
  {
    if segs != [] {
      if segs[0].Alt? {
        JoinNoSpace(segs[0].alts);
      }
      RenderNoSpace(segs[1..]);
    }
  }

  lemma {:induction false} JoinNoSpace(parts: seq<string>)
    requires forall i :: 0 <= i < |parts| ==> NoSpace(parts[i]) && '}' !in parts[i]
    ensures NoSpace(Join(parts, ",")) && '}' !in Join(parts, ",")
  {
    if |parts| > 1 {
      JoinNoSpace(parts[1..]);
    }
  }

  lemma {:induction false} IndexIs(a: string, c: char, b: string)
    requires c !in a
    ensures IndexOf(a + [c] + b, c) == |a|
  {
    if a != "" {
      assert (a + [c] + b)[1..] == a[1..] + [c] + b;
      IndexIs(a[1..], c, b);
    }
  }

  lemma {:induction false} IndexNone(s: string, c: char)
    requires c !in s
    ensures IndexOf(s, c) == -1
  {
  }

  lemma GroupSlices(prefix: string, body: string, suffix: string)
    ensures var p := prefix + ("{" + body + "}" + suffix); var n := |prefix|;
            && p[..n] == prefix && p[n..] == ("{" + body) + ['}'] + suffix
            && p[n + 1..n + 1 + |body|] == body && p[n + 1 + |body| + 1..] == suffix
            && p == prefix + ['{'] + (body + "}" + suffix)
  {
  }

  lemma CutAtBraces(prefix: string, body: string, suffix: string)
    requires '{' !in prefix && '}' !in body
    ensures FirstGroup(prefix + ("{" + body + "}" + suffix)) == Group(prefix, Split(body, ','), suffix)
  {
    var p := prefix + ("{" + body + "}" + suffix);
    hide *;
    GroupSlices(prefix, body, suffix);
    IndexIs(prefix, '{', body + "}" + suffix);
    IndexIs("{" + body, '}', suffix);
    GroupAt(p, |prefix|, 1 + |body|);
  }

  lemma FindsGroup(prefix: string, alts: seq<string>, suffix: string)
    requires '{' !in prefix && SegOk(Alt(alts))
    ensures FirstGroup(prefix + ("{" + Join(alts, ",") + "}" + suffix)) == Group(prefix, alts, suffix)
  {
    hide FirstGroup, Join, Split;
    JoinNoSpace(alts);
    CutAtBraces(prefix, Join(alts, ","), suffix);
    SplitJoin(alts, ',');
  }

  lemma ExpandGroup(p: string, prefix: string, parts: seq<string>, suffix: string)
    requires NoSpace(p) && FirstGroup(p) == Group(prefix, parts, suffix)
    ensures Bounded(prefix, parts, suffix, Braces(p))
    ensures ExpandParts(prefix, parts, suffix, Braces(p)) != []
            ==> Expand(p) == ExpandParts(prefix, parts, suffix, Braces(p))
  {
    TrimIdentity(p);
    GroupBounded(p);
    hide FirstGroup, ExpandParts, Braces;
  }

  /** Expanding a written pattern gives exactly the product of its groups. */
  lemma {:induction false} ExpandIsProduct(prefix: string, segs: seq<Seg>)
    requires PlainText(prefix) && WellFormed(segs)
    ensures Expand(prefix + Render(segs)) == Prefixed(prefix, Product(segs))
    decreases |segs|, 1, 0
  {
    var p := prefix + Render(segs);
    if segs == [] {
      assert p == prefix;
      TrimIdentity(p);
      IndexNone(p, '{');
      assert Prefixed(prefix, [""]) == [prefix + ""];
    } else if segs[0].Lit? {
      hide Expand;
      var t := segs[0].text;
      assert p == prefix + t + Render(segs[1..]);
      ExpandIsProduct(prefix + t, segs[1..]);
      PrefixedTwice(prefix, t, Product(segs[1..]));
    } else {
      GroupIsCross(prefix, segs[0].alts, segs[1..]);
      assert p == prefix + ("{" + Join(segs[0].alts, ",") + "}" + Render(segs[1..]));
    }
  }

  lemma GroupNoSpace(prefix: string, body: string, suffix: string)
    requires NoSpace(prefix) && NoSpace(body) && NoSpace(suffix)
    ensures NoSpace(prefix + ("{" + body + "}" + suffix))
  {
  }

  lemma {:induction false} GroupIsCross(prefix: string, alts: seq<string>, rest: seq<Seg>)
    requires PlainText(prefix) && SegOk(Alt(alts)) && WellFormed(rest)
    ensures Expand(prefix + ("{" + Join(alts, ",") + "}" + Render(rest))) == Prefixed(prefix, Cross(alts, Product(rest)))
    decreases |rest|, 3, 0
  {
    var body, suffix := Join(alts, ","), Render(rest);
    var p := prefix + ("{" + body + "}" + suffix);
    FindsGroup(prefix, alts, suffix);
    JoinNoSpace(alts);
    RenderNoSpace(rest);
    GroupNoSpace(prefix, body, suffix);
    hide *;
    ExpandGroup(p, prefix, alts, suffix);
    PartsAreCross(prefix, alts, rest, Braces(p));
    CrossNonEmpty(alts, rest);
  }

  lemma {:induction false} PartsAreCross(prefix: string, alts: seq<string>, rest: seq<Seg>, bound: nat)
    requires PlainText(prefix) && WellFormed(rest)
    requires forall i :: 0 <= i < |alts| ==> PlainText(alts[i])
    requires Bounded(prefix, alts, Render(rest), bound)
    ensures ExpandParts(prefix, alts, Render(rest), bound) == Prefixed(prefix, Cross(alts, Product(rest)))
    decreases |rest|, 2, |alts|
  {
    if alts != [] {
      TrimIdentity(alts[0]);
      PartsAreCross(prefix, alts[1..], rest, bound);
      var here := if alts[0] == "" then [] else Prefixed(alts[0], Product(rest));
      PrefixedConcat(prefix, here, Cross(alts[1..], Product(rest)));
      if alts[0] != "" {
        ExpandIsProduct(prefix + alts[0], rest);
        PrefixedTwice(prefix, alts[0], Product(rest));
      }
    }
  }

  lemma {:induction false} ProductNonEmpty(segs: seq<Seg>)
    requires WellFormed(segs)
    ensures Product(segs) != []
    decreases |segs|, 0, 0
  {
    if segs != [] {
      ProductNonEmpty(segs[1..]);
      if segs[0].Alt? {
        CrossNonEmpty(segs[0].alts, segs[1..]);
      }
    }
  }

  lemma {:induction false} CrossNonEmpty(alts: seq<string>, rest: seq<Seg>)
    requires WellFormed(rest) && exists i :: 0 <= i < |alts| && alts[i] != ""
    ensures Cross(alts, Product(rest)) != []
    decreases |rest|, 1, |alts|
  {
    ProductNonEmpty(rest);
    if alts[0] == "" {
      CrossNonEmpty(alts[1..], rest);
    }
  }

  // ---------- Compilation ----------

  datatype Compiled = Compiled(pattern: string, parent: string, trailingSlash: bool)

  /** strings.ReplaceAll(s, "\\", "/"). */
  function Slashed(s: string): (r: string)
    ensures |r| == |s|
    ensures forall i :: 0 <= i < |s| ==> r[i] == if s[i] == '\\' then '/' else s[i]
  {
    seq(|s|, i requires 0 <= i < |s| => if s[i] == '\\' then '/' else s[i])
  }

  function Raw(pattern: string): string {
    Slashed(TrimSpace(pattern))
  }

  /** compileRulePath. */
  function CompileOne(pattern: string): Option<Compiled> {
    var raw := Raw(pattern);
    if raw == "" then None
    else Some(Compiled(if EndsWith(raw, "/") then raw else Clean(raw), Clean(raw), EndsWith(raw, "/")))
  }

  function Key(c: Compiled): string {
    c.pattern + ['\0'] + c.parent
  }

  /** compileRulePaths: compile each expansion and drop those whose key was seen. */
  function CompileAll(patterns: seq<string>, seen: set<string>): seq<Compiled>
    decreases |patterns|
  {
    if patterns == [] then [] else
      match CompileOne(patterns[0])
      case None => CompileAll(patterns[1..], seen)
      case Some(c) =>
        if Key(c) in seen then CompileAll(patterns[1..], seen)
        else [c] + CompileAll(patterns[1..], seen + {Key(c)})
  }

  method CompileRulePaths(pattern: string) returns (out: seq<Compiled>)
    ensures out == CompileAll(Expand(pattern), {})
  {
    hide Expand, CompileOne, Key;
    var expanded := Expand(pattern);
    out := [];
    var seen: set<string> := {};
    var i := 0;
    while i < |expanded|
      invariant 0 <= i <= |expanded|
      invariant out + CompileAll(expanded[i..], seen) == CompileAll(expanded, {})
    {
      match CompileOne(expanded[i]) {
        case None =>
        case Some(c) =>
          if Key(c) !in seen {
            seen := seen + {Key(c)};
            out := out + [c];
          }
      }
      i := i + 1;
    }
  }

  /** Nothing is compiled that no expansion gave. */
  lemma {:induction false} CompiledFrom(patterns: seq<string>, seen: set<string>, c: Compiled) returns (p: string)
    requires c in CompileAll(patterns, seen)
    ensures p in patterns && CompileOne(p) == Some(c) && Key(c) !in seen
    decreases |patterns|
  {
    hide Key, CompileOne;
    var first := CompileOne(patterns[0]);
    if first.None? || Key(first.value) in seen {
      p := CompiledFrom(patterns[1..], seen, c);
    } else if c == first.value {
      p := patterns[0];
    } else {
      p := CompiledFrom(patterns[1..], seen + {Key(first.value)}, c);
    }
  }

  /** No expansion is lost up to its key. */
  lemma {:induction false} CompiledTo(patterns: seq<string>, seen: set<string>, p: string) returns (c: Compiled)
    requires p in patterns && CompileOne(p).Some? && Key(CompileOne(p).value) !in seen
    ensures c in CompileAll(patterns, seen) && Key(c) == Key(CompileOne(p).value)
    decreases |patterns|
  {
    hide Key, CompileOne;
    var first := CompileOne(patterns[0]);
    if first.None? || Key(first.value) in seen {
      c := CompiledTo(patterns[1..], seen, p);
    } else if Key(first.value) == Key(CompileOne(p).value) {
      c := first.value;
    } else {
      c := CompiledTo(patterns[1..], seen + {Key(first.value)}, p);
    }
  }

  /** No key is compiled twice. */
  lemma {:induction false} CompiledOnce(patterns: seq<string>, seen: set<string>, i: nat, j: nat)
    requires i < j < |CompileAll(patterns, seen)|
    ensures Key(CompileAll(patterns, seen)[i]) != Key(CompileAll(patterns, seen)[j])
    decreases |patterns|
  {
    hide Key, CompileOne;
    var first := CompileOne(patterns[0]);
    if first.None? || Key(first.value) in seen {
      CompiledOnce(patterns[1..], seen, i, j);
    } else if i == 0 {
      var rest := CompileAll(patterns[1..], seen + {Key(first.value)});
      var p := CompiledFrom(patterns[1..], seen + {Key(first.value)}, rest[j - 1]);
    } else {
      CompiledOnce(patterns[1..], seen + {Key(first.value)}, i - 1, j - 1);
    }
  }

  // ---------- Matching ----------

  /** path.Match, of which only its answer for the pattern "/" is used. */
  type Glob = (string, string) -> bool

  ghost predicate GlobOk(glob: Glob) {
    forall path: string :: glob("/", path) <==> path == "/"
  }

  /** A pattern with exactly one star, read as prefix and suffix. */
  predicate StarMatch(pattern: string, path: string) {
    var parts := Split(pattern, '*');
    '*' in pattern && |parts| == 2 &&
    if parts[1] == "" then StartsWith(path, parts[0])
    else if parts[0] == "" then EndsWith(path, parts[1])
    else StartsWith(path, parts[0]) && EndsWith(path, parts[1])
  }

  /** pathMatchesCompiled. */
  predicate MatchCompiled(c: Compiled, path: string, glob: Glob) {
    if c.trailingSlash then glob(c.pattern, TrimSlashes(path) + "/")
    else c.pattern == path || glob(c.pattern, path) || StarMatch(c.pattern, path)
  }

  /** pathIsBelow. */
  predicate Below(path: string, parent: string) {
    && parent != "" && parent != "." && '*' !in parent
    && (path == TrimSlashes(parent) || StartsWith(path, TrimSlashes(parent) + "/"))
  }

  predicate Covered(c: Compiled, path: string, glob: Glob) {
    MatchCompiled(c, path, glob) || Below(path, c.parent)
  }

  /** ruleMatchesPath. */
  predicate RuleMatches(pattern: string, path: string, glob: Glob) {
    exists c | c in CompileAll(Expand(pattern), {}) :: Covered(c, path, glob)
  }

  method RuleMatchesPath(pattern: string, path: string, glob: Glob) returns (matches: bool)
    ensures matches == RuleMatches(pattern, path, glob)
  {
    hide Expand, CompileAll, Covered;
    var paths := CompileRulePaths(pattern);
    var i := 0;
    while i < |paths|
      invariant 0 <= i <= |paths|
      invariant forall k :: 0 <= k < i ==> !Covered(paths[k], path, glob)
    {
      if Covered(paths[i], path, glob) {
        return true;
      }
      i := i + 1;
    }
    matches := false;
  }

  /** A pattern with one star matches what begins with the text before the star and ends with the
      text after it; the two may overlap in the path. */
  lemma OneStar(before: string, after: string, path: string)
    requires '*' !in before && '*' !in after
    ensures StarMatch(before + "*" + after, path) <==> before <= path && exists rest: string :: path == rest + after
  {
    SplitConcat(before, '*', after);
    SplitNone(before, '*');
    SplitNone(after, '*');
    hide Split;
    assert (before + "*" + after)[|before|] == '*';
    EndMeans(path, after);
    hide EndsWith;
    if after == "" {
      assert path == path + after;
    }
  }

  lemma EndMeans(path: string, after: string)
    ensures EndsWith(path, after) <==> exists rest: string :: path == rest + after
  {
    if EndsWith(path, after) {
      assert path == path[..|path| - |after|] + after;
    }
    if rest: string :| path == rest + after {
      assert path[|path| - |after|..] == after;
    }
  }

  /** And no other pattern matches by its stars. */
  lemma OtherStars(pattern: string, path: string)
    ensures StarMatch(pattern, path) ==> exists before: string, after: string ::
              '*' !in before && '*' !in after && pattern == before + "*" + after
  {
    var parts := Split(pattern, '*');
    if |parts| == 2 {
      JoinSplit(pattern, '*');
      assert Join(parts, "*") == parts[0] + "*" + parts[1];
    }
  }

  /** A directory that is named and has no star covers the paths whose components begin with its
      own; a pattern with a star covers nothing in this way. */
  lemma BelowMeans(path: string, parent: string)
    ensures Below(path, parent)
            <==> parent != "" && parent != "." && '*' !in parent && Split(TrimSlashes(parent), '/') <= Split(path, '/')
  {
    PrefixIsComponents(path, TrimSlashes(parent));
  }

  /** What one expansion stands for: the path itself, a directory glob, or a star-free ancestor. */
  predicate ExpansionCovers(pattern: string, path: string, glob: Glob) {
    var raw := Raw(pattern);
    && raw != ""
    && (|| (EndsWith(raw, "/") && glob(raw, TrimSlashes(path) + "/"))
        || (!EndsWith(raw, "/")
            && (Clean(raw) == path || glob(Clean(raw), path) || StarMatch(Clean(raw), path)))
        || Below(path, Clean(raw)))
  }

  lemma {:induction false} FirstNul(a: string, b: string, x: string, y: string)
    requires '\0' !in a && '\0' !in b && a + ['\0'] + x == b + ['\0'] + y
    ensures a == b && x == y
  {
    IndexIs(a, '\0', x);
    IndexIs(b, '\0', y);
    assert (a + ['\0'] + x)[..|a|] == a && (b + ['\0'] + y)[..|b|] == b;
    assert (a + ['\0'] + x)[|a| + 1..] == x && (b + ['\0'] + y)[|b| + 1..] == y;
  }

  lemma TrimFree(s: string, ch: char)
    requires ch !in s
    ensures ch !in TrimSpace(s)
  {
    var i, j := TrimIsSlice(s);
  }

  lemma CompiledNulFree(p: string)
    requires '\0' !in p && CompileOne(p).Some?
    ensures '\0' !in CompileOne(p).value.pattern
  {
    TrimFree(p, '\0');
    var raw := Raw(p);
    assert '\0' !in raw;
    CleanShape(raw);
  }

  lemma RootCovers(path: string, glob: Glob, trailing: bool)
    requires GlobOk(glob)
    ensures Covered(Compiled("/", "/", trailing), path, glob) <==> Below(path, "/")
  {
    assert TrimSlashes("/") == "" by { assert TrimSlashes("/"[..0]) == ""; }
    assert "" + "/" == "/";
    assert Below(path, "/") <==> path == "" || "/" <= path;
    assert '*' !in "/";
    if trailing && glob("/", TrimSlashes(path) + "/") {
      assert |TrimSlashes(path) + "/"| == 1;
      AllSlashes(path);
    }
  }

  lemma {:induction false} AllSlashes(s: string)
    requires TrimSlashes(s) == ""
    ensures s == "" || "/" <= s
  {
    if |s| > 1 {
      AllSlashes(s[..|s| - 1]);
    }
  }

  /** What compilation fixes besides the key. */
  predicate WellCompiled(c: Compiled) {
    && '\0' !in c.pattern && c.pattern != "" && c.parent != ""
    && (!c.trailingSlash ==> c.pattern == c.parent)
    && (c.trailingSlash ==> c.pattern[|c.pattern| - 1] == '/')
    && (c.parent[|c.parent| - 1] == '/' ==> c.parent == "/")
  }

  lemma CompiledWell(p: string)
    requires '\0' !in p && CompileOne(p).Some?
    ensures WellCompiled(CompileOne(p).value)
  {
    CompiledNulFree(p);
    CleanShape(Raw(p));
    hide Clean, TrimSpace, Raw, Only;
  }

  lemma SlashOnBothSides(c: Compiled, d: Compiled)
    requires WellCompiled(c) && WellCompiled(d) && c.trailingSlash && !d.trailingSlash
    requires c.pattern == d.pattern && c.parent == d.parent
    ensures c == Compiled("/", "/", true) && d == Compiled("/", "/", false)
  {
  }

  /** Two compiled paths with one key cover the same paths, although the key leaves out the
      trailing-slash flag. */
  lemma SameKeySameCover(p: string, q: string, path: string, glob: Glob)
    requires '\0' !in p && '\0' !in q && GlobOk(glob)
    requires CompileOne(p).Some? && CompileOne(q).Some? && Key(CompileOne(p).value) == Key(CompileOne(q).value)
    ensures Covered(CompileOne(p).value, path, glob) <==> Covered(CompileOne(q).value, path, glob)
  {
    hide *;
    var c, d := CompileOne(p).value, CompileOne(q).value;
    CompiledWell(p);
    CompiledWell(q);
    WellKeyParts(c, d);
    if c.trailingSlash != d.trailingSlash {
      if c.trailingSlash {
        SlashOnBothSides(c, d);
      } else {
        SlashOnBothSides(d, c);
      }
      RootCovers(path, glob, true);
      RootCovers(path, glob, false);
    }
  }

  lemma WellKeyParts(c: Compiled, d: Compiled)
    requires Key(c) == Key(d) && WellCompiled(c) && WellCompiled(d)
    ensures c.pattern == d.pattern && c.parent == d.parent
  {
    KeyParts(c, d);
  }

  lemma KeyParts(c: Compiled, d: Compiled)
    requires Key(c) == Key(d) && '\0' !in c.pattern && '\0' !in d.pattern
    ensures c.pattern == d.pattern && c.parent == d.parent
  {
    FirstNul(c.pattern, d.pattern, c.parent, d.parent);
  }

  predicate AllFree(all: seq<string>, ch: char) {
    forall i :: 0 <= i < |all| ==> ch !in all[i]
  }

  /** Expansion invents no characters. */
  lemma {:induction false} ExpandFree(pattern: string, ch: char)
    requires ch !in pattern
    ensures AllFree(Expand(pattern), ch)
    decreases Braces(pattern), 1, 0
  {
    var p := TrimSpace(pattern);
    TrimBraces(pattern);
    TrimFree(pattern, ch);
    if FirstGroup(p).Group? {
      var g := FirstGroup(p);
      GroupBounded(p);
      GroupFree(p, ch);
      PartsFree(g.prefix, g.parts, g.suffix, Braces(pattern), ch);
    }
  }

  lemma GroupFree(p: string, ch: char)
    requires ch !in p && FirstGroup(p).Group?
    ensures var g := FirstGroup(p); ch !in g.prefix && ch !in g.suffix && AllFree(g.parts, ch)
  {
    var start := IndexOf(p, '{');
    var body := p[start + 1..start + IndexOf(p[start..], '}')];
    var parts := Split(body, ',');
    forall i | 0 <= i < |parts| ensures ch !in parts[i] {
      forall k | 0 <= k < |parts[i]| ensures parts[i][k] != ch {
        SplitChars(body, ',', i, k);
      }
    }
  }

  lemma {:induction false} PartsFree(prefix: string, parts: seq<string>, suffix: string, bound: nat, ch: char)
    requires Bounded(prefix, parts, suffix, bound)
    requires ch !in prefix && ch !in suffix && AllFree(parts, ch)
    ensures AllFree(ExpandParts(prefix, parts, suffix, bound), ch)
    decreases bound, 0, |parts|
  {
    if parts != [] {
      PartsFree(prefix, parts[1..], suffix, bound, ch);
      var part := TrimSpace(parts[0]);
      TrimFree(parts[0], ch);
      TrimBraces(parts[0]);
      BracesConcat(prefix, part);
      BracesConcat(prefix + part, suffix);
      if part != "" {
        ExpandFree(prefix + part + suffix, ch);
      }
    }
  }

  /** A rule covers a path exactly when one of its expansions does: neither compilation nor
      de-duplication changes what a rule matches. */
  lemma RuleMatchesIffExpansion(pattern: string, path: string, glob: Glob)
    requires '\0' !in pattern && GlobOk(glob)
    ensures RuleMatches(pattern, path, glob)
            <==> exists e | e in Expand(pattern) :: ExpansionCovers(e, path, glob)
  {
    var all := Expand(pattern);
    ExpandFree(pattern, '\0');
    hide Expand, CompileAll, Key, CompileOne, Covered, ExpansionCovers;
    if c :| c in CompileAll(all, {}) && Covered(c, path, glob) {
      var e := CompiledFrom(all, {}, c);
      CompiledCovers(e, path, glob);
    }
    if e :| e in all && ExpansionCovers(e, path, glob) {
      CompiledCovers(e, path, glob);
      var c := CompiledTo(all, {}, e);
      var f := CompiledFrom(all, {}, c);
      SameKeySameCover(e, f, path, glob);
    }
  }

  lemma CompiledCovers(e: string, path: string, glob: Glob)
    ensures ExpansionCovers(e, path, glob)
            <==> CompileOne(e).Some? && Covered(CompileOne(e).value, path, glob)
  {
  }

  /** Put together: a rule written with groups covers exactly what the product of its groups covers. */
  lemma RuleMatchesIffProduct(segs: seq<Seg>, path: string, glob: Glob)
    requires WellFormed(segs) && '\0' !in Render(segs) && GlobOk(glob)
    ensures RuleMatches(Render(segs), path, glob)
            <==> exists e | e in Product(segs) :: ExpansionCovers(e, path, glob)
  {
    hide Expand, Product, Render, ExpansionCovers, RuleMatches;
    ExpandIsProduct("", segs);
    assert "" + Render(segs) == Render(segs);
    RuleMatchesIffExpansion(Render(segs), path, glob);
    assert forall s: string :: "" + s == s;
    assert Prefixed("", Product(segs)) == Product(segs);
  }
}
