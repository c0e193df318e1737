/** The X-DUPE lines of a refused upload: the duplicate names packed into reply lines. Strings
    stand for bytes, and the "X-DUPE: " prefix of every line is left off. */
module XDupe {
  import opened TextLists

  const LIMIT := 66
  const CUT := 65
  const ONE_LINE := 1010

  /** A reply line: packed names, or the start of a name too long to pack. */
  datatype Line = Packed(text: string) | Cut(text: string)

  // ---------- Mode 1, as the code runs it ----------

  /** The lines still to come, given the pending line. */
  function Pack(names: seq<string>, current: string): seq<Line>
    decreases |names|
  {
    if names == [] then
      if current != "" then [Packed(current)] else []
    else
      var name, rest := names[0], names[1..];
      if |name| > LIMIT then [Cut(name[..CUT])] + Pack(rest, current)
      else if |current| + |name| > LIMIT then
        (if current != "" then [Packed(current)] else []) + Pack(rest, name)
      else Pack(rest, (if current != "" then current + " " else "") + name)
  }

  lemma PackStep(names: seq<string>, current: string)
    requires names != []
    ensures var name, rest := names[0], names[1..];
            Pack(names, current) ==
            if |name| > LIMIT then [Cut(name[..CUT])] + Pack(rest, current)
            else if |current| + |name| > LIMIT then (if current != "" then [Packed(current)] else []) + Pack(rest, name)
            else Pack(rest, (if current != "" then current + " " else "") + name)
  {
  }

  method PackLines(names: seq<string>) returns (lines: seq<Line>)
    ensures lines == Pack(names, "")
    ensures forall i :: 0 <= i < |lines| ==> |lines[i].text| <= 67
  {
    lines := [];
    var current := "";
    var i := 0;
    while i < |names|
      invariant 0 <= i <= |names| && |current| <= LIMIT + 1
      invariant forall j :: 0 <= j < |lines| ==> |lines[j].text| <= LIMIT + 1
      invariant lines + Pack(names[i..], current) == Pack(names, "")
    {
      var name := names[i];
      ghost var before, pending := lines, current;
      i := i + 1;
      assert names[i - 1..][1..] == names[i..];
      PackStep(names[i - 1..], current);
      hide Pack;
      if |name| > LIMIT {
        lines := lines + [Cut(name[..CUT])];
      } else if |current| + |name| > LIMIT {
        if current != "" {
          lines := lines + [Packed(current)];
        }
        current := name;
      } else {
        if current != "" {
          current := current + " ";
        }
        current := current + name;
      }
    }
    if current != "" {
      lines := lines + [Packed(current)];
    }
  }

  // ---------- Mode 1, as groups of names ----------

  predicate Short(name: string) {
    name != "" && ' ' !in name && |name| <= 66
  }

  predicate AllShort(names: seq<string>) {
    forall i :: 0 <= i < |names| ==> Short(names[i])
  }

  function Length(group: seq<string>): nat {
    |Join(group, " ")|
  }

  /** A group the code would put on one line. */
  predicate Fits(group: seq<string>) {
    |group| >= 1 && if |group| == 1 then |group[0]| <= 66 else Length(group) <= 67
  }

  function Flatten(groups: seq<seq<string>>): seq<string> {
    if groups == [] then [] else groups[0] + Flatten(groups[1..])
  }

  function Joined(groups: seq<seq<string>>): (r: seq<string>)
    ensures |r| == |groups| && forall i :: 0 <= i < |groups| ==> r[i] == Join(groups[i], " ")
  {
    seq(|groups|, i requires 0 <= i < |groups| => Join(groups[i], " "))
  }

  /** Greedy grouping: fill the pending group as long as the next name fits. */
  function Greedy(names: seq<string>, group: seq<string>): (r: seq<seq<string>>)
    decreases |names|
  {
    if names == [] then
      if group != [] then [group] else []
    else if group == [] || Fits(group + [names[0]]) then Greedy(names[1..], group + [names[0]])
    else [group] + Greedy(names[1..], [names[0]])
  }

  function PackedTexts(lines: seq<Line>): seq<string> {
    if lines == [] then []
    else (if lines[0].Packed? then [lines[0].text] else []) + PackedTexts(lines[1..])
  }

  function CutTexts(lines: seq<Line>): seq<string> {
    if lines == [] then []
    else (if lines[0].Cut? then [lines[0].text] else []) + CutTexts(lines[1..])
  }

  function ShortOnes(names: seq<string>): seq<string> {
    if names == [] then []
    else (if |names[0]| <= 66 then [names[0]] else []) + ShortOnes(names[1..])
  }

  function LongOnes(names: seq<string>): seq<string> {
    if names == [] then []
    else (if |names[0]| > 66 then [names[0][..65]] else []) + LongOnes(names[1..])
  }

  lemma {:induction false} JoinSnoc(group: seq<string>, name: string)
    requires group != []
    ensures Join(group + [name], " ") == Join(group, " ") + " " + name
    ensures Length(group + [name]) == Length(group) + 1 + |name|
  {
    if |group| > 1 {
      assert (group + [name])[1..] == group[1..] + [name];
      JoinSnoc(group[1..], name);
    } else {
      assert (group + [name])[1..] == [name];
    }
  }

  lemma {:induction false} JoinNonEmpty(group: seq<string>)
    requires group != [] && group[0] != ""
    ensures Join(group, " ") != ""
  {
  }

  lemma OneLineFirst(line: Line, lines: seq<Line>)
    ensures PackedTexts([line] + lines) == (if line.Packed? then [line.text] else []) + PackedTexts(lines)
    ensures CutTexts([line] + lines) == (if line.Cut? then [line.text] else []) + CutTexts(lines)
  {
    assert ([line] + lines)[1..] == lines;
  }

  lemma JoinedFirst(group: seq<string>, groups: seq<seq<string>>)
    ensures Joined([group] + groups) == [Join(group, " ")] + Joined(groups)
  {
  }

  /** The code packs exactly the greedy groups of the short names, and sends each long name cut. */
  lemma {:induction false} PackIsGreedy(names: seq<string>, group: seq<string>)
    requires forall i :: 0 <= i < |names| ==> names[i] != "" && ' ' !in names[i]
    requires group != [] ==> group[0] != ""
    ensures var lines := Pack(names, Join(group, " "));
            && PackedTexts(lines) == Joined(Greedy(ShortOnes(names), group))
            && CutTexts(lines) == LongOnes(names)
    decreases |names|
  {
    var current := Join(group, " ");
    if group != [] {
      JoinNonEmpty(group);
    }
    if names == [] {
      JoinedFirst(group, []);
      OneLineFirst(Packed(current), []);
    } else {
      var name, rest := names[0], names[1..];
      assert ShortOnes(names) == (if |name| <= LIMIT then [name] else []) + ShortOnes(rest);
      if |name| > LIMIT {
        assert ShortOnes(names) == ShortOnes(rest);
        PackIsGreedy(rest, group);
        OneLineFirst(Cut(name[..CUT]), Pack(rest, current));
      } else {
        assert ShortOnes(names)[1..] == ShortOnes(rest);
        assert Join([name], " ") == name;
        if group == [] {
          PackIsGreedy(rest, [name]);
          assert [] + [name] == [name];
          assert current == "" && "" + name == name;
        } else {
          JoinSnoc(group, name);
          assert Fits(group + [name]) <==> |current| + |name| <= LIMIT;
          if Fits(group + [name]) {
            PackIsGreedy(rest, group + [name]);
          } else {
            PackIsGreedy(rest, [name]);
            OneLineFirst(Packed(current), Pack(rest, name));
            JoinedFirst(group, Greedy(ShortOnes(rest), [name]));
          }
        }
      }
    }
  }

  // ---------- The groups lose nothing, fit, and are as few as can be ----------

  /** In order and exactly once. */
  lemma {:induction false} GreedyKeepsNames(names: seq<string>, group: seq<string>)
    ensures Flatten(Greedy(names, group)) == group + names
    decreases |names|
  {
    if names == [] {
      assert Flatten([group]) == group + Flatten([]) == group;
      assert group + names == group;
    } else if group == [] || Fits(group + [names[0]]) {
      GreedyKeepsNames(names[1..], group + [names[0]]);
      assert group + [names[0]] + names[1..] == group + names;
    } else {
      GreedyKeepsNames(names[1..], [names[0]]);
      var groups := Greedy(names[1..], [names[0]]);
      assert ([group] + groups)[1..] == groups;
      assert [names[0]] + names[1..] == names;
    }
  }

  lemma {:induction false} GreedyFits(names: seq<string>, group: seq<string>)
    requires AllShort(names) && (group != [] ==> Fits(group))
    ensures forall i :: 0 <= i < |Greedy(names, group)| ==> Fits(Greedy(names, group)[i])
    decreases |names|
  {
    if names != [] {
      assert Short(names[0]);
      if group == [] {
        assert [] + [names[0]] == [names[0]];
        GreedyFits(names[1..], [names[0]]);
      } else if Fits(group + [names[0]]) {
        GreedyFits(names[1..], group + [names[0]]);
      } else {
        GreedyFits(names[1..], [names[0]]);
      }
    }
  }

  lemma {:induction false} GreedyStarts(names: seq<string>, group: seq<string>)
    requires group != []
    ensures var g := Greedy(names, group); |g| > 0 && group <= g[0]
    decreases |names|
  {
    if names != [] && Fits(group + [names[0]]) {
      GreedyStarts(names[1..], group + [names[0]]);
    }
  }

  /** No line could have taken the first name of the next one. */
  lemma {:induction false} NextNameDidNotFit(names: seq<string>, group: seq<string>, i: nat)
    requires i + 1 < |Greedy(names, group)|
    ensures var g := Greedy(names, group); g[i + 1] != [] && !Fits(g[i] + [g[i + 1][0]])
    decreases |names|
  {
    if group == [] || Fits(group + [names[0]]) {
      NextNameDidNotFit(names[1..], group + [names[0]], i);
    } else {
      GreedyStarts(names[1..], [names[0]]);
      if i > 0 {
        NextNameDidNotFit(names[1..], [names[0]], i - 1);
      }
    }
  }

  lemma {:induction false} LengthSuffix(a: seq<string>, b: seq<string>)
    requires b != []
    ensures Length(a + b) >= Length(b)
  {
    if a == [] {
      assert a + b == b;
    } else {
      assert (a + b)[1..] == a[1..] + b;
      LengthSuffix(a[1..], b);
    }
  }

  lemma {:induction false} LengthPrefix(a: seq<string>, b: seq<string>)
    requires a != []
    ensures Length(a + b) >= Length(a)
    decreases |b|
  {
    if b == [] {
      assert a + b == a;
    } else {
      var n := |b| - 1;
      LengthPrefix(a, b[..n]);
      JoinSnoc(a + b[..n], b[n]);
      assert a + b == a + b[..n] + [b[n]];
    }
  }

  /** Fewest lines: no in-order grouping that meets the code's length test is shorter, even one
      that also has to carry earlier names. */
  lemma {:induction false} GreedyIsFewest(names: seq<string>, group: seq<string>, earlier: seq<string>, other: seq<seq<string>>)
    requires group != [] && Flatten(other) == earlier + group + names
    requires forall i :: 0 <= i < |other| ==> Fits(other[i])
    ensures |Greedy(names, group)| <= |other|
    decreases |names|
  {
    assert |earlier + group + names| > 0;
    if names != [] {
      var next := group + [names[0]];
      if Fits(next) {
        assert earlier + group + names == earlier + next + names[1..];
        GreedyIsFewest(names[1..], next, earlier, other);
      } else {
        var first, m := other[0], |other[0]|;
        var all := earlier + group + names;
        assert first == all[..m] && Flatten(other[1..]) == all[m..];
        if m > |earlier| + |group| {
          var tail := first[|earlier| + |next|..];
          assert first == earlier + next + tail;
          LengthPrefix(earlier + next, tail);
          LengthSuffix(earlier, next);
          assert false;
        } else {
          var before := (earlier + group)[m..];
          assert all[m..] == before + [names[0]] + names[1..];
          GreedyIsFewest(names[1..], [names[0]], before, other[1..]);
        }
      }
    }
  }

  // ---------- Mode 1, together ----------

  function SplitAll(lines: seq<string>): seq<string> {
    if lines == [] then [] else Split(lines[0], ' ') + SplitAll(lines[1..])
  }

  lemma {:induction false} SplitGroups(groups: seq<seq<string>>)
    requires forall i :: 0 <= i < |groups| ==> groups[i] != [] && forall j :: 0 <= j < |groups[i]| ==> ' ' !in groups[i][j]
    ensures SplitAll(Joined(groups)) == Flatten(groups)
  {
    if groups != [] {
      SplitJoin(groups[0], ' ');
      assert Joined(groups)[1..] == Joined(groups[1..]);
      SplitGroups(groups[1..]);
    }
  }

  lemma {:induction false} InFlatten(groups: seq<seq<string>>, i: nat, j: nat)
    requires i < |groups| && j < |groups[i]|
    ensures groups[i][j] in Flatten(groups)
  {
    if i > 0 {
      InFlatten(groups[1..], i - 1, j);
    }
  }

  lemma {:induction false} ShortOnesAreShort(names: seq<string>)
    requires forall i :: 0 <= i < |names| ==> names[i] != "" && ' ' !in names[i]
    ensures AllShort(ShortOnes(names))
  {
    if names != [] {
      ShortOnesAreShort(names[1..]);
    }
  }

  /** For space-free names: splitting the packed lines on spaces gives back the names of at most
      66 bytes in order; the longer ones appear cut to 65; and no packed line could have taken
      the first name of the next. */
  lemma PackedLines(names: seq<string>)
    requires forall i :: 0 <= i < |names| ==> names[i] != "" && ' ' !in names[i]
    ensures var packed := PackedTexts(Pack(names, ""));
            && SplitAll(packed) == ShortOnes(names)
            && CutTexts(Pack(names, "")) == LongOnes(names)
            && (forall i :: 0 <= i < |packed| - 1 ==> |packed[i]| + |Split(packed[i + 1], ' ')[0]| > 66)
  {
    var short := ShortOnes(names);
    var groups := Greedy(short, []);
    PackIsGreedy(names, []);
    ShortOnesAreShort(names);
    GreedyKeepsNames(short, []);
    GreedyFits(short, []);
    GroupsAreShort(groups, short);
    SplitGroups(groups);
    var packed := PackedTexts(Pack(names, ""));
    assert packed == Joined(groups);
    hide Pack, PackedTexts, Greedy, Flatten, SplitAll;
    forall i | 0 <= i < |packed| - 1 ensures |packed[i]| + |Split(packed[i + 1], ' ')[0]| > LIMIT {
      NextNameDidNotFit(short, [], i);
      SplitJoin(groups[i + 1], ' ');
      JoinSnoc(groups[i], groups[i + 1][0]);
    }
  }

  /** No packing of the same names in the same order, each line passing the code's length test,
      has fewer lines. */
  lemma FewestLines(names: seq<string>, other: seq<seq<string>>)
    requires forall i :: 0 <= i < |names| ==> names[i] != "" && ' ' !in names[i]
    requires Flatten(other) == ShortOnes(names) && forall i :: 0 <= i < |other| ==> Fits(other[i])
    ensures |PackedTexts(Pack(names, ""))| <= |other|
  {
    PackIsGreedy(names, []);
    FewestFromStart(ShortOnes(names), other);
  }

  lemma GroupsAreShort(groups: seq<seq<string>>, short: seq<string>)
    requires Flatten(groups) == [] + short && AllShort(short)
    ensures forall i, j :: 0 <= i < |groups| && 0 <= j < |groups[i]| ==> Short(groups[i][j])
  {
    forall i, j | 0 <= i < |groups| && 0 <= j < |groups[i]| ensures Short(groups[i][j]) {
      InFlatten(groups, i, j);
    }
  }

  lemma FewestFromStart(short: seq<string>, other: seq<seq<string>>)
    requires Flatten(other) == short && forall i :: 0 <= i < |other| ==> Fits(other[i])
    ensures |Greedy(short, [])| <= |other|
  {
    if short != [] {
      assert [] + [short[0]] == [short[0]];
      assert short == [] + [short[0]] + short[1..];
      GreedyIsFewest(short[1..], [short[0]], [], other);
    }
  }

  // ---------- Mode 4 ----------

  /** Names without the empty ones in front. */
  function Skip(names: seq<string>): (r: seq<string>)
    ensures r != [] ==> r[0] != ""
  {
    if names != [] && names[0] == "" then Skip(names[1..]) else names
  }

  lemma {:induction false} SkipConcat(a: seq<string>, b: seq<string>)
    ensures Skip(a + b) == if Skip(a) == [] then Skip(b) else Skip(a) + b
    decreases |a|
  {
    if a == [] {
      assert a + b == b;
    } else if a[0] == "" {
      assert (a + b)[1..] == a[1..] + b;
      SkipConcat(a[1..], b);
    }
  }

  /** One line with as many leading names as fit: the longest prefix, for any names. */
  method OneLine(names: seq<string>) returns (line: string, ghost count: nat)
    ensures count <= |names| && line == Join(Skip(names[..count]), " ") && |line| <= 1010
    ensures forall k :: count < k <= |names| ==> Length(Skip(names[..k])) > 1010
  {
    line, count := "", 0;
    var i := 0;
    while i < |names|
      invariant 0 <= i <= |names| && count == i
      invariant line == Join(Skip(names[..i]), " ") && |line| <= ONE_LINE
      invariant line == "" <==> Skip(names[..i]) == []
    {
      var next := names[i];
      if line != "" {
        next := line + " " + names[i];
      }
      LineGrows(names, i);
      if |next| > ONE_LINE {
        forall k | count < k <= |names| ensures Length(Skip(names[..k])) > ONE_LINE {
          SkipConcat(names[..i + 1], names[i + 1..k]);
          LengthPrefix(Skip(names[..i + 1]), names[i + 1..k]);
          assert names[..k] == names[..i + 1] + names[i + 1..k];
        }
        return;
      }
      line, i, count := next, i + 1, count + 1;
    }
  }

  lemma LineGrows(names: seq<string>, i: nat)
    requires i < |names|
    ensures var before, after := Skip(names[..i]), Skip(names[..i + 1]);
            && Join(after, " ") == (if before == [] then names[i] else Join(before, " ") + " " + names[i])
            && (Join(after, " ") == "" <==> after == [])
  {
    assert names[..i + 1] == names[..i] + [names[i]];
    SkipConcat(names[..i], [names[i]]);
    var before := Skip(names[..i]);
    if before != [] {
      JoinSnoc(before, names[i]);
    }
  }
}
