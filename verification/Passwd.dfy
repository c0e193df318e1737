/** The passwd file: a file of lines that stands for a map from user names to hashes. */
module Passwd {
  import opened Options
  import opened Text
  import opened TextLists

  // ---------- Reading ----------

  datatype Record = NoRecord | Record(name: string, hash: string)

  /** What one line says. */
  function RecordOf(line: string): Record {
    var t := TrimSpace(line);
    if t == "" || t[0] == '#' then NoRecord else
      var parts := Split(t, ':');
      if |parts| >= 2 then Record(parts[0], parts[1]) else NoRecord
  }

  /** The users of a list of lines; a later line wins. */
  function Load(lines: seq<string>): map<string, string>
    decreases |lines|
  {
    if lines == [] then map[] else
      var n := |lines| - 1;
      match RecordOf(lines[n])
      case NoRecord => Load(lines[..n])
      case Record(name, hash) => Load(lines[..n])[name := hash]
  }

  function LoadText(text: string): map<string, string> {
    Load(Split(text, '\n'))
  }

  method LoadPasswdFile(text: string) returns (users: map<string, string>)
    ensures users == LoadText(text)
  {
    var lines := Split(text, '\n');
    users := map[];
    var i := 0;
    while i < |lines|
      invariant 0 <= i <= |lines| && users == Load(lines[..i])
    {
      assert lines[..i + 1][..i] == lines[..i];
      match RecordOf(lines[i]) {
        case NoRecord =>
        case Record(name, hash) => users := users[name := hash];
      }
      i := i + 1;
    }
    assert lines[..i] == lines;
  }

  // ---------- Names and lines ----------

  /** NormalizeName. */
  function NormalizeName(raw: string): Option<string> {
    var name := TrimSpace(raw);
    if name == "" || name == "." || name == ".." then None
    else if exists i :: 0 <= i < |name| && name[i] in "/\\: \t\r\n" then None
    else Some(name)
  }

  function FieldOr(parts: seq<string>, i: nat, default: string): string {
    if |parts| > i && TrimSpace(parts[i]) != "" then parts[i] else default
  }

  /** What a formatted line holds behind the hash: the other fields, kept or defaulted. */
  function Trailer(existing: string): seq<string> {
    var parts := if existing == "" then [] else Split(existing, ':');
    [FieldOr(parts, 2, "100"), FieldOr(parts, 3, "300"), FieldOr(parts, 4, "0"),
     FieldOr(parts, 5, "/site"), FieldOr(parts, 6, "/bin/false")]
  }

  /** formatPasswdLine. */
  function FormatLine(name: string, hash: string, existing: string): string {
    name + ":" + (hash + ":" + Join(Trailer(existing), ":"))
  }

  predicate Owns(name: string, line: string) {
    name + ":" <= line
  }

  function FirstOwned(lines: seq<string>, name: string): (r: int)
    ensures -1 <= r < |lines|
    ensures r >= 0 ==> Owns(name, lines[r]) && forall i :: 0 <= i < r ==> !Owns(name, lines[i])
    ensures r < 0 ==> forall i :: 0 <= i < |lines| ==> !Owns(name, lines[i])
  {
    if lines == [] then -1
    else if Owns(name, lines[0]) then 0
    else
      var rest := FirstOwned(lines[1..], name);
      if rest < 0 then -1 else rest + 1
  }

  function DropBlankTail(lines: seq<string>): (r: seq<string>)
    ensures |r| <= |lines| && r == lines[..|r|]
    ensures forall i :: |r| <= i < |lines| ==> lines[i] == ""
  {
    if lines != [] && lines[|lines| - 1] == "" then DropBlankTail(lines[..|lines| - 1]) else lines
  }

  // ---------- Editing ----------

  function AddLines(lines: seq<string>, name: string, hash: string): seq<string> {
    var i := FirstOwned(lines, name);
    if i >= 0 then lines[i := FormatLine(name, hash, lines[i])]
    else DropBlankTail(lines) + [FormatLine(name, hash, "")]
  }

  function RemoveLines(lines: seq<string>, name: string): seq<string>
    decreases |lines|
  {
    if lines == [] then [] else
      var n := |lines| - 1;
      RemoveLines(lines[..n], name) + if Owns(name, lines[n]) then [] else [lines[n]]
  }

  function Renamed(line: string, name: string): string {
    Join(Split(line, ':')[0 := name], ":")
  }

  function RenameLines(lines: seq<string>, from: string, to: string): Option<seq<string>> {
    var i := FirstOwned(lines, from);
    if from != to && FirstOwned(lines, to) >= 0 then None
    else if i < 0 then None
    else Some(lines[i := Renamed(lines[i], to)])
  }

  /** A passwd file that may not exist yet. */
  type File = Option<string>

  datatype Op = Add(name: string, hash: string) | Remove(name: string) | Rename(from: string, to: string)

  function Lines(file: File): seq<string> {
    if file.None? then [""] else Split(file.value, '\n')
  }

  /** The file after one operation, and whether the operation succeeded. */
  function Step(file: File, op: Op): (File, bool) {
    match op
    case Add(raw, hash) =>
      var name := NormalizeName(raw);
      if name.None? then (file, false)
      else (Some(Join(AddLines(Lines(file), name.value, hash), "\n") + "\n"), true)
    case Remove(raw) =>
      var name := NormalizeName(raw);
      if name.None? || file.None? then (file, false)
      else (Some(Join(RemoveLines(Lines(file), name.value), "\n")), true)
    case Rename(a, b) =>
      var from, to := NormalizeName(a), NormalizeName(b);
      if from.None? || to.None? || file.None? then (file, false) else
        var lines := RenameLines(Lines(file), from.value, to.value);
        if lines.None? then (file, false) else (Some(Join(lines.value, "\n")), true)
  }

  class PasswdFile {
    var file: File

    method AddUser(raw: string, hash: string) returns (ok: bool)
      modifies this
      ensures (file, ok) == Step(old(file), Add(raw, hash))
    {
      hide NormalizeName, FormatLine, Owns, Join, Lines;
      var name := NormalizeName(raw);
      if name.None? {
        return false;
      }
      var lines := Lines(file);
      var i := 0;
      while i < |lines| && !Owns(name.value, lines[i])
        invariant 0 <= i <= |lines|
        invariant forall k :: 0 <= k < i ==> !Owns(name.value, lines[k])
      {
        i := i + 1;
      }
      if i < |lines| {
        lines := lines[i := FormatLine(name.value, hash, lines[i])];
      } else {
        ghost var all := lines;
        while |lines| > 0 && lines[|lines| - 1] == ""
          invariant DropBlankTail(lines) == DropBlankTail(all)
          decreases |lines|
        {
          lines := lines[..|lines| - 1];
        }
        lines := lines + [FormatLine(name.value, hash, "")];
      }
      file := Some(Join(lines, "\n") + "\n");
      ok := true;
    }

    method RemoveUser(raw: string) returns (ok: bool)
      modifies this
      ensures (file, ok) == Step(old(file), Remove(raw))
    {
      var name := NormalizeName(raw);
      if name.None? || file.None? {
        return false;
      }
      var lines := Lines(file);
      var kept := [];
      var i := 0;
      while i < |lines|
        invariant 0 <= i <= |lines| && kept == RemoveLines(lines[..i], name.value)
      {
        assert lines[..i + 1][..i] == lines[..i];
        if !Owns(name.value, lines[i]) {
          kept := kept + [lines[i]];
        }
        i := i + 1;
      }
      assert lines[..i] == lines;
      file := Some(Join(kept, "\n"));
      ok := true;
    }

    method RenameUser(a: string, b: string) returns (ok: bool)
      modifies this
      ensures (file, ok) == Step(old(file), Rename(a, b))
    {
      var from, to := NormalizeName(a), NormalizeName(b);
      if from.None? || to.None? || file.None? {
        return false;
      }
      var lines := Lines(file);
      if from != to {
        var taken := FindOwned(lines, to.value);
        if taken >= 0 {
          return false;
        }
      }
      var i := FindOwned(lines, from.value);
      if i < 0 {
        return false;
      }
      file := Some(Join(lines[i := Renamed(lines[i], to.value)], "\n"));
      ok := true;
    }

    static method FindOwned(lines: seq<string>, name: string) returns (i: int)
      ensures i == FirstOwned(lines, name)
    {
      i := 0;
      while i < |lines|
        invariant 0 <= i <= |lines|
        invariant forall k :: 0 <= k < i ==> !Owns(name, lines[k])
      {
        if Owns(name, lines[i]) {
          return;
        }
        i := i + 1;
      }
      i := -1;
    }
  }

  // ---------- The map the file stands for ----------

  type Users = Option<map<string, string>>

  function Meaning(file: File): Users {
    if file.None? then None else Some(LoadText(file.value))
  }

  /** The map a rename should give. */
  function MapRename(users: map<string, string>, from: string, to: string): Option<map<string, string>> {
    if from !in users || (from != to && to in users) then None else Some((users - {from})[to := users[from]])
  }

  /** The same operations on the map. */
  function MapStep(users: Users, op: Op): (Users, bool) {
    match op
    case Add(raw, hash) =>
      var name := NormalizeName(raw);
      if name.None? then (users, false)
      else (Some((if users.None? then map[] else users.value)[name.value := hash]), true)
    case Remove(raw) =>
      var name := NormalizeName(raw);
      if name.None? || users.None? then (users, false)
      else (Some(users.value - {name.value}), true)
    case Rename(a, b) =>
      var from, to := NormalizeName(a), NormalizeName(b);
      if from.None? || to.None? || users.None? then (users, false)
      else
        var renamed := MapRename(users.value, from.value, to.value);
        if renamed.None? then (users, false) else (renamed, true)
  }

  /** A user line does not start with a space. */
  predicate Tidy(line: string) {
    RecordOf(line).Record? ==> line != "" && !IsSpace(line[0])
  }

  /** A name as the checks leave it. */
  predicate IsName(name: string) {
    NormalizeName(name) == Some(name)
  }

  /** The checks allow it, but the reader takes its line for a comment. */
  predicate Commented(name: string) {
    name != "" && name[0] == '#'
  }

  predicate HashOk(hash: string) {
    ':' !in hash && '\n' !in hash
  }

  predicate DifferentUsers(a: string, b: string) {
    RecordOf(a).Record? && RecordOf(b).Record? ==> RecordOf(a).name != RecordOf(b).name
  }

  /** Unique, unindented user lines. */
  predicate Good(lines: seq<string>) {
    && (forall i :: 0 <= i < |lines| ==> Tidy(lines[i]))
    && (forall i, j :: 0 <= i < j < |lines| ==> DifferentUsers(lines[i], lines[j]))
  }

  lemma {:induction false} TrimRightKeeps(p: string, rest: string)
    requires p != "" && !IsSpace(p[|p| - 1])
    ensures TrimRight(p + rest) == p + TrimRight(rest)
    decreases |rest|
  {
    if rest == "" {
      assert p + rest == p;
    } else {
      assert (p + rest)[..|p + rest| - 1] == p + rest[..|rest| - 1];
      TrimRightKeeps(p, rest[..|rest| - 1]);
    }
  }

  function HashIn(rest: string): string {
    Split(TrimRight(rest), ':')[0]
  }

  /** What the line of a name says. */
  function LineRecord(name: string, hash: string): Record {
    if Commented(name) then NoRecord else Record(name, hash)
  }

  /** A line that starts with a name and a colon is that user's line, or a comment. */
  lemma OwnedRecord(name: string, rest: string)
    requires IsName(name)
    ensures RecordOf(name + ":" + rest) == LineRecord(name, HashIn(rest))
    ensures Tidy(name + ":" + rest)
  {
    var line := name + ":" + rest;
    NameShape(name);
    assert line[0] == name[0];
    assert TrimLeft(line) == line;
    TrimRightKeeps(name + ":", rest);
    assert TrimSpace(line) == name + [':'] + TrimRight(rest);
    SplitFirst(name, ':', TrimRight(rest));
  }

  lemma NameShape(name: string)
    requires IsName(name)
    ensures name != "" && !IsSpace(name[0]) && ':' !in name && '\n' !in name
  {
    TrimLeftEnd(name);
    TrimRightEnds(TrimLeft(name));
    assert TrimLeft(name) == name;
  }

  lemma {:induction false} SplitHead(s: string, sep: char)
    requires |Split(s, sep)| >= 2
    ensures Split(s, sep)[0] + [sep] <= s
  {
    if s[0] != sep {
      SplitHead(s[1..], sep);
      assert [s[0]] + s[1..] == s;
    }
  }

  /** On tidy lines the prefix test of the editing code and the reader agree on whose line it
      is, comments apart. */
  lemma OwnsIsRecord(name: string, line: string)
    requires IsName(name) && Tidy(line)
    ensures RecordOf(line).Record? && RecordOf(line).name == name <==> Owns(name, line) && !Commented(name)
    ensures Owns(name, line) ==> RecordOf(line) == LineRecord(name, HashIn(line[|name| + 1..]))
  {
    if Owns(name, line) {
      assert line == name + ":" + line[|name| + 1..];
      OwnedRecord(name, line[|name| + 1..]);
    }
    if RecordOf(line).Record? && RecordOf(line).name == name {
      assert TrimLeft(line) == line;
      TrimRightEnds(line);
      SplitHead(TrimSpace(line), ':');
      assert name + [':'] <= TrimSpace(line) <= line;
    }
  }

  lemma {:induction false} LoadHas(lines: seq<string>, i: nat)
    requires Good(lines) && i < |lines| && RecordOf(lines[i]).Record?
    ensures var r := RecordOf(lines[i]); r.name in Load(lines) && Load(lines)[r.name] == r.hash
    decreases |lines|
  {
    hide RecordOf, Tidy;
    var n := |lines| - 1;
    if i < n {
      assert DifferentUsers(lines[i], lines[n]);
      LoadHas(lines[..n], i);
    }
  }

  lemma {:induction false} LoadFrom(lines: seq<string>, name: string) returns (i: nat)
    requires name in Load(lines)
    ensures i < |lines| && RecordOf(lines[i]) == Record(name, Load(lines)[name])
    decreases |lines|
  {
    var n := |lines| - 1;
    if RecordOf(lines[n]).Record? && RecordOf(lines[n]).name == name {
      i := n;
    } else {
      i := LoadFrom(lines[..n], name);
    }
  }

  /** The map is fixed by which records the lines hold. */
  predicate Holds(lines: seq<string>, name: string, hash: string) {
    exists i :: 0 <= i < |lines| && RecordOf(lines[i]) == Record(name, hash)
  }

  lemma LoadIs(lines: seq<string>, name: string, hash: string)
    requires Good(lines)
    ensures Holds(lines, name, hash) <==> name in Load(lines) && Load(lines)[name] == hash
  {
    if Holds(lines, name, hash) {
      var i :| 0 <= i < |lines| && RecordOf(lines[i]) == Record(name, hash);
      LoadHas(lines, i);
    }
    if name in Load(lines) {
      var i := LoadFrom(lines, name);
    }
  }

  ghost predicate HoldsMap(lines: seq<string>, users: map<string, string>) {
    forall name: string, hash: string :: Holds(lines, name, hash) <==> name in users && users[name] == hash
  }

  lemma SameMap(lines: seq<string>, users: map<string, string>)
    requires Good(lines)
    ensures HoldsMap(lines, users) <==> Load(lines) == users
  {
    forall name: string, hash: string
      ensures Holds(lines, name, hash) <==> name in Load(lines) && Load(lines)[name] == hash
    {
      LoadIs(lines, name, hash);
    }
    if HoldsMap(lines, users) {
      forall name ensures name in Load(lines) <==> name in users
                  ensures name in users && name in Load(lines) ==> Load(lines)[name] == users[name] {
        if name in users { assert Holds(lines, name, users[name]); }
        if name in Load(lines) { assert Holds(lines, name, Load(lines)[name]); }
      }
    }
  }

  // ---------- What each edit does to the lines ----------

  /** Lines of nobody in particular and of other users. */
  function Others(lines: seq<string>, a: string, b: string): seq<string>
    decreases |lines|
  {
    if lines == [] then [] else
      var n := |lines| - 1;
      Others(lines[..n], a, b)
      + if lines[n] == "" || Owns(a, lines[n]) || Owns(b, lines[n]) then [] else [lines[n]]
  }

  predicate OneLine(line: string) {
    '\n' !in line
  }

  predicate OneLiners(lines: seq<string>) {
    forall i :: 0 <= i < |lines| ==> OneLine(lines[i])
  }

  lemma FieldsOneLine(existing: string)
    requires OneLine(existing)
    ensures forall i :: 0 <= i < |Split(existing, ':')| ==> OneLine(Split(existing, ':')[i])
  {
  }

  lemma {:induction false} SplitFree(s: string, sep: char, i: nat, c: char)
    requires c !in s && i < |Split(s, sep)|
    ensures c !in Split(s, sep)[i]
  {
    if s != "" {
      if s[0] == sep {
        if i > 0 { SplitFree(s[1..], sep, i - 1, c); }
      } else {
        SplitFree(s[1..], sep, i, c);
      }
    }
  }

  lemma {:induction false} JoinOneLine(parts: seq<string>)
    requires OneLiners(parts)
    ensures OneLine(Join(parts, ":"))
  {
    if |parts| > 1 {
      JoinOneLine(parts[1..]);
    }
  }

  lemma TrailerOneLine(existing: string)
    requires OneLine(existing)
    ensures OneLine(Join(Trailer(existing), ":"))
  {
    FieldsOneLine(existing);
    hide Split;
    assert OneLiners(Trailer(existing));
    JoinOneLine(Trailer(existing));
  }

  /** A formatted line says what it was asked to say, whatever line it replaces; or it is a
      comment, by its name. */
  lemma FormatRecord(name: string, hash: string, existing: string)
    requires IsName(name) && HashOk(hash) && OneLine(existing)
    ensures var line := FormatLine(name, hash, existing);
            RecordOf(line) == LineRecord(name, hash) && Tidy(line) && OneLine(line) && Owns(name, line)
  {
    var more := Join(Trailer(existing), ":");
    TrailerOneLine(existing);
    NameShape(name);
    assert FormatLine(name, hash, existing) == name + ":" + (hash + ":" + more);
    hide Trailer, FormatLine, RecordOf, Tidy, HashIn, Join;
    OwnedRecord(name, hash + ":" + more);
    HashComesBack(hash, more);
  }

  lemma HashComesBack(hash: string, more: string)
    requires ':' !in hash
    ensures HashIn(hash + ":" + more) == hash
  {
    TrimRightKeeps(hash + ":", more);
    assert hash + ":" + TrimRight(more) == hash + [':'] + TrimRight(more);
    SplitFirst(hash, ':', TrimRight(more));
  }

  lemma RenamedText(line: string, from: string, to: string)
    requires ':' !in from && Owns(from, line)
    ensures Renamed(line, to) == to + ":" + line[|from| + 1..]
  {
    var rest := line[|from| + 1..];
    assert line == from + [':'] + rest;
    SplitFirst(from, ':', rest);
    var tail := Split(rest, ':');
    assert ([from] + tail)[0 := to] == [to] + tail;
    JoinSplit(rest, ':');
    JoinHead(to, tail);
  }

  /** A renamed line keeps its hash and everything behind the name. */
  lemma RenamedRecord(line: string, from: string, to: string)
    requires IsName(from) && IsName(to) && Owns(from, line) && OneLine(line)
    ensures Renamed(line, to) == to + ":" + line[|from| + 1..]
    ensures var hash := HashIn(line[|from| + 1..]);
            RecordOf(line) == LineRecord(from, hash) && RecordOf(Renamed(line, to)) == LineRecord(to, hash)
    ensures Tidy(Renamed(line, to)) && OneLine(Renamed(line, to)) && Owns(to, Renamed(line, to))
  {
    var rest := line[|from| + 1..];
    NameShape(from);
    NameShape(to);
    RenamedText(line, from, to);
    assert line == from + ":" + rest;
    hide RecordOf, Tidy, HashIn, Renamed, IsName;
    OwnedRecord(from, rest);
    OwnedRecord(to, rest);
  }

  lemma JoinHead(head: string, tail: seq<string>)
    requires tail != []
    ensures Join([head] + tail, ":") == head + ":" + Join(tail, ":")
  {
    assert ([head] + tail)[1..] == tail;
  }

  /** The users after a line that said `was` says `now`. */
  function Replaced(users: map<string, string>, was: Record, now: Record): map<string, string> {
    var left := if was.Record? then users - {was.name} else users;
    if now.Record? then left[now.name := now.hash] else left
  }

  /** The new line's user is the old line's, or is not there yet. */
  predicate Fits(lines: seq<string>, was: Record, now: Record) {
    now.Record? ==> now.name !in Load(lines) || (was.Record? && now.name == was.name)
  }

  lemma ReplaceGood(lines: seq<string>, i: nat, line: string)
    requires Good(lines) && i < |lines| && Tidy(line) && Fits(lines, RecordOf(lines[i]), RecordOf(line))
    ensures Good(lines[i := line])
  {
    hide RecordOf, Tidy, Load;
    var next := lines[i := line];
    forall a, b | 0 <= a < b < |next| ensures DifferentUsers(next[a], next[b]) {
      assert DifferentUsers(lines[a], lines[b]);
      if a == i && RecordOf(lines[b]).Record? {
        LoadHas(lines, b);
      }
      if b == i && RecordOf(lines[a]).Record? {
        LoadHas(lines, a);
      }
    }
  }

  /** One line is rewritten in place: the map changes at the users of the two lines. */
  lemma ReplaceLine(lines: seq<string>, i: nat, line: string)
    requires Good(lines) && i < |lines| && Tidy(line) && Fits(lines, RecordOf(lines[i]), RecordOf(line))
    ensures Good(lines[i := line])
    ensures Load(lines[i := line]) == Replaced(Load(lines), RecordOf(lines[i]), RecordOf(line))
  {
    ReplaceGood(lines, i, line);
    var next := lines[i := line];
    var users := Replaced(Load(lines), RecordOf(lines[i]), RecordOf(line));
    forall name: string, hash: string ensures Holds(next, name, hash) <==> name in users && users[name] == hash {
      ReplaceHolds(lines, i, line, name, hash);
      LoadIs(lines, name, hash);
      hide Holds, Load, RecordOf, Good;
    }
    SameMap(next, users);
  }

  lemma ReplaceHolds(lines: seq<string>, i: nat, line: string, name: string, hash: string)
    requires Good(lines) && i < |lines| && Good(lines[i := line])
    ensures var was, now := RecordOf(lines[i]), RecordOf(line);
            Holds(lines[i := line], name, hash)
            <==> if now.Record? && name == now.name then hash == now.hash
                 else (was.Record? ==> name != was.name) && Holds(lines, name, hash)
  {
    hide RecordOf, Tidy;
    var next := lines[i := line];
    assert next[i] == line;
    if k :| 0 <= k < |next| && RecordOf(next[k]) == Record(name, hash) {
      if k < i {
        assert DifferentUsers(lines[k], lines[i]) && DifferentUsers(next[k], next[i]);
      } else if k > i {
        assert DifferentUsers(lines[i], lines[k]) && DifferentUsers(next[i], next[k]);
      }
    }
    if k :| 0 <= k < |lines| && RecordOf(lines[k]) == Record(name, hash) {
      assert k != i ==> next[k] == lines[k];
    }
  }

  lemma {:induction false} LoadConcatBlank(lines: seq<string>, blanks: seq<string>)
    requires forall i :: 0 <= i < |blanks| ==> blanks[i] == ""
    ensures Load(lines + blanks) == Load(lines)
    decreases |blanks|
  {
    if blanks == [] {
      assert lines + blanks == lines;
    } else {
      var n := |blanks| - 1;
      assert (lines + blanks)[..|lines| + n] == lines + blanks[..n];
      assert RecordOf("") == NoRecord;
      LoadConcatBlank(lines, blanks[..n]);
    }
  }

  lemma AppendLine(base: seq<string>, line: string)
    requires Good(base) && Tidy(line)
    requires forall i :: 0 <= i < |base| ==> DifferentUsers(base[i], line)
    ensures Good(base + [line])
    ensures Load(base + [line])
            == if RecordOf(line).Record? then Load(base)[RecordOf(line).name := RecordOf(line).hash] else Load(base)
  {
    hide RecordOf, Tidy;
    assert (base + [line])[..|base|] == base;
  }

  lemma GoodPrefix(lines: seq<string>, n: nat)
    requires Good(lines) && n <= |lines|
    ensures Good(lines[..n])
  {
    hide RecordOf, Tidy, DifferentUsers;
  }

  /** Adding puts the user with the new hash into the map, unless the name makes a comment. */
  lemma AddKeeps(lines: seq<string>, name: string, hash: string)
    requires Good(lines) && OneLiners(lines) && IsName(name) && HashOk(hash)
    ensures var next := AddLines(lines, name, hash);
            && Good(next) && OneLiners(next) && next != []
            && Load(next) == if Commented(name) then Load(lines) else Load(lines)[name := hash]
  {
    hide RecordOf, Load, FormatLine, IsName, HashOk, Owns, OneLine;
    var i := FirstOwned(lines, name);
    if i >= 0 {
      FormatRecord(name, hash, lines[i]);
      OwnsIsRecord(name, lines[i]);
      ReplaceLine(lines, i, FormatLine(name, hash, lines[i]));
    } else {
      var base := DropBlankTail(lines);
      var line := FormatLine(name, hash, "");
      assert OneLine("") by { BlankOneLine(); }
      FormatRecord(name, hash, "");
      assert lines == base + lines[|base|..];
      LoadConcatBlank(base, lines[|base|..]);
      GoodPrefix(lines, |base|);
      forall k | 0 <= k < |base| ensures DifferentUsers(base[k], line) {
        OwnsIsRecord(name, lines[k]);
      }
      AppendLine(base, line);
    }
  }

  lemma BlankOneLine()
    ensures OneLine("")
  {
  }

  lemma UpdateThenRemove(m: map<string, string>, k: string, v: string, gone: string)
    requires k != gone
    ensures (m - {gone})[k := v] == m[k := v] - {gone}
  {
  }

  predicate AllFrom(next: seq<string>, lines: seq<string>) {
    forall i :: 0 <= i < |next| ==> next[i] in lines
  }

  /** A good list and one more line that differs from each. */
  lemma GoodSnoc(rest: seq<string>, line: string)
    requires Good(rest) && Tidy(line) && forall i :: 0 <= i < |rest| ==> DifferentUsers(rest[i], line)
    ensures Good(rest + [line])
  {
    hide RecordOf, DifferentUsers, Tidy;
  }

  lemma LastDiffers(rest: seq<string>, lines: seq<string>, n: nat, i: nat)
    requires |lines| == n + 1 && Good(lines) && AllFrom(rest, lines[..n]) && i < |rest|
    ensures DifferentUsers(rest[i], lines[n])
  {
    hide DifferentUsers, Tidy;
    var k :| 0 <= k < n && lines[k] == rest[i];
  }

  lemma LastTidy(lines: seq<string>, n: nat)
    requires |lines| == n + 1 && Good(lines)
    ensures Tidy(lines[n])
  {
  }

  lemma {:induction false} RemoveFrom(lines: seq<string>, name: string)
    ensures AllFrom(RemoveLines(lines, name), lines)
    decreases |lines|
  {
    hide Owns;
    if lines != [] {
      RemoveFrom(lines[..|lines| - 1], name);
    }
  }

  lemma {:induction false} RemoveGood(lines: seq<string>, name: string)
    requires Good(lines)
    ensures Good(RemoveLines(lines, name))
    decreases |lines|
  {
    hide Owns, Good, DifferentUsers, Tidy, AllFrom;
    if lines == [] {
      assert RemoveLines(lines, name) == lines;
    } else {
      var n := |lines| - 1;
      GoodPrefix(lines, n);
      RemoveGood(lines[..n], name);
      var rest := RemoveLines(lines[..n], name);
      if Owns(name, lines[n]) {
        assert RemoveLines(lines, name) == rest;
      } else {
        assert RemoveLines(lines, name) == rest + [lines[n]];
        RemoveFrom(lines[..n], name);
        hide RemoveLines;
        LastTidy(lines, n);
        forall i | 0 <= i < |rest| ensures DifferentUsers(rest[i], lines[n]) {
          LastDiffers(rest, lines, n, i);
        }
        GoodSnoc(rest, lines[n]);
      }
    }
  }

  lemma FromOneLiners(next: seq<string>, lines: seq<string>)
    requires AllFrom(next, lines) && OneLiners(lines)
    ensures OneLiners(next)
  {
    hide OneLine;
  }

  lemma RemoveLast(lines: seq<string>, name: string, n: nat)
    requires |lines| == n + 1
    ensures var rest := RemoveLines(lines[..n], name);
            RemoveLines(lines, name) == if Owns(name, lines[n]) then rest else rest + [lines[n]]
  {
    hide Owns;
  }

  lemma LoadSnoc(rest: seq<string>, line: string)
    ensures var r := RecordOf(line);
            Load(rest + [line]) == if r.Record? then Load(rest)[r.name := r.hash] else Load(rest)
  {
    assert (rest + [line])[..|rest|] == rest;
    hide RecordOf;
  }

  lemma {:induction false} RemoveLoads(lines: seq<string>, name: string)
    requires IsName(name) && forall i :: 0 <= i < |lines| ==> Tidy(lines[i])
    ensures Load(RemoveLines(lines, name)) == Load(lines) - {name}
    decreases |lines|
  {
    hide RecordOf, IsName, Owns, Tidy, Load, HashIn, Commented;
    if lines == [] {
      assert Load([]) - {name} == Load([]) by { LoadNothing(); }
    } else {
      var n := |lines| - 1;
      hide RemoveLines;
      RemoveLoads(lines[..n], name);
      var rest, r := RemoveLines(lines[..n], name), RecordOf(lines[n]);
      OwnsIsRecord(name, lines[n]);
      RemoveLast(lines, name, n);
      assert lines == lines[..n] + [lines[n]];
      LoadSnoc(lines[..n], lines[n]);
      if !Owns(name, lines[n]) {
        LoadSnoc(rest, lines[n]);
        if r.Record? {
          UpdateThenRemove(Load(lines[..n]), r.name, r.hash, name);
        }
      }
    }
  }

  lemma LoadNothing()
    ensures Load([]) == map[]
  {
  }

  /** Removing takes exactly that user out of the map. */
  lemma RemoveKeeps(lines: seq<string>, name: string)
    requires Good(lines) && OneLiners(lines) && IsName(name)
    ensures var next := RemoveLines(lines, name);
            Good(next) && OneLiners(next) && Load(next) == Load(lines) - {name}
  {
    RemoveGood(lines, name);
    RemoveFrom(lines, name);
    FromOneLiners(RemoveLines(lines, name), lines);
    RemoveLoads(lines, name);
  }

  /** A rename finds the first line of the old name and none of the new one; the line goes over
      to the new name with its hash, and either name may make it a comment. */
  lemma RenameKeeps(lines: seq<string>, from: string, to: string)
    requires Good(lines) && OneLiners(lines) && IsName(from) && IsName(to)
    ensures var next := RenameLines(lines, from, to); var i := FirstOwned(lines, from);
            && (next.Some? <==> i >= 0 && (from == to || FirstOwned(lines, to) < 0))
            && (next.Some? ==>
                  (var hash := HashIn(lines[i][|from| + 1..]);
                   && Good(next.value) && OneLiners(next.value) && |next.value| == |lines|
                   && Load(next.value) == Replaced(Load(lines), LineRecord(from, hash), LineRecord(to, hash))))
    ensures !Commented(from) && FirstOwned(lines, from) >= 0
            ==> from in Load(lines) && Load(lines)[from] == HashIn(lines[FirstOwned(lines, from)][|from| + 1..])
  {
    OwnedIffLoaded(lines, from);
    OwnedIffLoaded(lines, to);
    var i := FirstOwned(lines, from);
    if i >= 0 {
      OwnsIsRecord(from, lines[i]);
      if !Commented(from) {
        LoadHas(lines, i);
      }
      if RenameLines(lines, from, to).Some? {
        RenamedRecord(lines[i], from, to);
        hide RecordOf, Load, IsName, Owns, OneLine, Tidy, Renamed;
        ReplaceLine(lines, i, Renamed(lines[i], to));
      }
    }
  }

  lemma OwnedIffLoaded(lines: seq<string>, name: string)
    requires Good(lines) && IsName(name)
    ensures name in Load(lines) <==> FirstOwned(lines, name) >= 0 && !Commented(name)
  {
    var i := FirstOwned(lines, name);
    if i >= 0 && !Commented(name) {
      OwnsIsRecord(name, lines[i]);
      LoadHas(lines, i);
    }
    if name in Load(lines) {
      var k := LoadFrom(lines, name);
      OwnsIsRecord(name, lines[k]);
    }
  }

  // ---------- The file refines the map ----------

  predicate GoodFile(file: File) {
    file.Some? ==> Good(Split(file.value, '\n'))
  }

  /** When an operation does to the text what it does to the map. Adding must not make a
      comment; a rename must not turn a user's line into one, nor a comment into a user. */
  predicate RefinesWhen(file: File, op: Op) {
    match op
    case Add(raw, _) => NormalizeName(raw).Some? ==> !Commented(NormalizeName(raw).value)
    case Remove(_) => true
    case Rename(a, b) =>
      var from, to := NormalizeName(a), NormalizeName(b);
      from.Some? && to.Some? && file.Some? ==> RenameWhen(Lines(file), from.value, to.value)
  }

  /** The hash is one field of one line. */
  predicate OpOk(op: Op) {
    op.Add? ==> HashOk(op.hash)
  }

  lemma NormalTwice(raw: string)
    requires NormalizeName(raw).Some?
    ensures NormalizeName(NormalizeName(raw).value) == NormalizeName(raw)
  {
    TrimTwice(raw);
  }

  lemma TextOf(lines: seq<string>)
    requires lines != [] && OneLiners(lines)
    ensures Split(Join(lines, "\n"), '\n') == lines
    ensures Split(Join(lines, "\n") + "\n", '\n') == lines + [""]
  {
    SplitJoin(lines, '\n');
    JoinBlank(lines);
    assert "\n" == ['\n'];
    SplitJoin(lines + [""], '\n');
  }

  lemma {:induction false} JoinBlank(lines: seq<string>)
    requires lines != []
    ensures Join(lines + [""], "\n") == Join(lines, "\n") + "\n"
  {
    if |lines| == 1 {
      assert (lines + [""])[1..] == [""];
    } else {
      assert (lines + [""])[1..] == lines[1..] + [""];
      JoinBlank(lines[1..]);
    }
  }

  lemma GoodBlank(lines: seq<string>)
    requires Good(lines)
    ensures Good(lines + [""]) && Load(lines + [""]) == Load(lines)
  {
    assert RecordOf("") == NoRecord;
    LoadConcatBlank(lines, [""]);
  }

  /** Good lines written out, with or without a final newline, read back as they are. */
  lemma TextMeans(lines: seq<string>)
    requires lines != [] && Good(lines) && OneLiners(lines)
    ensures var file := Some(Join(lines, "\n")); GoodFile(file) && Meaning(file) == Some(Load(lines))
    ensures var file := Some(Join(lines, "\n") + "\n"); GoodFile(file) && Meaning(file) == Some(Load(lines))
  {
    hide Good, OneLiners, Load, Join, Split;
    TextOf(lines);
    GoodBlank(lines);
  }

  lemma EmptyMeans()
    ensures GoodFile(Some("")) && Meaning(Some("")) == Some(map[])
  {
  }

  lemma AddRefines(file: File, raw: string, hash: string)
    requires GoodFile(file) && OpOk(Add(raw, hash))
    ensures StepOk(file, Add(raw, hash))
  {
    LinesGood(file);
    if NormalizeName(raw).Some? {
      NormalTwice(raw);
      var name := NormalizeName(raw).value;
      assert IsName(name);
      OwnedIffLoaded(Lines(file), name);
      hide NormalizeName, Good, Load, LoadText, AddLines, OneLiners, HashOk, GoodFile, Lines, Join, FirstOwned;
      AddKeeps(Lines(file), name, hash);
      TextMeans(AddLines(Lines(file), name, hash));
    }
  }

  lemma RemoveRefines(file: File, raw: string)
    requires GoodFile(file)
    ensures StepOk(file, Remove(raw))
  {
    LinesGood(file);
    if NormalizeName(raw).Some? && file.Some? {
      NormalTwice(raw);
      var name := NormalizeName(raw).value;
      assert IsName(name);
      assert Join([], "\n") == "" && Load([]) == map[];
      hide NormalizeName, Good, Load, LoadText, RemoveLines, OneLiners, GoodFile, Lines, Join;
      RemoveKeeps(Lines(file), name);
      var next := RemoveLines(Lines(file), name);
      if next != [] {
        TextMeans(next);
      } else {
        EmptyMeans();
      }
    }
  }

  /** The condition under which a rename of the lines is the rename of the map. */
  predicate RenameWhen(lines: seq<string>, from: string, to: string) {
    if Commented(from)
    then FirstOwned(lines, from) < 0 || (from != to && FirstOwned(lines, to) >= 0)
    else !Commented(to) || FirstOwned(lines, from) < 0
  }

  predicate RenamesMap(lines: seq<string>, from: string, to: string) {
    var next := RenameLines(lines, from, to);
    MapRename(Load(lines), from, to) == if next.Some? then Some(Load(next.value)) else None
  }

  lemma RenameIff(lines: seq<string>, from: string, to: string)
    requires Good(lines) && OneLiners(lines) && IsName(from) && IsName(to)
    ensures RenamesMap(lines, from, to) <==> RenameWhen(lines, from, to)
  {
    OwnedIffLoaded(lines, from);
    OwnedIffLoaded(lines, to);
    RenameKeeps(lines, from, to);
    hide Good, OneLiners, Load, RenameLines, FirstOwned, HashIn, IsName, Commented;
    var next, users := RenameLines(lines, from, to), Load(lines);
    if next.Some? && !Commented(from) && Commented(to) {
      assert Load(next.value) == users - {from};
      assert to !in Load(next.value) && to in MapRename(users, from, to).value;
    }
  }

  lemma RenameGood(lines: seq<string>, from: string, to: string)
    requires Good(lines) && OneLiners(lines) && IsName(from) && IsName(to) && RenameLines(lines, from, to).Some?
    ensures var next := RenameLines(lines, from, to).value; Good(next) && OneLiners(next) && |next| == |lines|
  {
    RenameKeeps(lines, from, to);
  }

  lemma RenameRefines(file: File, a: string, b: string)
    requires GoodFile(file)
    ensures StepOk(file, Rename(a, b))
  {
    LinesGood(file);
    if NormalizeName(a).Some? && NormalizeName(b).Some? && file.Some? {
      NormalTwice(a);
      NormalTwice(b);
      var from, to := NormalizeName(a).value, NormalizeName(b).value;
      assert IsName(from) && IsName(to);
      RenameIff(Lines(file), from, to);
      hide *;
      var next := RenameLines(Lines(file), from, to);
      if next.Some? {
        RenameGood(Lines(file), from, to);
        TextMeans(next.value);
        RenameStep(file, a, b, next);
      } else {
        RenameStep(file, a, b, next);
      }
    }
  }

  /** From the lines to the file. */
  lemma RenameStep(file: File, a: string, b: string, next: Option<seq<string>>)
    requires GoodFile(file) && file.Some? && NormalizeName(a).Some? && NormalizeName(b).Some?
    requires var from, to := NormalizeName(a).value, NormalizeName(b).value;
             && next == RenameLines(Lines(file), from, to)
             && (RenamesMap(Lines(file), from, to) <==> RenameWhen(Lines(file), from, to))
    requires next.Some? ==> var text := Some(Join(next.value, "\n")); GoodFile(text) && Meaning(text) == Some(Load(next.value))
    requires Load(Lines(file)) == Meaning(file).value
    ensures StepOk(file, Rename(a, b))
  {
    hide NormalizeName, Good, GoodFile, Load, LoadText, RenameLines, Lines, Join, RenameWhen, MapRename;
  }

  predicate StepOk(file: File, op: Op) {
    var (next, ok) := Step(file, op);
    GoodFile(next) && ((Meaning(next), ok) == MapStep(Meaning(file), op) <==> RefinesWhen(file, op))
  }

  /** One operation keeps the file good, and is the operation on the map exactly when no name
      in it turns a user's line into a comment or a comment into a user's line. */
  lemma StepRefines(file: File, op: Op)
    requires GoodFile(file) && OpOk(op)
    ensures var (next, ok) := Step(file, op);
            GoodFile(next) && ((Meaning(next), ok) == MapStep(Meaning(file), op) <==> RefinesWhen(file, op))
  {
    match op {
      case Add(raw, hash) => AddRefines(file, raw, hash);
      case Remove(raw) => RemoveRefines(file, raw);
      case Rename(a, b) => RenameRefines(file, a, b);
    }
    hide Step, MapStep, Meaning, GoodFile;
  }

  lemma LinesGood(file: File)
    requires GoodFile(file)
    ensures Good(Lines(file)) && OneLiners(Lines(file)) && Lines(file) != []
    ensures Load(Lines(file)) == if file.Some? then Meaning(file).value else map[]
  {
  }

  function Run(file: File, ops: seq<Op>): File
    decreases |ops|
  {
    if ops == [] then file else Run(Step(file, ops[0]).0, ops[1..])
  }

  function MapRun(users: Users, ops: seq<Op>): Users
    decreases |ops|
  {
    if ops == [] then users else MapRun(MapStep(users, ops[0]).0, ops[1..])
  }

  predicate AllRefine(file: File, ops: seq<Op>)
    decreases |ops|
  {
    ops == [] || (OpOk(ops[0]) && RefinesWhen(file, ops[0]) && AllRefine(Step(file, ops[0]).0, ops[1..]))
  }

  /** After any run of such edits the file loads as the map after the same edits. */
  lemma {:induction false} FileRefinesMap(file: File, ops: seq<Op>)
    requires GoodFile(file) && AllRefine(file, ops)
    ensures GoodFile(Run(file, ops)) && Meaning(Run(file, ops)) == MapRun(Meaning(file), ops)
    decreases |ops|
  {
    if ops != [] {
      StepRefines(file, ops[0]);
      FileRefinesMap(Step(file, ops[0]).0, ops[1..]);
    }
  }

  predicate PlainName(raw: string) {
    NormalizeName(raw).Some? ==> !Commented(NormalizeName(raw).value)
  }

  predicate PlainNames(op: Op) {
    match op
    case Add(raw, _) => PlainName(raw)
    case Remove(_) => true
    case Rename(a, b) => PlainName(a) && PlainName(b)
  }

  /** In particular edits whose added and renamed names do not start with '#'. */
  lemma {:induction false} PlainNamesRefine(file: File, ops: seq<Op>)
    requires forall i :: 0 <= i < |ops| ==> OpOk(ops[i]) && PlainNames(ops[i])
    ensures AllRefine(file, ops)
    decreases |ops|
  {
    hide Step;
    if ops != [] {
      PlainNamesRefine(Step(file, ops[0]).0, ops[1..]);
    }
  }

  // ---------- Other users' lines ----------

  lemma {:induction false} OthersConcat(x: seq<string>, y: seq<string>, a: string, b: string)
    ensures Others(x + y, a, b) == Others(x, a, b) + Others(y, a, b)
    decreases |y|
  {
    if y == [] {
      assert x + y == x;
    } else {
      var n := |y| - 1;
      assert (x + y)[..|x| + n] == x + y[..n];
      OthersConcat(x, y[..n], a, b);
    }
  }

  lemma {:induction false} OthersBlank(blanks: seq<string>, a: string, b: string)
    requires forall i :: 0 <= i < |blanks| ==> blanks[i] == ""
    ensures Others(blanks, a, b) == []
    decreases |blanks|
  {
    if blanks != [] {
      OthersBlank(blanks[..|blanks| - 1], a, b);
    }
  }

  lemma OthersReplaced(lines: seq<string>, i: nat, line: string, a: string, b: string)
    requires i < |lines|
    requires (Owns(a, lines[i]) || Owns(b, lines[i])) && (Owns(a, line) || Owns(b, line))
    ensures Others(lines[i := line], a, b) == Others(lines, a, b)
  {
    var x, y := lines[..i], lines[i + 1..];
    assert lines == x + [lines[i]] + y && lines[i := line] == x + [line] + y;
    assert Others([lines[i]], a, b) == [] && Others([line], a, b) == [] by {
      assert [lines[i]][..0] == [] && [line][..0] == [];
    }
    hide Others, Owns;
    OthersConcat(x + [lines[i]], y, a, b);
    OthersConcat(x, [lines[i]], a, b);
    OthersConcat(x + [line], y, a, b);
    OthersConcat(x, [line], a, b);
  }

  /** Adding leaves every line of another user, in place and in order. */
  lemma AddLeavesOthers(lines: seq<string>, name: string, hash: string)
    ensures Others(AddLines(lines, name, hash), name, name) == Others(lines, name, name)
  {
    var i := FirstOwned(lines, name);
    if i >= 0 {
      assert Owns(name, FormatLine(name, hash, lines[i]));
      OthersReplaced(lines, i, FormatLine(name, hash, lines[i]), name, name);
    } else {
      var base, line := DropBlankTail(lines), FormatLine(name, hash, "");
      assert lines == base + lines[|base|..];
      assert Owns(name, line);
      assert Others([line], name, name) == [] by { assert [line][..0] == []; }
      hide Others;
      OthersConcat(base, lines[|base|..], name, name);
      OthersBlank(lines[|base|..], name, name);
      OthersConcat(base, [line], name, name);
    }
  }

  lemma {:induction false} RemoveLeavesOthers(lines: seq<string>, name: string)
    ensures Others(RemoveLines(lines, name), name, name) == Others(lines, name, name)
    decreases |lines|
  {
    if lines != [] {
      var n := |lines| - 1;
      RemoveLeavesOthers(lines[..n], name);
      var rest, last := RemoveLines(lines[..n], name), [lines[n]];
      assert lines == lines[..n] + last;
      OthersConcat(lines[..n], last, name, name);
      hide Owns, Others;
      if Owns(name, lines[n]) {
        assert RemoveLines(lines, name) == rest;
        OwnedIsNotOther(lines[n], name);
      } else {
        assert RemoveLines(lines, name) == rest + last;
        OthersConcat(rest, last, name, name);
      }
    }
  }

  lemma OwnedIsNotOther(line: string, name: string)
    requires Owns(name, line)
    ensures Others([line], name, name) == []
  {
    assert [line][..0] == [];
  }

  lemma RenameLeavesOthers(lines: seq<string>, from: string, to: string)
    requires ':' !in from && RenameLines(lines, from, to).Some?
    ensures Others(RenameLines(lines, from, to).value, from, to) == Others(lines, from, to)
  {
    var i := FirstOwned(lines, from);
    RenamedText(lines[i], from, to);
    assert Owns(to, Renamed(lines[i], to));
    OthersReplaced(lines, i, Renamed(lines[i], to), from, to);
  }

  // ---------- The fields of a user's line ----------

  /** Field i of a line, or a default where it is missing or blank. */
  predicate KeptOr(existing: string, i: nat, default: string, field: string) {
    var fields := Split(existing, ':');
    field == if i < |fields| && !Blank(fields[i]) then fields[i] else default
  }

  lemma BlankIsTrimmed(s: string)
    ensures Blank(s) <==> TrimSpace(s) == ""
  {
    TrimLeftBlank(s);
    TrimRightEnds(TrimLeft(s));
    TrimLeftEnd(s);
    if TrimSpace(s) == "" && TrimLeft(s) != "" {
      TrimRightBlank(TrimLeft(s));
    }
  }

  lemma {:induction false} TrimLeftBlank(s: string)
    ensures Blank(s) <==> TrimLeft(s) == ""
  {
    if s != "" && IsSpace(s[0]) {
      TrimLeftBlank(s[1..]);
      assert s == [s[0]] + s[1..];
    }
  }

  lemma {:induction false} TrimRightBlank(s: string)
    requires TrimRight(s) == ""
    ensures Blank(s)
  {
    if s != "" {
      TrimRightBlank(s[..|s| - 1]);
      assert s == s[..|s| - 1] + [s[|s| - 1]];
    }
  }

  lemma FieldIsKeptOr(existing: string, i: nat, default: string)
    requires i > 0
    ensures KeptOr(existing, i, default, FieldOr(if existing == "" then [] else Split(existing, ':'), i, default))
  {
    var fields := Split(existing, ':');
    if i < |fields| {
      BlankIsTrimmed(fields[i]);
    }
    hide TrimSpace, Blank;
  }

  lemma {:induction false} TrailerFree(existing: string)
    ensures |Trailer(existing)| == 5 && forall i :: 0 <= i < 5 ==> ':' !in Trailer(existing)[i]
  {
    hide TrimSpace;
  }

  /** A line written for a user has seven fields: the name, the new hash, and in their places the
      other fields of the line it replaces, or the defaults for those that are missing or blank. */
  lemma FieldsStay(name: string, hash: string, existing: string)
    requires ':' !in name && ':' !in hash
    ensures var fields := Split(FormatLine(name, hash, existing), ':');
            && |fields| == 7 && fields[0] == name && fields[1] == hash
            && KeptOr(existing, 2, "100", fields[2]) && KeptOr(existing, 3, "300", fields[3]) && KeptOr(existing, 4, "0", fields[4])
            && KeptOr(existing, 5, "/site", fields[5]) && KeptOr(existing, 6, "/bin/false", fields[6])
  {
    FieldIsKeptOr(existing, 2, "100");
    FieldIsKeptOr(existing, 3, "300");
    FieldIsKeptOr(existing, 4, "0");
    FieldIsKeptOr(existing, 5, "/site");
    FieldIsKeptOr(existing, 6, "/bin/false");
    TrailerFree(existing);
    var t := Trailer(existing);
    hide Split, Join, FieldOr, KeptOr;
    SplitFirst(name, ':', hash + ":" + Join(Trailer(existing), ":"));
    SplitFirst(hash, ':', Join(Trailer(existing), ":"));
    SplitJoin(Trailer(existing), ':');
    assert FormatLine(name, hash, existing) == name + ":" + (hash + ":" + Join(Trailer(existing), ":"));
  }

  /** Setting a user's hash anew keeps the other fields of the user's line, which stays where it is;
      a new user's line comes last and has the defaults. */
  lemma HashChangeKeepsFields(lines: seq<string>, name: string, hash: string)
    requires IsName(name) && HashOk(hash)
    ensures var i, after := FirstOwned(lines, name), AddLines(lines, name, hash);
            var existing, fields := if i >= 0 then lines[i] else "", Split(after[if i >= 0 then i else |after| - 1], ':');
            && |fields| == 7 && fields[0] == name && fields[1] == hash
            && KeptOr(existing, 2, "100", fields[2]) && KeptOr(existing, 3, "300", fields[3]) && KeptOr(existing, 4, "0", fields[4])
            && KeptOr(existing, 5, "/site", fields[5]) && KeptOr(existing, 6, "/bin/false", fields[6])
  {
    NameShape(name);
    var i := FirstOwned(lines, name);
    FieldsStay(name, hash, if i >= 0 then lines[i] else "");
    hide Split, KeptOr, FormatLine;
  }

  lemma {:induction false} BlankTail(lines: seq<string>)
    ensures var kept := DropBlankTail(lines); kept != [] ==> kept[|kept| - 1] != ""
    decreases |lines|
  {
    if lines != [] && lines[|lines| - 1] == "" {
      BlankTail(lines[..|lines| - 1]);
    }
  }

  /** A new user's line replaces the blank lines at the end of the file. */
  lemma NewLineFollows(lines: seq<string>, name: string, hash: string) returns (k: nat)
    requires FirstOwned(lines, name) < 0
    ensures k <= |lines| && AddLines(lines, name, hash) == lines[..k] + [FormatLine(name, hash, "")]
    ensures (k > 0 ==> lines[k - 1] != "") && forall i :: k <= i < |lines| ==> lines[i] == ""
  {
    BlankTail(lines);
    k := |DropBlankTail(lines)|;
    hide FormatLine;
  }

  /** A rename changes the first field of the user's line and no other. */
  lemma RenameKeepsFields(line: string, to: string)
    requires ':' !in to
    ensures Split(Renamed(line, to), ':') == Split(line, ':')[0 := to]
  {
    SplitJoin(Split(line, ':')[0 := to], ':');
  }

  // ---------- Names that make comments ----------

  /** NormalizeName lets a name start with '#', but the line written for it is then a comment to
      the reader: the added user is there afterwards exactly when the name does not. */
  lemma AddedUserLoads(lines: seq<string>, name: string, hash: string)
    requires Good(lines) && OneLiners(lines) && IsName(name) && HashOk(hash)
    ensures Load(AddLines(lines, name, hash)) == Load(lines)[name := hash] <==> !Commented(name)
  {
    AddKeeps(lines, name, hash);
    OwnedIffLoaded(lines, name);
  }

  /** A rename to such a name reports success and takes the user out of the map. */
  lemma RenameHidesUser(lines: seq<string>, from: string, to: string)
    requires Good(lines) && OneLiners(lines) && IsName(from) && IsName(to) && !Commented(from) && Commented(to)
    requires from in Load(lines) && FirstOwned(lines, to) < 0
    ensures RenameLines(lines, from, to).Some?
    ensures Load(RenameLines(lines, from, to).value) == Load(lines) - {from}
  {
    OwnedIffLoaded(lines, from);
    RenameKeeps(lines, from, to);
  }

  /** A rename from such a name makes a commented-out line a user. */
  lemma RenameRevivesComment(lines: seq<string>, from: string, to: string)
    requires Good(lines) && OneLiners(lines) && IsName(from) && IsName(to) && Commented(from) && !Commented(to)
    requires FirstOwned(lines, from) >= 0 && to !in Load(lines)
    ensures from !in Load(lines) && RenameLines(lines, from, to).Some?
    ensures var users := Load(RenameLines(lines, from, to).value);
            to in users && users == Load(lines)[to := users[to]]
  {
    OwnedIffLoaded(lines, from);
    OwnedIffLoaded(lines, to);
    RenameKeeps(lines, from, to);
  }

  lemma LettersAreName(name: string)
    requires name != "" && forall i :: 0 <= i < |name| ==> name[i] in "bobeve#"
    ensures IsName(name)
  {
    TrimIdentity(name);
    assert name != "." && name != ".." by {
      assert name[0] != '.';
    }
    hide TrimSpace;
    forall i | 0 <= i < |name| ensures name[i] !in "/\\: \t\r\n" {
      assert name[i] in "bobeve#";
    }
  }

  lemma SomeNames()
    ensures IsName("bob") && IsName("eve") && IsName("#bob")
  {
    hide IsName;
    LettersAreName("bob");
    LettersAreName("eve");
    LettersAreName("#bob");
  }

  /** Both happen: bob's line renamed to #bob, and the line of #bob renamed to eve. */
  lemma CommentsAndUsersMix()
    ensures var lines := RenameLines(["bob:x"], "bob", "#bob");
            "bob" in Load(["bob:x"]) && lines.Some? && Load(lines.value) == map[]
    ensures var lines := RenameLines(["#bob:x"], "#bob", "eve");
            Load(["#bob:x"]) == map[] && lines.Some? && "eve" in Load(lines.value)
  {
    hide IsName, Load, Good, OneLiners, RenameLines, FirstOwned;
    SomeNames();
    OneUser("bob");
    OneUser("#bob");
    assert "bob" + ":x" == "bob:x" && "#bob" + ":x" == "#bob:x";
    NotOwned("#bob", "bob:x");
    assert Commented("#bob") && !Commented("bob") && !Commented("eve");
    RenameHidesUser(["bob:x"], "bob", "#bob");
    RenameRevivesComment(["#bob:x"], "#bob", "eve");
  }

  lemma NotOwned(name: string, line: string)
    requires name != "" && line != "" && name[0] != line[0]
    ensures FirstOwned([line], name) < 0
  {
    assert (name + ":")[0] == name[0];
  }

  lemma OneUser(name: string)
    requires IsName(name)
    ensures Good([name + ":x"]) && OneLiners([name + ":x"]) && FirstOwned([name + ":x"], name) == 0
    ensures if Commented(name) then Load([name + ":x"]) == map[]
            else name in Load([name + ":x"]) && Load([name + ":x"]) - {name} == map[]
  {
    NameShape(name);
    OwnedRecord(name, "x");
    assert name + ":" <= name + ":x";
    assert [] + [name + ":x"] == [name + ":x"] && name + ":x" == name + ":" + "x";
    LoadNothing();
    hide RecordOf, Load;
    LoadSnoc([], name + ":x");
  }
}
