/** Race statistics of a zip release: files and bytes per user and per group, with percentages,
    sorted. Speeds are not part of this model. */
module RaceStats {
  import opened Text
  import opened TextOrder

  // ---------- Tallies ----------

  datatype Totals = Totals(files: nat, bytes: nat)

  function Plus(a: Totals, b: Totals): Totals {
    Totals(a.files + b.files, a.bytes + b.bytes)
  }

  datatype Row = Row(key: string, what: Totals)

  function Sum(rows: seq<Row>): Totals
    decreases |rows|
  {
    if rows == [] then Totals(0, 0) else Plus(Sum(rows[..|rows| - 1]), rows[|rows| - 1].what)
  }

  function SumOf(rows: seq<Row>, key: string): Totals
    decreases |rows|
  {
    if rows == [] then Totals(0, 0) else
      var last := rows[|rows| - 1];
      if last.key == key then Plus(SumOf(rows[..|rows| - 1], key), last.what) else SumOf(rows[..|rows| - 1], key)
  }

  predicate Keyed(rows: seq<Row>, key: string) {
    exists i :: 0 <= i < |rows| && rows[i].key == key
  }

  /** One result row per key, each with its key's total. */
  predicate Tallies(out: seq<Row>, rows: seq<Row>) {
    && (forall i, j :: 0 <= i < j < |out| ==> out[i].key != out[j].key)
    && (forall i :: 0 <= i < |out| ==> Keyed(rows, out[i].key) && out[i].what == SumOf(rows, out[i].key))
    && (forall i :: 0 <= i < |rows| ==> Keyed(out, rows[i].key))
  }

  function Without(rows: seq<Row>, key: string): seq<Row>
    decreases |rows|
  {
    if rows == [] then [] else
      var rest := Without(rows[..|rows| - 1], key);
      if rows[|rows| - 1].key == key then rest else rest + [rows[|rows| - 1]]
  }

  lemma SumSnoc(rows: seq<Row>, row: Row, key: string)
    ensures Sum(rows + [row]) == Plus(Sum(rows), row.what)
    ensures SumOf(rows + [row], key) == if row.key == key then Plus(SumOf(rows, key), row.what) else SumOf(rows, key)
  {
    assert (rows + [row])[..|rows|] == rows;
  }

  lemma WithoutSnoc(rows: seq<Row>, row: Row, key: string)
    ensures Without(rows + [row], key) == if row.key == key then Without(rows, key) else Without(rows, key) + [row]
  {
    assert (rows + [row])[..|rows|] == rows;
  }

  lemma NoRows(key: string)
    ensures Sum([]) == Totals(0, 0) && SumOf([], key) == Totals(0, 0) && Without([], key) == []
  {
  }

  lemma {:induction false} WithoutSum(rows: seq<Row>, key: string)
    ensures Sum(rows) == Plus(SumOf(rows, key), Sum(Without(rows, key)))
    decreases |rows|
  {
    hide Sum, SumOf, Without;
    if rows == [] {
      NoRows(key);
    } else {
      var init, row := rows[..|rows| - 1], rows[|rows| - 1];
      WithoutSum(init, key);
      WithoutSnoc(init, row, key);
      SumSnoc(init, row, key);
      assert init + [row] == rows;
      SumSnoc(Without(init, key), row, key);
      PlusLaws(SumOf(init, key), Sum(Without(init, key)), row.what);
    }
  }

  lemma {:induction false} PlusLaws(a: Totals, b: Totals, c: Totals)
    ensures Plus(Plus(a, b), c) == Plus(Plus(a, c), b) == Plus(a, Plus(b, c))
  {
  }

  lemma {:induction false} WithoutOther(rows: seq<Row>, key: string, other: string)
    requires other != key
    ensures SumOf(Without(rows, key), other) == SumOf(rows, other)
    decreases |rows|
  {
    hide Sum, SumOf, Without;
    if rows == [] {
      NoRows(key);
      NoRows(other);
    } else {
      var init, row := rows[..|rows| - 1], rows[|rows| - 1];
      WithoutOther(init, key, other);
      WithoutSnoc(init, row, key);
      SumSnoc(init, row, other);
      assert init + [row] == rows;
      if row.key != key {
        SumSnoc(Without(init, key), row, other);
      }
    }
  }

  lemma {:induction false} WithoutMembers(rows: seq<Row>, key: string, row: Row)
    ensures row in Without(rows, key) <==> row in rows && row.key != key
    decreases |rows|
  {
    if rows != [] {
      var n := |rows| - 1;
      WithoutMembers(rows[..n], key, row);
      assert rows == rows[..n] + [rows[n]];
    }
  }

  /** Dropping the last row of a tally leaves a tally of the other keys. */
  lemma TallyInit(out: seq<Row>, rows: seq<Row>)
    requires Tallies(out, rows) && out != []
    ensures Tallies(out[..|out| - 1], Without(rows, out[|out| - 1].key))
  {
    hide Sum, SumOf, Without;
    var n := |out| - 1;
    var key := out[n].key;
    var rest, fewer := out[..n], Without(rows, key);
    forall i | 0 <= i < |rest| ensures Keyed(fewer, rest[i].key) && rest[i].what == SumOf(fewer, rest[i].key) {
      assert out[i].key != out[n].key;
      WithoutOther(rows, key, rest[i].key);
      var k :| 0 <= k < |rows| && rows[k].key == out[i].key;
      WithoutMembers(rows, key, rows[k]);
      var m :| 0 <= m < |fewer| && fewer[m] == rows[k];
    }
    forall i | 0 <= i < |fewer| ensures Keyed(rest, fewer[i].key) {
      WithoutMembers(rows, key, fewer[i]);
      var k :| 0 <= k < |rows| && rows[k] == fewer[i];
      assert Keyed(out, rows[k].key);
      var m :| 0 <= m < |out| && out[m].key == rows[k].key;
      assert rest[m] == out[m];
    }
  }

  lemma NoneKeyed(out: seq<Row>, rows: seq<Row>)
    requires Tallies(out, rows) && out == []
    ensures rows == []
  {
    assert forall i :: 0 <= i < |rows| ==> Keyed(out, rows[i].key);
    assert |rows| > 0 ==> !Keyed([], rows[0].key);
  }

  /** A tally loses and invents nothing: its rows add up to the rows it was made from. */
  lemma {:induction false} TallyConserves(out: seq<Row>, rows: seq<Row>)
    requires Tallies(out, rows)
    ensures Sum(out) == Sum(rows)
    decreases |out|
  {
    hide Sum, SumOf, Without;
    NoRows("");
    if out == [] {
      NoneKeyed(out, rows);
    } else {
      var n := |out| - 1;
      TallyInit(out, rows);
      WithoutSum(rows, out[n].key);
      TallyConserves(out[..n], Without(rows, out[n].key));
      assert out == out[..n] + [out[n]];
      SumSnoc(out[..n], out[n], "");
    }
  }

  // ---------- Order ----------

  /** What a row is sorted by: two numbers, larger first, then a name. */
  datatype Rank = Rank(first: nat, second: nat, name: string)

  predicate Before(a: Rank, b: Rank) {
    if a.first != b.first then a.first > b.first
    else if a.second != b.second then a.second > b.second
    else TextLess(LowerAll(a.name), LowerAll(b.name))
  }

  lemma BeforeOrder(a: Rank, b: Rank, c: Rank)
    ensures !(Before(a, b) && Before(b, a))
    ensures Before(a, b) && Before(b, c) ==> Before(a, c)
  {
    TextLessOrder(LowerAll(a.name), LowerAll(b.name), LowerAll(c.name));
  }

  predicate Sorted(ranks: seq<Rank>) {
    forall i, j :: 0 <= i < j < |ranks| ==> !Before(ranks[j], ranks[i])
  }

  /** Where a new rank goes. */
  function Place(ranks: seq<Rank>, r: Rank): (k: nat)
    ensures k <= |ranks| && (forall i :: 0 <= i < k ==> !Before(r, ranks[i])) && (k < |ranks| ==> Before(r, ranks[k]))
  {
    if ranks == [] || Before(r, ranks[0]) then 0 else 1 + Place(ranks[1..], r)
  }

  lemma PlaceSorts(ranks: seq<Rank>, r: Rank)
    requires Sorted(ranks)
    ensures var k := Place(ranks, r); Sorted(ranks[..k] + [r] + ranks[k..])
  {
    var k := Place(ranks, r);
    forall j | k <= j < |ranks| ensures !Before(ranks[j], r) {
      BeforeOrder(ranks[j], r, ranks[k]);
    }
    hide Before;
  }

  // ---------- Users ----------

  datatype Entry = Entry(name: string, isDir: bool, isSymlink: bool, zipPayload: bool,
                         size: nat, owner: string, group: string, xferTime: int)

  /** A user of a race, or a group under its own name. */
  datatype Racer = Racer(name: string, group: string, files: nat, bytes: nat, percent: nat, durationMs: nat)

  predicate Payload(e: Entry) {
    !e.isDir && !e.isSymlink && !("." <= TrimSpace(e.name)) && e.zipPayload
  }

  function Owner(e: Entry): string {
    if e.owner == "" then "unknown" else e.owner
  }

  function GroupName(group: string): string {
    if group == "" then "NoGroup" else group
  }

  function FileRow(e: Entry): Row {
    Row(Owner(e), Totals(1, e.size))
  }

  /** Every payload file as a row. */
  function PayloadRows(entries: seq<Entry>): seq<Row>
    decreases |entries|
  {
    if entries == [] then [] else
      var n := |entries| - 1;
      if Payload(entries[n]) then PayloadRows(entries[..n]) + [FileRow(entries[n])] else PayloadRows(entries[..n])
  }

  /** Those whose transfer was timed. */
  function TimedRows(entries: seq<Entry>): seq<Row>
    decreases |entries|
  {
    if entries == [] then [] else
      var n := |entries| - 1;
      if Payload(entries[n]) && entries[n].xferTime > 0 then TimedRows(entries[..n]) + [FileRow(entries[n])] else TimedRows(entries[..n])
  }

  function UserRow(u: Racer): Row {
    Row(u.name, Totals(u.files, u.bytes))
  }

  function UserRows(users: seq<Racer>): (r: seq<Row>)
    ensures |r| == |users| && forall i :: 0 <= i < |users| ==> r[i] == UserRow(users[i])
  {
    seq(|users|, i requires 0 <= i < |users| => UserRow(users[i]))
  }

  /** What a result is sorted by. */
  type Ranking = Racer -> Rank

  function ByFiles(): Ranking {
    (u: Racer) => Rank(u.files, u.bytes, u.name)
  }

  function ByBytes(): Ranking {
    (u: Racer) => Rank(u.bytes, u.files, u.name)
  }

  function Ranks(users: seq<Racer>, rank: Ranking): (r: seq<Rank>)
    ensures |r| == |users| && forall i :: 0 <= i < |users| ==> r[i] == rank(users[i])
  {
    seq(|users|, i requires 0 <= i < |users| => rank(users[i]))
  }

  function PercentBase(total: nat, expectedTotal: int): nat {
    if expectedTotal > 0 then expectedTotal else total
  }

  function Percent(files: nat, base: nat): nat {
    if base > 0 then files * 100 / base else 0
  }

  predicate Accumulated(users: map<string, Racer>, rows: seq<Row>) {
    && (forall name | name in users :: Keyed(rows, name) && UserRow(users[name]) == Row(name, SumOf(rows, name)))
    && (forall i :: 0 <= i < |rows| ==> rows[i].key in users)
  }

  function Credit(users: map<string, Racer>, key: string, group: string, what: Totals, ms: nat): Racer {
    var u := if key in users then users[key] else Racer(key, group, 0, 0, 0, 0);
    u.(files := u.files + what.files, bytes := u.bytes + what.bytes, durationMs := u.durationMs + ms)
  }

  lemma {:induction false} NotKeyed(rows: seq<Row>, key: string)
    requires !Keyed(rows, key)
    ensures SumOf(rows, key) == Totals(0, 0)
    decreases |rows|
  {
    if rows != [] {
      var n := |rows| - 1;
      assert rows[n].key != key;
      assert forall i :: 0 <= i < n ==> rows[..n][i] == rows[i];
      NotKeyed(rows[..n], key);
    }
  }

  lemma CreditAccumulates(users: map<string, Racer>, rows: seq<Row>, key: string, group: string, what: Totals, ms: nat)
    requires Accumulated(users, rows)
    ensures Accumulated(users[key := Credit(users, key, group, what, ms)], rows + [Row(key, what)])
  {
    var row := Row(key, what);
    var next, more := users[key := Credit(users, key, group, what, ms)], rows + [row];
    assert more[|rows|] == row;
    forall name | name in next
      ensures Keyed(more, name) && UserRow(next[name]) == Row(name, SumOf(more, name))
    {
      SumSnoc(rows, row, name);
      if name == key {
        assert more[|rows|].key == name;
        if name !in users {
          assert !Keyed(rows, name);
          NotKeyed(rows, name);
        }
      } else {
        var i :| 0 <= i < |rows| && rows[i].key == name;
        assert more[i].key == name;
      }
    }
  }

  predicate Timed(e: Entry) {
    Payload(e) && e.xferTime > 0
  }

  /** The group of the owner's first timed file, and the time of all of them. */
  function GroupAndTime(entries: seq<Entry>, owner: string): (string, nat)
    decreases |entries|
  {
    if entries == [] then ("", 0) else
      var e := entries[|entries| - 1];
      var (group, ms) := GroupAndTime(entries[..|entries| - 1], owner);
      if !Timed(e) || Owner(e) != owner then (group, ms)
      else (if group == "" then GroupName(e.group) else group, ms + e.xferTime)
  }

  lemma {:induction false} NoTimeYet(entries: seq<Entry>, owner: string)
    requires !Keyed(TimedRows(entries), owner)
    ensures GroupAndTime(entries, owner) == ("", 0)
    decreases |entries|
  {
    if entries != [] {
      var n := |entries| - 1;
      var before := TimedRows(entries[..n]);
      if Timed(entries[n]) {
        assert (before + [FileRow(entries[n])])[|before|].key == Owner(entries[n]);
      }
      assert forall i :: 0 <= i < |before| ==> before[i] == TimedRows(entries)[i];
      NoTimeYet(entries[..n], owner);
    }
  }

  predicate Attributed(users: map<string, Racer>, entries: seq<Entry>) {
    forall name | name in users ::
      users[name].group != "" && (users[name].group, users[name].durationMs) == GroupAndTime(entries, name)
  }

  lemma AttributedNext(users: map<string, Racer>, entries: seq<Entry>, i: nat)
    requires i < |entries| && Attributed(users, entries[..i]) && Accumulated(users, TimedRows(entries[..i]))
    ensures var e := entries[i];
            Attributed(if Timed(e) then users[Owner(e) := CreditFile(users, e)] else users, entries[..i + 1])
  {
    var e := entries[i];
    assert entries[..i + 1][..i] == entries[..i];
    if Timed(e) && Owner(e) !in users {
      assert !Keyed(TimedRows(entries[..i]), Owner(e));
      NoTimeYet(entries[..i], Owner(e));
    }
    hide Payload, SumOf, TimedRows;
  }

  function CreditFile(users: map<string, Racer>, e: Entry): Racer {
    Credit(users, Owner(e), GroupName(e.group), Totals(1, e.size), if e.xferTime > 0 then e.xferTime else 0)
  }

  /** One line per key with the key's totals and percentage, in order. */
  predicate Stats(users: seq<Racer>, rows: seq<Row>, base: nat, rank: Ranking) {
    && Tallies(UserRows(users), rows)
    && (forall i :: 0 <= i < |users| ==> users[i].percent == Percent(users[i].files, base))
    && Sorted(Ranks(users, rank))
  }

  method ZipDirRaceStats(entries: seq<Entry>, expectedTotal: int) returns (users: seq<Racer>, totalBytes: nat, total: nat)
    ensures Totals(total, totalBytes) == Sum(PayloadRows(entries))
    ensures Stats(users, TimedRows(entries), if expectedTotal > 0 then expectedTotal else total, ByFiles())
    ensures forall i :: 0 <= i < |users| ==> (users[i].group, users[i].durationMs) == GroupAndTime(entries, users[i].name)
  {
    hide Payload, Accumulated, Credit, Sum, PayloadRows, TimedRows, Stats, Attributed, GroupAndTime;
    var userMap: map<string, Racer> := map[];
    NothingYet();
    totalBytes, total := 0, 0;
    var i := 0;
    while i < |entries|
      invariant 0 <= i <= |entries|
      invariant Totals(total, totalBytes) == Sum(PayloadRows(entries[..i]))
      invariant Accumulated(userMap, TimedRows(entries[..i])) && Attributed(userMap, entries[..i])
    {
      var e := entries[i];
      RowsOneMore(entries, i);
      AttributedNext(userMap, entries, i);
      if Payload(e) {
        total, totalBytes := total + 1, totalBytes + e.size;
        if e.xferTime > 0 {
          CreditAccumulates(userMap, TimedRows(entries[..i]), Owner(e), GroupName(e.group), Totals(1, e.size), e.xferTime);
          userMap := userMap[Owner(e) := CreditFile(userMap, e)];
        }
      }
      i := i + 1;
    }
    assert entries[..i] == entries;
    users := RankAll(userMap, PercentBase(total, expectedTotal), ByFiles(), TimedRows(entries));
    LinesAttributed(users, userMap, PercentBase(total, expectedTotal), entries);
  }

  predicate LinesOf(users: seq<Racer>, userMap: map<string, Racer>, base: nat) {
    forall i :: 0 <= i < |users| ==> RankedUser(users[i], userMap.Keys, userMap, base)
  }

  lemma LinesAttributed(users: seq<Racer>, userMap: map<string, Racer>, base: nat, entries: seq<Entry>)
    requires LinesOf(users, userMap, base) && Attributed(userMap, entries)
    ensures forall i :: 0 <= i < |users| ==> (users[i].group, users[i].durationMs) == GroupAndTime(entries, users[i].name)
  {
    hide GroupAndTime;
  }

  lemma NothingYet()
    ensures Sum(PayloadRows([])) == Totals(0, 0) && Accumulated(map[], TimedRows([])) && Attributed(map[], [])
  {
  }

  lemma RowsOneMore(entries: seq<Entry>, i: nat)
    requires i < |entries|
    ensures var e := entries[i];
            && TimedRows(entries[..i + 1])
               == (if Payload(e) && e.xferTime > 0 then TimedRows(entries[..i]) + [FileRow(e)] else TimedRows(entries[..i]))
            && Sum(PayloadRows(entries[..i + 1]))
               == (if Payload(e) then Plus(Sum(PayloadRows(entries[..i])), Totals(1, e.size)) else Sum(PayloadRows(entries[..i])))
  {
    assert entries[..i + 1][..i] == entries[..i];
    hide Payload, Sum, SumOf;
    SumSnoc(PayloadRows(entries[..i]), FileRow(entries[i]), "");
  }

  method RankAll(userMap: map<string, Racer>, base: nat, rank: Ranking, ghost rows: seq<Row>) returns (users: seq<Racer>)
    requires Accumulated(userMap, rows)
    ensures Stats(users, rows, base, rank) && LinesOf(users, userMap, base)
  {
    hide Place, Tallies, Sorted, SumOf, Keyed;
    users := [];
    AccumulatedNames(userMap, rows);
    NothingRanked(userMap, base, rank);
    var left, done: set<string> := userMap.Keys, {};
    while left != {}
      invariant done + left == userMap.Keys && done !! left
      invariant Ranked(users, done, userMap, base, rank)
      decreases left
    {
      var name :| name in left;
      var u := WithPercent(userMap[name], base);
      var k := Place(Ranks(users, rank), rank(u));
      PlaceKeeps(users, done, userMap, base, rank, name);
      users := users[..k] + [u] + users[k..];
      left, done := left - {name}, done + {name};
    }
    RankedTallies(users, userMap, base, rank, rows);
  }

  predicate Listed(users: seq<Racer>, name: string) {
    exists i :: 0 <= i < |users| && users[i].name == name
  }

  function WithPercent(u: Racer, base: nat): Racer {
    u.(percent := Percent(u.files, base))
  }

  predicate Ranked(users: seq<Racer>, done: set<string>, userMap: map<string, Racer>, base: nat, rank: Ranking) {
    && done <= userMap.Keys
    && (forall name | name in done :: Listed(users, name))
    && (forall i :: 0 <= i < |users| ==> RankedUser(users[i], done, userMap, base))
    && (forall i, j :: 0 <= i < j < |users| ==> users[i].name != users[j].name)
    && Sorted(Ranks(users, rank))
  }

  predicate RankedUser(u: Racer, done: set<string>, userMap: map<string, Racer>, base: nat) {
    u.name in done && u.name in userMap && u == WithPercent(userMap[u.name], base)
  }

  lemma InsertNamed(users: seq<Racer>, k: nat, u: Racer, name: string)
    requires k <= |users| && (name == u.name || Listed(users, name))
    ensures Listed(users[..k] + [u] + users[k..], name)
  {
    var next := users[..k] + [u] + users[k..];
    if name == u.name {
      assert next[k].name == name;
    } else {
      var i :| 0 <= i < |users| && users[i].name == name;
      assert next[if i < k then i else i + 1] == users[i];
    }
  }

  lemma InsertSorted(users: seq<Racer>, u: Racer, rank: Ranking)
    requires Sorted(Ranks(users, rank))
    ensures var k := Place(Ranks(users, rank), rank(u));
            Sorted(Ranks(users[..k] + [u] + users[k..], rank))
  {
    hide Sorted, Place;
    var k := Place(Ranks(users, rank), rank(u));
    PlaceSorts(Ranks(users, rank), rank(u));
    assert Ranks(users[..k] + [u] + users[k..], rank) == Ranks(users, rank)[..k] + [rank(u)] + Ranks(users, rank)[k..];
  }

  lemma PlaceKeeps(users: seq<Racer>, done: set<string>, userMap: map<string, Racer>, base: nat, rank: Ranking, name: string)
    requires Ranked(users, done, userMap, base, rank) && name in userMap && name !in done && userMap[name].name == name
    ensures var u := WithPercent(userMap[name], base);
            var k := Place(Ranks(users, rank), rank(u));
            Ranked(users[..k] + [u] + users[k..], done + {name}, userMap, base, rank)
  {
    var u := WithPercent(userMap[name], base);
    var k := Place(Ranks(users, rank), rank(u));
    var next := users[..k] + [u] + users[k..];
    InsertSorted(users, u, rank);
    assert forall i :: 0 <= i < |users| ==> users[i].name in done;
    assert Ranked(users, done, userMap, base, rank);
    hide Sorted, WithPercent, Place, Ranks, Listed;
    forall n | n in done + {name} ensures Listed(next, n) {
      InsertNamed(users, k, u, n);
    }
    PercentKeepsName(userMap[name], base);
    InsertDistinct(users, k, u);
    InsertRanked(users, k, u, done, userMap, base);
  }

  lemma InsertRanked(users: seq<Racer>, k: nat, u: Racer, done: set<string>, userMap: map<string, Racer>, base: nat)
    requires k <= |users| && u.name in userMap && u == WithPercent(userMap[u.name], base)
    requires forall i :: 0 <= i < |users| ==> RankedUser(users[i], done, userMap, base)
    ensures var next := users[..k] + [u] + users[k..];
            forall i :: 0 <= i < |next| ==> RankedUser(next[i], done + {u.name}, userMap, base)
  {
  }

  lemma PercentKeepsName(u: Racer, base: nat)
    ensures WithPercent(u, base).name == u.name
  {
  }

  lemma InsertDistinct(users: seq<Racer>, k: nat, u: Racer)
    requires k <= |users|
    requires forall i, j :: 0 <= i < j < |users| ==> users[i].name != users[j].name
    requires forall i :: 0 <= i < |users| ==> users[i].name != u.name
    ensures var next := users[..k] + [u] + users[k..];
            forall i, j :: 0 <= i < j < |next| ==> next[i].name != next[j].name
  {
  }

  lemma AccumulatedNames(userMap: map<string, Racer>, rows: seq<Row>)
    requires Accumulated(userMap, rows)
    ensures forall name | name in userMap :: userMap[name].name == name
  {
  }

  lemma NothingRanked(userMap: map<string, Racer>, base: nat, rank: Ranking)
    ensures Ranked([], {}, userMap, base, rank)
  {
  }

  lemma RankedTallies(users: seq<Racer>, userMap: map<string, Racer>, base: nat, rank: Ranking, rows: seq<Row>)
    requires Ranked(users, userMap.Keys, userMap, base, rank) && Accumulated(userMap, rows)
    ensures Tallies(UserRows(users), rows)
    ensures forall i :: 0 <= i < |users| ==> users[i].percent == Percent(users[i].files, base)
  {
    hide Sorted, SumOf;
    forall i | 0 <= i < |rows| ensures Keyed(UserRows(users), rows[i].key) {
      var name := rows[i].key;
      assert UserRow(userMap[name]).key == name;
      assert Listed(users, name);
      var k :| 0 <= k < |users| && users[k].name == name;
      assert UserRows(users)[k].key == name;
    }
    forall i | 0 <= i < |users|
      ensures Keyed(rows, users[i].name) && UserRows(users)[i].what == SumOf(rows, users[i].name)
    {
      assert UserRow(userMap[users[i].name]) == Row(users[i].name, SumOf(rows, users[i].name));
    }
  }

  // ---------- Groups ----------

  function GroupOf(u: Racer): string {
    GroupName(TrimSpace(u.group))
  }

  /** Every user as a row of the user's group. */
  function GroupRows(users: seq<Racer>): (r: seq<Row>)
    ensures |r| == |users| && forall i :: 0 <= i < |users| ==> r[i] == Row(GroupOf(users[i]), Totals(users[i].files, users[i].bytes))
  {
    seq(|users|, i requires 0 <= i < |users| => Row(GroupOf(users[i]), Totals(users[i].files, users[i].bytes)))
  }

  method RaceGroupsFromUsers(users: seq<Racer>, totalFiles: int) returns (groups: seq<Racer>)
    ensures Stats(groups, GroupRows(users), if totalFiles > 0 then totalFiles else 0, ByBytes())
  {
    hide Accumulated, Credit, Stats;
    var groupMap: map<string, Racer> := map[];
    NothingYet();
    assert GroupRows(users[..0]) == TimedRows([]);
    var i := 0;
    while i < |users|
      invariant 0 <= i <= |users|
      invariant Accumulated(groupMap, GroupRows(users[..i]))
    {
      var g := GroupOf(users[i]);
      var what := Totals(users[i].files, users[i].bytes);
      CreditAccumulates(groupMap, GroupRows(users[..i]), g, g, what, 0);
      groupMap := groupMap[g := Credit(groupMap, g, g, what, 0)];
      assert GroupRows(users[..i + 1]) == GroupRows(users[..i]) + [Row(g, what)];
      i := i + 1;
    }
    assert users[..i] == users;
    groups := RankAll(groupMap, if totalFiles > 0 then totalFiles else 0, ByBytes(), GroupRows(users));
  }

  lemma {:induction false} SameSum(a: seq<Row>, b: seq<Row>)
    requires |a| == |b| && forall i :: 0 <= i < |a| ==> a[i].what == b[i].what
    ensures Sum(a) == Sum(b)
    decreases |a|
  {
    if a != [] {
      SameSum(a[..|a| - 1], b[..|b| - 1]);
    }
  }

  // ---------- What a line says ----------

  /** Name a sorts after name b, letter case aside. */
  ghost predicate NameAfter(a: string, b: string) {
    exists k: nat :: FirstDifference(LowerAll(b), LowerAll(a), k)
  }

  lemma EarlierRank(ranks: seq<Rank>, i: nat, j: nat)
    requires Sorted(ranks) && i < j < |ranks|
    ensures var a, b := ranks[i], ranks[j];
            && a.first >= b.first && (a.first == b.first ==> a.second >= b.second)
            && (a.first == b.first && a.second == b.second ==> !NameAfter(a.name, b.name))
  {
    TextLessMeans(LowerAll(ranks[j].name), LowerAll(ranks[i].name));
    hide LowerAll, TextLess, FirstDifference;
    assert !Before(ranks[j], ranks[i]);
  }

  /** Of two users' lines the earlier has no fewer files; if as many, no fewer bytes; if as many,
      it is not the later name. */
  lemma UsersInOrder(users: seq<Racer>, rows: seq<Row>, base: nat, i: nat, j: nat)
    requires Stats(users, rows, base, ByFiles()) && i < j < |users|
    ensures var a, b := users[i], users[j];
            && a.files >= b.files && (a.files == b.files ==> a.bytes >= b.bytes)
            && (a.files == b.files && a.bytes == b.bytes ==> !NameAfter(a.name, b.name))
  {
    EarlierRank(Ranks(users, ByFiles()), i, j);
    hide NameAfter, Sorted, Tallies;
  }

  /** Of two groups' lines the earlier has no fewer bytes; if as many, no fewer files; if as many,
      it is not the later name. */
  lemma GroupsInOrder(groups: seq<Racer>, rows: seq<Row>, base: nat, i: nat, j: nat)
    requires Stats(groups, rows, base, ByBytes()) && i < j < |groups|
    ensures var a, b := groups[i], groups[j];
            && a.bytes >= b.bytes && (a.bytes == b.bytes ==> a.files >= b.files)
            && (a.bytes == b.bytes && a.files == b.files ==> !NameAfter(a.name, b.name))
  {
    EarlierRank(Ranks(groups, ByBytes()), i, j);
    hide NameAfter, Sorted, Tallies;
  }

  /** A percentage is rounded down; without a base it is zero. */
  lemma PercentMeans(users: seq<Racer>, rows: seq<Row>, base: nat, rank: Ranking, i: nat)
    requires Stats(users, rows, base, rank) && i < |users|
    ensures var u := users[i];
            if base == 0 then u.percent == 0 else u.percent * base <= u.files * 100 < (u.percent + 1) * base
  {
    hide Tallies, Sorted, Ranks;
    if base > 0 {
      Rounded(users[i].files * 100, base);
    }
  }

  lemma Rounded(a: nat, base: nat)
    requires base > 0
    ensures a / base * base <= a < (a / base + 1) * base
  {
  }

  /** Which files count at all, and for whom. */
  predicate CountsFor(e: Entry, owner: string) {
    && !e.isDir && !e.isSymlink && e.zipPayload && !("." <= TrimSpace(e.name))
    && e.xferTime > 0 && (e.owner == owner || (e.owner == "" && owner == "unknown")) && owner != ""
  }

  lemma CountsIsTimed(e: Entry, owner: string)
    ensures CountsFor(e, owner) <==> Timed(e) && Owner(e) == owner
  {
    hide TrimSpace;
  }

  lemma TimeOneMore(entries: seq<Entry>, e: Entry, owner: string)
    ensures var (group, ms) := GroupAndTime(entries, owner);
            GroupAndTime(entries + [e], owner)
            == (if Timed(e) && Owner(e) == owner then (if group == "" then GroupName(e.group) else group, ms + e.xferTime) else (group, ms))
  {
    assert (entries + [e])[..|entries|] == entries;
    hide Payload;
  }

  lemma TallyOneMore(entries: seq<Entry>, e: Entry, owner: string)
    ensures var next := entries + [e];
            && Sum(PayloadRows(next)) == (if Payload(e) then Plus(Sum(PayloadRows(entries)), Totals(1, e.size)) else Sum(PayloadRows(entries)))
            && SumOf(TimedRows(next), owner) == (if Timed(e) && Owner(e) == owner then Plus(SumOf(TimedRows(entries), owner), Totals(1, e.size))
                                                 else SumOf(TimedRows(entries), owner))
  {
    var next := entries + [e];
    assert next[..|entries|] == entries && next[..|entries| + 1] == next;
    RowsOneMore(next, |entries|);
    SumSnoc(TimedRows(entries), FileRow(e), owner);
    hide Sum, SumOf, PayloadRows, TimedRows, Payload, Owner;
  }

  /** What one more file changes: the payload totals, if it is a payload file; and, if it was
      timed too, its owner's files, bytes and time, and the group if it is the owner's first. */
  lemma OneMoreFile(entries: seq<Entry>, e: Entry, owner: string)
    ensures var next := entries + [e];
            var payload := !e.isDir && !e.isSymlink && e.zipPayload && !("." <= TrimSpace(e.name));
            Sum(PayloadRows(next)) == if payload then Plus(Sum(PayloadRows(entries)), Totals(1, e.size)) else Sum(PayloadRows(entries))
    ensures var next, was := entries + [e], SumOf(TimedRows(entries), owner);
            SumOf(TimedRows(next), owner) == if CountsFor(e, owner) then Plus(was, Totals(1, e.size)) else was
    ensures var (group, ms) := GroupAndTime(entries, owner);
            var first := if e.group == "" then "NoGroup" else e.group;
            GroupAndTime(entries + [e], owner)
            == if CountsFor(e, owner) then (if group == "" then first else group, ms + e.xferTime) else (group, ms)
  {
    CountsIsTimed(e, owner);
    TimeOneMore(entries, e, owner);
    TallyOneMore(entries, e, owner);
    hide Sum, SumOf, PayloadRows, TimedRows, TrimSpace, GroupAndTime, CountsFor, Timed, Plus;
  }

  /** Before the first file there is nothing. */
  lemma NoFiles(owner: string)
    ensures Sum(PayloadRows([])) == SumOf(TimedRows([]), owner) == Totals(0, 0) && GroupAndTime([], owner) == ("", 0)
  {
  }

  // ---------- Percentages ----------

  function PercentSum(users: seq<Racer>): nat
    decreases |users|
  {
    if users == [] then 0 else PercentSum(users[..|users| - 1]) + users[|users| - 1].percent
  }

  lemma {:induction false} PercentTimesBase(users: seq<Racer>, base: nat)
    requires base > 0 && forall i :: 0 <= i < |users| ==> users[i].percent == Percent(users[i].files, base)
    ensures PercentSum(users) * base <= Sum(UserRows(users)).files * 100
    decreases |users|
  {
    if users != [] {
      var n := |users| - 1;
      PercentTimesBase(users[..n], base);
      assert UserRows(users)[..n] == UserRows(users[..n]);
      DivisionRoundsDown(users[n].files * 100, base);
      Distribute(PercentSum(users[..n]), users[n].percent, base);
    }
  }

  lemma DivisionRoundsDown(a: nat, base: nat)
    requires base > 0
    ensures a / base * base <= a
  {
  }

  lemma Distribute(a: nat, b: nat, base: nat)
    ensures (a + b) * base == a * base + b * base
  {
  }

  lemma {:induction false} TimedWithinPayload(entries: seq<Entry>)
    ensures Sum(TimedRows(entries)).files <= Sum(PayloadRows(entries)).files
    ensures Sum(TimedRows(entries)).bytes <= Sum(PayloadRows(entries)).bytes
    decreases |entries|
  {
    if entries != [] {
      var n := |entries| - 1;
      TimedWithinPayload(entries[..n]);
      hide Sum, SumOf, Payload;
      SumSnoc(TimedRows(entries[..n]), FileRow(entries[n]), "");
      SumSnoc(PayloadRows(entries[..n]), FileRow(entries[n]), "");
    }
  }

  /** Percentages of a base that the files do not exceed, or of no base, stay within 100. */
  lemma PercentsFit(users: seq<Racer>, base: nat)
    requires forall i :: 0 <= i < |users| ==> users[i].percent == Percent(users[i].files, base)
    requires base == 0 || Sum(UserRows(users)).files <= base
    ensures PercentSum(users) <= 100
  {
    if base > 0 {
      PercentTimesBase(users, base);
      AtMostHundred(PercentSum(users), Sum(UserRows(users)).files, base);
    } else {
      NoPercent(users);
    }
  }

  /** The users' files and bytes add up to the timed payload files, which are among the payload
      files; and their percentages to at most 100 while the base counts all timed ones. */
  lemma UsersAddUp(users: seq<Racer>, entries: seq<Entry>, expectedTotal: int)
    requires var total := Sum(PayloadRows(entries)).files; Stats(users, TimedRows(entries), PercentBase(total, expectedTotal), ByFiles())
    ensures Sum(UserRows(users)) == Sum(TimedRows(entries))
    ensures Sum(TimedRows(entries)).files <= Sum(PayloadRows(entries)).files
    ensures var base := PercentBase(Sum(PayloadRows(entries)).files, expectedTotal);
            Sum(TimedRows(entries)).files <= base ==> PercentSum(users) <= 100
  {
    TallyConserves(UserRows(users), TimedRows(entries));
    TimedWithinPayload(entries);
    var base := PercentBase(Sum(PayloadRows(entries)).files, expectedTotal);
    if Sum(TimedRows(entries)).files <= base {
      PercentsFit(users, base);
    }
  }

  /** The groups' files and bytes add up to the users', and their percentages to at most 100
      while the total counts all the users' files, or is not known. */
  lemma GroupsAddUp(groups: seq<Racer>, users: seq<Racer>, totalFiles: int)
    requires Stats(groups, GroupRows(users), if totalFiles > 0 then totalFiles else 0, ByBytes())
    ensures Sum(UserRows(groups)) == Sum(UserRows(users))
    ensures totalFiles <= 0 || Sum(UserRows(users)).files <= totalFiles ==> PercentSum(groups) <= 100
  {
    TallyConserves(UserRows(groups), GroupRows(users));
    SameSum(GroupRows(users), UserRows(users));
    if totalFiles <= 0 || Sum(UserRows(users)).files <= totalFiles {
      PercentsFit(groups, if totalFiles > 0 then totalFiles else 0);
    }
  }

  lemma AtMostHundred(percent: nat, files: nat, base: nat)
    requires base > 0 && files <= base && percent * base <= files * 100
    ensures percent <= 100
  {
    assert (percent - 100) * base <= 0;
  }

  lemma {:induction false} NoPercent(users: seq<Racer>)
    requires forall i :: 0 <= i < |users| ==> users[i].percent == 0
    ensures PercentSum(users) == 0
    decreases |users|
  {
    if users != [] {
      NoPercent(users[..|users| - 1]);
    }
  }
}
