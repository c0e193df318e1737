/** Nukes, unnukes and the nuke history as a credit ledger. */
module NukeLedger {
  import opened Options
  import opened Credits
  import opened Folds
  import opened MapSums

  type User = string

  const PREFIX: string := "[NUKED]-"

  /** The fields of a user file that nukes touch. */
  datatype Account = Account(credits: Int64, ratio: Int64, nukeFiles: Int64, nukeBytes: Int64)

  /** What one nuke took from one user. */
  datatype Record = Record(bytes: Int64, credits: Int64)

  datatype Path = Path(parent: string, name: string)

  datatype Status = Active | Unnuked | Deleted

  datatype Entry = Entry(original: Path, current: Path, nukedAt: int, multiplier: Int64,
                         records: map<User, Record>, status: Status)

  datatype Ledger = Ledger(accounts: map<User, Account>, history: seq<Entry>)

  // ---------- One account ----------

  function Removal(a: Account, bytes: Int64, multiplier: Int64): Int64 {
    ClampRemoval(a.credits, Penalty(bytes, a.ratio, multiplier))
  }

  function Docked(a: Account, bytes: Int64, multiplier: Int64): Account {
    a.(credits := a.credits - Removal(a, bytes, multiplier),
    nukeFiles := Wrap(a.nukeFiles + 1),
    nukeBytes := Wrap(a.nukeBytes + bytes))
  }

  function Refunded(a: Account, amount: Int64, bytes: Int64): Account {
    var left := Wrap(a.nukeBytes - bytes);
    a.(credits := SaturatingAdd(a.credits, amount),
    nukeFiles := if a.nukeFiles > 0 then Wrap(a.nukeFiles - 1) else a.nukeFiles,
    nukeBytes := if left < 0 then 0 else left)
  }

  function Recomputed(a: Account, bytes: Int64, multiplier: Int64): Account {
    Refunded(a, Penalty(bytes, a.ratio, multiplier), bytes)
  }

  /** Refunding a record right after taking it restores the account, lifetime statistics
      included unless they were negative or at the top of their range. */
  lemma RefundUndoesDock(a: Account, bytes: Int64, multiplier: Int64)
    ensures Refunded(Docked(a, bytes, multiplier), Removal(a, bytes, multiplier), bytes).credits == a.credits
    ensures 0 <= a.nukeFiles < MAX && 0 <= a.nukeBytes && 0 <= bytes <= MAX - a.nukeBytes ==>
        Refunded(Docked(a, bytes, multiplier), Removal(a, bytes, multiplier), bytes) == a
  {
  }

  // ---------- All accounts ----------

  function EffectiveMultiplier(multiplier: Int64): Int64 {
    if multiplier <= 0 then 1 else multiplier
  }

  /** The records of a nuke: exactly the users whose account could be changed and saved. */
  function Records(accounts: map<User, Account>, uploads: map<User, Int64>, multiplier: Int64, saves: set<User>): map<User, Record> {
    map u | u in uploads && u in accounts && u in saves :: Record(uploads[u], Removal(accounts[u], uploads[u], multiplier))
  }

  function DockAll(accounts: map<User, Account>, uploads: map<User, Int64>, multiplier: Int64, saves: set<User>): map<User, Account> {
    map u | u in accounts :: if u in uploads && u in saves then Docked(accounts[u], uploads[u], multiplier) else accounts[u]
  }

  function RefundAll(accounts: map<User, Account>, records: map<User, Record>, saves: set<User>): map<User, Account> {
    map u | u in accounts :: if u in records && u in saves then Refunded(accounts[u], records[u].credits, records[u].bytes) else accounts[u]
  }

  function RecomputeAll(accounts: map<User, Account>, uploads: map<User, Int64>, multiplier: Int64, saves: set<User>): map<User, Account> {
    map u | u in accounts :: if u in uploads && u in saves then Recomputed(accounts[u], uploads[u], EffectiveMultiplier(multiplier)) else accounts[u]
  }

  function Positive(x: Int64): nat {
    if x > 0 then x else 0
  }

  /** What each user in `users` is refunded from `records`. */
  function Amounts(records: map<User, Record>, users: set<User>): map<User, nat> {
    map u | u in records && u in users :: Positive(records[u].credits)
  }

  function RecomputedAmounts(accounts: map<User, Account>, uploads: map<User, Int64>, multiplier: Int64, users: set<User>): map<User, nat> {
    map u | u in uploads && u in accounts && u in users :: Penalty(uploads[u], accounts[u].ratio, EffectiveMultiplier(multiplier))
  }

  // ---------- History ----------

  predicate Matches(e: Entry, p: Path) {
    e.status.Active? && (e.current == p || e.original == p)
  }

  /** The newest active entry for a path; later rows win among equal times. */
  function FindActive(history: seq<Entry>, p: Path): (r: Option<nat>)
    ensures r.Some? ==>
        && r.value < |history|
        && Matches(history[r.value], p)
        && forall i :: 0 <= i < |history| && Matches(history[i], p) ==>
           history[i].nukedAt < history[r.value].nukedAt || (history[i].nukedAt == history[r.value].nukedAt && i <= r.value)
    ensures r.None? ==> forall i :: 0 <= i < |history| ==> !Matches(history[i], p)
  {
    if history == [] then None
    else
      var last := |history| - 1;
      var older := FindActive(history[..last], p);
      if Matches(history[last], p) && (older.None? || history[older.value].nukedAt <= history[last].nukedAt)
      then Some(last)
      else older
  }

  function Close(history: seq<Entry>, p: Path, status: Status): seq<Entry> {
    var found := FindActive(history, p);
    if found.Some? then history[found.value := history[found.value].(status := status)] else history
  }

  predicate IsNuked(p: Path) {
    PREFIX <= p.name
  }

  function NukedPath(p: Path): Path {
    Path(p.parent, PREFIX + p.name)
  }

  function RestoredPath(p: Path): Path {
    if IsNuked(p) then Path(p.parent, p.name[|PREFIX|..]) else p
  }

  /** Unnuking the path a nuke produced gives back the path it was given. */
  lemma RestoreUndoesNukedPath(p: Path)
    ensures NukedPath(p) == Path(p.parent, "[NUKED]-" + p.name)
    ensures IsNuked(NukedPath(p)) && RestoredPath(NukedPath(p)) == p
    ensures IsNuked(p) ==> NukedPath(RestoredPath(p)) == p
  {
  }

  // ---------- Commands ----------

  /** `saves` and `refunds` are the users whose account can be written during the docking
      and during a refund; renameOk is the outcome of the rename; dbOk, readOk and
      markOk are those of recording, finding and closing the history entry. */
  datatype Command =
    | Nuke(dir: Path, uploads: map<User, Int64>, multiplier: Int64, now: int,
           saves: set<User>, refunds: set<User>, renameOk: bool, dbOk: bool)
    | Unnuke(dir: Path, uploads: map<User, Int64>, refunds: set<User>, renameOk: bool, readOk: bool, markOk: bool)
    | Adjust(user: User, delta: int)    // an ordinary credit change
    | Prune(dir: Path)                  // the nuked directory is gone: its entry is marked deleted

  predicate Possible(l: Ledger, c: Command) {
    c.Adjust? ==> c.user in l.accounts && MIN <= l.accounts[c.user].credits + c.delta <= MAX
  }

  function ApplyNuke(l: Ledger, c: Command): Ledger
    requires c.Nuke?
  {
    if IsNuked(c.dir) then l
    else
      var records := Records(l.accounts, c.uploads, c.multiplier, c.saves);
      var docked := DockAll(l.accounts, c.uploads, c.multiplier, c.saves);
      if !c.renameOk then l.(accounts := RefundAll(docked, records, c.refunds))
      else
        Ledger(docked, if c.dbOk
                       then l.history + [Entry(c.dir, NukedPath(c.dir), c.now, c.multiplier, records, Active)]
                       else l.history)
  }

  function ApplyUnnuke(l: Ledger, c: Command): Ledger
    requires c.Unnuke?
  {
    if !IsNuked(c.dir) || !c.renameOk then l
    else
      var found := if c.readOk then FindActive(l.history, c.dir) else None;
      var accounts :=
        if found.Some? && l.history[found.value].records != map[]
        then RefundAll(l.accounts, l.history[found.value].records, c.refunds)
        else RecomputeAll(l.accounts, c.uploads, if found.Some? then l.history[found.value].multiplier else 0, c.refunds);
      Ledger(accounts, if c.markOk then Close(l.history, c.dir, Unnuked) else l.history)
  }

  function Apply(l: Ledger, c: Command): Ledger
    requires Possible(l, c)
  {
    match c
    case Nuke(_, _, _, _, _, _, _, _) => ApplyNuke(l, c)
    case Unnuke(_, _, _, _, _, _) => ApplyUnnuke(l, c)
    case Adjust(u, delta) => l.(accounts := l.accounts[u := l.accounts[u].(credits := l.accounts[u].credits + delta)])
    case Prune(dir) => l.(history := Close(l.history, dir, Deleted))
  }

  // ---------- What the commands do to one user ----------

  /** What a nuke takes from a balance. */
  function TakenFrom(credits: int, bytes: int, ratio: int, multiplier: int): int {
    if credits > 0 && bytes > 0 && ratio > 0 && multiplier > 0
    then Min(credits, Min(bytes * ratio * multiplier, MAX)) else 0
  }

  /** A SITE NUKE that succeeds takes bytes * ratio * multiplier from each uploader whose account
      exists and can be saved, but no more than the balance; counts the nuke and its bytes; and
      records exactly that. Nobody else is touched. */
  lemma NukeTakes(l: Ledger, c: Command, u: User)
    requires c.Nuke? && !IsNuked(c.dir) && c.renameOk && u in l.accounts
    ensures var t := ApplyNuke(l, c); var was := l.accounts[u];
        && u in t.accounts
        && (if u in c.uploads && u in c.saves then
              var taken := TakenFrom(was.credits, c.uploads[u], was.ratio, c.multiplier);
              && t.accounts[u].credits == was.credits - taken && t.accounts[u].ratio == was.ratio
              && (was.nukeFiles < MAX ==> t.accounts[u].nukeFiles == was.nukeFiles + 1)
              && (MIN <= was.nukeBytes + c.uploads[u] <= MAX ==> t.accounts[u].nukeBytes == was.nukeBytes + c.uploads[u])
            else t.accounts[u] == was)
  {
  }

  /** What is recorded: one active entry, with a record for exactly those uploaders. */
  lemma NukeRecords(l: Ledger, c: Command)
    requires c.Nuke? && !IsNuked(c.dir) && c.renameOk
    ensures var t := ApplyNuke(l, c);
        if !c.dbOk then t.history == l.history
        else
          && |t.history| == |l.history| + 1 && t.history[..|l.history|] == l.history
          && var e := t.history[|l.history|];
          && e.original == c.dir && e.current == Path(c.dir.parent, "[NUKED]-" + c.dir.name)
          && e.nukedAt == c.now && e.multiplier == c.multiplier && e.status.Active?
          && (forall u :: u in e.records <==> u in c.uploads && u in l.accounts && u in c.saves)
          && (forall u | u in e.records ::
                e.records[u] == Record(c.uploads[u], TakenFrom(l.accounts[u].credits, c.uploads[u], l.accounts[u].ratio, c.multiplier)))
  {
  }

  /** A SITE NUKE of a nuked directory changes nothing; one whose rename fails leaves the history
      alone, and the credits of everyone whose account can be written back. */
  lemma FailedNukeChangesNothing(l: Ledger, c: Command, u: User)
    requires c.Nuke? && (IsNuked(c.dir) || !c.renameOk) && u in l.accounts
    ensures var t := ApplyNuke(l, c);
        && t.history == l.history && u in t.accounts
        && (IsNuked(c.dir) ==> t == l)
        && (u in c.refunds || u !in c.uploads || u !in c.saves ==> t.accounts[u].credits == l.accounts[u].credits)
  {
    if u in c.uploads {
      RefundUndoesDock(l.accounts[u], c.uploads[u], c.multiplier);
    }
  }

  /** What a refund adds to a balance that must stay in range. */
  function RaisedBy(credits: int, amount: int): int {
    if amount > 0 then Min(credits + amount, MAX) else credits
  }

  /** A SITE UNNUKE that finds records pays each recorded amount back to every recorded user whose
      account can be written, and takes the nuke and its bytes off the statistics. */
  lemma UnnukePaysRecords(l: Ledger, c: Command, u: User)
    requires c.Unnuke? && IsNuked(c.dir) && c.renameOk && StoredRecords(l, c) && u in l.accounts
    ensures var t := ApplyUnnuke(l, c); var was := l.accounts[u];
        var records := l.history[FindActive(l.history, c.dir).value].records;
        && u in t.accounts
        && (if u in records && u in c.refunds then
              && t.accounts[u].credits == RaisedBy(was.credits, records[u].credits) && t.accounts[u].ratio == was.ratio
              && t.accounts[u].nukeFiles == (if was.nukeFiles > 0 then was.nukeFiles - 1 else was.nukeFiles)
              && (MIN <= was.nukeBytes - records[u].bytes <= MAX ==>
                    t.accounts[u].nukeBytes
                    == if was.nukeBytes > records[u].bytes then was.nukeBytes - records[u].bytes else 0)
            else t.accounts[u] == was)
  {
  }

  /** One that finds none pays each uploader the penalty computed anew, at the stored multiplier,
      or at 1 where none is stored. */
  lemma UnnukeRecomputes(l: Ledger, c: Command, u: User)
    requires c.Unnuke? && IsNuked(c.dir) && c.renameOk && !StoredRecords(l, c) && u in l.accounts
    ensures var t := ApplyUnnuke(l, c); var was := l.accounts[u];
        var found := FindActive(l.history, c.dir);
        var stored := if c.readOk && found.Some? then l.history[found.value].multiplier else 0;
        var multiplier := if stored > 0 then stored else 1;
        && u in t.accounts
        && (if u in c.uploads && u in c.refunds then
              && t.accounts[u].credits
                 == RaisedBy(was.credits, if c.uploads[u] > 0 && was.ratio > 0
                                          then Min(c.uploads[u] * was.ratio * multiplier, MAX) else 0)
              && t.accounts[u].nukeFiles == (if was.nukeFiles > 0 then was.nukeFiles - 1 else was.nukeFiles)
            else t.accounts[u] == was)
  {
  }

  /** Closing touches the newest active entry of the path and nothing else. */
  lemma CloseChangesOne(history: seq<Entry>, p: Path, status: Status, i: nat)
    requires i < |history|
    ensures |Close(history, p, status)| == |history|
    ensures var newest := Matches(history[i], p)
          && forall j :: 0 <= j < |history| && Matches(history[j], p) ==>
               history[j].nukedAt < history[i].nukedAt || (history[j].nukedAt == history[i].nukedAt && j <= i);
        Close(history, p, status)[i] == if newest then history[i].(status := status) else history[i]
  {
    hide Matches;
    var found := FindActive(history, p);
    assert found.Some? ==> Matches(history[found.value], p);
  }

  /** An entry is found by its original and by its current path while it is active and no newer
      one is, and by nothing else. */
  lemma FoundByEitherPath(history: seq<Entry>, e: Entry, p: Path)
    requires forall i :: 0 <= i < |history| ==> history[i].nukedAt <= e.nukedAt
    ensures FindActive(history + [e], p) == Some(|history|) <==> e.status == Active && p in {e.current, e.original}
  {
    assert (history + [e])[..|history|] == history;
  }

  // ---------- The ledger of one user ----------

  function CreditsOf(l: Ledger, u: User): int {
    if u in l.accounts then l.accounts[u].credits else 0
  }

  function Share(e: Entry, u: User): nat {
    if u in e.records then Positive(e.records[u].credits) else 0
  }

  function HeldIn(status: Status, u: User): Entry -> nat {
    (e: Entry) => if e.status == status then Share(e, u) else 0
  }

  /** The credits of u recorded in entries of one status. */
  function Held(l: Ledger, status: Status, u: User): nat {
    Sum(l.history, HeldIn(status, u))
  }

  /** What u owns: the balance, what active nukes hold, and what deleted ones kept. */
  function Worth(l: Ledger, u: User): int {
    CreditsOf(l, u) + Held(l, Active, u) + Held(l, Deleted, u)
  }

  function Ordinary(c: Command, u: User): int {
    if c.Adjust? && c.user == u then c.delta else 0
  }

  /** The credits a nuke takes from u. */
  function Taken(l: Ledger, c: Command, u: User): nat
    requires c.Nuke?
  {
    if u in c.uploads && u in l.accounts && u in c.saves then Removal(l.accounts[u], c.uploads[u], c.multiplier) else 0
  }

  predicate StoredRecords(l: Ledger, c: Command)
    requires c.Unnuke?
  {
    c.readOk && FindActive(l.history, c.dir).Some? && l.history[FindActive(l.history, c.dir).value].records != map[]
  }

  /** The credits an unnuke owes u: the share of the entry it closes. */
  function Owed(l: Ledger, c: Command, u: User): nat
    requires c.Unnuke?
  {
    var found := FindActive(l.history, c.dir);
    if c.markOk && found.Some? then Share(l.history[found.value], u) else 0
  }

  /** What an unnuke sets out to pay u: the stored share, or a penalty computed anew. */
  function Claim(l: Ledger, c: Command, u: User): nat
    requires c.Unnuke?
  {
    var found := FindActive(l.history, c.dir);
    if StoredRecords(l, c) then Share(l.history[found.value], u)
    else if u !in c.uploads || u !in l.accounts then 0
    else Penalty(c.uploads[u], l.accounts[u].ratio,
                 EffectiveMultiplier(if c.readOk && found.Some? then l.history[found.value].multiplier else 0))
  }

  /** When a command keeps what u owns. A nuke must be recorded, or undone. An unnuke must be
      able to pay, without saturating, exactly what the entry it closes holds. */
  predicate Sound(l: Ledger, c: Command, u: User) {
    match c
    case Nuke(dir, _, _, _, _, refunds, renameOk, dbOk) =>
      IsNuked(dir) || Taken(l, c, u) == 0 || (if renameOk then dbOk else u in refunds)
    case Unnuke(dir, _, refunds, renameOk, _, _) =>
      if !IsNuked(dir) || !renameOk then true
      else if u in l.accounts && u in refunds then Min(Claim(l, c, u), MAX - l.accounts[u].credits) == Owed(l, c, u)
      else Owed(l, c, u) == 0
    case _ => true
  }

  lemma HeldAppend(l: Ledger, e: Entry, status: Status, u: User)
    ensures Sum(l.history + [e], HeldIn(status, u)) == Held(l, status, u) + HeldIn(status, u)(e)
  {
    SumAppend(l.history, e, HeldIn(status, u));
  }

  /** Closing an entry moves exactly its share out of the active entries. */
  lemma HeldClose(l: Ledger, p: Path, to: Status, u: User)
    requires !to.Active?
    ensures FindActive(l.history, p).None? ==> Close(l.history, p, to) == l.history
    ensures FindActive(l.history, p).Some? ==>
        var share := Share(l.history[FindActive(l.history, p).value], u);
        && Sum(Close(l.history, p, to), HeldIn(Active, u)) + share == Held(l, Active, u)
        && Sum(Close(l.history, p, to), HeldIn(Deleted, u)) == Held(l, Deleted, u) + if to.Deleted? then share else 0
  {
    var found := FindActive(l.history, p);
    if found.Some? {
      var e := l.history[found.value].(status := to);
      SumUpdate(l.history, found.value, e, HeldIn(Active, u));
      SumUpdate(l.history, found.value, e, HeldIn(Deleted, u));
    }
  }

  lemma NukeWorth(l: Ledger, c: Command, u: User)
    requires c.Nuke?
    ensures Worth(ApplyNuke(l, c), u) == Worth(l, u) <==> Sound(l, c, u)
  {
    if !IsNuked(c.dir) {
      var records := Records(l.accounts, c.uploads, c.multiplier, c.saves);
      if c.renameOk && c.dbOk {
        var e := Entry(c.dir, NukedPath(c.dir), c.now, c.multiplier, records, Active);
        HeldAppend(l, e, Active, u);
        HeldAppend(l, e, Deleted, u);
      } else if u in l.accounts && u in records {
        RefundUndoesDock(l.accounts[u], c.uploads[u], c.multiplier);
      }
    }
  }

  lemma UnnukeWorth(l: Ledger, c: Command, u: User)
    requires c.Unnuke?
    ensures Worth(ApplyUnnuke(l, c), u) == Worth(l, u) <==> Sound(l, c, u)
  {
    hide Sum, FindActive, Close, IsNuked;
    HeldClose(l, c.dir, Unnuked, u);
  }

  /** A command changes what u owns by its ordinary change exactly when it is sound for u. */
  lemma StepWorth(l: Ledger, c: Command, u: User)
    requires Possible(l, c)
    ensures Worth(Apply(l, c), u) == Worth(l, u) + Ordinary(c, u) <==> Sound(l, c, u)
  {
    match c
    case Nuke(_, _, _, _, _, _, _, _) => NukeWorth(l, c, u);
    case Unnuke(_, _, _, _, _, _) => UnnukeWorth(l, c, u);
    case Adjust(_, _) =>
    case Prune(dir) => HeldClose(l, dir, Deleted, u);
  }

  // ---------- Runs ----------

  predicate Legal(l: Ledger, cs: seq<Command>)
    decreases |cs|
  {
    cs == [] || (Possible(l, cs[0]) && Legal(Apply(l, cs[0]), cs[1..]))
  }

  function Run(l: Ledger, cs: seq<Command>): Ledger
    requires Legal(l, cs)
    decreases |cs|
  {
    if cs == [] then l else Run(Apply(l, cs[0]), cs[1..])
  }

  predicate AllSound(l: Ledger, cs: seq<Command>, u: User)
    requires Legal(l, cs)
    decreases |cs|
  {
    cs == [] || (Sound(l, cs[0], u) && AllSound(Apply(l, cs[0]), cs[1..], u))
  }

  function OrdinarySum(cs: seq<Command>, u: User): int {
    if cs == [] then 0 else Ordinary(cs[0], u) + OrdinarySum(cs[1..], u)
  }

  lemma {:induction false} SoundRunWorth(l: Ledger, cs: seq<Command>, u: User)
    requires Legal(l, cs) && AllSound(l, cs, u)
    ensures Worth(Run(l, cs), u) == Worth(l, u) + OrdinarySum(cs, u)
    decreases |cs|
  {
    if cs != [] {
      StepWorth(l, cs[0], u);
      SoundRunWorth(Apply(l, cs[0]), cs[1..], u);
    }
  }

  /** What the daemon needs of its surroundings for a command, all of it known before credits
      are paid out: a nuke that renames is recorded, and one that cannot can write back the
      accounts it docked; an unnuke that renames finds an active entry with records, can write
      every recorded account, and can close the entry. */
  predicate WellServed(l: Ledger, c: Command) {
    match c
    case Nuke(dir, uploads, _, _, saves, refunds, renameOk, dbOk) =>
      IsNuked(dir) || (if renameOk then dbOk else forall u | u in uploads && u in l.accounts && u in saves :: u in refunds)
    case Unnuke(dir, _, refunds, renameOk, _, markOk) =>
      IsNuked(dir) && renameOk ==>
        && StoredRecords(l, c) && markOk
        && forall u | u in l.history[FindActive(l.history, dir).value].records :: u in l.accounts && u in refunds
    case _ => true
  }

  predicate AllWellServed(l: Ledger, cs: seq<Command>)
    requires Legal(l, cs)
    decreases |cs|
  {
    cs == [] || (WellServed(l, cs[0]) && AllWellServed(Apply(l, cs[0]), cs[1..]))
  }

  /** The share of an active entry fits on top of the balance: it is part of what u owns. */
  lemma ShareFits(l: Ledger, i: nat, u: User)
    requires i < |l.history| && l.history[i].status.Active? && Worth(l, u) <= MAX
    ensures CreditsOf(l, u) + Share(l.history[i], u) <= MAX
  {
    SumAtLeast(l.history, i, HeldIn(Active, u));
  }

  /** A well served command is sound for every user who owns no more than 64 bits hold. */
  lemma WellServedIsSound(l: Ledger, c: Command, u: User)
    requires WellServed(l, c) && Worth(l, u) <= MAX
    ensures Sound(l, c, u)
  {
    if c.Unnuke? && IsNuked(c.dir) && c.renameOk {
      ShareFits(l, FindActive(l.history, c.dir).value, u);
    }
  }

  /** At no point do the ordinary changes lift what u owns over the top of the range. */
  predicate StaysInRange(worth: int, cs: seq<Command>, u: User)
    decreases |cs|
  {
    worth <= MAX && (cs == [] || StaysInRange(worth + Ordinary(cs[0], u), cs[1..], u))
  }

  /** Credit conservation over whole runs of nukes, failed nukes, unnukes, prunes and
      ordinary changes, in any order and on any directories: what u owns changes by the
      ordinary changes alone, and no refund on the way can saturate. */
  lemma {:induction false} RunWorth(l: Ledger, cs: seq<Command>, u: User)
    requires Legal(l, cs) && AllWellServed(l, cs) && StaysInRange(Worth(l, u), cs, u)
    ensures AllSound(l, cs, u)
    ensures Worth(Run(l, cs), u) == Worth(l, u) + OrdinarySum(cs, u) <= MAX
    decreases |cs|
  {
    if cs != [] {
      WellServedIsSound(l, cs[0], u);
      StepWorth(l, cs[0], u);
      RunWorth(Apply(l, cs[0]), cs[1..], u);
    }
  }

  /** Once no entry for u is active or deleted, every nuke has been paid back in full. */
  lemma NothingHeldMeansPaidBack(l: Ledger, cs: seq<Command>, u: User)
    requires Legal(l, cs) && AllWellServed(l, cs) && StaysInRange(Worth(l, u), cs, u)
    requires l.history == [] && Held(Run(l, cs), Active, u) == 0 && Held(Run(l, cs), Deleted, u) == 0
    ensures CreditsOf(Run(l, cs), u) == CreditsOf(l, u) + OrdinarySum(cs, u)
  {
    RunWorth(l, cs, u);
  }

  lemma NothingActive(p: Path)
    ensures FindActive([], p).None?
  {
  }

  /** The range is needed: credits earned while a nuke holds the rest are cut off at the top
      when the nuke is undone. */
  lemma RefundCanSaturate() returns (l: Ledger, earn: Command, unnuke: Command)
    ensures earn.Adjust? && unnuke.Unnuke? && Possible(l, earn) && WellServed(Apply(l, earn), unnuke)
    ensures Worth(l, "amy") == MAX && Worth(Apply(l, earn), "amy") == MAX + 1
    ensures Worth(ApplyUnnuke(Apply(l, earn), unnuke), "amy") == MAX
  {
    hide NukedPath, RestoredPath, IsNuked, Sum, Docked, Recomputed, RecomputeAll, FindActive;
    var dir := Path("/MP3", "Rel-GRP");
    var e := Entry(dir, NukedPath(dir), 100, 1, map["amy" := Record(1, 5)], Active);
    l := Ledger(map["amy" := Account(MAX - 5, 3, 1, 1)], [e]);
    earn := Adjust("amy", 1);
    unnuke := Unnuke(NukedPath(dir), map[], {"amy"}, true, true, true);
    RestoreUndoesNukedPath(dir);
    var m := Apply(l, earn);
    assert m.history == [e] == [] + [e];
    assert FindActive([], NukedPath(dir)).None? by { NothingActive(NukedPath(dir)); }
    FindsAppended([], e, NukedPath(dir));
    assert m.accounts["amy"] == Account(MAX - 4, 3, 1, 1);
    assert FindActive(m.history, unnuke.dir) == Some(0);
    SumZero([], HeldIn(Active, "amy"));
    SumZero([], HeldIn(Deleted, "amy"));
    SumAppend([], e, HeldIn(Active, "amy"));
    SumAppend([], e, HeldIn(Deleted, "amy"));
    HeldClose(m, unnuke.dir, Unnuked, "amy");
    assert ApplyUnnuke(m, unnuke).accounts["amy"].credits == MAX;
  }

  lemma {:induction false} AdjustsKeepHistory(l: Ledger, cs: seq<Command>, u: User)
    requires Legal(l, cs) && forall i :: 0 <= i < |cs| ==> cs[i].Adjust?
    ensures Run(l, cs).history == l.history && AllSound(l, cs, u)
    decreases |cs|
  {
    if cs != [] {
      AdjustsKeepHistory(Apply(l, cs[0]), cs[1..], u);
    }
  }

  lemma FindsAppended(history: seq<Entry>, e: Entry, p: Path)
    requires FindActive(history, p).None? && Matches(e, p)
    ensures FindActive(history + [e], p) == Some(|history|)
  {
    assert (history + [e])[..|history|] == history;
  }

  /** A nuke, ordinary changes, and the unnuke of the directory the nuke produced: the path
      is the old one, the history holds one closed entry more, and u's credits are what the
      ordinary changes alone would have made them, exactly when the unnuke is sound for u. */
  lemma NukeThenUnnuke(l: Ledger, nuke: Command, between: seq<Command>, unnuke: Command, u: User)
    requires nuke.Nuke? && !IsNuked(nuke.dir) && nuke.renameOk && nuke.dbOk
    requires unnuke.Unnuke? && unnuke.dir == NukedPath(nuke.dir) && unnuke.renameOk && unnuke.markOk
    requires FindActive(l.history, unnuke.dir).None?
    requires Legal(ApplyNuke(l, nuke), between) && forall i :: 0 <= i < |between| ==> between[i].Adjust?
    ensures RestoredPath(unnuke.dir) == nuke.dir
    ensures var before := Run(ApplyNuke(l, nuke), between);
        var after := ApplyUnnuke(before, unnuke);
        && |after.history| == |l.history| + 1 && after.history[..|l.history|] == l.history
        && after.history[|l.history|].status.Unnuked?
        && (CreditsOf(after, u) == CreditsOf(l, u) + OrdinarySum(between, u) <==> Sound(before, unnuke, u))
  {
    var nuked := ApplyNuke(l, nuke);
    var e := nuked.history[|l.history|];
    var before := Run(nuked, between);
    var after := ApplyUnnuke(before, unnuke);
    RestoreUndoesNukedPath(nuke.dir);
    AdjustsKeepHistory(nuked, between, u);
    FindsAppended(l.history, e, unnuke.dir);
    assert after.history == l.history + [e.(status := Unnuked)];
    NukeWorth(l, nuke, u);
    SoundRunWorth(nuked, between, u);
    UnnukeWorth(before, unnuke, u);
    HeldAppend(l, e.(status := Unnuked), Active, u);
    HeldAppend(l, e.(status := Unnuked), Deleted, u);
  }

  /** Where exactness fails: when no account could be written during the nuke its stored
      record is empty, and the unnuke then pays out a recomputed amount nobody lost. */
  lemma EmptyRecordMintsCredits() returns (l: Ledger, nuke: Command, unnuke: Command)
    ensures nuke.Nuke? && unnuke.Unnuke?
    ensures Sound(l, nuke, "amy") && Worth(ApplyNuke(l, nuke), "amy") == Worth(l, "amy") == 0
    ensures !Sound(ApplyNuke(l, nuke), unnuke, "amy")
    ensures CreditsOf(ApplyUnnuke(ApplyNuke(l, nuke), unnuke), "amy") == 30
  {
    var dir := Path("/MP3", "Rel-GRP");
    l := Ledger(map["amy" := Account(0, 3, 0, 0)], []);
    nuke := Nuke(dir, map["amy" := 5], 2, 100, {}, {}, true, true);
    unnuke := Unnuke(NukedPath(dir), map["amy" := 5], {"amy"}, true, true, true);
    RestoreUndoesNukedPath(dir);
    NukeWorth(l, nuke, "amy");
    var nuked := ApplyNuke(l, nuke);
    var records := Records(l.accounts, nuke.uploads, 2, {});
    assert records == map[];
    var e := Entry(dir, NukedPath(dir), 100, 2, records, Active);
    assert nuked.history == [e] == [] + [e];
    FindsAppended([], e, NukedPath(dir));
    assert nuked.accounts["amy"] == Account(0, 3, 0, 0);
    assert Penalty(5, 3, 2) == 30;
  }

  // ---------- The daemon's state and handlers ----------

  function Taking(records: map<User, Record>): map<User, nat> {
    map u | u in records :: Positive(records[u].credits)
  }

  lemma DockStep(accounts: map<User, Account>, uploads: map<User, Int64>, multiplier: Int64, done: set<User>, u: User)
    requires u in uploads && u in accounts && u !in done
    ensures var before := DockAll(accounts, uploads, multiplier, done);
        && before[u] == accounts[u]
        && DockAll(accounts, uploads, multiplier, done + {u}) == before[u := Docked(accounts[u], uploads[u], multiplier)]
    ensures var before := Records(accounts, uploads, multiplier, done);
        && u !in before
        && Records(accounts, uploads, multiplier, done + {u}) == before[u := Record(uploads[u], Removal(accounts[u], uploads[u], multiplier))]
  {
  }

  lemma DockBounds(accounts: map<User, Account>, uploads: map<User, Int64>, multiplier: Int64, saves: set<User>)
    ensures DockAll(accounts, uploads, multiplier, {}) == accounts && Records(accounts, uploads, multiplier, {}) == map[]
    ensures MapSum(Taking(map[])) == 0
    ensures var all := accounts.Keys * saves * uploads.Keys;
        && DockAll(accounts, uploads, multiplier, all) == DockAll(accounts, uploads, multiplier, saves)
        && Records(accounts, uploads, multiplier, all) == Records(accounts, uploads, multiplier, saves)
  {
  }

  lemma TakingStep(records: map<User, Record>, u: User, r: Record)
    requires u !in records && r.credits >= 0
    ensures MapSum(Taking(records[u := r])) == MapSum(Taking(records)) + r.credits
  {
    assert Taking(records[u := r]) == Taking(records)[u := r.credits];
    MapSumInsert(Taking(records), u, r.credits);
  }

  lemma RefundStep(accounts: map<User, Account>, records: map<User, Record>, done: set<User>, u: User)
    requires u in records && u in accounts && u !in done
    ensures var before := RefundAll(accounts, records, done);
        && before[u] == accounts[u]
        && RefundAll(accounts, records, done + {u}) == before[u := Refunded(accounts[u], records[u].credits, records[u].bytes)]
    ensures MapSum(Amounts(records, done + {u})) == MapSum(Amounts(records, done)) + Positive(records[u].credits)
  {
    assert Amounts(records, done + {u}) == Amounts(records, done)[u := Positive(records[u].credits)];
    MapSumInsert(Amounts(records, done), u, Positive(records[u].credits));
  }

  lemma RefundBounds(accounts: map<User, Account>, records: map<User, Record>, saves: set<User>)
    ensures RefundAll(accounts, records, {}) == accounts && MapSum(Amounts(records, {})) == 0
    ensures var all := accounts.Keys * saves * records.Keys;
        && RefundAll(accounts, records, all) == RefundAll(accounts, records, saves)
        && Amounts(records, all) == Amounts(records, accounts.Keys * saves)
  {
  }

  lemma RecomputeStep(accounts: map<User, Account>, uploads: map<User, Int64>, multiplier: Int64, done: set<User>, u: User)
    requires u in uploads && u in accounts && u !in done
    ensures var before := RecomputeAll(accounts, uploads, multiplier, done);
        && before[u] == accounts[u]
        && RecomputeAll(accounts, uploads, multiplier, done + {u})
           == before[u := Recomputed(accounts[u], uploads[u], EffectiveMultiplier(multiplier))]
    ensures MapSum(RecomputedAmounts(accounts, uploads, multiplier, done + {u}))
         == MapSum(RecomputedAmounts(accounts, uploads, multiplier, done))
          + Penalty(uploads[u], accounts[u].ratio, EffectiveMultiplier(multiplier))
  {
    var before := RecomputedAmounts(accounts, uploads, multiplier, done);
    var amount := Penalty(uploads[u], accounts[u].ratio, EffectiveMultiplier(multiplier));
    assert RecomputedAmounts(accounts, uploads, multiplier, done + {u}) == before[u := amount];
    MapSumInsert(before, u, amount);
  }

  lemma RecomputeBounds(accounts: map<User, Account>, uploads: map<User, Int64>, multiplier: Int64, saves: set<User>)
    ensures RecomputeAll(accounts, uploads, multiplier, {}) == accounts
    ensures MapSum(RecomputedAmounts(accounts, uploads, multiplier, {})) == 0
    ensures var all := accounts.Keys * saves * uploads.Keys;
        && RecomputeAll(accounts, uploads, multiplier, all) == RecomputeAll(accounts, uploads, multiplier, saves)
        && RecomputedAmounts(accounts, uploads, multiplier, all) == RecomputedAmounts(accounts, uploads, multiplier, saves)
  {
  }

  class NukeDesk {
    var accounts: map<User, Account>
    var history: seq<Entry>

    function Now(): Ledger
      reads this
    {
      Ledger(accounts, history)
    }

    /** Docks every uploader, in an arbitrary order. */
    method ApplyNukeCredits(uploads: map<User, Int64>, multiplier: Int64, saves: set<User>)
      returns (total: Int64, records: map<User, Record>)
      modifies this`accounts
      ensures accounts == DockAll(old(accounts), uploads, multiplier, saves)
      ensures records == Records(old(accounts), uploads, multiplier, saves)
      ensures total == Min(MapSum(Taking(records)), MAX)
    {
      hide DockAll, Records, Taking, MapSum, Docked;
      DockBounds(accounts, uploads, multiplier, saves);
      total, records := 0, map[];
      ghost var start, done, all := accounts, {}, accounts.Keys * saves * uploads.Keys;
      var left := uploads.Keys;
      while left != {}
        invariant left <= uploads.Keys && done == all - left && accounts.Keys == start.Keys
        invariant accounts == DockAll(start, uploads, multiplier, done)
        invariant records == Records(start, uploads, multiplier, done)
        invariant total == Min(MapSum(Taking(records)), MAX)
        decreases left
      {
        var u :| u in left;
        left := left - {u};
        if u in accounts && u in saves {
          DockStep(start, uploads, multiplier, done, u);
          var nuked := Removal(accounts[u], uploads[u], multiplier);
          TakingStep(records, u, Record(uploads[u], nuked));
          accounts := accounts[u := Docked(accounts[u], uploads[u], multiplier)];
          total := SaturatingAdd(total, nuked);
          records := records[u := Record(uploads[u], nuked)];
          done := done + {u};
        }
      }
      assert done == all;
    }

    /** Refunds every recorded user, in an arbitrary order. */
    method ApplyUnnukeCredits(records: map<User, Record>, saves: set<User>) returns (total: Int64)
      modifies this`accounts
      ensures accounts == RefundAll(old(accounts), records, saves)
      ensures total == Min(MapSum(Amounts(records, old(accounts).Keys * saves)), MAX)
    {
      hide RefundAll, Amounts, MapSum, Refunded;
      RefundBounds(accounts, records, saves);
      total := 0;
      ghost var start, done, all := accounts, {}, accounts.Keys * saves * records.Keys;
      var left := records.Keys;
      while left != {}
        invariant left <= records.Keys && done == all - left && accounts.Keys == start.Keys
        invariant accounts == RefundAll(start, records, done)
        invariant total == Min(MapSum(Amounts(records, done)), MAX)
        decreases left
      {
        var u :| u in left;
        left := left - {u};
        if u in accounts && u in saves {
          RefundStep(start, records, done, u);
          accounts := accounts[u := Refunded(accounts[u], records[u].credits, records[u].bytes)];
          total := SaturatingAdd(total, records[u].credits);
          done := done + {u};
        }
      }
      assert done == all;
    }

    /** The fallback for nukes without stored records. */
    method ApplyUnnukeCreditsRecompute(uploads: map<User, Int64>, multiplier: Int64, saves: set<User>) returns (total: Int64)
      modifies this`accounts
      ensures accounts == RecomputeAll(old(accounts), uploads, multiplier, saves)
      ensures total == Min(MapSum(RecomputedAmounts(old(accounts), uploads, multiplier, saves)), MAX)
    {
      hide RecomputeAll, RecomputedAmounts, MapSum, Refunded;
      RecomputeBounds(accounts, uploads, multiplier, saves);
      total := 0;
      var factor := EffectiveMultiplier(multiplier);
      ghost var start, done, all := accounts, {}, accounts.Keys * saves * uploads.Keys;
      var left := uploads.Keys;
      while left != {}
        invariant left <= uploads.Keys && done == all - left && accounts.Keys == start.Keys
        invariant accounts == RecomputeAll(start, uploads, multiplier, done)
        invariant total == Min(MapSum(RecomputedAmounts(start, uploads, multiplier, done)), MAX)
        decreases left
      {
        var u :| u in left;
        left := left - {u};
        if u in accounts && u in saves {
          RecomputeStep(start, uploads, multiplier, done, u);
          var restored := Penalty(uploads[u], accounts[u].ratio, factor);
          accounts := accounts[u := Refunded(accounts[u], restored, uploads[u])];
          total := SaturatingAdd(total, restored);
          done := done + {u};
        }
      }
      assert done == all;
    }

    /** Docks first, renames second, and refunds when the rename fails. */
    method SiteNuke(dir: Path, uploads: map<User, Int64>, multiplier: Int64, now: int,
                    saves: set<User>, refunds: set<User>, renameOk: bool, dbOk: bool)
      returns (nuked: bool)
      modifies this
      ensures Now() == ApplyNuke(old(Now()), Nuke(dir, uploads, multiplier, now, saves, refunds, renameOk, dbOk))
      ensures nuked <==> !IsNuked(dir) && renameOk
    {
      if IsNuked(dir) {
        return false;
      }
      var total, records := ApplyNukeCredits(uploads, multiplier, saves);
      if !renameOk {
        var _ := ApplyUnnukeCredits(records, refunds);
        return false;
      }
      if dbOk {
        history := history + [Entry(dir, NukedPath(dir), now, multiplier, records, Active)];
      }
      return true;
    }

    /** Looks the entry up, renames, and only then pays and closes the entry. */
    method SiteUnnuke(dir: Path, uploads: map<User, Int64>, refunds: set<User>, renameOk: bool, readOk: bool, markOk: bool)
      returns (restored: bool)
      modifies this
      ensures Now() == ApplyUnnuke(old(Now()), Unnuke(dir, uploads, refunds, renameOk, readOk, markOk))
      ensures restored <==> IsNuked(dir) && renameOk
    {
      if !IsNuked(dir) {
        return false;
      }
      var stored: map<User, Record>, multiplier: Int64 := map[], 0;
      if readOk {
        var found := FindActive(history, dir);
        if found.Some? {
          stored, multiplier := history[found.value].records, history[found.value].multiplier;
        }
      }
      if !renameOk {
        return false;
      }
      if |stored| > 0 {
        var _ := ApplyUnnukeCredits(stored, refunds);
      } else {
        var _ := ApplyUnnukeCreditsRecompute(uploads, multiplier, refunds);
      }
      if markOk {
        history := Close(history, dir, Unnuked);
      }
      return true;
    }

    method MarkDeleted(dir: Path)
      modifies this`history
      ensures Now() == old(Now()).(history := Close(old(history), dir, Deleted))
    {
      history := Close(history, dir, Deleted);
    }
  }
}
