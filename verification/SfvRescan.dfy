/** Reconciling a release directory with its SFV file: every listed file is classified and the
    directory state is repaired. Paths are the names inside the release. */
module SfvRescan {

  /** A record of the virtual file system; known is 0 while no checksum is recorded. */
  datatype File = File(size: nat, known: nat)

  type Files = map<string, File>

  datatype Failure = NotFound | Unreachable | OtherFailure

  datatype Answer = Sum(crc: nat) | Failed(why: Failure)

  /** What the slaves answer: the checksum of a file's content, and whether a marker can be
      written or a file deleted. */
  datatype Env = Env(checksum: string -> Answer, writeOk: string -> bool, deleteOk: string -> bool)

  datatype Options = Options(forceRescan: bool, deleteBad: bool, deleteZeroByte: bool, quiet: bool)

  datatype Entry = Entry(name: string, crc: nat)

  datatype Note = MarkerFailed(name: string) | DeleteFailed(name: string) | NoChecksum(name: string) | ZeroByte(name: string)

  datatype Result = Result(ok: nat, missing: nat, bad: nat,
                           missingFiles: seq<string>, badFiles: seq<string>,
                           offlineFiles: seq<string>, failedFiles: seq<string>, errors: seq<Note>)

  const NOTHING := Result(0, 0, 0, [], [], [], [], [])

  datatype Class = OK | Missing | Bad | OfflineFile | FailedFile

  function Marker(name: string): string {
    name + "-MISSING"
  }

  // ---------- One entry ----------

  function ChecksumFor(files: Files, name: string, opts: Options, env: Env): Answer
    requires name in files
  {
    if !opts.forceRescan && files[name].known != 0 then Sum(files[name].known) else env.checksum(name)
  }

  /** The class an entry belongs to, read off the directory before anything is changed. */
  function Classify(files: Files, e: Entry, opts: Options, env: Env): Class {
    if e.name !in files then Missing else
      match ChecksumFor(files, e.name, opts, env)
      case Failed(NotFound) => Missing
      case Failed(Unreachable) => OfflineFile
      case Failed(OtherFailure) => FailedFile
      case Sum(crc) =>
        if crc == e.crc then OK
        else if crc == 0 && files[e.name].size > 0 then FailedFile
        else Bad
  }

  /** Whether a bad file is removed. A zero checksum of an empty file falls under the zero-byte
      option alone. */
  predicate Removes(files: Files, e: Entry, opts: Options, env: Env) {
    && Classify(files, e, opts, env).Bad?
    && if ChecksumFor(files, e.name, opts, env).crc == 0 then opts.deleteZeroByte else opts.deleteBad
  }

  // ---------- The loop over the entries ----------

  function WriteMarker(files: Files, e: Entry, env: Env): Files {
    if env.writeOk(Marker(e.name)) then files[Marker(e.name) := File(0, 0)] else files
  }

  function MarkerNotes(e: Entry, env: Env): seq<Note> {
    if env.writeOk(Marker(e.name)) then [] else [MarkerFailed(e.name)]
  }

  /** The directory after one entry. */
  function Repair(files: Files, e: Entry, opts: Options, env: Env): Files {
    match Classify(files, e, opts, env)
    case OK =>
      var synced := files[e.name := files[e.name].(known := e.crc)];
      if env.deleteOk(Marker(e.name)) then synced - {Marker(e.name)} else synced
    case Missing => WriteMarker(files - {e.name}, e, env)
    case Bad =>
      var marked := WriteMarker(files, e, env);
      if Removes(files, e, opts, env) then marked - {e.name} else marked
    case _ => files
  }

  function BadNotes(e: Entry, zero: bool, removed: bool, opts: Options, env: Env): seq<Note> {
    MarkerNotes(e, env)
    + (if zero && !opts.deleteZeroByte && !opts.quiet then [ZeroByte(e.name)] else [])
    + (if removed && !env.deleteOk(e.name) then [DeleteFailed(e.name)] else [])
  }

  /** The notes one entry leaves. */
  function Notes(files: Files, e: Entry, opts: Options, env: Env): seq<Note> {
    match Classify(files, e, opts, env)
    case Missing => MarkerNotes(e, env)
    case FailedFile => if opts.quiet then [] else [NoChecksum(e.name)]
    case Bad =>
      BadNotes(e, ChecksumFor(files, e.name, opts, env) == Sum(0), Removes(files, e, opts, env), opts, env)
    case _ => []
  }

  /** The result after one entry. */
  function Record(r: Result, files: Files, e: Entry, opts: Options, env: Env): Result {
    var s := r.(errors := r.errors + Notes(files, e, opts, env));
    match Classify(files, e, opts, env)
    case OK => s.(ok := r.ok + 1)
    case Missing => s.(missing := r.missing + 1, missingFiles := r.missingFiles + [e.name])
    case OfflineFile => s.(offlineFiles := r.offlineFiles + [e.name])
    case FailedFile => s.(failedFiles := r.failedFiles + [e.name])
    case Bad => s.(bad := r.bad + 1, badFiles := r.badFiles + [e.name])
  }

  datatype Outcome = Outcome(files: Files, result: Result, classes: seq<Class>)

  function Reconcile(files: Files, entries: seq<Entry>, opts: Options, env: Env): (o: Outcome)
    ensures |o.classes| == |entries|
    decreases |entries|
  {
    if entries == [] then Outcome(files, NOTHING, []) else
      var n := |entries| - 1;
      var o, e := Reconcile(files, entries[..n], opts, env), entries[n];
      Outcome(Repair(o.files, e, opts, env), Record(o.result, o.files, e, opts, env),
              o.classes + [Classify(o.files, e, opts, env)])
  }

  class Release {
    var files: Files

    method MarkFileMissing(name: string)
      modifies this
      ensures files == old(files) - {name}
    {
      files := files - {name};
    }

    method WriteFile(name: string, env: Env) returns (ok: bool)
      modifies this
      ensures ok == env.writeOk(name)
      ensures files == if ok then old(files)[name := File(0, 0)] else old(files)
    {
      ok := env.writeOk(name);
      if ok {
        files := files[name := File(0, 0)];
      }
    }

    method DeleteFile(name: string, env: Env) returns (ok: bool)
      modifies this
      ensures ok == env.deleteOk(name)
      ensures files == if ok then old(files) - {name} else old(files)
    {
      ok := env.deleteOk(name);
      if ok {
        files := files - {name};
      }
    }

    method SyncPresentFile(name: string, crc: nat)
      modifies this
      ensures files == if name in old(files) then old(files)[name := old(files)[name].(known := crc)] else old(files)
    {
      if name in files {
        files := files[name := files[name].(known := crc)];
      }
    }

    method NoteMissing(r: Result, e: Entry, env: Env) returns (result: Result)
      modifies this
      ensures files == WriteMarker(old(files) - {e.name}, e, env)
      ensures result == r.(missing := r.missing + 1, missingFiles := r.missingFiles + [e.name],
                           errors := r.errors + MarkerNotes(e, env))
    {
      result := r.(missing := r.missing + 1, missingFiles := r.missingFiles + [e.name]);
      MarkFileMissing(e.name);
      var written := WriteFile(Marker(e.name), env);
      result := result.(errors := result.errors + if written then [] else [MarkerFailed(e.name)]);
    }

    method NoteBad(r: Result, e: Entry, zero: bool, opts: Options, env: Env) returns (result: Result)
      modifies this
      ensures var removes := if zero then opts.deleteZeroByte else opts.deleteBad;
              && files == (if removes then WriteMarker(old(files), e, env) - {e.name} else WriteMarker(old(files), e, env))
              && result == r.(bad := r.bad + 1, badFiles := r.badFiles + [e.name],
                              errors := r.errors + BadNotes(e, zero, removes, opts, env))
    {
      result := r.(bad := r.bad + 1, badFiles := r.badFiles + [e.name]);
      var written := WriteFile(Marker(e.name), env);
      if !written {
        result := result.(errors := result.errors + [MarkerFailed(e.name)]);
      }
      if zero && !opts.deleteZeroByte {
        if !opts.quiet {
          result := result.(errors := result.errors + [ZeroByte(e.name)]);
        }
        return;
      }
      if opts.deleteBad || (zero && opts.deleteZeroByte) {
        var gone := DeleteFile(e.name, env);
        if !gone {
          result := result.(errors := result.errors + [DeleteFailed(e.name)]);
        }
        MarkFileMissing(e.name);
      }
    }

    /** One turn of the loop. */
    method ReconcileEntry(r: Result, e: Entry, opts: Options, env: Env) returns (result: Result, ghost kind: Class)
      modifies this
      ensures kind == Classify(old(files), e, opts, env)
      ensures files == Repair(old(files), e, opts, env)
      ensures result == Record(r, old(files), e, opts, env)
    {
      hide Marker;
      kind := Classify(files, e, opts, env);
      if e.name !in files {
        result := NoteMissing(r, e, env);
        return;
      }
      var size := files[e.name].size;
      var answer := if !opts.forceRescan && files[e.name].known != 0 then Sum(files[e.name].known) else env.checksum(e.name);
      match answer {
        case Failed(why) =>
          match why {
            case NotFound => result := NoteMissing(r, e, env);
            case Unreachable => result := r.(offlineFiles := r.offlineFiles + [e.name]);
            case OtherFailure =>
              result := r.(failedFiles := r.failedFiles + [e.name]);
              if !opts.quiet {
                result := result.(errors := result.errors + [NoChecksum(e.name)]);
              }
          }
        case Sum(crc) =>
          if crc == e.crc {
            result := r.(ok := r.ok + 1);
            SyncPresentFile(e.name, crc);
            if Marker(e.name) in files {
              var gone := DeleteFile(Marker(e.name), env);
            }
            return;
          }
          if crc == 0 && size > 0 {
            result := r.(failedFiles := r.failedFiles + [e.name]);
            if !opts.quiet {
              result := result.(errors := result.errors + [NoChecksum(e.name)]);
            }
            return;
          }
          result := NoteBad(r, e, crc == 0, opts, env);
      }
    }

    method ReconcileReleaseSFVEntries(entries: seq<Entry>, opts: Options, env: Env)
      returns (result: Result, ghost classes: seq<Class>)
      modifies this
      ensures Outcome(files, result, classes) == Reconcile(old(files), entries, opts, env)
    {
      result, classes := NOTHING, [];
      var i := 0;
      while i < |entries|
        invariant 0 <= i <= |entries|
        invariant Outcome(files, result, classes) == Reconcile(old(files), entries[..i], opts, env)
      {
        ghost var kind;
        result, kind := ReconcileEntry(result, entries[i], opts, env);
        classes := classes + [kind];
        i := i + 1;
        assert entries[..i][..i - 1] == entries[..i - 1];
      }
      assert entries[..i] == entries;
    }
  }

  // ---------- Every entry has one class, and the result says which ----------

  function Pick(entries: seq<Entry>, classes: seq<Class>, c: Class): seq<string>
    requires |classes| == |entries|
  {
    if entries == [] then [] else
      var n := |entries| - 1;
      Pick(entries[..n], classes[..n], c) + if classes[n] == c then [entries[n].name] else []
  }

  lemma {:induction false} ClassesAddUp(entries: seq<Entry>, classes: seq<Class>)
    requires |classes| == |entries|
    ensures |Pick(entries, classes, OK)| + |Pick(entries, classes, Missing)| + |Pick(entries, classes, Bad)|
            + |Pick(entries, classes, OfflineFile)| + |Pick(entries, classes, FailedFile)| == |entries|
    decreases |entries|
  {
    if entries != [] {
      ClassesAddUp(entries[..|entries| - 1], classes[..|entries| - 1]);
    }
  }

  predicate Matches(r: Result, entries: seq<Entry>, classes: seq<Class>)
    requires |classes| == |entries|
  {
    && r.missingFiles == Pick(entries, classes, Missing)
    && r.badFiles == Pick(entries, classes, Bad)
    && r.offlineFiles == Pick(entries, classes, OfflineFile)
    && r.failedFiles == Pick(entries, classes, FailedFile)
    && r.ok == |Pick(entries, classes, OK)|
    && r.missing == |r.missingFiles| && r.bad == |r.badFiles|
  }

  lemma MatchesOneMore(r: Result, entries: seq<Entry>, classes: seq<Class>, e: Entry,
                       files: Files, opts: Options, env: Env)
    requires |classes| == |entries| && Matches(r, entries, classes)
    ensures Matches(Record(r, files, e, opts, env), entries + [e], classes + [Classify(files, e, opts, env)])
  {
  }

  /** The lists hold exactly the names of their class in order, the counts are their lengths,
      and the five classes add up to the SFV. */
  lemma {:induction false} ResultMatchesClasses(files: Files, entries: seq<Entry>, opts: Options, env: Env)
    ensures var o := Reconcile(files, entries, opts, env); var r := o.result;
            && Matches(r, entries, o.classes)
            && r.ok + r.missing + r.bad + |r.offlineFiles| + |r.failedFiles| == |entries|
    decreases |entries|
  {
    var o := Reconcile(files, entries, opts, env);
    if entries != [] {
      var n := |entries| - 1;
      ResultMatchesClasses(files, entries[..n], opts, env);
      var before := Reconcile(files, entries[..n], opts, env);
      MatchesOneMore(before.result, entries[..n], before.classes, entries[n], before.files, opts, env);
      assert entries[..n] + [entries[n]] == entries;
      hide Record, Repair, Classify, Pick;
      assert Matches(o.result, entries, o.classes);
    }
    ClassesAddUp(entries, o.classes);
  }

  // ---------- The state each entry ends in ----------

  predicate SameAt(before: Files, after: Files, n: string) {
    (n in after <==> n in before) && (n in after ==> after[n] == before[n])
  }

  predicate Marked(before: Files, after: Files, m: string, env: Env) {
    if env.writeOk(m) then m in after && after[m] == File(0, 0) else SameAt(before, after, m)
  }

  /** What an entry of a given starting state owns at the end: its own record and its marker. */
  predicate Settled(before: Files, after: Files, e: Entry, opts: Options, env: Env) {
    var m := Marker(e.name);
    match Classify(before, e, opts, env)
    case OK =>
      && e.name in after && after[e.name] == before[e.name].(known := e.crc)
      && if env.deleteOk(m) then m !in after else SameAt(before, after, m)
    case Missing => e.name !in after && Marked(before, after, m, env)
    case Bad =>
      && (if Removes(before, e, opts, env) then e.name !in after else SameAt(before, after, e.name))
      && Marked(before, after, m, env)
    case _ => SameAt(before, after, e.name) && SameAt(before, after, m)
  }

  lemma RepairSettles(files: Files, e: Entry, opts: Options, env: Env)
    ensures Settled(files, Repair(files, e, opts, env), e, opts, env)
  {
    assert |Marker(e.name)| != |e.name|;
  }

  lemma RepairKeepsOthers(files: Files, e: Entry, opts: Options, env: Env, n: string)
    requires n != e.name && n != Marker(e.name)
    ensures SameAt(files, Repair(files, e, opts, env), n)
  {
  }

  /** Distinct names, none of which is another's marker. */
  predicate Separate(entries: seq<Entry>) {
    && (forall i, j :: 0 <= i < j < |entries| ==> entries[i].name != entries[j].name)
    && (forall i, j :: 0 <= i < |entries| && 0 <= j < |entries| ==> entries[i].name != Marker(entries[j].name))
  }

  lemma MarkersDiffer(a: string, b: string)
    requires a != b
    ensures Marker(a) != Marker(b)
  {
    if |a| == |b| {
      var i :| 0 <= i < |a| && a[i] != b[i];
      assert Marker(a)[i] != Marker(b)[i];
    }
  }

  lemma {:induction false} OutsideKept(files: Files, entries: seq<Entry>, opts: Options, env: Env, n: string)
    requires forall i :: 0 <= i < |entries| ==> n != entries[i].name && n != Marker(entries[i].name)
    ensures SameAt(files, Reconcile(files, entries, opts, env).files, n)
    decreases |entries|
  {
    if entries != [] {
      var k := |entries| - 1;
      OutsideKept(files, entries[..k], opts, env, n);
      RepairKeepsOthers(Reconcile(files, entries[..k], opts, env).files, entries[k], opts, env, n);
    }
  }

  /** The turns before the last leave its record alone. */
  lemma LastUntouched(files: Files, entries: seq<Entry>, opts: Options, env: Env)
    requires Separate(entries) && entries != []
    ensures var n := |entries| - 1;
            SameAt(files, Reconcile(files, entries[..n], opts, env).files, entries[n].name) && Separate(entries[..n])
  {
    OutsideKept(files, entries[..|entries| - 1], opts, env, entries[|entries| - 1].name);
    hide Reconcile, SameAt, Marker;
  }

  /** An entry's class and what becomes of it depend on its own records only. */
  lemma LocalClass(a: Files, b: Files, e: Entry, opts: Options, env: Env)
    requires SameAt(a, b, e.name)
    ensures Classify(a, e, opts, env) == Classify(b, e, opts, env)
    ensures Removes(a, e, opts, env) == Removes(b, e, opts, env)
  {
  }

  /** In a run over separate names every entry is judged on the directory as it was at the start
      and ends as that judgement says. */
  lemma {:induction false} EachEntrySettles(files: Files, entries: seq<Entry>, opts: Options, env: Env, k: nat)
    requires Separate(entries) && k < |entries|
    ensures var o := Reconcile(files, entries, opts, env);
            && o.classes[k] == Classify(files, entries[k], opts, env)
            && Settled(files, o.files, entries[k], opts, env)
    decreases |entries|
  {
    var n := |entries| - 1;
    var o := Reconcile(files, entries[..n], opts, env);
    var last := entries[n];
    var after := Repair(o.files, last, opts, env);
    if k == n {
      forall i | 0 <= i < n ensures Marker(last.name) != Marker(entries[i].name) {
        MarkersDiffer(last.name, entries[i].name);
      }
      OutsideKept(files, entries[..n], opts, env, last.name);
      OutsideKept(files, entries[..n], opts, env, Marker(last.name));
      LocalClass(files, o.files, last, opts, env);
      RepairSettles(o.files, last, opts, env);
      SettledFrom(files, o.files, after, last, opts, env);
    } else {
      var e := entries[k];
      EachEntrySettles(files, entries[..n], opts, env, k);
      MarkersDiffer(e.name, last.name);
      RepairKeepsOthers(o.files, last, opts, env, e.name);
      RepairKeepsOthers(o.files, last, opts, env, Marker(e.name));
      SettledStays(files, o.files, after, e, opts, env);
    }
  }

  lemma SettledFrom(a: Files, b: Files, after: Files, e: Entry, opts: Options, env: Env)
    requires SameAt(a, b, e.name) && SameAt(a, b, Marker(e.name)) && Settled(b, after, e, opts, env)
    ensures Settled(a, after, e, opts, env)
  {
    LocalClass(a, b, e, opts, env);
    hide Marker;
  }

  lemma SettledStays(before: Files, a: Files, b: Files, e: Entry, opts: Options, env: Env)
    requires Settled(before, a, e, opts, env) && SameAt(a, b, e.name) && SameAt(a, b, Marker(e.name))
    ensures Settled(before, b, e, opts, env)
  {
    hide Marker, Classify, Removes;
  }

  // ---------- What the classes and the notes mean ----------

  /** The slave is asked: the scan is forced, or nothing is recorded. */
  predicate Asked(files: Files, e: Entry, opts: Options)
    requires e.name in files
  {
    opts.forceRescan || files[e.name].known == 0
  }

  /** The checksum an entry is compared by, recorded or answered, is crc. */
  predicate Reads(files: Files, e: Entry, opts: Options, env: Env, crc: nat) {
    e.name in files && if Asked(files, e, opts) then env.checksum(e.name) == Sum(crc) else files[e.name].known == crc
  }

  predicate Answers(files: Files, e: Entry, opts: Options, env: Env, why: Failure) {
    e.name in files && Asked(files, e, opts) && env.checksum(e.name) == Failed(why)
  }

  /** An entry is OK when the listed checksum is read; missing when it has no record or the slave
      has no file; offline and failed when the slave says so; and any other checksum makes it
      bad, but for a zero on a file that is not empty, which counts as failed. */
  lemma ClassByAnswer(files: Files, entries: seq<Entry>, opts: Options, env: Env, k: nat)
    requires Separate(entries) && k < |entries|
    ensures var c, e := Reconcile(files, entries, opts, env).classes[k], entries[k];
            && (c.OK? <==> Reads(files, e, opts, env, e.crc))
            && (c.Missing? <==> e.name !in files || Answers(files, e, opts, env, NotFound))
            && (c.OfflineFile? <==> Answers(files, e, opts, env, Unreachable))
            && (c.FailedFile? <==>
                 || Answers(files, e, opts, env, OtherFailure)
                 || (e.crc != 0 && Reads(files, e, opts, env, 0) && files[e.name].size > 0))
            && (c.Bad? <==> exists crc: nat :: crc != e.crc && Reads(files, e, opts, env, crc) && (crc != 0 || files[e.name].size == 0))
  {
    EachEntrySettles(files, entries, opts, env, k);
    var e := entries[k];
    if e.name in files {
      match ChecksumFor(files, e.name, opts, env) {
        case Sum(crc) => assert Reads(files, e, opts, env, crc);
        case Failed(_) =>
      }
    }
    hide Reconcile, Settled;
  }

  /** A bad file is gone afterwards exactly when the option for its kind is on: for an empty one
      that reads zero the zero-byte option, for any other the option for bad files. A missing or
      bad entry has its marker if it can be written. */
  lemma BadIsRemovedWhen(files: Files, entries: seq<Entry>, opts: Options, env: Env, k: nat)
    requires Separate(entries) && k < |entries|
    ensures var o, e := Reconcile(files, entries, opts, env), entries[k];
            && (o.classes[k].Bad? ==>
                  (e.name !in o.files <==> if Reads(files, e, opts, env, 0) then opts.deleteZeroByte else opts.deleteBad))
            && ((o.classes[k].Bad? || o.classes[k].Missing?) && env.writeOk(e.name + "-MISSING")
                ==> e.name + "-MISSING" in o.files)
            && (o.classes[k].OK? && env.deleteOk(e.name + "-MISSING") ==> e.name + "-MISSING" !in o.files)
  {
    EachEntrySettles(files, entries, opts, env, k);
    hide Reconcile;
  }

  /** The same names and sizes, whatever checksums are recorded. */
  predicate SameButRecords(a: Files, b: Files) {
    a.Keys == b.Keys && forall n | n in a :: a[n].size == b[n].size
  }

  lemma ForcedTurn(a: Files, b: Files, r: Result, e: Entry, opts: Options, env: Env)
    requires opts.forceRescan && SameButRecords(a, b)
    ensures Classify(a, e, opts, env) == Classify(b, e, opts, env)
    ensures Record(r, a, e, opts, env) == Record(r, b, e, opts, env)
    ensures SameButRecords(Repair(a, e, opts, env), Repair(b, e, opts, env))
  {
    hide Marker;
  }

  /** A forced scan does not depend on the recorded checksums. */
  lemma {:induction false} ForcedForgetsRecords(a: Files, b: Files, entries: seq<Entry>, opts: Options, env: Env)
    requires opts.forceRescan && SameButRecords(a, b)
    ensures var o, p := Reconcile(a, entries, opts, env), Reconcile(b, entries, opts, env);
            o.result == p.result && o.classes == p.classes && SameButRecords(o.files, p.files)
    decreases |entries|
  {
    if entries != [] {
      var n := |entries| - 1;
      ForcedForgetsRecords(a, b, entries[..n], opts, env);
      var o, p := Reconcile(a, entries[..n], opts, env), Reconcile(b, entries[..n], opts, env);
      hide Classify, Record, Repair, SameButRecords;
      ForcedTurn(o.files, p.files, o.result, entries[n], opts, env);
    }
  }

  /** The notes one entry may leave. */
  predicate Noted(notes: seq<Note>, files: Files, e: Entry, opts: Options, env: Env, c: Class) {
    && (MarkerFailed(e.name) in notes <==> (c.Missing? || c.Bad?) && !env.writeOk(e.name + "-MISSING"))
    && (NoChecksum(e.name) in notes <==> c.FailedFile? && !opts.quiet)
    && (ZeroByte(e.name) in notes <==> c.Bad? && Reads(files, e, opts, env, 0) && !opts.deleteZeroByte && !opts.quiet)
    && (DeleteFailed(e.name) in notes <==>
          c.Bad? && (if Reads(files, e, opts, env, 0) then opts.deleteZeroByte else opts.deleteBad) && !env.deleteOk(e.name))
  }

  lemma TurnNotes(files: Files, e: Entry, opts: Options, env: Env)
    ensures Noted(Notes(files, e, opts, env), files, e, opts, env, Classify(files, e, opts, env))
    ensures forall note | note in Notes(files, e, opts, env) :: note.name == e.name
  {
    var m := MarkerNotes(e, env);
    assert forall note | note in m :: note == MarkerFailed(e.name);
  }

  lemma {:induction false} NotesOfOthers(files: Files, entries: seq<Entry>, opts: Options, env: Env, note: Note)
    requires forall i :: 0 <= i < |entries| ==> entries[i].name != note.name
    ensures note !in Reconcile(files, entries, opts, env).result.errors
    decreases |entries|
  {
    if entries != [] {
      var n := |entries| - 1;
      NotesOfOthers(files, entries[..n], opts, env, note);
      TurnNotes(Reconcile(files, entries[..n], opts, env).files, entries[n], opts, env);
      hide Classify, Notes, Repair, Noted;
    }
  }

  lemma NotedElsewhere(a: Files, b: Files, notes: seq<Note>, e: Entry, opts: Options, env: Env, c: Class)
    requires SameAt(a, b, e.name) && Noted(notes, b, e, opts, env, c)
    ensures Noted(notes, a, e, opts, env, c)
  {
  }

  lemma NotesJoin(before: seq<Note>, added: seq<Note>, files: Files, e: Entry, opts: Options, env: Env, c: Class)
    requires || (Noted(before, files, e, opts, env, c) && forall note | note in added :: note.name != e.name)
             || (Noted(added, files, e, opts, env, c) && forall note | note in before :: note.name != e.name)
    ensures Noted(before + added, files, e, opts, env, c)
  {
    hide Reads;
  }

  lemma LastIsNoted(files: Files, entries: seq<Entry>, opts: Options, env: Env)
    requires Separate(entries) && entries != []
    ensures var n := |entries| - 1; var o := Reconcile(files, entries[..n], opts, env);
            Noted(o.result.errors + Notes(o.files, entries[n], opts, env), files, entries[n], opts, env,
                  Classify(o.files, entries[n], opts, env))
  {
    var n := |entries| - 1;
    var o, e := Reconcile(files, entries[..n], opts, env), entries[n];
    var c := Classify(o.files, e, opts, env);
    LastUntouched(files, entries, opts, env);
    TurnNotes(o.files, e, opts, env);
    assert forall i :: 0 <= i < n ==> entries[..n][i].name != e.name;
    hide Reconcile, Classify, Noted, Notes, SameAt, Separate;
    NotedElsewhere(files, o.files, Notes(o.files, e, opts, env), e, opts, env, c);
    forall note | note in o.result.errors ensures note.name != e.name {
      if note.name == e.name {
        NotesOfOthers(files, entries[..n], opts, env, note);
      }
    }
    NotesJoin(o.result.errors, Notes(o.files, e, opts, env), files, e, opts, env, c);
  }

  /** The notes of a scan name each entry for what happened to it: a marker that could not be
      written, a bad file that could not be deleted, and, unless the scan is quiet, a checksum
      that could not be had and an empty file that is left alone. */
  lemma {:induction false} EachEntryIsNoted(files: Files, entries: seq<Entry>, opts: Options, env: Env, k: nat)
    requires Separate(entries) && k < |entries|
    ensures var o := Reconcile(files, entries, opts, env);
            Noted(o.result.errors, files, entries[k], opts, env, o.classes[k])
    decreases |entries|
  {
    var n := |entries| - 1;
    var o := Reconcile(files, entries[..n], opts, env);
    hide Classify, Noted, Notes, Repair, Marker;
    if k == n {
      LastIsNoted(files, entries, opts, env);
    } else {
      EachEntryIsNoted(files, entries[..n], opts, env, k);
      TurnNotes(o.files, entries[n], opts, env);
      assert entries[k].name != entries[n].name;
      NotesJoin(o.result.errors, Notes(o.files, entries[n], opts, env), files, entries[k], opts, env, o.classes[k]);
    }
  }

  // ---------- Scanning again ----------

  /** A second, forced scan of unchanged content gives each entry its first class, except that a
      removed bad file is now missing. */
  lemma SecondScan(files: Files, entries: seq<Entry>, first: Options, second: Options, env: Env, k: nat)
    requires Separate(entries) && first.forceRescan && second.forceRescan && k < |entries|
    ensures var o := Reconcile(files, entries, first, env);
            var p := Reconcile(o.files, entries, second, env);
            p.classes[k] == if Removes(files, entries[k], first, env) then Missing else o.classes[k]
  {
    EachEntrySettles(files, entries, first, env, k);
    EachEntrySettles(Reconcile(files, entries, first, env).files, entries, second, env, k);
  }

  lemma {:induction false} PickEmpty(entries: seq<Entry>, classes: seq<Class>, c: Class)
    requires |classes| == |entries|
    ensures |Pick(entries, classes, c)| == 0 <==> forall k :: 0 <= k < |classes| ==> classes[k] != c
    decreases |entries|
  {
    if entries != [] {
      PickEmpty(entries[..|entries| - 1], classes[..|entries| - 1], c);
    }
  }

  /** The second scan finds nothing bad exactly when the first removed everything it found bad. */
  lemma SecondScanFindsNoBad(files: Files, entries: seq<Entry>, first: Options, second: Options, env: Env)
    requires Separate(entries) && first.forceRescan && second.forceRescan
    ensures var o := Reconcile(files, entries, first, env);
            Reconcile(o.files, entries, second, env).result.bad == 0
            <==> forall k :: 0 <= k < |entries| && o.classes[k].Bad? ==> Removes(files, entries[k], first, env)
  {
    var o := Reconcile(files, entries, first, env);
    var p := Reconcile(o.files, entries, second, env);
    ResultMatchesClasses(o.files, entries, second, env);
    PickEmpty(entries, p.classes, Bad);
    hide Reconcile, Removes, Pick;
    forall k | 0 <= k < |entries|
      ensures p.classes[k] == if Removes(files, entries[k], first, env) then Missing else o.classes[k]
    {
      SecondScan(files, entries, first, second, env, k);
    }
    forall k | 0 <= k < |entries| && Removes(files, entries[k], first, env) ensures o.classes[k].Bad? {
      EachEntrySettles(files, entries, first, env, k);
      RemovedIsBad(files, entries[k], first, env);
    }
  }

  lemma RemovedIsBad(files: Files, e: Entry, opts: Options, env: Env)
    requires Removes(files, e, opts, env)
    ensures Classify(files, e, opts, env).Bad?
  {
  }

  predicate BadBecameMissing(a: seq<Class>, b: seq<Class>) {
    |a| == |b| && forall k :: 0 <= k < |a| ==> b[k] == if a[k].Bad? then Missing else a[k]
  }

  lemma {:induction false} BadCountsAsMissing(entries: seq<Entry>, a: seq<Class>, b: seq<Class>)
    requires |a| == |entries| && BadBecameMissing(a, b)
    ensures |Pick(entries, b, Bad)| == 0 && |Pick(entries, b, OK)| == |Pick(entries, a, OK)|
    ensures |Pick(entries, b, Missing)| == |Pick(entries, a, Missing)| + |Pick(entries, a, Bad)|
    ensures Pick(entries, b, OfflineFile) == Pick(entries, a, OfflineFile)
    ensures Pick(entries, b, FailedFile) == Pick(entries, a, FailedFile)
    decreases |entries|
  {
    if entries != [] {
      var n := |entries| - 1;
      assert b[n] == if a[n].Bad? then Missing else a[n];
      BadCountsAsMissing(entries[..n], a[..n], b[..n]);
    }
  }

  /** With both kinds of deletion on, a second forced scan reports nothing bad, and as missing
      what was missing or bad before; nothing else changes. */
  lemma SecondScanTotals(files: Files, entries: seq<Entry>, first: Options, second: Options, env: Env)
    requires Separate(entries) && first.forceRescan && second.forceRescan
    requires first.deleteBad && first.deleteZeroByte
    ensures var o := Reconcile(files, entries, first, env);
            var r, s := o.result, Reconcile(o.files, entries, second, env).result;
            && s.bad == 0 && s.missing == r.missing + r.bad && s.ok == r.ok
            && s.offlineFiles == r.offlineFiles && s.failedFiles == r.failedFiles
  {
    var o := Reconcile(files, entries, first, env);
    var p := Reconcile(o.files, entries, second, env);
    ResultMatchesClasses(files, entries, first, env);
    ResultMatchesClasses(o.files, entries, second, env);
    hide Reconcile, Pick;
    forall k | 0 <= k < |entries| ensures p.classes[k] == if o.classes[k].Bad? then Missing else o.classes[k] {
      SecondScan(files, entries, first, second, env, k);
      EachEntrySettles(files, entries, first, env, k);
    }
    BadCountsAsMissing(entries, o.classes, p.classes);
  }

  /** With deletion of bad files on, an empty file whose checksum is wrong stays, and is bad
      again. */
  lemma EmptyFileStaysBad(second: Options)
    requires second.forceRescan
    ensures var first := Options(true, true, false, false);
            var env := Env((n: string) => Sum(0), (n: string) => true, (n: string) => true);
            var entries := [Entry("f", 5)];
            var o := Reconcile(map["f" := File(0, 0)], entries, first, env);
            o.result.bad == 1 && "f" in o.files && Reconcile(o.files, entries, second, env).result.bad != 0
  {
    var first := Options(true, true, false, false);
    var env := Env((n: string) => Sum(0), (n: string) => true, (n: string) => true);
    var files, e := map["f" := File(0, 0)], Entry("f", 5);
    assert "f" != Marker("f") by { assert |Marker("f")| == 9; }
    assert Classify(files, e, first, env) == Bad && !Removes(files, e, first, env);
    OneEntry(files, e, first, env);
    var o := Reconcile(files, [e], first, env);
    assert o.classes[0].Bad?;
    hide Reconcile, Classify, Removes;
    SecondScanFindsNoBad(files, [e], first, second, env);
  }

  lemma OneEntry(files: Files, e: Entry, opts: Options, env: Env)
    ensures Reconcile(files, [e], opts, env)
            == Outcome(Repair(files, e, opts, env), Record(NOTHING, files, e, opts, env), [Classify(files, e, opts, env)])
  {
    hide Repair, Record, Classify;
    assert [e][..0] == [];
    var none := Reconcile(files, [e][..0], opts, env);
    assert none == Outcome(files, NOTHING, []);
  }
}
