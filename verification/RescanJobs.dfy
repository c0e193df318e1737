/** The output of a rescan job and its readers, and the list of targets a job works on. */
module RescanJobs {
  import opened Text
  import opened TextOrder

  // ---------- Unread lines ----------

  /** Blank lines are not kept; Blank is TrimSpace(line) == "". */
  datatype Step = Append(line: string) | Snapshot(user: string)

  datatype Job = Job(lines: seq<string>, lastRead: map<string, nat>)

  function Reader(user: string): string {
    LowerAll(TrimSpace(user))
  }

  function From(job: Job, key: string): nat {
    if key in job.lastRead && job.lastRead[key] <= |job.lines| then job.lastRead[key] else 0
  }

  /** The job after a step, and the lines a snapshot hands out. */
  function Next(job: Job, step: Step): (Job, seq<string>) {
    match step
    case Append(line) =>
      if TrimSpace(line) == "" then (job, []) else (job.(lines := job.lines + [TrimSpace(line)]), [])
    case Snapshot(user) =>
      var key := Reader(user);
      (job.(lastRead := job.lastRead[key := |job.lines|]), job.lines[From(job, key)..])
  }

  function Run(job: Job, steps: seq<Step>): Job
    decreases |steps|
  {
    if steps == [] then job else Next(Run(job, steps[..|steps| - 1]), steps[|steps| - 1]).0
  }

  /** Everything handed to one reader during a run. */
  function Received(job: Job, steps: seq<Step>, key: string): seq<string>
    decreases |steps|
  {
    if steps == [] then [] else
      var last := steps[|steps| - 1];
      var got := Received(job, steps[..|steps| - 1], key);
      if last.Snapshot? && Reader(last.user) == key then got + Next(Run(job, steps[..|steps| - 1]), last).1 else got
  }

  /** Everything appended during a run. */
  function Appended(steps: seq<Step>): seq<string>
    decreases |steps|
  {
    if steps == [] then [] else
      var last := steps[|steps| - 1];
      var before := Appended(steps[..|steps| - 1]);
      if last.Append? && TrimSpace(last.line) != "" then before + [TrimSpace(last.line)] else before
  }

  class RescanJob {
    var lines: seq<string>
    var lastRead: map<string, nat>

    ghost function State(): Job
      reads this
    {
      Job(lines, lastRead)
    }

    method AppendLine(line: string)
      modifies this
      ensures State() == Next(old(State()), Append(line)).0
    {
      var trimmed := TrimSpace(line);
      if trimmed == "" {
        return;
      }
      lines := lines + [trimmed];
    }

    method SnapshotUnread(user: string) returns (unread: seq<string>)
      modifies this
      ensures (State(), unread) == Next(old(State()), Snapshot(user))
    {
      var key := Reader(user);
      var from := 0;
      if key in lastRead && lastRead[key] <= |lines| {
        from := lastRead[key];
      }
      unread := lines[from..];
      lastRead := lastRead[key := |lines|];
    }
  }

  predicate InBounds(job: Job) {
    forall key | key in job.lastRead :: job.lastRead[key] <= |job.lines|
  }

  /** However appends and the snapshots of many readers interleave, each reader has received the
      lines from the start, in order and once, up to its own mark. */
  lemma {:induction false} EachLineOnce(steps: seq<Step>, key: string)
    ensures var job := Run(Job([], map[]), steps);
            && job.lines == Appended(steps) && InBounds(job)
            && Received(Job([], map[]), steps, key) == Appended(steps)[..From(job, key)]
    decreases |steps|
  {
    if steps != [] {
      EachLineOnce(steps[..|steps| - 1], key);
    }
  }

  /** A snapshot brings its own reader up to everything appended so far, and gives the others
      nothing. */
  lemma SnapshotCatchesUp(steps: seq<Step>, user: string, key: string)
    ensures var after := steps + [Snapshot(user)];
            Received(Job([], map[]), after, key)
            == if key == Reader(user) then Appended(steps) else Received(Job([], map[]), steps, key)
  {
    assert (steps + [Snapshot(user)])[..|steps|] == steps;
    EachLineOnce(steps + [Snapshot(user)], key);
    EachLineOnce(steps, key);
    hide Reader;
  }

  // ---------- Targets ----------

  function Dedupe(paths: seq<string>, prev: string): seq<string> {
    if paths == [] then []
    else if paths[0] == "" || paths[0] == prev then Dedupe(paths[1..], prev)
    else [paths[0]] + Dedupe(paths[1..], paths[0])
  }

  /** dedupeSortedPaths compacts the slice it is given. */
  method DedupeSortedPaths(paths: array<string>) returns (n: nat)
    modifies paths
    ensures n <= paths.Length && paths[..n] == Dedupe(old(paths[..]), "")
    ensures paths[n..] == old(paths[n..])
  {
    hide Dedupe;
    n := 0;
    var prev := "";
    var i := 0;
    ghost var before := paths[..];
    assert [] + Dedupe(before, "") == Dedupe(before, "");
    while i < paths.Length
      invariant 0 <= n <= i <= paths.Length
      invariant paths[..n] + Dedupe(before[i..], prev) == Dedupe(before, "")
      invariant forall k :: n <= k < paths.Length ==> paths[k] == before[k]
    {
      var p := paths[i];
      assert p == before[i] && before[i..][1..] == before[i + 1..];
      ghost var kept, rest := paths[..n], Dedupe(before[i + 1..], p);
      DedupeStep(before[i..], prev);
      if p != "" && p != prev {
        paths[n] := p;
        assert paths[..n + 1] + rest == kept + ([p] + rest);
        n, prev := n + 1, p;
      }
      i := i + 1;
    }
    DedupeNothing(prev);
    assert paths[n..] == before[n..];
    assert before[i..] == [];
    assert paths[..n] + [] == paths[..n];
  }

  lemma DedupeNothing(prev: string)
    ensures Dedupe([], prev) == []
  {
  }

  lemma DedupeStep(paths: seq<string>, prev: string)
    requires paths != []
    ensures var p, rest := paths[0], paths[1..];
            Dedupe(paths, prev) == if p == "" || p == prev then Dedupe(rest, prev) else [p] + Dedupe(rest, p)
  {
  }

  predicate SortedPaths(paths: seq<string>) {
    forall i, j :: 0 <= i < j < |paths| ==> !TextLess(paths[j], paths[i])
  }

  /** On sorted paths the result is the set of non-empty paths, each once. */
  lemma {:induction false} DedupeIsSet(paths: seq<string>, prev: string)
    requires SortedPaths(paths) && (prev != "" ==> forall i :: 0 <= i < |paths| ==> !TextLess(paths[i], prev))
    ensures var out := Dedupe(paths, prev);
            && (forall x :: x in out <==> x in paths && x != "" && x != prev)
            && (forall i, j :: 0 <= i < j < |out| ==> out[i] != out[j])
  {
    if paths != [] {
      var first, rest := paths[0], paths[1..];
      assert paths == [first] + rest;
      if first == "" || first == prev {
        DedupeIsSet(rest, prev);
      } else {
        forall i | 0 <= i < |rest| ensures !TextLess(rest[i], first) && (prev != "" ==> rest[i] != prev) {
          assert rest[i] == paths[i + 1];
          TextLessTotal(prev, first);
        }
        DedupeIsSet(rest, first);
        var tail := Dedupe(rest, first);
        forall x ensures x in [first] + tail <==> x in paths && x != "" && x != prev {
          assert x in tail <==> x in rest && x != "" && x != first;
        }
        forall i, j | 0 <= i < j < |[first] + tail| ensures ([first] + tail)[i] != ([first] + tail)[j] {
          assert tail[j - 1] in tail;
        }
      }
    }
  }
}
