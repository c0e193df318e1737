/** Moving a path from one slave to another: create the directories, copy every recorded file,
    delete the source, and only then move the entries of the virtual file system. */
module Relocation {
  import opened Options

  type Path = string
  type Content = seq<int>
  type Store = map<Path, Content>

  datatype Entry = Entry(isDir: bool, size: int, owner: string, group: string, slave: string)

  type Vfs = map<Path, Entry>

  predicate Under(dir: Path, p: Path) {
    p == dir || dir + "/" <= p
  }

  function Rewrite(from: Path, to: Path, p: Path): (r: Path)
    requires Under(from, p)
    ensures Under(to, r) && from + r[|to|..] == p
  {
    assert p == from || p[|from|..] == "/" + p[|from| + 1..];
    to + p[|from|..]
  }

  datatype Item = Item(from: Path, to: Path, size: int)

  // ---------- What the slaves may do ----------

  /** The stages of one copy in the order the master goes through them; a copy stops at the
      first that fails. Both final reports are waited for before either is looked at. */
  datatype Stage = SourceListen | DestConnect | SendIssue | ReceiveIssue | SendAck | ReceiveAck
                 | SourceWait(destReports: bool) | DestWait | SourceStatus | DestStatus | Finished

  /** One copy as the master sees it: how far it got, what reached the destination, and the
      sizes in the receiver's status. */
  datatype CopyRun = CopyRun(stage: Stage, arrived: Option<Content>, fileSize: int, transferred: int)

  predicate Ok(run: CopyRun) {
    run.stage.Finished?
  }

  /** A delete: whether success was reported, and what is gone if it was not. */
  datatype DeleteRun = DeleteRun(ok: bool, removed: set<Path>)

  datatype Env = Env(mkdirOk: Path -> bool, copy: Path -> CopyRun, sourceDelete: DeleteRun, cleanup: DeleteRun)

  /** finalUploadFileSize at position 0. */
  function FinalSize(run: CopyRun): int {
    if run.fileSize > 0 then run.fileSize else run.transferred
  }

  predicate Passes(item: Item, run: CopyRun) {
    Ok(run) && (item.size > 0 ==> FinalSize(run) == item.size)
  }

  predicate Gone(dir: Path, run: DeleteRun, p: Path) {
    Under(dir, p) && (run.ok || p in run.removed)
  }

  function Delete(store: Store, dir: Path, run: DeleteRun): Store {
    map p | p in store && !Gone(dir, run, p) :: store[p]
  }

  // ---------- The protocol ----------

  datatype Op =
    | MakeDir(path: Path)
    | Copy(from: Path, to: Path)
    | AbortSource(path: Path)       // the source end of a copy is told to give up
    | AbortDest(path: Path)
    | DeleteSource(path: Path)
    | DeleteDest(path: Path)

  /** An issued command with both stores as they were at that moment. */
  datatype Event = Event(op: Op, source: Store, dest: Store)

  datatype World = World(source: Store, dest: Store, dirs: set<Path>, vfs: Vfs, log: seq<Event>)

  function Issue(w: World, op: Op): World {
    w.(log := w.log + [Event(op, w.source, w.dest)])
  }

  function MakeOne(w: World, dir: Path, env: Env): World {
    var v := Issue(w, MakeDir(dir));
    if env.mkdirOk(dir) then v.(dirs := v.dirs + {dir}) else v
  }

  function MakeDirs(w: World, dirs: seq<Path>, env: Env): (World, bool)
    decreases |dirs|
  {
    if dirs == [] then (w, true)
    else if !env.mkdirOk(dirs[0]) then (MakeOne(w, dirs[0], env), false)
    else MakeDirs(MakeOne(w, dirs[0], env), dirs[1..], env)
  }

  /** Which ends are told to give up when a copy stops at a stage. */
  predicate AbortsSource(stage: Stage) {
    stage in {DestConnect, SendIssue, ReceiveIssue, SendAck, ReceiveAck, DestWait}
  }

  predicate AbortsDest(stage: Stage) {
    stage.SourceWait? || stage in {SendIssue, ReceiveIssue, SendAck, ReceiveAck}
  }

  function AbortEnds(w: World, stage: Stage, item: Item): World {
    var v := if AbortsSource(stage) then Issue(w, AbortSource(item.from)) else w;
    if AbortsDest(stage) then Issue(v, AbortDest(item.to)) else v
  }

  function CopyOne(w: World, item: Item, env: Env): World {
    var v := Issue(w, Copy(item.from, item.to));
    var run := env.copy(item.from);
    AbortEnds(if run.arrived.Some? then v.(dest := v.dest[item.to := run.arrived.value]) else v, run.stage, item)
  }

  function CopyAll(w: World, items: seq<Item>, env: Env): (World, bool)
    decreases |items|
  {
    if items == [] then (w, true)
    else
      var v := CopyOne(w, items[0], env);
      if Passes(items[0], env.copy(items[0].from)) then CopyAll(v, items[1..], env) else (v, false)
  }

  function Cleanup(w: World, to: Path, env: Env): World {
    Issue(w, DeleteDest(to)).(dest := Delete(w.dest, to, env.cleanup))
  }

  /** relocateAcrossSlaves. */
  function Across(w: World, from: Path, to: Path, dirs: seq<Path>, items: seq<Item>, env: Env): (World, bool) {
    var (made, madeOk) := MakeDirs(w, dirs, env);
    if !madeOk then (made, false) else
      var (copied, copiedOk) := CopyAll(made, items, env);
      if !copiedOk then (Cleanup(copied, to, env), false) else
        var deleted := Issue(copied, DeleteSource(from)).(source := Delete(copied.source, from, env.sourceDelete));
        if !env.sourceDelete.ok then (Cleanup(deleted, to, env), false) else (deleted, true)
  }

  function MovedPaths(vfs: Vfs, from: Path, to: Path): set<Path> {
    set p | p in vfs && Under(from, p) :: Rewrite(from, to, p)
  }

  /** VirtualFileSystem.RelocateFile on the entries of the subtree. */
  function MoveEntries(vfs: Vfs, from: Path, to: Path, slave: string): Vfs {
    (map p | p in vfs && !Under(from, p) :: vfs[p])
    + (map q | q in MovedPaths(vfs, from, to) :: vfs[Rewrite(to, from, q)].(slave := slave))
  }

  predicate Attempted(vfs: Vfs, from: Path, sourceUp: bool, target: Option<string>) {
    from in vfs && vfs[from].slave != "" && sourceUp && target.Some?
  }

  /** RelocatePathToSlave for two different slaves; target is the usable destination, if any. */
  function Relocate(w: World, from: Path, to: Path, sourceUp: bool, target: Option<string>,
                    dirs: seq<Path>, items: seq<Item>, env: Env): (World, bool) {
    if !Attempted(w.vfs, from, sourceUp, target) then (w, false) else
      var (v, ok) := Across(w, from, to, dirs, items, env);
      if ok then (v.(vfs := MoveEntries(v.vfs, from, to, target.value)), true) else (v, false)
  }

  // ---------- Which files and directories ----------

  /** The recorded files of the source: the file itself, or those below the directory. */
  predicate Selected(vfs: Vfs, from: Path, p: Path) {
    && p in vfs && !vfs[p].isDir
    && from in vfs && (if vfs[from].isDir then from + "/" <= p else p == from)
  }

  predicate Lists(vfs: Vfs, from: Path, to: Path, items: seq<Item>) {
    && (forall i :: 0 <= i < |items| ==> ItemOk(vfs, from, to, items[i]))
    && (forall i, j :: 0 <= i < j < |items| ==> items[i].from != items[j].from)
    && (forall p | p in vfs && Selected(vfs, from, p) :: exists i :: 0 <= i < |items| && items[i].from == p)
  }

  /** The destination itself, for a directory, or the place of a recorded directory. */
  predicate IsDirBelow(vfs: Vfs, from: Path, to: Path, d: Path) {
    || (d == to && from in vfs && vfs[from].isDir)
    || exists p | p in vfs :: vfs[p].isDir && from + "/" <= p && d == Rewrite(from, to, p)
  }

  predicate ListsDirs(vfs: Vfs, from: Path, to: Path, below: seq<Path>) {
    && (from in vfs && vfs[from].isDir ==> |below| > 0 && below[0] == to)
    && (forall d | d in below :: IsDirBelow(vfs, from, to, d))
    && (forall i, j :: 0 <= i < j < |below| ==> below[i] != below[j])
    && (forall p | p in vfs && vfs[p].isDir && from + "/" <= p :: Rewrite(from, to, p) in below)
  }

  predicate ItemOk(vfs: Vfs, from: Path, to: Path, item: Item) {
    Selected(vfs, from, item.from) && item.to == Rewrite(from, to, item.from) && item.size == vfs[item.from].size
  }

  class Bridge {
    var source: Store
    var dest: Store
    var dirs: set<Path>
    var vfs: Vfs
    ghost var log: seq<Event>

    ghost function View(): World
      reads this
    {
      World(source, dest, dirs, vfs, log)
    }

    method MakeDirOnSlave(dir: Path, env: Env) returns (ok: bool)
      modifies this`dirs, this`log
      ensures View() == MakeOne(old(View()), dir, env) && ok == env.mkdirOk(dir)
    {
      log := log + [Event(MakeDir(dir), source, dest)];
      ok := env.mkdirOk(dir);
      if ok {
        dirs := dirs + {dir};
      }
    }

    /** The destination directories in the order the map iteration happens to give. */
    method DirsBelow(from: Path, to: Path) returns (below: seq<Path>)
      requires from in vfs
      ensures ListsDirs(vfs, from, to, below)
    {
      below := if vfs[from].isDir then [to] else [];
      var left, done: set<Path> := vfs.Keys, {};
      while left != {}
        invariant done + left == vfs.Keys && done !! left
        invariant vfs[from].isDir ==> |below| > 0 && below[0] == to
        invariant forall d | d in below :: d == to || (Under(to, d) && Rewrite(to, from, d) in done)
        invariant forall d | d in below :: IsDirBelow(vfs, from, to, d)
        invariant forall i, j :: 0 <= i < j < |below| ==> below[i] != below[j]
        invariant forall p | p in done && vfs[p].isDir && from + "/" <= p :: Rewrite(from, to, p) in below
        decreases left
      {
        var p :| p in left;
        if vfs[p].isDir && from + "/" <= p {
          var d := Rewrite(from, to, p);
          assert Rewrite(to, from, d) == p && d != to;
          assert d !in below;
          below := below + [d];
        }
        left, done := left - {p}, done + {p};
      }
    }

    method CollectRelocateFiles(from: Path, to: Path) returns (items: seq<Item>)
      requires from in vfs
      ensures Lists(vfs, from, to, items)
    {
      items := [];
      if !vfs[from].isDir {
        items := [Item(from, to, vfs[from].size)];
        assert items[0].from == from;
        return;
      }
      var left, done: set<Path> := vfs.Keys, {};
      while left != {}
        invariant done + left == vfs.Keys && done !! left
        invariant forall i :: 0 <= i < |items| ==> ItemOk(vfs, from, to, items[i]) && items[i].from in done
        invariant forall i, j :: 0 <= i < j < |items| ==> items[i].from != items[j].from
        invariant forall p | p in done && Selected(vfs, from, p) :: exists i :: 0 <= i < |items| && items[i].from == p
        decreases left
      {
        var p :| p in left;
        if !vfs[p].isDir && from + "/" <= p {
          ghost var before := items;
          items := items + [Item(p, Rewrite(from, to, p), vfs[p].size)];
          assert items[|items| - 1].from == p;
          assert forall i :: 0 <= i < |before| ==> items[i] == before[i];
        }
        left, done := left - {p}, done + {p};
      }
    }

    method AbortEnd(op: Op)
      modifies this`log
      ensures View() == Issue(old(View()), op)
    {
      log := log + [Event(op, source, dest)];
    }

    /** The exchange of one copy: listen, connect, send, receive, both acknowledgements, both
        final reports, and the size test. */
    method CopyFileBetweenSlaves(item: Item, env: Env) returns (ok: bool)
      modifies this`dest, this`log
      ensures View() == CopyOne(old(View()), item, env) && ok == Passes(item, env.copy(item.from))
      ensures var run := env.copy(item.from);
              ok <==> run.stage.Finished?
                      && (item.size > 0 ==> if run.fileSize > 0 then run.fileSize == item.size else run.transferred == item.size)
    {
      var run := env.copy(item.from);
      log := log + [Event(Copy(item.from, item.to), source, dest)];
      if run.arrived.Some? {
        dest := dest[item.to := run.arrived.value];
      }
      if run.stage.SourceListen? {
        return false;
      }
      if run.stage.DestConnect? {
        AbortEnd(AbortSource(item.from));
        return false;
      }
      if run.stage.SendIssue? || run.stage.ReceiveIssue? || run.stage.SendAck? || run.stage.ReceiveAck? {
        AbortEnd(AbortSource(item.from));
        AbortEnd(AbortDest(item.to));
        return false;
      }
      if run.stage.SourceWait? {
        AbortEnd(AbortDest(item.to));
        return false;
      }
      if run.stage.DestWait? {
        AbortEnd(AbortSource(item.from));
        return false;
      }
      if run.stage.SourceStatus? || run.stage.DestStatus? {
        return false;
      }
      ok := !(item.size > 0 && FinalSize(run) != item.size);
    }

    method CleanDestination(to: Path, env: Env)
      modifies this`dest, this`log
      ensures View() == Cleanup(old(View()), to, env)
    {
      log := log + [Event(DeleteDest(to), source, dest)];
      dest := Delete(dest, to, env.cleanup);
    }

    method RelocateAcrossSlaves(from: Path, to: Path, env: Env) returns (ok: bool, ghost below: seq<Path>, ghost items: seq<Item>)
      requires from in vfs
      modifies this
      ensures (View(), ok) == Across(old(View()), from, to, below, items, env)
      ensures ListsDirs(old(vfs), from, to, below) && Lists(old(vfs), from, to, items)
    {
      hide CopyOne, MakeOne, Passes, Lists, ListsDirs;
      var start := DirsBelow(from, to);
      below := start;
      var files := CollectRelocateFiles(from, to);
      items := files;
      ghost var w := View();
      var i := 0;
      while i < |start|
        invariant 0 <= i <= |start| && vfs == old(vfs)
        invariant MakeDirs(View(), start[i..], env) == MakeDirs(w, start, env)
      {
        var made := MakeDirOnSlave(start[i], env);
        if !made {
          return false, below, items;
        }
        i := i + 1;
      }
      assert start[i..] == [];
      ghost var m := View();
      i := 0;
      while i < |files|
        invariant 0 <= i <= |files| && vfs == old(vfs)
        invariant CopyAll(View(), files[i..], env) == CopyAll(m, files, env)
      {
        var copied := CopyFileBetweenSlaves(files[i], env);
        if !copied {
          CleanDestination(to, env);
          return false, below, items;
        }
        i := i + 1;
      }
      assert files[i..] == [];
      log := log + [Event(DeleteSource(from), source, dest)];
      source := Delete(source, from, env.sourceDelete);
      if !env.sourceDelete.ok {
        CleanDestination(to, env);
      }
      ok := env.sourceDelete.ok;
    }

    method RelocatePathToSlave(from: Path, to: Path, sourceUp: bool, target: Option<string>, env: Env)
      returns (ok: bool, ghost below: seq<Path>, ghost items: seq<Item>)
      modifies this
      ensures (View(), ok) == Relocate(old(View()), from, to, sourceUp, target, below, items, env)
      ensures Attempted(old(vfs), from, sourceUp, target)
              ==> ListsDirs(old(vfs), from, to, below) && Lists(old(vfs), from, to, items)
    {
      if from !in vfs || vfs[from].slave == "" || !sourceUp || target.None? {
        return false, [], [];
      }
      ok, below, items := RelocateAcrossSlaves(from, to, env);
      if ok {
        vfs := MoveEntries(vfs, from, to, target.value);
      }
    }
  }

  // ---------- Who is told to give up ----------

  function Ops(log: seq<Event>): (r: seq<Op>)
    ensures |r| == |log|
  {
    seq(|log|, i requires 0 <= i < |log| => log[i].op)
  }

  lemma OpsGrow(log: seq<Event>, e: Event)
    ensures Ops(log + [e]) == Ops(log) + [e.op]
  {
  }

  /** The source has answered the listen request; the destination has answered the connect. */
  predicate SourceAccepted(stage: Stage) {
    !stage.SourceListen?
  }

  predicate DestAccepted(stage: Stage) {
    !stage.SourceListen? && !stage.DestConnect?
  }

  /** The end's final report has come. */
  predicate SourceReported(stage: Stage) {
    stage.DestWait? || stage.SourceStatus? || stage.DestStatus? || stage.Finished?
  }

  predicate DestReported(stage: Stage) {
    (stage.SourceWait? && stage.destReports) || stage.SourceStatus? || stage.DestStatus? || stage.Finished?
  }

  predicate ReportMissing(stage: Stage) {
    stage.SourceWait? || stage.DestWait?
  }

  function Opt(told: bool, op: Op): seq<Op> {
    if told then [op] else []
  }

  /** Each end that accepted the transfer and has not reported is told to give up, once, and no
      other end is; but when a final report does not come, it is the other end that is told. */
  lemma EndsTold(w: World, item: Item, env: Env)
    ensures var stage := env.copy(item.from).stage;
            var source := if ReportMissing(stage) then stage.DestWait? else SourceAccepted(stage) && !SourceReported(stage);
            var dest := if ReportMissing(stage) then stage.SourceWait? else DestAccepted(stage) && !DestReported(stage);
            Ops(CopyOne(w, item, env).log)
            == Ops(w.log) + [Copy(item.from, item.to)] + Opt(source, AbortSource(item.from)) + Opt(dest, AbortDest(item.to))
  {
    var v := Issue(w, Copy(item.from, item.to));
    OpsGrow(w.log, Event(Copy(item.from, item.to), w.source, w.dest));
    var run := env.copy(item.from);
    var d := if run.arrived.Some? then v.dest[item.to := run.arrived.value] else v.dest;
    var source := Event(AbortSource(item.from), v.source, d);
    OpsGrow(v.log, source);
    OpsGrow(v.log, Event(AbortDest(item.to), v.source, d));
    OpsGrow(v.log + [source], Event(AbortDest(item.to), v.source, d));
    hide Ops;
  }

  /** So the ends that still owe a report are the ends told exactly when no wait for a final
      report failed. */
  lemma ToldAreOwing(w: World, item: Item, env: Env)
    ensures var stage := env.copy(item.from).stage;
            var told := Ops(CopyOne(w, item, env).log)[|w.log| + 1..];
            !ReportMissing(stage)
            <==> && (AbortSource(item.from) in told <==> SourceAccepted(stage) && !SourceReported(stage))
                 && (AbortDest(item.to) in told <==> DestAccepted(stage) && !DestReported(stage))
  {
    EndsTold(w, item, env);
    hide CopyOne, Ops;
    var stage := env.copy(item.from).stage;
    var source := if ReportMissing(stage) then stage.DestWait? else SourceAccepted(stage) && !SourceReported(stage);
    var dest := if ReportMissing(stage) then stage.SourceWait? else DestAccepted(stage) && !DestReported(stage);
    assert Ops(CopyOne(w, item, env).log)[|w.log| + 1..] == Opt(source, AbortSource(item.from)) + Opt(dest, AbortDest(item.to));
  }

  function MakeOps(dirs: seq<Path>): (r: seq<Op>)
    ensures |r| == |dirs|
  {
    seq(|dirs|, i requires 0 <= i < |dirs| => MakeDir(dirs[i]))
  }

  function CopyOps(items: seq<Item>): (r: seq<Op>)
    ensures |r| == |items|
  {
    seq(|items|, i requires 0 <= i < |items| => Copy(items[i].from, items[i].to))
  }

  lemma {:induction false} MakeOrder(w: World, dirs: seq<Path>, env: Env)
    requires MakeDirs(w, dirs, env).1
    ensures Ops(MakeDirs(w, dirs, env).0.log) == Ops(w.log) + MakeOps(dirs)
    decreases |dirs|
  {
    if dirs == [] {
      assert Ops(w.log) + [] == Ops(w.log);
    } else {
      OpsGrow(w.log, Event(MakeDir(dirs[0]), w.source, w.dest));
      MakeOrder(MakeOne(w, dirs[0], env), dirs[1..], env);
      hide Ops;
      assert MakeOps(dirs) == [MakeDir(dirs[0])] + MakeOps(dirs[1..]);
    }
  }

  lemma {:induction false} CopyOrder(w: World, items: seq<Item>, env: Env)
    requires CopyAll(w, items, env).1
    ensures Ops(CopyAll(w, items, env).0.log) == Ops(w.log) + CopyOps(items)
    decreases |items|
  {
    if items == [] {
      assert Ops(w.log) + [] == Ops(w.log);
    } else {
      EndsTold(w, items[0], env);
      CopyOrder(CopyOne(w, items[0], env), items[1..], env);
      hide Ops, CopyOne;
      assert CopyOps(items) == [Copy(items[0].from, items[0].to)] + CopyOps(items[1..]);
      assert [Copy(items[0].from, items[0].to)] + [] + [] == [Copy(items[0].from, items[0].to)];
    }
  }

  /** A successful relocation issues the directories in order, then the copies in order, then one
      delete at the source, and nothing else. */
  lemma SuccessOrder(w: World, from: Path, to: Path, sourceUp: bool, target: Option<string>,
                     dirs: seq<Path>, items: seq<Item>, env: Env)
    requires Relocate(w, from, to, sourceUp, target, dirs, items, env).1
    ensures var v := Relocate(w, from, to, sourceUp, target, dirs, items, env).0;
            Ops(v.log) == Ops(w.log) + MakeOps(dirs) + CopyOps(items) + [DeleteSource(from)]
  {
    var m := MakeDirs(w, dirs, env).0;
    var c := CopyAll(m, items, env).0;
    MakeOrder(w, dirs, env);
    CopyOrder(m, items, env);
    OpsGrow(c.log, Event(DeleteSource(from), c.source, c.dest));
    hide Ops, MakeDirs, CopyAll, MakeOps, CopyOps;
  }

  lemma {:induction false} DirsMade(w: World, dirs: seq<Path>, env: Env)
    requires MakeDirs(w, dirs, env).1
    ensures MakeDirs(w, dirs, env).0.dirs == w.dirs + set d | d in dirs
    decreases |dirs|
  {
    if dirs != [] {
      assert dirs == [dirs[0]] + dirs[1..];
      DirsMade(MakeOne(w, dirs[0], env), dirs[1..], env);
    }
  }

  lemma {:induction false} CopyKeepsDirs(w: World, items: seq<Item>, env: Env)
    ensures CopyAll(w, items, env).0.dirs == w.dirs
    decreases |items|
  {
    if items != [] {
      CopyKeepsDirs(CopyOne(w, items[0], env), items[1..], env);
    }
  }

  /** After success the directories asked for are there, and no others are new. */
  lemma SuccessMakesDirs(w: World, from: Path, to: Path, sourceUp: bool, target: Option<string>,
                         dirs: seq<Path>, items: seq<Item>, env: Env)
    requires Relocate(w, from, to, sourceUp, target, dirs, items, env).1
    ensures Relocate(w, from, to, sourceUp, target, dirs, items, env).0.dirs == w.dirs + set d | d in dirs
  {
    DirsMade(w, dirs, env);
    CopyKeepsDirs(MakeDirs(w, dirs, env).0, items, env);
    hide MakeDirs, CopyAll;
  }

  /** Nothing is done for a path that is not recorded or belongs to no slave, while its slave is
      away, or without a usable destination. */
  lemma NothingAttempted(w: World, from: Path, to: Path, sourceUp: bool, target: Option<string>,
                         dirs: seq<Path>, items: seq<Item>, env: Env)
    requires from !in w.vfs || w.vfs[from].slave == "" || !sourceUp || target.None?
    ensures Relocate(w, from, to, sourceUp, target, dirs, items, env) == (w, false)
  {
  }

  /** Nothing recorded is forgotten or added: below a directory every file is copied and every
      directory made at its place below the destination; a file is copied alone. */
  lemma NothingForgotten(vfs: Vfs, from: Path, to: Path, items: seq<Item>, dirs: seq<Path>, p: Path)
    requires Lists(vfs, from, to, items) && ListsDirs(vfs, from, to, dirs) && from in vfs
    ensures p in vfs && !vfs[p].isDir && (p == from || (vfs[from].isDir && Under(from, p)))
            <==> exists i :: 0 <= i < |items| && items[i].from == p
    ensures forall i :: 0 <= i < |items| ==> Under(from, items[i].from) && items[i].to == Rewrite(from, to, items[i].from)
    ensures p in vfs && vfs[p].isDir && Under(from, p) ==> Rewrite(from, to, p) in dirs
    ensures forall i :: 0 <= i < |dirs| ==>
              (Under(to, dirs[i]) && Rewrite(to, from, dirs[i]) in vfs && vfs[Rewrite(to, from, dirs[i])].isDir)
  {
    if p in vfs && !vfs[p].isDir && (p == from || (vfs[from].isDir && Under(from, p))) {
      assert Selected(vfs, from, p);
    }
    forall i | 0 <= i < |items| ensures Selected(vfs, from, items[i].from) && items[i].to == Rewrite(from, to, items[i].from) {
      assert ItemOk(vfs, from, to, items[i]);
    }
    forall i | 0 <= i < |dirs|
      ensures Under(to, dirs[i]) && Rewrite(to, from, dirs[i]) in vfs && vfs[Rewrite(to, from, dirs[i])].isDir
    {
      DirIsRecorded(vfs, from, to, dirs[i]);
    }
    if p == from && vfs[p].isDir {
      assert Rewrite(from, to, p) == to == dirs[0];
    }
  }

  lemma DirIsRecorded(vfs: Vfs, from: Path, to: Path, d: Path)
    requires IsDirBelow(vfs, from, to, d)
    ensures Under(to, d) && Rewrite(to, from, d) in vfs && vfs[Rewrite(to, from, d)].isDir
  {
    if d == to && from in vfs && vfs[from].isDir {
      assert Rewrite(to, from, d) == from;
    } else {
      var p :| p in vfs && vfs[p].isDir && from + "/" <= p && d == Rewrite(from, to, p);
      assert Rewrite(to, from, d) == p;
    }
  }

  /** A failed one ends with one delete at the destination, unless a directory could not be made. */
  lemma FailureCleansUp(w: World, from: Path, to: Path, sourceUp: bool, target: Option<string>,
                        dirs: seq<Path>, items: seq<Item>, env: Env)
    requires var v := Relocate(w, from, to, sourceUp, target, dirs, items, env); !v.1
    requires Attempted(w.vfs, from, sourceUp, target) && MakeDirs(w, dirs, env).1
    ensures var log := Relocate(w, from, to, sourceUp, target, dirs, items, env).0.log;
            log != [] && log[|log| - 1].op == DeleteDest(to)
  {
  }

  // ---------- Nothing happens too early ----------

  /** No command of the phase touches the source, and every one saw it as it was. */
  predicate QuietSince(n: nat, w: World, source: Store) {
    && n <= |w.log| && w.source == source
    && forall i :: n <= i < |w.log| ==> !w.log[i].op.DeleteSource? && w.log[i].source == source
  }

  lemma {:induction false} MakeDirsQuiet(n: nat, w: World, dirs: seq<Path>, env: Env)
    requires QuietSince(n, w, w.source)
    ensures var v := MakeDirs(w, dirs, env).0;
            QuietSince(n, v, w.source) && v.vfs == w.vfs && v.dest == w.dest
    decreases |dirs|
  {
    if dirs != [] {
      var v := MakeOne(w, dirs[0], env);
      assert QuietSince(n, v, w.source);
      if env.mkdirOk(dirs[0]) {
        MakeDirsQuiet(n, v, dirs[1..], env);
      }
    }
  }

  lemma CopyOneQuiet(n: nat, w: World, item: Item, env: Env)
    requires QuietSince(n, w, w.source)
    ensures var v := CopyOne(w, item, env); var run := env.copy(item.from);
            && QuietSince(n, v, w.source) && v.vfs == w.vfs
            && v.dest == (if run.arrived.Some? then w.dest[item.to := run.arrived.value] else w.dest)
  {
    var run := env.copy(item.from);
    var v := Issue(w, Copy(item.from, item.to));
    assert QuietSince(n, v, w.source);
    AbortsQuiet(n, if run.arrived.Some? then v.(dest := v.dest[item.to := run.arrived.value]) else v, run.stage, item);
    hide QuietSince, AbortEnds;
  }

  lemma AbortsQuiet(n: nat, w: World, stage: Stage, item: Item)
    requires QuietSince(n, w, w.source)
    ensures var v := AbortEnds(w, stage, item);
            QuietSince(n, v, w.source) && v.vfs == w.vfs && v.dest == w.dest
  {
    hide AbortsSource, AbortsDest;
  }

  lemma {:induction false} CopyAllQuiet(n: nat, w: World, items: seq<Item>, env: Env)
    requires QuietSince(n, w, w.source)
    ensures var v := CopyAll(w, items, env).0;
            QuietSince(n, v, w.source) && v.vfs == w.vfs
    decreases |items|
  {
    if items != [] {
      var v := CopyOne(w, items[0], env);
      CopyOneQuiet(n, w, items[0], env);
      if Passes(items[0], env.copy(items[0].from)) {
        CopyAllQuiet(n, v, items[1..], env);
      }
    }
  }

  predicate Arrived(dest: Store, item: Item, env: Env) {
    var run := env.copy(item.from);
    run.arrived.Some? ==> item.to in dest && dest[item.to] == run.arrived.value
  }

  predicate DistinctTargets(items: seq<Item>) {
    forall i, j :: 0 <= i < j < |items| ==> items[i].to != items[j].to
  }

  /** When the copy phase succeeds, every item passed and what arrived for it is still there. */
  lemma {:induction false} CopiesArrive(w: World, items: seq<Item>, env: Env)
    requires DistinctTargets(items) && CopyAll(w, items, env).1
    ensures forall i :: 0 <= i < |items| ==>
              Passes(items[i], env.copy(items[i].from)) && Arrived(CopyAll(w, items, env).0.dest, items[i], env)
    ensures forall p :: p in w.dest && (forall i :: 0 <= i < |items| ==> items[i].to != p)
              ==> p in CopyAll(w, items, env).0.dest && CopyAll(w, items, env).0.dest[p] == w.dest[p]
    decreases |items|
  {
    if items != [] {
      var v := CopyOne(w, items[0], env);
      var rest := items[1..];
      CopyOneQuiet(|w.log|, w, items[0], env);
      CopiesArrive(v, rest, env);
      assert Arrived(v.dest, items[0], env);
      assert forall i :: 0 <= i < |rest| ==> rest[i] == items[i + 1];
      assert Arrived(CopyAll(v, rest, env).0.dest, items[0], env);
    }
  }

  lemma ListedTargetsDiffer(vfs: Vfs, from: Path, to: Path, items: seq<Item>)
    requires Lists(vfs, from, to, items)
    ensures DistinctTargets(items)
  {
  }

  lemma {:induction false} MkdirsSucceed(w: World, dirs: seq<Path>, env: Env)
    ensures MakeDirs(w, dirs, env).1 <==> forall i :: 0 <= i < |dirs| ==> env.mkdirOk(dirs[i])
    decreases |dirs|
  {
    if dirs != [] && env.mkdirOk(dirs[0]) {
      MkdirsSucceed(MakeOne(w, dirs[0], env), dirs[1..], env);
      assert forall i :: 1 <= i < |dirs| ==> dirs[i] == dirs[1..][i - 1];
    }
  }

  lemma {:induction false} CopiesSucceed(w: World, items: seq<Item>, env: Env)
    ensures CopyAll(w, items, env).1 <==> forall i :: 0 <= i < |items| ==> Passes(items[i], env.copy(items[i].from))
    decreases |items|
  {
    if items != [] && Passes(items[0], env.copy(items[0].from)) {
      CopiesSucceed(CopyOne(w, items[0], env), items[1..], env);
      assert forall i :: 1 <= i < |items| ==> items[i] == items[1..][i - 1];
    }
  }

  /** Every directory was made and every copy passed its checks. */
  predicate AllPass(dirs: seq<Path>, items: seq<Item>, env: Env) {
    && (forall i :: 0 <= i < |dirs| ==> env.mkdirOk(dirs[i]))
    && forall i :: 0 <= i < |items| ==> Passes(items[i], env.copy(items[i].from))
  }

  /** The world when the source delete is about to be issued, or the copy phase gave up. */
  function Copied(w: World, dirs: seq<Path>, items: seq<Item>, env: Env): World {
    CopyAll(MakeDirs(w, dirs, env).0, items, env).0
  }

  /** The run once everything passed: exactly one source delete, after the copies. */
  lemma RunWhenAllPass(w: World, from: Path, to: Path, dirs: seq<Path>, items: seq<Item>, env: Env)
    requires AllPass(dirs, items, env)
    ensures var c := Copied(w, dirs, items, env);
            var v := Across(w, from, to, dirs, items, env);
            && QuietSince(|w.log|, c, w.source) && c.vfs == w.vfs
            && v.0.vfs == w.vfs && v.1 == env.sourceDelete.ok
            && v.0.source == Delete(w.source, from, env.sourceDelete)
            && v.0.dest == (if v.1 then c.dest else Delete(c.dest, to, env.cleanup))
            && |v.0.log| > |c.log| && v.0.log[..|c.log| + 1] == c.log + [Event(DeleteSource(from), w.source, c.dest)]
            && forall i :: |c.log| < i < |v.0.log| ==> v.0.log[i].op.DeleteDest?
  {
    MkdirsSucceed(w, dirs, env);
    var m := MakeDirs(w, dirs, env).0;
    CopiesSucceed(m, items, env);
    MakeDirsQuiet(|w.log|, w, dirs, env);
    CopyAllQuiet(|w.log|, m, items, env);
  }

  /** The run when something did not pass: the source is never touched. */
  lemma RunWhenSomeFail(w: World, from: Path, to: Path, dirs: seq<Path>, items: seq<Item>, env: Env)
    requires !AllPass(dirs, items, env)
    ensures var v := Across(w, from, to, dirs, items, env);
            && !v.1 && v.0.vfs == w.vfs && v.0.source == w.source
            && (forall i :: |w.log| <= i < |v.0.log| ==> !v.0.log[i].op.DeleteSource? && v.0.log[i].source == w.source)
            && (v.0.dest == w.dest || v.0.dest == Delete(Copied(w, dirs, items, env).dest, to, env.cleanup))
  {
    MkdirsSucceed(w, dirs, env);
    var m := MakeDirs(w, dirs, env).0;
    CopiesSucceed(m, items, env);
    MakeDirsQuiet(|w.log|, w, dirs, env);
    CopyAllQuiet(|w.log|, m, items, env);
  }

  /** The receiver's status tells the truth about what arrived. */
  predicate HonestSizes(items: seq<Item>, env: Env) {
    forall i :: 0 <= i < |items| ==>
      var run := env.copy(items[i].from);
      Ok(run) ==> run.arrived.Some? && |run.arrived.value| == FinalSize(run)
  }

  /** When the source delete goes out the source is still as it was, and each recorded file has
      been copied, with its recorded size if that size is known. */
  lemma DeleteComesLast(w: World, from: Path, to: Path, sourceUp: bool, target: Option<string>,
                        dirs: seq<Path>, items: seq<Item>, env: Env, k: nat, p: Path)
    requires Lists(w.vfs, from, to, items)
    requires var v := Relocate(w, from, to, sourceUp, target, dirs, items, env).0;
             |w.log| <= k < |v.log| && v.log[k].op.DeleteSource?
    requires Selected(w.vfs, from, p)
    ensures var e := Relocate(w, from, to, sourceUp, target, dirs, items, env).0.log[k];
            var t := Rewrite(from, to, p);
            && e.op.path == from && e.source == w.source
            && Ok(env.copy(p)) && (env.copy(p).arrived.Some? ==> t in e.dest && e.dest[t] == env.copy(p).arrived.value)
            && (HonestSizes(items, env) && w.vfs[p].size > 0 ==> t in e.dest && |e.dest[t]| == w.vfs[p].size)
  {
    var m := MakeDirs(w, dirs, env).0;
    var c := Copied(w, dirs, items, env);
    if AllPass(dirs, items, env) {
      RunWhenAllPass(w, from, to, dirs, items, env);
      ListedTargetsDiffer(w.vfs, from, to, items);
      CopiesSucceed(m, items, env);
      CopiesArrive(m, items, env);
      var i :| 0 <= i < |items| && items[i].from == p;
      assert ItemOk(w.vfs, from, to, items[i]) && Arrived(c.dest, items[i], env);
      var v := Across(w, from, to, dirs, items, env).0;
      hide Across, CopyAll, MakeDirs, Copied, QuietSince, Lists, AllPass;
      DeleteIsAt(|w.log|, c, v.log, Event(DeleteSource(from), w.source, c.dest), k, w.source);
    } else {
      RunWhenSomeFail(w, from, to, dirs, items, env);
    }
  }

  lemma DeleteIsAt(n: nat, c: World, log: seq<Event>, e: Event, k: nat, source: Store)
    requires QuietSince(n, c, source) && |log| > |c.log| && log[..|c.log| + 1] == c.log + [e]
    requires forall i :: |c.log| < i < |log| ==> log[i].op.DeleteDest?
    requires n <= k < |log| && log[k].op.DeleteSource?
    ensures log[k] == e
  {
    assert forall i :: 0 <= i < |c.log| ==> log[i] == log[..|c.log| + 1][i] == c.log[i];
    assert log[|c.log|] == log[..|c.log| + 1][|c.log|] == e;
  }

  /** An error of any kind leaves the virtual file system as it was; success moves the entries. */
  lemma OnlySuccessMovesEntries(w: World, from: Path, to: Path, sourceUp: bool, target: Option<string>,
                                dirs: seq<Path>, items: seq<Item>, env: Env)
    ensures var v := Relocate(w, from, to, sourceUp, target, dirs, items, env);
            && (!v.1 ==> v.0.vfs == w.vfs)
            && (v.1 ==> v.0.vfs == MoveEntries(w.vfs, from, to, target.value))
            && (v.1 <==> Attempted(w.vfs, from, sourceUp, target) && AllPass(dirs, items, env) && env.sourceDelete.ok)
  {
    if AllPass(dirs, items, env) {
      RunWhenAllPass(w, from, to, dirs, items, env);
    } else {
      RunWhenSomeFail(w, from, to, dirs, items, env);
    }
  }

  /** All a slave is trusted with: a copy reported successful wrote the beginning of the
      source file, and the reported size is that of what was written. */
  predicate Trusted(source: Store, items: seq<Item>, env: Env) {
    forall i :: 0 <= i < |items| && Ok(env.copy(items[i].from)) ==>
      var run := env.copy(items[i].from);
      && items[i].from in source && run.arrived.Some?
      && run.arrived.value <= source[items[i].from] && |run.arrived.value| == FinalSize(run)
  }

  /** A recorded size that is known is the size of the file. */
  predicate TrueSize(w: World, p: Path) {
    p in w.vfs && p in w.source && (w.vfs[p].size > 0 ==> |w.source[p]| == w.vfs[p].size)
  }

  predicate Intact(before: Store, p: Path, after: Store, q: Path) {
    p in before && q in after && after[q] == before[p]
  }

  /** A copy the size test lets through although it is short: the size was not recorded. */
  predicate ShortCopy(w: World, env: Env, p: Path)
    requires TrueSize(w, p)
  {
    w.vfs[p].size <= 0 && FinalSize(env.copy(p)) < |w.source[p]|
  }

  /** When every copy passed, the copy that stands at the destination is the whole file unless
      it is a short copy of a file without a recorded size. */
  lemma CopyIsWhole(w: World, from: Path, to: Path, dirs: seq<Path>, items: seq<Item>, env: Env, p: Path)
    requires Lists(w.vfs, from, to, items) && AllPass(dirs, items, env)
    requires Trusted(w.source, items, env) && Selected(w.vfs, from, p) && TrueSize(w, p)
    ensures var d := Copied(w, dirs, items, env).dest; var t := Rewrite(from, to, p);
            t in d && (d[t] == w.source[p] <==> !ShortCopy(w, env, p))
  {
    var i :| 0 <= i < |items| && items[i].from == p;
    assert ItemOk(w.vfs, from, to, items[i]) && Passes(items[i], env.copy(p));
    ListedTargetsDiffer(w.vfs, from, to, items);
    var m := MakeDirs(w, dirs, env).0;
    CopiesSucceed(m, items, env);
    CopiesArrive(m, items, env);
    assert Arrived(Copied(w, dirs, items, env).dest, items[i], env);
  }

  /** A recorded file is lost exactly when everything passed, the source delete took it, and
      its copy is not whole or is not there: because the size was not recorded and the copy is
      short, or because the delete reported failure all the same and the cleanup that follows
      took the copy. */
  lemma LostExactlyWhen(w: World, from: Path, to: Path, sourceUp: bool, target: Option<string>,
                        dirs: seq<Path>, items: seq<Item>, env: Env, p: Path)
    requires Lists(w.vfs, from, to, items) && Attempted(w.vfs, from, sourceUp, target)
    requires Trusted(w.source, items, env) && Selected(w.vfs, from, p) && TrueSize(w, p)
    ensures var v := Relocate(w, from, to, sourceUp, target, dirs, items, env).0;
            var t := Rewrite(from, to, p);
            !Intact(w.source, p, v.source, p) && !Intact(w.source, p, v.dest, t)
            <==> && AllPass(dirs, items, env) && (env.sourceDelete.ok || p in env.sourceDelete.removed)
                 && (ShortCopy(w, env, p)
                     || (!env.sourceDelete.ok && (env.cleanup.ok || t in env.cleanup.removed)))
  {
    if AllPass(dirs, items, env) {
      RunWhenAllPass(w, from, to, dirs, items, env);
      CopyIsWhole(w, from, to, dirs, items, env, p);
    } else {
      RunWhenSomeFail(w, from, to, dirs, items, env);
    }
    hide Across, Copied, AllPass, ShortCopy, Trusted, Lists;
  }

  /** After success the source is empty below the path, and the destination holds a file whole
      exactly when its copy is not a short one of a file without a recorded size. */
  lemma SuccessMovesFiles(w: World, from: Path, to: Path, sourceUp: bool, target: Option<string>,
                          dirs: seq<Path>, items: seq<Item>, env: Env, p: Path)
    requires Lists(w.vfs, from, to, items) && Trusted(w.source, items, env)
    requires Selected(w.vfs, from, p) && TrueSize(w, p)
    requires Relocate(w, from, to, sourceUp, target, dirs, items, env).1
    ensures var v := Relocate(w, from, to, sourceUp, target, dirs, items, env).0;
            && (forall q | q in v.source :: !Under(from, q))
            && (Intact(w.source, p, v.dest, Rewrite(from, to, p)) <==> !ShortCopy(w, env, p))
  {
    OnlySuccessMovesEntries(w, from, to, sourceUp, target, dirs, items, env);
    RunWhenAllPass(w, from, to, dirs, items, env);
    CopyIsWhole(w, from, to, dirs, items, env, p);
    hide Across, Copied, AllPass, ShortCopy, Trusted, Lists;
  }

  /** A relocation that fails before its source delete leaves the source alone, and on an
      effective cleanup leaves nothing of its own below the destination path. */
  lemma FailedCopyRollsBack(w: World, from: Path, to: Path, sourceUp: bool, target: Option<string>,
                            dirs: seq<Path>, items: seq<Item>, env: Env)
    requires Lists(w.vfs, from, to, items) && !AllPass(dirs, items, env) && env.cleanup.ok
    requires forall p | p in w.dest :: !Under(to, p)
    ensures var v := Relocate(w, from, to, sourceUp, target, dirs, items, env);
            !v.1 && v.0.source == w.source && v.0.dest == w.dest
  {
    RunWhenSomeFail(w, from, to, dirs, items, env);
    var m := MakeDirs(w, dirs, env).0;
    MakeDirsQuiet(|w.log|, w, dirs, env);
    forall i | 0 <= i < |items| ensures Under(to, items[i].to) {
      assert ItemOk(w.vfs, from, to, items[i]);
    }
    CopiesStayUnder(m, to, items, env);
    assert Delete(Copied(w, dirs, items, env).dest, to, env.cleanup) == w.dest;
  }

  lemma {:induction false} CopiesStayUnder(w: World, to: Path, items: seq<Item>, env: Env)
    requires forall i :: 0 <= i < |items| ==> Under(to, items[i].to)
    ensures var d := CopyAll(w, items, env).0.dest;
            forall p :: !Under(to, p) ==> (p in d <==> p in w.dest) && (p in d ==> d[p] == w.dest[p])
    decreases |items|
  {
    if items != [] {
      CopyOneQuiet(|w.log|, w, items[0], env);
      if Passes(items[0], env.copy(items[0].from)) {
        CopiesStayUnder(CopyOne(w, items[0], env), to, items[1..], env);
      }
    }
  }

  // ---------- The entries ----------

  predicate Vacant(vfs: Vfs, from: Path, to: Path) {
    !Under(from, to) && forall q | q in vfs :: !Under(to, q)
  }

  /** Nothing moved lands below the old place. */
  lemma MovedAway(vfs: Vfs, from: Path, to: Path, p: Path)
    requires Vacant(vfs, from, to) && p in MovedPaths(vfs, from, to)
    ensures !Under(from, p)
  {
  }

  /** Every entry keeps its place relative to the moved path, the rest stays, nothing else appears. */
  lemma MoveIsRename(vfs: Vfs, from: Path, to: Path, slave: string, p: Path)
    requires Vacant(vfs, from, to)
    ensures var moved := MoveEntries(vfs, from, to, slave);
            && (Under(from, p) ==>
                  (&& p !in moved
                   && (p in vfs <==> Rewrite(from, to, p) in moved)
                   && (p in vfs ==> moved[Rewrite(from, to, p)] == vfs[p].(slave := slave))))
            && (!Under(from, p) && !Under(to, p) ==> (p in vfs <==> p in moved) && (p in vfs ==> moved[p] == vfs[p]))
  {
    if Under(from, p) {
      var r := Rewrite(from, to, p);
      assert Rewrite(to, from, r) == p;
      if p in MovedPaths(vfs, from, to) {
        MovedAway(vfs, from, to, p);
      }
      if r in MovedPaths(vfs, from, to) {
        var q :| q in vfs && Under(from, q) && r == Rewrite(from, to, q);
        assert q == from + r[|to|..] == p;
      }
    }
  }

  /** Moving there and back restores the whole virtual file system. */
  lemma MoveBack(vfs: Vfs, from: Path, to: Path, here: string, there: string)
    requires Vacant(vfs, from, to)
    requires forall q | q in vfs && Under(from, q) :: vfs[q].slave == here
    ensures MoveEntries(MoveEntries(vfs, from, to, there), to, from, here) == vfs
  {
    var out := MoveEntries(vfs, from, to, there);
    var back := MoveEntries(out, to, from, here);
    forall p ensures p in back <==> p in vfs
             ensures p in vfs && p in back ==> back[p] == vfs[p]
    {
      BackAt(vfs, from, to, here, there, p);
    }
  }

  lemma BackAt(vfs: Vfs, from: Path, to: Path, here: string, there: string, p: Path)
    requires Vacant(vfs, from, to)
    requires forall q | q in vfs && Under(from, q) :: vfs[q].slave == here
    ensures var back := MoveEntries(MoveEntries(vfs, from, to, there), to, from, here);
            (p in back <==> p in vfs) && (p in vfs && p in back ==> back[p] == vfs[p])
  {
    var out := MoveEntries(vfs, from, to, there);
    var back := MoveEntries(out, to, from, here);
    MoveIsRename(vfs, from, to, there, p);
    if Under(from, p) {
      var r := Rewrite(from, to, p);
      assert Rewrite(to, from, r) == p;
      if r in out {
        assert p in MovedPaths(out, to, from);
      }
      if p in MovedPaths(out, to, from) {
        var q :| q in out && Under(to, q) && p == Rewrite(to, from, q);
        assert q == r;
      }
    }
  }

  /** One file at "/a" whose recorded size is given, relocated to "/b". */
  function OneFile(size: int): World {
    World(map["/a" := [7]], map[], {}, map["/a" := Entry(false, size, "", "", "A")], [])
  }

  function OneCopy(arrived: Content, deleted: DeleteRun): Env {
    Env((p: Path) => true, (p: Path) => CopyRun(Finished, Some(arrived), |arrived|, |arrived|), deleted, DeleteRun(true, {}))
  }

  lemma OneFileRun(size: int, arrived: Content, deleted: DeleteRun)
    requires size > 0 ==> |arrived| == size
    ensures var w := OneFile(size); var env := OneCopy(arrived, deleted); var items := [Item("/a", "/b", size)];
            && Lists(w.vfs, "/a", "/b", items) && Selected(w.vfs, "/a", "/a") && AllPass([], items, env)
            && Attempted(w.vfs, "/a", true, Some("B")) && Rewrite("/a", "/b", "/a") == "/b"
  {
    var w := OneFile(size);
    var items := [Item("/a", "/b", size)];
    assert Rewrite("/a", "/b", "/a") == "/b";
    assert items[0].from == "/a" && ItemOk(w.vfs, "/a", "/b", items[0]);
  }

  /** A delete that takes effect but reports failure loses a faithfully copied file. */
  lemma TimeoutLosesFile()
    ensures var w := OneFile(1); var env := OneCopy([7], DeleteRun(false, {"/a"}));
            var items := [Item("/a", "/b", 1)];
            var v := Relocate(w, "/a", "/b", true, Some("B"), [], items, env);
            && Lists(w.vfs, "/a", "/b", items) && Trusted(w.source, items, env) && TrueSize(w, "/a")
            && !v.1 && !Intact(w.source, "/a", v.0.source, "/a") && !Intact(w.source, "/a", v.0.dest, "/b")
  {
    var items := [Item("/a", "/b", 1)];
    OneFileRun(1, [7], DeleteRun(false, {"/a"}));
    hide Relocate, Lists, AllPass;
    OnlySuccessMovesEntries(OneFile(1), "/a", "/b", true, Some("B"), [], items, OneCopy([7], DeleteRun(false, {"/a"})));
    LostExactlyWhen(OneFile(1), "/a", "/b", true, Some("B"), [], items, OneCopy([7], DeleteRun(false, {"/a"})), "/a");
  }

  /** A relocation that succeeds in every step loses a file recorded with size 0. */
  lemma UnknownSizeLosesFile()
    ensures var w := OneFile(0); var env := OneCopy([], DeleteRun(true, {}));
            var items := [Item("/a", "/b", 0)];
            var v := Relocate(w, "/a", "/b", true, Some("B"), [], items, env);
            && Lists(w.vfs, "/a", "/b", items) && Trusted(w.source, items, env) && TrueSize(w, "/a")
            && v.1 && !Intact(w.source, "/a", v.0.source, "/a") && !Intact(w.source, "/a", v.0.dest, "/b")
  {
    var items := [Item("/a", "/b", 0)];
    OneFileRun(0, [], DeleteRun(true, {}));
    hide Relocate, Lists, AllPass;
    OnlySuccessMovesEntries(OneFile(0), "/a", "/b", true, Some("B"), [], items, OneCopy([], DeleteRun(true, {})));
    LostExactlyWhen(OneFile(0), "/a", "/b", true, Some("B"), [], items, OneCopy([], DeleteRun(true, {})), "/a");
  }
}
