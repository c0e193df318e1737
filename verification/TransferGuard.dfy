/** STOR and RETR sessions and the threads that abort them, interleaved step by step.

    A session reserves its path, publishes its transfer fields, counts the transfer in,
    moves data, clears the fields (early on success of an upload, and again in the deferred
    call), counts it out, and releases the path last. An aborting thread clears the fields
    of any session at any moment and counts the transfer out if it found one. */
module TransferGuard {
  import opened Options
  import opened Folds
  import opened PathReservations

  datatype Direction = Upload | Download

  /** The published TransferDirection and TransferPath. */
  datatype Fields = Clear | Transferring(dir: Direction, path: Path)

  datatype Phase =
    | Idle
    | Reserved(dir: Direction, path: Path)
    | Marked(dir: Direction, path: Path)                                // fields set, gauge not yet raised
    | Moving(dir: Direction, path: Path)
    | EndingEarly(dir: Direction, path: Path, due: Option<Direction>)   // explicit endTransfer cleared the fields
    | Processing(dir: Direction, path: Path)                            // upload done, post-processing
    | EndingLate(dir: Direction, path: Path, due: Option<Direction>)    // deferred endTransfer cleared the fields
    | Ended(dir: Direction, path: Path)

  /** The active gauge of one direction, and the TransferBegin and TransferEnd calls. */
  datatype Meter = Meter(gauge: int, begun: nat, ended: nat)

  datatype Session = Session(phase: Phase, fields: Fields)

  datatype State = State(
    registry: Registry,
    sessions: seq<Session>,
    aborters: seq<Option<Direction>>,   // what an aborting thread still has to count out
    up: Meter,
    down: Meter)

  datatype Step =
    | Reserve(i: nat, dir: Direction, path: Path)
    | GiveUp(i: nat)
    | Mark(i: nat)
    | CountBegin(i: nat)
    | ClearEarly(i: nat)
    | CountEarly(i: nat)
    | ClearLate(i: nat)
    | CountLate(i: nat)
    | Release(i: nat)
    | AbortClear(a: nat, i: nat)
    | AbortCount(a: nat)

  function Initial(sessions: nat, aborters: nat): State {
    State(Registry({}, map[]), seq(sessions, _ => Session(Idle, Clear)), seq(aborters, _ => None),
          Meter(0, 0, 0), Meter(0, 0, 0))
  }

  predicate Enabled(s: State, step: Step) {
    match step
    case Reserve(i, _, _) => i < |s.sessions| && s.sessions[i].phase.Idle?
    case GiveUp(i) => i < |s.sessions| && s.sessions[i].phase.Reserved?
    case Mark(i) => i < |s.sessions| && s.sessions[i].phase.Reserved?
    case CountBegin(i) => i < |s.sessions| && s.sessions[i].phase.Marked?
    case ClearEarly(i) => i < |s.sessions| && s.sessions[i].phase.Moving? && s.sessions[i].phase.dir.Upload?
    case CountEarly(i) => i < |s.sessions| && s.sessions[i].phase.EndingEarly?
    case ClearLate(i) => i < |s.sessions| && (s.sessions[i].phase.Moving? || s.sessions[i].phase.Processing?)
    case CountLate(i) => i < |s.sessions| && s.sessions[i].phase.EndingLate?
    case Release(i) => i < |s.sessions| && s.sessions[i].phase.Ended?
    case AbortClear(a, i) => i < |s.sessions| && a < |s.aborters| && s.aborters[a].None?
    case AbortCount(a) => a < |s.aborters| && s.aborters[a].Some?
  }

  function WithSession(s: State, i: nat, phase: Phase, fields: Fields): State
    requires i < |s.sessions|
  {
    s.(sessions := s.sessions[i := Session(phase, fields)])
  }

  /** The first endTransfer to find the fields set is the one that counts. */
  function Due(f: Fields): Option<Direction> {
    if f.Clear? then None else Some(f.dir)
  }

  function MeterOf(s: State, dir: Direction): Meter {
    if dir.Upload? then s.up else s.down
  }

  function WithMeter(s: State, dir: Direction, m: Meter): State {
    if dir.Upload? then s.(up := m) else s.(down := m)
  }

  function CountIn(s: State, dir: Direction): State {
    var m := MeterOf(s, dir);
    WithMeter(s, dir, m.(gauge := m.gauge + 1, begun := m.begun + 1))
  }

  function CountOut(s: State, due: Option<Direction>): State {
    if due.None? then s
    else
      var m := MeterOf(s, due.value);
      WithMeter(s, due.value, m.(gauge := m.gauge - 1, ended := m.ended + 1))
  }

  function ApplyReserve(s: State, i: nat, dir: Direction, path: Path): State
    requires i < |s.sessions|
  {
    if dir.Upload? then
      if UploadAllowed(s.registry, path)
      then WithSession(s, i, Reserved(dir, path), s.sessions[i].fields).(registry := ReserveUpload(s.registry, path))
      else s
    else
      if DownloadAllowed(s.registry, path)
      then WithSession(s, i, Reserved(dir, path), s.sessions[i].fields).(registry := ReserveDownload(s.registry, path))
      else s
  }

  function ApplyRelease(s: State, i: nat): State
    requires i < |s.sessions| && s.sessions[i].phase.Ended?
  {
    var x := s.sessions[i];
    WithSession(s, i, Idle, x.fields)
    .(registry := if x.phase.dir.Upload? then ReleaseUpload(s.registry, x.phase.path) else ReleaseDownload(s.registry, x.phase.path))
  }

  function Apply(s: State, step: Step): State
    requires Enabled(s, step)
  {
    match step
    case Reserve(i, dir, path) => ApplyReserve(s, i, dir, path)
    case GiveUp(i) => var x := s.sessions[i]; WithSession(s, i, Ended(x.phase.dir, x.phase.path), x.fields)
    case Mark(i) =>
      var x := s.sessions[i];
      WithSession(s, i, Marked(x.phase.dir, x.phase.path), Transferring(x.phase.dir, x.phase.path))
    case CountBegin(i) =>
      var x := s.sessions[i];
      CountIn(WithSession(s, i, Moving(x.phase.dir, x.phase.path), x.fields), x.phase.dir)
    case ClearEarly(i) =>
      var x := s.sessions[i];
      WithSession(s, i, EndingEarly(x.phase.dir, x.phase.path, Due(x.fields)), Clear)
    case CountEarly(i) =>
      var x := s.sessions[i];
      CountOut(WithSession(s, i, Processing(x.phase.dir, x.phase.path), x.fields), x.phase.due)
    case ClearLate(i) =>
      var x := s.sessions[i];
      WithSession(s, i, EndingLate(x.phase.dir, x.phase.path, Due(x.fields)), Clear)
    case CountLate(i) =>
      var x := s.sessions[i];
      CountOut(WithSession(s, i, Ended(x.phase.dir, x.phase.path), x.fields), x.phase.due)
    case Release(i) => ApplyRelease(s, i)
    case AbortClear(a, i) =>
      var x := s.sessions[i];
      WithSession(s, i, x.phase, Clear).(aborters := s.aborters[a := Due(x.fields)])
    case AbortCount(a) => CountOut(s, s.aborters[a]).(aborters := s.aborters[a := None])
  }

  predicate Legal(s: State, steps: seq<Step>)
    decreases |steps|
  {
    steps == [] || (Enabled(s, steps[0]) && Legal(Apply(s, steps[0]), steps[1..]))
  }

  function Run(s: State, steps: seq<Step>): State
    requires Legal(s, steps)
    decreases |steps|
  {
    if steps == [] then s else Run(Apply(s, steps[0]), steps[1..])
  }

  // ---------- Invariant ----------

  function Flag(b: bool): nat {
    if b then 1 else 0
  }

  function Holds(dir: Direction, p: Path): Session -> nat {
    (x: Session) => Flag(!x.phase.Idle? && x.phase.dir == dir && x.phase.path == p)
  }

  function Publishes(dir: Direction): Session -> nat {
    (x: Session) => Flag(x.fields.Transferring? && x.fields.dir == dir)
  }

  /** Published, but not yet counted in. */
  function Uncounted(dir: Direction): Session -> nat {
    (x: Session) => Flag(x.phase.Marked? && x.phase.dir == dir)
  }

  function SessionDue(p: Phase): Option<Direction> {
    if p.EndingEarly? || p.EndingLate? then p.due else None
  }

  /** Cleared, but not yet counted out. */
  function Owes(dir: Direction): Session -> nat {
    (x: Session) => Flag(SessionDue(x.phase) == Some(dir))
  }

  function AborterOwes(dir: Direction): Option<Direction> -> nat {
    (d: Option<Direction>) => Flag(d == Some(dir))
  }

  function Holders(s: State, dir: Direction, p: Path): nat {
    Sum(s.sessions, Holds(dir, p))
  }

  predicate PathOk(s: State, p: Path) {
    && Holders(s, Upload, p) == Flag(p in s.registry.uploads)
    && Holders(s, Download, p) == Downloads(s.registry, p)
    && (p in s.registry.downloads ==> s.registry.downloads[p] > 0 && p !in s.registry.uploads)
    && (Refused(p) ==> p !in s.registry.uploads && p !in s.registry.downloads)
  }

  /** What is published is what the session holds and is transferring. */
  predicate SessionOk(x: Session) {
    x.fields.Transferring? ==> (x.phase.Marked? || x.phase.Moving?) && x.fields == Transferring(x.phase.dir, x.phase.path)
  }

  predicate GaugeOk(s: State, dir: Direction) {
    && MeterOf(s, dir).gauge + Sum(s.sessions, Uncounted(dir))
       == Sum(s.sessions, Publishes(dir)) + Sum(s.sessions, Owes(dir)) + Sum(s.aborters, AborterOwes(dir))
    && MeterOf(s, dir).gauge + MeterOf(s, dir).ended == MeterOf(s, dir).begun
  }

  ghost predicate Inv(s: State) {
    && (forall p: Path :: PathOk(s, p))
    && (forall i: nat :: i < |s.sessions| ==> SessionOk(s.sessions[i]))
    && GaugeOk(s, Upload) && GaugeOk(s, Download)
  }

  lemma InitialInv(n: nat, m: nat)
    ensures Inv(Initial(n, m))
  {
    var s := Initial(n, m);
    forall p: Path ensures PathOk(s, p) {
      SumZero(s.sessions, Holds(Upload, p));
      SumZero(s.sessions, Holds(Download, p));
    }
    forall dir: Direction ensures GaugeOk(s, dir) {
      SumZero(s.sessions, Uncounted(dir));
      SumZero(s.sessions, Publishes(dir));
      SumZero(s.sessions, Owes(dir));
      SumZero(s.aborters, AborterOwes(dir));
      assert MeterOf(s, dir) == Meter(0, 0, 0);
    }
  }

  lemma ReservePath(s: State, i: nat, dir: Direction, path: Path, p: Path)
    requires Enabled(s, Reserve(i, dir, path)) && PathOk(s, p)
    ensures PathOk(ApplyReserve(s, i, dir, path), p)
  {
    hide Sum;
    var t := ApplyReserve(s, i, dir, path);
    SumUpdate(s.sessions, i, t.sessions[i], Holds(Upload, p));
    SumUpdate(s.sessions, i, t.sessions[i], Holds(Download, p));
    assert t != s ==> t.sessions == s.sessions[i := t.sessions[i]];
  }

  lemma ReleasePath(s: State, i: nat, p: Path)
    requires Enabled(s, Release(i)) && PathOk(s, p)
    ensures PathOk(ApplyRelease(s, i), p)
  {
    hide Sum;
    var t := ApplyRelease(s, i);
    SumUpdate(s.sessions, i, t.sessions[i], Holds(Upload, p));
    SumUpdate(s.sessions, i, t.sessions[i], Holds(Download, p));
    SumAtLeast(s.sessions, i, Holds(Upload, p));
    SumAtLeast(s.sessions, i, Holds(Download, p));
  }

  /** No other step changes who holds what. */
  lemma OtherPath(s: State, step: Step, p: Path)
    requires Enabled(s, step) && !step.Reserve? && !step.Release? && PathOk(s, p)
    ensures PathOk(Apply(s, step), p)
  {
    hide Sum;
    var t := Apply(s, step);
    if !step.AbortCount? {
      SumUpdate(s.sessions, step.i, t.sessions[step.i], Holds(Upload, p));
      SumUpdate(s.sessions, step.i, t.sessions[step.i], Holds(Download, p));
      assert t.sessions == s.sessions[step.i := t.sessions[step.i]];
    }
  }

  /** What one session contributes to the gauge equation. */
  lemma SessionsChange(s: seq<Session>, i: nat, y: Session, dir: Direction)
    requires i < |s|
    ensures Sum(s[i := y], Uncounted(dir)) + Uncounted(dir)(s[i]) == Sum(s, Uncounted(dir)) + Uncounted(dir)(y)
    ensures Sum(s[i := y], Publishes(dir)) + Publishes(dir)(s[i]) == Sum(s, Publishes(dir)) + Publishes(dir)(y)
    ensures Sum(s[i := y], Owes(dir)) + Owes(dir)(s[i]) == Sum(s, Owes(dir)) + Owes(dir)(y)
  {
    SumUpdate(s, i, y, Uncounted(dir));
    SumUpdate(s, i, y, Publishes(dir));
    SumUpdate(s, i, y, Owes(dir));
  }

  lemma UncountedGauge(s: State, step: Step, dir: Direction)
    requires Enabled(s, step) && (step.Reserve? || step.GiveUp? || step.Mark? || step.Release?)
    requires GaugeOk(s, dir) && SessionOk(s.sessions[step.i])
    ensures GaugeOk(Apply(s, step), dir)
  {
    hide Sum;
    var t := Apply(s, step);
    SessionsChange(s.sessions, step.i, t.sessions[step.i], dir);
    assert t != s ==> t.sessions == s.sessions[step.i := t.sessions[step.i]];
  }

  lemma CountBeginGauge(s: State, i: nat, dir: Direction)
    requires Enabled(s, CountBegin(i)) && GaugeOk(s, dir) && SessionOk(s.sessions[i])
    ensures GaugeOk(Apply(s, CountBegin(i)), dir)
  {
    hide Sum;
    var t := Apply(s, CountBegin(i));
    SessionsChange(s.sessions, i, t.sessions[i], dir);
    assert t.sessions == s.sessions[i := t.sessions[i]];
  }

  lemma ClearGauge(s: State, step: Step, dir: Direction)
    requires Enabled(s, step) && (step.ClearEarly? || step.ClearLate?)
    requires GaugeOk(s, dir) && SessionOk(s.sessions[step.i])
    ensures GaugeOk(Apply(s, step), dir)
  {
    hide Sum;
    var t := Apply(s, step);
    SessionsChange(s.sessions, step.i, t.sessions[step.i], dir);
    assert t.sessions == s.sessions[step.i := t.sessions[step.i]];
  }

  lemma CountEndGauge(s: State, step: Step, dir: Direction)
    requires Enabled(s, step) && (step.CountEarly? || step.CountLate?)
    requires GaugeOk(s, dir) && SessionOk(s.sessions[step.i])
    ensures GaugeOk(Apply(s, step), dir)
  {
    hide Sum;
    var t := Apply(s, step);
    SessionsChange(s.sessions, step.i, t.sessions[step.i], dir);
    assert t.sessions == s.sessions[step.i := t.sessions[step.i]];
  }

  lemma AbortGauge(s: State, step: Step, dir: Direction)
    requires Enabled(s, step) && (step.AbortClear? || step.AbortCount?) && GaugeOk(s, dir)
    ensures GaugeOk(Apply(s, step), dir)
  {
    hide Sum;
    var t := Apply(s, step);
    SumUpdate(s.aborters, step.a, t.aborters[step.a], AborterOwes(dir));
    if step.AbortClear? {
      SessionsChange(s.sessions, step.i, t.sessions[step.i], dir);
    }
  }

  lemma StepGauge(s: State, step: Step, dir: Direction)
    requires Enabled(s, step) && GaugeOk(s, dir)
    requires !step.AbortCount? ==> SessionOk(s.sessions[step.i])
    ensures GaugeOk(Apply(s, step), dir)
  {
    hide GaugeOk, Apply;
    match step
    case AbortClear(_, _) => AbortGauge(s, step, dir);
    case AbortCount(_) => AbortGauge(s, step, dir);
    case CountBegin(i) => CountBeginGauge(s, i, dir);
    case ClearEarly(_) => ClearGauge(s, step, dir);
    case ClearLate(_) => ClearGauge(s, step, dir);
    case CountEarly(_) => CountEndGauge(s, step, dir);
    case CountLate(_) => CountEndGauge(s, step, dir);
    case _ => UncountedGauge(s, step, dir);
  }

  lemma StepPath(s: State, step: Step, p: Path)
    requires Enabled(s, step) && PathOk(s, p)
    ensures PathOk(Apply(s, step), p)
  {
    hide PathOk;
    match step
    case Reserve(i, dir, path) => ReservePath(s, i, dir, path, p);
    case Release(i) => ReleasePath(s, i, p);
    case _ => OtherPath(s, step, p);
  }

  lemma SessionCount(s: State, step: Step)
    requires Enabled(s, step)
    ensures |Apply(s, step).sessions| == |s.sessions|
  {
  }

  lemma StepSessions(s: State, step: Step, j: nat)
    requires Enabled(s, step) && j < |s.sessions| && SessionOk(s.sessions[j])
    ensures |Apply(s, step).sessions| == |s.sessions| && SessionOk(Apply(s, step).sessions[j])
  {
  }

  lemma StepInv(s: State, step: Step)
    requires Inv(s) && Enabled(s, step)
    ensures Inv(Apply(s, step))
  {
    hide PathOk, SessionOk, GaugeOk, Apply;
    var t := Apply(s, step);
    forall p: Path ensures PathOk(t, p) {
      assert PathOk(s, p);
      StepPath(s, step, p);
    }
    StepGauge(s, step, Upload);
    StepGauge(s, step, Download);
    SessionCount(s, step);
    forall j: nat | j < |t.sessions| ensures SessionOk(t.sessions[j]) {
      StepSessions(s, step, j);
    }
  }

  lemma {:induction false} RunInv(s: State, steps: seq<Step>)
    requires Inv(s) && Legal(s, steps)
    ensures Inv(Run(s, steps))
    decreases |steps|
  {
    if steps != [] {
      StepInv(s, steps[0]);
      RunInv(Apply(s, steps[0]), steps[1..]);
    }
  }

  /** s is where some interleaving of n sessions and m aborting threads leads. */
  ghost predicate Reaches(n: nat, m: nat, steps: seq<Step>, s: State) {
    Legal(Initial(n, m), steps) && s == Run(Initial(n, m), steps)
  }

  lemma ReachedInv(n: nat, m: nat, steps: seq<Step>, s: State)
    requires Reaches(n, m, steps, s)
    ensures Inv(s)
  {
    InitialInv(n, m);
    RunInv(Initial(n, m), steps);
  }

  predicate Holding(x: Session, dir: Direction, p: Path) {
    !x.phase.Idle? && x.phase.dir == dir && x.phase.path == p
  }

  // ---------- What every interleaving guarantees ----------

  /** The maps say exactly who holds what: a path is upload-reserved when one session holds
      it, download-counted as often as sessions hold it, and never both. */
  lemma MapsCountHolders(n: nat, m: nat, steps: seq<Step>, s: State, p: Path)
    requires Reaches(n, m, steps, s)
    ensures p in s.registry.uploads <==> Holders(s, Upload, p) == 1
    ensures Holders(s, Upload, p) <= 1
    ensures Downloads(s.registry, p) == Holders(s, Download, p)
    ensures p in s.registry.downloads <==> Holders(s, Download, p) > 0
    ensures !(p in s.registry.uploads && p in s.registry.downloads)
  {
    ReachedInv(n, m, steps, s);
    assert PathOk(s, p);
  }

  /** An uploader of a path is alone on it. */
  lemma UploaderIsAlone(n: nat, m: nat, steps: seq<Step>, s: State, i: nat, j: nat, p: Path, dir: Direction)
    requires Reaches(n, m, steps, s) && i < |s.sessions| && j < |s.sessions| && i != j
    requires Holding(s.sessions[i], Upload, p)
    ensures !Holding(s.sessions[j], dir, p)
  {
    ReachedInv(n, m, steps, s);
    assert PathOk(s, p);
    SumAtLeast(s.sessions, i, Holds(Upload, p));
    if Holding(s.sessions[j], dir, p) {
      SumAtLeast(s.sessions, j, Holds(dir, p));
      if dir.Upload? {
        SumAtLeastTwo(s.sessions, if i < j then i else j, if i < j then j else i, Holds(Upload, p));
      }
    }
  }

  predicate NobodyHolds(s: State, dir: Direction, p: Path) {
    forall j: nat :: j < |s.sessions| ==> !Holding(s.sessions[j], dir, p)
  }

  lemma NobodyHoldsSum(s: State, dir: Direction, p: Path)
    ensures NobodyHolds(s, dir, p) <==> Holders(s, dir, p) == 0
  {
    if NobodyHolds(s, dir, p) {
      SumZero(s.sessions, Holds(dir, p));
    } else {
      var j: nat :| j < |s.sessions| && Holding(s.sessions[j], dir, p);
      SumAtLeast(s.sessions, j, Holds(dir, p));
    }
  }

  /** Who gets in: a reader unless somebody uploads the path, a writer only if nobody holds it at
      all, and never the root or the current directory. A refused session changes nothing. */
  lemma Admission(n: nat, m: nat, steps: seq<Step>, s: State, i: nat, dir: Direction, p: Path)
    requires Reaches(n, m, steps, s) && i < |s.sessions| && s.sessions[i].phase.Idle?
    ensures var t := Apply(s, Reserve(i, dir, p));
        && (t.sessions[i].phase == Reserved(dir, p)
            <==> p != "." && p != "/" && NobodyHolds(s, Upload, p) && (dir.Upload? ==> NobodyHolds(s, Download, p)))
        && (t.sessions[i].phase != Reserved(dir, p) ==> t == s)
  {
    ReachedInv(n, m, steps, s);
    assert PathOk(s, p);
    NobodyHoldsSum(s, Upload, p);
    NobodyHoldsSum(s, Download, p);
    hide NobodyHolds, Holders, Inv;
  }

  /** How many steps of its own a session is from being idle again. */
  function Left(phase: Phase): nat {
    match phase
    case Idle => 0
    case Ended(_, _) => 1
    case EndingLate(_, _, _) => 2
    case Processing(_, _) => 3
    case EndingEarly(_, _, _) => 4
    case Moving(_, _) => 5
    case Marked(_, _) => 6
    case Reserved(_, _) => 7
  }

  /** The step a session takes on its way out. */
  function OwnStep(s: State, i: nat): Step
    requires i < |s.sessions| && !s.sessions[i].phase.Idle?
  {
    match s.sessions[i].phase
    case Reserved(_, _) => GiveUp(i)
    case Marked(_, _) => CountBegin(i)
    case Moving(_, _) => ClearLate(i)
    case EndingEarly(_, _, _) => CountEarly(i)
    case Processing(_, _) => ClearLate(i)
    case EndingLate(_, _, _) => CountLate(i)
    case _ => Release(i)
  }

  lemma OwnStepGoesOn(s: State, i: nat)
    requires i < |s.sessions| && !s.sessions[i].phase.Idle?
    ensures Enabled(s, OwnStep(s, i))
    ensures var t := Apply(s, OwnStep(s, i));
        && |t.sessions| == |s.sessions| && Left(t.sessions[i].phase) < Left(s.sessions[i].phase)
        && (forall j: nat :: j < |s.sessions| && j != i ==> t.sessions[j] == s.sessions[j])
        && t.aborters == s.aborters
  {
  }

  lemma {:induction false} RunConcat(s: State, a: seq<Step>, b: seq<Step>)
    requires Legal(s, a) && Legal(Run(s, a), b)
    ensures Legal(s, a + b) && Run(s, a + b) == Run(Run(s, a), b)
    decreases |a|
  {
    if a == [] {
      assert a + b == b;
    } else {
      assert (a + b)[1..] == a[1..] + b;
      hide Apply, Enabled;
      RunConcat(Apply(s, a[0]), a[1..], b);
    }
  }

  /** Whatever state a session is in, its own steps take it back to idle, with its path released
      and its transfer counted out, and leave the other sessions alone. */
  lemma {:induction false} SessionFinishes(s: State, i: nat) returns (steps: seq<Step>)
    requires i < |s.sessions|
    ensures Legal(s, steps) && |steps| <= 7
    ensures var t := Run(s, steps);
        && |t.sessions| == |s.sessions| && t.sessions[i].phase.Idle? && t.aborters == s.aborters
        && forall j: nat :: j < |s.sessions| && j != i ==> t.sessions[j] == s.sessions[j]
    ensures |steps| <= Left(s.sessions[i].phase)
    decreases Left(s.sessions[i].phase)
  {
    if s.sessions[i].phase.Idle? {
      steps := [];
    } else {
      OwnStepGoesOn(s, i);
      var step := OwnStep(s, i);
      var rest := SessionFinishes(Apply(s, step), i);
      steps := [step] + rest;
      assert steps[1..] == rest;
      hide Apply, Enabled, OwnStep;
    }
  }

  lemma {:induction false} AllFinishFrom(s: State, k: nat) returns (steps: seq<Step>)
    requires k <= |s.sessions|
    ensures Legal(s, steps)
    ensures var t := Run(s, steps);
        && |t.sessions| == |s.sessions| && t.aborters == s.aborters
        && (forall j: nat :: j < k ==> t.sessions[j].phase.Idle?)
    decreases k
  {
    if k == 0 {
      steps := [];
    } else {
      var first := AllFinishFrom(s, k - 1);
      var t := Run(s, first);
      var last := SessionFinishes(t, k - 1);
      RunConcat(s, first, last);
      steps := first + last;
    }
  }

  /** Nothing is reserved for good: from every reached state the sessions can finish, and both
      maps are then empty. */
  lemma EverythingCanBeReleased(n: nat, m: nat, steps: seq<Step>, s: State) returns (more: seq<Step>)
    requires Reaches(n, m, steps, s)
    ensures Legal(s, more) && Run(s, more).registry == Registry({}, map[])
  {
    more := AllFinishFrom(s, |s.sessions|);
    hide Run, Apply;
    RunConcat(Initial(n, m), steps, more);
    NothingHeldNothingReserved(n, m, steps + more, Run(s, more));
  }

  /** A session seen transferring a path holds its reservation, so asking the maps alone
      answers what the scan over all sessions answers. */
  lemma SeenMeansReserved(n: nat, m: nat, steps: seq<Step>, s: State, i: nat, p: Path)
    requires Reaches(n, m, steps, s) && i < |s.sessions|
    ensures s.sessions[i].fields == Transferring(Upload, p) ==> Holding(s.sessions[i], Upload, p) && p in s.registry.uploads
    ensures s.sessions[i].fields == Transferring(Download, p) ==> Holding(s.sessions[i], Download, p) && p in s.registry.downloads
  {
    ReachedInv(n, m, steps, s);
    assert PathOk(s, p) && SessionOk(s.sessions[i]);
    SumAtLeast(s.sessions, i, Holds(Upload, p));
    SumAtLeast(s.sessions, i, Holds(Download, p));
  }

  /** When no session holds anything, both maps are empty. */
  lemma NothingHeldNothingReserved(n: nat, m: nat, steps: seq<Step>, s: State)
    requires Reaches(n, m, steps, s) && forall i :: 0 <= i < |s.sessions| ==> s.sessions[i].phase.Idle?
    ensures s.registry == Registry({}, map[])
  {
    ReachedInv(n, m, steps, s);
    forall p: Path ensures p !in s.registry.uploads && p !in s.registry.downloads {
      assert PathOk(s, p);
      SumZero(s.sessions, Holds(Upload, p));
      SumZero(s.sessions, Holds(Download, p));
    }
  }

  /** At any moment the active gauge is the sessions seen transferring, less those not yet
      counted in, plus those cleared but not yet counted out. */
  lemma GaugeEquation(n: nat, m: nat, steps: seq<Step>, s: State, dir: Direction)
    requires Reaches(n, m, steps, s)
    ensures MeterOf(s, dir).gauge
         == Sum(s.sessions, Publishes(dir)) - Sum(s.sessions, Uncounted(dir))
          + Sum(s.sessions, Owes(dir)) + Sum(s.aborters, AborterOwes(dir))
  {
    ReachedInv(n, m, steps, s);
  }

  /** However explicit, deferred and abort-driven calls interleave, each TransferBegin gets
      exactly one TransferEnd: at rest the counts agree and the gauge reads zero. */
  lemma EveryBeginEndsOnce(n: nat, m: nat, steps: seq<Step>, s: State, dir: Direction)
    requires Reaches(n, m, steps, s)
    requires forall i :: 0 <= i < |s.sessions| ==> s.sessions[i].phase.Idle?
    requires forall a :: 0 <= a < |s.aborters| ==> s.aborters[a].None?
    ensures MeterOf(s, dir).begun == MeterOf(s, dir).ended && MeterOf(s, dir).gauge == 0
  {
    ReachedInv(n, m, steps, s);
    forall i: nat | i < |s.sessions| ensures s.sessions[i].fields.Clear? {
      assert SessionOk(s.sessions[i]);
    }
    SumZero(s.sessions, Uncounted(dir));
    SumZero(s.sessions, Publishes(dir));
    SumZero(s.sessions, Owes(dir));
    SumZero(s.aborters, AborterOwes(dir));
  }

  /** Struck: published and then cleared by an abort before it was counted in. */
  function Struck(dir: Direction): Session -> nat {
    (x: Session) => Flag(x.phase.Marked? && x.phase.dir == dir && x.fields.Clear?)
  }

  /** Counted in and still published. */
  function Shown(dir: Direction): Session -> nat {
    (x: Session) => Flag(x.phase.Moving? && x.phase.dir == dir && x.fields.Transferring?)
  }

  lemma {:induction false} PublishedOrStruck(sessions: seq<Session>, dir: Direction)
    requires forall i: nat :: i < |sessions| ==> SessionOk(sessions[i])
    ensures Sum(sessions, Publishes(dir)) + Sum(sessions, Struck(dir))
         == Sum(sessions, Uncounted(dir)) + Sum(sessions, Shown(dir))
  {
    if sessions != [] {
      assert SessionOk(sessions[0]);
      forall i: nat | i < |sessions| - 1 ensures SessionOk(sessions[1..][i]) {
        assert SessionOk(sessions[i + 1]);
      }
      PublishedOrStruck(sessions[1..], dir);
    }
  }

  /** The gauge reads below zero exactly while the struck transfers outnumber those counted in
      and still published together with those cleared but not yet counted out. */
  lemma GaugeNegativeWhen(n: nat, m: nat, steps: seq<Step>, s: State, dir: Direction)
    requires Reaches(n, m, steps, s)
    ensures var others := Sum(s.sessions, Shown(dir)) + Sum(s.sessions, Owes(dir)) + Sum(s.aborters, AborterOwes(dir));
        MeterOf(s, dir).gauge < 0 <==> Sum(s.sessions, Struck(dir)) > others
  {
    ReachedInv(n, m, steps, s);
    PublishedOrStruck(s.sessions, dir);
  }

  /** No abort clears a session between its publishing and its counting in. */
  predicate Gentle(s: State, steps: seq<Step>)
    requires Legal(s, steps)
    decreases |steps|
  {
    steps == [] ||
    ((steps[0].AbortClear? ==> !s.sessions[steps[0].i].phase.Marked?) && Gentle(Apply(s, steps[0]), steps[1..]))
  }

  predicate NoneStruck(s: State) {
    forall i: nat :: i < |s.sessions| && s.sessions[i].phase.Marked? ==> s.sessions[i].fields.Transferring?
  }

  lemma {:induction false} GentleStrikesNone(s: State, steps: seq<Step>)
    requires Legal(s, steps) && Gentle(s, steps) && NoneStruck(s)
    ensures NoneStruck(Run(s, steps))
    decreases |steps|
  {
    if steps != [] {
      GentleStrikesNone(Apply(s, steps[0]), steps[1..]);
    }
  }

  /** In a run without such an abort the gauge never reads below zero. */
  lemma GentleGaugeIsNatural(n: nat, m: nat, steps: seq<Step>, s: State, dir: Direction)
    requires Reaches(n, m, steps, s) && Gentle(Initial(n, m), steps)
    ensures MeterOf(s, dir).gauge >= 0
  {
    GentleStrikesNone(Initial(n, m), steps);
    SumZero(s.sessions, Struck(dir));
    GaugeNegativeWhen(n, m, steps, s, dir);
  }

  /** The gauge can be read as -1: an abort may count a transfer out before its session has
      counted it in. */
  lemma GaugeCanDipBelowZero() returns (steps: seq<Step>, s: State)
    ensures Reaches(1, 1, steps, s) && s.up.gauge == -1
  {
    var s0 := Initial(1, 1);
    var s1 := Apply(s0, Reserve(0, Upload, "/a"));
    var s2 := Apply(s1, Mark(0));
    var s3 := Apply(s2, AbortClear(0, 0));
    s := Apply(s3, AbortCount(0));
    var tail3 := [AbortCount(0)];
    var tail2 := [AbortClear(0, 0)] + tail3;
    var tail1 := [Mark(0)] + tail2;
    steps := [Reserve(0, Upload, "/a")] + tail1;
    assert tail3[1..] == [] && tail2[1..] == tail3 && tail1[1..] == tail2 && steps[1..] == tail1;
    assert Legal(s, []) && Legal(s3, tail3) && Legal(s2, tail2) && Legal(s1, tail1);
    assert Run(s3, tail3) == s && Run(s2, tail2) == s && Run(s1, tail1) == s;
  }

  /** One session's transfer fields, which endTransfer clears from several threads. */
  class TransferFields {
    var fields: Fields

    constructor ()
      ensures fields == Clear
    {
      fields := Clear;
    }

    method BeginTransfer(dir: Direction, path: Path)
      modifies this
      ensures fields == Transferring(dir, path)
    {
      fields := Transferring(dir, path);
    }

    /** Clears the fields and says which direction, if any, the caller must count out. */
    method EndTransfer() returns (due: Option<Direction>)
      modifies this
      ensures fields == Clear && due == Due(old(fields))
    {
      due := match fields case Clear => None case Transferring(dir, _) => Some(dir);
      fields := Clear;
    }
  }
}
