/** How a session sets up and uses data connections: PRET, PASV, CPSV, PORT, PROT, SSCN,
    REST, the listings, STOR, RETR and ABOR, with transfers either proxied through the
    master or passed through to a slave. */
module DataChannel {
  import opened Folds
  import opened Text

  /** The settings fixed for a session's lifetime; `slaves` is passthrough on a master. */
  datatype Config = Config(tlsEnabled: bool, master: bool, passthrough: bool)

  predicate UsesSlaves(cfg: Config) {
    cfg.master && cfg.passthrough
  }

  datatype Opener = ByPasv | ByCpsv

  datatype Listener = Closed | Open(opener: Opener)

  /** What a slave was told when it was asked to listen: TLS client or server, and whether
      to encrypt at all. */
  datatype Plan = Plan(client: bool, tls: bool)

  datatype Slave = NoSlave | Slave(name: string, plan: Plan)

  datatype PretCommand = NoPret | PretStor | PretRetr | PretList

  datatype Event =
    | Prepared(name: string, idx: int)               // a slave listens for this transfer
    | Aborted(name: string, idx: int)                // the slave is told to forget it
    | HandedOver(name: string, idx: int, plan: Plan) // the slave is told to receive or send
    | SlaveDials(addr: string, plan: Plan)           // PORT in passthrough
    | Proxied(plan: Plan)                            // the master talks to the client itself

  datatype State = State(
    isTLS: bool,
    dataTLS: bool,
    sscn: bool,
    listen: Listener,
    activeAddr: string,
    slave: Slave,
    idx: int,
    pretCmd: PretCommand,
    pretArg: string,
    restOffset: nat,
    nextClient: bool,     // nextDataTLSClientMode
    lastActive: bool,     // lastDataConnActive
    log: seq<Event>)

  datatype ProtArg = ProtPrivate | ProtClear | ProtOther

  datatype SscnArg = SscnOn | SscnOff | SscnOther

  /** A command with the outcome of everything outside the session. A passive request gets
      a listener or a slave transfer if listenOk, and its address can be announced if ipOk;
      a transfer gets past its checks if checksOk and gets a connection if connectOk. */
  datatype Command =
    | AuthTLS
    | Prot(arg: ProtArg)
    | Sscn(mode: SscnArg)
    | Pret(valid: bool, cmd: PretCommand, target: string)
    | Pasv(listenOk: bool, ipOk: bool, name: string, idx: int)
    | Cpsv(listenOk: bool, ipOk: bool, name: string, idx: int)
    | Port(valid: bool, addr: string)
    | Rest(offset: nat)
    | Listing(checksOk: bool, connectOk: bool)
    | Stor(checksOk: bool, connectOk: bool)
    | Retr(checksOk: bool, connectOk: bool)
    | Abor

  /** What the commands may carry: PRET names a command, PORT an address. */
  predicate Sensible(c: Command) {
    (c.Pret? ==> !c.cmd.NoPret?) && (c.Port? ==> c.addr != "")
  }

  function Initial(): State {
    State(false, false, false, Closed, "", NoSlave, 0, NoPret, "", 0, false, false, [])
  }

  function Log(s: State, e: Event): State {
    s.(log := s.log + [e])
  }

  // ---------- session_prepare.go ----------

  function AbortPending(s: State): State {
    if s.idx == 0 || s.slave.NoSlave? || Blank(s.slave.name) then s else Log(s, Aborted(s.slave.name, s.idx))
  }

  function ClearPrepared(s: State): State {
    AbortPending(s).(listen := Closed, activeAddr := "", slave := NoSlave, idx := 0, pretCmd := NoPret, pretArg := "",
    restOffset := 0, nextClient := false)
  }

  function ClearPassive(s: State): State {
    AbortPending(s).(listen := Closed, slave := NoSlave, idx := 0, nextClient := false)
  }

  function ClearActive(s: State): State {
    s.(activeAddr := "")
  }

  // ---------- session.go ----------

  predicate RawConnects(s: State, connectOk: bool) {
    connectOk && (s.listen.Open? || s.activeAddr != "")
  }

  function AfterRaw(s: State): (r: State)
    ensures r.slave == s.slave && r.idx == s.idx && r.log == s.log
  {
    if s.listen.Open? then s.(listen := Closed, lastActive := false)
    else if s.activeAddr != "" then s.(activeAddr := "", lastActive := true)
    else s.(lastActive := false)
  }

  predicate ClientRole(s: State) {
    (s.lastActive && s.sscn) || (!s.lastActive && s.nextClient)
  }

  function Upgrade(s: State): State {
    var t := Log(s, Proxied(Plan(ClientRole(s), s.dataTLS)));
    if s.dataTLS then t.(nextClient := false) else t
  }

  // ---------- commands.go ----------

  predicate HasPret(cfg: Config, s: State) {
    cfg.master ==> !s.pretCmd.NoPret?
  }

  function ApplyPassive(cfg: Config, s: State, opener: Opener, listenOk: bool, ipOk: bool, name: string, idx: int): State {
    var toSlave := UsesSlaves(cfg) && (opener.ByCpsv? || s.pretCmd.PretStor? || s.pretCmd.PretRetr?);
    if !HasPret(cfg, s) then ClearPrepared(s)
    else if !listenOk then s
    else if toSlave then
      var t := Log(s.(slave := Slave(name, Plan(opener.ByCpsv?, s.dataTLS)), idx := idx, listen := Closed), Prepared(name, idx));
      if ipOk then t else ClearPassive(t)
    else
      s.(listen := if ipOk then Open(opener) else Closed, slave := NoSlave,
      idx := if opener.ByPasv? then 0 else s.idx, nextClient := opener.ByCpsv?)
  }

  function ApplyTransfer(cfg: Config, s: State, isStor: bool, checksOk: bool, connectOk: bool): State {
    if ChannelsSet(s) == 0 || !checksOk then s
    else if UsesSlaves(cfg) && s.activeAddr != "" && s.slave.NoSlave? then
      Log(s.(activeAddr := ""), SlaveDials(s.activeAddr, Plan(s.sscn, s.dataTLS)))
    else if UsesSlaves(cfg) && s.slave.Slave? then
      var t := if isStor then AfterRaw(s) else s;
      Log(t.(slave := NoSlave, pretCmd := NoPret, pretArg := ""), HandedOver(s.slave.name, s.idx, s.slave.plan))
    else if !RawConnects(s, connectOk) then AfterRaw(s)
    else Upgrade(AfterRaw(s))
  }

  function ApplyListing(s: State, checksOk: bool, connectOk: bool): State {
    if (s.listen.Closed? && s.activeAddr == "") || !checksOk then s
    else if !RawConnects(s, connectOk) then AfterRaw(s)
    else Upgrade(AfterRaw(s))
  }

  function Apply(cfg: Config, s: State, c: Command): State {
    match c
    case AuthTLS => s.(isTLS := true)
    case Prot(arg) =>
      if !cfg.tlsEnabled || !s.isTLS || arg.ProtOther? then s else s.(dataTLS := arg.ProtPrivate?)
    case Sscn(mode) =>
      if !s.isTLS || !s.dataTLS || mode.SscnOther? then s else s.(sscn := mode.SscnOn?)
    case Pret(valid, cmd, target) =>
      if valid then ClearPrepared(s).(pretCmd := cmd, pretArg := target) else ClearPrepared(s)
    case Pasv(listenOk, ipOk, name, idx) => ApplyPassive(cfg, ClearActive(s), ByPasv, listenOk, ipOk, name, idx)
    case Cpsv(listenOk, ipOk, name, idx) =>
      if !s.isTLS || !s.dataTLS then ClearActive(s)
      else ApplyPassive(cfg, ClearActive(s), ByCpsv, listenOk, ipOk, name, idx)
    case Port(valid, addr) => if valid then ClearPassive(s).(activeAddr := addr) else ClearPassive(s)
    case Rest(offset) => s.(restOffset := offset)
    case Listing(checksOk, connectOk) => ClearPrepared(ApplyListing(s, checksOk, connectOk))
    case Stor(checksOk, connectOk) => ClearPrepared(ApplyTransfer(cfg, s, true, checksOk, connectOk))
    case Retr(checksOk, connectOk) => ClearPrepared(ApplyTransfer(cfg, s, false, checksOk, connectOk))
    case Abor =>
      s.(listen := Closed, activeAddr := "", slave := NoSlave, idx := 0, pretCmd := NoPret, pretArg := "")
  }

  function Run(cfg: Config, s: State, cs: seq<Command>): State
    decreases |cs|
  {
    if cs == [] then s else Run(cfg, Apply(cfg, s, cs[0]), cs[1..])
  }

  predicate AllSensible(cs: seq<Command>) {
    forall i :: 0 <= i < |cs| ==> Sensible(cs[i])
  }

  // ---------- One channel at a time ----------

  /** What the client has been promised for its next data connection. */
  datatype Channel = Nothing | Passive(opener: Opener) | Active

  function Flag(b: bool): nat {
    if b then 1 else 0
  }

  function ChannelsSet(s: State): nat {
    Flag(s.activeAddr != "") + Flag(s.listen.Open?) + Flag(s.slave.Slave?)
  }

  function ChannelOf(s: State): Channel {
    if s.listen.Open? then Passive(s.listen.opener)
    else if s.slave.Slave? then Passive(if s.slave.plan.client then ByCpsv else ByPasv)
    else if s.activeAddr != "" then Active
    else Nothing
  }

  predicate Inv(cfg: Config, s: State) {
    && ChannelsSet(s) <= 1
    && (s.listen.Open? ==> s.nextClient == s.listen.opener.ByCpsv?)
    && (s.listen.Open? && s.listen.opener.ByCpsv? ==> !UsesSlaves(cfg))
    && (s.slave.Slave? ==> UsesSlaves(cfg))
    && (s.slave.Slave? && !s.slave.plan.client ==> s.pretCmd.PretStor? || s.pretCmd.PretRetr?)
    && (s.listen.Open? && UsesSlaves(cfg) ==> !s.pretCmd.PretStor? && !s.pretCmd.PretRetr?)
  }

  lemma PassiveInv(cfg: Config, s: State, opener: Opener, listenOk: bool, ipOk: bool, name: string, idx: int)
    requires Inv(cfg, s) && s.activeAddr == ""
    ensures Inv(cfg, ApplyPassive(cfg, s, opener, listenOk, ipOk, name, idx))
  {
  }

  lemma ClearPreparedInv(cfg: Config, s: State)
    ensures Inv(cfg, ClearPrepared(s)) && NothingPrepared(ClearPrepared(s))
  {
  }

  predicate NothingPrepared(s: State) {
    && s.listen.Closed? && s.activeAddr == "" && s.slave.NoSlave? && s.idx == 0
    && s.pretCmd.NoPret? && s.pretArg == "" && s.restOffset == 0 && !s.nextClient
  }

  lemma StepInv(cfg: Config, s: State, c: Command)
    requires Inv(cfg, s)
    ensures Inv(cfg, Apply(cfg, s, c))
  {
    hide ApplyPassive, ApplyTransfer, ApplyListing, ClearPrepared;
    match c
    case Pasv(listenOk, ipOk, name, idx) => PassiveInv(cfg, ClearActive(s), ByPasv, listenOk, ipOk, name, idx);
    case Cpsv(listenOk, ipOk, name, idx) => PassiveInv(cfg, ClearActive(s), ByCpsv, listenOk, ipOk, name, idx);
    case Listing(checksOk, connectOk) => ClearPreparedInv(cfg, ApplyListing(s, checksOk, connectOk));
    case Stor(checksOk, connectOk) => ClearPreparedInv(cfg, ApplyTransfer(cfg, s, true, checksOk, connectOk));
    case Retr(checksOk, connectOk) => ClearPreparedInv(cfg, ApplyTransfer(cfg, s, false, checksOk, connectOk));
    case Pret(_, _, _) => ClearPreparedInv(cfg, s);
    case _ =>
  }

  /** s is where some command sequence takes a new session. */
  predicate Reaches(cfg: Config, cs: seq<Command>, s: State) {
    s == Run(cfg, Initial(), cs)
  }

  lemma {:induction false} RunInv(cfg: Config, s: State, cs: seq<Command>)
    requires Inv(cfg, s)
    ensures Inv(cfg, Run(cfg, s, cs))
    decreases |cs|
  {
    if cs != [] {
      StepInv(cfg, s, cs[0]);
      RunInv(cfg, Apply(cfg, s, cs[0]), cs[1..]);
    }
  }

  /** For every command sequence at most one of ActiveAddr, DataListen and PassthruSlave is
      set, and an open listener remembers the TLS role of the command that opened it. */
  lemma AtMostOneChannel(cfg: Config, cs: seq<Command>, s: State)
    requires Reaches(cfg, cs, s)
    ensures ChannelsSet(s) <= 1
    ensures s.listen.Open? ==> s.nextClient == s.listen.opener.ByCpsv?
    ensures s.slave.Slave? ==> UsesSlaves(cfg)
  {
    RunInv(cfg, Initial(), cs);
  }

  /** An index is kept only with a slave it belongs to. */
  predicate IndexOk(cfg: Config, s: State) {
    (s.slave.NoSlave? ==> s.idx == 0) && (s.slave.Slave? ==> UsesSlaves(cfg))
  }

  lemma StepIndex(cfg: Config, s: State, c: Command)
    requires IndexOk(cfg, s)
    ensures IndexOk(cfg, Apply(cfg, s, c))
  {
    hide ApplyTransfer, ApplyListing, AbortPending;
  }

  lemma {:induction false} RunIndex(cfg: Config, s: State, cs: seq<Command>)
    requires IndexOk(cfg, s)
    ensures IndexOk(cfg, Run(cfg, s, cs))
    decreases |cs|
  {
    if cs != [] {
      StepIndex(cfg, s, cs[0]);
      hide Apply, IndexOk;
      RunIndex(cfg, Apply(cfg, s, cs[0]), cs[1..]);
    }
  }

  /** For every command sequence an index of a slave transfer is set only together with its slave,
      and after PORT nothing of a passive set-up is left. */
  lemma NoStaleIndex(cfg: Config, cs: seq<Command>, s: State, c: Command)
    requires Reaches(cfg, cs, s)
    ensures s.slave.NoSlave? ==> s.idx == 0
    ensures c.Port? ==> (var t := Apply(cfg, s, c);
                         t.listen.Closed? && t.slave.NoSlave? && t.idx == 0 && !t.nextClient)
  {
    RunIndex(cfg, Initial(), cs);
    hide AbortPending, Run;
  }

  // ---------- Transfers consume what was prepared ----------

  predicate UsesChannel(c: Command) {
    c.Listing? || c.Stor? || c.Retr?
  }

  predicate IsTransfer(e: Event) {
    e.HandedOver? || e.SlaveDials? || e.Proxied?
  }

  predicate SettlesSlave(e: Event, name: string, idx: int) {
    (e.Aborted? || e.HandedOver?) && e.name == name && e.idx == idx
  }

  function Settles(name: string, idx: int): Event -> nat {
    (e: Event) => Flag(SettlesSlave(e, name, idx))
  }

  function Prepares(name: string, idx: int): Event -> nat {
    (e: Event) => Flag(e == Prepared(name, idx))
  }

  /** What a command adds to the log. */
  function NewEvents(cfg: Config, s: State, c: Command): seq<Event> {
    var t := Apply(cfg, s, c);
    if |s.log| <= |t.log| then t.log[|s.log|..] else []
  }

  /** A prepared slave is told to abort, if an abort can be addressed to it. */
  function Abandoned(s: State): seq<Event> {
    if s.slave.Slave? && s.idx != 0 && !Blank(s.slave.name) then [Aborted(s.slave.name, s.idx)] else []
  }

  /** What a listing, STOR or RETR does, spelled out by the channel it finds. */
  function Outcome(cfg: Config, s: State, c: Command): seq<Event>
    requires UsesChannel(c)
  {
    var abandon := Abandoned(s);
    if !c.checksOk then abandon
    else
      match ChannelOf(s)
      case Nothing => []
      case Active =>
        if UsesSlaves(cfg) && !c.Listing? then [SlaveDials(s.activeAddr, Plan(s.sscn, s.dataTLS))]
        else if c.connectOk then [Proxied(Plan(s.sscn, s.dataTLS))]
        else []
      case Passive(opener) =>
        if s.slave.Slave? then
          if c.Listing? then abandon else [HandedOver(s.slave.name, s.idx, s.slave.plan)]
        else if c.connectOk then [Proxied(Plan(opener.ByCpsv?, s.dataTLS))]
        else []
  }

  lemma ClearedLog(s: State)
    ensures ClearPrepared(s).log == s.log + Abandoned(s)
  {
    assert s.log + [] == s.log;
  }

  lemma RawConsumes(s: State)
    requires s.listen.Open? || s.activeAddr != ""
    ensures AfterRaw(s) != s && Upgrade(AfterRaw(s)) != s
    ensures Upgrade(AfterRaw(s)).slave == s.slave
  {
    hide ClientRole;
    assert |Upgrade(AfterRaw(s)).log| == |s.log| + 1;
  }

  /** A STOR or RETR that gets past its checks uses up the channel it finds. */
  lemma TransferSilent(cfg: Config, s: State, isStor: bool, checksOk: bool, connectOk: bool)
    requires Inv(cfg, s)
    ensures var t := ApplyTransfer(cfg, s, isStor, checksOk, connectOk);
        (t == s || t.slave.NoSlave?) && (t == s <==> !checksOk || ChannelOf(s).Nothing?)
  {
    if s.listen.Open? || s.activeAddr != "" {
      RawConsumes(s);
    }
    hide Upgrade, AfterRaw, RawConnects;
    if UsesSlaves(cfg) && s.slave.Slave? {
      assert |ApplyTransfer(cfg, s, isStor, true, connectOk).log| == |s.log| + 1;
    }
  }

  lemma TransferLog(cfg: Config, s: State, isStor: bool, connectOk: bool)
    requires Inv(cfg, s) && !ChannelOf(s).Nothing?
    ensures var t := ApplyTransfer(cfg, s, isStor, true, connectOk);
        t.log == s.log + Outcome(cfg, s, if isStor then Stor(true, connectOk) else Retr(true, connectOk))
  {
    hide Blank;
    assert s.log + [] == s.log;
  }

  lemma TransferOutcome(cfg: Config, s: State, c: Command)
    requires Inv(cfg, s) && (c.Stor? || c.Retr?)
    ensures Apply(cfg, s, c).log == s.log + Outcome(cfg, s, c)
  {
    hide ApplyTransfer, ClearPrepared;
    var t := ApplyTransfer(cfg, s, c.Stor?, c.checksOk, c.connectOk);
    TransferSilent(cfg, s, c.Stor?, c.checksOk, c.connectOk);
    if t != s {
      TransferLog(cfg, s, c.Stor?, c.connectOk);
    }
    ClearedLog(t);
    assert t.log + [] == t.log;
  }

  lemma ListingOutcome(cfg: Config, s: State, c: Command)
    requires Inv(cfg, s) && c.Listing?
    ensures Apply(cfg, s, c).log == s.log + Outcome(cfg, s, c)
  {
    assert s.log + [] == s.log;
  }

  /** After STOR or RETR with an argument, or a listing, nothing is prepared and the offset
      is zero, and what happened is what the promised channel called for. */
  lemma TransferConsumes(cfg: Config, cs: seq<Command>, s: State, c: Command)
    requires Reaches(cfg, cs, s) && UsesChannel(c)
    ensures NothingPrepared(Apply(cfg, s, c))
    ensures NewEvents(cfg, s, c) == Outcome(cfg, s, c)
  {
    RunInv(cfg, Initial(), cs);
    if c.Listing? {
      ListingOutcome(cfg, s, c);
    } else {
      TransferOutcome(cfg, s, c);
    }
  }

  /** A slave transfer that is prepared when such a command begins is handed over once or
      aborted once, never both, exactly when it is handed over or has an index and a name
      an abort can be addressed to. */
  lemma SettledOnce(cfg: Config, cs: seq<Command>, s: State, c: Command)
    requires Reaches(cfg, cs, s) && UsesChannel(c) && s.slave.Slave?
    ensures Sum(NewEvents(cfg, s, c), Settles(s.slave.name, s.idx)) <= 1
    ensures Sum(NewEvents(cfg, s, c), Settles(s.slave.name, s.idx)) == 1
       <==> (!c.Listing? && c.checksOk) || (s.idx != 0 && !Blank(s.slave.name))
  {
    TransferConsumes(cfg, cs, s, c);
    RunInv(cfg, Initial(), cs);
    var es := Outcome(cfg, s, c);
    if es != [] {
      assert |es| == 1 && es[1..] == [];
      assert Sum(es, Settles(s.slave.name, s.idx)) == Settles(s.slave.name, s.idx)(es[0]);
    }
  }

  function Current(s: State, name: string, idx: int): nat {
    Flag(s.slave.Slave? && s.slave.name == name && s.idx == idx)
  }

  predicate BudgetOk(s: State, name: string, idx: int) {
    Sum(s.log, Settles(name, idx)) + Current(s, name, idx) <= Sum(s.log, Prepares(name, idx))
  }

  lemma LogBudget(log: seq<Event>, e: Event, name: string, idx: int)
    ensures Sum(log + [e], Settles(name, idx)) == Sum(log, Settles(name, idx)) + Flag(SettlesSlave(e, name, idx))
    ensures Sum(log + [e], Prepares(name, idx)) == Sum(log, Prepares(name, idx)) + Flag(e == Prepared(name, idx))
  {
    SumAppend(log, e, Settles(name, idx));
    SumAppend(log, e, Prepares(name, idx));
  }

  lemma ClearBudget(s: State, name: string, idx: int)
    requires BudgetOk(s, name, idx)
    ensures BudgetOk(ClearPrepared(s), name, idx) && BudgetOk(ClearPassive(s), name, idx)
  {
    hide Sum;
    if s.slave.Slave? {
      LogBudget(s.log, Aborted(s.slave.name, s.idx), name, idx);
    }
  }

  lemma PassiveBudget(cfg: Config, s: State, opener: Opener, listenOk: bool, ipOk: bool, n: string, i: int, name: string, idx: int)
    requires BudgetOk(s, name, idx)
    ensures BudgetOk(ApplyPassive(cfg, s, opener, listenOk, ipOk, n, i), name, idx)
  {
    hide Sum, ClearPrepared, ClearPassive;
    ClearBudget(s, name, idx);
    LogBudget(s.log, Prepared(n, i), name, idx);
    var t := Log(s.(slave := Slave(n, Plan(opener.ByCpsv?, s.dataTLS)), idx := i, listen := Closed), Prepared(n, i));
    assert BudgetOk(t, name, idx);
    ClearBudget(t, name, idx);
  }

  lemma UseBudget(cfg: Config, s: State, c: Command, name: string, idx: int)
    requires BudgetOk(s, name, idx) && Inv(cfg, s) && UsesChannel(c)
    ensures BudgetOk(Apply(cfg, s, c), name, idx)
  {
    hide Sum, AbortPending, ApplyTransfer, ApplyListing;
    if c.Listing? {
      ListingOutcome(cfg, s, c);
    } else {
      TransferOutcome(cfg, s, c);
    }
    assert NothingPrepared(Apply(cfg, s, c));
    hide Apply;
    var es := Outcome(cfg, s, c);
    if es == [] {
      assert s.log + es == s.log;
    } else {
      assert es == [es[0]];
      LogBudget(s.log, es[0], name, idx);
    }
  }

  lemma {:induction false} RunBudget(cfg: Config, s: State, cs: seq<Command>, name: string, idx: int)
    requires BudgetOk(s, name, idx) && Inv(cfg, s)
    ensures BudgetOk(Run(cfg, s, cs), name, idx)
    decreases |cs|
  {
    hide Sum, ClearPrepared, ClearPassive, ApplyPassive, ApplyTransfer, ApplyListing, Inv;
    if cs != [] {
      var c := cs[0];
      StepInv(cfg, s, c);
      match c {
        case Pasv(listenOk, ipOk, n, i) => PassiveBudget(cfg, ClearActive(s), ByPasv, listenOk, ipOk, n, i, name, idx);
        case Cpsv(listenOk, ipOk, n, i) => PassiveBudget(cfg, ClearActive(s), ByCpsv, listenOk, ipOk, n, i, name, idx);
        case Pret(_, _, _) => ClearBudget(s, name, idx);
        case Port(_, _) => ClearBudget(s, name, idx);
        case Listing(_, _) => UseBudget(cfg, s, c, name, idx);
        case Stor(_, _) => UseBudget(cfg, s, c, name, idx);
        case Retr(_, _) => UseBudget(cfg, s, c, name, idx);
        case _ =>
      }
      RunBudget(cfg, Apply(cfg, s, c), cs[1..], name, idx);
    }
  }

  /** Over a whole session a slave is never told about a transfer more often than it
      prepared it: no transfer is handed over twice, aborted twice, or both. */
  lemma NeverSettledTwice(cfg: Config, cs: seq<Command>, s: State, name: string, idx: int)
    requires Reaches(cfg, cs, s)
    ensures Sum(s.log, Settles(name, idx)) + Current(s, name, idx) <= Sum(s.log, Prepares(name, idx))
  {
    RunBudget(cfg, Initial(), cs, name, idx);
  }

  // ---------- Every prepared slave transfer is accounted for ----------

  /** The commands that take the place of a set-up without a word to its slave: ABOR, and a PASV
      or CPSV that gets as far as setting up anew. */
  predicate Replaces(cfg: Config, s: State, c: Command) {
    || c.Abor?
    || (c.Pasv? && c.listenOk && HasPret(cfg, s))
    || (c.Cpsv? && c.listenOk && HasPret(cfg, s) && s.isTLS && s.dataTLS)
  }

  /** The transfers (name, idx) a command drops in that way. */
  function Dropped(cfg: Config, s: State, c: Command, name: string, idx: int): nat {
    if Replaces(cfg, s, c) then Current(s, name, idx) else 0
  }

  /** Prepared = settled + current + dropped. */
  predicate Account(s: State, dropped: nat, name: string, idx: int) {
    Sum(s.log, Prepares(name, idx)) == Sum(s.log, Settles(name, idx)) + Current(s, name, idx) + dropped
  }

  /** A transfer an abort can be addressed to. */
  predicate Addressable(name: string, idx: int) {
    idx != 0 && !Blank(name)
  }

  lemma ClearAccount(s: State, dropped: nat, name: string, idx: int)
    requires Account(s, dropped, name, idx) && Addressable(name, idx)
    ensures Account(ClearPrepared(s), dropped, name, idx) && Account(ClearPassive(s), dropped, name, idx)
  {
    hide Sum;
    if s.slave.Slave? {
      LogBudget(s.log, Aborted(s.slave.name, s.idx), name, idx);
    }
  }

  /** A set-up that replaces what was there. */
  lemma ReplaceAccount(cfg: Config, s: State, opener: Opener, ipOk: bool, n: string, i: int, dropped: nat, name: string, idx: int)
    requires HasPret(cfg, s) && Account(s, dropped, name, idx) && Addressable(name, idx)
    ensures Account(ApplyPassive(cfg, s, opener, true, ipOk, n, i), dropped + Current(s, name, idx), name, idx)
  {
    hide Sum, ClearPrepared, ClearPassive, Blank;
    LogBudget(s.log, Prepared(n, i), name, idx);
    var t := Log(s.(slave := Slave(n, Plan(opener.ByCpsv?, s.dataTLS)), idx := i, listen := Closed), Prepared(n, i));
    assert Account(t, dropped + Current(s, name, idx), name, idx);
    ClearAccount(t, dropped + Current(s, name, idx), name, idx);
  }

  lemma PassiveAccount(cfg: Config, s: State, c: Command, dropped: nat, name: string, idx: int)
    requires c.Pasv? || c.Cpsv?
    requires Account(s, dropped, name, idx) && Addressable(name, idx)
    ensures Account(Apply(cfg, s, c), dropped + Dropped(cfg, s, c, name, idx), name, idx)
  {
    hide Account, ClearPrepared, ClearActive, HasPret, Current, Addressable, ApplyPassive;
    var u, opener := ClearActive(s), if c.Pasv? then ByPasv else ByCpsv;
    ActiveAside(cfg, s, dropped, name, idx);
    ClearAccount(u, dropped, name, idx);
    if HasPret(cfg, s) && c.listenOk {
      ReplaceAccount(cfg, u, opener, c.ipOk, c.name, c.idx, dropped, name, idx);
    } else {
      PassiveElse(cfg, u, opener, c.listenOk, c.ipOk, c.name, c.idx);
    }
  }

  lemma PassiveElse(cfg: Config, s: State, opener: Opener, listenOk: bool, ipOk: bool, name: string, idx: int)
    requires !HasPret(cfg, s) || !listenOk
    ensures ApplyPassive(cfg, s, opener, listenOk, ipOk, name, idx) == if HasPret(cfg, s) then s else ClearPrepared(s)
  {
  }

  lemma ActiveAside(cfg: Config, s: State, dropped: nat, name: string, idx: int)
    ensures var u := ClearActive(s);
        && Account(u, dropped, name, idx) == Account(s, dropped, name, idx) && Current(u, name, idx) == Current(s, name, idx)
        && HasPret(cfg, u) == HasPret(cfg, s) && u.isTLS == s.isTLS && u.dataTLS == s.dataTLS
  {
    hide Sum;
  }

  lemma UseAccount(cfg: Config, s: State, c: Command, dropped: nat, name: string, idx: int)
    requires Account(s, dropped, name, idx) && Inv(cfg, s) && UsesChannel(c) && Addressable(name, idx)
    ensures Account(Apply(cfg, s, c), dropped, name, idx)
  {
    hide Sum, AbortPending, ApplyTransfer, ApplyListing;
    if c.Listing? {
      ListingOutcome(cfg, s, c);
    } else {
      TransferOutcome(cfg, s, c);
    }
    assert NothingPrepared(Apply(cfg, s, c));
    hide Apply, Blank;
    var es := Outcome(cfg, s, c);
    if es == [] {
      assert s.log + es == s.log;
    } else {
      assert es == [es[0]];
      LogBudget(s.log, es[0], name, idx);
    }
  }

  lemma StepAccount(cfg: Config, s: State, c: Command, dropped: nat, name: string, idx: int)
    requires Inv(cfg, s) && Account(s, dropped, name, idx) && Addressable(name, idx)
    ensures Account(Apply(cfg, s, c), dropped + Dropped(cfg, s, c, name, idx), name, idx)
  {
    hide Sum, ClearPrepared, ClearPassive, ApplyPassive, ApplyTransfer, ApplyListing, Inv, Blank;
    match c
    case Pasv(_, _, _, _) => PassiveAccount(cfg, s, c, dropped, name, idx);
    case Cpsv(_, _, _, _) => PassiveAccount(cfg, s, c, dropped, name, idx);
    case Pret(_, _, _) => ClearAccount(s, dropped, name, idx);
    case Port(_, _) => ClearAccount(s, dropped, name, idx);
    case Listing(_, _) => UseAccount(cfg, s, c, dropped, name, idx);
    case Stor(_, _) => UseAccount(cfg, s, c, dropped, name, idx);
    case Retr(_, _) => UseAccount(cfg, s, c, dropped, name, idx);
    case _ =>
  }

  /** The transfers (name, idx) that a run's commands drop. */
  function DroppedIn(cfg: Config, s: State, cs: seq<Command>, name: string, idx: int): nat
    decreases |cs|
  {
    if cs == [] then 0
    else Dropped(cfg, s, cs[0], name, idx) + DroppedIn(cfg, Apply(cfg, s, cs[0]), cs[1..], name, idx)
  }

  lemma {:induction false} RunAccount(cfg: Config, s: State, cs: seq<Command>, dropped: nat, name: string, idx: int)
    requires Inv(cfg, s) && Account(s, dropped, name, idx) && Addressable(name, idx)
    ensures Account(Run(cfg, s, cs), dropped + DroppedIn(cfg, s, cs, name, idx), name, idx)
    decreases |cs|
  {
    hide Sum, Apply, Account, Inv, Dropped, Blank;
    if cs != [] {
      StepAccount(cfg, s, cs[0], dropped, name, idx);
      StepInv(cfg, s, cs[0]);
      RunAccount(cfg, Apply(cfg, s, cs[0]), cs[1..], dropped + Dropped(cfg, s, cs[0], name, idx), name, idx);
    }
  }

  /** Over a whole session every addressable slave transfer that was prepared has been handed over
      or aborted, or is the current one, or was dropped by an ABOR, PASV or CPSV; and each of
      these exactly once. */
  lemma AllAccountedFor(cfg: Config, cs: seq<Command>, s: State, name: string, idx: int)
    requires Reaches(cfg, cs, s) && Addressable(name, idx)
    ensures Sum(s.log, Prepares(name, idx))
         == Sum(s.log, Settles(name, idx)) + Current(s, name, idx) + DroppedIn(cfg, Initial(), cs, name, idx)
  {
    RunAccount(cfg, Initial(), cs, 0, name, idx);
  }

  /** From s to t the slave's transfer is kept without a word, or given up with one. */
  predicate KeptOrTold(s: State, t: State)
    requires s.slave.Slave?
  {
    if t.slave == s.slave && t.idx == s.idx then t.log == s.log
    else
      && t.slave.NoSlave? && |t.log| == |s.log| + 1 && t.log[..|s.log|] == s.log
      && SettlesSlave(t.log[|s.log|], s.slave.name, s.idx)
  }

  lemma ClearTells(s: State)
    requires s.slave.Slave? && Addressable(s.slave.name, s.idx)
    ensures KeptOrTold(s, ClearPrepared(s)) && KeptOrTold(s, ClearPassive(s))
  {
    hide Blank;
  }

  lemma UseTells(cfg: Config, s: State, c: Command)
    requires Inv(cfg, s) && UsesChannel(c) && s.slave.Slave? && Addressable(s.slave.name, s.idx)
    ensures KeptOrTold(s, Apply(cfg, s, c))
  {
    hide ApplyTransfer, ApplyListing, AbortPending, Blank, Sum;
    if c.Listing? {
      ListingOutcome(cfg, s, c);
    } else {
      TransferOutcome(cfg, s, c);
    }
    assert NothingPrepared(Apply(cfg, s, c));
    hide Apply;
  }

  lemma PassiveTells(cfg: Config, s: State, c: Command)
    requires (c.Pasv? || c.Cpsv?) && s.slave.Slave? && Addressable(s.slave.name, s.idx) && !Replaces(cfg, s, c)
    ensures KeptOrTold(s, Apply(cfg, s, c))
  {
    var u := ClearActive(s);
    assert KeptOrTold(u, ClearPrepared(u)) by {
      ClearTells(u);
    }
    hide ClearPrepared, Blank;
  }

  lemma StepTells(cfg: Config, s: State, c: Command)
    requires Inv(cfg, s) && s.slave.Slave? && Addressable(s.slave.name, s.idx) && !Replaces(cfg, s, c)
    ensures KeptOrTold(s, Apply(cfg, s, c))
  {
    hide ClearPrepared, ClearPassive, ApplyPassive, ApplyTransfer, ApplyListing, Inv, Blank;
    match c
    case Pasv(_, _, _, _) => PassiveTells(cfg, s, c);
    case Cpsv(_, _, _, _) => PassiveTells(cfg, s, c);
    case Pret(_, _, _) => ClearTells(s);
    case Port(_, _) => ClearTells(s);
    case Listing(_, _) => UseTells(cfg, s, c);
    case Stor(_, _) => UseTells(cfg, s, c);
    case Retr(_, _) => UseTells(cfg, s, c);
    case _ =>
  }

  /** Any other command leaves a prepared addressable transfer as the current one without a word
      to its slave, or settles it once, and tells the slaves nothing else. */
  lemma KeptOrSettled(cfg: Config, cs: seq<Command>, s: State, c: Command)
    requires Reaches(cfg, cs, s) && s.slave.Slave? && Addressable(s.slave.name, s.idx) && !Replaces(cfg, s, c)
    ensures var t := Apply(cfg, s, c); var events := NewEvents(cfg, s, c);
        if t.slave == s.slave && t.idx == s.idx then t.log == s.log && events == []
        else t.slave.NoSlave? && t.log == s.log + events && |events| == 1 && SettlesSlave(events[0], s.slave.name, s.idx)
  {
    RunInv(cfg, Initial(), cs);
    StepTells(cfg, s, c);
    hide Apply, Inv, Run, Blank;
  }

  // ---------- Proxy and passthrough agree ----------

  /** The TLS role a channel calls for: client after CPSV, server after PASV, and for PORT
      client exactly when SSCN is on. */
  predicate WantsClient(ch: Channel, sscn: bool) {
    match ch
    case Nothing => false
    case Passive(opener) => opener.ByCpsv?
    case Active => sscn
  }

  /** All that a client can tell about the set-up, and the protection that was in force when
      the passive channel was set up. */
  datatype Promise = Promise(isTLS: bool, dataTLS: bool, sscn: bool, channel: Channel, addr: string, setUp: bool,
                             pretCmd: PretCommand, pretArg: string, restOffset: nat)

  function Promised(s: State, setUp: bool): Promise {
    Promise(s.isTLS, s.dataTLS, s.sscn, ChannelOf(s), s.activeAddr, setUp, s.pretCmd, s.pretArg, s.restOffset)
  }

  function Start(): Promise {
    Promise(false, false, false, Nothing, "", false, NoPret, "", 0)
  }

  /** The fields keep a promise: they show it, and a prepared slave was told the protection
      that was in force at its set-up. */
  predicate Keeps(s: State, p: Promise) {
    p == Promised(s, p.setUp) && (s.slave.Slave? ==> s.slave.plan.tls == p.setUp)
  }

  function ClearedPromise(p: Promise): Promise {
    p.(channel := Nothing, addr := "", pretCmd := NoPret, pretArg := "", restOffset := 0)
  }

  function PassivePromise(master: bool, p: Promise, opener: Opener, listenOk: bool, ipOk: bool): Promise {
    if master && p.pretCmd.NoPret? then ClearedPromise(p)
    else if !listenOk then p
    else p.(channel := if ipOk then Passive(opener) else Nothing, setUp := p.dataTLS)
  }

  /** The set-up protocol as a client sees it; it does not know about passthrough. */
  function Expect(tlsEnabled: bool, master: bool, p: Promise, c: Command): Promise {
    var passive := if p.channel.Active? then p.(channel := Nothing, addr := "") else p;
    match c
    case AuthTLS => p.(isTLS := true)
    case Prot(arg) => if tlsEnabled && p.isTLS && !arg.ProtOther? then p.(dataTLS := arg.ProtPrivate?) else p
    case Sscn(mode) => if p.isTLS && p.dataTLS && !mode.SscnOther? then p.(sscn := mode.SscnOn?) else p
    case Pret(valid, cmd, target) =>
      if valid then ClearedPromise(p).(pretCmd := cmd, pretArg := target) else ClearedPromise(p)
    case Pasv(listenOk, ipOk, _, _) => PassivePromise(master, passive, ByPasv, listenOk, ipOk)
    case Cpsv(listenOk, ipOk, _, _) =>
      if p.isTLS && p.dataTLS then PassivePromise(master, passive, ByCpsv, listenOk, ipOk) else passive
    case Port(valid, addr) =>
      if valid then p.(channel := Active, addr := addr) else if p.channel.Passive? then p.(channel := Nothing) else p
    case Rest(offset) => p.(restOffset := offset)
    case Listing(_, _) => ClearedPromise(p)
    case Stor(_, _) => ClearedPromise(p)
    case Retr(_, _) => ClearedPromise(p)
    case Abor => ClearedPromise(p).(restOffset := p.restOffset)
  }

  function ExpectAll(tlsEnabled: bool, master: bool, p: Promise, cs: seq<Command>): Promise
    decreases |cs|
  {
    if cs == [] then p else ExpectAll(tlsEnabled, master, Expect(tlsEnabled, master, p, cs[0]), cs[1..])
  }

  lemma ClearedIsPromised(s: State, setUp: bool)
    ensures Promised(ClearPrepared(s), setUp) == ClearedPromise(Promised(s, setUp))
    ensures ClearPrepared(s).slave.NoSlave?
  {
  }

  lemma PassiveIsPromised(cfg: Config, s: State, p: Promise, opener: Opener, listenOk: bool, ipOk: bool, name: string, idx: int)
    requires s.activeAddr == "" && Keeps(s, p)
    ensures Keeps(ApplyPassive(cfg, s, opener, listenOk, ipOk, name, idx), PassivePromise(cfg.master, p, opener, listenOk, ipOk))
  {
    var t := ApplyPassive(cfg, s, opener, listenOk, ipOk, name, idx);
    if !HasPret(cfg, s) {
      hide ClearPrepared;
      ClearedIsPromised(s, p.setUp);
    } else if listenOk {
      hide ClearPrepared, AbortPending;
      assert SameModes(s, t) && t.pretCmd == s.pretCmd && t.pretArg == s.pretArg && t.restOffset == s.restOffset by {
        PassiveKeepsRest(cfg, s, opener, ipOk, name, idx);
      }
    }
  }

  lemma PassiveKeepsRest(cfg: Config, s: State, opener: Opener, ipOk: bool, name: string, idx: int)
    requires HasPret(cfg, s)
    ensures var t := ApplyPassive(cfg, s, opener, true, ipOk, name, idx);
        SameModes(s, t) && t.pretCmd == s.pretCmd && t.pretArg == s.pretArg && t.restOffset == s.restOffset
  {
    hide ClearPrepared;
  }

  predicate SameModes(s: State, t: State) {
    s.isTLS == t.isTLS && s.dataTLS == t.dataTLS && s.sscn == t.sscn
  }

  lemma ConnectionKeepsModes(s: State)
    ensures SameModes(s, AfterRaw(s)) && SameModes(s, Upgrade(s))
  {
  }

  lemma TransferKeepsModes(cfg: Config, s: State, isStor: bool, checksOk: bool, connectOk: bool)
    ensures SameModes(s, ApplyTransfer(cfg, s, isStor, checksOk, connectOk))
  {
    hide AfterRaw, Upgrade, RawConnects;
    ConnectionKeepsModes(s);
    ConnectionKeepsModes(AfterRaw(s));
  }

  lemma ListingKeepsModes(s: State, checksOk: bool, connectOk: bool)
    ensures SameModes(s, ApplyListing(s, checksOk, connectOk))
  {
  }

  lemma SameModesClear(s: State, t: State, setUp: bool)
    requires SameModes(s, t)
    ensures ClearedPromise(Promised(s, setUp)) == ClearedPromise(Promised(t, setUp))
  {
  }

  lemma TransferKeepsPromise(cfg: Config, s: State, p: Promise, c: Command)
    requires UsesChannel(c) && Keeps(s, p)
    ensures Keeps(Apply(cfg, s, c), ClearedPromise(p))
  {
    hide ApplyTransfer, ApplyListing, ClearPrepared, Promised;
    ListingKeepsModes(s, c.checksOk, c.connectOk);
    TransferKeepsModes(cfg, s, c.Stor?, c.checksOk, c.connectOk);
    var t := if c.Listing? then ApplyListing(s, c.checksOk, c.connectOk)
             else ApplyTransfer(cfg, s, c.Stor?, c.checksOk, c.connectOk);
    SameModesClear(s, t, p.setUp);
    ClearedIsPromised(t, p.setUp);
  }

  lemma PassiveCleared(s: State)
    requires ChannelsSet(s) <= 1
    ensures var t := ClearPassive(s);
        && SameModes(s, t) && t.slave.NoSlave? && t.listen.Closed? && t.activeAddr == s.activeAddr
        && t.pretCmd == s.pretCmd && t.pretArg == s.pretArg && t.restOffset == s.restOffset
        && (ChannelOf(s).Active? <==> s.activeAddr != "") && (ChannelOf(s).Nothing? ==> s.activeAddr == "")
  {
  }

  lemma PortIsPromised(cfg: Config, s: State, p: Promise, c: Command)
    requires Inv(cfg, s) && Sensible(c) && c.Port? && Keeps(s, p)
    ensures Keeps(Apply(cfg, s, c), Expect(cfg.tlsEnabled, cfg.master, p, c))
  {
    PassiveCleared(s);
    var t := Apply(cfg, s, c);
    hide ClearPassive, ChannelsSet;
    assert p == Promised(s, p.setUp);
    assert t.activeAddr == if c.valid then c.addr else s.activeAddr;
  }

  lemma PretIsPromised(cfg: Config, s: State, p: Promise, c: Command)
    requires c.Pret? && Keeps(s, p)
    ensures Keeps(Apply(cfg, s, c), Expect(cfg.tlsEnabled, cfg.master, p, c))
  {
    hide ClearPrepared;
    ClearedIsPromised(s, p.setUp);
  }

  lemma ModeIsPromised(cfg: Config, s: State, p: Promise, c: Command)
    requires c.AuthTLS? || c.Prot? || c.Sscn? || c.Rest? || c.Abor?
    requires Keeps(s, p)
    ensures Keeps(Apply(cfg, s, c), Expect(cfg.tlsEnabled, cfg.master, p, c))
  {
  }

  lemma KeepsModes(s: State, p: Promise)
    requires Keeps(s, p)
    ensures p.isTLS == s.isTLS && p.dataTLS == s.dataTLS
  {
  }

  lemma ActiveCleared(s: State, p: Promise)
    requires Keeps(s, p) && ChannelsSet(s) <= 1
    ensures Keeps(ClearActive(s), if p.channel.Active? then p.(channel := Nothing, addr := "") else p)
  {
  }

  /** Each command changes the client's view as the passthrough-free protocol says. */
  lemma StepIsExpected(cfg: Config, s: State, p: Promise, c: Command)
    requires Inv(cfg, s) && Sensible(c) && Keeps(s, p)
    ensures Keeps(Apply(cfg, s, c), Expect(cfg.tlsEnabled, cfg.master, p, c))
  {
    hide ApplyPassive, ApplyTransfer, ApplyListing, ClearPrepared, ClearPassive, PassivePromise, ClearedPromise, Keeps;
    var passive := if p.channel.Active? then p.(channel := Nothing, addr := "") else p;
    assert p.isTLS == s.isTLS && p.dataTLS == s.dataTLS by { KeepsModes(s, p); }
    ActiveCleared(s, p);
    match c
    case Pasv(listenOk, ipOk, name, idx) => PassiveIsPromised(cfg, ClearActive(s), passive, ByPasv, listenOk, ipOk, name, idx);
    case Cpsv(listenOk, ipOk, name, idx) => PassiveIsPromised(cfg, ClearActive(s), passive, ByCpsv, listenOk, ipOk, name, idx);
    case Pret(_, _, _) => PretIsPromised(cfg, s, p, c);
    case Listing(_, _) => TransferKeepsPromise(cfg, s, p, c);
    case Stor(_, _) => TransferKeepsPromise(cfg, s, p, c);
    case Retr(_, _) => TransferKeepsPromise(cfg, s, p, c);
    case Port(_, _) => PortIsPromised(cfg, s, p, c);
    case _ => ModeIsPromised(cfg, s, p, c);
  }

  /** The session fields refine the protocol over every command sequence. */
  lemma {:induction false} RunIsExpected(cfg: Config, s: State, p: Promise, cs: seq<Command>)
    requires Inv(cfg, s) && AllSensible(cs) && Keeps(s, p)
    ensures Keeps(Run(cfg, s, cs), ExpectAll(cfg.tlsEnabled, cfg.master, p, cs))
    decreases |cs|
  {
    hide Apply, Expect, Keeps, Sensible, Inv;
    if cs != [] {
      StepIsExpected(cfg, s, p, cs[0]);
      StepInv(cfg, s, cs[0]);
      RunIsExpected(cfg, Apply(cfg, s, cs[0]), Expect(cfg.tlsEnabled, cfg.master, p, cs[0]), cs[1..]);
    }
  }

  /** What the commands so far promise, read off the commands alone. */
  function After(cfg: Config, cs: seq<Command>): Promise {
    ExpectAll(cfg.tlsEnabled, cfg.master, Start(), cs)
  }

  lemma KeepsAfter(cfg: Config, cs: seq<Command>, s: State)
    requires Reaches(cfg, cs, s) && AllSensible(cs)
    ensures Keeps(s, After(cfg, cs)) && Inv(cfg, s)
  {
    assert Keeps(Initial(), Start());
    RunIsExpected(cfg, Initial(), Start(), cs);
    RunInv(cfg, Initial(), cs);
  }

  /** A passthrough session prepares a slave for CPSV, and for PASV after PRET STOR or RETR. */
  predicate SlaveHolds(p: Promise) {
    p.channel == Passive(ByCpsv) || (p.channel.Passive? && (p.pretCmd.PretStor? || p.pretCmd.PretRetr?))
  }

  lemma OutcomePlan(cfg: Config, s: State, p: Promise, c: Command, e: Event)
    requires Keeps(s, p) && Inv(cfg, s) && UsesChannel(c) && e in Outcome(cfg, s, c) && IsTransfer(e)
    ensures e.plan.client == WantsClient(p.channel, p.sscn)
    ensures e.plan.tls == (if UsesSlaves(cfg) && SlaveHolds(p) then p.setUp else p.dataTLS)
    ensures UsesSlaves(cfg) && SlaveHolds(p) <==> e.HandedOver?
    ensures e.SlaveDials? ==> p.channel.Active? && e.addr == p.addr
  {
    hide Blank;
  }

  /** Every data connection, proxied or passed through, takes the TLS role the commands
      promise. It is protected as the session is now, unless a prepared slave makes it: then
      as the session was at the set-up. */
  lemma PlanIsPromised(cfg: Config, cs: seq<Command>, s: State, c: Command, e: Event)
    requires Reaches(cfg, cs, s) && AllSensible(cs)
    requires UsesChannel(c) && e in NewEvents(cfg, s, c) && IsTransfer(e)
    ensures var p := After(cfg, cs);
        && e.plan.client == WantsClient(p.channel, p.sscn)
        && e.plan.tls == (if UsesSlaves(cfg) && SlaveHolds(p) then p.setUp else p.dataTLS)
        && (UsesSlaves(cfg) && SlaveHolds(p) <==> e.HandedOver?)
        && (e.SlaveDials? ==> p.channel.Active? && e.addr == p.addr)
  {
    hide Outcome, NewEvents, Inv, Keeps, WantsClient, SlaveHolds, Apply, Run, ExpectAll;
    KeepsAfter(cfg, cs, s);
    TransferConsumes(cfg, cs, s, c);
    OutcomePlan(cfg, s, After(cfg, cs), c, e);
  }

  /** Client after CPSV, server after PASV, and for PORT client exactly when SSCN is on. */
  lemma RoleIsPromised(cfg: Config, cs: seq<Command>, s: State, c: Command, e: Event)
    requires Reaches(cfg, cs, s) && AllSensible(cs)
    requires UsesChannel(c) && e in NewEvents(cfg, s, c) && IsTransfer(e)
    ensures e.plan.client == WantsClient(After(cfg, cs).channel, After(cfg, cs).sscn)
  {
    PlanIsPromised(cfg, cs, s, c, e);
  }

  /** Two sessions that differ only in passthrough, given the same commands and the same luck
      outside, promise the same channel and take the same TLS role in whatever connection
      the next transfer opens. */
  lemma ProxyAndPassthroughAgree(a: Config, b: Config, cs: seq<Command>, s: State, t: State, c: Command, e: Event, f: Event)
    requires a.tlsEnabled == b.tlsEnabled && a.master == b.master && AllSensible(cs)
    requires Reaches(a, cs, s) && Reaches(b, cs, t) && UsesChannel(c)
    requires e in NewEvents(a, s, c) && IsTransfer(e) && f in NewEvents(b, t, c) && IsTransfer(f)
    ensures ChannelOf(s) == ChannelOf(t) && e.plan.client == f.plan.client
  {
    KeepsAfter(a, cs, s);
    KeepsAfter(b, cs, t);
    PlanIsPromised(a, cs, s, c, e);
    PlanIsPromised(b, cs, t, c, f);
  }

  // ---------- Where they do not agree ----------

  /** The passthrough session and the proxying one protect that connection alike exactly when
      no slave was prepared for it, or the protection in force at its PASV or CPSV is the
      protection now; whatever PROT commands came between. */
  lemma EncryptionAgreesWhen(a: Config, b: Config, cs: seq<Command>, s: State, t: State, c: Command, e: Event, f: Event)
    requires a.tlsEnabled == b.tlsEnabled && a.master == b.master && AllSensible(cs)
    requires UsesSlaves(a) && !UsesSlaves(b)
    requires Reaches(a, cs, s) && Reaches(b, cs, t) && UsesChannel(c)
    requires e in NewEvents(a, s, c) && IsTransfer(e) && f in NewEvents(b, t, c) && IsTransfer(f)
    ensures var p := After(a, cs);
        e.plan.tls == f.plan.tls <==> !SlaveHolds(p) || p.setUp == p.dataTLS
    ensures SlaveHolds(After(a, cs)) <==> e.HandedOver?
  {
    hide ExpectAll, NewEvents, SlaveHolds, Run, Apply;
    PlanIsPromised(a, cs, s, c, e);
    PlanIsPromised(b, cs, t, c, f);
  }

  /** Such a sequence: the client asked for clear data, the slave still encrypts. */
  lemma EncryptionCanDiffer() returns (cs: seq<Command>)
    ensures AllSensible(cs)
    ensures var s := Run(Config(true, true, true), Initial(), cs);
        NewEvents(Config(true, true, true), s, Stor(true, true)) == [HandedOver("s1", 1, Plan(false, true))]
    ensures var t := Run(Config(true, true, false), Initial(), cs);
        NewEvents(Config(true, true, false), t, Stor(true, true)) == [Proxied(Plan(false, false))]
  {
    var c0, c1, c2 := AuthTLS, Prot(ProtPrivate), Pret(true, PretStor, "f");
    var c3, c4 := Pasv(true, true, "s1", 1), Prot(ProtClear);
    cs := [c0, c1, c2, c3, c4];
    RunFive(Config(true, true, true), c0, c1, c2, c3, c4);
    RunFive(Config(true, true, false), c0, c1, c2, c3, c4);
  }

  lemma RunOne(cfg: Config, s: State, c: Command, cs: seq<Command>)
    ensures Run(cfg, s, [c] + cs) == Run(cfg, Apply(cfg, s, c), cs)
  {
    hide Apply;
    assert ([c] + cs)[1..] == cs;
  }

  lemma RunFive(cfg: Config, c0: Command, c1: Command, c2: Command, c3: Command, c4: Command)
    ensures Run(cfg, Initial(), [c0, c1, c2, c3, c4])
         == Apply(cfg, Apply(cfg, Apply(cfg, Apply(cfg, Apply(cfg, Initial(), c0), c1), c2), c3), c4)
  {
    hide Apply, Run, Initial;
    var s1 := Apply(cfg, Initial(), c0);
    var s2 := Apply(cfg, s1, c1);
    var s3 := Apply(cfg, s2, c2);
    var s4 := Apply(cfg, s3, c3);
    RunOne(cfg, Initial(), c0, [c1, c2, c3, c4]);
    RunOne(cfg, s1, c1, [c2, c3, c4]);
    RunOne(cfg, s2, c2, [c3, c4]);
    RunOne(cfg, s3, c3, [c4]);
    RunOne(cfg, s4, c4, []);
    RunNone(cfg, Apply(cfg, s4, c4));
    assert [c0] + [c1, c2, c3, c4] == [c0, c1, c2, c3, c4];
    assert [c1] + [c2, c3, c4] == [c1, c2, c3, c4];
    assert [c2] + [c3, c4] == [c2, c3, c4];
    assert [c3] + [c4] == [c3, c4];
    assert [c4] + [] == [c4];
  }

  lemma RunNone(cfg: Config, s: State)
    ensures Run(cfg, s, []) == s
  {
  }

  /** PRET promises that a listing will use the master, but CPSV in passthrough asks a slave
      all the same, and the listing is then refused: a promised listing with everything in
      its favour opens a connection exactly when it was not set up by CPSV in passthrough. */
  lemma ListingNeedsTheMaster(cfg: Config, cs: seq<Command>, s: State)
    requires Reaches(cfg, cs, s) && s.pretCmd.PretList? && !ChannelOf(s).Nothing?
    ensures (exists e :: e in NewEvents(cfg, s, Listing(true, true)) && IsTransfer(e))
       <==> !(UsesSlaves(cfg) && ChannelOf(s) == Passive(ByCpsv))
  {
    RunInv(cfg, Initial(), cs);
    ListingOutcome(cfg, s, Listing(true, true));
    var es := Outcome(cfg, s, Listing(true, true));
    if es != [] {
      assert NewEvents(cfg, s, Listing(true, true)) == es && es[0] in es;
    }
  }

  /** Such a listing exists. */
  lemma ListingCanBeRefused() returns (cs: seq<Command>)
    ensures var s := Run(Config(true, true, true), Initial(), cs);
        s.pretCmd.PretList? && ChannelOf(s) == Passive(ByCpsv)
  {
    var c0, c1, c2 := AuthTLS, Prot(ProtPrivate), Pret(true, PretList, "");
    var c3, c4 := Cpsv(true, true, "s1", 1), Rest(0);
    cs := [c0, c1, c2, c3, c4];
    RunFive(Config(true, true, true), c0, c1, c2, c3, c4);
  }

  /** The session's fields, changed in place as the command handlers change them. */
  class Session {
    const cfg: Config
    var isTLS: bool
    var dataTLS: bool
    var sscn: bool
    var dataListen: Listener
    var activeAddr: string
    var passthruSlave: Slave
    var passthruXferIdx: int
    var pretCmd: PretCommand
    var pretArg: string
    var restOffset: nat
    var nextDataTLSClientMode: bool
    var lastDataConnActive: bool
    ghost var log: seq<Event>

    ghost function Now(): State
      reads this
    {
      State(isTLS, dataTLS, sscn, dataListen, activeAddr, passthruSlave, passthruXferIdx, pretCmd, pretArg, restOffset,
            nextDataTLSClientMode, lastDataConnActive, log)
    }

    constructor (cfg: Config)
      ensures Now() == Initial() && this.cfg == cfg
    {
      this.cfg := cfg;
      isTLS, dataTLS, sscn := false, false, false;
      dataListen, activeAddr, passthruSlave, passthruXferIdx := Closed, "", NoSlave, 0;
      pretCmd, pretArg, restOffset := NoPret, "", 0;
      nextDataTLSClientMode, lastDataConnActive := false, false;
      log := [];
    }

    method AbortPendingPassthroughSetup()
      modifies this`log
      ensures Now() == AbortPending(old(Now()))
    {
      if passthruXferIdx == 0 || passthruSlave.NoSlave? || Blank(passthruSlave.name) {
        return;
      }
      log := log + [Aborted(passthruSlave.name, passthruXferIdx)];
    }

    /** The channel and what PRET announced, dropped without a word to the slave. */
    method DropSetup()
      modifies this`dataListen, this`activeAddr, this`passthruSlave, this`passthruXferIdx, this`pretCmd, this`pretArg
      ensures dataListen.Closed? && activeAddr == "" && passthruSlave.NoSlave? && passthruXferIdx == 0
      ensures pretCmd.NoPret? && pretArg == ""
    {
      dataListen, activeAddr, passthruSlave, passthruXferIdx := Closed, "", NoSlave, 0;
      pretCmd, pretArg := NoPret, "";
    }

    method ClearPreparedTransferState()
      modifies this
      ensures Now() == ClearPrepared(old(Now()))
    {
      hide AbortPending;
      AbortPendingPassthroughSetup();
      DropSetup();
      restOffset, nextDataTLSClientMode := 0, false;
    }

    method ClearPassiveTransferSetup()
      modifies this
      ensures Now() == ClearPassive(old(Now()))
    {
      hide AbortPending;
      AbortPendingPassthroughSetup();
      dataListen, passthruSlave, passthruXferIdx, nextDataTLSClientMode := Closed, NoSlave, 0, false;
    }

    /** Accepts on the listener or dials the PORT address; either is used up. */
    method GetRawDataConn(connectOk: bool) returns (ok: bool)
      modifies this
      ensures Now() == AfterRaw(old(Now())) && ok == RawConnects(old(Now()), connectOk)
    {
      if dataListen.Open? {
        dataListen, lastDataConnActive := Closed, false;
        return connectOk;
      }
      if activeAddr != "" {
        activeAddr, lastDataConnActive := "", true;
        return connectOk;
      }
      lastDataConnActive := false;
      return false;
    }

    method UpgradeDataTLS()
      modifies this
      ensures Now() == Upgrade(old(Now()))
    {
      var client := (lastDataConnActive && sscn) || (!lastDataConnActive && nextDataTLSClientMode);
      log := log + [Proxied(Plan(client, dataTLS))];
      if dataTLS {
        nextDataTLSClientMode := false;
      }
    }

    method HandlePret(valid: bool, cmd: PretCommand, target: string)
      modifies this
      ensures Now() == Apply(cfg, old(Now()), Pret(valid, cmd, target))
    {
      ClearPreparedTransferState();
      if valid {
        pretCmd, pretArg := cmd, target;
      }
    }

    method PrepareSlave(name: string, client: bool, idx: int)
      modifies this`dataListen, this`passthruSlave, this`passthruXferIdx, this`log
      ensures Now() == Log(old(Now()).(slave := Slave(name, Plan(client, dataTLS)), idx := idx, listen := Closed), Prepared(name, idx))
    {
      passthruSlave, passthruXferIdx := Slave(name, Plan(client, dataTLS)), idx;
      log := log + [Prepared(name, idx)];
      dataListen := Closed;
    }

    method HandlePasv(listenOk: bool, ipOk: bool, name: string, idx: int)
      modifies this
      ensures Now() == Apply(cfg, old(Now()), Pasv(listenOk, ipOk, name, idx))
    {
      hide ClearPrepared, ClearPassive, ApplyTransfer, ApplyListing, Log;
      activeAddr := "";
      if cfg.master && pretCmd.NoPret? {
        ClearPreparedTransferState();
        return;
      }
      if !listenOk {
        return;
      }
      if cfg.master && cfg.passthrough && (pretCmd.PretStor? || pretCmd.PretRetr?) {
        PrepareSlave(name, false, idx);
        if !ipOk {
          ClearPassiveTransferSetup();
        }
        return;
      }
      dataListen, passthruSlave, passthruXferIdx, nextDataTLSClientMode := Open(ByPasv), NoSlave, 0, false;
      if !ipOk {
        dataListen := Closed;
      }
    }

    method HandleCpsv(listenOk: bool, ipOk: bool, name: string, idx: int)
      modifies this
      ensures Now() == Apply(cfg, old(Now()), Cpsv(listenOk, ipOk, name, idx))
    {
      hide ClearPrepared, ClearPassive, ApplyTransfer, ApplyListing, Log;
      activeAddr := "";
      if !isTLS || !dataTLS {
        return;
      }
      if cfg.master && pretCmd.NoPret? {
        ClearPreparedTransferState();
        return;
      }
      if !listenOk {
        return;
      }
      if cfg.master && cfg.passthrough {
        PrepareSlave(name, true, idx);
        if !ipOk {
          ClearPassiveTransferSetup();
        }
        return;
      }
      dataListen, passthruSlave, nextDataTLSClientMode := Open(ByCpsv), NoSlave, true;
      if !ipOk {
        dataListen := Closed;
      }
    }

    method HandlePort(valid: bool, addr: string)
      modifies this
      ensures Now() == Apply(cfg, old(Now()), Port(valid, addr))
    {
      ClearPassiveTransferSetup();
      if valid {
        activeAddr := addr;
      }
    }

    method HandleListing(checksOk: bool, connectOk: bool)
      modifies this
      ensures Now() == Apply(cfg, old(Now()), Listing(checksOk, connectOk))
    {
      if (dataListen.Open? || activeAddr != "") && checksOk {
        Proxy(connectOk);
      }
      ClearPreparedTransferState();
    }

    method ConnectSlaveToClient()
      modifies this`log, this`activeAddr
      ensures Now() == Log(old(Now()).(activeAddr := ""), SlaveDials(old(activeAddr), Plan(sscn, dataTLS)))
    {
      log := log + [SlaveDials(activeAddr, Plan(sscn, dataTLS))];
      activeAddr := "";
    }

    method HandOver()
      requires passthruSlave.Slave?
      modifies this`log, this`passthruSlave, this`pretCmd, this`pretArg
      ensures Now() == Log(old(Now()).(slave := NoSlave, pretCmd := NoPret, pretArg := ""),
                           HandedOver(old(passthruSlave.name), passthruXferIdx, old(passthruSlave.plan)))
    {
      log := log + [HandedOver(passthruSlave.name, passthruXferIdx, passthruSlave.plan)];
      passthruSlave, pretCmd, pretArg := NoSlave, NoPret, "";
    }

    method Proxy(connectOk: bool)
      modifies this
      ensures Now() == if RawConnects(old(Now()), connectOk) then Upgrade(AfterRaw(old(Now()))) else AfterRaw(old(Now()))
    {
      var ok := GetRawDataConn(connectOk);
      if ok {
        UpgradeDataTLS();
      }
    }

    /** STOR asks for a raw connection even when a slave is prepared. */
    method OpenForStor(connectOk: bool)
      requires ChannelsSet(Now()) > 0
      modifies this
      ensures Now() == ApplyTransfer(cfg, old(Now()), true, true, connectOk)
    {
      hide AfterRaw, Upgrade, RawConnects, Log;
      if cfg.passthrough && cfg.master && activeAddr != "" && passthruSlave.NoSlave? {
        ConnectSlaveToClient();
        return;
      }
      var ok := GetRawDataConn(connectOk);
      if cfg.master && cfg.passthrough && passthruSlave.Slave? {
        HandOver();
      } else if ok {
        UpgradeDataTLS();
      }
    }

    method OpenForRetr(connectOk: bool)
      requires ChannelsSet(Now()) > 0
      modifies this
      ensures Now() == ApplyTransfer(cfg, old(Now()), false, true, connectOk)
    {
      hide AfterRaw, Upgrade, RawConnects, Log;
      if cfg.master && cfg.passthrough && activeAddr != "" && passthruSlave.NoSlave? {
        ConnectSlaveToClient();
      } else if cfg.master && cfg.passthrough && passthruSlave.Slave? {
        HandOver();
      } else {
        Proxy(connectOk);
      }
    }

    /** The deferred clear runs on every path. */
    method HandleStor(checksOk: bool, connectOk: bool)
      modifies this
      ensures Now() == Apply(cfg, old(Now()), Stor(checksOk, connectOk))
    {
      hide ClearPrepared;
      if (dataListen.Open? || activeAddr != "" || passthruSlave.Slave?) && checksOk {
        OpenForStor(connectOk);
      }
      ClearPreparedTransferState();
    }

    method HandleRetr(checksOk: bool, connectOk: bool)
      modifies this
      ensures Now() == Apply(cfg, old(Now()), Retr(checksOk, connectOk))
    {
      hide ClearPrepared;
      if (dataListen.Open? || activeAddr != "" || passthruSlave.Slave?) && checksOk {
        OpenForRetr(connectOk);
      }
      ClearPreparedTransferState();
    }

    /** ABOR between transfers drops the set-up without telling a prepared slave. */
    method AbortCurrentTransfer()
      modifies this
      ensures Now() == Apply(cfg, old(Now()), Abor)
    {
      hide ApplyPassive, ApplyTransfer, ApplyListing, ClearPrepared, ClearPassive;
      DropSetup();
    }
  }
}
