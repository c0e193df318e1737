/** Rules, and the order in which an action's rules are consulted. */
module AclEngine {
  import opened Options
  import opened Text
  import opened TextLists
  import opened TextOrder
  import opened Paths
  import opened AclRequirement
  import opened AclPatterns

  datatype Rule = Rule(path: string, required: string, requirement: Option<Requirement>)

  type Rules = map<string, seq<Rule>>

  /** prepareRule: trim, default to everyone, parse. */
  function Prepare(rule: Rule): Rule {
    var required := if TrimSpace(rule.required) == "" then "*" else TrimSpace(rule.required);
    Rule(TrimSpace(rule.path), required,
         if rule.requirement.Some? then rule.requirement else Some(Parse(required)))
  }

  function Allows(rule: Rule, u: User): bool {
    match rule.requirement
    case Some(req) => Check(req, u)
    case None => Check(Parse(rule.required), u)
  }

  /** ruleTypeForAction. */
  function RuleType(action: string): string {
    if action == "mkd" || action == "rmd" then "makedir"
    else if action == "delete" || action == "dele" then "delete"
    else if action == "rnfr" || action == "rnto" then "rename"
    else action
  }

  function RulesOf(rules: Rules, kind: string): seq<Rule> {
    if kind in rules then rules[kind] else []
  }

  function FirstMatch(rules: seq<Rule>, path: string, glob: Glob): Option<Rule> {
    if rules == [] then None
    else if RuleMatches(rules[0].path, path, glob) then Some(rules[0])
    else FirstMatch(rules[1..], path, glob)
  }

  function Normalize(path: string): string {
    Clean(Raw(path))
  }

  /** Engine.CanPerform: private paths first, then the action, then flag 1. */
  predicate CanPerform(rules: Rules, u: User, action: string, path: string, glob: Glob) {
    var p := Normalize(path);
    var private := FirstMatch(RulesOf(rules, "privpath"), p, glob);
    var rule := FirstMatch(RulesOf(rules, RuleType(LowerAll(action))), p, glob);
    && u.User?
    && if private.Some? then Allows(private.value, u)
       else if rule.Some? then Allows(rule.value, u)
       else HasFlag(u, "1")
  }

  class Engine {
    const rules: Rules
    const glob: Glob
    const cache: RequirementCache

    constructor (rules: Rules, glob: Glob)
      ensures this.rules == rules && this.glob == glob && cache.Valid() && fresh(cache)
    {
      this.rules := rules;
      this.glob := glob;
      cache := new RequirementCache();
    }

    method RuleAllows(rule: Rule, u: User) returns (allowed: bool)
      requires cache.Valid()
      modifies cache
      ensures cache.Valid() && allowed == Allows(rule, u)
    {
      match rule.requirement {
        case Some(req) => allowed := Check(req, u);
        case None => allowed := cache.CheckRequired(rule.required, u);
      }
    }

    method FindRule(kind: string, path: string) returns (rule: Option<Rule>)
      ensures rule == FirstMatch(RulesOf(rules, kind), path, glob)
    {
      var all := RulesOf(rules, kind);
      var i := 0;
      while i < |all|
        invariant 0 <= i <= |all|
        invariant FirstMatch(all, path, glob) == FirstMatch(all[i..], path, glob)
      {
        var matches := RuleMatchesPath(all[i].path, path, glob);
        if matches {
          return Some(all[i]);
        }
        i := i + 1;
      }
      rule := None;
    }

    method Decide(u: User, action: string, path: string) returns (allowed: bool)
      requires cache.Valid()
      modifies cache
      ensures cache.Valid() && allowed == CanPerform(rules, u, action, path, glob)
    {
      if u.Nobody? {
        return false;
      }
      var p := Normalize(path);
      var rule := FindRule("privpath", p);
      if rule.None? {
        rule := FindRule(RuleType(LowerAll(action)), p);
      }
      if rule.Some? {
        allowed := RuleAllows(rule.value, u);
      } else {
        allowed := HasFlag(u, "1");
      }
    }
  }

  // ---------- Which rule decides ----------

  /** The rules that speak for an action, whatever the case of its letters. */
  predicate Governs(kind: string, action: string) {
    var a := LowerAll(action);
    if a == "mkd" || a == "rmd" then kind == "makedir"
    else if a == "dele" then kind == "delete"
    else if a == "rnfr" || a == "rnto" then kind == "rename"
    else kind == a
  }

  /** Rule i is the first of the list that covers the path; i == |rules| if none does. */
  predicate FirstAt(rules: seq<Rule>, i: nat, path: string, glob: Glob) {
    && i <= |rules|
    && (forall k :: 0 <= k < i ==> !RuleMatches(rules[k].path, path, glob))
    && (i < |rules| ==> RuleMatches(rules[i].path, path, glob))
  }

  lemma {:induction false} FirstIsMatch(rules: seq<Rule>, i: nat, path: string, glob: Glob)
    requires FirstAt(rules, i, path, glob)
    ensures FirstMatch(rules, path, glob) == if i < |rules| then Some(rules[i]) else None
  {
    hide RuleMatches;
    if i > 0 {
      assert forall k :: 0 <= k < i - 1 ==> rules[1..][k] == rules[k + 1];
      FirstIsMatch(rules[1..], i - 1, path, glob);
    }
  }

  /** What a rule asks for: its requirement, or the one its text spells. */
  function Asks(rule: Rule): Requirement {
    if rule.requirement.Some? then rule.requirement.value else Parse(rule.required)
  }

  /** The first private rule that covers the path decides; failing that the first rule of the
      action's kind; failing that whether the user carries flag 1. */
  lemma FirstRuleDecides(rules: Rules, kind: string, u: User, action: string, path: string, glob: Glob, i: nat, j: nat)
    requires Governs(kind, action)
    requires FirstAt(RulesOf(rules, "privpath"), i, Normalize(path), glob)
    requires FirstAt(RulesOf(rules, kind), j, Normalize(path), glob)
    ensures var private, own := RulesOf(rules, "privpath"), RulesOf(rules, kind);
            CanPerform(rules, u, action, path, glob)
            <==> u.User? && if i < |private| then Check(Asks(private[i]), u)
                            else if j < |own| then Check(Asks(own[j]), u)
                            else '1' in u.flags
  {
    FirstIsMatch(RulesOf(rules, "privpath"), i, Normalize(path), glob);
    FirstIsMatch(RulesOf(rules, kind), j, Normalize(path), glob);
    GovernsIsType(kind, action);
    FlagOne(u);
    hide FirstMatch, FirstAt, Normalize, Check, LowerAll, RuleType, Governs, Parse, HasFlag, RulesOf, RuleMatches;
  }

  lemma GovernsIsType(kind: string, action: string)
    requires Governs(kind, action)
    ensures kind == RuleType(LowerAll(action))
  {
    hide LowerAll;
  }

  lemma FlagOne(u: User)
    ensures u.User? ==> (HasFlag(u, "1") <==> '1' in u.flags)
  {
    if u.User? {
      OneLetter(u.flags, '1');
      hide Contains;
    }
  }

  lemma OneLetter(flags: string, c: char)
    ensures Contains(flags, [c]) <==> c in flags
  {
    if c in flags {
      var i: nat :| i < |flags| && flags[i] == c;
      assert OccursAt(flags, [c], i);
    }
    if i: nat :| i <= |flags| && OccursAt(flags, [c], i) {
      assert flags[i..i + 1][0] == c;
    }
  }

  // ---------- Text and structure are interchangeable ----------

  /** The same rule with its requirement written as text. */
  predicate SameRule(a: Rule, b: Rule) {
    a.path == b.path &&
    (|| a == b
     || (a.requirement.Some? && Legacy(a.requirement.value)
         && b.required == LegacyText(a.requirement.value) && b.requirement.None?))
  }

  predicate SameList(a: seq<Rule>, b: seq<Rule>) {
    |a| == |b| && forall i :: 0 <= i < |a| ==> SameRule(a[i], b[i])
  }

  ghost predicate SameRules(a: Rules, b: Rules) {
    forall kind: string :: SameList(RulesOf(a, kind), RulesOf(b, kind))
  }

  lemma {:induction false} SameFirst(a: seq<Rule>, b: seq<Rule>, path: string, glob: Glob)
    requires SameList(a, b)
    ensures var x, y := FirstMatch(a, path, glob), FirstMatch(b, path, glob);
            x.Some? == y.Some? && (x.Some? ==> SameRule(x.value, y.value))
  {
    if a != [] {
      assert SameRule(a[0], b[0]);
      assert forall i :: 0 <= i < |a| - 1 ==> SameRule(a[1..][i], b[1..][i]);
      SameFirst(a[1..], b[1..], path, glob);
    }
  }

  lemma SameAllows(a: Rule, b: Rule, u: User)
    requires SameRule(a, b)
    ensures Allows(a, u) == Allows(b, u)
  {
    if a != b {
      SameDecision(a.requirement.value, u);
    }
  }

  /** Writing any of the legacy requirements of a rule file as text changes no decision. */
  lemma TextChangesNothing(a: Rules, b: Rules, u: User, action: string, path: string, glob: Glob)
    requires SameRules(a, b)
    ensures CanPerform(a, u, action, path, glob) == CanPerform(b, u, action, path, glob)
  {
    hide Allows, SameList, FirstMatch, SameRule;
    var p := Normalize(path);
    var kind := RuleType(LowerAll(action));
    SameFirst(RulesOf(a, "privpath"), RulesOf(b, "privpath"), p, glob);
    SameFirst(RulesOf(a, kind), RulesOf(b, kind), p, glob);
    var x := FirstMatch(RulesOf(a, "privpath"), p, glob);
    var y := FirstMatch(RulesOf(a, kind), p, glob);
    if x.Some? {
      SameAllows(x.value, FirstMatch(RulesOf(b, "privpath"), p, glob).value, u);
    }
    if y.Some? {
      SameAllows(y.value, FirstMatch(RulesOf(b, kind), p, glob).value, u);
    }
  }

  lemma ExpandTrims(pattern: string)
    ensures Expand(TrimSpace(pattern)) == Expand(pattern)
  {
    TrimTwice(pattern);
    TrimBraces(pattern);
    var p := TrimSpace(pattern);
    if FirstGroup(p).Group? {
      var g := FirstGroup(p);
      GroupBounded(p);
      BoundIsFree(g.prefix, g.parts, g.suffix, Braces(pattern), Braces(p));
    }
  }

  lemma {:induction false} BoundIsFree(prefix: string, parts: seq<string>, suffix: string, m: nat, n: nat)
    requires Bounded(prefix, parts, suffix, m) && Bounded(prefix, parts, suffix, n)
    ensures ExpandParts(prefix, parts, suffix, m) == ExpandParts(prefix, parts, suffix, n)
    decreases |parts|
  {
    if parts != [] {
      BoundIsFree(prefix, parts[1..], suffix, m, n);
    }
  }

  /** Preparing a rule at load time changes neither what it covers nor whom it admits; afterwards
      it has a requirement and a text. */
  lemma PrepareKeeps(rule: Rule, u: User, path: string, glob: Glob)
    ensures Prepare(rule).requirement.Some? && Prepare(rule).required != ""
    ensures RuleMatches(Prepare(rule).path, path, glob) == RuleMatches(rule.path, path, glob)
    ensures Allows(Prepare(rule), u) == Allows(rule, u)
  {
    ExpandTrims(rule.path);
    TrimTwice(rule.required);
    if TrimSpace(rule.required) == "" && rule.requirement.None? {
      assert TrimSpace("*") == "*";
      assert Parse("*") == EMPTY.(anyone := true) && Parse(rule.required) == EMPTY;
    }
  }

  // ---------- Private paths come first ----------

  /** Once a private rule covers the path, no other rule type is consulted. */
  lemma PrivateDecides(a: Rules, b: Rules, u: User, action: string, path: string, glob: Glob)
    requires RulesOf(a, "privpath") == RulesOf(b, "privpath")
    requires FirstMatch(RulesOf(a, "privpath"), Normalize(path), glob).Some?
    ensures CanPerform(a, u, action, path, glob) == CanPerform(b, u, action, path, glob)
  {
  }

  /** The order the documentation gives: action rules first, private paths after. */
  predicate DocumentedCanPerform(rules: Rules, u: User, action: string, path: string, glob: Glob) {
    var p := Normalize(path);
    var private := FirstMatch(RulesOf(rules, "privpath"), p, glob);
    var rule := FirstMatch(RulesOf(rules, RuleType(LowerAll(action))), p, glob);
    && u.User?
    && if rule.Some? then Allows(rule.value, u)
       else if private.Some? then Allows(private.value, u)
       else HasFlag(u, "1")
  }

  /** The code departs from the documented order exactly when both kinds of rule cover the path
      and disagree about the user. */
  lemma DocumentedOrderDiffers(rules: Rules, u: User, action: string, path: string, glob: Glob)
    ensures var p := Normalize(path);
            var private := FirstMatch(RulesOf(rules, "privpath"), p, glob);
            var rule := FirstMatch(RulesOf(rules, RuleType(LowerAll(action))), p, glob);
            CanPerform(rules, u, action, path, glob) == DocumentedCanPerform(rules, u, action, path, glob)
            <==> (u.User? && private.Some? && rule.Some? ==> Allows(private.value, u) == Allows(rule.value, u))
  {
  }

  lemma CleanRoot()
    ensures TrimSpace("/") == "/" && Raw("/") == "/" && Clean("/") == "/"
  {
  }

  lemma RootExpands()
    ensures Expand("/") == ["/"]
  {
    CleanRoot();
    IndexNone("/", '{');
  }

  lemma RootCompiles()
    ensures CompileOne("/") == Some(Compiled("/", "/", true))
  {
    CleanRoot();
    hide Clean, Raw, TrimSpace;
  }

  lemma RootIsBelow(glob: Glob)
    ensures Covered(Compiled("/", "/", true), "/", glob)
  {
    assert TrimSlashes("/") == "" by { assert "/"[..0] == ""; }
    assert "" + "/" == "/";
    assert Below("/", "/");
    hide MatchCompiled, Below;
  }

  lemma RootRule(glob: Glob)
    ensures Clean(Raw("/")) == "/" && RuleMatches("/", "/", glob)
  {
    hide *;
    var c := Compiled("/", "/", true);
    CleanRoot();
    RootExpands();
    RootCompiles();
    RootIsBelow(glob);
    SingleCompiled("/", c);
    assert c in [c];
    SomeCovers("/", [c], c, "/", glob);
  }

  lemma SingleCompiled(p: string, c: Compiled)
    requires CompileOne(p) == Some(c)
    ensures CompileAll([p], {}) == [c]
  {
    assert [p][1..] == [];
  }

  lemma SomeCovers(pattern: string, out: seq<Compiled>, c: Compiled, path: string, glob: Glob)
    requires out == CompileAll(Expand(pattern), {}) && c in out && Covered(c, path, glob)
    ensures RuleMatches(pattern, path, glob)
  {
    hide Expand, CompileAll, Covered;
  }

  /** For instance: everyone may do it anywhere, but the root is private to one group. */
  lemma PrivateRefuses(action: string, kind: string, glob: Glob)
    requires kind == RuleType(LowerAll(action)) && kind != "privpath"
    ensures var everyone := Rule("/", "", Some(EMPTY.(anyone := true)));
            var team := Rule("/", "", Some(EMPTY.(anyGroups := ["TEAM"])));
            var rules := map[kind := [everyone], "privpath" := [team]];
            var u := User("bob", "", "", {});
            !CanPerform(rules, u, action, "/", glob) && DocumentedCanPerform(rules, u, action, "/", glob)
  {
    var everyone := Rule("/", "", Some(EMPTY.(anyone := true)));
    var team := Rule("/", "", Some(EMPTY.(anyGroups := ["TEAM"])));
    var u := User("bob", "", "", {});
    hide RuleMatches, Normalize, Allows, LowerAll, FirstMatch, RuleType;
    TeamOnly(everyone, team, u);
    RootFirst(everyone, glob);
    RootFirst(team, glob);
  }

  lemma RootFirst(rule: Rule, glob: Glob)
    requires rule.path == "/"
    ensures FirstMatch([rule], Normalize("/"), glob) == Some(rule)
  {
    RootRule(glob);
    hide RuleMatches, Clean, Raw;
  }

  lemma TeamOnly(everyone: Rule, team: Rule, u: User)
    requires everyone.requirement == Some(EMPTY.(anyone := true))
    requires team.requirement == Some(EMPTY.(anyGroups := ["TEAM"]))
    requires u == User("bob", "", "", {})
    ensures Allows(everyone, u) && !Allows(team, u)
  {
    assert !IsInGroup(u, "TEAM");
  }
}
