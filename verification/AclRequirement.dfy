/** ACL requirements: the structured form, its legacy text, the token parser, the cache of
    parsed texts, and the decision. */
module AclRequirement {
  import opened Text
  import opened TextLists
  import opened TextOrder

  datatype Requirement = Requirement(
    roleRef: string,
    anyone: bool,
    nobody: bool,
    allFlags: seq<string>,
    anyFlags: seq<string>,
    notFlags: seq<string>,
    allGroups: seq<string>,
    anyGroups: seq<string>,
    notGroups: seq<string>,
    users: seq<string>,
    notUsers: seq<string>,
    anyOf: seq<Requirement>,
    allOf: seq<Requirement>)

  const EMPTY: Requirement := Requirement("", false, false, [], [], [], [], [], [], [], [], [], [])

  datatype User = Nobody | User(name: string, flags: string, primaryGroup: string, groups: set<string>)

  // ---------- The decision ----------

  /** strings.EqualFold on ASCII. */
  predicate EqualFold(a: string, b: string) {
    |a| == |b| && forall i :: 0 <= i < |a| ==> Lower(a[i]) == Lower(b[i])
  }

  predicate OccursAt(s: string, sub: string, i: nat) {
    i + |sub| <= |s| && s[i..i + |sub|] == sub
  }

  predicate Contains(s: string, sub: string) {
    exists i: nat | i <= |s| :: OccursAt(s, sub, i)
  }

  predicate HasFlag(u: User, flag: string)
    requires u.User?
  {
    Contains(u.flags, flag)
  }

  predicate IsInGroup(u: User, group: string)
    requires u.User?
  {
    u.primaryGroup == group || group in u.groups
  }

  predicate Check(req: Requirement, u: User) {
    && !req.nobody
    && u.User?
    && (forall f | f in req.notFlags :: !HasFlag(u, f))
    && (forall g | g in req.notGroups :: !IsInGroup(u, g))
    && (forall n | n in req.notUsers :: !EqualFold(u.name, n))
    && (forall f | f in req.allFlags :: f == "" || HasFlag(u, f))
    && (req.anyFlags == [] || exists f | f in req.anyFlags :: HasFlag(u, f))
    && (forall g | g in req.allGroups :: IsInGroup(u, g))
    && (req.anyGroups == [] || exists g | g in req.anyGroups :: IsInGroup(u, g))
    && (req.users == [] || exists n | n in req.users :: EqualFold(u.name, n))
    && (forall r | r in req.allOf :: Check(r, u))
    && (req.anyOf == [] || exists r | r in req.anyOf :: Check(r, u))
  }

  // ---------- Printing ----------

  datatype Kind = AllFlag | NotFlag | AnyGroup | NotGroup | UserName | NotUser

  function Prefix(k: Kind): string {
    match k
    case AllFlag => ""
    case NotFlag => "!"
    case AnyGroup => "="
    case NotGroup => "!="
    case UserName => "@"
    case NotUser => "!@"
  }

  function Printed(k: Kind, names: seq<string>): (r: seq<string>)
    ensures |r| == |names| && forall i :: 0 <= i < |names| ==> r[i] == Prefix(k) + names[i]
  {
    seq(|names|, i requires 0 <= i < |names| => Prefix(k) + names[i])
  }

  function Braced(open: string, names: seq<string>): (r: seq<string>)
    ensures |r| == |names|
  {
    seq(|names|, i requires 0 <= i < |names| => open + names[i] + "}")
  }

  function Tokens(req: Requirement): seq<string> {
    (if req.anyone then ["*"] else [])
    + req.allFlags
    + Braced("{anyflag:", req.anyFlags)
    + Printed(NotFlag, req.notFlags)
    + Braced("{allgroup:", req.allGroups)
    + Printed(AnyGroup, req.anyGroups)
    + Printed(NotGroup, req.notGroups)
    + Printed(UserName, req.users)
    + Printed(NotUser, req.notUsers)
    + (if req.anyOf != [] || req.allOf != [] then ["{structured}"] else [])
  }

  function LegacyText(req: Requirement): string {
    if req.nobody then "!*"
    else if Tokens(req) == [] then "*"
    else Join(Tokens(req), " ")
  }

  // ---------- Parsing ----------

  function After(token: string, n: nat): string
    requires n <= |token|
  {
    TrimSpace(token[n..])
  }

  function AddToken(req: Requirement, token: string): Requirement {
    if token == "*" then req.(anyone := true)
    else if token == "!*" then req.(nobody := true)
    else if "!@" <= token then
      if After(token, 2) != "" then req.(notUsers := req.notUsers + [After(token, 2)]) else req
    else if "!=" <= token then
      if After(token, 2) != "" then req.(notGroups := req.notGroups + [After(token, 2)]) else req
    else if "!" <= token then
      if After(token, 1) != "" then req.(notFlags := req.notFlags + [After(token, 1)]) else req
    else if "@" <= token then
      if After(token, 1) != "" then req.(users := req.users + [After(token, 1)]) else req
    else if "=" <= token then
      if After(token, 1) != "" then req.(anyGroups := req.anyGroups + [After(token, 1)]) else req
    else req.(allFlags := req.allFlags + [token])
  }

  function AddTokens(req: Requirement, tokens: seq<string>): Requirement
    decreases |tokens|
  {
    if tokens == [] then req else AddTokens(AddToken(req, tokens[0]), tokens[1..])
  }

  /** parseRequirementScalar into an empty requirement. */
  function Parse(text: string): Requirement {
    var t := TrimSpace(text);
    if t == "" then EMPTY
    else if t == "*" then EMPTY.(anyone := true)
    else if t == "!*" then EMPTY.(nobody := true)
    else AddTokens(EMPTY, Fields(t))
  }

  method ParseRequirementScalar(text: string) returns (req: Requirement)
    ensures req == Parse(text)
  {
    req := EMPTY;
    var t := TrimSpace(text);
    if t == "" {
      return;
    }
    if t == "*" {
      return req.(anyone := true);
    }
    if t == "!*" {
      return req.(nobody := true);
    }
    var tokens := Fields(t);
    var i := 0;
    while i < |tokens|
      invariant 0 <= i <= |tokens|
      invariant AddTokens(req, tokens[i..]) == AddTokens(EMPTY, tokens)
    {
      req := AddToken(req, tokens[i]);
      i := i + 1;
    }
  }

  // ---------- The legacy fragment ----------

  predicate PlainFlag(f: string) {
    Word(f) && f[0] != '!' && f[0] != '@' && f[0] != '=' && f != "*"
  }

  predicate PlainNotFlag(f: string) {
    Word(f) && f[0] != '@' && f[0] != '=' && f != "*"
  }

  /** Names that survive as tokens, and no construct the text form cannot express. */
  predicate Legacy(req: Requirement) {
    && req.roleRef == "" && req.anyFlags == [] && req.allGroups == [] && req.anyOf == [] && req.allOf == []
    && (forall f | f in req.allFlags :: PlainFlag(f))
    && (forall f | f in req.notFlags :: PlainNotFlag(f))
    && (forall x | x in req.anyGroups + req.notGroups + req.users + req.notUsers :: Word(x))
  }

  lemma {:induction false} AddTokensConcat(req: Requirement, a: seq<string>, b: seq<string>)
    ensures AddTokens(req, a + b) == AddTokens(AddTokens(req, a), b)
    decreases |a|
  {
    if a == [] {
      assert a + b == b;
    } else {
      assert (a + b)[1..] == a[1..] + b;
      AddTokensConcat(AddToken(req, a[0]), a[1..], b);
    }
  }

  predicate Fits(k: Kind, x: string) {
    match k
    case AllFlag => PlainFlag(x)
    case NotFlag => PlainNotFlag(x)
    case _ => Word(x)
  }

  /** The requirement with names appended to one of its lists. */
  function With(req: Requirement, k: Kind, names: seq<string>): Requirement {
    match k
    case AllFlag => req.(allFlags := req.allFlags + names)
    case NotFlag => req.(notFlags := req.notFlags + names)
    case AnyGroup => req.(anyGroups := req.anyGroups + names)
    case NotGroup => req.(notGroups := req.notGroups + names)
    case UserName => req.(users := req.users + names)
    case NotUser => req.(notUsers := req.notUsers + names)
  }

  /** A printed name is read back into the list it came from. */
  lemma TokenGoesHome(req: Requirement, k: Kind, x: string)
    requires Fits(k, x)
    ensures AddToken(req, Prefix(k) + x) == With(req, k, [x])
    ensures Word(Prefix(k) + x)
  {
    var token := Prefix(k) + x;
    assert token[|Prefix(k)|..] == x;
    TrimIdentity(x);
    match k {
      case AllFlag => assert token == x;
      case NotFlag =>
        assert token[0] == '!' && token[1] == x[0] && "!" <= token;
        assert token != "!*" by { assert "!*"[1..] == "*"; }
      case AnyGroup => assert token[0] == '=' && "=" <= token;
      case NotGroup => assert token[0] == '!' && token[1] == '=' && "!=" <= token;
      case UserName => assert token[0] == '@' && "@" <= token;
      case NotUser => assert token[0] == '!' && token[1] == '@' && "!@" <= token;
    }
  }

  lemma {:induction false} ListGoesHome(req: Requirement, k: Kind, names: seq<string>)
    requires AllFit(k, names)
    ensures AddTokens(req, Printed(k, names)) == With(req, k, names)
    ensures AllWords(Printed(k, names))
    decreases |names|
  {
    if names == [] {
      assert With(req, k, []) == req by { NothingAdded(req, k); }
    } else {
      hide AddToken, With;
      TokenGoesHome(req, k, names[0]);
      assert Printed(k, names)[1..] == Printed(k, names[1..]);
      ListGoesHome(With(req, k, [names[0]]), k, names[1..]);
      AddedTwice(req, k, names[0], names[1..]);
      assert [names[0]] + names[1..] == names;
      assert forall i :: 1 <= i < |names| ==> Printed(k, names)[i] == Printed(k, names[1..])[i - 1];
    }
  }

  lemma NothingAdded(req: Requirement, k: Kind)
    ensures With(req, k, []) == req
  {
  }

  lemma AddedTwice(req: Requirement, k: Kind, x: string, rest: seq<string>)
    requires [x] + rest != []
    ensures With(With(req, k, [x]), k, rest) == With(req, k, [x] + rest)
  {
    assert forall a: seq<string> :: a + [x] + rest == a + ([x] + rest);
  }

  // ---------- Printing and parsing back ----------

  /** The three early returns of the parser change nothing: the token loop alone gives the
      same requirement for every text. */
  lemma ShortcutsAgree(text: string)
    ensures Parse(text) == AddTokens(EMPTY, Fields(TrimSpace(text)))
  {
  }

  /** Printed words are read back token by token. */
  lemma ParsePrinted(tokens: seq<string>)
    requires tokens != [] && AllWords(tokens)
    ensures Parse(Join(tokens, " ")) == AddTokens(EMPTY, tokens)
  {
    hide AddTokens, Parse, Join, Fields;
    ShortcutsAgree(Join(tokens, " "));
    JoinEnds(tokens);
    TrimIdentity(Join(tokens, " "));
    FieldsJoin(tokens);
  }

  function Star(req: Requirement): seq<string> {
    if req.anyone then ["*"] else []
  }

  /** The printed tokens of a legacy requirement, list by list. */
  lemma LegacyTokens(req: Requirement)
    requires Legacy(req)
    ensures Tokens(req) == Star(req) + Printed(AllFlag, req.allFlags) + Printed(NotFlag, req.notFlags)
                           + Printed(AnyGroup, req.anyGroups) + Printed(NotGroup, req.notGroups)
                           + Printed(UserName, req.users) + Printed(NotUser, req.notUsers)
  {
    var printed := Printed(AllFlag, req.allFlags);
    forall i | 0 <= i < |printed| ensures printed[i] == req.allFlags[i] {
      assert "" + req.allFlags[i] == req.allFlags[i];
    }
    assert printed == req.allFlags;
  }

  lemma AddSeven(req: Requirement, a: seq<string>, b: seq<string>, c: seq<string>, d: seq<string>,
                 e: seq<string>, f: seq<string>, g: seq<string>)
    ensures AddTokens(req, a + b + c + d + e + f + g)
            == AddTokens(AddTokens(AddTokens(AddTokens(AddTokens(AddTokens(AddTokens(req, a), b), c), d), e), f), g)
  {
    hide AddTokens;
    AddTokensConcat(req, a, b);
    AddTokensConcat(req, a + b, c);
    AddTokensConcat(req, a + b + c, d);
    AddTokensConcat(req, a + b + c + d, e);
    AddTokensConcat(req, a + b + c + d + e, f);
    AddTokensConcat(req, a + b + c + d + e + f, g);
  }

  lemma Rebuilt(req: Requirement)
    requires Legacy(req) && !req.nobody
    ensures var start := EMPTY.(anyone := req.anyone);
            With(With(With(With(With(With(start, AllFlag, req.allFlags), NotFlag, req.notFlags),
                 AnyGroup, req.anyGroups), NotGroup, req.notGroups), UserName, req.users), NotUser, req.notUsers)
            == req
  {
  }

  predicate AllFit(k: Kind, names: seq<string>) {
    forall x | x in names :: Fits(k, x)
  }

  lemma LegacyFits(req: Requirement)
    requires Legacy(req)
    ensures AllFit(AllFlag, req.allFlags) && AllFit(NotFlag, req.notFlags) && AllFit(AnyGroup, req.anyGroups)
    ensures AllFit(NotGroup, req.notGroups) && AllFit(UserName, req.users) && AllFit(NotUser, req.notUsers)
  {
  }

  lemma StarReadBack(req: Requirement)
    ensures AddTokens(EMPTY, Star(req)) == EMPTY.(anyone := req.anyone)
  {
    assert AddTokens(EMPTY, ["*"]) == AddTokens(AddToken(EMPTY, "*"), []);
  }

  lemma TokensReadBack(req: Requirement)
    requires Legacy(req) && !req.nobody
    ensures AddTokens(EMPTY, Tokens(req)) == req
  {
    LegacyTokens(req);
    LegacyFits(req);
    Rebuilt(req);
    StarReadBack(req);
    hide *;
    AddSeven(EMPTY, Star(req), Printed(AllFlag, req.allFlags), Printed(NotFlag, req.notFlags),
             Printed(AnyGroup, req.anyGroups), Printed(NotGroup, req.notGroups),
             Printed(UserName, req.users), Printed(NotUser, req.notUsers));
    var r0 := EMPTY.(anyone := req.anyone);
    var r1 := With(r0, AllFlag, req.allFlags);
    var r2 := With(r1, NotFlag, req.notFlags);
    var r3 := With(r2, AnyGroup, req.anyGroups);
    var r4 := With(r3, NotGroup, req.notGroups);
    var r5 := With(r4, UserName, req.users);
    ListGoesHome(r0, AllFlag, req.allFlags);
    ListGoesHome(r1, NotFlag, req.notFlags);
    ListGoesHome(r2, AnyGroup, req.anyGroups);
    ListGoesHome(r3, NotGroup, req.notGroups);
    ListGoesHome(r4, UserName, req.users);
    ListGoesHome(r5, NotUser, req.notUsers);
  }

  lemma WordsConcat(a: seq<string>, b: seq<string>)
    requires AllWords(a) && AllWords(b)
    ensures AllWords(a + b)
  {
  }

  lemma TokensAreWords(req: Requirement)
    requires Legacy(req)
    ensures AllWords(Tokens(req))
  {
    var star := Star(req);
    assert AllWords(star);
    LegacyTokens(req);
    LegacyFits(req);
    hide *;
    var a := Printed(AllFlag, req.allFlags);
    var b := Printed(NotFlag, req.notFlags);
    var c := Printed(AnyGroup, req.anyGroups);
    var d := Printed(NotGroup, req.notGroups);
    var e := Printed(UserName, req.users);
    var f := Printed(NotUser, req.notUsers);
    ListGoesHome(EMPTY, AllFlag, req.allFlags);
    ListGoesHome(EMPTY, NotFlag, req.notFlags);
    ListGoesHome(EMPTY, AnyGroup, req.anyGroups);
    ListGoesHome(EMPTY, NotGroup, req.notGroups);
    ListGoesHome(EMPTY, UserName, req.users);
    ListGoesHome(EMPTY, NotUser, req.notUsers);
    WordsConcat(star, a);
    WordsConcat(star + a, b);
    WordsConcat(star + a + b, c);
    WordsConcat(star + a + b + c, d);
    WordsConcat(star + a + b + c + d, e);
    WordsConcat(star + a + b + c + d + e, f);
  }

  /** Printing a legacy requirement and parsing the text gives the same fields exactly when it
      is a bare Nobody, or is not Nobody and says something. */
  lemma RoundTrip(req: Requirement)
    requires Legacy(req)
    ensures Parse(LegacyText(req)) == req <==>
            if req.nobody then req == EMPTY.(nobody := true) else Tokens(req) != []
  {
    if !req.nobody {
      TokensReadBack(req);
      if Tokens(req) != [] {
        TokensAreWords(req);
        hide AddTokens, Tokens, Parse;
        ParsePrinted(Tokens(req));
      } else {
        assert req == EMPTY;
      }
    }
  }

  /** Whatever is lost, the decision is not: text and structure decide alike for every user. */
  lemma SameDecision(req: Requirement, u: User)
    requires Legacy(req)
    ensures Check(Parse(LegacyText(req)), u) == Check(req, u)
  {
    RoundTrip(req);
    if !req.nobody && Tokens(req) == [] {
      TokensReadBack(req);
      assert req == EMPTY;
      assert Parse("*") == EMPTY.(anyone := true);
    }
  }

  lemma {:induction false} FlagsStay(req: Requirement, tokens: seq<string>, t: string)
    requires t in req.allFlags || t in tokens
    requires t != "" && t[0] == '{'
    ensures t in AddTokens(req, tokens).allFlags
    decreases |tokens|
  {
    if tokens != [] {
      var next := AddToken(req, tokens[0]);
      assert t in req.allFlags ==> t in next.allFlags;
      assert t == tokens[0] ==> next == req.(allFlags := req.allFlags + [t]);
      FlagsStay(next, tokens[1..], t);
    }
  }

  lemma NeedsItsFirstChar(s: string, t: string)
    requires t != "" && t[0] !in s
    ensures !Contains(s, t)
  {
  }

  /** Outside the fragment the text fails closed: once any_flags, all_groups or a nested group
      has been printed, the parsed text refuses every user without a brace in the flags. */
  lemma BracesDeny(req: Requirement, u: User)
    requires !req.nobody && AllWords(Tokens(req))
    requires req.anyFlags != [] || req.allGroups != [] || req.anyOf != [] || req.allOf != []
    requires u.User? ==> '{' !in u.flags
    ensures !Check(Parse(LegacyText(req)), u)
  {
    var t := if req.anyFlags != [] then Braced("{anyflag:", req.anyFlags)[0]
             else if req.allGroups != [] then Braced("{allgroup:", req.allGroups)[0]
             else "{structured}";
    assert t in Tokens(req);
    assert t != "" && t[0] == '{';
    ParsePrinted(Tokens(req));
    FlagsStay(EMPTY, Tokens(req), t);
    if u.User? {
      NeedsItsFirstChar(u.flags, t);
    }
  }

  /** So such a text can refuse a user the structure admits. */
  lemma AnyFlagsAreLost()
    ensures var req := EMPTY.(anyFlags := ["1"]); var u := User("op", "1", "", {});
            Check(req, u) && !Check(Parse(LegacyText(req)), u)
  {
    var req := EMPTY.(anyFlags := ["1"]);
    var u := User("op", "1", "", {});
    assert OccursAt("1", "1", 0);
    assert Contains("1", "1");
    assert "1" in req.anyFlags && HasFlag(u, "1");
    assert "{anyflag:" + "1" + "}" == "{anyflag:1}";
    assert Braced("{anyflag:", ["1"]) == ["{anyflag:1}"];
    assert Tokens(req) == ["{anyflag:1}"];
    assert Word("{anyflag:1}");
    BracesDeny(req, u);
  }

  // ---------- What the decision means ----------

  /** The flag's letters stand together somewhere in the user's flags. */
  ghost predicate Carries(flags: string, flag: string) {
    exists before: string, after: string :: flags == before + flag + after
  }

  lemma OccursCarries(flags: string, flag: string, i: nat)
    requires OccursAt(flags, flag, i)
    ensures Carries(flags, flag)
  {
    assert flags == flags[..i] + flag + flags[i + |flag|..];
  }

  lemma CarriesOccurs(flags: string, flag: string, before: string, after: string)
    requires flags == before + flag + after
    ensures Contains(flags, flag)
  {
    assert flags[|before|..|before| + |flag|] == flag;
    assert OccursAt(flags, flag, |before|) && |before| <= |flags|;
  }

  lemma FlagMeans(flags: string, flag: string)
    ensures Contains(flags, flag) <==> Carries(flags, flag)
  {
    forall i: nat | OccursAt(flags, flag, i) ensures Carries(flags, flag) {
      OccursCarries(flags, flag, i);
    }
    forall before: string, after: string | flags == before + flag + after ensures Contains(flags, flag) {
      CarriesOccurs(flags, flag, before, after);
    }
  }

  /** Names are the same up to the case of their letters. */
  lemma FoldMeans(a: string, b: string)
    ensures EqualFold(a, b) <==> LowerAll(a) == LowerAll(b)
  {
    if EqualFold(a, b) {
      assert forall i :: 0 <= i < |a| ==> LowerAll(a)[i] == LowerAll(b)[i];
    } else if |a| == |b| {
      var i :| 0 <= i < |a| && Lower(a[i]) != Lower(b[i]);
      assert LowerAll(a)[i] != LowerAll(b)[i];
    }
  }

  /** u meets everything that is asked for by kind and name. */
  ghost predicate Meets(u: User, asked: (Kind, string) -> bool)
    requires u.User?
  {
    && (forall n: string :: asked(NotUser, n) ==> LowerAll(n) != LowerAll(u.name))
    && (forall g: string :: asked(NotGroup, g) ==> g != u.primaryGroup && g !in u.groups)
    && (forall f: string :: asked(NotFlag, f) ==> !Carries(u.flags, f))
    && (forall f: string :: asked(AllFlag, f) ==> Carries(u.flags, f))
    && ((exists g: string :: asked(AnyGroup, g))
        ==> (exists g: string :: asked(AnyGroup, g) && (g == u.primaryGroup || g in u.groups)))
    && ((exists n: string :: asked(UserName, n))
        ==> (exists n: string :: asked(UserName, n) && LowerAll(n) == LowerAll(u.name)))
  }

  function ListOf(req: Requirement, k: Kind): seq<string> {
    match k
    case AllFlag => req.allFlags
    case NotFlag => req.notFlags
    case AnyGroup => req.anyGroups
    case NotGroup => req.notGroups
    case UserName => req.users
    case NotUser => req.notUsers
  }

  /** A requirement that asks for nothing but what its six legacy lists hold. */
  predicate Plain(req: Requirement) {
    !req.nobody && req.anyFlags == [] && req.allGroups == [] && req.anyOf == [] && req.allOf == []
  }

  lemma PlainDecides(req: Requirement, u: User, asked: (Kind, string) -> bool)
    requires Plain(req) && u.User?
    requires forall k: Kind, x: string :: asked(k, x) <==> x in ListOf(req, k)
    ensures Check(req, u) <==> Meets(u, asked)
  {
    forall f: string ensures Contains(u.flags, f) <==> Carries(u.flags, f) {
      FlagMeans(u.flags, f);
    }
    forall n: string ensures EqualFold(u.name, n) <==> LowerAll(n) == LowerAll(u.name) {
      FoldMeans(u.name, n);
    }
    assert Carries(u.flags, "") by { assert u.flags == "" + "" + u.flags; }
    hide Contains, EqualFold, Carries, LowerAll;
    assert forall n: string :: asked(NotUser, n) <==> n in req.notUsers;
    assert forall g: string :: asked(NotGroup, g) <==> g in req.notGroups;
    assert forall f: string :: asked(NotFlag, f) <==> f in req.notFlags;
    assert forall f: string :: asked(AllFlag, f) <==> f in req.allFlags;
    assert forall g: string :: asked(AnyGroup, g) <==> g in req.anyGroups;
    assert forall n: string :: asked(UserName, n) <==> n in req.users;
    assert req.anyGroups != [] ==> req.anyGroups[0] in req.anyGroups;
    assert req.users != [] ==> req.users[0] in req.users;
  }

  /** A word says one thing: the kind its prefix stands for, and a name that does not turn the
      prefix into a longer one or the word into a star. */
  predicate Proper(k: Kind, x: string) {
    x != "" &&
    match k
    case AllFlag => x != "*" && x[0] != '!' && x[0] != '@' && x[0] != '='
    case NotFlag => x != "*" && x[0] != '@' && x[0] != '='
    case _ => true
  }

  predicate Says(words: seq<string>, k: Kind, x: string) {
    Proper(k, x) && Prefix(k) + x in words
  }

  function KindOf(word: string): Kind {
    if "!@" <= word then NotUser
    else if "!=" <= word then NotGroup
    else if "!" <= word then NotFlag
    else if "@" <= word then UserName
    else if "=" <= word then AnyGroup
    else AllFlag
  }

  function NameOf(word: string): string {
    word[|Prefix(KindOf(word))|..]
  }

  lemma RestOfWord(word: string, n: nat)
    requires Word(word) && n <= |word|
    ensures After(word, n) == word[n..]
  {
    TrimIdentity(word[n..]);
  }

  lemma WordIsRead(req: Requirement, word: string)
    requires Word(word) && word != "*" && word != "!*"
    ensures AddToken(req, word) == if NameOf(word) == "" then req else With(req, KindOf(word), [NameOf(word)])
  {
    RestOfWord(word, 1);
    if |word| >= 2 {
      RestOfWord(word, 2);
    }
    assert word[0..] == word;
    hide After, NoSpace;
  }

  lemma SpelledIsRead(k: Kind, x: string)
    requires Proper(k, x)
    ensures var word := Prefix(k) + x; word != "*" && word != "!*" && k == KindOf(word) && x == NameOf(word)
  {
    var word := Prefix(k) + x;
    assert word[|Prefix(k)|..] == x && word[|Prefix(k)|] == x[0];
    assert "!*"[1..] == "*";
    match k {
      case AllFlag => assert word == x;
      case NotFlag => assert word[0] == '!' && "!" <= word;
      case AnyGroup => assert word[0] == '=' && "=" <= word;
      case NotGroup => assert word[0] == '!' && word[1] == '=' && "!=" <= word;
      case UserName => assert word[0] == '@' && "@" <= word;
      case NotUser => assert word[0] == '!' && word[1] == '@' && "!@" <= word;
    }
  }

  lemma ReadIsSpelled(word: string)
    requires word != "*" && word != "!*" && NameOf(word) != ""
    ensures Proper(KindOf(word), NameOf(word)) && word == Prefix(KindOf(word)) + NameOf(word)
  {
  }

  lemma WithOne(req: Requirement, k: Kind, y: string, l: Kind, x: string)
    ensures x in ListOf(With(req, k, [y]), l) <==> x in ListOf(req, l) || (k == l && x == y)
  {
  }

  lemma WordAdds(req: Requirement, word: string, k: Kind, x: string)
    requires Word(word)
    ensures x in ListOf(AddToken(req, word), k) <==> x in ListOf(req, k) || (Proper(k, x) && word == Prefix(k) + x)
  {
    if Proper(k, x) {
      SpelledIsRead(k, x);
    }
    if word != "*" && word != "!*" {
      if NameOf(word) != "" {
        ReadIsSpelled(word);
      }
      WordIsRead(req, word);
      WithOne(req, KindOf(word), NameOf(word), k, x);
      hide AddToken, With, ListOf, NameOf, KindOf, Proper, Prefix;
    }
  }

  lemma {:induction false} WordsAdd(req: Requirement, words: seq<string>, k: Kind, x: string)
    requires AllWords(words)
    ensures x in ListOf(AddTokens(req, words), k) <==> x in ListOf(req, k) || Says(words, k, x)
    decreases |words|
  {
    hide AddToken, ListOf, Prefix, Proper, Word;
    if words != [] {
      assert words == [words[0]] + words[1..];
      WordAdds(req, words[0], k, x);
      WordsAdd(AddToken(req, words[0]), words[1..], k, x);
    }
  }

  /** The words fill nothing but the six lists and the two stars. */
  lemma {:induction false} WordsStayPlain(req: Requirement, words: seq<string>)
    requires Plain(req.(nobody := false))
    ensures var r := AddTokens(req, words);
            Plain(r.(nobody := false)) && (r.nobody <==> req.nobody || "!*" in words)
    decreases |words|
  {
    if words != [] {
      assert words == [words[0]] + words[1..];
      WordsStayPlain(AddToken(req, words[0]), words[1..]);
    }
  }

  /** What a legacy text grants, read off its words alone: nobody if one is "!*"; otherwise the
      users that no "!@" word names, that belong to no "!=" group, carry no "!" flag, carry every
      plain flag, belong to some "=" group if there is one, and are named by some "@" word if
      there is one. */
  lemma TextDecides(text: string, u: User)
    ensures var words := Fields(TrimSpace(text));
            Check(Parse(text), u) <==> u.User? && "!*" !in words && Meets(u, (k, x) => Says(words, k, x))
  {
    var words := Fields(TrimSpace(text));
    var req := AddTokens(EMPTY, words);
    ShortcutsAgree(text);
    WordsStayPlain(EMPTY, words);
    if u.User? && "!*" !in words {
      forall k: Kind, x: string ensures Says(words, k, x) <==> x in ListOf(req, k) {
        WordsAdd(EMPTY, words, k, x);
      }
      hide *;
      PlainDecides(req, u, (k, x) => Says(words, k, x));
    }
  }

  /** The requirement without its any_flags, all_groups and nested groups. */
  function PlainPart(req: Requirement): Requirement {
    req.(anyFlags := [], allGroups := [], anyOf := [], allOf := [])
  }

  lemma PartsDecide(req: Requirement, u: User)
    requires u.User?
    ensures Check(req, u) <==>
            && Check(PlainPart(req), u)
            && (req.anyFlags != [] ==> exists i :: 0 <= i < |req.anyFlags| && HasFlag(u, req.anyFlags[i]))
            && (forall i :: 0 <= i < |req.allGroups| ==> IsInGroup(u, req.allGroups[i]))
            && (req.anyOf != [] ==> exists i :: 0 <= i < |req.anyOf| && Check(req.anyOf[i], u))
            && (forall i :: 0 <= i < |req.allOf| ==> Check(req.allOf[i], u))
  {
    hide HasFlag, IsInGroup, EqualFold;
    assert forall f | f in req.anyFlags :: exists i :: 0 <= i < |req.anyFlags| && f == req.anyFlags[i];
    assert forall r | r in req.anyOf :: exists i :: 0 <= i < |req.anyOf| && r == req.anyOf[i];
  }

  /** What a structured requirement grants: what its six lists ask for, one of its any_flags if
      there are any, all of its all_groups, and of its nested groups all of the one kind and, if
      there are any, one of the other. */
  lemma StructureDecides(req: Requirement, u: User)
    ensures Check(req, u) <==>
            && u.User? && !req.nobody
            && Meets(u, (k, x) => x in ListOf(req, k))
            && (req.anyFlags != [] ==> exists i :: 0 <= i < |req.anyFlags| && Carries(u.flags, req.anyFlags[i]))
            && (forall i :: 0 <= i < |req.allGroups| ==>
                  req.allGroups[i] == u.primaryGroup || req.allGroups[i] in u.groups)
            && (req.anyOf != [] ==> exists i :: 0 <= i < |req.anyOf| && Check(req.anyOf[i], u))
            && (forall i :: 0 <= i < |req.allOf| ==> Check(req.allOf[i], u))
  {
    if u.User? && !req.nobody {
      PartsDecide(req, u);
      PlainDecides(PlainPart(req), u, (k, x) => x in ListOf(req, k));
      forall f: string ensures Contains(u.flags, f) <==> Carries(u.flags, f) {
        FlagMeans(u.flags, f);
      }
      hide Meets, Contains, Carries, EqualFold, Check;
    }
  }

  // ---------- The cache of parsed texts ----------

  class RequirementCache {
    var entries: map<string, Requirement>

    ghost predicate Valid()
      reads this
    {
      forall k | k in entries :: entries[k] == Parse(k)
    }

    constructor ()
      ensures Valid() && entries == map[]
    {
      entries := map[];
    }

    /** The answer never depends on what the cache holds. */
    method CheckRequired(required: string, u: User) returns (allowed: bool)
      requires Valid()
      modifies this
      ensures Valid()
      ensures allowed == Check(Parse(required), u)
      ensures entries == old(entries)[required := Parse(required)]
    {
      if required in entries {
        assert entries == entries[required := Parse(required)];
        return Check(entries[required], u);
      }
      var req := ParseRequirementScalar(required);
      entries := entries[required := req];
      allowed := Check(req, u);
    }
  }
}
