/**
 Where in Mattermost a conversation belongs.  There are three routers: the phone's, Discord's own, and the generic one
 meant to replace it.  Each compiles its rules once and then only looks things up.
 */
module Routing {
  import opened Types
  import opened Conversations
  import opened Config
  import opened PhoneNumbers
  import Rebind

  // Regular expressions are somebody else's: which patterns compile, and what they are found in.
  datatype Regex = Regex(compiles: string -> bool, finds: (string, string) -> bool)

  // A router's choice: the destination and the name of what chose it.
  datatype Choice = Choice(destination: Destination, chosenBy: string)

  datatype Defaults = Defaults(direct: Destination, group: Destination)

  function DefaultChoice(d: Defaults, isGroup: bool): Choice {
    if isGroup && d.group.kind != "" then Choice(d.group, "default (group)") else Choice(d.direct, "default (direct)")
  }

  function RuleName(name: string, i: nat): string { if name != "" then name else "rule " + Rebind.Itoa(i + 1) }

  function Lookup(ids: seq<string>): Option<set<string>> { if ids == [] then None else Some(set id | id in ids) }

  function Pattern(p: string): Option<string> { if p == "" then None else Some(p) }

  method IdSet(ids: seq<string>) returns (out: Option<set<string>>)
    ensures out == Lookup(ids)
  {
    if |ids| == 0 { return None; }
    var seen: set<string> := {};
    for i := 0 to |ids|
      invariant seen == set k | 0 <= k < i :: ids[k]
    {
      seen := seen + {ids[i]};
    }
    assert seen == set id | id in ids;
    out := Some(seen);
  }

  // ----- the phone's router -----

  datatype PhoneRule = PhoneRule(rule: Rule, name: string, ids: Option<set<string>>, phones: Option<set<string>>,
    pattern: Option<string>)

  predicate Compilable(re: Regex, r: Rule) {
    && (forall i | 0 <= i < |r.phones| :: Normalize(r.phones[i]) != "")
    && (r.namePattern != "" ==> re.compiles(r.namePattern))
  }

  function Normalized(phones: seq<string>): Option<set<string>> {
    if phones == [] then None else Some(set i | 0 <= i < |phones| :: Normalize(phones[i]))
  }

  function Compile(r: Rule, i: nat): PhoneRule {
    PhoneRule(r, RuleName(r.name, i), Lookup(r.conversationIds), Normalized(r.phones), Pattern(r.namePattern))
  }

  function CompileAll(rules: seq<Rule>): seq<PhoneRule> {
    seq(|rules|, i requires 0 <= i < |rules| => Compile(rules[i], i))
  }

  method CompilePhones(phones: seq<string>) returns (ok: bool, out: Option<set<string>>)
    ensures ok <==> forall i | 0 <= i < |phones| :: Normalize(phones[i]) != ""
    ensures ok ==> out == Normalized(phones)
  {
    if |phones| == 0 { return true, None; }
    var seen: set<string> := {};
    for i := 0 to |phones|
      invariant forall k | 0 <= k < i :: Normalize(phones[k]) != ""
      invariant seen == set k | 0 <= k < i :: Normalize(phones[k])
    {
      var normalized := NormalizePhone(phones[i]);
      if normalized == "" { return false, None; }
      seen := seen + {normalized};
    }
    assert seen == Normalized(phones).value;
    ok, out := true, Some(seen);
  }

  /** Fails on a rule that cannot be compiled rather than ignoring it. */
  method NewPhoneRouter(re: Regex, rules: seq<Rule>) returns (out: Option<seq<PhoneRule>>)
    ensures out == if forall i | 0 <= i < |rules| :: Compilable(re, rules[i]) then Some(CompileAll(rules)) else None
  {
    var compiled: seq<PhoneRule> := [];
    for i := 0 to |rules|
      invariant forall k | 0 <= k < i :: Compilable(re, rules[k])
      invariant compiled == CompileAll(rules)[..i]
    {
      var r := rules[i];
      var ids := IdSet(r.conversationIds);
      var ok, phones := CompilePhones(r.phones);
      if !ok { return None; }
      if r.namePattern != "" && !re.compiles(r.namePattern) { return None; }
      compiled := compiled + [PhoneRule(r, RuleName(r.name, i), ids, phones, Pattern(r.namePattern))];
    }
    assert compiled == CompileAll(rules);
    out := Some(compiled);
  }

  predicate KnownPhone(phones: set<string>, ps: seq<Participant>) {
    exists i :: 0 <= i < |ps| && !ps[i].isMe && Normalize(ps[i].phone) in phones
  }

  predicate Matches(re: Regex, c: PhoneRule, conv: PhoneConversation) {
    if c.rule.groupsOnly && !conv.isGroup then false
    else if c.rule.directsOnly && conv.isGroup then false
    else if c.ids.None? && c.phones.None? && c.pattern.None? then c.rule.groupsOnly || c.rule.directsOnly
    else
      || (c.ids.Some? && conv.id in c.ids.value)
      || (c.phones.Some? && KnownPhone(c.phones.value, conv.participants))
      || (c.pattern.Some? && re.finds(c.pattern.value, conv.Title()))
  }

  function RouteFrom(re: Regex, rules: seq<PhoneRule>, d: Defaults, conv: PhoneConversation): Choice {
    if rules == [] then DefaultChoice(d, conv.isGroup)
    else if Matches(re, rules[0], conv) then Choice(rules[0].rule.destination, rules[0].name)
    else RouteFrom(re, rules[1..], d, conv)
  }

  method MatchesPhones(phones: set<string>, ps: seq<Participant>) returns (found: bool)
    ensures found == KnownPhone(phones, ps)
  {
    for i := 0 to |ps|
      invariant forall k | 0 <= k < i :: ps[k].isMe || Normalize(ps[k].phone) !in phones
    {
      if ps[i].isMe { continue; }
      var normalized := NormalizePhone(ps[i].phone);
      if normalized in phones { return true; }
    }
    found := false;
  }

  method MatchesPhone(re: Regex, c: PhoneRule, conv: PhoneConversation) returns (yes: bool)
    ensures yes == Matches(re, c, conv)
  {
    if c.rule.groupsOnly && !conv.isGroup { return false; }
    if c.rule.directsOnly && conv.isGroup { return false; }
    if c.ids.None? && c.phones.None? && c.pattern.None? { return c.rule.groupsOnly || c.rule.directsOnly; }
    if c.ids.Some? && conv.id in c.ids.value { return true; }
    if c.phones.Some? {
      var found := MatchesPhones(c.phones.value, conv.participants);
      if found { return true; }
    }
    if c.pattern.Some? {
      var title := PhoneTitle(conv);
      if re.finds(c.pattern.value, title) { return true; }
    }
    yes := false;
  }

  method RoutePhone(re: Regex, rules: seq<PhoneRule>, d: Defaults, conv: PhoneConversation) returns (choice: Choice)
    ensures choice == RouteFrom(re, rules, d, conv)
  {
    assert rules[0..] == rules;
    for i := 0 to |rules|
      invariant RouteFrom(re, rules[i..], d, conv) == RouteFrom(re, rules, d, conv)
    {
      assert rules[i..][1..] == rules[i + 1..];
      var yes := MatchesPhone(re, rules[i], conv);
      if yes { return Choice(rules[i].rule.destination, rules[i].name); }
    }
    choice := DefaultChoice(d, conv.isGroup);
  }

  // ----- what a phone rule says, read off the configuration -----

  predicate HasCriteria(r: Rule) { r.conversationIds != [] || r.phones != [] || r.namePattern != "" }

  predicate ShapeHolds(r: Rule, isGroup: bool) { (r.groupsOnly ==> isGroup) && (r.directsOnly ==> !isGroup) }

  /** Somebody else in the conversation has one of the rule's numbers, punctuation aside. */
  predicate NamesSomebody(r: Rule, conv: PhoneConversation) {
    exists i, j :: 0 <= i < |conv.participants| && 0 <= j < |r.phones|
      && !conv.participants[i].isMe && Normalize(conv.participants[i].phone) == Normalize(r.phones[j])
  }

  /** The shape filters hold and, when there are identity criteria, one of them does; with neither, nothing does. */
  predicate Applies(re: Regex, r: Rule, conv: PhoneConversation) {
    && ShapeHolds(r, conv.isGroup)
    && if HasCriteria(r)
       then conv.id in r.conversationIds || NamesSomebody(r, conv)
            || (r.namePattern != "" && re.finds(r.namePattern, conv.Title()))
       else r.groupsOnly || r.directsOnly
  }

  lemma MatchesMeansApplies(re: Regex, r: Rule, i: nat, conv: PhoneConversation)
    ensures Matches(re, Compile(r, i), conv) <==> Applies(re, r, conv)
  {
    if r.phones != [] {
      var phones := Normalized(r.phones).value;
      if KnownPhone(phones, conv.participants) {
        var k :| 0 <= k < |conv.participants| && !conv.participants[k].isMe
          && Normalize(conv.participants[k].phone) in phones;
        var j :| 0 <= j < |r.phones| && Normalize(r.phones[j]) == Normalize(conv.participants[k].phone);
        assert NamesSomebody(r, conv);
      }
      if NamesSomebody(r, conv) {
        var k, j :| 0 <= k < |conv.participants| && 0 <= j < |r.phones|
          && !conv.participants[k].isMe && Normalize(conv.participants[k].phone) == Normalize(r.phones[j]);
        assert Normalize(r.phones[j]) in phones;
      }
    }
  }

  /** A direct conversation goes to the direct default, and a group to the group default if there is one. */
  predicate ByDefault(d: Defaults, isGroup: bool, choice: Choice) {
    if isGroup && d.group.kind != "" then choice.destination == d.group && choice.chosenBy == "default (group)"
    else choice.destination == d.direct && choice.chosenBy == "default (direct)"
  }

  /** The choice bears the rule's name, or its number, counted from one, when it has none. */
  ghost predicate NamedAfter(name: string, i: nat, chosenBy: string) {
    if name != "" then chosenBy == name
    else exists n: string ::
      chosenBy == "rule " + n && Rebind.Atoi(n) == i + 1 && forall k | 0 <= k < |n| :: Digit(n[k])
  }

  /** Rule `i` of those that would go to `destinations` and are called `names`. */
  ghost predicate ByRule(names: seq<string>, destinations: seq<Destination>, i: nat, choice: Choice)
    requires i < |names| == |destinations|
  {
    choice.destination == destinations[i] && NamedAfter(names[i], i, choice.chosenBy)
  }

  /** The first rule that applies decides, and the default for the shape when none does. */
  ghost predicate Decides(
      applying: seq<bool>, names: seq<string>, destinations: seq<Destination>, d: Defaults, isGroup: bool,
      choice: Choice)
    requires |applying| == |names| == |destinations|
  {
    if true in applying then
      exists i ::
        && 0 <= i < |applying| && applying[i] && (forall k | 0 <= k < i :: !applying[k])
        && ByRule(names, destinations, i, choice)
    else ByDefault(d, isGroup, choice)
  }

  lemma DefaultIsRight(d: Defaults, isGroup: bool)
    ensures ByDefault(d, isGroup, DefaultChoice(d, isGroup))
  {
  }

  lemma NameIsRight(name: string, i: nat)
    ensures NamedAfter(name, i, RuleName(name, i))
  {
    Rebind.AtoiItoa(i + 1);
  }

  lemma FirstDecides(
      applying: seq<bool>, names: seq<string>, destinations: seq<Destination>, d: Defaults, isGroup: bool, i: nat)
    requires |applying| == |names| == |destinations| && i < |applying|
    requires applying[i] && forall k | 0 <= k < i :: !applying[k]
    ensures Decides(applying, names, destinations, d, isGroup, Choice(destinations[i], RuleName(names[i], i)))
  {
    NameIsRight(names[i], i);
    assert ByRule(names, destinations, i, Choice(destinations[i], RuleName(names[i], i)));
  }

  function Applying(re: Regex, rules: seq<Rule>, conv: PhoneConversation): seq<bool> {
    seq(|rules|, i requires 0 <= i < |rules| => Applies(re, rules[i], conv))
  }

  function Names(rules: seq<Rule>): seq<string> { seq(|rules|, i requires 0 <= i < |rules| => rules[i].name) }

  function Destinations(rules: seq<Rule>): seq<Destination> {
    seq(|rules|, i requires 0 <= i < |rules| => rules[i].destination)
  }

  /** A choice among phone rules, as they are declared. */
  ghost predicate PhoneDecides(re: Regex, rules: seq<Rule>, d: Defaults, conv: PhoneConversation, choice: Choice) {
    Decides(Applying(re, rules, conv), Names(rules), Destinations(rules), d, conv.isGroup, choice)
  }

  lemma {:induction false} RoutesAsDeclared(re: Regex, rules: seq<Rule>, d: Defaults, conv: PhoneConversation, n: nat)
    requires n <= |rules| && forall k | 0 <= k < n :: !Applying(re, rules, conv)[k]
    ensures PhoneDecides(re, rules, d, conv, RouteFrom(re, CompileAll(rules)[n..], d, conv))
    decreases |rules| - n
  {
    var applying := Applying(re, rules, conv);
    if n < |rules| {
      RouteStep(re, rules, d, conv, n);
      if applying[n] {
        FirstDecides(applying, Names(rules), Destinations(rules), d, conv.isGroup, n);
      } else {
        RoutesAsDeclared(re, rules, d, conv, n + 1);
      }
    } else {
      assert CompileAll(rules)[n..] == [];
      DefaultIsRight(d, conv.isGroup);
    }
  }

  /** The compiled rule at `n` decides when the declared one applies, and is passed over when it does not. */
  lemma RouteStep(re: Regex, rules: seq<Rule>, d: Defaults, conv: PhoneConversation, n: nat)
    requires n < |rules|
    ensures var compiled := CompileAll(rules);
            RouteFrom(re, compiled[n..], d, conv)
            == if Applies(re, rules[n], conv) then Choice(rules[n].destination, RuleName(rules[n].name, n))
               else RouteFrom(re, compiled[n + 1..], d, conv)
  {
    var compiled := CompileAll(rules);
    MatchesMeansApplies(re, rules[n], n, conv);
    assert compiled[n..][0] == Compile(rules[n], n) && compiled[n..][1..] == compiled[n + 1..];
  }

  /** The compiled router refines the declarative reading of its rules. */
  lemma FirstApplicableRuleDecides(re: Regex, rules: seq<Rule>, d: Defaults, conv: PhoneConversation)
    ensures PhoneDecides(re, rules, d, conv, RouteFrom(re, CompileAll(rules), d, conv))
  {
    RoutesAsDeclared(re, rules, d, conv, 0);
    assert CompileAll(rules)[0..] == CompileAll(rules);
  }

  // A conversation made to a rule's measure.
  function Measured(r: Rule): PhoneConversation {
    PhoneConversation(if r.conversationIds != [] then r.conversationIds[0] else "", "", r.groupsOnly, 0, 0, "",
      if r.phones != [] then [Participant("", r.phones[0], "", false)] else [])
  }

  /** A rule captures nothing, under any patterns, exactly when it says nothing or asks for both shapes. */
  lemma DeadExactly(r: Rule)
    ensures (forall re, conv :: !Applies(re, r, conv)) <==>
      (r.groupsOnly && r.directsOnly)
      || (r.conversationIds == [] && r.phones == [] && r.namePattern == "" && !r.groupsOnly && !r.directsOnly)
  {
    var re := Regex(p => true, (p, t) => true);
    var conv := Measured(r);
    if r.phones != [] { assert Normalize(conv.participants[0].phone) == Normalize(r.phones[0]); }
    assert Applies(re, r, conv) ||
      (r.groupsOnly && r.directsOnly)
      || (r.conversationIds == [] && r.phones == [] && r.namePattern == "" && !r.groupsOnly && !r.directsOnly);
  }

  /** A rule is valid exactly when it can capture something, its pattern compiles and its destination is valid. */
  lemma ValidExactly(o: Outside, r: Rule)
    ensures RuleValid(o, r) <==>
      && (exists re, conv :: Applies(re, r, conv))
      && (r.namePattern == "" || o.compiles(r.namePattern)) && r.destination.Valid()
  {
    DeadExactly(r);
  }

  /** The two lists of numbers differ only by separators. */
  predicate SameDigits(a: seq<string>, b: seq<string>) {
    |a| == |b| && forall i | 0 <= i < |a| :: Stripped(a[i]) == Stripped(b[i])
  }

  function Phones(ps: seq<Participant>): seq<string> { seq(|ps|, i requires 0 <= i < |ps| => ps[i].phone) }

  /** The same conversation, the numbers in it punctuated differently. */
  predicate Repunctuated(a: PhoneConversation, b: PhoneConversation) {
    && a.(participants := b.participants) == b && SameDigits(Phones(a.participants), Phones(b.participants))
    && (forall i | 0 <= i < |a.participants| :: a.participants[i].isMe == b.participants[i].isMe)
  }

  lemma SameApplies(re: Regex, r: Rule, r': Rule, a: PhoneConversation, b: PhoneConversation)
    requires r.(phones := r'.phones) == r' && SameDigits(r.phones, r'.phones)
    requires Repunctuated(a, b) && (r.namePattern == "" || a.Title() == b.Title())
    ensures Applies(re, r, a) ==> Applies(re, r', b)
  {
    if NamesSomebody(r, a) {
      var i, j :| 0 <= i < |a.participants| && 0 <= j < |r.phones|
        && !a.participants[i].isMe && Normalize(a.participants[i].phone) == Normalize(r.phones[j]);
      assert Phones(a.participants)[i] == a.participants[i].phone
        && Phones(b.participants)[i] == b.participants[i].phone;
      SameNumber(a.participants[i].phone, b.participants[i].phone);
      SameNumber(r.phones[j], r'.phones[j]);
      assert NamesSomebody(r', b);
    }
  }

  lemma {:induction false} SameRouteFrom(
      re: Regex, rules: seq<Rule>, rules': seq<Rule>, d: Defaults, a: PhoneConversation, b: PhoneConversation, n: nat)
    requires |rules'| == |rules| && n <= |rules|
    requires forall i | 0 <= i < |rules| ::
      rules[i].(phones := rules'[i].phones) == rules'[i] && SameDigits(rules[i].phones, rules'[i].phones)
    requires Repunctuated(a, b) && (a.Title() == b.Title() || forall i | 0 <= i < |rules| :: rules[i].namePattern == "")
    ensures RouteFrom(re, CompileAll(rules)[n..], d, a) == RouteFrom(re, CompileAll(rules')[n..], d, b)
    decreases |rules| - n
  {
    var c, c' := CompileAll(rules), CompileAll(rules');
    if n < |rules| {
      MatchesMeansApplies(re, rules[n], n, a);
      MatchesMeansApplies(re, rules'[n], n, b);
      SameApplies(re, rules[n], rules'[n], a, b);
      SameAppliesBack(re, rules[n], rules'[n], a, b);
      assert c[n..][0] == Compile(rules[n], n) && c[n..][1..] == c[n + 1..];
      assert c'[n..][0] == Compile(rules'[n], n) && c'[n..][1..] == c'[n + 1..];
      SameRouteFrom(re, rules, rules', d, a, b, n + 1);
    }
  }

  lemma SameAppliesBack(re: Regex, r: Rule, r': Rule, a: PhoneConversation, b: PhoneConversation)
    requires r.(phones := r'.phones) == r' && SameDigits(r.phones, r'.phones)
    requires Repunctuated(a, b) && (r.namePattern == "" || a.Title() == b.Title())
    ensures Applies(re, r', b) ==> Applies(re, r, a)
  {
    assert |Phones(a.participants)| == |Phones(b.participants)|;
    SameApplies(re, r', r, b, a);
  }

  /**
   Punctuation in phone numbers, in the rules or in the conversation, never changes where a conversation goes, unless
   the number is what the conversation is called and a rule looks at names.
   */
  lemma PunctuationDoesNotRoute(
      re: Regex, rules: seq<Rule>, rules': seq<Rule>, d: Defaults, a: PhoneConversation, b: PhoneConversation)
    requires |rules'| == |rules|
    requires forall i | 0 <= i < |rules| ::
      rules[i].(phones := rules'[i].phones) == rules'[i] && SameDigits(rules[i].phones, rules'[i].phones)
    requires Repunctuated(a, b) && (a.Title() == b.Title() || forall i | 0 <= i < |rules| :: rules[i].namePattern == "")
    ensures RouteFrom(re, CompileAll(rules), d, a) == RouteFrom(re, CompileAll(rules'), d, b)
  {
    SameRouteFrom(re, rules, rules', d, a, b, 0);
    assert CompileAll(rules)[0..] == CompileAll(rules) && CompileAll(rules')[0..] == CompileAll(rules');
  }

  /** A conversation with somebody unnamed is called by the number, and a name pattern sees its punctuation. */
  lemma NamePatternsSeePunctuation()
    returns (re: Regex, rules: seq<Rule>, d: Defaults, a: PhoneConversation, b: PhoneConversation)
    ensures Repunctuated(a, b)
    ensures RouteFrom(re, CompileAll(rules), d, a) != RouteFrom(re, CompileAll(rules), d, b)
  {
    re := Regex(p => true, (p, t) => p == t);
    var there := Destination(DEST_CHANNEL_ID, "", "", "there", "", []);
    var elsewhere := Destination(DEST_CHANNEL_ID, "", "", "elsewhere", "", []);
    rules := [Rule("", [], [], "5-5", false, false, there)];
    d := Defaults(elsewhere, elsewhere);
    var dashed, plain := [Participant("p", "5-5", "", false)], [Participant("p", "55", "", false)];
    a := PhoneConversation("c", "", false, 0, 0, "", dashed);
    b := PhoneConversation("c", "", false, 0, 0, "", plain);
    SeparatorsIn();
    assert Others(dashed[..0]) == [] && Others(dashed) == dashed && Others(plain[..0]) == [] && Others(plain) == plain;
    assert a.Title() == "5-5" && b.Title() == "55";
    assert Matches(re, CompileAll(rules)[0], a) && !Matches(re, CompileAll(rules)[0], b);
    assert CompileAll(rules)[1..] == [];
  }

  function OneRule(pattern: string): seq<Rule> {
    [Rule("", [], [], pattern, false, false, Destination(DEST_CHANNEL_ID, "", "", "there", "", []))]
  }

  const Exactly := Regex(p => true, (p, t) => p == t)
  const Nowhere := Destination(DEST_CHANNEL_ID, "", "", "elsewhere", "", [])

  /** A rule looking for the one title tells it from any other. */
  lemma TitlesRouteApart(a: PhoneConversation, b: PhoneConversation)
    requires a.Title() != b.Title() && a.Title() != ""
    ensures var compiled, d := CompileAll(OneRule(a.Title())), Defaults(Nowhere, Nowhere);
            RouteFrom(Exactly, compiled, d, a) != RouteFrom(Exactly, compiled, d, b)
  {
    var compiled := CompileAll(OneRule(a.Title()));
    assert Matches(Exactly, compiled[0], a) && !Matches(Exactly, compiled[0], b);
    assert compiled[1..] == [];
  }

  ghost predicate RouteAlike(a: PhoneConversation, b: PhoneConversation) {
    forall re, rules, d :: RouteFrom(re, CompileAll(rules), d, a) == RouteFrom(re, CompileAll(rules), d, b)
  }

  /** Two conversations that differ in punctuation route alike under all rules if and only if their titles agree. */
  lemma TitleDecides(a: PhoneConversation, b: PhoneConversation)
    requires Repunctuated(a, b)
    ensures RouteAlike(a, b) <==> a.Title() == b.Title()
  {
    if a.Title() == b.Title() {
      forall re, rules: seq<Rule>, d
        ensures RouteFrom(re, CompileAll(rules), d, a) == RouteFrom(re, CompileAll(rules), d, b)
      {
        assert forall i | 0 <= i < |rules| :: SameDigits(rules[i].phones, rules[i].phones);
        PunctuationDoesNotRoute(re, rules, rules, d, a, b);
      }
    } else if a.Title() != "" {
      TitlesRouteApart(a, b);
    } else {
      TitlesRouteApart(b, a);
    }
  }

  /** The two conversations differ in the text of phone numbers and in nothing else. */
  predicate OnlyPhones(a: PhoneConversation, b: PhoneConversation) {
    && a.(participants := b.participants) == b && |a.participants| == |b.participants|
    && (forall i | 0 <= i < |a.participants| ::
         a.participants[i].(phone := b.participants[i].phone) == b.participants[i])
  }

  /** A name, or for everybody else without one the same text of the number, keeps the title. */
  lemma TitleKept(a: PhoneConversation, b: PhoneConversation)
    requires OnlyPhones(a, b)
    requires a.name != "" || forall i | 0 <= i < |a.participants| ::
      a.participants[i].isMe || a.participants[i].displayName != ""
        || a.participants[i].phone == b.participants[i].phone
    ensures a.Title() == b.Title()
  {
    if a.name == "" { SameLabels(a.participants, b.participants); }
  }

  /** When one number is repunctuated the title is kept in no other case. */
  lemma TitleKeptExactly(a: PhoneConversation, b: PhoneConversation, i: nat)
    requires OnlyPhones(a, b) && i < |a.participants|
    requires forall j | 0 <= j < |a.participants| && j != i :: a.participants[j] == b.participants[j]
    ensures var p, q := a.participants[i], b.participants[i];
            a.Title() == b.Title() <==> a.name != "" || p.isMe || p.displayName != "" || p.phone == q.phone
  {
    var p, q := a.participants[i], b.participants[i];
    if a.name != "" || p.isMe || p.displayName != "" || p.phone == q.phone {
      TitleKept(a, b);
    } else {
      var k := OneLabelDiffers(a.participants, b.participants, i);
      JoinShows(Labels(Others(a.participants)), Labels(Others(b.participants)), k);
    }
  }

  lemma SeparatorsIn()
    ensures Stripped("5-5") == Stripped("55")
  {
    assert "5-5"[..2] == "5-" && "5-"[..1] == "5" && "55"[..1] == "5" && "5"[..0] == "";
    assert Stripped("5") == "5" && Stripped("5-") == "5";
  }

  // ----- Discord's own router -----

  datatype DiscordCompiled = DiscordCompiled(
    rule: DiscordRule, name: string, guildIds: Option<set<string>>, channelIds: Option<set<string>>,
      pattern: Option<string>)

  function CompileDiscord(r: DiscordRule, i: nat): DiscordCompiled {
    DiscordCompiled(r, RuleName(r.name, i), Lookup(r.guildIds), Lookup(r.channelIds), Pattern(r.channelNamePattern))
  }

  predicate DiscordCompiles(re: Regex, rules: seq<DiscordRule>) {
    forall i | 0 <= i < |rules| && rules[i].channelNamePattern != "" :: re.compiles(rules[i].channelNamePattern)
  }

  function DiscordRules(rules: seq<DiscordRule>): seq<DiscordCompiled> {
    seq(|rules|, i requires 0 <= i < |rules| => CompileDiscord(rules[i], i))
  }

  method NewDiscordRouter(re: Regex, rules: seq<DiscordRule>) returns (out: Option<seq<DiscordCompiled>>)
    ensures out == if DiscordCompiles(re, rules) then Some(DiscordRules(rules)) else None
  {
    var compiled: seq<DiscordCompiled> := [];
    for i := 0 to |rules|
      invariant forall k | 0 <= k < i && rules[k].channelNamePattern != "" :: re.compiles(rules[k].channelNamePattern)
      invariant compiled == DiscordRules(rules)[..i]
    {
      var r := rules[i];
      var guildIds := IdSet(r.guildIds);
      var channelIds := IdSet(r.channelIds);
      if r.channelNamePattern != "" && !re.compiles(r.channelNamePattern) { return None; }
      compiled := compiled + [DiscordCompiled(r, RuleName(r.name, i), guildIds, channelIds,
        Pattern(r.channelNamePattern))];
    }
    assert compiled == DiscordRules(rules);
    out := Some(compiled);
  }

  predicate DiscordMatches(re: Regex, c: DiscordCompiled, conv: DiscordConversation) {
    if c.rule.groupsOnly && !conv.isGroup then false
    else if c.rule.directsOnly && conv.isGroup then false
    else if c.guildIds.None? && c.channelIds.None? && c.pattern.None? then c.rule.groupsOnly || c.rule.directsOnly
    else
      || (c.guildIds.Some? && conv.guildId in c.guildIds.value)
      || (c.channelIds.Some? && conv.id in c.channelIds.value)
      || (c.pattern.Some? && re.finds(c.pattern.value, conv.Title()))
  }

  function DiscordRouteFrom(re: Regex, rules: seq<DiscordCompiled>, d: Defaults, conv: DiscordConversation): Choice {
    if rules == [] then DefaultChoice(d, conv.isGroup)
    else if DiscordMatches(re, rules[0], conv) then Choice(rules[0].rule.destination, rules[0].name)
    else DiscordRouteFrom(re, rules[1..], d, conv)
  }

  method MatchesDiscord(re: Regex, c: DiscordCompiled, conv: DiscordConversation) returns (yes: bool)
    ensures yes == DiscordMatches(re, c, conv)
  {
    if c.rule.groupsOnly && !conv.isGroup { return false; }
    if c.rule.directsOnly && conv.isGroup { return false; }
    if c.guildIds.None? && c.channelIds.None? && c.pattern.None? { return c.rule.groupsOnly || c.rule.directsOnly; }
    if c.guildIds.Some? && conv.guildId in c.guildIds.value { return true; }
    if c.channelIds.Some? && conv.id in c.channelIds.value { return true; }
    if c.pattern.Some? {
      var title := DiscordTitle(conv);
      if re.finds(c.pattern.value, title) { return true; }
    }
    yes := false;
  }

  method RouteDiscord(
      re: Regex, rules: seq<DiscordCompiled>, d: Defaults, conv: DiscordConversation) returns (choice: Choice)
    ensures choice == DiscordRouteFrom(re, rules, d, conv)
  {
    assert rules[0..] == rules;
    for i := 0 to |rules|
      invariant DiscordRouteFrom(re, rules[i..], d, conv) == DiscordRouteFrom(re, rules, d, conv)
    {
      assert rules[i..][1..] == rules[i + 1..];
      var yes := MatchesDiscord(re, rules[i], conv);
      if yes { return Choice(rules[i].rule.destination, rules[i].name); }
    }
    choice := DefaultChoice(d, conv.isGroup);
  }

  /** What a Discord rule says. */
  predicate DiscordApplies(re: Regex, r: DiscordRule, conv: DiscordConversation) {
    && (r.groupsOnly ==> conv.isGroup) && (r.directsOnly ==> !conv.isGroup)
    && if r.guildIds == [] && r.channelIds == [] && r.channelNamePattern == "" then r.groupsOnly || r.directsOnly
       else conv.guildId in r.guildIds || conv.id in r.channelIds
            || (r.channelNamePattern != "" && re.finds(r.channelNamePattern, conv.Title()))
  }

  lemma DiscordMatchesMeansApplies(re: Regex, r: DiscordRule, i: nat, conv: DiscordConversation)
    ensures DiscordMatches(re, CompileDiscord(r, i), conv) <==> DiscordApplies(re, r, conv)
  {
  }

  function DiscordApplying(re: Regex, rules: seq<DiscordRule>, conv: DiscordConversation): seq<bool> {
    seq(|rules|, i requires 0 <= i < |rules| => DiscordApplies(re, rules[i], conv))
  }

  function DiscordNames(rules: seq<DiscordRule>): seq<string> {
    seq(|rules|, i requires 0 <= i < |rules| => rules[i].name)
  }

  function DiscordDestinations(rules: seq<DiscordRule>): seq<Destination> {
    seq(|rules|, i requires 0 <= i < |rules| => rules[i].destination)
  }

  lemma DiscordStep(re: Regex, rules: seq<DiscordRule>, d: Defaults, conv: DiscordConversation, n: nat)
    requires n < |rules|
    ensures var compiled := DiscordRules(rules);
            DiscordRouteFrom(re, compiled[n..], d, conv)
            == if DiscordApplies(re, rules[n], conv) then Choice(rules[n].destination, RuleName(rules[n].name, n))
               else DiscordRouteFrom(re, compiled[n + 1..], d, conv)
  {
    var compiled := DiscordRules(rules);
    DiscordMatchesMeansApplies(re, rules[n], n, conv);
    assert compiled[n..][0] == CompileDiscord(rules[n], n) && compiled[n..][1..] == compiled[n + 1..];
  }

  lemma {:induction false} DiscordRoutesAsDeclared(
      re: Regex, rules: seq<DiscordRule>, d: Defaults, conv: DiscordConversation, n: nat)
    requires n <= |rules| && forall k | 0 <= k < n :: !DiscordApplying(re, rules, conv)[k]
    ensures Decides(DiscordApplying(re, rules, conv), DiscordNames(rules), DiscordDestinations(rules), d, conv.isGroup,
                    DiscordRouteFrom(re, DiscordRules(rules)[n..], d, conv))
    decreases |rules| - n
  {
    var applying := DiscordApplying(re, rules, conv);
    if n < |rules| {
      DiscordStep(re, rules, d, conv, n);
      if applying[n] {
        FirstDecides(applying, DiscordNames(rules), DiscordDestinations(rules), d, conv.isGroup, n);
      } else {
        DiscordRoutesAsDeclared(re, rules, d, conv, n + 1);
      }
    } else {
      assert DiscordRules(rules)[n..] == [];
      DefaultIsRight(d, conv.isGroup);
    }
  }

  /** Discord's own router refines the declarative reading of its rules, too. */
  lemma FirstApplicableDiscordRuleDecides(
      re: Regex, rules: seq<DiscordRule>, d: Defaults, conv: DiscordConversation)
    ensures Decides(DiscordApplying(re, rules, conv), DiscordNames(rules), DiscordDestinations(rules), d, conv.isGroup,
                    DiscordRouteFrom(re, DiscordRules(rules), d, conv))
  {
    DiscordRoutesAsDeclared(re, rules, d, conv, 0);
    assert DiscordRules(rules)[0..] == DiscordRules(rules);
  }

  // ----- the generic router -----

  datatype GenericRule = GenericRule(
    name: string, destination: Destination, groupsOnly: bool, directsOnly: bool, ids: seq<string>,
    secondaryIds: seq<string>, phones: seq<string>, namePattern: string)

  datatype GenericCompiled = GenericCompiled(
    rule: GenericRule, name: string, ids: Option<set<string>>, secondaryIds: Option<set<string>>,
    phones: Option<set<string>>, pattern: Option<string>)

  function CompileGeneric(r: GenericRule, i: nat): GenericCompiled {
    GenericCompiled(r, RuleName(r.name, i), Lookup(r.ids), Lookup(r.secondaryIds), Normalized(r.phones),
      Pattern(r.namePattern))
  }

  predicate GenericCompilable(re: Regex, r: GenericRule) {
    && (forall i | 0 <= i < |r.phones| :: Normalize(r.phones[i]) != "")
    && (r.namePattern != "" ==> re.compiles(r.namePattern))
  }

  predicate GenericCompiles(re: Regex, rules: seq<GenericRule>) {
    forall i | 0 <= i < |rules| :: GenericCompilable(re, rules[i])
  }

  function GenericRules(rules: seq<GenericRule>): seq<GenericCompiled> {
    seq(|rules|, i requires 0 <= i < |rules| => CompileGeneric(rules[i], i))
  }

  method NewGenericRouter(re: Regex, rules: seq<GenericRule>) returns (out: Option<seq<GenericCompiled>>)
    ensures out == if GenericCompiles(re, rules) then Some(GenericRules(rules)) else None
  {
    var compiled: seq<GenericCompiled> := [];
    for i := 0 to |rules|
      invariant forall k | 0 <= k < i :: GenericCompilable(re, rules[k])
      invariant compiled == GenericRules(rules)[..i]
    {
      var r := rules[i];
      var ids := IdSet(r.ids);
      var secondaryIds := IdSet(r.secondaryIds);
      var ok, phones := CompilePhones(r.phones);
      if !ok { return None; }
      if r.namePattern != "" && !re.compiles(r.namePattern) { return None; }
      compiled := compiled + [GenericCompiled(r, RuleName(r.name, i), ids, secondaryIds, phones,
        Pattern(r.namePattern))];
    }
    assert compiled == GenericRules(rules);
    out := Some(compiled);
  }

  predicate GenericMatches(re: Regex, c: GenericCompiled, conv: Conversation) {
    if c.rule.groupsOnly && !conv.isGroup then false
    else if c.rule.directsOnly && conv.isGroup then false
    else if c.ids.None? && c.secondaryIds.None? && c.phones.None? && c.pattern.None? then
      c.rule.groupsOnly || c.rule.directsOnly
    else
      || (c.ids.Some? && conv.id in c.ids.value)
      || (c.secondaryIds.Some? && conv.guildId in c.secondaryIds.value)
      || (c.phones.Some? && KnownPhone(c.phones.value, Others(conv.participants)))
      || (c.pattern.Some? && re.finds(c.pattern.value, conv.Title()))
  }

  function GenericRouteFrom(re: Regex, rules: seq<GenericCompiled>, d: Defaults, conv: Conversation): Choice {
    if rules == [] then DefaultChoice(d, conv.isGroup)
    else if GenericMatches(re, rules[0], conv) then Choice(rules[0].rule.destination, rules[0].name)
    else GenericRouteFrom(re, rules[1..], d, conv)
  }

  method MatchesGeneric(re: Regex, c: GenericCompiled, conv: Conversation) returns (yes: bool)
    ensures yes == GenericMatches(re, c, conv)
  {
    if c.rule.groupsOnly && !conv.isGroup { return false; }
    if c.rule.directsOnly && conv.isGroup { return false; }
    if c.ids.None? && c.secondaryIds.None? && c.phones.None? && c.pattern.None? {
      return c.rule.groupsOnly || c.rule.directsOnly;
    }
    if c.ids.Some? && conv.id in c.ids.value { return true; }
    if c.secondaryIds.Some? && conv.guildId in c.secondaryIds.value { return true; }
    if c.phones.Some? {
      var others := OtherParticipants(conv.participants);
      var found := MatchesPhones(c.phones.value, others);
      if found { return true; }
    }
    if c.pattern.Some? {
      var title := TransportTitle(conv);
      if re.finds(c.pattern.value, title) { return true; }
    }
    yes := false;
  }

  method RouteGeneric(re: Regex, rules: seq<GenericCompiled>, d: Defaults, conv: Conversation) returns (choice: Choice)
    ensures choice == GenericRouteFrom(re, rules, d, conv)
  {
    assert rules[0..] == rules;
    for i := 0 to |rules|
      invariant GenericRouteFrom(re, rules[i..], d, conv) == GenericRouteFrom(re, rules, d, conv)
    {
      assert rules[i..][1..] == rules[i + 1..];
      var yes := MatchesGeneric(re, rules[i], conv);
      if yes { return Choice(rules[i].rule.destination, rules[i].name); }
    }
    choice := DefaultChoice(d, conv.isGroup);
  }

  /** Somebody else in the conversation has one of the rule's numbers, punctuation aside. */
  predicate GenericNamesSomebody(r: GenericRule, conv: Conversation) {
    exists i, j :: 0 <= i < |conv.participants| && 0 <= j < |r.phones|
      && !conv.participants[i].isMe && Normalize(conv.participants[i].phone) == Normalize(r.phones[j])
  }

  /** What a generic rule says. */
  predicate GenericApplies(re: Regex, r: GenericRule, conv: Conversation) {
    && (r.groupsOnly ==> conv.isGroup) && (r.directsOnly ==> !conv.isGroup)
    && if r.ids == [] && r.secondaryIds == [] && r.phones == [] && r.namePattern == "" then
         r.groupsOnly || r.directsOnly
       else conv.id in r.ids || conv.guildId in r.secondaryIds || GenericNamesSomebody(r, conv)
            || (r.namePattern != "" && re.finds(r.namePattern, conv.Title()))
  }

  lemma {:induction false} OthersAreThere(ps: seq<Participant>, p: Participant)
    ensures p in Others(ps) <==> p in ps && !p.isMe
  {
    if ps != [] {
      OthersAreThere(ps[..|ps| - 1], p);
      assert ps == ps[..|ps| - 1] + [ps[|ps| - 1]];
    }
  }

  lemma KnownAmongOthers(phones: set<string>, ps: seq<Participant>)
    ensures KnownPhone(phones, Others(ps)) <==>
      exists i :: 0 <= i < |ps| && !ps[i].isMe && Normalize(ps[i].phone) in phones
  {
    if i :| 0 <= i < |ps| && !ps[i].isMe && Normalize(ps[i].phone) in phones {
      OthersAreThere(ps, ps[i]);
      var k :| 0 <= k < |Others(ps)| && Others(ps)[k] == ps[i];
    }
    if k :| 0 <= k < |Others(ps)| && !Others(ps)[k].isMe && Normalize(Others(ps)[k].phone) in phones {
      OthersAreThere(ps, Others(ps)[k]);
      var i :| 0 <= i < |ps| && ps[i] == Others(ps)[k];
    }
  }

  lemma GenericMatchesMeansApplies(re: Regex, r: GenericRule, i: nat, conv: Conversation)
    ensures GenericMatches(re, CompileGeneric(r, i), conv) <==> GenericApplies(re, r, conv)
  {
    if r.phones != [] {
      var phones := Normalized(r.phones).value;
      KnownAmongOthers(phones, conv.participants);
      NamesAreKnown(r, phones, conv);
    }
  }

  lemma NamesAreKnown(r: GenericRule, phones: set<string>, conv: Conversation)
    requires phones == set i | 0 <= i < |r.phones| :: Normalize(r.phones[i])
    ensures GenericNamesSomebody(r, conv) <==>
      exists i :: 0 <= i < |conv.participants| && !conv.participants[i].isMe
                  && Normalize(conv.participants[i].phone) in phones
  {
    if i :| (0 <= i < |conv.participants| && !conv.participants[i].isMe
             && Normalize(conv.participants[i].phone) in phones) {
      var j :| 0 <= j < |r.phones| && Normalize(r.phones[j]) == Normalize(conv.participants[i].phone);
      assert GenericNamesSomebody(r, conv);
    }
    if GenericNamesSomebody(r, conv) {
      var i, j :| 0 <= i < |conv.participants| && 0 <= j < |r.phones|
        && !conv.participants[i].isMe && Normalize(conv.participants[i].phone) == Normalize(r.phones[j]);
      assert Normalize(r.phones[j]) in phones;
    }
  }

  function GenericApplying(re: Regex, rules: seq<GenericRule>, conv: Conversation): seq<bool> {
    seq(|rules|, i requires 0 <= i < |rules| => GenericApplies(re, rules[i], conv))
  }

  function GenericNames(rules: seq<GenericRule>): seq<string> {
    seq(|rules|, i requires 0 <= i < |rules| => rules[i].name)
  }

  function GenericDestinations(rules: seq<GenericRule>): seq<Destination> {
    seq(|rules|, i requires 0 <= i < |rules| => rules[i].destination)
  }

  lemma GenericStep(re: Regex, rules: seq<GenericRule>, d: Defaults, conv: Conversation, n: nat)
    requires n < |rules|
    ensures var compiled := GenericRules(rules);
            GenericRouteFrom(re, compiled[n..], d, conv)
            == if GenericApplies(re, rules[n], conv) then Choice(rules[n].destination, RuleName(rules[n].name, n))
               else GenericRouteFrom(re, compiled[n + 1..], d, conv)
  {
    var compiled := GenericRules(rules);
    GenericMatchesMeansApplies(re, rules[n], n, conv);
    assert compiled[n..][0] == CompileGeneric(rules[n], n) && compiled[n..][1..] == compiled[n + 1..];
  }

  lemma {:induction false} GenericRoutesAsDeclared(
      re: Regex, rules: seq<GenericRule>, d: Defaults, conv: Conversation, n: nat)
    requires n <= |rules| && forall k | 0 <= k < n :: !GenericApplying(re, rules, conv)[k]
    ensures Decides(GenericApplying(re, rules, conv), GenericNames(rules), GenericDestinations(rules), d, conv.isGroup,
                    GenericRouteFrom(re, GenericRules(rules)[n..], d, conv))
    decreases |rules| - n
  {
    var applying := GenericApplying(re, rules, conv);
    if n < |rules| {
      GenericStep(re, rules, d, conv, n);
      if applying[n] {
        FirstDecides(applying, GenericNames(rules), GenericDestinations(rules), d, conv.isGroup, n);
      } else {
        GenericRoutesAsDeclared(re, rules, d, conv, n + 1);
      }
    } else {
      assert GenericRules(rules)[n..] == [];
      DefaultIsRight(d, conv.isGroup);
    }
  }

  /** And so does the generic router. */
  lemma FirstApplicableGenericRuleDecides(re: Regex, rules: seq<GenericRule>, d: Defaults, conv: Conversation)
    ensures Decides(GenericApplying(re, rules, conv), GenericNames(rules), GenericDestinations(rules), d, conv.isGroup,
                    GenericRouteFrom(re, GenericRules(rules), d, conv))
  {
    GenericRoutesAsDeclared(re, rules, d, conv, 0);
    assert GenericRules(rules)[0..] == GenericRules(rules);
  }

  function FromDiscord(r: DiscordRule): GenericRule {
    GenericRule(r.name, r.destination, r.groupsOnly, r.directsOnly, r.channelIds, r.guildIds, [], r.channelNamePattern)
  }

  function AllFromDiscord(rules: seq<DiscordRule>): seq<GenericRule> {
    seq(|rules|, i requires 0 <= i < |rules| => FromDiscord(rules[i]))
  }

  method RulesFromDiscord(rules: seq<DiscordRule>) returns (out: seq<GenericRule>)
    ensures out == AllFromDiscord(rules)
  {
    out := [];
    for i := 0 to |rules|
      invariant out == AllFromDiscord(rules)[..i]
    {
      out := out + [FromDiscord(rules[i])];
    }
  }

  // ----- the generic router replaces Discord's -----

  lemma SameMatch(re: Regex, r: DiscordRule, i: nat, conv: DiscordConversation)
    ensures GenericMatches(re, CompileGeneric(FromDiscord(r), i), ToTransport(conv))
      <==> DiscordMatches(re, CompileDiscord(r, i), conv)
  {
    TitlesAgree(conv);
  }

  lemma {:induction false} SameRoute(re: Regex, rules: seq<DiscordRule>, d: Defaults, conv: DiscordConversation, n: nat)
    requires n <= |rules|
    ensures GenericRouteFrom(re, GenericRules(AllFromDiscord(rules))[n..], d, ToTransport(conv))
            == DiscordRouteFrom(re, DiscordRules(rules)[n..], d, conv)
    decreases |rules| - n
  {
    if n < |rules| {
      var g, h := GenericRules(AllFromDiscord(rules)), DiscordRules(rules);
      SameMatch(re, rules[n], n, conv);
      assert g[n..][0] == CompileGeneric(FromDiscord(rules[n]), n) && g[n..][1..] == g[n + 1..];
      assert h[n..][0] == CompileDiscord(rules[n], n) && h[n..][1..] == h[n + 1..];
      SameRoute(re, rules, d, conv, n + 1);
    }
  }

  /**
   For every rule list and conversation, the generic router built from the translated rules fails exactly when
   Discord's own does, and otherwise both make the same choice.
   */
  lemma GenericReplacesDiscord(re: Regex, rules: seq<DiscordRule>, d: Defaults, conv: DiscordConversation)
    ensures GenericCompiles(re, AllFromDiscord(rules)) <==> DiscordCompiles(re, rules)
    ensures GenericRouteFrom(re, GenericRules(AllFromDiscord(rules)), d, ToTransport(conv))
            == DiscordRouteFrom(re, DiscordRules(rules), d, conv)
  {
    var translated := AllFromDiscord(rules);
    if GenericCompiles(re, translated) {
      forall i | 0 <= i < |rules| && rules[i].channelNamePattern != ""
        ensures re.compiles(rules[i].channelNamePattern)
      {
        assert GenericCompilable(re, translated[i]);
      }
    }
    assert GenericRules(translated)[0..] == GenericRules(translated) && DiscordRules(rules)[0..] == DiscordRules(rules);
    SameRoute(re, rules, d, conv, 0);
  }

  /** Not every valid phone rule compiles: validation does not look into the numbers. */
  lemma ValidRuleMayNotCompile(re: Regex, o: Outside) returns (r: Rule)
    ensures RuleValid(o, r) && !Compilable(re, r)
  {
    r := Rule("", [], ["n/a"], "", false, false, Destination(DEST_CHANNEL_ID, "", "", "c", "", []));
    assert Normalize("n") == "" by { assert "n"[..0] == ""; }
    assert Normalize("n/") == "" by { assert "n/"[..1] == "n"; }
    assert Normalize("n/a") == "" by { assert "n/a"[..2] == "n/"; }
    assert r.phones[0] == "n/a";
  }

  /** Some character of the entry is a digit or a plus. */
  predicate HasNumber(phone: string) { exists i :: 0 <= i < |phone| && (Digit(phone[i]) || phone[i] == '+') }

  lemma {:induction false} NormalizesToNothing(phone: string)
    ensures Normalize(phone) == "" <==> !HasNumber(phone)
  {
    if phone != "" {
      var front := phone[..|phone| - 1];
      NormalizesToNothing(front);
      assert HasNumber(phone) <==> HasNumber(front) || Digit(phone[|phone| - 1]) || phone[|phone| - 1] == '+' by {
        if HasNumber(front) {
          var i :| 0 <= i < |front| && (Digit(front[i]) || front[i] == '+');
          assert phone[i] == front[i];
        }
        if HasNumber(phone) {
          var i :| 0 <= i < |phone| && (Digit(phone[i]) || phone[i] == '+');
          assert i < |front| ==> front[i] == phone[i];
        }
      }
    }
  }

  /** What a valid rule needs besides: a digit, or else a plus, in every phone entry. */
  lemma ValidRuleCompilesExactly(re: Regex, o: Outside, r: Rule)
    requires RuleValid(o, r) && o.compiles == re.compiles
    ensures Compilable(re, r) <==> forall i | 0 <= i < |r.phones| :: HasNumber(r.phones[i])
  {
    forall i | 0 <= i < |r.phones|
      ensures Normalize(r.phones[i]) == "" <==> !HasNumber(r.phones[i])
    {
      NormalizesToNothing(r.phones[i]);
    }
  }
}
