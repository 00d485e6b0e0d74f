/**
 The configuration file: what makes one valid, and how it is changed in place without ever leaving it invalid.
 */
module Config {
  import opened Types

  const DEST_CHANNEL := "channel"
  const DEST_CHANNEL_ID := "channel_id"
  const DEST_DIRECT := "direct"
  const DEST_GROUP := "group"

  datatype Destination = Destination(
    kind: string, team: string, channel: string, channelId: string, user: string, users: seq<string>)
  {
    /** Names something Mattermost can resolve. */
    predicate Valid() {
      if kind == DEST_CHANNEL then team != "" && channel != ""
      else if kind == DEST_CHANNEL_ID then channelId != ""
      else if kind == DEST_DIRECT then user != ""
      else kind == DEST_GROUP && 2 <= |users| <= 7
    }
  }

  datatype Rule = Rule(
    name: string, conversationIds: seq<string>, phones: seq<string>, namePattern: string, groupsOnly: bool,
    directsOnly: bool, destination: Destination)

  datatype DiscordRule = DiscordRule(
    name: string, guildIds: seq<string>, channelIds: seq<string>, channelNamePattern: string, groupsOnly: bool,
    directsOnly: bool, destination: Destination)

  datatype RoutingConfig = RoutingConfig(
    defaultDirect: Destination, defaultGroup: Destination, rules: seq<Rule>, threadPerConversation: Option<bool>)

  // `rest` stands for the settings of a user, and of the daemon, that this model does not look into.
  datatype User = User(name: string, routing: RoutingConfig, rest: string)

  datatype Config = Config(users: seq<User>, rest: string)

  // Which patterns compile as regular expressions, and which remaining settings are acceptable.
  datatype Outside = Outside(compiles: string -> bool, accepts: string -> bool)

  // ----- validity -----

  datatype Problem =
    | NoUsers | NameMissing(i: nat) | NameHasSlash(i: nat) | NameTaken(i: nat)
    | BadDirect(i: nat) | BadGroup(i: nat) | BadRule(i: nat, j: nat) | BadRest

  predicate RuleValid(o: Outside, r: Rule) {
    && (r.conversationIds != [] || r.phones != [] || r.namePattern != "" || r.groupsOnly || r.directsOnly)
    && !(r.groupsOnly && r.directsOnly)
    && (r.namePattern != "" ==> o.compiles(r.namePattern))
    && r.destination.Valid()
  }

  predicate RulesValid(o: Outside, rules: seq<Rule>) { forall j | 0 <= j < |rules| :: RuleValid(o, rules[j]) }

  predicate RoutingValid(o: Outside, r: RoutingConfig) {
    r.defaultDirect.Valid() && (r.defaultGroup.kind != "" ==> r.defaultGroup.Valid()) && RulesValid(o, r.rules)
  }

  predicate Valid(o: Outside, c: Config) {
    && c.users != []
    && (forall i | 0 <= i < |c.users| ::
          c.users[i].name != "" && '/' !in c.users[i].name && RoutingValid(o, c.users[i].routing))
    && (forall i, j | 0 <= i < j < |c.users| :: c.users[i].name != c.users[j].name)
    && o.accepts(c.rest)
  }

  function WithDefaults(c: Config): Config {
    c.(users := seq(|c.users|, i requires 0 <= i < |c.users| =>
      if c.users[i].routing.threadPerConversation.None?
      then c.users[i].(routing := c.users[i].routing.(threadPerConversation := Some(true)))
      else c.users[i]))
  }

  /** Where a destination can be: a channel by name or identifier, one person, or two to seven. */
  lemma DestinationValidExactly(d: Destination)
    ensures d.Valid() <==>
      || (d.kind == "channel" && d.team != "" && d.channel != "") || (d.kind == "channel_id" && d.channelId != "")
      || (d.kind == "direct" && d.user != "") || (d.kind == "group" && |d.users| in {2, 3, 4, 5, 6, 7})
  {
  }

  /** Threads are used unless a user says otherwise, and nothing else is filled in. */
  lemma ThreadsByDefault(c: Config, i: nat)
    requires i < |c.users|
    ensures var d := WithDefaults(c); var said := c.users[i].routing.threadPerConversation;
      && |d.users| == |c.users| && d.rest == c.rest
      && d.users[i].routing.threadPerConversation == (if said == None then Some(true) else said)
      && d.users[i].(routing := d.users[i].routing.(threadPerConversation := said)) == c.users[i]
  {
  }

  method ValidateRuleList(o: Outside, i: nat, rules: seq<Rule>) returns (problems: seq<Problem>)
    ensures problems == [] <==> RulesValid(o, rules)
  {
    problems := [];
    for j := 0 to |rules|
      invariant problems == [] <==> forall k | 0 <= k < j :: RuleValid(o, rules[k])
    {
      if !RuleValid(o, rules[j]) { problems := problems + [BadRule(i, j)]; }
    }
  }

  method ValidateRules(o: Outside, i: nat, r: RoutingConfig) returns (problems: seq<Problem>)
    ensures problems == [] <==> RoutingValid(o, r)
  {
    problems := [];
    if !r.defaultDirect.Valid() { problems := problems + [BadDirect(i)]; }
    if r.defaultGroup.kind != "" && !r.defaultGroup.Valid() { problems := problems + [BadGroup(i)]; }
    var more := ValidateRuleList(o, i, r.rules);
    problems := problems + more;
  }

  /** Reports every problem, and none exactly when the configuration is valid. */
  method Validate(o: Outside, c: Config) returns (problems: seq<Problem>)
    ensures problems == [] <==> Valid(o, c)
  {
    problems := [];
    if |c.users| == 0 { problems := problems + [NoUsers]; }
    var seen: set<string> := {};
    for i := 0 to |c.users|
      invariant problems == [] <==>
        && c.users != []
        && (forall k | 0 <= k < i ::
             c.users[k].name != "" && '/' !in c.users[k].name && RoutingValid(o, c.users[k].routing))
        && (forall k, l | 0 <= k < l < i :: c.users[k].name != c.users[l].name)
      invariant problems == [] ==> seen == set k | 0 <= k < i :: c.users[k].name
    {
      var user := c.users[i];
      if user.name == "" {
        problems := problems + [NameMissing(i)];
      } else if '/' in user.name {
        problems := problems + [NameHasSlash(i)];
      } else if user.name in seen {
        problems := problems + [NameTaken(i)];
      } else {
        seen := seen + {user.name};
      }
      var more := ValidateRules(o, i, user.routing);
      problems := problems + more;
    }
    if !o.accepts(c.rest) { problems := problems + [BadRest]; }
  }

  // ----- replacing one user's rules -----

  predicate HasUser(c: Config, name: string) { exists i :: 0 <= i < |c.users| && c.users[i].name == name }

  /** The first user of that name gets the rules; there is no change when nobody bears it. */
  function ReplaceRules(users: seq<User>, name: string, rules: seq<Rule>): seq<User> {
    if users == [] then []
    else if users[0].name == name then [users[0].(routing := users[0].routing.(rules := rules))] + users[1..]
    else [users[0]] + ReplaceRules(users[1..], name, rules)
  }

  /** What a push makes of a configuration; it is refused when nobody bears the name. */
  function WithRules(c: Config, name: string, rules: seq<Rule>): Option<Config> {
    if HasUser(c, name) then Some(c.(users := ReplaceRules(c.users, name, rules))) else None
  }

  method SetRules(c: Config, name: string, rules: seq<Rule>) returns (r: Option<Config>)
    ensures r == WithRules(c, name, rules)
  {
    for i := 0 to |c.users|
      invariant forall k | 0 <= k < i :: c.users[k].name != name
      invariant c.users[..i] + ReplaceRules(c.users[i..], name, rules) == ReplaceRules(c.users, name, rules)
    {
      var user := c.users[i];
      assert c.users[i..][0] == user && c.users[i..][1..] == c.users[i + 1..];
      if user.name == name {
        var changed := user.(routing := user.routing.(rules := rules));
        assert c.users[..i] + ([changed] + c.users[i + 1..]) == c.users[i := changed];
        return Some(c.(users := c.users[i := changed]));
      }
      assert c.users[..i + 1] + ReplaceRules(c.users[i + 1..], name, rules)
          == c.users[..i] + ([user] + ReplaceRules(c.users[i + 1..], name, rules));
    }
    r := None;
  }

  /** Exactly one user's rules are replaced: no default, no other user and nothing else changes. */
  predicate OnlyRulesOf(before: Config, after: Config, name: string, rules: seq<Rule>) {
    && after.rest == before.rest && |after.users| == |before.users|
    && exists i ::
         && 0 <= i < |before.users| && before.users[i].name == name
         && after.users == before.users[i := before.users[i].(routing := before.users[i].routing.(rules := rules))]
  }

  lemma {:induction false} ReplacesOne(users: seq<User>, name: string, rules: seq<Rule>) returns (i: nat)
    requires exists k :: 0 <= k < |users| && users[k].name == name
    ensures i < |users| && users[i].name == name
    ensures ReplaceRules(users, name, rules) == users[i := users[i].(routing := users[i].routing.(rules := rules))]
  {
    if users[0].name == name {
      i := 0;
      assert users == [users[0]] + users[1..];
    } else {
      var k :| 0 <= k < |users| && users[k].name == name;
      assert users[1..][k - 1] == users[k];
      var j := ReplacesOne(users[1..], name, rules);
      i := j + 1;
      assert users == [users[0]] + users[1..];
    }
  }

  lemma SetRulesTouchesOne(c: Config, name: string, rules: seq<Rule>)
    requires WithRules(c, name, rules).Some?
    ensures OnlyRulesOf(c, WithRules(c, name, rules).value, name, rules)
  {
    var i := ReplacesOne(c.users, name, rules);
  }

  /** A valid configuration stays valid when valid rules replace one user's. */
  lemma ValidRulesKeepValidity(o: Outside, c: Config, name: string, rules: seq<Rule>)
    requires Valid(o, WithDefaults(c)) && WithRules(c, name, rules).Some? && RulesValid(o, rules)
    ensures Valid(o, WithDefaults(WithRules(c, name, rules).value))
  {
    var i := ReplacesOne(c.users, name, rules);
    var d, d' := WithDefaults(c), WithDefaults(c.(users := ReplaceRules(c.users, name, rules)));
    assert forall k | 0 <= k < |d.users| :: d'.users[k].name == d.users[k].name;
    assert forall k | 0 <= k < |d.users| && k != i :: d'.users[k] == d.users[k];
  }

  /** No name is reserved: a valid configuration stays valid when a user is given any name nobody else bears. */
  lemma NoNameIsReserved(o: Outside, c: Config, i: nat, name: string)
    requires Valid(o, c) && i < |c.users| && name != "" && '/' !in name
    requires forall k | 0 <= k < |c.users| && k != i :: c.users[k].name != name
    ensures Valid(o, c.(users := c.users[i := c.users[i].(name := name)]))
  {
  }

  // ----- the file -----

  // How configurations are written down.
  datatype Codec = Codec(decode: string -> Option<Config>, encode: Config -> string)

  ghost predicate RoundTrips(codec: Codec) { forall c :: codec.decode(codec.encode(c)) == Some(c) }

  /** What `Load` makes of a file's text. */
  function Load(o: Outside, codec: Codec, text: string): Option<Config> {
    match codec.decode(text)
    case None => None
    case Some(c) => if Valid(o, WithDefaults(c)) then Some(WithDefaults(c)) else None
  }

  // How configurations are judged and written down.
  datatype Host = Host(outside: Outside, codec: Codec)

  predicate Loads(o: Host, text: string) { Load(o.outside, o.codec, text).Some? }

  // Which file operations succeed.
  datatype FileFate = FileFate(readOk: bool, writeOk: bool, rereadOk: bool, renameOk: bool)

  datatype MutateError = Unreadable | Unparsable | Refused | Unwritable | Invalid | ChangedMeanwhile

  datatype Result<T> = Ok(value: T) | Err(error: MutateError)

  class ConfigFile {
    var text: string

    /**
     Replaces the file by the text of `change` applied to what it holds, but only once that has been proven to load,
     and only if the file still holds what was read.  `meanwhile` is what somebody else writes in between, if anybody
     does.
     */
    method Mutate(
        o: Outside, codec: Codec, change: Config -> Option<Config>, f: FileFate, meanwhile: Option<string>)
      returns (r: Result<Config>)
      modifies this
      ensures r.Ok? ==>
        && f == FileFate(true, true, true, true) && (meanwhile.Some? ==> meanwhile == Some(old(text)))
        && codec.decode(old(text)).Some? && change(codec.decode(old(text)).value).Some?
        && text == codec.encode(change(codec.decode(old(text)).value).value)
        && Load(o, codec, text) == Some(r.value)
      ensures r.Err? ==> text == old(text) || meanwhile == Some(text)
      ensures r.Err? && f == FileFate(true, true, true, true) && (meanwhile.Some? ==> meanwhile == Some(old(text))) ==>
        var before := codec.decode(old(text));
        before.None? || change(before.value).None? || Load(o, codec, codec.encode(change(before.value).value)).None?
    {
      if !f.readOk { return Err(Unreadable); }
      var before := text;
      var decoded := codec.decode(before);
      if decoded.None? { return Err(Unparsable); }
      var changed := change(decoded.value);
      if changed.None? { return Err(Refused); }
      var after := codec.encode(changed.value);
      if !f.writeOk { return Err(Unwritable); }
      if meanwhile.Some? { text := meanwhile.value; }
      var candidate := codec.decode(after);
      if candidate.None? { return Err(Invalid); }
      var loaded := WithDefaults(candidate.value);
      var problems := Validate(o, loaded);
      if |problems| > 0 { return Err(Invalid); }
      if !f.rereadOk { return Err(Unreadable); }
      if text != before { return Err(ChangedMeanwhile); }
      if !f.renameOk { return Err(Unwritable); }
      text := after;
      r := Ok(loaded);
    }
  }
}
