/** A push of routing rules, up to the point where the daemon is asked to reload. */
module RulesServer {
  import opened Types
  import opened Config
  import opened Daemon

  // `Committed` goes on to ask for a reload, with what was loaded; the rest are HTTP statuses.
  datatype Outcome = NotFound | Unprocessable | Conflict | Committed(loaded: Config)

  const Works := FileFate(true, true, true, true)

  /** What a push comes to, and what the file holds then; `running` is the configuration in force. */
  function Pushing(o: Host, running: Config, text: string, put: Put, f: FileFate): (Outcome, string) {
    if !HasUser(running, put.name) then (NotFound, text)
    else if !RulesValid(o.outside, put.rules) then (Unprocessable, text)
    else if f != Works || Edited(o, text, put).None? then (Conflict, text)
    else
      var after := Edited(o, text, put).value;
      (Outcome.Committed(Load(o.outside, o.codec, after).value), after)
  }

  class Server {
    const file: ConfigFile
    const o: Host

    constructor (o: Host, file: ConfigFile)
      ensures this.o == o && this.file == file
    {
      this.o, this.file := o, file;
    }

    /** Nobody else writes the file meanwhile: this happens under the mutex. */
    method HandlePut(running: Config, put: Put, f: FileFate) returns (r: Outcome)
      modifies file
      ensures (r, file.text) == Pushing(o, running, old(file.text), put, f)
    {
      var known := FindUser(running, put.name);
      if !known { return NotFound; }
      var problems := ValidateRuleList(o.outside, 0, put.rules);
      if |problems| > 0 { return Unprocessable; }
      var changed := file.Mutate(o.outside, o.codec, c => WithRules(c, put.name, put.rules), f, None);
      match changed {
        case Err(_) => r := Conflict;
        case Ok(loaded) => r := Outcome.Committed(loaded);
      }
    }

    method FindUser(c: Config, name: string) returns (found: bool)
      ensures found <==> HasUser(c, name)
    {
      for i := 0 to |c.users|
        invariant forall k | 0 <= k < i :: c.users[k].name != name
      {
        if c.users[i].name == name { return true; }
      }
      found := false;
    }
  }

  /**
   A push that is accepted replaces one user's rules and leaves a file that loads; any other leaves the file alone.
   Valid rules for a user of a file that loads are refused only when the file cannot be read or written.
   */
  lemma PushesReplaceOneUsersRules(o: Host, running: Config, text: string, put: Put, f: FileFate)
    requires RoundTrips(o.codec)
    ensures var r := Pushing(o, running, text, put, f).0;
      && (r == NotFound <==> forall i | 0 <= i < |running.users| :: running.users[i].name != put.name)
      && (r == Unprocessable <==>
            && (exists i :: 0 <= i < |running.users| && running.users[i].name == put.name)
            && (exists j :: 0 <= j < |put.rules| && !RuleValid(o.outside, put.rules[j])))
      && (r.Committed? ==> f == Works)
    ensures var (r, text') := Pushing(o, running, text, put, f); match r
      case Committed(loaded) =>
        var before, after := o.codec.decode(text), o.codec.decode(text');
        && before.Some? && after.Some? && OnlyRulesOf(before.value, after.value, put.name, put.rules)
        && Load(o.outside, o.codec, text') == Some(loaded)
      case Conflict =>
        text' == text && (f == Works && Loads(o, text) ==> !HasUser(o.codec.decode(text).value, put.name))
      case _ => text' == text
  {
    var before := o.codec.decode(text);
    if before.Some? && WithRules(before.value, put.name, put.rules).Some? {
      SetRulesTouchesOne(before.value, put.name, put.rules);
      if Loads(o, text) && RulesValid(o.outside, put.rules) {
        ValidRulesKeepValidity(o.outside, before.value, put.name, put.rules);
      }
    }
  }

  lemma DefaultsKeepNames(c: Config, name: string)
    ensures HasUser(WithDefaults(c), name) <==> HasUser(c, name)
  {
    var d := WithDefaults(c);
    assert forall i | 0 <= i < |c.users| :: d.users[i].name == c.users[i].name;
    if HasUser(c, name) {
      var i :| 0 <= i < |c.users| && c.users[i].name == name;
      assert d.users[i].name == name;
    }
  }

  /** The handler's moves from its request to its commit, with nothing in between. */
  function Moves(s: State, o: Host, h: Handler, put: Put, f: FileFate): State
    requires s.versions != [] && s.mutex == None && h !in s.handlers
  {
    var s1 := HandlerNext(s, o, BeginPut(h, put));
    if !s1.handlers[h].Locking? then s1
    else HandlerNext(HandlerNext(s1, o, LockPut(h)), o, CommitPut(h, f == Works))
  }

  lemma CommitMoves(s: State, o: Host, h: Handler, put: Put, ok: bool)
    requires s.versions != [] && s.mutex == None && h in s.handlers && s.handlers[h] == Locking(put)
    ensures var s' := HandlerNext(HandlerNext(s, o, LockPut(h)), o, CommitPut(h, ok));
      var after := Edited(o, s.versions[Last(s)].text, put);
      && h in s'.handlers
      && if ok && after.Some? then
           && s'.versions == s.versions + [Version(after.value, true, Pushed(put))]
           && s'.handlers[h] == Offering(|s.versions|, put)
         else s'.versions == s.versions && s'.handlers[h] == Rejected(409)
  {
    var s1 := HandlerNext(s, o, LockPut(h));
    assert s1.handlers[h] == Editing(Last(s), put) && s1.versions == s.versions;
  }

  lemma BeginMove(s: State, o: Host, h: Handler, put: Put)
    requires s.versions != [] && h !in s.handlers && s.shared < |s.versions|
    ensures var s' := HandlerNext(s, o, BeginPut(h, put));
      && s'.versions == s.versions && s'.mutex == s.mutex && h in s'.handlers
      && s'.handlers[h] == if !Bears(o, s.versions[s.shared].text, put.name) then Rejected(404)
                           else if !RulesValid(o.outside, put.rules) then Rejected(422)
                           else Locking(put)
  {
  }

  /** What the server does to the file and answers is what the handler of the reload protocol does in its moves. */
  lemma PushingIsTheProtocols(s: State, o: Host, h: Handler, running: Config, put: Put, f: FileFate)
    requires s.versions != [] && s.mutex == None && h !in s.handlers
    requires s.shared < |s.versions| && Load(o.outside, o.codec, s.versions[s.shared].text) == Some(running)
    ensures var s' := Moves(s, o, h, put, f); var (r, text') := Pushing(o, running, s.versions[Last(s)].text, put, f);
      && h in s'.handlers && s'.versions != [] && s'.versions[Last(s')].text == text'
      && match s'.handlers[h]
         case Rejected(status) =>
           s'.versions == s.versions && r == if status == 404 then NotFound else if status == 422 then Unprocessable
             else Conflict
         case Offering(v, p) => r.Committed? && v == Last(s') && p == put && s'.versions[v].origin == Pushed(put)
         case _ => false
  {
    DefaultsKeepNames(o.codec.decode(s.versions[s.shared].text).value, put.name);
    BeginMove(s, o, h, put);
    var s1 := HandlerNext(s, o, BeginPut(h, put));
    if s1.handlers[h].Locking? { CommitMoves(s1, o, h, put, f == Works); }
  }
}
