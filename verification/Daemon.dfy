/**
 The daemon's reload protocol.

 The main loop owns one generation of the daemon at a time: its storage, its connection and its bridges.  A reload,
 asked for by a signal or by a push to the rules server, swaps it for one on a freshly loaded configuration, or puts
 the previous one back.  Generations, handlers of the rules server and the loop all run at once; a state is where
 each of them is, and a move is one step of one of them.
 */
module Daemon {
  import opened Types
  import opened Config

  type GenId = nat
  type Handler = nat

  // ----- generations -----

  datatype Phase = Setup | Up | Exited

  // `ready` and `done` are what its two channels hold: whether the value sent is an error.  The counters say how often
  // `done` was sent to and received from.
  datatype Generation = Generation(
    version: nat, phase: Phase, ready: Option<bool>, done: Option<bool>, sends: nat, receives: nat)

  function Started(version: nat): Generation { Generation(version, Setup, None, None, 0, 0) }

  /** It may have storage open or bridges running. */
  predicate Alive(g: Generation) { !g.phase.Exited? }

  function Ended(g: Generation, failed: bool): Generation {
    g.(phase := Exited, done := Some(failed), sends := g.sends + 1)
  }

  function Received(g: Generation): Generation { g.(done := None, receives := g.receives + 1) }

  // ----- requests -----

  datatype Source = Signal | Push(h: Handler)

  // `loaded` is the version a successful reload loaded.
  datatype Answer = Applied(loaded: nat) | Failed

  datatype Put = Put(name: string, rules: seq<Rule>)

  // Who wrote a version of the configuration file: the daemon was started on it, the rules server committed it, or
  // somebody else did, an operator for one, and not necessarily with something that loads.
  datatype Origin = Boot | Pushed(put: Put) | Outsider

  datatype Version = Version(text: string, loads: bool, origin: Origin)

  // A handler of the rules server: waiting for the mutex, holding it with what it read of the file, offering its
  // request, waiting for the answer, or finished with an HTTP status.  `version` is the one it committed.
  datatype HandlerPc =
    | Locking(put: Put)
    | Editing(before: nat, put: Put)
    | Offering(version: nat, put: Put)
    | Waiting(version: nat, put: Put, request: nat)
    | Answered200(version: nat, put: Put, request: nat)
    | Answered202(version: nat, put: Put, request: nat)
    | Rejected(status: nat)
    | Gone

  // ----- the loop -----

  // A request is a number; they are accepted in order.  `running` is what `waitReady` reported along with a failure.
  datatype Pc =
    | Select
    | Loading(request: nat)
    | Draining(request: nat, loaded: nat)
    | AwaitingNew(request: nat, loaded: nat, started: GenId)
    | Swapping(loaded: nat, started: GenId)
    | NewFailed(request: nat, started: GenId, running: bool)
    | CheckingNew(request: nat)
    | AwaitingOld(request: nat)
    | OldFailed(request: nat, running: bool)
    | CheckingOld(request: nat)
    | Stopping
    | Returned

  // `versions` are the contents the configuration file has had, the last one current.
  datatype State = State(
    versions: seq<Version>, mutex: Option<Handler>, handlers: map<Handler, HandlerPc>,
    pc: Pc, cfg: nat, shared: nat, gens: seq<Generation>, current: GenId, cancelled: bool,
    accepted: nat, answers: map<nat, seq<Answer>>)
  {
    function SetGen(g: GenId, x: Generation): State
      requires g < |gens|
    {
      this.(gens := gens[g := x])
    }

    function AnswersTo(r: nat): seq<Answer> { if r in answers then answers[r] else [] }

    function Respond(r: nat, a: Answer): State { this.(answers := answers[r := AnswersTo(r) + [a]]) }

    function SetHandler(h: Handler, p: HandlerPc): State { this.(handlers := handlers[h := p]) }

    function Start(version: nat): State { this.(gens := gens + [Started(version)]) }
  }

  function Booted(text: string): State {
    State([Version(text, true, Boot)], None, map[], Select, 0, 0, [Started(0)], 0, false, 0, map[])
  }

  datatype Move =
    // a generation
    | SetupFails(g: GenId) | SetupWorks(g: GenId) | Exits(g: GenId)
    // the outside
    | Interrupt | Edit(text: string)
    // a push to the rules server
    | BeginPut(h: Handler, put: Put) | LockPut(h: Handler) | CommitPut(h: Handler, ok: bool)
    | LeavePut(h: Handler) | FinishPut(h: Handler)
    // the loop
    | SeeInterrupt | SeeDone | Accept(from: Source) | LoadFile(ok: bool) | Drain | TakeReady | TakeDone | FinishSwap
    | CollectFailed | CheckInterrupt

  function Last(s: State): nat
    requires s.versions != []
  {
    |s.versions| - 1
  }

  predicate HandlerAllowed(s: State, m: Move) {
    match m
    case BeginPut(h, _) => h !in s.handlers
    case LockPut(h) => h in s.handlers && s.handlers[h].Locking? && s.mutex == None
    case CommitPut(h, _) => h in s.handlers && s.handlers[h].Editing? && s.mutex == Some(h)
    case LeavePut(h) => h in s.handlers && (s.handlers[h].Offering? || s.handlers[h].Waiting?)
    case FinishPut(h) => h in s.handlers && s.handlers[h].Waiting? && s.AnswersTo(s.handlers[h].request) != []
    case _ => false
  }

  /** The generation that `waitReady` is watching. */
  function Awaited(s: State): GenId
    requires s.pc.AwaitingNew? || s.pc.AwaitingOld?
  {
    if s.pc.AwaitingNew? then s.pc.started else s.current
  }

  predicate HasDone(s: State, g: GenId) { g < |s.gens| && s.gens[g].done.Some? }

  predicate LoopAllowed(s: State, m: Move) {
    match m
    case SeeInterrupt => s.pc.Select? && s.cancelled
    case SeeDone => s.pc.Select? && HasDone(s, s.current)
    case Accept(from) => s.pc.Select? && (from.Push? ==> from.h in s.handlers && s.handlers[from.h].Offering?)
    case LoadFile(_) => s.pc.Loading?
    case Drain => (s.pc.Draining? || s.pc.Stopping?) && HasDone(s, s.current)
    case TakeReady => (s.pc.AwaitingNew? || s.pc.AwaitingOld?) && Awaited(s) < |s.gens|
      && s.gens[Awaited(s)].ready.Some?
    case TakeDone => (s.pc.AwaitingNew? || s.pc.AwaitingOld?) && HasDone(s, Awaited(s))
    case FinishSwap => s.pc.Swapping?
    case CollectFailed =>
      || (s.pc.NewFailed? && (s.pc.running ==> HasDone(s, s.pc.started)))
      || (s.pc.OldFailed? && (s.pc.running ==> HasDone(s, s.current)))
    case CheckInterrupt => s.pc.CheckingNew? || s.pc.CheckingOld?
    case _ => false
  }

  predicate Allowed(s: State, m: Move) {
    match m
    case SetupFails(g) => g < |s.gens| && s.gens[g].phase.Setup?
    case SetupWorks(g) => g < |s.gens| && s.gens[g].phase.Setup?
    case Exits(g) => g < |s.gens| && s.gens[g].phase.Up?
    case Interrupt => true
    case Edit(_) => true
    case _ => s.versions != [] && (HandlerAllowed(s, m) || LoopAllowed(s, m))
  }

  function GenNext(s: State, m: Move): State
    requires Allowed(s, m) && (m.SetupFails? || m.SetupWorks? || m.Exits?)
  {
    match m
    case SetupFails(g) => s.SetGen(g, Ended(s.gens[g], true))
    case SetupWorks(g) => s.SetGen(g, s.gens[g].(phase := Up, ready := Some(false)))
    case Exits(g) => s.SetGen(g, Ended(s.gens[g], false))
  }

  /** What a push makes of the file's text, if it can be read, names a user and leaves a configuration that loads. */
  function Edited(o: Host, text: string, put: Put): Option<string> {
    var before := o.codec.decode(text);
    if before.None? then None
    else
      var after := WithRules(before.value, put.name, put.rules);
      if after.Some? && Loads(o, o.codec.encode(after.value)) then Some(o.codec.encode(after.value)) else None
  }

  /** The file's text names the user. */
  predicate Bears(o: Host, text: string, name: string) {
    var c := o.codec.decode(text);
    c.Some? && HasUser(c.value, name)
  }

  function HandlerNext(s: State, o: Host, m: Move): State
    requires s.versions != [] && HandlerAllowed(s, m)
  {
    match m
    case BeginPut(h, put) =>
      if s.shared >= |s.versions| || !Bears(o, s.versions[s.shared].text, put.name) then s.SetHandler(h, Rejected(404))
      else if !RulesValid(o.outside, put.rules) then s.SetHandler(h, Rejected(422))
      else s.SetHandler(h, Locking(put))
    case LockPut(h) => s.(mutex := Some(h)).SetHandler(h, Editing(Last(s), s.handlers[h].put))
    case CommitPut(h, ok) =>
      var p := s.handlers[h];
      var s1 := s.(mutex := None);
      // Mutate compares the file with what it read before it replaces it.
      if !ok || p.before >= |s.versions| || s.versions[p.before].text != s.versions[Last(s)].text
         || Edited(o, s.versions[p.before].text, p.put).None?
      then s1.SetHandler(h, Rejected(409))
      else
        var written := Version(Edited(o, s.versions[p.before].text, p.put).value, true, Pushed(p.put));
        s1.(versions := s.versions + [written]).SetHandler(h, Offering(|s.versions|, p.put))
    case LeavePut(h) => s.SetHandler(h, Gone)
    case FinishPut(h) =>
      var p := s.handlers[h];
      if s.AnswersTo(p.request)[0].Applied? then s.SetHandler(h, Answered200(p.version, p.put, p.request))
      else s.SetHandler(h, Answered202(p.version, p.put, p.request))
  }

  /** `<-genDone` */
  function Receive(s: State, g: GenId): State
    requires g < |s.gens|
  {
    s.SetGen(g, Received(s.gens[g]))
  }

  function AcceptNext(s: State, from: Source): State
    requires LoopAllowed(s, Accept(from))
  {
    var s1 := s.(pc := Loading(s.accepted), accepted := s.accepted + 1);
    if from.Signal? then s1
    else s1.SetHandler(from.h, Waiting(s.handlers[from.h].version, s.handlers[from.h].put, s.accepted))
  }

  /** The configuration is loaded from the file as it is now; when it does not load the current one keeps running. */
  function LoadNext(s: State, ok: bool): State
    requires s.versions != [] && LoopAllowed(s, LoadFile(ok))
  {
    if ok && s.versions[Last(s)].loads then s.(pc := Draining(s.pc.request, Last(s)))
    else s.Respond(s.pc.request, Failed).(pc := Select)
  }

  function DrainNext(s: State): State
    requires LoopAllowed(s, Drain)
  {
    var s1 := Receive(s, s.current);
    if s.pc.Stopping? then s1.(pc := Returned)
    else s1.Start(s.pc.loaded).(pc := AwaitingNew(s.pc.request, s.pc.loaded, |s.gens|))
  }

  function TakeReadyNext(s: State): State
    requires LoopAllowed(s, TakeReady)
  {
    var g := Awaited(s);
    var failed := s.gens[g].ready.value;
    var s1 := s.SetGen(g, s.gens[g].(ready := None));
    if s.pc.AwaitingNew? then
      if failed then s1.(pc := NewFailed(s.pc.request, g, true))
      else s1.(shared := s.pc.loaded).Respond(s.pc.request, Applied(s.pc.loaded)).(pc := Swapping(s.pc.loaded, g))
    else if failed then s1.(pc := OldFailed(s.pc.request, true))
    else s1.Respond(s.pc.request, Failed).(pc := Select)
  }

  function TakeDoneNext(s: State): State
    requires LoopAllowed(s, TakeDone)
  {
    var g := Awaited(s);
    Receive(s, g).(pc := if s.pc.AwaitingNew? then NewFailed(s.pc.request, g, false)
      else OldFailed(s.pc.request, false))
  }

  /** A generation that failed to start is waited for if it is still running. */
  function CollectNext(s: State): State
    requires LoopAllowed(s, CollectFailed)
  {
    var s1 := if !s.pc.running then s else if s.pc.NewFailed? then Receive(s, s.pc.started) else Receive(s, s.current);
    s1.(pc := if s.pc.NewFailed? then CheckingNew(s.pc.request) else CheckingOld(s.pc.request))
  }

  function CheckNext(s: State): State
    requires LoopAllowed(s, CheckInterrupt)
  {
    if s.cancelled || s.pc.CheckingOld? then s.Respond(s.pc.request, Failed).(pc := Returned)
    else s.Start(s.cfg).(current := |s.gens|, pc := AwaitingOld(s.pc.request))
  }

  function LoopNext(s: State, m: Move): State
    requires s.versions != [] && LoopAllowed(s, m)
  {
    match m
    case SeeInterrupt => s.(pc := Stopping)
    case SeeDone => Receive(s, s.current).(pc := Returned)
    case Accept(from) => AcceptNext(s, from)
    case LoadFile(ok) => LoadNext(s, ok)
    case Drain => DrainNext(s)
    case TakeReady => TakeReadyNext(s)
    case TakeDone => TakeDoneNext(s)
    case FinishSwap => s.(cfg := s.pc.loaded, current := s.pc.started, pc := Select)
    case CollectFailed => CollectNext(s)
    case CheckInterrupt => CheckNext(s)
  }

  function Next(s: State, o: Host, m: Move): State
    requires Allowed(s, m)
  {
    if m.SetupFails? || m.SetupWorks? || m.Exits? then GenNext(s, m)
    else if m.Interrupt? then s.(cancelled := true)
    else if m.Edit? then s.(versions := s.versions + [Version(m.text, Loads(o, m.text), Outsider)])
    else if HandlerAllowed(s, m) then HandlerNext(s, o, m)
    else LoopNext(s, m)
  }

  // ----- the invariant -----

  /** Both channels of a generation are used as they should be. */
  predicate Tidy(g: Generation) {
    && g.sends <= 1 && g.receives <= 1
    && (g.phase.Exited? <==> g.sends == 1)
    && (g.done.Some? <==> g.sends == 1 && g.receives == 0)
    && (g.ready.Some? ==> g.ready == Some(false) && !g.phase.Setup?)
  }

  /** The one generation that may be alive. */
  function Live(s: State): Option<GenId> {
    match s.pc
    case Select => Some(s.current)
    case Loading(_) => Some(s.current)
    case Draining(_, _) => Some(s.current)
    case Stopping => Some(s.current)
    case AwaitingOld(_) => Some(s.current)
    case AwaitingNew(_, _, g) => Some(g)
    case Swapping(_, g) => Some(g)
    case _ => None
  }

  ghost predicate Generations(s: State) {
    && s.current < |s.gens|
    && (forall g | 0 <= g < |s.gens| :: Tidy(s.gens[g]))
    && (forall g | 0 <= g < |s.gens| && Live(s) != Some(g) :: s.gens[g].phase.Exited? && s.gens[g].receives == 1)
    && (Live(s).Some? ==> Live(s).value == |s.gens| - 1 && s.gens[|s.gens| - 1].receives == 0)
    && (s.pc.NewFailed? || s.pc.OldFailed? ==> !s.pc.running)
  }

  /** The request being dealt with and not answered yet. */
  function Pending(s: State): Option<nat> {
    match s.pc
    case Loading(r) => Some(r)
    case Draining(r, _) => Some(r)
    case AwaitingNew(r, _, _) => Some(r)
    case NewFailed(r, _, _) => Some(r)
    case CheckingNew(r) => Some(r)
    case AwaitingOld(r) => Some(r)
    case OldFailed(r, _) => Some(r)
    case CheckingOld(r) => Some(r)
    case _ => None
  }

  ghost predicate AnsweredOnce(s: State) {
    && (Pending(s).Some? ==> Pending(s).value < s.accepted)
    && (forall r: nat :: |s.AnswersTo(r)| == if r < s.accepted && Pending(s) != Some(r) then 1 else 0)
    && (forall r: nat :: s.AnswersTo(r) != [] && s.AnswersTo(r)[0].Applied? ==> s.AnswersTo(r)[0].loaded <= s.shared)
  }

  /** The version is one the file has had, and it loads. */
  predicate Sound(s: State, v: nat) { v < |s.versions| && s.versions[v].loads }

  /** Between reloads everybody has the same version. */
  predicate Settled(s: State) { s.current < |s.gens| && s.cfg == s.shared == s.gens[s.current].version }

  /** Which configuration is where. */
  ghost predicate Configurations(s: State) {
    && s.versions != [] && Sound(s, s.shared)
    && match s.pc
       case Select => Settled(s)
       case Loading(_) => Settled(s)
       case Draining(_, loaded) => Settled(s) && s.shared <= loaded && Sound(s, loaded)
       case Stopping => Settled(s)
       case AwaitingOld(_) => Settled(s)
       case AwaitingNew(_, loaded, g) =>
         s.cfg == s.shared <= loaded && Sound(s, loaded) && g < |s.gens| && s.gens[g].version == loaded
       case Swapping(loaded, g) => s.shared == loaded && g < |s.gens| && s.gens[g].version == loaded
       case NewFailed(_, _, _) => s.cfg == s.shared
       case CheckingNew(_) => s.cfg == s.shared
       case _ => true
  }

  /** The text differs from the one before in one user's rules, and in nothing else. */
  ghost predicate RulesReplaced(o: Host, before: string, after: string, put: Put) {
    var c, c' := o.codec.decode(before), o.codec.decode(after);
    c.Some? && c'.Some? && OnlyRulesOf(c.value, c'.value, put.name, put.rules)
  }

  /** Every version a push wrote loads, and replaced one user's rules in the version right before it. */
  ghost predicate Committed(o: Host, versions: seq<Version>) {
    && (forall i | 0 <= i < |versions| :: versions[i].loads <==> Loads(o, versions[i].text))
    && (forall i | 0 <= i < |versions| && versions[i].origin.Pushed? ::
          i > 0 && versions[i].loads
          && RulesReplaced(o, versions[i - 1].text, versions[i].text, versions[i].origin.put))
  }

  /** The version a reload in progress has loaded, if it has got that far. */
  function LoadedFor(s: State, r: nat): Option<nat> {
    match s.pc
    case Draining(r', loaded) => if r == r' then Some(loaded) else None
    case AwaitingNew(r', loaded, _) => if r == r' then Some(loaded) else None
    case _ => None
  }

  /** Version `v` is the one in which the push put its rules. */
  predicate PutIn(s: State, v: nat, put: Put) {
    v < |s.versions| && s.versions[v].origin == Pushed(put)
  }

  ghost predicate HandlerSafe(s: State, h: Handler)
    requires h in s.handlers && s.versions != []
  {
    match s.handlers[h]
    case Editing(before, put) => s.mutex == Some(h) && before < |s.versions|
    case Offering(v, put) => PutIn(s, v, put)
    case Waiting(v, put, r) =>
      && PutIn(s, v, put) && r < s.accepted
      && (LoadedFor(s, r).Some? ==> v <= LoadedFor(s, r).value)
      && (s.AnswersTo(r) != [] && s.AnswersTo(r)[0].Applied? ==> v <= s.AnswersTo(r)[0].loaded)
    case Answered200(v, put, r) =>
      PutIn(s, v, put) && |s.AnswersTo(r)| == 1 && s.AnswersTo(r)[0].Applied?
        && v <= s.AnswersTo(r)[0].loaded <= s.shared
    case Answered202(v, put, r) => PutIn(s, v, put) && s.AnswersTo(r) == [Failed]
    case _ => true
  }

  ghost predicate Handlers(s: State)
    requires s.versions != []
  {
    && (forall h | h in s.handlers :: HandlerSafe(s, h))
    && (s.mutex.Some? ==> s.mutex.value in s.handlers && s.handlers[s.mutex.value].Editing?)
  }

  ghost predicate Safe(s: State, o: Host) {
    Generations(s) && AnsweredOnce(s) && Configurations(s) && Committed(o, s.versions) && Handlers(s)
  }
}
