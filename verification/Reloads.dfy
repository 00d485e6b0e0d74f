/**
 What the reload protocol guarantees in every state it can reach.
 */
module Reloads {
  import opened Types
  import opened Config
  import opened Daemon

  // ----- the moves of a generation -----

  predicate OfGeneration(m: Move) { m.SetupFails? || m.SetupWorks? || m.Exits? }

  /** Only the loop and the handlers can change what the other parts of the invariant look at. */
  lemma HandlersUntouched(s: State, s': State)
    requires s.versions != [] && Handlers(s)
    requires s'.versions == s.versions && s'.handlers == s.handlers && s'.mutex == s.mutex
    requires s'.accepted == s.accepted && s'.answers == s.answers && s'.shared >= s.shared
    requires forall r: nat :: LoadedFor(s', r).None? || LoadedFor(s', r) == LoadedFor(s, r)
    ensures Handlers(s')
  {
    forall h | h in s'.handlers ensures HandlerSafe(s', h) { assert HandlerSafe(s, h); }
  }

  /** One generation turns over, keeping its version; nothing else happens. */
  lemma TurnsOver(s: State, s': State, g: GenId, x: Generation)
    requires Generations(s) && AnsweredOnce(s) && Configurations(s) && g < |s.gens| && Alive(s.gens[g])
    requires Tidy(x) && x.version == s.gens[g].version && x.receives == s.gens[g].receives
    requires s' == s.(gens := s.gens[g := x])
    ensures Generations(s') && AnsweredOnce(s') && Configurations(s')
  {
    assert forall r: nat :: s'.AnswersTo(r) == s.AnswersTo(r);
    assert forall k | 0 <= k < |s.gens| && k != g :: s'.gens[k] == s.gens[k];
  }

  lemma GenerationMove(s: State, o: Host, m: Move)
    requires Safe(s, o) && Allowed(s, m) && OfGeneration(m)
    ensures Safe(Next(s, o, m), o)
  {
    var s' := GenNext(s, m);
    assert Tidy(s.gens[m.g]);
    TurnsOver(s, s', m.g, s'.gens[m.g]);
    HandlersUntouched(s, s');
  }

  // ----- the moves of a handler -----

  lemma OneMoreVersion(o: Host, versions: seq<Version>, v: Version)
    requires Committed(o, versions) && versions != [] && (v.loads <==> Loads(o, v.text))
    requires v.origin.Pushed? ==> v.loads && RulesReplaced(o, versions[|versions| - 1].text, v.text, v.origin.put)
    ensures Committed(o, versions + [v])
  {
    assert forall i | 0 <= i < |versions| :: (versions + [v])[i] == versions[i];
  }

  /** What a push commits replaces its rules in the text it was made from. */
  lemma EditedReplaces(o: Host, text: string, put: Put)
    requires RoundTrips(o.codec) && Edited(o, text, put).Some?
    ensures RulesReplaced(o, text, Edited(o, text, put).value, put) && Loads(o, Edited(o, text, put).value)
  {
    var before := o.codec.decode(text).value;
    SetRulesTouchesOne(before, put.name, put.rules);
    assert o.codec.decode(o.codec.encode(WithRules(before, put.name, put.rules).value)).Some?;
  }

  /** A handler's move leaves the loop and the generations alone. */
  ghost predicate LoopUntouched(s: State, s': State) {
    s'.pc == s.pc && s'.gens == s.gens && s'.current == s.current && s'.cfg == s.cfg && s'.shared == s.shared
    && s'.accepted == s.accepted && s'.answers == s.answers && s.versions <= s'.versions
  }

  lemma LoopUntouchedKeeps(s: State, s': State)
    requires Generations(s) && AnsweredOnce(s) && Configurations(s) && LoopUntouched(s, s')
    ensures Generations(s') && AnsweredOnce(s') && Configurations(s')
  {
    assert forall r: nat :: s'.AnswersTo(r) == s.AnswersTo(r);
  }

  /** Everybody else's standing survives one handler's move. */
  lemma OthersKeep(s: State, s': State, h: Handler)
    requires s.versions != [] && Handlers(s) && LoopUntouched(s, s')
    requires s'.handlers.Keys == s.handlers.Keys + {h} && forall k | k in s.handlers && k != h ::
      s'.handlers[k] == s.handlers[k]
    requires s'.mutex == s.mutex || (s.mutex == None && s'.mutex == Some(h)) || (s.mutex == Some(h) && s'.mutex == None)
    requires HandlerSafe(s', h)
    requires s'.mutex == Some(h) ==> s'.handlers[h].Editing?
    requires s.mutex != Some(h) || s'.mutex == None || s'.handlers[h].Editing?
    ensures Handlers(s')
  {
    forall k | k in s'.handlers ensures HandlerSafe(s', k) {
      if k != h { assert HandlerSafe(s, k); }
    }
  }

  lemma CommitSafe(s: State, o: Host, m: Move)
    requires s.versions != [] && m.CommitPut? && HandlerAllowed(s, m) && Handlers(s) && Committed(o, s.versions)
    requires RoundTrips(o.codec)
    ensures HandlerSafe(HandlerNext(s, o, m), m.h)
    ensures Committed(o, HandlerNext(s, o, m).versions)
  {
    var p := s.handlers[m.h];
    assert HandlerSafe(s, m.h);
    var text := s.versions[Last(s)].text;
    if m.ok && s.versions[p.before].text == text && Edited(o, text, p.put).Some? {
      EditedReplaces(o, text, p.put);
      OneMoreVersion(o, s.versions, Version(Edited(o, text, p.put).value, true, Pushed(p.put)));
    }
  }

  lemma MoverSafe(s: State, o: Host, m: Move)
    requires s.versions != [] && !m.CommitPut? && HandlerAllowed(s, m) && Handlers(s) && AnsweredOnce(s)
    ensures HandlerSafe(HandlerNext(s, o, m), m.h)
  {
    if m.h in s.handlers { assert HandlerSafe(s, m.h); }
  }

  lemma HandlerMove(s: State, o: Host, m: Move)
    requires Safe(s, o) && HandlerAllowed(s, m) && RoundTrips(o.codec)
    ensures Safe(HandlerNext(s, o, m), o)
  {
    var s' := HandlerNext(s, o, m);
    if m.CommitPut? { CommitSafe(s, o, m); } else { MoverSafe(s, o, m); }
    HandlerFrame(s, o, m);
    LoopUntouchedKeeps(s, s');
    OthersKeep(s, s', m.h);
  }

  lemma HandlerFrame(s: State, o: Host, m: Move)
    requires s.versions != [] && Handlers(s) && HandlerAllowed(s, m)
    ensures var s' := HandlerNext(s, o, m);
      && LoopUntouched(s, s')
      && s'.handlers.Keys == s.handlers.Keys + {m.h}
           && (forall k | k in s.handlers && k != m.h ::
      s'.handlers[k] == s.handlers[k]) && (s'.mutex == s.mutex || (s.mutex == None && s'.mutex == Some(m.h))
           || (s.mutex == Some(m.h) && s'.mutex == None))
      && (!m.CommitPut? ==> s'.versions == s.versions)
      && (s'.mutex == Some(m.h) ==> s'.handlers[m.h].Editing?)
  {
    if m.h in s.handlers { assert HandlerSafe(s, m.h); }
  }

  // ----- the moves of the loop -----

  ghost predicate NotRunning(s: State) { s.pc.NewFailed? || s.pc.OldFailed? ==> !s.pc.running }

  lemma SameGenerations(s: State, s': State)
    requires Generations(s) && s'.gens == s.gens && Live(s') == Live(s) && s'.current < |s'.gens| && NotRunning(s')
    ensures Generations(s')
  {
  }

  lemma ReceivesDone(s: State, s': State, g: GenId)
    requires Generations(s) && Live(s) == Some(g) && s.gens[g].done.Some?
    requires s'.gens == s.gens[g := Received(s.gens[g])] && Live(s') == None && s'.current < |s'.gens| && NotRunning(s')
    ensures Generations(s')
  {
    assert Tidy(s.gens[g]);
  }

  lemma ReceivesReady(s: State, s': State, g: GenId)
    requires Generations(s) && Live(s) == Some(g)
    requires s'.gens == s.gens[g := s.gens[g].(ready := None)] && Live(s') == Live(s) && s'.current < |s'.gens|
      && NotRunning(s')
    ensures Generations(s')
  {
    assert Tidy(s.gens[g]);
  }

  lemma StartsOne(s: State, s': State, version: nat)
    requires Generations(s) && Live(s) == None
    requires s'.gens == s.gens + [Started(version)] && Live(s') == Some(|s.gens|) && s'.current < |s'.gens|
      && NotRunning(s')
    ensures Generations(s')
  {
  }

  lemma DrainKeepsGenerations(s: State)
    requires Generations(s) && s.pc.Draining? && LoopAllowed(s, Drain)
    ensures Generations(DrainNext(s))
  {
    var drained := Receive(s, s.current).(pc := Returned);
    ReceivesDone(s, drained, s.current);
    StartsOne(drained, DrainNext(s), s.pc.loaded);
  }

  lemma TakeReadyKeepsGenerations(s: State)
    requires Generations(s) && LoopAllowed(s, TakeReady)
    ensures Generations(TakeReadyNext(s))
  {
    ReadyMeansUp(s);
    ReceivesReady(s, TakeReadyNext(s), Awaited(s));
  }

  lemma TakeDoneKeepsGenerations(s: State)
    requires Generations(s) && LoopAllowed(s, TakeDone)
    ensures Generations(TakeDoneNext(s))
  {
    ReceivesDone(s, TakeDoneNext(s), Awaited(s));
  }

  lemma CheckKeepsGenerations(s: State)
    requires Generations(s) && LoopAllowed(s, CheckInterrupt)
    ensures Generations(CheckNext(s))
  {
    if s.cancelled || s.pc.CheckingOld? {
      SameGenerations(s, CheckNext(s));
    } else {
      StartsOne(s, CheckNext(s), s.cfg);
    }
  }

  lemma CollectKeepsGenerations(s: State)
    requires Generations(s) && LoopAllowed(s, CollectFailed)
    ensures Generations(CollectNext(s))
  {
    SameGenerations(s, CollectNext(s));
  }

  lemma LoopKeepsGenerations(s: State, m: Move)
    requires s.versions != [] && Generations(s) && LoopAllowed(s, m)
    ensures Generations(LoopNext(s, m))
  {
    if m.Drain? && s.pc.Draining? {
      DrainKeepsGenerations(s);
    } else if m.Drain? || m.SeeDone? {
      ReceivesDone(s, LoopNext(s, m), s.current);
    } else if m.TakeReady? {
      TakeReadyKeepsGenerations(s);
    } else if m.TakeDone? {
      TakeDoneKeepsGenerations(s);
    } else if m.CheckInterrupt? {
      CheckKeepsGenerations(s);
    } else if m.CollectFailed? {
      CollectKeepsGenerations(s);
    } else {
      SameGenerations(s, LoopNext(s, m));
    }
  }

  lemma NothingAnswered(s: State, s': State)
    requires AnsweredOnce(s) && s'.answers == s.answers && s'.shared == s.shared
    requires Pending(s') == Pending(s) && s'.accepted == s.accepted
    ensures AnsweredOnce(s')
  {
    assert forall r: nat :: s'.AnswersTo(r) == s.AnswersTo(r);
  }

  lemma OneAccepted(s: State, s': State)
    requires AnsweredOnce(s) && s'.answers == s.answers && s'.shared == s.shared
    requires Pending(s) == None && Pending(s') == Some(s.accepted) && s'.accepted == s.accepted + 1
    ensures AnsweredOnce(s')
  {
    assert forall r: nat :: s'.AnswersTo(r) == s.AnswersTo(r);
  }

  lemma OneAnswered(s: State, s': State, r: nat, a: Answer)
    requires AnsweredOnce(s) && s'.answers == s.Respond(r, a).answers && s'.shared >= s.shared
    requires Pending(s) == Some(r) && Pending(s') == None && s'.accepted == s.accepted
    requires a.Applied? ==> a.loaded <= s'.shared
    ensures AnsweredOnce(s') && s'.AnswersTo(r) == [a] && forall k: nat :: k != r ==> s'.AnswersTo(k) == s.AnswersTo(k)
  {
    assert forall k: nat :: k != r ==> s'.AnswersTo(k) == s.AnswersTo(k);
    assert s.AnswersTo(r) == [];
    assert s'.AnswersTo(r) == [a];
  }

  /** What the loop answers in this move. */
  function Answered(s: State, m: Move): Option<Answer> {
    if m.LoadFile? && !(m.ok && s.versions != [] && s.versions[Last(s)].loads) then Some(Failed)
    else if m.CheckInterrupt? && (s.cancelled || s.pc.CheckingOld?) then Some(Failed)
    else if m.TakeReady? && s.pc.AwaitingNew? then Some(Applied(s.pc.loaded))
    else if m.TakeReady? then Some(Failed)
    else None
  }

  lemma ReadyAnswers(s: State)
    requires Generations(s) && LoopAllowed(s, TakeReady)
    ensures var s' := TakeReadyNext(s); var a := Answered(s, TakeReady).value;
      && s'.accepted == s.accepted && Pending(s).Some? && Pending(s') == None
      && s'.answers == s.Respond(Pending(s).value, a).answers && s'.shared == if a.Applied? then a.loaded else s.shared
  {
    ReadyMeansUp(s);
  }

  /** What a loop move does with requests and answers. */
  lemma LoopAnswers(s: State, m: Move)
    requires s.versions != [] && Generations(s) && LoopAllowed(s, m)
    ensures var s' := LoopNext(s, m);
      && s'.accepted == s.accepted + (if m.Accept? then 1 else 0)
      && (m.Accept? ==>
            s'.pc == Loading(s.accepted) && Pending(s) == None && s'.shared == s.shared && s'.answers == s.answers)
      && (if Answered(s, m) == None then
            s'.answers == s.answers && s'.shared == s.shared && (m.Accept? || Pending(s') == Pending(s))
          else
            && Pending(s).Some? && Pending(s') == None
                 && s'.answers == s.Respond(Pending(s).value, Answered(s, m).value).answers
            && s'.shared == if Answered(s, m).value.Applied? then Answered(s, m).value.loaded else s.shared)
  {
    if m.TakeReady? { ReadyAnswers(s); } else if m.CheckInterrupt? { CheckAnswers(s); }
  }

  lemma CheckAnswers(s: State)
    requires LoopAllowed(s, CheckInterrupt)
    ensures var s' := CheckNext(s); var a := Answered(s, CheckInterrupt);
      && s'.accepted == s.accepted && s'.shared == s.shared
      && if a == None then s'.answers == s.answers && Pending(s') == Pending(s)
         else a == Some(Failed) && Pending(s').None? && s'.answers == s.Respond(s.pc.request, Failed).answers
  {
  }

  /** The loop does not write the file. */
  lemma LoopReadsTheFile(s: State, m: Move)
    requires s.versions != [] && LoopAllowed(s, m)
    ensures LoopNext(s, m).versions == s.versions && LoopNext(s, m).mutex == s.mutex
  {
    if m.LoadFile? { LoadReadsTheFile(s, m.ok); } else if m.CheckInterrupt? { CheckReadsTheFile(s); }
  }

  lemma LoadReadsTheFile(s: State, ok: bool)
    requires s.versions != [] && LoopAllowed(s, LoadFile(ok))
    ensures LoadNext(s, ok).versions == s.versions && LoadNext(s, ok).mutex == s.mutex
  {
  }

  lemma CheckReadsTheFile(s: State)
    requires LoopAllowed(s, CheckInterrupt)
    ensures CheckNext(s).versions == s.versions && CheckNext(s).mutex == s.mutex
  {
  }

  lemma LoopKeepsAnswers(s: State, m: Move)
    requires s.versions != [] && Generations(s) && Configurations(s) && AnsweredOnce(s) && LoopAllowed(s, m)
    ensures AnsweredOnce(LoopNext(s, m))
  {
    var s' := LoopNext(s, m);
    LoopAnswers(s, m);
    if m.Accept? {
      OneAccepted(s, s');
    } else if Answered(s, m) == None {
      NothingAnswered(s, s');
    } else {
      OneAnswered(s, s', Pending(s).value, Answered(s, m).value);
    }
  }

  lemma DrainKeepsConfigurations(s: State)
    requires Generations(s) && Configurations(s) && LoopAllowed(s, Drain)
    ensures Configurations(DrainNext(s))
  {
  }

  lemma TakeReadyKeepsConfigurations(s: State)
    requires Generations(s) && Configurations(s) && LoopAllowed(s, TakeReady)
    ensures Configurations(TakeReadyNext(s))
  {
    ReadyMeansUp(s);
  }

  lemma TakeDoneKeepsConfigurations(s: State)
    requires Generations(s) && Configurations(s) && LoopAllowed(s, TakeDone)
    ensures Configurations(TakeDoneNext(s))
  {
  }

  lemma CheckKeepsConfigurations(s: State)
    requires Generations(s) && Configurations(s) && LoopAllowed(s, CheckInterrupt)
    ensures Configurations(CheckNext(s))
  {
  }

  lemma CollectKeepsConfigurations(s: State)
    requires Generations(s) && Configurations(s) && LoopAllowed(s, CollectFailed)
    ensures Configurations(CollectNext(s))
  {
  }

  lemma LoopKeepsConfigurations(s: State, m: Move)
    requires Generations(s) && Configurations(s) && LoopAllowed(s, m)
    ensures Configurations(LoopNext(s, m))
  {
    match m
    case Drain => DrainKeepsConfigurations(s);
    case TakeReady => TakeReadyKeepsConfigurations(s);
    case TakeDone => TakeDoneKeepsConfigurations(s);
    case CheckInterrupt => CheckKeepsConfigurations(s);
    case CollectFailed => CollectKeepsConfigurations(s);
    case _ =>
  }

  /** A request is loaded, and answered with what was loaded, only after it was accepted. */
  lemma AnsweringKeepsHandlers(s: State, s': State, r: nat, a: Answer)
    requires s.versions != [] && Handlers(s) && AnsweredOnce(s) && AnsweredOnce(s')
    requires s'.versions == s.versions && s'.handlers == s.handlers && s'.mutex == s.mutex && s'.accepted == s.accepted
    requires Pending(s) == Some(r) && s'.AnswersTo(r) == [a] && forall k: nat ::
      k != r ==> s'.AnswersTo(k) == s.AnswersTo(k)
    requires Pending(s') == None && s'.shared >= s.shared
    requires a.Applied? ==> LoadedFor(s, r) == Some(a.loaded)
    ensures Handlers(s')
  {
    forall h | h in s'.handlers ensures HandlerSafe(s', h) { assert HandlerSafe(s, h); }
  }

  lemma AcceptingKeepsHandlers(s: State, s': State, from: Source)
    requires s.versions != [] && Handlers(s) && AnsweredOnce(s) && LoadedFor(s', s.accepted) == None
    requires s'.versions == s.versions && s'.mutex == s.mutex && s'.answers == s.answers && s'.shared == s.shared
    requires s'.accepted == s.accepted + 1 && forall r: nat :: LoadedFor(s', r) == None
    requires from.Push? ==> from.h in s.handlers && s.handlers[from.h].Offering?
    requires s'.handlers == if from.Signal? then s.handlers
      else s.handlers[from.h := Waiting(s.handlers[from.h].version, s.handlers[from.h].put, s.accepted)]
    ensures Handlers(s')
  {
    assert s.AnswersTo(s.accepted) == [];
    assert forall r: nat :: s'.AnswersTo(r) == s.AnswersTo(r);
    forall h | h in s'.handlers ensures HandlerSafe(s', h) { assert HandlerSafe(s, h); }
  }

  /** The load sees every version committed so far, so also the one any waiting push has put there. */
  lemma LoadingKeepsHandlers(s: State, m: Move)
    requires s.versions != [] && s.versions[Last(s)].loads && Handlers(s) && m.LoadFile? && m.ok && LoopAllowed(s, m)
    ensures Handlers(LoopNext(s, m))
  {
    var s' := LoopNext(s, m);
    assert forall r: nat :: s'.AnswersTo(r) == s.AnswersTo(r);
    forall h | h in s'.handlers ensures HandlerSafe(s', h) { assert HandlerSafe(s, h); }
  }

  lemma AcceptKeepsHandlers(s: State, from: Source)
    requires s.versions != [] && Handlers(s) && AnsweredOnce(s) && LoopAllowed(s, Accept(from))
    ensures Handlers(AcceptNext(s, from))
  {
    AcceptingKeepsHandlers(s, AcceptNext(s, from), from);
  }

  /** Only a load gives a request a version. */
  lemma LoadedOnlyByLoad(s: State, m: Move)
    requires s.versions != [] && LoopAllowed(s, m) && !m.LoadFile? && !m.Accept?
    ensures LoopNext(s, m).handlers == s.handlers
    ensures forall r: nat :: LoadedFor(LoopNext(s, m), r).None? || LoadedFor(LoopNext(s, m), r) == LoadedFor(s, r)
  {
  }

  lemma LoopKeepsHandlers(s: State, o: Host, m: Move)
    requires Safe(s, o) && LoopAllowed(s, m) && !m.Accept?
    ensures Handlers(LoopNext(s, m))
  {
    var s' := LoopNext(s, m);
    LoopAnswers(s, m);
    LoopReadsTheFile(s, m);
    LoopKeepsAnswers(s, m);
    if Answered(s, m).Some? {
      OneAnswered(s, s', Pending(s).value, Answered(s, m).value);
      AnsweringKeepsHandlers(s, s', Pending(s).value, Answered(s, m).value);
    } else if m.LoadFile? {
      LoadingKeepsHandlers(s, m);
    } else {
      LoadedOnlyByLoad(s, m);
      HandlersUntouched(s, s');
    }
  }

  lemma LoopMove(s: State, o: Host, m: Move)
    requires Safe(s, o) && LoopAllowed(s, m)
    ensures Safe(LoopNext(s, m), o)
  {
    LoopReadsTheFile(s, m);
    LoopKeepsGenerations(s, m);
    LoopKeepsAnswers(s, m);
    LoopKeepsConfigurations(s, m);
    if m.Accept? { AcceptKeepsHandlers(s, m.from); } else { LoopKeepsHandlers(s, o, m); }
  }

  lemma InterruptMove(s: State, o: Host)
    requires Safe(s, o)
    ensures Safe(s.(cancelled := true), o)
  {
    LoopUntouchedKeeps(s, s.(cancelled := true));
    HandlersUntouched(s, s.(cancelled := true));
  }

  /** Somebody writes the file. */
  lemma EditMove(s: State, o: Host, text: string)
    requires Safe(s, o)
    ensures Safe(s.(versions := s.versions + [Version(text, Loads(o, text), Outsider)]), o)
  {
    var v := Version(text, Loads(o, text), Outsider);
    var s' := s.(versions := s.versions + [v]);
    OneMoreVersion(o, s.versions, v);
    LoopUntouchedKeeps(s, s');
    forall h | h in s'.handlers ensures HandlerSafe(s', h) { assert HandlerSafe(s, h); }
  }

  lemma MoveKeepsSafe(s: State, o: Host, m: Move)
    requires Safe(s, o) && Allowed(s, m) && RoundTrips(o.codec)
    ensures Safe(Next(s, o, m), o)
  {
    if OfGeneration(m) {
      GenerationMove(s, o, m);
    } else if m.Interrupt? {
      InterruptMove(s, o);
    } else if m.Edit? {
      EditMove(s, o, m.text);
    } else if HandlerAllowed(s, m) {
      HandlerMove(s, o, m);
    } else {
      LoopMove(s, o, m);
    }
  }

  // ----- runs -----

  predicate Possible(s: State, o: Host, ms: seq<Move>)
    decreases |ms|
  {
    ms == [] || (Allowed(s, ms[0]) && Possible(Next(s, o, ms[0]), o, ms[1..]))
  }

  function After(s: State, o: Host, ms: seq<Move>): State
    requires Possible(s, o, ms)
    decreases |ms|
  {
    if ms == [] then s else After(Next(s, o, ms[0]), o, ms[1..])
  }

  lemma BootSafe(text: string, o: Host)
    requires Loads(o, text)
    ensures Safe(Booted(text), o)
  {
    assert forall r: nat :: Booted(text).AnswersTo(r) == [];
  }

  lemma {:induction false} RunSafe(s: State, o: Host, ms: seq<Move>)
    requires Safe(s, o) && Possible(s, o, ms) && RoundTrips(o.codec)
    ensures Safe(After(s, o, ms), o)
    decreases |ms|
  {
    if ms != [] {
      MoveKeepsSafe(s, o, ms[0]);
      RunSafe(Next(s, o, ms[0]), o, ms[1..]);
    }
  }

  /** The state of a daemon started on `c` after some moves. */
  ghost predicate Reachable(s: State, o: Host, text: string) {
    RoundTrips(o.codec) && Loads(o, text) && exists ms ::
      Possible(Booted(text), o, ms) && s == After(Booted(text), o, ms)
  }

  lemma ReachableSafe(s: State, o: Host, text: string)
    requires Reachable(s, o, text)
    ensures Safe(s, o)
  {
    var ms :| Possible(Booted(text), o, ms) && s == After(Booted(text), o, ms);
    BootSafe(text, o);
    RunSafe(Booted(text), o, ms);
  }

  /** The generation whose `done` the loop is receiving from, or may choose to receive from. */
  function WaitedFor(s: State): Option<GenId> {
    match s.pc
    case Select => Some(s.current)
    case Draining(_, _) => Some(s.current)
    case Stopping => Some(s.current)
    case AwaitingNew(_, _, g) => Some(g)
    case AwaitingOld(_) => Some(s.current)
    case NewFailed(_, g, running) => if running then Some(g) else None
    case OldFailed(_, running) => if running then Some(s.current) else None
    case _ => None
  }

  /** The loop has found that the generation it started did not start. */
  predicate StartFailed(s: State) { s.pc.NewFailed? || s.pc.CheckingNew? || s.pc.OldFailed? || s.pc.CheckingOld? }

  /**
   At most one generation is ever alive, and only it can hold storage open or run bridges.  Each one's `done` is sent
   to once, when it exits, and received from at most once; the loop never waits for one it has drained already.  Once
   a start has failed, or the daemon has returned, nothing is alive any more and every `done` has been drained.
   */
  lemma OneGenerationAtATime(s: State, o: Host, text: string)
    requires Reachable(s, o, text)
    ensures forall g, k | 0 <= g < |s.gens| && 0 <= k < |s.gens| && Alive(s.gens[g]) && Alive(s.gens[k]) :: g == k
    ensures forall g | 0 <= g < |s.gens| ::
      && s.gens[g].sends == (if Alive(s.gens[g]) then 0 else 1) && s.gens[g].receives <= s.gens[g].sends
    ensures WaitedFor(s).Some? ==>
      var g := WaitedFor(s).value;
      g < |s.gens| && s.gens[g].receives == 0 && (Alive(s.gens[g]) || s.gens[g].done.Some?)
    ensures StartFailed(s) || s.pc.Returned? ==>
      forall g | 0 <= g < |s.gens| :: !Alive(s.gens[g]) && s.gens[g].receives == 1
  {
    ReachableSafe(s, o, text);
    assert forall g | 0 <= g < |s.gens| :: Tidy(s.gens[g]);
    WaitsForTheLive(s);
  }

  lemma WaitsForTheLive(s: State)
    requires Generations(s)
    ensures WaitedFor(s).Some? ==>
      var g := WaitedFor(s).value; g < |s.gens| && s.gens[g].receives == 0 && (Alive(s.gens[g]) || s.gens[g].done.Some?)
    ensures StartFailed(s) || s.pc.Returned? ==> Live(s) == None
  {
    if WaitedFor(s).Some? { assert Tidy(s.gens[WaitedFor(s).value]); }
  }

  /** An accepted request is answered exactly once: not before it is done with, and never again. */
  lemma AnsweredExactlyOnce(s: State, o: Host, text: string, r: nat)
    requires Reachable(s, o, text)
    ensures |s.AnswersTo(r)| == if r < s.accepted && Pending(s) != Some(r) then 1 else 0
    ensures s.pc.Select? || s.pc.Returned? ==> |s.AnswersTo(r)| == if r < s.accepted then 1 else 0
  {
    ReachableSafe(s, o, text);
  }

  /** Between reloads the loop, the listener and the running generation have the same configuration, which loads. */
  lemma ConfigurationsAgree(s: State, o: Host, text: string)
    requires Reachable(s, o, text) && s.pc.Select?
    ensures s.current < |s.gens| && s.cfg == s.shared == s.gens[s.current].version < |s.versions|
    ensures Loads(o, s.versions[s.cfg].text)
  {
    ReachableSafe(s, o, text);
  }

  /** What an answer given in moving from `s` to `s'` says is so. */
  ghost predicate Truthful(s: State, s': State, a: Answer) {
    match a
    case Applied(loaded) =>
      && s.pc.AwaitingNew? && s'.shared == loaded == s.pc.loaded && Sound(s, loaded)
      && s'.pc == Swapping(loaded, s.pc.started) && s.pc.started < |s'.gens|
      && s'.gens[s.pc.started].version == loaded && !s'.gens[s.pc.started].phase.Setup?
    case Failed =>
      && s'.shared == s.shared
      && if s'.pc.Select? then Settled(s') && (s.pc.AwaitingOld? ==> !s'.gens[s'.current].phase.Setup?)
         else s'.pc.Returned? && forall g | 0 <= g < |s'.gens| :: !Alive(s'.gens[g])
  }

  /**
   Answers are truthful.  Success means that the generation just started has got past its setup with the configuration
   loaded for this very request, which is shared with the listener and becomes the loop's own.  Failure means that the
   previous configuration is still shared and is the loop's and that of the generation it goes on with, which has got
   past its setup if it had to be started again; or else that the daemon returns with nothing alive.
   */
  lemma AnswersAreTruthful(s: State, o: Host, text: string, m: Move)
    requires Reachable(s, o, text) && s.versions != [] && LoopAllowed(s, m) && Answered(s, m).Some?
    ensures Truthful(s, LoopNext(s, m), Answered(s, m).value)
  {
    ReachableSafe(s, o, text);
    if m.TakeReady? {
      ReadyIsTrue(s, o);
    } else {
      LoopMove(s, o, m);
      FailedIsTrue(s, LoopNext(s, m), o, m);
    }
  }

  lemma ReadyIsTrue(s: State, o: Host)
    requires Safe(s, o) && LoopAllowed(s, TakeReady)
    ensures Truthful(s, TakeReadyNext(s), Answered(s, TakeReady).value)
  {
    ReadyMeansUp(s);
  }

  lemma FailedIsTrue(s: State, s': State, o: Host, m: Move)
    requires Safe(s, o) && LoopAllowed(s, m) && !m.TakeReady? && Answered(s, m) == Some(Failed)
    requires s' == LoopNext(s, m) && Safe(s', o)
    ensures Truthful(s, s', Failed)
  {
    LoopAnswers(s, m);
  }

  /** What `ready` says is never an error, and a generation that said so is past its setup. */
  lemma ReadyMeansUp(s: State)
    requires Generations(s) && LoopAllowed(s, TakeReady)
    ensures s.gens[Awaited(s)].ready == Some(false) && !s.gens[Awaited(s)].phase.Setup?
  {
    assert Tidy(s.gens[Awaited(s)]);
  }

  /** A reload loads the file as it is then; one that cannot be read or does not load leaves all as it was. */
  lemma LoadsTheFileAsItIs(s: State, ok: bool)
    requires s.versions != [] && LoopAllowed(s, LoadFile(ok))
    ensures var s' := LoopNext(s, LoadFile(ok));
      && s'.gens == s.gens && s'.cfg == s.cfg && s'.shared == s.shared && s'.current == s.current
      && if ok && s.versions[|s.versions| - 1].loads
         then s'.pc == Draining(s.pc.request, |s.versions| - 1) && s'.answers == s.answers
         else s'.pc == Select && s'.AnswersTo(s.pc.request) == s.AnswersTo(s.pc.request) + [Failed]
  {
  }

  /**
   When the new configuration did not start, the previous one is started again, unless the daemon is being stopped: then
   it returns, and when neither starts it returns too.
   */
  lemma RevertsUnlessStopping(s: State)
    requires s.versions != [] && LoopAllowed(s, CheckInterrupt)
    ensures var s' := LoopNext(s, CheckInterrupt);
      && (s.cancelled || s.pc.CheckingOld? ==>
            s'.pc == Returned && s'.gens == s.gens
            && s'.AnswersTo(s.pc.request) == s.AnswersTo(s.pc.request) + [Failed])
      && (!s.cancelled && s.pc.CheckingNew? ==>
            && s'.pc == AwaitingOld(s.pc.request) && s'.current == |s.gens| && |s'.gens| == |s.gens| + 1
            && s'.gens[..|s.gens|] == s.gens && s'.gens[|s.gens|].version == s.cfg && s'.gens[|s.gens|].phase == Setup
            && s'.answers == s.answers)
  {
  }

  /**
   Pushes are serialised, whatever others write to the file in between.  A version a push wrote loads and differs from
   the one right before it in one user's rules; a handler that answers put its rules in the version it names.  With 200
   the configuration running was loaded from that version or a later one, and with 202 its reload was answered with an
   error.
   */
  lemma PushesSerialise(s: State, o: Host, text: string)
    requires Reachable(s, o, text)
    ensures forall i | 0 <= i < |s.versions| && s.versions[i].origin.Pushed? ::
      i > 0 && Loads(o, s.versions[i].text)
      && RulesReplaced(o, s.versions[i - 1].text, s.versions[i].text, s.versions[i].origin.put)
    ensures forall h | h in s.handlers && s.handlers[h].Answered200? ::
      var p := s.handlers[h];
      && p.version < |s.versions| && s.versions[p.version].origin == Pushed(p.put)
      && exists l: nat :: s.AnswersTo(p.request) == [Applied(l)] && p.version <= l <= s.shared
    ensures forall h | h in s.handlers && s.handlers[h].Answered202? ::
      var p := s.handlers[h];
      && p.version < |s.versions| && s.versions[p.version].origin == Pushed(p.put) && s.AnswersTo(p.request) == [Failed]
  {
    ReachableSafe(s, o, text);
    forall h | h in s.handlers && s.handlers[h].Answered200?
      ensures var p := s.handlers[h];
        && p.version < |s.versions| && s.versions[p.version].origin == Pushed(p.put)
        && exists l: nat :: s.AnswersTo(p.request) == [Applied(l)] && p.version <= l <= s.shared
    {
      assert HandlerSafe(s, h);
      var p := s.handlers[h];
      assert s.AnswersTo(p.request) == [Applied(s.AnswersTo(p.request)[0].loaded)];
    }
    forall h | h in s.handlers && s.handlers[h].Answered202?
      ensures var p := s.handlers[h];
        && p.version < |s.versions| && s.versions[p.version].origin == Pushed(p.put)
             && s.AnswersTo(p.request) == [Failed]
    {
      assert HandlerSafe(s, h);
    }
  }

  /**
   A push commits exactly its own edit of the file as it is at that moment, or nothing: nothing when somebody wrote
   something else after it was read, or the edit does not load, or I/O fails.
   */
  lemma PushesCommitTheirEdit(s: State, o: Host, text: string, h: Handler, ok: bool)
    requires Reachable(s, o, text) && Allowed(s, CommitPut(h, ok))
    ensures s.handlers[h].before < |s.versions|
    ensures var s' := Next(s, o, CommitPut(h, ok)); var p := s.handlers[h]; var now := s.versions[Last(s)].text;
      if ok && s.versions[p.before].text == now && Edited(o, now, p.put).Some?
      then s'.versions == s.versions + [Version(Edited(o, now, p.put).value, true, Pushed(p.put))]
           && s'.handlers[h] == Offering(|s.versions|, p.put)
      else s'.versions == s.versions && s'.handlers[h] == Rejected(409)
  {
    ReachableSafe(s, o, text);
    assert HandlerSafe(s, h);
  }

  /** Only a writer outside the mutex can change the file between a push's read and its commit. */
  lemma {:induction false} OnlyOutsidersInterfere(s: State, o: Host, ms: seq<Move>, h: Handler)
    requires Safe(s, o) && RoundTrips(o.codec) && Possible(s, o, ms)
    requires h in s.handlers && s.handlers[h].Editing? && s.handlers[h].before == Last(s)
    requires forall i | 0 <= i < |ms| :: !ms[i].Edit? && (ms[i].CommitPut? ==> ms[i].h != h)
    ensures After(s, o, ms).versions == s.versions
    decreases |ms|
  {
    if ms != [] {
      assert HandlerSafe(s, h);
      var s' := Next(s, o, ms[0]);
      MoveKeepsSafe(s, o, ms[0]);
      NobodyElseWrites(s, o, ms[0], h);
      OnlyOutsidersInterfere(s', o, ms[1..], h);
    }
  }

  lemma NobodyElseWrites(s: State, o: Host, m: Move, h: Handler)
    requires Safe(s, o) && Allowed(s, m) && h in s.handlers && s.handlers[h].Editing?
    requires !m.Edit? && (m.CommitPut? ==> m.h != h)
    ensures Next(s, o, m).versions == s.versions && h in Next(s, o, m).handlers
      && Next(s, o, m).handlers[h] == s.handlers[h]
  {
    assert HandlerSafe(s, h);
    if HandlerAllowed(s, m) {
      HandlerFrame(s, o, m);
    } else if LoopAllowed(s, m) {
      LoopReadsTheFile(s, m);
      LoopLeavesEditors(s, m, h);
    }
  }

  lemma LoopLeavesEditors(s: State, m: Move, h: Handler)
    requires s.versions != [] && LoopAllowed(s, m) && h in s.handlers && s.handlers[h].Editing?
    ensures h in LoopNext(s, m).handlers && LoopNext(s, m).handlers[h] == s.handlers[h]
  {
    if !m.LoadFile? && !m.Accept? { LoadedOnlyByLoad(s, m); }
  }

  lemma MoveGoesForward(s: State, o: Host, m: Move)
    requires Safe(s, o) && Allowed(s, m)
    ensures var s' := Next(s, o, m); s.versions <= s'.versions && s.shared <= s'.shared && s.accepted <= s'.accepted
  {
    if HandlerAllowed(s, m) { HandlerFrame(s, o, m); } else if !OfGeneration(m) && !m.Interrupt? && !m.Edit? {
      LoopAnswers(s, m);
      LoopReadsTheFile(s, m);
    }
  }

  /** Versions are only ever added, and what is shared never goes back to an earlier one. */
  lemma {:induction false} RunsGoForward(s: State, o: Host, ms: seq<Move>)
    requires Safe(s, o) && Possible(s, o, ms) && RoundTrips(o.codec)
    ensures s.versions <= After(s, o, ms).versions && s.shared <= After(s, o, ms).shared
    decreases |ms|
  {
    if ms != [] {
      MoveKeepsSafe(s, o, ms[0]);
      MoveGoesForward(s, o, ms[0]);
      RunsGoForward(Next(s, o, ms[0]), o, ms[1..]);
    }
  }
}
