/**
 The daemon's main loop as it is written: it reassigns its own variables and waits on channels, while everybody else
 goes on meanwhile.  Whatever it does is a run of the reload protocol.
 */
module MainLoop {
  import opened Types
  import opened Config
  import opened Daemon
  import opened Reloads

  ghost predicate Leads(o: Host, s: State, s': State) {
    exists ms :: Possible(s, o, ms) && s' == After(s, o, ms)
  }

  lemma LeadsNowhere(o: Host, s: State)
    ensures Leads(o, s, s)
  {
    assert Possible(s, o, []) && After(s, o, []) == s;
  }

  lemma {:induction false} PossibleThen(o: Host, s: State, ms: seq<Move>, m: Move)
    requires Possible(s, o, ms) && Allowed(After(s, o, ms), m)
    ensures Possible(s, o, ms + [m]) && After(s, o, ms + [m]) == Next(After(s, o, ms), o, m)
    decreases |ms|
  {
    if ms == [] {
      assert [m][1..] == [];
      assert Possible(Next(s, o, m), o, []);
      assert ms + [m] == [m];
    } else {
      PossibleThen(o, Next(s, o, ms[0]), ms[1..], m);
      assert (ms + [m])[0] == ms[0] && (ms + [m])[1..] == ms[1..] + [m];
    }
  }

  lemma LeadsThen(o: Host, s: State, s': State, m: Move)
    requires Leads(o, s, s') && Allowed(s', m)
    ensures Leads(o, s, Next(s', o, m))
  {
    var ms :| Possible(s, o, ms) && s' == After(s, o, ms);
    PossibleThen(o, s, ms, m);
    assert After(s, o, ms + [m]) == Next(s', o, m);
  }

  // One move of the loop further, for each kind of move.

  lemma ThenStopping(o: Host, start: State, s: State)
    requires Leads(o, start, s) && s.versions != [] && s.pc.Select? && s.cancelled
    ensures Leads(o, start, s.(pc := Stopping))
  {
    LeadsThen(o, start, s, SeeInterrupt);
  }

  lemma ThenReturned(o: Host, start: State, s: State)
    requires Leads(o, start, s) && s.versions != [] && (s.pc.Select? || s.pc.Stopping?) && HasDone(s, s.current)
    ensures Leads(o, start, Receive(s, s.current).(pc := Returned))
  {
    LeadsThen(o, start, s, if s.pc.Select? then SeeDone else Drain);
  }

  lemma ThenLoading(o: Host, start: State, s: State, from: Source)
    requires Leads(o, start, s) && s.versions != [] && LoopAllowed(s, Accept(from))
    ensures Leads(o, start, AcceptNext(s, from))
  {
    LeadsThen(o, start, s, Accept(from));
  }

  lemma ThenLoaded(o: Host, start: State, s: State, ok: bool)
    requires Leads(o, start, s) && s.versions != [] && s.pc.Loading?
    ensures Leads(o, start, LoadNext(s, ok))
  {
    LeadsThen(o, start, s, LoadFile(ok));
  }

  lemma ThenStarted(o: Host, start: State, s: State)
    requires Leads(o, start, s) && s.versions != [] && s.pc.Draining? && HasDone(s, s.current)
    ensures Leads(o, start, DrainNext(s))
  {
    LeadsThen(o, start, s, Drain);
  }

  lemma ThenReady(o: Host, start: State, s: State)
    requires Leads(o, start, s) && s.versions != [] && LoopAllowed(s, TakeReady)
    ensures Leads(o, start, TakeReadyNext(s))
  {
    LeadsThen(o, start, s, TakeReady);
  }

  lemma ThenFailed(o: Host, start: State, s: State)
    requires Leads(o, start, s) && s.versions != [] && LoopAllowed(s, TakeDone)
    ensures Leads(o, start, TakeDoneNext(s))
  {
    LeadsThen(o, start, s, TakeDone);
  }

  lemma ThenSwapped(o: Host, start: State, s: State)
    requires Leads(o, start, s) && s.versions != [] && s.pc.Swapping?
    ensures Leads(o, start, s.(cfg := s.pc.loaded, current := s.pc.started, pc := Select))
  {
    LeadsThen(o, start, s, FinishSwap);
  }

  lemma ThenCollected(o: Host, start: State, s: State)
    requires Leads(o, start, s) && s.versions != [] && LoopAllowed(s, CollectFailed)
    ensures Leads(o, start, CollectNext(s))
  {
    LeadsThen(o, start, s, CollectFailed);
  }

  lemma ThenChecked(o: Host, start: State, s: State)
    requires Leads(o, start, s) && s.versions != [] && LoopAllowed(s, CheckInterrupt)
    ensures Leads(o, start, CheckNext(s))
  {
    LeadsThen(o, start, s, CheckInterrupt);
  }

  // The two ways in which `waitReady` reports a failure.

  lemma NewNotUp(o: Host, start: State, s: State, s': State)
    requires Leads(o, start, s) && s.versions != [] && s.pc.AwaitingNew? && s.pc.started < |s.gens| && s'.pc.NewFailed?
    requires s'.pc == NewFailed(s.pc.request, s.pc.started, s'.pc.running)
    requires var g := s.gens[s.pc.started];
      if s'.pc.running then g.ready == Some(true) && s' == s.SetGen(s.pc.started, g.(ready := None)).(pc := s'.pc)
      else g.done.Some? && s' == s.SetGen(s.pc.started, Received(g)).(pc := s'.pc)
    ensures Leads(o, start, s')
  {
    if s'.pc.running { ThenReady(o, start, s); } else { ThenFailed(o, start, s); }
  }

  lemma OldNotUp(o: Host, start: State, s: State, s': State)
    requires Leads(o, start, s) && s.versions != [] && s.pc.AwaitingOld? && s.current < |s.gens| && s'.pc.OldFailed?
    requires s'.pc == OldFailed(s.pc.request, s'.pc.running)
    requires var g := s.gens[s.current];
      if s'.pc.running then g.ready == Some(true) && s' == s.SetGen(s.current, g.(ready := None)).(pc := s'.pc)
      else g.done.Some? && s' == s.SetGen(s.current, Received(g)).(pc := s'.pc)
    ensures Leads(o, start, s')
  {
    if s'.pc.running { ThenReady(o, start, s); } else { ThenFailed(o, start, s); }
  }

  /** A move of anybody but the loop. */
  predicate OfOthers(s: State, m: Move) {
    Allowed(s, m) && (OfGeneration(m) || m.Interrupt? || m.Edit? || HandlerAllowed(s, m))
  }

  // Which case of the select is taken; `loadOk` is whether the configuration file loads.
  datatype Choice = OnInterrupt | OnDone | OnReload(from: Source, loadOk: bool)

  // What `waitReady` reports; `Nothing` if neither channel has anything yet.
  datatype Waited = IsUp | NotUp(running: bool) | Nothing

  // What everybody else does while the loop is at its select and while it waits for the old generation, the new one and
  // a restarted one, and which of two channels the loop takes when both have something.
  datatype Meanwhile = Meanwhile(
    idle: seq<Move>, draining: seq<Move>, starting: seq<Move>, restarting: seq<Move>, readyFirst: bool)

  class MainLoop {
    // shared with the generations and the handlers
    var versions: seq<Version>
    var mutex: Option<Handler>
    var handlers: map<Handler, HandlerPc>
    var gens: seq<Generation>
    var cancelled: bool
    var accepted: nat
    var answers: map<nat, seq<Answer>>
    var sharedCfg: nat
    // the loop's own
    var cfg: nat
    var genDone: GenId

    ghost function View(pc: Pc): State
      reads this
    {
      State(versions, mutex, handlers, pc, cfg, sharedCfg, gens, genDone, cancelled, accepted, answers)
    }

    constructor (text: string)
      ensures View(Select) == Booted(text)
    {
      versions, mutex, handlers := [Version(text, true, Boot)], None, map[];
      gens, cancelled, accepted, answers := [Started(0)], false, 0, map[];
      sharedCfg, cfg, genDone := 0, 0, 0;
    }

    /** The others go on; the moves that are not theirs, or not possible, do not happen. */
    method Others(o: Host, pc: Pc, ms: seq<Move>, ghost start: State)
      requires Leads(o, start, View(pc)) && versions != []
      modifies this
      ensures Leads(o, start, View(pc)) && versions != []
      ensures cfg == old(cfg) && genDone == old(genDone) && sharedCfg == old(sharedCfg) && |gens| == |old(gens)|
        && answers == old(answers)
    {
      for i := 0 to |ms|
        invariant Leads(o, start, View(pc)) && versions != []
        invariant cfg == old(cfg) && genDone == old(genDone) && sharedCfg == old(sharedCfg) && |gens| == |old(gens)|
        && answers == old(answers)
      {
        var s := State(versions, mutex, handlers, pc, cfg, sharedCfg, gens, genDone, cancelled, accepted, answers);
        if OfOthers(s, ms[i]) {
          LeadsThen(o, start, s, ms[i]);
          OthersFrame(o, s, ms[i]);
          var s' := Next(s, o, ms[i]);
          versions, mutex, handlers, gens, cancelled := s'.versions, s'.mutex, s'.handlers, s'.gens, s'.cancelled;
          assert View(pc) == s';
        }
      }
    }

    method Respond(r: nat, a: Answer)
      modifies this`answers
      ensures answers == old(View(Select)).Respond(r, a).answers
    {
      answers := answers[r := (if r in answers then answers[r] else []) + [a]];
    }

    /** `<-genDone` */
    method ReceiveDone(g: GenId)
      requires g < |gens|
      modifies this`gens
      ensures gens == old(gens)[g := Received(old(gens)[g])]
    {
      gens := gens[g := gens[g].(done := None, receives := gens[g].receives + 1)];
    }

    /** `waitReady` on generation `g`. */
    method WaitReady(g: GenId, readyFirst: bool) returns (w: Waited)
      requires g < |gens|
      modifies this`gens
      ensures w.Nothing? ==> gens == old(gens) && gens[g].ready.None? && gens[g].done.None?
      ensures w.IsUp? ==> old(gens)[g].ready == Some(false) && gens == old(gens)[g := old(gens)[g].(ready := None)]
      ensures w.NotUp? && w.running ==>
        old(gens)[g].ready == Some(true) && gens == old(gens)[g := old(gens)[g].(ready := None)]
      ensures w.NotUp? && !w.running ==> old(gens)[g].done.Some? && gens == old(gens)[g := Received(old(gens)[g])]
    {
      if gens[g].ready.Some? && (readyFirst || gens[g].done.None?) {
        var failed := gens[g].ready.value;
        gens := gens[g := gens[g].(ready := None)];
        w := if failed then NotUp(true) else IsUp;
      } else if gens[g].done.Some? {
        ReceiveDone(g);
        w := NotUp(false);
      } else {
        w := Nothing;
      }
    }

    /** Back at the select, returned, or waiting for a value on a channel that is empty. */
    ghost predicate Rests(at: Pc)
      reads this
    {
      || at.Select? || at.Returned?
      || (WaitedFor(View(at)).Some? && WaitedFor(View(at)).value < |gens| && gens[WaitedFor(View(at)).value].done.None?)
    }

    /** The case of the select can be taken. */
    predicate Offered(choice: Choice)
      reads this
    {
      match choice
      case OnInterrupt => cancelled
      case OnDone => genDone < |gens| && gens[genDone].done.Some?
      case OnReload(from, _) => from.Push? ==> from.h in handlers && handlers[from.h].Offering?
    }

    /** The daemon from its start: everything it does is a run of the protocol. */
    method Run(o: Host, text: string, turns: seq<(Choice, Meanwhile)>) returns (at: Pc)
      requires RoundTrips(o.codec) && Loads(o, text) && View(Select) == Booted(text)
      modifies this
      ensures Reachable(View(at), o, text) && Rests(at)
    {
      ghost var start := Booted(text);
      LeadsNowhere(o, start);
      for i := 0 to |turns|
        invariant versions != [] && genDone < |gens| && Leads(o, start, View(Select))
      {
        var (choice, f) := turns[i];
        Others(o, Select, f.idle, start);
        if Offered(choice) {
          at := Turn(o, choice, f, start);
          if !at.Select? { return; }
          ReachableSafe(View(Select), o, text);
        }
      }
      at := Select;
    }

    /** One turn of the loop; `at` is where it is then. */
    method Turn(o: Host, choice: Choice, f: Meanwhile, ghost start: State) returns (at: Pc)
      requires versions != [] && genDone < |gens| && Leads(o, start, View(Select)) && Offered(choice)
      modifies this
      ensures Leads(o, start, View(at)) && Rests(at)
    {
      match choice {
        case OnInterrupt => at := Stop(o, f, start);
        case OnDone =>
          ThenReturned(o, start, View(Select));
          ReceiveDone(genDone);
          at := Returned;
        case OnReload(from, loadOk) => at := Reload(o, from, loadOk, f, start);
      }
    }

    method Stop(o: Host, f: Meanwhile, ghost start: State) returns (at: Pc)
      requires versions != [] && genDone < |gens| && cancelled && Leads(o, start, View(Select))
      modifies this
      ensures Leads(o, start, View(at)) && Rests(at)
    {
      ThenStopping(o, start, View(Select));
      assert View(Stopping) == View(Select).(pc := Stopping);
      Others(o, Stopping, f.draining, start);
      if gens[genDone].done.None? { return Stopping; }
      ThenReturned(o, start, View(Stopping));
      ghost var before := View(Stopping);
      ReceiveDone(genDone);
      assert View(Returned) == Receive(before, genDone).(pc := Returned);
      at := Returned;
    }

    /** The next request, and the handler that made it now waits for an answer. */
    method Take(o: Host, from: Source, ghost start: State) returns (r: nat)
      requires versions != [] && Leads(o, start, View(Select))
      requires from.Push? ==> from.h in handlers && handlers[from.h].Offering?
      modifies this`accepted, this`handlers
      ensures r == old(accepted) && Leads(o, start, View(Loading(r)))
    {
      ghost var before := View(Select);
      ThenLoading(o, start, before, from);
      r := accepted;
      accepted := accepted + 1;
      if from.Push? {
        handlers := handlers[from.h := Waiting(handlers[from.h].version, handlers[from.h].put, r)];
      }
      assert View(Loading(r)) == AcceptNext(before, from);
    }

    /**
     What a request comes to: its own configuration swapped in and shared, or an error with the previous one still the
     loop's and shared; and its one answer says which.
     */
    ghost predicate Outcome(r: nat, before: State, at: Pc)
      reads this
    {
      || (at.Select? && cfg == sharedCfg && answers == before.Respond(r, Applied(cfg)).answers)
      || Refused(r, before)
    }

    ghost predicate Refused(r: nat, before: State)
      reads this
    {
      cfg == before.cfg && sharedCfg == before.shared && answers == before.Respond(r, Failed).answers
    }

    /** A configuration that does not load is answered with an error, and nothing else happens. */
    method Reload(o: Host, from: Source, loadOk: bool, f: Meanwhile, ghost start: State) returns (at: Pc)
      requires versions != [] && genDone < |gens| && Leads(o, start, View(Select))
      requires from.Push? ==> from.h in handlers && handlers[from.h].Offering?
      modifies this
      ensures Leads(o, start, View(at)) && Rests(at)
      ensures !(loadOk && old(versions[|versions| - 1].loads)) ==>
        && at == Select && gens == old(gens) && genDone == old(genDone) && cfg == old(cfg)
             && sharedCfg == old(sharedCfg)
        && answers == old(View(Select)).Respond(old(accepted), Failed).answers
      ensures at.Select? || at.Returned? ==> Outcome(old(accepted), old(View(Select)), at)
    {
      var r := Take(o, from, start);
      var loaded := LoadConfig(o, r, loadOk, start);
      if loaded { at := Swap(o, r, |versions| - 1, f, start); } else { at := Select; }
    }

    /** Loads the file as it is now, or answers that it does not load. */
    method LoadConfig(o: Host, r: nat, loadOk: bool, ghost start: State) returns (loaded: bool)
      requires versions != [] && Leads(o, start, View(Loading(r)))
      modifies this`answers
      ensures loaded == (loadOk && versions[|versions| - 1].loads)
      ensures loaded ==> answers == old(answers) && Leads(o, start, View(Draining(r, |versions| - 1)))
      ensures !loaded ==> answers == old(View(Select)).Respond(r, Failed).answers && Leads(o, start, View(Select))
    {
      ghost var loading := View(Loading(r));
      ThenLoaded(o, start, loading, loadOk);
      loaded := loadOk && versions[|versions| - 1].loads;
      if loaded {
        assert View(Draining(r, |versions| - 1)) == LoadNext(loading, loadOk);
      } else {
        Respond(r, Failed);
        assert View(Select) == LoadNext(loading, loadOk);
      }
    }

    /** Stops the running generation and starts one on version `newCfg`; `on` is whether it got that far. */
    method Replace(
        o: Host, r: nat, newCfg: nat, ms: seq<Move>, ghost start: State) returns (on: bool, newGenDone: GenId)
      requires versions != [] && genDone < |gens| && Leads(o, start, View(Draining(r, newCfg)))
      modifies this
      ensures versions != []
      ensures !on ==> genDone < |gens| && gens[genDone].done.None? && Leads(o, start, View(Draining(r, newCfg)))
      ensures on ==> newGenDone < |gens| && Leads(o, start, View(AwaitingNew(r, newCfg, newGenDone)))
      ensures on ==> newGenDone == old(|gens|) && |gens| == old(|gens|) + 1
      ensures cfg == old(cfg) && sharedCfg == old(sharedCfg) && answers == old(answers) && genDone == old(genDone)
    {
      Others(o, Draining(r, newCfg), ms, start);
      if gens[genDone].done.None? { return false, 0; }
      ghost var before := View(Draining(r, newCfg));
      ThenStarted(o, start, before);
      ReceiveDone(genDone);
      newGenDone := |gens|;
      gens := gens + [Started(newCfg)];
      assert View(AwaitingNew(r, newCfg, newGenDone)) == DrainNext(before);
      on := true;
    }

    /** Stops the running generation and swaps in one on version `newCfg`. */
    method Swap(o: Host, r: nat, newCfg: nat, f: Meanwhile, ghost start: State) returns (at: Pc)
      requires versions != [] && genDone < |gens| && Leads(o, start, View(Draining(r, newCfg)))
      modifies this
      ensures Leads(o, start, View(at)) && Rests(at)
      ensures at.Select? || at.Returned? ==> Outcome(r, old(View(Select)), at)
      ensures at.Select? ==> genDone >= old(|gens|) && (cfg == old(cfg) || cfg == newCfg)
    {
      var on, newGenDone := Replace(o, r, newCfg, f.draining, start);
      if !on { return Draining(r, newCfg); }
      var w := AwaitNew(o, r, newCfg, newGenDone, f, start);
      match w {
        case Nothing => at := AwaitingNew(r, newCfg, newGenDone);
        case IsUp =>
          Confirm(o, r, newCfg, newGenDone, start);
          at := Select;
        case NotUp(running) => at := Revert(o, r, newGenDone, running, f, start);
      }
    }

    /** Waits for the new generation to be up. */
    method AwaitNew(o: Host, r: nat, newCfg: nat, g: GenId, f: Meanwhile, ghost start: State) returns (w: Waited)
      requires versions != [] && g < |gens| && Leads(o, start, View(AwaitingNew(r, newCfg, g)))
      modifies this
      ensures versions != [] && cfg == old(cfg) && sharedCfg == old(sharedCfg) && answers == old(answers)
      ensures |gens| == |old(gens)|
      ensures w.Nothing? ==> gens[g].done.None? && Leads(o, start, View(AwaitingNew(r, newCfg, g)))
      ensures w.NotUp? ==> Leads(o, start, View(NewFailed(r, g, w.running)))
      ensures w.IsUp? ==> Leads(o, start, View(Swapping(newCfg, g)).(shared := newCfg).Respond(r, Applied(newCfg)))
    {
      Others(o, AwaitingNew(r, newCfg, g), f.starting, start);
      ghost var before := View(AwaitingNew(r, newCfg, g));
      w := WaitReady(g, f.readyFirst);
      match w {
        case Nothing =>
        case IsUp =>
          ThenReady(o, start, before);
          assert View(Swapping(newCfg, g)).(shared := newCfg).Respond(r, Applied(newCfg)) == TakeReadyNext(before);
        case NotUp(running) => NewNotUp(o, start, before, View(NewFailed(r, g, running)));
      }
    }

    /** The new configuration is running. */
    method Confirm(o: Host, r: nat, newCfg: nat, newGenDone: GenId, ghost start: State)
      requires versions != [] && newGenDone < |gens|
      requires Leads(o, start, View(Swapping(newCfg, newGenDone)).(shared := newCfg).Respond(r, Applied(newCfg)))
      modifies this
      ensures Leads(o, start, View(Select))
      ensures cfg == sharedCfg == newCfg && genDone == newGenDone
      ensures answers == old(View(Select)).Respond(r, Applied(newCfg)).answers
    {
      ghost var swapping := View(Swapping(newCfg, newGenDone)).(shared := newCfg).Respond(r, Applied(newCfg));
      sharedCfg := newCfg;
      Respond(r, Applied(newCfg));
      assert View(swapping.pc) == swapping;
      ThenSwapped(o, start, swapping);
      cfg := newCfg;
      genDone := newGenDone;
      assert View(Select) == swapping.(cfg := newCfg, current := newGenDone, pc := Select);
    }

    /** The new configuration did not start: starts the previous one again, unless the daemon is being stopped. */
    method Revert(o: Host, r: nat, newGenDone: GenId, running: bool, f: Meanwhile, ghost start: State) returns (at: Pc)
      requires versions != [] && newGenDone < |gens| && Leads(o, start, View(NewFailed(r, newGenDone, running)))
      modifies this
      ensures Leads(o, start, View(at)) && Rests(at)
      ensures at.Select? || at.Returned? ==> Refused(r, old(View(Select)))
      ensures at.Select? ==> genDone == old(|gens|)
    {
      var collected := Collect(o, r, newGenDone, running, f.starting, start);
      if !collected { return NewFailed(r, newGenDone, true); }
      ghost var checking := View(CheckingNew(r));
      ThenChecked(o, start, checking);
      if cancelled {
        Respond(r, Failed);
        assert View(Returned) == CheckNext(checking);
        return Returned;
      }
      genDone := |gens|;
      gens := gens + [Started(cfg)];
      assert View(AwaitingOld(r)) == CheckNext(checking);
      at := Restart(o, r, f, start);
    }

    /** Waits for a generation that did not start, if it is still running. */
    method Collect(o: Host, r: nat, newGenDone: GenId, running: bool, ms: seq<Move>, ghost start: State)
      returns (collected: bool)
      requires versions != [] && newGenDone < |gens| && Leads(o, start, View(NewFailed(r, newGenDone, running)))
      modifies this
      ensures versions != [] && cfg == old(cfg) && sharedCfg == old(sharedCfg) && answers == old(answers)
      ensures |gens| == |old(gens)|
      ensures collected ==> Leads(o, start, View(CheckingNew(r)))
      ensures !collected ==>
        running && gens[newGenDone].done.None? && Leads(o, start, View(NewFailed(r, newGenDone, true)))
    {
      if running {
        Others(o, NewFailed(r, newGenDone, true), ms, start);
        if gens[newGenDone].done.None? { return false; }
      }
      ghost var before := View(NewFailed(r, newGenDone, running));
      ThenCollected(o, start, before);
      if running { ReceiveDone(newGenDone); }
      assert View(CheckingNew(r)) == CollectNext(before);
      collected := true;
    }

    /** Waits for the previous configuration to run again. */
    method Restart(o: Host, r: nat, f: Meanwhile, ghost start: State) returns (at: Pc)
      requires versions != [] && genDone < |gens| && Leads(o, start, View(AwaitingOld(r)))
      modifies this
      ensures Leads(o, start, View(at)) && Rests(at) && genDone == old(genDone)
      ensures at.Select? || at.Returned? ==> Refused(r, old(View(Select)))
    {
      var w := AwaitOld(o, r, f, start);
      match w {
        case Nothing => at := AwaitingOld(r);
        case IsUp =>
          ghost var answered := View(Select).Respond(r, Failed);
          Respond(r, Failed);
          assert View(Select) == answered;
          at := Select;
        case NotUp(running) => at := GiveUp(o, r, running, f, start);
      }
    }

    method AwaitOld(o: Host, r: nat, f: Meanwhile, ghost start: State) returns (w: Waited)
      requires versions != [] && genDone < |gens| && Leads(o, start, View(AwaitingOld(r)))
      modifies this
      ensures versions != [] && cfg == old(cfg) && sharedCfg == old(sharedCfg) && answers == old(answers)
      ensures genDone == old(genDone) < |gens|
      ensures w.Nothing? ==> gens[genDone].done.None? && Leads(o, start, View(AwaitingOld(r)))
      ensures w.NotUp? ==> Leads(o, start, View(OldFailed(r, w.running)))
      ensures w.IsUp? ==> Leads(o, start, View(Select).Respond(r, Failed))
    {
      Others(o, AwaitingOld(r), f.restarting, start);
      ghost var before := View(AwaitingOld(r));
      w := WaitReady(genDone, f.readyFirst);
      match w {
        case Nothing =>
        case IsUp =>
          ThenReady(o, start, before);
          assert View(Select).Respond(r, Failed) == TakeReadyNext(before);
        case NotUp(running) => OldNotUp(o, start, before, View(OldFailed(r, running)));
      }
    }

    /** Neither configuration started. */
    method GiveUp(o: Host, r: nat, running: bool, f: Meanwhile, ghost start: State) returns (at: Pc)
      requires versions != [] && genDone < |gens| && Leads(o, start, View(OldFailed(r, running)))
      modifies this
      ensures Leads(o, start, View(at)) && Rests(at) && !at.Select? && genDone == old(genDone)
      ensures at.Returned? ==> Refused(r, old(View(Select)))
    {
      if running {
        Others(o, OldFailed(r, true), f.restarting, start);
        if gens[genDone].done.None? { return OldFailed(r, true); }
      }
      ghost var before := View(OldFailed(r, running));
      ThenCollected(o, start, before);
      if running { ReceiveDone(genDone); }
      ghost var checking := View(CheckingOld(r));
      assert checking == CollectNext(before);
      ThenChecked(o, start, checking);
      Respond(r, Failed);
      assert View(Returned) == CheckNext(checking);
      at := Returned;
    }
  }

  /** Others leave what is the loop's alone. */
  lemma OthersFrame(o: Host, s: State, m: Move)
    requires s.versions != [] && OfOthers(s, m)
    ensures var s' := Next(s, o, m);
      && s'.pc == s.pc && s'.cfg == s.cfg && s'.shared == s.shared && s'.current == s.current
      && s'.accepted == s.accepted && s'.answers == s.answers && |s'.gens| == |s.gens| && s'.versions != []
  {
  }
}
