/**
 The daemon as a whole: generations come and go as the reload protocol has it, and every turn of a bridge is taken by a
 generation that is up.  So over all reloads the bridges' turns are one run, with one generation's after another's.
 */
module Gateway {
  import opened Types
  import opened Config
  import opened Daemon
  import opened Reloads
  import Runs

  // What a generation did, or, with nobody, what a person wrote.
  datatype Turn = Turn(taker: Option<GenId>, event: Runs.Event)

  datatype Whole = Whole(s: State, turns: seq<Turn>)

  datatype Happening = Protocol(m: Move) | Works(g: GenId, e: Runs.Event) | Writes(e: Runs.Event)

  function Events(turns: seq<Turn>): seq<Runs.Event> {
    seq(|turns|, i requires 0 <= i < |turns| => turns[i].event)
  }

  /** Bridges run only while their generation is up: it exits when all of them have finished. */
  predicate CanHappen(x: Whole, h: Happening) {
    match h
    case Protocol(m) => Allowed(x.s, m)
    case Works(g, e) =>
      g < |x.s.gens| && x.s.gens[g].phase.Up? && !e.Written? && Runs.Honest(Runs.Run(Events(x.turns)), e)
    case Writes(e) => e.Written?
  }

  function Then(x: Whole, o: Host, h: Happening): Whole
    requires CanHappen(x, h)
  {
    match h
    case Protocol(m) => x.(s := Next(x.s, o, m))
    case Works(g, e) => x.(turns := x.turns + [Turn(Some(g), e)])
    case Writes(e) => x.(turns := x.turns + [Turn(None, e)])
  }

  predicate AllCanHappen(x: Whole, o: Host, hs: seq<Happening>)
    decreases |hs|
  {
    hs == [] || (CanHappen(x, hs[0]) && AllCanHappen(Then(x, o, hs[0]), o, hs[1..]))
  }

  function Afterwards(x: Whole, o: Host, hs: seq<Happening>): Whole
    requires AllCanHappen(x, o, hs)
    decreases |hs|
  {
    if hs == [] then x else Afterwards(Then(x, o, hs[0]), o, hs[1..])
  }

  /** Turns are taken by generations in the order in which they were started. */
  ghost predicate InOrder(turns: seq<Turn>) {
    forall i, j | 0 <= i < j < |turns| && turns[i].taker.Some? && turns[j].taker.Some? ::
      turns[i].taker.value <= turns[j].taker.value
  }

  ghost predicate Orderly(x: Whole, o: Host) {
    && Safe(x.s, o) && Runs.HonestRun(Events(x.turns)) && InOrder(x.turns)
    && (forall i | 0 <= i < |x.turns| && x.turns[i].taker.Some? :: x.turns[i].taker.value < |x.s.gens|)
  }

  /** Whoever is up was started last. */
  lemma LastIsUp(s: State, g: GenId)
    requires Generations(s) && g < |s.gens| && Alive(s.gens[g])
    ensures g == |s.gens| - 1
  {
  }

  lemma TurnOrderly(x: Whole, o: Host, t: Turn)
    requires Orderly(x, o) && Runs.Honest(Runs.Run(Events(x.turns)), t.event)
    requires t.taker.Some? ==> t.taker.value == |x.s.gens| - 1
    ensures Orderly(x.(turns := x.turns + [t]), o)
  {
    Runs.Extend(Events(x.turns), t.event);
    assert Events(x.turns + [t]) == Events(x.turns) + [t.event];
  }

  lemma {:induction false} MoreGenerations(s: State, o: Host, m: Move)
    requires Safe(s, o) && Allowed(s, m)
    ensures |s.gens| <= |Next(s, o, m).gens|
  {
    if HandlerAllowed(s, m) {
      HandlerFrame(s, o, m);
    } else if LoopAllowed(s, m) {
      LoopStartsMore(s, m);
    }
  }

  lemma LoopStartsMore(s: State, m: Move)
    requires s.versions != [] && LoopAllowed(s, m)
    ensures |s.gens| <= |LoopNext(s, m).gens|
  {
  }

  lemma HappeningOrderly(x: Whole, o: Host, h: Happening)
    requires Orderly(x, o) && CanHappen(x, h) && RoundTrips(o.codec)
    ensures Orderly(Then(x, o, h), o)
  {
    match h
    case Protocol(m) =>
      MoveKeepsSafe(x.s, o, m);
      MoreGenerations(x.s, o, m);
    case Works(g, e) =>
      LastIsUp(x.s, g);
      TurnOrderly(x, o, Turn(Some(g), e));
    case Writes(e) => TurnOrderly(x, o, Turn(None, e));
  }

  lemma {:induction false} AllOrderly(x: Whole, o: Host, hs: seq<Happening>)
    requires Orderly(x, o) && AllCanHappen(x, o, hs) && RoundTrips(o.codec)
    ensures Orderly(Afterwards(x, o, hs), o)
    decreases |hs|
  {
    if hs != [] {
      HappeningOrderly(x, o, hs[0]);
      AllOrderly(Then(x, o, hs[0]), o, hs[1..]);
    }
  }

  /**
   Over any interleaving of reloads, shutdown and the bridges' turns: the turns are one honest run, so everything proved
   of those holds across reloads; a generation's turns all come before those of the generations started after it; and
   never are two generations able to take one.
   */
  lemma {:induction false} ReloadsAreOneRun(o: Host, text: string, hs: seq<Happening>)
    requires RoundTrips(o.codec) && Loads(o, text) && AllCanHappen(Whole(Booted(text), []), o, hs)
    ensures var x := Afterwards(Whole(Booted(text), []), o, hs);
      && Runs.HonestRun(Events(x.turns)) && InOrder(x.turns)
      && (forall g, k, e, e' | CanHappen(x, Works(g, e)) && CanHappen(x, Works(k, e')) :: g == k)
  {
    BootSafe(text, o);
    assert Events([]) == [];
    AllOrderly(Whole(Booted(text), []), o, hs);
    var x := Afterwards(Whole(Booted(text), []), o, hs);
    forall g, k, e, e' | CanHappen(x, Works(g, e)) && CanHappen(x, Works(k, e')) ensures g == k {
      LastIsUp(x.s, g);
      LastIsUp(x.s, k);
    }
  }
}
