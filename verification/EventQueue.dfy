/**
 The unbounded event queue between a protocol library's goroutine and a bridge: a monitor with one condition variable.
 The phone client and the Discord client each hold one.
 */
module EventQueue {
  type Thread = nat

  // What one pass through `pop` under the mutex comes to.
  datatype Outcome<T> = Sleeps | Got(value: T) | Ended

  // `woken` are the poppers signalled but not yet back under the mutex.
  datatype Monitor<T> = Monitor(items: seq<T>, closed: bool, sleeping: set<Thread>, woken: set<Thread>) {
    /** Whenever somebody sleeps, the queue is open and every buffered item has a woken popper on its way. */
    ghost predicate Valid() {
      && sleeping !! woken
      && (sleeping != {} ==> !closed && |items| <= |woken|)
    }

    /** `who` is the sleeper a signal wakes, if anybody sleeps. */
    function Pushed(v: T, who: Thread): Monitor<T> {
      if closed then this
      else if who in sleeping then Monitor(items + [v], closed, sleeping - {who}, woken + {who})
      else this.(items := items + [v])
    }

    function Outcome(): Outcome<T> {
      if items == [] && !closed then Sleeps else if items == [] then Ended else Got(items[0])
    }

    /** A popper that holds the mutex, fresh or woken, tries once. */
    function Tried(t: Thread): Monitor<T> {
      match Outcome()
      case Sleeps => this.(sleeping := sleeping + {t}, woken := woken - {t})
      case Ended => this.(woken := woken - {t})
      case Got(_) => this.(items := items[1..], woken := woken - {t})
    }

    function Closed(): Monitor<T> { Monitor(items, true, {}, woken + sleeping) }
  }

  class Queue<T> {
    var items: seq<T>
    var closed: bool
    var sleeping: set<Thread>
    var woken: set<Thread>

    constructor ()
      ensures View() == Monitor([], false, {}, {})
    {
      items, closed, sleeping, woken := [], false, {}, {};
    }

    function View(): Monitor<T>
      reads this
    {
      Monitor(items, closed, sleeping, woken)
    }

    method Signal(who: Thread)
      modifies this`sleeping, this`woken
      ensures if who in old(sleeping) then sleeping == old(sleeping) - {who} && woken == old(woken) + {who}
              else sleeping == old(sleeping) && woken == old(woken)
    {
      if who in sleeping {
        sleeping, woken := sleeping - {who}, woken + {who};
      }
    }

    method Push(v: T, who: Thread)
      modifies this
      ensures View() == old(View()).Pushed(v, who)
    {
      if closed { return; }
      items := items + [v];
      Signal(who);
    }

    /** One pass of the loop in `pop`: the caller comes back here when it is woken. */
    method TryPop(t: Thread) returns (r: Outcome<T>)
      modifies this
      ensures r == old(View()).Outcome()
      ensures View() == old(View()).Tried(t)
    {
      woken := woken - {t};
      if |items| == 0 && !closed {
        sleeping := sleeping + {t};
        return Sleeps;
      }
      if |items| == 0 { return Ended; }
      r := Got(items[0]);
      items := items[1..];
    }

    method Close()
      modifies this
      ensures View() == old(View()).Closed()
    {
      closed := true;
      sleeping, woken := {}, woken + sleeping;
    }
  }

  // ----- whole runs -----

  datatype Move<T> = Push(value: T, who: Thread) | Enter(t: Thread) | Resume(t: Thread) | Close

  // What was accepted and what was handed out, in order.
  datatype Trace<T> = Trace(m: Monitor<T>, accepted: seq<T>, popped: seq<T>)

  predicate Allowed<T>(m: Monitor<T>, mv: Move<T>) {
    match mv
    case Push(_, who) => m.sleeping != {} ==> who in m.sleeping
    case Enter(t) => t !in m.sleeping && t !in m.woken
    case Resume(t) => t in m.woken
    case Close => true
  }

  function Next<T>(s: Trace<T>, mv: Move<T>): Trace<T> {
    match mv
    case Push(v, who) => Trace(s.m.Pushed(v, who), if s.m.closed then s.accepted else s.accepted + [v], s.popped)
    case Enter(t) => s.(m := s.m.Tried(t), popped := s.popped + Handed(s.m))
    case Resume(t) => s.(m := s.m.Tried(t), popped := s.popped + Handed(s.m))
    case Close => s.(m := s.m.Closed())
  }

  function Handed<T>(m: Monitor<T>): seq<T> { if m.Outcome().Got? then [m.Outcome().value] else [] }

  lemma SignalKeepsValid<T>(m: Monitor<T>, v: T, who: Thread)
    requires m.Valid() && Allowed(m, Push(v, who))
    ensures m.Pushed(v, who).Valid()
  {
    if who in m.sleeping && !m.closed { assert who !in m.woken; }
  }

  lemma TryKeepsValid<T>(m: Monitor<T>, t: Thread)
    requires m.Valid() && t !in m.sleeping
    ensures m.Tried(t).Valid()
  {
    if t in m.woken { assert |m.woken - {t}| == |m.woken| - 1; } else { assert m.woken - {t} == m.woken; }
  }

  predicate AllAllowed<T>(s: Trace<T>, ms: seq<Move<T>>)
    decreases |ms|
  {
    ms == [] || (Allowed(s.m, ms[0]) && AllAllowed(Next(s, ms[0]), ms[1..]))
  }

  function Run<T>(s: Trace<T>, ms: seq<Move<T>>): Trace<T>
    decreases |ms|
  {
    if ms == [] then s else Run(Next(s, ms[0]), ms[1..])
  }

  ghost predicate Faithful<T>(s: Trace<T>) {
    s.m.Valid() && s.accepted == s.popped + s.m.items
  }

  lemma StepFaithful<T>(s: Trace<T>, mv: Move<T>)
    requires Faithful(s) && Allowed(s.m, mv)
    ensures var s' := Next(s, mv); Faithful(s') && (s.m.closed ==> s'.m.closed && s'.accepted == s.accepted)
  {
    match mv {
      case Push(v, who) => SignalKeepsValid(s.m, v, who);
      case Enter(t) => TryFaithful(s, t);
      case Resume(t) => TryFaithful(s, t);
      case Close =>
    }
  }

  lemma TryFaithful<T>(s: Trace<T>, t: Thread)
    requires Faithful(s) && t !in s.m.sleeping
    ensures Faithful(s.(m := s.m.Tried(t), popped := s.popped + Handed(s.m)))
  {
    TryKeepsValid(s.m, t);
    assert Handed(s.m) + s.m.items[|Handed(s.m)|..] == s.m.items;
  }

  lemma {:induction false} RunFaithful<T>(s: Trace<T>, ms: seq<Move<T>>)
    requires Faithful(s) && AllAllowed(s, ms)
    ensures Faithful(Run(s, ms))
    ensures s.m.closed ==> Run(s, ms).m.closed && Run(s, ms).accepted == s.accepted
    decreases |ms|
  {
    if ms != [] {
      StepFaithful(s, ms[0]);
      RunFaithful(Next(s, ms[0]), ms[1..]);
    }
  }

  function Fresh<T>(): Trace<T> { Trace(Monitor([], false, {}, {}), [], []) }

  /**
   The queue is a FIFO: what was accepted is what was popped followed by the buffer, in order; nothing is accepted
   once it is closed; a popper is turned away only from a closed, drained queue; and no wakeup is lost, so with no
   popper on its way nobody sleeps beside an item or beside a closed queue.
   */
  lemma QueueIsFifo<T>(ms: seq<Move<T>>, more: seq<Move<T>>)
    requires AllAllowed(Fresh(), ms) && AllAllowed(Run(Fresh(), ms), more)
    ensures var s := Run(Fresh(), ms);
            && s.accepted == s.popped + s.m.items
            && (s.m.closed ==> Run(s, more).accepted == s.accepted)
            && (s.m.Outcome().Ended? ==> s.m.closed && s.popped == s.accepted)
            && (s.m.woken == {} && s.m.sleeping != {} ==> s.m.items == [] && !s.m.closed)
            && (s.m.sleeping != {} ==> |s.m.items| <= |s.m.woken|)
  {
    RunFaithful(Fresh(), ms);
    RunFaithful(Run(Fresh(), ms), more);
  }
}
