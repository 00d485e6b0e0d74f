/**
 Any number of handlers opening conversations at once.  Each takes the conversation's own mutex before it looks the
 conversation up, so that two of them never open two threads for it.
 */
module ConversationLocks {
  import opened Types

  type LockId = nat
  type Handler = nat

  /** The mutex table, which is only ever touched under the bridge's own mutex. */
  class LockTable {
    var locks: map<ConvId, LockId>
    var next: LockId

    /** Every conversation has a mutex of its own. */
    ghost predicate Valid()
      reads this
    {
      && (forall c | c in locks :: locks[c] < next)
      && (forall c, c' | c in locks && c' in locks && c != c' :: locks[c] != locks[c'])
    }

    constructor ()
      ensures Valid() && locks == map[] && next == 0
    {
      locks, next := map[], 0;
    }

    /** The mutex of a conversation, made the first time it is asked for. */
    method LockFor(id: ConvId) returns (lock: LockId)
      requires Valid()
      modifies this
      ensures Valid() && forall c | c in locks && c != id :: locks[c] != lock
      ensures (locks, next) == WithLock(old(locks), old(next), id)
      ensures id in locks && lock == locks[id]
    {
      if id !in locks {
        locks := locks[id := next];
        next := next + 1;
      }
      lock := locks[id];
    }
  }

  function WithLock(locks: map<ConvId, LockId>, next: LockId, id: ConvId): (map<ConvId, LockId>, LockId) {
    if id in locks then (locks, next) else (locks[id := next], next + 1)
  }

  // Where a handler is: about to ask for the mutex, waiting for it, or holding it.
  datatype Pc = Asking | Waiting | Looking | Opening | Saving | Leaving {
    predicate Inside() { Looking? || Opening? || Saving? || Leaving? }
  }

  datatype Job = Job(conversation: ConvId, lock: LockId, pc: Pc)

  // `roots` counts the thread headers posted for a conversation, `failed` those whose row could not be stored.
  datatype State = State(
    locks: map<ConvId, LockId>, next: LockId, jobs: map<Handler, Job>, held: map<LockId, Handler>,
    stored: set<ConvId>, roots: map<ConvId, nat>, failed: map<ConvId, nat>)
  {
    function Roots(c: ConvId): nat { if c in roots then roots[c] else 0 }

    function Failed(c: ConvId): nat { if c in failed then failed[c] else 0 }

    function At(h: Handler, pc: Pc): State
      requires h in jobs
    {
      this.(jobs := jobs[h := jobs[h].(pc := pc)])
    }
  }

  const Quiet := State(map[], 0, map[], map[], {}, map[], map[])

  // `ok` is whether the call the handler is at succeeds.
  datatype Move =
    | Begin(h: Handler, c: ConvId) | Ask(h: Handler) | Acquire(h: Handler) | Advance(h: Handler, ok: bool)
    | Release(h: Handler)

  predicate Allowed(s: State, m: Move) {
    match m
    case Begin(h, _) => h !in s.jobs
    case Ask(h) => h in s.jobs && s.jobs[h].pc.Asking?
    case Acquire(h) => h in s.jobs && s.jobs[h].pc.Waiting? && s.jobs[h].lock !in s.held
    case Advance(h, _) => h in s.jobs && (s.jobs[h].pc.Looking? || s.jobs[h].pc.Opening? || s.jobs[h].pc.Saving?)
    case Release(h) => h in s.jobs && s.jobs[h].pc.Leaving?
  }

  /** Where a handler goes next: it opens a thread only for a conversation it did not find. */
  function After(s: State, h: Handler, ok: bool): Pc
    requires h in s.jobs
  {
    if s.jobs[h].pc.Looking? then (if ok && s.jobs[h].conversation !in s.stored then Opening else Leaving)
    else if s.jobs[h].pc.Opening? && ok then Saving
    else Leaving
  }

  function Next(s: State, m: Move): State
    requires Allowed(s, m)
  {
    match m
    case Begin(h, c) => s.(jobs := s.jobs[h := Job(c, 0, Asking)])
    case Ask(h) =>
      var c := s.jobs[h].conversation;
      var (locks, next) := WithLock(s.locks, s.next, c);
      s.(locks := locks, next := next, jobs := s.jobs[h := Job(c, locks[c], Waiting)])
    case Acquire(h) => s.At(h, Looking).(held := s.held[s.jobs[h].lock := h])
    case Advance(h, ok) =>
      var c := s.jobs[h].conversation;
      var s1 := s.At(h, After(s, h, ok));
      if s.jobs[h].pc.Opening? && ok then s1.(roots := s.roots[c := s.Roots(c) + 1])
      else if s.jobs[h].pc.Saving? && ok then s1.(stored := s.stored + {c})
      else if s.jobs[h].pc.Saving? then s1.(failed := s.failed[c := s.Failed(c) + 1])
      else s1
    case Release(h) => s.(jobs := s.jobs - {h}, held := s.held - {s.jobs[h].lock})
  }

  /** Some handler has posted the header of `c` and not tried to store the row yet. */
  predicate InFlight(s: State, c: ConvId) {
    exists h :: h in s.jobs && s.jobs[h].pc.Saving? && s.jobs[h].conversation == c
  }

  ghost predicate Locked(s: State) {
    && (forall c | c in s.locks :: s.locks[c] < s.next)
    && (forall c, c' | c in s.locks && c' in s.locks && c != c' :: s.locks[c] != s.locks[c'])
    && (forall h | h in s.jobs && !s.jobs[h].pc.Asking? ::
          s.jobs[h].conversation in s.locks && s.jobs[h].lock == s.locks[s.jobs[h].conversation])
    && (forall h | h in s.jobs && s.jobs[h].pc.Inside() :: s.jobs[h].lock in s.held && s.held[s.jobs[h].lock] == h)
    && (forall l | l in s.held :: s.held[l] in s.jobs && s.jobs[s.held[l]].pc.Inside() && s.jobs[s.held[l]].lock == l)
  }

  /** Every header is accounted for: its row is stored, storing it failed, or the one handler inside is about to. */
  ghost predicate Accounted(s: State, c: ConvId) {
    && s.Roots(c) == (if c in s.stored then 1 else 0) + s.Failed(c) + (if InFlight(s, c) then 1 else 0)
    && (forall h | h in s.jobs && (s.jobs[h].pc.Opening? || s.jobs[h].pc.Saving?) && s.jobs[h].conversation == c ::
         c !in s.stored)
  }

  lemma LockedBegin(s: State, h: Handler, c: ConvId)
    requires Locked(s) && Allowed(s, Begin(h, c))
    ensures Locked(Next(s, Begin(h, c)))
  {
  }

  lemma LockedAsk(s: State, h: Handler)
    requires Locked(s) && Allowed(s, Ask(h))
    ensures Locked(Next(s, Ask(h)))
  {
  }

  lemma LockedAcquire(s: State, h: Handler)
    requires Locked(s) && Allowed(s, Acquire(h))
    ensures Locked(Next(s, Acquire(h)))
  {
  }

  lemma LockedRelease(s: State, h: Handler)
    requires Locked(s) && Allowed(s, Release(h))
    ensures Locked(Next(s, Release(h)))
  {
  }

  /** Advancing keeps the handler inside, whatever happens. */
  lemma Advances(s: State, h: Handler, ok: bool)
    requires Allowed(s, Advance(h, ok))
    ensures var s' := Next(s, Advance(h, ok));
            && s'.locks == s.locks && s'.next == s.next && s'.held == s.held && s'.jobs.Keys == s.jobs.Keys
            && s'.jobs[h] == s.jobs[h].(pc := s'.jobs[h].pc) && s'.jobs[h].pc.Inside()
            && (forall g | g in s.jobs && g != h :: s'.jobs[g] == s.jobs[g])
  {
  }

  lemma LockedAdvance(s: State, s': State, h: Handler)
    requires Locked(s) && h in s.jobs && s.jobs[h].pc.Inside()
    requires s'.locks == s.locks && s'.next == s.next && s'.held == s.held && s'.jobs.Keys == s.jobs.Keys
    requires s'.jobs[h] == s.jobs[h].(pc := s'.jobs[h].pc) && s'.jobs[h].pc.Inside()
    requires forall g | g in s.jobs && g != h :: s'.jobs[g] == s.jobs[g]
    ensures Locked(s')
  {
  }

  lemma LockedStep(s: State, m: Move)
    requires Locked(s) && Allowed(s, m)
    ensures Locked(Next(s, m))
  {
    match m
    case Begin(h, c) => LockedBegin(s, h, c);
    case Ask(h) => LockedAsk(s, h);
    case Acquire(h) => LockedAcquire(s, h);
    case Advance(h, ok) =>
      Advances(s, h, ok);
      LockedAdvance(s, Next(s, m), h);
    case Release(h) => LockedRelease(s, h);
  }

  /** Two handlers inside for one conversation are one handler. */
  lemma OneInside(s: State, h: Handler, h': Handler)
    requires Locked(s) && h in s.jobs && h' in s.jobs && s.jobs[h].pc.Inside() && s.jobs[h'].pc.Inside()
    requires s.jobs[h].conversation == s.jobs[h'].conversation
    ensures h == h'
  {
  }

  lemma AccountedAdvance(s: State, h: Handler, ok: bool, c: ConvId)
    requires Locked(s) && Accounted(s, c) && Allowed(s, Advance(h, ok))
    ensures Accounted(Next(s, Advance(h, ok)), c)
  {
    Advances(s, h, ok);
    if s.jobs[h].conversation == c {
      OwnAdvance(s, h, ok);
    } else {
      SameFlights(s, Next(s, Advance(h, ok)), c, h);
    }
  }

  lemma OwnAdvance(s: State, h: Handler, ok: bool)
    requires Allowed(s, Advance(h, ok)) && Locked(s) && Accounted(s, s.jobs[h].conversation)
    ensures Accounted(Next(s, Advance(h, ok)), s.jobs[h].conversation)
  {
    Advances(s, h, ok);
    OwnFlight(s, Next(s, Advance(h, ok)), h);
  }

  /** The handler inside is the only one that can be about to store its conversation. */
  lemma OwnFlight(s: State, s': State, h: Handler)
    requires Locked(s) && h in s.jobs && s.jobs[h].pc.Inside() && s'.jobs.Keys == s.jobs.Keys
    requires s'.jobs[h].conversation == s.jobs[h].conversation
    requires forall g | g in s.jobs && g != h :: s'.jobs[g] == s.jobs[g]
    ensures forall g | g in s.jobs && s.jobs[g].pc.Inside() && s.jobs[g].conversation == s.jobs[h].conversation ::
      g == h
    ensures InFlight(s, s.jobs[h].conversation) <==> s.jobs[h].pc.Saving?
    ensures InFlight(s', s.jobs[h].conversation) <==> s'.jobs[h].pc.Saving?
  {
    forall g | g in s.jobs && s.jobs[g].pc.Inside() && s.jobs[g].conversation == s.jobs[h].conversation
      ensures g == h
    {
      OneInside(s, h, g);
    }
  }

  /** Coming and going changes no count. */
  lemma AccountedMove(s: State, m: Move, c: ConvId)
    requires Accounted(s, c) && Allowed(s, m) && !m.Advance?
    ensures Accounted(Next(s, m), c)
  {
    SameFlights(s, Next(s, m), c, m.h);
  }

  lemma AccountedStep(s: State, m: Move, c: ConvId)
    requires Locked(s) && Accounted(s, c) && Allowed(s, m)
    ensures Accounted(Next(s, m), c)
  {
    if m.Advance? { AccountedAdvance(s, m.h, m.ok, c); } else { AccountedMove(s, m, c); }
  }

  lemma SameFlights(s: State, s': State, c: ConvId, h: Handler)
    requires forall g | g != h :: (g in s.jobs <==> g in s'.jobs) && (g in s.jobs ==> s'.jobs[g] == s.jobs[g])
    requires h in s.jobs && s.jobs[h].conversation == c ==> !s.jobs[h].pc.Saving?
    requires h in s'.jobs && s'.jobs[h].conversation == c ==> !s'.jobs[h].pc.Saving?
    ensures InFlight(s, c) <==> InFlight(s', c)
  {
    if InFlight(s, c) {
      var g :| g in s.jobs && s.jobs[g].pc.Saving? && s.jobs[g].conversation == c;
      assert g in s'.jobs;
    }
    if InFlight(s', c) {
      var g :| g in s'.jobs && s'.jobs[g].pc.Saving? && s'.jobs[g].conversation == c;
      assert g in s.jobs;
    }
  }

  predicate AllAllowed(s: State, ms: seq<Move>)
    decreases |ms|
  {
    ms == [] || (Allowed(s, ms[0]) && AllAllowed(Next(s, ms[0]), ms[1..]))
  }

  function Run(s: State, ms: seq<Move>): State
    requires AllAllowed(s, ms)
    decreases |ms|
  {
    if ms == [] then s else Run(Next(s, ms[0]), ms[1..])
  }

  lemma {:induction false} RunKeeps(s: State, ms: seq<Move>, c: ConvId)
    requires Locked(s) && Accounted(s, c) && AllAllowed(s, ms)
    ensures Locked(Run(s, ms)) && Accounted(Run(s, ms), c)
    decreases |ms|
  {
    if ms != [] {
      LockedStep(s, ms[0]);
      AccountedStep(s, ms[0], c);
      RunKeeps(Next(s, ms[0]), ms[1..], c);
    }
  }

  /**
   Under any interleaving: everyone after the same conversation is after the same mutex, nobody holds two, at most
   one handler at a time is inside for a conversation, and the threads opened for it never exceed its row, the rows
   that failed to be stored, and the one being stored right now.
   */
  lemma NoThreadIsOrphanedByARace(ms: seq<Move>, c: ConvId)
    requires AllAllowed(Quiet, ms)
    ensures var s := Run(Quiet, ms);
            && (forall h, h' | h in s.jobs && h' in s.jobs && !s.jobs[h].pc.Asking? && !s.jobs[h'].pc.Asking? ::
                  s.jobs[h].conversation == s.jobs[h'].conversation <==> s.jobs[h].lock == s.jobs[h'].lock)
            && (forall l, l' | l in s.held && l' in s.held && l != l' :: s.held[l] != s.held[l'])
            && (forall h, h' | h in s.jobs && h' in s.jobs && s.jobs[h].pc.Inside() && s.jobs[h'].pc.Inside()
                  && s.jobs[h].conversation == s.jobs[h'].conversation :: h == h')
            && s.Roots(c) == (if c in s.stored then 1 else 0) + s.Failed(c) + (if InFlight(s, c) then 1 else 0)
  {
    RunKeeps(Quiet, ms, c);
  }
}
