/**
 Remote pairings waiting for their client.  Handlers and the sweep share a table under one mutex; what is at stake is
 who may use, and who closes, a connection that has been opened.
 */
module Pairing {
  import opened Types

  type PairingId = string
  type Connection = nat

  datatype Entry = Entry(user: string, connection: Connection, expires: int)

  /** The entries a sweep at `now` closes. */
  function Expired(pending: map<PairingId, Entry>, now: int): set<PairingId> {
    set id | id in pending && now > pending[id].expires
  }

  /** The connection belongs to an entry whose time is over. */
  ghost predicate RanOut(pending: map<PairingId, Entry>, now: int, c: Connection) {
    exists id :: id in pending && pending[id].expires < now && pending[id].connection == c
  }

  /** An order in which the entries of `ids` are visited, each once. */
  ghost predicate Visits(order: seq<PairingId>, ids: set<PairingId>) {
    && (forall i, j | 0 <= i < j < |order| :: order[i] != order[j])
    && (forall i | 0 <= i < |order| :: order[i] in ids)
    && (forall id | id in ids :: id in order)
  }

  function Connections(pending: map<PairingId, Entry>, order: seq<PairingId>): seq<Connection>
    requires forall i | 0 <= i < |order| :: order[i] in pending
  {
    seq(|order|, i requires 0 <= i < |order| => pending[order[i]].connection)
  }

  // ----- whole runs -----

  // Whoever may use a connection: the handler that opened it, the table, or one waiter.  A connection is dropped, and
  // never closed, when somebody else than its user asks for it.
  datatype State = State(
    starting: set<Connection>, pending: map<PairingId, Entry>, waiting: set<Connection>, next: Connection,
    used: set<PairingId>, handed: seq<Connection>, closed: seq<Connection>, swept: set<Connection>,
    dropped: set<Connection>)

  const Idle := State({}, map[], {}, 0, {}, [], [], {}, {})

  // Identifiers are fresh UUIDs.  `order` is how the sweep happens to go through the table.
  datatype Move =
    | Open
    | StartFails(c: Connection)
    | StartWorks(c: Connection, id: PairingId, user: string, expires: int)
    | Wait(id: PairingId, name: string)
    | WaitEnds(c: Connection)
    | Tick(now: int, order: seq<PairingId>)
    | Shutdown(order: seq<PairingId>)

  ghost predicate Allowed(s: State, m: Move) {
    match m
    case Open => true
    case StartFails(c) => c in s.starting
    case StartWorks(c, id, _, _) => c in s.starting && id !in s.used
    case Wait(_, _) => true
    case WaitEnds(c) => c in s.waiting
    case Tick(now, order) => Visits(order, Expired(s.pending, now))
    case Shutdown(order) => Visits(order, s.pending.Keys)
  }

  function Swept(s: State, order: seq<PairingId>): State
    requires forall i | 0 <= i < |order| :: order[i] in s.pending
  {
    var cs := Connections(s.pending, order);
    s.(pending := s.pending - (set id | id in order), closed := s.closed + cs, swept := s.swept + set c | c in cs)
  }

  ghost function Next(s: State, m: Move): State
    requires Allowed(s, m)
  {
    match m
    case Open => s.(starting := s.starting + {s.next}, next := s.next + 1)
    case StartFails(c) => s.(starting := s.starting - {c}, closed := s.closed + [c])
    case StartWorks(c, id, user, expires) =>
      s.(starting := s.starting - {c}, pending := s.pending[id := Entry(user, c, expires)], used := s.used + {id})
    case Wait(id, name) =>
      if id !in s.pending then s
      else
        var entry := s.pending[id];
        var s1 := s.(pending := s.pending - {id});
        if entry.user != name then s1.(dropped := s.dropped + {entry.connection})
        else s1.(waiting := s.waiting + {entry.connection}, handed := s.handed + [entry.connection])
    case WaitEnds(c) => s.(waiting := s.waiting - {c}, closed := s.closed + [c])
    case Tick(_, order) => Swept(s, order)
    case Shutdown(order) => Swept(s, order)
  }

  ghost predicate Distinct(cs: seq<Connection>) { forall i, j | 0 <= i < j < |cs| :: cs[i] != cs[j] }

  /** Every connection has at most one owner, and none once it is closed. */
  ghost predicate Owned(s: State) {
    && s.starting !! s.waiting
    && (forall id | id in s.pending ::
         s.pending[id].connection !in s.starting && s.pending[id].connection !in s.waiting)
    && (forall id, id' | id in s.pending && id' in s.pending && id != id' ::
         s.pending[id].connection != s.pending[id'].connection)
  }

  ghost predicate Settled(s: State) {
    && (forall c | c in s.closed :: c < s.next && c !in s.starting && c !in s.waiting)
    && (forall c | c in s.handed :: c < s.next && c !in s.starting && c !in s.swept)
    && (forall id | id in s.pending ::
          s.pending[id].connection < s.next && s.pending[id].connection !in s.closed
            && s.pending[id].connection !in s.handed)
    && (forall c | c in s.swept :: c in s.closed)
    && (forall c | c in s.starting || c in s.waiting || c in s.dropped :: c < s.next)
    && (forall c | c in s.dropped :: c !in s.starting && c !in s.waiting && c !in s.closed)
    && (forall id | id in s.pending :: s.pending[id].connection !in s.dropped)
    && (forall id | id in s.pending :: id in s.used)
  }

  ghost predicate InTable(s: State, c: Connection) { exists id :: id in s.pending && s.pending[id].connection == c }

  /** No connection is forgotten: somebody has it, or it was closed, or dropped. */
  ghost predicate Accounted(s: State) {
    forall c | 0 <= c < s.next :: c in s.starting || c in s.waiting || InTable(s, c) || c in s.closed || c in s.dropped
  }

  ghost predicate Safe(s: State) {
    Owned(s) && Settled(s) && Distinct(s.closed) && Distinct(s.handed) && Accounted(s)
  }

  lemma SweepSafe(s: State, order: seq<PairingId>, ids: set<PairingId>)
    requires Safe(s) && Visits(order, ids) && ids <= s.pending.Keys
    ensures Safe(Swept(s, order)) && Swept(s, order).pending == s.pending - ids
  {
    var cs := Connections(s.pending, order);
    assert (set id | id in order) == ids;
    forall i, j | 0 <= i < j < |cs| ensures cs[i] != cs[j] {
      assert order[i] in s.pending && order[j] in s.pending && order[i] != order[j];
    }
    forall c | c in cs
      ensures c < s.next && c !in s.closed && c !in s.handed && c !in s.starting && c !in s.waiting
    {
      var i :| 0 <= i < |cs| && cs[i] == c;
      assert order[i] in s.pending;
    }
    SweptRest(s, order, ids);
    SweptAccounted(s, order, ids);
  }

  lemma SweptAccounted(s: State, order: seq<PairingId>, ids: set<PairingId>)
    requires Accounted(s) && Visits(order, ids) && ids <= s.pending.Keys
    ensures Accounted(Swept(s, order))
  {
    var s' := Swept(s, order);
    assert (set id | id in order) == ids;
    forall c | 0 <= c < s.next
      ensures c in s'.starting || c in s'.waiting || InTable(s', c) || c in s'.closed || c in s'.dropped
    {
      if InTable(s, c) {
        var id :| id in s.pending && s.pending[id].connection == c;
        if id in ids {
          assert id in order;
          var i :| 0 <= i < |order| && order[i] == id;
          assert Connections(s.pending, order)[i] == c;
        } else {
          assert id in s'.pending;
        }
      }
    }
  }

  lemma SweptRest(s: State, order: seq<PairingId>, ids: set<PairingId>)
    requires Safe(s) && Visits(order, ids) && ids <= s.pending.Keys
    ensures var s' := Swept(s, order);
            forall id | id in s'.pending :: s'.pending[id].connection !in Connections(s.pending, order)
  {
    var cs := Connections(s.pending, order);
    forall id | id in Swept(s, order).pending
      ensures s.pending[id].connection !in cs
    {
      forall i | 0 <= i < |cs| ensures cs[i] != s.pending[id].connection {
        assert order[i] in s.pending && order[i] != id;
      }
    }
  }

  lemma WaitSafe(s: State, id: PairingId, name: string)
    requires Safe(s)
    ensures Safe(Next(s, Wait(id, name)))
  {
    WaitAccounted(s, id, name);
  }

  lemma WaitAccounted(s: State, id: PairingId, name: string)
    requires Accounted(s)
    ensures Accounted(Next(s, Wait(id, name)))
  {
    var s' := Next(s, Wait(id, name));
    forall c | 0 <= c < s.next
      ensures c in s'.starting || c in s'.waiting || InTable(s', c) || c in s'.closed || c in s'.dropped
    {
      if InTable(s, c) {
        var k :| k in s.pending && s.pending[k].connection == c;
        assert k != id ==> k in s'.pending && s'.pending[k] == s.pending[k];
      }
    }
  }

  lemma StartSafe(s: State, c: Connection, id: PairingId, user: string, expires: int)
    requires Safe(s) && Allowed(s, StartWorks(c, id, user, expires))
    ensures Safe(Next(s, StartWorks(c, id, user, expires)))
  {
    StartAccounted(s, c, id, user, expires);
  }

  lemma StartAccounted(s: State, c: Connection, id: PairingId, user: string, expires: int)
    requires Accounted(s) && Allowed(s, StartWorks(c, id, user, expires)) && forall k | k in s.pending :: k in s.used
    ensures Accounted(Next(s, StartWorks(c, id, user, expires)))
  {
    var s' := Next(s, StartWorks(c, id, user, expires));
    assert s'.pending[id].connection == c;
    forall k | 0 <= k < s.next
      ensures k in s'.starting || k in s'.waiting || InTable(s', k) || k in s'.closed || k in s'.dropped
    {
      if InTable(s, k) {
        var j :| j in s.pending && s.pending[j].connection == k;
        assert s'.pending[j].connection == k;
      }
    }
  }

  lemma OthersSafe(s: State, m: Move)
    requires Safe(s) && Allowed(s, m) && (m.Open? || m.StartFails? || m.WaitEnds?)
    ensures Safe(Next(s, m))
  {
    var s' := Next(s, m);
    assert s'.pending == s.pending;
    assert forall c | InTable(s, c) :: InTable(s', c);
  }

  lemma StepSafe(s: State, m: Move)
    requires Safe(s) && Allowed(s, m)
    ensures Safe(Next(s, m))
    ensures m.Tick? ==> Expired(Next(s, m).pending, m.now) == {}
  {
    match m
    case Tick(now, order) => SweepSafe(s, order, Expired(s.pending, now));
    case Shutdown(order) => SweepSafe(s, order, s.pending.Keys);
    case Wait(id, name) => WaitSafe(s, id, name);
    case StartWorks(c, id, user, expires) => StartSafe(s, c, id, user, expires);
    case _ => OthersSafe(s, m);
  }

  ghost predicate AllAllowed(s: State, ms: seq<Move>)
    decreases |ms|
  {
    ms == [] || (Allowed(s, ms[0]) && AllAllowed(Next(s, ms[0]), ms[1..]))
  }

  ghost function Run(s: State, ms: seq<Move>): State
    requires AllAllowed(s, ms)
    decreases |ms|
  {
    if ms == [] then s else Run(Next(s, ms[0]), ms[1..])
  }

  lemma {:induction false} RunSafe(s: State, ms: seq<Move>)
    requires Safe(s) && AllAllowed(s, ms)
    ensures Safe(Run(s, ms))
    decreases |ms|
  {
    if ms != [] {
      StepSafe(s, ms[0]);
      RunSafe(Next(s, ms[0]), ms[1..]);
    }
  }

  /**
   Under any interleaving of starts, waits, sweeps and shutdown, a connection has at most one owner, is handed to at
   most one waiter, is never swept once handed over, and is closed at most once; and each has an owner until it is
   closed, or dropped by a wait under another name.  A tick closes what has expired, and nothing else.
   */
  lemma PairingsHaveOneOwner(ms: seq<Move>, m: Move)
    requires AllAllowed(Idle, ms) && Allowed(Run(Idle, ms), m)
    ensures var s := Run(Idle, ms);
            && Owned(s) && Distinct(s.handed) && Distinct(s.closed)
            && (forall c | c in s.handed :: c !in s.swept)
            && (forall c | 0 <= c < s.next ::
                  c in s.starting || c in s.waiting || InTable(s, c) || c in s.closed || c in s.dropped)
            && (m.Tick? ==>
                  && (forall id | id in s.pending :: id in Next(s, m).pending <==> m.now <= s.pending[id].expires)
                  && (forall id | id in Next(s, m).pending ::
                        id in s.pending && Next(s, m).pending[id] == s.pending[id])
                  && (forall c :: c in Next(s, m).closed <==>
                        c in s.closed || RanOut(s.pending, m.now, c)))
  {
    RunSafe(Idle, ms);
    StepSafe(Run(Idle, ms), m);
    if m.Tick? { TickCloses(Run(Idle, ms), m.now, m.order); }
  }

  lemma TickCloses(s: State, now: int, order: seq<PairingId>)
    requires Visits(order, Expired(s.pending, now))
    ensures var s' := Swept(s, order);
      && (forall id | id in s.pending :: id in s'.pending <==> now <= s.pending[id].expires)
      && (forall id | id in s'.pending :: id in s.pending && s'.pending[id] == s.pending[id])
      && (forall c :: c in s'.closed <==>
            c in s.closed || RanOut(s.pending, now, c))
  {
    assert (set id | id in order) == Expired(s.pending, now);
    var cs := Connections(s.pending, order);
    forall c ensures c in cs <==> RanOut(s.pending, now, c) {
      if c in cs {
        var i :| 0 <= i < |cs| && cs[i] == c;
        assert order[i] in s.pending;
      }
      if RanOut(s.pending, now, c) {
        var id :| id in s.pending && s.pending[id].expires < now && s.pending[id].connection == c;
        assert id in Expired(s.pending, now) && id in order;
        var i :| 0 <= i < |order| && order[i] == id;
        assert cs[i] == c;
      }
    }
  }

  // ----- the server -----

  class PairServer {
    var pending: map<PairingId, Entry>
    // The connections closed so far, in order, and the state of everybody concerned.
    ghost var closed: seq<Connection>
    ghost var all: State

    ghost predicate Valid()
      reads this
    {
      all.pending == pending && all.closed == closed
    }

    constructor ()
      ensures Valid() && pending == map[] && all == Idle
    {
      pending, closed, all := map[], [], Idle;
    }

    /** The end of a start that worked: the pairing goes into the table. */
    method Insert(id: PairingId, user: string, connection: Connection, expires: int)
      requires Valid() && Allowed(all, StartWorks(connection, id, user, expires))
      modifies this`pending, this`all
      ensures Valid() && all == Next(old(all), StartWorks(connection, id, user, expires))
      ensures pending == old(pending)[id := Entry(user, connection, expires)]
    {
      pending := pending[id := Entry(user, connection, expires)];
      all := Next(all, StartWorks(connection, id, user, expires));
    }

    /** The beginning of a wait: whoever asks takes the entry out, but only its own user gets it. */
    method Take(id: PairingId, name: string) returns (connection: Option<Connection>)
      requires Valid()
      modifies this`pending, this`all
      ensures Valid() && all == Next(old(all), Wait(id, name))
      ensures pending == old(pending) - {id}
      ensures connection == if id in old(pending) && old(pending)[id].user == name
                            then Some(old(pending)[id].connection) else None
    {
      all := Next(all, Wait(id, name));
      if id !in pending {
        assert pending - {id} == pending;
        return None;
      }
      var entry := pending[id];
      pending := pending - {id};
      if entry.user != name { return None; }
      connection := Some(entry.connection);
    }

    method CloseAll(ids: set<PairingId>) returns (ghost order: seq<PairingId>)
      requires ids <= pending.Keys
      modifies this`pending, this`closed
      ensures Visits(order, ids) && pending == old(pending) - ids
      ensures forall i | 0 <= i < |order| :: order[i] in old(pending)
      ensures closed == old(closed) + Connections(old(pending), order)
    {
      order := [];
      var left := ids;
      while left != {}
        invariant left <= ids && Visits(order, ids - left) && pending == old(pending) - (ids - left)
        invariant forall i | 0 <= i < |order| :: order[i] in old(pending)
        invariant closed == old(closed) + Connections(old(pending), order)
        decreases left
      {
        var id :| id in left;
        closed := closed + [pending[id].connection];
        pending := pending - {id};
        order := order + [id];
        left := left - {id};
        assert pending == old(pending) - (ids - left);
      }
    }

    method Sweep(now: int) returns (ghost order: seq<PairingId>)
      requires Valid()
      modifies this
      ensures Valid() && Allowed(old(all), Tick(now, order)) && all == Next(old(all), Tick(now, order))
      ensures forall id | id in old(pending) :: id in pending <==> now <= old(pending)[id].expires
      ensures forall id | id in pending :: id in old(pending) && pending[id] == old(pending)[id]
      ensures forall c :: c in closed <==> c in old(closed) || RanOut(old(pending), now, c)
      ensures closed == old(closed) + Connections(old(pending), order)
    {
      TickClosesAny(all, now);
      order := CloseAll(Expired(pending, now));
      OrderIsSet(order, Expired(old(pending), now));
      all := Next(all, Tick(now, order));
    }

    method SweepAll() returns (ghost order: seq<PairingId>)
      requires Valid()
      modifies this
      ensures Valid() && Allowed(old(all), Shutdown(order)) && all == Next(old(all), Shutdown(order))
      ensures pending == map[]
      ensures closed == old(closed) + Connections(old(pending), order)
    {
      order := CloseAll(pending.Keys);
      assert pending.Keys == {};
      OrderIsSet(order, old(pending).Keys);
      all := Next(all, Shutdown(order));
    }
  }

  lemma TickClosesAny(s: State, now: int)
    ensures forall order | Visits(order, Expired(s.pending, now)) :: var s' := Swept(s, order);
      && (forall id | id in s.pending :: id in s'.pending <==> now <= s.pending[id].expires)
      && (forall id | id in s'.pending :: id in s.pending && s'.pending[id] == s.pending[id])
      && (forall c :: c in s'.closed <==>
            c in s.closed || RanOut(s.pending, now, c))
  {
    forall order | Visits(order, Expired(s.pending, now))
      ensures var s' := Swept(s, order);
        && (forall id | id in s.pending :: id in s'.pending <==> now <= s.pending[id].expires)
        && (forall id | id in s'.pending :: id in s.pending && s'.pending[id] == s.pending[id])
        && (forall c :: c in s'.closed <==> c in s.closed || RanOut(s.pending, now, c))
    {
      TickCloses(s, now, order);
    }
  }

  lemma OrderIsSet(order: seq<PairingId>, ids: set<PairingId>)
    requires Visits(order, ids)
    ensures (set id | id in order) == ids
  {
  }
}
