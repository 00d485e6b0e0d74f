/**
 Messages that are posted again.  Each way in which the guarantees stop is walked through once, from the beginning and
 with every other call succeeding.
 */
module Comebacks {
  import opened Types
  import opened Storage
  import opened Bridge
  import opened Runs
  import opened Collisions
  import opened EchoQueue
  import AtMostOnce

  // ----- a backfill that overlaps the message it is run for -----

  function Backfilling(): Settings { Layout(false).(backfillCount := 1) }

  const Posted := PostFate("", [], true, true)

  /** The first message of a conversation, which the fetched window holds as well. */
  function FirstMessage(t: Tenant): Event {
    PhoneMessage(t, Backfilling(), Hello("c"),
      IncomingFate(true, true, true, AllWell, Opens("c").(window := Some([Hello("c")]), windowFates := [Posted]),
        Posted, true))
  }

  /** With every call succeeding, one event posts its message twice and maps it once. */
  lemma {:induction false} OverlapPostsTwice(t: Tenant) returns (es: seq<Event>)
    ensures HonestRun(es) && |es| == 1 && !AtMostOnce.NoOverlap(es[0])
    ensures AtMostOnce.Posts(Run(es).log, t, "m") == 2 && AtMostOnce.Unsaved(Run(es).log, t, "m") == 0
    ensures !AtMostOnce.OnceAt(Run(es), t, "m")
  {
    es := [FirstMessage(t)];
    FirstPostsTwice(t);
    FirstOverlaps(t);
    OneEvent(FirstMessage(t));
  }

  lemma FirstOverlaps(t: Tenant)
    ensures !AtMostOnce.NoOverlap(FirstMessage(t))
  {
    var e := FirstMessage(t);
    assert e.f.ensure.window.value[0].id == e.msg.id;
  }

  lemma {:induction false} OneEvent(e: Event)
    requires Honest(EmptyWorld, e)
    ensures HonestRun([e]) && Run([e]) == Step(EmptyWorld, e)
  {
    Extend([], e);
    assert [] + [e] == [e];
  }

  lemma FirstPostsTwice(t: Tenant)
    ensures var e := FirstMessage(t); var log := Step(EmptyWorld, e).log;
      Honest(EmptyWorld, e) && AtMostOnce.Posts(log, t, "m") == 2 && AtMostOnce.Unsaved(log, t, "m") == 0
  {
    var e := FirstMessage(t);
    var window := e.f.ensure.window.value;
    assert window == [Hello("c")];
    assert window[0].id == "m";
    assert AtMostOnce.InWindow(window, "m");
    AtMostOnce.PostedTwiceExactlyOnOverlap(EmptyWorld, t, e.s, e.msg, e.f);
  }

  // ----- sends that come back -----

  ghost predicate Led(ph: Phones, ms: seq<Move>, l: Loop) { AllAllowed(Idle, ph, ms) && l == Plays(Idle, ph, ms) }

  lemma {:induction false} OneMoveMore(l: Loop, ph: Phones, ms: seq<Move>, m: Move)
    requires AllAllowed(l, ph, ms) && Allowed(Plays(l, ph, ms), ph, m)
    ensures AllAllowed(l, ph, ms + [m]) && Plays(l, ph, ms + [m]) == Next(Plays(l, ph, ms), m)
    decreases |ms|
  {
    if ms == [] {
      assert [m][1..] == [] && ms + [m] == [m];
      assert AllAllowed(Next(l, m), ph, []);
    } else {
      OneMoveMore(Next(l, ms[0]), ph, ms[1..], m);
      assert (ms + [m])[0] == ms[0] && (ms + [m])[1..] == ms[1..] + [m];
    }
  }

  lemma LedOn(ph: Phones, ms: seq<Move>, l: Loop, m: Move, l': Loop)
    requires Led(ph, ms, l) && Allowed(l, ph, m) && l' == Next(l, m)
    ensures Led(ph, ms + [m], l')
  {
    OneMoveMore(Idle, ph, ms, m);
  }

  /** The phone of `t` names the message of every send "x"; one send is all there is. */
  function OnePhone(t: Tenant): Phones { Phones(k => "x", {t}, {}) }

  function Echo(tmp: TmpId): Message { Message("x", "c", tmp, true, 0, 2, "", "yes", [], false) }

  /** Handling in which every call works, save that storing an acknowledged mapping may not. */
  function Handling(t: Tenant, saved: bool): Move {
    Handle(t, Layout(false), IncomingFate(true, saved, true, AllWell, Opens("c"), Posted, true))
  }

  /** A person's post was sent and its send recorded; nothing else is going on. */
  ghost predicate Underway(l: Loop, t: Tenant) {
    && l.Queue(t) == [] && l.queues.Keys == {t} && l.heard == {} && l.missed == {}
    && l.sends == map[0 := SendRecord(t, "c", 1, true)]
    && l.w.db.messages == map[] && Known(l.w, t, "c") && l.w.db.conversations[(t, "c")].id == "c"
    && l.w.db.pending == map[Ours(0) := PendingRow(t, 1, "c", 0)]
    && (forall i | 0 <= i < |l.w.log| :: !l.w.log[i].Acknowledged? && !l.w.log[i].GaveUp?)
  }

  lemma {:induction false} SendUnderway(t: Tenant) returns (ms: seq<Move>, l: Loop)
    ensures Led(OnePhone(t), ms, l) && Underway(l, t)
  {
    var ph := OnePhone(t);
    var opening := Handle(t, Layout(false), Opening(t, false).f);
    var l1, l2, l3, l4 := FirstMoves(t);
    LedOn(ph, [], Idle, Arrive(t, Hello("c")), l1);
    LedOn(ph, [] + [Arrive(t, Hello("c"))], l1, opening, l2);
    LedOn(ph, [] + [Arrive(t, Hello("c"))] + [opening], l2, Elsewhere(Written(Says("town", NO_POST))), l3);
    ms := [] + [Arrive(t, Hello("c"))] + [opening] + [Elsewhere(Written(Says("town", NO_POST)))];
    LedOn(ph, ms, l3, Sending(t), l4);
    ms := ms + [Sending(t)];
    l := l4;
  }

  function Sending(t: Tenant): Move { Send(t, Layout(false), 1, Some("c"), None, Sends, []) }

  lemma FirstMoves(t: Tenant) returns (l1: Loop, l2: Loop, l3: Loop, l4: Loop)
    ensures Allowed(Idle, OnePhone(t), Arrive(t, Hello("c"))) && l1 == Next(Idle, Arrive(t, Hello("c")))
    ensures var m := Handle(t, Layout(false), Opening(t, false).f); Allowed(l1, OnePhone(t), m) && l2 == Next(l1, m)
    ensures var m := Elsewhere(Written(Says("town", NO_POST))); Allowed(l2, OnePhone(t), m) && l3 == Next(l2, m)
    ensures Allowed(l3, OnePhone(t), Sending(t)) && l4 == Next(l3, Sending(t)) && Underway(l4, t)
  {
    var ph := OnePhone(t);
    l1 := Next(Idle, Arrive(t, Hello("c")));
    OpeningOpens(EmptyWorld, t, false);
    l2 := Next(l1, Handle(t, Layout(false), Opening(t, false).f));
    l3 := Next(l2, Elsewhere(Written(Says("town", NO_POST))));
    l4 := Sent(t, l3);
  }

  /** The conversation is open, somebody has written there, and nothing was sent yet. */
  ghost predicate JustWritten(l: Loop, t: Tenant) {
    && l.queues == map[t := []] && l.sends == map[] && l.heard == {} && l.missed == {}
    && l.w.db == Tables(map[], map[], map[(t, "c") := Row(NO_POST)]) && l.w.nextTmp == 0
    && l.w.mm.posts == map[1 := Says("town", NO_POST)]
    && |l.w.log| == 1 && l.w.log[0].Opened?
  }

  lemma Sent(t: Tenant, l: Loop) returns (l': Loop)
    requires JustWritten(l, t)
    ensures Allowed(l, OnePhone(t), Sending(t)) && l' == Next(l, Sending(t)) && Underway(l', t)
  {
    assert (t, "c") in l.w.db.conversations;
    assert InChannel(l.w.db, t, "town") == {"c"};
    MeantIsTaken(l.w, true, t, false, 1, "c", None);
    assert FreshName(l, OnePhone(t), t, 0);
    l' := Next(l, Sending(t));
    SentIsUnderway(t, l);
  }

  lemma SentIsUnderway(t: Tenant, l: Loop)
    requires JustWritten(l, t)
    ensures Underway(Next(l, Sending(t)), t)
  {
    MeantIsSent(l.w, t, false, 1, "c", None);
  }

  /** An event about a message nobody knows any more, with nothing else waiting, is posted. */
  lemma ComesBack(l: Loop, t: Tenant, tmp: TmpId)
    requires l.Queue(t) == [Echo(tmp)] && t in l.queues && Known(l.w, t, "c") && (t, "x") !in l.w.db.messages
    requires tmp == NoTmp || tmp !in l.w.db.pending
    ensures var m := Handling(t, true); var l' := Next(l, m);
      && Allowed(l, OnePhone(t), m) && PostedBack(l'.w, t, "x") && l'.sends == l.sends
      && |l'.w.log| == |l.w.log| + 1 && l'.w.log[..|l.w.log|] == l.w.log && l'.w.log[|l.w.log|].Bridged?
      && l'.missed == l.missed
  {
    var l' := Next(l, Handling(t, true));
    assert l'.w.log[|l.w.log|] == Bridged(t, "x", l.w.mm.next, true);
  }

  /** The send was recorded, and its message was posted back all the same. */
  ghost predicate CameBack(ph: Phones, ms: seq<Move>, t: Tenant) {
    && ph.tenants !! ph.transports && AllAllowed(Idle, ph, ms)
    && var l := Plays(Idle, ph, ms);
       0 in l.sends && l.sends[0].recorded && l.sends[0].tenant == t && PostedBack(l.w, t, ph.name(0))
  }

  /** A send that was given up comes back, though nothing was lost. */
  lemma {:induction false} GivenUpComesBack(t: Tenant) returns (ph: Phones, ms: seq<Move>)
    ensures CameBack(ph, ms, t)
    ensures var l := Plays(Idle, ph, ms); Abandoned(l.w, 0) && !Lost(l.w, 0) && 0 !in l.missed
  {
    ph := OnePhone(t);
    var start, l := SendUnderway(t);
    var tick, echo := Elsewhere(PruneTick(t, 0, true)), Arrive(t, Echo(Ours(0)));
    var l1, l2, l3 := Next(l, tick), Next(Next(l, tick), echo), Next(Next(Next(l, tick), echo), Handling(t, true));
    GivenUpMoves(l, t, l1, l2, l3);
    LedOn(ph, start, l, tick, l1);
    LedOn(ph, start + [tick], l1, echo, l2);
    LedOn(ph, start + [tick] + [echo], l2, Handling(t, true), l3);
    ms := start + [tick] + [echo] + [Handling(t, true)];
  }

  /** A tick gives the send up, and its echo arrives and is handled after that. */
  lemma GivenUpMoves(l: Loop, t: Tenant, l1: Loop, l2: Loop, l3: Loop)
    requires Underway(l, t) && l1 == Next(l, Elsewhere(PruneTick(t, 0, true)))
    requires l2 == Next(l1, Arrive(t, Echo(Ours(0)))) && l2.Queue(t) != [] && l3 == Next(l2, Handling(t, true))
    ensures Allowed(l, OnePhone(t), Elsewhere(PruneTick(t, 0, true)))
    ensures Allowed(l1, OnePhone(t), Arrive(t, Echo(Ours(0)))) && Allowed(l2, OnePhone(t), Handling(t, true))
    ensures Abandoned(l3.w, 0) && !Lost(l3.w, 0) && 0 !in l3.missed && PostedBack(l3.w, t, "x") && l3.sends == l.sends
  {
    TickGivesUp(l, t, l1);
    EchoArrives(l1, t, l2);
    ComesBack(l2, t, Ours(0));
    assert l3.w.log[|l.w.log|] == l3.w.log[..|l2.w.log|][|l.w.log|] == l1.w.log[|l.w.log|];
    OthersNot(l1.w, l3.w);
  }

  lemma EchoArrives(l: Loop, t: Tenant, l': Loop)
    requires l' == Next(l, Arrive(t, Echo(Ours(0)))) && l.sends == map[0 := SendRecord(t, "c", 1, true)]
    ensures Allowed(l, OnePhone(t), Arrive(t, Echo(Ours(0))))
    ensures l' == l.(queues := l.queues[t := l.Queue(t) + [Echo(Ours(0))]])
  {
  }

  lemma TickGivesUp(l: Loop, t: Tenant, l1: Loop)
    requires Underway(l, t) && l1 == Next(l, Elsewhere(PruneTick(t, 0, true)))
    ensures l1 == l.(w := l1.w) && l1.w.db == l.w.db.(pending := map[]) && !Lost(l1.w, 0)
    ensures |l1.w.log| == |l.w.log| + 1 && l1.w.log[|l.w.log|] == GaveUp(t, {Ours(0)})
  {
    assert Expired(l.w.db, t, 0) == {Ours(0)};
  }

  lemma OthersNot(w: World, w': World)
    requires !Lost(w, 0) && |w'.log| == |w.log| + 1 && w'.log[..|w.log|] == w.log && w'.log[|w.log|].Bridged?
    ensures !Lost(w', 0)
  {
    assert forall i | 0 <= i < |w.log| :: w'.log[i] == w'.log[..|w.log|][i] == w.log[i];
  }

  /** The echo is taken off the queue and its row with it, but the mapping cannot be stored. */
  lemma EchoUnsaved(l: Loop, t: Tenant)
    requires Underway(l.(queues := l.queues[t := []]), t) && l.Queue(t) == [Echo(Ours(0))] && t in l.queues
    ensures var m := Handling(t, false); var l' := Next(l, m);
      && Allowed(l, OnePhone(t), m) && l'.Queue(t) == [] && t in l'.queues && l'.sends == l.sends && l'.heard == {0}
      && l'.missed == {} && l'.w.db.conversations == l.w.db.conversations
      && l'.w.db.pending == map[] && l'.w.db.messages == map[]
      && Lost(l'.w, 0) && forall i | 0 <= i < |l'.w.log| :: !l'.w.log[i].GaveUp?
  {
    var l' := Next(l, Handling(t, false));
    assert l'.w.log[|l.w.log|] == Acknowledged(t, Ours(0), "x", 1, false);
  }

  lemma StillLost(w: World, w': World)
    requires Lost(w, 0) && |w'.log| == |w.log| + 1 && w'.log[..|w.log|] == w.log && w'.log[|w.log|].Bridged?
    requires forall i | 0 <= i < |w.log| :: !w.log[i].GaveUp?
    ensures Lost(w', 0) && !Abandoned(w', 0)
  {
    var i :| 0 <= i < |w.log| && w.log[i].Acknowledged? && w.log[i].tmp == Ours(0) && !w.log[i].saved;
    assert forall j | 0 <= j < |w.log| :: w'.log[j] == w'.log[..|w.log|][j] == w.log[j];
  }

  /** A send whose mapping could not be stored comes back at the next event about it. */
  lemma {:induction false} UnmappedComesBack(t: Tenant) returns (ph: Phones, ms: seq<Move>)
    ensures CameBack(ph, ms, t)
    ensures var l := Plays(Idle, ph, ms); Lost(l.w, 0) && !Abandoned(l.w, 0) && 0 !in l.missed
  {
    ph := OnePhone(t);
    var start, l := SendUnderway(t);
    var echo := Arrive(t, Echo(Ours(0)));
    var l1 := Next(l, echo);
    LedOn(ph, start, l, echo, l1);
    EchoUnsaved(l1, t);
    var l2 := Next(l1, Handling(t, false));
    LedOn(ph, start + [echo], l1, Handling(t, false), l2);
    var l3 := Next(l2, echo);
    LedOn(ph, start + [echo] + [Handling(t, false)], l2, echo, l3);
    ComesBack(l3, t, Ours(0));
    var l4 := Next(l3, Handling(t, true));
    LedOn(ph, start + [echo] + [Handling(t, false)] + [echo], l3, Handling(t, true), l4);
    ms := start + [echo] + [Handling(t, false)] + [echo] + [Handling(t, true)];
    StillLost(l3.w, l4.w);
  }

  lemma NothingSettled(w: World, w': World)
    requires forall i | 0 <= i < |w.log| :: !w.log[i].Acknowledged? && !w.log[i].GaveUp?
    requires |w'.log| == |w.log| + 1 && w'.log[..|w.log|] == w.log && w'.log[|w.log|].Bridged?
    ensures !Lost(w', 0) && !Abandoned(w', 0)
  {
    assert forall j | 0 <= j < |w.log| :: w'.log[j] == w'.log[..|w.log|][j] == w.log[j];
  }

  /** A send whose echo was queued when the daemon restarted comes back as an ordinary message. */
  lemma {:induction false} UnheardComesBack(t: Tenant) returns (ph: Phones, ms: seq<Move>)
    ensures CameBack(ph, ms, t)
    ensures var l := Plays(Idle, ph, ms); 0 in l.missed && !Lost(l.w, 0) && !Abandoned(l.w, 0)
  {
    ph := OnePhone(t);
    var start, l := SendUnderway(t);
    var echo := Arrive(t, Echo(Ours(0)));
    var l1 := Next(l, echo);
    LedOn(ph, start, l, echo, l1);
    var l2 := Next(l1, Restart);
    LedOn(ph, start + [echo], l1, Restart, l2);
    assert l1.queues[t][0].tmpId == Ours(0) && 0 in Queued(l1);
    var replay := Arrive(t, Echo(NoTmp));
    var l3 := Next(l2, replay);
    LedOn(ph, start + [echo] + [Restart], l2, replay, l3);
    ComesBack(l3, t, NoTmp);
    var l4 := Next(l3, Handling(t, true));
    LedOn(ph, start + [echo] + [Restart] + [replay], l3, Handling(t, true), l4);
    ms := start + [echo] + [Restart] + [replay] + [Handling(t, true)];
    NothingSettled(l3.w, l4.w);
  }
}
