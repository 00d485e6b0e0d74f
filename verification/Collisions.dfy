/**
 Where isolation ends.  A state is contested when two tenants would answer for one and the same channel; from there, and
 only from there, the next post can be taken twice.
 */
module Collisions {
  import opened Types
  import opened Conversations
  import opened Storage
  import opened Mattermost
  import Delivery
  import opened Bridge
  import opened Corebridge
  import opened Runs
  import opened Placement
  import opened Isolation

  /** Tenant `t` would answer for this conversation; `threads` are the tenants laid out in threads. */
  ghost predicate Listens(w: World, threads: set<Tenant>, t: Tenant, c: ConvId) { ListensAs(w, t in threads, t, c) }

  ghost predicate SameChannel(w: World, t: Tenant, c: ConvId, t': Tenant, c': ConvId) {
    && Known(w, t, c) && Known(w, t', c')
    && w.db.conversations[(t, c)].channel == w.db.conversations[(t', c')].channel
  }

  /** Two tenants would answer in one channel, and one of them at least for every post there. */
  ghost predicate Contested(w: World, threads: set<Tenant>) {
    exists t, c, t', c' ::
      && t != t' && t' !in threads
      && Listens(w, threads, t, c) && Listens(w, threads, t', c') && SameChannel(w, t, c, t', c')
  }

  ghost predicate ClaimsNow(w: World, e: Event) {
    e.IsPost() && |w.log| < |Step(w, e).log| && IsClaim(Step(w, e).log[|w.log|])
  }

  /** Somebody writes a post, and two bridges that are handed it both take it for theirs. */
  ghost predicate BothTake(w: World, body: Post, e: Event, e': Event) {
    var w1 := w.(mm := w.mm.Add(body));
    && Rooted(w.mm.posts, body)
    && e.IsPost() && e'.IsPost() && e.post == e'.post == w.mm.next && !SameBridge(e, e')
    && Honest(w1, e) && ClaimsNow(w1, e) && Honest(Step(w1, e), e') && ClaimsNow(Step(w1, e), e')
  }

  predicate LaidOut(threads: set<Tenant>, e: Event)
    requires e.IsPost()
  {
    e.s.threadMode <==> e.tenant in threads
  }

  // ----- only from there -----

  lemma DeliveryFrame(w: World, e: Event)
    requires w.mm.Valid() && e.IsPost()
    ensures Step(w, e).db.conversations == w.db.conversations
    ensures forall p | p in w.mm.posts :: p in Step(w, e).mm.posts && Step(w, e).mm.posts[p] == w.mm.posts[p]
  {
    PostStep(w, e);
  }

  /** Whoever takes a post answers as it is laid out. */
  lemma TakerAnswers(w: World, e: Event)
    requires w.mm.Valid() && Honest(w, e) && ClaimsNow(w, e)
    ensures e.target.Some? && Known(w, e.tenant, e.target.value) && e.post in w.mm.posts
    ensures if e.s.threadMode
            then w.db.conversations[(e.tenant, e.target.value)].root == w.mm.posts[e.post].ThreadRoot(e.post)
            else InChannel(w.db, e.tenant, w.mm.posts[e.post].channel) == {e.target.value}
                 && w.db.conversations[(e.tenant, e.target.value)].channel == w.mm.posts[e.post].channel
  {
    PostStep(w, e);
    if e.s.threadMode {
      assert e.target.value in RootedAt(w.db, e.tenant, w.mm.posts[e.post].ThreadRoot(e.post));
    } else {
      assert e.target.value in InChannel(w.db, e.tenant, w.mm.posts[e.post].channel);
    }
  }

  /** A taker of a new post was already listening in its channel. */
  lemma TakerListened(w: World, threads: set<Tenant>, body: Post, t: Tenant, c: ConvId)
    requires Stored(w) && Placed(w) && Rooted(w.mm.posts, body) && Known(w, t, c)
    requires if t in threads then w.db.conversations[(t, c)].root == body.ThreadRoot(w.mm.next)
             else InChannel(w.db, t, body.channel) == {c} && w.db.conversations[(t, c)].channel == body.channel
    ensures Listens(w, threads, t, c) && w.db.conversations[(t, c)].channel == body.channel
  {
    if t in threads {
      assert body.ThreadRoot(w.mm.next) in w.mm.posts;
      assert body.root == w.db.conversations[(t, c)].root;
    }
  }

  lemma OneThreadEach(w: World, k: (Tenant, ConvId), k': (Tenant, ConvId))
    requires Stored(w) && k in w.db.conversations && k' in w.db.conversations && k != k'
    ensures w.db.conversations[k].root != NO_POST ==> w.db.conversations[k].root != w.db.conversations[k'].root
  {
  }

  lemma TakenTwiceIsContested(w: World, threads: set<Tenant>, body: Post, e: Event, e': Event)
    requires Stored(w) && Placed(w) && BothTake(w, body, e, e')
    requires LaidOut(threads, e) && LaidOut(threads, e') && e.tenant != e'.tenant
    ensures Contested(w, threads)
  {
    var w1 := w.(mm := w.mm.Add(body));
    AddKeeps(w, body);
    TakerAnswers(w1, e);
    DeliveryFrame(w1, e);
    StepKeeps(w1, e);
    TakerAnswers(Step(w1, e), e');
    var t, c, t', c' := e.tenant, e.target.value, e'.tenant, e'.target.value;
    TakerListened(w, threads, body, t, c);
    TakerListened(w, threads, body, t', c');
    assert SameChannel(w, t, c, t', c') && SameChannel(w, t', c', t, c);
    OneThreadEach(w, (t, c), (t', c'));
  }

  // ----- from there -----

  const BOT: UserId := "bot"
  const CODES := Delivery.StatusCodes({}, 11, 2, {})

  function Layout(threads: bool): Settings { Settings(BOT, threads, true, 0, CODES) }

  const Sends := OutgoingFate(true, true, true, true, true, 0, true, true, "")
  const Departs := DepartureFate(true, true, true, Some(("x", 0)), true, true, "")

  function Deliver(phone: bool, t: Tenant, threads: bool, post: PostId, c: ConvId, reply: Option<MsgId>): Event {
    if phone then PostToPhone(t, Layout(threads), post, Some(c), reply, Sends)
    else PostToTransport(t, Layout(threads), post, Some(c), reply, Departs)
  }

  function Says(channel: ChannelId, root: PostId): Post { Post(channel, root, "human", "", "yes", [], map[]) }

  /** The reverse look-up answers something. */
  lemma SomeReply(w: World, t: Tenant, post: Post, root: PostId) returns (reply: Option<MsgId>)
    ensures IsReplyTarget(w.db, t, post, root, reply)
    ensures post.root == NO_POST || post.root == root ==> reply == None
  {
    reply := None;
    if post.root != NO_POST && post.root != root && StandingFor(w.db, t, post.root) != {} {
      var m :| m in StandingFor(w.db, t, post.root);
      reply := Some(m);
    }
  }

  /** A post of a person is taken by a bridge it is meant for. */
  lemma MeantIsTaken(w: World, phone: bool, t: Tenant, threads: bool, p: PostId, c: ConvId, reply: Option<MsgId>)
    requires p in w.mm.posts && w.mm.posts[p] == Says(w.mm.posts[p].channel, w.mm.posts[p].root) && Known(w, t, c)
    requires IsTarget(w.db, t, Layout(threads), p, w.mm.posts[p], Some(c))
    requires IsReplyTarget(w.db, t, w.mm.posts[p], w.db.conversations[(t, c)].root, reply)
    ensures var e := Deliver(phone, t, threads, p, c, reply);
            && Honest(w, e) && ClaimsNow(w, e)
            && Step(w, e).mm == w.mm && Step(w, e).db.conversations == w.db.conversations
            && (phone ==> Step(w, e).db == AddPendingOutbound(w.db, t, Ours(w.nextTmp), p, c, 0)
                          && Step(w, e).nextTmp == w.nextTmp + 1)
  {
    if phone { MeantIsSent(w, t, threads, p, c, reply); } else { MeantIsHandedOver(w, t, threads, p, c, reply); }
  }

  lemma MeantIsSent(w: World, t: Tenant, threads: bool, p: PostId, c: ConvId, reply: Option<MsgId>)
    requires p in w.mm.posts && w.mm.posts[p] == Says(w.mm.posts[p].channel, w.mm.posts[p].root)
    ensures var e := Deliver(true, t, threads, p, c, reply);
            && Reaches(w, e) && ClaimsNow(w, e) && Step(w, e).mm == w.mm && Step(w, e).nextTmp == w.nextTmp + 1
            && Step(w, e).db == AddPendingOutbound(w.db, t, Ours(w.nextTmp), p, c, 0)
  {
    assert TrimSpace("yes") == "yes";
  }

  lemma MeantIsHandedOver(w: World, t: Tenant, threads: bool, p: PostId, c: ConvId, reply: Option<MsgId>)
    requires p in w.mm.posts && w.mm.posts[p] == Says(w.mm.posts[p].channel, w.mm.posts[p].root)
    ensures var e := Deliver(false, t, threads, p, c, reply);
            && Reaches(w, e) && ClaimsNow(w, e) && Step(w, e).mm == w.mm
            && Step(w, e).db.conversations == w.db.conversations
  {
    assert TrimSpace("yes") == "yes";
  }

  /** A tenant that listens is the target of a post in the channel: of any post, or of one in its thread. */
  lemma ListenerIsTarget(w: World, threads: set<Tenant>, t: Tenant, c: ConvId, p: PostId, post: Post)
    requires Listens(w, threads, t, c) && post.channel == w.db.conversations[(t, c)].channel
    requires t in threads ==> post.root == w.db.conversations[(t, c)].root
    ensures IsTarget(w.db, t, Layout(t in threads), p, post, Some(c))
  {
    if t in threads { assert (t, c) in w.db.conversations; }
  }

  /** In a contested state a post can be written that both tenants take; `phones` says which are phones. */
  lemma ListenersBothTake(
      w: World, threads: set<Tenant>, phones: set<Tenant>, t: Tenant, c: ConvId, t': Tenant, c': ConvId)
    returns (body: Post, e: Event, e': Event)
    requires Stored(w) && Placed(w) && t != t' && t' !in threads && SameChannel(w, t, c, t', c')
    requires Listens(w, threads, t, c) && Listens(w, threads, t', c')
    ensures BothTake(w, body, e, e') && LaidOut(threads, e) && LaidOut(threads, e') && e.tenant == t && e'.tenant == t'
    ensures (e.PostToPhone? <==> t in phones) && (e'.PostToPhone? <==> t' in phones)
    ensures var conv := w.db.conversations[(t, c)];
            body == Says(conv.channel, if t in threads then conv.root else NO_POST)
    ensures e == Deliver(t in phones, t, t in threads, w.mm.next, c, None)
    ensures e' == Deliver(t' in phones, t', false, w.mm.next, c', e'.reply)
  {
    var conv, conv' := w.db.conversations[(t, c)], w.db.conversations[(t', c')];
    body := Says(conv.channel, if t in threads then conv.root else NO_POST);
    var p := w.mm.next;
    var w1 := w.(mm := w.mm.Add(body));
    ListenerIsTarget(w1, threads, t, c, p, body);
    e := Deliver(t in phones, t, t in threads, p, c, None);
    MeantIsTaken(w1, t in phones, t, t in threads, p, c, None);
    var w2 := Step(w1, e);
    var reply := SomeReply(w2, t', body, conv'.root);
    SameListeners(w, w2, threads, t', c');
    ListenerIsTarget(w2, threads, t', c', p, body);
    e' := Deliver(t' in phones, t', false, p, c', reply);
    MeantIsTaken(w2, t' in phones, t', false, p, c', reply);
  }

  lemma SameListeners(w: World, w': World, threads: set<Tenant>, t: Tenant, c: ConvId)
    requires Listens(w, threads, t, c) && w'.db.conversations == w.db.conversations
    ensures Listens(w', threads, t, c)
  {
    if t !in threads {
      var channel := w.db.conversations[(t, c)].channel;
      assert InChannel(w'.db, t, channel) == InChannel(w.db, t, channel);
    }
  }

  /** The next post can be taken by bridges of two tenants if and only if the state is contested. */
  lemma ContestedExactly(w: World, threads: set<Tenant>)
    requires Stored(w) && Placed(w)
    ensures Contested(w, threads) <==>
      exists body, e, e' ::
        BothTake(w, body, e, e') && LaidOut(threads, e) && LaidOut(threads, e') && e.tenant != e'.tenant
  {
    if Contested(w, threads) {
      var t, c, t', c' :|
        && t != t' && t' !in threads
        && Listens(w, threads, t, c) && Listens(w, threads, t', c') && SameChannel(w, t, c, t', c');
      var body, e, e' := ListenersBothTake(w, threads, {}, t, c, t', c');
    }
    if body, e, e' :| BothTake(w, body, e, e') && LaidOut(threads, e) && LaidOut(threads, e') && e.tenant != e'.tenant {
      TakenTwiceIsContested(w, threads, body, e, e');
    }
  }

  // ----- whole runs -----

  ghost predicate ClaimedTwice(es: seq<Event>, phones: set<Tenant>, transports: set<Tenant>) {
    HonestRun(es) && DeliveredOnce(es) && RunBy(es, phones, transports) && !ClaimedOnce(Run(es))
  }

  /** Only posts that exist were handed to a bridge. */
  predicate DeliversExisting(es: seq<Event>) {
    forall i | 0 <= i < |es| && es[i].IsPost() :: es[i].post in Run(es).mm.posts
  }

  function Continued(es: seq<Event>, body: Post, e: Event, e': Event): seq<Event> {
    es + [Written(body)] + [e] + [e']
  }

  lemma {:induction false} OneMore(es: seq<Event>, w: World, e: Event, w': World)
    requires HonestRun(es) && w == Run(es) && Honest(w, e) && w' == Step(w, e)
    ensures HonestRun(es + [e]) && Run(es + [e]) == w'
    ensures HonestThreads(es) && (e.Written? ==> Rooted(w.mm.posts, e.body)) ==> HonestThreads(es + [e])
  {
    Extend(es, e);
    assert (es + [e])[..|es|] == es;
  }

  lemma {:induction false} ThreeMore(
      es: seq<Event>, w: World, e1: Event, w1: World, e2: Event, w2: World, e3: Event, w3: World)
    requires HonestRun(es) && w == Run(es) && Honest(w, e1) && w1 == Step(w, e1)
    requires Honest(w1, e2) && w2 == Step(w1, e2) && Honest(w2, e3) && w3 == Step(w2, e3)
    requires (e1.Written? ==> Rooted(w.mm.posts, e1.body)) && e2.IsPost() && e3.IsPost()
    ensures HonestRun(es + [e1] + [e2] + [e3]) && Run(es + [e1] + [e2] + [e3]) == w3
    ensures HonestThreads(es) ==> HonestThreads(es + [e1] + [e2] + [e3])
  {
    OneMore(es, w, e1, w1);
    OneMore(es + [e1], w1, e2, w2);
    OneMore(es + [e1] + [e2], w2, e3, w3);
  }

  lemma {:induction false} TwoMore(es: seq<Event>, w: World, body: Post, e: Event, e': Event)
    requires HonestRun(es) && w == Run(es) && BothTake(w, body, e, e')
    ensures var all := Continued(es, body, e, e');
            && HonestRun(all) && Run(all) == Step(Step(w.(mm := w.mm.Add(body)), e), e')
            && (HonestThreads(es) ==> HonestThreads(all))
  {
    var w1 := w.(mm := w.mm.Add(body));
    ThreeMore(es, w, Written(body), w1, e, Step(w1, e), e', Step(Step(w1, e), e'));
  }

  /** A post nobody was handed yet is handed to two bridges. */
  lemma HandedOnce(
      es: seq<Event>, phones: set<Tenant>, transports: set<Tenant>, body: Post, e: Event, e': Event)
    requires DeliveredOnce(es) && RunBy(es, phones, transports) && RunBy([e], phones, transports)
    requires RunBy([e'], phones, transports) && e.IsPost() && e'.IsPost() && e.post == e'.post && !SameBridge(e, e')
    requires forall i | 0 <= i < |es| && es[i].IsPost() :: es[i].post != e.post
    ensures DeliveredOnce(Continued(es, body, e, e')) && RunBy(Continued(es, body, e, e'), phones, transports)
  {
    var all := Continued(es, body, e, e');
    assert [e][0] == e && [e'][0] == e';
    assert all[|es|] == Written(body) && all[|es| + 1] == e && all[|es| + 2] == e';
    assert forall i | 0 <= i < |es| :: all[i] == es[i];
  }

  /** Both claims stand in the log. */
  lemma LoggedTwice(w: World, e: Event, e': Event)
    requires w.mm.Valid() && Step(w, e).mm.Valid()
    requires ClaimsNow(w, e) && ClaimsNow(Step(w, e), e') && e.post == e'.post
    ensures !ClaimedOnce(Step(Step(w, e), e'))
  {
    var w1, w2 := Step(w, e), Step(Step(w, e), e');
    PostStep(w, e);
    PostStep(w1, e');
    assert w2.log[|w.log|] == w2.log[..|w1.log|][|w.log|] == w1.log[|w.log|];
  }

  /** After any run a post taken twice makes a run in which a post was claimed twice. */
  lemma {:induction false} TakenTwiceClaimsTwice(
      es: seq<Event>, w: World, phones: set<Tenant>, transports: set<Tenant>, body: Post, e: Event, e': Event)
    requires HonestRun(es) && w == Run(es) && DeliveredOnce(es) && RunBy(es, phones, transports)
    requires DeliversExisting(es) && BothTake(w, body, e, e')
    requires RunBy([e], phones, transports) && RunBy([e'], phones, transports)
    ensures ClaimedTwice(Continued(es, body, e, e'), phones, transports)
    ensures HonestThreads(es) ==> HonestThreads(Continued(es, body, e, e'))
  {
    RunStored(es);
    BothLogged(w, body, e, e');
    TwoMore(es, w, body, e, e');
    HandedOnce(es, phones, transports, body, e, e');
  }

  lemma BothLogged(w: World, body: Post, e: Event, e': Event)
    requires Stored(w) && BothTake(w, body, e, e')
    ensures w.mm.next !in w.mm.posts && !ClaimedOnce(Step(Step(w.(mm := w.mm.Add(body)), e), e'))
  {
    AddKeeps(w, body);
    StepKeeps(w.(mm := w.mm.Add(body)), e);
    LoggedTwice(w.(mm := w.mm.Add(body)), e, e');
  }

  /**
   From every reachable state that is contested, the next post leads to a run in which a post was claimed twice,
   whoever they are and in whatever layout.
   */
  lemma {:induction false} ContestedRunsClaimTwice(
      es: seq<Event>, threads: set<Tenant>, phones: set<Tenant>, transports: set<Tenant>,
      t: Tenant, c: ConvId, t': Tenant, c': ConvId)
    returns (longer: seq<Event>)
    requires HonestRun(es) && HonestThreads(es) && DeliveredOnce(es) && DeliversExisting(es)
    requires RunBy(es, phones, transports) && t in phones + transports && t' in phones + transports
    requires t != t' && t' !in threads && SameChannel(Run(es), t, c, t', c')
    requires Listens(Run(es), threads, t, c) && Listens(Run(es), threads, t', c')
    ensures ClaimedTwice(longer, phones, transports) && HonestThreads(longer) && es <= longer
    ensures forall i | |es| <= i < |longer| && longer[i].IsPost() :: LaidOut(threads, longer[i])
  {
    RunStored(es);
    MessagesStayInTheirConversation(es);
    var body, e, e' := ListenersBothTake(Run(es), threads, phones, t, c, t', c');
    TakenTwiceClaimsTwice(es, Run(es), phones, transports, body, e, e');
    longer := Continued(es, body, e, e');
    AfterThose(es, threads, body, e, e');
  }

  lemma AfterThose(es: seq<Event>, threads: set<Tenant>, body: Post, e: Event, e': Event)
    requires e.IsPost() && e'.IsPost() && LaidOut(threads, e) && LaidOut(threads, e')
    ensures var all := Continued(es, body, e, e');
            es <= all && forall i | |es| <= i < |all| && all[i].IsPost() :: LaidOut(threads, all[i])
  {
    var all := Continued(es, body, e, e');
    assert all[|es|] == Written(body) && all[|es| + 1] == e && all[|es| + 2] == e';
  }

  // ----- such states are reached -----

  function Hello(id: ConvId): Message { Message("m", id, NoTmp, false, 0, 0, "", "hello", [], false) }

  function Opens(id: ConvId): EnsureFate {
    EnsureFate(true, Some(PhoneConversation(id, id, false, 0, 0, "", [])), Some("town"), "", true, true, 0, None, [])
  }

  const AllWell := StatusFate(true, true, true)

  /** A message opens conversation "c" of tenant `t` in the channel "town", and is not posted itself. */
  function Opening(t: Tenant, threads: bool): Event {
    PhoneMessage(t, Layout(threads), Hello("c"),
                 IncomingFate(true, true, true, AllWell, Opens("c"), PostFate("", [], false, false), false))
  }

  function Row(root: PostId): ConversationRow { RowFor(Opens("c").fetched.value, "town", root, 0) }

  lemma OpeningOpens(w: World, t: Tenant, threads: bool)
    requires w.db.messages == map[] && w.db.pending == map[] && !Known(w, t, "c")
    ensures Honest(w, Opening(t, threads))
    ensures var w' := Step(w, Opening(t, threads));
            w'.db == SaveConversation(w.db, t, Row(if threads then w.mm.next else NO_POST))
            && w'.nextTmp == w.nextTmp && w'.mm.reactions == w.mm.reactions
  {
  }

  /** Two tenants have a conversation each in "town", the first in a thread or not, the second not. */
  function TwoInTown(t: Tenant, threads: bool, t': Tenant): seq<Event> { [Opening(t, threads), Opening(t', false)] }

  lemma {:induction false} TownReached(t: Tenant, threads: bool, t': Tenant)
    requires t != t'
    ensures var es := TwoInTown(t, threads, t'); var w := Run(es);
            && HonestRun(es) && HonestThreads(es) && DeliveredOnce(es) && DeliversExisting(es) && RunBy(es, {t, t'}, {})
            && w.db == Tables(map[], map[],
                 map[(t, "c") := Row(if threads then 1 else NO_POST), (t', "c") := Row(NO_POST)]) && w.nextTmp == 0
                   && w.mm.reactions == map[]
  {
    var first, second := Opening(t, threads), Opening(t', false);
    OpeningOpens(EmptyWorld, t, threads);
    OneMore([], EmptyWorld, first, Step(EmptyWorld, first));
    assert [] + [first] == [first];
    var w1 := Step(EmptyWorld, first);
    OpeningOpens(w1, t', false);
    OneMore([first], w1, second, Step(w1, second));
    assert [first] + [second] == TwoInTown(t, threads, t');
  }

  lemma TownListens(w: World, t: Tenant, threads: bool, t': Tenant)
    requires t != t'
    requires w.db.conversations == map[(t, "c") := Row(if threads then 1 else NO_POST), (t', "c") := Row(NO_POST)]
    ensures var inThreads := if threads then {t} else {};
            && Listens(w, inThreads, t, "c") && Listens(w, inThreads, t', "c") && SameChannel(w, t, "c", t', "c")
  {
    assert (t, "c") in w.db.conversations && (t', "c") in w.db.conversations;
    assert InChannel(w.db, t, "town") == {"c"};
    assert InChannel(w.db, t', "town") == {"c"};
  }

  /**
   Any two users whose conversations share a channel, one of them at least not in threads, can both send what is
   written there: when neither is, and just as well when only one is.
   */
  lemma {:induction false} SharedChannelClaimsTwice(t: Tenant, threads: bool, t': Tenant) returns (es: seq<Event>)
    requires t != t'
    ensures ClaimedTwice(es, {t, t'}, {}) && HonestThreads(es)
    ensures forall i | 0 <= i < |es| && es[i].IsPost() :: es[i].s.threadMode <==> threads && es[i].tenant == t
  {
    var opening := TwoInTown(t, threads, t');
    TownReached(t, threads, t');
    TownListens(Run(opening), t, threads, t');
    var inThreads := if threads then {t} else {};
    es := ContestedRunsClaimTwice(opening, inThreads, {t, t'}, {}, t, "c", t', "c");
    forall i | 0 <= i < |es| && es[i].IsPost() ensures es[i].s.threadMode <==> threads && es[i].tenant == t {
      if i < |opening| { assert es[i] == opening[i]; }
    }
  }

  // ----- names -----

  /** The thread of a conversation of tenant `t`, which a phone and a transport bridge share. */
  lemma {:induction false} SharedNameClaimsTwice(t: Tenant) returns (es: seq<Event>)
    ensures ClaimedTwice(es, {t}, {t}) && AllThreads(es)
  {
    var opening, w := [Opening(t, true)], Step(EmptyWorld, Opening(t, true));
    ThreadReached(t);
    var body := Says("town", 1);
    var e, e' := Deliver(true, t, true, w.mm.next, "c", None), Deliver(false, t, true, w.mm.next, "c", None);
    ThreadTaken(w, t, e, e', body);
    TakenTwiceClaimsTwice(opening, w, {t}, {t}, body, e, e');
    es := Continued(opening, body, e, e');
    AfterThose(opening, {t}, body, e, e');
  }

  lemma {:induction false} ThreadReached(t: Tenant)
    ensures var opening := [Opening(t, true)];
      && HonestRun(opening) && Run(opening) == Step(EmptyWorld, Opening(t, true)) && DeliveredOnce(opening)
      && DeliversExisting(opening) && RunBy(opening, {t}, {t})
  {
    OpeningOpens(EmptyWorld, t, true);
    OneMore([], EmptyWorld, Opening(t, true), Step(EmptyWorld, Opening(t, true)));
    assert [] + [Opening(t, true)] == [Opening(t, true)];
  }

  lemma ThreadTaken(w: World, t: Tenant, e: Event, e': Event, body: Post)
    requires w == Step(EmptyWorld, Opening(t, true)) && body == Says("town", 1)
    requires e == Deliver(true, t, true, w.mm.next, "c", None) && e' == Deliver(false, t, true, w.mm.next, "c", None)
    ensures BothTake(w, body, e, e')
  {
    OpeningOpens(EmptyWorld, t, true);
    var p, w1 := w.mm.next, w.(mm := w.mm.Add(body));
    assert Listens(w1, {t}, t, "c");
    ListenerIsTarget(w1, {t}, t, "c", p, body);
    MeantIsTaken(w1, true, t, true, p, "c", None);
    SameListeners(w1, Step(w1, e), {t}, t, "c");
    ListenerIsTarget(Step(w1, e), {t}, t, "c", p, body);
    MeantIsTaken(Step(w1, e), false, t, true, p, "c", None);
  }

  /** Isolation holds in thread mode exactly when no phone user bears a transport bridge's name. */
  lemma IsolationExactly(phones: set<Tenant>, transports: set<Tenant>)
    ensures (phones !! transports) <==> !exists es :: ClaimedTwice(es, phones, transports) && AllThreads(es)
  {
    if phones !! transports {
      forall es | HonestRun(es) && DeliveredOnce(es) && RunBy(es, phones, transports) && AllThreads(es)
        ensures ClaimedOnce(Run(es))
      {
        ThreadsClaimOnce(es, phones, transports);
      }
    } else {
      var t :| t in phones && t in transports;
      var es := SharedNameClaimsTwice(t);
      assert ClaimedTwice(es, phones, transports);
    }
  }
}
