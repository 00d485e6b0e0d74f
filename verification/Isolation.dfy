/**
 Who a human post is sent to.  Every bridge sees every post, so what is at stake is that no bridge answers for
 another's conversation, and that nothing a bridge posts is ever sent on.
 */
module Isolation {
  import opened Types
  import opened Storage
  import opened Mattermost
  import Delivery
  import opened Bridge
  import opened Corebridge
  import opened Runs
  import opened Placement

  /** A bridge took the post to be meant for one of its conversations, and tried to send it. */
  predicate IsClaim(a: Action) { a.Sent? || a.Refused? }

  predicate MadePost(a: Action) { a.Bridged? || a.Noticed? || (a.Opened? && a.post != NO_POST) }

  predicate Marked(w: World, a: Action) {
    MadePost(a) ==> a.post in w.mm.posts && w.mm.posts[a.post].FromBridge()
  }

  predicate HumanClaim(w: World, a: Action) {
    IsClaim(a) ==> a.about in w.mm.posts && !w.mm.posts[a.about].FromBridge()
  }

  /** What a step does besides claiming: the log grows, and new posts carry the marker. */
  ghost predicate Grows(w: World, w': World) {
    && |w.log| <= |w'.log| && w'.log[..|w.log|] == w.log
    && (forall p | p in w.mm.posts :: p in w'.mm.posts && w'.mm.posts[p] == w.mm.posts[p])
    && w.mm.next <= w'.mm.next
    && (forall i | |w.log| <= i < |w'.log| :: Marked(w', w'.log[i]))
  }

  ghost predicate GrowsQuietly(w: World, w': World) {
    Grows(w, w') && forall i | |w.log| <= i < |w'.log| :: !IsClaim(w'.log[i])
  }

  lemma QuietTransitive(w: World, w1: World, w2: World)
    requires GrowsQuietly(w, w1) && GrowsQuietly(w1, w2)
    ensures GrowsQuietly(w, w2)
  {
    assert w2.log[..|w.log|] == w1.log[..|w.log|];
    forall i | |w.log| <= i < |w2.log|
      ensures Marked(w2, w2.log[i]) && !IsClaim(w2.log[i])
    {
      if i < |w1.log| { assert w2.log[i] == w1.log[i] && Marked(w1, w1.log[i]); }
    }
  }

  /** One entry more in the log, and at most one post more, which carries the marker. */
  lemma GrowsByOne(w: World, w': World, a: Action, made: Option<Post>)
    requires w.mm.Valid() && w'.log == w.log + [a] && (MadePost(a) ==> made.Some? && a.post == w.mm.next)
    requires match made
      case None => w'.mm.posts == w.mm.posts && w'.mm.next == w.mm.next
      case Some(post) =>
        post.FromBridge() && w'.mm.posts == w.mm.posts[w.mm.next := post] && w'.mm.next == w.mm.next + 1
    ensures Grows(w, w') && w'.mm.Valid()
  {
  }

  lemma PostMessageQuiet(w: World, tenant: Tenant, s: Settings, conv: ConversationRow, msg: Message, f: PostFate)
    requires w.mm.Valid()
    ensures var w' := PostMessage(w, tenant, s, conv, msg, f); GrowsQuietly(w, w') && w'.mm.Valid()
  {
    OwnPostsNeverComeBack(MessagePost(conv, msg, f), s.bot, s.bot);
  }

  lemma {:induction false} BackfillQuiet(
      w: World, tenant: Tenant, s: Settings, conv: ConversationRow, window: seq<Message>, fates: seq<PostFate>)
    requires w.mm.Valid()
    ensures var w' := Backfill(w, tenant, s, conv, window, fates); GrowsQuietly(w, w') && w'.mm.Valid()
    decreases |window|
  {
    if window != [] {
      var last := |window| - 1;
      var f := WindowFate(fates, last);
      if window[last].HasContent() {
        PostMessageQuiet(w, tenant, s, conv, window[last], f);
        if f.postOk && f.saveOk {
          var w1 := PostMessage(w, tenant, s, conv, window[last], f);
          BackfillQuiet(w1, tenant, s, conv, window[..last], fates);
          QuietTransitive(w, w1, Backfill(w1, tenant, s, conv, window[..last], fates));
        }
      } else {
        BackfillQuiet(w, tenant, s, conv, window[..last], fates);
      }
    }
  }

  lemma OpenQuiet(w: World, tenant: Tenant, s: Settings, f: EnsureFate)
    requires w.mm.Valid()
    ensures var w' := OpenConversation(w, tenant, s, f).0; GrowsQuietly(w, w') && w'.mm.Valid()
  {
    if f.fetched.Some? && f.channel.Some? && (s.threadMode ==> f.postOk) {
      var header := NewPost(f.channel.value, NO_POST, f.header, [], map[]);
      OwnPostsNeverComeBack(header, s.bot, s.bot);
      var row := NewRow(w, s, f);
      GrowsByOne(w, OpenConversation(w, tenant, s, f).0, Opened(tenant, row.id, row.root, f.saveOk),
        if s.threadMode then Some(AsPosted(header, s.bot)) else None);
    }
  }

  lemma EnsureQuiet(w: World, tenant: Tenant, s: Settings, id: ConvId, f: EnsureFate)
    requires w.mm.Valid()
    ensures var w' := EnsureConversation(w, tenant, s, id, f).0; GrowsQuietly(w, w') && w'.mm.Valid()
  {
    if f.lookupOk && !Known(w, tenant, id) {
      OpenQuiet(w, tenant, s, f);
      var (w1, row) := OpenConversation(w, tenant, s, f);
      if row.Some? && s.backfillCount > 0 && f.window.Some? {
        BackfillQuiet(w1, tenant, s, row.value, f.window.value, f.windowFates);
        QuietTransitive(w, w1, EnsureConversation(w, tenant, s, id, f).0);
      }
    }
  }

  lemma BridgeNewQuiet(w: World, tenant: Tenant, s: Settings, msg: Message, f: IncomingFate)
    requires w.mm.Valid()
    ensures GrowsQuietly(w, BridgeNew(w, tenant, s, msg, f))
  {
    if !msg.isOld && msg.HasContent() {
      EnsureQuiet(w, tenant, s, msg.conversation, f.ensure);
      var (w1, conv) := EnsureConversation(w, tenant, s, msg.conversation, f.ensure);
      if conv.Some? {
        PostMessageQuiet(w1, tenant, s, conv.value, msg, f.post);
        QuietTransitive(w, w1, PostMessage(w1, tenant, s, conv.value, msg, f.post));
      }
    }
  }

  lemma AcknowledgeQuiet(w: World, tenant: Tenant, s: Settings, msg: Message, f: IncomingFate)
    requires w.mm.Valid() && IsEcho(w, msg)
    ensures GrowsQuietly(w, Acknowledge(w, tenant, s, msg, f))
  {
  }

  lemma IncomingQuiet(w: World, tenant: Tenant, s: Settings, msg: Message, f: IncomingFate)
    requires w.mm.Valid()
    ensures GrowsQuietly(w, Incoming(w, tenant, s, msg, f))
  {
    if IsEcho(w, msg) {
      AcknowledgeQuiet(w, tenant, s, msg, f);
    } else {
      BridgeNewQuiet(w, tenant, s, msg, f);
    }
  }

  lemma PostArrivalQuiet(w: World, tenant: Tenant, s: Settings, conv: ConversationRow, msg: Message, f: ArrivalFate)
    requires w.mm.Valid()
    ensures GrowsQuietly(w, PostArrival(w, tenant, s, conv, msg, f))
  {
    if f.postOk {
      var body := ArrivalPost(conv, msg, f);
      OwnPostsNeverComeBack(body, s.bot, s.bot);
      GrowsByOne(w, PostArrival(w, tenant, s, conv, msg, f), Bridged(tenant, msg.id, w.mm.next, f.saveOk),
        Some(AsPosted(body, s.bot)));
    }
  }

  lemma ArrivalQuiet(w: World, tenant: Tenant, s: Settings, msg: Message, f: ArrivalFate)
    requires w.mm.Valid()
    ensures GrowsQuietly(w, Arrival(w, tenant, s, msg, f))
  {
    if f.lookupOk && (tenant, msg.id) !in w.db.messages && msg.HasContent() {
      OpenQuiet(w, tenant, s, f.ensure);
      var (w1, conv) := EnsureGeneric(w, tenant, s, msg.conversation, f.ensure);
      if conv.Some? {
        PostArrivalQuiet(w1, tenant, s, conv.value, msg, f);
        QuietTransitive(w, w1, PostArrival(w1, tenant, s, conv.value, msg, f));
      }
    }
  }

  lemma QuietStep(w: World, e: Event)
    requires w.mm.Valid() && !e.IsPost()
    ensures GrowsQuietly(w, Step(w, e))
  {
    match e
    case PhoneMessage(tenant, s, msg, f) => IncomingQuiet(w, tenant, s, msg, f);
    case TransportMessage(tenant, s, msg, f) => ArrivalQuiet(w, tenant, s, msg, f);
    case _ =>
  }

  /** Delivering a post claims it at most once, for this event's tenant and target. */
  ghost predicate ClaimsAtMost(w: World, w': World, e: Event)
    requires e.IsPost()
  {
    && Grows(w, w')
    && (forall i | |w.log| <= i < |w'.log| && IsClaim(w'.log[i]) ::
          && i == |w.log| && w'.log[i].about == e.post && w'.log[i].tenant == e.tenant
          && e.target == Some(w'.log[i].conversation) && Reaches(w, e))
  }

  /** A refused post is answered by at most a notice, in the same thread. */
  lemma RefusalClaims(w: World, w1: World, w': World, e: Event, conversation: ConvId, text: string, noticed: bool)
    requires w.mm.Valid() && e.IsPost() && Reaches(w, e) && e.target == Some(conversation)
    requires w1.log == w.log + [Refused(e.tenant, conversation, e.post)] && w1.mm.posts == w.mm.posts
      && w1.mm.next == w.mm.next
    requires
      var post := w.mm.posts[e.post];
      var notice := AsPosted(NewPost(post.channel, post.ThreadRoot(e.post), text, [], map[]), e.s.bot);
      if noticed then w'.log == w1.log + [Noticed(e.tenant, e.post, w1.mm.next)] && w'.mm == w1.mm.Add(notice)
        else w' == w1
    ensures ClaimsAtMost(w, w', e)
  {
    var post := w.mm.posts[e.post];
    OwnPostsNeverComeBack(NewPost(post.channel, post.ThreadRoot(e.post), text, [], map[]), e.s.bot, e.s.bot);
  }

  lemma OutgoingClaims(w: World, e: Event)
    requires w.mm.Valid() && e.PostToPhone? && Reaches(w, e) && e.target.Some?
    ensures ClaimsAtMost(w, OutgoingPost(w, e.tenant, e.s, e.post, w.mm.posts[e.post], e.target, e.reply, e.out), e)
  {
    if !e.out.sendOk {
      var post, conversation := w.mm.posts[e.post], e.target.value;
      var w0 := if e.s.postDeliveryStatus && e.out.reactOk
        then w.(mm := w.mm.React(e.post, e.s.bot, Delivery.EMOJI_FAILED)) else w;
      RefusalClaims(w, w0.Log(Refused(e.tenant, conversation, e.post)),
        ReportSendFailure(w, e.tenant, e.s, conversation, e.post, post, e.out), e, conversation, e.out.notice,
          e.out.noticeOk);
    }
  }

  lemma DepartureClaims(w: World, e: Event)
    requires w.mm.Valid() && e.PostToTransport? && Reaches(w, e) && e.target.Some?
    ensures ClaimsAtMost(w, Departure(w, e.tenant, e.s, e.post, w.mm.posts[e.post], e.target, e.reply, e.departure), e)
  {
    if e.departure.sent.None? {
      var post, conversation := w.mm.posts[e.post], e.target.value;
      RefusalClaims(w, w.Log(Refused(e.tenant, conversation, e.post)),
        ReportFailure(w, e.tenant, e.s, conversation, e.post, post, e.departure), e, conversation, e.departure.notice,
          e.departure.noticeOk);
    }
  }

  lemma PostStep(w: World, e: Event)
    requires w.mm.Valid() && e.IsPost()
    ensures ClaimsAtMost(w, Step(w, e), e)
  {
    if Reaches(w, e) && e.target.Some? {
      if e.PostToPhone? { OutgoingClaims(w, e); } else { DepartureClaims(w, e); }
    }
  }

  lemma StepGrows(w: World, e: Event)
    requires w.mm.Valid()
    ensures Grows(w, Step(w, e))
  {
    if e.IsPost() { PostStep(w, e); } else { QuietStep(w, e); }
  }

  // ----- closed loop -----

  ghost predicate LoopSafe(w: World) {
    forall i | 0 <= i < |w.log| :: Marked(w, w.log[i]) && HumanClaim(w, w.log[i])
  }

  lemma {:induction false} RunLoopSafe(es: seq<Event>)
    requires HonestRun(es)
    ensures LoopSafe(Run(es))
  {
    if es != [] {
      var before, e := es[..|es| - 1], es[|es| - 1];
      RunLoopSafe(before);
      RunStored(before);
      var w, w' := Run(before), Run(es);
      if e.IsPost() { PostStep(w, e); } else { QuietStep(w, e); }
      forall i | 0 <= i < |w'.log|
        ensures Marked(w', w'.log[i]) && HumanClaim(w', w'.log[i])
      {
        if i < |w.log| { assert w'.log[i] == w'.log[..|w.log|][i] == w.log[i]; }
      }
    }
  }

  /**
   Feeding any post a bridge made back as an event, to any bridge and under any bot account, does nothing at all:
   the marker is there whatever else changed.
   */
  lemma {:induction false} OwnPostsAreInert(es: seq<Event>, i: nat, e: Event)
    requires HonestRun(es) && i < |Run(es).log| && MadePost(Run(es).log[i])
    requires e.IsPost() && e.post == Run(es).log[i].post
    ensures Step(Run(es), e) == Run(es)
  {
    RunLoopSafe(es);
    assert Marked(Run(es), Run(es).log[i]);
  }

  function SendsBy(log: seq<Action>, t: Tenant): nat {
    if log == [] then 0
    else
      var a := log[|log| - 1];
      SendsBy(log[..|log| - 1], t) + if a.Sent? && a.tenant == t then 1 else 0
  }

  /** How many posts reached the bridges of tenant `t`; the filter on the way in leaves only people's. */
  function HumanPostsTo(es: seq<Event>, t: Tenant): nat {
    if es == [] then 0
    else
      var before, e := es[..|es| - 1], es[|es| - 1];
      HumanPostsTo(before, t)
      + if e.IsPost() && e.tenant == t && Reaches(Run(before), e) then 1 else 0
  }

  lemma {:induction false} SendsAppended(log: seq<Action>, more: seq<Action>, t: Tenant)
    requires forall i | 0 < i < |more| :: !more[i].Sent?
    ensures SendsBy(log + more, t) == SendsBy(log, t) + if more != [] && more[0].Sent? && more[0].tenant == t then 1
      else 0
  {
    if more == [] {
      assert log + more == log;
    } else {
      assert (log + more)[..|log + more| - 1] == log + more[..|more| - 1];
      SendsAppended(log, more[..|more| - 1], t);
    }
  }

  /** A step sends nothing, or one post it was handed, which a person wrote. */
  lemma StepSends(w: World, e: Event, t: Tenant)
    requires Stored(w)
    ensures SendsBy(Step(w, e).log, t) <= SendsBy(w.log, t)
      + if e.IsPost() && e.tenant == t && Reaches(w, e) then 1 else 0
  {
    StepGrows(w, e);
    NewClaims(w, Step(w, e), e);
    SendsGrow(w.log, Step(w, e).log, t);
  }

  lemma SendsGrow(log: seq<Action>, log': seq<Action>, t: Tenant)
    requires |log| <= |log'| && log'[..|log|] == log && forall i | |log| < i < |log'| :: !log'[i].Sent?
    ensures SendsBy(log', t) == SendsBy(log, t)
      + if |log'| > |log| && log'[|log|].Sent? && log'[|log|].tenant == t then 1 else 0
  {
    var more := log'[|log|..];
    assert log' == log + more;
    SendsAppended(log, more, t);
  }

  lemma NewClaims(w: World, w': World, e: Event)
    requires w.mm.Valid() && w' == Step(w, e)
    ensures forall i | |w.log| <= i < |w'.log| && IsClaim(w'.log[i]) ::
      i == |w.log| && e.IsPost() && w'.log[i].tenant == e.tenant && Reaches(w, e)
  {
    if e.IsPost() { PostStep(w, e); } else { QuietStep(w, e); }
  }

  /** No run makes a bridge send more than the human posts it was handed. */
  lemma {:induction false} SendsNeverExceedHumanPosts(es: seq<Event>, t: Tenant)
    requires HonestRun(es)
    ensures SendsBy(Run(es).log, t) <= HumanPostsTo(es, t)
  {
    if es != [] {
      var before, e := es[..|es| - 1], es[|es| - 1];
      SendsNeverExceedHumanPosts(before, t);
      RunStored(before);
      StepSends(Run(before), e, t);
    }
  }

  // ----- one send per post, to the right person -----

  /** Every bridge lays out its conversations as threads. */
  predicate AllThreads(es: seq<Event>) {
    forall i | 0 <= i < |es| && es[i].IsPost() :: es[i].s.threadMode
  }

  predicate SameBridge(e: Event, e': Event)
    requires e.IsPost() && e'.IsPost()
  {
    e.tenant == e'.tenant && e.PostToPhone? == e'.PostToPhone?
  }

  /** No bridge is handed the same post twice. */
  predicate DeliveredOnce(es: seq<Event>) {
    forall i, j | 0 <= i < j < |es| && es[i].IsPost() && es[j].IsPost() && es[i].post == es[j].post ::
      !SameBridge(es[i], es[j])
  }

  /** The phone bridges run for `phones`, the generic ones for `transports`. */
  predicate RunBy(es: seq<Event>, phones: set<Tenant>, transports: set<Tenant>) {
    forall i | 0 <= i < |es| :: match es[i]
      case PhoneMessage(tenant, _, _, _) => tenant in phones
      case PhoneUpdate(tenant, _, _) => tenant in phones
      case PruneTick(tenant, _, _) => tenant in phones
      case PostToPhone(tenant, _, _, _, _, _) => tenant in phones
      case TransportMessage(tenant, _, _, _) => tenant in transports
      case PostToTransport(tenant, _, _, _, _, _) => tenant in transports
      case Written(_) => true
  }

  ghost predicate ClaimedOnce(w: World) {
    forall i, j | 0 <= i < j < |w.log| && IsClaim(w.log[i]) && IsClaim(w.log[j]) :: w.log[i].about != w.log[j].about
  }

  /** A bridge laid out in threads answers for the thread of a post, any other for the channel the post is in. */
  predicate Fits(post: Post, id: PostId, conv: ConversationRow, threads: bool) {
    if threads then conv.root == post.ThreadRoot(id) else conv.channel == post.channel
  }

  /** A tenant, in threads or not, would answer for this conversation to some post in its channel. */
  ghost predicate ListensAs(w: World, threads: bool, t: Tenant, c: ConvId) {
    && Known(w, t, c)
    && if threads then w.db.conversations[(t, c)].root != NO_POST
       else InChannel(w.db, t, w.db.conversations[(t, c)].channel) == {c}
  }

  /** The claim was made on the `p`-th event, which handed the post to this tenant, for the conversation it fits. */
  ghost predicate ClaimedBy(es: seq<Event>, a: Action, p: nat)
    requires IsClaim(a)
  {
    var w := Run(es);
    && p < |es| && es[p].IsPost() && es[p].post == a.about && es[p].tenant == a.tenant
    && a.about in w.mm.posts && !w.mm.posts[a.about].FromBridge() && Known(w, a.tenant, a.conversation)
    && Fits(w.mm.posts[a.about], a.about, w.db.conversations[(a.tenant, a.conversation)], es[p].s.threadMode)
    && ListensAs(Run(es[..p]), es[p].s.threadMode, a.tenant, a.conversation)
  }

  lemma ClaimStays(before: seq<Event>, e: Event, a: Action, p: nat)
    requires HonestRun(before) && Honest(Run(before), e) && IsClaim(a) && ClaimedBy(before, a, p)
    ensures ClaimedBy(before + [e], a, p)
  {
    RunStored(before);
    StepKeeps(Run(before), e);
    Extend(before, e);
    assert (before + [e])[..p] == before[..p];
  }

  lemma NewClaimFits(before: seq<Event>, e: Event, i: nat)
    requires HonestRun(before) && Honest(Run(before), e)
    requires |Run(before).log| <= i < |Step(Run(before), e).log| && IsClaim(Step(Run(before), e).log[i])
    ensures i == |Run(before).log| && ClaimedBy(before + [e], Step(Run(before), e).log[i], |before|)
  {
    var w := Run(before);
    RunStored(before);
    StepKeeps(w, e);
    Extend(before, e);
    assert (before + [e])[..|before|] == before;
    if e.IsPost() { PostStep(w, e); } else { QuietStep(w, e); }
    if e.s.threadMode {
      assert e.target.value in RootedAt(w.db, e.tenant, w.mm.posts[e.post].ThreadRoot(e.post));
    } else {
      assert e.target.value in InChannel(w.db, e.tenant, w.mm.posts[e.post].channel);
    }
  }

  lemma SameLog(es: seq<Event>)
    requires HonestRun(es) && es != []
    ensures var before := es[..|es| - 1]; Run(before).log <= Run(es).log
  {
    RunStored(es[..|es| - 1]);
    StepGrows(Run(es[..|es| - 1]), es[|es| - 1]);
  }

  /** Every claim was made on some event. */
  lemma {:induction false} ClaimHasEvent(es: seq<Event>, i: nat) returns (p: nat)
    requires HonestRun(es) && i < |Run(es).log| && IsClaim(Run(es).log[i])
    ensures ClaimedBy(es, Run(es).log[i], p)
  {
    var before, e := es[..|es| - 1], es[|es| - 1];
    assert es == before + [e];
    SameLog(es);
    if i < |Run(before).log| {
      p := ClaimHasEvent(before, i);
      ClaimStays(before, e, Run(es).log[i], p);
    } else {
      p := |before|;
      NewClaimFits(before, e, i);
    }
  }

  /** Two claims were made on two events. */
  lemma {:induction false} ClaimsHaveEvents(es: seq<Event>, i: nat, j: nat) returns (p: nat, q: nat)
    requires HonestRun(es) && i < j < |Run(es).log| && IsClaim(Run(es).log[i]) && IsClaim(Run(es).log[j])
    ensures p < q && ClaimedBy(es, Run(es).log[i], p) && ClaimedBy(es, Run(es).log[j], q)
  {
    var before, e := es[..|es| - 1], es[|es| - 1];
    assert es == before + [e];
    SameLog(es);
    if j < |Run(before).log| {
      p, q := ClaimsHaveEvents(before, i, j);
      ClaimStays(before, e, Run(es).log[i], p);
      ClaimStays(before, e, Run(es).log[j], q);
    } else {
      p, q := LastClaimHasEvent(before, e, i, j);
    }
  }

  lemma {:induction false} LastClaimHasEvent(before: seq<Event>, e: Event, i: nat, j: nat) returns (p: nat, q: nat)
    requires HonestRun(before) && Honest(Run(before), e) && Run(before).log <= Step(Run(before), e).log
    requires var log := Step(Run(before), e).log; i < j < |log| && IsClaim(log[i]) && IsClaim(log[j])
    requires j >= |Run(before).log|
    ensures var log := Step(Run(before), e).log;
      p < q && ClaimedBy(before + [e], log[i], p) && ClaimedBy(before + [e], log[j], q)
  {
    NewClaimFits(before, e, j);
    p := ClaimHasEvent(before, i);
    q := |before|;
    ClaimStays(before, e, Step(Run(before), e).log[i], p);
  }

  /** Two claims of one post are those of two tenants, each answering as it is laid out. */
  lemma TwoTenantsClaim(es: seq<Event>, phones: set<Tenant>, transports: set<Tenant>, i: nat, j: nat)
    returns (p: nat, q: nat)
    requires HonestRun(es) && DeliveredOnce(es) && RunBy(es, phones, transports) && phones !! transports
    requires i < j < |Run(es).log| && IsClaim(Run(es).log[i]) && IsClaim(Run(es).log[j])
    requires Run(es).log[i].about == Run(es).log[j].about
    ensures ClaimedBy(es, Run(es).log[i], p) && ClaimedBy(es, Run(es).log[j], q)
    ensures Run(es).log[i].tenant != Run(es).log[j].tenant
  {
    p, q := ClaimsHaveEvents(es, i, j);
    assert !SameBridge(es[p], es[q]);
  }

  /** A thread has one owner. */
  lemma OneOwner(w: World, a: Action, b: Action)
    requires Stored(w) && IsClaim(a) && IsClaim(b) && a.about == b.about && a.about in w.mm.posts
    requires Known(w, a.tenant, a.conversation) && Known(w, b.tenant, b.conversation)
    requires Fits(w.mm.posts[a.about], a.about, w.db.conversations[(a.tenant, a.conversation)], true)
    requires Fits(w.mm.posts[b.about], b.about, w.db.conversations[(b.tenant, b.conversation)], true)
    ensures a.tenant == b.tenant
  {
  }

  /**
   With every bridge in thread mode and no tenant name shared between a phone and the transport, a human post fanned
   out to all bridges is claimed at most once, by the conversation whose thread it is in.
   */
  lemma {:induction false} OneSendToTheRightPerson(
      es: seq<Event>, phones: set<Tenant>, transports: set<Tenant>, i: nat)
    requires HonestRun(es) && AllThreads(es) && DeliveredOnce(es)
    requires RunBy(es, phones, transports) && phones !! transports
    requires i < |Run(es).log| && IsClaim(Run(es).log[i])
    ensures var w := Run(es);
            var a := w.log[i];
            && Known(w, a.tenant, a.conversation) && a.about in w.mm.posts
            && ConversationAt(w.db, a.tenant, a.conversation).root == w.mm.posts[a.about].ThreadRoot(a.about)
            && (forall j | 0 <= j < |w.log| && IsClaim(w.log[j]) && w.log[j].about == a.about :: j == i)
  {
    var p := ClaimHasEvent(es, i);
    ThreadsClaimOnce(es, phones, transports);
  }

  lemma {:induction false} ThreadsClaimOnce(es: seq<Event>, phones: set<Tenant>, transports: set<Tenant>)
    requires HonestRun(es) && AllThreads(es) && DeliveredOnce(es)
    requires RunBy(es, phones, transports) && phones !! transports
    ensures ClaimedOnce(Run(es))
  {
    var w := Run(es);
    RunStored(es);
    forall i, j | 0 <= i < j < |w.log| && IsClaim(w.log[i]) && IsClaim(w.log[j])
      ensures w.log[i].about != w.log[j].about
    {
      if w.log[i].about == w.log[j].about {
        var p, q := TwoTenantsClaim(es, phones, transports, i, j);
        OneOwner(w, w.log[i], w.log[j]);
        assert false;
      }
    }
  }

  // ----- whatever the layout -----

  /** The tenant's bridges are laid out in threads whenever they are handed a post. */
  predicate InThreads(es: seq<Event>, t: Tenant) {
    forall i | 0 <= i < |es| && es[i].IsPost() && es[i].tenant == t :: es[i].s.threadMode
  }

  /** No channel is shared between tenants, unless both keep to threads there. */
  ghost predicate ChannelsKept(es: seq<Event>) {
    var conversations := Run(es).db.conversations;
    forall k, k' | k in conversations && k' in conversations && k.0 != k'.0
      && conversations[k].channel == conversations[k'].channel :: InThreads(es, k.0) && InThreads(es, k'.0)
  }

  /** Whatever the layout, the post is in the channel of the conversation it is claimed for. */
  lemma ClaimIsInChannel(es: seq<Event>, a: Action, p: nat)
    requires HonestRun(es) && HonestThreads(es) && IsClaim(a) && ClaimedBy(es, a, p)
    ensures Run(es).db.conversations[(a.tenant, a.conversation)].channel == Run(es).mm.posts[a.about].channel
  {
    RunStored(es);
    MessagesStayInTheirConversation(es);
    assert Rooted(Run(es).mm.posts, Run(es).mm.posts[a.about]);
  }

  /** No two tenants listen in one channel when they are handed posts, one of them at least not in threads then. */
  ghost predicate NeverBothListen(es: seq<Event>) {
    forall p, q, c, c' |
      && 0 <= p < |es| && 0 <= q < |es| && es[p].IsPost() && es[q].IsPost() && es[p].tenant != es[q].tenant
      && !(es[p].s.threadMode && es[q].s.threadMode)
      && ListensAs(Run(es[..p]), es[p].s.threadMode, es[p].tenant, c)
      && ListensAs(Run(es[..q]), es[q].s.threadMode, es[q].tenant, c') ::
      Run(es[..p]).db.conversations[(es[p].tenant, c)].channel
      != Run(es[..q]).db.conversations[(es[q].tenant, c')].channel
  }

  /**
   Whatever the layouts, per tenant and even over time: unless two tenants listen in one channel, at the same time or
   one after the other, a human post fanned out to all bridges is claimed at most once.
   */
  lemma {:induction false} OneRecipientUnlessBothListen(
      es: seq<Event>, phones: set<Tenant>, transports: set<Tenant>)
    requires HonestRun(es) && HonestThreads(es) && DeliveredOnce(es)
    requires RunBy(es, phones, transports) && phones !! transports && NeverBothListen(es)
    ensures ClaimedOnce(Run(es))
  {
    var w := Run(es);
    forall i, j | 0 <= i < j < |w.log| && IsClaim(w.log[i]) && IsClaim(w.log[j])
      ensures w.log[i].about != w.log[j].about
    {
      if w.log[i].about == w.log[j].about {
        BothListened(es, phones, transports, i, j);
        assert false;
      }
    }
  }

  /** Channels do not change, so whoever shared one then does so in the end. */
  lemma {:induction false} StillInChannel(es: seq<Event>, p: nat, t: Tenant, c: ConvId)
    requires HonestRun(es) && p <= |es| && Known(Run(es[..p]), t, c)
    ensures Known(Run(es), t, c)
    ensures Run(es).db.conversations[(t, c)].channel == Run(es[..p]).db.conversations[(t, c)].channel
  {
    RoutingIsSticky(es, p);
  }

  /** Two claims of one post take two tenants that listened in its channel, one of them not in threads. */
  lemma {:induction false} BothListened(
      es: seq<Event>, phones: set<Tenant>, transports: set<Tenant>, i: nat, j: nat)
    requires HonestRun(es) && HonestThreads(es) && DeliveredOnce(es)
    requires RunBy(es, phones, transports) && phones !! transports
    requires i < j < |Run(es).log| && IsClaim(Run(es).log[i]) && IsClaim(Run(es).log[j])
    requires Run(es).log[i].about == Run(es).log[j].about
    ensures !NeverBothListen(es)
  {
    var a, b := Run(es).log[i], Run(es).log[j];
    var p, q := TwoTenantsClaim(es, phones, transports, i, j);
    ClaimIsInChannel(es, a, p);
    ClaimIsInChannel(es, b, q);
    RunStored(es);
    if es[p].s.threadMode && es[q].s.threadMode { OneOwner(Run(es), a, b); }
    StillInChannel(es, p, a.tenant, a.conversation);
    StillInChannel(es, q, b.tenant, b.conversation);
  }

  lemma {:induction false} KeptIsNeverBoth(es: seq<Event>)
    requires HonestRun(es) && ChannelsKept(es)
    ensures NeverBothListen(es)
  {
    forall p, q, c, c' |
      && 0 <= p < |es| && 0 <= q < |es| && es[p].IsPost() && es[q].IsPost() && es[p].tenant != es[q].tenant
      && !(es[p].s.threadMode && es[q].s.threadMode)
      && ListensAs(Run(es[..p]), es[p].s.threadMode, es[p].tenant, c)
      && ListensAs(Run(es[..q]), es[q].s.threadMode, es[q].tenant, c')
      ensures Run(es[..p]).db.conversations[(es[p].tenant, c)].channel
              != Run(es[..q]).db.conversations[(es[q].tenant, c')].channel
    {
      StillInChannel(es, p, es[p].tenant, c);
      StillInChannel(es, q, es[q].tenant, c');
    }
  }

  /**
   In particular, as long as tenants that share a channel keep to threads a human post is claimed at most once, and in
   any case a claim is for a conversation in the post's channel.
   */
  lemma {:induction false} OneRecipientInAnyLayout(es: seq<Event>, phones: set<Tenant>, transports: set<Tenant>)
    requires HonestRun(es) && HonestThreads(es) && DeliveredOnce(es)
    requires RunBy(es, phones, transports) && phones !! transports && ChannelsKept(es)
    ensures ClaimedOnce(Run(es))
    ensures forall i | 0 <= i < |Run(es).log| && IsClaim(Run(es).log[i]) :: ClaimedInChannel(Run(es), Run(es).log[i])
  {
    KeptIsNeverBoth(es);
    OneRecipientUnlessBothListen(es, phones, transports);
    forall i | 0 <= i < |Run(es).log| && IsClaim(Run(es).log[i])
      ensures ClaimedInChannel(Run(es), Run(es).log[i])
    {
      var p := ClaimHasEvent(es, i);
      ClaimIsInChannel(es, Run(es).log[i], p);
    }
  }

  predicate ClaimedInChannel(w: World, a: Action)
    requires IsClaim(a)
  {
    && Known(w, a.tenant, a.conversation) && a.about in w.mm.posts
    && w.db.conversations[(a.tenant, a.conversation)].channel == w.mm.posts[a.about].channel
  }
}
