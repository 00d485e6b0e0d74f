/** The one reaction by which a bridged post shows its delivery state, over whole runs. */
module Reactions {
  import opened Types
  import opened Storage
  import opened Mattermost
  import opened Delivery
  import opened Bridge
  import opened Corebridge
  import opened Runs
  import opened Placement
  import opened Isolation
  import opened Collisions

  /** The reaction a status is shown by, if it is shown at all. */
  function Shown(bot: UserId, codes: StatusCodes, status: int): set<(UserId, Emoji)> {
    if StatusEmoji(codes, status) == "" then {} else {(bot, StatusEmoji(codes, status))}
  }

  /** Which account and statuses the bridges use, and the human posts claimed so far. */
  datatype Setting = Setting(bot: UserId, codes: StatusCodes, claimed: set<PostId>)

  /** What a row standing for a post guarantees about the reactions there. */
  predicate RowShows(mm: Server, c: Setting, row: MessageRow) {
    Decorated(mm, row, c.bot, c.codes) && (mm.posts[row.post].FromBridge() || row.post in c.claimed)
  }

  /** A human post carries exactly the reaction of its row's status, any other at most that one. */
  predicate Decorated(mm: Server, row: MessageRow, bot: UserId, codes: StatusCodes) {
    && row.post in mm.posts
    && if mm.posts[row.post].FromBridge()
       then mm.ReactionsOn(row.post) <= Shown(bot, codes, row.status)
       else mm.ReactionsOn(row.post) == Shown(bot, codes, row.status)
  }

  /** A send not acknowledged yet leaves the human's post bare. */
  predicate PendingShows(mm: Server, c: Setting, row: PendingRow) {
    row.post in mm.posts && !mm.posts[row.post].FromBridge() && row.post in c.claimed && mm.ReactionsOn(row.post) == {}
  }

  predicate Accountable(mm: Server, c: Setting, p: PostId) {
    mm.ReactionsOn(p) != {} ==> p in mm.posts && (mm.posts[p].FromBridge() || p in c.claimed)
  }

  /** No two rows stand for the same post, whether mapped or still waiting for the phone. */
  ghost predicate Apart(t: Tables) {
    && (forall k, k' | k in t.messages && k' in t.messages && k != k' :: t.messages[k].post != t.messages[k'].post)
    && (forall k, k' | k in t.pending && k' in t.pending && k != k' :: t.pending[k].post != t.pending[k'].post)
    && (forall k, k' | k in t.messages && k' in t.pending :: t.messages[k].post != t.pending[k'].post)
  }

  ghost predicate Shows(w: World, c: Setting) {
    && Apart(w.db)
    && (forall k | k in w.db.messages :: RowShows(w.mm, c, w.db.messages[k]))
    && (forall k | k in w.db.pending :: PendingShows(w.mm, c, w.db.pending[k]))
    && (forall p :: Accountable(w.mm, c, p))
  }

  /** The server changed at most the reactions on `p`, and nothing claimed was forgotten. */
  ghost predicate OnlyTouches(mm: Server, mm': Server, c: Setting, c': Setting, p: PostId) {
    && (forall q | q in mm.posts :: q in mm'.posts && mm'.posts[q] == mm.posts[q])
    && (forall q | q != p :: mm'.ReactionsOn(q) == mm.ReactionsOn(q))
    && c'.claimed >= c.claimed && c' == c.(claimed := c'.claimed)
  }

  /** Every row that stands for another post is unaffected. */
  lemma Elsewhere(w: World, w': World, c: Setting, c': Setting, p: PostId)
    requires Shows(w, c) && OnlyTouches(w.mm, w'.mm, c, c', p)
    ensures forall k | k in w.db.messages && w.db.messages[k].post != p :: RowShows(w'.mm, c', w.db.messages[k])
    ensures forall k | k in w.db.pending && w.db.pending[k].post != p :: PendingShows(w'.mm, c', w.db.pending[k])
    ensures forall q | q != p :: Accountable(w'.mm, c', q)
  {
    forall q | q != p
      ensures Accountable(w'.mm, c', q)
    {
      assert Accountable(w.mm, c, q);
    }
  }

  // ----- one message, one post -----

  lemma AddShows(w: World, c: Setting, post: Post)
    requires Shows(w, c) && w.mm.Valid()
    ensures Shows(w.(mm := w.mm.Add(post)), c)
    ensures w.mm.ReactionsOn(w.mm.next) == {}
  {
    var w' := w.(mm := w.mm.Add(post));
    assert Accountable(w.mm, c, w.mm.next);
    Elsewhere(w, w', c, c, w.mm.next);
  }

  /** Storing a row for a post no other row stands for. */
  lemma SaveShows(w: World, c: Setting, tenant: Tenant, id: MsgId, row: MessageRow)
    requires Shows(w, c) && RowShows(w.mm, c, row)
    requires forall k | k in w.db.messages :: w.db.messages[k].post != row.post
    requires forall k | k in w.db.pending :: w.db.pending[k].post != row.post
    ensures Shows(w.(db := SaveMessage(w.db, tenant, id, row)), c)
  {
  }

  lemma PostMessageShows(
      w: World, tenant: Tenant, s: Settings, conv: ConversationRow, msg: Message, f: PostFate, c: Setting)
    requires Stored(w) && Shows(w, c)
    ensures Shows(PostMessage(w, tenant, s, conv, msg, f), c)
  {
    if f.postOk {
      var body := MessagePost(conv, msg, f);
      OwnPostsNeverComeBack(body, s.bot, s.bot);
      AddShows(w, c, AsPosted(body, s.bot));
      var w1 := w.(mm := w.mm.Add(AsPosted(body, s.bot)));
      SaveShows(w1, c, tenant, msg.id,
        MessageRow(w.mm.next, conv.id, if msg.isFromMe then Out else In, msg.status, msg.timestamp));
    }
  }

  lemma {:induction false} BackfillShows(
      w: World, tenant: Tenant, s: Settings, conv: ConversationRow, window: seq<Message>, fates: seq<PostFate>,
      c: Setting)
    requires Stored(w) && Shows(w, c) && Known(w, tenant, conv.id)
    ensures Shows(Backfill(w, tenant, s, conv, window, fates), c)
    decreases |window|
  {
    if window != [] {
      var last := |window| - 1;
      var f := WindowFate(fates, last);
      if window[last].HasContent() {
        PostMessageShows(w, tenant, s, conv, window[last], f, c);
        PostMessageKeeps(w, tenant, s, conv, window[last], f);
        if f.postOk && f.saveOk {
          BackfillShows(PostMessage(w, tenant, s, conv, window[last], f), tenant, s, conv, window[..last], fates, c);
        }
      } else {
        BackfillShows(w, tenant, s, conv, window[..last], fates, c);
      }
    }
  }

  lemma OpenShows(w: World, tenant: Tenant, s: Settings, f: EnsureFate, c: Setting)
    requires Stored(w) && Shows(w, c)
    ensures Shows(OpenConversation(w, tenant, s, f).0, c)
  {
    if f.fetched.Some? && f.channel.Some? {
      AddShows(w, c, AsPosted(NewPost(f.channel.value, NO_POST, f.header, [], map[]), s.bot));
    }
  }

  lemma EnsureShows(w: World, tenant: Tenant, s: Settings, id: ConvId, f: EnsureFate, c: Setting)
    requires Stored(w) && Shows(w, c) && FetchesWhatWasAsked(f, id)
    ensures Shows(EnsureConversation(w, tenant, s, id, f).0, c)
  {
    if f.lookupOk && !Known(w, tenant, id) {
      OpenShows(w, tenant, s, f, c);
      OpenKeeps(w, tenant, s, id, f);
      var (w1, row) := OpenConversation(w, tenant, s, f);
      if row.Some? && s.backfillCount > 0 && f.window.Some? {
        BackfillShows(w1, tenant, s, row.value, f.window.value, f.windowFates, c);
      }
    }
  }

  lemma BridgeNewShows(w: World, tenant: Tenant, s: Settings, msg: Message, f: IncomingFate, c: Setting)
    requires Stored(w) && Shows(w, c) && FetchesWhatWasAsked(f.ensure, msg.conversation)
    ensures Shows(BridgeNew(w, tenant, s, msg, f), c)
  {
    if !msg.isOld && msg.HasContent() {
      EnsureShows(w, tenant, s, msg.conversation, f.ensure, c);
      EnsureKeeps(w, tenant, s, msg.conversation, f.ensure);
      var (w1, conv) := EnsureConversation(w, tenant, s, msg.conversation, f.ensure);
      if conv.Some? { PostMessageShows(w1, tenant, s, conv.value, msg, f.post, c); }
    }
  }

  lemma PostArrivalShows(
      w: World, tenant: Tenant, s: Settings, conv: ConversationRow, msg: Message, f: ArrivalFate, c: Setting)
    requires Stored(w) && Shows(w, c)
    ensures Shows(PostArrival(w, tenant, s, conv, msg, f), c)
  {
    if f.postOk {
      var body := ArrivalPost(conv, msg, f);
      OwnPostsNeverComeBack(body, s.bot, s.bot);
      AddShows(w, c, AsPosted(body, s.bot));
      assert Shown(c.bot, c.codes, 0) == {};
      SaveShows(w.(mm := w.mm.Add(AsPosted(body, s.bot))), c, tenant, msg.id,
        MessageRow(w.mm.next, conv.id, if msg.isFromMe then Out else In, 0, msg.timestamp));
    }
  }

  lemma EnsureGenericShows(w: World, tenant: Tenant, s: Settings, id: ConvId, f: EnsureFate, c: Setting)
    requires Stored(w) && Shows(w, c) && FetchesWhatWasAsked(f, id)
    ensures var w' := EnsureGeneric(w, tenant, s, id, f).0; Stored(w') && Shows(w', c)
  {
    if f.lookupOk && !Known(w, tenant, id) {
      OpenShows(w, tenant, s, f, c);
      OpenKeeps(w, tenant, s, id, f);
    }
  }

  lemma ArrivalShows(w: World, tenant: Tenant, s: Settings, msg: Message, f: ArrivalFate, c: Setting)
    requires Stored(w) && Shows(w, c) && FetchesWhatWasAsked(f.ensure, msg.conversation)
    ensures Shows(Arrival(w, tenant, s, msg, f), c)
  {
    EnsureGenericShows(w, tenant, s, msg.conversation, f.ensure, c);
    var (w1, conv) := EnsureGeneric(w, tenant, s, msg.conversation, f.ensure);
    if conv.Some? { PostArrivalShows(w1, tenant, s, conv.value, msg, f, c); }
  }

  // ----- status changes and acknowledgements -----

  predicate ReactionsWork(s: Settings, f: StatusFate, c: Setting) {
    s.bot == c.bot && s.codes == c.codes && s.postDeliveryStatus && f.unreactOk && f.reactOk
  }

  /** Moving the reaction along replaces whatever the old status showed by exactly what the new one does. */
  lemma ApplyShows(w: World, s: Settings, p: PostId, newStatus: int, oldStatus: int, f: StatusFate, c: Setting)
    requires ReactionsWork(s, f, c) && p != NO_POST
    requires w.mm.ReactionsOn(p) <= Shown(c.bot, c.codes, oldStatus)
    ensures var w' := ApplyDeliveryStatus(w, s, p, newStatus, oldStatus, f);
            && w'.db == w.db && OnlyTouches(w.mm, w'.mm, c, c, p)
            && w'.mm.ReactionsOn(p) <= Shown(c.bot, c.codes, newStatus)
            && (w.mm.ReactionsOn(p) == Shown(c.bot, c.codes, oldStatus) ==>
                  w'.mm.ReactionsOn(p) == Shown(c.bot, c.codes, newStatus))
  {
  }

  /** A row whose status and reaction move together. */
  lemma RestatedShows(w: World, w': World, k: (Tenant, MsgId), row: MessageRow, c: Setting)
    requires Shows(w, c) && k in w.db.messages && row.post == w.db.messages[k].post
    requires w'.db == w.db.(messages := w.db.messages[k := row])
    requires OnlyTouches(w.mm, w'.mm, c, c, row.post) && RowShows(w'.mm, c, row)
    requires row.post in w.mm.posts
    ensures Shows(w', c)
  {
    Elsewhere(w, w', c, c, row.post);
    SamePosts(w.db, w'.db, k, row);
  }

  lemma SamePosts(t: Tables, t': Tables, k: (Tenant, MsgId), row: MessageRow)
    requires Apart(t) && k in t.messages && row.post == t.messages[k].post && t' == t.(messages := t.messages[k := row])
    ensures Apart(t')
  {
    assert forall m | m in t'.messages :: m in t.messages && t'.messages[m].post == t.messages[m].post;
  }

  lemma StatusShows(w: World, tenant: Tenant, s: Settings, msg: Message, f: StatusFate, c: Setting)
    requires Stored(w) && Shows(w, c) && ReactionsWork(s, f, c) && (tenant, msg.id) in w.db.messages
    ensures Shows(StatusUpdate(w, tenant, s, w.db.messages[(tenant, msg.id)], msg, f), c)
  {
    if f.updateOk && StatusChanges(w.db, tenant, msg.id, msg.status) {
      var known := w.db.messages[(tenant, msg.id)];
      var w1 := w.(db := UpdateMessageStatus(w.db, tenant, msg.id, msg.status));
      assert RowShows(w.mm, c, known);
      ApplyShows(w1, s, known.post, msg.status, known.status, f, c);
      RestatedShows(w, ApplyDeliveryStatus(w1, s, known.post, msg.status, known.status, f), (tenant, msg.id),
        known.(status := msg.status), c);
    }
  }

  lemma ForgetShows(w: World, gone: set<TmpId>, c: Setting)
    requires Shows(w, c)
    ensures Shows(w.(db := w.db.(pending := w.db.pending - gone)), c)
  {
  }

  lemma AcknowledgeShows(w: World, tenant: Tenant, s: Settings, msg: Message, f: IncomingFate, c: Setting)
    requires Stored(w) && Shows(w, c) && ReactionsWork(s, f.status, c) && IsEcho(w, msg)
    ensures Shows(Acknowledge(w, tenant, s, msg, f), c)
  {
    ForgetShows(w, {msg.tmpId}, c);
    if f.ackSaveOk {
      var post := w.db.pending[msg.tmpId].post;
      assert PendingShows(w.mm, c, w.db.pending[msg.tmpId]);
      var w1 := w.(db := TakePendingOutbound(w.db, msg.tmpId));
      var row := MessageRow(post, msg.conversation, Out, msg.status, msg.timestamp);
      ApplyShows(w1, s, post, msg.status, 0, f.status, c);
      var w2 := ApplyDeliveryStatus(w1, s, post, msg.status, 0, f.status);
      Elsewhere(w1, w2, c, c, post);
      assert Shows(w2, c);
      SaveShows(w2, c, tenant, msg.id, row);
    }
  }

  // ----- people's posts -----

  lemma TouchedShows(w: World, w': World, c: Setting, p: PostId)
    requires Shows(w, c) && p !in c.claimed && p in w.mm.posts && !w.mm.posts[p].FromBridge()
    requires w'.db == w.db && OnlyTouches(w.mm, w'.mm, c, c.(claimed := c.claimed + {p}), p)
    ensures Shows(w', c.(claimed := c.claimed + {p}))
    ensures forall k | k in w.db.messages :: w.db.messages[k].post != p
    ensures forall k | k in w.db.pending :: w.db.pending[k].post != p
    ensures w.mm.ReactionsOn(p) == {}
  {
    assert Accountable(w.mm, c, p);
    forall k | k in w.db.messages
      ensures w.db.messages[k].post != p
    {
      assert RowShows(w.mm, c, w.db.messages[k]);
    }
    forall k | k in w.db.pending
      ensures w.db.pending[k].post != p
    {
      assert PendingShows(w.mm, c, w.db.pending[k]);
    }
    Elsewhere(w, w', c, c.(claimed := c.claimed + {p}), p);
  }

  lemma RefusedShows(
      w: World, tenant: Tenant, s: Settings, conversation: ConvId, id: PostId, f: OutgoingFate, c: Setting)
    requires Stored(w) && Shows(w, c) && id in w.mm.posts && !w.mm.posts[id].FromBridge() && id !in c.claimed
    ensures Shows(ReportSendFailure(w, tenant, s, conversation, id, w.mm.posts[id], f), c.(claimed := c.claimed + {id}))
  {
    var c' := c.(claimed := c.claimed + {id});
    var post := w.mm.posts[id];
    var w1 := if s.postDeliveryStatus && f.reactOk then w.(mm := w.mm.React(id, s.bot, EMOJI_FAILED)) else w;
    TouchedShows(w, w1, c, id);
    AddShows(w1, c', AsPosted(NewPost(post.channel, post.ThreadRoot(id), f.notice, [], map[]), s.bot));
  }

  lemma AddPendingShows(w: World, c: Setting, tmp: TmpId, row: PendingRow)
    requires Shows(w, c) && tmp !in w.db.pending && PendingShows(w.mm, c, row)
    requires forall k | k in w.db.messages :: w.db.messages[k].post != row.post
    requires forall k | k in w.db.pending :: w.db.pending[k].post != row.post
    ensures Shows(w.(db := w.db.(pending := w.db.pending[tmp := row])), c)
  {
  }

  lemma OutgoingShows(
      w: World, tenant: Tenant, s: Settings, id: PostId, target: Option<ConvId>, reply: Option<MsgId>,
      f: OutgoingFate, c: Setting)
    requires Stored(w) && Shows(w, c) && id in w.mm.posts && !w.mm.posts[id].FromBridge() && id !in c.claimed
    ensures Shows(OutgoingPost(w, tenant, s, id, w.mm.posts[id], target, reply, f), c.(claimed := c.claimed + {id}))
  {
    TouchedShows(w, w, c, id);
    if target.Some? {
      RefusedShows(w, tenant, s, target.value, id, f, c);
      assert Ours(w.nextTmp) !in w.db.pending;
      AddPendingShows(w, c.(claimed := c.claimed + {id}), Ours(w.nextTmp), PendingRow(tenant, id, target.value, f.now));
    }
  }

  lemma DepartureShows(
      w: World, tenant: Tenant, s: Settings, id: PostId, target: Option<ConvId>, reply: Option<MsgId>,
      f: DepartureFate, c: Setting)
    requires Stored(w) && Shows(w, c) && id in w.mm.posts && !w.mm.posts[id].FromBridge() && id !in c.claimed
    ensures Shows(Departure(w, tenant, s, id, w.mm.posts[id], target, reply, f), c.(claimed := c.claimed + {id}))
  {
    var c' := c.(claimed := c.claimed + {id});
    var post := w.mm.posts[id];
    TouchedShows(w, w, c, id);
    if f.sent.None? {
      AddShows(w, c', AsPosted(NewPost(post.channel, post.ThreadRoot(id), f.notice, [], map[]), s.bot));
    } else if target.Some? {
      assert Shown(c.bot, c.codes, 0) == {};
      SaveShows(w, c', tenant, f.sent.value.0, MessageRow(id, target.value, Out, 0, f.sent.value.1));
    }
  }

  // ----- whole runs -----

  /** One bot account throughout, delivery states shown, and every reaction call succeeding. */
  predicate ReactionsAlwaysWork(es: seq<Event>, bot: UserId, codes: StatusCodes) {
    forall i | 0 <= i < |es| && es[i].PhoneMessage? ::
      ReactionsWork(es[i].s, es[i].f.status, Setting(bot, codes, {}))
  }

  function ClaimedPosts(log: seq<Action>): set<PostId> {
    set i | 0 <= i < |log| && IsClaim(log[i]) :: log[i].about
  }

  lemma QuietStepShows(w: World, e: Event, c: Setting)
    requires Stored(w) && Honest(w, e) && Shows(w, c) && !e.IsPost()
    requires e.PhoneMessage? ==> ReactionsWork(e.s, e.f.status, c)
    ensures Shows(Step(w, e), c)
  {
    match e
    case PhoneMessage(tenant, s, msg, f) =>
      if IsEcho(w, msg) {
        AcknowledgeShows(w, tenant, s, msg, f, c);
      } else if (tenant, msg.id) in w.db.messages {
        StatusShows(w, tenant, s, msg, f.status, c);
      } else {
        BridgeNewShows(w, tenant, s, msg, f, c);
      }
    case PhoneUpdate(tenant, conv, f) =>
    case PruneTick(tenant, cutoff, ok) => ForgetShows(w, Expired(w.db, tenant, cutoff), c);
    case TransportMessage(tenant, s, msg, f) => ArrivalShows(w, tenant, s, msg, f, c);
    case Written(body) => AddShows(w, c, body);
  }

  predicate ClaimedSince(w: World, w': World) {
    exists i :: |w.log| <= i < |w'.log| && IsClaim(w'.log[i])
  }

  /** A delivery either claims nothing and changes nothing, or claims a post nobody claimed before. */
  lemma PostStepShows(w: World, e: Event, c: Setting)
    requires Stored(w) && Honest(w, e) && Shows(w, c) && e.IsPost()
    requires ClaimedSince(w, Step(w, e)) ==> e.post !in c.claimed
    ensures Shows(Step(w, e), if ClaimedSince(w, Step(w, e)) then c.(claimed := c.claimed + {e.post}) else c)
  {
    if ClaimedSince(w, Step(w, e)) {
      PostStep(w, e);
      if e.PostToPhone? {
        OutgoingShows(w, e.tenant, e.s, e.post, e.target, e.reply, e.out, c);
      } else {
        DepartureShows(w, e.tenant, e.s, e.post, e.target, e.reply, e.departure, c);
      }
    } else {
      NoClaimNoChange(w, e);
    }
  }

  lemma NoClaimNoChange(w: World, e: Event)
    requires e.IsPost()
    ensures ClaimedSince(w, Step(w, e)) || Step(w, e) == w
  {
    var w' := Step(w, e);
    assert w' == w || (|w'.log| > |w.log| && IsClaim(w'.log[|w.log|]));
  }

  lemma ClaimedGrow(log: seq<Action>, log': seq<Action>)
    requires |log| <= |log'| && log'[..|log|] == log
    ensures ClaimedPosts(log') == ClaimedPosts(log) + set i | |log| <= i < |log'| && IsClaim(log'[i]) :: log'[i].about
  {
    assert forall i | 0 <= i < |log| :: log'[i] == log'[..|log|][i];
  }

  lemma ClaimedAfterPost(w: World, w': World, e: Event)
    requires e.IsPost() && ClaimsAtMost(w, w', e)
    ensures ClaimedPosts(w'.log) == ClaimedPosts(w.log) + if ClaimedSince(w, w') then {e.post} else {}
  {
    ClaimedGrow(w.log, w'.log);
  }

  lemma ClaimedAfterQuiet(w: World, w': World)
    requires GrowsQuietly(w, w')
    ensures ClaimedPosts(w'.log) == ClaimedPosts(w.log)
  {
    ClaimedGrow(w.log, w'.log);
  }

  lemma UnclaimedShows(w: World, w': World, e: Event, c: Setting)
    requires e.IsPost() && ClaimsAtMost(w, w', e) && c.claimed == ClaimedPosts(w.log)
    requires Shows(w', if ClaimedSince(w, w') then c.(claimed := c.claimed + {e.post}) else c)
    ensures Shows(w', c.(claimed := ClaimedPosts(w'.log)))
  {
    ClaimedAfterPost(w, w', e);
    assert c.claimed + {} == c.claimed;
  }

  /** Before its second claim, a post claimed once has none. */
  lemma Unclaimed(w: World, w': World, e: Event)
    requires e.IsPost() && ClaimsAtMost(w, w', e) && ClaimedSince(w, w') && ClaimedOnce(w')
    ensures e.post !in ClaimedPosts(w.log)
  {
    var j :| |w.log| <= j < |w'.log| && IsClaim(w'.log[j]);
    forall i | 0 <= i < |w.log| && IsClaim(w.log[i])
      ensures w.log[i].about != e.post
    {
      assert w'.log[i] == w'.log[..|w.log|][i] == w.log[i];
    }
  }

  lemma StepShows(w: World, e: Event, c: Setting)
    requires Stored(w) && Honest(w, e) && ClaimedOnce(Step(w, e))
    requires e.PhoneMessage? ==> ReactionsWork(e.s, e.f.status, c)
    requires Shows(w, c) && c.claimed == ClaimedPosts(w.log)
    ensures Shows(Step(w, e), c.(claimed := ClaimedPosts(Step(w, e).log)))
  {
    if e.IsPost() {
      PostStep(w, e);
      if ClaimedSince(w, Step(w, e)) { Unclaimed(w, Step(w, e), e); }
      PostStepShows(w, e, c);
      UnclaimedShows(w, Step(w, e), e, c);
    } else {
      QuietStepShows(w, e, c);
      QuietStep(w, e);
      ClaimedAfterQuiet(w, Step(w, e));
    }
  }

  lemma ClaimedOnceBefore(w: World, w': World)
    requires ClaimedOnce(w') && w.log <= w'.log
    ensures ClaimedOnce(w)
  {
    assert forall i | 0 <= i < |w.log| :: w'.log[i] == w.log[i];
  }

  lemma {:induction false} RunShows(es: seq<Event>, bot: UserId, codes: StatusCodes)
    requires HonestRun(es) && ClaimedOnce(Run(es)) && ReactionsAlwaysWork(es, bot, codes)
    ensures Shows(Run(es), Setting(bot, codes, ClaimedPosts(Run(es).log)))
  {
    if es != [] {
      var before, e := es[..|es| - 1], es[|es| - 1];
      SameLog(es);
      ClaimedOnceBefore(Run(before), Run(es));
      RunShows(before, bot, codes);
      RunStored(before);
      StepShows(Run(before), e, Setting(bot, codes, ClaimedPosts(Run(before).log)));
    }
  }

  /**
   After any run in which reaction calls succeed and no post was claimed twice, whatever else fails and however the
   bridges are laid out: a human post whose send was acknowledged carries exactly the reaction of its stored status,
   and any other bridged post at most that one.
   */
  lemma {:induction false} ReactionMatchesStatus(
      es: seq<Event>, bot: UserId, codes: StatusCodes, t: Tenant, m: MsgId)
    requires HonestRun(es) && ClaimedOnce(Run(es)) && ReactionsAlwaysWork(es, bot, codes)
    requires (t, m) in Run(es).db.messages
    ensures Decorated(Run(es).mm, Run(es).db.messages[(t, m)], bot, codes)
  {
    RunShows(es, bot, codes);
    var c := Setting(bot, codes, ClaimedPosts(Run(es).log));
    assert RowShows(Run(es).mm, c, Run(es).db.messages[(t, m)]);
  }

  /** The reactions there say the status, each status in its own way and those not worth showing in none. */
  ghost predicate SaysStatus(there: set<(UserId, Emoji)>, bot: UserId, codes: StatusCodes, status: int) {
    && (status <= 0 || status >= 100 ==> there == {})
    && (0 < status < 100 ==>
          if status in codes.failed then there == {(bot, "warning")}
          else if status == codes.displayed then there == {(bot, "eyes")}
          else if status == codes.delivered then there == {(bot, "white_check_mark")}
          else if status in codes.pending then there == {(bot, "hourglass_flowing_sand")}
          else there == {(bot, "envelope")})
  }

  /** So the post of an acknowledged send says its status: read, delivered, failed, still pending, or sent. */
  lemma {:induction false} AcknowledgedPostsSayTheirStatus(
      es: seq<Event>, bot: UserId, codes: StatusCodes, t: Tenant, m: MsgId)
    requires HonestRun(es) && ClaimedOnce(Run(es)) && ReactionsAlwaysWork(es, bot, codes)
    requires (t, m) in Run(es).db.messages
    ensures var row := Run(es).db.messages[(t, m)]; var mm := Run(es).mm;
      && row.post in mm.posts
      && (!mm.posts[row.post].FromBridge() ==> SaysStatus(mm.ReactionsOn(row.post), bot, codes, row.status))
  {
    ReactionMatchesStatus(es, bot, codes, t, m);
    ShownSays(bot, codes, Run(es).db.messages[(t, m)].status);
  }

  lemma ShownSays(bot: UserId, codes: StatusCodes, status: int)
    ensures SaysStatus(Shown(bot, codes, status), bot, codes, status)
  {
    var e := StatusEmoji(codes, status);
    assert e == "" || Shown(bot, codes, status) == {(bot, e)};
  }

  /** So it is with tenants that share a channel only in threads, and names used once. */
  lemma {:induction false} ReactionMatchesStatusInAnyLayout(
      es: seq<Event>, phones: set<Tenant>, transports: set<Tenant>, bot: UserId, codes: StatusCodes, t: Tenant,
      m: MsgId)
    requires HonestRun(es) && HonestThreads(es) && DeliveredOnce(es) && ChannelsKept(es)
    requires RunBy(es, phones, transports) && phones !! transports && ReactionsAlwaysWork(es, bot, codes)
    requires (t, m) in Run(es).db.messages
    ensures Decorated(Run(es).mm, Run(es).db.messages[(t, m)], bot, codes)
  {
    OneRecipientInAnyLayout(es, phones, transports);
    ReactionMatchesStatus(es, bot, codes, t, m);
  }

  // ----- a post claimed twice -----

  /** How a phone bridge is run, whatever the layout. */
  function Showing(bot: UserId, codes: StatusCodes): Settings { Settings(bot, false, true, 0, codes) }

  const Unfetched := EnsureFate(true, None, None, "", true, true, 0, None, [])

  /** The phone of `t` acknowledges the `n`-th send, in conversation `c`. */
  function EchoOf(bot: UserId, codes: StatusCodes, t: Tenant, c: ConvId, n: nat, status: int): Event {
    PhoneMessage(t, Showing(bot, codes), Message("x", c, Ours(n), true, 0, status, "", "yes", [], false),
                 IncomingFate(true, true, true, AllWell, Unfetched, PostFate("", [], false, false), false))
  }

  /** Two statuses that are shown, and differently. */
  predicate ToldApart(codes: StatusCodes, a: int, b: int) {
    StatusEmoji(codes, a) != "" && StatusEmoji(codes, b) != "" && StatusEmoji(codes, a) != StatusEmoji(codes, b)
  }

  /** The `n`-th send is waiting for its acknowledgement. */
  predicate Awaits(w: World, n: nat, t: Tenant, c: ConvId, p: PostId) {
    && Ours(n) in w.db.pending && w.db.pending[Ours(n)].tenant == t
    && w.db.pending[Ours(n)].conversation == c && w.db.pending[Ours(n)].post == p
  }

  lemma EchoShown(w: World, bot: UserId, codes: StatusCodes, t: Tenant, c: ConvId, n: nat, status: int, p: PostId)
    requires StatusEmoji(codes, status) != "" && p != NO_POST && Awaits(w, n, t, c, p)
    ensures var e := EchoOf(bot, codes, t, c, n, status); var w' := Step(w, e);
            && Honest(w, e) && w'.mm.posts == w.mm.posts
            && w'.mm.ReactionsOn(p) == w.mm.ReactionsOn(p) + {(bot, StatusEmoji(codes, status))}
            && w'.db.pending == w.db.pending - {Ours(n)}
            && (t, "x") in w'.db.messages && w'.db.messages[(t, "x")].post == p
            && w'.db.messages[(t, "x")].status == status
            && (forall k | k in w.db.messages && k != (t, "x") ::
                 k in w'.db.messages && w'.db.messages[k] == w.db.messages[k])
  {
  }

  /** Two users both took a post, and neither phone has acknowledged it yet. */
  ghost predicate BothSent(w: World, n: nat, t: Tenant, c: ConvId, t': Tenant, c': ConvId, p: PostId) {
    && p in w.mm.posts && !w.mm.posts[p].FromBridge() && p != NO_POST
    && Awaits(w, n, t, c, p) && Awaits(w, n + 1, t', c', p)
  }

  lemma BothSentThen(w: World, body: Post, e: Event, e': Event, c: ConvId, c': ConvId)
    requires w.mm.Valid() && body == Says(body.channel, body.root) && e.IsPost() && e'.IsPost()
    requires e == Deliver(true, e.tenant, e.s.threadMode, w.mm.next, c, None)
    requires e' == Deliver(true, e'.tenant, false, w.mm.next, c', e'.reply)
    requires forall k | k in w.db.pending :: k.Ours? && k.n < w.nextTmp
    ensures BothSent(Step(Step(w.(mm := w.mm.Add(body)), e), e'), w.nextTmp, e.tenant, c, e'.tenant, c', w.mm.next)
  {
    var w1 := w.(mm := w.mm.Add(body));
    MeantIsSent(w1, e.tenant, e.s.threadMode, w.mm.next, c, None);
    MeantIsSent(Step(w1, e), e'.tenant, false, w.mm.next, c', e'.reply);
  }

  /** The reactions of two users on one post: it shows the first one's status, but not only that. */
  lemma BothEchoed(
      w: World, bot: UserId, codes: StatusCodes, a: int, b: int, n: nat, t: Tenant, c: ConvId, t': Tenant, c': ConvId,
      p: PostId)
    returns (e: Event, e': Event)
    requires BothSent(w, n, t, c, t', c', p) && t != t' && ToldApart(codes, a, b)
    ensures e == EchoOf(bot, codes, t, c, n, a) && e' == EchoOf(bot, codes, t', c', n + 1, b)
    ensures Honest(w, e) && Honest(Step(w, e), e')
    ensures var w' := Step(Step(w, e), e');
            (t, "x") in w'.db.messages && !Decorated(w'.mm, w'.db.messages[(t, "x")], bot, codes)
  {
    e, e' := EchoOf(bot, codes, t, c, n, a), EchoOf(bot, codes, t', c', n + 1, b);
    EchoShown(w, bot, codes, t, c, n, a, p);
    var w1 := Step(w, e);
    EchoShown(w1, bot, codes, t', c', n + 1, b, p);
    var w' := Step(w1, e');
    assert (bot, StatusEmoji(codes, b)) in w'.mm.ReactionsOn(p);
    assert (bot, StatusEmoji(codes, b)) !in Shown(bot, codes, a);
  }

  lemma {:induction false} EchoesAfter(
      es: seq<Event>, w: World, e: Event, e': Event, phones: set<Tenant>, transports: set<Tenant>, bot: UserId,
      codes: StatusCodes)
    requires HonestRun(es) && w == Run(es) && Honest(w, e) && Honest(Step(w, e), e')
    requires DeliveredOnce(es) && RunBy(es, phones, transports) && ReactionsAlwaysWork(es, bot, codes)
    requires e.PhoneMessage? && e'.PhoneMessage? && e.tenant in phones && e'.tenant in phones
    requires e.s == e'.s == Showing(bot, codes) && e.f.status == e'.f.status == AllWell
    ensures var all := es + [e] + [e'];
      && HonestRun(all) && Run(all) == Step(Step(w, e), e') && (HonestThreads(es) ==> HonestThreads(all))
      && DeliveredOnce(all) && RunBy(all, phones, transports) && ReactionsAlwaysWork(all, bot, codes)
  {
    OneMore(es, w, e, Step(w, e));
    OneMore(es + [e], Step(w, e), e', Step(Step(w, e), e'));
    EchoesBelong(es, e, e', phones, transports, bot, codes);
  }

  lemma EchoesBelong(
      es: seq<Event>, e: Event, e': Event, phones: set<Tenant>, transports: set<Tenant>, bot: UserId,
      codes: StatusCodes)
    requires DeliveredOnce(es) && RunBy(es, phones, transports) && ReactionsAlwaysWork(es, bot, codes)
    requires e.PhoneMessage? && e'.PhoneMessage? && e.tenant in phones && e'.tenant in phones
    requires e.s == e'.s == Showing(bot, codes) && e.f.status == e'.f.status == AllWell
    ensures var all := es + [e] + [e'];
      DeliveredOnce(all) && RunBy(all, phones, transports) && ReactionsAlwaysWork(all, bot, codes)
  {
    var all := es + [e] + [e'];
    assert all[|es|] == e && all[|es| + 1] == e' && forall i | 0 <= i < |es| :: all[i] == es[i];
  }

  lemma StillWorks(es: seq<Event>, body: Post, e: Event, e': Event, bot: UserId, codes: StatusCodes)
    requires ReactionsAlwaysWork(es, bot, codes) && e.IsPost() && e'.IsPost()
    ensures ReactionsAlwaysWork(Continued(es, body, e, e'), bot, codes)
  {
    var all := Continued(es, body, e, e');
    assert all[|es|] == Written(body) && all[|es| + 1] == e && all[|es| + 2] == e';
    assert forall i | 0 <= i < |es| :: all[i] == es[i];
  }

  /**
   Every run that reaches a state contested between two phones extends, with every reaction call succeeding, to one in
   which an acknowledged post carries another reaction than that of its status.  So claiming once is needed, whatever
   the account, the layout and the statuses, as long as two of them are shown differently.
   */
  lemma {:induction false} ContestedRunsShowTwo(
      es: seq<Event>, threads: set<Tenant>, phones: set<Tenant>, transports: set<Tenant>,
      t: Tenant, c: ConvId, t': Tenant, c': ConvId, bot: UserId, codes: StatusCodes, a: int, b: int)
    returns (longer: seq<Event>)
    requires HonestRun(es) && HonestThreads(es) && DeliveredOnce(es) && DeliversExisting(es)
    requires RunBy(es, phones, transports) && t in phones && t' in phones
    requires t != t' && t' !in threads && SameChannel(Run(es), t, c, t', c')
    requires Listens(Run(es), threads, t, c) && Listens(Run(es), threads, t', c')
    requires ReactionsAlwaysWork(es, bot, codes) && ToldApart(codes, a, b)
    ensures HonestRun(longer) && HonestThreads(longer) && DeliveredOnce(longer) && RunBy(longer, phones, transports)
    ensures ReactionsAlwaysWork(longer, bot, codes) && es <= longer
    ensures (t, "x") in Run(longer).db.messages
    ensures !Decorated(Run(longer).mm, Run(longer).db.messages[(t, "x")], bot, codes)
  {
    RunStored(es);
    MessagesStayInTheirConversation(es);
    var sent, w2 := BothSentAfter(es, Run(es), threads, phones, transports, t, c, t', c', bot, codes);
    var echo, echo' := BothEchoed(w2, bot, codes, a, b, Run(es).nextTmp, t, c, t', c', Run(es).mm.next);
    EchoesAfter(sent, w2, echo, echo', phones, transports, bot, codes);
    longer := sent + [echo] + [echo'];
  }

  lemma {:induction false} BothSentAfter(
      es: seq<Event>, w: World, threads: set<Tenant>, phones: set<Tenant>, transports: set<Tenant>,
      t: Tenant, c: ConvId, t': Tenant, c': ConvId, bot: UserId, codes: StatusCodes)
    returns (sent: seq<Event>, w2: World)
    requires HonestRun(es) && w == Run(es) && HonestThreads(es) && DeliveredOnce(es) && DeliversExisting(es)
    requires RunBy(es, phones, transports) && t in phones && t' in phones && Stored(w) && Placed(w)
    requires t != t' && t' !in threads && SameChannel(w, t, c, t', c')
    requires Listens(w, threads, t, c) && Listens(w, threads, t', c') && ReactionsAlwaysWork(es, bot, codes)
    ensures HonestRun(sent) && w2 == Run(sent) && HonestThreads(sent) && DeliveredOnce(sent) && es <= sent
    ensures RunBy(sent, phones, transports) && ReactionsAlwaysWork(sent, bot, codes)
    ensures BothSent(w2, w.nextTmp, t, c, t', c', w.mm.next)
  {
    var body, e, e' := ListenersBothTake(w, threads, phones, t, c, t', c');
    TakenTwiceClaimsTwice(es, w, phones, transports, body, e, e');
    TwoMore(es, w, body, e, e');
    StillWorks(es, body, e, e', bot, codes);
    BothSentThen(w, body, e, e', c, c');
    sent, w2 := Continued(es, body, e, e'), Step(Step(w.(mm := w.mm.Add(body)), e), e');
  }

  /** A post claimed twice can carry two statuses at once, though every call succeeds; one user may be in threads. */
  lemma {:induction false} ClaimedTwiceShowsTwo(t: Tenant, threads: bool, t': Tenant) returns (es: seq<Event>)
    requires t != t'
    ensures HonestRun(es) && DeliveredOnce(es) && ReactionsAlwaysWork(es, BOT, CODES)
    ensures (t, "x") in Run(es).db.messages && !Decorated(Run(es).mm, Run(es).db.messages[(t, "x")], BOT, CODES)
  {
    var opening := TwoInTown(t, threads, t');
    TownReached(t, threads, t');
    TownListens(Run(opening), t, threads, t');
    es := ContestedRunsShowTwo(opening, if threads then {t} else {}, {t, t'}, {}, t, "c", t', "c", BOT, CODES, 11, 2);
  }
}
