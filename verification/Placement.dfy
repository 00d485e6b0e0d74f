/**
 Where messages live.  A message's post is in the channel of its conversation, and in its thread when a bridge made
 it; so what a post quotes can be looked up by the post it answers without ever leaving the conversation.
 */
module Placement {
  import opened Types
  import opened Conversations
  import opened Storage
  import opened Mattermost
  import opened Bridge
  import opened Corebridge
  import opened Runs

  /** An answer is in the channel of the post it answers. */
  predicate Rooted(posts: map<PostId, Post>, post: Post) {
    post.root != NO_POST ==> post.root in posts && posts[post.root].channel == post.channel
  }

  /** The server refuses a post whose root is somewhere else. */
  predicate HonestThreads(es: seq<Event>) {
    es == [] ||
    var before, e := es[..|es| - 1], es[|es| - 1];
    HonestThreads(before) && (e.Written? ==> Rooted(Run(before).mm.posts, e.body))
  }

  /** A post is where the conversation is. */
  predicate At(post: Post, conv: ConversationRow) {
    post.channel == conv.channel && (post.FromBridge() ==> post.root == conv.root)
  }

  ghost predicate PostsPlaced(w: World) { forall p | p in w.mm.posts :: Rooted(w.mm.posts, w.mm.posts[p]) }

  ghost predicate ThreadsPlaced(w: World) {
    forall k | k in w.db.conversations && w.db.conversations[k].root != NO_POST ::
      && w.db.conversations[k].root in w.mm.posts
      && w.mm.posts[w.db.conversations[k].root].channel == w.db.conversations[k].channel
  }

  ghost predicate MessagesPlaced(w: World) {
    forall k | k in w.db.messages ::
      var row := w.db.messages[k];
      && (k.0, row.conversation) in w.db.conversations && row.post in w.mm.posts
      && At(w.mm.posts[row.post], w.db.conversations[(k.0, row.conversation)])
      && (!w.mm.posts[row.post].FromBridge() ==> row.direction == Out)
  }

  ghost predicate SendsPlaced(w: World) {
    forall k | k in w.db.pending ::
      var row := w.db.pending[k];
      && (row.tenant, row.conversation) in w.db.conversations && row.post in w.mm.posts
      && !w.mm.posts[row.post].FromBridge()
      && At(w.mm.posts[row.post], w.db.conversations[(row.tenant, row.conversation)])
  }

  ghost predicate Placed(w: World) { PostsPlaced(w) && ThreadsPlaced(w) && MessagesPlaced(w) && SendsPlaced(w) }

  // ----- the primitive changes -----

  /** Conversations keep their channel and thread, posts stay, and rows keep their place. */
  lemma Stays(w: World, w': World)
    requires Placed(w) && Extends(w, w') && w'.mm.posts == w.mm.posts
    requires w'.db.conversations.Keys == w.db.conversations.Keys && w'.db.pending.Keys <= w.db.pending.Keys
    requires forall k | k in w'.db.pending :: w'.db.pending[k] == w.db.pending[k]
    requires w'.db.messages.Keys == w.db.messages.Keys
    requires forall k | k in w'.db.messages :: SamePlace(w.db.messages[k], w'.db.messages[k])
    ensures Placed(w')
  {
    MessagesStay(w, w');
    assert SendsPlaced(w');
  }

  predicate SamePlace(r: MessageRow, r': MessageRow) {
    r'.post == r.post && r'.conversation == r.conversation && r'.direction == r.direction
  }

  lemma MessagesStay(w: World, w': World)
    requires MessagesPlaced(w) && Extends(w, w') && w'.mm.posts == w.mm.posts
    requires w'.db.messages.Keys == w.db.messages.Keys
    requires forall k | k in w'.db.messages :: SamePlace(w.db.messages[k], w'.db.messages[k])
    ensures MessagesPlaced(w')
  {
  }

  lemma AddPlaced(w: World, post: Post)
    requires Placed(w) && Stored(w) && Rooted(w.mm.posts, post)
    ensures Placed(w.(mm := w.mm.Add(post)))
  {
  }

  lemma SavePlaced(w: World, tenant: Tenant, id: MsgId, row: MessageRow)
    requires Placed(w) && Known(w, tenant, row.conversation) && row.post in w.mm.posts
    requires At(w.mm.posts[row.post], w.db.conversations[(tenant, row.conversation)])
    requires !w.mm.posts[row.post].FromBridge() ==> row.direction == Out
    ensures Placed(w.(db := SaveMessage(w.db, tenant, id, row)))
  {
  }

  lemma TouchPlaced(w: World, tenant: Tenant, id: ConvId, seen: int)
    requires Placed(w) && Stored(w)
    ensures Placed(w.(db := TouchConversation(w.db, tenant, id, seen)))
  {
    TouchKeeps(w, tenant, id, seen);
    Stays(w, w.(db := TouchConversation(w.db, tenant, id, seen)));
  }

  /** The row describes the conversation as it is stored. */
  predicate Describes(w: World, tenant: Tenant, conv: ConversationRow) {
    && Known(w, tenant, conv.id)
    && conv.channel == w.db.conversations[(tenant, conv.id)].channel
    && conv.root == w.db.conversations[(tenant, conv.id)].root
  }

  /** Posting a message into its conversation and mapping it. */
  lemma PostedPlaced(
      w: World, tenant: Tenant, conv: ConversationRow, body: NewPost, bot: UserId, id: MsgId, row: MessageRow)
    requires Placed(w) && Stored(w) && Describes(w, tenant, conv)
    requires body.channel == conv.channel && body.root == conv.root && row.post == w.mm.next
      && row.conversation == conv.id
    ensures var w1 := w.(mm := w.mm.Add(AsPosted(body, bot)));
            Placed(w1) && Placed(w1.(db := SaveMessage(w1.db, tenant, id, row)))
  {
    OwnPostsNeverComeBack(body, bot, bot);
    AddPlaced(w, AsPosted(body, bot));
    SavePlaced(w.(mm := w.mm.Add(AsPosted(body, bot))), tenant, id, row);
  }

  lemma LogPlaced(w: World, log: seq<Action>)
    requires Placed(w)
    ensures Placed(w.(log := log))
  {
  }

  // ----- the handlers -----

  lemma PostMessagePlaced(w: World, tenant: Tenant, s: Settings, conv: ConversationRow, msg: Message, f: PostFate)
    requires Placed(w) && Stored(w) && Describes(w, tenant, conv)
    ensures Placed(PostMessage(w, tenant, s, conv, msg, f))
  {
    if f.postOk {
      var body := MessagePost(conv, msg, f);
      var row := MessageRow(w.mm.next, conv.id, if msg.isFromMe then Out else In, msg.status, msg.timestamp);
      PostedPlaced(w, tenant, conv, body, s.bot, msg.id, row);
      var w1 := w.(mm := w.mm.Add(AsPosted(body, s.bot)));
      var w2 := if f.saveOk then w1.(db := SaveMessage(w1.db, tenant, msg.id, row)) else w1;
      LogPlaced(w2, PostMessage(w, tenant, s, conv, msg, f).log);
    }
  }

  lemma {:induction false} BackfillPlaced(
      w: World, tenant: Tenant, s: Settings, conv: ConversationRow, window: seq<Message>, fates: seq<PostFate>)
    requires Placed(w) && Stored(w) && Describes(w, tenant, conv)
    ensures Placed(Backfill(w, tenant, s, conv, window, fates))
    decreases |window|
  {
    if window != [] {
      var last := |window| - 1;
      var f := WindowFate(fates, last);
      if window[last].HasContent() {
        PostMessagePlaced(w, tenant, s, conv, window[last], f);
        PostMessageKeeps(w, tenant, s, conv, window[last], f);
        if f.postOk && f.saveOk {
          BackfillPlaced(PostMessage(w, tenant, s, conv, window[last], f), tenant, s, conv, window[..last], fates);
        }
      } else {
        BackfillPlaced(w, tenant, s, conv, window[..last], fates);
      }
    }
  }

  lemma OpenPlaced(w: World, tenant: Tenant, s: Settings, id: ConvId, f: EnsureFate)
    requires Placed(w) && Stored(w) && !Known(w, tenant, id) && FetchesWhatWasAsked(f, id)
    ensures var (w', row) := OpenConversation(w, tenant, s, f);
            Placed(w') && Stored(w') && (row.Some? ==> row.value.id == id && Describes(w', tenant, row.value))
  {
    OpenKeeps(w, tenant, s, id, f);
    if f.fetched.Some? && f.channel.Some? && (s.threadMode ==> f.postOk) {
      var header := AsPosted(NewPost(f.channel.value, NO_POST, f.header, [], map[]), s.bot);
      AddPlaced(w, header);
      var w1 := if s.threadMode then w.(mm := w.mm.Add(header)) else w;
      var row := NewRow(w, s, f);
      OpenedPlaced(w1, tenant, row);
      var w2 := if f.saveOk then w1.(db := SaveConversation(w1.db, tenant, row)) else w1;
      LogPlaced(w2, OpenConversation(w, tenant, s, f).0.log);
    }
  }

  lemma OpenedPlaced(w: World, tenant: Tenant, row: ConversationRow)
    requires Placed(w) && !Known(w, tenant, row.id)
    requires row.root != NO_POST ==> row.root in w.mm.posts && w.mm.posts[row.root].channel == row.channel
    ensures Placed(w.(db := SaveConversation(w.db, tenant, row)))
  {
  }

  lemma EnsurePlaced(w: World, tenant: Tenant, s: Settings, id: ConvId, f: EnsureFate)
    requires Placed(w) && Stored(w) && FetchesWhatWasAsked(f, id)
    ensures var (w', row) := EnsureConversation(w, tenant, s, id, f);
            Placed(w') && Stored(w') && (row.Some? ==> row.value.id == id && Describes(w', tenant, row.value))
  {
    EnsureKeeps(w, tenant, s, id, f);
    if f.lookupOk && !Known(w, tenant, id) {
      OpenPlaced(w, tenant, s, id, f);
      var (w1, row) := OpenConversation(w, tenant, s, f);
      if row.Some? && s.backfillCount > 0 && f.window.Some? {
        BackfillPlaced(w1, tenant, s, row.value, f.window.value, f.windowFates);
        BackfillKeeps(w1, tenant, s, row.value, f.window.value, f.windowFates);
      }
    }
  }

  lemma BridgeNewPlaced(w: World, tenant: Tenant, s: Settings, msg: Message, f: IncomingFate)
    requires Placed(w) && Stored(w) && FetchesWhatWasAsked(f.ensure, msg.conversation)
    ensures Placed(BridgeNew(w, tenant, s, msg, f))
  {
    if !msg.isOld && msg.HasContent() {
      EnsurePlaced(w, tenant, s, msg.conversation, f.ensure);
      var (w1, conv) := EnsureConversation(w, tenant, s, msg.conversation, f.ensure);
      if conv.Some? {
        PostMessagePlaced(w1, tenant, s, conv.value, msg, f.post);
        PostMessageKeeps(w1, tenant, s, conv.value, msg, f.post);
        TouchPlaced(PostMessage(w1, tenant, s, conv.value, msg, f.post), tenant, conv.value.id, msg.timestamp);
      }
    }
  }

  lemma ReactedPlaced(w: World, mm: Server)
    requires Placed(w) && mm.posts == w.mm.posts
    ensures Placed(w.(mm := mm))
  {
  }

  lemma AcknowledgePlaced(w: World, tenant: Tenant, s: Settings, msg: Message, f: IncomingFate)
    requires Placed(w) && Stored(w) && IsEcho(w, msg) && HonestEcho(w, tenant, msg)
    ensures Placed(Acknowledge(w, tenant, s, msg, f))
  {
    TakenPlaced(w, {msg.tmpId});
    var w1 := w.(db := TakePendingOutbound(w.db, msg.tmpId));
    var row := MessageRow(w.db.pending[msg.tmpId].post, msg.conversation, Out, msg.status, msg.timestamp);
    SavePlaced(w1, tenant, msg.id, row);
    var w2 := w1.(db := SaveMessage(w1.db, tenant, msg.id, row));
    var w' := Acknowledge(w, tenant, s, msg, f);
    LogPlaced(w1, w'.log);
    LogPlaced(w2, w'.log);
    ReactedPlaced(w2.(log := w'.log), w'.mm);
  }

  lemma TakenPlaced(w: World, gone: set<TmpId>)
    requires Placed(w) && Stored(w)
    ensures Placed(w.(db := w.db.(pending := w.db.pending - gone)))
  {
    ForgetKeeps(w, gone);
    Stays(w, w.(db := w.db.(pending := w.db.pending - gone)));
  }

  lemma RestatedPlaced(w: World, tenant: Tenant, id: MsgId, status: int)
    requires Placed(w)
    ensures Placed(w.(db := UpdateMessageStatus(w.db, tenant, id, status)))
  {
    if StatusChanges(w.db, tenant, id, status) {
      Stays(w, w.(db := w.db.(messages :=
        w.db.messages[(tenant, id) := w.db.messages[(tenant, id)].(status := status)])));
    }
  }

  lemma StatusPlaced(w: World, tenant: Tenant, s: Settings, msg: Message, f: StatusFate)
    requires Placed(w) && Stored(w) && (tenant, msg.id) in w.db.messages
    ensures Placed(StatusUpdate(w, tenant, s, w.db.messages[(tenant, msg.id)], msg, f))
  {
    RestatedPlaced(w, tenant, msg.id, msg.status);
    ReactedPlaced(w.(db := UpdateMessageStatus(w.db, tenant, msg.id, msg.status)),
      StatusUpdate(w, tenant, s, w.db.messages[(tenant, msg.id)], msg, f).mm);
  }

  lemma IncomingPlaced(w: World, tenant: Tenant, s: Settings, msg: Message, f: IncomingFate)
    requires Placed(w) && Stored(w) && FetchesWhatWasAsked(f.ensure, msg.conversation) && HonestEcho(w, tenant, msg)
    ensures Placed(Incoming(w, tenant, s, msg, f))
  {
    if IsEcho(w, msg) {
      AcknowledgePlaced(w, tenant, s, msg, f);
    } else if (tenant, msg.id) in w.db.messages {
      StatusPlaced(w, tenant, s, msg, f.status);
    } else {
      BridgeNewPlaced(w, tenant, s, msg, f);
    }
  }

  lemma UpdatePlaced(w: World, tenant: Tenant, conv: PhoneConversation, f: UpdateFate)
    requires Placed(w) && Stored(w)
    ensures Placed(ConversationUpdate(w, tenant, conv, f))
  {
    if f.lookupOk && Known(w, tenant, conv.id) && f.saveOk {
      MetadataKeeps(w, tenant, Updated(ConversationAt(w.db, tenant, conv.id), conv));
      Stays(w, ConversationUpdate(w, tenant, conv, f));
    }
  }

  lemma PostArrivalPlaced(w: World, tenant: Tenant, s: Settings, conv: ConversationRow, msg: Message, f: ArrivalFate)
    requires Placed(w) && Stored(w) && Describes(w, tenant, conv)
    ensures Placed(PostArrival(w, tenant, s, conv, msg, f))
  {
    if f.postOk {
      var body := ArrivalPost(conv, msg, f);
      var row := MessageRow(w.mm.next, conv.id, if msg.isFromMe then Out else In, 0, msg.timestamp);
      PostedPlaced(w, tenant, conv, body, s.bot, msg.id, row);
      var w1 := w.(mm := w.mm.Add(AsPosted(body, s.bot)));
      var w2 := if f.saveOk then w1.(db := SaveMessage(w1.db, tenant, msg.id, row)) else w1;
      LogPlaced(w2, PostArrival(w, tenant, s, conv, msg, f).log);
    }
  }

  lemma EnsureGenericPlaced(w: World, tenant: Tenant, s: Settings, id: ConvId, f: EnsureFate)
    requires Placed(w) && Stored(w) && FetchesWhatWasAsked(f, id)
    ensures var (w', row) := EnsureGeneric(w, tenant, s, id, f);
            Placed(w') && Stored(w') && (row.Some? ==> row.value.id == id && Describes(w', tenant, row.value))
  {
    if f.lookupOk && !Known(w, tenant, id) { OpenPlaced(w, tenant, s, id, f); }
  }

  lemma ArrivalPlaced(w: World, tenant: Tenant, s: Settings, msg: Message, f: ArrivalFate)
    requires Placed(w) && Stored(w) && FetchesWhatWasAsked(f.ensure, msg.conversation)
    ensures Placed(Arrival(w, tenant, s, msg, f))
  {
    if f.lookupOk && (tenant, msg.id) !in w.db.messages && msg.HasContent() {
      EnsureGenericPlaced(w, tenant, s, msg.conversation, f.ensure);
      var (w1, conv) := EnsureGeneric(w, tenant, s, msg.conversation, f.ensure);
      if conv.Some? {
        PostArrivalPlaced(w1, tenant, s, conv.value, msg, f);
        PostArrivalKeeps(w1, tenant, s, conv.value, msg, f);
        TouchPlaced(PostArrival(w1, tenant, s, conv.value, msg, f), tenant, conv.value.id, msg.timestamp);
      }
    }
  }

  /** The post a bridge takes to be for a conversation is in that conversation's channel. */
  lemma TargetIsHere(w: World, e: Event)
    requires Placed(w) && e.IsPost() && HonestLookups(w, e) && Reaches(w, e) && e.target.Some?
    ensures At(w.mm.posts[e.post], w.db.conversations[(e.tenant, e.target.value)])
  {
    if e.s.threadMode {
      assert e.target.value in RootedAt(w.db, e.tenant, w.mm.posts[e.post].ThreadRoot(e.post));
      assert Rooted(w.mm.posts, w.mm.posts[e.post]);
    } else {
      assert e.target.value in InChannel(w.db, e.tenant, w.mm.posts[e.post].channel);
    }
  }

  lemma NoticePlaced(w: World, id: PostId, text: string, bot: UserId)
    requires Placed(w) && Stored(w) && id in w.mm.posts
    ensures var post := w.mm.posts[id];
            Placed(w.(mm := w.mm.Add(AsPosted(NewPost(post.channel, post.ThreadRoot(id), text, [], map[]), bot))))
  {
    var post := w.mm.posts[id];
    assert Rooted(w.mm.posts, post);
    AddPlaced(w, AsPosted(NewPost(post.channel, post.ThreadRoot(id), text, [], map[]), bot));
  }

  lemma PendingPlaced(w: World, tenant: Tenant, tmp: TmpId, id: PostId, conversation: ConvId, now: int)
    requires Placed(w) && Known(w, tenant, conversation) && tmp !in w.db.pending
    requires id in w.mm.posts && !w.mm.posts[id].FromBridge()
      && At(w.mm.posts[id], w.db.conversations[(tenant, conversation)])
    ensures Placed(w.(db := AddPendingOutbound(w.db, tenant, tmp, id, conversation, now)))
  {
  }

  lemma OutgoingPlaced(w: World, e: Event)
    requires Placed(w) && Stored(w) && e.PostToPhone? && HonestLookups(w, e) && Reaches(w, e)
    ensures Placed(OutgoingPost(w, e.tenant, e.s, e.post, w.mm.posts[e.post], e.target, e.reply, e.out))
  {
    if e.target.Some? {
      var w' := OutgoingPost(w, e.tenant, e.s, e.post, w.mm.posts[e.post], e.target, e.reply, e.out);
      TargetIsHere(w, e);
      if e.out.sendOk {
        var tmp := Ours(w.nextTmp);
        PendingPlaced(w, e.tenant, tmp, e.post, e.target.value, e.out.now);
        var w1 := w.(db := AddPendingOutbound(w.db, e.tenant, tmp, e.post, e.target.value, e.out.now));
        assert w'.mm == w.mm && (w'.db == w.db || w'.db == w1.db);
      } else {
        NoticePlaced(w, e.post, e.out.notice, e.s.bot);
        ReactedPlaced(w, w'.mm.(posts := w.mm.posts));
        assert w'.db == w.db;
      }
    }
  }

  lemma DeparturePlaced(w: World, e: Event)
    requires Placed(w) && Stored(w) && e.PostToTransport? && HonestLookups(w, e) && Reaches(w, e)
    ensures Placed(Departure(w, e.tenant, e.s, e.post, w.mm.posts[e.post], e.target, e.reply, e.departure))
  {
    if e.target.Some? {
      TargetIsHere(w, e);
      if e.departure.sent.Some? {
        SavePlaced(w, e.tenant, e.departure.sent.value.0,
          MessageRow(e.post, e.target.value, Out, 0, e.departure.sent.value.1));
      } else {
        NoticePlaced(w, e.post, e.departure.notice, e.s.bot);
      }
    }
  }

  lemma StepPlaced(w: World, e: Event)
    requires Placed(w) && Stored(w) && Honest(w, e) && (e.Written? ==> Rooted(w.mm.posts, e.body))
    ensures Placed(Step(w, e))
  {
    match e
    case PhoneMessage(tenant, s, msg, f) => IncomingPlaced(w, tenant, s, msg, f);
    case PhoneUpdate(tenant, conv, f) => UpdatePlaced(w, tenant, conv, f);
    case PruneTick(tenant, cutoff, ok) => ForgetKeeps(w, Expired(w.db, tenant, cutoff));
    case PostToPhone(_, _, _, _, _, _) => if Reaches(w, e) { OutgoingPlaced(w, e); }
    case TransportMessage(tenant, s, msg, f) => ArrivalPlaced(w, tenant, s, msg, f);
    case PostToTransport(_, _, _, _, _, _) => if Reaches(w, e) { DeparturePlaced(w, e); }
    case Written(body) => AddPlaced(w, body);
  }

  /**
   In every reachable state, the post a message is mapped to is in the channel of the message's conversation, and in
   its thread when a bridge made it; a post made by a person only ever stands for a message sent out.
   */
  lemma {:induction false} MessagesStayInTheirConversation(es: seq<Event>)
    requires HonestRun(es) && HonestThreads(es)
    ensures Placed(Run(es))
  {
    if es != [] {
      var before := es[..|es| - 1];
      MessagesStayInTheirConversation(before);
      RunStored(before);
      StepPlaced(Run(before), es[|es| - 1]);
    }
  }

  /** Nothing is quoted in thread mode, and elsewhere only what the post's root stands for in the target. */
  predicate QuotesWithin(w: World, e: Event)
    requires e.IsPost() && e.post in w.mm.posts && e.target.Some?
  {
    && (e.s.threadMode ==> e.reply == None)
    && (e.reply.Some? ==>
          && (e.tenant, e.reply.value) in w.db.messages
          && w.db.messages[(e.tenant, e.reply.value)].conversation == e.target.value
          && w.db.messages[(e.tenant, e.reply.value)].post == w.mm.posts[e.post].root)
  }

  /**
   What a post quotes is a message of the very conversation the post is sent to.  It never quotes anything in thread
   mode, where a post in the thread answers the conversation's own root.
   */
  lemma {:induction false} QuotesStayInTheConversation(es: seq<Event>, e: Event)
    requires HonestRun(es) && HonestThreads(es) && Honest(Run(es), e)
    requires e.IsPost() && Reaches(Run(es), e) && e.target.Some?
    ensures QuotesWithin(Run(es), e)
  {
    MessagesStayInTheirConversation(es);
    QuotesFrom(Run(es), e);
  }

  lemma QuotesFrom(w: World, e: Event)
    requires Placed(w) && e.IsPost() && Reaches(w, e) && HonestLookups(w, e) && e.target.Some?
    ensures QuotesWithin(w, e)
  {
    var post := w.mm.posts[e.post];
    if e.s.threadMode {
      assert e.target.value in RootedAt(w.db, e.tenant, post.ThreadRoot(e.post));
    } else if e.reply.Some? {
      assert e.reply.value in StandingFor(w.db, e.tenant, post.root);
      assert InChannel(w.db, e.tenant, post.channel) == {e.target.value};
      assert Rooted(w.mm.posts, post);
      assert w.db.messages[(e.tenant, e.reply.value)].conversation in InChannel(w.db, e.tenant, post.channel);
    }
  }
}
