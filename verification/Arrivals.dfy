/**
 What the events of a phone or a transport come to: what is posted and kept, and where.  As in `Sends`, nothing here
 speaks of how the bridges work it out.
 */
module Arrivals {
  import opened Types
  import opened Conversations
  import opened Storage
  import opened Mattermost
  import opened Delivery
  import opened Attachments
  import opened Bridge
  import opened Corebridge
  import opened Runs
  import opened Placement
  import opened Isolation
  import opened Echoes
  import AtMostOnce

  predicate SaysNothing(msg: Message) { msg.text == "" && msg.subject == "" && msg.media == [] }

  /** A send of the daemon's is waiting for this message as its echo. */
  predicate Awaited(w: World, msg: Message) { msg.tmpId != NoTmp && msg.tmpId in w.db.pending }

  /** The post shows the message, as whoever the bot is. */
  ghost predicate Shows(post: Post, bot: UserId, c: Carrier, head: string, msg: Message, fates: seq<MediaFate>) {
    && post.user == bot && post.kind == "" && "msggw" in post.props
    && post.files == Files(c, msg.media, fates)
    && SaysAll(post.text, head, if c == Phone then msg.subject else "", msg.text, Notes(c, msg.media, fates))
  }

  /** The message has a new post that shows it, where its conversation is, and is mapped to it. */
  ghost predicate PostedFor(
      w: World, w': World, t: Tenant, bot: UserId, c: Carrier, head: string, msg: Message, fates: seq<MediaFate>)
  {
    && (t, msg.id) in w'.db.messages
    && var row := w'.db.messages[(t, msg.id)];
       && row.post !in w.mm.posts && row.post in w'.mm.posts && row.conversation == msg.conversation
       && row.direction == (if msg.isFromMe then Out else In)
       && Shows(w'.mm.posts[row.post], bot, c, head, msg, fates)
       && (t, msg.conversation) in w'.db.conversations
       && var conv := w'.db.conversations[(t, msg.conversation)];
          w'.mm.posts[row.post].channel == conv.channel && w'.mm.posts[row.post].root == conv.root
  }

  // ----- one post -----

  lemma MessagePostShows(conv: ConversationRow, msg: Message, f: PostFate, bot: UserId)
    ensures Shows(AsPosted(MessagePost(conv, msg, f), bot), bot, Phone, f.head, msg, f.media)
  {
    OwnPostsNeverComeBack(MessagePost(conv, msg, f), bot, bot);
    FormatSaysAll(f.head, msg.subject, msg.text, Notes(Phone, msg.media, f.media));
  }

  lemma ArrivalPostShows(conv: ConversationRow, msg: Message, f: ArrivalFate, bot: UserId)
    ensures Shows(AsPosted(ArrivalPost(conv, msg, f), bot), bot, Transport, f.head, msg, f.media)
  {
    OwnPostsNeverComeBack(ArrivalPost(conv, msg, f), bot, bot);
    FormatSaysAll(f.head, "", msg.text, Notes(Transport, msg.media, f.media));
  }

  lemma PostMessagePosts(w: World, tenant: Tenant, s: Settings, conv: ConversationRow, msg: Message, f: PostFate)
    requires Stored(w) && Describes(w, tenant, conv) && conv.id == msg.conversation && f.postOk && f.saveOk
    ensures var w' := PostMessage(w, tenant, s, conv, msg, f);
      && PostedFor(w, w', tenant, s.bot, Phone, f.head, msg, f.media)
      && w'.db.messages[(tenant, msg.id)].status == msg.status && w'.db.messages[(tenant, msg.id)].post == w.mm.next
      && w'.mm.next == w.mm.next + 1 && w'.db.conversations == w.db.conversations
  {
    MessagePostShows(conv, msg, f, s.bot);
  }

  lemma PostArrivalPosts(w: World, tenant: Tenant, s: Settings, conv: ConversationRow, msg: Message, f: ArrivalFate)
    requires Stored(w) && Describes(w, tenant, conv) && conv.id == msg.conversation && f.postOk && f.saveOk
    ensures var w' := PostArrival(w, tenant, s, conv, msg, f);
      && PostedFor(w, w', tenant, s.bot, Transport, f.head, msg, f.media)
      && w'.db.messages[(tenant, msg.id)].status == 0 && w'.db.conversations == w.db.conversations
  {
    ArrivalPostShows(conv, msg, f, s.bot);
  }

  /** Posts are not taken away in the meantime, and the time of the last activity is another matter. */
  lemma StillPosted(
      w0: World, w: World, w': World, w'': World, t: Tenant, bot: UserId, c: Carrier, head: string, msg: Message,
      fates: seq<MediaFate>)
    requires PostedFor(w, w', t, bot, c, head, msg, fates) && Extends(w0, w)
    requires w''.db.messages == w'.db.messages && w''.mm == w'.mm && Extends(w', w'')
    ensures PostedFor(w0, w'', t, bot, c, head, msg, fates)
  {
  }

  // ----- a new message -----

  /** The conversation's last activity is the message's. */
  predicate Touched(w: World, t: Tenant, msg: Message) {
    (t, msg.conversation) in w.db.conversations && w.db.conversations[(t, msg.conversation)].lastSeen == msg.timestamp
  }

  /**
   When every call works, a message that is not awaited, not mapped, not marked old and not empty is posted: whole,
   where its conversation is, and mapped with its status.
   */
  lemma NewMessageIsPosted(w: World, tenant: Tenant, s: Settings, msg: Message, f: IncomingFate)
    requires Stored(w) && Placed(w) && FetchesWhatWasAsked(f.ensure, msg.conversation) && AtMostOnce.Cooperates(f)
    requires !Awaited(w, msg) && (tenant, msg.id) !in w.db.messages && !msg.isOld && !SaysNothing(msg)
    ensures var w' := Incoming(w, tenant, s, msg, f);
      && PostedFor(w, w', tenant, s.bot, Phone, f.post.head, msg, f.post.media)
      && w'.db.messages[(tenant, msg.id)].status == msg.status && (f.touchOk ==> Touched(w', tenant, msg))
  {
    assert Incoming(w, tenant, s, msg, f) == BridgeNew(w, tenant, s, msg, f);
    NewIsPosted(w, tenant, s, msg, f);
  }

  lemma NewIsPosted(w: World, tenant: Tenant, s: Settings, msg: Message, f: IncomingFate)
    requires Stored(w) && Placed(w) && FetchesWhatWasAsked(f.ensure, msg.conversation) && AtMostOnce.Cooperates(f)
    requires !msg.isOld && !SaysNothing(msg)
    ensures var w' := BridgeNew(w, tenant, s, msg, f);
      && PostedFor(w, w', tenant, s.bot, Phone, f.post.head, msg, f.post.media)
      && w'.db.messages[(tenant, msg.id)].status == msg.status && (f.touchOk ==> Touched(w', tenant, msg))
  {
    EnsurePlaced(w, tenant, s, msg.conversation, f.ensure);
    EnsureKeeps(w, tenant, s, msg.conversation, f.ensure);
    var (w1, conv) := EnsureConversation(w, tenant, s, msg.conversation, f.ensure);
    assert conv.Some?;
    PostMessagePosts(w1, tenant, s, conv.value, msg, f.post);
    PostMessageKeeps(w1, tenant, s, conv.value, msg, f.post);
    var w2 := PostMessage(w1, tenant, s, conv.value, msg, f.post);
    TouchedAfter(w2, tenant, msg, f.touchOk);
    var w' := AfterTouch(w2, tenant, msg, f.touchOk);
    StillPosted(w, w1, w2, w', tenant, s.bot, Phone, f.post.head, msg, f.post.media);
  }

  function AfterTouch(w: World, t: Tenant, msg: Message, ok: bool): World {
    if ok then w.(db := TouchConversation(w.db, t, msg.conversation, msg.timestamp)) else w
  }

  lemma TouchedAfter(w: World, t: Tenant, msg: Message, ok: bool)
    requires Stored(w) && Known(w, t, msg.conversation)
    ensures var w' := AfterTouch(w, t, msg, ok);
      Extends(w, w') && w'.db.messages == w.db.messages && w'.mm == w.mm && (ok ==> Touched(w', t, msg))
  {
    TouchKeeps(w, t, msg.conversation, msg.timestamp);
  }

  /** So it is after any run. */
  lemma {:induction false} EveryNewMessageIsPosted(
      es: seq<Event>, tenant: Tenant, s: Settings, msg: Message, f: IncomingFate)
    requires HonestRun(es) && HonestThreads(es) && Honest(Run(es), PhoneMessage(tenant, s, msg, f))
    requires AtMostOnce.Cooperates(f)
    requires !Awaited(Run(es), msg) && (tenant, msg.id) !in Run(es).db.messages && !msg.isOld && !SaysNothing(msg)
    ensures var w' := Run(es + [PhoneMessage(tenant, s, msg, f)]);
      && PostedFor(Run(es), w', tenant, s.bot, Phone, f.post.head, msg, f.post.media)
      && w'.db.messages[(tenant, msg.id)].status == msg.status && (f.touchOk ==> Touched(w', tenant, msg))
  {
    RunStored(es);
    MessagesStayInTheirConversation(es);
    Extend(es, PhoneMessage(tenant, s, msg, f));
    NewMessageIsPosted(Run(es), tenant, s, msg, f);
  }

  /** A message marked old, or with nothing to say, changes nothing when it is neither awaited nor mapped. */
  lemma OldAndEmptyAreNotPosted(w: World, tenant: Tenant, s: Settings, msg: Message, f: IncomingFate)
    requires !Awaited(w, msg) && (tenant, msg.id) !in w.db.messages && (msg.isOld || SaysNothing(msg))
    ensures Incoming(w, tenant, s, msg, f) == w
  {
  }

  /** The same for a transport's message, which is posted without a status; a mapped or empty one changes nothing. */
  lemma ArrivalIsPosted(w: World, tenant: Tenant, s: Settings, msg: Message, f: ArrivalFate)
    requires Stored(w) && Placed(w) && FetchesWhatWasAsked(f.ensure, msg.conversation)
    requires f.lookupOk && f.ensure.lookupOk && f.ensure.fetched.Some? && f.ensure.channel.Some? && f.ensure.postOk
    requires f.ensure.saveOk && f.postOk && f.saveOk
    ensures var w' := Arrival(w, tenant, s, msg, f);
      if (tenant, msg.id) in w.db.messages || SaysNothing(msg) then w' == w
      else
        && PostedFor(w, w', tenant, s.bot, Transport, f.head, msg, f.media)
        && w'.db.messages[(tenant, msg.id)].status == 0 && (f.touchOk ==> Touched(w', tenant, msg))
  {
    if (tenant, msg.id) !in w.db.messages && !SaysNothing(msg) { NewArrivalIsPosted(w, tenant, s, msg, f); }
  }

  lemma NewArrivalIsPosted(w: World, tenant: Tenant, s: Settings, msg: Message, f: ArrivalFate)
    requires Stored(w) && Placed(w) && FetchesWhatWasAsked(f.ensure, msg.conversation)
    requires f.lookupOk && f.ensure.lookupOk && f.ensure.fetched.Some? && f.ensure.channel.Some? && f.ensure.postOk
    requires f.ensure.saveOk && f.postOk && f.saveOk && (tenant, msg.id) !in w.db.messages && !SaysNothing(msg)
    ensures var w' := Arrival(w, tenant, s, msg, f);
      && PostedFor(w, w', tenant, s.bot, Transport, f.head, msg, f.media)
      && w'.db.messages[(tenant, msg.id)].status == 0 && (f.touchOk ==> Touched(w', tenant, msg))
  {
    EnsureGenericPlaced(w, tenant, s, msg.conversation, f.ensure);
    EnsureGenericKeeps(w, tenant, s, msg.conversation, f.ensure);
    var (w1, conv) := EnsureGeneric(w, tenant, s, msg.conversation, f.ensure);
    assert conv.Some?;
    var w' := Arrival(w, tenant, s, msg, f);
    var w2 := PostArrival(w1, tenant, s, conv.value, msg, f);
    assert w' == AfterTouch(w2, tenant, msg, f.touchOk);
    ArrivedAndTouched(w, w1, w2, tenant, s, conv.value, msg, f);
  }

  lemma ArrivedAndTouched(
      w: World, w1: World, w2: World, tenant: Tenant, s: Settings, conv: ConversationRow, msg: Message, f: ArrivalFate)
    requires Stored(w1) && Extends(w, w1) && Describes(w1, tenant, conv) && conv.id == msg.conversation
    requires w2 == PostArrival(w1, tenant, s, conv, msg, f) && f.postOk && f.saveOk
    ensures var w' := AfterTouch(w2, tenant, msg, f.touchOk);
      && PostedFor(w, w', tenant, s.bot, Transport, f.head, msg, f.media)
      && w'.db.messages[(tenant, msg.id)].status == 0 && (f.touchOk ==> Touched(w', tenant, msg))
  {
    PostArrivalPosts(w1, tenant, s, conv, msg, f);
    PostArrivalKeeps(w1, tenant, s, conv, msg, f);
    TouchedAfter(w2, tenant, msg, f.touchOk);
    StillPosted(w, w1, w2, AfterTouch(w2, tenant, msg, f.touchOk), tenant, s.bot, Transport, f.head, msg, f.media);
  }

  // ----- a backfill -----

  /** The message is posted whole and mapped, by a post numbered from `from` on. */
  ghost predicate PostedFrom(from: PostId, w: World, t: Tenant, bot: UserId, msg: Message, f: PostFate) {
    && (t, msg.id) in w.db.messages
    && var p := w.db.messages[(t, msg.id)].post;
       && from <= p < w.mm.next && p in w.mm.posts
       && Shows(w.mm.posts[p], bot, Phone, f.head, msg, f.media)
  }

  ghost predicate WindowPosted(
      from: PostId, w: World, t: Tenant, bot: UserId, window: seq<Message>, fates: seq<PostFate>)
  {
    forall i | 0 <= i < |window| && !SaysNothing(window[i]) ::
      PostedFrom(from, w, t, bot, window[i], WindowFate(fates, i))
  }

  /** Of two posted messages of the window, the one that comes later there, so the older, has the earlier post. */
  ghost predicate OldestFirst(w: World, t: Tenant, window: seq<Message>) {
    forall i, j | 0 <= i < j < |window| && !SaysNothing(window[i]) && !SaysNothing(window[j])
        && (t, window[i].id) in w.db.messages && (t, window[j].id) in w.db.messages ::
      w.db.messages[(t, window[j].id)].post < w.db.messages[(t, window[i].id)].post
  }

  /**
   A backfill in which every call works posts every message of the window that says something, whole, and the older of
   two before the newer; the window has the newest first.
   */
  lemma {:induction false} BackfillPostsOldestFirst(
      w: World, tenant: Tenant, s: Settings, conv: ConversationRow, window: seq<Message>, fates: seq<PostFate>)
    requires Stored(w) && Known(w, tenant, conv.id) && AtMostOnce.AllPosted(fates, |window|)
    requires forall i, j | 0 <= i < j < |window| :: window[i].id != window[j].id
    ensures var w' := Backfill(w, tenant, s, conv, window, fates);
      WindowPosted(w.mm.next, w', tenant, s.bot, window, fates) && OldestFirst(w', tenant, window)
    decreases |window|
  {
    if window != [] {
      var last := |window| - 1;
      var w' := Backfill(w, tenant, s, conv, window, fates);
      if SaysNothing(window[last]) {
        BackfillPostsOldestFirst(w, tenant, s, conv, window[..last], fates);
        WindowGrows(w.mm.next, w.mm.next, w', tenant, s.bot, window, fates);
      } else {
        var f := WindowFate(fates, last);
        OldestIsPosted(w, tenant, s, conv, window[last], f);
        var w1 := PostMessage(w, tenant, s, conv, window[last], f);
        BackfillPostsOldestFirst(w1, tenant, s, conv, window[..last], fates);
        OthersStay(w1, w', tenant, s, conv, window, fates);
        WindowGrows(w.mm.next, w1.mm.next, w', tenant, s.bot, window, fates);
      }
    }
  }

  /** The oldest message of a window is posted and mapped. */
  lemma OldestIsPosted(w: World, tenant: Tenant, s: Settings, conv: ConversationRow, msg: Message, f: PostFate)
    requires Stored(w) && Known(w, tenant, conv.id) && f.postOk && f.saveOk
    ensures var w1 := PostMessage(w, tenant, s, conv, msg, f);
      && PostedFrom(w.mm.next, w1, tenant, s.bot, msg, f) && w1.db.messages[(tenant, msg.id)].post == w.mm.next
      && w1.mm.next == w.mm.next + 1 && Stored(w1) && Known(w1, tenant, conv.id)
  {
    MessagePostShows(conv, msg, f, s.bot);
    PostMessageKeeps(w, tenant, s, conv, msg, f);
  }

  /** The rest of the window leaves the oldest message's mapping and all posts alone. */
  lemma OthersStay(
      w1: World, w': World, tenant: Tenant, s: Settings, conv: ConversationRow, window: seq<Message>,
      fates: seq<PostFate>)
    requires Stored(w1) && window != [] && Known(w1, tenant, conv.id)
    requires forall i, j | 0 <= i < j < |window| :: window[i].id != window[j].id
    requires w' == Backfill(w1, tenant, s, conv, window[..|window| - 1], fates)
    ensures Extends(w1, w')
    ensures var k := (tenant, window[|window| - 1].id);
      k in w1.db.messages ==> k in w'.db.messages && w'.db.messages[k] == w1.db.messages[k]
  {
    var last := |window| - 1;
    BackfillKeeps(w1, tenant, s, conv, window[..last], fates);
    BackfillAbout(w1, tenant, s, conv, window[..last], fates);
    assert window[last].id !in Ids(window[..last]);
  }

  /** A window with one older message. */
  lemma WindowGrows(
      from: PostId, next: PostId, w': World, t: Tenant, bot: UserId, window: seq<Message>, fates: seq<PostFate>)
    requires window != [] && from <= next
    requires WindowPosted(next, w', t, bot, window[..|window| - 1], fates)
    requires OldestFirst(w', t, window[..|window| - 1])
    requires var msg := window[|window| - 1];
      !SaysNothing(msg) ==>
        PostedFrom(from, w', t, bot, msg, WindowFate(fates, |window| - 1)) && w'.db.messages[(t, msg.id)].post < next
    ensures WindowPosted(from, w', t, bot, window, fates) && OldestFirst(w', t, window)
  {
    var last := |window| - 1;
    forall i | 0 <= i < last && !SaysNothing(window[i])
      ensures PostedFrom(from, w', t, bot, window[i], WindowFate(fates, i))
      ensures (t, window[i].id) in w'.db.messages && w'.db.messages[(t, window[i].id)].post >= next
    {
      assert window[..last][i] == window[i];
      FromEarlier(from, next, w', t, bot, window[i], WindowFate(fates, i));
    }
    OrderGrows(next, w', t, window);
  }

  lemma FromEarlier(from: PostId, next: PostId, w: World, t: Tenant, bot: UserId, msg: Message, f: PostFate)
    requires PostedFrom(next, w, t, bot, msg, f) && from <= next
    ensures PostedFrom(from, w, t, bot, msg, f) && w.db.messages[(t, msg.id)].post >= next
  {
  }

  lemma OrderGrows(next: PostId, w: World, t: Tenant, window: seq<Message>)
    requires window != [] && OldestFirst(w, t, window[..|window| - 1])
    requires forall i | 0 <= i < |window| - 1 && !SaysNothing(window[i]) && (t, window[i].id) in w.db.messages ::
      w.db.messages[(t, window[i].id)].post >= next
    requires var k := (t, window[|window| - 1].id);
      !SaysNothing(window[|window| - 1]) && k in w.db.messages ==> w.db.messages[k].post < next
    ensures OldestFirst(w, t, window)
  {
    var rest := window[..|window| - 1];
    assert forall i | 0 <= i < |rest| :: rest[i] == window[i];
  }

  // ----- an echo, and a change of status -----

  /** A post's reactions when delivery states are shown and both calls work: one is taken away and one put there. */
  function Moved(there: set<(UserId, Emoji)>, bot: UserId, stale: Emoji, shown: Emoji): set<(UserId, Emoji)> {
    if stale == shown then there
    else (if stale == "" then there else there - {(bot, stale)}) + (if shown == "" then {} else {(bot, shown)})
  }

  lemma ReactionsMove(w: World, s: Settings, p: PostId, newStatus: int, oldStatus: int, f: StatusFate)
    ensures var w' := ApplyDeliveryStatus(w, s, p, newStatus, oldStatus, f);
      && w'.db == w.db && w'.mm.posts == w.mm.posts && w'.log == w.log
      && (forall q | q != p :: w'.mm.ReactionsOn(q) == w.mm.ReactionsOn(q))
      && (!s.postDeliveryStatus ==> w'.mm == w.mm)
      && (s.postDeliveryStatus && p != 0 && f.unreactOk && f.reactOk ==>
            w'.mm.ReactionsOn(p)
            == Moved(w.mm.ReactionsOn(p), s.bot, StatusEmoji(s.codes, oldStatus), StatusEmoji(s.codes, newStatus)))
  {
  }

  /**
   An awaited echo takes its row, and maps the message to the person's own post as one sent out; nothing is posted, and
   that post shows the first status it has.
   */
  lemma EchoMapsToThePost(w: World, tenant: Tenant, s: Settings, msg: Message, f: IncomingFate)
    requires Awaited(w, msg) && f.takeOk && f.ackSaveOk
    ensures var w' := Incoming(w, tenant, s, msg, f); var p := w.db.pending[msg.tmpId].post;
      && w'.db.pending == w.db.pending - {msg.tmpId} && w'.db.conversations == w.db.conversations
      && w'.mm.posts == w.mm.posts && (tenant, msg.id) in w'.db.messages
      && (forall k | k != (tenant, msg.id) :: k in w'.db.messages <==> k in w.db.messages)
      && (forall k | k in w.db.messages && k != (tenant, msg.id) :: w'.db.messages[k] == w.db.messages[k])
      && var row := w'.db.messages[(tenant, msg.id)];
         && row.post == p && row.conversation == msg.conversation && row.direction == Out && row.status == msg.status
         && (!s.postDeliveryStatus ==> w'.mm == w.mm)
         && (s.postDeliveryStatus && p != 0 && f.status.unreactOk && f.status.reactOk ==>
               w'.mm.ReactionsOn(p) == Moved(w.mm.ReactionsOn(p), s.bot, "", StatusEmoji(s.codes, msg.status)))
  {
    var p := w.db.pending[msg.tmpId].post;
    var w1 := w.(db := TakePendingOutbound(w.db, msg.tmpId));
    var row := MessageRow(p, msg.conversation, Out, msg.status, msg.timestamp);
    var w2 := w1.(db := SaveMessage(w1.db, tenant, msg.id, row)).Log(Acknowledged(tenant, msg.tmpId, msg.id, p, true));
    ReactionsMove(w2, s, p, msg.status, 0, f.status);
  }

  /** A new status of a mapped message is kept, and its post shows it instead of the old one when states are shown. */
  lemma StatusIsShown(w: World, tenant: Tenant, s: Settings, msg: Message, f: IncomingFate)
    requires !Awaited(w, msg) && (tenant, msg.id) in w.db.messages && (msg.tmpId == NoTmp || f.takeOk) && f.lookupOk
    requires f.status.updateOk
    ensures var w' := Incoming(w, tenant, s, msg, f); var row := w.db.messages[(tenant, msg.id)];
      && w'.db == w.db.(messages := w.db.messages[(tenant, msg.id) := row.(status := msg.status)])
      && w'.mm.posts == w.mm.posts && (!s.postDeliveryStatus ==> w'.mm == w.mm)
      && (s.postDeliveryStatus && row.post != 0 && f.status.unreactOk && f.status.reactOk ==>
            w'.mm.ReactionsOn(row.post)
            == Moved(w.mm.ReactionsOn(row.post), s.bot,
                 StatusEmoji(s.codes, row.status), StatusEmoji(s.codes, msg.status)))
  {
    var row := w.db.messages[(tenant, msg.id)];
    if row.status == msg.status {
      assert w.db.messages[(tenant, msg.id) := row] == w.db.messages;
    } else {
      var w1 := w.(db := UpdateMessageStatus(w.db, tenant, msg.id, msg.status));
      ReactionsMove(w1, s, row.post, msg.status, row.status, f.status);
    }
  }

  // ----- conversations -----

  /** The row of a conversation just opened says what was fetched, in the channel it was routed to. */
  predicate FreshRow(row: ConversationRow, conv: PhoneConversation, channel: ChannelId, now: int) {
    && row.id == conv.id && row.channel == channel && row.displayName == conv.Title() && row.isGroup == conv.isGroup
    && row.outgoingId == conv.outgoingId && row.kind == conv.kind && row.sendMode == conv.sendMode
    && row.lastSeen == now && row.participants == conv.participants
  }

  /**
   A conversation not known is opened when every call works: with a header post of its own in the channel when threads
   are used, and with none otherwise.
   */
  lemma ConversationIsOpened(w: World, tenant: Tenant, s: Settings, f: EnsureFate)
    requires f.fetched.Some? && f.channel.Some? && f.saveOk && (s.threadMode ==> f.postOk)
    ensures var w' := OpenConversation(w, tenant, s, f).0; var k := (tenant, f.fetched.value.id);
      && k in w'.db.conversations && w'.db.conversations == w.db.conversations[k := w'.db.conversations[k]]
      && w'.db.messages == w.db.messages && w'.db.pending == w.db.pending
      && var row := w'.db.conversations[k];
         && FreshRow(row, f.fetched.value, f.channel.value, f.now)
         && (!s.threadMode ==> row.root == 0 && w'.mm == w.mm)
         && (s.threadMode ==>
               && row.root == w.mm.next && row.root in w'.mm.posts
               && w'.mm.posts == w.mm.posts[row.root := w'.mm.posts[row.root]]
               && var header := w'.mm.posts[row.root];
                  header.channel == row.channel && header.root == 0 && header.text == f.header && header.user == s.bot)
  {
  }

  /** Without one of them nothing is stored, and a conversation that is known is left alone. */
  lemma ConversationIsNotOpened(w: World, tenant: Tenant, s: Settings, id: ConvId, f: EnsureFate)
    requires (tenant, id) in w.db.conversations || f.fetched.None? || f.channel.None? || !f.saveOk
             || (s.threadMode && !f.postOk)
    ensures EnsureConversation(w, tenant, s, id, f).0.db == w.db
    ensures (tenant, id) in w.db.conversations ==> EnsureConversation(w, tenant, s, id, f).0 == w
  {
  }

  /**
   A known conversation takes the phone's name and kind, and its sender and participants when there are any; its place
   and its last activity stay, and so does everything else.
   */
  lemma ConversationFollowsThePhone(w: World, tenant: Tenant, conv: PhoneConversation, f: UpdateFate)
    requires (tenant, conv.id) in w.db.conversations && f.lookupOk && f.saveOk
    ensures var w' := ConversationUpdate(w, tenant, conv, f); var k := (tenant, conv.id);
      && k in w'.db.conversations
      && w' == w.(db := w.db.(conversations := w.db.conversations[k := w'.db.conversations[k]]))
      && var row, before := w'.db.conversations[k], w.db.conversations[k];
         && row.displayName == conv.Title() && row.isGroup == conv.isGroup && row.kind == conv.kind
         && row.sendMode == conv.sendMode && row.channel == before.channel && row.root == before.root
         && row.lastSeen == before.lastSeen
         && row.outgoingId == (if conv.outgoingId == "" then before.outgoingId else conv.outgoingId)
         && row.participants == (if conv.participants == [] then before.participants else conv.participants)
  {
  }

  /** Only a conversation that is known is updated. */
  lemma OnlyKnownAreUpdated(w: World, tenant: Tenant, conv: PhoneConversation, f: UpdateFate)
    requires (tenant, conv.id) !in w.db.conversations
    ensures ConversationUpdate(w, tenant, conv, f) == w
  {
  }

  // ----- giving up -----

  /** A tick gives up the tenant's sends recorded at the cutoff or before, and no other, and puts that on record. */
  lemma TickGivesUpTheOld(w: World, tenant: Tenant, cutoff: int)
    ensures var w' := Prune(w, tenant, cutoff, true);
      && (forall k :: k in w'.db.pending <==>
            k in w.db.pending && (w.db.pending[k].tenant != tenant || w.db.pending[k].createdAt > cutoff))
      && (forall k | k in w'.db.pending :: w'.db.pending[k] == w.db.pending[k])
      && w'.db.messages == w.db.messages && w'.db.conversations == w.db.conversations && w'.mm == w.mm
      && |w'.log| == |w.log| + 1 && w'.log[|w.log|].GaveUp? && w'.log[|w.log|].tenant == tenant
      && (forall k :: k in w'.log[|w.log|].tmps <==> k in w.db.pending && k !in w'.db.pending)
  {
  }
}
