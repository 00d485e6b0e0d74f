/**
 Whole runs of every bridge over one database and one Mattermost server.

 An event is one turn of some bridge's loop, or somebody writing a post.  Each carries the settings in force at the
 time, so a reload is nothing but different settings in later events, and a restart is nothing at all: everything
 kept here is what survives one.
 */
module Runs {
  import opened Types
  import opened Conversations
  import opened Storage
  import opened Mattermost
  import opened Bridge
  import opened Corebridge

  datatype Event =
    | PhoneMessage(tenant: Tenant, s: Settings, msg: Message, f: IncomingFate)
    | PhoneUpdate(tenant: Tenant, conv: PhoneConversation, update: UpdateFate)
    | PruneTick(tenant: Tenant, cutoff: int, ok: bool)
    | PostToPhone(tenant: Tenant, s: Settings, post: PostId, target: Option<ConvId>, reply: Option<MsgId>,
      out: OutgoingFate)
    | TransportMessage(tenant: Tenant, s: Settings, msg: Message, arrival: ArrivalFate)
    | PostToTransport(tenant: Tenant, s: Settings, post: PostId, target: Option<ConvId>, reply: Option<MsgId>,
      departure: DepartureFate)
    | Written(body: Post)
  {
    predicate IsPost() { PostToPhone? || PostToTransport? }
  }

  /** The post an event delivers, unless the filter on the way in drops it. */
  predicate Reaches(w: World, e: Event)
    requires e.IsPost()
  {
    e.post in w.mm.posts && w.mm.posts[e.post].Delivered(e.s.bot)
  }

  function Step(w: World, e: Event): World {
    match e
    case PhoneMessage(tenant, s, msg, f) => Incoming(w, tenant, s, msg, f)
    case PhoneUpdate(tenant, conv, f) => ConversationUpdate(w, tenant, conv, f)
    case PruneTick(tenant, cutoff, ok) => Prune(w, tenant, cutoff, ok)
    case PostToPhone(tenant, s, post, target, reply, f) =>
      if Reaches(w, e) then OutgoingPost(w, tenant, s, post, w.mm.posts[post], target, reply, f) else w
    case TransportMessage(tenant, s, msg, f) => Arrival(w, tenant, s, msg, f)
    case PostToTransport(tenant, s, post, target, reply, f) =>
      if Reaches(w, e) then Departure(w, tenant, s, post, w.mm.posts[post], target, reply, f) else w
    case Written(body) => w.(mm := w.mm.Add(body))
  }

  function Run(es: seq<Event>): World {
    if es == [] then EmptyWorld else Step(Run(es[..|es| - 1]), es[|es| - 1])
  }

  // ----- what is assumed of the phone, the transport and the server -----

  predicate FetchesWhatWasAsked(f: EnsureFate, id: ConvId) { f.fetched.Some? ==> f.fetched.value.id == id }

  /** A backfill window lists distinct messages of its conversation; a message never moves to another one. */
  predicate HonestWindow(w: World, tenant: Tenant, id: ConvId, f: EnsureFate) {
    f.window.Some? ==>
      var window := f.window.value;
      && (forall i | 0 <= i < |window| :: window[i].conversation == id)
      && (forall i, j | 0 <= i < j < |window| :: window[i].id != window[j].id)
      && (forall i | 0 <= i < |window| :: (tenant, window[i].id) in w.db.messages ==>
            w.db.messages[(tenant, window[i].id)].conversation == id)
  }

  /** Only the phone a message was sent through echoes it, in the conversation it was sent to. */
  predicate HonestEcho(w: World, tenant: Tenant, msg: Message) {
    IsEcho(w, msg) ==>
      w.db.pending[msg.tmpId].tenant == tenant && w.db.pending[msg.tmpId].conversation == msg.conversation
  }

  predicate HonestLookups(w: World, e: Event)
    requires e.IsPost()
  {
    Reaches(w, e) ==>
      && IsTarget(w.db, e.tenant, e.s, e.post, w.mm.posts[e.post], e.target)
      && (e.target.Some? ==>
            && Known(w, e.tenant, e.target.value)
            && IsReplyTarget(w.db, e.tenant, w.mm.posts[e.post], ConversationAt(w.db, e.tenant, e.target.value).root,
                 e.reply))
  }

  predicate Honest(w: World, e: Event) {
    match e
    case PhoneMessage(tenant, _, msg, f) =>
      && FetchesWhatWasAsked(f.ensure, msg.conversation)
      && HonestWindow(w, tenant, msg.conversation, f.ensure)
      && HonestEcho(w, tenant, msg)
    case TransportMessage(_, _, msg, f) => FetchesWhatWasAsked(f.ensure, msg.conversation)
    case PostToPhone(_, _, _, _, _, _) => HonestLookups(w, e)
    case PostToTransport(_, _, _, _, _, _) => HonestLookups(w, e)
    case _ => true
  }

  predicate HonestRun(es: seq<Event>) {
    es == [] || (HonestRun(es[..|es| - 1]) && Honest(Run(es[..|es| - 1]), es[|es| - 1]))
  }

  lemma {:induction false} Extend(es: seq<Event>, e: Event)
    requires HonestRun(es) && Honest(Run(es), e)
    ensures HonestRun(es + [e]) && Run(es + [e]) == Step(Run(es), e)
  {
    var longer := es + [e];
    assert longer[..|longer| - 1] == es && longer[|longer| - 1] == e;
  }

  // ----- what never changes -----

  /** No conversation leaves its channel or its thread, and no post changes. */
  ghost predicate Extends(w: World, w': World) {
    && (forall k | k in w.db.conversations ::
          && k in w'.db.conversations
          && w'.db.conversations[k].channel == w.db.conversations[k].channel
          && w'.db.conversations[k].root == w.db.conversations[k].root)
    && (forall p | p in w.mm.posts :: p in w'.mm.posts && w'.mm.posts[p] == w.mm.posts[p])
    && w.mm.next <= w'.mm.next
    && w.nextTmp <= w'.nextTmp
  }

  /** Every identifier in the tables belongs to something that exists; no two conversations share a thread. */
  ghost predicate Stored(w: World) {
    && w.mm.Valid()
    && (forall k | k in w.db.messages ::
          (k.0, w.db.messages[k].conversation) in w.db.conversations && w.db.messages[k].post in w.mm.posts)
    && (forall k | k in w.db.pending ::
          && (w.db.pending[k].tenant, w.db.pending[k].conversation) in w.db.conversations
          && w.db.pending[k].post in w.mm.posts
          && k.Ours? && k.n < w.nextTmp)
    && (forall k | k in w.db.conversations :: w.db.conversations[k].root != NO_POST ==>
          w.db.conversations[k].root in w.mm.posts && w.mm.posts[w.db.conversations[k].root].FromBridge())
    && RootsDistinct(w)
  }

  ghost predicate RootsDistinct(w: World) {
    forall k, k' | k in w.db.conversations && k' in w.db.conversations && k != k'
      && w.db.conversations[k].root != NO_POST ::
      w.db.conversations[k].root != w.db.conversations[k'].root
  }

  // Each primitive change keeps both; the handlers are made of these.

  lemma AddKeeps(w: World, post: Post)
    requires Stored(w)
    ensures var w' := w.(mm := w.mm.Add(post)); Stored(w') && Extends(w, w') && w.mm.next !in w.mm.posts
  {
  }

  lemma SaveMessageKeeps(w: World, tenant: Tenant, id: MsgId, row: MessageRow)
    requires Stored(w) && Known(w, tenant, row.conversation) && row.post in w.mm.posts
    ensures var w' := w.(db := SaveMessage(w.db, tenant, id, row)); Stored(w') && Extends(w, w')
  {
  }

  lemma MetadataKeeps(w: World, tenant: Tenant, row: ConversationRow)
    requires Stored(w) && Known(w, tenant, row.id)
    requires row.channel == ConversationAt(w.db, tenant, row.id).channel
    requires row.root == ConversationAt(w.db, tenant, row.id).root
    ensures var w' := w.(db := SaveConversation(w.db, tenant, row)); Stored(w') && Extends(w, w')
  {
  }

  lemma TouchKeeps(w: World, tenant: Tenant, id: ConvId, seen: int)
    requires Stored(w)
    ensures var w' := w.(db := TouchConversation(w.db, tenant, id, seen)); Stored(w') && Extends(w, w')
  {
    if Known(w, tenant, id) {
      var row := w.db.conversations[(tenant, id)].(lastSeen := seen);
      var w' := w.(db := TouchConversation(w.db, tenant, id, seen));
      assert forall k | k in w.db.conversations :: w'.db.conversations[k].root == w.db.conversations[k].root;
    }
  }

  lemma StatusKeeps(w: World, tenant: Tenant, s: Settings, known: MessageRow, msg: Message, f: StatusFate)
    requires Stored(w)
    ensures Stored(StatusUpdate(w, tenant, s, known, msg, f)) && Extends(w, StatusUpdate(w, tenant, s, known, msg, f))
  {
  }

  lemma ForgetKeeps(w: World, gone: set<TmpId>)
    requires Stored(w)
    ensures var w' := w.(db := w.db.(pending := w.db.pending - gone)); Stored(w') && Extends(w, w')
  {
  }

  lemma AcknowledgeKeeps(w: World, tenant: Tenant, s: Settings, msg: Message, f: IncomingFate)
    requires Stored(w) && IsEcho(w, msg) && HonestEcho(w, tenant, msg)
    ensures Stored(Acknowledge(w, tenant, s, msg, f)) && Extends(w, Acknowledge(w, tenant, s, msg, f))
  {
    ForgetKeeps(w, {msg.tmpId});
    var w1 := w.(db := TakePendingOutbound(w.db, msg.tmpId));
    var row := MessageRow(w.db.pending[msg.tmpId].post, msg.conversation, Out, msg.status, msg.timestamp);
    SaveMessageKeeps(w1, tenant, msg.id, row);
  }

  lemma PostMessageKeeps(w: World, tenant: Tenant, s: Settings, conv: ConversationRow, msg: Message, f: PostFate)
    requires Stored(w) && Known(w, tenant, conv.id)
    ensures var w' := PostMessage(w, tenant, s, conv, msg, f);
            Stored(w') && Extends(w, w') && w'.db.conversations == w.db.conversations
  {
    if f.postOk {
      var body := AsPosted(MessagePost(conv, msg, f), s.bot);
      AddKeeps(w, body);
      SaveMessageKeeps(w.(mm := w.mm.Add(body)), tenant, msg.id,
        MessageRow(w.mm.next, conv.id, if msg.isFromMe then Out else In, msg.status, msg.timestamp));
    }
  }

  lemma {:induction false} BackfillKeeps(
      w: World, tenant: Tenant, s: Settings, conv: ConversationRow, window: seq<Message>, fates: seq<PostFate>)
    requires Stored(w) && Known(w, tenant, conv.id)
    ensures var w' := Backfill(w, tenant, s, conv, window, fates);
            Stored(w') && Extends(w, w') && w'.db.conversations == w.db.conversations
    decreases |window|
  {
    if window != [] {
      var last := |window| - 1;
      var f := WindowFate(fates, last);
      if window[last].HasContent() {
        PostMessageKeeps(w, tenant, s, conv, window[last], f);
        if f.postOk && f.saveOk {
          BackfillKeeps(PostMessage(w, tenant, s, conv, window[last], f), tenant, s, conv, window[..last], fates);
        }
      } else {
        BackfillKeeps(w, tenant, s, conv, window[..last], fates);
      }
    }
  }

  /** A conversation is stored with a thread of its own, or with none. */
  lemma StoreKeeps(w: World, tenant: Tenant, row: ConversationRow)
    requires Stored(w) && !Known(w, tenant, row.id)
    requires row.root != NO_POST ==> row.root in w.mm.posts && w.mm.posts[row.root].FromBridge()
    requires forall k | k in w.db.conversations && row.root != NO_POST :: w.db.conversations[k].root != row.root
    ensures var w' := w.(db := SaveConversation(w.db, tenant, row)); Stored(w') && Extends(w, w')
  {
  }

  lemma OpenKeeps(w: World, tenant: Tenant, s: Settings, id: ConvId, f: EnsureFate)
    requires Stored(w) && !Known(w, tenant, id) && FetchesWhatWasAsked(f, id)
    ensures var (w', row) := OpenConversation(w, tenant, s, f);
            Stored(w') && Extends(w, w') && (row.Some? ==> row.value.id == id && Known(w', tenant, id))
  {
    if f.fetched.Some? && f.channel.Some? {
      var header := NewPost(f.channel.value, NO_POST, f.header, [], map[]);
      OwnPostsNeverComeBack(header, s.bot, s.bot);
      AddKeeps(w, AsPosted(header, s.bot));
      StoreKeeps(if s.threadMode then w.(mm := w.mm.Add(AsPosted(header, s.bot))) else w, tenant, NewRow(w, s, f));
    }
  }

  lemma EnsureKeeps(w: World, tenant: Tenant, s: Settings, id: ConvId, f: EnsureFate)
    requires Stored(w) && FetchesWhatWasAsked(f, id)
    ensures var (w', row) := EnsureConversation(w, tenant, s, id, f);
            Stored(w') && Extends(w, w') && (row.Some? ==> row.value.id == id && Known(w', tenant, id))
  {
    if f.lookupOk && !Known(w, tenant, id) {
      OpenKeeps(w, tenant, s, id, f);
      var (w1, row) := OpenConversation(w, tenant, s, f);
      if row.Some? && s.backfillCount > 0 && f.window.Some? {
        BackfillKeeps(w1, tenant, s, row.value, f.window.value, f.windowFates);
      }
    }
  }

  lemma BridgeNewKeeps(w: World, tenant: Tenant, s: Settings, msg: Message, f: IncomingFate)
    requires Stored(w) && FetchesWhatWasAsked(f.ensure, msg.conversation)
    ensures Stored(BridgeNew(w, tenant, s, msg, f)) && Extends(w, BridgeNew(w, tenant, s, msg, f))
  {
    if !msg.isOld && msg.HasContent() {
      EnsureKeeps(w, tenant, s, msg.conversation, f.ensure);
      var (w1, conv) := EnsureConversation(w, tenant, s, msg.conversation, f.ensure);
      if conv.Some? {
        PostMessageKeeps(w1, tenant, s, conv.value, msg, f.post);
        TouchKeeps(PostMessage(w1, tenant, s, conv.value, msg, f.post), tenant, conv.value.id, msg.timestamp);
      }
    }
  }

  lemma PostArrivalKeeps(w: World, tenant: Tenant, s: Settings, conv: ConversationRow, msg: Message, f: ArrivalFate)
    requires Stored(w) && Known(w, tenant, conv.id)
    ensures var w' := PostArrival(w, tenant, s, conv, msg, f);
            Stored(w') && Extends(w, w') && w'.db.conversations == w.db.conversations
  {
    if f.postOk {
      var body := AsPosted(ArrivalPost(conv, msg, f), s.bot);
      AddKeeps(w, body);
      SaveMessageKeeps(w.(mm := w.mm.Add(body)), tenant, msg.id,
        MessageRow(w.mm.next, conv.id, if msg.isFromMe then Out else In, 0, msg.timestamp));
    }
  }

  lemma EnsureGenericKeeps(w: World, tenant: Tenant, s: Settings, id: ConvId, f: EnsureFate)
    requires Stored(w) && FetchesWhatWasAsked(f, id)
    ensures var (w', row) := EnsureGeneric(w, tenant, s, id, f);
            Stored(w') && Extends(w, w') && (row.Some? ==> row.value.id == id && Known(w', tenant, id))
  {
    if f.lookupOk && !Known(w, tenant, id) { OpenKeeps(w, tenant, s, id, f); }
  }

  lemma ArrivalKeeps(w: World, tenant: Tenant, s: Settings, msg: Message, f: ArrivalFate)
    requires Stored(w) && FetchesWhatWasAsked(f.ensure, msg.conversation)
    ensures Stored(Arrival(w, tenant, s, msg, f)) && Extends(w, Arrival(w, tenant, s, msg, f))
  {
    EnsureGenericKeeps(w, tenant, s, msg.conversation, f.ensure);
    var (w1, conv) := EnsureGeneric(w, tenant, s, msg.conversation, f.ensure);
    if conv.Some? {
      PostArrivalKeeps(w1, tenant, s, conv.value, msg, f);
      TouchKeeps(PostArrival(w1, tenant, s, conv.value, msg, f), tenant, conv.value.id, msg.timestamp);
    }
  }

  lemma OutgoingKeeps(
      w: World, tenant: Tenant, s: Settings, id: PostId, target: Option<ConvId>, reply: Option<MsgId>, f: OutgoingFate)
    requires Stored(w) && id in w.mm.posts && (target.Some? ==> Known(w, tenant, target.value))
    ensures var w' := OutgoingPost(w, tenant, s, id, w.mm.posts[id], target, reply, f); Stored(w') && Extends(w, w')
  {
    var post := w.mm.posts[id];
    if !f.sendOk {
      AddKeeps(w, AsPosted(NewPost(post.channel, post.ThreadRoot(id), f.notice, [], map[]), s.bot));
    }
  }

  lemma DepartureKeeps(
      w: World, tenant: Tenant, s: Settings, id: PostId, target: Option<ConvId>, reply: Option<MsgId>,
      f: DepartureFate)
    requires Stored(w) && id in w.mm.posts && (target.Some? ==> Known(w, tenant, target.value))
    ensures var w' := Departure(w, tenant, s, id, w.mm.posts[id], target, reply, f); Stored(w') && Extends(w, w')
  {
    var post := w.mm.posts[id];
    if f.sent.None? {
      AddKeeps(w, AsPosted(NewPost(post.channel, post.ThreadRoot(id), f.notice, [], map[]), s.bot));
    } else if target.Some? {
      SaveMessageKeeps(w, tenant, f.sent.value.0, MessageRow(id, target.value, Out, 0, f.sent.value.1));
    }
  }

  lemma IncomingKeeps(w: World, tenant: Tenant, s: Settings, msg: Message, f: IncomingFate)
    requires Stored(w) && FetchesWhatWasAsked(f.ensure, msg.conversation) && HonestEcho(w, tenant, msg)
    ensures Stored(Incoming(w, tenant, s, msg, f)) && Extends(w, Incoming(w, tenant, s, msg, f))
  {
    if IsEcho(w, msg) {
      AcknowledgeKeeps(w, tenant, s, msg, f);
    } else if (tenant, msg.id) in w.db.messages {
      StatusKeeps(w, tenant, s, w.db.messages[(tenant, msg.id)], msg, f.status);
    } else {
      BridgeNewKeeps(w, tenant, s, msg, f);
    }
  }

  lemma UpdateKeeps(w: World, tenant: Tenant, conv: PhoneConversation, f: UpdateFate)
    requires Stored(w)
    ensures Stored(ConversationUpdate(w, tenant, conv, f)) && Extends(w, ConversationUpdate(w, tenant, conv, f))
  {
    if Known(w, tenant, conv.id) {
      MetadataKeeps(w, tenant, Updated(ConversationAt(w.db, tenant, conv.id), conv));
    }
  }

  lemma DeliveryKeeps(w: World, e: Event)
    requires Stored(w) && e.IsPost() && HonestLookups(w, e)
    ensures Stored(Step(w, e)) && Extends(w, Step(w, e))
  {
    if Reaches(w, e) {
      if e.PostToPhone? {
        OutgoingKeeps(w, e.tenant, e.s, e.post, e.target, e.reply, e.out);
      } else {
        DepartureKeeps(w, e.tenant, e.s, e.post, e.target, e.reply, e.departure);
      }
    }
  }

  lemma StepKeeps(w: World, e: Event)
    requires Stored(w) && Honest(w, e)
    ensures Stored(Step(w, e)) && Extends(w, Step(w, e))
  {
    match e
    case PhoneMessage(tenant, s, msg, f) => IncomingKeeps(w, tenant, s, msg, f);
    case PhoneUpdate(tenant, conv, f) => UpdateKeeps(w, tenant, conv, f);
    case PruneTick(tenant, cutoff, ok) => ForgetKeeps(w, Expired(w.db, tenant, cutoff));
    case PostToPhone(_, _, _, _, _, _) => DeliveryKeeps(w, e);
    case TransportMessage(tenant, s, msg, f) => ArrivalKeeps(w, tenant, s, msg, f);
    case PostToTransport(_, _, _, _, _, _) => DeliveryKeeps(w, e);
    case Written(body) => AddKeeps(w, body);
  }

  lemma {:induction false} RunStored(es: seq<Event>)
    requires HonestRun(es)
    ensures Stored(Run(es))
  {
    if es != [] {
      RunStored(es[..|es| - 1]);
      StepKeeps(Run(es[..|es| - 1]), es[|es| - 1]);
    }
  }

  /** Routing is sticky: from the moment it is stored, a conversation keeps its channel and its thread. */
  lemma {:induction false} RoutingIsSticky(es: seq<Event>, n: nat)
    requires HonestRun(es) && n <= |es|
    ensures Extends(Run(es[..n]), Run(es))
    decreases |es|
  {
    if n == |es| {
      assert es[..n] == es;
    } else {
      var before := es[..|es| - 1];
      RoutingIsSticky(before, n);
      assert before[..n] == es[..n];
      RunStored(before);
      StepKeeps(Run(before), es[|es| - 1]);
    }
  }
}
