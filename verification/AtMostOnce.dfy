/** How often one phone message is posted to Mattermost over a whole run. */
module AtMostOnce {
  import opened Types
  import opened Storage
  import opened Mattermost
  import opened Bridge
  import opened Corebridge
  import opened Runs

  function Posts(log: seq<Action>, t: Tenant, m: MsgId): nat {
    if log == [] then 0
    else
      var a := log[|log| - 1];
      Posts(log[..|log| - 1], t, m) + if a.Bridged? && a.tenant == t && a.message == m then 1 else 0
  }

  /** The posts of a message whose mapping could not be stored. */
  function Unsaved(log: seq<Action>, t: Tenant, m: MsgId): nat {
    if log == [] then 0
    else
      var a := log[|log| - 1];
      Unsaved(log[..|log| - 1], t, m) + if a.Bridged? && a.tenant == t && a.message == m && !a.saved then 1 else 0
  }

  predicate Mapped(w: World, t: Tenant, m: MsgId) { (t, m) in w.db.messages }

  /** A message has no more posts than its mapping and its failed saves account for. */
  predicate OnceAt(w: World, t: Tenant, m: MsgId) {
    Posts(w.log, t, m) <= (if Mapped(w, t, m) then 1 else 0) + Unsaved(w.log, t, m)
  }

  lemma Logged(w: World, a: Action, t: Tenant, m: MsgId)
    ensures var mine := a.Bridged? && a.tenant == t && a.message == m;
            && Posts(w.Log(a).log, t, m) == Posts(w.log, t, m) + (if mine then 1 else 0)
            && Unsaved(w.Log(a).log, t, m) == Unsaved(w.log, t, m) + (if mine && !a.saved then 1 else 0)
  {
    assert (w.log + [a])[..|w.log|] == w.log;
  }

  /** Backfill is off, or the message being handled is not in the window it would post. */
  predicate NoOverlap(e: Event) {
    e.PhoneMessage? && e.s.backfillCount > 0 && e.f.ensure.window.Some? ==>
      forall i | 0 <= i < |e.f.ensure.window.value| :: e.f.ensure.window.value[i].id != e.msg.id
  }

  predicate NoOverlaps(es: seq<Event>) { forall i | 0 <= i < |es| :: NoOverlap(es[i]) }

  lemma PostMessageOnce(
      w: World, tenant: Tenant, s: Settings, conv: ConversationRow, msg: Message, f: PostFate, t: Tenant, m: MsgId)
    requires OnceAt(w, t, m)
    requires !Mapped(w, tenant, msg.id)
    ensures OnceAt(PostMessage(w, tenant, s, conv, msg, f), t, m)
  {
    Logged(w, Bridged(tenant, msg.id, w.mm.next, f.saveOk), t, m);
  }

  lemma {:induction false} BackfillOnce(
      w: World, tenant: Tenant, s: Settings, conv: ConversationRow, window: seq<Message>, fates: seq<PostFate>,
      t: Tenant, m: MsgId)
    requires OnceAt(w, t, m)
    requires forall i, j | 0 <= i < j < |window| :: window[i].id != window[j].id
    requires forall i | 0 <= i < |window| :: !Mapped(w, tenant, window[i].id)
    ensures OnceAt(Backfill(w, tenant, s, conv, window, fates), t, m)
    decreases |window|
  {
    if window != [] {
      var last := |window| - 1;
      var f := WindowFate(fates, last);
      if window[last].HasContent() {
        PostMessageOnce(w, tenant, s, conv, window[last], f, t, m);
        if f.postOk && f.saveOk {
          BackfillOnce(PostMessage(w, tenant, s, conv, window[last], f), tenant, s, conv, window[..last], fates, t, m);
        }
      } else {
        BackfillOnce(w, tenant, s, conv, window[..last], fates, t, m);
      }
    }
  }

  lemma {:induction false} BackfillMaps(
      w: World, tenant: Tenant, s: Settings, conv: ConversationRow, window: seq<Message>, fates: seq<PostFate>,
      id: MsgId)
    requires !Mapped(w, tenant, id)
    requires forall i | 0 <= i < |window| :: window[i].id != id
    ensures !Mapped(Backfill(w, tenant, s, conv, window, fates), tenant, id)
    decreases |window|
  {
    if window != [] {
      var last := |window| - 1;
      var f := WindowFate(fates, last);
      if window[last].HasContent() {
        if f.postOk && f.saveOk {
          BackfillMaps(PostMessage(w, tenant, s, conv, window[last], f), tenant, s, conv, window[..last], fates, id);
        }
      } else {
        BackfillMaps(w, tenant, s, conv, window[..last], fates, id);
      }
    }
  }

  lemma OpenOnce(w: World, tenant: Tenant, s: Settings, f: EnsureFate, t: Tenant, m: MsgId)
    requires OnceAt(w, t, m)
    ensures var w' := OpenConversation(w, tenant, s, f).0; OnceAt(w', t, m) && w'.db.messages == w.db.messages
  {
    if f.fetched.Some? && f.channel.Some? {
      var row := NewRow(w, s, f);
      Logged(w, Opened(tenant, row.id, row.root, f.saveOk), t, m);
    }
  }

  /** No message of a conversation not bridged yet is mapped. */
  lemma WindowUnmapped(w: World, tenant: Tenant, id: ConvId, f: EnsureFate)
    requires Stored(w) && !Known(w, tenant, id) && HonestWindow(w, tenant, id, f) && f.window.Some?
    ensures forall i | 0 <= i < |f.window.value| :: !Mapped(w, tenant, f.window.value[i].id)
  {
  }

  /** A backfill of unmapped messages, right after their conversation was opened. */
  lemma BackfilledOnce(
      w: World, w1: World, tenant: Tenant, s: Settings, conv: ConversationRow, id: MsgId, window: seq<Message>,
      fates: seq<PostFate>, t: Tenant, m: MsgId)
    requires OnceAt(w1, t, m) && w1.db.messages == w.db.messages && !Mapped(w, tenant, id)
    requires forall i, j | 0 <= i < j < |window| :: window[i].id != window[j].id
    requires forall i | 0 <= i < |window| :: !Mapped(w, tenant, window[i].id) && window[i].id != id
    ensures var w' := Backfill(w1, tenant, s, conv, window, fates); OnceAt(w', t, m) && !Mapped(w', tenant, id)
  {
    assert forall i | 0 <= i < |window| :: !Mapped(w1, tenant, window[i].id);
    BackfillOnce(w1, tenant, s, conv, window, fates, t, m);
    BackfillMaps(w1, tenant, s, conv, window, fates, id);
  }

  lemma EnsureOnce(w: World, tenant: Tenant, s: Settings, msg: Message, f: EnsureFate, t: Tenant, m: MsgId)
    requires OnceAt(w, t, m) && Stored(w) && !Mapped(w, tenant, msg.id)
    requires HonestWindow(w, tenant, msg.conversation, f)
    requires s.backfillCount > 0 && f.window.Some? ==>
      forall i | 0 <= i < |f.window.value| :: f.window.value[i].id != msg.id
    ensures var w' := EnsureConversation(w, tenant, s, msg.conversation, f).0;
            OnceAt(w', t, m) && !Mapped(w', tenant, msg.id)
  {
    if f.lookupOk && !Known(w, tenant, msg.conversation) {
      OpenOnce(w, tenant, s, f, t, m);
      var (w1, row) := OpenConversation(w, tenant, s, f);
      if row.Some? && s.backfillCount > 0 && f.window.Some? {
        WindowUnmapped(w, tenant, msg.conversation, f);
        BackfilledOnce(w, w1, tenant, s, row.value, msg.id, f.window.value, f.windowFates, t, m);
      }
    }
  }

  lemma AcknowledgeOnce(w: World, tenant: Tenant, s: Settings, msg: Message, f: IncomingFate, t: Tenant, m: MsgId)
    requires OnceAt(w, t, m) && IsEcho(w, msg)
    ensures OnceAt(Acknowledge(w, tenant, s, msg, f), t, m)
  {
    Logged(w, Acknowledged(tenant, msg.tmpId, msg.id, w.db.pending[msg.tmpId].post, f.ackSaveOk), t, m);
  }

  lemma StatusOnce(
      w: World, tenant: Tenant, s: Settings, known: MessageRow, msg: Message, f: StatusFate, t: Tenant, m: MsgId)
    requires OnceAt(w, t, m)
    ensures OnceAt(StatusUpdate(w, tenant, s, known, msg, f), t, m)
  {
  }

  lemma BridgeNewOnce(w: World, tenant: Tenant, s: Settings, msg: Message, f: IncomingFate, t: Tenant, m: MsgId)
    requires OnceAt(w, t, m) && Stored(w) && !Mapped(w, tenant, msg.id)
    requires HonestWindow(w, tenant, msg.conversation, f.ensure)
    requires s.backfillCount > 0 && f.ensure.window.Some? ==>
      forall i | 0 <= i < |f.ensure.window.value| :: f.ensure.window.value[i].id != msg.id
    ensures OnceAt(BridgeNew(w, tenant, s, msg, f), t, m)
  {
    if !msg.isOld && msg.HasContent() {
      EnsureOnce(w, tenant, s, msg, f.ensure, t, m);
      var (w1, conv) := EnsureConversation(w, tenant, s, msg.conversation, f.ensure);
      if conv.Some? {
        PostMessageOnce(w1, tenant, s, conv.value, msg, f.post, t, m);
      }
    }
  }

  lemma IncomingOnce(w: World, e: Event, t: Tenant, m: MsgId)
    requires e.PhoneMessage? && OnceAt(w, t, m) && Stored(w) && Honest(w, e) && NoOverlap(e)
    ensures OnceAt(Step(w, e), t, m)
  {
    if IsEcho(w, e.msg) {
      AcknowledgeOnce(w, e.tenant, e.s, e.msg, e.f, t, m);
    } else if Mapped(w, e.tenant, e.msg.id) {
      StatusOnce(w, e.tenant, e.s, w.db.messages[(e.tenant, e.msg.id)], e.msg, e.f.status, t, m);
    } else {
      BridgeNewOnce(w, e.tenant, e.s, e.msg, e.f, t, m);
    }
  }

  lemma PostArrivalOnce(
      w: World, tenant: Tenant, s: Settings, conv: ConversationRow, msg: Message, f: ArrivalFate, t: Tenant, m: MsgId)
    requires OnceAt(w, t, m) && !Mapped(w, tenant, msg.id)
    ensures OnceAt(PostArrival(w, tenant, s, conv, msg, f), t, m)
  {
    Logged(w, Bridged(tenant, msg.id, w.mm.next, f.saveOk), t, m);
  }

  lemma ArrivalOnce(w: World, tenant: Tenant, s: Settings, msg: Message, f: ArrivalFate, t: Tenant, m: MsgId)
    requires OnceAt(w, t, m)
    ensures OnceAt(Arrival(w, tenant, s, msg, f), t, m)
  {
    if !Mapped(w, tenant, msg.id) {
      OpenOnce(w, tenant, s, f.ensure, t, m);
      var (w1, conv) := EnsureGeneric(w, tenant, s, msg.conversation, f.ensure);
      assert OnceAt(w1, t, m) && !Mapped(w1, tenant, msg.id);
      if conv.Some? { PostArrivalOnce(w1, tenant, s, conv.value, msg, f, t, m); }
    }
  }

  lemma {:induction false} Appended(log: seq<Action>, more: seq<Action>, t: Tenant, m: MsgId)
    requires forall i | 0 <= i < |more| :: !more[i].Bridged?
    ensures Posts(log + more, t, m) == Posts(log, t, m) && Unsaved(log + more, t, m) == Unsaved(log, t, m)
  {
    if more == [] {
      assert log + more == log;
    } else {
      assert (log + more)[..|log + more| - 1] == log + more[..|more| - 1];
      Appended(log, more[..|more| - 1], t, m);
    }
  }

  /** Nothing was posted, and no mapping was lost. */
  ghost predicate PostsNothing(w: World, w': World) {
    && |w.log| <= |w'.log| && w'.log[..|w.log|] == w.log
    && (forall i | |w.log| <= i < |w'.log| :: !w'.log[i].Bridged?)
    && w.db.messages.Keys <= w'.db.messages.Keys
  }

  lemma NothingPostedOnce(w: World, w': World, t: Tenant, m: MsgId)
    requires OnceAt(w, t, m) && PostsNothing(w, w')
    ensures OnceAt(w', t, m)
  {
    var more := w'.log[|w.log|..];
    assert w'.log == w.log + more;
    assert forall i | 0 <= i < |more| :: more[i] == w'.log[|w.log| + i];
    Appended(w.log, more, t, m);
  }

  lemma OutgoingPostsNothing(
      w: World, tenant: Tenant, s: Settings, id: PostId, post: Post, target: Option<ConvId>, reply: Option<MsgId>,
      f: OutgoingFate)
    ensures PostsNothing(w, OutgoingPost(w, tenant, s, id, post, target, reply, f))
  {
  }

  lemma DeparturePostsNothing(
      w: World, tenant: Tenant, s: Settings, id: PostId, post: Post, target: Option<ConvId>, reply: Option<MsgId>,
      f: DepartureFate)
    ensures PostsNothing(w, Departure(w, tenant, s, id, post, target, reply, f))
  {
  }

  lemma StepOnce(w: World, e: Event, t: Tenant, m: MsgId)
    requires OnceAt(w, t, m) && Stored(w) && Honest(w, e) && NoOverlap(e)
    ensures OnceAt(Step(w, e), t, m)
  {
    match e
    case PhoneMessage(_, _, _, _) => IncomingOnce(w, e, t, m);
    case TransportMessage(tenant, s, msg, f) => ArrivalOnce(w, tenant, s, msg, f, t, m);
    case PruneTick(tenant, cutoff, _) => Logged(w, GaveUp(tenant, Expired(w.db, tenant, cutoff)), t, m);
    case PostToPhone(tenant, s, post, target, reply, f) =>
      if Reaches(w, e) {
        OutgoingPostsNothing(w, tenant, s, post, w.mm.posts[post], target, reply, f);
        NothingPostedOnce(w, Step(w, e), t, m);
      }
    case PostToTransport(tenant, s, post, target, reply, f) =>
      if Reaches(w, e) {
        DeparturePostsNothing(w, tenant, s, post, w.mm.posts[post], target, reply, f);
        NothingPostedOnce(w, Step(w, e), t, m);
      }
    case _ =>
  }

  /**
   Over every run of new messages, replays, echoes, status events, failures and restarts, the posts made for one
   message never exceed one if it is mapped, plus the number of its posts whose mapping was not saved.
   */
  lemma {:induction false} PostedAtMostOnce(es: seq<Event>, t: Tenant, m: MsgId)
    requires HonestRun(es) && NoOverlaps(es)
    ensures OnceAt(Run(es), t, m)
  {
    if es != [] {
      var before := es[..|es| - 1];
      PostedAtMostOnce(before, t, m);
      RunStored(before);
      StepOnce(Run(before), es[|es| - 1], t, m);
    }
  }

  /** Without a failed save a replay, however late, never posts twice. */
  lemma {:induction false} NeverPostedTwice(es: seq<Event>, t: Tenant, m: MsgId)
    requires HonestRun(es) && NoOverlaps(es)
    requires Unsaved(Run(es).log, t, m) == 0
    ensures Posts(Run(es).log, t, m) <= 1
    ensures !Mapped(Run(es), t, m) ==> Posts(Run(es).log, t, m) == 0
  {
    PostedAtMostOnce(es, t, m);
  }

  // ----- exactly when a single message is posted twice -----

  predicate InWindow(window: seq<Message>, id: MsgId) {
    exists i :: 0 <= i < |window| && window[i].id == id && window[i].HasContent()
  }

  predicate AllPosted(fates: seq<PostFate>, n: nat) {
    forall i | 0 <= i < n :: WindowFate(fates, i).postOk && WindowFate(fates, i).saveOk
  }

  lemma {:induction false} BackfillCounts(
      w: World, tenant: Tenant, s: Settings, conv: ConversationRow, window: seq<Message>, fates: seq<PostFate>,
      m: MsgId)
    requires forall i, j | 0 <= i < j < |window| :: window[i].id != window[j].id
    requires AllPosted(fates, |window|)
    ensures var w' := Backfill(w, tenant, s, conv, window, fates);
            && Posts(w'.log, tenant, m) == Posts(w.log, tenant, m) + (if InWindow(window, m) then 1 else 0)
            && Unsaved(w'.log, tenant, m) == Unsaved(w.log, tenant, m)
    decreases |window|
  {
    if window != [] {
      var last := |window| - 1;
      var f := WindowFate(fates, last);
      var rest := window[..last];
      assert InWindow(window, m) == (InWindow(rest, m) || (window[last].id == m && window[last].HasContent())) by {
        if InWindow(rest, m) {
          var i :| 0 <= i < |rest| && rest[i].id == m && rest[i].HasContent();
          assert window[i] == rest[i];
        }
        if InWindow(window, m) {
          var i :| 0 <= i < |window| && window[i].id == m && window[i].HasContent();
          if i < last { assert rest[i] == window[i]; }
        }
      }
      if window[last].HasContent() {
        Logged(w, Bridged(tenant, window[last].id, w.mm.next, f.saveOk), tenant, m);
        BackfillCounts(PostMessage(w, tenant, s, conv, window[last], f), tenant, s, conv, rest, fates, m);
      } else {
        BackfillCounts(w, tenant, s, conv, rest, fates, m);
      }
    }
  }

  /** Every call the handler makes for a new message succeeds. */
  predicate Cooperates(f: IncomingFate) {
    && f.takeOk && f.lookupOk && f.ensure.lookupOk && f.ensure.fetched.Some? && f.ensure.channel.Some?
    && f.ensure.postOk && f.ensure.saveOk && f.post.postOk && f.post.saveOk
    && (f.ensure.window.Some? ==> AllPosted(f.ensure.windowFates, |f.ensure.window.value|))
  }

  /** What a caller can check beforehand: the conversation is new and its backfill would post the message too. */
  predicate Overlaps(w: World, tenant: Tenant, s: Settings, msg: Message, f: EnsureFate) {
    !Known(w, tenant, msg.conversation) && s.backfillCount > 0 && f.window.Some? && InWindow(f.window.value, msg.id)
  }

  /** With every call succeeding, a new message is posted once, and twice exactly when it overlaps the backfill. */
  lemma PostedTwiceExactlyOnOverlap(w: World, tenant: Tenant, s: Settings, msg: Message, f: IncomingFate)
    requires !IsEcho(w, msg) && !Mapped(w, tenant, msg.id) && !msg.isOld && msg.HasContent()
    requires Cooperates(f) && HonestWindow(w, tenant, msg.conversation, f.ensure)
    ensures var made := Posts(Incoming(w, tenant, s, msg, f).log, tenant, msg.id) - Posts(w.log, tenant, msg.id);
            made == if Overlaps(w, tenant, s, msg, f.ensure) then 2 else 1
    ensures Unsaved(Incoming(w, tenant, s, msg, f).log, tenant, msg.id) == Unsaved(w.log, tenant, msg.id)
  {
    var (w1, conv) := EnsureConversation(w, tenant, s, msg.conversation, f.ensure);
    if !Known(w, tenant, msg.conversation) {
      var (w0, row) := OpenConversation(w, tenant, s, f.ensure);
      Logged(w, Opened(tenant, row.value.id, row.value.root, true), tenant, msg.id);
      if s.backfillCount > 0 && f.ensure.window.Some? {
        BackfillCounts(w0, tenant, s, row.value, f.ensure.window.value, f.ensure.windowFates, msg.id);
      }
    }
    Logged(w1, Bridged(tenant, msg.id, w1.mm.next, true), tenant, msg.id);
  }
}
