/**
 The phone bridge: phone events become Mattermost posts, Mattermost posts become sends.

 Every call that leaves the daemon may fail or answer anything; what it does is a "fate" handed to the handler.
 Each handler is a function from worlds to worlds, and a method of `Bridge` that carries it out step by step on
 the shared database and server.
 */
module Bridge {
  import opened Types
  import opened Conversations
  import opened Storage
  import opened Mattermost
  import opened Delivery
  import opened Attachments

  datatype Settings = Settings(
    bot: UserId, threadMode: bool, postDeliveryStatus: bool, backfillCount: int, codes: StatusCodes)

  // What the bridge has done, in order.  `saved` and `recorded` say whether the row that should follow the action
  // was stored.
  datatype Action =
    | Opened(tenant: Tenant, conversation: ConvId, post: PostId, saved: bool)
    | Bridged(tenant: Tenant, message: MsgId, post: PostId, saved: bool)
    | Sent(tenant: Tenant, conversation: ConvId, about: PostId, tmp: TmpId, replyTo: Option<MsgId>, text: string,
           files: seq<string>, recorded: bool)
    | Refused(tenant: Tenant, conversation: ConvId, about: PostId)
    | Noticed(tenant: Tenant, about: PostId, post: PostId)
    | Acknowledged(tenant: Tenant, tmp: TmpId, message: MsgId, post: PostId, saved: bool)
    | GaveUp(tenant: Tenant, tmps: set<TmpId>)

  datatype World = World(db: Tables, mm: Server, nextTmp: nat, log: seq<Action>) {
    function Log(a: Action): World { this.(log := log + [a]) }
  }

  const EmptyWorld := World(Tables(map[], map[], map[]), Server(map[], 1, map[]), 0, [])

  // ----- fates -----

  // `head` is the first line of a post: who wrote the message and what carried it.
  datatype PostFate = PostFate(head: string, media: seq<MediaFate>, postOk: bool, saveOk: bool)

  datatype EnsureFate = EnsureFate(
    lookupOk: bool, fetched: Option<PhoneConversation>, channel: Option<ChannelId>, header: string, postOk: bool,
    saveOk: bool, now: int, window: Option<seq<Message>>, windowFates: seq<PostFate>)

  datatype StatusFate = StatusFate(updateOk: bool, unreactOk: bool, reactOk: bool)

  datatype IncomingFate = IncomingFate(
    takeOk: bool, ackSaveOk: bool, lookupOk: bool, status: StatusFate, ensure: EnsureFate, post: PostFate,
    touchOk: bool)

  datatype OutgoingFate = OutgoingFate(
    lookupOk: bool, replyOk: bool, filesOk: bool, sendOk: bool, recordOk: bool, now: int, reactOk: bool,
    noticeOk: bool, notice: string)

  datatype UpdateFate = UpdateFate(lookupOk: bool, saveOk: bool)

  // ----- one message, one post -----

  /** The post a message becomes: its text, its files, and a note for each attachment that is missing. */
  function MessagePost(conv: ConversationRow, msg: Message, f: PostFate): NewPost {
    NewPost(conv.channel, conv.root, FormatMessage(f.head, msg.subject, msg.text, Notes(Phone, msg.media, f.media)),
            Files(Phone, msg.media, f.media), map[])
  }

  function PostMessage(w: World, tenant: Tenant, s: Settings, conv: ConversationRow, msg: Message, f: PostFate): World {
    if !f.postOk then w
    else
      var w1 := w.(mm := w.mm.Add(AsPosted(MessagePost(conv, msg, f), s.bot)));
      var row := MessageRow(w.mm.next, conv.id, if msg.isFromMe then Out else In, msg.status, msg.timestamp);
      var w2 := if f.saveOk then w1.(db := SaveMessage(w1.db, tenant, msg.id, row)) else w1;
      w2.Log(Bridged(tenant, msg.id, w.mm.next, f.saveOk))
  }

  function WindowFate(fates: seq<PostFate>, i: nat): PostFate {
    if i < |fates| then fates[i] else PostFate("", [], false, false)
  }

  /** Posts a window fetched newest first, from its oldest message on, until one cannot be posted or recorded. */
  function Backfill(
      w: World, tenant: Tenant, s: Settings, conv: ConversationRow, window: seq<Message>, fates: seq<PostFate>): World
    decreases |window|
  {
    if window == [] then w
    else
      var last := |window| - 1;
      var f := WindowFate(fates, last);
      if !window[last].HasContent() then Backfill(w, tenant, s, conv, window[..last], fates)
      else
        var w1 := PostMessage(w, tenant, s, conv, window[last], f);
        if f.postOk && f.saveOk then Backfill(w1, tenant, s, conv, window[..last], fates) else w1
  }

  // ----- conversations -----

  function RowFor(conv: PhoneConversation, channel: ChannelId, root: PostId, now: int): ConversationRow {
    ConversationRow(conv.id, channel, root, conv.Title(), conv.isGroup, conv.outgoingId, conv.kind, conv.sendMode,
                    now, conv.participants)
  }

  predicate Known(w: World, tenant: Tenant, id: ConvId) { (tenant, id) in w.db.conversations }

  /** The row a conversation not bridged yet would be stored with. */
  function NewRow(w: World, s: Settings, f: EnsureFate): ConversationRow
    requires f.fetched.Some? && f.channel.Some?
  {
    RowFor(f.fetched.value, f.channel.value, if s.threadMode then w.mm.next else NO_POST, f.now)
  }

  /** Routing and the thread header of a conversation not bridged yet; nothing is stored when any part fails. */
  function OpenConversation(w: World, tenant: Tenant, s: Settings, f: EnsureFate): (World, Option<ConversationRow>) {
    if f.fetched.None? || f.channel.None? || (s.threadMode && !f.postOk) then (w, None)
    else
      var row := NewRow(w, s, f);
      var header := NewPost(row.channel, NO_POST, f.header, [], map[]);
      var w1 := if s.threadMode then w.(mm := w.mm.Add(AsPosted(header, s.bot))) else w;
      if f.saveOk
      then (w1.(db := SaveConversation(w1.db, tenant, row)).Log(Opened(tenant, row.id, row.root, true)), Some(row))
      else (w1.Log(Opened(tenant, row.id, row.root, false)), None)
  }

  function EnsureConversation(
      w: World, tenant: Tenant, s: Settings, id: ConvId, f: EnsureFate): (World, Option<ConversationRow>) {
    if !f.lookupOk then (w, None)
    else if Known(w, tenant, id) then (w, Some(ConversationAt(w.db, tenant, id)))
    else
      var (w1, row) := OpenConversation(w, tenant, s, f);
      if row.None? || s.backfillCount <= 0 || f.window.None? then (w1, row)
      else (Backfill(w1, tenant, s, row.value, f.window.value, f.windowFates), row)
  }

  /** A conversation already bridged follows the phone's metadata; it is never moved. */
  function ConversationUpdate(w: World, tenant: Tenant, conv: PhoneConversation, f: UpdateFate): World {
    if !f.lookupOk || !Known(w, tenant, conv.id) || !f.saveOk then w
    else
      w.(db := SaveConversation(w.db, tenant, Updated(ConversationAt(w.db, tenant, conv.id), conv)))
  }

  function Updated(row: ConversationRow, conv: PhoneConversation): ConversationRow {
    row.(displayName := conv.Title(), isGroup := conv.isGroup, kind := conv.kind, sendMode := conv.sendMode,
         outgoingId := if conv.outgoingId != "" then conv.outgoingId else row.outgoingId,
         participants := if conv.participants != [] then conv.participants else row.participants)
  }

  // ----- delivery state -----

  function ApplyDeliveryStatus(
      w: World, s: Settings, post: PostId, newStatus: int, oldStatus: int, f: StatusFate): World {
    var shown := StatusEmoji(s.codes, newStatus);
    var stale := StatusEmoji(s.codes, oldStatus);
    if !s.postDeliveryStatus || post == NO_POST || shown == stale then w
    else
      var w1 := if stale != "" && f.unreactOk then w.(mm := w.mm.Unreact(post, s.bot, stale)) else w;
      if shown != "" && f.reactOk then w1.(mm := w1.mm.React(post, s.bot, shown)) else w1
  }

  function StatusUpdate(w: World, tenant: Tenant, s: Settings, known: MessageRow, msg: Message, f: StatusFate): World {
    if !f.updateOk || !StatusChanges(w.db, tenant, msg.id, msg.status) then w
    else
      ApplyDeliveryStatus(w.(db := UpdateMessageStatus(w.db, tenant, msg.id, msg.status)), s, known.post, msg.status,
                          known.status, f)
  }

  // ----- phone to Mattermost -----

  predicate IsEcho(w: World, msg: Message) { msg.tmpId != NoTmp && msg.tmpId in w.db.pending }

  function Acknowledge(w: World, tenant: Tenant, s: Settings, msg: Message, f: IncomingFate): World
    requires IsEcho(w, msg)
  {
    var post := w.db.pending[msg.tmpId].post;
    var w1 := w.(db := TakePendingOutbound(w.db, msg.tmpId));
    var entry := Acknowledged(tenant, msg.tmpId, msg.id, post, f.ackSaveOk);
    if !f.ackSaveOk then w1.Log(entry)
    else
      var row := MessageRow(post, msg.conversation, Out, msg.status, msg.timestamp);
      ApplyDeliveryStatus(w1.(db := SaveMessage(w1.db, tenant, msg.id, row)).Log(entry), s, post, msg.status, 0,
        f.status)
  }

  /** A message the bridge has never seen. */
  function BridgeNew(w: World, tenant: Tenant, s: Settings, msg: Message, f: IncomingFate): World {
    if msg.isOld || !msg.HasContent() then w
    else
      var (w1, conv) := EnsureConversation(w, tenant, s, msg.conversation, f.ensure);
      if conv.None? then w1
      else
        var w2 := PostMessage(w1, tenant, s, conv.value, msg, f.post);
        if f.post.postOk && f.post.saveOk && f.touchOk
        then w2.(db := TouchConversation(w2.db, tenant, conv.value.id, msg.timestamp))
        else w2
  }

  function Incoming(w: World, tenant: Tenant, s: Settings, msg: Message, f: IncomingFate): World {
    if msg.tmpId != NoTmp && !f.takeOk then w
    else if IsEcho(w, msg) then Acknowledge(w, tenant, s, msg, f)
    else if !f.lookupOk then w
    else if (tenant, msg.id) in w.db.messages
    then StatusUpdate(w, tenant, s, w.db.messages[(tenant, msg.id)], msg, f.status)
    else BridgeNew(w, tenant, s, msg, f)
  }

  // ----- Mattermost to phone -----

  /** Which conversation a post is meant for: its thread's, or the only one in its channel. */
  predicate IsTarget(t: Tables, tenant: Tenant, s: Settings, id: PostId, post: Post, target: Option<ConvId>) {
    if s.threadMode then AnswersRoot(t, tenant, post.ThreadRoot(id), target)
    else AnswersChannel(t, tenant, post.channel, target)
  }

  /** What message a post quotes: none when it answers the conversation's own root. */
  predicate IsReplyTarget(t: Tables, tenant: Tenant, post: Post, root: PostId, reply: Option<MsgId>) {
    if post.root == NO_POST || post.root == root then reply == None
    else AnswersPost(t, tenant, post.root, reply)
  }

  function ReportSendFailure(
      w: World, tenant: Tenant, s: Settings, conversation: ConvId, id: PostId, post: Post, f: OutgoingFate): World {
    var w1 := if s.postDeliveryStatus && f.reactOk then w.(mm := w.mm.React(id, s.bot, EMOJI_FAILED)) else w;
    var w2 := w1.Log(Refused(tenant, conversation, id));
    if !f.noticeOk then w2
    else
      var notice := NewPost(post.channel, post.ThreadRoot(id), f.notice, [], map[]);
      w2.(mm := w2.mm.Add(AsPosted(notice, s.bot))).Log(Noticed(tenant, id, w2.mm.next))
  }

  /** A post that reached the bridge; `target` and `reply` are the answers of the two lookups. */
  function OutgoingPost(
      w: World, tenant: Tenant, s: Settings, id: PostId, post: Post, target: Option<ConvId>, reply: Option<MsgId>,
      f: OutgoingFate): World
  {
    if !f.lookupOk || target.None? || post.Blank() || (post.files != [] && !f.filesOk) then w
    else if !f.sendOk then ReportSendFailure(w, tenant, s, target.value, id, post, f)
    else
      var tmp := Ours(w.nextTmp);
      var replyTo := if f.replyOk then reply else None;
      var w1 := w.(nextTmp := w.nextTmp + 1).Log(
        Sent(tenant, target.value, id, tmp, replyTo, TrimSpace(post.text), post.files, f.recordOk));
      if f.recordOk then w1.(db := AddPendingOutbound(w1.db, tenant, tmp, id, target.value, f.now)) else w1
  }

  function Prune(w: World, tenant: Tenant, cutoff: int, ok: bool): World {
    if !ok then w
    else w.(db := PrunePendingOutbound(w.db, tenant, cutoff)).Log(GaveUp(tenant, Expired(w.db, tenant, cutoff)))
  }

  /** Which conversation a post is meant for, and which message it quotes there; both bridges ask alike. */
  method ConversationForPost(db: Database, tenant: Tenant, s: Settings, id: PostId, post: Post)
    returns (conv: Option<ConvId>, quoted: Option<MsgId>)
    ensures IsTarget(db.Contents(), tenant, s, id, post, conv)
    ensures conv.Some? ==>
      (tenant, conv.value) in db.conversations
      && IsReplyTarget(db.Contents(), tenant, post, db.conversations[(tenant, conv.value)].root, quoted)
  {
    quoted := None;
    if s.threadMode {
      conv := db.GetByRootPost(tenant, post.ThreadRoot(id));
    } else {
      conv := db.GetSoleInChannel(tenant, post.channel);
    }
    if conv.None? { return; }
    assert (tenant, conv.value) in db.conversations by {
      if !s.threadMode { assert conv.value in InChannel(db.Contents(), tenant, post.channel); }
    }
    if post.root != NO_POST && post.root != db.conversations[(tenant, conv.value)].root {
      quoted := db.GetByPost(tenant, post.root);
    }
  }

  // ----- the bridge itself -----

  /** The daemon-wide record of what was done, and the source of fresh temporary identifiers. */
  class Journal {
    var nextTmp: nat
    ghost var log: seq<Action>

    constructor ()
      ensures nextTmp == 0 && log == []
    {
      nextTmp, log := 0, [];
    }
  }

  class PhoneBridge {
    const tenant: Tenant
    const s: Settings
    const db: Database
    const mm: Client
    const journal: Journal

    constructor (tenant: Tenant, s: Settings, db: Database, mm: Client, journal: Journal)
      ensures this.tenant == tenant && this.s == s && this.db == db && this.mm == mm && this.journal == journal
    {
      this.tenant, this.s, this.db, this.mm, this.journal := tenant, s, db, mm, journal;
    }

    ghost function View(): World
      reads db, mm, journal
    {
      World(db.Contents(), mm.View(), journal.nextTmp, journal.log)
    }

    method TransferAttachments(
        media: seq<Media>, fates: seq<MediaFate>) returns (files: seq<string>, notes: seq<string>)
      ensures files == Files(Phone, media, fates)
      ensures notes == Notes(Phone, media, fates)
    {
      files, notes := [], [];
      for i := 0 to |media|
        invariant files == Files(Phone, media[..i], fates)
        invariant notes == Notes(Phone, media[..i], fates)
      {
        OneMore(Phone, media, fates, i);
        if media[i].Pending() {
          notes := notes + [PendingNote(media[i])];
          continue;
        }
        var fate := FateOf(fates, i);
        if fate.NotFetched? {
          notes := notes + [FetchNote(Phone, media[i])];
          continue;
        }
        if fate.NotUploaded? {
          notes := notes + [UploadNote(media[i])];
          continue;
        }
        if fate.thumbnail {
          notes := notes + [ThumbnailNote(media[i])];
        }
        files := files + [fate.file];
      }
      assert media[..|media|] == media;
    }

    method PostOne(conv: ConversationRow, msg: Message, f: PostFate) returns (ok: bool)
      modifies db, mm, journal
      ensures View() == PostMessage(old(View()), tenant, s, conv, msg, f)
      ensures ok == (f.postOk && f.saveOk)
    {
      var files, notes := TransferAttachments(msg.media, f.media);
      var text := Format(f.head, msg.subject, msg.text, notes);
      var post := mm.CreatePost(NewPost(conv.channel, conv.root, text, files, map[]), s.bot, f.postOk);
      if post.None? { return false; }
      var direction := if msg.isFromMe then Out else In;
      if f.saveOk {
        db.Save(tenant, msg.id, MessageRow(post.value, conv.id, direction, msg.status, msg.timestamp));
      }
      journal.log := journal.log + [Bridged(tenant, msg.id, post.value, f.saveOk)];
      ok := f.saveOk;
    }

    method BackfillWindow(conv: ConversationRow, window: seq<Message>, fates: seq<PostFate>)
      modifies db, mm, journal
      ensures View() == Backfill(old(View()), tenant, s, conv, window, fates)
    {
      var i := |window|;
      assert window[..i] == window;
      while i > 0
        invariant 0 <= i <= |window|
        invariant Backfill(View(), tenant, s, conv, window[..i], fates)
                  == Backfill(old(View()), tenant, s, conv, window, fates)
      {
        assert window[..i][..i - 1] == window[..i - 1];
        i := i - 1;
        if window[i].HasContent() {
          var ok := PostOne(conv, window[i], WindowFate(fates, i));
          if !ok { return; }
        }
      }
    }

    method Ensure(id: ConvId, f: EnsureFate) returns (row: Option<ConversationRow>)
      modifies db, mm, journal
      ensures (View(), row) == EnsureConversation(old(View()), tenant, s, id, f)
    {
      if !f.lookupOk { return None; }
      var stored := db.GetConv(tenant, id);
      if stored.Some? { return stored; }
      if f.fetched.None? { return None; }
      if f.channel.None? { return None; }
      var conv := f.fetched.value;
      var unseen := RowFor(conv, f.channel.value, NO_POST, f.now);
      if s.threadMode {
        var root := mm.CreatePost(NewPost(f.channel.value, NO_POST, f.header, [], map[]), s.bot, f.postOk);
        if root.None? { return None; }
        unseen := unseen.(root := root.value);
      }
      journal.log := journal.log + [Opened(tenant, conv.id, unseen.root, f.saveOk)];
      if !f.saveOk { return None; }
      db.SaveConv(tenant, unseen);
      if s.backfillCount > 0 && f.window.Some? {
        BackfillWindow(unseen, f.window.value, f.windowFates);
      }
      row := Some(unseen);
    }

    method ShowStatus(post: PostId, newStatus: int, oldStatus: int, f: StatusFate)
      modifies mm
      ensures View() == ApplyDeliveryStatus(old(View()), s, post, newStatus, oldStatus, f)
    {
      if !s.postDeliveryStatus || post == NO_POST { return; }
      var shown := StatusEmoji(s.codes, newStatus);
      var stale := StatusEmoji(s.codes, oldStatus);
      if shown == stale { return; }
      if stale != "" && f.unreactOk { mm.Unreact(post, s.bot, stale); }
      if shown == "" { return; }
      if f.reactOk { mm.React(post, s.bot, shown); }
    }

    method HandleStatusUpdate(known: MessageRow, msg: Message, f: StatusFate)
      modifies db, mm
      ensures View() == StatusUpdate(old(View()), tenant, s, known, msg, f)
    {
      if !f.updateOk { return; }
      var changed := db.UpdateStatus(tenant, msg.id, msg.status);
      if !changed { return; }
      ShowStatus(known.post, msg.status, known.status, f);
    }

    method HandleIncomingMessage(msg: Message, f: IncomingFate)
      modifies db, mm, journal
      ensures View() == Incoming(old(View()), tenant, s, msg, f)
    {
      if msg.tmpId != NoTmp && !f.takeOk { return; }
      var post := db.TakePending(msg.tmpId);
      if post.Some? {
        journal.log := journal.log + [Acknowledged(tenant, msg.tmpId, msg.id, post.value, f.ackSaveOk)];
        if !f.ackSaveOk { return; }
        db.Save(tenant, msg.id, MessageRow(post.value, msg.conversation, Out, msg.status, msg.timestamp));
        ShowStatus(post.value, msg.status, 0, f.status);
        return;
      }
      if !f.lookupOk { return; }
      var known := db.Get(tenant, msg.id);
      if known.Some? {
        HandleStatusUpdate(known.value, msg, f.status);
        return;
      }
      if msg.isOld || !msg.HasContent() { return; }
      var conv := Ensure(msg.conversation, f.ensure);
      if conv.None? { return; }
      var ok := PostOne(conv.value, msg, f.post);
      if !ok { return; }
      if f.touchOk { db.Touch(tenant, conv.value.id, msg.timestamp); }
    }

    method HandleConversationUpdate(conv: PhoneConversation, f: UpdateFate)
      modifies db
      ensures View() == ConversationUpdate(old(View()), tenant, conv, f)
    {
      if !f.lookupOk { return; }
      var found := db.GetConv(tenant, conv.id);
      if found.None? { return; }
      var stored := found.value.(displayName := conv.Title(), isGroup := conv.isGroup, kind := conv.kind,
        sendMode := conv.sendMode);
      if conv.outgoingId != "" { stored := stored.(outgoingId := conv.outgoingId); }
      if conv.participants != [] { stored := stored.(participants := conv.participants); }
      if !f.saveOk { return; }
      db.SaveConv(tenant, stored);
    }

    method HandleOutgoingPost(
        id: PostId, post: Post, f: OutgoingFate) returns (ghost target: Option<ConvId>, ghost reply: Option<MsgId>)
      modifies db, mm, journal
      ensures IsTarget(old(db.Contents()), tenant, s, id, post, target)
      ensures target.Some? ==>
        (tenant, target.value) in old(db.conversations)
        && IsReplyTarget(old(db.Contents()), tenant, post, old(db.conversations)[(tenant, target.value)].root, reply)
      ensures View() == OutgoingPost(old(View()), tenant, s, id, post, target, reply, f)
    {
      var conv, quoted := ConversationForPost(db, tenant, s, id, post);
      target, reply := conv, quoted;
      if !f.lookupOk || conv.None? || post.Blank() { return; }
      if post.files != [] && !f.filesOk { return; }
      if !f.sendOk {
        TellTheSender(conv.value, id, post, f);
        return;
      }
      var tmp := Ours(journal.nextTmp);
      journal.nextTmp := journal.nextTmp + 1;
      var replyTo := if f.replyOk then quoted else None;
      var text := TrimSpace(post.text);
      journal.log := journal.log + [Sent(tenant, conv.value, id, tmp, replyTo, text, post.files, f.recordOk)];
      if f.recordOk { db.AddPending(tenant, tmp, id, conv.value, f.now); }
    }

    method TellTheSender(conversation: ConvId, id: PostId, post: Post, f: OutgoingFate)
      modifies mm, journal
      ensures View() == ReportSendFailure(old(View()), tenant, s, conversation, id, post, f)
    {
      if s.postDeliveryStatus && f.reactOk { mm.React(id, s.bot, EMOJI_FAILED); }
      journal.log := journal.log + [Refused(tenant, conversation, id)];
      var notice := mm.CreatePost(NewPost(post.channel, post.ThreadRoot(id), f.notice, [], map[]), s.bot, f.noticeOk);
      if notice.Some? { journal.log := journal.log + [Noticed(tenant, id, notice.value)]; }
    }

    method PrunePendingOutbound(cutoff: int, ok: bool)
      modifies db, journal
      ensures View() == Prune(old(View()), tenant, cutoff, ok)
    {
      if !ok { return; }
      var dropped := db.PrunePending(tenant, cutoff);
      journal.log := journal.log + [GaveUp(tenant, dropped)];
    }
  }
}
