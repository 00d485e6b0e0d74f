/**
 The generic bridge: the same two directions without echoes, delivery states or backfill, because the transport
 answers a send with the real message identifier at once.
 */
module Corebridge {
  import opened Types
  import opened Storage
  import opened Mattermost
  import opened Attachments
  import opened Bridge

  // `head` is the first line of the post: who wrote the message.
  datatype ArrivalFate = ArrivalFate(
    lookupOk: bool, ensure: EnsureFate, head: string, media: seq<MediaFate>, postOk: bool, saveOk: bool, touchOk: bool)

  // `sent` is the identifier and time the transport answers a send with, or nothing when the send fails.
  datatype DepartureFate = DepartureFate(
    lookupOk: bool, replyOk: bool, filesOk: bool, sent: Option<(MsgId, int)>, saveOk: bool, noticeOk: bool,
    notice: string)

  function EnsureGeneric(
      w: World, tenant: Tenant, s: Settings, id: ConvId, f: EnsureFate): (World, Option<ConversationRow>) {
    if !f.lookupOk then (w, None)
    else if Known(w, tenant, id) then (w, Some(ConversationAt(w.db, tenant, id)))
    else OpenConversation(w, tenant, s, f)
  }

  /** The post a message becomes; unlike the phone bridge's it shows no subject. */
  function ArrivalPost(conv: ConversationRow, msg: Message, f: ArrivalFate): NewPost {
    NewPost(conv.channel, conv.root, FormatMessage(f.head, "", msg.text, Notes(Transport, msg.media, f.media)),
            Files(Transport, msg.media, f.media), map[])
  }

  function PostArrival(
      w: World, tenant: Tenant, s: Settings, conv: ConversationRow, msg: Message, f: ArrivalFate): World {
    if !f.postOk then w
    else
      var w1 := w.(mm := w.mm.Add(AsPosted(ArrivalPost(conv, msg, f), s.bot)));
      var row := MessageRow(w.mm.next, conv.id, if msg.isFromMe then Out else In, 0, msg.timestamp);
      var w2 := if f.saveOk then w1.(db := SaveMessage(w1.db, tenant, msg.id, row)) else w1;
      w2.Log(Bridged(tenant, msg.id, w.mm.next, f.saveOk))
  }

  function Arrival(w: World, tenant: Tenant, s: Settings, msg: Message, f: ArrivalFate): World {
    if !f.lookupOk || (tenant, msg.id) in w.db.messages || !msg.HasContent() then w
    else
      var (w1, conv) := EnsureGeneric(w, tenant, s, msg.conversation, f.ensure);
      if conv.None? then w1
      else
        var w2 := PostArrival(w1, tenant, s, conv.value, msg, f);
        if f.postOk && f.saveOk && f.touchOk
        then w2.(db := TouchConversation(w2.db, tenant, conv.value.id, msg.timestamp))
        else w2
  }

  function ReportFailure(
      w: World, tenant: Tenant, s: Settings, conversation: ConvId, id: PostId, post: Post, f: DepartureFate): World {
    var w1 := w.Log(Refused(tenant, conversation, id));
    if !f.noticeOk then w1
    else
      var notice := NewPost(post.channel, post.ThreadRoot(id), f.notice, [], map[]);
      w1.(mm := w1.mm.Add(AsPosted(notice, s.bot))).Log(Noticed(tenant, id, w1.mm.next))
  }

  function Departure(
      w: World, tenant: Tenant, s: Settings, id: PostId, post: Post, target: Option<ConvId>, reply: Option<MsgId>,
      f: DepartureFate): World
  {
    if !f.lookupOk || target.None? || post.Blank() || (post.files != [] && !f.filesOk) then w
    else if f.sent.None? then ReportFailure(w, tenant, s, target.value, id, post, f)
    else
      var replyTo := if f.replyOk then reply else None;
      var w1 := w.Log(Sent(tenant, target.value, id, NoTmp, replyTo, TrimSpace(post.text), post.files, f.saveOk));
      if f.saveOk
      then w1.(db := SaveMessage(w1.db, tenant, f.sent.value.0, MessageRow(id, target.value, Out, 0, f.sent.value.1)))
      else w1
  }

  class TransportBridge {
    const tenant: Tenant
    const s: Settings
    const db: Database
    const mm: Client
    const journal: Journal

    constructor (tenant: Tenant, s: Settings, db: Database, mm: Client, journal: Journal)
      ensures this.tenant == tenant && this.s == s && this.db == db && this.mm == mm && this.journal == journal
    {
      this.tenant, this.s, this.db, this.mm, this.journal := tenant, s, db, mm, journal;
    }

    ghost function View(): World
      reads db, mm, journal
    {
      World(db.Contents(), mm.View(), journal.nextTmp, journal.log)
    }

    method Ensure(id: ConvId, f: EnsureFate) returns (row: Option<ConversationRow>)
      modifies db, mm, journal
      ensures (View(), row) == EnsureGeneric(old(View()), tenant, s, id, f)
    {
      if !f.lookupOk { return None; }
      var stored := db.GetConv(tenant, id);
      if stored.Some? { return stored; }
      if f.fetched.None? || f.channel.None? { return None; }
      var conv := f.fetched.value;
      var unseen := RowFor(conv, f.channel.value, NO_POST, f.now);
      if s.threadMode {
        var root := mm.CreatePost(NewPost(f.channel.value, NO_POST, f.header, [], map[]), s.bot, f.postOk);
        if root.None? { return None; }
        unseen := unseen.(root := root.value);
      }
      journal.log := journal.log + [Opened(tenant, conv.id, unseen.root, f.saveOk)];
      if !f.saveOk { return None; }
      db.SaveConv(tenant, unseen);
      row := Some(unseen);
    }

    method TransferAttachments(
        media: seq<Media>, fates: seq<MediaFate>) returns (files: seq<string>, notes: seq<string>)
      ensures files == Files(Transport, media, fates)
      ensures notes == Notes(Transport, media, fates)
    {
      files, notes := [], [];
      for i := 0 to |media|
        invariant files == Files(Transport, media[..i], fates)
        invariant notes == Notes(Transport, media[..i], fates)
      {
        OneMore(Transport, media, fates, i);
        var fate := FateOf(fates, i);
        if fate.NotFetched? {
          notes := notes + [FetchNote(Transport, media[i])];
          continue;
        }
        if fate.NotUploaded? {
          notes := notes + [UploadNote(media[i])];
          continue;
        }
        files := files + [fate.file];
      }
      assert media[..|media|] == media;
    }

    method HandleIncomingMessage(msg: Message, f: ArrivalFate)
      modifies db, mm, journal
      ensures View() == Arrival(old(View()), tenant, s, msg, f)
    {
      if !f.lookupOk { return; }
      var known := db.Get(tenant, msg.id);
      if known.Some? || !msg.HasContent() { return; }
      var conv := Ensure(msg.conversation, f.ensure);
      if conv.None? { return; }
      var row := conv.value;
      var files, notes := TransferAttachments(msg.media, f.media);
      var text := Format(f.head, "", msg.text, notes);
      var post := mm.CreatePost(NewPost(row.channel, row.root, text, files, map[]), s.bot, f.postOk);
      if post.None? { return; }
      var direction := if msg.isFromMe then Out else In;
      if f.saveOk { db.Save(tenant, msg.id, MessageRow(post.value, row.id, direction, 0, msg.timestamp)); }
      journal.log := journal.log + [Bridged(tenant, msg.id, post.value, f.saveOk)];
      if f.saveOk && f.touchOk { db.Touch(tenant, row.id, msg.timestamp); }
    }

    method HandleOutgoingPost(
        id: PostId, post: Post, f: DepartureFate) returns (ghost target: Option<ConvId>, ghost reply: Option<MsgId>)
      modifies db, mm, journal
      ensures IsTarget(old(db.Contents()), tenant, s, id, post, target)
      ensures target.Some? ==>
        (tenant, target.value) in old(db.conversations)
        && IsReplyTarget(old(db.Contents()), tenant, post, old(db.conversations)[(tenant, target.value)].root, reply)
      ensures View() == Departure(old(View()), tenant, s, id, post, target, reply, f)
    {
      var conv, quoted := ConversationForPost(db, tenant, s, id, post);
      target, reply := conv, quoted;
      if !f.lookupOk || conv.None? || post.Blank() || (post.files != [] && !f.filesOk) { return; }
      if f.sent.None? {
        journal.log := journal.log + [Refused(tenant, conv.value, id)];
        var notice := mm.CreatePost(NewPost(post.channel, post.ThreadRoot(id), f.notice, [], map[]), s.bot, f.noticeOk);
        if notice.Some? { journal.log := journal.log + [Noticed(tenant, id, notice.value)]; }
        return;
      }
      var replyTo := if f.replyOk then quoted else None;
      var text := TrimSpace(post.text);
      journal.log := journal.log + [Sent(tenant, conv.value, id, NoTmp, replyTo, text, post.files, f.saveOk)];
      if f.saveOk { db.Save(tenant, f.sent.value.0, MessageRow(id, conv.value, Out, 0, f.sent.value.1)); }
    }
  }
}
