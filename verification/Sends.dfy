/**
 What a person's post comes to.  Nothing here speaks of how the bridges work it out: only of the post, the tables, what
 the calls answered, and what was done.
 */
module Sends {
  import opened Types
  import opened Storage
  import opened Mattermost
  import opened Bridge
  import opened Corebridge
  import opened Runs
  import opened Placement

  // ----- what is looked up, and which calls work -----

  /** Neither the bot, nor any bridge, nor the server wrote it. */
  predicate ByPerson(post: Post, bot: UserId) { post.user != bot && "msggw" !in post.props && post.kind == "" }

  /** The post `p` is in the conversation's thread, or in the channel that is its alone among the tenant's. */
  ghost predicate Meant(w: World, threads: bool, t: Tenant, c: ConvId, p: PostId)
    requires p in w.mm.posts
  {
    && (t, c) in w.db.conversations
    && var conv, post := w.db.conversations[(t, c)], w.mm.posts[p];
       if threads then conv.root != 0 && conv.root == if post.root != 0 then post.root else p
       else conv.channel == post.channel
            && forall k | k in w.db.conversations && k.0 == t && w.db.conversations[k].channel == post.channel ::
                 k.1 == c
  }

  /** Some message of the tenant stands for the post. */
  ghost predicate StoodFor(w: World, t: Tenant, p: PostId) {
    exists k :: k in w.db.messages && k.0 == t && w.db.messages[k].post == p
  }

  predicate SaysSomething(post: Post) { post.files != [] || exists i :: 0 <= i < |post.text| && !White(post.text[i]) }

  predicate LookupWorks(e: Event)
    requires e.IsPost()
  {
    if e.PostToPhone? then e.out.lookupOk else e.departure.lookupOk
  }

  predicate ReplyWorks(e: Event)
    requires e.IsPost()
  {
    if e.PostToPhone? then e.out.replyOk else e.departure.replyOk
  }

  predicate FilesWork(e: Event)
    requires e.IsPost()
  {
    if e.PostToPhone? then e.out.filesOk else e.departure.filesOk
  }

  predicate SendWorks(e: Event)
    requires e.IsPost()
  {
    if e.PostToPhone? then e.out.sendOk else e.departure.sent.Some?
  }

  /** The post is a person's, has something to say, is meant for somebody, and all that is needed was looked up. */
  ghost predicate IsTried(w: World, e: Event)
    requires e.IsPost() && e.post in w.mm.posts
  {
    var post := w.mm.posts[e.post];
    && ByPerson(post, e.s.bot) && SaysSomething(post) && LookupWorks(e) && (post.files == [] || FilesWork(e))
    && exists c :: Meant(w, e.s.threadMode, e.tenant, c, e.post)
  }

  // ----- when a post is sent, and to whom -----

  lemma TrimmedAway(s: string, inner: string)
    requires TrimsTo(s, inner)
    ensures inner == "" <==> forall i | 0 <= i < |s| :: White(s[i])
  {
    var before, after :| Around(s, before, inner, after);
    if inner == "" {
      forall i | 0 <= i < |s| ensures White(s[i]) {
        assert s[i] == if i < |before| then before[i] else after[i - |before|];
      }
    } else {
      assert s[|before|] == inner[0];
    }
  }

  lemma BlankExactly(post: Post)
    ensures post.Blank() <==> !SaysSomething(post)
  {
    TrimSpaceStrips(post.text);
    TrimmedAway(post.text, TrimSpace(post.text));
  }

  lemma TargetIsMeant(w: World, e: Event)
    requires e.IsPost() && Reaches(w, e) && HonestLookups(w, e)
    ensures e.target.Some? ==> Meant(w, e.s.threadMode, e.tenant, e.target.value, e.post)
    ensures e.target.None? ==> !exists c :: Meant(w, e.s.threadMode, e.tenant, c, e.post)
  {
    var post := w.mm.posts[e.post];
    if e.s.threadMode {
      InThreadMeansRooted(w, e.tenant, post.ThreadRoot(e.post), e.target);
    } else {
      AloneMeansSole(w, e.tenant, post.channel, e.target);
    }
  }

  lemma InThreadMeansRooted(w: World, t: Tenant, root: PostId, target: Option<ConvId>)
    requires AnswersRoot(w.db, t, root, target)
    ensures target.Some? ==>
      (t, target.value) in w.db.conversations && w.db.conversations[(t, target.value)].root == root != 0
    ensures target.None? ==>
      forall c | (t, c) in w.db.conversations && root != 0 :: w.db.conversations[(t, c)].root != root
  {
    forall c | target.None? && (t, c) in w.db.conversations && root != 0
      ensures w.db.conversations[(t, c)].root != root
    {
      assert c !in RootedAt(w.db, t, root);
    }
  }

  lemma AloneMeansSole(w: World, t: Tenant, channel: ChannelId, target: Option<ConvId>)
    requires AnswersChannel(w.db, t, channel, target)
    ensures target.Some? ==>
      (t, target.value) in w.db.conversations && w.db.conversations[(t, target.value)].channel == channel
      && forall k | k in w.db.conversations && k.0 == t && w.db.conversations[k].channel == channel ::
           k.1 == target.value
    ensures target.None? ==>
      !exists c :: (t, c) in w.db.conversations && w.db.conversations[(t, c)].channel == channel
        && forall k | k in w.db.conversations && k.0 == t && w.db.conversations[k].channel == channel :: k.1 == c
  {
    if target.Some? {
      assert target.value in InChannel(w.db, t, channel);
      assert forall k | k in w.db.conversations && k.0 == t && w.db.conversations[k].channel == channel ::
        k.1 in InChannel(w.db, t, channel);
    } else {
      SoleExactly(w.db, t, channel);
    }
  }

  lemma SoleExactly(d: Tables, t: Tenant, channel: ChannelId)
    ensures forall c | (t, c) in d.conversations && d.conversations[(t, c)].channel == channel
        && (forall k | k in d.conversations && k.0 == t && d.conversations[k].channel == channel :: k.1 == c) ::
      InChannel(d, t, channel) == {c}
  {
  }

  lemma PersonExactly(w: World, e: Event)
    requires e.IsPost()
    ensures Reaches(w, e) <==> e.post in w.mm.posts && ByPerson(w.mm.posts[e.post], e.s.bot)
  {
  }

  ghost predicate SendsNow(w: World, e: Event) { |w.log| < |Step(w, e).log| && Step(w, e).log[|w.log|].Sent? }

  ghost predicate RefusesNow(w: World, e: Event) { |w.log| < |Step(w, e).log| && Step(w, e).log[|w.log|].Refused? }

  /** A bridge sends a post exactly when it is tried and the send works; when it does not, that is put on record. */
  lemma SentExactly(w: World, e: Event)
    requires e.IsPost() && e.post in w.mm.posts && Honest(w, e)
    ensures SendsNow(w, e) <==> IsTried(w, e) && SendWorks(e)
    ensures RefusesNow(w, e) <==> IsTried(w, e) && !SendWorks(e)
    ensures !IsTried(w, e) ==> Step(w, e) == w
  {
    PersonExactly(w, e);
    BlankExactly(w.mm.posts[e.post]);
    if Reaches(w, e) {
      TargetIsMeant(w, e);
      if e.PostToPhone? { OutgoingExactly(w, e); } else { DepartureExactly(w, e); }
    }
  }

  lemma OutgoingExactly(w: World, e: Event)
    requires e.PostToPhone? && Reaches(w, e)
    ensures var post, f := w.mm.posts[e.post], e.out;
      var tried := f.lookupOk && e.target.Some? && !post.Blank() && (post.files == [] || f.filesOk);
      && (SendsNow(w, e) <==> tried && f.sendOk) && (RefusesNow(w, e) <==> tried && !f.sendOk)
      && (!tried ==> Step(w, e) == w)
  {
  }

  lemma DepartureExactly(w: World, e: Event)
    requires e.PostToTransport? && Reaches(w, e)
    ensures var post, f := w.mm.posts[e.post], e.departure;
      var tried := f.lookupOk && e.target.Some? && !post.Blank() && (post.files == [] || f.filesOk);
      && (SendsNow(w, e) <==> tried && f.sent.Some?) && (RefusesNow(w, e) <==> tried && f.sent.None?)
      && (!tried ==> Step(w, e) == w)
  {
  }

  // ----- what is sent -----

  /**
   The send says what was written, without the white space around it and with its files, to the conversation it is
   meant for.  It quotes exactly when the look-up of the quoted message worked, the post answers something other than
   the conversation's own root, and a message stands for what it answers; and that message is what it quotes.
   */
  ghost predicate AsWritten(w: World, e: Event, a: Action)
    requires e.IsPost() && e.post in w.mm.posts && a.Sent?
  {
    var post := w.mm.posts[e.post];
    && a.tenant == e.tenant && a.about == e.post && Meant(w, e.s.threadMode, a.tenant, a.conversation, e.post)
    && TrimsTo(post.text, a.text) && a.files == post.files
    && (a.replyTo.Some? <==>
          ReplyWorks(e) && post.root != 0 && post.root != w.db.conversations[(a.tenant, a.conversation)].root
          && StoodFor(w, a.tenant, post.root))
    && (a.replyTo.Some? ==>
          (a.tenant, a.replyTo.value) in w.db.messages && w.db.messages[(a.tenant, a.replyTo.value)].post == post.root)
  }

  /** What is kept of a send: on the phone that it waits for its echo, and otherwise the mapping at once. */
  ghost predicate Kept(w: World, w': World, e: Event, a: Action)
    requires e.IsPost() && a.Sent?
  {
    w'.mm == w.mm
    && if e.PostToPhone? then
         && a.tmp == Ours(w.nextTmp) && a.recorded == e.out.recordOk
         && w'.db == if a.recorded then w.db.(pending :=
              w.db.pending[a.tmp := PendingRow(e.tenant, e.post, a.conversation, e.out.now)]) else w.db
       else
         && e.departure.sent.Some? && a.recorded == e.departure.saveOk
         && (!a.recorded ==> w'.db == w.db)
         && (a.recorded ==>
               var k := (e.tenant, e.departure.sent.value.0);
               && k in w'.db.messages && w'.db.messages[k].post == e.post
               && w'.db.messages[k].conversation == a.conversation && w'.db.messages[k].direction == Out
               && w'.db == w.db.(messages := w.db.messages[k := w'.db.messages[k]]))
  }

  lemma ReplyIsStood(w: World, t: Tenant, post: Post, root: PostId, reply: Option<MsgId>)
    requires IsReplyTarget(w.db, t, post, root, reply)
    ensures reply.Some? <==> post.root != 0 && post.root != root && StoodFor(w, t, post.root)
    ensures reply.Some? ==> (t, reply.value) in w.db.messages && w.db.messages[(t, reply.value)].post == post.root
  {
    if post.root != 0 { StandingExactly(w, t, post.root); }
    if post.root != 0 && post.root != root && reply.Some? {
      assert reply.value in StandingFor(w.db, t, post.root);
      assert (t, reply.value) in w.db.messages;
    }
  }

  lemma StandingExactly(w: World, t: Tenant, p: PostId)
    requires p != 0
    ensures StandingFor(w.db, t, p) == {} <==> !StoodFor(w, t, p)
  {
    if k :| k in w.db.messages && k.0 == t && w.db.messages[k].post == p { assert k.1 in StandingFor(w.db, t, p); }
  }

  lemma SentAsWritten(w: World, e: Event)
    requires Stored(w) && e.IsPost() && e.post in w.mm.posts && Honest(w, e) && SendsNow(w, e)
    ensures AsWritten(w, e, Step(w, e).log[|w.log|]) && Kept(w, Step(w, e), e, Step(w, e).log[|w.log|])
    ensures |Step(w, e).log| == |w.log| + 1
  {
    PersonExactly(w, e);
    TargetIsMeant(w, e);
    if e.PostToPhone? { OutgoingExactly(w, e); } else { DepartureExactly(w, e); }
    var post := w.mm.posts[e.post];
    TrimSpaceStrips(post.text);
    if e.PostToPhone? { PhoneKeeps(w, e); } else { TransportKeeps(w, e); }
    LookupsAreRight(w, e, Step(w, e).log[|w.log|]);
  }

  lemma LookupsAreRight(w: World, e: Event, a: Action)
    requires e.IsPost() && Reaches(w, e) && HonestLookups(w, e) && FromLookups(w, e, a)
    ensures AsWritten(w, e, a)
  {
    var post := w.mm.posts[e.post];
    TargetIsMeant(w, e);
    ReplyIsStood(w, e.tenant, post, w.db.conversations[(e.tenant, e.target.value)].root, e.reply);
    TrimSpaceStrips(post.text);
  }

  /** The action is the one the look-ups led to. */
  predicate FromLookups(w: World, e: Event, a: Action)
    requires e.IsPost() && e.post in w.mm.posts
  {
    && a.Sent? && e.target.Some? && a.tenant == e.tenant && a.conversation == e.target.value && a.about == e.post
    && a.replyTo == (if ReplyWorks(e) then e.reply else None)
    && a.text == TrimSpace(w.mm.posts[e.post].text) && a.files == w.mm.posts[e.post].files
  }

  lemma PhoneKeeps(w: World, e: Event)
    requires Stored(w) && e.PostToPhone? && Reaches(w, e) && SendsNow(w, e)
    ensures var a := Step(w, e).log[|w.log|];
      FromLookups(w, e, a) && Kept(w, Step(w, e), e, a) && |Step(w, e).log| == |w.log| + 1
  {
    OutgoingExactly(w, e);
    assert Ours(w.nextTmp) !in w.db.pending;
  }

  lemma TransportKeeps(w: World, e: Event)
    requires e.PostToTransport? && Reaches(w, e) && SendsNow(w, e)
    ensures var a := Step(w, e).log[|w.log|];
      FromLookups(w, e, a) && Kept(w, Step(w, e), e, a) && |Step(w, e).log| == |w.log| + 1
  {
    DepartureExactly(w, e);
  }

  /** After any run, a send says what was written, and what it quotes is a message of the conversation it goes to. */
  lemma {:induction false} EverySendIsAsWritten(es: seq<Event>, e: Event)
    requires HonestRun(es) && HonestThreads(es) && Honest(Run(es), e) && e.IsPost() && e.post in Run(es).mm.posts
    requires SendsNow(Run(es), e)
    ensures var a := Step(Run(es), e).log[|Run(es).log|];
      && AsWritten(Run(es), e, a)
      && (a.replyTo.Some? ==> Run(es).db.messages[(a.tenant, a.replyTo.value)].conversation == a.conversation)
  {
    RunStored(es);
    MessagesStayInTheirConversation(es);
    PersonExactly(Run(es), e);
    SentExactly(Run(es), e);
    SentAsWritten(Run(es), e);
    QuoteIsOfTarget(Run(es), e);
  }

  lemma QuoteIsOfTarget(w: World, e: Event)
    requires Stored(w) && Placed(w) && e.IsPost() && e.post in w.mm.posts && Honest(w, e) && SendsNow(w, e)
    ensures var a := Step(w, e).log[|w.log|];
      a.replyTo.Some? && (a.tenant, a.replyTo.value) in w.db.messages ==>
        w.db.messages[(a.tenant, a.replyTo.value)].conversation == a.conversation
  {
    PersonExactly(w, e);
    if e.PostToPhone? {
      OutgoingExactly(w, e);
      PhoneKeeps(w, e);
    } else {
      DepartureExactly(w, e);
      TransportKeeps(w, e);
    }
    QuotesFrom(w, e);
  }

  // ----- when a send fails -----

  /** The person is told in the same thread, and on the phone's side by the reaction, and nothing else changes. */
  ghost predicate Told(w: World, w': World, e: Event)
    requires e.IsPost() && e.post in w.mm.posts
  {
    var post := w.mm.posts[e.post];
    var noticed := if e.PostToPhone? then e.out.noticeOk else e.departure.noticeOk;
    && w'.db == w.db
    && (forall p | p != e.post :: w'.mm.ReactionsOn(p) == w.mm.ReactionsOn(p))
    && w'.mm.ReactionsOn(e.post) == w.mm.ReactionsOn(e.post)
         + (if e.PostToPhone? && e.s.postDeliveryStatus && e.out.reactOk then {(e.s.bot, "warning")} else {})
    && (!noticed ==> w'.mm.posts == w.mm.posts)
    && (noticed ==>
          && w.mm.next in w'.mm.posts && w'.mm.posts == w.mm.posts[w.mm.next := w'.mm.posts[w.mm.next]]
          && var notice := w'.mm.posts[w.mm.next];
             && notice.channel == post.channel && notice.root == (if post.root != 0 then post.root else e.post)
             && notice.user == e.s.bot && notice.kind == "" && "msggw" in notice.props)
  }

  lemma RefusedIsTold(w: World, e: Event)
    requires w.mm.Valid() && e.IsPost() && e.post in w.mm.posts && Honest(w, e) && RefusesNow(w, e)
    ensures Told(w, Step(w, e), e)
    ensures Step(w, e).log[|w.log|].about == e.post && Step(w, e).log[|w.log|].tenant == e.tenant
  {
    SentExactly(w, e);
    PersonExactly(w, e);
    if e.PostToPhone? { PhoneTells(w, e); } else { TransportTells(w, e); }
  }

  lemma PhoneTells(w: World, e: Event)
    requires w.mm.Valid() && e.PostToPhone? && Reaches(w, e) && RefusesNow(w, e)
    ensures Told(w, Step(w, e), e)
    ensures Step(w, e).log[|w.log|].about == e.post && Step(w, e).log[|w.log|].tenant == e.tenant
  {
    OutgoingExactly(w, e);
    var post := w.mm.posts[e.post];
    OwnPostsNeverComeBack(NewPost(post.channel, post.ThreadRoot(e.post), e.out.notice, [], map[]), e.s.bot, e.s.bot);
  }

  lemma TransportTells(w: World, e: Event)
    requires w.mm.Valid() && e.PostToTransport? && Reaches(w, e) && RefusesNow(w, e)
    ensures Told(w, Step(w, e), e)
    ensures Step(w, e).log[|w.log|].about == e.post && Step(w, e).log[|w.log|].tenant == e.tenant
  {
    DepartureExactly(w, e);
    var post := w.mm.posts[e.post];
    var notice := NewPost(post.channel, post.ThreadRoot(e.post), e.departure.notice, [], map[]);
    OwnPostsNeverComeBack(notice, e.s.bot, e.s.bot);
  }
}
