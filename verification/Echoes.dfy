/**
 Sends and their echoes.  The phone acknowledges a send by an ordinary message event carrying the temporary
 identifier; until then the send is a row of the pending table.
 */
module Echoes {
  import opened Types
  import opened Storage
  import opened Mattermost
  import opened Bridge
  import opened Corebridge
  import opened Runs
  import opened AtMostOnce

  // ----- conservation: every recorded send is in exactly one place -----

  predicate Settles(a: Action, k: TmpId) {
    (a.Acknowledged? && a.tmp == k) || (a.GaveUp? && k in a.tmps)
  }

  function Recorded(log: seq<Action>, k: TmpId): nat {
    if log == [] then 0
    else
      var a := log[|log| - 1];
      Recorded(log[..|log| - 1], k) + if a.Sent? && a.tmp == k && a.recorded then 1 else 0
  }

  function Settlements(log: seq<Action>, k: TmpId): nat {
    if log == [] then 0
    else Settlements(log[..|log| - 1], k) + if Settles(log[|log| - 1], k) then 1 else 0
  }

  /** A temporary identifier is recorded as often as it is settled, plus once while its row is there. */
  ghost predicate Conserved(w: World, k: TmpId) {
    && Recorded(w.log, k) == Settlements(w.log, k) + (if k in w.db.pending then 1 else 0)
    && Recorded(w.log, k) <= 1
    && (Recorded(w.log, k) > 0 ==> k.Ours? && k.n < w.nextTmp)
  }

  lemma Counted(log: seq<Action>, a: Action, k: TmpId)
    ensures Recorded(log + [a], k) == Recorded(log, k) + if a.Sent? && a.tmp == k && a.recorded then 1 else 0
    ensures Settlements(log + [a], k) == Settlements(log, k) + if Settles(a, k) then 1 else 0
  {
    assert (log + [a])[..|log|] == log;
  }

  /** Nothing that concerns sends happened. */
  ghost predicate NoSend(w: World, w': World) {
    && |w.log| <= |w'.log| && w'.log[..|w.log|] == w.log
    && (forall i | |w.log| <= i < |w'.log| ::
         w'.log[i].Opened? || w'.log[i].Bridged? || w'.log[i].Refused? || w'.log[i].Noticed?)
    && w'.db.pending == w.db.pending && w'.nextTmp == w.nextTmp
  }

  lemma NoSendTransitive(w: World, w1: World, w2: World)
    requires NoSend(w, w1) && NoSend(w1, w2)
    ensures NoSend(w, w2)
  {
    assert w2.log[..|w.log|] == w1.log[..|w.log|];
    forall i | |w.log| <= i < |w2.log|
      ensures w2.log[i].Opened? || w2.log[i].Bridged? || w2.log[i].Refused? || w2.log[i].Noticed?
    {
      if i < |w1.log| { assert w2.log[i] == w2.log[..|w1.log|][i]; }
    }
  }

  lemma {:induction false} UncountedTail(log: seq<Action>, more: seq<Action>, k: TmpId)
    requires forall i | 0 <= i < |more| :: more[i].Opened? || more[i].Bridged? || more[i].Refused? || more[i].Noticed?
    ensures Recorded(log + more, k) == Recorded(log, k) && Settlements(log + more, k) == Settlements(log, k)
  {
    if more == [] {
      assert log + more == log;
    } else {
      assert log + more == log + more[..|more| - 1] + [more[|more| - 1]];
      UncountedTail(log, more[..|more| - 1], k);
      Counted(log + more[..|more| - 1], more[|more| - 1], k);
    }
  }

  lemma NoSendConserves(w: World, w': World, k: TmpId)
    requires NoSend(w, w') && Conserved(w, k)
    ensures Conserved(w', k)
  {
    var more := w'.log[|w.log|..];
    assert w'.log == w.log + more;
    UncountedTail(w.log, more, k);
  }

  /** Nothing that concerns sends happened, and only messages among `ids` of `tenant` were posted or mapped. */
  ghost predicate About(w: World, w': World, tenant: Tenant, ids: set<MsgId>) {
    && NoSend(w, w')
    && (forall i | |w.log| <= i < |w'.log| && w'.log[i].Bridged? ::
         w'.log[i].tenant == tenant && w'.log[i].message in ids)
    && (forall k: (Tenant, MsgId) | k.0 != tenant || k.1 !in ids ::
          (k in w'.db.messages <==> k in w.db.messages)
            && (k in w.db.messages ==> w'.db.messages[k] == w.db.messages[k]))
  }

  lemma AboutTransitive(w: World, w1: World, w2: World, tenant: Tenant, ids1: set<MsgId>, ids2: set<MsgId>)
    requires About(w, w1, tenant, ids1) && About(w1, w2, tenant, ids2)
    ensures About(w, w2, tenant, ids1 + ids2)
  {
    NoSendTransitive(w, w1, w2);
    forall i | |w.log| <= i < |w2.log| && w2.log[i].Bridged?
      ensures w2.log[i].tenant == tenant && w2.log[i].message in ids1 + ids2
    {
      if i < |w1.log| { assert w2.log[i] == w2.log[..|w1.log|][i]; }
    }
  }

  function Ids(window: seq<Message>): set<MsgId> { set i | 0 <= i < |window| :: window[i].id }

  lemma PostMessageAbout(w: World, tenant: Tenant, s: Settings, conv: ConversationRow, msg: Message, f: PostFate)
    ensures About(w, PostMessage(w, tenant, s, conv, msg, f), tenant, {msg.id})
  {
  }

  lemma {:induction false} BackfillAbout(
      w: World, tenant: Tenant, s: Settings, conv: ConversationRow, window: seq<Message>, fates: seq<PostFate>)
    ensures About(w, Backfill(w, tenant, s, conv, window, fates), tenant, Ids(window))
    decreases |window|
  {
    if window != [] {
      var last := |window| - 1;
      var f := WindowFate(fates, last);
      assert Ids(window) == {window[last].id} + Ids(window[..last]);
      if window[last].HasContent() {
        var w1 := PostMessage(w, tenant, s, conv, window[last], f);
        PostMessageAbout(w, tenant, s, conv, window[last], f);
        if f.postOk && f.saveOk {
          BackfillAbout(w1, tenant, s, conv, window[..last], fates);
          AboutTransitive(w, w1, Backfill(w1, tenant, s, conv, window[..last], fates), tenant, {window[last].id},
            Ids(window[..last]));
        }
      } else {
        BackfillAbout(w, tenant, s, conv, window[..last], fates);
      }
    }
  }

  lemma OpenAbout(w: World, tenant: Tenant, s: Settings, f: EnsureFate)
    ensures About(w, OpenConversation(w, tenant, s, f).0, tenant, {})
  {
  }

  /** The messages a handler may post besides the one it handles. */
  function Backfilled(w: World, tenant: Tenant, s: Settings, id: ConvId, f: EnsureFate): set<MsgId> {
    if Known(w, tenant, id) || s.backfillCount <= 0 || f.window.None? then {} else Ids(f.window.value)
  }

  lemma EnsureAbout(w: World, tenant: Tenant, s: Settings, id: ConvId, f: EnsureFate)
    ensures About(w, EnsureConversation(w, tenant, s, id, f).0, tenant, Backfilled(w, tenant, s, id, f))
  {
    if f.lookupOk && !Known(w, tenant, id) {
      OpenAbout(w, tenant, s, f);
      var (w1, row) := OpenConversation(w, tenant, s, f);
      if row.Some? && s.backfillCount > 0 && f.window.Some? {
        BackfillAbout(w1, tenant, s, row.value, f.window.value, f.windowFates);
        AboutTransitive(w, w1, EnsureConversation(w, tenant, s, id, f).0, tenant, {}, Ids(f.window.value));
        assert {} + Ids(f.window.value) == Ids(f.window.value);
      }
    }
  }

  lemma BridgeNewAbout(w: World, tenant: Tenant, s: Settings, msg: Message, f: IncomingFate)
    ensures About(w, BridgeNew(w, tenant, s, msg, f), tenant,
      Backfilled(w, tenant, s, msg.conversation, f.ensure) + {msg.id})
  {
    if !msg.isOld && msg.HasContent() {
      EnsureAbout(w, tenant, s, msg.conversation, f.ensure);
      var (w1, conv) := EnsureConversation(w, tenant, s, msg.conversation, f.ensure);
      if conv.Some? {
        var w2 := PostMessage(w1, tenant, s, conv.value, msg, f.post);
        PostMessageAbout(w1, tenant, s, conv.value, msg, f.post);
        AboutTransitive(w, w1, w2, tenant, Backfilled(w, tenant, s, msg.conversation, f.ensure), {msg.id});
      }
    }
  }

  lemma ArrivalAbout(w: World, tenant: Tenant, s: Settings, msg: Message, f: ArrivalFate)
    ensures About(w, Arrival(w, tenant, s, msg, f), tenant, {msg.id})
  {
    OpenAbout(w, tenant, s, f.ensure);
    var (w1, conv) := EnsureGeneric(w, tenant, s, msg.conversation, f.ensure);
    if conv.Some? {
      var w2 := PostArrival(w1, tenant, s, conv.value, msg, f);
      AboutTransitive(w, w1, w2, tenant, {}, {msg.id});
    }
  }

  lemma AcknowledgeConserves(w: World, tenant: Tenant, s: Settings, msg: Message, f: IncomingFate, k: TmpId)
    requires Conserved(w, k) && IsEcho(w, msg)
    ensures Conserved(Acknowledge(w, tenant, s, msg, f), k)
  {
    Counted(w.log, Acknowledged(tenant, msg.tmpId, msg.id, w.db.pending[msg.tmpId].post, f.ackSaveOk), k);
  }

  lemma IncomingConserves(w: World, tenant: Tenant, s: Settings, msg: Message, f: IncomingFate, k: TmpId)
    requires Conserved(w, k)
    ensures Conserved(Incoming(w, tenant, s, msg, f), k)
  {
    if !(msg.tmpId != NoTmp && !f.takeOk) {
      if IsEcho(w, msg) {
        AcknowledgeConserves(w, tenant, s, msg, f, k);
      } else if f.lookupOk && (tenant, msg.id) !in w.db.messages {
        BridgeNewAbout(w, tenant, s, msg, f);
        NoSendConserves(w, BridgeNew(w, tenant, s, msg, f), k);
      }
    }
  }

  lemma OutgoingConserves(
      w: World, tenant: Tenant, s: Settings, id: PostId, post: Post, target: Option<ConvId>, reply: Option<MsgId>,
      f: OutgoingFate, k: TmpId)
    requires Conserved(w, k) && Stored(w)
    ensures Conserved(OutgoingPost(w, tenant, s, id, post, target, reply, f), k)
  {
    if target.Some? {
      if f.sendOk {
        var replyTo := if f.replyOk then reply else None;
        SentConserves(w,
          Sent(tenant, target.value, id, Ours(w.nextTmp), replyTo, TrimSpace(post.text), post.files, f.recordOk),
          PendingRow(tenant, id, target.value, f.now), k);
      } else {
        NoSendConserves(w, ReportSendFailure(w, tenant, s, target.value, id, post, f), k);
      }
    }
  }

  /** A new temporary identifier is recorded together with its row, or not at all. */
  lemma SentConserves(w: World, a: Action, row: PendingRow, k: TmpId)
    requires Conserved(w, k) && Stored(w) && a.Sent? && a.tmp == Ours(w.nextTmp)
    ensures var w1 := w.(nextTmp := w.nextTmp + 1).Log(a);
            Conserved(if a.recorded then w1.(db := w1.db.(pending := w1.db.pending[a.tmp := row])) else w1, k)
  {
    Counted(w.log, a, k);
  }

  lemma DepartureConserves(
      w: World, tenant: Tenant, s: Settings, id: PostId, post: Post, target: Option<ConvId>, reply: Option<MsgId>,
      f: DepartureFate, k: TmpId)
    requires Conserved(w, k) && k.Ours?
    ensures Conserved(Departure(w, tenant, s, id, post, target, reply, f), k)
  {
    if target.Some? {
      if f.sent.Some? {
        var replyTo := if f.replyOk then reply else None;
        Counted(w.log, Sent(tenant, target.value, id, NoTmp, replyTo, TrimSpace(post.text), post.files, f.saveOk), k);
      } else {
        NoSendConserves(w, ReportFailure(w, tenant, s, target.value, id, post, f), k);
      }
    }
  }

  lemma StepConserves(w: World, e: Event, k: TmpId)
    requires Conserved(w, k) && Stored(w) && k.Ours?
    ensures Conserved(Step(w, e), k)
  {
    match e
    case PhoneMessage(tenant, s, msg, f) => IncomingConserves(w, tenant, s, msg, f, k);
    case PruneTick(tenant, cutoff, ok) => Counted(w.log, GaveUp(tenant, Expired(w.db, tenant, cutoff)), k);
    case PostToPhone(tenant, s, post, target, reply, f) =>
      if Reaches(w, e) { OutgoingConserves(w, tenant, s, post, w.mm.posts[post], target, reply, f, k); }
    case TransportMessage(tenant, s, msg, f) =>
      ArrivalAbout(w, tenant, s, msg, f);
      NoSendConserves(w, Arrival(w, tenant, s, msg, f), k);
    case PostToTransport(tenant, s, post, target, reply, f) =>
      if Reaches(w, e) { DepartureConserves(w, tenant, s, post, w.mm.posts[post], target, reply, f, k); }
    case _ =>
  }

  /**
   At all times a recorded temporary identifier is in exactly one place: its row is pending, or it was settled
   once, by an acknowledgement or by giving up.
   */
  lemma {:induction false} SendsAreConserved(es: seq<Event>, k: TmpId)
    requires HonestRun(es) && k.Ours?
    ensures Conserved(Run(es), k)
  {
    if es != [] {
      SendsAreConserved(es[..|es| - 1], k);
      RunStored(es[..|es| - 1]);
      StepConserves(Run(es[..|es| - 1]), es[|es| - 1], k);
    }
  }

  // ----- replays -----

  /** The message is mapped, with the status the event carries, and no row waits for it. */
  predicate Settled(w: World, tenant: Tenant, msg: Message) {
    !IsEcho(w, msg) && (tenant, msg.id) in w.db.messages && w.db.messages[(tenant, msg.id)].status == msg.status
  }

  /** A status the phone repeats changes nothing, in the tables or on the server. */
  lemma RepeatedStatusIsInert(w: World, tenant: Tenant, s: Settings, msg: Message, f: IncomingFate)
    requires Settled(w, tenant, msg)
    ensures Incoming(w, tenant, s, msg, f) == w
  {
  }

  lemma AcknowledgedSettles(w: World, tenant: Tenant, s: Settings, msg: Message, f: IncomingFate)
    requires IsEcho(w, msg) && f.ackSaveOk
    ensures Settled(Acknowledge(w, tenant, s, msg, f), tenant, msg)
  {
  }

  lemma BridgedSettles(w: World, tenant: Tenant, s: Settings, msg: Message, f: IncomingFate)
    requires !IsEcho(w, msg) && (tenant, msg.id) !in w.db.messages && !msg.isOld && msg.HasContent() && Cooperates(f)
    ensures Settled(BridgeNew(w, tenant, s, msg, f), tenant, msg)
  {
    var (w1, conv) := EnsureConversation(w, tenant, s, msg.conversation, f.ensure);
    EnsureAbout(w, tenant, s, msg.conversation, f.ensure);
    assert conv.Some? && !IsEcho(w1, msg);
    assert Settled(PostMessage(w1, tenant, s, conv.value, msg, f.post), tenant, msg);
  }

  /** Handling an event twice is handling it once, if nothing failed the first time and whatever fails the second. */
  lemma ReplayIsInert(w: World, tenant: Tenant, s: Settings, msg: Message, f: IncomingFate, again: IncomingFate)
    requires Cooperates(f) && f.ackSaveOk && f.status.updateOk
    ensures var w' := Incoming(w, tenant, s, msg, f); Incoming(w', tenant, s, msg, again) == w'
  {
    if IsEcho(w, msg) {
      AcknowledgedSettles(w, tenant, s, msg, f);
      RepeatedStatusIsInert(Acknowledge(w, tenant, s, msg, f), tenant, s, msg, again);
    } else if (tenant, msg.id) in w.db.messages {
      StatusSettles(w, tenant, s, msg, f.status);
      RepeatedStatusIsInert(Incoming(w, tenant, s, msg, f), tenant, s, msg, again);
    } else if !msg.isOld && msg.HasContent() {
      BridgedSettles(w, tenant, s, msg, f);
      RepeatedStatusIsInert(BridgeNew(w, tenant, s, msg, f), tenant, s, msg, again);
    }
  }

  lemma StatusSettles(w: World, tenant: Tenant, s: Settings, msg: Message, f: StatusFate)
    requires !IsEcho(w, msg) && (tenant, msg.id) in w.db.messages && f.updateOk
    ensures Settled(StatusUpdate(w, tenant, s, w.db.messages[(tenant, msg.id)], msg, f), tenant, msg)
  {
  }
}
