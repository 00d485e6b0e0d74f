/**
 The phone's events and the bridge's loop.  Events wait in a queue per bridge; the phone may add to it at any time,
 also while a send is being recorded, but the loop takes the next one only when it is done with the last.
 */
module EchoQueue {
  import opened Types
  import opened Conversations
  import opened Storage
  import opened Mattermost
  import opened Bridge
  import opened Corebridge
  import opened Runs
  import opened Echoes
  import AtMostOnce

  // A send the phone accepted; `recorded` says whether its pending row was stored.
  datatype SendRecord = SendRecord(tenant: Tenant, conversation: ConvId, post: PostId, recorded: bool)

  // `heard` and `missed` are the sends whose echo the loop took off the queue, and those whose echo was lost: to a
  // restart, or to a storage failure before it was looked at.
  datatype Loop = Loop(
    w: World, queues: map<Tenant, seq<Message>>, sends: map<nat, SendRecord>, heard: set<nat>, missed: set<nat>)
  {
    function Queue(t: Tenant): seq<Message> { if t in queues then queues[t] else [] }

    function Push(t: Tenant, msg: Message): Loop { this.(queues := queues[t := Queue(t) + [msg]]) }

    function PushAll(t: Tenant, msgs: seq<Message>): Loop
      decreases |msgs|
    {
      if msgs == [] then this else Push(t, msgs[0]).PushAll(t, msgs[1..])
    }
  }

  const Idle := Loop(EmptyWorld, map[], map[], {}, {})

  // What the phone names the message of each send; which bridges are the phones'.
  datatype Phones = Phones(name: nat -> MsgId, tenants: set<Tenant>, transports: set<Tenant>)

  datatype Move =
    | Arrive(t: Tenant, msg: Message)
    | Handle(t: Tenant, s: Settings, f: IncomingFate)
    | Send(t: Tenant, s: Settings, post: PostId, target: Option<ConvId>, reply: Option<MsgId>, out: OutgoingFate,
      during: seq<Message>)
    | Elsewhere(e: Event)
    | Restart

  predicate Carries(q: seq<Message>, k: nat) { exists i :: 0 <= i < |q| && q[i].tmpId == Ours(k) }

  /**
   An event the phone may produce: an echo names the message of a send of this bridge, in its conversation, and a
   message sent through the bridge is not mentioned before its echo.
   */
  predicate Genuine(l: Loop, ph: Phones, t: Tenant, msg: Message) {
    && (msg.tmpId.Ours? ==>
          var k := msg.tmpId.n;
          k in l.sends && l.sends[k].tenant == t && msg.id == ph.name(k) && msg.conversation == l.sends[k].conversation)
    && (forall k | k in l.sends && l.sends[k].tenant == t && ph.name(k) == msg.id ::
          msg.tmpId == Ours(k) || k in l.heard || k in l.missed || Carries(l.Queue(t), k))
  }

  predicate AllGenuine(l: Loop, ph: Phones, t: Tenant, msgs: seq<Message>)
    decreases |msgs|
  {
    msgs == [] || (Genuine(l, ph, t, msgs[0]) && AllGenuine(l.Push(t, msgs[0]), ph, t, msgs[1..]))
  }

  predicate PostedBack(w: World, t: Tenant, m: MsgId) {
    exists i :: 0 <= i < |w.log| && w.log[i].Bridged? && w.log[i].tenant == t && w.log[i].message == m
  }

  /** The phone makes up a new identifier for every message. */
  predicate FreshName(l: Loop, ph: Phones, t: Tenant, k: nat) {
    && (t, ph.name(k)) !in l.w.db.messages && !PostedBack(l.w, t, ph.name(k))
    && (forall i | 0 <= i < |l.Queue(t)| :: l.Queue(t)[i].id != ph.name(k))
    && (forall k' | k' in l.sends && l.sends[k'].tenant == t :: ph.name(k') != ph.name(k))
  }

  /** A window fetched from the phone lists the messages of sends in their own conversation. */
  predicate GenuineWindow(l: Loop, ph: Phones, t: Tenant, f: EnsureFate) {
    f.window.Some? ==>
      forall i, k | 0 <= i < |f.window.value| && k in l.sends && l.sends[k].tenant == t
        && ph.name(k) == f.window.value[i].id :: f.window.value[i].conversation == l.sends[k].conversation
  }

  function PostEvent(m: Move): Event
    requires m.Send?
  {
    PostToPhone(m.t, m.s, m.post, m.target, m.reply, m.out)
  }

  function AfterSend(l: Loop, m: Move): Loop
    requires m.Send?
  {
    var w' := Step(l.w, PostEvent(m));
    if w'.nextTmp == l.w.nextTmp || m.target.None? then l.(w := w')
    else l.(w := w', sends := l.sends[l.w.nextTmp := SendRecord(m.t, m.target.value, m.post, m.out.recordOk)])
  }

  /** A bridge that runs for a transport, or a phone bridge at anything but messages and posts. */
  predicate Aside(e: Event, ph: Phones) {
    match e
    case PhoneUpdate(_, _, _) => true
    case PruneTick(_, _, _) => true
    case Written(_) => true
    case TransportMessage(tenant, _, _, _) => tenant in ph.transports
    case PostToTransport(tenant, _, _, _, _, _) => tenant in ph.transports
    case _ => false
  }

  predicate Allowed(l: Loop, ph: Phones, m: Move) {
    match m
    case Arrive(t, msg) => t in ph.tenants && Genuine(l, ph, t, msg)
    case Handle(t, s, f) =>
      && t in ph.tenants && l.Queue(t) != []
      && Honest(l.w, PhoneMessage(t, s, l.Queue(t)[0], f)) && GenuineWindow(l, ph, t, f.ensure)
    case Send(t, _, _, _, _, _, during) =>
      && t in ph.tenants && Honest(l.w, PostEvent(m))
      && (Step(l.w, PostEvent(m)).nextTmp != l.w.nextTmp ==> FreshName(l, ph, t, l.w.nextTmp))
      && AllGenuine(AfterSend(l, m), ph, t, during)
    case Elsewhere(e) => Honest(l.w, e) && Aside(e, ph)
    case Restart => true
  }

  function Queued(l: Loop): set<nat> {
    set t, i | t in l.queues && 0 <= i < |l.queues[t]| && l.queues[t][i].tmpId.Ours? :: l.queues[t][i].tmpId.n
  }

  function Next(l: Loop, m: Move): Loop
    requires m.Handle? ==> l.Queue(m.t) != []
  {
    match m
    case Arrive(t, msg) => l.Push(t, msg)
    case Handle(t, s, f) =>
      var msg := l.Queue(t)[0];
      var l1 := l.(w := Step(l.w, PhoneMessage(t, s, msg, f)), queues := l.queues[t := l.Queue(t)[1..]]);
      if !msg.tmpId.Ours? then l1
      else if f.takeOk then l1.(heard := l.heard + {msg.tmpId.n})
      else l1.(missed := l.missed + {msg.tmpId.n})
    case Send(t, _, _, _, _, _, during) => AfterSend(l, m).PushAll(t, during)
    case Elsewhere(e) => l.(w := Step(l.w, e))
    case Restart => l.(queues := map[], missed := l.missed + Queued(l))
  }

  // ----- the invariant -----

  predicate Acked(l: Loop, ph: Phones, k: nat)
    requires k in l.sends
  {
    var r := l.sends[k];
    (r.tenant, ph.name(k)) in l.w.db.messages && l.w.db.messages[(r.tenant, ph.name(k))].post == r.post
  }

  /** The acknowledgement was taken, but the mapping could not be stored. */
  predicate Lost(w: World, k: nat) {
    exists i :: 0 <= i < |w.log| && w.log[i].Acknowledged? && w.log[i].tmp == Ours(k) && !w.log[i].saved
  }

  predicate Abandoned(w: World, k: nat) {
    exists i :: 0 <= i < |w.log| && w.log[i].GaveUp? && Ours(k) in w.log[i].tmps
  }

  predicate Waiting(w: World, k: nat) { Ours(k) in w.db.pending }

  /** Where a recorded send is. */
  predicate Placed(l: Loop, ph: Phones, k: nat)
    requires k in l.sends
  {
    var r := l.sends[k];
    if Waiting(l.w, k)
    then l.w.db.pending[Ours(k)].tenant == r.tenant && l.w.db.pending[Ours(k)].post == r.post
         && l.w.db.pending[Ours(k)].conversation == r.conversation
    else Acked(l, ph, k) || Lost(l.w, k) || Abandoned(l.w, k)
  }

  predicate Excused(l: Loop, k: nat) { Lost(l.w, k) || Abandoned(l.w, k) || k in l.missed }

  predicate SendSafe(l: Loop, ph: Phones, k: nat)
    requires k in l.sends
  {
    var r := l.sends[k];
    && r.tenant in ph.tenants && Known(l.w, r.tenant, r.conversation)
    && (r.recorded ==>
          && Placed(l, ph, k)
          && (k in l.heard ==> !Waiting(l.w, k))
          && (PostedBack(l.w, r.tenant, ph.name(k)) ==> Excused(l, k)))
    && (!r.recorded ==> !Waiting(l.w, k))
  }

  /** The first event about a send's message is its echo, wherever in the queue it is. */
  predicate QueueSafe(l: Loop, ph: Phones, t: Tenant, i: nat)
    requires i < |l.Queue(t)|
  {
    var msg := l.Queue(t)[i];
    && (msg.tmpId.Ours? ==>
          var k := msg.tmpId.n;
          k in l.sends && l.sends[k].tenant == t && msg.id == ph.name(k) && msg.conversation == l.sends[k].conversation)
    && (forall k | k in l.sends && l.sends[k].tenant == t && ph.name(k) == msg.id ::
          msg.tmpId == Ours(k) || k in l.heard || k in l.missed || Carries(l.Queue(t)[..i], k))
  }

  predicate Named(l: Loop, ph: Phones) {
    forall k, k' | k in l.sends && k' in l.sends && k != k' && l.sends[k].tenant == l.sends[k'].tenant ::
      ph.name(k) != ph.name(k')
  }

  ghost predicate Sound(l: Loop, ph: Phones) {
    && Stored(l.w) && ph.tenants !! ph.transports && Named(l, ph)
    && (forall k | k in l.sends :: k < l.w.nextTmp && SendSafe(l, ph, k))
    && (forall k | k in l.heard :: k in l.sends)
    && (forall k | k in l.w.db.pending :: k.Ours? && k.n in l.sends)
    && (forall t, i | t in l.queues && 0 <= i < |l.Queue(t)| :: QueueSafe(l, ph, t, i))
  }

  // ----- events arriving -----

  lemma PushSound(l: Loop, ph: Phones, t: Tenant, msg: Message)
    requires Sound(l, ph) && Genuine(l, ph, t, msg)
    ensures Sound(l.Push(t, msg), ph)
  {
    var l' := l.Push(t, msg);
    forall k | k in l'.sends
      ensures SendSafe(l', ph, k)
    {
      assert SendSafe(l, ph, k);
    }
    forall u, i | u in l'.queues && 0 <= i < |l'.Queue(u)|
      ensures QueueSafe(l', ph, u, i)
    {
      if u != t || i < |l.Queue(t)| {
        assert QueueSafe(l, ph, u, i);
        assert l'.Queue(u)[..i] == l.Queue(u)[..i];
      } else {
        assert l'.Queue(u)[..i] == l.Queue(u);
      }
    }
  }

  lemma {:induction false} PushAllSound(l: Loop, ph: Phones, t: Tenant, msgs: seq<Message>)
    requires Sound(l, ph) && AllGenuine(l, ph, t, msgs)
    ensures Sound(l.PushAll(t, msgs), ph)
    decreases |msgs|
  {
    if msgs != [] {
      PushSound(l, ph, t, msgs[0]);
      PushAllSound(l.Push(t, msgs[0]), ph, t, msgs[1..]);
    }
  }

  lemma RestartSound(l: Loop, ph: Phones)
    requires Sound(l, ph)
    ensures Sound(Next(l, Restart), ph)
  {
    var l' := Next(l, Restart);
    forall k | k in l'.sends
      ensures SendSafe(l', ph, k)
    {
      assert SendSafe(l, ph, k);
    }
  }

  // ----- the loop taking the head of a queue -----

  /** What is past stays past, and conversations stay known. */
  ghost predicate Later(w: World, w': World) {
    Extends(w, w') && |w.log| <= |w'.log| && w'.log[..|w.log|] == w.log
  }

  lemma PastStays(w: World, w': World, k: nat)
    requires Later(w, w')
    ensures Lost(w, k) ==> Lost(w', k)
    ensures Abandoned(w, k) ==> Abandoned(w', k)
  {
    assert forall i | 0 <= i < |w.log| :: w'.log[i] == w'.log[..|w.log|][i];
  }

  /** Messages of `tenant` among `ids` may have been posted or mapped; nothing else about sends changed. */
  lemma AboutSafe(l: Loop, w': World, ph: Phones, tenant: Tenant, ids: set<MsgId>, k: nat)
    requires k in l.sends && SendSafe(l, ph, k) && Later(l.w, w') && About(l.w, w', tenant, ids)
    requires l.sends[k].tenant == tenant && ph.name(k) in ids && l.sends[k].recorded ==>
      Excused(l, k) && (Waiting(l.w, k) || Lost(l.w, k) || Abandoned(l.w, k))
    ensures SendSafe(l.(w := w'), ph, k)
  {
    PastStays(l.w, w', k);
    var r := l.sends[k];
    if r.recorded && PostedBack(w', r.tenant, ph.name(k)) && !(r.tenant == tenant && ph.name(k) in ids) {
      var i :| 0 <= i < |w'.log| && w'.log[i].Bridged? && w'.log[i].tenant == r.tenant
        && w'.log[i].message == ph.name(k);
      assert i < |l.w.log|;
      assert l.w.log[i] == w'.log[..|l.w.log|][i] == w'.log[i];
      assert PostedBack(l.w, r.tenant, ph.name(k));
    }
  }

  /** A step that posts nothing and leaves every mapping pointing at the same post. */
  lemma CalmSafe(l: Loop, w': World, ph: Phones, k: nat)
    requires k in l.sends && SendSafe(l, ph, k) && Later(l.w, w') && w'.db.pending == l.w.db.pending
    requires forall i | |l.w.log| <= i < |w'.log| :: !w'.log[i].Bridged?
    requires forall m | m in l.w.db.messages :: m in w'.db.messages && w'.db.messages[m].post == l.w.db.messages[m].post
    ensures SendSafe(l.(w := w'), ph, k)
  {
    PastStays(l.w, w', k);
    NotPosted(l.w, w', l.sends[k].tenant, ph.name(k));
  }

  lemma NotPosted(w: World, w': World, t: Tenant, m: MsgId)
    requires |w.log| <= |w'.log| && w'.log[..|w.log|] == w.log
    requires forall i | |w.log| <= i < |w'.log| && w'.log[i].Bridged? :: w'.log[i].tenant != t || w'.log[i].message != m
    ensures PostedBack(w', t, m) ==> PostedBack(w, t, m)
  {
    if PostedBack(w', t, m) {
      var i :| 0 <= i < |w'.log| && w'.log[i].Bridged? && w'.log[i].tenant == t && w'.log[i].message == m;
      assert w.log[i] == w'.log[..|w.log|][i];
    }
  }

  /** What an acknowledgement changes: the row goes, and the message is mapped to its post if that could be stored. */
  lemma AcknowledgeFacts(w: World, t: Tenant, s: Settings, msg: Message, f: IncomingFate)
    requires Stored(w) && IsEcho(w, msg) && HonestEcho(w, t, msg)
    ensures var w' := Acknowledge(w, t, s, msg, f);
            var post := w.db.pending[msg.tmpId].post;
            && Later(w, w') && w'.db.pending == w.db.pending - {msg.tmpId}
            && w'.log == w.log + [Acknowledged(t, msg.tmpId, msg.id, post, f.ackSaveOk)]
            && (forall m | m in w.db.messages && m != (t, msg.id) ::
                 m in w'.db.messages && w'.db.messages[m] == w.db.messages[m])
            && (if f.ackSaveOk then (t, msg.id) in w'.db.messages && w'.db.messages[(t, msg.id)].post == post
                else w'.db.messages == w.db.messages)
  {
    AcknowledgeKeeps(w, t, s, msg, f);
  }

  lemma AcknowledgedOther(l: Loop, w': World, ph: Phones, t: Tenant, msg: Message, k: nat)
    requires k in l.sends && SendSafe(l, ph, k) && Later(l.w, w') && msg.tmpId != Ours(k)
    requires w'.db.pending == l.w.db.pending - {msg.tmpId}
    requires |w'.log| == |l.w.log| + 1 && w'.log[|l.w.log|].Acknowledged?
    requires l.sends[k].tenant == t ==> ph.name(k) != msg.id
    requires forall m | m in l.w.db.messages && m != (t, msg.id) ::
      m in w'.db.messages && w'.db.messages[m] == l.w.db.messages[m]
    ensures SendSafe(l.(w := w'), ph, k)
  {
    PastStays(l.w, w', k);
    NotPosted(l.w, w', l.sends[k].tenant, ph.name(k));
  }

  lemma AcknowledgedSelf(l: Loop, w': World, ph: Phones, t: Tenant, msg: Message, saved: bool, k: nat)
    requires k in l.sends && SendSafe(l, ph, k) && Later(l.w, w') && msg.tmpId == Ours(k) && Waiting(l.w, k)
    requires l.sends[k].tenant == t && ph.name(k) == msg.id
    requires w'.db.pending == l.w.db.pending - {msg.tmpId}
    requires w'.log == l.w.log + [Acknowledged(t, msg.tmpId, msg.id, l.w.db.pending[msg.tmpId].post, saved)]
    requires saved ==>
      (t, msg.id) in w'.db.messages && w'.db.messages[(t, msg.id)].post == l.w.db.pending[msg.tmpId].post
    ensures SendSafe(l.(w := w'), ph, k)
  {
    PastStays(l.w, w', k);
    NotPosted(l.w, w', t, ph.name(k));
    assert w'.log[|l.w.log|].Acknowledged?;
  }

  lemma AcknowledgedSafe(l: Loop, ph: Phones, t: Tenant, s: Settings, msg: Message, f: IncomingFate, k: nat)
    requires Sound(l, ph) && t in ph.tenants && l.Queue(t) != [] && l.Queue(t)[0] == msg
    requires IsEcho(l.w, msg) && HonestEcho(l.w, t, msg) && k in l.sends
    ensures SendSafe(l.(w := Acknowledge(l.w, t, s, msg, f)), ph, k)
  {
    AcknowledgeFacts(l.w, t, s, msg, f);
    assert SendSafe(l, ph, k);
    assert QueueSafe(l, ph, t, 0);
    if msg.tmpId == Ours(k) {
      AcknowledgedSelf(l, Acknowledge(l.w, t, s, msg, f), ph, t, msg, f.ackSaveOk, k);
    } else {
      AcknowledgedOther(l, Acknowledge(l.w, t, s, msg, f), ph, t, msg, k);
    }
  }

  /** A message nobody has mapped is not one of this bridge's own, unless its send was settled otherwise or missed. */
  lemma HeadIsExcused(l: Loop, ph: Phones, t: Tenant, k: nat)
    requires Sound(l, ph) && l.Queue(t) != [] && k in l.sends && l.sends[k].tenant == t && l.sends[k].recorded
    requires ph.name(k) == l.Queue(t)[0].id && (t, ph.name(k)) !in l.w.db.messages
    requires !IsEcho(l.w, l.Queue(t)[0])
    ensures Excused(l, k) && (Waiting(l.w, k) || Lost(l.w, k) || Abandoned(l.w, k))
  {
    assert t in l.queues;
    assert QueueSafe(l, ph, t, 0);
    assert SendSafe(l, ph, k);
    assert !Carries(l.Queue(t)[..0], k);
  }

  /** The window of a conversation not bridged yet holds nothing that was sent through the bridge. */
  lemma WindowHoldsNoSend(l: Loop, ph: Phones, t: Tenant, s: Settings, id: ConvId, f: EnsureFate, k: nat)
    requires Sound(l, ph) && k in l.sends && l.sends[k].tenant == t
    requires GenuineWindow(l, ph, t, f) && HonestWindow(l.w, t, id, f)
    ensures ph.name(k) !in Backfilled(l.w, t, s, id, f)
  {
    assert SendSafe(l, ph, k);
  }

  lemma NewSafe(l: Loop, ph: Phones, t: Tenant, s: Settings, f: IncomingFate, k: nat)
    requires Sound(l, ph) && Allowed(l, ph, Handle(t, s, f)) && k in l.sends
    requires !IsEcho(l.w, l.Queue(t)[0]) && (t, l.Queue(t)[0].id) !in l.w.db.messages
    ensures SendSafe(l.(w := BridgeNew(l.w, t, s, l.Queue(t)[0], f)), ph, k)
  {
    var msg := l.Queue(t)[0];
    var w' := BridgeNew(l.w, t, s, msg, f);
    var ids := Backfilled(l.w, t, s, msg.conversation, f.ensure) + {msg.id};
    BridgeNewAbout(l.w, t, s, msg, f);
    BridgeNewKeeps(l.w, t, s, msg, f);
    assert SendSafe(l, ph, k);
    if l.sends[k].tenant == t && ph.name(k) in ids && l.sends[k].recorded {
      WindowHoldsNoSend(l, ph, t, s, msg.conversation, f.ensure, k);
      HeadIsExcused(l, ph, t, k);
    }
    AboutSafe(l, w', ph, t, ids, k);
  }

  lemma StatusFacts(w: World, t: Tenant, s: Settings, msg: Message, f: StatusFate)
    requires (t, msg.id) in w.db.messages
    ensures var w' := StatusUpdate(w, t, s, w.db.messages[(t, msg.id)], msg, f);
            && Later(w, w') && w'.log == w.log && w'.db.pending == w.db.pending
            && (forall m | m in w.db.messages :: m in w'.db.messages && w'.db.messages[m].post == w.db.messages[m].post)
  {
    var known := w.db.messages[(t, msg.id)];
    if f.updateOk && StatusChanges(w.db, t, msg.id, msg.status) {
      var w1 := w.(db := UpdateMessageStatus(w.db, t, msg.id, msg.status));
      var w' := ApplyDeliveryStatus(w1, s, known.post, msg.status, known.status, f);
      assert w'.db == w1.db && w'.log == w1.log && w'.mm.posts == w.mm.posts;
    }
  }

  /** The world after the head was handled keeps every send safe. */
  lemma WorldSafe(l: Loop, ph: Phones, t: Tenant, s: Settings, f: IncomingFate, k: nat)
    requires Sound(l, ph) && Allowed(l, ph, Handle(t, s, f)) && k in l.sends
    ensures SendSafe(l.(w := Incoming(l.w, t, s, l.Queue(t)[0], f)), ph, k)
  {
    var msg := l.Queue(t)[0];
    assert SendSafe(l, ph, k);
    if msg.tmpId != NoTmp && !f.takeOk {
    } else if IsEcho(l.w, msg) {
      AcknowledgedSafe(l, ph, t, s, msg, f, k);
    } else if f.lookupOk && (t, msg.id) !in l.w.db.messages {
      NewSafe(l, ph, t, s, f, k);
    } else if f.lookupOk {
      StatusFacts(l.w, t, s, msg, f.status);
      CalmSafe(l, StatusUpdate(l.w, t, s, l.w.db.messages[(t, msg.id)], msg, f.status), ph, k);
    }
  }

  /** Once its echo has been looked at, a send no longer waits. */
  lemma HeardIsTaken(w: World, t: Tenant, s: Settings, msg: Message, f: IncomingFate)
    requires msg.tmpId.Ours? && f.takeOk && Stored(w) && HonestEcho(w, t, msg)
    ensures !Waiting(Incoming(w, t, s, msg, f), msg.tmpId.n)
  {
    if IsEcho(w, msg) {
      AcknowledgeFacts(w, t, s, msg, f);
    } else if f.lookupOk && (t, msg.id) !in w.db.messages {
      BridgeNewAbout(w, t, s, msg, f);
    }
  }

  /** Remembering that an echo was heard or missed. */
  lemma MarkedSafe(l: Loop, l': Loop, ph: Phones, k: nat)
    requires k in l.sends && SendSafe(l, ph, k) && l'.w == l.w && l'.sends == l.sends
    requires l'.missed >= l.missed && (k in l'.heard ==> k in l.heard || !Waiting(l.w, k))
    ensures SendSafe(l', ph, k)
  {
  }

  lemma HandledSafe(l: Loop, ph: Phones, t: Tenant, s: Settings, f: IncomingFate, k: nat)
    requires Sound(l, ph) && Allowed(l, ph, Handle(t, s, f)) && k in l.sends
    ensures var l' := Next(l, Handle(t, s, f)); k in l'.sends && SendSafe(l', ph, k)
  {
    var msg := l.Queue(t)[0];
    WorldSafe(l, ph, t, s, f, k);
    if msg.tmpId.Ours? && f.takeOk { HeardIsTaken(l.w, t, s, msg, f); }
    MarkedSafe(l.(w := Incoming(l.w, t, s, msg, f)), Next(l, Handle(t, s, f)), ph, k);
  }

  lemma HandledQueue(l: Loop, ph: Phones, t: Tenant, s: Settings, f: IncomingFate, u: Tenant, i: nat)
    requires Sound(l, ph) && Allowed(l, ph, Handle(t, s, f))
    requires u in Next(l, Handle(t, s, f)).queues && i < |Next(l, Handle(t, s, f)).Queue(u)|
    ensures QueueSafe(Next(l, Handle(t, s, f)), ph, u, i)
  {
    var l' := Next(l, Handle(t, s, f));
    if u != t {
      assert QueueSafe(l, ph, u, i);
      assert l'.Queue(u) == l.Queue(u);
    } else {
      assert QueueSafe(l, ph, t, i + 1) && QueueSafe(l, ph, t, 0);
      assert l'.Queue(t)[..i] == l.Queue(t)[..i + 1][1..];
      forall k | k in l'.sends && l'.sends[k].tenant == t && ph.name(k) == l'.Queue(t)[i].id
        ensures l'.Queue(t)[i].tmpId == Ours(k) || k in l'.heard || k in l'.missed || Carries(l'.Queue(t)[..i], k)
      {
        if Carries(l.Queue(t)[..i + 1], k) {
          var j :| 0 <= j <= i && l.Queue(t)[..i + 1][j].tmpId == Ours(k);
          if j > 0 { assert l'.Queue(t)[..i][j - 1].tmpId == Ours(k); }
        }
      }
    }
  }

  lemma HandleSound(l: Loop, ph: Phones, t: Tenant, s: Settings, f: IncomingFate)
    requires Sound(l, ph) && Allowed(l, ph, Handle(t, s, f))
    ensures Sound(Next(l, Handle(t, s, f)), ph)
  {
    var msg := l.Queue(t)[0];
    var l' := Next(l, Handle(t, s, f));
    StepKeeps(l.w, PhoneMessage(t, s, msg, f));
    assert QueueSafe(l, ph, t, 0);
    forall k | k in l'.sends ensures k < l'.w.nextTmp && SendSafe(l', ph, k) { HandledSafe(l, ph, t, s, f, k); }
    forall u, i | u in l'.queues && 0 <= i < |l'.Queue(u)| ensures QueueSafe(l', ph, u, i) {
      HandledQueue(l, ph, t, s, f, u, i);
    }
    PendingShrinks(l.w, t, s, msg, f);
  }

  lemma PendingShrinks(w: World, t: Tenant, s: Settings, msg: Message, f: IncomingFate)
    ensures Incoming(w, t, s, msg, f).db.pending.Keys <= w.db.pending.Keys
  {
    if !IsEcho(w, msg) && (t, msg.id) !in w.db.messages { BridgeNewAbout(w, t, s, msg, f); }
  }

  // ----- a send, and what happens elsewhere -----

  /** A post handed to the phone bridge changes no mapping, and adds at most one row, under a fresh identifier. */
  ghost predicate SendsAtMostOne(w: World, w': World, m: Move)
    requires m.Send?
  {
    && Later(w, w') && w'.db.messages == w.db.messages
    && (forall i | |w.log| <= i < |w'.log| :: !w'.log[i].Bridged?)
    && (if w'.nextTmp == w.nextTmp then w'.db.pending == w.db.pending
        else
          && w'.nextTmp == w.nextTmp + 1 && m.target.Some? && Known(w, m.t, m.target.value)
          && w'.db.pending == if m.out.recordOk
                              then w.db.pending[Ours(w.nextTmp) := PendingRow(m.t, m.post, m.target.value, m.out.now)]
                              else w.db.pending)
  }

  lemma OutgoingFacts(w: World, m: Move, body: Post)
    requires m.Send? && w.mm.Valid() && (m.target.Some? ==> Known(w, m.t, m.target.value))
    requires Ours(w.nextTmp) !in w.db.pending
    ensures SendsAtMostOne(w, OutgoingPost(w, m.t, m.s, m.post, body, m.target, m.reply, m.out), m)
  {
    var w' := OutgoingPost(w, m.t, m.s, m.post, body, m.target, m.reply, m.out);
    if m.target.Some? && !m.out.sendOk {
      var w1 := ReportSendFailure(w, m.t, m.s, m.target.value, m.post, body, m.out);
      assert w1.db == w.db && w1.nextTmp == w.nextTmp;
    }
  }

  lemma SendFacts(w: World, m: Move)
    requires m.Send? && Stored(w) && Honest(w, PostEvent(m))
    ensures SendsAtMostOne(w, Step(w, PostEvent(m)), m)
  {
    if Reaches(w, PostEvent(m)) {
      assert Ours(w.nextTmp) !in w.db.pending;
      OutgoingFacts(w, m, w.mm.posts[m.post]);
    }
  }

  lemma SentSafe(l: Loop, w': World, ph: Phones, m: Move, k: nat)
    requires m.Send? && k in l.sends && SendSafe(l, ph, k) && SendsAtMostOne(l.w, w', m) && k < l.w.nextTmp
    ensures SendSafe(l.(w := w'), ph, k)
  {
    PastStays(l.w, w', k);
    NotPosted(l.w, w', l.sends[k].tenant, ph.name(k));
  }

  lemma NewSendSafe(l: Loop, w': World, ph: Phones, m: Move, l': Loop)
    requires m.Send? && m.t in ph.tenants && SendsAtMostOne(l.w, w', m) && w'.nextTmp != l.w.nextTmp
    requires l' == l.(w := w', sends := l.sends[l.w.nextTmp := SendRecord(m.t, m.target.value, m.post, m.out.recordOk)])
    requires Ours(l.w.nextTmp) !in l.w.db.pending && FreshName(l, ph, m.t, l.w.nextTmp) && l.w.nextTmp !in l.heard
    ensures SendSafe(l', ph, l.w.nextTmp)
  {
    NotPosted(l.w, w', m.t, ph.name(l.w.nextTmp));
  }

  lemma SendSound(l: Loop, ph: Phones, m: Move)
    requires Sound(l, ph) && m.Send? && Allowed(l, ph, m)
    ensures Sound(AfterSend(l, m), ph)
  {
    var w' := Step(l.w, PostEvent(m));
    StepKeeps(l.w, PostEvent(m));
    SendFacts(l.w, m);
    SendSoundFrom(l, w', ph, m, AfterSend(l, m));
  }

  lemma SendSoundFrom(l: Loop, w': World, ph: Phones, m: Move, l': Loop)
    requires Sound(l, ph) && m.Send? && m.t in ph.tenants && SendsAtMostOne(l.w, w', m) && Stored(w')
    requires w'.nextTmp != l.w.nextTmp ==> FreshName(l, ph, m.t, l.w.nextTmp)
    requires l' == if w'.nextTmp == l.w.nextTmp then l.(w := w')
                   else l.(w := w', sends :=
                     l.sends[l.w.nextTmp := SendRecord(m.t, m.target.value, m.post, m.out.recordOk)])
    ensures Sound(l', ph)
  {
    forall k | k in l.sends
      ensures SendSafe(l.(w := w'), ph, k)
    {
      SentSafe(l, w', ph, m, k);
    }
    if w'.nextTmp == l.w.nextTmp {
      AsideFrom(l, w', ph);
    } else {
      assert Ours(l.w.nextTmp) !in l.w.db.pending;
      NewSendSafe(l, w', ph, m, l');
      AddedSound(l, w', ph, m, l');
    }
  }

  lemma AddedSound(l: Loop, w': World, ph: Phones, m: Move, l': Loop)
    requires Sound(l, ph) && m.Send? && m.target.Some? && Stored(w') && w'.nextTmp == l.w.nextTmp + 1
    requires w'.db.pending.Keys <= l.w.db.pending.Keys + {Ours(l.w.nextTmp)}
    requires l' == l.(w := w', sends := l.sends[l.w.nextTmp := SendRecord(m.t, m.target.value, m.post, m.out.recordOk)])
    requires FreshName(l, ph, m.t, l.w.nextTmp) && SendSafe(l', ph, l.w.nextTmp)
    requires forall k | k in l.sends :: SendSafe(l.(w := w'), ph, k)
    ensures Sound(l', ph)
  {
    AllSafeWithMore(l.(w := w'), l', ph, l.w.nextTmp);
    AllQueuedBeforeSend(l, l', ph, m);
    NamedWithMore(l, l', ph, m);
  }

  lemma NamedWithMore(l: Loop, l': Loop, ph: Phones, m: Move)
    requires Named(l, ph) && m.Send? && m.target.Some? && FreshName(l, ph, m.t, l.w.nextTmp)
    requires l'.sends == l.sends[l.w.nextTmp := SendRecord(m.t, m.target.value, m.post, m.out.recordOk)]
    ensures Named(l', ph)
  {
  }

  lemma AllQueuedBeforeSend(l: Loop, l': Loop, ph: Phones, m: Move)
    requires Sound(l, ph) && m.Send? && m.target.Some? && l'.queues == l.queues && l'.heard == l.heard
    requires l'.missed == l.missed && FreshName(l, ph, m.t, l.w.nextTmp)
    requires l'.sends == l.sends[l.w.nextTmp := SendRecord(m.t, m.target.value, m.post, m.out.recordOk)]
    ensures forall t, i | t in l'.queues && 0 <= i < |l'.Queue(t)| :: QueueSafe(l', ph, t, i)
  {
    forall t, i | t in l'.queues && 0 <= i < |l'.Queue(t)|
      ensures QueueSafe(l', ph, t, i)
    {
      QueuedBeforeSend(l, l', ph, m, t, i);
    }
  }

  lemma AllSafeWithMore(l: Loop, l': Loop, ph: Phones, n: nat)
    requires l'.sends.Keys == l.sends.Keys + {n} && l' == l.(sends := l'.sends) && SendSafe(l', ph, n)
    requires forall k | k in l.sends && k != n :: SendSafe(l, ph, k) && l'.sends[k] == l.sends[k]
    ensures forall k | k in l'.sends :: SendSafe(l', ph, k)
  {
    forall k | k in l'.sends
      ensures SendSafe(l', ph, k)
    {
      if k != n { SafeWithMore(l, l', ph, k); }
    }
  }

  lemma SafeWithMore(l: Loop, l': Loop, ph: Phones, k: nat)
    requires k in l.sends && SendSafe(l, ph, k) && k in l'.sends && l'.sends[k] == l.sends[k]
      && l' == l.(sends := l'.sends)
    ensures SendSafe(l', ph, k)
  {
  }

  /** What waited before a send does not mention its message. */
  lemma QueuedBeforeSend(l: Loop, l': Loop, ph: Phones, m: Move, t: Tenant, i: nat)
    requires Sound(l, ph) && m.Send? && t in l.queues && i < |l.Queue(t)| && l'.queues == l.queues
    requires l'.heard == l.heard && l'.missed == l.missed
    requires l'.sends == l.sends
          || (FreshName(l, ph, m.t, l.w.nextTmp) && m.target.Some?
              && l'.sends == l.sends[l.w.nextTmp := SendRecord(m.t, m.target.value, m.post, m.out.recordOk)])
    ensures QueueSafe(l', ph, t, i)
  {
    assert QueueSafe(l, ph, t, i);
    assert forall k | k in l.sends :: k != l.w.nextTmp && l'.sends[k] == l.sends[k];
  }

  lemma AsideSafe(l: Loop, ph: Phones, e: Event, k: nat)
    requires Sound(l, ph) && Allowed(l, ph, Elsewhere(e)) && k in l.sends
    ensures SendSafe(l.(w := Step(l.w, e)), ph, k)
  {
    assert SendSafe(l, ph, k);
    match e
    case TransportMessage(tenant, s, msg, f) => ArrivedSafe(l, ph, e, k);
    case PruneTick(tenant, cutoff, ok) => PrunedSafe(l, ph, tenant, cutoff, ok, k);
    case PostToTransport(tenant, s, post, target, reply, f) => DepartedSafe(l, ph, e, k);
    case PhoneUpdate(_, _, _) => UpdatedSafe(l, ph, e, k);
    case Written(body) => WrittenSafe(l, ph, body, k);
  }

  lemma UpdatedSafe(l: Loop, ph: Phones, e: Event, k: nat)
    requires Stored(l.w) && k in l.sends && SendSafe(l, ph, k) && e.PhoneUpdate?
    ensures SendSafe(l.(w := Step(l.w, e)), ph, k)
  {
    UpdateKeeps(l.w, e.tenant, e.conv, e.update);
    UpdateIsCalm(l.w, e.tenant, e.conv, e.update);
    CalmSafe(l, ConversationUpdate(l.w, e.tenant, e.conv, e.update), ph, k);
  }

  lemma UpdateIsCalm(w: World, tenant: Tenant, conv: PhoneConversation, f: UpdateFate)
    ensures var w' := ConversationUpdate(w, tenant, conv, f);
      w'.log == w.log && w'.db.pending == w.db.pending && w'.db.messages == w.db.messages && w'.nextTmp == w.nextTmp
  {
  }

  lemma WrittenSafe(l: Loop, ph: Phones, body: Post, k: nat)
    requires Stored(l.w) && k in l.sends && SendSafe(l, ph, k)
    ensures SendSafe(l.(w := l.w.(mm := l.w.mm.Add(body))), ph, k)
  {
    AddKeeps(l.w, body);
    CalmSafe(l, l.w.(mm := l.w.mm.Add(body)), ph, k);
  }

  lemma ArrivedSafe(l: Loop, ph: Phones, e: Event, k: nat)
    requires Sound(l, ph) && k in l.sends && SendSafe(l, ph, k) && e.TransportMessage? && Honest(l.w, e)
    requires e.tenant in ph.transports
    ensures SendSafe(l.(w := Step(l.w, e)), ph, k)
  {
    ArrivalAbout(l.w, e.tenant, e.s, e.msg, e.arrival);
    ArrivalKeeps(l.w, e.tenant, e.s, e.msg, e.arrival);
    AboutSafe(l, Arrival(l.w, e.tenant, e.s, e.msg, e.arrival), ph, e.tenant, {e.msg.id}, k);
  }

  lemma PrunedSafe(l: Loop, ph: Phones, tenant: Tenant, cutoff: int, ok: bool, k: nat)
    requires Stored(l.w) && k in l.sends && SendSafe(l, ph, k)
    ensures SendSafe(l.(w := Prune(l.w, tenant, cutoff, ok)), ph, k)
  {
    var w' := Prune(l.w, tenant, cutoff, ok);
    ForgetKeeps(l.w, Expired(l.w.db, tenant, cutoff));
    PastStays(l.w, w', k);
    NotPosted(l.w, w', l.sends[k].tenant, ph.name(k));
    if ok && Waiting(l.w, k) && !Waiting(w', k) {
      assert w'.log[|l.w.log|].GaveUp? && Ours(k) in w'.log[|l.w.log|].tmps;
    }
  }

  lemma DepartedSafe(l: Loop, ph: Phones, e: Event, k: nat)
    requires Sound(l, ph) && k in l.sends && SendSafe(l, ph, k) && e.PostToTransport? && Honest(l.w, e)
    requires e.tenant in ph.transports
    ensures SendSafe(l.(w := Step(l.w, e)), ph, k)
  {
    var w' := Step(l.w, e);
    StepKeeps(l.w, e);
    DepartureFacts(l.w, e);
    DepartedFrom(l, w', ph, e, k);
  }

  lemma DepartureFacts(w: World, e: Event)
    requires Stored(w) && e.PostToTransport? && Honest(w, e)
    ensures var w' := Step(w, e);
            && Later(w, w') && w'.db.pending == w.db.pending
            && (forall i | |w.log| <= i < |w'.log| :: !w'.log[i].Bridged?)
            && (forall m | m in w.db.messages && m.0 != e.tenant ::
                 m in w'.db.messages && w'.db.messages[m] == w.db.messages[m])
  {
    StepKeeps(w, e);
    if Reaches(w, e) { DepartureFrame(w, e.tenant, e.s, e.post, w.mm.posts[e.post], e.target, e.reply, e.departure); }
  }

  lemma DepartureFrame(
      w: World, tenant: Tenant, s: Settings, id: PostId, post: Post, target: Option<ConvId>, reply: Option<MsgId>,
      f: DepartureFate)
    ensures var w' := Departure(w, tenant, s, id, post, target, reply, f);
            && |w.log| <= |w'.log| && w'.log[..|w.log|] == w.log && w'.db.pending == w.db.pending
                 && w'.nextTmp == w.nextTmp
            && (forall i | |w.log| <= i < |w'.log| :: !w'.log[i].Bridged?)
            && (forall m | m in w.db.messages && m.0 != tenant ::
                 m in w'.db.messages && w'.db.messages[m] == w.db.messages[m])
  {
  }

  lemma DepartedFrom(l: Loop, w': World, ph: Phones, e: Event, k: nat)
    requires k in l.sends && SendSafe(l, ph, k) && e.PostToTransport? && e.tenant in ph.transports
    requires ph.tenants !! ph.transports && Later(l.w, w') && w'.db.pending == l.w.db.pending
    requires forall i | |l.w.log| <= i < |w'.log| :: !w'.log[i].Bridged?
    requires forall m | m in l.w.db.messages && m.0 != e.tenant ::
      m in w'.db.messages && w'.db.messages[m] == l.w.db.messages[m]
    ensures SendSafe(l.(w := w'), ph, k)
  {
    PastStays(l.w, w', k);
    NotPosted(l.w, w', l.sends[k].tenant, ph.name(k));
  }

  lemma AsideSound(l: Loop, ph: Phones, e: Event)
    requires Sound(l, ph) && Allowed(l, ph, Elsewhere(e))
    ensures Sound(Next(l, Elsewhere(e)), ph)
  {
    var w' := Step(l.w, e);
    StepKeeps(l.w, e);
    forall k | k in l.sends ensures SendSafe(l.(w := w'), ph, k) { AsideSafe(l, ph, e, k); }
    AsidePending(l.w, e, ph);
    AsideFrom(l, w', ph);
  }

  lemma AsidePending(w: World, e: Event, ph: Phones)
    requires Aside(e, ph)
    ensures Step(w, e).db.pending.Keys <= w.db.pending.Keys
  {
    if e.TransportMessage? { ArrivalAbout(w, e.tenant, e.s, e.msg, e.arrival); }
  }

  lemma AsideFrom(l: Loop, w': World, ph: Phones)
    requires Sound(l, ph) && Stored(w') && Extends(l.w, w') && w'.db.pending.Keys <= l.w.db.pending.Keys
    requires forall k | k in l.sends :: SendSafe(l.(w := w'), ph, k)
    ensures Sound(l.(w := w'), ph)
  {
    var l' := l.(w := w');
    forall t, i | t in l'.queues && 0 <= i < |l'.Queue(t)|
      ensures QueueSafe(l', ph, t, i)
    {
      assert QueueSafe(l, ph, t, i);
    }
  }

  // ----- whole runs -----

  predicate AllAllowed(l: Loop, ph: Phones, ms: seq<Move>)
    decreases |ms|
  {
    ms == [] || (Allowed(l, ph, ms[0]) && AllAllowed(Next(l, ms[0]), ph, ms[1..]))
  }

  function Plays(l: Loop, ph: Phones, ms: seq<Move>): Loop
    requires AllAllowed(l, ph, ms)
    decreases |ms|
  {
    if ms == [] then l else Plays(Next(l, ms[0]), ph, ms[1..])
  }

  lemma {:induction false} PlaysSound(l: Loop, ph: Phones, ms: seq<Move>)
    requires Sound(l, ph) && AllAllowed(l, ph, ms)
    ensures Sound(Plays(l, ph, ms), ph)
    decreases |ms|
  {
    if ms != [] {
      match ms[0] {
        case Arrive(t, msg) => PushSound(l, ph, t, msg);
        case Handle(t, s, f) => HandleSound(l, ph, t, s, f);
        case Send(t, _, _, _, _, _, during) =>
          SendSound(l, ph, ms[0]);
          PushAllSound(AfterSend(l, ms[0]), ph, t, during);
        case Elsewhere(e) => AsideSound(l, ph, e);
        case Restart => RestartSound(l, ph);
      }
      PlaysSound(Next(l, ms[0]), ph, ms[1..]);
    }
  }

  /**
   Whatever the phone, the server and the storage do, a recorded send either waits under its own post, or its real
   message is mapped to the human's post, or its mapping failed to be stored, or the daemon gave up on it; and its
   message is posted back only in the last two cases, or when its echo was lost on the way to the handler.
   */
  lemma RecordedSendsAreNotPostedBack(ph: Phones, ms: seq<Move>, k: nat)
    requires ph.tenants !! ph.transports && AllAllowed(Idle, ph, ms)
    requires k in Plays(Idle, ph, ms).sends && Plays(Idle, ph, ms).sends[k].recorded
    ensures var l := Plays(Idle, ph, ms);
            && Placed(l, ph, k)
            && (PostedBack(l.w, l.sends[k].tenant, ph.name(k)) ==> Lost(l.w, k) || Abandoned(l.w, k) || k in l.missed)
  {
    PlaysSound(Idle, ph, ms);
    assert SendSafe(Plays(Idle, ph, ms), ph, k);
  }

  /**
   With every call succeeding, an event with content about a message is posted exactly when no row is waiting for it
   and no mapping stands for it: giving up on a send, or losing its mapping, is what lets it come back.
   */
  lemma PostedExactlyWhenForgotten(w: World, t: Tenant, s: Settings, msg: Message, f: IncomingFate)
    requires !msg.isOld && msg.HasContent() && AtMostOnce.Cooperates(f)
      && HonestWindow(w, t, msg.conversation, f.ensure)
    ensures AtMostOnce.Posts(Incoming(w, t, s, msg, f).log, t, msg.id) > AtMostOnce.Posts(w.log, t, msg.id)
            <==> !IsEcho(w, msg) && (t, msg.id) !in w.db.messages
  {
    if !IsEcho(w, msg) && (t, msg.id) !in w.db.messages {
      AtMostOnce.PostedTwiceExactlyOnOverlap(w, t, s, msg, f);
    } else if IsEcho(w, msg) {
      AtMostOnce.Logged(w, Acknowledged(t, msg.tmpId, msg.id, w.db.pending[msg.tmpId].post, f.ackSaveOk), t, msg.id);
    }
  }
}
