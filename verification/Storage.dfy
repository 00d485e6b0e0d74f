/**
 The bridge's persistent state: which thread stands for which conversation, which post for which message, and
 which sends the phone has not acknowledged.  The tables are finite maps; each statement that changes them is a
 function on `Tables` and a method of `Database` that carries it out in place.
 */
module Storage {
  import opened Types
  import opened Conversations

  datatype Direction = In | Out

  datatype MessageRow = MessageRow(
    post: PostId, conversation: ConvId, direction: Direction, status: int, createdAt: int)

  datatype PendingRow = PendingRow(tenant: Tenant, post: PostId, conversation: ConvId, createdAt: int)

  datatype ConversationRow = ConversationRow(
    id: ConvId, channel: ChannelId, root: PostId, displayName: string, isGroup: bool, outgoingId: string,
    kind: int, sendMode: int, lastSeen: int, participants: seq<Participant>)

  datatype Tables = Tables(
    messages: map<(Tenant, MsgId), MessageRow>,
    pending: map<TmpId, PendingRow>,
    conversations: map<(Tenant, ConvId), ConversationRow>)

  /** Insert or update: the creation time of a row already there is kept. */
  function SaveMessage(t: Tables, tenant: Tenant, id: MsgId, row: MessageRow): Tables {
    var kept := if (tenant, id) in t.messages then row.(createdAt := t.messages[(tenant, id)].createdAt) else row;
    t.(messages := t.messages[(tenant, id) := kept])
  }

  predicate StatusChanges(t: Tables, tenant: Tenant, id: MsgId, status: int) {
    (tenant, id) in t.messages && t.messages[(tenant, id)].status != status
  }

  function UpdateMessageStatus(t: Tables, tenant: Tenant, id: MsgId, status: int): Tables {
    if StatusChanges(t, tenant, id, status)
    then t.(messages := t.messages[(tenant, id) := t.messages[(tenant, id)].(status := status)])
    else t
  }

  /** On a conflict only the post and the conversation are replaced. */
  function AddPendingOutbound(
      t: Tables, tenant: Tenant, tmp: TmpId, post: PostId, conversation: ConvId, now: int): Tables {
    var row := if tmp in t.pending then t.pending[tmp].(post := post, conversation := conversation)
               else PendingRow(tenant, post, conversation, now);
    t.(pending := t.pending[tmp := row])
  }

  function TakePendingOutbound(t: Tables, tmp: TmpId): Tables {
    t.(pending := t.pending - {tmp})
  }

  /** The temporary identifiers a sweep gives up on. */
  function Expired(t: Tables, tenant: Tenant, cutoff: int): set<TmpId> {
    set k | k in t.pending && t.pending[k].tenant == tenant && t.pending[k].createdAt <= cutoff
  }

  function PrunePendingOutbound(t: Tables, tenant: Tenant, cutoff: int): Tables {
    t.(pending := t.pending - Expired(t, tenant, cutoff))
  }

  function SaveConversation(t: Tables, tenant: Tenant, row: ConversationRow): Tables {
    t.(conversations := t.conversations[(tenant, row.id) := row])
  }

  /** A row as it is read back: its identifier is part of the key. */
  function ConversationAt(t: Tables, tenant: Tenant, id: ConvId): ConversationRow
    requires (tenant, id) in t.conversations
  {
    t.conversations[(tenant, id)].(id := id)
  }

  function TouchConversation(t: Tables, tenant: Tenant, id: ConvId, seen: int): Tables {
    if (tenant, id) in t.conversations
    then t.(conversations := t.conversations[(tenant, id) := t.conversations[(tenant, id)].(lastSeen := seen)])
    else t
  }

  /** The conversations of `tenant` whose thread is rooted at `root`; the empty root belongs to none. */
  function RootedAt(t: Tables, tenant: Tenant, root: PostId): set<ConvId> {
    if root == NO_POST then {}
    else set k | k in t.conversations && k.0 == tenant && t.conversations[k].root == root :: k.1
  }

  function InChannel(t: Tables, tenant: Tenant, channel: ChannelId): set<ConvId> {
    set k | k in t.conversations && k.0 == tenant && t.conversations[k].channel == channel :: k.1
  }

  /** What a lookup by root post may answer: any matching row, and nothing only when there is none. */
  predicate AnswersRoot(t: Tables, tenant: Tenant, root: PostId, answer: Option<ConvId>) {
    match answer
    case Some(c) => c in RootedAt(t, tenant, root)
    case None => RootedAt(t, tenant, root) == {}
  }

  /** What a lookup by channel may answer: it refuses to guess unless exactly one conversation is there. */
  predicate AnswersChannel(t: Tables, tenant: Tenant, channel: ChannelId, answer: Option<ConvId>) {
    match answer
    case Some(c) => InChannel(t, tenant, channel) == {c}
    case None => |InChannel(t, tenant, channel)| != 1
  }

  function StandingFor(t: Tables, tenant: Tenant, post: PostId): set<MsgId> {
    if post == NO_POST then {}
    else set k | k in t.messages && k.0 == tenant && t.messages[k].post == post :: k.1
  }

  /** What the reverse lookup from a post to a message may answer. */
  predicate AnswersPost(t: Tables, tenant: Tenant, post: PostId, answer: Option<MsgId>) {
    match answer
    case Some(m) => m in StandingFor(t, tenant, post)
    case None => StandingFor(t, tenant, post) == {}
  }

  lemma TwoOrNone(t: Tables, tenant: Tenant, channel: ChannelId)
    requires |InChannel(t, tenant, channel)| != 1
    ensures (exists k :: k in t.conversations && k.0 == tenant && t.conversations[k].channel == channel) ==>
      exists k, k' :: k in t.conversations && k' in t.conversations && k != k' && k.0 == k'.0 == tenant
        && t.conversations[k].channel == t.conversations[k'].channel == channel
  {
    if k :| k in t.conversations && k.0 == tenant && t.conversations[k].channel == channel {
      var found := InChannel(t, tenant, channel);
      assert k.1 in found && |found - {k.1}| == |found| - 1;
      var c :| c in found - {k.1};
      assert (tenant, c) in t.conversations && (tenant, c) != k;
    }
  }

  class Database {
    var messages: map<(Tenant, MsgId), MessageRow>
    var pending: map<TmpId, PendingRow>
    var conversations: map<(Tenant, ConvId), ConversationRow>

    constructor ()
      ensures Contents() == Tables(map[], map[], map[])
    {
      messages, pending, conversations := map[], map[], map[];
    }

    function Contents(): Tables
      reads this
    {
      Tables(messages, pending, conversations)
    }

    method Save(tenant: Tenant, id: MsgId, row: MessageRow)
      modifies this`messages
      ensures Contents() == SaveMessage(old(Contents()), tenant, id, row)
      ensures (tenant, id) !in old(messages) ==> messages == old(messages)[(tenant, id) := row]
      ensures (tenant, id) in old(messages) ==>
        messages == old(messages)[(tenant, id) := row.(createdAt := old(messages)[(tenant, id)].createdAt)]
    {
      if (tenant, id) in messages {
        messages := messages[(tenant, id) := row.(createdAt := messages[(tenant, id)].createdAt)];
      } else {
        messages := messages[(tenant, id) := row];
      }
    }

    method Get(tenant: Tenant, id: MsgId) returns (row: Option<MessageRow>)
      ensures row == if (tenant, id) in messages then Some(messages[(tenant, id)]) else None
    {
      row := if (tenant, id) in messages then Some(messages[(tenant, id)]) else None;
    }

    method GetByPost(tenant: Tenant, post: PostId) returns (id: Option<MsgId>)
      ensures AnswersPost(Contents(), tenant, post, id)
      ensures id.Some? ==>
        post != NO_POST && (tenant, id.value) in messages && messages[(tenant, id.value)].post == post
      ensures id.None? && post != NO_POST ==> forall k | k in messages && k.0 == tenant :: messages[k].post != post
    {
      var candidates := StandingFor(Contents(), tenant, post);
      assert post != NO_POST ==>
        forall k | k in messages && k.0 == tenant && messages[k].post == post :: k.1 in candidates;
      if candidates == {} { return None; }
      var found :| found in candidates;
      id := Some(found);
    }

    /** Reports whether the status was news, which is what stops repeats from re-decorating a post. */
    method UpdateStatus(tenant: Tenant, id: MsgId, status: int) returns (changed: bool)
      modifies this`messages
      ensures changed == old(StatusChanges(Contents(), tenant, id, status))
      ensures Contents() == UpdateMessageStatus(old(Contents()), tenant, id, status)
      ensures changed <==> (tenant, id) in old(messages) && old(messages)[(tenant, id)].status != status
      ensures messages == if changed then old(messages)[(tenant, id) := old(messages)[(tenant, id)].(status := status)]
                          else old(messages)
    {
      changed := (tenant, id) in messages && messages[(tenant, id)].status != status;
      if changed {
        messages := messages[(tenant, id) := messages[(tenant, id)].(status := status)];
      }
    }

    method AddPending(tenant: Tenant, tmp: TmpId, post: PostId, conversation: ConvId, now: int)
      modifies this`pending
      ensures Contents() == AddPendingOutbound(old(Contents()), tenant, tmp, post, conversation, now)
      ensures tmp !in old(pending) ==> pending == old(pending)[tmp := PendingRow(tenant, post, conversation, now)]
      ensures tmp in old(pending) ==>
        pending == old(pending)[tmp := old(pending)[tmp].(post := post, conversation := conversation)]
    {
      if tmp in pending {
        pending := pending[tmp := pending[tmp].(post := post, conversation := conversation)];
      } else {
        pending := pending[tmp := PendingRow(tenant, post, conversation, now)];
      }
    }

    /** Resolves a temporary identifier to the post it came from and forgets it. */
    method TakePending(tmp: TmpId) returns (post: Option<PostId>)
      modifies this`pending
      ensures post == if tmp != NoTmp && tmp in old(pending) then Some(old(pending)[tmp].post) else None
      ensures Contents() == if post.Some? then TakePendingOutbound(old(Contents()), tmp) else old(Contents())
      ensures pending == if tmp == NoTmp then old(pending) else old(pending) - {tmp}
    {
      if tmp == NoTmp || tmp !in pending { return None; }
      post := Some(pending[tmp].post);
      pending := pending - {tmp};
    }

    method PrunePending(tenant: Tenant, cutoff: int) returns (dropped: set<TmpId>)
      modifies this`pending
      ensures dropped == Expired(old(Contents()), tenant, cutoff)
      ensures Contents() == PrunePendingOutbound(old(Contents()), tenant, cutoff)
      ensures forall k :: k in pending <==>
        k in old(pending) && (old(pending)[k].tenant != tenant || old(pending)[k].createdAt > cutoff)
      ensures forall k | k in pending :: pending[k] == old(pending)[k]
    {
      dropped := set k | k in pending && pending[k].tenant == tenant && pending[k].createdAt <= cutoff;
      pending := pending - dropped;
    }

    method SaveConv(tenant: Tenant, row: ConversationRow)
      modifies this`conversations
      ensures Contents() == SaveConversation(old(Contents()), tenant, row)
      ensures conversations == old(conversations)[(tenant, row.id) := row]
    {
      conversations := conversations[(tenant, row.id) := row];
    }

    method GetConv(tenant: Tenant, id: ConvId) returns (row: Option<ConversationRow>)
      ensures row == if (tenant, id) in conversations then Some(ConversationAt(Contents(), tenant, id)) else None
    {
      row := if (tenant, id) in conversations then Some(conversations[(tenant, id)].(id := id)) else None;
    }

    method GetByRootPost(tenant: Tenant, root: PostId) returns (id: Option<ConvId>)
      ensures AnswersRoot(Contents(), tenant, root, id)
      ensures id.Some? ==>
        root != NO_POST && (tenant, id.value) in conversations && conversations[(tenant, id.value)].root == root
      ensures id.None? && root != NO_POST ==>
        forall k | k in conversations && k.0 == tenant :: conversations[k].root != root
    {
      var candidates := RootedAt(Contents(), tenant, root);
      assert root != NO_POST ==>
        forall k | k in conversations && k.0 == tenant && conversations[k].root == root :: k.1 in candidates;
      if candidates == {} { return None; }
      var found :| found in candidates;
      id := Some(found);
    }

    method GetSoleInChannel(tenant: Tenant, channel: ChannelId) returns (id: Option<ConvId>)
      ensures AnswersChannel(Contents(), tenant, channel, id)
      ensures id.Some? ==> forall k | k in conversations && k.0 == tenant ::
        conversations[k].channel == channel <==> k.1 == id.value
      ensures id.Some? ==> (tenant, id.value) in conversations
      ensures id.None? && (exists k :: k in conversations && k.0 == tenant && conversations[k].channel == channel) ==>
        exists k, k' :: k in conversations && k' in conversations && k != k' && k.0 == k'.0 == tenant
          && conversations[k].channel == conversations[k'].channel == channel
    {
      var candidates := InChannel(Contents(), tenant, channel);
      if |candidates| != 1 {
        TwoOrNone(Contents(), tenant, channel);
        return None;
      }
      var found :| found in candidates;
      assert |candidates - {found}| == 0;
      assert forall k | k in conversations && k.0 == tenant && conversations[k].channel == channel :: k.1 in candidates;
      id := Some(found);
    }

    method Touch(tenant: Tenant, id: ConvId, seen: int)
      modifies this`conversations
      ensures Contents() == TouchConversation(old(Contents()), tenant, id, seen)
      ensures conversations == if (tenant, id) !in old(conversations) then old(conversations)
        else old(conversations)[(tenant, id) := old(conversations)[(tenant, id)].(lastSeen := seen)]
    {
      if (tenant, id) in conversations {
        conversations := conversations[(tenant, id) := conversations[(tenant, id)].(lastSeen := seen)];
      }
    }
  }
}
