/**
 The Mattermost side as the bridge sees it: the posts that exist, the reactions they carry, and the filter that
 decides which posts come back as events.
 */
module Mattermost {
  import opened Types

  type Emoji = string

  // Marks every post the daemon creates.
  const PROP_BRIDGE := "msggw"

  datatype Post = Post(
    channel: ChannelId, root: PostId, user: UserId, kind: string, text: string, files: seq<string>,
    props: map<string, string>)
  {
    predicate FromBridge() { PROP_BRIDGE in props }

    /** Nothing but white space and no file. */
    predicate Blank() { files == [] && TrimSpace(text) == "" }

    /** The post that owns the thread this one, known as `id`, is in. */
    function ThreadRoot(id: PostId): PostId { if root != NO_POST then root else id }

    /** The loop guard: neither the bot's own posts, nor marked ones, nor system posts become events. */
    predicate Delivered(bot: UserId) { user != bot && !FromBridge() && kind == "" }
  }

  datatype NewPost = NewPost(
    channel: ChannelId, root: PostId, text: string, files: seq<string>, props: map<string, string>)

  datatype Server = Server(posts: map<PostId, Post>, next: PostId, reactions: map<PostId, set<(UserId, Emoji)>>) {
    /** Identifiers are handed out in order, so the next one is fresh. */
    ghost predicate Valid() { next > NO_POST && forall p | p in posts :: NO_POST < p < next }

    function ReactionsOn(p: PostId): set<(UserId, Emoji)> { if p in reactions then reactions[p] else {} }

    function Add(post: Post): Server { this.(posts := posts[next := post], next := next + 1) }

    function React(p: PostId, bot: UserId, e: Emoji): Server {
      this.(reactions := reactions[p := ReactionsOn(p) + {(bot, e)}])
    }

    function Unreact(p: PostId, bot: UserId, e: Emoji): Server {
      this.(reactions := reactions[p := ReactionsOn(p) - {(bot, e)}])
    }
  }

  /** The caller's properties go on top of the marker, which they can overwrite but not remove. */
  function Stamped(props: map<string, string>): map<string, string> {
    map[PROP_BRIDGE := "true"] + props
  }

  function AsPosted(p: NewPost, bot: UserId): Post {
    Post(p.channel, p.root, bot, "", p.text, p.files, Stamped(p.props))
  }

  lemma OwnPostsNeverComeBack(p: NewPost, bot: UserId, anyBot: UserId)
    ensures AsPosted(p, bot).FromBridge()
    ensures !AsPosted(p, bot).Delivered(anyBot)
  {
    assert PROP_BRIDGE in Stamped(p.props).Keys;
  }

  /** Events are made of exactly what somebody else wrote: not the bot, not a bridge, and not the server itself. */
  lemma DeliveredExactly(post: Post, bot: UserId)
    ensures post.Delivered(bot) <==> post.user != bot && "msggw" !in post.props && post.kind == ""
  {
  }

  class Client {
    var posts: map<PostId, Post>
    var next: PostId
    var reactions: map<PostId, set<(UserId, Emoji)>>

    constructor ()
      ensures View() == Server(map[], 1, map[])
    {
      posts, next, reactions := map[], 1, map[];
    }

    function View(): Server
      reads this
    {
      Server(posts, next, reactions)
    }

    /** Creates a post as `bot` and returns its identifier, or nothing when the server refuses. */
    method CreatePost(post: NewPost, bot: UserId, accepted: bool) returns (id: Option<PostId>)
      modifies this`posts, this`next
      ensures id == if accepted then Some(old(next)) else None
      ensures View() == if accepted then old(View()).Add(AsPosted(post, bot)) else old(View())
      ensures accepted ==>
        && posts.Keys == old(posts).Keys + {old(next)} && next == old(next) + 1
        && (forall p | p in old(posts) && p != old(next) :: posts[p] == old(posts)[p])
        && var made := posts[old(next)];
           && made.channel == post.channel && made.root == post.root && made.text == post.text
           && made.files == post.files && made.user == bot && made.kind == "" && "msggw" in made.props
           && forall k | k in post.props :: k in made.props && made.props[k] == post.props[k]
    {
      var props := map[PROP_BRIDGE := "true"];
      var left := post.props.Keys;
      while left != {}
        invariant left <= post.props.Keys
        invariant props.Keys == {PROP_BRIDGE} + (post.props.Keys - left)
        invariant forall k | k in props :: props[k] == if k in post.props.Keys - left then post.props[k] else "true"
        decreases left
      {
        var k :| k in left;
        props := props[k := post.props[k]];
        left := left - {k};
      }
      assert props == Stamped(post.props);
      if !accepted { return None; }
      id := Some(next);
      posts := posts[next := Post(post.channel, post.root, bot, "", post.text, post.files, props)];
      next := next + 1;
    }

    method React(post: PostId, bot: UserId, emoji: Emoji)
      modifies this`reactions
      ensures View() == old(View()).React(post, bot, emoji)
      ensures post in reactions && (bot, emoji) in reactions[post]
    {
      var there := if post in reactions then reactions[post] else {};
      reactions := reactions[post := there + {(bot, emoji)}];
    }

    method Unreact(post: PostId, bot: UserId, emoji: Emoji)
      modifies this`reactions
      ensures View() == old(View()).Unreact(post, bot, emoji)
      ensures post in reactions && (bot, emoji) !in reactions[post]
    {
      var there := if post in reactions then reactions[post] else {};
      reactions := reactions[post := there - {(bot, emoji)}];
    }
  }
}
