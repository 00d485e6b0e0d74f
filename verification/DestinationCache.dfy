/**
 Destinations resolved to channels, with a cache keyed by a joined string.  Resolving is done outside the mutex, so
 any number of callers may be between their lookup and their store.
 */
module DestinationCache {
  import opened Types
  import opened Config

  function Join(parts: seq<string>, sep: char): string {
    if parts == [] then ""
    else if |parts| == 1 then parts[0]
    else parts[0] + [sep] + Join(parts[1..], sep)
  }

  const NUL: char := '\0'

  function Key(d: Destination): string {
    Join([d.kind, d.team, d.channel, d.channelId, d.user, Join(d.users, ',')], NUL)
  }

  predicate Free(s: string, c: char) { c !in s }

  predicate NulFree(d: Destination) {
    && Free(d.kind, NUL) && Free(d.team, NUL) && Free(d.channel, NUL) && Free(d.channelId, NUL) && Free(d.user, NUL)
    && forall i | 0 <= i < |d.users| :: Free(d.users[i], NUL)
  }

  predicate PlainNames(names: seq<string>) { forall i | 0 <= i < |names| :: names[i] != "" && Free(names[i], ',') }

  predicate Plain(d: Destination) { NulFree(d) && PlainNames(d.users) }

  // ----- the key tells destinations apart -----

  /** The first separator ends the first part. */
  lemma FirstSeparator(x: string, r: string, c: char)
    requires Free(x, c)
    ensures var s := x + [c] + r; s[|x|] == c && forall i | 0 <= i < |x| :: s[i] != c
  {
    var s := x + [c] + r;
    assert forall i | 0 <= i < |x| :: s[i] == x[i];
  }

  lemma SplitAt(x: string, r: string, x': string, r': string, c: char)
    requires Free(x, c) && Free(x', c) && x + [c] + r == x' + [c] + r'
    ensures x == x' && r == r'
  {
    var s, s' := x + [c] + r, x' + [c] + r';
    FirstSeparator(x, r, c);
    FirstSeparator(x', r', c);
    assert |x| == |x'|;
    assert x == s[..|x|] == s'[..|x|] == x';
    assert r == s[|x| + 1..] == s'[|x| + 1..] == r';
  }

  lemma {:induction false} JoinInjective(a: seq<string>, b: seq<string>, c: char)
    requires |a| == |b| && Join(a, c) == Join(b, c)
    requires forall i | 0 <= i < |a| :: Free(a[i], c) && Free(b[i], c)
    ensures a == b
  {
    if |a| > 1 {
      SplitAt(a[0], Join(a[1..], c), b[0], Join(b[1..], c), c);
      JoinInjective(a[1..], b[1..], c);
      assert a == [a[0]] + a[1..] && b == [b[0]] + b[1..];
    }
  }

  lemma {:induction false} JoinFree(parts: seq<string>, sep: char, c: char)
    requires c != sep && forall i | 0 <= i < |parts| :: Free(parts[i], c)
    ensures Free(Join(parts, sep), c)
  {
    if |parts| > 1 { JoinFree(parts[1..], sep, c); }
  }

  /** A join of plain names shows whether there were none, one or more. */
  lemma JoinShape(names: seq<string>)
    requires PlainNames(names)
    ensures names == [] <==> Join(names, ',') == ""
    ensures |names| > 1 <==> ',' in Join(names, ',')
  {
    if |names| > 1 { assert Join(names, ',')[|names[0]|] == ','; }
  }

  lemma {:induction false} NamesInjective(a: seq<string>, b: seq<string>)
    requires PlainNames(a) && PlainNames(b) && Join(a, ',') == Join(b, ',')
    ensures a == b
  {
    JoinShape(a);
    JoinShape(b);
    if |a| > 1 {
      SplitAt(a[0], Join(a[1..], ','), b[0], Join(b[1..], ','), ',');
      NamesInjective(a[1..], b[1..]);
      assert a == [a[0]] + a[1..] && b == [b[0]] + b[1..];
    }
  }

  /** With no NUL about, two destinations share a key exactly when they differ in nothing but how users are cut. */
  lemma KeysAgreeExactly(d: Destination, d': Destination)
    requires NulFree(d) && NulFree(d')
    ensures Key(d) == Key(d') <==> d.(users := d'.users) == d' && Join(d.users, ',') == Join(d'.users, ',')
  {
    JoinFree(d.users, ',', NUL);
    JoinFree(d'.users, ',', NUL);
    if Key(d) == Key(d') {
      JoinInjective([d.kind, d.team, d.channel, d.channelId, d.user, Join(d.users, ',')],
                    [d'.kind, d'.team, d'.channel, d'.channelId, d'.user, Join(d'.users, ',')], NUL);
    }
  }

  lemma KeyInjective(d: Destination, d': Destination)
    requires Plain(d) && Plain(d') && Key(d) == Key(d')
    ensures d == d'
  {
    KeysAgreeExactly(d, d');
    NamesInjective(d.users, d'.users);
  }

  /** Validation does not ask for plain names, and without them two valid destinations can share a key. */
  lemma ValidIsNotEnough() returns (d: Destination, d': Destination)
    ensures d.Valid() && d'.Valid() && NulFree(d) && NulFree(d') && d != d' && Key(d) == Key(d')
  {
    d := Destination(DEST_GROUP, "", "", "", "", ["a,b", "c"]);
    d' := Destination(DEST_GROUP, "", "", "", "", ["a", "b,c"]);
    var u, u' := d.users, d'.users;
    assert u[1..] == ["c"] && u'[1..] == ["b,c"];
    assert Join(u, ',') == "a,b,c" == Join(u', ',');
    assert u[0] != u'[0];
  }

  // ----- the cache -----

  // What the server answers for each destination; a call may fail all the same.
  type Server = Destination -> ChannelId

  class Cache {
    var channels: map<string, ChannelId>

    constructor ()
      ensures channels == map[]
    {
      channels := map[];
    }

    method Lookup(d: Destination) returns (hit: Option<ChannelId>)
      ensures hit == Cached(channels, d)
    {
      var key := Key(d);
      hit := if key in channels then Some(channels[key]) else None;
    }

    method Store(d: Destination, channel: ChannelId)
      modifies this
      ensures channels == Remembered(old(channels), d, channel)
    {
      channels := channels[Key(d) := channel];
    }

    /** One caller, from lookup to store, when nobody else is at it and the key tells the destinations in use apart. */
    method ResolveDestination(server: Server, d: Destination, ok: bool, ghost ds: iset<Destination>)
      returns (channel: Option<ChannelId>)
      requires d in ds && KeysTellApart(ds) && Agrees(channels, server, ds)
      modifies this
      ensures Agrees(channels, server, ds)
      ensures channel.Some? ==> channel.value == server(d)
      ensures channel.None? <==> !ok && Cached(old(channels), d).None?
      ensures channel.Some? ==> Cached(channels, d) == channel
    {
      var hit := Lookup(d);
      if hit.Some? {
        HitIsRight(channels, server, ds, d);
        return hit;
      }
      if !ok { return None; }
      StoreAgrees(channels, server, ds, d);
      Store(d, server(d));
      channel := Some(server(d));
    }
  }

  function Cached(channels: map<string, ChannelId>, d: Destination): Option<ChannelId> {
    if Key(d) in channels then Some(channels[Key(d)]) else None
  }

  function Remembered(channels: map<string, ChannelId>, d: Destination, channel: ChannelId): map<string, ChannelId> {
    channels[Key(d) := channel]
  }

  /** The destinations in use can be told apart by their keys. */
  ghost predicate KeysTellApart(ds: iset<Destination>) {
    forall d, d' | d in ds && d' in ds :: Key(d) == Key(d') ==> d == d'
  }

  /** The entry is the answer of one of the destinations in use. */
  ghost predicate EntryAgrees(k: string, channel: ChannelId, server: Server, ds: iset<Destination>) {
    exists d :: d in ds && Key(d) == k && channel == server(d)
  }

  ghost predicate Agrees(channels: map<string, ChannelId>, server: Server, ds: iset<Destination>) {
    forall k | k in channels :: EntryAgrees(k, channels[k], server, ds)
  }

  lemma HitIsRight(channels: map<string, ChannelId>, server: Server, ds: iset<Destination>, d: Destination)
    requires Agrees(channels, server, ds) && KeysTellApart(ds) && d in ds && Cached(channels, d).Some?
    ensures Cached(channels, d).value == server(d)
  {
    assert EntryAgrees(Key(d), channels[Key(d)], server, ds);
  }

  lemma StoreAgrees(channels: map<string, ChannelId>, server: Server, ds: iset<Destination>, d: Destination)
    requires Agrees(channels, server, ds) && d in ds
    ensures Agrees(Remembered(channels, d, server(d)), server, ds)
  {
    var after := Remembered(channels, d, server(d));
    forall k | k in after ensures EntryAgrees(k, after[k], server, ds) {
      if k != Key(d) { assert EntryAgrees(k, channels[k], server, ds); }
    }
  }

  // Callers between their lookup and their store, and every answer given so far.
  datatype State = State(
    channels: map<string, ChannelId>, resolving: map<nat, Destination>, answers: seq<(Destination, ChannelId)>)

  const Empty := State(map[], map[], [])

  datatype Move = Ask(caller: nat, d: Destination) | Finish(caller: nat, ok: bool)

  predicate Allowed(s: State, m: Move) {
    match m
    case Ask(caller, _) => caller !in s.resolving
    case Finish(caller, _) => caller in s.resolving
  }

  function Next(s: State, server: Server, m: Move): State
    requires Allowed(s, m)
  {
    match m
    case Ask(caller, d) =>
      if Cached(s.channels, d).Some? then s.(answers := s.answers + [(d, Cached(s.channels, d).value)])
      else s.(resolving := s.resolving[caller := d])
    case Finish(caller, ok) =>
      var d := s.resolving[caller];
      var s1 := s.(resolving := s.resolving - {caller});
      if ok then s1.(channels := Remembered(s.channels, d, server(d)), answers := s.answers + [(d, server(d))]) else s1
  }

  predicate AllAllowed(s: State, server: Server, ms: seq<Move>)
    decreases |ms|
  {
    ms == [] || (Allowed(s, ms[0]) && AllAllowed(Next(s, server, ms[0]), server, ms[1..]))
  }

  function Run(s: State, server: Server, ms: seq<Move>): State
    requires AllAllowed(s, server, ms)
    decreases |ms|
  {
    if ms == [] then s else Run(Next(s, server, ms[0]), server, ms[1..])
  }

  /** Callers ask for nothing but `ds`. */
  ghost predicate AsksFor(ms: seq<Move>, ds: iset<Destination>) {
    forall i | 0 <= i < |ms| && ms[i].Ask? :: ms[i].d in ds
  }

  ghost predicate AnswersRight(s: State, server: Server) {
    forall i | 0 <= i < |s.answers| :: s.answers[i].1 == server(s.answers[i].0)
  }

  ghost predicate Right(s: State, server: Server, ds: iset<Destination>) {
    Agrees(s.channels, server, ds) && (forall c | c in s.resolving :: s.resolving[c] in ds) && AnswersRight(s, server)
  }

  lemma StepRight(s: State, server: Server, m: Move, ds: iset<Destination>)
    requires KeysTellApart(ds) && Right(s, server, ds) && Allowed(s, m) && (m.Ask? ==> m.d in ds)
    ensures Right(Next(s, server, m), server, ds)
  {
    match m
    case Ask(caller, d) => if Cached(s.channels, d).Some? { HitIsRight(s.channels, server, ds, d); }
    case Finish(caller, ok) => StoreAgrees(s.channels, server, ds, s.resolving[caller]);
  }

  lemma {:induction false} RunRight(s: State, server: Server, ms: seq<Move>, ds: iset<Destination>)
    requires KeysTellApart(ds) && Right(s, server, ds) && AllAllowed(s, server, ms) && AsksFor(ms, ds)
    ensures Right(Run(s, server, ms), server, ds)
    decreases |ms|
  {
    if ms != [] {
      StepRight(s, server, ms[0], ds);
      RunRight(Next(s, server, ms[0]), server, ms[1..], ds);
    }
  }

  /** Over every server and every interleaving of callers asking for `ds`, each answer is the destination's own. */
  ghost predicate AlwaysRight(ds: iset<Destination>) {
    forall server, ms | AllAllowed(Empty, server, ms) && AsksFor(ms, ds) :: AnswersRight(Run(Empty, server, ms), server)
  }

  // One caller asks for a destination, and then somebody for another with the same key.
  function FirstThen(d: Destination, d': Destination): seq<Move> { [Ask(0, d), Finish(0, true), Ask(0, d')] }

  lemma {:induction false} SharedKeyMisleads(server: Server, d: Destination, d': Destination)
    requires Key(d) == Key(d')
    ensures AllAllowed(Empty, server, FirstThen(d, d'))
    ensures Run(Empty, server, FirstThen(d, d')).answers == [(d, server(d)), (d', server(d))]
  {
    var ms := FirstThen(d, d');
    var s1 := Next(Empty, server, ms[0]);
    var s2 := Next(s1, server, ms[1]);
    assert s2.channels == map[Key(d) := server(d)] && s2.resolving == map[];
    var s3 := Next(s2, server, ms[2]);
    assert ms[1..] == [Finish(0, true), Ask(0, d')] && ms[1..][1..] == [Ask(0, d')] && ms[1..][1..][1..] == [];
    assert AllAllowed(s3, server, []) && Run(s3, server, []) == s3;
    assert AllAllowed(s2, server, [Ask(0, d')]) && Run(s2, server, [Ask(0, d')]) == s3;
    assert AllAllowed(s1, server, ms[1..]) && Run(s1, server, ms[1..]) == s3;
  }

  /** Answers are always right if and only if no two destinations in use share a key. */
  lemma {:induction false} AlwaysRightExactly(ds: iset<Destination>)
    ensures AlwaysRight(ds) <==> KeysTellApart(ds)
  {
    if KeysTellApart(ds) {
      forall server, ms | AllAllowed(Empty, server, ms) && AsksFor(ms, ds)
        ensures AnswersRight(Run(Empty, server, ms), server)
      {
        RunRight(Empty, server, ms, ds);
      }
    } else {
      var d, d' :| d in ds && d' in ds && Key(d) == Key(d') && d != d';
      var server: Server := x => if x == d then "first" else "second";
      SharedKeyMisleads(server, d, d');
      assert Run(Empty, server, FirstThen(d, d')).answers[1] == (d', "first");
      assert AsksFor(FirstThen(d, d'), ds);
    }
  }

  /** Among destinations with no NUL and plain user names each answer is the destination's own. */
  lemma {:induction false} EveryAnswerIsTheDestinations(server: Server, ms: seq<Move>, i: nat)
    requires AllAllowed(Empty, server, ms) && forall k | 0 <= k < |ms| && ms[k].Ask? :: Plain(ms[k].d)
    requires i < |Run(Empty, server, ms).answers|
    ensures var (d, channel) := Run(Empty, server, ms).answers[i]; channel == server(d)
  {
    var plain := iset d: Destination | Plain(d);
    forall d, d' | d in plain && d' in plain ensures Key(d) == Key(d') ==> d == d' {
      if Key(d) == Key(d') { KeyInjective(d, d'); }
    }
    AlwaysRightExactly(plain);
    assert AsksFor(ms, plain);
    assert AnswersRight(Run(Empty, server, ms), server);
  }

  /** Validation is not enough: of two valid destinations the second is answered with the channel of the first. */
  lemma {:induction false} ValidCanBeMisanswered() returns (server: Server, ms: seq<Move>)
    ensures AllAllowed(Empty, server, ms)
    ensures forall i | 0 <= i < |ms| && ms[i].Ask? :: ms[i].d.Valid() && NulFree(ms[i].d)
    ensures !AnswersRight(Run(Empty, server, ms), server)
  {
    var d, d' := ValidIsNotEnough();
    server := x => if x == d then "first" else "second";
    ms := FirstThen(d, d');
    SharedKeyMisleads(server, d, d');
    assert Run(Empty, server, ms).answers[1] == (d', "first");
  }
}
