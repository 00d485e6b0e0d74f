/**
 The three conversation models (phone, Discord and the normalised transport one) and the title each shows.
 */
module Conversations {
  import opened Types

  datatype Participant = Participant(id: string, phone: string, displayName: string, isMe: bool) {
    function Label(): string { if displayName != "" then displayName else phone }
  }

  // gmessages.Conversation
  datatype PhoneConversation = PhoneConversation(
    id: ConvId, name: string, isGroup: bool, kind: int, sendMode: int, outgoingId: string,
    participants: seq<Participant>)
  {
    function Title(): string { TitleOf(id, name, Labels(Others(participants))) }
  }

  // transport.Conversation, reduced to what routing reads.
  datatype Conversation = Conversation(
    id: ConvId, name: string, isGroup: bool, guildId: string, participants: seq<Participant>)
  {
    function Title(): string { TitleOf(id, name, Labels(Others(participants))) }
  }

  datatype DiscordParticipant = DiscordParticipant(id: string, displayName: string, isMe: bool)

  // discord.Conversation
  datatype DiscordConversation = DiscordConversation(
    id: ConvId, guildId: string, name: string, isGroup: bool, participants: seq<DiscordParticipant>)
  {
    function Title(): string { TitleOf(id, name, DisplayNames(DiscordOthers(participants))) }
  }

  function Others(ps: seq<Participant>): seq<Participant> {
    if ps == [] then []
    else Others(ps[..|ps| - 1]) + (if ps[|ps| - 1].isMe then [] else [ps[|ps| - 1]])
  }

  function DiscordOthers(ps: seq<DiscordParticipant>): seq<DiscordParticipant> {
    if ps == [] then []
    else DiscordOthers(ps[..|ps| - 1]) + (if ps[|ps| - 1].isMe then [] else [ps[|ps| - 1]])
  }

  function Labels(ps: seq<Participant>): (r: seq<string>)
    ensures |r| == |ps|
  {
    seq(|ps|, i requires 0 <= i < |ps| => ps[i].Label())
  }

  function DisplayNames(ps: seq<DiscordParticipant>): (r: seq<string>)
    ensures |r| == |ps|
  {
    seq(|ps|, i requires 0 <= i < |ps| => ps[i].displayName)
  }

  /** Every name preceded by a comma and a space. */
  function CommaList(names: seq<string>): string {
    if names == [] then "" else CommaList(names[..|names| - 1]) + ", " + names[|names| - 1]
  }

  function JoinAnd(names: seq<string>): string {
    if names == [] then ""
    else if |names| == 1 then names[0]
    else names[0] + CommaList(names[1..|names| - 1]) + " and " + names[|names| - 1]
  }

  /** The conversation's own name when it has one, otherwise who else is in it, otherwise its identifier. */
  function TitleOf(id: ConvId, name: string, others: seq<string>): string {
    if name != "" then name
    else if others == [] then id
    else JoinAnd(others)
  }

  // ----- as the loops compute them -----

  method OtherParticipants(ps: seq<Participant>) returns (out: seq<Participant>)
    ensures out == Others(ps)
  {
    out := [];
    for i := 0 to |ps|
      invariant out == Others(ps[..i])
    {
      assert ps[..i + 1][..i] == ps[..i];
      if !ps[i].isMe { out := out + [ps[i]]; }
    }
    assert ps[..|ps|] == ps;
  }

  method OtherDiscordParticipants(ps: seq<DiscordParticipant>) returns (out: seq<DiscordParticipant>)
    ensures out == DiscordOthers(ps)
  {
    out := [];
    for i := 0 to |ps|
      invariant out == DiscordOthers(ps[..i])
    {
      assert ps[..i + 1][..i] == ps[..i];
      if !ps[i].isMe { out := out + [ps[i]]; }
    }
    assert ps[..|ps|] == ps;
  }

  method JoinNames(names: seq<string>) returns (out: string)
    ensures out == JoinAnd(names)
  {
    if |names| == 0 { return ""; }
    if |names| == 1 { return names[0]; }
    out := names[0];
    var middle := names[1..|names| - 1];
    for i := 0 to |middle|
      invariant out == names[0] + CommaList(middle[..i])
    {
      assert middle[..i + 1][..i] == middle[..i];
      assert names[0] + (CommaList(middle[..i]) + ", " + middle[i])
        == (names[0] + CommaList(middle[..i])) + ", " + middle[i];
      out := out + ", " + middle[i];
    }
    assert middle[..|middle|] == middle;
    out := out + " and " + names[|names| - 1];
  }

  method TransportTitle(c: Conversation) returns (title: string)
    ensures title == c.Title()
  {
    if c.name != "" { return c.name; }
    var others := OtherParticipants(c.participants);
    if |others| == 0 { return c.id; }
    var names := [];
    for i := 0 to |others|
      invariant names == Labels(others)[..i]
    {
      names := names + [others[i].Label()];
    }
    assert names == Labels(others);
    title := JoinNames(names);
  }

  method PhoneTitle(c: PhoneConversation) returns (title: string)
    ensures title == c.Title()
  {
    if c.name != "" { return c.name; }
    var others := OtherParticipants(c.participants);
    if |others| == 0 { return c.id; }
    if |others| == 1 { return if others[0].displayName != "" then others[0].displayName else others[0].phone; }
    var names := [];
    for i := 0 to |others|
      invariant names == Labels(others)[..i]
    {
      names := names + [others[i].Label()];
    }
    assert names == Labels(others);
    title := JoinNames(names);
  }

  method DiscordTitle(c: DiscordConversation) returns (title: string)
    ensures title == c.Title()
  {
    if c.name != "" { return c.name; }
    var others := OtherDiscordParticipants(c.participants);
    if |others| == 0 { return c.id; }
    var names := [];
    for i := 0 to |others|
      invariant names == DisplayNames(others)[..i]
    {
      names := names + [others[i].displayName];
    }
    assert names == DisplayNames(others);
    title := JoinNames(names);
  }

  // ----- Discord conversations as normalised ones -----

  function ToTransportParticipant(p: DiscordParticipant): Participant { Participant(p.id, "", p.displayName, p.isMe) }

  function ToTransport(c: DiscordConversation): Conversation {
    Conversation(c.id, c.name, c.isGroup, c.guildId,
                 seq(|c.participants|,
                     i requires 0 <= i < |c.participants| => ToTransportParticipant(c.participants[i])))
  }

  method ToTransportConversation(c: DiscordConversation) returns (out: Conversation)
    ensures out == ToTransport(c)
  {
    var participants := [];
    for i := 0 to |c.participants|
      invariant participants == ToTransport(c).participants[..i]
    {
      participants := participants + [ToTransportParticipant(c.participants[i])];
    }
    out := Conversation(c.id, c.name, c.isGroup, c.guildId, participants);
  }

  lemma {:induction false} OthersCorrespond(ps: seq<DiscordParticipant>, qs: seq<Participant>)
    requires |qs| == |ps| && forall i | 0 <= i < |ps| :: qs[i] == ToTransportParticipant(ps[i])
    ensures Labels(Others(qs)) == DisplayNames(DiscordOthers(ps))
  {
    if ps != [] {
      var last := |ps| - 1;
      OthersCorrespond(ps[..last], qs[..last]);
      var front, front' := Others(qs[..last]), DiscordOthers(ps[..last]);
      if !ps[last].isMe {
        assert Labels(front + [qs[last]]) == Labels(front) + [qs[last].Label()];
        assert DisplayNames(front' + [ps[last]]) == DisplayNames(front') + [ps[last].displayName];
      } else {
        assert front + [] == front && front' + [] == front';
      }
    }
  }

  /** A Discord conversation shows the same title however it is looked at. */
  lemma TitlesAgree(c: DiscordConversation)
    ensures ToTransport(c).Title() == c.Title()
  {
    OthersCorrespond(c.participants, ToTransport(c).participants);
  }

  // ----- what changes a title -----

  lemma {:induction false} SameLabels(ps: seq<Participant>, qs: seq<Participant>)
    requires |ps| == |qs| && forall i | 0 <= i < |ps| :: ps[i].isMe == qs[i].isMe
    requires forall i | 0 <= i < |ps| && !ps[i].isMe :: ps[i].Label() == qs[i].Label()
    ensures Labels(Others(ps)) == Labels(Others(qs))
  {
    if ps != [] {
      var last := |ps| - 1;
      SameLabels(ps[..last], qs[..last]);
      assert forall i | 0 <= i < |Others(ps[..last])| :: Labels(Others(ps))[i] == Labels(Others(ps[..last]))[i];
      assert forall i | 0 <= i < |Others(qs[..last])| :: Labels(Others(qs))[i] == Labels(Others(qs[..last]))[i];
    }
  }

  /** Where the label of participant `i` stands among those of the others. */
  lemma {:induction false} OneLabelDiffers(ps: seq<Participant>, qs: seq<Participant>, i: nat) returns (k: nat)
    requires |ps| == |qs| && i < |ps| && !ps[i].isMe && !qs[i].isMe
    requires forall j | 0 <= j < |ps| && j != i :: ps[j] == qs[j]
    ensures |Others(ps)| == |Others(qs)| && k < |Others(ps)| && Others(ps)[k] == ps[i] && Others(qs)[k] == qs[i]
    ensures forall j | 0 <= j < |Others(ps)| && j != k :: Others(ps)[j] == Others(qs)[j]
  {
    var last := |ps| - 1;
    if i == last {
      assert ps[..last] == qs[..last];
      k := |Others(ps[..last])|;
    } else {
      k := OneLabelDiffers(ps[..last], qs[..last], i);
    }
  }

  lemma Cancel(before: string, x: string, y: string, after: string)
    ensures before + x + after == before + y + after <==> x == y
  {
    var s, t := before + x + after, before + y + after;
    if s == t {
      assert |x| == |y|;
      assert x == s[|before|..|before| + |x|] == t[|before|..|before| + |y|] == y;
    }
  }

  lemma {:induction false} ListShows(names: seq<string>, names': seq<string>, k: nat)
    requires |names| == |names'| && k < |names| && forall j | 0 <= j < |names| && j != k :: names[j] == names'[j]
    ensures CommaList(names) == CommaList(names') <==> names[k] == names'[k]
  {
    var last := |names| - 1;
    if k == last {
      assert names[..last] == names'[..last];
      Cancel(CommaList(names[..last]) + ", ", names[last], names'[last], "");
    } else {
      ListShows(names[..last], names'[..last], k);
      var tail := ", " + names[last];
      Cancel("", CommaList(names[..last]), CommaList(names'[..last]), tail);
      assert CommaList(names) == "" + CommaList(names[..last]) + tail;
      assert CommaList(names') == "" + CommaList(names'[..last]) + tail;
    }
  }

  /** A list of names shows each of them. */
  lemma JoinShows(names: seq<string>, names': seq<string>, k: nat)
    requires |names| == |names'| && k < |names| && forall j | 0 <= j < |names| && j != k :: names[j] == names'[j]
    ensures JoinAnd(names) == JoinAnd(names') <==> names[k] == names'[k]
  {
    if |names| > 1 {
      if k == 0 {
        FirstShows(names, names');
      } else if k == |names| - 1 {
        LastShows(names, names');
      } else {
        MiddleShows(names, names', k);
      }
    }
  }

  lemma FirstShows(names: seq<string>, names': seq<string>)
    requires |names| == |names'| > 1 && forall j | 0 < j < |names| :: names[j] == names'[j]
    ensures JoinAnd(names) == JoinAnd(names') <==> names[0] == names'[0]
  {
    var last := |names| - 1;
    assert names[1..last] == names'[1..last];
    CancelIn("", names[0], names'[0], CommaList(names[1..last]) + " and ", names[last]);
    FirstJoined(names);
    FirstJoined(names');
  }

  lemma FirstJoined(names: seq<string>)
    requires |names| > 1
    ensures var last := |names| - 1;
            JoinAnd(names) == "" + names[0] + (CommaList(names[1..last]) + " and ") + names[last]
  {
  }

  lemma LastShows(names: seq<string>, names': seq<string>)
    requires |names| == |names'| > 1 && forall j | 0 <= j < |names| - 1 :: names[j] == names'[j]
    ensures JoinAnd(names) == JoinAnd(names') <==> names[|names| - 1] == names'[|names| - 1]
  {
    var last := |names| - 1;
    assert names[1..last] == names'[1..last];
    Cancel(names[0] + CommaList(names[1..last]) + " and ", names[last], names'[last], "");
  }

  lemma MiddleShows(names: seq<string>, names': seq<string>, k: nat)
    requires |names| == |names'| && 0 < k < |names| - 1
    requires forall j | 0 <= j < |names| && j != k :: names[j] == names'[j]
    ensures JoinAnd(names) == JoinAnd(names') <==> names[k] == names'[k]
  {
    var last := |names| - 1;
    ListShows(names[1..last], names'[1..last], k - 1);
    CancelIn(names[0], CommaList(names[1..last]), CommaList(names'[1..last]), " and ", names[last]);
    Joined(names);
    Joined(names');
  }

  lemma Joined(names: seq<string>)
    requires |names| > 1
    ensures var last := |names| - 1; JoinAnd(names) == names[0] + CommaList(names[1..last]) + " and " + names[last]
  {
  }

  lemma CancelIn(before: string, x: string, y: string, between: string, after: string)
    ensures before + x + between + after == before + y + between + after <==> x == y
  {
    Cancel(before, x, y, between + after);
    assert before + x + between + after == before + x + (between + after);
    assert before + y + between + after == before + y + (between + after);
  }

  // ----- how a title reads -----

  lemma {:induction false} CommaListReads(first: string, rest: seq<string>)
    ensures CommaList([first] + rest) == ", " + first + CommaList(rest)
  {
    var all := [first] + rest;
    if rest == [] {
      assert all[..0] == [] && CommaList(all) == "" + ", " + first;
    } else {
      var last := |rest| - 1;
      assert all[..|all| - 1] == [first] + rest[..last];
      CommaListReads(first, rest[..last]);
    }
  }

  /** Two names are joined by an "and", and every further one is put before them with a comma. */
  lemma NamesRead(names: seq<string>)
    ensures |names| == 0 ==> JoinAnd(names) == ""
    ensures |names| == 1 ==> JoinAnd(names) == names[0]
    ensures |names| == 2 ==> JoinAnd(names) == names[0] + " and " + names[1]
    ensures |names| > 2 ==> JoinAnd(names) == names[0] + ", " + JoinAnd(names[1..])
  {
    if |names| == 2 {
      assert names[1..1] == [] && names[0] + "" == names[0];
    } else if |names| > 2 {
      LongListReads(names);
    }
  }

  lemma LongListReads(names: seq<string>)
    requires |names| > 2
    ensures JoinAnd(names) == names[0] + ", " + JoinAnd(names[1..])
  {
    var last := |names| - 1;
    var inner := names[2..last];
    Joined(names);
    Joined(names[1..]);
    assert names[1..][1..last - 1] == inner && names[1..][last - 1] == names[last] && names[1..][0] == names[1];
    assert names[1..last] == [names[1]] + inner;
    CommaListReads(names[1], inner);
    Reassociate(names[0], ", ", names[1], CommaList(inner), " and ", names[last]);
  }

  lemma Reassociate(a: string, b: string, c: string, d: string, e: string, f: string)
    ensures a + (b + c + d) + e + f == a + b + (c + d + e + f)
  {
  }

  lemma {:induction false} OthersSoFar(ps: seq<Participant>, i: nat)
    requires i <= |ps|
    ensures Others(ps[..i]) <= Others(ps)
    decreases |ps|
  {
    if i < |ps| {
      OthersSoFar(ps[..|ps| - 1], i);
      assert ps[..|ps| - 1][..i] == ps[..i];
    } else {
      assert ps[..i] == ps;
    }
  }

  /** Everybody but oneself, in order: participant `i` stands where those before leave off. */
  lemma OthersInTurn(ps: seq<Participant>, i: nat)
    requires i < |ps|
    ensures var k := |Others(ps[..i])|;
            |Others(ps[..i + 1])| == k + (if ps[i].isMe then 0 else 1)
            && (!ps[i].isMe ==> k < |Others(ps)| && Others(ps)[k] == ps[i])
  {
    assert ps[..i + 1][..i] == ps[..i];
    OthersSoFar(ps, i + 1);
  }

  /** A name shows; with none, whoever else is there by name or number; and with nobody else the identifier. */
  lemma PhoneTitleReads(c: PhoneConversation)
    ensures c.name != "" ==> c.Title() == c.name
    ensures c.name == "" && Others(c.participants) == [] ==> c.Title() == c.id
    ensures c.name == "" && |Others(c.participants)| == 1 ==>
      var p := Others(c.participants)[0]; c.Title() == if p.displayName == "" then p.phone else p.displayName
    ensures c.name == "" && |Others(c.participants)| > 1 ==>
      exists names: seq<string> ::
        && |names| == |Others(c.participants)| && c.Title() == JoinAnd(names)
        && forall i | 0 <= i < |names| :: var p := Others(c.participants)[i];
             names[i] == if p.displayName == "" then p.phone else p.displayName
  {
    if c.name == "" && |Others(c.participants)| > 1 {
      var names := Labels(Others(c.participants));
      assert c.Title() == JoinAnd(names);
    }
  }
}
