/** The values the two halves of the gateway exchange: identifiers, phone messages and phone conversations. */
module Types {

  datatype Option<+T> = None | Some(value: T)

  type Tenant = string
  type ConvId = string
  type MsgId = string
  type ChannelId = string
  type UserId = string

  // Identifiers the Mattermost server makes up are fresh, so they are numbered; 0 stands for the empty string.
  type PostId = nat
  const NO_POST: PostId := 0

  // The sender of a message picks its temporary identifier.  The daemon's own are fresh UUIDs, so they are
  // numbered apart from whatever another paired device chose.
  datatype TmpId = NoTmp | Ours(n: nat) | Foreign(id: string)

  function TrimLeft(s: string): string {
    if s != "" && s[0] in " \t\n\r" then TrimLeft(s[1..]) else s
  }

  function TrimRight(s: string): string {
    if s != "" && s[|s| - 1] in " \t\n\r" then TrimRight(s[..|s| - 1]) else s
  }

  function TrimSpace(s: string): string { TrimRight(TrimLeft(s)) }

  predicate White(c: char) { c == ' ' || c == '\t' || c == '\n' || c == '\r' }

  predicate Around(s: string, before: string, inner: string, after: string) {
    && s == before + inner + after
    && (forall i | 0 <= i < |before| :: White(before[i])) && (forall i | 0 <= i < |after| :: White(after[i]))
  }

  /** The text is `inner` with nothing but white space around it, and `inner` has none at its ends. */
  ghost predicate TrimsTo(s: string, inner: string) {
    && (exists before, after :: Around(s, before, inner, after))
    && (inner != "" ==> !White(inner[0]) && !White(inner[|inner| - 1]))
  }

  lemma {:induction false} TrimLeftStrips(s: string) returns (before: string)
    ensures s == before + TrimLeft(s) && forall i | 0 <= i < |before| :: White(before[i])
    ensures TrimLeft(s) != "" ==> !White(TrimLeft(s)[0])
  {
    if s != "" && White(s[0]) {
      var rest := TrimLeftStrips(s[1..]);
      before := [s[0]] + rest;
      assert s == [s[0]] + s[1..];
    } else {
      before := "";
    }
  }

  lemma {:induction false} TrimRightStrips(s: string) returns (after: string)
    ensures s == TrimRight(s) + after && forall i | 0 <= i < |after| :: White(after[i])
    ensures TrimRight(s) != "" ==> !White(TrimRight(s)[|TrimRight(s)| - 1])
  {
    if s != "" && White(s[|s| - 1]) {
      var front, last := s[..|s| - 1], [s[|s| - 1]];
      var rest := TrimRightStrips(front);
      after := rest + last;
      assert s == front + last && TrimRight(s) == TrimRight(front);
      assert TrimRight(front) + rest + last == TrimRight(front) + after;
    } else {
      after := "";
    }
  }

  lemma TrimSpaceStrips(s: string)
    ensures TrimsTo(s, TrimSpace(s))
  {
    var before := TrimLeftStrips(s);
    var after := TrimRightStrips(TrimLeft(s));
    assert Around(s, before, TrimSpace(s), after);
    if TrimSpace(s) != "" { assert TrimSpace(s)[0] == TrimLeft(s)[0]; }
  }

  datatype Media = Media(id: string, thumbnailId: string, name: string, mimeType: string) {
    /** True when the phone has not finished making the attachment available. */
    predicate Pending() { id == "" && thumbnailId == "" }
  }

  datatype Message = Message(
    id: MsgId, conversation: ConvId, tmpId: TmpId, isFromMe: bool, timestamp: int, status: int,
    subject: string, text: string, media: seq<Media>, isOld: bool)
  {
    /** True when there is something worth posting; a status-only update has nothing. */
    predicate HasContent() { text != "" || subject != "" || media != [] }
  }
}
