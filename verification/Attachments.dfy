/** What a bridged message becomes in Mattermost: the files carried over, and a text that says what is missing. */
module Attachments {
  import opened Types

  // Which of the two bridges carries an attachment.
  datatype Carrier = Phone | Transport

  datatype MediaFate = NotFetched | NotUploaded | Uploaded(file: string, thumbnail: bool)

  function FateOf(fates: seq<MediaFate>, i: nat): MediaFate { if i < |fates| then fates[i] else NotFetched }

  function AttachmentLabel(m: Media): (l: string)
    ensures (forall i | 0 <= i < |m.name| :: !White(m.name[i])) && m.name != "" ==> l == "`" + m.name + "`"
    ensures m.name == "" && m.mimeType != "" ==> l == "the " + m.mimeType + " attachment"
    ensures m.name == "" && m.mimeType == "" ==> l == "an attachment"
  {
    if TrimSpace(m.name) != "" then "`" + TrimSpace(m.name) + "`"
    else if m.mimeType != "" then "the " + m.mimeType + " attachment"
    else "an attachment"
  }

  predicate Unavailable(c: Carrier, m: Media) { c.Phone? && m.Pending() }

  predicate Transferred(c: Carrier, m: Media, f: MediaFate) { !Unavailable(c, m) && f.Uploaded? }

  function FetchNote(c: Carrier, m: Media): string {
    "_could not fetch " + AttachmentLabel(m) + (if c.Phone? then " from the phone_" else "_")
  }

  function UploadNote(m: Media): string { "_could not upload " + AttachmentLabel(m) + " to Mattermost_" }

  function PendingNote(m: Media): string { "_the phone has not downloaded " + AttachmentLabel(m) + " yet_" }

  function ThumbnailNote(m: Media): string {
    "_" + AttachmentLabel(m) + " is a thumbnail: the full-size file is still on the phone_"
  }

  /** The line the post carries about an attachment, if any: what is missing, or that only a thumbnail came. */
  function NoteFor(c: Carrier, m: Media, f: MediaFate): (note: Option<string>)
    ensures c == Phone && m.id == "" && m.thumbnailId == "" ==>
      note == Some("_the phone has not downloaded " + AttachmentLabel(m) + " yet_")
    ensures c == Phone && (m.id != "" || m.thumbnailId != "") && f == NotFetched ==>
      note == Some("_could not fetch " + AttachmentLabel(m) + " from the phone_")
    ensures c == Transport && f == NotFetched ==> note == Some("_could not fetch " + AttachmentLabel(m) + "_")
    ensures (c == Transport || m.id != "" || m.thumbnailId != "") && f == NotUploaded ==>
      note == Some("_could not upload " + AttachmentLabel(m) + " to Mattermost_")
    ensures c == Phone && (m.id != "" || m.thumbnailId != "") && f.Uploaded? && f.thumbnail ==>
      note == Some("_" + AttachmentLabel(m) + " is a thumbnail: the full-size file is still on the phone_")
    ensures f.Uploaded? && (c == Transport || ((m.id != "" || m.thumbnailId != "") && !f.thumbnail)) ==> note == None
  {
    if Unavailable(c, m) then Some(PendingNote(m))
    else match f
      case NotFetched => Some(FetchNote(c, m))
      case NotUploaded => Some(UploadNote(m))
      case Uploaded(_, thumbnail) => if c.Phone? && thumbnail then Some(ThumbnailNote(m)) else None
  }

  function Files(c: Carrier, media: seq<Media>, fates: seq<MediaFate>): seq<string> {
    if media == [] then []
    else
      var last := |media| - 1;
      Files(c, media[..last], fates)
      + (if Transferred(c, media[last], FateOf(fates, last)) then [FateOf(fates, last).file] else [])
  }

  function Notes(c: Carrier, media: seq<Media>, fates: seq<MediaFate>): seq<string> {
    if media == [] then []
    else
      var last := |media| - 1;
      var note := NoteFor(c, media[last], FateOf(fates, last));
      Notes(c, media[..last], fates) + (if note.Some? then [note.value] else [])
  }

  lemma OneMore(c: Carrier, media: seq<Media>, fates: seq<MediaFate>, i: nat)
    requires i < |media|
    ensures Files(c, media[..i + 1], fates)
         == Files(c, media[..i], fates)
            + if Transferred(c, media[i], FateOf(fates, i)) then [FateOf(fates, i).file] else []
    ensures var note := NoteFor(c, media[i], FateOf(fates, i));
            Notes(c, media[..i + 1], fates) == Notes(c, media[..i], fates) + if note.Some? then [note.value] else []
  {
    assert media[..i + 1][..i] == media[..i];
  }

  // ----- the text -----

  function Lines(ls: seq<string>): string {
    if ls == [] then "" else Lines(ls[..|ls| - 1]) + ls[|ls| - 1] + "\n"
  }

  function TrimNewlines(s: string): string {
    if s != "" && s[|s| - 1] == '\n' then TrimNewlines(s[..|s| - 1]) else s
  }

  function Untrimmed(head: string, subject: string, text: string, notes: seq<string>): string {
    head + "\n" + (if subject != "" then "**" + subject + "**\n" else "") + (if text != "" then text + "\n" else "")
    + Lines(notes)
  }

  /** `head` names the sender, and on the phone what carried the message. */
  function FormatMessage(head: string, subject: string, text: string, notes: seq<string>): string {
    TrimNewlines(Untrimmed(head, subject, text, notes))
  }

  method Format(head: string, subject: string, text: string, notes: seq<string>) returns (out: string)
    ensures out == FormatMessage(head, subject, text, notes)
  {
    out := head + "\n";
    if subject != "" { out := out + ("**" + subject + "**\n"); }
    if text != "" { out := out + (text + "\n"); }
    ghost var start := out;
    assert start == head + "\n" + (if subject != "" then "**" + subject + "**\n" else "")
                    + (if text != "" then text + "\n" else "");
    for i := 0 to |notes|
      invariant out == start + Lines(notes[..i])
    {
      assert notes[..i + 1][..i] == notes[..i];
      assert start + (Lines(notes[..i]) + notes[i] + "\n") == (start + Lines(notes[..i])) + notes[i] + "\n";
      out := out + notes[i] + "\n";
    }
    assert notes[..|notes|] == notes;
    out := TrimNewlines(out);
  }

  predicate StandsAt(s: string, t: string, at: nat) { at + |t| <= |s| && s[at..at + |t|] == t }

  ghost predicate Contains(s: string, t: string) { exists at :: StandsAt(s, t, at) }

  lemma {:induction false} TrimKeeps(s: string, k: nat)
    requires k < |s| && s[k] != '\n'
    ensures k < |TrimNewlines(s)| && TrimNewlines(s) <= s
  {
    if s[|s| - 1] == '\n' { TrimKeeps(s[..|s| - 1], k); }
  }

  lemma {:induction false} LineAt(ls: seq<string>, i: nat) returns (at: nat)
    requires i < |ls|
    ensures StandsAt(Lines(ls), ls[i], at)
  {
    var last := |ls| - 1;
    var front := Lines(ls[..last]);
    if i == last {
      at := |front|;
    } else {
      at := LineAt(ls[..last], i);
      assert Lines(ls)[at..at + |ls[i]|] == front[at..at + |ls[i]|];
    }
  }

  /** A note that does not end in a newline is in the text whole. */
  lemma NoteInText(head: string, subject: string, text: string, notes: seq<string>, i: nat)
    requires i < |notes| && notes[i] != "" && notes[i][|notes[i]| - 1] != '\n'
    ensures Contains(FormatMessage(head, subject, text, notes), notes[i])
  {
    var n := notes[i];
    var all := Untrimmed(head, subject, text, notes);
    var at := LineAt(notes, i);
    var from := |all| - |Lines(notes)| + at;
    assert all[|all| - |Lines(notes)|..] == Lines(notes);
    assert all[from..from + |n|] == Lines(notes)[at..at + |n|];
    assert all[from + |n| - 1] == n[|n| - 1];
    TrimKeeps(all, from + |n| - 1);
    assert StandsAt(TrimNewlines(all), n, from);
  }

  // ----- the whole message is there -----

  /** `p` is `s` without the newlines it ends in. */
  predicate UpToNewlines(s: string, p: string) {
    p <= s && (forall i | |p| <= i < |s| :: s[i] == '\n') && (p != "" ==> p[|p| - 1] != '\n')
  }

  /** The line stands at `at`, with nothing else on its first and last line. */
  predicate OwnLine(s: string, line: string, at: nat) {
    StandsAt(s, line, at) && at > 0 && s[at - 1] == '\n' && (at + |line| == |s| || s[at + |line|] == '\n')
  }

  /** What a paragraph says stands at `at`, up to the newlines it ends in; of a paragraph of newlines nothing does. */
  ghost predicate ParagraphAt(s: string, paragraph: string, at: nat) {
    forall p | UpToNewlines(paragraph, p) && p != "" :: OwnLine(s, p, at)
  }

  /** The paragraphs follow one another, all after the first `from` characters. */
  ghost predicate ParagraphsFollow(s: string, from: nat, paragraphs: seq<string>) {
    exists ats: seq<nat> ::
      && |ats| == |paragraphs|
      && (forall i | 0 <= i < |paragraphs| :: ats[i] > from && ParagraphAt(s, paragraphs[i], ats[i]))
      && (forall i, j | 0 <= i < j < |paragraphs| :: ats[i] + |paragraphs[i]| < ats[j])
  }

  /** What a message has to say besides who wrote it; only the phone's messages have a subject. */
  function Paragraphs(subject: string, text: string, notes: seq<string>): seq<string> {
    (if subject == "" then [] else ["**" + subject + "**"]) + (if text == "" then [] else [text]) + notes
  }

  /** The text of a post begins with the head and goes on with the subject, the message and every note, in order. */
  ghost predicate SaysAll(s: string, head: string, subject: string, text: string, notes: seq<string>) {
    && (forall p | UpToNewlines(head, p) :: p <= s)
    && ParagraphsFollow(s, |head|, Paragraphs(subject, text, notes))
  }

  lemma LinesJoin(a: seq<string>, b: seq<string>)
    ensures Lines(a + b) == Lines(a) + Lines(b)
    decreases |b|
  {
    if b == [] {
      assert a + b == a;
    } else {
      assert (a + b)[..|a + b| - 1] == a + b[..|b| - 1];
      LinesJoin(a, b[..|b| - 1]);
    }
  }

  lemma OneLine(l: string)
    ensures Lines([l]) == l + "\n"
  {
    assert [l][..0] == [];
  }

  lemma SubjectLine(subject: string)
    ensures Lines(if subject == "" then [] else ["**" + subject + "**"])
         == if subject != "" then "**" + subject + "**\n" else ""
  {
    OneLine("**" + subject + "**");
    assert "**" + subject + "**" + "\n" == "**" + subject + "**\n";
  }

  lemma TextLine(text: string)
    ensures Lines(if text == "" then [] else [text]) == if text != "" then text + "\n" else ""
  {
    OneLine(text);
  }

  lemma Regroup(a: string, b: string, c: string, d: string)
    ensures a + b + c + d == a + (b + c + d)
  {
  }

  lemma UntrimmedIsLines(head: string, subject: string, text: string, notes: seq<string>)
    ensures Untrimmed(head, subject, text, notes) == head + "\n" + Lines(Paragraphs(subject, text, notes))
  {
    var first, second := if subject == "" then [] else ["**" + subject + "**"], if text == "" then [] else [text];
    LinesJoin(first + second, notes);
    LinesJoin(first, second);
    SubjectLine(subject);
    TextLine(text);
    Regroup(head + "\n", Lines(first), Lines(second), Lines(notes));
  }

  lemma {:induction false} TrimKeepsTo(s: string, p: string)
    requires UpToNewlines(s, p)
    ensures TrimNewlines(s) == p
  {
    if |p| < |s| {
      TrimKeepsTo(s[..|s| - 1], p);
    } else {
      assert p == s;
    }
  }

  predicate Between(all: string, l: string, at: nat) {
    0 < at && at + |l| < |all| && all[at..at + |l|] == l && all[at - 1] == '\n' && all[at + |l|] == '\n'
  }

  /** A line between newlines keeps its place when the newlines at the end of all are taken off. */
  lemma LineSurvives(all: string, l: string, p: string, at: nat)
    requires Between(all, l, at) && UpToNewlines(l, p) && p != ""
    ensures OwnLine(TrimNewlines(all), p, at)
  {
    assert forall k | 0 <= k < |l| :: all[at + k] == l[k];
    TrimKeeps(all, at + |p| - 1);
    var t := TrimNewlines(all);
    assert t[at..at + |p|] == p;
    assert t[at - 1] == all[at - 1];
    if at + |p| < |t| { assert t[at + |p|] == all[at + |p|]; }
  }

  /** The `i`-th line begins after a newline, and ends before one. */
  lemma LineBetween(all: string, start: string, ls: seq<string>, i: nat)
    requires i < |ls| && start != "" && start[|start| - 1] == '\n' && all == start + Lines(ls)
    ensures Between(all, ls[i], |start| + |Lines(ls[..i])|)
  {
    var lines, from, l := Lines(ls), |Lines(ls[..i])|, ls[i] + "\n";
    var at := |start| + from;
    LineStarts(ls, i);
    Shifted(all, start, lines, from, |l|);
    assert all[at + |ls[i]|] == all[at..at + |l|][|ls[i]|] == l[|ls[i]|];
    assert all[at..at + |ls[i]|] == all[at..at + |l|][..|ls[i]|] == l[..|ls[i]|];
    if i > 0 {
      EndsInBreak(ls[..i]);
      assert all[at - 1] == lines[from - 1] == Lines(ls[..i])[from - 1];
    }
  }

  lemma Shifted(all: string, start: string, rest: string, from: nat, n: nat)
    requires all == start + rest && from + n <= |rest|
    ensures all[|start| + from..|start| + from + n] == rest[from..from + n]
  {
  }

  lemma EndsInBreak(ls: seq<string>)
    requires ls != []
    ensures Lines(ls) != "" && Lines(ls)[|Lines(ls)| - 1] == '\n'
  {
  }

  lemma LineStarts(ls: seq<string>, i: nat)
    requires i < |ls|
    ensures var at := |Lines(ls[..i])|;
            && at + |ls[i]| + 1 <= |Lines(ls)| && Lines(ls)[at..at + |ls[i]| + 1] == ls[i] + "\n"
            && Lines(ls[..i]) <= Lines(ls)
  {
    LinesJoin(ls[..i], ls[i..]);
    assert ls[..i] + ls[i..] == ls;
    LinesJoin([ls[i]], ls[i + 1..]);
    assert [ls[i]] + ls[i + 1..] == ls[i..];
    OneLine(ls[i]);
  }

  lemma LinesAdvance(ls: seq<string>, i: nat, j: nat)
    requires i < j < |ls|
    ensures |Lines(ls[..i])| + |ls[i]| < |Lines(ls[..j])|
  {
    assert ls[..j][..i] == ls[..i] && ls[..j][i] == ls[i];
    LineStarts(ls[..j], i);
  }

  lemma HeadStands(all: string, head: string, p: string)
    requires head <= all && UpToNewlines(head, p)
    ensures p <= TrimNewlines(all)
  {
    if p != "" {
      assert all[|p| - 1] == p[|p| - 1];
      TrimKeeps(all, |p| - 1);
    }
  }

  lemma ParagraphStands(all: string, l: string, at: nat)
    requires Between(all, l, at)
    ensures ParagraphAt(TrimNewlines(all), l, at)
  {
    forall p | UpToNewlines(l, p) && p != "" ensures OwnLine(TrimNewlines(all), p, at) { LineSurvives(all, l, p, at); }
  }

  lemma AllFollow(all: string, start: string, ls: seq<string>, from: nat)
    requires start != "" && start[|start| - 1] == '\n' && from < |start| && all == start + Lines(ls)
    ensures ParagraphsFollow(TrimNewlines(all), from, ls)
  {
    var ats := seq(|ls|, i requires 0 <= i < |ls| => |start| + |Lines(ls[..i])|);
    forall i | 0 <= i < |ls| ensures ats[i] > from && ParagraphAt(TrimNewlines(all), ls[i], ats[i]) {
      LineBetween(all, start, ls, i);
      ParagraphStands(all, ls[i], ats[i]);
    }
    forall i, j | 0 <= i < j < |ls| ensures ats[i] + |ls[i]| < ats[j] { LinesAdvance(ls, i, j); }
    Follow(TrimNewlines(all), from, ls, ats);
  }

  lemma Follow(s: string, from: nat, ls: seq<string>, ats: seq<nat>)
    requires |ats| == |ls| && forall i | 0 <= i < |ls| :: ats[i] > from && ParagraphAt(s, ls[i], ats[i])
    requires forall i, j | 0 <= i < j < |ls| :: ats[i] + |ls[i]| < ats[j]
    ensures ParagraphsFollow(s, from, ls)
  {
  }

  /** A post says everything the message does. */
  lemma FormatSaysAll(head: string, subject: string, text: string, notes: seq<string>)
    ensures SaysAll(FormatMessage(head, subject, text, notes), head, subject, text, notes)
  {
    var ls, start := Paragraphs(subject, text, notes), head + "\n";
    UntrimmedIsLines(head, subject, text, notes);
    AllFollow(start + Lines(ls), start, ls, |head|);
    forall p | UpToNewlines(head, p) ensures p <= FormatMessage(head, subject, text, notes) {
      HeadStands(start + Lines(ls), head, p);
    }
  }

  // ----- nothing disappears -----

  lemma NotesEndWell(c: Carrier, m: Media, f: MediaFate)
    requires NoteFor(c, m, f).Some?
    ensures var n := NoteFor(c, m, f).value; n != "" && n[|n| - 1] != '\n'
  {
  }

  lemma {:induction false} FileAmongFiles(c: Carrier, media: seq<Media>, fates: seq<MediaFate>, i: nat)
    requires i < |media| && Transferred(c, media[i], FateOf(fates, i))
    ensures FateOf(fates, i).file in Files(c, media, fates)
  {
    if i < |media| - 1 { FileAmongFiles(c, media[..|media| - 1], fates, i); }
  }

  lemma {:induction false} NoteAmongNotes(c: Carrier, media: seq<Media>, fates: seq<MediaFate>, i: nat) returns (k: nat)
    requires i < |media| && NoteFor(c, media[i], FateOf(fates, i)).Some?
    ensures k < |Notes(c, media, fates)| && Notes(c, media, fates)[k] == NoteFor(c, media[i], FateOf(fates, i)).value
  {
    var front := media[..|media| - 1];
    if i < |media| - 1 {
      k := NoteAmongNotes(c, front, fates, i);
    } else {
      k := |Notes(c, front, fates)|;
    }
  }

  lemma {:induction false} SoFar(c: Carrier, media: seq<Media>, fates: seq<MediaFate>, i: nat)
    requires i <= |media|
    ensures Files(c, media[..i], fates) <= Files(c, media, fates)
    ensures Notes(c, media[..i], fates) <= Notes(c, media, fates)
    decreases |media|
  {
    if i < |media| {
      SoFar(c, media[..|media| - 1], fates, i);
      assert media[..|media| - 1][..i] == media[..i];
    } else {
      assert media[..i] == media;
    }
  }

  /** What an attachment contributes stands right after what those before it contributed. */
  lemma InTurn(c: Carrier, media: seq<Media>, fates: seq<MediaFate>, i: nat)
    requires i < |media|
    ensures var k, n := |Files(c, media[..i], fates)|, |Notes(c, media[..i], fates)|; var f := FateOf(fates, i);
      && |Files(c, media[..i + 1], fates)| == k + (if Transferred(c, media[i], f) then 1 else 0)
      && |Notes(c, media[..i + 1], fates)| == n + (if NoteFor(c, media[i], f).Some? then 1 else 0)
      && (Transferred(c, media[i], f) ==> k < |Files(c, media, fates)| && Files(c, media, fates)[k] == f.file)
      && (NoteFor(c, media[i], f).Some? ==>
            n < |Notes(c, media, fates)| && Notes(c, media, fates)[n] == NoteFor(c, media[i], f).value)
  {
    OneMore(c, media, fates, i);
    SoFar(c, media, fates, i + 1);
  }

  /** The attachment is among the files of a post, or the post's text says what became of it. */
  ghost predicate Accounted(c: Carrier, m: Media, f: MediaFate, files: seq<string>, text: string) {
    if Transferred(c, m, f) then f.file in files
    else NoteFor(c, m, f).Some? && Contains(text, NoteFor(c, m, f).value)
  }

  /** No attachment disappears: each is among the files of the post, or its text says what became of it. */
  lemma EveryAttachmentAccounted(
      c: Carrier, head: string, subject: string, text: string, media: seq<Media>, fates: seq<MediaFate>, i: nat)
    requires i < |media|
    ensures Accounted(c, media[i], FateOf(fates, i), Files(c, media, fates),
                      FormatMessage(head, subject, text, Notes(c, media, fates)))
  {
    var f := FateOf(fates, i);
    if Transferred(c, media[i], f) {
      FileAmongFiles(c, media, fates, i);
    } else {
      NotesEndWell(c, media[i], f);
      var k := NoteAmongNotes(c, media, fates, i);
      NoteInText(head, subject, text, Notes(c, media, fates), k);
    }
  }
}
