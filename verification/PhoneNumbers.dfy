/** Phone numbers compared without the punctuation people put in them. */
module PhoneNumbers {
  predicate Digit(c: char) { '0' <= c <= '9' }

  /** What one more character makes of the number so far: a plus only counts in front. */
  function Keep(kept: string, c: char): string {
    if Digit(c) || (c == '+' && kept == "") then kept + [c] else kept
  }

  function Normalize(phone: string): string {
    if phone == "" then "" else Keep(Normalize(phone[..|phone| - 1]), phone[|phone| - 1])
  }

  method NormalizePhone(phone: string) returns (out: string)
    ensures out == Normalize(phone)
  {
    out := "";
    for i := 0 to |phone|
      invariant out == Normalize(phone[..i])
    {
      assert phone[..i + 1][..i] == phone[..i];
      var r := phone[i];
      if '0' <= r <= '9' {
        out := out + [r];
      } else if r == '+' && |out| == 0 {
        out := out + [r];
      }
    }
    assert phone[..|phone|] == phone;
  }

  /** Digits, with at most a plus in front. */
  predicate Normal(s: string) { forall i | 0 <= i < |s| :: Digit(s[i]) || (i == 0 && s[i] == '+') }

  lemma {:induction false} NormalizeIsNormal(phone: string)
    ensures Normal(Normalize(phone))
  {
    if phone != "" { NormalizeIsNormal(phone[..|phone| - 1]); }
  }

  lemma {:induction false} NormalStays(s: string)
    requires Normal(s)
    ensures Normalize(s) == s
  {
    if s != "" {
      var front := s[..|s| - 1];
      assert Normal(front) by { assert forall i | 0 <= i < |front| :: front[i] == s[i]; }
      NormalStays(front);
    }
  }

  lemma {:induction false} NormalizeIdempotent(phone: string)
    ensures Normalize(Normalize(phone)) == Normalize(phone)
  {
    NormalizeIsNormal(phone);
    NormalStays(Normalize(phone));
  }

  /** The number without its separators: everything but digits and pluses. */
  function Stripped(phone: string): string {
    if phone == "" then ""
    else
      var c := phone[|phone| - 1];
      Stripped(phone[..|phone| - 1]) + if Digit(c) || c == '+' then [c] else []
  }

  lemma {:induction false} SeparatorsIgnored(phone: string)
    ensures Normalize(Stripped(phone)) == Normalize(phone)
  {
    if phone != "" {
      var c := phone[|phone| - 1];
      var front := Stripped(phone[..|phone| - 1]);
      SeparatorsIgnored(phone[..|phone| - 1]);
      if Digit(c) || c == '+' {
        assert (front + [c])[..|front| ] == front;
      } else {
        assert front + [] == front;
      }
    }
  }

  /** Numbers that differ only by separators are the same number. */
  lemma SameNumber(a: string, b: string)
    requires Stripped(a) == Stripped(b)
    ensures Normalize(a) == Normalize(b)
  {
    SeparatorsIgnored(a);
    SeparatorsIgnored(b);
  }

  /** A plus after anything kept is a separator too. */
  lemma LaterPlusIgnored(front: string)
    requires Normalize(front) != ""
    ensures Normalize(front + "+") == Normalize(front)
  {
    assert (front + "+")[..|front|] == front;
  }

  /** The digits of a text, in order. */
  function DigitsOf(s: string): string {
    if s == "" then "" else DigitsOf(s[..|s| - 1]) + (if '0' <= s[|s| - 1] <= '9' then [s[|s| - 1]] else "")
  }

  /** A normal form has the digits of the number, with a plus before them exactly when the number has one there. */
  lemma {:induction false} DigitsAreKept(phone: string)
    ensures Normalize(phone) == (if PlusInFront(phone) then "+" else "") + DigitsOf(phone)
  {
    if phone != "" {
      var front, c := phone[..|phone| - 1], phone[|phone| - 1];
      DigitsAreKept(front);
      PlusExtends(front, c);
      assert phone == front + [c];
    }
  }

  /** Some plus has no digit before it. */
  ghost predicate PlusInFront(s: string) {
    exists i :: 0 <= i < |s| && s[i] == '+' && forall k | 0 <= k < i :: !('0' <= s[k] <= '9')
  }

  lemma PlusExtends(front: string, c: char)
    ensures PlusInFront(front + [c]) <==> PlusInFront(front) || (c == '+' && DigitsOf(front) == "")
  {
    var s := front + [c];
    NoDigits(front);
    if PlusInFront(front) {
      var i :| 0 <= i < |front| && front[i] == '+' && forall k | 0 <= k < i :: !('0' <= front[k] <= '9');
      assert s[i] == '+' && forall k | 0 <= k < i :: s[k] == front[k];
    }
    if PlusInFront(s) {
      var i :| 0 <= i < |s| && s[i] == '+' && forall k | 0 <= k < i :: !('0' <= s[k] <= '9');
      assert forall k | 0 <= k < |front| :: s[k] == front[k];
    }
    if c == '+' && DigitsOf(front) == "" {
      assert s[|front|] == '+' && forall k | 0 <= k < |front| :: s[k] == front[k];
    }
  }

  lemma {:induction false} NoDigits(s: string)
    ensures DigitsOf(s) == "" <==> forall k | 0 <= k < |s| :: !('0' <= s[k] <= '9')
  {
    if s != "" {
      var front := s[..|s| - 1];
      NoDigits(front);
      assert forall k | 0 <= k < |front| :: front[k] == s[k];
    }
  }
}
