/**
 Placeholder rewriting.  Queries are written with "?", which SQLite takes as it is; for PostgreSQL the i-th one
 becomes "$i".
 */
module Rebind {
  import opened Types

  predicate IsDigit(c: char) { '0' <= c <= '9' }

  function DigitChar(d: nat): (c: char)
    requires d < 10
    ensures IsDigit(c) && c as int - '0' as int == d
  {
    '0' + d as char
  }

  function Itoa(n: nat): (s: string)
    ensures s != "" && forall i | 0 <= i < |s| :: IsDigit(s[i])
  {
    if n < 10 then [DigitChar(n)] else Itoa(n / 10) + [DigitChar(n % 10)]
  }

  function DigitValue(c: char): nat { if IsDigit(c) then c as int - '0' as int else 0 }

  /** The number a string of digits stands for. */
  function Atoi(s: string): nat {
    if s == "" then 0 else 10 * Atoi(s[..|s| - 1]) + DigitValue(s[|s| - 1])
  }

  /** The query with its placeholders numbered on from `n`. */
  function Rewrite(query: string, n: nat): string {
    if query == "" then ""
    else if query[0] == '?' then "$" + Itoa(n + 1) + Rewrite(query[1..], n + 1)
    else [query[0]] + Rewrite(query[1..], n)
  }

  lemma RewriteStep(query: string, i: nat, n: nat)
    requires i < |query|
    ensures Rewrite(query[i..], n)
            == if query[i] == '?' then "$" + Itoa(n + 1) + Rewrite(query[i + 1..], n + 1)
               else [query[i]] + Rewrite(query[i + 1..], n)
  {
    assert query[i..][1..] == query[i + 1..];
  }

  method Rebound(postgres: bool, query: string) returns (out: string)
    ensures out == if postgres then Rewrite(query, 0) else query
  {
    if !postgres { return query; }
    out := "";
    var n := 0;
    assert query[0..] == query;
    for i := 0 to |query|
      invariant out + Rewrite(query[i..], n) == Rewrite(query, 0)
    {
      RewriteStep(query, i, n);
      ghost var before := out;
      if query[i] == '?' {
        n := n + 1;
        out := out + ['$'];
        out := out + Itoa(n);
        assert out + Rewrite(query[i + 1..], n) == before + ("$" + Itoa(n) + Rewrite(query[i + 1..], n));
      } else {
        out := out + [query[i]];
        assert out + Rewrite(query[i + 1..], n) == before + ([query[i]] + Rewrite(query[i + 1..], n));
      }
    }
    assert query[|query|..] == "" && out + "" == out;
  }

  // ----- what a statement means -----

  // A statement is text with parameters at numbered places.
  datatype Token = Text(c: char) | Param(i: nat)

  /** How the engine behind "?" reads a query: the placeholders are numbered in order. */
  function Positional(query: string, n: nat): seq<Token> {
    if query == "" then []
    else if query[0] == '?' then [Param(n + 1)] + Positional(query[1..], n + 1)
    else [Text(query[0])] + Positional(query[1..], n)
  }

  function Digits(s: string): (n: nat)
    ensures n <= |s| && forall i | 0 <= i < n :: IsDigit(s[i])
    ensures n < |s| ==> !IsDigit(s[n])
  {
    if s != "" && IsDigit(s[0]) then 1 + Digits(s[1..]) else 0
  }

  /** How the engine behind "$1" reads one: a dollar sign and all the digits after it name a parameter. */
  function Numbered(query: string): seq<Token>
    decreases |query|
  {
    if query == "" then []
    else
      var n := Digits(query[1..]);
      if query[0] == '$' && n > 0 then [Param(Atoi(query[1..][..n]))] + Numbered(query[1..][n..])
      else [Text(query[0])] + Numbered(query[1..])
  }

  // What is sent to the engine: text with the arguments in place, or nothing where none was given.
  datatype Piece<A> = Plain(c: char) | Argument(a: Option<A>)

  function Bound<A>(tokens: seq<Token>, args: seq<A>): seq<Piece<A>> {
    seq(|tokens|, i requires 0 <= i < |tokens| =>
      match tokens[i]
      case Text(c) => Plain(c)
      case Param(p) => Argument(if 1 <= p <= |args| then Some(args[p - 1]) else None))
  }

  function Unnumbered(tokens: seq<Token>): string {
    seq(|tokens|, i requires 0 <= i < |tokens| => if tokens[i].Text? then tokens[i].c else '?')
  }

  /** No placeholder and no dollar sign is directly followed by a digit. */
  predicate Clean(query: string) {
    forall i | 0 <= i < |query| - 1 && (query[i] == '?' || query[i] == '$') :: !IsDigit(query[i + 1])
  }

  // ----- numbers -----

  lemma {:induction false} AtoiItoa(n: nat)
    ensures Atoi(Itoa(n)) == n
  {
    if n >= 10 {
      AtoiItoa(n / 10);
      assert Itoa(n)[..|Itoa(n)| - 1] == Itoa(n / 10);
    } else {
      assert Itoa(n)[..0] == "";
    }
  }

  lemma {:induction false} DigitsThenRest(s: string, rest: string)
    requires forall i | 0 <= i < |s| :: IsDigit(s[i])
    ensures Digits(s + rest) == |s| + Digits(rest)
  {
    if s == "" {
      assert s + rest == rest;
    } else {
      assert (s + rest)[1..] == s[1..] + rest;
      DigitsThenRest(s[1..], rest);
    }
  }

  lemma {:induction false} MoreDigitsIsLarger(s: string, more: string)
    requires forall i | 0 <= i < |s| :: IsDigit(s[i])
    requires forall i | 0 <= i < |more| :: IsDigit(more[i])
    requires more != "" && Atoi(s) > 0
    ensures Atoi(s + more) > Atoi(s)
  {
    var both := s + more;
    assert both[..|both| - 1] == s + more[..|more| - 1];
    if |more| == 1 {
      assert both[..|both| - 1] == s;
    } else {
      MoreDigitsIsLarger(s, more[..|more| - 1]);
    }
  }

  // ----- the rewriting preserves meaning -----

  lemma RewriteStart(query: string, n: nat)
    ensures query == "" <==> Rewrite(query, n) == ""
    ensures query != "" ==> Rewrite(query, n)[0] == if query[0] == '?' then '$' else query[0]
  {
  }

  lemma ReadAfterDollar(query: string, number: string, after: string)
    requires query != "" && query[0] == '$' && query[1..] == number + after && |number| == Digits(query[1..]) > 0
    ensures Numbered(query) == [Param(Atoi(number))] + Numbered(after)
  {
    assert (number + after)[..|number|] == number && (number + after)[|number|..] == after;
  }

  /** How the numbered reading begins after a dollar sign and some digits. */
  lemma NumberRead(query: string, number: string, rest: string)
    requires query != "" && query[0] == '$' && query[1..] == number + rest
    requires number != "" && forall i | 0 <= i < |number| :: IsDigit(number[i])
    ensures Numbered(query) == [Param(Atoi(number + rest[..Digits(rest)]))] + Numbered(rest[Digits(rest)..])
  {
    var m := Digits(rest);
    DigitsThenRest(number, rest);
    assert query[1..] == (number + rest[..m]) + rest[m..];
    ReadAfterDollar(query, number + rest[..m], rest[m..]);
  }

  /**
   The rewritten query means what the original meant exactly when it is clean: the i-th placeholder is parameter i,
   and all other text is kept.
   */
  lemma {:induction false} RewritingPreservesMeaningExactly(query: string, n: nat)
    ensures Numbered(Rewrite(query, n)) == Positional(query, n) <==> Clean(query)
    decreases |query|
  {
    if query != "" {
      var rest := query[1..];
      assert Clean(query) <==>
        Clean(rest) && (|query| > 1 && (query[0] == '?' || query[0] == '$') ==> !IsDigit(query[1])) by {
        assert forall i | 0 <= i < |rest| :: rest[i] == query[i + 1];
        if Clean(query) {
          forall i | 0 <= i < |rest| - 1 && (rest[i] == '?' || rest[i] == '$') ensures !IsDigit(rest[i + 1]) {
            assert query[i + 1] == rest[i];
          }
        }
        if Clean(rest) && (|query| > 1 && (query[0] == '?' || query[0] == '$') ==> !IsDigit(query[1])) {
          forall i | 0 <= i < |query| - 1 && (query[i] == '?' || query[i] == '$') ensures !IsDigit(query[i + 1]) {
            if i > 0 { assert rest[i - 1] == query[i] && rest[i] == query[i + 1]; }
          }
        }
      }
      if query[0] == '?' { PlaceholderKept(query, n); } else { TextKept(query, n); }
    }
  }

  lemma RewrittenPlaceholder(query: string, n: nat)
    requires query != "" && query[0] == '?'
    ensures var r, after := Rewrite(query, n), Rewrite(query[1..], n + 1);
            r != "" && r[0] == '$' && r[1..] == Itoa(n + 1) + after
            && Numbered(r) == [Param(Atoi(Itoa(n + 1) + after[..Digits(after)]))] + Numbered(after[Digits(after)..])
  {
    var r, after := Rewrite(query, n), Rewrite(query[1..], n + 1);
    assert r == "$" + Itoa(n + 1) + after;
    assert r[1..] == Itoa(n + 1) + after;
    NumberRead(r, Itoa(n + 1), after);
  }

  lemma PlaceholderKept(query: string, n: nat)
    requires query != "" && query[0] == '?'
    ensures Numbered(Rewrite(query, n)) == Positional(query, n)
            <==> Clean(query[1..]) && (|query| > 1 ==> !IsDigit(query[1]))
    decreases |query|, 0
  {
    var after := Rewrite(query[1..], n + 1);
    var m := Digits(after);
    RewrittenPlaceholder(query, n);
    RewriteStart(query[1..], n + 1);
    AtoiItoa(n + 1);
    RewritingPreservesMeaningExactly(query[1..], n + 1);
    var number := Itoa(n + 1) + after[..m];
    var want := [Param(n + 1)] + Positional(query[1..], n + 1);
    if m == 0 {
      assert number == Itoa(n + 1) && after[0..] == after;
      SameTail(Param(n + 1), Numbered(after), Positional(query[1..], n + 1));
    } else {
      MoreDigitsIsLarger(Itoa(n + 1), after[..m]);
      assert ([Param(Atoi(number))] + Numbered(after[m..]))[0] != want[0];
    }
  }

  lemma SameTail(t: Token, a: seq<Token>, b: seq<Token>)
    ensures [t] + a == [t] + b <==> a == b
  {
    assert ([t] + a)[1..] == a && ([t] + b)[1..] == b;
  }

  lemma TextKept(query: string, n: nat)
    requires query != "" && query[0] != '?'
    ensures Numbered(Rewrite(query, n)) == Positional(query, n)
            <==> Clean(query[1..]) && (|query| > 1 && query[0] == '$' ==> !IsDigit(query[1]))
    decreases |query|, 0
  {
    var after := Rewrite(query[1..], n);
    RewriteStart(query[1..], n);
    RewritingPreservesMeaningExactly(query[1..], n);
    var r := Rewrite(query, n);
    assert r[1..] == after;
    var got, want := Numbered(r), Positional(query, n);
    if query[0] == '$' && Digits(after) > 0 {
      assert got[0] != want[0];
    } else {
      assert got[1..] == Numbered(after) && want[1..] == Positional(query[1..], n) && got[0] == want[0];
      assert got == [got[0]] + got[1..] && want == [want[0]] + want[1..];
    }
  }

  lemma {:induction false} PositionalShows(query: string, n: nat)
    ensures Unnumbered(Positional(query, n)) == query
  {
    if query != "" {
      var next := if query[0] == '?' then n + 1 else n;
      PositionalShows(query[1..], next);
      var tokens := Positional(query, n);
      assert tokens[1..] == Positional(query[1..], next);
      forall i | 0 <= i < |query|
        ensures |tokens| == |query| && Unnumbered(tokens)[i] == query[i]
      {
        assert |Unnumbered(tokens[1..])| == |query| - 1;
        if i > 0 { assert Unnumbered(tokens)[i] == Unnumbered(tokens[1..])[i - 1] == query[1..][i - 1]; }
      }
    }
  }

  /** Binding into the rewritten query gives the same statement, and undoing the rewrite gives the query back. */
  lemma BindsAlike<A>(query: string, args: seq<A>)
    requires Clean(query)
    ensures Bound(Numbered(Rewrite(query, 0)), args) == Bound(Positional(query, 0), args)
    ensures Unnumbered(Numbered(Rewrite(query, 0))) == query
  {
    RewritingPreservesMeaningExactly(query, 0);
    PositionalShows(query, 0);
  }
}
