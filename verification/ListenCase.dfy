/**
 The LISTEN scanner (crates/protocol/src/listen.rs) does not look at case: two texts that differ in the
 case of letters only, and in none of a dollar quote, get the same answer.
 */
module ListenCase {
  import opened Numbers
  import opened Framing
  import opened Listen

  /** The same byte, or the same ASCII letter in the other case. */
  predicate Twin(a: byte, b: byte) {
    a == b || ('a' as int <= a <= 'z' as int && b == a - 32) || ('A' as int <= a <= 'Z' as int && b == a + 32)
  }

  predicate Twins(s: Text, t: Text) {
    |s| == |t| && forall k :: 0 <= k < |s| ==> Twin(s[k], t[k])
  }

  /** The byte at `k` belongs to a dollar quote, its tags included, of a text read from `at` on. */
  predicate InDollar(s: Text, at: nat, k: nat)
    decreases SatSub(|s|, at)
  {
    && at < |s|
    && ((s[at] == '$' as int && LexemeAt(s, at).kind.Literal? && at <= k < LexemeAt(s, at).end)
        || InDollar(s, LexemeAt(s, at).end, k))
  }

  /** `t` is `s` with some letters outside dollar quotes in the other case. */
  predicate Recased(s: Text, t: Text) {
    Twins(s, t) && forall k :: 0 <= k < |s| && InDollar(s, 0, k) ==> s[k] == t[k]
  }

  // --------------------------------------------------------------------- scanners

  lemma TwinClasses(a: byte, b: byte, c: byte, first: bool)
    requires Twin(a, b) && !IsAlphabetic(c)
    ensures IsWord(a) == IsWord(b) && IsTag(a, first) == IsTag(b, first) && IsSpace(a) == IsSpace(b)
    ensures (a == c) == (b == c)
  {
  }

  lemma {:induction false} SameWord(s: Text, t: Text, at: nat)
    requires Twins(s, t) && at <= |s|
    ensures EndOfWord(s, at) == EndOfWord(t, at)
    decreases |s| - at
  {
    if at < |s| {
      SameWord(s, t, at + 1);
    }
  }

  lemma {:induction false} SameLine(s: Text, t: Text, at: nat)
    requires Twins(s, t) && at <= |s|
    ensures EndOfLine(s, at) == EndOfLine(t, at)
    decreases |s| - at
  {
    if at < |s| {
      SameLine(s, t, at + 1);
    }
  }

  lemma {:induction false} SameBlock(s: Text, t: Text, cursor: nat, depth: nat)
    requires Twins(s, t) && cursor <= |s| && (depth == 0 ==> Has(s, cursor, SLASH) && Has(s, cursor + 1, STAR))
    ensures depth == 0 ==> Has(t, cursor, SLASH) && Has(t, cursor + 1, STAR)
    ensures EndOfBlock(s, cursor, depth) == EndOfBlock(t, cursor, depth)
    decreases |s| - cursor
  {
    if cursor + 1 < |s| {
      if s[cursor] == SLASH && s[cursor + 1] == STAR { SameBlock(s, t, cursor + 2, depth + 1); }
      else if s[cursor] == STAR && s[cursor + 1] == SLASH {
        if depth != 1 { SameBlock(s, t, cursor + 2, depth - 1); }
      } else { SameBlock(s, t, cursor + 1, depth); }
    }
  }

  lemma {:induction false} SameQuoted(s: Text, t: Text, cursor: nat, quote: byte, escapes: bool)
    requires Twins(s, t) && !IsAlphabetic(quote)
    ensures EndOfQuoted(s, cursor, quote, escapes) == EndOfQuoted(t, cursor, quote, escapes)
    decreases SatSub(|s|, cursor)
  {
    if cursor < |s| {
      if escapes && s[cursor] == BACKSLASH { SameQuoted(s, t, cursor + 2, quote, escapes); }
      else if s[cursor] != quote { SameQuoted(s, t, cursor + 1, quote, escapes); }
      else if Has(s, cursor + 1, quote) { SameQuoted(s, t, cursor + 2, quote, escapes); }
    }
  }

  lemma {:induction false} SameTag(s: Text, t: Text, end: nat, first: bool)
    requires Twins(s, t) && end <= |s|
    ensures EndOfTag(s, end, first) == EndOfTag(t, end, first)
    decreases |s| - end
  {
    if end < |s| {
      SameTag(s, t, end + 1, false);
    }
  }

  lemma SameEscapes(s: Text, t: Text, quote: nat)
    requires Twins(s, t) && quote < |s|
    ensures EscapesBackslashes(s, quote) == EscapesBackslashes(t, quote)
  {
    if quote >= 1 {
      assert Twin(s[quote - 1], t[quote - 1]);
    }
    if quote >= 2 {
      assert Twin(s[quote - 2], t[quote - 2]);
    }
  }

  // ----------------------------------------------------------------- dollar quotes

  predicate Agree(s: Text, t: Text, from: nat, to: nat)
    requires |s| == |t|
  {
    forall k :: from <= k < to && k < |s| ==> s[k] == t[k]
  }

  function EndOr(s: Text, end: Option<nat>): nat { if end.Some? then end.value else |s| }

  lemma {:induction false} SameNext(s: Text, t: Text, at: nat, tag: Text)
    requires |s| == |t| && at <= |s| && tag != [] && Agree(s, t, at, EndOr(s, EndOfNext(s, at, tag)))
    ensures EndOfNext(s, at, tag) == EndOfNext(t, at, tag)
    decreases |s| - at
  {
    if at + |tag| <= |s| {
      SameMatch(s, t, at, tag);
      if !Matches(s, at, tag) {
        SameNext(s, t, at + 1, tag);
      }
    }
  }

  lemma {:induction false} NextReaches(s: Text, at: nat, tag: Text)
    requires at + |tag| <= |s| && tag != []
    ensures EndOr(s, EndOfNext(s, at, tag)) >= at + |tag|
    decreases |s| - at
  {
    if !Matches(s, at, tag) && at + 1 + |tag| <= |s| {
      NextReaches(s, at + 1, tag);
    }
  }

  lemma SameMatch(s: Text, t: Text, at: nat, tag: Text)
    requires |s| == |t| && at + |tag| <= |s| && tag != [] && Agree(s, t, at, EndOr(s, EndOfNext(s, at, tag)))
    ensures Matches(s, at, tag) == Matches(t, at, tag)
  {
    NextReaches(s, at, tag);
    forall k | 0 <= k < |tag| ensures s[at + k] == tag[k] <==> t[at + k] == tag[k] {
      assert s[at + k] == t[at + k];
    }
  }

  lemma SameSlice(s: Text, t: Text, from: nat, to: nat)
    requires |s| == |t| && from <= to <= |s| && Agree(s, t, from, to)
    ensures s[from..to] == t[from..to]
  {
  }

  lemma SameDollar(s: Text, t: Text, at: nat)
    requires Twins(s, t) && at < |s|
    requires DollarQuoted(s, at).Quoted? ==> Agree(s, t, at, EndOr(s, DollarQuoted(s, at).end))
    ensures DollarQuoted(s, at) == DollarQuoted(t, at)
  {
    TwinClasses(s[at], t[at], DOLLAR, true);
    if s[at] == DOLLAR {
      var end := EndOfTag(s, at + 1, true);
      SameTag(s, t, at + 1, true);
      if Has(s, end, DOLLAR) {
        SameSlice(s, t, at, end + 1);
        SameNext(s, t, end + 1, s[at..end + 1]);
      }
    }
  }

  // ---------------------------------------------------------------------- lexemes

  lemma SameLexeme(s: Text, t: Text, at: nat)
    requires Twins(s, t) && at < |s|
    requires s[at] == DOLLAR && LexemeAt(s, at).kind.Literal? ==> Agree(s, t, at, LexemeAt(s, at).end)
    ensures LexemeAt(s, at) == LexemeAt(t, at)
  {
    SameDollar(s, t, at);
    SameWord(s, t, at);
    if s[at] == DASH && Has(s, at + 1, DASH) { SameLine(s, t, at); }
    else if s[at] == SLASH && Has(s, at + 1, STAR) { SameBlock(s, t, at, 0); }
    else if s[at] == QUOTE {
      SameEscapes(s, t, at);
      SameQuoted(s, t, at + 1, QUOTE, EscapesBackslashes(s, at));
    }
    else if s[at] == DOUBLE_QUOTE { SameQuoted(s, t, at + 1, DOUBLE_QUOTE, false); }
  }

  lemma SameSpelling(s: Text, t: Text, from: nat, to: nat)
    requires Twins(s, t) && from <= to <= |s|
    ensures IsListen(s[from..to]) == IsListen(t[from..to])
  {
    var a, b := s[from..to], t[from..to];
    forall k | 0 <= k < |a| ensures Lower(a[k]) == Lower(b[k]) {
      assert Twin(s[from + k], t[from + k]);
    }
  }

  lemma {:induction false} SameScan(s: Text, t: Text, at: nat, head: bool)
    requires Twins(s, t) && forall k :: 0 <= k < |s| && InDollar(s, at, k) ==> s[k] == t[k]
    ensures Scan(s, at, head) == Scan(t, at, head)
    decreases SatSub(|s|, at)
  {
    if at < |s| {
      var l := LexemeAt(s, at);
      SameLexeme(s, t, at);
      SameSpelling(s, t, at, l.end);
      SameScan(s, t, l.end, HeadAfter(l.kind, head));
    }
  }

  /** Whether a text has a LISTEN does not depend on the case of any letter outside its dollar quotes. */
  lemma CaseDoesNotMatter(s: Text, t: Text)
    requires Recased(s, t)
    ensures HasListen(s) == HasListen(t)
  {
    SameScan(s, t, 0, true);
  }
}
