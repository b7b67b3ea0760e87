/** The LISTEN scanner (crates/protocol/src/listen.rs). */
module Listen {
  import opened Numbers
  import opened Framing
  import opened Utf8

  type Text = seq<byte>

  const LISTEN: Text := [108, 105, 115, 116, 101, 110]   // "listen"

  const SEMICOLON: byte := 59
  const DASH: byte := 45
  const SLASH: byte := 47
  const STAR: byte := 42
  const QUOTE: byte := 39
  const DOUBLE_QUOTE: byte := 34
  const DOLLAR: byte := 36
  const BACKSLASH: byte := 92
  const NEWLINE: byte := 10
  const UNDERSCORE: byte := 95

  predicate IsDigit(b: byte) { 48 <= b <= 57 }

  predicate IsAlphabetic(b: byte) { 65 <= b <= 90 || 97 <= b <= 122 }

  /** `u8::is_ascii_whitespace`: space, tab, line feed, form feed and carriage return. */
  predicate IsSpace(b: byte) { b == 32 || b == 9 || b == 10 || b == 12 || b == 13 }

  predicate IsWord(b: byte) { IsAlphabetic(b) || IsDigit(b) || b == UNDERSCORE || b == DOLLAR || b >= 0x80 }

  predicate IsTag(b: byte, first: bool) { b == UNDERSCORE || b >= 0x80 || IsAlphabetic(b) || (!first && IsDigit(b)) }

  function Lower(b: byte): byte { if 65 <= b <= 90 then b + 32 else b }

  predicate IsListen(word: Text) {
    |word| == |LISTEN| && forall k :: 0 <= k < |word| ==> Lower(word[k]) == LISTEN[k]
  }

  /** `bytes.get(at) == Some(&b)`. */
  predicate Has(s: Text, at: nat, b: byte) { at < |s| && s[at] == b }

  // -------------------------------------------------------------------- scanners

  function EndOfWord(s: Text, at: nat): (end: nat)
    requires at <= |s|
    ensures at <= end <= |s|
    ensures at < |s| && IsWord(s[at]) ==> at < end
    decreases |s| - at
  {
    if at < |s| && IsWord(s[at]) then EndOfWord(s, at + 1) else at
  }

  /** Just past the next line feed, if there is one. */
  function EndOfLine(s: Text, at: nat): (end: Option<nat>)
    requires at <= |s|
    ensures end.Some? ==> at < end.value <= |s|
    decreases |s| - at
  {
    if at == |s| then None
    else if s[at] == NEWLINE then Some(at + 1)
    else EndOfLine(s, at + 1)
  }

  /** Just past the end of a comment that is `depth` deep at `cursor`. */
  function EndOfBlock(s: Text, cursor: nat, depth: nat): (end: Option<nat>)
    requires cursor <= |s| && (depth == 0 ==> Has(s, cursor, SLASH) && Has(s, cursor + 1, STAR))
    ensures end.Some? ==> cursor < end.value <= |s|
    decreases |s| - cursor
  {
    if cursor + 1 >= |s| then None
    else if s[cursor] == SLASH && s[cursor + 1] == STAR then EndOfBlock(s, cursor + 2, depth + 1)
    else if s[cursor] == STAR && s[cursor + 1] == SLASH then
      if depth == 1 then Some(cursor + 2) else EndOfBlock(s, cursor + 2, depth - 1)
    else EndOfBlock(s, cursor + 1, depth)
  }

  /** Whether the literal opening at `quote` is spelled `E'...'`. */
  predicate EscapesBackslashes(s: Text, quote: nat)
    requires quote < |s|
  {
    && quote >= 1
    && (s[quote - 1] == 101 || s[quote - 1] == 69)
    && (quote == 1 || !IsWord(s[quote - 2]))
  }

  /** Just past the closing quote of a literal whose body goes on at `cursor`. */
  function EndOfQuoted(s: Text, cursor: nat, quote: byte, escapes: bool): (end: Option<nat>)
    ensures end.Some? ==> cursor < end.value <= |s|
    decreases SatSub(|s|, cursor)
  {
    if cursor >= |s| then None
    else if escapes && s[cursor] == BACKSLASH then EndOfQuoted(s, cursor + 2, quote, escapes)
    else if s[cursor] != quote then EndOfQuoted(s, cursor + 1, quote, escapes)
    else if Has(s, cursor + 1, quote) then EndOfQuoted(s, cursor + 2, quote, escapes)
    else Some(cursor + 1)
  }

  function EndOfTag(s: Text, end: nat, first: bool): (r: nat)
    requires end <= |s|
    ensures end <= r <= |s|
    decreases |s| - end
  {
    if end < |s| && IsTag(s[end], first) then EndOfTag(s, end + 1, false) else end
  }

  predicate Matches(s: Text, at: nat, tag: Text)
    requires at + |tag| <= |s|
  {
    forall k :: 0 <= k < |tag| ==> s[at + k] == tag[k]
  }

  /** Just past the next occurrence of `tag`. */
  function EndOfNext(s: Text, at: nat, tag: Text): (end: Option<nat>)
    requires at <= |s| && tag != []
    ensures end.Some? ==> at < end.value <= |s|
    decreases |s| - at
  {
    if at + |tag| > |s| then None
    else if Matches(s, at, tag) then Some(at + |tag|)
    else EndOfNext(s, at + 1, tag)
  }

  datatype Dollar = NotQuoted | Quoted(end: Option<nat>)

  function DollarQuoted(s: Text, at: nat): (r: Dollar)
    requires at < |s|
    ensures r.Quoted? && r.end.Some? ==> at < r.end.value <= |s|
  {
    if s[at] != DOLLAR then NotQuoted
    else
      var end := EndOfTag(s, at + 1, true);
      if !Has(s, end, DOLLAR) then NotQuoted
      else Quoted(EndOfNext(s, end + 1, s[at..end + 1]))
  }

  // --------------------------------------------------------------------- lexemes

  datatype Kind = Blank | Separator | Literal | Word | Symbol

  /** What the scan reads at a position: its kind, where it ends, and whether it was closed. */
  datatype Lexeme = Lexeme(kind: Kind, end: nat, closed: bool)

  function Until(s: Text, kind: Kind, end: Option<nat>): Lexeme {
    if end.Some? then Lexeme(kind, end.value, true) else Lexeme(kind, |s|, false)
  }

  function LexemeAt(s: Text, at: nat): (r: Lexeme)
    requires at < |s|
    ensures at < r.end <= |s|
  {
    var b := s[at];
    if b == DASH && Has(s, at + 1, DASH) then Until(s, Blank, EndOfLine(s, at))
    else if b == SLASH && Has(s, at + 1, STAR) then Until(s, Blank, EndOfBlock(s, at, 0))
    else if b == SEMICOLON then Lexeme(Separator, at + 1, true)
    else if IsSpace(b) then Lexeme(Blank, at + 1, true)
    else if b == QUOTE then Until(s, Literal, EndOfQuoted(s, at + 1, QUOTE, EscapesBackslashes(s, at)))
    else if b == DOUBLE_QUOTE then Until(s, Literal, EndOfQuoted(s, at + 1, DOUBLE_QUOTE, false))
    else
      var dollar := DollarQuoted(s, at);
      if dollar.Quoted? then Until(s, Literal, dollar.end)
      else if IsWord(b) then Lexeme(Word, EndOfWord(s, at), true)
      else Lexeme(Symbol, at + 1, true)
  }

  /** Whether the next lexeme heads a statement, given whether this one did. */
  function HeadAfter(kind: Kind, head: bool): bool {
    match kind
    case Blank => head
    case Separator => true
    case _ => false
  }

  predicate Finds(s: Text, at: nat, head: bool)
    requires at < |s|
  {
    var l := LexemeAt(s, at);
    l.kind.Word? && head && IsListen(s[at..l.end])
  }

  predicate Scan(s: Text, at: nat, head: bool)
    decreases SatSub(|s|, at)
  {
    at < |s| && (Finds(s, at, head) || Scan(s, LexemeAt(s, at).end, HeadAfter(LexemeAt(s, at).kind, head)))
  }

  predicate HasListen(s: Text) { Scan(s, 0, true) }

  /** Every literal and comment the scan reads, before it answers, is closed. */
  predicate ReadsClosed(s: Text, at: nat, head: bool)
    decreases SatSub(|s|, at)
  {
    at < |s| ==>
      var l := LexemeAt(s, at);
      l.closed && (Finds(s, at, head) || ReadsClosed(s, l.end, HeadAfter(l.kind, head)))
  }

  // ---------------------------------------------------- the scanner under extension

  /** `a`, a semicolon, and `b`. */
  function Join(a: Text, b: Text): Text { a + [SEMICOLON] + b }

  lemma {:induction false} WordBefore(a: Text, b: Text, at: nat)
    requires at <= |a|
    ensures EndOfWord(Join(a, b), at) == EndOfWord(a, at)
    decreases |a| - at
  {
    if at < |a| && IsWord(a[at]) { WordBefore(a, b, at + 1); }
  }

  lemma {:induction false} LineBefore(a: Text, b: Text, at: nat)
    requires at <= |a| && EndOfLine(a, at).Some?
    ensures EndOfLine(Join(a, b), at) == EndOfLine(a, at)
    decreases |a| - at
  {
    if a[at] != NEWLINE { LineBefore(a, b, at + 1); }
  }

  lemma {:induction false} BlockBefore(a: Text, b: Text, cursor: nat, depth: nat)
    requires cursor <= |a| && (depth == 0 ==> Has(a, cursor, SLASH) && Has(a, cursor + 1, STAR))
    requires EndOfBlock(a, cursor, depth).Some?
    ensures EndOfBlock(Join(a, b), cursor, depth) == EndOfBlock(a, cursor, depth)
    decreases |a| - cursor
  {
    if a[cursor] == SLASH && a[cursor + 1] == STAR { BlockBefore(a, b, cursor + 2, depth + 1); }
    else if a[cursor] == STAR && a[cursor + 1] == SLASH {
      if depth != 1 { BlockBefore(a, b, cursor + 2, depth - 1); }
    } else { BlockBefore(a, b, cursor + 1, depth); }
  }

  lemma {:induction false} QuotedBefore(a: Text, b: Text, cursor: nat, quote: byte, escapes: bool)
    requires quote != SEMICOLON && EndOfQuoted(a, cursor, quote, escapes).Some?
    ensures EndOfQuoted(Join(a, b), cursor, quote, escapes) == EndOfQuoted(a, cursor, quote, escapes)
    decreases SatSub(|a|, cursor)
  {
    if escapes && a[cursor] == BACKSLASH { QuotedBefore(a, b, cursor + 2, quote, escapes); }
    else if a[cursor] != quote { QuotedBefore(a, b, cursor + 1, quote, escapes); }
    else if Has(a, cursor + 1, quote) { QuotedBefore(a, b, cursor + 2, quote, escapes); }
  }

  lemma {:induction false} TagBefore(a: Text, b: Text, end: nat, first: bool)
    requires end <= |a|
    ensures EndOfTag(Join(a, b), end, first) == EndOfTag(a, end, first)
    decreases |a| - end
  {
    if end < |a| && IsTag(a[end], first) { TagBefore(a, b, end + 1, false); }
  }

  lemma MatchesBefore(a: Text, b: Text, at: nat, tag: Text)
    requires at + |tag| <= |a|
    ensures Matches(Join(a, b), at, tag) == Matches(a, at, tag)
  {
    forall k | 0 <= k < |tag| ensures Join(a, b)[at + k] == tag[k] <==> a[at + k] == tag[k] {
      assert Join(a, b)[at + k] == a[at + k];
    }
  }

  lemma {:induction false} NextBefore(a: Text, b: Text, at: nat, tag: Text)
    requires at <= |a| && tag != [] && EndOfNext(a, at, tag).Some?
    ensures EndOfNext(Join(a, b), at, tag) == EndOfNext(a, at, tag)
    decreases |a| - at
  {
    MatchesBefore(a, b, at, tag);
    if !Matches(a, at, tag) { NextBefore(a, b, at + 1, tag); }
  }

  lemma SliceBefore(a: Text, b: Text, from: nat, to: nat)
    requires from <= to <= |a|
    ensures Join(a, b)[from..to] == a[from..to]
  {
  }

  lemma SliceAfter(a: Text, b: Text, from: nat, to: nat)
    requires from <= to <= |b|
    ensures Join(a, b)[|a| + 1 + from..|a| + 1 + to] == b[from..to]
  {
  }

  /** A dollar quote opens at `at` with this tag, whose last `$` is at `end`. */
  predicate Opens(s: Text, at: nat, end: nat, tag: Text)
    requires at < |s|
  {
    Has(s, at, DOLLAR) && end == EndOfTag(s, at + 1, true) && Has(s, end, DOLLAR) && tag == s[at..end + 1]
  }

  lemma DollarOpens(s: Text, at: nat, end: nat, tag: Text)
    requires at < |s| && Opens(s, at, end, tag)
    ensures tag != [] && DollarQuoted(s, at) == Quoted(EndOfNext(s, end + 1, tag))
  {
  }

  lemma OpensBefore(a: Text, b: Text, at: nat, end: nat, tag: Text)
    requires at < |a| && Opens(a, at, end, tag)
    ensures Opens(Join(a, b), at, end, tag)
  {
    TagBefore(a, b, at + 1, true);
    SliceBefore(a, b, at, end + 1);
  }

  lemma DollarBefore(a: Text, b: Text, at: nat)
    requires at < |a| && (DollarQuoted(a, at).Quoted? ==> DollarQuoted(a, at).end.Some?)
    ensures DollarQuoted(Join(a, b), at) == DollarQuoted(a, at)
  {
    var end := EndOfTag(a, at + 1, true);
    if a[at] == DOLLAR && Has(a, end, DOLLAR) {
      DollarOpensBefore(a, b, at, end, a[at..end + 1]);
    } else {
      TagBefore(a, b, at + 1, true);
    }
  }

  lemma DollarOpensBefore(a: Text, b: Text, at: nat, end: nat, tag: Text)
    requires at < |a| && Opens(a, at, end, tag) && DollarQuoted(a, at).Quoted? && DollarQuoted(a, at).end.Some?
    ensures DollarQuoted(Join(a, b), at) == DollarQuoted(a, at)
  {
    DollarOpens(a, at, end, tag);
    OpensBefore(a, b, at, end, tag);
    DollarOpens(Join(a, b), at, end, tag);
    NextBefore(a, b, end + 1, tag);
  }

  /** A lexeme closed in `a` is read the same when a semicolon and more text follow. */
  lemma LexemeBefore(a: Text, b: Text, at: nat)
    requires at < |a| && LexemeAt(a, at).closed
    ensures LexemeAt(Join(a, b), at) == LexemeAt(a, at)
  {
    var c := a[at];
    if c == DASH && Has(a, at + 1, DASH) { LineBefore(a, b, at); }
    else if c == SLASH && Has(a, at + 1, STAR) { BlockBefore(a, b, at, 0); }
    else if c == SEMICOLON || IsSpace(c) {}
    else if c == QUOTE { QuotedBefore(a, b, at + 1, QUOTE, EscapesBackslashes(a, at)); }
    else if c == DOUBLE_QUOTE { QuotedBefore(a, b, at + 1, DOUBLE_QUOTE, false); }
    else {
      DollarBefore(a, b, at);
      WordBefore(a, b, at);
    }
  }

  // -------------------------------------------------------- the scanner under a shift

  function Shift(end: Option<nat>, distance: nat): Option<nat> {
    if end.Some? then Some(end.value + distance) else None
  }

  lemma {:induction false} WordAfter(a: Text, b: Text, at: nat)
    requires at <= |b|
    ensures EndOfWord(Join(a, b), |a| + 1 + at) == EndOfWord(b, at) + |a| + 1
    decreases |b| - at
  {
    if at < |b| && IsWord(b[at]) { WordAfter(a, b, at + 1); }
  }

  lemma {:induction false} LineAfter(a: Text, b: Text, at: nat)
    requires at <= |b|
    ensures EndOfLine(Join(a, b), |a| + 1 + at) == Shift(EndOfLine(b, at), |a| + 1)
    decreases |b| - at
  {
    if at < |b| && b[at] != NEWLINE { LineAfter(a, b, at + 1); }
  }

  lemma {:induction false} BlockAfter(a: Text, b: Text, cursor: nat, depth: nat)
    requires cursor <= |b| && (depth == 0 ==> Has(b, cursor, SLASH) && Has(b, cursor + 1, STAR))
    ensures EndOfBlock(Join(a, b), |a| + 1 + cursor, depth) == Shift(EndOfBlock(b, cursor, depth), |a| + 1)
    decreases |b| - cursor
  {
    if cursor + 1 < |b| {
      if b[cursor] == SLASH && b[cursor + 1] == STAR { BlockAfter(a, b, cursor + 2, depth + 1); }
      else if b[cursor] == STAR && b[cursor + 1] == SLASH {
        if depth != 1 { BlockAfter(a, b, cursor + 2, depth - 1); }
      } else { BlockAfter(a, b, cursor + 1, depth); }
    }
  }

  lemma {:induction false} QuotedAfter(a: Text, b: Text, cursor: nat, quote: byte, escapes: bool)
    ensures EndOfQuoted(Join(a, b), |a| + 1 + cursor, quote, escapes)
            == Shift(EndOfQuoted(b, cursor, quote, escapes), |a| + 1)
    decreases SatSub(|b|, cursor)
  {
    if cursor < |b| {
      if escapes && b[cursor] == BACKSLASH { QuotedAfter(a, b, cursor + 2, quote, escapes); }
      else if b[cursor] != quote { QuotedAfter(a, b, cursor + 1, quote, escapes); }
      else if Has(b, cursor + 1, quote) { QuotedAfter(a, b, cursor + 2, quote, escapes); }
    }
  }

  lemma {:induction false} TagAfter(a: Text, b: Text, end: nat, first: bool)
    requires end <= |b|
    ensures EndOfTag(Join(a, b), |a| + 1 + end, first) == EndOfTag(b, end, first) + |a| + 1
    decreases |b| - end
  {
    if end < |b| && IsTag(b[end], first) { TagAfter(a, b, end + 1, false); }
  }

  lemma MatchesAfter(a: Text, b: Text, at: nat, tag: Text)
    requires at + |tag| <= |b|
    ensures Matches(Join(a, b), |a| + 1 + at, tag) == Matches(b, at, tag)
  {
    forall k | 0 <= k < |tag| ensures Join(a, b)[|a| + 1 + at + k] == tag[k] <==> b[at + k] == tag[k] {
      assert Join(a, b)[|a| + 1 + at + k] == b[at + k];
    }
  }

  lemma {:induction false} NextAfter(a: Text, b: Text, at: nat, tag: Text)
    requires at <= |b| && tag != []
    ensures EndOfNext(Join(a, b), |a| + 1 + at, tag) == Shift(EndOfNext(b, at, tag), |a| + 1)
    decreases |b| - at
  {
    if at + |tag| <= |b| {
      MatchesAfter(a, b, at, tag);
      if !Matches(b, at, tag) { NextAfter(a, b, at + 1, tag); }
    }
  }

  lemma HasAfter(a: Text, b: Text, at: nat, c: byte)
    ensures Has(Join(a, b), |a| + 1 + at, c) == Has(b, at, c)
  {
  }

  lemma OpensAfter(a: Text, b: Text, at: nat, end: nat, tag: Text)
    requires at < |b| && Opens(b, at, end, tag)
    ensures Opens(Join(a, b), |a| + 1 + at, |a| + 1 + end, tag)
  {
    TagAfter(a, b, at + 1, true);
    HasAfter(a, b, at, DOLLAR);
    HasAfter(a, b, end, DOLLAR);
    SliceAfter(a, b, at, end + 1);
  }

  lemma DollarAfter(a: Text, b: Text, at: nat)
    requires at < |b|
    ensures DollarQuoted(Join(a, b), |a| + 1 + at) == ShiftDollar(DollarQuoted(b, at), |a| + 1)
  {
    var end := EndOfTag(b, at + 1, true);
    HasAfter(a, b, at, DOLLAR);
    if Has(b, at, DOLLAR) && Has(b, end, DOLLAR) {
      DollarOpensAfter(a, b, at, end, b[at..end + 1]);
    } else {
      TagAfter(a, b, at + 1, true);
      HasAfter(a, b, end, DOLLAR);
    }
  }

  lemma DollarOpensAfter(a: Text, b: Text, at: nat, end: nat, tag: Text)
    requires at < |b| && Opens(b, at, end, tag)
    ensures DollarQuoted(Join(a, b), |a| + 1 + at) == ShiftDollar(DollarQuoted(b, at), |a| + 1)
  {
    DollarOpens(b, at, end, tag);
    DollarOpensShifted(a, b, at, end, tag);
    NextAfter(a, b, end + 1, tag);
  }

  lemma DollarOpensShifted(a: Text, b: Text, at: nat, end: nat, tag: Text)
    requires at < |b| && Opens(b, at, end, tag)
    ensures tag != [] && |a| + 1 + end + 1 <= |Join(a, b)|
    ensures DollarQuoted(Join(a, b), |a| + 1 + at) == Quoted(EndOfNext(Join(a, b), |a| + 1 + end + 1, tag))
  {
    OpensAfter(a, b, at, end, tag);
    var s, from, to := Join(a, b), |a| + 1 + at, |a| + 1 + end;
    DollarOpens(s, from, to, tag);
  }

  function ShiftDollar(d: Dollar, distance: nat): Dollar {
    if d.NotQuoted? then NotQuoted else Quoted(Shift(d.end, distance))
  }

  lemma EscapesAfter(a: Text, b: Text, at: nat)
    requires at < |b|
    ensures EscapesBackslashes(Join(a, b), |a| + 1 + at) == EscapesBackslashes(b, at)
  {
  }

  predicate StartsComment(s: Text, at: nat) {
    (Has(s, at, DASH) && Has(s, at + 1, DASH)) || (Has(s, at, SLASH) && Has(s, at + 1, STAR))
  }

  lemma CommentAfter(a: Text, b: Text, at: nat)
    requires at < |b| && StartsComment(b, at)
    ensures LexemeAt(Join(a, b), |a| + 1 + at) == ShiftLexeme(LexemeAt(b, at), |a| + 1)
  {
    HasAfter(a, b, at, DASH);
    HasAfter(a, b, at + 1, DASH);
    HasAfter(a, b, at, SLASH);
    HasAfter(a, b, at + 1, STAR);
    if Has(b, at, DASH) && Has(b, at + 1, DASH) {
      LineAfter(a, b, at);
    } else {
      BlockAfter(a, b, at, 0);
    }
  }

  lemma NoCommentAfter(a: Text, b: Text, at: nat)
    requires at < |b|
    ensures Join(a, b)[|a| + 1 + at] == b[at] && StartsComment(Join(a, b), |a| + 1 + at) == StartsComment(b, at)
  {
    HasAfter(a, b, at, DASH);
    HasAfter(a, b, at + 1, DASH);
    HasAfter(a, b, at, SLASH);
    HasAfter(a, b, at + 1, STAR);
  }

  lemma LiteralAfter(a: Text, b: Text, at: nat)
    requires at < |b| && (b[at] == QUOTE || b[at] == DOUBLE_QUOTE)
    ensures LexemeAt(Join(a, b), |a| + 1 + at) == ShiftLexeme(LexemeAt(b, at), |a| + 1)
  {
    NoCommentAfter(a, b, at);
    if b[at] == QUOTE {
      EscapesAfter(a, b, at);
      QuotedAfter(a, b, at + 1, QUOTE, EscapesBackslashes(b, at));
    } else {
      QuotedAfter(a, b, at + 1, DOUBLE_QUOTE, false);
    }
  }

  function ShiftLexeme(l: Lexeme, distance: nat): Lexeme { Lexeme(l.kind, l.end + distance, l.closed) }

  lemma OtherAfter(a: Text, b: Text, at: nat)
    requires at < |b| && !StartsComment(b, at) && b[at] != QUOTE && b[at] != DOUBLE_QUOTE
    ensures LexemeAt(Join(a, b), |a| + 1 + at) == ShiftLexeme(LexemeAt(b, at), |a| + 1)
  {
    NoCommentAfter(a, b, at);
    DollarAfter(a, b, at);
    WordAfter(a, b, at);
  }

  /** Text after a semicolon is read as it would be on its own; in particular a literal's `E` is
      looked for no further back than the semicolon. */
  lemma LexemeAfter(a: Text, b: Text, at: nat)
    requires at < |b|
    ensures LexemeAt(Join(a, b), |a| + 1 + at) == ShiftLexeme(LexemeAt(b, at), |a| + 1)
  {
    if StartsComment(b, at) {
      CommentAfter(a, b, at);
    } else if b[at] == QUOTE || b[at] == DOUBLE_QUOTE {
      LiteralAfter(a, b, at);
    } else {
      OtherAfter(a, b, at);
    }
  }

  lemma FindsAfter(a: Text, b: Text, at: nat, head: bool)
    requires at < |b|
    ensures Finds(Join(a, b), |a| + 1 + at, head) == Finds(b, at, head)
  {
    LexemeAfter(a, b, at);
    SliceAfter(a, b, at, LexemeAt(b, at).end);
  }

  lemma {:induction false} ScanAfter(a: Text, b: Text, at: nat, head: bool)
    ensures Scan(Join(a, b), |a| + 1 + at, head) == Scan(b, at, head)
    decreases SatSub(|b|, at)
  {
    if at < |b| {
      var l := LexemeAt(b, at);
      LexemeAfter(a, b, at);
      FindsAfter(a, b, at, head);
      ScanAfter(a, b, l.end, HeadAfter(l.kind, head));
    }
  }

  lemma {:induction false} ScanBefore(a: Text, b: Text, at: nat, head: bool)
    requires at <= |a| && ReadsClosed(a, at, head)
    ensures Scan(Join(a, b), at, head) == (Scan(a, at, head) || Scan(b, 0, true))
    decreases |a| - at
  {
    if at == |a| {
      assert LexemeAt(Join(a, b), at) == Lexeme(Separator, |a| + 1, true);
      ScanAfter(a, b, 0, true);
    } else {
      var l := LexemeAt(a, at);
      LexemeBefore(a, b, at);
      SliceBefore(a, b, at, l.end);
      if !Finds(a, at, head) {
        ScanBefore(a, b, l.end, HeadAfter(l.kind, head));
      }
    }
  }

  /** The concatenation law: when everything the scan of `a` reads is closed, the statements of
      `a` and of `b` are found independently of each other. */
  lemma ConcatenationLaw(a: Text, b: Text)
    requires ReadsClosed(a, 0, true)
    ensures HasListen(Join(a, b)) <==> HasListen(a) || HasListen(b)
  {
    ScanBefore(a, b, 0, true);
  }

  // ----------------------------------------------------- when the law does not hold

  lemma {:induction false} LineStaysOpen(a: Text, at: nat)
    requires at <= |a| + 1 + |LISTEN| && (at <= |a| ==> EndOfLine(a, at).None?)
    ensures EndOfLine(Join(a, LISTEN), at).None?
    decreases |a| + 1 + |LISTEN| - at
  {
    if at < |Join(a, LISTEN)| { LineStaysOpen(a, at + 1); }
  }

  lemma {:induction false} BlockStaysOpen(a: Text, cursor: nat, depth: nat)
    requires cursor <= |a| + 1 + |LISTEN| && (depth == 0 ==> Has(a, cursor, SLASH) && Has(a, cursor + 1, STAR))
    requires cursor <= |a| ==> EndOfBlock(a, cursor, depth).None?
    ensures EndOfBlock(Join(a, LISTEN), cursor, depth).None?
    decreases |a| + 1 + |LISTEN| - cursor
  {
    var c := Join(a, LISTEN);
    if cursor + 1 < |c| {
      if cursor + 1 < |a| && a[cursor] == SLASH && a[cursor + 1] == STAR { BlockStaysOpen(a, cursor + 2, depth + 1); }
      else if cursor + 1 < |a| && a[cursor] == STAR && a[cursor + 1] == SLASH {
        BlockStaysOpen(a, cursor + 2, depth - 1);
      }
      else { BlockStaysOpen(a, cursor + 1, depth); }
    }
  }

  lemma {:induction false} QuotedStaysOpen(a: Text, cursor: nat, quote: byte, escapes: bool)
    requires quote == QUOTE || quote == DOUBLE_QUOTE
    requires EndOfQuoted(a, cursor, quote, escapes).None?
    ensures EndOfQuoted(Join(a, LISTEN), cursor, quote, escapes).None?
    decreases SatSub(|a| + 1 + |LISTEN|, cursor)
  {
    var c := Join(a, LISTEN);
    if cursor < |c| {
      if escapes && c[cursor] == BACKSLASH { QuotedStaysOpen(a, cursor + 2, quote, escapes); }
      else if c[cursor] != quote { QuotedStaysOpen(a, cursor + 1, quote, escapes); }
      else { QuotedStaysOpen(a, cursor + 2, quote, escapes); }
    }
  }

  lemma {:induction false} NextStaysOpen(a: Text, at: nat, tag: Text)
    requires at <= |a| + 1 + |LISTEN| && tag != [] && tag[|tag| - 1] == DOLLAR
    requires at <= |a| ==> EndOfNext(a, at, tag).None?
    ensures EndOfNext(Join(a, LISTEN), at, tag).None?
    decreases |a| + 1 + |LISTEN| - at
  {
    var c := Join(a, LISTEN);
    if at + |tag| <= |c| {
      if at + |tag| <= |a| {
        MatchesBefore(a, LISTEN, at, tag);
      } else {
        assert tag[|tag| - 1] != c[at + (|tag| - 1)];
      }
      NextStaysOpen(a, at + 1, tag);
    }
  }

  /** A literal or comment left open in `a` swallows a LISTEN put behind it. */
  lemma LexemeStaysOpen(a: Text, at: nat)
    requires at < |a| && !LexemeAt(a, at).closed
    ensures var l := LexemeAt(Join(a, LISTEN), at);
            !l.closed && l.end == |Join(a, LISTEN)| && !l.kind.Word?
  {
    var c := a[at];
    if c == DASH && Has(a, at + 1, DASH) { LineStaysOpen(a, at); }
    else if c == SLASH && Has(a, at + 1, STAR) { BlockStaysOpen(a, at, 0); }
    else if c == QUOTE { QuotedStaysOpen(a, at + 1, QUOTE, EscapesBackslashes(a, at)); }
    else if c == DOUBLE_QUOTE { QuotedStaysOpen(a, at + 1, DOUBLE_QUOTE, false); }
    else { DollarStaysOpen(a, at); }
  }

  lemma DollarStaysOpen(a: Text, at: nat)
    requires at < |a| && DollarQuoted(a, at) == Quoted(None)
    ensures DollarQuoted(Join(a, LISTEN), at) == Quoted(None)
  {
    var end := EndOfTag(a, at + 1, true);
    OpenStaysOpen(a, at, end, a[at..end + 1]);
  }

  lemma OpenStaysOpen(a: Text, at: nat, end: nat, tag: Text)
    requires at < |a| && Opens(a, at, end, tag) && DollarQuoted(a, at) == Quoted(None)
    ensures DollarQuoted(Join(a, LISTEN), at) == Quoted(None)
  {
    LastOfSlice(a, at, end);
    DollarOpens(a, at, end, tag);
    OpensBefore(a, LISTEN, at, end, tag);
    DollarOpens(Join(a, LISTEN), at, end, tag);
    NextStaysOpen(a, end + 1, tag);
  }

  lemma LastOfSlice(s: Text, from: nat, last: nat)
    requires from <= last < |s|
    ensures s[from..last + 1] != [] && s[from..last + 1][|s[from..last + 1]| - 1] == s[last]
  {
  }

  lemma {:induction false} ScanStaysOpen(a: Text, at: nat, head: bool)
    requires at <= |a| && !ReadsClosed(a, at, head)
    ensures !Scan(Join(a, LISTEN), at, head)
    decreases |a| - at
  {
    var l := LexemeAt(a, at);
    if l.closed {
      LexemeBefore(a, LISTEN, at);
      SliceBefore(a, LISTEN, at, l.end);
      ScanStaysOpen(a, l.end, HeadAfter(l.kind, head));
    } else {
      LexemeStaysOpen(a, at);
    }
  }

  lemma ListenIsFound()
    ensures HasListen(LISTEN)
  {
    assert EndOfWord(LISTEN, 6) == 6;
    assert EndOfWord(LISTEN, 4) == 6;
    assert EndOfWord(LISTEN, 2) == 6;
    assert EndOfWord(LISTEN, 0) == 6;
    assert LexemeAt(LISTEN, 0) == Lexeme(Word, 6, true);
    assert LISTEN[0..6] == LISTEN;
  }

  /** The exact condition: whatever is appended after `a`, its statements are found independently,
      if and only if everything the scan of `a` reads is closed. */
  lemma LawHoldsIff(a: Text)
    ensures ReadsClosed(a, 0, true)
            <==> forall b :: HasListen(Join(a, b)) <==> HasListen(a) || HasListen(b)
  {
    if ReadsClosed(a, 0, true) {
      forall b ensures HasListen(Join(a, b)) <==> HasListen(a) || HasListen(b) {
        ConcatenationLaw(a, b);
      }
    } else {
      ScanStaysOpen(a, 0, true);
      ListenIsFound();
    }
  }

  // ---------------------------------------------------------- character boundaries

  lemma {:induction false} LineEndsInAscii(s: Text, at: nat)
    requires at <= |s| && EndOfLine(s, at).Some?
    ensures s[EndOfLine(s, at).value - 1] < 0x80
    decreases |s| - at
  {
    if s[at] != NEWLINE { LineEndsInAscii(s, at + 1); }
  }

  lemma {:induction false} BlockEndsInAscii(s: Text, cursor: nat, depth: nat)
    requires cursor <= |s| && (depth == 0 ==> Has(s, cursor, SLASH) && Has(s, cursor + 1, STAR))
    requires EndOfBlock(s, cursor, depth).Some?
    ensures s[EndOfBlock(s, cursor, depth).value - 1] < 0x80
    decreases |s| - cursor
  {
    if s[cursor] == SLASH && s[cursor + 1] == STAR { BlockEndsInAscii(s, cursor + 2, depth + 1); }
    else if s[cursor] == STAR && s[cursor + 1] == SLASH {
      if depth != 1 { BlockEndsInAscii(s, cursor + 2, depth - 1); }
    }
    else { BlockEndsInAscii(s, cursor + 1, depth); }
  }

  lemma {:induction false} QuotedEndsInAscii(s: Text, cursor: nat, quote: byte, escapes: bool)
    requires EndOfQuoted(s, cursor, quote, escapes).Some? && quote < 0x80
    ensures s[EndOfQuoted(s, cursor, quote, escapes).value - 1] < 0x80
    decreases SatSub(|s|, cursor)
  {
    if escapes && s[cursor] == BACKSLASH { QuotedEndsInAscii(s, cursor + 2, quote, escapes); }
    else if s[cursor] != quote { QuotedEndsInAscii(s, cursor + 1, quote, escapes); }
    else if Has(s, cursor + 1, quote) { QuotedEndsInAscii(s, cursor + 2, quote, escapes); }
  }

  lemma {:induction false} NextEndsInTag(s: Text, at: nat, tag: Text)
    requires at <= |s| && tag != [] && EndOfNext(s, at, tag).Some?
    ensures s[EndOfNext(s, at, tag).value - 1] == tag[|tag| - 1]
    decreases |s| - at
  {
    if Matches(s, at, tag) {
      assert s[at + (|tag| - 1)] == tag[|tag| - 1];
    } else {
      NextEndsInTag(s, at + 1, tag);
    }
  }

  lemma DollarEndsInAscii(s: Text, at: nat)
    requires at < |s| && DollarQuoted(s, at).Quoted? && DollarQuoted(s, at).end.Some?
    ensures s[DollarQuoted(s, at).end.value - 1] < 0x80
  {
    var end := EndOfTag(s, at + 1, true);
    LastOfSlice(s, at, end);
    NextEndsInTag(s, end + 1, s[at..end + 1]);
  }

  lemma {:induction false} WordEndsBeforeAscii(s: Text, at: nat)
    requires at <= |s|
    ensures EndOfWord(s, at) < |s| ==> s[EndOfWord(s, at)] < 0x80
    decreases |s| - at
  {
    if at < |s| && IsWord(s[at]) { WordEndsBeforeAscii(s, at + 1); }
  }

  lemma ClosedEndsInAscii(s: Text, at: nat)
    requires at < |s| && LexemeAt(s, at).closed && !LexemeAt(s, at).kind.Word?
    ensures s[LexemeAt(s, at).end - 1] < 0x80
  {
    var b := s[at];
    if b == DASH && Has(s, at + 1, DASH) { LineEndsInAscii(s, at); }
    else if b == SLASH && Has(s, at + 1, STAR) { BlockEndsInAscii(s, at, 0); }
    else if b == QUOTE { QuotedEndsInAscii(s, at + 1, QUOTE, EscapesBackslashes(s, at)); }
    else if b == DOUBLE_QUOTE { QuotedEndsInAscii(s, at + 1, DOUBLE_QUOTE, false); }
    else if b == DOLLAR && DollarQuoted(s, at).Quoted? { DollarEndsInAscii(s, at); }
  }

  lemma OpenEndsTheText(s: Text, at: nat)
    requires at < |s|
    ensures LexemeAt(s, at).closed || LexemeAt(s, at).end == |s|
    ensures LexemeAt(s, at).kind.Word? ==> LexemeAt(s, at).end == EndOfWord(s, at)
  {
  }

  /** Whatever the scan reads ends at a character boundary, wherever it was begun and although a
      backslash makes it step over two bytes at a time. */
  lemma LexemeEndsOnBoundary(s: Text, at: nat)
    requires ValidUtf8(s) && at < |s|
    ensures Boundary(s, LexemeAt(s, at).end)
  {
    OpenEndsTheText(s, at);
    if LexemeAt(s, at).kind.Word? {
      WordEndsBeforeAscii(s, at);
    } else if LexemeAt(s, at).closed {
      ClosedEndsInAscii(s, at);
      AfterAscii(s, LexemeAt(s, at).end - 1);
    }
  }

  /** Every word the scan slices out of the text to compare it starts and ends on a character
      boundary, so the slice cannot panic. */
  predicate SlicesOnBoundaries(s: Text, at: nat, head: bool)
    decreases SatSub(|s|, at)
  {
    at < |s| ==>
      var l := LexemeAt(s, at);
      && (l.kind.Word? && head ==> Boundary(s, at) && Boundary(s, l.end))
      && (Finds(s, at, head) || SlicesOnBoundaries(s, l.end, HeadAfter(l.kind, head)))
  }

  lemma {:induction false} ScanStaysOnBoundaries(s: Text, at: nat, head: bool)
    requires ValidUtf8(s) && at <= |s| && Boundary(s, at)
    ensures SlicesOnBoundaries(s, at, head)
    decreases |s| - at
  {
    if at < |s| {
      var l := LexemeAt(s, at);
      LexemeEndsOnBoundary(s, at);
      ScanStaysOnBoundaries(s, l.end, HeadAfter(l.kind, head));
    }
  }

  lemma ScanNeverPanics(s: Text)
    requires ValidUtf8(s)
    ensures SlicesOnBoundaries(s, 0, true)
  {
    StartIsBoundary(s);
    ScanStaysOnBoundaries(s, 0, true);
  }

  // ------------------------------------------------------------ the imperative form

  method FindEndOfWord(s: Text, at: nat) returns (end: nat)
    requires at <= |s|
    ensures end == EndOfWord(s, at)
  {
    end := at;
    while end < |s| && IsWord(s[end])
      invariant at <= end <= |s|
      invariant EndOfWord(s, end) == EndOfWord(s, at)
    {
      end := end + 1;
    }
  }

  method FindEndOfBlock(s: Text, at: nat) returns (end: nat)
    requires Has(s, at, SLASH) && Has(s, at + 1, STAR)
    ensures end == Until(s, Blank, EndOfBlock(s, at, 0)).end
  {
    var depth: nat := 0;
    var cursor := at;
    while cursor + 1 < |s|
      invariant at <= cursor <= |s| && (depth == 0 ==> cursor == at)
      invariant EndOfBlock(s, cursor, depth) == EndOfBlock(s, at, 0)
    {
      if s[cursor] == SLASH && s[cursor + 1] == STAR {
        depth := depth + 1;
        cursor := cursor + 2;
      } else if s[cursor] == STAR && s[cursor + 1] == SLASH {
        depth := depth - 1;
        cursor := cursor + 2;
        if depth == 0 {
          return cursor;
        }
      } else {
        cursor := cursor + 1;
      }
    }
    return |s|;
  }

  method FindEndOfQuoted(s: Text, at: nat, escapes: bool) returns (end: nat)
    requires at < |s|
    ensures end == Until(s, Literal, EndOfQuoted(s, at + 1, s[at], escapes)).end
  {
    var quote := s[at];
    var cursor := at + 1;
    while cursor < |s|
      invariant at < cursor
      invariant EndOfQuoted(s, cursor, quote, escapes) == EndOfQuoted(s, at + 1, quote, escapes)
    {
      if escapes && s[cursor] == BACKSLASH {
        cursor := cursor + 2;
      } else if s[cursor] != quote {
        cursor := cursor + 1;
      } else if cursor + 1 < |s| && s[cursor + 1] == quote {
        cursor := cursor + 2;
      } else {
        return cursor + 1;
      }
    }
    return |s|;
  }

  method FindEndOfDollarQuoted(s: Text, at: nat) returns (end: Option<nat>)
    requires at < |s|
    ensures end == if DollarQuoted(s, at).NotQuoted? then None else Some(Until(s, Literal, DollarQuoted(s, at).end).end)
  {
    if s[at] != DOLLAR {
      return None;
    }
    var stop := FindEndOfTag(s, at);
    if !(stop < |s| && s[stop] == DOLLAR) {
      return None;
    }
    var found := FindNext(s, stop + 1, s[at..stop + 1]);
    return Some(found);
  }

  method FindEndOfTag(s: Text, at: nat) returns (end: nat)
    requires at < |s|
    ensures end == EndOfTag(s, at + 1, true)
  {
    end := at + 1;
    while end < |s| && IsTag(s[end], end == at + 1)
      invariant at < end <= |s|
      invariant EndOfTag(s, end, end == at + 1) == EndOfTag(s, at + 1, true)
    {
      end := end + 1;
    }
  }

  /** `windows(..).position(..)`. */
  lemma MatchesWindow(s: Text, at: nat, tag: Text)
    requires at + |tag| <= |s|
    ensures Matches(s, at, tag) <==> s[at..at + |tag|] == tag
  {
    var window := s[at..at + |tag|];
    assert forall k :: 0 <= k < |tag| ==> window[k] == s[at + k];
  }

  method FindNext(s: Text, at: nat, tag: Text) returns (end: nat)
    requires at <= |s| && tag != []
    ensures end == Until(s, Literal, EndOfNext(s, at, tag)).end
  {
    var found := at;
    while found + |tag| <= |s|
      invariant at <= found <= |s|
      invariant EndOfNext(s, found, tag) == EndOfNext(s, at, tag)
    {
      MatchesWindow(s, found, tag);
      if s[found..found + |tag|] == tag {
        return found + |tag|;
      }
      found := found + 1;
    }
    return |s|;
  }

  /** `has_listen`: the cursor loop. */
  method FindListen(s: Text) returns (found: bool)
    ensures found == HasListen(s)
  {
    var at: nat := 0;
    var head := true;
    while at < |s|
      invariant at <= |s|
      invariant Scan(s, at, head) == HasListen(s)
    {
      var b := s[at];
      ghost var l := LexemeAt(s, at);
      if b == DASH && Has(s, at + 1, DASH) {
        at := Until(s, Blank, EndOfLine(s, at)).end;
      } else if b == SLASH && Has(s, at + 1, STAR) {
        at := FindEndOfBlock(s, at);
      } else if b == SEMICOLON {
        head := true;
        at := at + 1;
      } else if IsSpace(b) {
        at := at + 1;
      } else if b == QUOTE {
        at := FindEndOfQuoted(s, at, EscapesBackslashes(s, at));
        head := false;
      } else if b == DOUBLE_QUOTE {
        at := FindEndOfQuoted(s, at, false);
        head := false;
      } else {
        var dollar := FindEndOfDollarQuoted(s, at);
        if dollar.Some? {
          at := dollar.value;
          head := false;
        } else if IsWord(b) {
          var end := FindEndOfWord(s, at);
          if head && IsListen(s[at..end]) {
            return true;
          }
          head := false;
          at := end;
        } else {
          head := false;
          at := at + 1;
        }
      }
    }
    return false;
  }
}
