/**
 What `has_listen` (crates/protocol/src/listen.rs) answers, told from the other end: a text is written
 out from its words, literals and comments, and the scanner is shown to read it back.
 */
module ListenText {
  import opened Numbers
  import opened Framing
  import opened Listen

  // ------------------------------------------------------------------- characters

  predicate Letter(b: byte) { 'a' as int <= b <= 'z' as int || 'A' as int <= b <= 'Z' as int }

  predicate WordByte(b: byte) {
    Letter(b) || '0' as int <= b <= '9' as int || b == '_' as int || b == '$' as int || b >= 0x80
  }

  /** A byte of the tag of a dollar quote: a word byte, no dollar, and no digit in front. */
  predicate TagByte(b: byte, first: bool) {
    WordByte(b) && b != '$' as int && !(first && '0' as int <= b <= '9' as int)
  }

  predicate SpaceByte(b: byte) { b in {' ' as int, '\t' as int, '\n' as int, '\r' as int, 12} }

  lemma ClassesAgree(b: byte, first: bool)
    ensures IsWord(b) == WordByte(b) && IsTag(b, first) == TagByte(b, first) && IsSpace(b) == SpaceByte(b)
  {
  }

  // ----------------------------------------------------------------------- tokens

  /** What stands in a block comment: text, and comments of its own. */
  datatype Part = Run(text: Text) | Nested(inside: seq<Part>)

  /** What stands in a quoted literal: a byte, the quote written twice, or a byte behind a backslash. */
  datatype Piece = Byte(b: byte) | Doubled | Escaped(b: byte)

  datatype Token =
    | Space(b: byte)
    | Semicolon
    | LineComment(body: Text)
    | BlockComment(inside: seq<Part>)
    | Quoted(escapes: bool, pieces: seq<Piece>)
    | Identifier(pieces: seq<Piece>)
    | DollarText(tag: Text, body: Text)
    | Word(bytes: Text)
    | Symbol(b: byte)

  function Parts(ps: seq<Part>): Text {
    if ps == [] then [] else PartOf(ps[0]) + Parts(ps[1..])
  }

  function PartOf(p: Part): Text {
    match p
    case Run(text) => text
    case Nested(inside) => ['/' as int, '*' as int] + Parts(inside) + ['*' as int, '/' as int]
  }

  function PieceOf(p: Piece, quote: byte): Text {
    match p
    case Byte(b) => [b]
    case Doubled => [quote, quote]
    case Escaped(b) => ['\\' as int, b]
  }

  function Pieces(ps: seq<Piece>, quote: byte): Text {
    if ps == [] then [] else PieceOf(ps[0], quote) + Pieces(ps[1..], quote)
  }

  /** How a token is written. */
  function Written(t: Token): Text {
    match t
    case Space(b) => [b]
    case Semicolon => [';' as int]
    case LineComment(body) => ['-' as int, '-' as int] + body + ['\n' as int]
    case BlockComment(inside) => PartOf(Nested(inside))
    case Quoted(_, pieces) => ['\'' as int] + Pieces(pieces, '\'' as int) + ['\'' as int]
    case Identifier(pieces) => ['"' as int] + Pieces(pieces, '"' as int) + ['"' as int]
    case DollarText(tag, body) => Dollars(tag) + body + Dollars(tag)
    case Word(bytes) => bytes
    case Symbol(b) => [b]
  }

  function Dollars(tag: Text): Text { ['$' as int] + tag + ['$' as int] }

  /** Tokens one after the other, and then the rest of the text. */
  function TextOf(ts: seq<Token>, tail: Text): Text {
    if ts == [] then tail else Written(ts[0]) + TextOf(ts[1..], tail)
  }

  // ------------------------------------------------------------------ well written

  /** Bytes that neither open nor close a comment. */
  predicate Harmless(a: byte, b: byte) {
    !(a == '/' as int && b == '*' as int) && !(a == '*' as int && b == '/' as int)
  }

  /** Text of a comment: it opens and closes nothing, also not together with the byte that follows. */
  predicate RunText(text: Text, next: byte) {
    && text != [] && Harmless(text[|text| - 1], next)
    && forall k {:trigger text[k]} :: 0 <= k < |text| - 1 ==> Harmless(text[k], text[k + 1])
  }

  predicate GoodPart(p: Part, next: byte) {
    match p
    case Run(text) => RunText(text, next)
    case Nested(inside) => GoodParts(inside)
  }

  /** Parts of a comment, up to the star that closes it. */
  predicate GoodParts(ps: seq<Part>) { ps == [] || (GoodPart(ps[0], FirstOf(ps[1..])) && GoodParts(ps[1..])) }

  /** The byte that follows in a comment that goes on with these parts. */
  function FirstOf(ps: seq<Part>): byte { (Parts(ps) + ['*' as int])[0] }

  predicate GoodPieces(ps: seq<Piece>, quote: byte, escapes: bool) {
    forall p :: p in ps ==>
      match p
      case Byte(b) => b != quote && (escapes ==> b != '\\' as int)
      case Doubled => true
      case Escaped(_) => escapes
  }

  predicate GoodTag(tag: Text) {
    forall k :: 0 <= k < |tag| ==> TagByte(tag[k], k == 0)
  }

  /** The closing tag stands nowhere in the body, also not across its end. */
  predicate EndsFirst(body: Text, tag: Text) {
    forall k :: 0 <= k < |body| ==> !At(body + tag, k, tag)
  }

  /** A word that would be read as the opening of a dollar quote, unlike `$1`. */
  predicate OpensDollar(bytes: Text) {
    Starts(bytes, '$' as int) && exists n :: 1 <= n < |bytes| && bytes[n] == '$' as int && GoodTag(bytes[1..n])
  }

  predicate Good(t: Token) {
    match t
    case Space(b) => SpaceByte(b)
    case Semicolon => true
    case LineComment(body) => '\n' as int !in body
    case BlockComment(inside) => GoodParts(inside)
    case Quoted(escapes, pieces) => GoodPieces(pieces, '\'' as int, escapes)
    case Identifier(pieces) => GoodPieces(pieces, '"' as int, false)
    case DollarText(tag, body) => GoodTag(tag) && EndsFirst(body, Dollars(tag))
    case Word(bytes) => bytes != [] && (forall k :: 0 <= k < |bytes| ==> WordByte(bytes[k])) && !OpensDollar(bytes)
    case Symbol(b) => !WordByte(b) && !SpaceByte(b) && b !in {';' as int, '\'' as int, '"' as int}
  }

  predicate Starts(s: Text, b: byte) { s != [] && s[0] == b }

  /** An `e` or `E` that is a word of its own. */
  predicate EndsInE(s: Text) {
    && s != [] && s[|s| - 1] in {'e' as int, 'E' as int}
    && (|s| == 1 || !WordByte(s[|s| - 2]))
  }

  /** A token may stand between these texts without running into either. */
  predicate Fits(before: Text, t: Token, after: Text) {
    match t
    case Word(_) => after == [] || !WordByte(after[0])
    case Quoted(escapes, _) => !Starts(after, '\'' as int) && (escapes <==> EndsInE(before))
    case Identifier(_) => !Starts(after, '"' as int)
    case Symbol(b) => !(b == '-' as int && Starts(after, '-' as int)) && !(b == '/' as int && Starts(after, '*' as int))
    case _ => true
  }

  predicate WellWritten(before: Text, ts: seq<Token>, tail: Text)
    decreases |ts|
  {
    ts == [] || (&& Good(ts[0]) && Fits(before, ts[0], TextOf(ts[1..], tail))
                 && WellWritten(before + Written(ts[0]), ts[1..], tail))
  }

  // ------------------------------------------------------------- what is to be found

  /** The word LISTEN, in capitals or not, letter by letter. */
  predicate Spells(bytes: Text) {
    |bytes| == 6 && forall k :: 0 <= k < 6 ==> bytes[k] == "listen"[k] as int || bytes[k] == "LISTEN"[k] as int
  }

  /** Some statement starts with the word LISTEN; `head` says that a statement starts here. */
  predicate Listening(ts: seq<Token>, head: bool) {
    ts != [] &&
      match ts[0]
      case Word(bytes) => (head && Spells(bytes)) || Listening(ts[1..], false)
      case Semicolon => Listening(ts[1..], true)
      case Space(_) => Listening(ts[1..], head)
      case LineComment(_) => Listening(ts[1..], head)
      case BlockComment(_) => Listening(ts[1..], head)
      case _ => Listening(ts[1..], false)
  }

  function KindOf(t: Token): Kind {
    match t
    case Space(_) => Blank
    case LineComment(_) => Blank
    case BlockComment(_) => Blank
    case Semicolon => Separator
    case Word(_) => Kind.Word
    case Symbol(_) => Kind.Symbol
    case _ => Literal
  }

  // ------------------------------------------------------------- reading one token

  /** `r` stands in `s` from `at` on. */
  predicate At(s: Text, at: nat, r: Text) {
    at + |r| <= |s| && forall k {:trigger r[k]} :: 0 <= k < |r| ==> s[at + k] == r[k]
  }

  lemma AtJoin(s: Text, at: nat, a: Text, b: Text)
    requires At(s, at, a + b)
    ensures At(s, at, a) && At(s, at + |a|, b)
  {
    forall k | 0 <= k < |a| ensures s[at + k] == a[k] {
      assert (a + b)[k] == a[k];
    }
    forall k | 0 <= k < |b| ensures s[at + |a| + k] == b[k] {
      assert (a + b)[|a| + k] == b[k];
    }
  }

  lemma AtByte(s: Text, at: nat, b: byte)
    requires At(s, at, [b])
    ensures at < |s| && s[at] == b
  {
    assert [b][0] == b;
  }

  lemma {:induction false} LineEnds(s: Text, at: nat, end: nat)
    requires at <= end < |s| && s[end] == '\n' as int && forall k :: at <= k < end ==> s[k] != '\n' as int
    ensures EndOfLine(s, at) == Some(end + 1)
    decreases end - at
  {
    if at < end {
      LineEnds(s, at + 1, end);
    }
  }

  lemma {:induction false} WordEnds(s: Text, at: nat, end: nat)
    requires at <= end <= |s| && (forall k :: at <= k < end ==> IsWord(s[k])) && (end == |s| || !IsWord(s[end]))
    ensures EndOfWord(s, at) == end
    decreases end - at
  {
    if at < end {
      WordEnds(s, at + 1, end);
    }
  }

  lemma {:induction false} RunIsPassed(s: Text, at: nat, text: Text, k: nat, depth: nat)
    requires k <= |text| && At(s, at, text) && at + |text| < |s| && depth > 0 && RunText(text, s[at + |text|])
    ensures EndOfBlock(s, at + k, depth) == EndOfBlock(s, at + |text|, depth)
    decreases |text| - k
  {
    if k < |text| {
      assert s[at + k] == text[k];
      if k < |text| - 1 {
        assert s[at + (k + 1)] == text[k + 1];
      }
      RunIsPassed(s, at, text, k + 1, depth);
    }
  }

  lemma {:induction false} PartIsPassed(s: Text, at: nat, p: Part, depth: nat)
    requires At(s, at, PartOf(p)) && at + |PartOf(p)| < |s| && GoodPart(p, s[at + |PartOf(p)|]) && depth > 0
    ensures EndOfBlock(s, at, depth) == EndOfBlock(s, at + |PartOf(p)|, depth)
    decreases p
  {
    match p
    case Run(text) => RunIsPassed(s, at, text, 0, depth);
    case Nested(inside) =>
      NestedAt(s, at, inside);
      PartsArePassed(s, at + 2, inside, depth + 1);
  }

  lemma NestedAt(s: Text, at: nat, inside: seq<Part>)
    requires At(s, at, PartOf(Nested(inside)))
    ensures var n := |Parts(inside)|;
            && at + n + 4 <= |s| && |PartOf(Nested(inside))| == n + 4
            && s[at] == '/' as int && s[at + 1] == '*' as int && At(s, at + 2, Parts(inside))
            && s[at + 2 + n] == '*' as int && s[at + 3 + n] == '/' as int
  {
    var open, close := ['/' as int, '*' as int], ['*' as int, '/' as int];
    assert PartOf(Nested(inside)) == open + (Parts(inside) + close);
    AtJoin(s, at, open, Parts(inside) + close);
    AtJoin(s, at + 2, Parts(inside), close);
    assert open[0] == '/' as int && open[1] == '*' as int && close[0] == '*' as int && close[1] == '/' as int;
  }

  lemma FirstFollows(s: Text, at: nat, ps: seq<Part>)
    requires At(s, at, Parts(ps)) && Has(s, at + |Parts(ps)|, '*' as int)
    ensures s[at] == FirstOf(ps)
  {
    if Parts(ps) != [] {
      assert s[at + 0] == Parts(ps)[0];
    }
  }

  lemma {:induction false} PartsArePassed(s: Text, at: nat, ps: seq<Part>, depth: nat)
    requires GoodParts(ps) && At(s, at, Parts(ps)) && Has(s, at + |Parts(ps)|, '*' as int) && depth > 0
    ensures EndOfBlock(s, at, depth) == EndOfBlock(s, at + |Parts(ps)|, depth)
    decreases ps
  {
    if ps != [] {
      AtJoin(s, at, PartOf(ps[0]), Parts(ps[1..]));
      FirstFollows(s, at + |PartOf(ps[0])|, ps[1..]);
      PartIsPassed(s, at, ps[0], depth);
      PartsArePassed(s, at + |PartOf(ps[0])|, ps[1..], depth);
    }
  }

  lemma CommentEnds(s: Text, at: nat, inside: seq<Part>)
    requires GoodParts(inside) && At(s, at, PartOf(Nested(inside)))
    ensures Has(s, at, SLASH) && Has(s, at + 1, STAR)
    ensures EndOfBlock(s, at, 0) == Some(at + |PartOf(Nested(inside))|)
  {
    NestedAt(s, at, inside);
    PartsArePassed(s, at + 2, inside, 1);
  }

  lemma {:induction false} QuoteEnds(s: Text, at: nat, ps: seq<Piece>, quote: byte, escapes: bool)
    requires GoodPieces(ps, quote, escapes) && quote != '\\' as int && At(s, at, Pieces(ps, quote))
    requires var end := at + |Pieces(ps, quote)|; Has(s, end, quote) && !Has(s, end + 1, quote)
    ensures EndOfQuoted(s, at, quote, escapes) == Some(at + |Pieces(ps, quote)| + 1)
    decreases |ps|
  {
    if ps != [] {
      var p := ps[0];
      assert p in ps;
      AtJoin(s, at, PieceOf(p, quote), Pieces(ps[1..], quote));
      FirstPiece(s, at, p, quote);
      assert GoodPieces(ps[1..], quote, escapes) by {
        assert forall q :: q in ps[1..] ==> q in ps;
      }
      QuoteEnds(s, at + |PieceOf(p, quote)|, ps[1..], quote, escapes);
    }
  }

  lemma FirstPiece(s: Text, at: nat, p: Piece, quote: byte)
    requires At(s, at, PieceOf(p, quote))
    ensures at + |PieceOf(p, quote)| <= |s|
    ensures s[at] == PieceOf(p, quote)[0] && (!p.Byte? ==> s[at + 1] == PieceOf(p, quote)[1])
  {
    assert s[at + 0] == PieceOf(p, quote)[0];
    if !p.Byte? {
      assert s[at + 1] == PieceOf(p, quote)[1];
    }
  }

  lemma {:induction false} TagEnds(s: Text, at: nat, end: nat, first: bool)
    requires at <= end < |s| && !IsTag(s[end], at == end && first)
    requires forall k :: at <= k < end ==> IsTag(s[k], first && k == at)
    ensures EndOfTag(s, at, first) == end
    decreases end - at
  {
    if at < end {
      TagEnds(s, at + 1, end, false);
    }
  }

  lemma {:induction false} TagFound(s: Text, at: nat, pos: nat, tag: Text)
    requires tag != [] && at <= pos && At(s, pos, tag) && forall k :: at <= k < pos ==> !At(s, k, tag)
    ensures EndOfNext(s, at, tag) == Some(pos + |tag|)
    decreases pos - at
  {
    if at < pos {
      assert !At(s, at, tag);
      TagFound(s, at + 1, pos, tag);
    }
  }

  lemma NotFoundBefore(s: Text, at: nat, body: Text, tag: Text, k: nat)
    requires At(s, at, body + tag) && k < |body| && !At(body + tag, k, tag)
    ensures !At(s, at + k, tag)
  {
    var i :| 0 <= i < |tag| && (body + tag)[k + i] != tag[i];
    assert s[at + (k + i)] == (body + tag)[k + i];
  }

  lemma DollarsAt(s: Text, at: nat, tag: Text)
    requires At(s, at, Dollars(tag))
    ensures at + |tag| + 2 <= |s| && s[at] == '$' as int && At(s, at + 1, tag) && s[at + 1 + |tag|] == '$' as int
    ensures s[at..at + |tag| + 2] == Dollars(tag)
  {
    var dollar := ['$' as int];
    assert Dollars(tag) == dollar + (tag + dollar);
    AtJoin(s, at, dollar, tag + dollar);
    AtJoin(s, at + 1, tag, dollar);
    AtByte(s, at, '$' as int);
    AtByte(s, at + 1 + |tag|, '$' as int);
    assert forall k {:trigger Dollars(tag)[k]} :: 0 <= k < |tag| + 2 ==> s[at..at + |tag| + 2][k] == Dollars(tag)[k];
  }

  lemma TagIsRead(s: Text, at: nat, tag: Text)
    requires GoodTag(tag) && At(s, at, tag) && Has(s, at + |tag|, '$' as int)
    ensures EndOfTag(s, at, true) == at + |tag|
  {
    forall k | at <= k < at + |tag| ensures IsTag(s[k], k == at) {
      assert s[at + (k - at)] == tag[k - at] && TagByte(tag[k - at], k == at);
      ClassesAgree(s[k], k == at);
    }
    TagEnds(s, at, at + |tag|, true);
  }

  lemma BodyEnds(s: Text, at: nat, body: Text, tag: Text)
    requires tag != [] && EndsFirst(body, tag) && At(s, at, body + tag)
    ensures EndOfNext(s, at, tag) == Some(at + |body| + |tag|)
  {
    forall k | at <= k < at + |body| ensures !At(s, k, tag) {
      NotFoundBefore(s, at, body, tag, k - at);
    }
    AtJoin(s, at, body, tag);
    TagFound(s, at, at + |body|, tag);
  }

  lemma DollarTextEnds(s: Text, at: nat, tag: Text, body: Text)
    requires GoodTag(tag) && EndsFirst(body, Dollars(tag)) && At(s, at, Dollars(tag) + (body + Dollars(tag)))
    ensures at < |s| && s[at] == '$' as int
    ensures DollarQuoted(s, at) == Listen.Quoted(Some(at + |Dollars(tag)| + |body| + |Dollars(tag)|))
  {
    var d := Dollars(tag);
    AtJoin(s, at, d, body + d);
    DollarsAt(s, at, tag);
    TagIsRead(s, at + 1, tag);
    BodyEnds(s, at + |d|, body, d);
  }

  /** The tag of a dollar quote and its closing dollar lie within a word. */
  lemma {:induction false} TagWithinWord(s: Text, at: nat, first: bool, end: nat)
    requires at <= end <= |s| && (end == |s| || !IsWord(s[end]))
    ensures EndOfTag(s, at, first) <= end
    ensures forall k :: at <= k < EndOfTag(s, at, first) ==> IsTag(s[k], first && k == at)
    decreases |s| - at
  {
    if at < |s| && IsTag(s[at], first) {
      TagWithinWord(s, at + 1, false, end);
    }
  }

  lemma TagOpens(s: Text, at: nat, bytes: Text)
    requires At(s, at, bytes) && Starts(bytes, '$' as int) && (at + |bytes| == |s| || !IsWord(s[at + |bytes|]))
    requires Has(s, EndOfTag(s, at + 1, true), DOLLAR)
    ensures OpensDollar(bytes)
  {
    var n := EndOfTag(s, at + 1, true) - at;
    TagWithinWord(s, at + 1, true, at + |bytes|);
    assert s[at + n] == bytes[n];
    forall k | 0 <= k < n - 1 ensures TagByte(bytes[1..n][k], k == 0) {
      assert s[at + (k + 1)] == bytes[k + 1];
      ClassesAgree(bytes[k + 1], k == 0);
    }
    assert GoodTag(bytes[1..n]);
  }

  lemma NoDollarQuote(s: Text, at: nat, bytes: Text)
    requires At(s, at, bytes) && bytes != [] && !OpensDollar(bytes)
    requires at + |bytes| == |s| || !IsWord(s[at + |bytes|])
    ensures DollarQuoted(s, at) == NotQuoted
  {
    assert s[at + 0] == bytes[0];
    if bytes[0] == '$' as int && Has(s, EndOfTag(s, at + 1, true), DOLLAR) {
      TagOpens(s, at, bytes);
    }
  }

  // ------------------------------------------------------------------- every token

  /** The token as it stands in the text. */
  ghost predicate Stands(s: Text, before: Text, t: Token, after: Text) {
    s == before + Written(t) + after && Good(t) && Fits(before, t, after)
  }

  function Reads(before: Text, t: Token): Lexeme { Lexeme(KindOf(t), |before| + |Written(t)|, true) }

  lemma StandsAt(s: Text, before: Text, t: Token, after: Text)
    requires Stands(s, before, t, after)
    ensures At(s, |before|, Written(t)) && Written(t) != []
    ensures s[|before|..|before| + |Written(t)|] == Written(t)
    ensures after != [] ==> |before| + |Written(t)| < |s| && s[|before| + |Written(t)|] == after[0]
    ensures after == [] ==> |s| == |before| + |Written(t)|
  {
  }

  lemma SmallReads(s: Text, before: Text, t: Token, after: Text)
    requires Stands(s, before, t, after) && (t.Space? || t.Semicolon? || t.Symbol?)
    ensures |before| < |s| && LexemeAt(s, |before|) == Reads(before, t)
  {
    StandsAt(s, before, t, after);
    var b := Written(t)[0];
    assert s[|before| + 0] == b;
    ClassesAgree(b, true);
  }

  lemma WordReads(s: Text, before: Text, t: Token, after: Text)
    requires Stands(s, before, t, after) && t.Word?
    ensures |before| < |s| && LexemeAt(s, |before|) == Reads(before, t)
  {
    StandsAt(s, before, t, after);
    var at, end := |before|, |before| + |t.bytes|;
    forall k | at <= k < end ensures IsWord(s[k]) {
      assert s[at + (k - at)] == t.bytes[k - at];
      ClassesAgree(s[k], true);
    }
    if after != [] {
      ClassesAgree(after[0], true);
    }
    WordEnds(s, at, end);
    NoDollarQuote(s, at, t.bytes);
    assert s[at + 0] == t.bytes[0];
    ClassesAgree(s[at], true);
  }

  lemma LineReads(s: Text, before: Text, t: Token, after: Text)
    requires Stands(s, before, t, after) && t.LineComment?
    ensures |before| < |s| && LexemeAt(s, |before|) == Reads(before, t)
  {
    StandsAt(s, before, t, after);
    var at, w := |before|, Written(t);
    var end := at + |w| - 1;
    assert s[at + 0] == w[0] && s[at + 1] == w[1] && s[at + (|w| - 1)] == w[|w| - 1];
    forall k | at <= k < end ensures s[k] != '\n' as int {
      assert s[at + (k - at)] == w[k - at];
      assert k - at >= 2 ==> w[k - at] == t.body[k - at - 2] && t.body[k - at - 2] in t.body;
    }
    LineEnds(s, at, end);
  }

  lemma CommentReads(s: Text, before: Text, t: Token, after: Text)
    requires Stands(s, before, t, after) && t.BlockComment?
    ensures |before| < |s| && LexemeAt(s, |before|) == Reads(before, t)
  {
    StandsAt(s, before, t, after);
    CommentEnds(s, |before|, t.inside);
  }

  lemma QuotesAt(s: Text, at: nat, inside: Text, quote: byte)
    requires At(s, at, [quote] + (inside + [quote]))
    ensures Has(s, at, quote) && At(s, at + 1, inside) && Has(s, at + 1 + |inside|, quote)
  {
    AtJoin(s, at, [quote], inside + [quote]);
    AtJoin(s, at + 1, inside, [quote]);
    AtByte(s, at, quote);
    AtByte(s, at + 1 + |inside|, quote);
  }

  lemma QuoteReads(s: Text, at: nat, w: Text, quote: byte, escapes: bool, pieces: seq<Piece>)
    requires w == [quote] + Pieces(pieces, quote) + [quote] && At(s, at, w) && !Has(s, at + |w|, quote)
    requires GoodPieces(pieces, quote, escapes) && quote != '\\' as int
    ensures at < |s| && s[at] == quote && EndOfQuoted(s, at + 1, quote, escapes) == Some(at + |w|)
  {
    Joined([quote], Pieces(pieces, quote), [quote]);
    QuotesAt(s, at, Pieces(pieces, quote), quote);
    QuoteEnds(s, at + 1, pieces, quote, escapes);
  }

  lemma EscapesAgree(s: Text, before: Text)
    requires |before| < |s| && s[..|before|] == before
    ensures EscapesBackslashes(s, |before|) == EndsInE(before)
  {
    var n := |before|;
    if n >= 1 {
      assert s[n - 1] == s[..n][n - 1];
    }
    if n >= 2 {
      assert s[n - 2] == s[..n][n - 2];
      ClassesAgree(s[n - 2], true);
    }
  }

  lemma LiteralReads(s: Text, before: Text, t: Token, after: Text)
    requires Stands(s, before, t, after) && (t.Quoted? || t.Identifier?)
    ensures |before| < |s| && LexemeAt(s, |before|) == Reads(before, t)
  {
    StandsAt(s, before, t, after);
    if t.Quoted? {
      QuoteReads(s, |before|, Written(t), '\'' as int, t.escapes, t.pieces);
      assert s[..|before|] == before;
      EscapesAgree(s, before);
    } else {
      QuoteReads(s, |before|, Written(t), '"' as int, false, t.pieces);
    }
  }

  lemma DollarReads(s: Text, before: Text, t: Token, after: Text)
    requires Stands(s, before, t, after) && t.DollarText?
    ensures |before| < |s| && LexemeAt(s, |before|) == Reads(before, t)
  {
    StandsAt(s, before, t, after);
    assert Written(t) == Dollars(t.tag) + (t.body + Dollars(t.tag));
    DollarTextEnds(s, |before|, t.tag, t.body);
  }

  /** The scanner reads a token where it stands, as what it is and as far as it goes. */
  lemma TokenReads(s: Text, before: Text, t: Token, after: Text)
    requires Stands(s, before, t, after)
    ensures |before| < |s| && LexemeAt(s, |before|) == Reads(before, t)
  {
    match t
    case Word(_) => WordReads(s, before, t, after);
    case LineComment(_) => LineReads(s, before, t, after);
    case BlockComment(_) => CommentReads(s, before, t, after);
    case Quoted(_, _) => LiteralReads(s, before, t, after);
    case Identifier(_) => LiteralReads(s, before, t, after);
    case DollarText(_, _) => DollarReads(s, before, t, after);
    case _ => SmallReads(s, before, t, after);
  }

  lemma SpellsListen(bytes: Text)
    ensures IsListen(bytes) == Spells(bytes)
  {
    if |bytes| == 6 {
      assert forall k :: 0 <= k < 6 ==> LISTEN[k] == "listen"[k] as int && "LISTEN"[k] as int == LISTEN[k] - 32;
    }
  }

  /** At `at` the scanner reads the token, as what it is and as far as it goes. */
  predicate ReadHere(s: Text, at: nat, t: Token) {
    && at < at + |Written(t)| <= |s|
    && LexemeAt(s, at) == Lexeme(KindOf(t), at + |Written(t)|, true)
    && s[at..at + |Written(t)|] == Written(t)
  }

  /** From `at` on the scanner reads these tokens, one by one up to `end`. */
  predicate ReadFrom(s: Text, at: nat, ts: seq<Token>, end: nat)
    decreases |ts|
  {
    if ts == [] then at == end else ReadHere(s, at, ts[0]) && ReadFrom(s, at + |Written(ts[0])|, ts[1..], end)
  }

  lemma TokenIsRead(s: Text, before: Text, t: Token, after: Text)
    requires Stands(s, before, t, after)
    ensures ReadHere(s, |before|, t)
  {
    TokenReads(s, before, t, after);
    StandsAt(s, before, t, after);
  }

  lemma FirstIsRead(s: Text, before: Text, ts: seq<Token>, tail: Text)
    requires s == before + TextOf(ts, tail) && WellWritten(before, ts, tail) && ts != []
    ensures ReadHere(s, |before|, ts[0])
  {
    FirstStands(s, before, ts, tail);
    TokenIsRead(s, before, ts[0], TextOf(ts[1..], tail));
  }

  /** `s` is `before` and then these tokens, well written. */
  ghost predicate Ends(s: Text, before: Text, ts: seq<Token>, tail: Text) {
    s == before + TextOf(ts, tail) && WellWritten(before, ts, tail)
  }

  lemma RestEnds(s: Text, before: Text, ts: seq<Token>, tail: Text)
    requires Ends(s, before, ts, tail) && ts != []
    ensures ReadHere(s, |before|, ts[0])
    ensures Ends(s, before + Written(ts[0]), ts[1..], tail) && |before + Written(ts[0])| == |before| + |Written(ts[0])|
  {
    FirstIsRead(s, before, ts, tail);
    FirstStands(s, before, ts, tail);
  }

  lemma ReadStep(s: Text, at: nat, ts: seq<Token>, end: nat)
    requires ts != [] && ReadHere(s, at, ts[0]) && ReadFrom(s, at + |Written(ts[0])|, ts[1..], end)
    ensures ReadFrom(s, at, ts, end)
  {
  }

  lemma {:induction false} TextIsRead(s: Text, before: Text, ts: seq<Token>, tail: Text, end: nat)
    requires Ends(s, before, ts, tail) && end + |tail| == |s|
    ensures ReadFrom(s, |before|, ts, end)
    decreases |ts|
  {
    if ts != [] {
      RestEnds(s, before, ts, tail);
      TextIsRead(s, before + Written(ts[0]), ts[1..], tail, end);
      ReadStep(s, |before|, ts, end);
    }
  }

  lemma {:induction false} TailIsShorter(ts: seq<Token>, tail: Text)
    ensures |tail| <= |TextOf(ts, tail)|
  {
    if ts != [] {
      TailIsShorter(ts[1..], tail);
    }
  }

  lemma TokenFinds(s: Text, at: nat, t: Token, head: bool)
    requires ReadHere(s, at, t)
    ensures Finds(s, at, head) <==> t.Word? && head && Spells(t.bytes)
  {
    SpellsListen(Written(t));
  }

  lemma ListeningStep(ts: seq<Token>, head: bool)
    requires ts != []
    ensures Listening(ts, head) <==>
            (ts[0].Word? && head && Spells(ts[0].bytes)) || Listening(ts[1..], HeadAfter(KindOf(ts[0]), head))
  {
  }

  lemma Joined(before: Text, written: Text, after: Text)
    ensures before + (written + after) == before + written + after
  {
  }

  lemma FirstStands(s: Text, before: Text, ts: seq<Token>, tail: Text)
    requires s == before + TextOf(ts, tail) && WellWritten(before, ts, tail) && ts != []
    ensures Stands(s, before, ts[0], TextOf(ts[1..], tail))
    ensures s == (before + Written(ts[0])) + TextOf(ts[1..], tail)
    ensures WellWritten(before + Written(ts[0]), ts[1..], tail)
  {
    Joined(before, Written(ts[0]), TextOf(ts[1..], tail));
  }

  lemma ScanStep(s: Text, at: nat, head: bool)
    requires at < |s|
    ensures Scan(s, at, head) <==>
            Finds(s, at, head) || Scan(s, LexemeAt(s, at).end, HeadAfter(LexemeAt(s, at).kind, head))
  {
  }

  /** Whether a statement starts behind these tokens. */
  predicate Heads(ts: seq<Token>, head: bool) {
    if ts == [] then head
    else
      match ts[0]
      case Semicolon => Heads(ts[1..], true)
      case Space(_) => Heads(ts[1..], head)
      case LineComment(_) => Heads(ts[1..], head)
      case BlockComment(_) => Heads(ts[1..], head)
      case _ => Heads(ts[1..], false)
  }

  lemma HeadsStep(ts: seq<Token>, head: bool)
    requires ts != []
    ensures Heads(ts, head) == Heads(ts[1..], HeadAfter(KindOf(ts[0]), head))
  {
  }

  lemma TokenScans(s: Text, at: nat, t: Token, head: bool)
    requires ReadHere(s, at, t)
    ensures Scan(s, at, head) <==>
            (t.Word? && head && Spells(t.bytes)) || Scan(s, at + |Written(t)|, HeadAfter(KindOf(t), head))
  {
    TokenFinds(s, at, t, head);
    ScanStep(s, at, head);
  }

  lemma ReadNext(s: Text, at: nat, ts: seq<Token>, end: nat)
    requires ReadFrom(s, at, ts, end) && ts != []
    ensures ReadHere(s, at, ts[0]) && ReadFrom(s, at + |Written(ts[0])|, ts[1..], end)
  {
  }

  lemma {:induction false} TokensScan(s: Text, at: nat, ts: seq<Token>, head: bool, end: nat)
    requires ReadFrom(s, at, ts, end)
    ensures Scan(s, at, head) <==> Listening(ts, head) || Scan(s, end, Heads(ts, head))
    decreases |ts|
  {
    if ts != [] {
      ReadNext(s, at, ts, end);
      TokenScans(s, at, ts[0], head);
      ListeningStep(ts, head);
      HeadsStep(ts, head);
      TokensScan(s, at + |Written(ts[0])|, ts[1..], HeadAfter(KindOf(ts[0]), head), end);
    }
  }

  lemma TextIsScanned(s: Text, ts: seq<Token>, tail: Text, end: nat)
    requires Ends(s, [], ts, tail) && end + |tail| == |s|
    ensures HasListen(s) <==> Listening(ts, true) || Scan(s, end, Heads(ts, true))
  {
    TextIsRead(s, [], ts, tail, end);
    TokensScan(s, 0, ts, true, end);
  }

  /** The scanner finds LISTEN in a text exactly when one of its statements starts with that word, in
      whatever case, whatever white space and comments stand in front and whatever literals around it
      say. What comes behind a statement that starts with the word does not matter. */
  lemma ScannerReadsText(s: Text, ts: seq<Token>, tail: Text)
    requires Ends(s, [], ts, tail)
    ensures Listening(ts, true) ==> HasListen(s)
    ensures tail == [] ==> (HasListen(s) <==> Listening(ts, true))
  {
    TailIsShorter(ts, tail);
    TextIsScanned(s, ts, tail, |s| - |tail|);
  }

  lemma {:induction false} TextSplits(ts: seq<Token>, tail: Text)
    ensures TextOf(ts, tail) == TextOf(ts, []) + tail
  {
    if ts != [] {
      TextSplits(ts[1..], tail);
      Joined(Written(ts[0]), TextOf(ts[1..], []), tail);
    }
  }

  lemma WordHeads(s: Text, before: Text, word: Text, tail: Text)
    requires s == before + word + tail && Spells(word) && (tail == [] || !WordByte(tail[0]))
    ensures Scan(s, |before|, true)
  {
    assert Stands(s, before, Token.Word(word), tail);
    TokenIsRead(s, before, Token.Word(word), tail);
    TokenScans(s, |before|, Token.Word(word), true);
  }

  lemma TextEnds(s: Text, ts: seq<Token>, tail: Text)
    requires Ends(s, [], ts, tail)
    ensures s == TextOf(ts, []) + tail
  {
    TextSplits(ts, tail);
    assert [] + TextOf(ts, tail) == TextOf(ts, tail);
  }

  /** The word LISTEN in any case is found behind white space, closed comments and closed statements,
      whatever text follows it. */
  lemma ListenIsSeen(s: Text, ts: seq<Token>, word: Text, tail: Text)
    requires Ends(s, [], ts, word + tail) && Heads(ts, true)
    requires Spells(word) && (tail == [] || !WordByte(tail[0]))
    ensures HasListen(s)
  {
    var before := TextOf(ts, []);
    TextEnds(s, ts, word + tail);
    Joined(before, word, tail);
    WordHeads(s, before, word, tail);
    TextIsScanned(s, ts, word + tail, |before|);
  }
}
