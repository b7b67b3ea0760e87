/** Message tags and bodies (crates/protocol/src/message.rs, crates/protocol/src/frontend.rs). */
module Messages {
  import opened Numbers
  import opened Framing
  import opened Utf8
  import opened Listen

  datatype FrontendTag =
    | Bind | Close | CopyData | CopyDone | CopyFail | Describe | Execute | Flush
    | FunctionCall | Parse | Password | Query | Sync | Terminate

  function FrontendTagOf(b: byte): Option<FrontendTag> {
    if b == 66 then Some(Bind)
    else if b == 67 then Some(Close)
    else if b == 100 then Some(CopyData)
    else if b == 99 then Some(CopyDone)
    else if b == 102 then Some(CopyFail)
    else if b == 68 then Some(Describe)
    else if b == 69 then Some(Execute)
    else if b == 72 then Some(Flush)
    else if b == 70 then Some(FunctionCall)
    else if b == 80 then Some(Parse)
    else if b == 112 then Some(Password)
    else if b == 81 then Some(Query)
    else if b == 83 then Some(Sync)
    else if b == 88 then Some(Terminate)
    else None
  }

  const READY_FOR_QUERY: byte := 90

  datatype TransactionStatus = Idle | InTransaction | Failed

  /** `parse_ready_for_query`. */
  function StatusOf(body: seq<byte>): Option<TransactionStatus> {
    if |body| != 1 then None
    else if body[0] == 73 then Some(Idle)
    else if body[0] == 84 then Some(InTransaction)
    else if body[0] == 69 then Some(Failed)
    else None
  }

  // ---------------------------------------------------------------------- bodies

  datatype Piece = Piece(text: Text, rest: seq<byte>)

  /** `cstr`: a terminated, valid name or query, and what follows it. */
  function CStr(body: seq<byte>): Option<Piece> {
    var end := FirstNul(body);
    if end.None? || !ValidUtf8(body[..end.value]) then None
    else Some(Piece(body[..end.value], body[end.value + 1..]))
  }

  function DecodeQuery(body: seq<byte>): Option<Text> {
    var query := CStr(body);
    if query.None? then None else Some(query.value.text)
  }

  datatype ParseBody = ParseBody(statement: Text, query: Text)

  function DecodeParse(body: seq<byte>): Option<ParseBody> {
    var statement := CStr(body);
    if statement.None? then None else
    var query := CStr(statement.value.rest);
    if query.None? then None else Some(ParseBody(statement.value.text, query.value.text))
  }

  function DecodeBind(body: seq<byte>): Option<Text> {
    var portal := CStr(body);
    if portal.None? then None else
    var statement := CStr(portal.value.rest);
    if statement.None? then None else Some(statement.value.text)
  }

  datatype CloseTarget = Statement(name: Text) | Portal(name: Text)

  function DecodeClose(body: seq<byte>): Option<CloseTarget> {
    if body == [] then None else
    var name := CStr(body[1..]);
    if name.None? then None
    else if body[0] == 83 then Some(Statement(name.value.text))
    else if body[0] == 80 then Some(Portal(name.value.text))
    else None
  }

  // -------------------------------------------------------------------- on the wire

  /** The letters of the messages a client sends. */
  lemma TagsMean(b: byte)
    ensures FrontendTagOf('Q' as int) == Some(Query) && FrontendTagOf('P' as int) == Some(Parse)
    ensures FrontendTagOf('B' as int) == Some(Bind) && FrontendTagOf('E' as int) == Some(Execute)
    ensures FrontendTagOf('D' as int) == Some(Describe) && FrontendTagOf('C' as int) == Some(Close)
    ensures FrontendTagOf('S' as int) == Some(Sync) && FrontendTagOf('H' as int) == Some(Flush)
    ensures FrontendTagOf('F' as int) == Some(FunctionCall) && FrontendTagOf('X' as int) == Some(Terminate)
    ensures FrontendTagOf('d' as int) == Some(CopyData) && FrontendTagOf('c' as int) == Some(CopyDone)
    ensures FrontendTagOf('f' as int) == Some(CopyFail) && FrontendTagOf('p' as int) == Some(Password)
    ensures FrontendTagOf(b).Some? <==>
              b as char in {'Q', 'P', 'B', 'E', 'D', 'C', 'S', 'H', 'F', 'X', 'd', 'c', 'f', 'p'}
  {
  }

  /** Text that ends where its terminator is. */
  predicate Plain(text: Text) { ValidUtf8(text) && 0 !in text }

  lemma CStrOf(text: Text, rest: seq<byte>)
    requires Plain(text)
    ensures CStr(text + [0] + rest) == Some(Piece(text, rest))
  {
    var body := text + [0] + rest;
    NulAfterText(text, rest);
    assert body[..|text|] == text && body[|text| + 1..] == rest;
  }

  lemma CStrIs(body: seq<byte>)
    requires CStr(body).Some?
    ensures Plain(CStr(body).value.text) && body == CStr(body).value.text + [0] + CStr(body).value.rest
  {
  }

  /** A Query carries one text. */
  lemma QueryMeans(body: seq<byte>, text: Text)
    ensures DecodeQuery(body) == Some(text) <==> Plain(text) && exists rest :: body == text + [0] + rest
  {
    if DecodeQuery(body) == Some(text) {
      CStrIs(body);
    }
    if Plain(text) && exists rest :: body == text + [0] + rest {
      var rest :| body == text + [0] + rest;
      CStrOf(text, rest);
    }
  }

  /** A Parse carries the name of the statement, then its text. */
  lemma ParseMeans(body: seq<byte>, statement: Text, query: Text)
    ensures DecodeParse(body) == Some(ParseBody(statement, query))
            <==> Plain(statement) && Plain(query) && exists rest :: body == statement + [0] + (query + [0] + rest)
  {
    if DecodeParse(body) == Some(ParseBody(statement, query)) {
      CStrIs(body);
      CStrIs(CStr(body).value.rest);
    }
    if Plain(statement) && Plain(query) && exists rest :: body == statement + [0] + (query + [0] + rest) {
      var rest :| body == statement + [0] + (query + [0] + rest);
      CStrOf(statement, query + [0] + rest);
      CStrOf(query, rest);
    }
  }

  /** A Bind carries the name of the portal, then that of the statement. */
  lemma BindMeans(body: seq<byte>, statement: Text)
    ensures DecodeBind(body) == Some(statement)
            <==> Plain(statement)
                 && exists portal, rest :: Plain(portal) && body == portal + [0] + (statement + [0] + rest)
  {
    if DecodeBind(body) == Some(statement) {
      CStrIs(body);
      CStrIs(CStr(body).value.rest);
      var portal, rest := CStr(body).value.text, CStr(CStr(body).value.rest).value.rest;
      assert body == portal + [0] + (statement + [0] + rest);
    }
    if Plain(statement) && exists portal, rest :: Plain(portal) && body == portal + [0] + (statement + [0] + rest) {
      var portal, rest :| Plain(portal) && body == portal + [0] + (statement + [0] + rest);
      CStrOf(portal, statement + [0] + rest);
      CStrOf(statement, rest);
    }
  }

  /** A Close carries the letter S and the name of a statement, or P and that of a portal. */
  lemma CloseMeans(body: seq<byte>, name: Text)
    ensures DecodeClose(body) == Some(Statement(name))
            <==> Plain(name) && exists rest :: body == ['S' as int] + (name + [0] + rest)
    ensures DecodeClose(body) == Some(Portal(name))
            <==> Plain(name) && exists rest :: body == ['P' as int] + (name + [0] + rest)
  {
    if body != [] {
      assert body == [body[0]] + body[1..];
      if CStr(body[1..]).Some? {
        CStrIs(body[1..]);
      }
    }
    CloseOf('S' as int, body, name);
    CloseOf('P' as int, body, name);
  }

  lemma CloseOf(kind: byte, body: seq<byte>, name: Text)
    ensures Plain(name) && (exists rest :: body == [kind] + (name + [0] + rest)) ==>
              body != [] && body[0] == kind && CStr(body[1..]).Some? && CStr(body[1..]).value.text == name
  {
    if Plain(name) && exists rest :: body == [kind] + (name + [0] + rest) {
      var rest :| body == [kind] + (name + [0] + rest);
      CStrOf(name, rest);
      assert body[1..] == name + [0] + rest;
    }
  }
}

/** Counting the answers a server owes (crates/protocol/src/ready.rs). */
module Ready {
  import opened Numbers
  import opened Framing
  import opened Messages

  datatype Tracker = Tracker(outstanding: nat, extendedOpen: bool, status: TransactionStatus, terminated: bool)
  {
    predicate MayRelease() { !terminated && outstanding == 0 && !extendedOpen && status.Idle? }
  }

  const NewTracker := Tracker(0, false, Idle, false)

  function AfterFrontend(t: Tracker, tag: FrontendTag): Tracker {
    match tag
    case Query => t.(outstanding := t.outstanding + 1)
    case FunctionCall => t.(outstanding := t.outstanding + 1)
    case Sync => t.(outstanding := t.outstanding + 1, extendedOpen := false)
    case Terminate => t.(terminated := true)
    case CopyData => t
    case CopyDone => t
    case CopyFail => t
    case Password => t
    case _ => t.(extendedOpen := true)
  }

  datatype BackendResult = Passed | Ready(status: TransactionStatus) | UnexpectedReady | BadStatus

  function OnBackend(t: Tracker, tag: byte, body: seq<byte>): BackendResult {
    if tag != READY_FOR_QUERY then Passed
    else if t.outstanding == 0 then UnexpectedReady
    else
      var status := StatusOf(body);
      if status.None? then BadStatus else BackendResult.Ready(status.value)
  }

  function AfterBackend(t: Tracker, r: BackendResult): Tracker
    requires r.Ready? ==> t.outstanding > 0
  {
    if r.Ready? then t.(outstanding := t.outstanding - 1, status := r.status) else t
  }

  /** A connection whose client has ended the session is not released, whatever comes. */
  lemma EndedIsNotReleased(t: Tracker, tag: FrontendTag, reply: byte, body: seq<byte>)
    ensures AfterFrontend(t, Terminate).terminated && (t.terminated ==> !t.MayRelease())
    ensures t.terminated ==> AfterFrontend(t, tag).terminated && AfterBackend(t, OnBackend(t, reply, body)).terminated
  {
  }

  class ReadyTracker {
    var outstanding: nat
    var extendedOpen: bool
    var status: TransactionStatus
    var terminated: bool

    function View(): Tracker
      reads this
    {
      Tracker(outstanding, extendedOpen, status, terminated)
    }

    constructor ()
      ensures View() == NewTracker
    {
      outstanding, extendedOpen, status, terminated := 0, false, Idle, false;
    }

    method OnFrontend(tag: FrontendTag)
      modifies this
      ensures View() == AfterFrontend(old(View()), tag) && status == old(status)
      ensures outstanding == old(outstanding) + if tag in {Query, FunctionCall, Sync} then 1 else 0
      ensures extendedOpen <==>
                !tag.Sync? && (old(extendedOpen) || tag in {Parse, Bind, Describe, Execute, Close, Flush})
      ensures terminated <==> old(terminated) || tag.Terminate?
    {
      match tag {
        case Query => outstanding := outstanding + 1;
        case FunctionCall => outstanding := outstanding + 1;
        case Sync =>
          outstanding := outstanding + 1;
          extendedOpen := false;
        case Terminate => terminated := true;
        case CopyData =>
        case CopyDone =>
        case CopyFail =>
        case Password =>
        case _ => extendedOpen := true;
      }
    }

    method OnBackendMessage(tag: byte, body: seq<byte>) returns (r: BackendResult)
      modifies this
      ensures r == OnBackend(old(View()), tag, body) && View() == AfterBackend(old(View()), r)
      ensures r.Ready? <==> tag == 90 && old(outstanding) > 0 && body in {[73], [84], [69]}
      ensures r.Ready? ==> outstanding == old(outstanding) - 1 && (status.Idle? <==> body == [73])
    {
      r := OnBackend(View(), tag, body);
      assert |body| == 1 ==> body == [body[0]];
      if r.Ready? {
        outstanding := outstanding - 1;
        status := r.status;
      }
    }
  }
}

/** What a client may ask of the connection it is assigned (crates/protocol/src/prepared.rs). */
module Prepared {
  import opened Numbers
  import opened Framing
  import opened Listen
  import opened Messages

  datatype Statements = Statements(parsed: set<Text>, refused: bool)

  const NoStatements := Statements({}, false)

  datatype Verdict = Forward | Skip | Reject(statement: Text) | RejectListen

  datatype Judged = Judged(statements: Statements, verdict: Verdict)

  /** `on_frontend`; nothing when the body is malformed. */
  function Judge(s: Statements, tag: FrontendTag, body: seq<byte>): Option<Judged> {
    if s.refused then
      if tag.Sync? then Some(Judged(s.(refused := false), Forward)) else Some(Judged(s, Skip))
    else
      match tag
      case Query =>
        var query := DecodeQuery(body);
        if query.None? then None
        else Some(Judged(s, if HasListen(query.value) then RejectListen else Forward))
      case Parse =>
        var parse := DecodeParse(body);
        if parse.None? then None
        else if HasListen(parse.value.query) then Some(Judged(s, RejectListen))
        else Some(Judged(s.(parsed := s.parsed + {parse.value.statement}), Forward))
      case Bind =>
        var statement := DecodeBind(body);
        if statement.None? then None
        else if statement.value !in s.parsed then Some(Judged(s.(refused := true), Reject(statement.value)))
        else Some(Judged(s, Forward))
      case Close =>
        var target := DecodeClose(body);
        if target.None? then None
        else if target.value.Statement? then Some(Judged(s.(parsed := s.parsed - {target.value.name}), Forward))
        else Some(Judged(s, Forward))
      case _ => Some(Judged(s, Forward))
  }

  class PreparedStatements {
    var parsed: set<Text>
    var refused: bool

    function View(): Statements
      reads this
    {
      Statements(parsed, refused)
    }

    constructor ()
      ensures View() == NoStatements
    {
      parsed, refused := {}, false;
    }

    method DiscardUntilSync()
      modifies this
      ensures View() == old(View()).(refused := true)
    {
      refused := true;
    }

    method OnFrontend(tag: FrontendTag, body: seq<byte>) returns (verdict: Option<Verdict>)
      modifies this
      ensures var j := Judge(old(View()), tag, body);
              if j.None? then verdict.None? && View() == old(View())
              else verdict == Some(j.value.verdict) && View() == j.value.statements
    {
      if refused {
        if !tag.Sync? {
          return Some(Skip);
        }
        refused := false;
        return Some(Forward);
      }
      match tag {
        case Query =>
          var query := DecodeQuery(body);
          if query.None? { return None; }
          var listens := FindListen(query.value);
          if listens { return Some(RejectListen); }
        case Parse =>
          var parse := DecodeParse(body);
          if parse.None? { return None; }
          var listens := FindListen(parse.value.query);
          if listens { return Some(RejectListen); }
          parsed := parsed + {parse.value.statement};
        case Bind =>
          var statement := DecodeBind(body);
          if statement.None? { return None; }
          if statement.value !in parsed {
            refused := true;
            return Some(Reject(statement.value));
          }
        case Close =>
          var target := DecodeClose(body);
          if target.None? { return None; }
          if target.value.Statement? {
            parsed := parsed - {target.value.name};
          }
        case _ =>
      }
      return Some(Forward);
    }
  }
}
