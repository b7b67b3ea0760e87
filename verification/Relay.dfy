/**
 One assignment of a server connection to a client (crates/core/src/relay.rs, `serve_assignment`,
 `forward_requests`, `relay_replies`): the relay, and a server that answers each Query,
 FunctionCall and Sync with at most one ReadyForQuery, which covers one that discards messages
 until a Sync after an error (sections 55.2.2 to 55.2.6 of the PostgreSQL 16 documentation).
 */
module Relay {
  import opened Numbers
  import opened Framing
  import opened Listen
  import opened Messages
  import opened Ready
  import opened Prepared

  /** A message taken from the client, what became of it, and how many ReadyForQuery the client
      had been sent by then. */
  datatype Consumed = Consumed(tag: FrontendTag, body: seq<byte>, verdict: Verdict, answered: nat)

  /** A message forwarded to the server. */
  datatype Sent = Sent(tag: FrontendTag, body: seq<byte>)

  datatype Session = Session(
    tracker: Tracker,
    statements: Statements,
    consumed: seq<Consumed>,          // everything taken from the client
    forwarded: seq<Sent>,             // everything sent to the server
    answered: nat,                    // ReadyForQuery sent to the client, relayed or the relay's own
    relayed: seq<Frame>,              // everything of the server's sent on to the client
    inbox: seq<Sent>,                 // sent and not yet processed by the server
    outbox: seq<Frame>)               // replied and not yet relayed

  const Begin := Session(NewTracker, NoStatements, [], [], 0, [], [], [])

  // -------------------------------------------------------------------- the relay

  datatype Taken = Went(session: Session) | Held | Terminated | Refused

  /** One turn of the loop in `forward_requests`. */
  function Take(s: Session, f: Frame): Taken {
    var tag := FrontendTagOf(f.tag);
    if tag.None? then Refused
    else if tag.value.Terminate? then Terminated
    else
      var judged := Judge(s.statements, tag.value, f.body);
      if judged.None? then Refused
      else
        var verdict := judged.value.verdict;
        var log := s.consumed + [Consumed(tag.value, f.body, verdict, s.answered)];
        match verdict
        case Forward =>
          var sent := Sent(tag.value, f.body);
          Went(s.(tracker := AfterFrontend(s.tracker, tag.value), statements := judged.value.statements,
                  consumed := log, forwarded := s.forwarded + [sent], inbox := s.inbox + [sent]))
        case Skip => Went(s.(statements := judged.value.statements, consumed := log))
        case Reject(_) => Went(s.(statements := judged.value.statements, consumed := log))
        case RejectListen =>
          if tag.value.Query? then
            if s.tracker.outstanding > 0 then Held
            else Went(s.(statements := judged.value.statements, consumed := log, answered := s.answered + 1))
          else Went(s.(statements := judged.value.statements.(refused := true), consumed := log))
  }

  /** One turn of the loop in `relay_replies`; nothing when the relay fails. */
  function Relayed(s: Session): Option<Session>
    requires s.outbox != []
  {
    var f := s.outbox[0];
    var r := OnBackend(s.tracker, f.tag, f.body);
    var rest := s.(outbox := s.outbox[1..], relayed := s.relayed + [f]);
    match r
    case Passed => Some(rest)
    case Ready(status) =>
      Some(rest.(tracker := AfterBackend(s.tracker, r), answered := s.answered + 1))
    case UnexpectedReady => None
    case BadStatus => None
  }

  // ------------------------------------------------------------------- the counts

  /** How many of these the server may still answer with ReadyForQuery. */
  function Expecting(sent: seq<Sent>): nat {
    if sent == [] then 0 else Expecting(sent[..|sent| - 1]) + Expected(sent[|sent| - 1].tag)
  }

  /** The messages a server answers with ReadyForQuery. */
  function Expected(tag: FrontendTag): nat {
    match tag
    case Query => 1
    case FunctionCall => 1
    case Sync => 1
    case _ => 0
  }

  /** The messages of the extended protocol, which a server may leave unanswered until a Sync. */
  predicate Extended(tag: FrontendTag) {
    match tag
    case Parse => true
    case Bind => true
    case Describe => true
    case Execute => true
    case Close => true
    case Flush => true
    case _ => false
  }

  function Readies(replies: seq<Frame>): nat {
    if replies == [] then 0 else Readies(replies[..|replies| - 1]) + IsReady(replies[|replies| - 1])
  }

  /** A ReadyForQuery, whose tag is the letter Z. */
  function IsReady(f: Frame): nat { if f.tag == 90 then 1 else 0 }

  /** The body of the last ReadyForQuery. */
  function LastReady(frames: seq<Frame>): Option<seq<byte>> {
    if frames == [] then None
    else if frames[|frames| - 1].tag == 90 then Some(frames[|frames| - 1].body)
    else LastReady(frames[..|frames| - 1])
  }

  /** What a ReadyForQuery says, by the letters I, T and E. */
  predicate Says(body: seq<byte>, status: TransactionStatus) {
    match status
    case Idle => body == [73]
    case InTransaction => body == [84]
    case Failed => body == [69]
  }

  /** How many ReadyForQuery the client is due for what was taken from it and not skipped. */
  function Due(consumed: seq<Consumed>): nat {
    if consumed == [] then 0
    else Due(consumed[..|consumed| - 1])
         + (if consumed[|consumed| - 1].verdict.Skip? then 0 else Expected(consumed[|consumed| - 1].tag))
  }

  lemma {:induction false} ExpectingFront(sent: seq<Sent>)
    requires sent != []
    ensures Expecting(sent) == Expected(sent[0].tag) + Expecting(sent[1..])
  {
    var n := |sent| - 1;
    if n > 0 {
      ExpectingFront(sent[..n]);
      assert sent[..n][1..] == sent[1..][..n - 1];
    } else {
      assert sent[1..] == [] && sent[..n] == [];
    }
  }

  lemma {:induction false} ReadiesFront(replies: seq<Frame>)
    requires replies != []
    ensures Readies(replies) == IsReady(replies[0]) + Readies(replies[1..])
  {
    var n := |replies| - 1;
    if n > 0 {
      ReadiesFront(replies[..n]);
      assert replies[..n][1..] == replies[1..][..n - 1];
    } else {
      assert replies[1..] == [] && replies[..n] == [];
    }
  }

  lemma {:induction false} ReadiesAppend(a: seq<Frame>, b: seq<Frame>)
    ensures Readies(a + b) == Readies(a) + Readies(b)
  {
    if b == [] {
      assert a + b == a;
    } else {
      var n := |b| - 1;
      assert (a + b)[..|a + b| - 1] == a + b[..n];
      ReadiesAppend(a, b[..n]);
    }
  }

  lemma Appended<T>(s: seq<T>, x: T)
    ensures (s + [x])[..|s + [x]| - 1] == s
  {
  }

  /** The status read from a ReadyForQuery is what it says, and there is none exactly when it says
      nothing known. */
  lemma StatusIsSaid(body: seq<byte>)
    ensures StatusOf(body).Some? <==> body in {[73], [84], [69]}
    ensures StatusOf(body).Some? ==> Says(body, StatusOf(body).value)
  {
    if |body| == 1 {
      assert body == [body[0]];
    }
  }

  // ------------------------------------------------------------------- statements

  predicate Parses(m: Sent, name: Text) {
    m.tag.Parse? && DecodeParse(m.body).Some? && DecodeParse(m.body).value.statement == name
  }

  predicate Closes(m: Sent, name: Text) {
    m.tag.Close? && DecodeClose(m.body) == Some(Statement(name))
  }

  predicate Binds(m: Sent, name: Text) { m.tag.Bind? && DecodeBind(m.body) == Some(name) }

  /** The server holds a statement of this name: it was parsed, and not closed since. */
  ghost predicate Prepares(sent: seq<Sent>, name: Text) {
    exists k :: PreparedAt(sent, name, k)
  }

  /** Every bind that reached the server named a statement it holds. */
  ghost predicate BindsHold(sent: seq<Sent>) {
    forall k, name :: 0 <= k < |sent| && Binds(sent[k], name) ==> Prepares(sent[..k], name)
  }

  /** Some extended message has been sent since the last Sync. */
  ghost predicate WindowOpen(sent: seq<Sent>) {
    exists k :: 0 <= k < |sent| && Extended(sent[k].tag) && forall j :: k < j < |sent| ==> !sent[j].tag.Sync?
  }

  /** The parse that makes the server hold `name`. */
  ghost predicate PreparedAt(sent: seq<Sent>, name: Text, k: int) {
    0 <= k < |sent| && Parses(sent[k], name) && forall j :: k < j < |sent| ==> !Closes(sent[j], name)
  }

  lemma PreparedAtGrows(sent: seq<Sent>, m: Sent, name: Text, k: int)
    ensures PreparedAt(sent + [m], name, k)
            <==> if k == |sent| then Parses(m, name) else PreparedAt(sent, name, k) && !Closes(m, name)
  {
    var all := sent + [m];
    assert all[|sent|] == m;
    if 0 <= k < |sent| {
      assert all[k] == sent[k];
      assert forall j :: k < j < |all| ==> all[j] == if j < |sent| then sent[j] else m;
      assert forall j :: k < j < |sent| ==> all[j] == sent[j];
    }
  }

  lemma PreparesGrows(sent: seq<Sent>, m: Sent, name: Text)
    ensures Prepares(sent + [m], name) <==> Parses(m, name) || (Prepares(sent, name) && !Closes(m, name))
  {
    forall k ensures PreparedAt(sent + [m], name, k)
                     <==> if k == |sent| then Parses(m, name) else PreparedAt(sent, name, k) && !Closes(m, name)
    {
      PreparedAtGrows(sent, m, name, k);
    }
    if Parses(m, name) {
      assert PreparedAt(sent + [m], name, |sent|);
    }
  }

  lemma WindowGrows(sent: seq<Sent>, m: Sent)
    ensures WindowOpen(sent + [m]) <==> Extended(m.tag) || (WindowOpen(sent) && !m.tag.Sync?)
  {
    var all := sent + [m];
    if WindowOpen(all) {
      var k :| 0 <= k < |all| && Extended(all[k].tag) && forall j :: k < j < |all| ==> !all[j].tag.Sync?;
      if k < |sent| {
        assert Extended(sent[k].tag);
        assert forall j :: k < j < |sent| ==> all[j] == sent[j];
        assert !all[|sent|].tag.Sync?;
      }
    }
    if Extended(m.tag) {
      assert Extended(all[|sent|].tag);
    } else if WindowOpen(sent) && !m.tag.Sync? {
      var k :| 0 <= k < |sent| && Extended(sent[k].tag) && forall j :: k < j < |sent| ==> !sent[j].tag.Sync?;
      assert Extended(all[k].tag);
      assert forall j :: k < j < |all| ==> all[j] == if j < |sent| then sent[j] else m;
    }
  }

  lemma BindsGrow(sent: seq<Sent>, m: Sent)
    requires BindsHold(sent) && forall name :: Binds(m, name) ==> Prepares(sent, name)
    ensures BindsHold(sent + [m])
  {
    var all := sent + [m];
    forall k, name | 0 <= k < |all| && Binds(all[k], name) ensures Prepares(all[..k], name) {
      assert all[..k] == sent[..k];
      if k == |sent| {
        assert sent[..k] == sent;
      } else {
        assert Binds(sent[k], name);
      }
    }
  }

  // --------------------------------------------------------------------- refusals

  /** A message whose refusal opens a window that its Sync closes. */
  predicate Opens(c: Consumed) { c.verdict.Reject? || (c.verdict.RejectListen? && !c.tag.Query?) }

  /** A refusal is waiting for its Sync. */
  predicate Refusing(consumed: seq<Consumed>) {
    consumed != [] &&
      var last := consumed[|consumed| - 1];
      Opens(last) || (!last.tag.Sync? && Refusing(consumed[..|consumed| - 1]))
  }

  /** What a log says was forwarded. */
  function ForwardedOf(consumed: seq<Consumed>): seq<Sent> {
    if consumed == [] then [] else ForwardedOf(consumed[..|consumed| - 1]) + Passed(consumed[|consumed| - 1])
  }

  function Passed(c: Consumed): seq<Sent> { if c.verdict.Forward? then [Sent(c.tag, c.body)] else [] }

  lemma {:induction false} ForwardedJoin(a: seq<Consumed>, b: seq<Consumed>)
    ensures ForwardedOf(a + b) == ForwardedOf(a) + ForwardedOf(b)
    decreases |b|
  {
    if b == [] {
      assert a + b == a;
    } else {
      var n := |b| - 1;
      assert (a + b)[..|a + b| - 1] == a + b[..n];
      ForwardedJoin(a, b[..n]);
    }
  }

  /** Everything between a refusal and its Sync was skipped, the Sync was not, and nothing else was. */
  ghost predicate SkipsExactly(consumed: seq<Consumed>) {
    forall k :: 0 <= k < |consumed| ==>
      (consumed[k].verdict.Skip? <==> Refusing(consumed[..k]) && !consumed[k].tag.Sync?)
  }

  /** A refused LISTEN query was answered only after everything before it had been. */
  ghost predicate AnsweredInOrder(consumed: seq<Consumed>) {
    forall k :: 0 <= k < |consumed| && consumed[k].verdict.RejectListen? && consumed[k].tag.Query?
      ==> consumed[k].answered == Due(consumed[..k])
  }

  lemma LogGrows(consumed: seq<Consumed>, c: Consumed)
    requires SkipsExactly(consumed) && AnsweredInOrder(consumed)
    requires c.verdict.Skip? <==> Refusing(consumed) && !c.tag.Sync?
    requires c.verdict.RejectListen? && c.tag.Query? ==> c.answered == Due(consumed)
    ensures SkipsExactly(consumed + [c]) && AnsweredInOrder(consumed + [c])
    ensures Refusing(consumed + [c]) <==> Opens(c) || (!c.tag.Sync? && Refusing(consumed))
    ensures Due(consumed + [c]) == Due(consumed) + (if c.verdict.Skip? then 0 else Expected(c.tag))
    ensures ForwardedOf(consumed + [c]) == ForwardedOf(consumed) + Passed(c)
  {
    var all := consumed + [c];
    Appended(consumed, c);
    forall k | 0 <= k < |all|
      ensures all[..k] == consumed[..k] && (k == |consumed| ==> consumed[..k] == consumed)
    {
    }
  }

  // -------------------------------------------------------------------- invariant

  ghost predicate ServerInv(s: Session) {
    && Expecting(s.forwarded) == s.tracker.outstanding + Readies(s.relayed)
    && Expecting(s.inbox) + Readies(s.outbox) <= s.tracker.outstanding
    && (if LastReady(s.relayed).None? then s.tracker.status.Idle?
        else Says(LastReady(s.relayed).value, s.tracker.status))
    && (s.tracker.extendedOpen <==> WindowOpen(s.forwarded))
    && !s.tracker.terminated
  }

  ghost predicate StatementsInv(s: Session) {
    && (forall name :: name in s.statements.parsed <==> Prepares(s.forwarded, name))
    && BindsHold(s.forwarded)
  }

  /** The message carries a query that starts to LISTEN. */
  predicate Listens(m: Sent) {
    || (m.tag.Query? && DecodeQuery(m.body).Some? && HasListen(DecodeQuery(m.body).value))
    || (m.tag.Parse? && DecodeParse(m.body).Some? && HasListen(DecodeParse(m.body).value.query))
  }

  /** A message was judged as it should be, given what had been forwarded: refused if it LISTENs or binds
      a statement the server does not hold, and forwarded only if it does neither. */
  ghost predicate JudgedRight(c: Consumed, sent: seq<Sent>) {
    match c.verdict
    case Forward =>
      && !Listens(Sent(c.tag, c.body))
      && forall name :: Binds(Sent(c.tag, c.body), name) ==> Prepares(sent, name)
    case Reject(name) => Binds(Sent(c.tag, c.body), name) && !Prepares(sent, name)
    case RejectListen => Listens(Sent(c.tag, c.body))
    case Skip => true
  }

  /** Every message was, given what had been forwarded by then. */
  ghost predicate AllJudgedRight(consumed: seq<Consumed>) {
    consumed == [] ||
      var before := consumed[..|consumed| - 1];
      AllJudgedRight(before) && JudgedRight(consumed[|consumed| - 1], ForwardedOf(before))
  }

  ghost predicate VerdictsInv(s: Session) { AllJudgedRight(s.consumed) }

  ghost predicate ClientInv(s: Session) {
    && SkipsExactly(s.consumed) && AnsweredInOrder(s.consumed)
    && (s.statements.refused <==> Refusing(s.consumed))
    && Due(s.consumed) == s.answered + s.tracker.outstanding
    && s.forwarded == ForwardedOf(s.consumed)
  }

  ghost predicate Inv(s: Session) { ServerInv(s) && StatementsInv(s) && ClientInv(s) && VerdictsInv(s) }

  // ------------------------------------------------------------------------ steps

  datatype Step =
    | FromClient(frame: Frame)              // the relay takes the client's next message
    | Process(replies: seq<Frame>)          // the server takes its next message and replies
    | Volunteer(reply: Frame)               // the server sends something nobody asked for
    | ToClient                              // the relay takes the server's next reply

  predicate ServerStep(step: Step) { step.Process? || step.Volunteer? }

  predicate Enabled(s: Session, step: Step) {
    match step
    case FromClient(f) => Take(s, f).Went?
    case Process(replies) => s.inbox != [] && Readies(replies) <= Expected(s.inbox[0].tag)
    case Volunteer(reply) => IsReady(reply) == 0
    case ToClient => s.outbox != [] && Relayed(s).Some?
  }

  function Next(s: Session, step: Step): Session
    requires Enabled(s, step)
  {
    match step
    case FromClient(f) => Take(s, f).session
    case Process(replies) => s.(inbox := s.inbox[1..], outbox := s.outbox + replies)
    case Volunteer(reply) => s.(outbox := s.outbox + [reply])
    case ToClient => Relayed(s).value
  }

  /** What forwarding a message does on the server's side. */
  function Forwarded(s: Session, m: Sent): Session {
    s.(tracker := AfterFrontend(s.tracker, m.tag), forwarded := s.forwarded + [m], inbox := s.inbox + [m])
  }

  lemma ForwardKeepsServer(s: Session, m: Sent)
    requires ServerInv(s) && !m.tag.Terminate?
    ensures ServerInv(Forwarded(s, m))
  {
    Appended(s.forwarded, m);
    Appended(s.inbox, m);
    WindowGrows(s.forwarded, m);
  }

  /** How a forwarded message moves the set of statements the server is taken to hold. */
  lemma ForwardMovesParsed(s: Statements, m: Sent, name: Text)
    requires Judge(s, m.tag, m.body).Some? && Judge(s, m.tag, m.body).value.verdict.Forward?
    ensures name in Judge(s, m.tag, m.body).value.statements.parsed
            <==> Parses(m, name) || (name in s.parsed && !Closes(m, name))
    ensures Binds(m, name) ==> name in s.parsed
  {
    match m.tag
    case Parse => ParseMovesParsed(s, m, name);
    case Close => CloseMovesParsed(s, m, name);
    case _ =>
  }

  lemma ParseMovesParsed(s: Statements, m: Sent, name: Text)
    requires m.tag.Parse? && Judge(s, m.tag, m.body).Some? && Judge(s, m.tag, m.body).value.verdict.Forward?
    ensures name in Judge(s, m.tag, m.body).value.statements.parsed <==> Parses(m, name) || name in s.parsed
  {
  }

  lemma CloseMovesParsed(s: Statements, m: Sent, name: Text)
    requires m.tag.Close? && Judge(s, m.tag, m.body).Some? && Judge(s, m.tag, m.body).value.verdict.Forward?
    ensures name in Judge(s, m.tag, m.body).value.statements.parsed <==> name in s.parsed && !Closes(m, name)
  {
  }

  lemma ForwardKeepsStatements(s: Session, f: Frame, tag: FrontendTag)
    requires StatementsInv(s) && Judge(s.statements, tag, f.body).Some?
    requires Judge(s.statements, tag, f.body).value.verdict.Forward?
    ensures StatementsInv(s.(statements := Judge(s.statements, tag, f.body).value.statements,
                             forwarded := s.forwarded + [Sent(tag, f.body)]))
  {
    var m, j := Sent(tag, f.body), Judge(s.statements, tag, f.body).value;
    forall name ensures name in j.statements.parsed <==> Prepares(s.forwarded + [m], name) {
      PreparesGrows(s.forwarded, m, name);
      ForwardMovesParsed(s.statements, m, name);
    }
    forall name | Binds(m, name) ensures Prepares(s.forwarded, name) {
      ForwardMovesParsed(s.statements, m, name);
    }
    BindsGrow(s.forwarded, m);
  }

  /** What a verdict says about the state it leaves. */
  lemma JudgeFacts(s: Statements, tag: FrontendTag, body: seq<byte>)
    requires Judge(s, tag, body).Some?
    ensures var j := Judge(s, tag, body).value;
            && (j.verdict.Skip? <==> s.refused && !tag.Sync?)
            && (j.statements.refused <==> j.verdict.Reject? || (s.refused && !tag.Sync?))
            && (j.verdict.RejectListen? ==> tag.Query? || tag.Parse?)
            && (j.verdict.Reject? ==> tag.Bind?)
            && (!j.verdict.Forward? ==> j.statements.parsed == s.parsed)
  {
  }

  /** What taking a message does on the client's side, whatever its verdict. */
  lemma TakeLogs(s: Session, f: Frame, tag: FrontendTag, j: Judged)
    requires Take(s, f).Went? && FrontendTagOf(f.tag) == Some(tag) && Judge(s.statements, tag, f.body) == Some(j)
    ensures var t := Take(s, f).session;
            && t.consumed == s.consumed + [Consumed(tag, f.body, j.verdict, s.answered)]
            && t.forwarded == s.forwarded + Passed(Consumed(tag, f.body, j.verdict, s.answered))
            && t.answered + t.tracker.outstanding
               == s.answered + s.tracker.outstanding + (if j.verdict.Skip? then 0 else Expected(tag))
            && (t.statements.refused <==> j.statements.refused || (j.verdict.RejectListen? && !tag.Query?))
            && (j.verdict.RejectListen? && tag.Query? ==> s.tracker.outstanding == 0)
  {
    JudgeFacts(s.statements, tag, f.body);
  }

  lemma TakeKeepsClient(s: Session, f: Frame)
    requires ClientInv(s) && Take(s, f).Went?
    ensures ClientInv(Take(s, f).session)
  {
    var tag := FrontendTagOf(f.tag).value;
    var j := Judge(s.statements, tag, f.body).value;
    TakeLogs(s, f, tag, j);
    JudgeFacts(s.statements, tag, f.body);
    LogGrows(s.consumed, Consumed(tag, f.body, j.verdict, s.answered));
  }

  ghost predicate SameServerSide(s: Session, t: Session) {
    && t.tracker == s.tracker && t.forwarded == s.forwarded
    && t.relayed == s.relayed && t.inbox == s.inbox && t.outbox == s.outbox
  }

  lemma SameServerSideKeepsInv(s: Session, t: Session)
    requires ServerInv(s) && SameServerSide(s, t)
    ensures ServerInv(t)
  {
  }

  lemma TakeAtServer(s: Session, f: Frame)
    requires Take(s, f).Went?
    ensures var t, tag := Take(s, f).session, FrontendTagOf(f.tag).value;
            if Judge(s.statements, tag, f.body).value.verdict.Forward?
            then !tag.Terminate? && SameServerSide(t, Forwarded(s, Sent(tag, f.body)))
            else SameServerSide(s, t)
  {
  }

  lemma TakeKeepsServer(s: Session, f: Frame)
    requires ServerInv(s) && Take(s, f).Went?
    ensures ServerInv(Take(s, f).session)
  {
    TakeAtServer(s, f);
    var tag := FrontendTagOf(f.tag).value;
    if Judge(s.statements, tag, f.body).value.verdict.Forward? {
      var m := Sent(tag, f.body);
      ForwardKeepsServer(s, m);
      SameServerSideKeepsInv(Forwarded(s, m), Take(s, f).session);
    } else {
      SameServerSideKeepsInv(s, Take(s, f).session);
    }
  }

  lemma TakeKeepsStatements(s: Session, f: Frame)
    requires StatementsInv(s) && Take(s, f).Went?
    ensures StatementsInv(Take(s, f).session)
  {
    var tag := FrontendTagOf(f.tag).value;
    JudgeFacts(s.statements, tag, f.body);
    if Judge(s.statements, tag, f.body).value.verdict.Forward? {
      ForwardKeepsStatements(s, f, tag);
    }
  }

  lemma JudgeIsRight(s: Statements, tag: FrontendTag, body: seq<byte>, sent: seq<Sent>, answered: nat)
    requires Judge(s, tag, body).Some? && forall name :: name in s.parsed <==> Prepares(sent, name)
    ensures JudgedRight(Consumed(tag, body, Judge(s, tag, body).value.verdict, answered), sent)
  {
  }

  lemma TakeKeepsVerdicts(s: Session, f: Frame)
    requires VerdictsInv(s) && StatementsInv(s) && s.forwarded == ForwardedOf(s.consumed) && Take(s, f).Went?
    ensures VerdictsInv(Take(s, f).session)
  {
    var tag := FrontendTagOf(f.tag).value;
    var j := Judge(s.statements, tag, f.body).value;
    TakeLogs(s, f, tag, j);
    JudgeIsRight(s.statements, tag, f.body, s.forwarded, s.answered);
    Appended(s.consumed, Consumed(tag, f.body, j.verdict, s.answered));
  }

  lemma TakeKeepsInv(s: Session, f: Frame)
    requires Inv(s) && Take(s, f).Went?
    ensures Inv(Take(s, f).session)
  {
    TakeKeepsVerdicts(s, f);
    TakeKeepsServer(s, f);
    TakeKeepsStatements(s, f);
    TakeKeepsClient(s, f);
  }

  lemma RelayedKeepsServer(s: Session)
    requires ServerInv(s) && s.outbox != [] && Relayed(s).Some?
    ensures ServerInv(Relayed(s).value)
  {
    ReadiesFront(s.outbox);
    Appended(s.relayed, s.outbox[0]);
    StatusIsSaid(s.outbox[0].body);
  }

  lemma RelayedKeepsClient(s: Session)
    requires ClientInv(s) && s.outbox != [] && Relayed(s).Some?
    ensures ClientInv(Relayed(s).value)
  {
  }

  lemma RelayedKeepsStatements(s: Session)
    requires StatementsInv(s) && VerdictsInv(s) && s.outbox != [] && Relayed(s).Some?
    ensures StatementsInv(Relayed(s).value) && VerdictsInv(Relayed(s).value)
  {
  }

  lemma RelayedKeepsInv(s: Session)
    requires Inv(s) && s.outbox != [] && Relayed(s).Some?
    ensures Inv(Relayed(s).value)
  {
    RelayedKeepsServer(s);
    RelayedKeepsClient(s);
    RelayedKeepsStatements(s);
  }

  lemma ActsKeepsServer(s: Session, step: Step)
    requires ServerInv(s) && ServerStep(step) && Enabled(s, step)
    ensures ServerInv(Next(s, step))
  {
    match step
    case Process(replies) =>
      ExpectingFront(s.inbox);
      ReadiesAppend(s.outbox, replies);
    case Volunteer(reply) =>
      Appended(s.outbox, reply);
  }

  lemma ActsKeepsClient(s: Session, step: Step)
    requires StatementsInv(s) && ClientInv(s) && VerdictsInv(s) && ServerStep(step) && Enabled(s, step)
    ensures StatementsInv(Next(s, step)) && ClientInv(Next(s, step)) && VerdictsInv(Next(s, step))
  {
  }

  lemma StepKeepsInv(s: Session, step: Step)
    requires Inv(s) && Enabled(s, step)
    ensures Inv(Next(s, step))
  {
    match step
    case FromClient(f) => TakeKeepsInv(s, f);
    case ToClient => RelayedKeepsInv(s);
    case _ =>
      ActsKeepsServer(s, step);
      ActsKeepsClient(s, step);
  }

  ghost predicate IsRun(steps: seq<Step>, states: seq<Session>) {
    && |states| == |steps| + 1 && states[0] == Begin
    && forall k :: 0 <= k < |steps| ==> Enabled(states[k], steps[k]) && states[k + 1] == Next(states[k], steps[k])
  }

  lemma {:induction false} RunsKeepInv(steps: seq<Step>, states: seq<Session>, n: nat)
    requires IsRun(steps, states) && n <= |steps|
    ensures Inv(states[n])
  {
    if n > 0 {
      RunsKeepInv(steps, states, n - 1);
      StepKeepsInv(states[n - 1], steps[n - 1]);
    }
  }

  // --------------------------------------------------------------------- theorems

  /** The connection can be given to another client: the server owes no ReadyForQuery, the last one
      it sent said idle, and no extended message waits for its Sync. */
  ghost predicate SafeToRelease(s: Session) {
    && Expecting(s.inbox) == 0 && Readies(s.outbox) == 0
    && Expecting(s.forwarded) == Readies(s.relayed)
    && (LastReady(s.relayed).None? || LastReady(s.relayed) == Some([73]))
    && !WindowOpen(s.forwarded)
  }

  /** In every run, the tracker allows release exactly when the server is safe to release. */
  lemma ReleaseIsSafe(steps: seq<Step>, states: seq<Session>, n: nat)
    requires IsRun(steps, states) && n <= |steps|
    ensures states[n].tracker.MayRelease() <==> SafeToRelease(states[n])
  {
    RunsKeepInv(steps, states, n);
    MayReleaseIsSafe(states[n]);
  }

  lemma MayReleaseIsSafe(s: Session)
    requires ServerInv(s)
    ensures s.tracker.MayRelease() <==> SafeToRelease(s)
  {
    if SafeToRelease(s) && LastReady(s.relayed).Some? {
      assert Says([73], s.tracker.status);
    }
  }

  /** The body is none its message can have. */
  predicate Malformed(m: Sent) {
    match m.tag
    case Query => DecodeQuery(m.body).None?
    case Parse => DecodeParse(m.body).None?
    case Bind => DecodeBind(m.body).None?
    case Close => DecodeClose(m.body).None?
    case _ => false
  }

  lemma JudgeAnswers(s: Statements, m: Sent)
    ensures Judge(s, m.tag, m.body).None? <==> !s.refused && Malformed(m)
    ensures Judge(s, m.tag, m.body).Some? && Judge(s, m.tag, m.body).value.verdict.RejectListen?
            <==> !s.refused && Listens(m)
  {
  }

  lemma TakeFollows(s: Session, f: Frame, tag: FrontendTag)
    requires FrontendTagOf(f.tag) == Some(tag) && !tag.Terminate?
    ensures Take(s, f).Refused? <==> Judge(s.statements, tag, f.body).None?
    ensures Take(s, f).Held? <==>
              && Judge(s.statements, tag, f.body).Some? && Judge(s.statements, tag, f.body).value.verdict.RejectListen?
              && tag.Query? && s.tracker.outstanding > 0
    ensures !Take(s, f).Terminated?
  {
  }

  /** What becomes of a message: it ends the assignment if it is Terminate; it is refused exactly if
      its tag is unknown, or its body malformed outside a refused window; and it has to wait exactly if
      it is a Query that LISTENs, outside such a window, while the server still owes an answer.
      Any other is taken. */
  lemma TakeMeans(s: Session, f: Frame)
    requires s.statements.refused <==> Refusing(s.consumed)
    requires Expecting(s.forwarded) == s.tracker.outstanding + Readies(s.relayed)
    ensures Take(s, f).Terminated? <==> f.tag == 'X' as int
    ensures Take(s, f).Held? <==> && f.tag == 'Q' as int && !Refusing(s.consumed) && Listens(Sent(Query, f.body))
                                  && Expecting(s.forwarded) > Readies(s.relayed)
    ensures Take(s, f).Refused? <==> || FrontendTagOf(f.tag).None?
                                     || (!Refusing(s.consumed) && Malformed(Sent(FrontendTagOf(f.tag).value, f.body)))
  {
    TagsMean(f.tag);
    var tag := FrontendTagOf(f.tag);
    if tag.Some? {
      JudgeAnswers(s.statements, Sent(tag.value, f.body));
      if !tag.value.Terminate? {
        TakeFollows(s, f, tag.value);
      }
    }
  }

  /** Nothing the server does on its own afterwards can bring a ReadyForQuery to the next client. */
  lemma {:induction false} NothingFollowsRelease(s: Session, steps: seq<Step>, states: seq<Session>, n: nat)
    requires Expecting(s.inbox) == 0 && Readies(s.outbox) == 0
    requires |states| == |steps| + 1 && states[0] == s && n <= |steps|
    requires forall k :: 0 <= k < |steps| ==>
               ServerStep(steps[k]) && Enabled(states[k], steps[k]) && states[k + 1] == Next(states[k], steps[k])
    ensures Expecting(states[n].inbox) == 0 && Readies(states[n].outbox) == 0
  {
    if n > 0 {
      NothingFollowsRelease(s, steps, states, n - 1);
      StillNothing(states[n - 1], steps[n - 1]);
    }
  }

  lemma StillNothing(s: Session, step: Step)
    requires Expecting(s.inbox) == 0 && Readies(s.outbox) == 0 && ServerStep(step) && Enabled(s, step)
    ensures Expecting(Next(s, step).inbox) == 0 && Readies(Next(s, step).outbox) == 0
  {
    match step
    case Process(replies) =>
      ExpectingFront(s.inbox);
      ReadiesAppend(s.outbox, replies);
    case Volunteer(reply) => Appended(s.outbox, reply);
  }

  /** Such a server never makes the tracker see an answer it did not ask for. */
  lemma NoUnexpectedReady(s: Session)
    requires Inv(s) && s.outbox != []
    ensures OnBackend(s.tracker, s.outbox[0].tag, s.outbox[0].body) != UnexpectedReady
  {
    ReadiesFront(s.outbox);
  }

  /** Nothing reaches the server between a refusal and the Sync that closes its window: what was sent
      to it is what was forwarded before the refusal and what was forwarded after the window so far. */
  lemma NothingBetweenRefusalAndSync(s: Session, before: seq<Consumed>, window: seq<Consumed>, after: seq<Consumed>)
    requires Inv(s) && s.consumed == before + window + after && window != [] && Opens(window[0])
    requires forall k :: 0 < k < |window| ==> !window[k].tag.Sync?
    ensures s.forwarded == ForwardedOf(before) + ForwardedOf(after)
    ensures forall k :: 0 < k < |window| ==> window[k].verdict.Skip?
  {
    forall k | 0 < k < |window| ensures window[k].verdict.Skip? {
      WindowSkips(before, window, after, k);
    }
    NoneForwarded(window);
    ForwardedJoin(before, window);
    NothingAdded(ForwardedOf(before));
    ForwardedJoin(before + window, after);
  }

  lemma WindowSkips(before: seq<Consumed>, window: seq<Consumed>, after: seq<Consumed>, k: nat)
    requires SkipsExactly(before + window + after) && 0 < k < |window| && Opens(window[0])
    requires forall j :: 0 < j < |window| ==> !window[j].tag.Sync?
    ensures window[k].verdict.Skip?
  {
    var consumed, i := before + window + after, |before|;
    forall j | 0 <= j < |window| ensures consumed[i + j] == window[j] {
    }
    forall j | i < j <= i + k ensures !consumed[j].tag.Sync? {
      assert consumed[j] == window[j - i];
    }
    assert consumed[i] == window[0] && consumed[i + k] == window[k];
    SkippedInWindow(consumed, i, i + k);
  }

  lemma {:induction false} NoneForwarded(window: seq<Consumed>)
    requires forall k :: 0 <= k < |window| ==> !window[k].verdict.Forward?
    ensures ForwardedOf(window) == []
  {
    if window != [] {
      NoneForwarded(window[..|window| - 1]);
    }
  }

  lemma NothingAdded<T>(s: seq<T>)
    ensures s + [] == s
  {
  }

  lemma SkippedInWindow(consumed: seq<Consumed>, i: nat, j: nat)
    requires SkipsExactly(consumed) && i < j < |consumed| && Opens(consumed[i])
    requires forall k :: i < k <= j ==> !consumed[k].tag.Sync?
    ensures consumed[j].verdict.Skip?
  {
    StillRefusing(consumed, i, j);
  }

  lemma {:induction false} StillRefusing(consumed: seq<Consumed>, i: nat, j: nat)
    requires i < j <= |consumed| && Opens(consumed[i])
    requires forall k :: i < k < j ==> !consumed[k].tag.Sync?
    ensures Refusing(consumed[..j])
    decreases j
  {
    assert consumed[..j][..j - 1] == consumed[..j - 1];
    if i < j - 1 {
      StillRefusing(consumed, i, j - 1);
    }
  }

  /** What the client may rely on: every message it sent that calls for ReadyForQuery, and was not
      skipped, has been answered or is outstanding, and every bind the server got names a
      statement it holds. */
  lemma ClientIsAnswered(steps: seq<Step>, states: seq<Session>, n: nat)
    requires IsRun(steps, states) && n <= |steps|
    ensures Due(states[n].consumed) == states[n].answered + states[n].tracker.outstanding
    ensures AnsweredInOrder(states[n].consumed) && BindsHold(states[n].forwarded) && VerdictsInv(states[n])
    ensures forall k :: 0 <= k < |states[n].forwarded| ==> !Listens(states[n].forwarded[k])
  {
    RunsKeepInv(steps, states, n);
    NoneListens(states[n].consumed);
    forall k | 0 <= k < |states[n].forwarded| ensures !Listens(states[n].forwarded[k]) {
      assert states[n].forwarded[k] in states[n].forwarded;
    }
  }

  /** Nothing that LISTENs is among what was forwarded. */
  lemma {:induction false} NoneListens(consumed: seq<Consumed>)
    requires AllJudgedRight(consumed)
    ensures forall m :: m in ForwardedOf(consumed) ==> !Listens(m)
  {
    if consumed != [] {
      NoneListens(consumed[..|consumed| - 1]);
    }
  }

  // -------------------------------------------------------------------- the loops

  datatype Requests = Drained | Answered | Ended | Broken

  /** The frames taken, one after the other. */
  ghost function TakeAll(s: Session, frames: seq<Frame>): Taken {
    if frames == [] then Went(s)
    else
      var before := TakeAll(s, frames[..|frames| - 1]);
      if before.Went? then Take(before.session, frames[|frames| - 1]) else before
  }

  lemma {:induction false} TakeAllKeepsInv(s: Session, frames: seq<Frame>)
    requires Inv(s) && TakeAll(s, frames).Went?
    ensures Inv(TakeAll(s, frames).session)
    decreases |frames|
  {
    if frames != [] {
      TakeAllKeepsInv(s, frames[..|frames| - 1]);
      TakeKeepsInv(TakeAll(s, frames[..|frames| - 1]).session, frames[|frames| - 1]);
    }
  }

  /** No whole message waits, or the next one must wait for the answers in flight. */
  predicate NothingToTake(s: Session, pending: seq<byte>) {
    var d := DecodeFrame(pending, MAX_MESSAGE);
    d.Incomplete? || (d.Message? && Take(s, d.message).Held?)
  }

  /** `forward_requests`: takes every whole message waiting, up to one that must wait for the answers
      in flight, which is put back so that the bytes not taken are exactly the ones still waiting.
      A Terminate ends the loop and is read (`last`).  A message that is malformed or refused ends it
      before anything of the batch is sent, so none of the batch is taken: all of it is only read. */
  method ForwardRequests(s: Session, pending: seq<byte>)
    returns (r: Requests, next: Session, rest: seq<byte>, ghost frames: seq<Frame>, ghost last: seq<Frame>)
    ensures AllEncodable(frames) && AllEncodable(last) && TakeAll(s, frames) == Went(next)
    ensures pending == EncodeAll(frames) + (EncodeAll(last) + rest)
    ensures EndsWell(r, next, rest, last)
    ensures r.Broken? ==> frames == []
    ensures r.Answered? ==> next.answered > s.answered
    ensures r.Drained? ==> next.answered == s.answered
  {
    r, next, rest, frames, last := Drained, s, pending, [], [];
    assert EncodeAll([]) + pending == pending;
    while true
      invariant Took(s, pending, frames, next, rest) && last == []
      invariant if next.answered > s.answered then r.Answered? else r.Drained? && next.answered == s.answered
      decreases |rest|
    {
      assert EncodeAll([]) + rest == rest;
      var d := DecodeFrame(rest, MAX_MESSAGE);
      if d.Incomplete? {
        return;
      }
      if d.Malformed? {
        OnlyRead(pending, frames, rest);
        return Broken, s, rest, [], frames;
      }
      EncodeOfDecode(rest, MAX_MESSAGE);
      var taken := Take(next, d.message);
      match taken {
        case Refused =>
          ReadRefused(s, pending, frames, next, d.message, d.rest);
          return Broken, s, d.rest, [], frames + [d.message];
        case Terminated =>
          EncodeOne(d.message);
          return Ended, next, d.rest, frames, [d.message];
        case Held =>
          rest := EncodeFrame(d.message) + d.rest;
          return;
        case Went(after) =>
          TookOne(s, pending, frames, next, d.message, d.rest);
          TakeAnswers(next, d.message);
          if after.answered > next.answered {
            r := Answered;
          }
          next, rest, frames := after, d.rest, frames + [d.message];
      }
    }
  }

  /** Why `forward_requests` ended. */
  ghost predicate EndsWell(r: Requests, next: Session, rest: seq<byte>, last: seq<Frame>) {
    match r
    case Drained => last == [] && NothingToTake(next, rest)
    case Answered => last == [] && NothingToTake(next, rest)
    case Ended => |last| == 1 && Take(next, last[0]).Terminated?
    case Broken => BadBatch(next, last, rest)
  }

  /** A batch the relay would take up to a message that is malformed, or is its last and refused. */
  ghost predicate BadBatch(s: Session, batch: seq<Frame>, rest: seq<byte>) {
    || (TakeAll(s, batch).Went? && DecodeFrame(rest, MAX_MESSAGE).Malformed?)
    || (batch != [] && TakeAll(s, batch[..|batch| - 1]).Went? && TakeAll(s, batch).Refused?)
  }

  lemma OnlyRead(pending: seq<byte>, frames: seq<Frame>, rest: seq<byte>)
    requires AllEncodable(frames) && pending == EncodeAll(frames) + rest
    ensures pending == EncodeAll([]) + (EncodeAll(frames) + rest)
  {
  }

  lemma ReadRefused(s: Session, pending: seq<byte>, frames: seq<Frame>, next: Session, f: Frame, rest: seq<byte>)
    requires Encodable(f.body) && Took(s, pending, frames, next, EncodeFrame(f) + rest) && Take(next, f).Refused?
    ensures AllEncodable(frames + [f]) && pending == EncodeAll([]) + (EncodeAll(frames + [f]) + rest)
    ensures BadBatch(s, frames + [f], rest)
  {
    Appended(frames, f);
    EncodeAllSnoc(frames, f);
    Regrouped(EncodeAll(frames), EncodeFrame(f), rest);
    OnlyRead(pending, frames + [f], rest);
  }

  lemma EncodeOne(f: Frame)
    requires Encodable(f.body)
    ensures AllEncodable([f]) && EncodeAll([f]) == EncodeFrame(f)
  {
    assert [f][1..] == [];
    assert EncodeFrame(f) + [] == EncodeFrame(f);
  }

  /** The bytes that were waiting are the frames taken and the rest. */
  ghost predicate Took(s: Session, pending: seq<byte>, frames: seq<Frame>, next: Session, rest: seq<byte>) {
    AllEncodable(frames) && TakeAll(s, frames) == Went(next) && pending == EncodeAll(frames) + rest
  }

  lemma Regrouped(a: seq<byte>, b: seq<byte>, c: seq<byte>)
    ensures a + (b + c) == a + b + c
  {
  }

  lemma TakeAnswers(s: Session, f: Frame)
    requires Take(s, f).Went?
    ensures Take(s, f).session.answered >= s.answered
  {
  }

  lemma TookOne(s: Session, pending: seq<byte>, frames: seq<Frame>, next: Session, f: Frame, rest: seq<byte>)
    requires Encodable(f.body) && Took(s, pending, frames, next, EncodeFrame(f) + rest) && Take(next, f).Went?
    ensures Took(s, pending, frames + [f], Take(next, f).session, rest)
  {
    Appended(frames, f);
    EncodeAllSnoc(frames, f);
    Regrouped(EncodeAll(frames), EncodeFrame(f), rest);
  }

  lemma {:induction false} EncodeAllSnoc(frames: seq<Frame>, f: Frame)
    requires AllEncodable(frames) && Encodable(f.body)
    ensures AllEncodable(frames + [f]) && EncodeAll(frames + [f]) == EncodeAll(frames) + EncodeFrame(f)
    decreases |frames|
  {
    if frames == [] {
      assert frames + [f] == [f] && [f][1..] == [];
    } else {
      assert (frames + [f])[1..] == frames[1..] + [f];
      EncodeAllSnoc(frames[1..], f);
      Regrouped(EncodeFrame(frames[0]), EncodeAll(frames[1..]), EncodeFrame(f));
    }
  }

  /** The first `k` replies relayed, one after the other; nothing when one makes the relay fail. */
  function RelayAll(s: Session, k: nat): Option<Session> {
    if k == 0 then Some(s)
    else
      var before := RelayAll(s, k - 1);
      if before.None? || before.value.outbox == [] then None else Relayed(before.value)
  }

  /** Relaying the `k`-th reply reached the boundary where the connection may be released. */
  predicate BoundaryAt(s: Session, k: nat) {
    && 0 < k <= |s.outbox| && IsReady(s.outbox[k - 1]) == 1
    && RelayAll(s, k).Some? && RelayAll(s, k).value.tracker.MayRelease()
  }

  /** `next` is `s` with its first `k` replies relayed. */
  predicate RelayedTo(s: Session, k: nat, next: Session) {
    k <= |s.outbox| && RelayAll(s, k) == Some(next) && next.outbox == s.outbox[k..]
  }

  /** Among the replies is one the relay fails on, after some it would relay: its status is malformed. */
  ghost predicate BadReplies(s: Session) { exists k :: BadReplyAt(s, k) }

  ghost predicate BadReplyAt(s: Session, k: nat) {
    && k < |s.outbox| && RelayAll(s, k).Some?
    && s.outbox[k].tag == 90 && s.outbox[k].body !in {[73], [84], [69]}
  }

  lemma RelayedMore(s: Session, k: nat, next: Session)
    requires RelayedTo(s, k, next) && next.outbox != [] && Relayed(next).Some?
    ensures RelayedTo(s, k + 1, Relayed(next).value)
    ensures BoundaryAt(s, k + 1) <==> IsReady(next.outbox[0]) == 1 && Relayed(next).value.tracker.MayRelease()
    ensures Relayed(next).value.answered == next.answered + IsReady(next.outbox[0])
    ensures IsReady(next.outbox[0]) == 0 ==> Relayed(next).value.tracker == next.tracker
  {
    assert next.outbox[0] == s.outbox[k];
  }

  lemma {:induction false} RelayAllKeepsInv(s: Session, k: nat)
    requires Inv(s) && RelayAll(s, k).Some?
    ensures Inv(RelayAll(s, k).value)
    decreases k
  {
    if k > 0 {
      RelayAllKeepsInv(s, k - 1);
      RelayedKeepsInv(RelayAll(s, k - 1).value);
    }
  }

  /** Relaying the first `k` replies reaches no boundary. */
  ghost predicate NoBoundary(s: Session, k: nat) { forall j: nat :: 0 < j <= k ==> !BoundaryAt(s, j) }

  lemma NoBoundaryMore(s: Session, k: nat)
    requires NoBoundary(s, k) && !BoundaryAt(s, k + 1)
    ensures NoBoundary(s, k + 1)
  {
  }

  lemma RelayFailsOnlyOnStatus(s: Session, k: nat, next: Session)
    requires Inv(s) && RelayedTo(s, k, next) && next.outbox != [] && Relayed(next).None?
    ensures BadReplyAt(s, k)
  {
    RelayAllKeepsInv(s, k);
    NoUnexpectedReady(next);
    StatusIsSaid(next.outbox[0].body);
  }

  lemma BoundaryIsSafe(s: Session, k: nat)
    requires Inv(s) && BoundaryAt(s, k)
    ensures SafeToRelease(RelayAll(s, k).value)
    ensures RelayAll(s, k).value.relayed == s.relayed + s.outbox[..k] && s.outbox[k - 1] == Frame(90, [73])
  {
    RelayAllKeepsInv(s, k);
    MayReleaseIsSafe(RelayAll(s, k).value);
    RelayAllSendsOn(s, k);
    LastOfRelayed(s.relayed, s.outbox, k);
  }

  lemma LastOfRelayed(relayed: seq<Frame>, outbox: seq<Frame>, k: nat)
    requires 0 < k <= |outbox| && outbox[k - 1].tag == 90
    ensures LastReady(relayed + outbox[..k]) == Some(outbox[k - 1].body)
  {
    var all := relayed + outbox[..k];
    assert all[|all| - 1] == outbox[k - 1];
  }

  /** What is relayed is sent on as it came, in the order it came. */
  lemma {:induction false} RelayAllSendsOn(s: Session, k: nat)
    requires RelayAll(s, k).Some?
    ensures k <= |s.outbox| && RelayAll(s, k).value.relayed == s.relayed + s.outbox[..k]
    ensures RelayAll(s, k).value.outbox == s.outbox[k..]
    decreases k
  {
    if k > 0 {
      RelayAllSendsOn(s, k - 1);
      assert s.outbox[..k] == s.outbox[..k - 1] + [s.outbox[k - 1]];
    } else {
      assert s.relayed + s.outbox[..0] == s.relayed;
    }
  }

  /** `relay_replies`: relays what the server has sent, in order, up to the first boundary where the
      connection may be released, leaving what comes after it unread. */
  method RelayReplies(s: Session) returns (failed: bool, released: bool, next: Session, ghost k: nat)
    requires Inv(s)
    ensures RelayedTo(s, k, next)
    ensures released <==> BoundaryAt(s, k)
    ensures k > 0 ==> NoBoundary(s, k - 1)
    ensures released ==> !failed && SafeToRelease(next) && next.answered > s.answered
    ensures released ==> next.relayed == s.relayed + s.outbox[..k] && s.outbox[k - 1] == Frame(90, [73])
    ensures !failed && !released ==> next.outbox == []
    ensures failed ==> BadReplyAt(s, k)
    ensures !failed && !released && next.tracker.MayRelease() ==> next.answered == s.answered && s.tracker.MayRelease()
  {
    failed, released, next, k := false, false, s, 0;
    while next.outbox != []
      invariant RelayedTo(s, k, next) && NoBoundary(s, k)
      invariant next.answered >= s.answered
      invariant next.tracker.MayRelease() ==> next.answered == s.answered && s.tracker.MayRelease()
      decreases |next.outbox|
    {
      var ready := next.outbox[0].tag == 90;
      var relayed := Relayed(next);
      if relayed.None? {
        RelayFailsOnlyOnStatus(s, k, next);
        return true, false, next, k;
      }
      RelayedMore(s, k, next);
      next := relayed.value;
      k := k + 1;
      if ready && next.tracker.MayRelease() {
        BoundaryIsSafe(s, k);
        return false, true, next, k;
      }
      NoBoundaryMore(s, k - 1);
    }
  }

  // ------------------------------------------------------------------ assignments

  /** What may happen while an assignment lasts. */
  datatype Happening =
    | Arrives(bytes: seq<byte>)   // the client sends more
    | Leaves                      // the client closes its side
    | Serves(step: Step)          // the server processes a message, or volunteers one
    | Replies                     // what the server has sent can be read
    | Vanishes                    // the server closes the connection

  /** How an assignment ended; `Impossible` when a happening is none a server of this kind causes. */
  datatype Boundary = Released | ClientClosed(mayRelease: bool) | Lost | Waiting | Impossible

  /** The bytes the client sent. */
  function Arrived(hs: seq<Happening>): seq<byte> {
    if hs == [] then []
    else Arrived(hs[..|hs| - 1]) + (if hs[|hs| - 1].Arrives? then hs[|hs| - 1].bytes else [])
  }

  /** What the server did. */
  function Served(hs: seq<Happening>): seq<Step> {
    if hs == [] then []
    else Served(hs[..|hs| - 1]) + (if hs[|hs| - 1].Serves? then [hs[|hs| - 1].step] else [])
  }

  function Sends(step: Step): seq<Frame> {
    match step
    case Process(replies) => replies
    case Volunteer(reply) => [reply]
    case _ => []
  }

  /** What the server sent since its replies were last read. */
  function Unread(hs: seq<Happening>): seq<Frame> {
    if hs == [] then []
    else
      match hs[|hs| - 1]
      case Replies => []
      case Serves(step) => Unread(hs[..|hs| - 1]) + Sends(step)
      case _ => Unread(hs[..|hs| - 1])
  }

  predicate Suffix<T(==)>(b: seq<T>, a: seq<T>) { |b| <= |a| && b == a[|a| - |b|..] }

  /** Every reply read so far has been relayed: what is left is what the server has sent since; an end
      reached while relaying leaves the rest of what was being read. */
  ghost predicate RepliesRelayed(end: Boundary, s: Session, dealt: seq<Happening>) {
    || s.outbox == Unread(dealt)
    || ((end.Released? || end.Lost?) && dealt != [] && dealt[|dealt| - 1].Replies?
        && Suffix(s.outbox, Unread(dealt[..|dealt| - 1])))
  }

  /** The messages a run takes from the client. */
  function FramesOf(steps: seq<Step>): seq<Frame> {
    if steps == [] then []
    else FramesOf(steps[..|steps| - 1]) + (if steps[|steps| - 1].FromClient? then [steps[|steps| - 1].frame] else [])
  }

  /** What the server does in a run. */
  function ServesOf(steps: seq<Step>): seq<Step> {
    if steps == [] then []
    else ServesOf(steps[..|steps| - 1]) + (if ServerStep(steps[|steps| - 1]) then [steps[|steps| - 1]] else [])
  }

  /** What the server sends in a run. */
  function SentBy(steps: seq<Step>): seq<Frame> {
    if steps == [] then [] else SentBy(steps[..|steps| - 1]) + Sends(steps[|steps| - 1])
  }

  /** In every run, what the server has sent is what the client has been sent of it, unchanged and in
      order, and what is still to be read. */
  lemma {:induction false} RepliesArriveInOrder(steps: seq<Step>, states: seq<Session>, n: nat)
    requires IsRun(steps, states) && n <= |steps|
    ensures SentBy(steps[..n]) == states[n].relayed + states[n].outbox
  {
    if n > 0 {
      RepliesArriveInOrder(steps, states, n - 1);
      assert steps[..n][..n - 1] == steps[..n - 1];
      OneStepOfReplies(states[n - 1], steps[n - 1]);
    }
  }

  lemma OneStepOfReplies(s: Session, step: Step)
    requires Enabled(s, step)
    ensures Next(s, step).relayed + Next(s, step).outbox == s.relayed + s.outbox + Sends(step)
  {
    match step
    case FromClient(f) => TakeAtServer(s, f);
    case _ =>
  }

  ghost predicate Ran(steps: seq<Step>, states: seq<Session>, s: Session) {
    IsRun(steps, states) && states[|steps|] == s
  }

  lemma RanInv(steps: seq<Step>, states: seq<Session>, s: Session)
    requires Ran(steps, states, s)
    ensures Inv(s)
  {
    RunsKeepInv(steps, states, |steps|);
  }

  /** The step brings the client an answer after which the connection may be released. */
  ghost predicate ReachesBoundary(s: Session, step: Step, t: Session) {
    step.ToClient? && t.answered > s.answered && t.tracker.MayRelease()
  }

  /** The first `n` steps of a run reach no boundary. */
  ghost predicate Unreleased(steps: seq<Step>, states: seq<Session>, n: int)
    requires n <= |steps| && |states| == |steps| + 1
  {
    forall k :: 0 <= k < n ==> !ReachesBoundary(states[k], steps[k], states[k + 1])
  }

  lemma UnreleasedMore(steps: seq<Step>, states: seq<Session>, step: Step, t: Session)
    requires |states| == |steps| + 1 && Unreleased(steps, states, |steps|)
    ensures Unreleased(steps + [step], states + [t], |steps|)
    ensures !ReachesBoundary(states[|steps|], step, t) ==> Unreleased(steps + [step], states + [t], |steps| + 1)
  {
    var all, through := steps + [step], states + [t];
    forall k | 0 <= k < |steps| ensures !ReachesBoundary(through[k], all[k], through[k + 1]) {
      assert !ReachesBoundary(states[k], steps[k], states[k + 1]);
    }
  }

  lemma RunGrows(steps: seq<Step>, states: seq<Session>, s: Session, step: Step)
    requires Ran(steps, states, s) && Enabled(s, step)
    ensures Ran(steps + [step], states + [Next(s, step)], Next(s, step))
  {
    var all, through := steps + [step], states + [Next(s, step)];
    forall k | 0 <= k < |all| ensures Enabled(through[k], all[k]) && through[k + 1] == Next(through[k], all[k]) {
      assert k < |steps| ==> all[k] == steps[k] && through[k] == states[k] && through[k + 1] == states[k + 1];
    }
  }

  lemma StepsGrow(steps: seq<Step>, step: Step)
    ensures FramesOf(steps + [step]) == FramesOf(steps) + (if step.FromClient? then [step.frame] else [])
    ensures ServesOf(steps + [step]) == ServesOf(steps) + (if ServerStep(step) then [step] else [])
  {
    Appended(steps, step);
  }

  lemma RanMore(steps: seq<Step>, states: seq<Session>, s: Session, step: Step)
    requires Ran(steps, states, s) && Enabled(s, step)
    ensures Ran(steps + [step], states + [Next(s, step)], Next(s, step))
    ensures FramesOf(steps + [step]) == FramesOf(steps) + (if step.FromClient? then [step.frame] else [])
    ensures ServesOf(steps + [step]) == ServesOf(steps) + (if ServerStep(step) then [step] else [])
  {
    RunGrows(steps, states, s, step);
    StepsGrow(steps, step);
  }

  /** The frames taken are steps of the run. */
  lemma {:induction false} RanTakes(steps: seq<Step>, states: seq<Session>, s: Session, frames: seq<Frame>)
    returns (steps': seq<Step>, states': seq<Session>)
    requires Ran(steps, states, s) && TakeAll(s, frames).Went? && Unreleased(steps, states, |steps|)
    ensures Ran(steps', states', TakeAll(s, frames).session) && Unreleased(steps', states', |steps'|)
    ensures FramesOf(steps') == FramesOf(steps) + frames && ServesOf(steps') == ServesOf(steps)
    decreases |frames|
  {
    if frames == [] {
      return steps, states;
    }
    var n := |frames| - 1;
    var before := TakeAll(s, frames[..n]).session;
    var taken, through := RanTakes(steps, states, s, frames[..n]);
    var step := FromClient(frames[n]);
    RanMore(taken, through, before, step);
    UnreleasedMore(taken, through, step, Next(before, step));
    steps', states' := taken + [step], through + [Next(before, step)];
    SnocAfter(FramesOf(steps), frames, n);
    NothingAdded(ServesOf(steps));
  }

  lemma SnocAfter<T>(a: seq<T>, b: seq<T>, n: nat)
    requires |b| == n + 1
    ensures a + b[..n] + [b[n]] == a + b
  {
  }

  lemma {:induction false} RelayAllIs(s: Session, k: nat)
    requires RelayAll(s, k).Some?
    ensures RelayedTo(s, k, RelayAll(s, k).value)
    decreases k
  {
    if k > 0 {
      RelayAllIs(s, k - 1);
      RelayedMore(s, k - 1, RelayAll(s, k - 1).value);
    }
  }

  lemma LastRelay(s: Session, k: nat)
    requires 0 < k && RelayAll(s, k).Some?
    ensures RelayAll(s, k - 1).Some? && Enabled(RelayAll(s, k - 1).value, ToClient)
    ensures Next(RelayAll(s, k - 1).value, ToClient) == RelayAll(s, k).value
    ensures ReachesBoundary(RelayAll(s, k - 1).value, ToClient, RelayAll(s, k).value) <==> BoundaryAt(s, k)
  {
    RelayAllIs(s, k - 1);
    RelayedMore(s, k - 1, RelayAll(s, k - 1).value);
  }

  /** The replies relayed are steps of the run, and only the last can reach a boundary. */
  lemma {:induction false} RanRelays(steps: seq<Step>, states: seq<Session>, s: Session, k: nat)
    returns (steps': seq<Step>, states': seq<Session>)
    requires Ran(steps, states, s) && RelayAll(s, k).Some? && Unreleased(steps, states, |steps|)
    requires k > 0 ==> NoBoundary(s, k - 1)
    ensures Ran(steps', states', RelayAll(s, k).value)
    ensures FramesOf(steps') == FramesOf(steps) && ServesOf(steps') == ServesOf(steps)
    ensures Unreleased(steps', states', |steps'| - 1)
    ensures !BoundaryAt(s, k) ==> Unreleased(steps', states', |steps'|)
    decreases k
  {
    if k == 0 {
      return steps, states;
    }
    var before := RelayAll(s, k - 1).value;
    var relayed, through := RanRelays(steps, states, s, k - 1);
    LastRelay(s, k);
    RanMore(relayed, through, before, ToClient);
    NothingAdded(FramesOf(relayed));
    NothingAdded(ServesOf(relayed));
    UnreleasedMore(relayed, through, ToClient, Next(before, ToClient));
    steps', states' := relayed + [ToClient], through + [Next(before, ToClient)];
  }

  /** A run that has dealt with the first happenings: the server did what they say, and the bytes the
      client sent are the messages taken and those still pending. */
  ghost predicate Upto(waiting: seq<byte>, hs: seq<Happening>, steps: seq<Step>, states: seq<Session>, s: Session,
                       pending: seq<byte>) {
    && Ran(steps, states, s) && ServesOf(steps) == Served(hs)
    && AllEncodable(FramesOf(steps)) && waiting + Arrived(hs) == EncodeAll(FramesOf(steps)) + pending
  }

  /** Every boundary reached so far has been taken. */
  ghost predicate NoneMissed(s: Session) { s.tracker.MayRelease() ==> s.answered == 0 }

  /** Why an assignment ended where it did, with some happenings dealt with and some left. */
  ghost predicate Justified(end: Boundary, s: Session, pending: seq<byte>, last: seq<Frame>, dealt: seq<Happening>,
                            left: seq<Happening>) {
    match end
    case Released => last == [] && s.answered > 0 && s.tracker.MayRelease() && SafeToRelease(s)
    case ClientClosed(mayRelease) =>
      && (mayRelease <==> s.tracker.MayRelease()) && (mayRelease ==> SafeToRelease(s))
      && if last == [] then dealt != [] && dealt[|dealt| - 1].Leaves? else |last| == 1 && Take(s, last[0]).Terminated?
    case Lost =>
      || (last == [] && dealt != [] && dealt[|dealt| - 1].Vanishes?)
      || BadBatch(s, last, pending)
      || (last == [] && dealt != [] && dealt[|dealt| - 1].Replies? && BadReplies(s))
    case Waiting => last == [] && left == [] && NothingToTake(s, pending) && NoneMissed(s)
    case Impossible =>
      last == [] && left != [] && left[0].Serves? && !(ServerStep(left[0].step) && Enabled(s, left[0].step))
  }

  /** An assignment that goes on: a run that has dealt with these happenings, taken every boundary it
      reached, and relayed every reply that could be read. */
  ghost predicate Serving(waiting: seq<byte>, dealt: seq<Happening>, steps: seq<Step>, states: seq<Session>, s: Session,
                          pending: seq<byte>) {
    && Upto(waiting, dealt, steps, states, s, pending) && NoneMissed(s)
    && Unreleased(steps, states, |steps|) && s.outbox == Unread(dealt)
  }

  /** An assignment that ended: such a run, up to an end that is justified and that no reply before its
      last step could have brought. */
  ghost predicate Ending(waiting: seq<byte>, dealt: seq<Happening>, left: seq<Happening>, end: Boundary,
                         steps: seq<Step>, states: seq<Session>, s: Session, pending: seq<byte>, last: seq<Frame>) {
    && AllEncodable(last) && Upto(waiting, dealt, steps, states, s, EncodeAll(last) + pending)
    && Justified(end, s, pending, last, dealt, left) && RepliesRelayed(end, s, dealt)
    && Unreleased(steps, states, if end.Released? then |steps| - 1 else |steps|)
  }

  /** `serve_assignment`, over any sequence of happenings.  What it does is a run of the session: it
      takes the client's messages in order, none lost and none twice, up to the bytes it leaves
      pending, while the server does what the happenings say.  When it ends with the connection
      released, or with the client gone and the connection to be released, the server is safe to
      give to another client; it never waits past a boundary, and no reply before its last step
      reached one. */
  method ServeAssignment(waiting: seq<byte>, happenings: seq<Happening>)
    returns (end: Boundary, s: Session, pending: seq<byte>, ghost dealt: seq<Happening>, ghost left: seq<Happening>,
             ghost last: seq<Frame>, ghost steps: seq<Step>, ghost states: seq<Session>)
    ensures dealt + left == happenings && Ending(waiting, dealt, left, end, steps, states, s, pending, last)
  {
    s, pending, dealt, left, last, steps, states := Begin, waiting, [], happenings, [], [], [Begin];
    var todo := happenings;
    StartsUpto(waiting);
    while true
      invariant dealt + todo == happenings && left == todo
      invariant Serving(waiting, dealt, steps, states, s, pending)
      decreases |todo|
    {
      var ended;
      ended, s, pending, last, steps, states := Forwarding(waiting, dealt, todo, s, pending, steps, states);
      if ended.Some? {
        return ended.value, s, pending, dealt, left, last, steps, states;
      }
      if todo == [] {
        WaitsRightly(waiting, dealt, steps, states, s, pending);
        return Waiting, s, pending, dealt, left, [], steps, states;
      }
      OneDealtWith(dealt, todo);
      ended, s, pending, steps, states := Happen(waiting, dealt, todo[0], todo[1..], s, pending, steps, states);
      if ended == Some(Impossible) {
        return Impossible, s, pending, dealt, left, [], steps, states;
      }
      dealt, left, todo := dealt + [todo[0]], todo[1..], todo[1..];
      if ended.Some? {
        return ended.value, s, pending, dealt, left, [], steps, states;
      }
    }
  }

  lemma WaitsRightly(waiting: seq<byte>, dealt: seq<Happening>, steps: seq<Step>, states: seq<Session>, s: Session,
                     pending: seq<byte>)
    requires Serving(waiting, dealt, steps, states, s, pending) && NothingToTake(s, pending)
    ensures Ending(waiting, dealt, [], Waiting, steps, states, s, pending, [])
  {
    NothingLast(pending);
  }

  lemma OneDealtWith(dealt: seq<Happening>, todo: seq<Happening>)
    requires todo != []
    ensures (dealt + [todo[0]]) + todo[1..] == dealt + todo && [todo[0]] + todo[1..] == todo
  {
  }

  lemma NothingLast(pending: seq<byte>)
    ensures EncodeAll([]) + pending == pending
  {
  }

  /** One event of the loop in `serve_assignment`. */
  method Happen(ghost waiting: seq<byte>, ghost hs: seq<Happening>, h: Happening, ghost left: seq<Happening>,
                s: Session, pending: seq<byte>, ghost steps: seq<Step>, ghost states: seq<Session>)
    returns (end: Option<Boundary>, next: Session, rest: seq<byte>, ghost steps': seq<Step>,
             ghost states': seq<Session>)
    requires Serving(waiting, hs, steps, states, s, pending)
    ensures end.None? ==> Serving(waiting, hs + [h], steps', states', next, rest)
    ensures end == Some(Impossible) ==> Ending(waiting, hs, [h] + left, Impossible, steps', states', next, rest, [])
    ensures end.Some? && end != Some(Impossible) ==>
              Ending(waiting, hs + [h], left, end.value, steps', states', next, rest, [])
  {
    end, next, rest, steps', states' := None, s, pending, steps, states;
    Appended(hs, h);
    NothingLast(pending);
    match h {
      case Arrives(bytes) =>
        MoreArrives(waiting, hs, steps, states, s, pending, h);
        rest := pending + bytes;
      case Leaves =>
        NothingArrives(waiting, hs, steps, states, s, pending, h);
        LeavesSafely(steps, states, s);
        end := Some(ClientClosed(s.tracker.MayRelease()));
      case Vanishes =>
        NothingArrives(waiting, hs, steps, states, s, pending, h);
        end := Some(Lost);
      case Serves(step) =>
        if !(ServerStep(step) && Enabled(s, step)) {
          end := Some(Impossible);
        } else {
          ServerActs(waiting, hs, steps, states, s, pending, step);
          UnreleasedMore(steps, states, step, Next(s, step));
          steps', states' := steps + [step], states + [Next(s, step)];
          next := Next(s, step);
        }
      case Replies =>
        var failed, released;
        failed, released, next, steps', states' := Relaying(waiting, hs, s, pending, steps, states);
        NothingArrives(waiting, hs, steps', states', next, pending, h);
        end := if failed then Some(Lost) else if released then Some(Released) else None;
    }
  }

  lemma LeavesSafely(steps: seq<Step>, states: seq<Session>, s: Session)
    requires Ran(steps, states, s)
    ensures s.tracker.MayRelease() ==> SafeToRelease(s)
  {
    RanInv(steps, states, s);
    if s.tracker.MayRelease() {
      MayReleaseIsSafe(s);
    }
  }

  lemma ServerActs(waiting: seq<byte>, hs: seq<Happening>, steps: seq<Step>, states: seq<Session>, s: Session,
                   pending: seq<byte>, step: Step)
    requires Upto(waiting, hs, steps, states, s, pending) && ServerStep(step) && Enabled(s, step)
    ensures Upto(waiting, hs + [Serves(step)], steps + [step], states + [Next(s, step)], Next(s, step), pending)
    ensures Next(s, step).tracker == s.tracker && Next(s, step).answered == s.answered
  {
    Appended(hs, Serves(step));
    RanMore(steps, states, s, step);
    assert Arrived(hs) + [] == Arrived(hs) && FramesOf(steps) + [] == FramesOf(steps);
  }

  lemma NothingArrives(waiting: seq<byte>, hs: seq<Happening>, steps: seq<Step>, states: seq<Session>, s: Session,
                       pending: seq<byte>, h: Happening)
    requires Upto(waiting, hs, steps, states, s, pending) && !h.Arrives? && !h.Serves?
    ensures Upto(waiting, hs + [h], steps, states, s, pending)
  {
    Appended(hs, h);
    assert Arrived(hs) + [] == Arrived(hs) && Served(hs) + [] == Served(hs);
  }

  lemma StartsUpto(waiting: seq<byte>)
    ensures Upto(waiting, [], [], [Begin], Begin, waiting)
  {
    assert waiting + [] == [] + waiting;
  }

  lemma MoreArrives(waiting: seq<byte>, hs: seq<Happening>, steps: seq<Step>, states: seq<Session>, s: Session,
                    pending: seq<byte>, h: Happening)
    requires Upto(waiting, hs, steps, states, s, pending) && h.Arrives?
    ensures Upto(waiting, hs + [h], steps, states, s, pending + h.bytes)
  {
    Appended(hs, h);
    Regrouped(waiting, Arrived(hs), h.bytes);
    Regrouped(EncodeAll(FramesOf(steps)), pending, h.bytes);
  }

  /** `forward_requests`, as part of a run, and the ends of the assignment it brings. */
  method Forwarding(ghost waiting: seq<byte>, ghost hs: seq<Happening>, ghost left: seq<Happening>, s: Session,
                    pending: seq<byte>, ghost steps: seq<Step>, ghost states: seq<Session>)
    returns (end: Option<Boundary>, next: Session, rest: seq<byte>, ghost last: seq<Frame>,
             ghost steps': seq<Step>, ghost states': seq<Session>)
    requires Serving(waiting, hs, steps, states, s, pending)
    ensures end.Some? ==> Ending(waiting, hs, left, end.value, steps', states', next, rest, last)
    ensures end.None? ==> Serving(waiting, hs, steps', states', next, rest) && NothingToTake(next, rest)
  {
    var r;
    ghost var frames;
    r, next, rest, frames, last := ForwardRequests(s, pending);
    steps', states' := RanTakes(steps, states, s, frames);
    TakeAllOnlyOwes(s, frames);
    TakeAllLeavesReplies(s, frames);
    TookUpto(waiting + Arrived(hs), FramesOf(steps), frames, EncodeAll(last) + rest);
    LeavesSafely(steps', states', next);
    NothingLast(rest);
    match r {
      case Broken => end := Some(Lost);
      case Ended => end := Some(ClientClosed(next.tracker.MayRelease()));
      case Answered => end := if next.tracker.MayRelease() then Some(Released) else None;
      case Drained => end := None;
    }
  }

  lemma TookUpto(all: seq<byte>, before: seq<Frame>, frames: seq<Frame>, rest: seq<byte>)
    requires AllEncodable(before) && AllEncodable(frames) && all == EncodeAll(before) + (EncodeAll(frames) + rest)
    ensures AllEncodable(before + frames) && all == EncodeAll(before + frames) + rest
  {
    EncodeAllJoin(before, frames);
    Regrouped(EncodeAll(before), EncodeAll(frames), rest);
  }

  lemma {:induction false} EncodeAllJoin(a: seq<Frame>, b: seq<Frame>)
    requires AllEncodable(a) && AllEncodable(b)
    ensures AllEncodable(a + b) && EncodeAll(a + b) == EncodeAll(a) + EncodeAll(b)
    decreases |b|
  {
    if b == [] {
      assert a + b == a;
    } else {
      var n := |b| - 1;
      EncodeAllJoin(a, b[..n]);
      EncodeAllSnoc(a + b[..n], b[n]);
      EncodeAllSnoc(b[..n], b[n]);
      assert a + b == (a + b[..n]) + [b[n]] && b == b[..n] + [b[n]];
      Regrouped(EncodeAll(a), EncodeAll(b[..n]), EncodeFrame(b[n]));
    }
  }

  lemma TakeOnlyOwes(s: Session, f: Frame)
    requires Take(s, f).Went? && Take(s, f).session.tracker.MayRelease()
    ensures s.tracker.MayRelease()
  {
  }

  /** Taking messages never makes a connection releasable that was not. */
  lemma {:induction false} TakeAllOnlyOwes(s: Session, frames: seq<Frame>)
    requires TakeAll(s, frames).Went?
    ensures TakeAll(s, frames).session.tracker.MayRelease() ==> s.tracker.MayRelease()
    decreases |frames|
  {
    if frames != [] && TakeAll(s, frames).session.tracker.MayRelease() {
      TakeOnlyOwes(TakeAll(s, frames[..|frames| - 1]).session, frames[|frames| - 1]);
      TakeAllOnlyOwes(s, frames[..|frames| - 1]);
    }
  }

  lemma {:induction false} TakeAllLeavesReplies(s: Session, frames: seq<Frame>)
    requires TakeAll(s, frames).Went?
    ensures TakeAll(s, frames).session.outbox == s.outbox
    decreases |frames|
  {
    if frames != [] {
      TakeAllLeavesReplies(s, frames[..|frames| - 1]);
      TakeAtServer(TakeAll(s, frames[..|frames| - 1]).session, frames[|frames| - 1]);
    }
  }

  /** `relay_replies`, as part of a run.  When it fails, nothing of what it read has been sent. */
  method Relaying(ghost waiting: seq<byte>, ghost hs: seq<Happening>, s: Session, ghost pending: seq<byte>,
                  ghost steps: seq<Step>, ghost states: seq<Session>)
    returns (failed: bool, released: bool, next: Session, ghost steps': seq<Step>, ghost states': seq<Session>)
    requires Upto(waiting, hs, steps, states, s, pending) && NoneMissed(s) && Unreleased(steps, states, |steps|)
    ensures Upto(waiting, hs, steps', states', next, pending)
    ensures Suffix(next.outbox, s.outbox) && (!failed && !released ==> next.outbox == [])
    ensures failed ==> next == s && BadReplies(s)
    ensures Unreleased(steps', states', if released then |steps'| - 1 else |steps'|)
    ensures released ==> !failed && next.tracker.MayRelease() && SafeToRelease(next) && next.answered > 0
    ensures !failed && !released ==> NoneMissed(next)
  {
    RanInv(steps, states, s);
    ghost var k;
    failed, released, next, k := RelayReplies(s);
    if failed {
      next, steps', states' := s, steps, states;
    } else {
      steps', states' := RanRelays(steps, states, s, k);
    }
  }
}
