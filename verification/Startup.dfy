/** Startup packets (crates/protocol/src/startup.rs). */
module Startup {
  import opened Numbers
  import opened Framing
  import opened Utf8

  const SSL_REQUEST_CODE := 80_877_103
  const GSSENC_REQUEST_CODE := 80_877_104
  const CANCEL_REQUEST_CODE := 80_877_102
  const SPECIAL_REQUEST_MAJOR := 1234
  const SUPPORTED_MAJOR := 3
  const CODE_LEN := 4
  const CANCEL_KEY_LEN := 8

  type u16 = n: int | 0 <= n < 0x1_0000
  type i32 = n: int | -0x8000_0000 <= n <= I32_MAX

  /** A name and its value. */
  datatype Parameter = Parameter(name: seq<byte>, value: seq<byte>)

  datatype StartupRequest =
    | Ssl
    | GssEnc
    | Cancel(processId: i32, secretKey: i32)
    | Startup(major: u16, minor: u16, parameters: seq<Parameter>)

  datatype StartupError =
    | UnknownRequestCode(code: i32)
    | UnsupportedProtocolVersion(badMajor: u16, badMinor: u16)
    | MalformedPacket
    | InvalidUtf8

  datatype Outcome<T> = Ok(value: T) | Err(error: StartupError)

  datatype Taken = Taken(text: seq<byte>, rest: seq<byte>) | NotTaken(error: StartupError)

  // -------------------------------------------------------------------- encoding

  function VersionCode(major: u16, minor: u16): (r: seq<byte>)
    ensures |r| == CODE_LEN
  {
    [major / 256, major % 256, minor / 256, minor % 256]
  }

  function EncodeParameters(ps: seq<Parameter>): seq<byte> {
    if ps == [] then [0]
    else ps[0].name + [0] + (ps[0].value + [0] + EncodeParameters(ps[1..]))
  }

  /** `encode_startup`, before the length is put in front. */
  function EncodeBody(r: StartupRequest): seq<byte> {
    match r
    case Ssl => PutI32(SSL_REQUEST_CODE)
    case GssEnc => PutI32(GSSENC_REQUEST_CODE)
    case Cancel(pid, key) => PutI32(CANCEL_REQUEST_CODE) + PutI32(pid) + PutI32(key)
    case Startup(major, minor, ps) => VersionCode(major, minor) + EncodeParameters(ps)
  }

  // -------------------------------------------------------------------- decoding

  function TakeCString(bytes: seq<byte>): Taken {
    var end := FirstNul(bytes);
    if end.None? then NotTaken(MalformedPacket)
    else if !ValidUtf8(bytes[..end.value]) then NotTaken(InvalidUtf8)
    else Taken(bytes[..end.value], bytes[end.value + 1..])
  }

  function DecodeParameters(rest: seq<byte>): Outcome<seq<Parameter>>
    decreases |rest|
  {
    if rest == [] then Err(MalformedPacket)
    else if rest == [0] then Ok([])
    else if rest[0] == 0 then Err(MalformedPacket)
    else
      var name := TakeCString(rest);
      if name.NotTaken? then Err(name.error) else
      var value := TakeCString(name.rest);
      if value.NotTaken? then Err(value.error) else
      var more := DecodeParameters(value.rest);
      if more.Err? then more else Ok([Parameter(name.text, value.text)] + more.value)
  }

  function DecodeBody(body: seq<byte>): Outcome<StartupRequest> {
    if |body| < CODE_LEN then Err(MalformedPacket)
    else
      var code, rest := I32(body[..CODE_LEN]), body[CODE_LEN..];
      if code == SSL_REQUEST_CODE then (if rest == [] then Ok(Ssl) else Err(MalformedPacket))
      else if code == GSSENC_REQUEST_CODE then (if rest == [] then Ok(GssEnc) else Err(MalformedPacket))
      else if code == CANCEL_REQUEST_CODE then
        if |rest| == CANCEL_KEY_LEN then Ok(Cancel(I32(rest[..4]), I32(rest[4..]))) else Err(MalformedPacket)
      else
        var major, minor := body[0] as int * 256 + body[1] as int, body[2] as int * 256 + body[3] as int;
        if major == SPECIAL_REQUEST_MAJOR then Err(UnknownRequestCode(code))
        else if major != SUPPORTED_MAJOR then Err(UnsupportedProtocolVersion(major, minor))
        else
          var ps := DecodeParameters(rest);
          if ps.Err? then Err(ps.error) else Ok(Startup(major, minor, ps.value))
  }

  // ------------------------------------------------------------------ round trips

  /** Text that survives the wire: UTF-8 without a zero byte. */
  ghost predicate Plain(text: seq<byte>) { ValidUtf8(text) && 0 !in text }

  ghost predicate WellFormed(r: StartupRequest) {
    r.Startup? ==>
      && r.major == SUPPORTED_MAJOR
      && forall k :: 0 <= k < |r.parameters| ==>
           Plain(r.parameters[k].name) && r.parameters[k].name != [] && Plain(r.parameters[k].value)
  }

  lemma TakeOfText(text: seq<byte>, rest: seq<byte>)
    requires Plain(text)
    ensures TakeCString(text + [0] + rest) == Taken(text, rest)
  {
    var s := text + [0] + rest;
    NulAfterText(text, rest);
    assert s[..|text|] == text && s[|text| + 1..] == rest;
  }

  lemma {:induction false} DecodeOfEncodedParameters(ps: seq<Parameter>)
    requires forall k :: 0 <= k < |ps| ==> Plain(ps[k].name) && ps[k].name != [] && Plain(ps[k].value)
    ensures DecodeParameters(EncodeParameters(ps)) == Ok(ps)
    decreases |ps|
  {
    if ps != [] {
      var more := EncodeParameters(ps[1..]);
      var rest := ps[0].value + [0] + more;
      TakeOfText(ps[0].name, rest);
      TakeOfText(ps[0].value, more);
      DecodeOfEncodedParameters(ps[1..]);
      var all := EncodeParameters(ps);
      assert all == ps[0].name + [0] + rest;
      assert all[0] == ps[0].name[0] && ps[0].name[0] in ps[0].name;
      assert ps == [Parameter(ps[0].name, ps[0].value)] + ps[1..];
    }
  }

  /** What the decoder accepts is exactly the encoding of what it answers, and well formed. */
  lemma {:induction false} EncodeOfDecodedParameters(rest: seq<byte>)
    requires DecodeParameters(rest).Ok?
    ensures EncodeParameters(DecodeParameters(rest).value) == rest
    ensures forall p :: p in DecodeParameters(rest).value ==> Plain(p.name) && p.name != [] && Plain(p.value)
    decreases |rest|
  {
    if rest != [0] {
      var name := TakeCString(rest);
      var value := TakeCString(name.rest);
      var more := DecodeParameters(value.rest);
      EncodeOfDecodedParameters(value.rest);
      TextAndRest(rest);
      TextAndRest(name.rest);
      var ps := [Parameter(name.text, value.text)] + more.value;
      assert DecodeParameters(rest).value == ps;
      assert ps[1..] == more.value;
    }
  }

  lemma TextAndRest(bytes: seq<byte>)
    requires TakeCString(bytes).Taken?
    ensures var t := TakeCString(bytes);
            bytes == t.text + [0] + t.rest && Plain(t.text) && |t.rest| < |bytes| && (t.text == [] <==> bytes[0] == 0)
  {
  }

  lemma CodeOfVersion(major: u16, minor: u16)
    requires major == SUPPORTED_MAJOR
    ensures I32(VersionCode(major, minor)) == major * 0x1_0000 + minor
  {
  }

  lemma DecodeOfEncode(r: StartupRequest)
    requires WellFormed(r)
    ensures DecodeBody(EncodeBody(r)) == Ok(r)
  {
    match r
    case Ssl => DecodeOfCode(SSL_REQUEST_CODE);
    case GssEnc => DecodeOfCode(GSSENC_REQUEST_CODE);
    case Cancel(pid, key) => DecodeOfCancel(pid, key);
    case Startup(major, minor, ps) => DecodeOfStartup(major, minor, ps);
  }

  lemma DecodeOfCode(code: i32)
    ensures |PutI32(code)| == CODE_LEN && I32(PutI32(code)[..CODE_LEN]) == code && PutI32(code)[CODE_LEN..] == []
  {
    I32OfPut(code);
    assert PutI32(code)[..CODE_LEN] == PutI32(code);
  }

  lemma DecodeOfCancel(pid: i32, key: i32)
    ensures DecodeBody(EncodeBody(Cancel(pid, key))) == Ok(Cancel(pid, key))
  {
    var body := EncodeBody(Cancel(pid, key));
    I32OfPut(CANCEL_REQUEST_CODE);
    I32OfPut(pid);
    I32OfPut(key);
    assert body[..CODE_LEN] == PutI32(CANCEL_REQUEST_CODE);
    var rest := body[CODE_LEN..];
    assert rest[..4] == PutI32(pid) && rest[4..] == PutI32(key);
  }

  lemma DecodeOfStartup(major: u16, minor: u16, ps: seq<Parameter>)
    requires WellFormed(Startup(major, minor, ps))
    ensures DecodeBody(EncodeBody(Startup(major, minor, ps))) == Ok(Startup(major, minor, ps))
  {
    DecodeOfEncodedParameters(ps);
    CodeOfVersion(major, minor);
    DecodeAfterVersion(major, minor, EncodeParameters(ps));
  }

  lemma DecodeAfterVersion(major: u16, minor: u16, rest: seq<byte>)
    requires major == SUPPORTED_MAJOR && DecodeParameters(rest).Ok?
    requires I32(VersionCode(major, minor)) == major * 0x1_0000 + minor
    ensures DecodeBody(VersionCode(major, minor) + rest) == Ok(Startup(major, minor, DecodeParameters(rest).value))
  {
    var body := VersionCode(major, minor) + rest;
    assert body[..CODE_LEN] == VersionCode(major, minor);
    assert body[CODE_LEN..] == rest;
    assert body[0] == 0 && body[1] == 3 && body[2] == minor / 256 && body[3] == minor % 256;
  }

  /** What decodes as a startup message is well formed. */
  lemma DecodedIsWellFormed(body: seq<byte>)
    requires DecodeBody(body).Ok?
    ensures WellFormed(DecodeBody(body).value)
  {
    var r := DecodeBody(body).value;
    if r.Startup? {
      var rest := body[CODE_LEN..];
      EncodeOfDecodedParameters(rest);
      ParametersAreWellFormed(r.parameters);
    }
  }

  lemma ParametersAreWellFormed(ps: seq<Parameter>)
    requires forall p :: p in ps ==> Plain(p.name) && p.name != [] && Plain(p.value)
    ensures forall k :: 0 <= k < |ps| ==> Plain(ps[k].name) && ps[k].name != [] && Plain(ps[k].value)
  {
    forall k | 0 <= k < |ps| ensures Plain(ps[k].name) && ps[k].name != [] && Plain(ps[k].value) {
      assert ps[k] in ps;
    }
  }

  /** A request survives the wire exactly when it is well formed: major version 3, names that are
      not empty, and no zero byte in a name or a value. */
  lemma RoundTripIff(r: StartupRequest)
    ensures DecodeBody(EncodeBody(r)) == Ok(r) <==> WellFormed(r)
  {
    var body := EncodeBody(r);
    if WellFormed(r) {
      DecodeOfEncode(r);
    } else if DecodeBody(body).Ok? {
      DecodedIsWellFormed(body);
    }
  }

  /** The wire form is canonical: every accepted packet is the encoding of what it means. */
  lemma EncodeOfDecode(body: seq<byte>)
    requires DecodeBody(body).Ok?
    ensures EncodeBody(DecodeBody(body).value) == body
  {
    var code, rest := body[..CODE_LEN], body[CODE_LEN..];
    assert body == code + rest;
    PutOfI32(code);
    var r := DecodeBody(body).value;
    match r
    case Cancel(_, _) =>
      PutOfI32(rest[..4]);
      PutOfI32(rest[4..]);
      assert rest == rest[..4] + rest[4..];
    case Startup(major, minor, ps) =>
      EncodeOfDecodedParameters(rest);
      LastDigit(body[0] as int, body[1]);
      LastDigit(body[2] as int, body[3]);
      assert VersionCode(major, minor) == code;
    case _ =>
  }

  // ----------------------------------------------------------------------- errors

  /** Names and values, each terminated. */
  function Pairs(ps: seq<Parameter>): seq<byte> {
    if ps == [] then [] else ps[0].name + [0] + (ps[0].value + [0] + Pairs(ps[1..]))
  }

  lemma PairsFirst(p: Parameter, more: seq<byte>, tail: seq<byte>)
    ensures p.name + [0] + (p.value + [0] + more) + tail == p.name + [0] + (p.value + [0] + (more + tail))
  {
    assert p.value + [0] + more + tail == p.value + [0] + (more + tail);
  }

  lemma OneParameter(p: Parameter, more: seq<byte>)
    requires Plain(p.name) && p.name != [] && Plain(p.value) && DecodeParameters(more).Err?
    ensures DecodeParameters(p.name + [0] + (p.value + [0] + more)) == DecodeParameters(more)
  {
    NameFirst(p.name, p.value + [0] + more);
    TakeOfText(p.value, more);
  }

  /** An error behind well-formed parameters is the answer. */
  lemma {:induction false} ErrorsSurface(ps: seq<Parameter>, tail: seq<byte>)
    requires forall k :: 0 <= k < |ps| ==> Plain(ps[k].name) && ps[k].name != [] && Plain(ps[k].value)
    requires DecodeParameters(tail).Err?
    ensures DecodeParameters(Pairs(ps) + tail) == DecodeParameters(tail)
    decreases |ps|
  {
    if ps == [] {
      assert Pairs(ps) + tail == tail;
    } else {
      ErrorsSurface(ps[1..], tail);
      PairsFirst(ps[0], Pairs(ps[1..]), tail);
      OneParameter(ps[0], Pairs(ps[1..]) + tail);
    }
  }

  lemma TakeFails(bytes: seq<byte>, text: seq<byte>, rest: seq<byte>)
    ensures 0 !in bytes ==> TakeCString(bytes) == NotTaken(MalformedPacket)
    ensures 0 !in text && !ValidUtf8(text) ==> TakeCString(text + [0] + rest) == NotTaken(InvalidUtf8)
  {
    if 0 !in text {
      NulAfterText(text, rest);
      assert (text + [0] + rest)[..|text|] == text;
    }
  }

  /** What is wrong with parameters, on their bytes. */
  lemma ParameterErrorsMean(tail: seq<byte>, name: seq<byte>, value: seq<byte>)
    requires name != [] && 0 !in name && 0 !in value
    ensures 0 !in tail ==> DecodeParameters(tail) == Err(MalformedPacket)
    ensures tail != [] ==> DecodeParameters([0] + tail) == Err(MalformedPacket)
    ensures !ValidUtf8(name) ==> DecodeParameters(name + [0] + tail) == Err(InvalidUtf8)
    ensures ValidUtf8(name) && 0 !in tail ==> DecodeParameters(name + [0] + tail) == Err(MalformedPacket)
    ensures ValidUtf8(name) && !ValidUtf8(value) ==>
              DecodeParameters(name + [0] + (value + [0] + tail)) == Err(InvalidUtf8)
  {
    TakeFails(tail, name, tail);
    TakeFails(tail, value, tail);
    NameFirst(name, tail);
    NameFirst(name, value + [0] + tail);
  }

  /** A name is read first. */
  lemma NameFirst(name: seq<byte>, rest: seq<byte>)
    requires name != [] && 0 !in name
    ensures (name + [0] + rest)[0] != 0 && name + [0] + rest != [0]
    ensures ValidUtf8(name) ==> TakeCString(name + [0] + rest) == Taken(name, rest)
  {
    assert (name + [0] + rest)[0] == name[0] && name[0] in name;
    if ValidUtf8(name) {
      TakeOfText(name, rest);
    }
  }

  // ------------------------------------------------------------------ on the wire

  /** The bytes of each request: the codes 1234.5679, 1234.5680 and 1234.5678, the process and its key
      behind the last; or the version and then name, zero, value, zero for each parameter, and a zero. */
  lemma RequestBytes(pid: i32, key: i32, minor: u16, p: Parameter, ps: seq<Parameter>)
    ensures EncodeBody(Ssl) == [0x04, 0xD2, 0x16, 0x2F]
    ensures EncodeBody(GssEnc) == [0x04, 0xD2, 0x16, 0x30]
    ensures EncodeBody(Cancel(pid, key)) == [0x04, 0xD2, 0x16, 0x2E] + PutI32(pid) + PutI32(key)
    ensures EncodeBody(Startup(3, minor, [])) == [0, 3, minor / 256, minor % 256, 0]
    ensures EncodeBody(Startup(3, minor, [p])) == [0, 3, minor / 256, minor % 256] + p.name + [0] + p.value + [0, 0]
    ensures EncodeParameters([p] + ps) == p.name + [0] + p.value + [0] + EncodeParameters(ps)
  {
    CodeBytes(0x2F);
    CodeBytes(0x30);
    CodeBytes(0x2E);
    assert ([p] + ps)[1..] == ps && [p][1..] == [];
    assert EncodeParameters([p]) == p.name + [0] + (p.value + [0] + [0]);
    assert p.value + [0] + [0] == p.value + [0, 0];
  }

  /** What is refused, on the bytes: a packet without a code; anything behind a request for encryption;
      a cancel request whose keys are not eight bytes; a code of the special version that is none of the
      three; and any other version than three. */
  lemma RefusalsMean(body: seq<byte>)
    ensures |body| < 4 ==> DecodeBody(body) == Err(MalformedPacket)
    ensures |body| >= 4 && body[..3] == [0x04, 0xD2, 0x16] && body[3] in {0x2F, 0x30} ==>
              DecodeBody(body)
              == if |body| > 4 then Err(MalformedPacket) else Ok(if body[3] == 0x2F then Ssl else GssEnc)
    ensures |body| >= 4 && body[..4] == [0x04, 0xD2, 0x16, 0x2E] ==>
              DecodeBody(body) == if |body| != 12 then Err(MalformedPacket)
                                  else Ok(Cancel(Announced(body[4..8]), Announced(body[8..])))
    ensures |body| >= 4 && body[..2] == [0x04, 0xD2] && !(body[2] == 0x16 && body[3] in {0x2E, 0x2F, 0x30}) ==>
              DecodeBody(body) == Err(UnknownRequestCode(Announced(body[..4])))
    ensures |body| >= 4 && body[..2] !in {[0x04, 0xD2], [0, 3]} ==>
              DecodeBody(body)
              == Err(UnsupportedProtocolVersion(body[0] as int * 256 + body[1] as int,
                                                body[2] as int * 256 + body[3] as int))
  {
    if |body| >= 4 {
      AnnouncedIsRead(body[..4]);
      FrontBytes(body);
      if |body| == 12 {
        AnnouncedIsRead(body[4..8]);
        AnnouncedIsRead(body[8..]);
        assert body[4..][..4] == body[4..8] && body[4..][4..] == body[8..];
      }
    }
  }

  lemma FrontBytes(body: seq<byte>)
    requires |body| >= 4
    ensures body[..2] == [body[0], body[1]] && body[..3] == [body[0], body[1], body[2]]
    ensures body[..4] == [body[0], body[1], body[2], body[3]]
  {
  }

  lemma CodeBytes(low: byte)
    ensures PutI32(0x04D2_1600 + low as int) == [0x04, 0xD2, 0x16, low]
  {
    LastDigit(0x04D216, low);
  }

  /** A startup packet read from a buffer: the frame, then what its body means. */
  function ReadStartup(buf: seq<byte>, maxLen: nat): Decoded<Outcome<StartupRequest>> {
    match DecodeStartupFrame(buf, maxLen)
    case Incomplete => Incomplete
    case Malformed(e) => Malformed(e)
    case Message(body, rest) => Message(DecodeBody(body), rest)
  }

  /** `encode_startup`. */
  function WriteStartup(r: StartupRequest): seq<byte>
    requires Encodable(EncodeBody(r))
  {
    EncodeStartupFrame(EncodeBody(r))
  }

  lemma BodyHasCode(r: StartupRequest)
    ensures |EncodeBody(r)| >= CODE_LEN
  {
  }

  /** On the wire: a request written and read back, with anything behind it, is that request with the
      rest left unread, if and only if it is well formed. */
  lemma WireRoundTripIff(r: StartupRequest, rest: seq<byte>, maxLen: nat)
    requires Encodable(EncodeBody(r)) && |EncodeBody(r)| + LENGTH_FIELD_LEN <= maxLen
    ensures ReadStartup(WriteStartup(r) + rest, maxLen) == Message(Ok(r), rest) <==> WellFormed(r)
  {
    BodyHasCode(r);
    DecodeOfEncodeStartup(EncodeBody(r), rest, maxLen);
    RoundTripIff(r);
  }

  // ---------------------------------------------------------- the imperative form

  /** `decode_parameters`: a loop over a shrinking slice. */
  method ReadParameters(bytes: seq<byte>) returns (r: Outcome<seq<Parameter>>)
    ensures r == DecodeParameters(bytes)
  {
    var rest := bytes;
    var parameters: seq<Parameter> := [];
    NoneYet(DecodeParameters(bytes));
    while true
      invariant DecodeParameters(bytes) ==
                (if DecodeParameters(rest).Err? then DecodeParameters(rest)
                 else Ok(parameters + DecodeParameters(rest).value))
      decreases |rest|
    {
      if rest == [] { return Err(MalformedPacket); }
      if rest == [0] {
        assert parameters + [] == parameters;
        return Ok(parameters);
      }
      if rest[0] == 0 { return Err(MalformedPacket); }
      var name := TakeCString(rest);
      if name.NotTaken? { return Err(name.error); }
      var value := TakeCString(name.rest);
      if value.NotTaken? { return Err(value.error); }
      PushedParameter(parameters, Parameter(name.text, value.text), DecodeParameters(value.rest));
      parameters := parameters + [Parameter(name.text, value.text)];
      rest := value.rest;
    }
  }

  lemma NoneYet(all: Outcome<seq<Parameter>>)
    ensures all.Ok? ==> [] + all.value == all.value
  {
  }

  lemma PushedParameter(ps: seq<Parameter>, p: Parameter, more: Outcome<seq<Parameter>>)
    ensures more.Ok? ==> ps + ([p] + more.value) == (ps + [p]) + more.value
  {
  }
}
