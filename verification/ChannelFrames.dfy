/** Request and response frames of the authenticated channel (channel.py): a canonical document around the base64 of an
    application line, with a digest, a proof, a sequence number and a nonce. */
module ChannelFrames {
  import opened Json
  import opened Base64
  import opened JsonLine

  type Bytes = seq<Byte>

  function ChannelProtocol(): string { "ameme.agent-local-node.channel.v1" }

  function ApplicationProtocol(): string { "ameme.agent-local-node.v1" }

  const MAX_REQUEST_BYTES: nat := 65_536
  const MAX_RESPONSE_BYTES: nat := 524_288
  const MAX_CHANNEL_LINE_BYTES: nat := 786_432
  const MAX_SEQUENCE: int := 9_223_372_036_854_775_807

  /** A validated application request: its id, its idempotency slot, and the rest of it. */
  datatype Request = Request(requestId: string, slot: string, content: Bytes)

  datatype Response = Response(requestId: string, content: Bytes)

  /** What the frames take from elsewhere: SHA-256 and HMAC as tagged hexadecimal text, and the validators of the
      application protocol (parse_request_line, parse_strict_json_line, parse_response_line). */
  datatype Environment = Environment(
    sha: Bytes -> string,
    mac: (Bytes, string) -> string,
    request: Bytes -> Option<Request>,
    strict: Bytes -> bool,
    response: (Bytes, Request) -> Option<Response>)

  datatype Code = InvalidMessage | AuthFailed | BindingFailed | SequenceInvalid | Replay | PayloadInvalid | NotCanonical

  datatype Outcome<+T> = Fine(value: T) | Refused(code: Code)

  // ---- the fields ----

  predicate HexDigit(c: char) { '0' <= c <= '9' || 'a' <= c <= 'f' }

  /** A tag and 64 hexadecimal digits. */
  predicate Tagged(tag: string, s: string) {
    |s| == |tag| + 64 && tag <= s && forall i :: |tag| <= i < |s| ==> HexDigit(s[i])
  }

  predicate IsNonce(s: string) { Tagged("nonce_", s) }

  predicate IsSlot(s: string) { Tagged("idem_", s) }

  predicate IsDigest(s: string) { Tagged("sha256_", s) }

  predicate IsProof(s: string) { Tagged("hmac_", s) }

  predicate Alphanumeric(c: char) { '0' <= c <= '9' || 'a' <= c <= 'z' || 'A' <= c <= 'Z' }

  predicate IsIdentifier(s: string) {
    && 0 < |s| <= 128
    && Alphanumeric(s[0])
    && forall i :: 0 <= i < |s| ==> Alphanumeric(s[i]) || s[i] == '.' || s[i] == '_' || s[i] == ':' || s[i] == '-'
  }

  predicate IsSequence(n: int) { 1 <= n <= MAX_SEQUENCE }

  predicate IsSecret(key: Bytes) { 32 <= |key| <= 256 }

  /** SHA-256 and HMAC give tagged hexadecimal text, and a validated request has a proper idempotency slot. */
  ghost predicate Standard(env: Environment) {
    && (forall bytes :: IsDigest(env.sha(bytes)))
    && (forall key, text :: IsProof(env.mac(key, text)))
    && (forall bytes :: env.request(bytes).Some? ==> IsSlot(env.request(bytes).value.slot))
  }

  // ---- frames ----

  function TypeOf(kind: Kind): string { if kind.RequestFrame? then "request" else "response" }

  datatype Kind = RequestFrame | ResponseFrame {
    function ProofLabel(): string { if RequestFrame? then "request-frame" else "response-frame" }

    function MaxApplication(): nat { if RequestFrame? then MAX_REQUEST_BYTES else MAX_RESPONSE_BYTES }
  }

  /** The keys of a frame in canonical order, the proof's key last but two in requests and last but three in responses. */
  function Keys(kind: Kind): (keys: seq<string>)
    ensures |keys| == (if kind.RequestFrame? then 10 else 11) && keys[PROOF_AT] == "proof"
  {
    match kind
    case RequestFrame =>
      ["application_b64", "application_digest", "application_protocol", "channel_protocol", "idempotency_ref",
       "message_type", "nonce", "proof", "sequence", "session_id"]
    case ResponseFrame =>
      ["application_b64", "application_digest", "application_protocol", "channel_protocol", "idempotency_ref",
       "message_type", "nonce", "proof", "request_nonce", "sequence", "session_id"]
  }

  const PROOF_AT: nat := 7

  /** The keys the proof covers. */
  function SignedKeys(kind: Kind): seq<string> { Keys(kind)[..PROOF_AT] + Keys(kind)[PROOF_AT + 1..] }

  /** The values of a frame; the request's nonce is there in responses only. */
  datatype Frame = Frame(
    payload: Scalar, digest: Scalar, protocol: Scalar, channel: Scalar, slot: Scalar, messageType: Scalar, nonce: Scalar,
    proof: Scalar, requestNonce: Option<Scalar>, sequence: Scalar, session: Scalar)
  {
    function Kind(): Kind { if requestNonce.None? then RequestFrame else ResponseFrame }

    /** In the order of the keys. */
    function Values(): (values: seq<Scalar>)
      ensures |values| == |Keys(Kind())|
    {
      [payload, digest, protocol, channel, slot, messageType, nonce, proof]
        + (match requestNonce case None => [] case Some(asked) => [asked]) + [sequence, session]
    }

    function SignedValues(): (values: seq<Scalar>)
      ensures |values| == |SignedKeys(Kind())|
    {
      Values()[..PROOF_AT] + Values()[PROOF_AT + 1..]
    }
  }

  /** The frame with these values. */
  function Assemble(v: seq<Scalar>): Frame
    requires |v| == 10 || |v| == 11
  {
    if |v| == 10 then Frame(v[0], v[1], v[2], v[3], v[4], v[5], v[6], v[7], None, v[8], v[9])
    else Frame(v[0], v[1], v[2], v[3], v[4], v[5], v[6], v[7], Some(v[8]), v[9], v[10])
  }

  /** The values of a document that has exactly the keys. */
  function ValuesOf(keys: seq<string>, document: Document): (values: Option<seq<Scalar>>)
    ensures values.Some? ==> |values.value| == |keys| && Pairs(document, keys, values.value)
  {
    if (forall key :: key in document ==> key in keys) && (forall i :: 0 <= i < |keys| ==> keys[i] in document) then
      Some(seq(|keys|, i requires 0 <= i < |keys| => document[keys[i]]))
    else None
  }

  /** Exactly the keys of the frame, or no frame. */
  function FrameOf(kind: Kind, document: Document): Option<Frame> {
    match ValuesOf(Keys(kind), document)
    case None => None
    case Some(values) => Some(Assemble(values))
  }

  lemma RequestKeysAreOrdered()
    ensures InOrder(Keys(RequestFrame))
  {
    var keys := Keys(RequestFrame);
    assert BeforeAt(keys[0], keys[1], 12) && BeforeAt(keys[1], keys[2], 12) && BeforeAt(keys[2], keys[3], 0);
    assert BeforeAt(keys[3], keys[4], 0) && BeforeAt(keys[4], keys[5], 0) && BeforeAt(keys[5], keys[6], 0);
    assert BeforeAt(keys[6], keys[7], 0) && BeforeAt(keys[7], keys[8], 0) && BeforeAt(keys[8], keys[9], 2);
  }

  lemma ResponseKeysAreOrdered()
    ensures InOrder(Keys(ResponseFrame))
  {
    var keys := Keys(ResponseFrame);
    assert BeforeAt(keys[0], keys[1], 12) && BeforeAt(keys[1], keys[2], 12) && BeforeAt(keys[2], keys[3], 0);
    assert BeforeAt(keys[3], keys[4], 0) && BeforeAt(keys[4], keys[5], 0) && BeforeAt(keys[5], keys[6], 0);
    assert BeforeAt(keys[6], keys[7], 0) && BeforeAt(keys[7], keys[8], 0) && BeforeAt(keys[8], keys[9], 0);
    assert BeforeAt(keys[9], keys[10], 2);
  }

  /** The key lists are in canonical order, without repetition, and the proof covers all the other keys. */
  lemma KeysAreCanonical(kind: Kind)
    ensures InOrder(Keys(kind)) && Distinct(Keys(kind))
    ensures forall key :: key in SignedKeys(kind) <==> key in Keys(kind) && key != "proof"
  {
    hide Keys;
    if kind.RequestFrame? {
      RequestKeysAreOrdered();
    } else {
      ResponseKeysAreOrdered();
    }
    InOrderMeansDistinct(Keys(kind), PROOF_AT);
  }

  lemma KeyIsShort(kind: Kind, i: nat)
    requires i < |Keys(kind)|
    ensures |Keys(kind)[i]| <= 20
  {
  }

  lemma PairsGiveTheValues(keys: seq<string>, document: Document, values: seq<Scalar>)
    requires |keys| == |values| && Pairs(document, keys, values)
    ensures ValuesOf(keys, document) == Some(values)
  {
    assert ValuesOf(keys, document).Some?;
    assert ValuesOf(keys, document).value == values;
  }

  /** A document with the frame's keys and values is that frame. */
  lemma PairsMakeTheFrame(frame: Frame, document: Document)
    requires Pairs(document, Keys(frame.Kind()), frame.Values())
    ensures FrameOf(frame.Kind(), document) == Some(frame)
  {
    hide Keys;
    PairsGiveTheValues(Keys(frame.Kind()), document, frame.Values());
  }

  // ---- building ----

  /** What the proof of a frame is taken of: the label of its kind, and the canonical text of every other field. */
  function ProofText(frame: Frame): string {
    frame.Kind().ProofLabel() + "\0" + Object(SignedKeys(frame.Kind()), frame.SignedValues())
  }

  /** The proof over every field but the proof itself. */
  function ProofOf(env: Environment, key: Bytes, frame: Frame): string {
    env.mac(key, ProofText(frame))
  }

  /** canonical_json_bytes of the frame. */
  function Line(frame: Frame): string { Object(Keys(frame.Kind()), frame.Values()) }

  /** The frame without its proof (an empty one stands for it). */
  function Draft(env: Environment, application: Bytes, sessionId: string, sequence: int, nonce: string, slot: string,
                 requestNonce: Option<string>): Frame
  {
    Frame(Text(Encode(application)), Text(env.sha(application)), Text(ApplicationProtocol()), Text(ChannelProtocol()), Text(slot),
          Text(TypeOf(if requestNonce.None? then RequestFrame else ResponseFrame)), Text(nonce), Text(""),
          (match requestNonce case None => None case Some(asked) => Some(Text(asked))), Number(sequence), Text(sessionId))
  }

  function Sign(env: Environment, key: Bytes, frame: Frame): Outcome<Frame> {
    if !IsSecret(key) then Refused(AuthFailed)
    else if exists v :: v in frame.SignedValues() && !Safe(v) then Refused(NotCanonical)
    else Fine(frame.(proof := Text(ProofOf(env, key, frame))))
  }

  /** build_request_frame; `Line` of the frame is what it returns. */
  function BuildRequest(env: Environment, application: Bytes, key: Bytes, sessionId: string, sequence: int, nonce: string): Outcome<Frame> {
    if application == [] || |application| > MAX_REQUEST_BYTES then Refused(PayloadInvalid)
    else
      match env.request(application)
      case None => Refused(PayloadInvalid)
      case Some(request) =>
        if !IsIdentifier(sessionId) then Refused(InvalidMessage)
        else if !IsSequence(sequence) then Refused(SequenceInvalid)
        else if !IsNonce(nonce) then Refused(InvalidMessage)
        else if !IsSlot(request.slot) then Refused(InvalidMessage)
        else Sign(env, key, Draft(env, application, sessionId, sequence, nonce, request.slot, None))
  }

  /** The fields of a request frame that its response repeats. */
  datatype Asked = Asked(sessionId: string, sequence: int, nonce: string, slot: string)

  /** build_response_frame. */
  function BuildResponse(env: Environment, application: Bytes, asked: Asked, key: Bytes, nonce: string): Outcome<Frame> {
    if application == [] || |application| > MAX_RESPONSE_BYTES then Refused(PayloadInvalid)
    else if !env.strict(application) then Refused(PayloadInvalid)
    else if !IsIdentifier(asked.sessionId) then Refused(InvalidMessage)
    else if !IsSequence(asked.sequence) then Refused(SequenceInvalid)
    else if !IsNonce(asked.nonce) || !IsNonce(nonce) || !IsSlot(asked.slot) then Refused(InvalidMessage)
    else Sign(env, key, Draft(env, application, asked.sessionId, asked.sequence, nonce, asked.slot, Some(asked.nonce)))
  }

  // ---- checking ----

  /** An accepted frame, its application line, and the validated message in it. */
  datatype Opened<+T> = Opened(frame: Frame, application: Bytes, message: T)

  /** The proof, the payload and its digest. */
  function Open(env: Environment, key: Bytes, frame: Frame): Outcome<Bytes> {
    if !IsSecret(key) then Refused(AuthFailed)
    else if !frame.proof.Text? || !IsProof(frame.proof.text) then Refused(AuthFailed)
    else if frame.proof.text != ProofOf(env, key, frame) then Refused(AuthFailed)
    else if !frame.payload.Text? then Refused(PayloadInvalid)
    else
      match Decode(frame.payload.text)
      case None => Refused(PayloadInvalid)
      case Some(application) =>
        if application == [] || |application| > frame.Kind().MaxApplication() then Refused(PayloadInvalid)
        else if !frame.digest.Text? || !IsDigest(frame.digest.text) then Refused(InvalidMessage)
        else if frame.digest.text != env.sha(application) then Refused(PayloadInvalid)
        else Fine(application)
  }

  function CheckRequest(env: Environment, frame: Frame, key: Bytes, sessionId: string, sequence: int, seen: set<string>)
    : Outcome<Opened<Request>>
  {
    if frame.channel != Text(ChannelProtocol()) || frame.messageType != Text(TypeOf(RequestFrame)) || frame.session != Text(sessionId)
       || frame.protocol != Text(ApplicationProtocol()) then
      Refused(BindingFailed)
    else if !frame.sequence.Number? || !IsSequence(frame.sequence.number) || frame.sequence.number != sequence then
      Refused(SequenceInvalid)
    else if !frame.nonce.Text? || !IsNonce(frame.nonce.text) then Refused(InvalidMessage)
    else if frame.nonce.text in seen then Refused(Replay)
    else
      match Open(env, key, frame)
      case Refused(code) => Refused(code)
      case Fine(application) =>
        match env.request(application)
        case None => Refused(PayloadInvalid)
        case Some(request) =>
          if !frame.slot.Text? || !IsSlot(frame.slot.text) then Refused(InvalidMessage)
          else if frame.slot.text != request.slot then Refused(BindingFailed)
          else Fine(Opened(frame, application, request))
  }

  function CheckResponse(env: Environment, frame: Frame, asked: Asked, request: Request, key: Bytes, seen: set<string>)
    : Outcome<Opened<Response>>
  {
    if frame.channel != Text(ChannelProtocol()) || frame.messageType != Text(TypeOf(ResponseFrame)) || frame.session != Text(asked.sessionId)
       || frame.sequence != Number(asked.sequence) || frame.requestNonce != Some(Text(asked.nonce))
       || frame.slot != Text(asked.slot) || frame.protocol != Text(ApplicationProtocol()) then
      Refused(BindingFailed)
    else if !IsSequence(asked.sequence) then Refused(SequenceInvalid)
    else if !IsSlot(asked.slot) then Refused(InvalidMessage)
    else if !frame.nonce.Text? || !IsNonce(frame.nonce.text) then Refused(InvalidMessage)
    else if frame.nonce.text == asked.nonce || frame.nonce.text in seen then Refused(Replay)
    else
      match Open(env, key, frame)
      case Refused(code) => Refused(code)
      case Fine(application) =>
        match env.response(application, request)
        case None => Refused(PayloadInvalid)
        case Some(response) => Fine(Opened(frame, application, response))
  }

  /** The frame a line holds. */
  function ReadFrame(kind: Kind, line: string): Option<Frame> {
    match ParseStrict(line, MAX_CHANNEL_LINE_BYTES)
    case None => None
    case Some(document) => FrameOf(kind, document)
  }

  /** parse_request_frame. */
  function ParseRequest(env: Environment, line: string, key: Bytes, sessionId: string, sequence: int, seen: set<string>)
    : Outcome<Opened<Request>>
  {
    match ReadFrame(RequestFrame, line)
    case None => Refused(InvalidMessage)
    case Some(frame) => CheckRequest(env, frame, key, sessionId, sequence, seen)
  }

  /** parse_response_frame. */
  function ParseResponse(env: Environment, line: string, asked: Asked, request: Request, key: Bytes, seen: set<string>)
    : Outcome<Opened<Response>>
  {
    match ReadFrame(ResponseFrame, line)
    case None => Refused(InvalidMessage)
    case Some(frame) => CheckResponse(env, frame, asked, request, key, seen)
  }

  // ---- round trips ----

  lemma TaggedIsPlain(tag: string, s: string)
    requires Plain(tag) && Tagged(tag, s)
    ensures Plain(s)
  {
    assert forall i :: 0 <= i < |tag| ==> s[i] == tag[i];
  }

  lemma EncodedIsPlain(bytes: Bytes)
    ensures Plain(Encode(bytes))
  {
    forall i | 0 <= i < |Encode(bytes)| ensures PlainChar(Encode(bytes)[i]) {
      EncodingIsPlain(bytes, i);
    }
  }

  lemma DecodedTextIsPlain(text: string)
    requires Decode(text).Some?
    ensures Plain(text)
  {
    forall i | 0 <= i < |text| ensures PlainChar(text[i]) {
      DecodedIsPlain(text, i);
    }
  }

  lemma EarlyKeyIsPlain(i: nat)
    requires i < 5
    ensures Plain(Keys(RequestFrame)[i])
  {
  }

  lemma LateKeyIsPlain(i: nat)
    requires 5 <= i < |Keys(RequestFrame)|
    ensures Plain(Keys(RequestFrame)[i])
  {
  }

  lemma KeyIsPlain(kind: Kind, i: nat)
    requires i < |Keys(kind)|
    ensures Plain(Keys(kind)[i])
  {
    if i != 8 || kind.RequestFrame? {
      var k := if i > 8 && kind.ResponseFrame? then i - 1 else i;
      assert Keys(kind)[i] == Keys(RequestFrame)[k];
      if k < 5 {
        EarlyKeyIsPlain(k);
      } else {
        LateKeyIsPlain(k);
      }
    }
  }

  predicate OtherFields(frame: Frame, test: Scalar -> bool) {
    && test(frame.digest) && test(frame.protocol) && test(frame.channel) && test(frame.slot) && test(frame.messageType)
    && test(frame.nonce) && test(frame.proof) && test(frame.sequence) && test(frame.session)
    && (frame.requestNonce.Some? ==> test(frame.requestNonce.value))
  }

  /** What holds of the fields holds of the values. */
  lemma FieldsAreValues(frame: Frame, test: Scalar -> bool)
    requires OtherFields(frame, test)
    ensures forall i :: 1 <= i < |frame.Values()| ==> test(frame.Values()[i])
    ensures frame.Values()[0] == frame.payload
  {
    hide Keys;
  }

  lemma SignedAreValues(frame: Frame)
    ensures forall i :: 0 <= i < |frame.SignedValues()| ==> frame.SignedValues()[i] == frame.Values()[if i < PROOF_AT then i else i + 1]
    ensures |frame.SignedValues()| == |frame.Values()| - 1
  {
    hide Keys;
  }

  predicate PlainValue(v: Scalar) { PlainScalar(v) && Safe(v) }

  /** Every value is plain text or a safe integer. */
  predicate PlainFrame(frame: Frame) { PlainValue(frame.payload) && OtherFields(frame, PlainValue) }

  /** A frame's line, when it fits, is read back. */
  lemma LineIsReadBack(frame: Frame)
    requires PlainFrame(frame) && |Line(frame)| <= MAX_CHANNEL_LINE_BYTES
    ensures ReadFrame(frame.Kind(), Line(frame)) == Some(frame) && Utf8.Bytes(Line(frame)) == |Line(frame)|
  {
    var keys := Keys(frame.Kind());
    KeysAreCanonical(frame.Kind());
    forall i | 0 <= i < |keys| ensures Plain(keys[i]) {
      KeyIsPlain(frame.Kind(), i);
    }
    FieldsAreValues(frame, PlainValue);
    assert forall i :: 0 <= i < |frame.Values()| ==> PlainValue(frame.Values()[i]);
    hide Keys, Plain, PlainScalar, Safe;
    ObjectReadsBack(keys, frame.Values(), MAX_CHANNEL_LINE_BYTES);
    PairsMakeTheFrame(frame, ParseStrict(Line(frame), MAX_CHANNEL_LINE_BYTES).value);
  }

  /** A value that takes no more room than a session id. */
  predicate Short(v: Scalar) {
    match v
    case Text(s) => |s| <= 128
    case Number(n) => 0 <= n <= MAX_SAFE_INTEGER
  }

  lemma PowerOf16()
    ensures Power10(16) == 10_000_000_000_000_000
  {
    assert Power10(4) == 10_000;
    assert Power10(8) == 100_000_000;
    assert Power10(12) == 1_000_000_000_000;
  }

  lemma ShortMember(name: string, v: Scalar)
    requires |name| <= 20 && Short(v)
    ensures |WriteMember(Member(name, v))| <= 200
  {
    if v.Number? {
      PowerOf16();
      DigitsAreShort(v.number, 16);
    }
  }

  /** Only the payload is long. */
  lemma LineIsShort(frame: Frame)
    requires frame.payload.Text? && OtherFields(frame, Short)
    ensures |Line(frame)| <= |frame.payload.text| + 2100
  {
    FieldsAreValues(frame, Short);
    var members := Zip(Keys(frame.Kind()), frame.Values());
    forall i | 1 <= i < |members| ensures |WriteMember(members[i])| <= 200 {
      KeyIsShort(frame.Kind(), i);
      ShortMember(Keys(frame.Kind())[i], frame.Values()[i]);
    }
    KeyIsShort(frame.Kind(), 0);
    hide Keys, Short;
    assert members[0] == Member(Keys(frame.Kind())[0], frame.payload);
    assert |WriteMember(members[0])| <= 20 + 5 + |frame.payload.text|;
    LengthBound(members, 20 + 5 + |frame.payload.text|);
  }

  /** What the fields of a frame must be for it to be built. */
  ghost predicate Buildable(env: Environment, application: Bytes, sessionId: string, sequence: int, nonce: string, slot: string,
                            requestNonce: Option<string>)
  {
    && Standard(env)
    && IsIdentifier(sessionId) && 1 <= sequence <= MAX_SAFE_INTEGER && IsNonce(nonce) && IsSlot(slot)
    && (requestNonce.Some? ==> IsNonce(requestNonce.value))
  }

  function Signed(env: Environment, key: Bytes, frame: Frame): Frame { frame.(proof := Text(ProofOf(env, key, frame))) }

  /** Plain text that takes no more room than a session id. */
  predicate Modest(s: string) { Plain(s) && |s| <= 128 }

  lemma TaggedIsModest(tag: string, s: string)
    requires Plain(tag) && |tag| <= 7 && Tagged(tag, s)
    ensures Modest(s)
  {
    TaggedIsPlain(tag, s);
  }

  lemma FieldIsModest(s: string)
    requires IsNonce(s) || IsSlot(s) || IsDigest(s) || IsProof(s)
    ensures Modest(s)
  {
    if IsNonce(s) {
      TaggedIsModest("nonce_", s);
    } else if IsSlot(s) {
      TaggedIsModest("idem_", s);
    } else if IsDigest(s) {
      TaggedIsModest("sha256_", s);
    } else {
      TaggedIsModest("hmac_", s);
    }
  }

  lemma IdentifierIsModest(s: string)
    requires IsIdentifier(s)
    ensures Modest(s)
  {
  }

  lemma ConstantsAreModest()
    ensures Modest(ApplicationProtocol()) && Modest(ChannelProtocol()) && Modest(TypeOf(RequestFrame)) && Modest(TypeOf(ResponseFrame))
  {
  }

  lemma ProofIsTagged(env: Environment, key: Bytes, frame: Frame)
    requires Standard(env)
    ensures IsProof(ProofOf(env, key, frame))
  {
    hide IsProof, IsDigest, IsSlot, ProofText;
    assert ProofOf(env, key, frame) == env.mac(key, ProofText(frame));
  }

  lemma ModestFields(env: Environment, application: Bytes, key: Bytes, sessionId: string, sequence: int, nonce: string,
                     slot: string, requestNonce: Option<string>)
    requires Buildable(env, application, sessionId, sequence, nonce, slot, requestNonce)
    ensures Modest(ProofOf(env, key, Draft(env, application, sessionId, sequence, nonce, slot, requestNonce)))
    ensures Modest(env.sha(application)) && Modest(sessionId) && Modest(nonce) && Modest(slot)
    ensures requestNonce.Some? ==> Modest(requestNonce.value)
  {
    var proof := ProofOf(env, key, Draft(env, application, sessionId, sequence, nonce, slot, requestNonce));
    hide ProofOf, Draft, Modest, IsProof, IsNonce, IsSlot, IsDigest;
    ProofIsTagged(env, key, Draft(env, application, sessionId, sequence, nonce, slot, requestNonce));
    assert IsDigest(env.sha(application));
    hide Standard;
    FieldIsModest(proof);
    FieldIsModest(env.sha(application));
    FieldIsModest(nonce);
    FieldIsModest(slot);
    IdentifierIsModest(sessionId);
    if requestNonce.Some? {
      FieldIsModest(requestNonce.value);
    }
  }

  lemma ModestText(s: string)
    requires Modest(s)
    ensures PlainValue(Text(s)) && Short(Text(s))
  {
  }

  lemma FieldsArePlain(env: Environment, application: Bytes, key: Bytes, sessionId: string, sequence: int, nonce: string,
                       slot: string, requestNonce: Option<string>)
    requires Buildable(env, application, sessionId, sequence, nonce, slot, requestNonce)
    ensures var frame := Signed(env, key, Draft(env, application, sessionId, sequence, nonce, slot, requestNonce));
            PlainFrame(frame) && OtherFields(frame, Short)
  {
    ModestFields(env, application, key, sessionId, sequence, nonce, slot, requestNonce);
    ConstantsAreModest();
    EncodedIsPlain(application);
    assert PlainValue(Text(Encode(application)));
    assert PlainValue(Number(sequence)) && Short(Number(sequence));
    hide Modest, PlainValue, Short, Encode, Tagged, Standard, IsIdentifier, ProofOf, ChannelProtocol, ApplicationProtocol, TypeOf;
    forall s | Modest(s) ensures PlainValue(Text(s)) && Short(Text(s)) {
      ModestText(s);
    }
  }

  /** A signed frame fits in a channel line and is read back whole. */
  lemma SignedFrameFits(env: Environment, application: Bytes, key: Bytes, sessionId: string, sequence: int, nonce: string,
                        slot: string, requestNonce: Option<string>)
    requires Buildable(env, application, sessionId, sequence, nonce, slot, requestNonce)
    requires |application| <= MAX_RESPONSE_BYTES
    ensures var frame := Signed(env, key, Draft(env, application, sessionId, sequence, nonce, slot, requestNonce));
            Utf8.Bytes(Line(frame)) <= MAX_CHANNEL_LINE_BYTES && ReadFrame(frame.Kind(), Line(frame)) == Some(frame)
  {
    var frame := Signed(env, key, Draft(env, application, sessionId, sequence, nonce, slot, requestNonce));
    FieldsArePlain(env, application, key, sessionId, sequence, nonce, slot, requestNonce);
    hide Line, ReadFrame, ProofOf, PlainFrame, Short;
    LineIsShort(frame);
    LineIsReadBack(frame);
  }

  lemma SignedValuesLeaveTheProof(env: Environment, key: Bytes, frame: Frame)
    ensures Signed(env, key, frame).Kind() == frame.Kind() && Signed(env, key, frame).SignedValues() == frame.SignedValues()
  {
    var signed := Signed(env, key, frame);
    hide ProofOf, Keys;
    assert forall i :: 0 <= i < |frame.Values()| && i != PROOF_AT ==> signed.Values()[i] == frame.Values()[i];
  }

  lemma ProofCoversTheRest(env: Environment, key: Bytes, frame: Frame)
    ensures ProofOf(env, key, Signed(env, key, frame)) == ProofOf(env, key, frame)
  {
    SignedValuesLeaveTheProof(env, key, frame);
    hide ProofOf, Keys;
    SameProof(env, key, frame, Signed(env, key, frame));
  }

  lemma SameProof(env: Environment, key: Bytes, first: Frame, second: Frame)
    requires first.Kind() == second.Kind() && first.SignedValues() == second.SignedValues()
    ensures ProofOf(env, key, first) == ProofOf(env, key, second)
  {
  }

  lemma OpensWithProof(env: Environment, application: Bytes, key: Bytes, frame: Frame)
    requires IsSecret(key) && 0 < |application| <= frame.Kind().MaxApplication()
    requires frame.payload.Text? && Decode(frame.payload.text) == Some(application)
    requires frame.digest == Text(env.sha(application)) && IsDigest(env.sha(application))
    requires frame.proof == Text(ProofOf(env, key, frame)) && IsProof(ProofOf(env, key, frame))
    ensures Open(env, key, frame) == Fine(application)
  {
    hide Decode, ProofOf, IsProof, IsDigest, Keys;
  }

  /** The proof and the payload of a signed frame pass. */
  lemma {:induction false} SignedFrameOpens(env: Environment, application: Bytes, key: Bytes, draft: Frame)
    requires Standard(env) && IsSecret(key) && 0 < |application| <= draft.Kind().MaxApplication()
    requires draft.payload == Text(Encode(application)) && draft.digest == Text(env.sha(application))
    ensures Open(env, key, Signed(env, key, draft)) == Fine(application)
  {
    hide Encode, Decode, Tagged, Keys, Open;
    RoundTrip(application);
    ProofCoversTheRest(env, key, draft);
    ProofIsTagged(env, key, draft);
    assert IsDigest(env.sha(application));
    hide ProofOf, Standard, IsProof, IsDigest;
    OpensWithProof(env, application, key, Signed(env, key, draft));
  }

  lemma SignedValuesAreSafe(frame: Frame, v: Scalar)
    requires PlainFrame(frame) && v in frame.SignedValues()
    ensures Safe(v)
  {
    FieldsAreValues(frame, PlainValue);
    SignedAreValues(frame);
    hide Keys, Safe, PlainScalar;
    var i :| 0 <= i < |frame.SignedValues()| && frame.SignedValues()[i] == v;
    assert PlainValue(frame.Values()[if i < PROOF_AT then i else i + 1]);
  }

  /** A draft of well-formed fields has a canonical text exactly when its sequence number is a safe integer. */
  lemma DraftIsSafe(env: Environment, application: Bytes, sessionId: string, sequence: int, nonce: string, slot: string,
                    requestNonce: Option<string>)
    requires Standard(env) && IsIdentifier(sessionId) && IsNonce(nonce) && IsSlot(slot) && sequence > 0
    requires requestNonce.Some? ==> IsNonce(requestNonce.value)
    ensures var draft := Draft(env, application, sessionId, sequence, nonce, slot, requestNonce);
            (forall v :: v in draft.SignedValues() ==> Safe(v)) <==> sequence <= MAX_SAFE_INTEGER
  {
    var draft := Draft(env, application, sessionId, sequence, nonce, slot, requestNonce);
    if sequence <= MAX_SAFE_INTEGER {
      FieldsArePlain(env, application, [], sessionId, sequence, nonce, slot, requestNonce);
      SignedValuesLeaveTheProof(env, [], draft);
      hide PlainFrame, Keys, Safe, Draft, ProofOf;
      forall v | v in draft.SignedValues() ensures Safe(v) {
        SignedValuesAreSafe(Signed(env, [], draft), v);
      }
    } else {
      var values := draft.SignedValues();
      assert values[|values| - 2] == Number(sequence);
      assert Number(sequence) in values;
    }
  }

  /** A request frame is built exactly for a valid request line, session, nonce and key, and a sequence number that is
      both a sequence number and a safe integer: the frame's own limit on sequence numbers is never reached. */
  lemma RequestIsBuilt(env: Environment, application: Bytes, key: Bytes, sessionId: string, sequence: int, nonce: string)
    requires Standard(env)
    ensures BuildRequest(env, application, key, sessionId, sequence, nonce).Fine? <==>
              && 0 < |application| <= MAX_REQUEST_BYTES && env.request(application).Some?
              && IsIdentifier(sessionId) && IsNonce(nonce) && IsSecret(key) && 1 <= sequence <= MAX_SAFE_INTEGER
    ensures MAX_SAFE_INTEGER < sequence <= MAX_SEQUENCE && IsIdentifier(sessionId) && IsNonce(nonce) && IsSecret(key)
            && 0 < |application| <= MAX_REQUEST_BYTES && env.request(application).Some? ==>
              BuildRequest(env, application, key, sessionId, sequence, nonce) == Refused(NotCanonical)
  {
    hide Draft, IsIdentifier, Tagged, IsSecret, Safe, ProofOf, ChannelProtocol, ApplicationProtocol, TypeOf;
    if env.request(application).Some? && IsIdentifier(sessionId) && IsNonce(nonce) && sequence > 0 {
      DraftIsSafe(env, application, sessionId, sequence, nonce, env.request(application).value.slot, None);
    }
  }

  /** A response frame is built exactly for a strict response line within its limit that answers a well-formed request. */
  lemma ResponseIsBuilt(env: Environment, application: Bytes, asked: Asked, key: Bytes, nonce: string)
    requires Standard(env)
    ensures BuildResponse(env, application, asked, key, nonce).Fine? <==>
              && 0 < |application| <= MAX_RESPONSE_BYTES && env.strict(application)
              && IsIdentifier(asked.sessionId) && IsNonce(asked.nonce) && IsSlot(asked.slot)
              && IsNonce(nonce) && IsSecret(key) && 1 <= asked.sequence <= MAX_SAFE_INTEGER
    ensures MAX_SAFE_INTEGER < asked.sequence <= MAX_SEQUENCE && IsIdentifier(asked.sessionId) && IsNonce(asked.nonce)
            && IsSlot(asked.slot) && IsNonce(nonce) && IsSecret(key) && 0 < |application| <= MAX_RESPONSE_BYTES
            && env.strict(application) ==>
              BuildResponse(env, application, asked, key, nonce) == Refused(NotCanonical)
  {
    hide Draft, IsIdentifier, Tagged, IsSecret, Safe, ProofOf, ChannelProtocol, ApplicationProtocol, TypeOf;
    if IsIdentifier(asked.sessionId) && IsNonce(asked.nonce) && IsNonce(nonce) && IsSlot(asked.slot) && asked.sequence > 0 {
      DraftIsSafe(env, application, asked.sessionId, asked.sequence, nonce, asked.slot, Some(asked.nonce));
    }
  }

  lemma SignedRequestIsAccepted(env: Environment, application: Bytes, key: Bytes, sessionId: string, sequence: int, nonce: string,
                                seen: set<string>)
    requires env.request(application).Some? && IsSlot(env.request(application).value.slot)
    requires IsSequence(sequence) && IsNonce(nonce) && nonce !in seen
    requires var slot := env.request(application).value.slot;
             Open(env, key, Signed(env, key, Draft(env, application, sessionId, sequence, nonce, slot, None))) == Fine(application)
    ensures var request := env.request(application).value;
            var frame := Signed(env, key, Draft(env, application, sessionId, sequence, nonce, request.slot, None));
            CheckRequest(env, frame, key, sessionId, sequence, seen) == Fine(Opened(frame, application, request))
  {
    hide Open, ProofOf, Tagged, Encode, ChannelProtocol, ApplicationProtocol, TypeOf;
  }

  /** A request frame fits in a channel line, and parsing it with a fresh nonce gives back the frame, the application bytes
      and the validated request. */
  lemma RequestRoundTrip(env: Environment, application: Bytes, key: Bytes, sessionId: string, sequence: int, nonce: string,
                         seen: set<string>)
    requires Standard(env) && BuildRequest(env, application, key, sessionId, sequence, nonce).Fine? && nonce !in seen
    ensures var frame := BuildRequest(env, application, key, sessionId, sequence, nonce).value;
            && Utf8.Bytes(Line(frame)) <= MAX_CHANNEL_LINE_BYTES
            && NonceOf(frame) == nonce
            && ParseRequest(env, Line(frame), key, sessionId, sequence, seen) == Fine(Opened(frame, application, env.request(application).value))
  {
    hide Open, ReadFrame, Line, ProofOf, IsNonce, IsSlot, IsIdentifier, CheckRequest, Encode, ChannelProtocol, ApplicationProtocol, TypeOf;
    RequestIsBuilt(env, application, key, sessionId, sequence, nonce);
    var slot := env.request(application).value.slot;
    assert IsSlot(slot);
    hide Standard;
    var draft := Draft(env, application, sessionId, sequence, nonce, slot, None);
    SignedFrameFits(env, application, key, sessionId, sequence, nonce, slot, None);
    SignedFrameOpens(env, application, key, draft);
    SignedRequestIsAccepted(env, application, key, sessionId, sequence, nonce, seen);
  }

  lemma SignedResponseIsAccepted(env: Environment, application: Bytes, asked: Asked, request: Request, key: Bytes, nonce: string,
                                 seen: set<string>)
    requires env.response(application, request).Some? && IsSlot(asked.slot)
    requires IsSequence(asked.sequence) && IsNonce(nonce) && nonce != asked.nonce && nonce !in seen
    requires var draft := Draft(env, application, asked.sessionId, asked.sequence, nonce, asked.slot, Some(asked.nonce));
             Open(env, key, Signed(env, key, draft)) == Fine(application)
    ensures var frame := Signed(env, key, Draft(env, application, asked.sessionId, asked.sequence, nonce, asked.slot, Some(asked.nonce)));
            CheckResponse(env, frame, asked, request, key, seen)
              == Fine(Opened(frame, application, env.response(application, request).value))
  {
    hide Open, ProofOf, Tagged, Encode, ChannelProtocol, ApplicationProtocol, TypeOf;
  }

  /** Likewise for a response that answers the request it is parsed with. */
  lemma ResponseRoundTrip(env: Environment, application: Bytes, asked: Asked, request: Request, key: Bytes, nonce: string,
                          seen: set<string>)
    requires Standard(env) && BuildResponse(env, application, asked, key, nonce).Fine?
    requires env.response(application, request).Some? && nonce != asked.nonce && nonce !in seen
    ensures var frame := BuildResponse(env, application, asked, key, nonce).value;
            && Utf8.Bytes(Line(frame)) <= MAX_CHANNEL_LINE_BYTES
            && NonceOf(frame) == nonce
            && ParseResponse(env, Line(frame), asked, request, key, seen) == Fine(Opened(frame, application, env.response(application, request).value))
  {
    hide Open, ReadFrame, Line, ProofOf, IsNonce, IsSlot, IsIdentifier, CheckResponse, Encode, ChannelProtocol, ApplicationProtocol, TypeOf;
    ResponseIsBuilt(env, application, asked, key, nonce);
    hide Standard;
    var draft := Draft(env, application, asked.sessionId, asked.sequence, nonce, asked.slot, Some(asked.nonce));
    SignedFrameFits(env, application, key, asked.sessionId, asked.sequence, nonce, asked.slot, Some(asked.nonce));
    SignedFrameOpens(env, application, key, draft);
    SignedResponseIsAccepted(env, application, asked, request, key, nonce, seen);
  }

  // ---- runs ----

  function NonceOf(frame: Frame): string {
    match frame.nonce
    case Text(s) => s
    case Number(_) => ""
  }

  /** The nonces seen after a frame was parsed: one more if it was accepted. */
  function SeenAfter<T>(seen: set<string>, outcome: Outcome<Opened<T>>): set<string> {
    match outcome
    case Refused(_) => seen
    case Fine(accepted) => seen + {NonceOf(accepted.frame)}
  }

  /** A line that came in, and the sequence number it was expected to have. */
  datatype Received = Received(line: string, sequence: int)

  /** The request frames accepted from the lines of a session, in order. */
  function Accepted(env: Environment, key: Bytes, sessionId: string, received: seq<Received>, seen: set<string>): seq<Opened<Request>> {
    if received == [] then []
    else
      var outcome := ParseRequest(env, received[0].line, key, sessionId, received[0].sequence, seen);
      (if outcome.Fine? then [outcome.value] else [])
        + Accepted(env, key, sessionId, received[1..], SeenAfter(seen, outcome))
  }

  lemma AcceptedIsFresh(env: Environment, key: Bytes, sessionId: string, received: Received, seen: set<string>)
    requires ParseRequest(env, received.line, key, sessionId, received.sequence, seen).Fine?
    ensures NonceOf(ParseRequest(env, received.line, key, sessionId, received.sequence, seen).value.frame) !in seen
  {
    hide ReadFrame, Open, Tagged, ChannelProtocol, ApplicationProtocol, TypeOf;
  }

  /** The nonces of the accepted frames, in order. */
  function AcceptedNonces(env: Environment, key: Bytes, sessionId: string, received: seq<Received>, seen: set<string>): (nonces: seq<string>)
    ensures |nonces| == |Accepted(env, key, sessionId, received, seen)|
  {
    var accepted := Accepted(env, key, sessionId, received, seen);
    seq(|accepted|, i requires 0 <= i < |accepted| => NonceOf(accepted[i].frame))
  }

  lemma NoncesUnfold(env: Environment, key: Bytes, sessionId: string, received: seq<Received>, seen: set<string>)
    requires received != []
    ensures var outcome := ParseRequest(env, received[0].line, key, sessionId, received[0].sequence, seen);
            var later := AcceptedNonces(env, key, sessionId, received[1..], SeenAfter(seen, outcome));
            AcceptedNonces(env, key, sessionId, received, seen)
              == if outcome.Fine? then [NonceOf(outcome.value.frame)] + later else later
  {
    hide ParseRequest;
  }

  /** Whatever lines come in, in whatever order and however often, no nonce is accepted twice, nor one seen before. */
  lemma {:induction false} NoNonceIsAcceptedTwice(env: Environment, key: Bytes, sessionId: string, received: seq<Received>,
                                                  seen: set<string>)
    ensures var nonces := AcceptedNonces(env, key, sessionId, received, seen);
            && (forall i :: 0 <= i < |nonces| ==> nonces[i] !in seen)
            && (forall i, j :: 0 <= i < j < |nonces| ==> nonces[i] != nonces[j])
  {
    hide ParseRequest, AcceptedNonces;
    if received != [] {
      var outcome := ParseRequest(env, received[0].line, key, sessionId, received[0].sequence, seen);
      NoncesUnfold(env, key, sessionId, received, seen);
      if outcome.Fine? {
        AcceptedIsFresh(env, key, sessionId, received[0], seen);
      }
      NoNonceIsAcceptedTwice(env, key, sessionId, received[1..], SeenAfter(seen, outcome));
    }
  }

  // ---- what a proof binds ----

  lemma AcceptedFields(env: Environment, frame: Frame, key: Bytes, sessionId: string, sequence: int, seen: set<string>)
    requires CheckRequest(env, frame, key, sessionId, sequence, seen).Fine? && frame.Kind().RequestFrame?
    ensures frame.payload.Text? && Decode(frame.payload.text).Some? && frame.digest.Text? && IsDigest(frame.digest.text)
    ensures frame.nonce.Text? && IsNonce(frame.nonce.text) && frame.slot.Text? && IsSlot(frame.slot.text) && frame.sequence.Number?
    ensures frame.proof == Text(ProofOf(env, key, frame)) && IsProof(frame.proof.text) && frame.session == Text(sessionId)
    ensures frame.channel == Text(ChannelProtocol()) && frame.protocol == Text(ApplicationProtocol()) && frame.messageType == Text(TypeOf(RequestFrame))
  {
    hide Decode, IsDigest, IsNonce, IsSlot, IsProof, ProofOf, ChannelProtocol, ApplicationProtocol, TypeOf;
  }

  lemma AcceptedIsPlain(env: Environment, frame: Frame, key: Bytes, sessionId: string, sequence: int, seen: set<string>)
    requires IsIdentifier(sessionId) && CheckRequest(env, frame, key, sessionId, sequence, seen).Fine? && frame.Kind().RequestFrame?
    ensures PlainScalar(frame.payload) && OtherFields(frame, PlainScalar)
    ensures frame.proof == Text(ProofOf(env, key, frame))
  {
    AcceptedFields(env, frame, key, sessionId, sequence, seen);
    DecodedTextIsPlain(frame.payload.text);
    hide CheckRequest, Modest, Plain, Decode, IsNonce, IsSlot, IsDigest, IsProof, IsIdentifier, ProofOf, ChannelProtocol, ApplicationProtocol, TypeOf;
    FieldIsModest(frame.digest.text);
    FieldIsModest(frame.nonce.text);
    FieldIsModest(frame.slot.text);
    FieldIsModest(frame.proof.text);
    IdentifierIsModest(sessionId);
    ConstantsAreModest();
    forall s | Modest(s) ensures PlainScalar(Text(s)) {
      ModestText(s);
    }
  }

  /** HMAC does not confuse these two texts: they have one proof only if they are one text. */
  predicate NoCollision(env: Environment, key: Bytes, first: string, second: string) {
    env.mac(key, first) == env.mac(key, second) ==> first == second
  }

  /** Unless the HMACs of two frames collide, a proof belongs to one frame: no field of an accepted request can be
      changed, however the frame is written. */
  lemma ProofBindsTheFrame(env: Environment, key: Bytes, sessionId: string, first: Frame, second: Frame,
                           sequence: int, other: int, seen: set<string>, later: set<string>)
    requires NoCollision(env, key, ProofText(first), ProofText(second))
    requires IsIdentifier(sessionId) && first.Kind().RequestFrame? && second.Kind().RequestFrame?
    requires CheckRequest(env, first, key, sessionId, sequence, seen).Fine?
    requires CheckRequest(env, second, key, sessionId, other, later).Fine?
    requires first.proof == second.proof
    ensures first == second
  {
    AcceptedIsPlain(env, first, key, sessionId, sequence, seen);
    AcceptedIsPlain(env, second, key, sessionId, other, later);
    var keys := SignedKeys(RequestFrame);
    forall i | 0 <= i < |keys| ensures Plain(keys[i]) {
      KeyIsPlain(RequestFrame, if i < PROOF_AT then i else i + 1);
    }
    hide CheckRequest, Keys, Plain;
    FieldsAreValues(first, PlainScalar);
    FieldsAreValues(second, PlainScalar);
    SignedAreValues(first);
    SignedAreValues(second);
    var mark := "request-frame" + "\0";
    var a, b := Object(keys, first.SignedValues()), Object(keys, second.SignedValues());
    assert mark + a == ProofText(first) && mark + b == ProofText(second);
    assert a == (mark + a)[|mark|..] == (mark + b)[|mark|..] == b;
    ObjectIsInjective(keys, first.SignedValues(), second.SignedValues());
    SameSignedValues(first, second);
  }

  lemma SameSignedValues(first: Frame, second: Frame)
    requires first.Kind() == second.Kind() && first.SignedValues() == second.SignedValues() && first.proof == second.proof
    ensures first == second
  {
    hide Keys;
    SignedAreValues(first);
    SignedAreValues(second);
    var a, b := first.SignedValues(), second.SignedValues();
    assert forall i :: 0 <= i < |a| ==> a[i] == b[i];
    assert a[0] == b[0] && a[1] == b[1] && a[2] == b[2] && a[3] == b[3] && a[4] == b[4] && a[5] == b[5] && a[6] == b[6];
    assert a[7] == b[7] && a[8] == b[8];
    if first.Kind().ResponseFrame? {
      assert a[9] == b[9];
    }
  }

  /** A request and a response never have the same proof, unless their HMACs collide: the texts proved are different. */
  lemma ProofsKeepTheirKind(env: Environment, key: Bytes, first: Frame, second: Frame)
    requires NoCollision(env, key, ProofText(first), ProofText(second)) && first.Kind() != second.Kind()
    ensures ProofText(first) != ProofText(second) && ProofOf(env, key, first) != ProofOf(env, key, second)
  {
    hide Object, Keys;
    assert ProofText(first)[2] == first.Kind().ProofLabel()[2] && ProofText(second)[2] == second.Kind().ProofLabel()[2];
  }

  /** The nonces that a caller keeps and the parsers add to. */
  class SeenNonces {
    var nonces: set<string>

    constructor ()
      ensures nonces == {}
    {
      nonces := {};
    }

    /** parse_request_frame: only an accepted frame adds its nonce. */
    method ParseRequestFrame(env: Environment, line: string, key: Bytes, sessionId: string, sequence: int)
      returns (outcome: Outcome<Opened<Request>>)
      modifies this
      ensures outcome == ParseRequest(env, line, key, sessionId, sequence, old(nonces))
      ensures nonces == SeenAfter(old(nonces), outcome)
      ensures outcome.Fine? ==> NonceOf(outcome.value.frame) !in old(nonces)
    {
      hide Open, ReadFrame, Tagged, ChannelProtocol, ApplicationProtocol, TypeOf;
      var read := ReadFrame(RequestFrame, line);
      if read.None? {
        return Refused(InvalidMessage);
      }
      outcome := CheckRequest(env, read.value, key, sessionId, sequence, nonces);
      if outcome.Fine? {
        nonces := nonces + {outcome.value.frame.nonce.text};
      }
    }

    /** parse_response_frame. */
    method ParseResponseFrame(env: Environment, line: string, asked: Asked, request: Request, key: Bytes)
      returns (outcome: Outcome<Opened<Response>>)
      modifies this
      ensures outcome == ParseResponse(env, line, asked, request, key, old(nonces))
      ensures nonces == SeenAfter(old(nonces), outcome)
      ensures outcome.Fine? ==> NonceOf(outcome.value.frame) !in old(nonces) + {asked.nonce}
    {
      hide Open, ReadFrame, Tagged, ChannelProtocol, ApplicationProtocol, TypeOf;
      var read := ReadFrame(ResponseFrame, line);
      if read.None? {
        return Refused(InvalidMessage);
      }
      outcome := CheckResponse(env, read.value, asked, request, key, nonces);
      if outcome.Fine? {
        nonces := nonces + {outcome.value.frame.nonce.text};
      }
    }
  }
}
