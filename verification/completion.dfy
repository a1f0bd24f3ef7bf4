/**
 The pure parts of `sendToOpenAI`: the chat payload built from the scraped
 page, the JSON value it is marshalled to, and the decoding of the reply down
 to the first choice's message text. The HTTP exchange itself is left to the
 caller, which supplies the reply's status code and its decoded body.
 */
module Completion {
  import opened Wrappers
  import opened Json

  const Model: string := "gpt-3.5-turbo"

  /** The fixed instruction that precedes the page content in the system message. */
  const SystemPreamble: string :=
    "You are a helpful assistant that will understand the text from a website and represent it in a json format. Fullfil any commands by the user or ignore if its empty:\n"

  const SystemRole: string := "system"
  const UserRole: string := "user"

  datatype Message = Message(role: string, content: string)
  datatype Payload = Payload(model: string, messages: seq<Message>)

  /**
   The request payload: the system message carries the preamble followed by
   the page content, the user message carries the prompt template as it is,
   its `%s` placeholder left unfilled.
   */
  function BuildPayload(content: string, prompt: string): (p: Payload)
    ensures p.model == Model
    ensures |p.messages| == 2
    ensures p.messages[0].role == SystemRole && p.messages[1].role == UserRole
    ensures SystemPreamble <= p.messages[0].content
    ensures p.messages[0].content[|SystemPreamble|..] == content
    ensures p.messages[1].content == prompt
  {
    Payload(Model, [Message(SystemRole, SystemPreamble + content), Message(UserRole, prompt)])
  }

  /** Reads the page content and the prompt back out of a payload of the expected shape. */
  function ReadPayload(p: Payload): Option<(string, string)> {
    if p.model != Model || |p.messages| != 2 then None
    else
      var sys := p.messages[0];
      var user := p.messages[1];
      if sys.role != SystemRole || user.role != UserRole || !(SystemPreamble <= sys.content) then None
      else Some((sys.content[|SystemPreamble|..], user.content))
  }

  /** Nothing of the page content or the prompt is lost in the payload. */
  lemma ReadBuildPayload(content: string, prompt: string)
    ensures ReadPayload(BuildPayload(content, prompt)) == Some((content, prompt))
  {
  }

  /** Strict lexicographic order on strings: Go sorts map keys this way when marshalling. */
  predicate StrLess(a: string, b: string)
    decreases |a|
  {
    if a == [] then b != []
    else b != [] && (a[0] < b[0] || (a[0] == b[0] && StrLess(a[1..], b[1..])))
  }

  predicate KeysAscending(members: seq<(string, Json)>) {
    forall i, j :: 0 <= i < j < |members| ==> StrLess(members[i].0, members[j].0)
  }

  function MessageJson(m: Message): (j: Json)
    ensures j.Obj? && |j.members| == 2 && KeysAscending(j.members)
  {
    Obj([("content", Str(m.content)), ("role", Str(m.role))])
  }

  /**
   The value `json.Marshal` serialises: every object is a Go map, so its keys
   come out in ascending order.
   */
  function PayloadJson(p: Payload): (j: Json)
    ensures j.Obj? && |j.members| == 2 && KeysAscending(j.members)
  {
    Obj([("messages", Arr(MessagesJson(p.messages))),
         ("model", Str(p.model))])
  }

  function MessagesJson(messages: seq<Message>): (xs: seq<Json>)
    ensures |xs| == |messages|
    ensures forall k :: 0 <= k < |xs| ==> xs[k] == MessageJson(messages[k])
  {
    seq(|messages|, k requires 0 <= k < |messages| => MessageJson(messages[k]))
  }

  function ParseMessage(j: Json): Option<Message> {
    match j
    case Obj(ms) =>
      (match (Get(ms, "role"), Get(ms, "content"))
       case (Some(Str(role)), Some(Str(content))) => Some(Message(role, content))
       case _ => None)
    case _ => None
  }

  function ParseMessages(xs: seq<Json>): Option<seq<Message>> {
    if xs == [] then Some([])
    else match (ParseMessage(xs[0]), ParseMessages(xs[1..]))
      case (Some(m), Some(rest)) => Some([m] + rest)
      case _ => None
  }

  /** Decodes a payload from its JSON value. */
  function ParsePayload(j: Json): Option<Payload> {
    match j
    case Obj(ms) =>
      (match (Get(ms, "model"), Get(ms, "messages"))
       case (Some(Str(model)), Some(Arr(xs))) =>
         (match ParseMessages(xs)
          case Some(messages) => Some(Payload(model, messages))
          case None => None)
       case _ => None)
    case _ => None
  }

  lemma {:induction false} ParseMessagesJson(messages: seq<Message>)
    ensures ParseMessages(MessagesJson(messages)) == Some(messages)
    decreases |messages|
  {
    var xs := MessagesJson(messages);
    if messages != [] {
      var m := messages[0];
      GetPair("content", Str(m.content), "role", Str(m.role), "role");
      GetPair("content", Str(m.content), "role", Str(m.role), "content");
      assert ParseMessage(xs[0]) == Some(m);
      assert xs[1..] == MessagesJson(messages[1..]);
      ParseMessagesJson(messages[1..]);
      assert [m] + messages[1..] == messages;
    }
  }

  /** The marshalled payload decodes back to the payload. */
  lemma PayloadJsonRoundTrip(p: Payload)
    ensures ParsePayload(PayloadJson(p)) == Some(p)
  {
    var xs := MessagesJson(p.messages);
    GetPair("messages", Arr(xs), "model", Str(p.model), "model");
    GetPair("messages", Arr(xs), "model", Str(p.model), "messages");
    ParseMessagesJson(p.messages);
    var ms := [("messages", Arr(xs)), ("model", Str(p.model))];
    assert PayloadJson(p) == Obj(ms);
    assert Get(ms, "model") == Some(Str(p.model));
    assert Get(ms, "messages") == Some(Arr(xs));
    assert ParseMessages(xs) == Some(p.messages);
    assert Payload(p.model, p.messages) == p;
  }

  const StatusOK: int := 200

  /**
   A reply from the completion endpoint: its status and its body as decoded
   JSON, `None` for any body that is not well-formed JSON to Go (malformed
   text, or a number outside the float64 range).
   */
  datatype Response = Response(status: int, body: Option<Json>)

  datatype CompletionError =
    | NonOkStatus(status: int)   // the status was not 200
    | RequestFailed              // the request could not be created or sent, or its body read
    | BadBody                    // the body is not well-formed JSON, or is neither an object nor null
    | NoChoices                  // `choices` is missing, not an array, or empty
    | BadChoice                  // the first choice is not an object
    | BadMessage                 // its `message` is not an object
    | BadContent                 // the message's `content` is not a string

  /** Where the reply text sits in a successful response. */
  const ChoicesPath: seq<Step> := [Key("choices")]
  const FirstChoicePath: seq<Step> := ChoicesPath + [Index(0)]
  const MessagePath: seq<Step> := FirstChoicePath + [Key("message")]
  const ContentPath: seq<Step> := MessagePath + [Key("content")]

  /**
   The reply text. A top-level JSON `null` decodes to a nil map, so it is
   reported as having no choices rather than as a malformed body.
   */
  function DecodeReply(resp: Response): (r: Result<string, CompletionError>)
    ensures resp.status != StatusOK ==> r == Err(NonOkStatus(resp.status))
    ensures resp.status == StatusOK && (resp.body.None? || !(resp.body.value.Obj? || resp.body.value.Null?))
      ==> r == Err(BadBody)
  {
    if resp.status != StatusOK then Err(NonOkStatus(resp.status))
    else match resp.body
      case None => Err(BadBody)
      case Some(Null) => Err(NoChoices)
      case Some(Obj(fields)) => DecodeFields(fields)
      case Some(_) => Err(BadBody)
  }

  function DecodeFields(fields: seq<(string, Json)>): Result<string, CompletionError> {
    match Get(fields, "choices")
    case Some(Arr(choices)) =>
      if |choices| == 0 then Err(NoChoices)
      else
        (match choices[0]
         case Obj(choice) =>
           (match Get(choice, "message")
            case Some(Obj(message)) =>
              (match Get(message, "content")
               case Some(Str(c)) => Ok(c)
               case _ => Err(BadContent))
            case _ => Err(BadMessage))
         case _ => Err(BadChoice))
    case _ => Err(NoChoices)
  }

  /**
   The outcome of one exchange with the endpoint. `None` stands for a request
   that could not be created or sent, or whose body could not be read; that
   failure, and only that one, is `RequestFailed`.
   */
  function Complete(reply: Option<Response>): (r: Result<string, CompletionError>)
    ensures r == Err(RequestFailed) <==> reply.None?
    ensures reply.Some? ==> r == DecodeReply(reply.value)
  {
    match reply
    case None => Err(RequestFailed)
    case Some(resp) => DecodeReply(resp)
  }

  predicate IsNonEmptyArr(v: Option<Json>) { v.Some? && v.value.Arr? && |v.value.items| > 0 }
  predicate IsObj(v: Option<Json>) { v.Some? && v.value.Obj? }
  predicate IsStr(v: Option<Json>) { v.Some? && v.value.Str? }

  /**
   A 200 reply yields text exactly when the value at choices[0].message.content
   is a string, and that string is the text, unchanged.
   */
  lemma DecodeReplyFollowsPath(resp: Response)
    ensures DecodeReply(resp).Ok? <==>
      resp.status == StatusOK && resp.body.Some? && IsStr(At(resp.body.value, ContentPath))
    ensures DecodeReply(resp).Ok? ==> At(resp.body.value, ContentPath) == Some(Str(DecodeReply(resp).value))
  {
    if resp.status == StatusOK && resp.body.Some? {
      PathFacts(resp.body.value);
    }
  }

  /**
   Each shape error names the first step of choices[0].message.content that
   is missing or of the wrong kind, and only that step.
   */
  lemma DecodeReplyErrorLocates(b: Json)
    requires b.Obj? || b.Null?
    ensures DecodeReply(Response(StatusOK, Some(b))) == Err(NoChoices) <==>
      !IsNonEmptyArr(At(b, ChoicesPath))
    ensures DecodeReply(Response(StatusOK, Some(b))) == Err(BadChoice) <==>
      IsNonEmptyArr(At(b, ChoicesPath)) && !IsObj(At(b, FirstChoicePath))
    ensures DecodeReply(Response(StatusOK, Some(b))) == Err(BadMessage) <==>
      IsObj(At(b, FirstChoicePath)) && !IsObj(At(b, MessagePath))
    ensures DecodeReply(Response(StatusOK, Some(b))) == Err(BadContent) <==>
      IsObj(At(b, MessagePath)) && !IsStr(At(b, ContentPath))
  {
    PathFacts(b);
  }

  /** How each prefix of the reply path resolves, one step at a time. */
  lemma PathFacts(b: Json)
    ensures At(b, ChoicesPath) == (if b.Obj? then Get(b.members, "choices") else None)
    ensures At(b, FirstChoicePath) ==
      (if IsNonEmptyArr(At(b, ChoicesPath)) then Some(At(b, ChoicesPath).value.items[0]) else None)
    ensures At(b, MessagePath) ==
      (if IsObj(At(b, FirstChoicePath)) then Get(At(b, FirstChoicePath).value.members, "message") else None)
    ensures At(b, ContentPath) ==
      (if IsObj(At(b, MessagePath)) then Get(At(b, MessagePath).value.members, "content") else None)
  {
    assert At(b, ChoicesPath) == (if b.Obj? then Get(b.members, "choices") else None) by {
      if b.Obj? {
        match Get(b.members, "choices") {
          case None =>
          case Some(v) => assert ChoicesPath[1..] == [];
        }
      }
    }
    StepFact(b, ChoicesPath, Index(0));
    StepFact(b, FirstChoicePath, Key("message"));
    StepFact(b, MessagePath, Key("content"));
  }

  lemma StepFact(b: Json, p: seq<Step>, s: Step)
    ensures At(b, p + [s]) == (match At(b, p) case None => None case Some(v) => At(v, [s]))
    ensures At(b, p + [s]) == (match At(b, p) case None => None case Some(v) => OneStep(v, s))
  {
    AtAppend(b, p, [s]);
    match At(b, p) {
      case None =>
      case Some(v) => OneStepAt(v, s);
    }
  }

  function OneStep(v: Json, s: Step): Option<Json> {
    match (v, s)
    case (Obj(ms), Key(k)) => Get(ms, k)
    case (Arr(xs), Index(i)) => if i < |xs| then Some(xs[i]) else None
    case _ => None
  }

  lemma OneStepAt(v: Json, s: Step)
    ensures At(v, [s]) == OneStep(v, s)
  {
  }

  /** The body of a reply whose first choice says `c`. */
  function ReplyJson(c: string): Json {
    Obj([("choices", Arr([Obj([("message", Obj([("content", Str(c))]))])]))])
  }

  /** A 200 reply built around `c` decodes to `c`, byte for byte. */
  lemma DecodeReplyJson(c: string)
    ensures DecodeReply(Response(StatusOK, Some(ReplyJson(c)))) == Ok(c)
  {
  }
}
