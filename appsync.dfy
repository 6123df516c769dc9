/** The client of the AppSync GraphQL store: `save_message_to_appsync` and
    `save_conversation_to_appsync`.

    The HTTP endpoint is an oracle: given the requests it has already
    received and a new request, it answers with the decoded reply body or a
    request failure.  Each save function takes the log of requests sent so
    far and returns it extended by what it sent, so that which requests are
    sent, how many and in what order is part of every contract. */
module AppSync {
  import opened Py

  /** The two mutations; their GraphQL text is not modelled. */
  datatype Mutation = CreateMessage | CreateConversation

  /** One POST to the endpoint: the mutation and its `variables.input`. */
  datatype Request = Request(mutation: Mutation, input: map<string, Json>)

  /** What a POST gives back: the body `response.json()` decoded, or the
      message of a `RequestException` raised by the POST or by decoding. */
  datatype Reply = Replied(data: Json) | Failed(reason: string)

  /** The endpoint's answer to a request, given the requests received before it. */
  type Endpoint = (seq<Request>, Request) -> Reply

  /** A `{'statusCode': ..., 'body': ...}` result. */
  datatype Response = Response(statusCode: int, body: string) {
    /** The dict a result is: exactly the keys statusCode and body. */
    function ToJson(): (j: Json)
      ensures j.Obj? && j.fields.Keys == {"statusCode", "body"}
      ensures j.fields["statusCode"] == Num(statusCode) && j.fields["body"] == Str(body)
    {
      Obj(map["statusCode" := Num(statusCode), "body" := Str(body)])
    }
  }

  /** The keys a message must hold before it is sent. */
  const RequiredKeys: set<string> := {"conversationId", "userId", "content", "citations"}

  const MissingFieldsError := "Missing required fields"

  /** Some key the store needs is absent from the message. */
  predicate MissingRequired(message: map<string, Json>)
    ensures MissingRequired(message) <==> !(RequiredKeys <= message.Keys)
  {
    !("conversationId" in message && "userId" in message && "content" in message && "citations" in message)
  }

  /** The result a message that fails validation gets. */
  function BadRequest(py: Builtins): (r: Response)
    ensures r.statusCode == 400
  {
    Response(400, py.dumps(Obj(map["error" := Str(MissingFieldsError)])))
  }

  /** How `save_message_to_appsync` turns the endpoint's reply into a result:
      a failed request or a reply holding `errors` is a 500, otherwise a 200
      carrying `data.createMessage`.  A reply of the wrong shape raises. */
  function MessageReply(py: Builtins, reply: Reply): (r: Result<Response>)
    ensures r.Ok? ==> r.value.statusCode == 200 || r.value.statusCode == 500
    ensures reply.Failed? ==> r == Ok(Response(500, py.dumps(Obj(map["error" := Str(reply.reason)]))))
    ensures reply.Replied? && reply.data.Obj? && "errors" in reply.data.fields ==>
      r == Ok(Response(500, py.dumps(Obj(map["error" := reply.data.fields["errors"]]))))
    ensures r.Ok? && r.value.statusCode == 200 <==>
      reply.Replied? && In("errors", reply.data) == Ok(false) && Path(reply.data, ["data", "createMessage"]).Ok?
    ensures r.Ok? && r.value.statusCode == 200 ==>
      r.value.body == py.dumps(Path(reply.data, ["data", "createMessage"]).value)
    ensures r.Raise? ==> reply.Replied? && (!reply.data.Obj? || Path(reply.data, ["data", "createMessage"]).Raise?)
    ensures reply.Replied? && In("errors", reply.data) == Ok(false) && Path(reply.data, ["data", "createMessage"]).Raise? ==>
      r == Raise(Path(reply.data, ["data", "createMessage"]).error)
    ensures reply.Replied? && !reply.data.Obj? ==> r == Raise(TypeError)
  {
    match reply
    case Failed(reason) => Ok(Response(500, py.dumps(Obj(map["error" := Str(reason)]))))
    case Replied(data) =>
      match In("errors", data)
      case Raise(e) => Raise(e)
      case Ok(true) =>
        (match Subscript(data, "errors")
         case Raise(e) => Raise(e)
         case Ok(errors) => Ok(Response(500, py.dumps(Obj(map["error" := errors])))))
      case Ok(false) =>
        match Path(data, ["data", "createMessage"])
        case Raise(e) => Raise(e)
        case Ok(created) => Ok(Response(200, py.dumps(created)))
  }

  /** `save_message_to_appsync(message)`: validates the message, then sends
      exactly one `createMessage` request and maps the reply. */
  function SaveMessage(py: Builtins, endpoint: Endpoint, sent: seq<Request>, message: map<string, Json>)
    : (r: (Result<Response>, seq<Request>))
    ensures MissingRequired(message) ==> r == (Ok(BadRequest(py)), sent)
    ensures !MissingRequired(message) ==>
      var request := Request(CreateMessage, message);
      r == (MessageReply(py, endpoint(sent, request)), sent + [request])
    ensures r.0.Ok? && r.0.value.statusCode == 400 <==> MissingRequired(message)
    ensures r.1 == sent <==> MissingRequired(message)
  {
    if MissingRequired(message) then (Ok(BadRequest(py)), sent)
    else
      var request := Request(CreateMessage, message);
      (MessageReply(py, endpoint(sent, request)), sent + [request])
  }

  /** The input of the `createConversation` mutation. */
  function ConversationInput(py: Builtins, userId: Json, timestamp: Json): (input: map<string, Json>)
    ensures input.Keys == {"createdAt", "summary", "title", "userId"}
    ensures input["createdAt"] == timestamp && input["userId"] == userId
    ensures input["summary"] == Str("")
    ensures timestamp.Str? ==> input["title"] == Str("Conversation at " + timestamp.s)
  {
    map[
      "createdAt" := timestamp,
      "summary" := Str(""),
      "title" := Str("Conversation at " + Format(py, timestamp)),
      "userId" := userId
    ]
  }

  /** How `save_conversation_to_appsync` turns the reply into the new id:
      `Null` (Python's None) on a failed request or a reply holding `errors`,
      otherwise `data.createConversation.id`.  A reply of the wrong shape raises,
      including a list or string holding "errors", whose `errors` entry the
      log message subscripts. */
  function ConversationReply(reply: Reply): (r: Result<Json>)
    ensures reply.Failed? ==> r == Ok(Null)
    ensures reply.Replied? && reply.data.Obj? && "errors" in reply.data.fields ==> r == Ok(Null)
    ensures r.Ok? && r.value != Null ==>
      reply.Replied? && In("errors", reply.data) == Ok(false) &&
      r == Path(reply.data, ["data", "createConversation", "id"])
    ensures reply.Replied? && In("errors", reply.data) == Ok(false) ==>
      r == Path(reply.data, ["data", "createConversation", "id"])
    ensures reply.Replied? && !reply.data.Obj? ==> r == Raise(TypeError)
  {
    match reply
    case Failed(_) => Ok(Null)
    case Replied(data) =>
      match In("errors", data)
      case Raise(e) => Raise(e)
      case Ok(true) =>
        (match Subscript(data, "errors")
         case Raise(e) => Raise(e)
         case Ok(_) => Ok(Null))
      case Ok(false) => Path(data, ["data", "createConversation", "id"])
  }

  /** The id is read in two steps, first `data.createConversation` and then
      its `id`; reading the three keys at once gives the same result. */
  lemma ConversationIdPath(data: Json)
    ensures Path(data, ["data", "createConversation", "id"]) ==
      match Path(data, ["data", "createConversation"])
      case Raise(e) => Raise(e)
      case Ok(created) => Subscript(created, "id")
  {
    PathAppend(data, ["data", "createConversation"], ["id"]);
    assert ["data", "createConversation"] + ["id"] == ["data", "createConversation", "id"];
  }

  /** `save_conversation_to_appsync(user_id, timestamp)`: sends exactly one
      `createConversation` request and returns the created id, or `Null`. */
  function SaveConversation(py: Builtins, endpoint: Endpoint, sent: seq<Request>, userId: Json, timestamp: Json)
    : (r: (Result<Json>, seq<Request>))
    ensures |r.1| == |sent| + 1 && r.1[..|sent|] == sent
    ensures r.1[|sent|] == Request(CreateConversation, ConversationInput(py, userId, timestamp))
    ensures r.0 == ConversationReply(endpoint(sent, r.1[|sent|]))
  {
    var request := Request(CreateConversation, ConversationInput(py, userId, timestamp));
    (ConversationReply(endpoint(sent, request)), sent + [request])
  }
}
