/** Two worked examples: a greeting on a new conversation, and an answer
    that carries citations. */
module Scenarios {
  import opened Py
  import opened AppSync
  import opened Intent
  import opened Pipeline
  import opened PipelineProperties

  /** The body of the queued message: user u1, no conversation yet, query "hello". */
  function HelloBody(): Json {
    Obj(map[
      "userId" := Str("u1"),
      "conversationId" := Str(""),
      "timestamp" := Str("T1"),
      "content" := Obj(map["query" := Str("hello")])
    ])
  }

  /** What the pipeline reads from that body. */
  function HelloEnvelope(): Envelope {
    Envelope(Obj(map["query" := Str("hello")]), Str("hello"), Str("u1"), Str("T1"), Str(""), Str("{}"))
  }

  /** A reply of the store that creates what it is asked to, with the given id. */
  function Created(mutation: string, id: string): Json {
    Obj(map["data" := Obj(map[mutation := Obj(map["id" := Str(id)])])])
  }

  /** A queued record `{"body": text}` whose text parses to that body. */
  lemma HelloRecordBody(py: Builtins, text: string)
    requires py.loads(text) == Some(HelloBody())
    ensures Body(py, Obj(map["body" := Str(text)])) == Ok(HelloBody())
  {
    assert Subscript(Obj(map["body" := Str(text)]), "body") == Ok(Str(text));
  }

  /** The record is processed, with the `.get` defaults for the fields it lacks. */
  lemma HelloDecodes(py: Builtins, record: Json)
    requires Body(py, record) == Ok(HelloBody())
    ensures Decode(py, record) == Ok(Some(HelloEnvelope()))
  {
  }

  /** Where the pipeline looks in such a reply: no `errors`, and the
      created item under `data`. */
  lemma CreatedPaths(mutation: string, id: string)
    ensures Path(Created(mutation, id), ["data", mutation, "id"]) == Ok(Str(id))
    ensures Path(Created(mutation, id), ["data", mutation]) == Ok(Obj(map["id" := Str(id)]))
    ensures In("errors", Created(mutation, id)) == Ok(false)
  {
    var data := Obj(map[mutation := Obj(map["id" := Str(id)])]);
    assert Subscript(Created(mutation, id), "data") == Ok(data);
    assert ["data", mutation, "id"][1..] == [mutation, "id"];
    assert [mutation, "id"][1..] == ["id"];
    assert ["data", mutation][1..] == [mutation];
  }

  /** The store of the scenario: every conversation it creates is c1,
      every message m1. */
  function StoreC1M1(log: seq<Request>, request: Request): Reply {
    match request.mutation
    case CreateConversation => Replied(Created("createConversation", "c1"))
    case CreateMessage => Replied(Created("createMessage", "m1"))
  }

  /** The reply saved for every message in the scenario. */
  function M1Saved(py: Builtins): Response {
    Response(200, py.dumps(Obj(map["id" := Str("m1")])))
  }

  /** A created message is a 200 carrying the created item. */
  lemma CreatedMessageReply(py: Builtins, id: string)
    ensures MessageReply(py, Replied(Created("createMessage", id))) == Ok(Response(200, py.dumps(Obj(map["id" := Str(id)]))))
  {
    CreatedPaths("createMessage", id);
  }

  /** A record without a conversation id gets conversation c1. */
  lemma NewConversationResolves(env: Env, e: Envelope)
    requires MissingId(e.conversationId)
    requires env.endpoint == StoreC1M1
    ensures Resolve(env, e, []) == (Ok(Str("c1")), [ConversationRequest(env.py, e)])
  {
    CreatedPaths("createConversation", "c1");
  }

  /** A greeting is answered with the greeting handler's text, and both
      messages are saved as m1. */
  lemma GreetingConverses(env: Env, e: Envelope, id: Json, before: seq<Request>)
    requires env.classifier(e.query) == Some(Str(GreetingLabel))
    requires env.handlers(Greeting, e.query) == Some(Str("Hi there!"))
    requires env.endpoint == StoreC1M1
    ensures Converse(env, e, id, before) == (
        Ok(Saved(M1Saved(env.py))),
        before + [Request(CreateMessage, UserMessage(env.py, e, id)),
                  Request(CreateMessage, BotMessage(env.py, e, id, Str("Hi there!"), Obj(map[])))])
  {
    CreatedMessageReply(env.py, "m1");
    assert Answer(env, e.query) == Str("Hi there!");
    assert Normalize(Str("Hi there!")) == (Str("Hi there!"), Obj(map[]));
  }

  /** The conversation created for the record, with its title. */
  lemma HelloConversationRequest(py: Builtins)
    ensures ConversationRequest(py, HelloEnvelope()) == Request(CreateConversation, map[
      "createdAt" := Str("T1"), "summary" := Str(""),
      "title" := Str("Conversation at T1"), "userId" := Str("u1")])
  {
    var input := ConversationInput(py, Str("u1"), Str("T1"));
    assert "Conversation at " + "T1" == "Conversation at T1";
    assert input["title"] == Str("Conversation at T1");
  }

  /** The two messages of the scenario: both under conversation c1, the
      user's carrying the query's content, the bot's the greeting. */
  lemma HelloMessages(py: Builtins)
    ensures var user := UserMessage(py, HelloEnvelope(), Str("c1"));
      var bot := BotMessage(py, HelloEnvelope(), Str("c1"), Str("Hi there!"), Obj(map[]));
      && user["conversationId"] == Str("c1") && bot["conversationId"] == Str("c1")
      && user["userId"] == Str("u1") && bot["userId"] == Str("u1")
      && user["isBot"] == Bool(false)
      && user["content"] == Str(py.dumps(Obj(map["query" := Str("hello")])))
      && bot["isBot"] == Bool(true)
      && bot["content"] == Str(py.dumps(Obj(map["response" := Str("Hi there!")])))
      && bot["citations"] == Str(py.dumps(Obj(map[])))
  {
  }

  /** The batch of a greeting on a new conversation, with what the store
      and the classifier were shown to do as hypotheses. */
  lemma NewConversationInvokes(env: Env, record: Json, e: Envelope, request: Request, user: Request, bot: Request)
    requires Decode(env.py, record) == Ok(Some(e))
    requires Resolve(env, e, []) == (Ok(Str("c1")), [request])
    requires Converse(env, e, Str("c1"), [request]) == (Ok(Saved(M1Saved(env.py))), [request] + [user, bot])
    ensures Invoke(env, Obj(map["Records" := Arr([record])]), []) == (
      Respond(env.py, Ok([M1Saved(env.py)])), [request, user, bot])
  {
    assert [request] + [user, bot] == [request, user, bot];
    InvokeOneConversed(env, record, e, Str("c1"), [request], M1Saved(env.py), [request, user, bot]);
  }

  /** A record whose id is missing gets a conversation first; the greeting is
      answered; the user's turn and the reply are saved under the new id; the
      batch answers 200 with the one result of saving the reply. */
  lemma GreetingOnNewConversation(env: Env, record: Json)
    requires Body(env.py, record) == Ok(HelloBody())
    requires env.classifier(Str("hello")) == Some(Str(GreetingLabel))
    requires env.handlers(Greeting, Str("hello")) == Some(Str("Hi there!"))
    requires env.endpoint == StoreC1M1
    ensures var e := HelloEnvelope();
      Invoke(env, Obj(map["Records" := Arr([record])]), []) == (
        Respond(env.py, Ok([M1Saved(env.py)])),
        [ConversationRequest(env.py, e),
         Request(CreateMessage, UserMessage(env.py, e, Str("c1"))),
         Request(CreateMessage, BotMessage(env.py, e, Str("c1"), Str("Hi there!"), Obj(map[])))])
  {
    var e := HelloEnvelope();
    var request := ConversationRequest(env.py, e);
    var user := Request(CreateMessage, UserMessage(env.py, e, Str("c1")));
    var bot := Request(CreateMessage, BotMessage(env.py, e, Str("c1"), Str("Hi there!"), Obj(map[])));
    HelloDecodes(env.py, record);
    NewConversationResolves(env, e);
    GreetingConverses(env, e, Str("c1"), [request]);
    NewConversationInvokes(env, record, e, request, user, bot);
  }

  /** The batch's answer: 200, with the one result encoded. */
  lemma GreetingResponse(py: Builtins)
    ensures Respond(py, Ok([M1Saved(py)])) ==
      Response(200, py.dumps(Arr([Obj(map["statusCode" := Num(200), "body" := Str(py.dumps(Obj(map["id" := Str("m1")])))])])))
  {
    assert ResultsJson([M1Saved(py)]) == Arr([M1Saved(py).ToJson()]);
  }

  /** A handler that answers with text and citations: the reply saved for
      the bot carries the text wrapped as `{response: text}` and the
      citations encoded on their own. */
  lemma AnswerWithCitations(py: Builtins, e: Envelope, conversationId: Json)
    ensures var (text, citations) := Normalize(Obj(map["text" := Str("Answer"), "citations" := Obj(map["doc1" := Str("url")])]));
      var m := BotMessage(py, e, conversationId, text, citations);
      && m["content"] == Str(py.dumps(Obj(map["response" := Str("Answer")])))
      && m["citations"] == Str(py.dumps(Obj(map["doc1" := Str("url")])))
  {
  }
}
