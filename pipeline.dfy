/** `lambda_handler`: the loop over a batch of queued records.

    For each record the body is decoded; a record without `content.query` is
    skipped; a conversation is created when the record carries no
    conversation id (and the record is skipped when that fails); the query
    is classified and answered; then the user's message and the bot's reply
    are saved, in that order, and the result of saving the reply is
    collected.  Any exception raised inside the loop discards the collected
    results and makes the whole invocation a 500.

    `Step` and `Run` state what one record and a whole batch do;
    `LambdaHandler` is the loop itself, proved to agree with them. */
module Pipeline {
  import opened Py
  import opened AppSync
  import opened Intent

  /** The collaborators of one invocation. */
  datatype Env = Env(py: Builtins, endpoint: Endpoint, classifier: Classifier, handlers: Handlers)

  /** The parts of a record's body that the pipeline reads, with the
      defaults of `.get` already applied. */
  datatype Envelope = Envelope(
    content: Json,
    query: Json,
    userId: Json,
    timestamp: Json,
    conversationId: Json,
    supportingContent: Json)

  /** What became of a record that raised nothing. */
  datatype Outcome = Skipped | Saved(result: Response)

  /** `json.loads(record['body'])`. */
  function Body(py: Builtins, record: Json): (r: Result<Json>)
    ensures r.Ok? ==> record.Obj? && "body" in record.fields && record.fields["body"].Str?
  {
    match Subscript(record, "body")
    case Raise(e) => Raise(e)
    case Ok(text) => Loads(py, text)
  }

  /** The body is decoded exactly when the record is a dict whose `body` is
      text the parser accepts, and it is what the parser returns. */
  lemma BodyParses(py: Builtins, record: Json)
    ensures Body(py, record).Ok? <==>
      record.Obj? && "body" in record.fields && record.fields["body"].Str? &&
      py.loads(record.fields["body"].s).Some?
    ensures Body(py, record).Ok? ==> py.loads(record.fields["body"].s) == Some(Body(py, record).value)
  {
  }

  /** The skip rule: the body has no `content`, or the content has no
      `query`, where "has" is Python's `in`. */
  predicate LacksQuery(body: Json)
    ensures body.Obj? ==>
      (LacksQuery(body) <==>
         "content" !in body.fields || In("query", body.fields["content"]) == Ok(false))
    ensures body.Arr? ==> (LacksQuery(body) <==> Str("content") !in body.items)
    ensures body.Str? ==> (LacksQuery(body) <==> !Occurs("content", body.s))
    ensures body.Null? || body.Bool? || body.Num? ==> !LacksQuery(body)
  {
    || In("content", body) == Ok(false)
    || (body.Obj? && "content" in body.fields && In("query", body.fields["content"]) == Ok(false))
  }

  /** Decodes a record: an exception, None for a record to skip, or the
      envelope of a record to process. */
  function Decode(py: Builtins, record: Json): (r: Result<Option<Envelope>>)
    ensures Body(py, record).Raise? ==> r == Raise(Body(py, record).error)
    ensures r == Ok(None) <==> Body(py, record).Ok? && LacksQuery(Body(py, record).value)
  {
    match Body(py, record)
    case Raise(e) => Raise(e)
    case Ok(body) =>
      match In("content", body)
      case Raise(e) => Raise(e)
      case Ok(false) => Ok(None)
      case Ok(true) =>
        match Subscript(body, "content")
        case Raise(e) => Raise(e)
        case Ok(content) =>
          match In("query", content)
          case Raise(e) => Raise(e)
          case Ok(false) => Ok(None)
          case Ok(true) =>
            match Subscript(content, "query")
            case Raise(e) => Raise(e)
            case Ok(query) =>
              var f := body.fields;
              Ok(Some(Envelope(
                content, query,
                DictGet(f, "userId", Str("")), DictGet(f, "timestamp", Str("")),
                DictGet(f, "conversationId", Str("")), DictGet(f, "supportingContent", Str("{}")))))
  }

  /** A conversation id counts as missing when it is None or empty. */
  predicate MissingId(conversationId: Json)
    ensures MissingId(conversationId) ==> conversationId.Null? || conversationId.Str?
    ensures conversationId.Str? ==> (MissingId(conversationId) <==> |conversationId.s| == 0)
    ensures conversationId.Null? ==> MissingId(conversationId)
  {
    conversationId == Null || conversationId == Str("")
  }

  /** The request that creates a conversation for a record. */
  function ConversationRequest(py: Builtins, e: Envelope): Request {
    Request(CreateConversation, ConversationInput(py, e.userId, e.timestamp))
  }

  /** The classifier's label for the query, answered by the handler it selects. */
  function Answer(env: Env, query: Json): Json
  {
    HandleIntent(env.handlers, ClassifyIntent(env.classifier, query), query)
  }

  /** A query whose classification failed is answered by the knowledge-base
      handler; otherwise by the handler its label routes to.  A failing
      handler is replaced by the apology. */
  lemma AnswerRoutes(env: Env, query: Json)
    ensures env.classifier(query).None? ==>
      Answer(env, query) == env.handlers(KnowledgeBase, query).GetOr(Str(Apology))
    ensures env.classifier(query).Some? ==>
      Answer(env, query) == env.handlers(Route(env.classifier(query).value), query).GetOr(Str(Apology))
  {
  }

  /** A handler's answer split into reply text and citations: a dict gives
      its `text` (default '') and `citations` (default {}), anything else is
      the text itself with no citations. */
  function Normalize(answer: Json): (r: (Json, Json))
    ensures answer.Obj? && "text" in answer.fields ==> r.0 == answer.fields["text"]
    ensures answer.Obj? && "text" !in answer.fields ==> r.0 == Str("")
    ensures answer.Obj? && "citations" in answer.fields ==> r.1 == answer.fields["citations"]
    ensures answer.Obj? && "citations" !in answer.fields ==> r.1 == Obj(map[])
    ensures !answer.Obj? ==> r == (answer, Obj(map[]))
  {
    match answer
    case Obj(f) => (DictGet(f, "text", Str("")), DictGet(f, "citations", Obj(map[])))
    case _ => (answer, Obj(map[]))
  }

  /** The user's turn, saved first. */
  function UserMessage(py: Builtins, e: Envelope, conversationId: Json): (m: map<string, Json>)
    ensures m.Keys == {"conversationId", "userId", "isBot", "content", "supportingContent", "timestamp", "citations"}
    ensures !MissingRequired(m)
    ensures m["conversationId"] == conversationId && m["userId"] == e.userId && m["timestamp"] == e.timestamp
    ensures m["isBot"] == Bool(false)
    ensures m["content"] == Str(py.dumps(e.content))
    ensures m["supportingContent"] == Str(py.dumps(e.supportingContent))
    ensures m["citations"] == Str(py.dumps(Obj(map[])))
  {
    map[
      "conversationId" := conversationId,
      "userId" := e.userId,
      "isBot" := Bool(false),
      "content" := Str(py.dumps(e.content)),
      "supportingContent" := Str(py.dumps(e.supportingContent)),
      "timestamp" := e.timestamp,
      "citations" := Str(py.dumps(Obj(map[])))
    ]
  }

  /** The bot's reply, saved second: it belongs to the same conversation,
      user and timestamp as the user's turn and carries the same supporting
      content. */
  function BotMessage(py: Builtins, e: Envelope, conversationId: Json, text: Json, citations: Json)
    : (m: map<string, Json>)
    ensures m.Keys == {"conversationId", "userId", "isBot", "content", "supportingContent", "timestamp", "citations"}
    ensures !MissingRequired(m)
    ensures m["conversationId"] == conversationId && m["userId"] == e.userId && m["timestamp"] == e.timestamp
    ensures m["isBot"] == Bool(true)
    ensures m["content"] == Str(py.dumps(Obj(map["response" := text])))
    ensures m["supportingContent"] == Str(py.dumps(e.supportingContent))
    ensures m["citations"] == Str(py.dumps(citations))
  {
    map[
      "conversationId" := conversationId,
      "userId" := e.userId,
      "isBot" := Bool(true),
      "content" := Str(py.dumps(Obj(map["response" := text]))),
      "citations" := Str(py.dumps(citations)),
      "supportingContent" := Str(py.dumps(e.supportingContent)),
      "timestamp" := e.timestamp
    ]
  }

  /** The two saves of a record whose conversation is known: the user's
      turn, then the bot's reply.  The user save's result is dropped: the
      reply is saved and collected whatever status the user save returned,
      and only an exception from it stops the record. */
  function Converse(env: Env, e: Envelope, conversationId: Json, sent: seq<Request>)
    : (r: (Result<Outcome>, seq<Request>))
    ensures sent < r.1
    ensures r.0.Ok? ==> r.0.value.Saved? && (r.0.value.result.statusCode == 200 || r.0.value.result.statusCode == 500)
    ensures
      var user := Request(CreateMessage, UserMessage(env.py, e, conversationId));
      var (text, citations) := Normalize(Answer(env, e.query));
      var bot := Request(CreateMessage, BotMessage(env.py, e, conversationId, text, citations));
      var userSaved := MessageReply(env.py, env.endpoint(sent, user));
      var botSaved := MessageReply(env.py, env.endpoint(sent + [user], bot));
      && (userSaved.Raise? ==> r == (Raise(userSaved.error), sent + [user]))
      && (userSaved.Ok? && botSaved.Raise? ==> r == (Raise(botSaved.error), sent + [user, bot]))
      && (userSaved.Ok? && botSaved.Ok? ==> r == (Ok(Saved(botSaved.value)), sent + [user, bot]))
  {
    var (text, citations) := Normalize(Answer(env, e.query));
    var user := UserMessage(env.py, e, conversationId);
    var bot := BotMessage(env.py, e, conversationId, text, citations);
    var (userSaved, s1) := SaveMessage(env.py, env.endpoint, sent, user);
    assert s1 == sent + [Request(CreateMessage, user)];
    if userSaved.Raise? then (Raise(userSaved.error), s1)
    else
      var (botSaved, s2) := SaveMessage(env.py, env.endpoint, s1, bot);
      assert s2 == sent + [Request(CreateMessage, user), Request(CreateMessage, bot)];
      if botSaved.Raise? then (Raise(botSaved.error), s2)
      else (Ok(Saved(botSaved.value)), s2)
  }

  /** The conversation a record's messages go to: the id it carries, or,
      when that is missing, the id of a conversation created for it (`Null`
      when creation failed). */
  function Resolve(env: Env, e: Envelope, sent: seq<Request>): (r: (Result<Json>, seq<Request>))
    ensures sent <= r.1
    ensures MissingId(e.conversationId) ==>
      var request := ConversationRequest(env.py, e);
      r == (ConversationReply(env.endpoint(sent, request)), sent + [request])
    ensures !MissingId(e.conversationId) ==> r == (Ok(e.conversationId), sent)
  {
    if MissingId(e.conversationId) then SaveConversation(env.py, env.endpoint, sent, e.userId, e.timestamp)
    else (Ok(e.conversationId), sent)
  }

  /** A decoded record: the conversation is resolved first; a failed
      creation skips the record, and with an id both messages are saved
      under it. */
  function Process(env: Env, e: Envelope, sent: seq<Request>): (r: (Result<Outcome>, seq<Request>))
    ensures sent <= r.1
    ensures r.0.Ok? && r.0.value.Saved? ==> r.0.value.result.statusCode == 200 || r.0.value.result.statusCode == 500
    ensures
      var (id, before) := Resolve(env, e, sent);
      && (id.Raise? ==> r == (Raise(id.error), before))
      && (id == Ok(Null) ==> r == (Ok(Skipped), before))
      && (id.Ok? && id.value != Null ==> r == Converse(env, e, id.value, before))
  {
    var (id, before) := Resolve(env, e, sent);
    match id
    case Raise(err) => (Raise(err), before)
    case Ok(conversationId) =>
      if conversationId == Null then (Ok(Skipped), before)
      else Converse(env, e, conversationId, before)
  }

  /** One iteration of the loop: what a record does to the results and to
      the store.  A record that fails to decode, or lacks content.query,
      sends nothing. */
  function Step(env: Env, record: Json, sent: seq<Request>): (r: (Result<Outcome>, seq<Request>))
    ensures sent <= r.1
    ensures r.0.Ok? && r.0.value.Saved? ==> r.0.value.result.statusCode == 200 || r.0.value.result.statusCode == 500
    ensures Decode(env.py, record).Raise? ==> r == (Raise(Decode(env.py, record).error), sent)
    ensures Decode(env.py, record) == Ok(None) ==> r == (Ok(Skipped), sent)
    ensures Decode(env.py, record).Ok? && Decode(env.py, record).value.Some? ==>
      r == Process(env, Decode(env.py, record).value.value, sent)
  {
    match Decode(env.py, record)
    case Raise(err) => (Raise(err), sent)
    case Ok(None) => (Ok(Skipped), sent)
    case Ok(Some(e)) => Process(env, e, sent)
  }

  /** The loop over the records from a given point on, with the results
      collected so far: the collected results, or the exception that ended
      the loop, and the requests sent either way. */
  function Run(env: Env, records: seq<Json>, sent: seq<Request>, results: seq<Response>)
    : (r: (Result<seq<Response>>, seq<Request>))
    ensures sent <= r.1
    ensures r.0.Ok? ==> results <= r.0.value && |r.0.value| <= |results| + |records|
    decreases |records|
  {
    if records == [] then (Ok(results), sent)
    else
      var (outcome, next) := Step(env, records[0], sent);
      match outcome
      case Raise(e) => (Raise(e), next)
      case Ok(Skipped) => Run(env, records[1..], next, results)
      case Ok(Saved(response)) => Run(env, records[1..], next, results + [response])
  }

  /** `event['Records']` as the sequence the loop iterates.  Iterating a
      dict or a string yields strings, and subscripting a string with 'body'
      raises TypeError, so a non-empty dict or string raises at its first
      record, before anything is sent. */
  function Records(event: Json): (r: Result<seq<Json>>)
    ensures r.Ok? ==> event.Obj? && "Records" in event.fields
    ensures event.Obj? && "Records" in event.fields && event.fields["Records"].Arr? ==>
      r == Ok(event.fields["Records"].items)
  {
    match Subscript(event, "Records")
    case Raise(e) => Raise(e)
    case Ok(Arr(items)) => Ok(items)
    case Ok(Obj(f)) => if f == map[] then Ok([]) else Raise(TypeError)
    case Ok(Str(s)) => if s == "" then Ok([]) else Raise(TypeError)
    case Ok(_) => Raise(TypeError)
  }

  /** The results as the JSON list `json.dumps(results)` encodes. */
  function ResultsJson(results: seq<Response>): (j: Json)
    ensures j.Arr? && |j.items| == |results|
    ensures forall i :: 0 <= i < |results| ==> j.items[i] == results[i].ToJson()
  {
    Arr(seq(|results|, i requires 0 <= i < |results| => results[i].ToJson()))
  }

  /** The invocation's result: 200 with the encoded results, or 500 with
      the exception's message. */
  function Respond(py: Builtins, outcome: Result<seq<Response>>): (r: Response)
    ensures r.statusCode == 200 <==> outcome.Ok?
    ensures r.statusCode == 500 <==> outcome.Raise?
    ensures outcome.Ok? ==> r.body == py.dumps(ResultsJson(outcome.value))
    ensures outcome.Raise? ==> r.body == py.dumps(Str("Error: " + py.describe(outcome.error)))
  {
    match outcome
    case Ok(results) => Response(200, py.dumps(ResultsJson(results)))
    case Raise(e) => Response(500, py.dumps(Str("Error: " + py.describe(e))))
  }

  /** What one invocation on `event` returns, and the requests it sends. */
  function Invoke(env: Env, event: Json, sent: seq<Request>): (r: (Response, seq<Request>))
    ensures sent <= r.1
    ensures Records(event).Raise? ==> r.1 == sent && r.0.statusCode == 500
  {
    match Records(event)
    case Raise(e) => (Respond(env.py, Raise(e)), sent)
    case Ok(records) =>
      var (outcome, after) := Run(env, records, sent, []);
      (Respond(env.py, outcome), after)
  }

  /** `lambda_handler(event, context)`: the loop over the records. */
  method LambdaHandler(env: Env, event: Json, sent0: seq<Request>) returns (response: Response, sent: seq<Request>)
    ensures (response, sent) == Invoke(env, event, sent0)
  {
    sent := sent0;
    var records := Records(event);
    if records.Raise? {
      return Respond(env.py, Raise(records.error)), sent;
    }
    var results: seq<Response> := [];
    for i := 0 to |records.value|
      invariant Run(env, records.value, sent0, []) == Run(env, records.value[i..], sent, results)
    {
      assert records.value[i..][0] == records.value[i];
      assert records.value[i..][1..] == records.value[i + 1..];
      var decoded := Decode(env.py, records.value[i]);
      if decoded.Raise? {
        return Respond(env.py, Raise(decoded.error)), sent;
      }
      if decoded.value.None? {
        continue;
      }
      var e := decoded.value.value;
      var conversationId := e.conversationId;
      if MissingId(conversationId) {
        var created := SaveConversation(env.py, env.endpoint, sent, e.userId, e.timestamp);
        sent := created.1;
        if created.0.Raise? {
          return Respond(env.py, Raise(created.0.error)), sent;
        }
        conversationId := created.0.value;
        if conversationId == Null {
          continue;
        }
      }
      var userQuery := UserMessage(env.py, e, conversationId);
      var intent := ClassifyIntent(env.classifier, e.query);
      var answer := HandleIntent(env.handlers, intent, e.query);
      var (text, citations) := Normalize(answer);
      var saved := SaveMessage(env.py, env.endpoint, sent, userQuery);
      sent := saved.1;
      if saved.0.Raise? {
        return Respond(env.py, Raise(saved.0.error)), sent;
      }
      var aiResponse := BotMessage(env.py, e, conversationId, text, citations);
      saved := SaveMessage(env.py, env.endpoint, sent, aiResponse);
      sent := saved.1;
      if saved.0.Raise? {
        return Respond(env.py, Raise(saved.0.error)), sent;
      }
      results := results + [saved.0.value];
    }
    response := Respond(env.py, Ok(results));
  }
}
