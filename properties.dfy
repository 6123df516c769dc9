/** Properties of the pipeline over whole batches: how many requests of each
    kind a batch sends, what the collected results look like, and that a
    batch is processed record after record. */
module PipelineProperties {
  import opened Py
  import opened AppSync
  import opened Pipeline

  /** The number of requests of one kind in a log. */
  function Count(log: seq<Request>, m: Mutation): (n: nat)
    ensures n <= |log|
  {
    if log == [] then 0
    else Count(log[..|log| - 1], m) + (if log[|log| - 1].mutation == m then 1 else 0)
  }

  lemma {:induction false} CountAppend(a: seq<Request>, b: seq<Request>, m: Mutation)
    ensures Count(a + b, m) == Count(a, m) + Count(b, m)
    decreases |b|
  {
    if b == [] {
      assert a + b == a;
    } else {
      assert (a + b)[..|a + b| - 1] == a + b[..|b| - 1];
      CountAppend(a, b[..|b| - 1], m);
    }
  }

  /** A record is accepted exactly when its body is a dict whose content is
      a dict holding a query; the envelope carries that content and query,
      and the other fields with the defaults of `.get`. */
  lemma DecodeAccepts(py: Builtins, record: Json)
    ensures Body(py, record).Ok? && Body(py, record).value.Obj? ==>
      var f := Body(py, record).value.fields;
      "content" in f && f["content"].Obj? && "query" in f["content"].fields ==>
      Decode(py, record) == Ok(Some(Envelope(
        f["content"], f["content"].fields["query"],
        DictGet(f, "userId", Str("")), DictGet(f, "timestamp", Str("")),
        DictGet(f, "conversationId", Str("")), DictGet(f, "supportingContent", Str("{}")))))
    ensures Decode(py, record).Ok? && Decode(py, record).value.Some? ==>
      Body(py, record).Ok? && Body(py, record).value.Obj? &&
      var f := Body(py, record).value.fields;
      "content" in f && f["content"].Obj? && "query" in f["content"].fields &&
      Decode(py, record).value.value.content == f["content"] &&
      Decode(py, record).value.value.query == f["content"].fields["query"]
  {
  }

  /** Resolving the conversation sends no message and at most one
      conversation request. */
  lemma ResolveCounts(env: Env, e: Envelope, sent: seq<Request>)
    ensures var (_, before) := Resolve(env, e, sent);
      && sent <= before
      && Count(before, CreateMessage) == Count(sent, CreateMessage)
      && Count(before, CreateConversation) <= Count(sent, CreateConversation) + 1
  {
    var (_, before) := Resolve(env, e, sent);
    if MissingId(e.conversationId) {
      assert before[..|before| - 1] == sent;
    } else {
      assert before == sent;
    }
  }

  /** The two saves send one or two message requests and nothing else, and
      two whenever they raise nothing. */
  lemma ConverseCounts(env: Env, e: Envelope, id: Json, before: seq<Request>)
    ensures var (outcome, after) := Converse(env, e, id, before);
      && before <= after
      && Count(after, CreateConversation) == Count(before, CreateConversation)
      && Count(before, CreateMessage) + 1 <= Count(after, CreateMessage) <= Count(before, CreateMessage) + 2
      && (outcome.Ok? ==> Count(after, CreateMessage) == Count(before, CreateMessage) + 2)
  {
    var (text, citations) := Normalize(Answer(env, e.query));
    var user := Request(CreateMessage, UserMessage(env.py, e, id));
    var bot := Request(CreateMessage, BotMessage(env.py, e, id, text, citations));
    var (outcome, after) := Converse(env, e, id, before);
    assert [user, bot][..1] == [user];
    CountAppend(before, [user], CreateConversation);
    CountAppend(before, [user], CreateMessage);
    CountAppend(before, [user, bot], CreateConversation);
    CountAppend(before, [user, bot], CreateMessage);
    assert after == before + [user] || after == before + [user, bot];
  }

  /** A decoded record sends at most one conversation request and at most
      two message requests; a skipped one sends no message, a saved one
      exactly two. */
  lemma ProcessCounts(env: Env, e: Envelope, sent: seq<Request>)
    ensures var (outcome, after) := Process(env, e, sent);
      && sent <= after
      && Count(after, CreateConversation) <= Count(sent, CreateConversation) + 1
      && Count(after, CreateMessage) <= Count(sent, CreateMessage) + 2
      && (outcome == Ok(Skipped) ==> Count(after, CreateMessage) == Count(sent, CreateMessage))
      && (outcome.Ok? && outcome.value.Saved? ==> Count(after, CreateMessage) == Count(sent, CreateMessage) + 2)
  {
    var (id, before) := Resolve(env, e, sent);
    ResolveCounts(env, e, sent);
    if id.Ok? && id.value != Null {
      ConverseCounts(env, e, id.value, before);
    }
  }

  /** One record sends at most one conversation request and at most two
      message requests; a skipped record sends no message, a saved one
      exactly two. */
  lemma StepCounts(env: Env, record: Json, sent: seq<Request>)
    ensures var (outcome, after) := Step(env, record, sent);
      && sent <= after
      && Count(after, CreateConversation) <= Count(sent, CreateConversation) + 1
      && Count(after, CreateMessage) <= Count(sent, CreateMessage) + 2
      && (outcome == Ok(Skipped) ==> Count(after, CreateMessage) == Count(sent, CreateMessage))
      && (outcome.Ok? && outcome.value.Saved? ==> Count(after, CreateMessage) == Count(sent, CreateMessage) + 2)
  {
    var decoded := Decode(env.py, record);
    if decoded.Ok? && decoded.value.Some? {
      ProcessCounts(env, decoded.value.value, sent);
    }
  }

  /** A record that decodes and whose conversation is known goes on to
      the two saves. */
  lemma StepConverses(env: Env, record: Json, sent: seq<Request>, e: Envelope, id: Json, before: seq<Request>)
    requires Decode(env.py, record) == Ok(Some(e))
    requires Resolve(env, e, sent) == (Ok(id), before) && id != Null
    ensures Step(env, record, sent) == Converse(env, e, id, before)
  {
    assert Step(env, record, sent) == Process(env, e, sent);
  }

  /** A batch of one saved record collects that record's result. */
  lemma RunOneSaved(env: Env, record: Json, sent: seq<Request>, result: Response, after: seq<Request>)
    requires Step(env, record, sent) == (Ok(Saved(result)), after)
    ensures Run(env, [record], sent, []) == (Ok([result]), after)
  {
    assert [record][1..] == [];
    assert [] + [result] == [result];
  }

  /** A batch of one saved record answers 200 with that record's result. */
  lemma InvokeOneSaved(env: Env, record: Json, sent: seq<Request>, result: Response, after: seq<Request>)
    requires Step(env, record, sent) == (Ok(Saved(result)), after)
    ensures Invoke(env, Obj(map["Records" := Arr([record])]), sent) == (Respond(env.py, Ok([result])), after)
  {
    RunOneSaved(env, record, sent, result, after);
    assert Records(Obj(map["Records" := Arr([record])])) == Ok([record]);
  }

  /** A batch of one record that decodes, whose conversation is resolved
      and whose two saves succeed answers 200 with the bot's result. */
  lemma InvokeOneConversed(env: Env, record: Json, e: Envelope, id: Json, before: seq<Request>, result: Response, after: seq<Request>)
    requires Decode(env.py, record) == Ok(Some(e))
    requires Resolve(env, e, []) == (Ok(id), before) && id != Null
    requires Converse(env, e, id, before) == (Ok(Saved(result)), after)
    ensures Invoke(env, Obj(map["Records" := Arr([record])]), []) == (Respond(env.py, Ok([result])), after)
  {
    StepConverses(env, record, [], e, id, before);
    InvokeOneSaved(env, record, [], result, after);
  }

  /** Every result a batch collects is the store's 200 or 500: the messages
      the loop builds always pass validation, so none gets the 400. */
  lemma {:induction false} RunResultsAreStoreReplies(env: Env, records: seq<Json>, sent: seq<Request>, results: seq<Response>)
    ensures var (outcome, _) := Run(env, records, sent, results);
      outcome.Ok? ==> forall i :: |results| <= i < |outcome.value| ==>
        outcome.value[i].statusCode == 200 || outcome.value[i].statusCode == 500
    decreases |records|
  {
    if records != [] {
      var (o, next) := Step(env, records[0], sent);
      if o.Ok? {
        match o.value
        case Skipped =>
          RunResultsAreStoreReplies(env, records[1..], next, results);
        case Saved(response) =>
          RunResultsAreStoreReplies(env, records[1..], next, results + [response]);
      }
    }
  }

  /** A batch that raises nothing sends exactly two message requests per
      collected result, and one conversation request at most per record. */
  lemma {:induction false} RunCounts(env: Env, records: seq<Json>, sent: seq<Request>, results: seq<Response>)
    ensures var (outcome, after) := Run(env, records, sent, results);
      && Count(after, CreateConversation) <= Count(sent, CreateConversation) + |records|
      && (outcome.Ok? ==>
            Count(after, CreateMessage) == Count(sent, CreateMessage) + 2 * (|outcome.value| - |results|))
    decreases |records|
  {
    if records != [] {
      var (o, next) := Step(env, records[0], sent);
      StepCounts(env, records[0], sent);
      if o.Ok? {
        match o.value
        case Skipped =>
          RunCounts(env, records[1..], next, results);
        case Saved(response) =>
          RunCounts(env, records[1..], next, results + [response]);
      }
    }
  }

  /** The batch is processed in order: running it is running a prefix, then
      the rest from where the prefix left off; an exception in the prefix
      ends the batch there. */
  lemma {:induction false} RunConcat(env: Env, a: seq<Json>, b: seq<Json>, sent: seq<Request>, results: seq<Response>)
    ensures Run(env, a + b, sent, results) ==
      var (outcome, after) := Run(env, a, sent, results);
      if outcome.Raise? then (outcome, after) else Run(env, b, after, outcome.value)
    decreases |a|
  {
    if a == [] {
      assert a + b == b;
    } else {
      assert (a + b)[0] == a[0];
      assert (a + b)[1..] == a[1..] + b;
      var (o, next) := Step(env, a[0], sent);
      if o.Ok? {
        match o.value
        case Skipped =>
          RunConcat(env, a[1..], b, next, results);
        case Saved(response) =>
          RunConcat(env, a[1..], b, next, results + [response]);
      }
    }
  }

  /** A batch of records that all lack content.query sends nothing and
      returns 200 with the results it was given. */
  lemma {:induction false} RunSkipsAll(env: Env, records: seq<Json>, sent: seq<Request>, results: seq<Response>)
    requires forall i :: 0 <= i < |records| ==> Decode(env.py, records[i]) == Ok(None)
    ensures Run(env, records, sent, results) == (Ok(results), sent)
    decreases |records|
  {
    if records != [] {
      assert Decode(env.py, records[0]) == Ok(None);
      RunSkipsAll(env, records[1..], sent, results);
    }
  }

  /** An invocation answers 200 exactly when no exception escaped the loop;
      its requests extend the log it started from. */
  lemma InvokeStatus(env: Env, event: Json, sent: seq<Request>)
    ensures var (response, after) := Invoke(env, event, sent);
      && sent <= after
      && (response.statusCode == 200 <==> Records(event).Ok? && Run(env, Records(event).value, sent, []).0.Ok?)
      && (response.statusCode == 200 || response.statusCode == 500)
  {
  }
}
