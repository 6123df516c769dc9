# Legal assistant message processor, modelled in Dafny

This project models the message processor of a legal question-answering
service (`demo.py`). The processor is a queue-triggered handler. It takes a
batch of queued records and decodes each record's JSON body. A record without
`content.query` is skipped. A record without a conversation id first creates a
conversation in the AppSync GraphQL store. The query is then classified into
an intent and answered by the handler that intent selects. Finally the user's
message and the bot's reply are saved to the store, in that order. The result
of saving the reply is collected, and the batch answers 200 with the collected
results, or 500 when any exception escaped.

Modules:

- `Py` (`py.dfy`): the Python values the code works on.
  - Decoded JSON is the `Json` datatype.
  - `in`, subscripts and `json.loads` are modelled with the exceptions
    (`KeyError`, `TypeError`, the decode error) Python raises when applied to
    the wrong kind of value.
  - `.get` is only ever applied to dicts, because the subscript at
    `demo.py:182` has already raised for anything else, so it is modelled on
    a map. F-string formatting inserts a string as it is and any other value
    through `str()`.
  - `json.dumps`, `json.loads`, `str()` and exception messages are abstract
    functions held in `Builtins`.
- `AppSync` (`appsync.dfy`): `save_message_to_appsync` and
  `save_conversation_to_appsync`.
  - The HTTP endpoint is an oracle. Given the requests it has already
    received and a new request, it answers with the decoded reply body or
    with a request failure.
  - Every save takes the log of requests sent so far and returns it
    extended. Which requests are sent, how many, and in what order is
    therefore part of every contract.
- `Intent` (`intent.dfy`): `classify_intent` and `handle_intent`.
  - The classifier and the four handlers are oracles that may fail.
- `Pipeline` (`pipeline.dfy`): `lambda_handler`.
  - `Step` is what one record does; `Run` is the loop over a batch; `Invoke`
    is a whole invocation.
  - `LambdaHandler` is the loop itself, written as a method with `continue`
    and early returns. It is proved equal to `Invoke`.
- `PipelineProperties` (`properties.dfy`): properties of whole batches.
  - Request counts per record and per batch.
  - Every collected result is a store reply (200 or 500), never the 400.
  - Batches compose sequentially.
  - Skipped records send nothing.
- `Scenarios` (`scenarios.dfy`): worked examples.
  - A greeting on a new conversation, end to end.
  - An answer that carries citations.

Behaviours of the code that the model keeps as written:

- Any exception raised while a record is processed ends the whole batch with
  a 500, and the results collected so far are discarded (`demo.py:177-178`,
  `demo.py:253-258`). Examples are a body that is not JSON, a `content` that
  is a string containing "query", or a store reply without `errors` that
  lacks `data.createMessage`. No record after
  the failing one is processed.
- A missing `supportingContent` defaults to the string `'{}'`, which is then
  encoded again, giving the JSON string `"{}"` rather than an empty object
  (`demo.py:207`, `demo.py:238`).
- The skip test uses Python's `in` (`demo.py:182`). A `content` that is a list
  or a string can pass it, and then subscripting it raises.
- The result of saving the user's message is discarded (`demo.py:228-229`). A
  500 from that save does not stop the reply from being saved and collected.
  Only an exception does.

## Model

| member | source | states |
|---|---|---|
| Py.In | demo.py:182 | `k in x` is dict membership for a dict, element membership for a list and substring search for a string. It raises exactly for None, booleans and numbers. |
| Py.Subscript | demo.py:189 | `x[k]` succeeds exactly when `x` is a dict holding `k`, giving the stored value. Otherwise a dict raises KeyError and any other value raises TypeError. |
| Py.Path | demo.py:95-99 | A chain of subscripts. No keys gives the value itself, and one key is a single subscript. |
| Py.PathAppend | demo.py:140-141 | A chain of subscripts splits at any point: the path `a + b` raises where the path `a` raises, and otherwise is the path `b` from the value `a` reached. |
| Py.DictGet | demo.py:187 | `d.get(k, default)` is the stored value when `k` is present and `default` otherwise. |
| Py.OccursIffFound | demo.py:182 | `k in s` on strings holds exactly when `k` is found at some position of `s`. |
| Py.Format | demo.py:114 | An f-string inserts a string unchanged. |
| Py.Loads | demo.py:179 | `json.loads` succeeds exactly on a string the parser accepts. It raises a decode error on other text and TypeError on a non-string. |
| AppSync.Response.ToJson | demo.py:97-100 | A result is the dict with exactly the keys statusCode and body, holding its status and its body string. |
| AppSync.MissingRequired | demo.py:63 | A message fails validation exactly when one of conversationId, userId, content and citations is not among its keys. |
| AppSync.BadRequest | demo.py:64-68 | The validation failure is a 400. |
| AppSync.MessageReply | demo.py:84-106 | A failed request gives 500 with its message. A reply with `errors` gives 500 carrying them. A 200 happens exactly when the reply has no `errors` and has `data.createMessage`, whose encoding is the body. An exception escapes only for a reply that is not a dict or lacks that path, and a dict reply without `errors` that lacks the path raises the subscript's exception. A reply that is not a dict raises TypeError. |
| AppSync.SaveMessage | demo.py:60-106 | A message missing a field gets the 400 and sends nothing. Otherwise exactly one createMessage request carrying the message is appended, and the reply is mapped. Status 400 and "nothing sent" each hold exactly when a field is missing. |
| AppSync.ConversationInput | demo.py:111-116 | The conversation input has keys createdAt, summary, title and userId. createdAt is the timestamp, the summary is empty, and the title is "Conversation at " followed by the timestamp. |
| AppSync.ConversationReply | demo.py:132-144 | A failed request or a dict reply with `errors` gives None. A reply that is not a dict raises TypeError, including a list or string holding "errors" (the log message subscripts it). A reply without `errors` gives `data.createConversation.id`, or the exception that subscript chain raises. A non-None id comes only from such a reply. |
| AppSync.ConversationIdPath | demo.py:140-141 | Reading `data.createConversation` and then its `id` is the one three-key path: it raises where the first two keys raise, and otherwise subscripts `id`. |
| AppSync.SaveConversation | demo.py:109-144 | Exactly one createConversation request with that input is appended. The result is the id taken from its reply. |
| Intent.Route | demo.py:160-167 | Each of the three labels selects its own handler, and every other intent selects the fallback (both directions). |
| Intent.RouteInvertsLabel | demo.py:160-165 | Every labelled handler is the one its label selects. |
| Intent.ClassifyIntent | demo.py:147-155 | The classifier's label, or "knowledge_base" when it raised. |
| Intent.HandleIntent | demo.py:158-172 | The answer of the handler the intent selects, or the fixed apology when that handler raised. |
| Pipeline.Body | demo.py:179 | A decoded body comes only from a dict record whose `body` is a string. |
| Pipeline.BodyParses | demo.py:179 | Reading the body succeeds exactly when the record is a dict whose `body` is a string that `json.loads` accepts, and the result is what `json.loads` returns. |
| Pipeline.LacksQuery | demo.py:182 | For a dict body, the record is skipped exactly when it has no `content` or `query` is not in the content. A list body is skipped exactly when it lacks the element "content", and a string body exactly when "content" is not a substring of it. None, a boolean or a number is never skipped (the `in` raises). |
| Pipeline.Decode | demo.py:179-193 | An exception from reading or parsing the body escapes. A record is skipped exactly when the body parses and lacks `content` or `content.query` (Python `in`). |
| Pipeline.MissingId | demo.py:194 | An id is missing only when it is None or a string, always when it is None, and for a string exactly when it is empty. |
| Pipeline.AnswerRoutes | demo.py:213-216 | A query whose classification failed is answered by the knowledge-base handler, and otherwise by the handler its label routes to. A failing handler gives the apology. |
| Pipeline.Normalize | demo.py:219-224 | A dict answer gives its `text` (default '') and `citations` (default {}). Any other answer is itself the text, with empty citations. |
| Pipeline.UserMessage | demo.py:202-210 | The user's message passes validation. It has exactly the seven keys, isBot false, the encoded content and empty citations, under the given conversation. |
| Pipeline.BotMessage | demo.py:232-241 | The reply passes validation. It has the same keys, conversation, user, timestamp and supporting content as the user's message, isBot true, content `{"response": text}` encoded, and the citations encoded. |
| Pipeline.Converse | demo.py:226-247 | The user's message is sent first and then the reply. An exception from the first save stops after one request. Otherwise both are sent, and the outcome is the reply's saved result or its exception. A collected result is 200 or 500. |
| Pipeline.Resolve | demo.py:193-199 | A missing id (None or '') sends one createConversation request and yields the created id. A present id sends nothing. |
| Pipeline.Process | demo.py:193-247 | A failed creation (None) skips the record. An exception escapes. With an id, the two saves follow. |
| Pipeline.Step | demo.py:178-247 | A body exception escapes with nothing sent. A record without a query is skipped with nothing sent. Any other record is processed. The log only grows. |
| Pipeline.Run | demo.py:176-252 | The loop: the log only grows, and results are only appended, at most one per record. |
| Pipeline.Records | demo.py:178 | A list of records is iterated as it is. A batch yields records only when the event is a dict holding Records. |
| Pipeline.ResultsJson | demo.py:251 | The encoded result list has one `{statusCode, body}` entry per result, in order. |
| Pipeline.Respond | demo.py:249-258 | 200 exactly when nothing escaped, with the encoded results. 500 exactly when an exception escaped, with "Error: " and its message. |
| Pipeline.Invoke | demo.py:175-258 | A batch whose Records cannot be read answers 500 and sends nothing. The log only grows. |
| Pipeline.LambdaHandler | demo.py:175-258 | The loop with `continue` and early returns yields exactly the response and requests of `Invoke`. |
| PipelineProperties.DecodeAccepts | demo.py:182-193 | A dict body whose content is a dict holding a query is accepted, with the `.get` defaults '', '', '' and '{}'. Only such bodies are accepted. |
| PipelineProperties.ResolveCounts | demo.py:193-199 | Resolving a conversation sends no message and at most one conversation request. |
| PipelineProperties.ConverseCounts | demo.py:226-247 | The saves send one or two message requests and no conversation request, and two when nothing escaped. |
| PipelineProperties.ProcessCounts | demo.py:193-247 | A decoded record sends at most one conversation and two message requests. A skip sends no message and a saved record exactly two. |
| PipelineProperties.StepCounts | demo.py:178-247 | The same bounds hold for any record. |
| PipelineProperties.StepConverses | demo.py:193-247 | A decoded record with a resolved id goes on to the two saves. |
| PipelineProperties.RunOneSaved | demo.py:176-247 | A batch of one saved record collects exactly that record's result. |
| PipelineProperties.InvokeOneSaved | demo.py:175-252 | A batch of one saved record answers 200 with that result. |
| PipelineProperties.InvokeOneConversed | demo.py:175-252 | A decoded, resolved record whose saves succeed makes the batch answer 200 with the reply's result. |
| PipelineProperties.RunResultsAreStoreReplies | demo.py:247 | Every collected result is the store's 200 or 500, never the validation 400. |
| PipelineProperties.RunCounts | demo.py:176-252 | A batch with no exception sends exactly two message requests per collected result, and at most one conversation request per record. |
| PipelineProperties.RunConcat | demo.py:178-247 | Records are processed in order: a batch is its prefix, then the rest from where the prefix left off. An exception in the prefix ends the batch there. |
| PipelineProperties.RunSkipsAll | demo.py:182-184 | A batch whose records all lack a query sends nothing and keeps the results unchanged. |
| PipelineProperties.InvokeStatus | demo.py:249-258 | An invocation answers 200 exactly when Records could be read and no exception escaped the loop. Otherwise it answers 500, and the log only grows. |
| Scenarios.HelloRecordBody | demo.py:179 | A record `{"body": text}` whose text parses to a body yields that body. |
| Scenarios.HelloDecodes | demo.py:182-193 | The example body decodes to user u1, timestamp T1, an empty conversation id and the default supporting content. |
| Scenarios.NewConversationResolves | demo.py:193-199 | Against a store that creates conversation c1, a missing id becomes c1 after one request. |
| Scenarios.GreetingConverses | demo.py:212-247 | A query classified as a greeting is answered by the greeting handler. Both messages are sent, and the reply's 200 is collected. |
| Scenarios.HelloConversationRequest | demo.py:111-116 | The example's conversation request is titled "Conversation at T1". |
| Scenarios.HelloMessages | demo.py:202-241 | Both example messages are under c1 for user u1. The user's carries the query and the bot's carries the greeting and empty citations. |
| Scenarios.GreetingOnNewConversation | demo.py:175-252 | End to end, the batch sends the conversation request, the user's message and the reply, in that order, and answers 200 with one result. |
| Scenarios.GreetingResponse | demo.py:249-252 | The example's response is 200 with the single result encoded. |
| Scenarios.AnswerWithCitations | demo.py:219-237 | A dict answer's text is saved as `{"response": text}` and its citations are encoded on their own. |

## Left out

- HTTP transport: the URL, API key, headers and GraphQL mutation text are not modelled. The endpoint is an oracle over the request log, and each request is a mutation kind plus its input.
- Environment configuration (`demo.py:18-26`) and the failure when variables are missing are not modelled.
- Logging and `print` are not modelled as output. The subscripts inside their messages are modelled where they can raise: `demo.py:137` subscripts `errors` on a reply that holds it, which raises TypeError for a list or string reply, and `demo.py:95` and `demo.py:140` read the same keys the code reads right after them.
- `json.dumps`, `json.loads`, `str()` and exception messages are abstract. The exact serialisation, key order and float formatting are not modelled, and numbers are integers only.
- A reply body that is not JSON is modelled as a request failure (`Failed`). With requests 2.27 or later, `requests` raises a `JSONDecodeError` there that derives from `RequestException`, and it is caught like one. Older versions raise a plain `ValueError`, which would escape; that case is not modelled.
- `LegalIntentClassifier` and the four handlers are oracles. Their internals live in modules that are not part of this model, and only their success or failure and their answer matter here. Their answers are taken to be JSON values, so `json.dumps` of the reply text and citations (`demo.py:236-237`) never raises in the model. A handler answer that `json.dumps` rejects, such as a custom object among the citations, would raise TypeError after the user's message was sent and make the batch answer 500. That case is not modelled.
- The `context` argument of `lambda_handler` is unused by the code and is not modelled.
- Pipeline.Records: iterating a dict or a string `Records` is not modelled element by element. A non-empty one raises TypeError at its first record, before anything is sent, which is the outcome Python produces. An empty one yields no records.
- AppSync.SaveMessage: only dict messages are modelled, which is all the processor passes.
- The classifier is constructed on every call (`demo.py:149`). A failing construction is covered by the classifier oracle failing.
- The infrastructure definitions (`infra-pulumi`) are deployment code and are not part of this model.
- Exception messages: `TypeError` and the decode error carry no per-site detail, and `KeyError` carries only its key, so `describe` gives one message per kind of exception. Python's messages differ between sites (for example "argument of type 'NoneType' is not iterable" and "string indices must be integers"), so the 500 bodies of two different TypeErrors are the same here.
