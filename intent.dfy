/** `classify_intent` and `handle_intent`: the query is classified into a
    label, and the label selects one of four handlers.

    The classifier and the handlers are oracles that may fail: `None` stands
    for an exception they raised.  Neither function lets such a failure
    escape; each substitutes a fixed default instead. */
module Intent {
  import opened Py

  const KnowledgeBaseLabel := "knowledge_base"
  const GreetingLabel := "greeting"
  const DoneLabel := "done"

  /** The reply that stands in for a handler that failed. */
  const Apology := "I'm sorry, I encountered an error processing your request. Please try again with a legal-related question."

  /** The four handlers a query can be sent to. */
  datatype Handler = KnowledgeBase | Greeting | Done | Fallback

  /** The intent classifier: a label for a query, or None when it raised. */
  type Classifier = Json -> Option<Json>

  /** The handlers: each one's answer to a query, or None when it raised. */
  type Handlers = (Handler, Json) -> Option<Json>

  /** The label that selects a handler; the fallback has none. */
  function Label(h: Handler): Option<string> {
    match h
    case KnowledgeBase => Some(KnowledgeBaseLabel)
    case Greeting => Some(GreetingLabel)
    case Done => Some(DoneLabel)
    case Fallback => None
  }

  /** The handler an intent selects: exactly the three labels have their own
      handler, any other value goes to the fallback. */
  function Route(intent: Json): (h: Handler)
    ensures h != Fallback ==> Label(h).Some? && intent == Str(Label(h).value)
    ensures h == Fallback <==> intent != Str(KnowledgeBaseLabel) && intent != Str(GreetingLabel) && intent != Str(DoneLabel)
  {
    if intent == Str(KnowledgeBaseLabel) then KnowledgeBase
    else if intent == Str(GreetingLabel) then Greeting
    else if intent == Str(DoneLabel) then Done
    else Fallback
  }

  /** Every handler that has a label is the one its label selects. */
  lemma RouteInvertsLabel(h: Handler)
    requires Label(h).Some?
    ensures Route(Str(Label(h).value)) == h
  {
  }

  /** `classify_intent(query)`: the classifier's label, or "knowledge_base"
      when the classifier raised. */
  function ClassifyIntent(classifier: Classifier, query: Json): (intent: Json)
    ensures classifier(query).None? ==> intent == Str(KnowledgeBaseLabel)
    ensures classifier(query).Some? ==> intent == classifier(query).value
  {
    match classifier(query)
    case Some(predicted) => predicted
    case None => Str(KnowledgeBaseLabel)
  }

  /** `handle_intent(intent, query)`: the answer of the handler the intent
      selects, or the apology when that handler raised. */
  function HandleIntent(handlers: Handlers, intent: Json, query: Json): (answer: Json)
    ensures intent == Str(KnowledgeBaseLabel) ==> answer == handlers(KnowledgeBase, query).GetOr(Str(Apology))
    ensures intent == Str(GreetingLabel) ==> answer == handlers(Greeting, query).GetOr(Str(Apology))
    ensures intent == Str(DoneLabel) ==> answer == handlers(Done, query).GetOr(Str(Apology))
    ensures intent != Str(KnowledgeBaseLabel) && intent != Str(GreetingLabel) && intent != Str(DoneLabel) ==>
      answer == handlers(Fallback, query).GetOr(Str(Apology))
  {
    match handlers(Route(intent), query)
    case Some(answer) => answer
    case None => Str(Apology)
  }
}
