/**
 * The orchestration of one workflow invocation: seed a one-message
 * transcript from the input text, classify it, route the raw category
 * string, run the selected handler on the seed transcript, append the
 * handler's new items, and return the raw category with the handler's final
 * text.
 *
 * The two language-model runs are not modelled: the classifier run and the
 * handler run are parameters, each either returning a value or raising an
 * exception. Nothing catches an exception; it becomes the invocation's result.
 */
module Workflow {
  import opened Capabilities
  import opened Agents
  import opened Routing

  datatype Role = User | Assistant

  datatype ContentPart = InputText(text: string) | OutputText(text: string)

  /** A transcript item: a role-tagged message, or another run item (tool call, approval request, ...) kept opaque. */
  datatype Item = Message(role: Role, content: seq<ContentPart>) | OtherItem(kind: string)

  /** What a runner call produced: the value it returned, or the exception it raised. */
  datatype Outcome<+T> = Returned(value: T) | Raised(error: string)

  /** A handler run's result: the items it added to the conversation and its final text. */
  datatype HandlerRun = HandlerRun(newItems: seq<Item>, finalOutput: string)

  /** One runner call: the agent run and the transcript it was given. */
  datatype Call = Call(agent: Agent, input: seq<Item>)

  /** The invocation's return value. */
  datatype WorkflowOutput = WorkflowOutput(category: string, outputText: string)

  /** Everything an invocation does: the runner calls in order, the final transcript, the result. */
  datatype Execution = Execution(calls: seq<Call>, history: seq<Item>, result: Outcome<WorkflowOutput>)

  /** The one-item transcript carrying the customer's text as user input. */
  function Seed(inputText: string): seq<Item>
  {
    [Message(User, [InputText(inputText)])]
  }

  /**
   * One invocation. `classify` stands for the classifier run (its structured
   * output's category field, or an exception); `execute` stands for a handler
   * run on a transcript.
   */
  function Run(inputText: string, classify: seq<Item> -> Outcome<string>,
               execute: (Agent, seq<Item>) -> Outcome<HandlerRun>): (e: Execution)
    ensures 1 <= |e.calls| <= 2
    ensures e.calls[0] == Call(Classifier, Seed(inputText))
    ensures |e.history| >= 1 && e.history[..1] == Seed(inputText)
    ensures |e.calls| == 2 <==> classify(Seed(inputText)).Returned?
    ensures |e.calls| == 2 ==> e.calls[1] == Call(Resolve(classify(Seed(inputText)).value), Seed(inputText))
    ensures e.result.Returned? ==>
      && |e.calls| == 2
      && classify(Seed(inputText)) == Returned(e.result.value.category)
      && execute(e.calls[1].agent, Seed(inputText)) == Returned(HandlerRun(e.history[1..], e.result.value.outputText))
    ensures e.result.Raised? ==> e.history == Seed(inputText)
  {
    var history := [Message(User, [InputText(inputText)])];
    var classifierInput := [Message(User, [InputText(inputText)])];
    match classify(classifierInput)
    case Raised(error) =>
      Execution([Call(Classifier, classifierInput)], history, Raised(error))
    case Returned(category) =>
      var selected := Resolve(category);
      var calls := [Call(Classifier, classifierInput), Call(selected, history)];
      match execute(selected, history)
      case Raised(error) => Execution(calls, history, Raised(error))
      case Returned(run) =>
        Execution(calls, history + run.newItems, Returned(WorkflowOutput(category, run.finalOutput)))
  }

  /** The classifier is not one of the handlers. */
  lemma ClassifierIsNotAHandler()
    ensures Classifier !in Handlers
  {
  }

  /**
   * Classification happens exactly once, first; every later call runs a
   * handler, and every call is given the same seed transcript.
   */
  lemma ClassifiedOnceThenHandled(inputText: string, classify: seq<Item> -> Outcome<string>,
                                  execute: (Agent, seq<Item>) -> Outcome<HandlerRun>)
    ensures var e := Run(inputText, classify, execute);
      && e.calls[0].agent == Classifier
      && (forall i :: 1 <= i < |e.calls| ==> e.calls[i].agent in Handlers && e.calls[i].agent != Classifier)
      && (forall i :: 0 <= i < |e.calls| ==> e.calls[i].input == Seed(inputText))
  {
    ClassifierIsNotAHandler();
  }

  /**
   * The transcript only grows: after a completed run it is the seed followed
   * by the handler's new items in their order; after a raised run it is the seed.
   */
  lemma HistoryOnlyGrows(inputText: string, classify: seq<Item> -> Outcome<string>,
                         execute: (Agent, seq<Item>) -> Outcome<HandlerRun>, run: HandlerRun)
    requires classify(Seed(inputText)).Returned?
    requires execute(Resolve(classify(Seed(inputText)).value), Seed(inputText)) == Returned(run)
    ensures Run(inputText, classify, execute).history == Seed(inputText) + run.newItems
  {
  }

  /**
   * The category returned is the classifier's raw string, unchanged, even
   * when it spells no category and the fallback answered; the output text is
   * the handler's final text.
   */
  lemma RawCategoryReturned(inputText: string, classify: seq<Item> -> Outcome<string>,
                            execute: (Agent, seq<Item>) -> Outcome<HandlerRun>, category: string, run: HandlerRun)
    requires classify(Seed(inputText)) == Returned(category)
    requires execute(Resolve(category), Seed(inputText)) == Returned(run)
    ensures Run(inputText, classify, execute).result == Returned(WorkflowOutput(category, run.finalOutput))
    ensures ParseCategory(category).None? ==> Run(inputText, classify, execute).calls[1].agent == FallbackAgent
    ensures ParseCategory(category).Some? ==>
      Run(inputText, classify, execute).calls[1].agent == HandlerFor(ParseCategory(category).value)
  {
    ResolveIsParseThenHandlerFor(category);
  }

  /**
   * Nothing catches a runner's exception: a raising classifier ends the
   * invocation before any handler runs, and a raising handler's exception is
   * the invocation's result.
   */
  lemma FailuresPropagate(inputText: string, classify: seq<Item> -> Outcome<string>,
                          execute: (Agent, seq<Item>) -> Outcome<HandlerRun>)
    ensures classify(Seed(inputText)).Raised? ==>
      var e := Run(inputText, classify, execute);
      e.calls == [Call(Classifier, Seed(inputText))] && e.result == Raised(classify(Seed(inputText)).error)
    ensures classify(Seed(inputText)).Returned? ==>
      var h := Resolve(classify(Seed(inputText)).value);
      execute(h, Seed(inputText)).Raised? ==>
        Run(inputText, classify, execute).result == Raised(execute(h, Seed(inputText)).error)
  {
  }

  /**
   * Whatever the classifier answers, every agent an invocation runs requires
   * approval for each tool, permits only storefront and Gmail reads, and
   * never update_cart.
   */
  lemma RunUsesOnlyReads(inputText: string, classify: seq<Item> -> Outcome<string>,
                         execute: (Agent, seq<Item>) -> Outcome<HandlerRun>)
    ensures forall i :: 0 <= i < |Run(inputText, classify, execute).calls| ==>
      var a := Run(inputText, classify, execute).calls[i].agent;
      && Permitted(a) <= StoreReadOps + GmailReadOps
      && UpdateCart !in Permitted(a)
      && forall j :: 0 <= j < |a.tools| ==> a.tools[j].requireApproval == Always
  {
    var e := Run(inputText, classify, execute);
    ClassifiedOnceThenHandled(inputText, classify, execute);
    forall i | 0 <= i < |e.calls|
      ensures Permitted(e.calls[i].agent) <= StoreReadOps + GmailReadOps
      ensures UpdateCart !in Permitted(e.calls[i].agent)
      ensures forall j :: 0 <= j < |e.calls[i].agent.tools| ==> e.calls[i].agent.tools[j].requireApproval == Always
    {
      var a := e.calls[i].agent;
      if i > 0 {
        HandlersRequireApproval();
      }
      DeclaredToolsReadOnly(a.tools);
    }
  }
}
