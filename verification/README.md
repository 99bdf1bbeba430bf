# Shopify support multi-agent workflow: routing and least-privilege model

This Dafny project models the deterministic core of the Shopify support
workflow (`workflow.py`). One invocation seeds a one-message transcript from
the customer's text and asks a classifier agent for a category string. The
string is looked up in a nine-entry table, with a fallback agent as the
default. The selected handler runs on the seed transcript, its new items are
appended, and the invocation returns the raw category string with the
handler's final text.

The project has five modules:

- `Capabilities` (`capabilities.dfy`): the five hosted MCP tool descriptors
  `mcp` … `mcp4`. Each names a provider (the `mystore` server or the
  `gmail` connector), its `allowed_tools` in order, and its approval policy.
  `OpsOf` is the set of operations a list of descriptors permits.
- `Agents` (`agents.dfy`): the classifier and the ten handler records. Each
  has a name, a model, a flag saying whether its instructions are empty, its
  descriptors and its generation settings. `Permitted` is a handler's set of
  permitted operations.
- `Options` (`options.dfy`): the `Option` datatype, used for unset
  generation settings and for strings that spell no category.
- `Routing` (`routing.dfy`): the `Category` enumeration and its spellings,
  `ParseCategory` (exact-match parsing), `HandlerFor` (category to
  specialist), the routing table `AgentByCategory`, and the total
  `Resolve : string -> Agent`, which is `dict.get` with the fallback.
- `Workflow` (`workflow.dfy`): `Seed`, the one-item user message carrying
  the input text (built twice in the source, at workflow.py:458-468 and
  473-483, with equal contents), and `Run`, the skeleton of `run_workflow`. The two
  `Runner.run` calls are parameters, `classify` and `execute`. Each either
  returns a value or raises an exception. `Run` records the runner calls it
  makes, the final transcript and the result.

The model follows workflow.py as written:

- Nothing checks the classifier's `category` against the nine names. The
  prompt says "Do not invent new categories" (workflow.py:102), but the
  schema field is an unconstrained string (workflow.py:75-76). So `Resolve`
  takes any string, and an unknown name reaches the fallback. The raw string
  is still what the invocation returns.
- No exception is caught. A failing classifier run (workflow.py:471) ends the
  invocation before any handler is chosen. A failing handler run
  (workflow.py:508) is the invocation's result.
- The PromotionsDiscountsPricing instructions mention `update_cart`
  (workflow.py:347). Its only descriptor, `mcp3` (workflow.py:47-57, :349),
  does not list it.
- The fallback agent's name is `Fallback Agent` (workflow.py:429).

## Model

| member | source | states |
|---|---|---|
| Capabilities.OpsOf | workflow.py:8-68 | An operation is permitted by a descriptor list exactly when some descriptor in the list names it in `allowed_tools`. |
| Capabilities.OpsOfConcat | workflow.py:294 | Composing two descriptor lists permits exactly the union of what each permits. |
| Capabilities.McpOps | workflow.py:8-17 | `mcp` permits exactly `get_cart` and `search_shop_policies_and_faqs`. |
| Capabilities.Mcp1Ops | workflow.py:19-29 | `mcp1` permits exactly catalog search, policy search and product details. |
| Capabilities.Mcp2Ops | workflow.py:31-45 | `mcp2` permits exactly the six Gmail read operations. |
| Capabilities.Mcp3Ops | workflow.py:47-57 | `mcp3` permits exactly catalog search, `get_cart` and policy search, and no cart update. |
| Capabilities.Mcp4Ops | workflow.py:59-68 | `mcp4` permits exactly catalog search and policy search. |
| Capabilities.AllDescriptorsRequireApproval | workflow.py:8-68 | Every one of the five descriptors has approval policy "always". |
| Capabilities.AllDescriptorsReadOnly | workflow.py:8-68 | Every descriptor is either the storefront with only storefront reads or Gmail with only Gmail reads, and none lists `update_cart`. |
| Capabilities.ReadOnlyToolsPermitOnlyReads | workflow.py:8-68 | A list of read-only descriptors permits only storefront and Gmail reads, and never `update_cart`. |
| Capabilities.ReadOnlyToolsReachOnlyReads | workflow.py:8-68 | Through read-only descriptors only the `mystore` and `gmail` servers are reachable. The store serves only store reads and Gmail only Gmail reads. |
| Capabilities.DeclaredToolsReadOnly | workflow.py:274-438 | Any list drawn from the five declared descriptors is read-only and never permits `update_cart`. |
| Capabilities.AllDescriptorsWellFormed | workflow.py:8-68 | Every descriptor lists at least one operation and none twice. |
| Agents.Permitted | workflow.py:274-438 | A handler's permitted operations are the union of its descriptors' `allowed_tools`. |
| Agents.HandlerCount | workflow.py:274-438 | There are nine specialists plus a fallback that is not one of them, ten handlers in all, and no two share a name. |
| Agents.StorefrontHandlerOps | workflow.py:274-425 | The exact permitted sets of the six single-storefront-descriptor handlers. Example: OrderPlacementStatus = {get_cart, search_shop_policies_and_faqs}, and PromotionsDiscountsPricing has no `update_cart`. |
| Agents.OtherHandlerOps | workflow.py:288-438 | TechnicalIssues may use exactly the six Gmail reads. CustomerComplaintsSatisfaction may use `mcp1` ∪ `mcp2`. AccountProfileOther and the fallback may use nothing. |
| Agents.HandlersReadOnly | workflow.py:274-438 | No handler can reach a mutating operation. Store requests are store reads, Gmail requests are Gmail reads, no other server is reachable, and nobody may use `update_cart`. |
| Agents.HandlersRequireApproval | workflow.py:274-438 | Every handler uses only declared descriptors, and each of them requires approval. |
| Agents.SettingsFixed | workflow.py:264-438 | The classifier uses temperature 0 and no tools. Every handler, the fallback included, uses temperature 1, top_p 1, max_tokens 2048, store on, and the same model. |
| Agents.StubHandlers | workflow.py:304-438 | Exactly AccountProfileOther and the fallback have empty instructions, and exactly those two have no tools. |
| Routing.CategoryNameShape | workflow.py:88-98 | Every category name is non-empty, starts with an upper-case letter and ends with a lower-case one. |
| Routing.ParseCategory | workflow.py:88-98 | Parsing succeeds exactly on the verbatim spelling of a category and yields that category. Any other string yields nothing. |
| Routing.ParseCategoryRoundTrip | workflow.py:88-98 | Parsing a category's name gives the category back, and only that name parses to it. |
| Routing.CategoryNameInjective | workflow.py:494-504 | Distinct categories have distinct spellings, so the routing table has no key conflicts. |
| Routing.HandlerFor | workflow.py:494-504 | Each category designates a specialist whose `name` is the category's spelling. |
| Routing.Resolve | workflow.py:494-506 | Routing is total over all strings and always yields one of the ten handlers. The result is the fallback exactly when the string spells no category; otherwise it is the handler whose name is the string. |
| Routing.ResolveIsParseThenHandlerFor | workflow.py:494-506 | The table lookup equals the reference definition: parse the category, take its handler, else take the fallback. |
| Routing.ResolveCategoryName | workflow.py:494-504 | For each of the nine names, `Resolve` returns that category's specialist, whose name equals the string. |
| Routing.ResolveNameMatches | workflow.py:428-506 | The selected handler's name equals the input exactly when the input is one of the nine names or the fallback's own name. |
| Routing.ResolveOnto | workflow.py:494-506 | Every one of the ten handlers is selected by some string. |
| Routing.RoutingTableMatchesPrompt | workflow.py:88-98 | The routing table's keys are exactly the nine names the classifier's prompt lists. |
| Routing.RoutingTableTargets | workflow.py:494-504 | The routing table's values are exactly the nine specialists. |
| Routing.NearMissesFallBack | workflow.py:506 | Examples: `""`, `shippingdelivery`, `SHIPPINGDELIVERY`, `" PaymentBilling"`, `"PaymentBilling\n"`, `"Payment Billing"` and `"Fallback Agent"` each route to the fallback. |
| Routing.PaddedNameFallsBack | workflow.py:506 | For every category, its name with a leading or trailing blank routes to the fallback: nothing is trimmed. |
| Routing.LowerCasedNameFallsBack | workflow.py:506 | For every category, its lower-cased name routes to the fallback: nothing is case-folded. |
| Routing.UpperCasedNameFallsBack | workflow.py:506 | For every category, its upper-cased name routes to the fallback: nothing is case-folded. |
| Workflow.Run | workflow.py:453-522 | The classifier runs first on the seed transcript. The handler runs exactly when the classifier returned, on `Resolve` of its raw category, again with the seed. The transcript always starts with the seed. On success the result carries the classifier's raw category and the handler's final text, and the transcript after the seed is the handler's new items. |
| Workflow.ClassifierIsNotAHandler | workflow.py:79-80 | The classifier agent is not one of the ten handlers. |
| Workflow.ClassifiedOnceThenHandled | workflow.py:458-515 | Classification happens exactly once, as the first call. Every later call runs a handler. Both calls receive the same one-item user message carrying the input text. |
| Workflow.HistoryOnlyGrows | workflow.py:458-517 | After a completed run the transcript is the seed followed by the handler's new items in order. The seed is neither dropped nor reordered. |
| Workflow.RawCategoryReturned | workflow.py:490-522 | The returned category is the classifier's raw string, even when it spells no category and the fallback answered. |
| Workflow.FailuresPropagate | workflow.py:471-515 | A raising classifier ends the invocation with its exception before any handler runs. A raising handler's exception is the invocation's result. |
| Workflow.RunUsesOnlyReads | workflow.py:493-515 | Whatever the classifier answers, every agent an invocation runs permits only storefront and Gmail reads, never `update_cart`, and each of its tools requires approval. |

## Left out

- The language-model runs (`Runner.run`) are parameters of `Run`; both receive `Seed` of the input text. Which category a message should get under the few-shot prompt is model behaviour, not code, so the classifier's answer is an arbitrary string or an exception.
- Instruction text is soft policy (for example "do not modify the cart"), so each agent records only whether its instructions are empty.
- The agents SDK's enforcement of `allowed_tools` and of the approval policy during a handler run is not shown in this code. The model proves what the configuration grants, not what the SDK does at run time.
- The MCP storefront and Gmail servers, the connector's authorization and every network call are external. Server URL and connector id are kept only as descriptor data.
- The `trace` scope, `RunConfig` trace metadata and the `async`/`await` structure carry no routing logic.
- Pydantic validation and `model_dump` of the workflow input are library behaviour; the input text is a plain string.
- The classifier's structured-output parsing (`ClassifySchema`) is library behaviour. A parse failure shows up as the classifier run raising.
- `to_input_item()` conversion of new items and `final_output_as(str)` are SDK conversions. New items are taken as transcript items, and the final output as a string.
- The code has no error taxonomy, retry, or fallback on classifier failure, so none is modelled. Exceptions are carried unchanged to the result.
- Object identity is not modelled. The classifier's input list and the conversation history are two separate Python lists with equal contents, and the model treats them as equal values.
