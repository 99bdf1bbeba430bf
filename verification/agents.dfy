/**
 * The agents of the support workflow: the classifier and the ten handlers
 * (nine specialists and a fallback), each with its tool descriptors and its
 * generation settings. Instruction text is soft policy and is reduced to a
 * flag saying whether it is empty.
 */
module Agents {
  import opened Options
  import opened Capabilities

  /** Generation settings; an unset parameter is `None`. */
  datatype ModelSettings = ModelSettings(temperature: Option<real>, topP: Option<real>, maxTokens: Option<nat>, store: Option<bool>)

  /** An agent record: name, model, whether its instructions are empty, its tools in order, its settings. */
  datatype Agent = Agent(name: string, model: string, instructionsEmpty: bool, tools: seq<ToolDescriptor>, settings: ModelSettings)

  const Model := "gpt-4.1"

  /** The classifier: no tools, temperature pinned to 0, everything else unset. */
  const Classifier := Agent("Classify", Model, false, [], ModelSettings(Some(0.0), None, None, None))

  const OrderPlacementStatusAgent :=
    Agent("OrderPlacementStatus", Model, false, [Mcp], ModelSettings(Some(1.0), Some(1.0), Some(2048), Some(true)))

  const CustomerComplaintsSatisfactionAgent :=
    Agent("CustomerComplaintsSatisfaction", Model, false, [Mcp1, Mcp2], ModelSettings(Some(1.0), Some(1.0), Some(2048), Some(true)))

  const AccountProfileOtherAgent :=
    Agent("AccountProfileOther", Model, true, [], ModelSettings(Some(1.0), Some(1.0), Some(2048), Some(true)))

  const ShippingDeliveryAgent :=
    Agent("ShippingDelivery", Model, false, [Mcp3], ModelSettings(Some(1.0), Some(1.0), Some(2048), Some(true)))

  const ReturnsCancellationsExchangesAgent :=
    Agent("ReturnsCancellationsExchanges", Model, false, [Mcp1], ModelSettings(Some(1.0), Some(1.0), Some(2048), Some(true)))

  /** Its instructions mention update_cart, but its only descriptor is the read-only Mcp3. */
  const PromotionsDiscountsPricingAgent :=
    Agent("PromotionsDiscountsPricing", Model, false, [Mcp3], ModelSettings(Some(1.0), Some(1.0), Some(2048), Some(true)))

  const PaymentBillingAgent :=
    Agent("PaymentBilling", Model, false, [Mcp4], ModelSettings(Some(1.0), Some(1.0), Some(2048), Some(true)))

  const TechnicalIssuesAgent :=
    Agent("TechnicalIssues", Model, false, [Mcp2], ModelSettings(Some(1.0), Some(1.0), Some(2048), Some(true)))

  const ProductInfoAvailabilityAgent :=
    Agent("ProductInfoAvailability", Model, false, [Mcp1], ModelSettings(Some(1.0), Some(1.0), Some(2048), Some(true)))

  const FallbackName := "Fallback Agent"

  /** The handler for categories outside the routing table: no instructions, no tools. */
  const FallbackAgent :=
    Agent(FallbackName, Model, true, [], ModelSettings(Some(1.0), Some(1.0), Some(2048), Some(true)))

  /** The nine specialists. */
  const Specialists: set<Agent> := {
    OrderPlacementStatusAgent, ShippingDeliveryAgent, ReturnsCancellationsExchangesAgent,
    PaymentBillingAgent, ProductInfoAvailabilityAgent, TechnicalIssuesAgent,
    PromotionsDiscountsPricingAgent, CustomerComplaintsSatisfactionAgent, AccountProfileOtherAgent
  }

  /** Every agent that can answer a customer: the nine specialists and the fallback. */
  const Handlers: set<Agent> := Specialists + {FallbackAgent}

  /** The specialist settings every handler shares. */
  const HandlerSettings := ModelSettings(Some(1.0), Some(1.0), Some(2048), Some(true))

  /** The operations an agent may request: the union of its descriptors' allowed tools. */
  function Permitted(a: Agent): (ops: set<string>)
    ensures forall op :: op in ops <==> exists i :: 0 <= i < |a.tools| && op in a.tools[i].allowedTools
  {
    OpsOf(a.tools)
  }

  /** There are exactly ten handlers, pairwise distinguished by name, and the fallback is not a specialist. */
  lemma HandlerCount()
    ensures |Specialists| == 9
    ensures |Handlers| == 10
    ensures FallbackAgent !in Specialists
    ensures forall h, g :: h in Handlers && g in Handlers && h.name == g.name ==> h == g
  {
  }

  /** The permitted operations of the handlers that use one storefront descriptor. */
  lemma StorefrontHandlerOps()
    ensures Permitted(OrderPlacementStatusAgent) == {"get_cart", "search_shop_policies_and_faqs"}
    ensures Permitted(ShippingDeliveryAgent) == {"search_shop_catalog", "get_cart", "search_shop_policies_and_faqs"}
    ensures Permitted(ReturnsCancellationsExchangesAgent)
         == {"search_shop_catalog", "search_shop_policies_and_faqs", "get_product_details"}
    ensures Permitted(PaymentBillingAgent) == {"search_shop_catalog", "search_shop_policies_and_faqs"}
    ensures Permitted(ProductInfoAvailabilityAgent)
         == {"search_shop_catalog", "search_shop_policies_and_faqs", "get_product_details"}
    ensures Permitted(PromotionsDiscountsPricingAgent)
         == {"search_shop_catalog", "get_cart", "search_shop_policies_and_faqs"}
  {
    McpOps();
    Mcp1Ops();
    Mcp3Ops();
    Mcp4Ops();
  }

  /**
   * TechnicalIssues may use exactly the six Gmail reads; CustomerComplaintsSatisfaction
   * the union of Mcp1 and Mcp2; AccountProfileOther and the fallback nothing.
   */
  lemma OtherHandlerOps()
    ensures Permitted(TechnicalIssuesAgent) == GmailReadOps
    ensures Permitted(CustomerComplaintsSatisfactionAgent) == OpsOf([Mcp1]) + OpsOf([Mcp2])
    ensures Permitted(CustomerComplaintsSatisfactionAgent)
         == {"search_shop_catalog", "search_shop_policies_and_faqs", "get_product_details"} + GmailReadOps
    ensures Permitted(AccountProfileOtherAgent) == {}
    ensures Permitted(FallbackAgent) == {}
  {
    Mcp1Ops();
    Mcp2Ops();
    OpsOfConcat([Mcp1], [Mcp2]);
    assert [Mcp1] + [Mcp2] == [Mcp1, Mcp2];
  }

  /**
   * No handler can reach a mutating operation: storefront requests are
   * storefront reads, Gmail requests are Gmail reads, nothing else is
   * reachable, and update_cart is permitted to nobody.
   */
  lemma HandlersReadOnly()
    ensures forall h :: h in Handlers ==> Permitted(h) <= StoreReadOps + GmailReadOps
    ensures forall h :: h in Handlers ==> UpdateCart !in Permitted(h)
    ensures forall h, op :: h in Handlers && Reachable(h.tools, StoreLabel, op) ==> op in StoreReadOps
    ensures forall h, op :: h in Handlers && Reachable(h.tools, GmailLabel, op) ==> op in GmailReadOps
    ensures forall h, l, op :: h in Handlers && Reachable(h.tools, l, op) ==> l == StoreLabel || l == GmailLabel
  {
    HandlersRequireApproval();
    forall h | h in Handlers
      ensures Permitted(h) <= StoreReadOps + GmailReadOps
      ensures UpdateCart !in Permitted(h)
      ensures forall op :: Reachable(h.tools, StoreLabel, op) ==> op in StoreReadOps
      ensures forall op :: Reachable(h.tools, GmailLabel, op) ==> op in GmailReadOps
      ensures forall l, op :: Reachable(h.tools, l, op) ==> l == StoreLabel || l == GmailLabel
    {
      DeclaredToolsReadOnly(h.tools);
      ReadOnlyToolsReachOnlyReads(h.tools);
    }
  }

  /** Every handler uses only declared descriptors, and every one of them requires approval. */
  lemma HandlersRequireApproval()
    ensures forall h, i :: h in Handlers && 0 <= i < |h.tools| ==> h.tools[i] in Descriptors
    ensures forall h, i :: h in Handlers && 0 <= i < |h.tools| ==> h.tools[i].requireApproval == Always
  {
  }

  /**
   * The classifier samples at temperature 0; every handler, the fallback
   * included, uses temperature 1, top_p 1, 2048 output tokens and store.
   */
  lemma SettingsFixed()
    ensures Classifier.settings.temperature == Some(0.0)
    ensures Classifier.tools == []
    ensures forall h :: h in Handlers ==> h.settings == HandlerSettings && h.model == Model
  {
  }

  /**
   * Exactly two handlers have neither instructions nor tools:
   * AccountProfileOther and the fallback.
   */
  lemma StubHandlers()
    ensures forall h :: h in Handlers ==> (h.instructionsEmpty <==> h == AccountProfileOtherAgent || h == FallbackAgent)
    ensures forall h :: h in Handlers ==> (h.tools == [] <==> h.instructionsEmpty)
  {
  }
}
