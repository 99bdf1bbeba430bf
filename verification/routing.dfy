/**
 * Routing: the classifier's category string selects a handler by exact
 * lookup in a nine-entry table, and anything not in the table goes to the
 * fallback. The category is a plain string, never validated against the
 * enumeration, so `Resolve` is defined on every string.
 */
module Routing {
  import opened Options
  import opened Agents

  /** The nine categories the classifier is asked to choose from. */
  datatype Category =
    | OrderPlacementStatus
    | ShippingDelivery
    | ReturnsCancellationsExchanges
    | PaymentBilling
    | ProductInfoAvailability
    | TechnicalIssues
    | PromotionsDiscountsPricing
    | CustomerComplaintsSatisfaction
    | AccountProfileOther

  /** The verbatim spelling of a category. */
  function CategoryName(c: Category): string
  {
    match c
    case OrderPlacementStatus => "OrderPlacementStatus"
    case ShippingDelivery => "ShippingDelivery"
    case ReturnsCancellationsExchanges => "ReturnsCancellationsExchanges"
    case PaymentBilling => "PaymentBilling"
    case ProductInfoAvailability => "ProductInfoAvailability"
    case TechnicalIssues => "TechnicalIssues"
    case PromotionsDiscountsPricing => "PromotionsDiscountsPricing"
    case CustomerComplaintsSatisfaction => "CustomerComplaintsSatisfaction"
    case AccountProfileOther => "AccountProfileOther"
  }

  /** The category names the classifier's prompt lists, in the prompt's order. */
  const PromptCategoryNames: seq<string> := [
    "OrderPlacementStatus", "ShippingDelivery", "ReturnsCancellationsExchanges",
    "PaymentBilling", "ProductInfoAvailability", "TechnicalIssues",
    "PromotionsDiscountsPricing", "CustomerComplaintsSatisfaction", "AccountProfileOther"
  ]

  /** Reads a category from its exact spelling: no trimming, no case folding. */
  function ParseCategory(s: string): (r: Option<Category>)
    ensures r.Some? ==> CategoryName(r.value) == s
    ensures r.None? ==> forall c :: CategoryName(c) != s
  {
    if s == "OrderPlacementStatus" then Some(OrderPlacementStatus)
    else if s == "ShippingDelivery" then Some(ShippingDelivery)
    else if s == "ReturnsCancellationsExchanges" then Some(ReturnsCancellationsExchanges)
    else if s == "PaymentBilling" then Some(PaymentBilling)
    else if s == "ProductInfoAvailability" then Some(ProductInfoAvailability)
    else if s == "TechnicalIssues" then Some(TechnicalIssues)
    else if s == "PromotionsDiscountsPricing" then Some(PromotionsDiscountsPricing)
    else if s == "CustomerComplaintsSatisfaction" then Some(CustomerComplaintsSatisfaction)
    else if s == "AccountProfileOther" then Some(AccountProfileOther)
    else None
  }

  /** The specialist a category designates: the one that carries the category's name. */
  function HandlerFor(c: Category): (h: Agent)
    ensures h in Specialists
    ensures h.name == CategoryName(c)
  {
    match c
    case OrderPlacementStatus => OrderPlacementStatusAgent
    case ShippingDelivery => ShippingDeliveryAgent
    case ReturnsCancellationsExchanges => ReturnsCancellationsExchangesAgent
    case PaymentBilling => PaymentBillingAgent
    case ProductInfoAvailability => ProductInfoAvailabilityAgent
    case TechnicalIssues => TechnicalIssuesAgent
    case PromotionsDiscountsPricing => PromotionsDiscountsPricingAgent
    case CustomerComplaintsSatisfaction => CustomerComplaintsSatisfactionAgent
    case AccountProfileOther => AccountProfileOtherAgent
  }

  /** The routing table, keyed by the exact category string. */
  const AgentByCategory: map<string, Agent> := map[
    "OrderPlacementStatus" := OrderPlacementStatusAgent,
    "ShippingDelivery" := ShippingDeliveryAgent,
    "ReturnsCancellationsExchanges" := ReturnsCancellationsExchangesAgent,
    "PaymentBilling" := PaymentBillingAgent,
    "ProductInfoAvailability" := ProductInfoAvailabilityAgent,
    "TechnicalIssues" := TechnicalIssuesAgent,
    "PromotionsDiscountsPricing" := PromotionsDiscountsPricingAgent,
    "CustomerComplaintsSatisfaction" := CustomerComplaintsSatisfactionAgent,
    "AccountProfileOther" := AccountProfileOtherAgent
  ]

  /**
   * Looks the category up in the routing table, defaulting to the fallback.
   * The result is always one of the ten handlers; it is the fallback exactly
   * when the string spells no category, and otherwise the handler named by
   * the string.
   */
  function Resolve(category: string): (h: Agent)
    ensures h in Handlers
    ensures h == FallbackAgent <==> ParseCategory(category).None?
    ensures h != FallbackAgent ==> h.name == category
  {
    if category in AgentByCategory then AgentByCategory[category] else FallbackAgent
  }

  /** Distinct categories have distinct names. */
  lemma CategoryNameInjective(c: Category, d: Category)
    ensures CategoryName(c) == CategoryName(d) ==> c == d
  {
  }

  /** Parsing a category's name gives the category back, and only names parse. */
  lemma ParseCategoryRoundTrip(c: Category, s: string)
    ensures ParseCategory(CategoryName(c)) == Some(c)
    ensures ParseCategory(s) == Some(c) <==> s == CategoryName(c)
  {
    CategoryNameInjective(ParseCategory(CategoryName(c)).value, c);
  }

  /**
   * The table lookup agrees with the reference definition: parse the string
   * as a category, take that category's handler, or the fallback if it does
   * not parse.
   */
  lemma ResolveIsParseThenHandlerFor(s: string)
    ensures Resolve(s) == match ParseCategory(s) { case Some(c) => HandlerFor(c) case None => FallbackAgent }
  {
  }

  /** Each of the nine names routes to the handler that carries that name. */
  lemma ResolveCategoryName(c: Category)
    ensures Resolve(CategoryName(c)) == HandlerFor(c)
    ensures Resolve(CategoryName(c)).name == CategoryName(c)
    ensures Resolve(CategoryName(c)) != FallbackAgent
  {
    ParseCategoryRoundTrip(c, CategoryName(c));
    ResolveIsParseThenHandlerFor(CategoryName(c));
  }

  /**
   * The selected handler's name equals the category string exactly when the
   * string is one of the nine names, or happens to be the fallback's own name.
   */
  lemma ResolveNameMatches(s: string)
    ensures Resolve(s).name == s <==> ParseCategory(s).Some? || s == FallbackName
  {
  }

  /** Every one of the ten handlers is selected by some string. */
  lemma ResolveOnto(h: Agent)
    requires h in Handlers
    ensures exists s :: Resolve(s) == h
  {
    if h == FallbackAgent {
      assert Resolve("") == h;
    } else {
      assert Resolve(h.name) == h;
    }
  }

  /** The routing table's keys are exactly the nine category names the classifier's prompt lists. */
  lemma RoutingTableMatchesPrompt()
    ensures AgentByCategory.Keys == set n | n in PromptCategoryNames
    ensures forall c :: CategoryName(c) in PromptCategoryNames
    ensures |PromptCategoryNames| == 9
  {
  }

  /** Every specialist, and no other agent, is a target of the routing table. */
  lemma RoutingTableTargets()
    ensures AgentByCategory.Values == Specialists
  {
    forall h | h in Specialists
      ensures h in AgentByCategory.Values
    {
      assert AgentByCategory[h.name] == h;
    }
    forall h | h in AgentByCategory.Values
      ensures h in Specialists
    {
      var k :| k in AgentByCategory && AgentByCategory[k] == h;
    }
  }

  /**
   * Examples of near-misses that go to the fallback: the empty string, a
   * lower-cased and an upper-cased name, a name with a leading blank or a
   * trailing newline, a name split by a blank, and the fallback's own name.
   */
  lemma NearMissesFallBack()
    ensures Resolve("") == FallbackAgent
    ensures Resolve("shippingdelivery") == FallbackAgent
    ensures Resolve("SHIPPINGDELIVERY") == FallbackAgent
    ensures Resolve(" PaymentBilling") == FallbackAgent
    ensures Resolve("PaymentBilling\n") == FallbackAgent
    ensures Resolve("Payment Billing") == FallbackAgent
    ensures Resolve("Fallback Agent") == FallbackAgent
  {
  }

  /** Every category name starts with an upper-case letter and ends with a lower-case one. */
  lemma CategoryNameShape(c: Category)
    ensures |CategoryName(c)| > 0
    ensures 'A' <= CategoryName(c)[0] <= 'Z'
    ensures 'a' <= CategoryName(c)[|CategoryName(c)| - 1] <= 'z'
  {
  }

  /** A name with a blank added in front or behind routes to the fallback: nothing is trimmed. */
  lemma PaddedNameFallsBack(c: Category)
    ensures Resolve(" " + CategoryName(c)) == FallbackAgent
    ensures Resolve(CategoryName(c) + " ") == FallbackAgent
  {
    var front, back := " " + CategoryName(c), CategoryName(c) + " ";
    forall d
      ensures CategoryName(d) != front && CategoryName(d) != back
    {
      CategoryNameShape(d);
      assert front[0] == ' ';
      assert back[|back| - 1] == ' ';
    }
  }

  /** Lower-cases the ASCII letters of a string and leaves every other character alone. */
  function AsciiLower(s: string): string
  {
    seq(|s|, i requires 0 <= i < |s| => if 'A' <= s[i] <= 'Z' then (s[i] as int + 32) as char else s[i])
  }

  /** A lower-cased name routes to the fallback: nothing is case-folded. */
  lemma LowerCasedNameFallsBack(c: Category)
    ensures Resolve(AsciiLower(CategoryName(c))) == FallbackAgent
  {
    var lowered := AsciiLower(CategoryName(c));
    CategoryNameShape(c);
    forall d
      ensures CategoryName(d) != lowered
    {
      CategoryNameShape(d);
      assert 'a' <= lowered[0] <= 'z';
    }
  }

  /** Upper-cases the ASCII letters of a string and leaves every other character alone. */
  function AsciiUpper(s: string): string
  {
    seq(|s|, i requires 0 <= i < |s| => if 'a' <= s[i] <= 'z' then (s[i] as int - 32) as char else s[i])
  }

  /** An upper-cased name routes to the fallback: nothing is case-folded. */
  lemma UpperCasedNameFallsBack(c: Category)
    ensures Resolve(AsciiUpper(CategoryName(c))) == FallbackAgent
  {
    var raised := AsciiUpper(CategoryName(c));
    CategoryNameShape(c);
    forall d
      ensures CategoryName(d) != raised
    {
      CategoryNameShape(d);
      assert 'A' <= raised[|raised| - 1] <= 'Z';
    }
  }
}
