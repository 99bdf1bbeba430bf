/**
 * Capability declarations: the five hosted MCP tool descriptors of the
 * support workflow. A descriptor is inert data naming a tool provider, the
 * operations a handler may request from it and the approval policy that gates
 * every request.
 */
module Capabilities {

  /** Where a hosted MCP server is reached: a URL, or a connector identity. */
  datatype Provider =
    | Server(serverLabel: string, url: string)
    | Connector(serverLabel: string, connectorId: string)

  /** Whether each remote call must be confirmed before it takes effect. */
  datatype ApprovalPolicy = Always | Never

  /** One hosted MCP tool: its provider, its permitted operations in declaration order, its approval policy. */
  datatype ToolDescriptor = HostedMcp(provider: Provider, allowedTools: seq<string>, requireApproval: ApprovalPolicy)

  const StoreLabel := "mystore"
  const GmailLabel := "gmail"

  const Store := Server(StoreLabel, "https://mystore.store//api/mcp")
  const Gmail := Connector(GmailLabel, "connector_gmail")

  /** Cart and policy lookups. */
  const Mcp := HostedMcp(Store, ["get_cart", "search_shop_policies_and_faqs"], Always)

  /** Catalog, policy and product-detail lookups. */
  const Mcp1 := HostedMcp(Store, ["search_shop_catalog", "search_shop_policies_and_faqs", "get_product_details"], Always)

  /** Gmail read operations. */
  const Mcp2 := HostedMcp(Gmail,
    ["batch_read_email", "get_profile", "get_recent_emails", "read_email", "search_email_ids", "search_emails"],
    Always)

  /** Catalog, cart and policy lookups. */
  const Mcp3 := HostedMcp(Store, ["search_shop_catalog", "get_cart", "search_shop_policies_and_faqs"], Always)

  /** Catalog and policy lookups. */
  const Mcp4 := HostedMcp(Store, ["search_shop_catalog", "search_shop_policies_and_faqs"], Always)

  /** Every descriptor the workflow declares. */
  const Descriptors: seq<ToolDescriptor> := [Mcp, Mcp1, Mcp2, Mcp3, Mcp4]

  /** The storefront operations that only read data. */
  const StoreReadOps: set<string> :=
    {"search_shop_catalog", "search_shop_policies_and_faqs", "get_cart", "get_product_details"}

  /** The Gmail operations that only read data (nothing sends, deletes or modifies mail). */
  const GmailReadOps: set<string> :=
    {"batch_read_email", "get_profile", "get_recent_emails", "read_email", "search_email_ids", "search_emails"}

  /** The only cart-mutating storefront operation any instruction text mentions. */
  const UpdateCart := "update_cart"

  /**
   * The operations a list of descriptors permits: an operation is permitted
   * exactly when some descriptor in the list names it.
   */
  function OpsOf(tools: seq<ToolDescriptor>): (ops: set<string>)
    ensures forall op :: op in ops <==> exists i :: 0 <= i < |tools| && op in tools[i].allowedTools
  {
    if tools == [] then {}
    else
      var rest := OpsOf(tools[1..]);
      assert forall op, i :: 1 <= i < |tools| && op in tools[i].allowedTools ==> op in tools[1..][i - 1].allowedTools;
      (set op | op in tools[0].allowedTools) + rest
  }

  /** The operations of two lists together are those of each list. */
  lemma {:induction false} OpsOfConcat(s: seq<ToolDescriptor>, t: seq<ToolDescriptor>)
    ensures OpsOf(s + t) == OpsOf(s) + OpsOf(t)
  {
    if s == [] {
      assert s + t == t;
    } else {
      assert (s + t)[1..] == s[1..] + t;
      OpsOfConcat(s[1..], t);
    }
  }

  /** The operations each declared descriptor permits, as a set. */
  lemma McpOps()
    ensures OpsOf([Mcp]) == {"get_cart", "search_shop_policies_and_faqs"}
  {
  }

  lemma Mcp1Ops()
    ensures OpsOf([Mcp1]) == {"search_shop_catalog", "search_shop_policies_and_faqs", "get_product_details"}
  {
  }

  lemma Mcp2Ops()
    ensures OpsOf([Mcp2]) == GmailReadOps
  {
  }

  lemma Mcp3Ops()
    ensures OpsOf([Mcp3]) == {"search_shop_catalog", "get_cart", "search_shop_policies_and_faqs"}
  {
  }

  lemma Mcp4Ops()
    ensures OpsOf([Mcp4]) == {"search_shop_catalog", "search_shop_policies_and_faqs"}
  {
  }

  /** `op` can be requested from the provider labelled `serverLabel` through one of `tools`. */
  predicate Reachable(tools: seq<ToolDescriptor>, serverLabel: string, op: string)
  {
    exists i :: 0 <= i < |tools| && tools[i].provider.serverLabel == serverLabel && op in tools[i].allowedTools
  }

  /** Every declared descriptor gates each call behind approval. */
  lemma AllDescriptorsRequireApproval()
    ensures forall i :: 0 <= i < |Descriptors| ==> Descriptors[i].requireApproval == Always
  {
  }

  /**
   * A descriptor is read-only when it is the storefront and lists only
   * storefront reads, or it is Gmail and lists only Gmail reads.
   */
  predicate ReadOnly(d: ToolDescriptor)
  {
    || (d.provider == Store && forall op :: op in d.allowedTools ==> op in StoreReadOps)
    || (d.provider == Gmail && forall op :: op in d.allowedTools ==> op in GmailReadOps)
  }

  /** Every declared descriptor is read-only, and none lists update_cart. */
  lemma AllDescriptorsReadOnly()
    ensures forall i :: 0 <= i < |Descriptors| ==> ReadOnly(Descriptors[i])
    ensures forall i :: 0 <= i < |Descriptors| ==> UpdateCart !in Descriptors[i].allowedTools
  {
  }

  /** A list of read-only descriptors permits only storefront and Gmail reads, so never update_cart. */
  lemma ReadOnlyToolsPermitOnlyReads(tools: seq<ToolDescriptor>)
    requires forall i :: 0 <= i < |tools| ==> ReadOnly(tools[i])
    ensures OpsOf(tools) <= StoreReadOps + GmailReadOps
    ensures UpdateCart !in OpsOf(tools)
  {
    var ops := OpsOf(tools);
    assert ops <= StoreReadOps + GmailReadOps by {
      forall op | op in ops
        ensures op in StoreReadOps + GmailReadOps
      {
        var i :| 0 <= i < |tools| && op in tools[i].allowedTools;
        assert ReadOnly(tools[i]);
      }
    }
    UpdateCartIsNotARead();
  }

  /** update_cart is neither a storefront read nor a Gmail read. */
  lemma UpdateCartIsNotARead()
    ensures UpdateCart !in StoreReadOps + GmailReadOps
  {
  }

  /**
   * Through a list of read-only descriptors, only the storefront and Gmail
   * are reachable; what the storefront serves is a storefront read and what
   * Gmail serves is a Gmail read.
   */
  lemma ReadOnlyToolsReachOnlyReads(tools: seq<ToolDescriptor>)
    requires forall i :: 0 <= i < |tools| ==> ReadOnly(tools[i])
    ensures forall l, op :: Reachable(tools, l, op) ==> l == StoreLabel || l == GmailLabel
    ensures forall op :: Reachable(tools, StoreLabel, op) ==> op in StoreReadOps
    ensures forall op :: Reachable(tools, GmailLabel, op) ==> op in GmailReadOps
  {
  }

  /** Any list built from declared descriptors permits only reads. */
  lemma DeclaredToolsReadOnly(tools: seq<ToolDescriptor>)
    requires forall i :: 0 <= i < |tools| ==> tools[i] in Descriptors
    ensures forall i :: 0 <= i < |tools| ==> ReadOnly(tools[i])
    ensures OpsOf(tools) <= StoreReadOps + GmailReadOps
    ensures UpdateCart !in OpsOf(tools)
  {
    AllDescriptorsReadOnly();
    ReadOnlyToolsPermitOnlyReads(tools);
  }

  /** Every declared descriptor lists at least one operation and none twice. */
  lemma AllDescriptorsWellFormed()
    ensures forall i :: 0 <= i < |Descriptors| ==> |Descriptors[i].allowedTools| > 0
    ensures forall i, j, k :: 0 <= i < |Descriptors| && 0 <= j < k < |Descriptors[i].allowedTools| ==>
      Descriptors[i].allowedTools[j] != Descriptors[i].allowedTools[k]
  {
  }
}
