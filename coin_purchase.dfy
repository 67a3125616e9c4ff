/**
 * The coin shop and the page PayPal returns to. The shop lists five fixed plans; buying one
 * creates an order and opens its approval page in a new tab. The return page verifies the
 * order named by the `token` parameter, refreshes the session so the new balance shows, and
 * goes back to the shop.
 *
 * Server actions are oracles (the reply the handler awaits is an input); toasts are not
 * modelled, and `window.open` is recorded as the list of URLs opened.
 */
module CoinPurchase {
  import opened Wrappers
  import opened UrlQuery
  import opened ServerActions
  import opened Redirects
  import opened Session
  import opened UserStore
  import opened ApiClient
  import Routes

  /** A coin plan: `amount` coins for `price` dollars. */
  datatype Plan = Plan(id: int, amount: int, price: int)

  const Plans: seq<Plan> := [Plan(1, 100, 5), Plan(2, 300, 14), Plan(3, 500, 22),
                             Plan(4, 700, 29), Plan(5, 1000, 38)]

  /**
   * The plans are numbered 1 to 5 in order, each larger than the one before, and each larger
   * plan is cheaper per coin.
   */
  lemma PlanTable()
    ensures |Plans| == 5
    ensures forall k :: 0 <= k < |Plans| ==> Plans[k].id == k + 1 && Plans[k].amount > 0 && Plans[k].price > 0
    ensures forall k :: 0 < k < |Plans| ==> Plans[k - 1].amount < Plans[k].amount
    ensures forall k :: 0 < k < |Plans| ==>
      Plans[k].price * Plans[k - 1].amount < Plans[k - 1].price * Plans[k].amount
  {
  }

  /** `disabled={loadingPlanId === plan.id}` */
  predicate Disabled(loadingPlanId: Option<int>, plan: Plan) {
    loadingPlanId == Some(plan.id)
  }

  /** Plan ids are distinct, so at most one button of the list is disabled at a time. */
  lemma AtMostOneDisabled(loadingPlanId: Option<int>, i: int, j: int)
    requires 0 <= i < |Plans| && 0 <= j < |Plans|
    requires Disabled(loadingPlanId, Plans[i]) && Disabled(loadingPlanId, Plans[j])
    ensures i == j
  {
    PlanTable();
  }

  /** The order the create-order action returns. */
  datatype OrderData = OrderData(purchaseId: string, orderId: string, approvalUrl: string)

  /** The order of a reply that succeeded with a non-empty `approvalUrl`. */
  function Approval(reply: Reply<OrderData>): (r: Option<OrderData>)
    ensures r.Some? <==> reply.Returned? && reply.result.Ok? && reply.result.data.Some?
                         && reply.result.data.value.approvalUrl != ""
    ensures r.Some? ==> r == reply.result.data
  {
    if reply.Returned? && reply.result.Ok? && reply.result.data.Some?
       && reply.result.data.value.approvalUrl != "" then reply.result.data
    else None
  }

  // ---------------------------------------------------------------------------------------
  // The URL of the approval tab
  // ---------------------------------------------------------------------------------------

  /** The parameter that carries the order id, and the one the payment provider returns with. */
  const OrderIdKey := "orderId"
  const TokenKey := "token"

  lemma KeysAreWords()
    ensures IsWord(OrderIdKey) && IsWord(TokenKey)
    ensures FormEncode(OrderIdKey) == OrderIdKey
  {
    assert IsWord(OrderIdKey);
    assert IsWord(TokenKey);
    WordEncoding(OrderIdKey);
  }

  /** The tab the shop opens, as written: the approval URL followed by `?orderId=`. */
  function ApprovalTargetAsWritten(approvalUrl: string, orderId: string): string {
    approvalUrl + "?" + (OrderIdKey + "=" + orderId)
  }

  /** The tab the shop evidently means to open: `&` instead of `?` when the approval URL has a query. */
  function ApprovalTarget(approvalUrl: string, orderId: string): string {
    approvalUrl + (if '?' in approvalUrl then "&" else "?") + (OrderIdKey + "=" + orderId)
  }

  /**
   * An approval URL that already carries a query, such as `…/checkoutnow?token=EC1`, gets a
   * second `?`: the order id is then no parameter of the tab's URL at all, and the `token`
   * parameter reads back with `?orderId=…` glued to it.
   */
  lemma AsWrittenLosesOrderId(base: string, token: string, orderId: string)
    requires '?' !in base && IsWord(token) && IsWord(orderId)
    ensures var q := Parse(QueryOf(ApprovalTargetAsWritten(base + "?" + (TokenKey + "=" + token), orderId)));
      && Get(q, OrderIdKey) == None
      && Get(q, TokenKey) == Some(token + "?" + (OrderIdKey + "=" + orderId))
      && Get(q, TokenKey) != Some(token)
  {
    var e := token + "?" + (OrderIdKey + "=" + orderId);
    var url := base + "?" + (TokenKey + "=" + token);
    assert ApprovalTargetAsWritten(url, orderId) == base + "?" + (TokenKey + "=" + e);
    QueryAfterMark(base, TokenKey + "=" + e);
    assert IsPlain(e) && '&' !in e by {
      forall i | 0 <= i < |e|
        ensures e[i] as int < 0x80 && e[i] != '%' && e[i] != '+' && e[i] != '&'
      {
        if i >= |token| + 9 {
          assert e[i] == orderId[i - |token| - 9];
        } else if i < |token| {
          assert e[i] == token[i];
        }
      }
    }
    KeysAreWords();
    ParseSinglePair(TokenKey, e);
    DecodePlain(e);
  }

  /** Behind an approval URL without a query the two agree. */
  lemma ApprovalTargetsAgree(approvalUrl: string, orderId: string)
    requires '?' !in approvalUrl
    ensures ApprovalTarget(approvalUrl, orderId) == ApprovalTargetAsWritten(approvalUrl, orderId)
  {
  }

  /** Behind an approval URL without a query, the tab's query is exactly the order id. */
  lemma ApprovalTargetCarriesOrderId(approvalUrl: string, orderId: string)
    requires '?' !in approvalUrl && IsWord(orderId)
    ensures Parse(QueryOf(ApprovalTarget(approvalUrl, orderId))) == [(OrderIdKey, orderId)]
  {
    KeysAreWords();
    WordEncoding(orderId);
    SinglePairRoundTrip(approvalUrl, OrderIdKey, orderId);
  }

  /**
   * Behind an approval URL with a query, the tab's query keeps every entry of that query and
   * adds the order id after them.
   */
  lemma ApprovalTargetKeepsQuery(base: string, ps: Params, orderId: string)
    requires '?' !in base && |ps| > 0 && IsWord(orderId)
    ensures Parse(QueryOf(ApprovalTarget(base + "?" + Serialize(ps), orderId))) == ps + [(OrderIdKey, orderId)]
  {
    var q := Serialize(ps);
    var url := base + "?" + q;
    assert url[|base|] == '?';
    KeysAreWords();
    WordEncoding(orderId);
    SerializeSnoc(ps, (OrderIdKey, orderId));
    assert ApprovalTarget(url, orderId) == base + "?" + Serialize(ps + [(OrderIdKey, orderId)]);
    QueryAfterMark(base, Serialize(ps + [(OrderIdKey, orderId)]));
    ParseSerialize(ps + [(OrderIdKey, orderId)]);
  }

  // ---------------------------------------------------------------------------------------
  // The shop
  // ---------------------------------------------------------------------------------------

  class PurchaseCoinsPage {
    /** The plan whose order is being created, or whose approval tab was opened. */
    var loadingPlanId: Option<int>
    /** Router pushes, in order. */
    var navigations: seq<string>
    /** URLs opened in a new tab, in order. */
    var tabs: seq<string>
    /** Server actions called, in order. */
    var calls: seq<Action>

    /**
     * The disabled button, if any, is one of the plans; the shop navigates only to sign in and
     * opens at most one tab per order it created.
     */
    predicate Valid()
      reads this
    {
      (loadingPlanId.Some? ==> exists p :: p in Plans && p.id == loadingPlanId.value)
      && (forall k :: 0 <= k < |navigations| ==> navigations[k] == LoginRedirect(Routes.PurchasePage))
      && |tabs| <= |calls|
    }

    predicate ButtonDisabled(plan: Plan)
      reads this
    {
      Disabled(loadingPlanId, plan)
    }

    constructor()
      ensures loadingPlanId == None && navigations == [] && tabs == [] && calls == []
      ensures Valid()
    {
      loadingPlanId := None;
      navigations := [];
      tabs := [];
      calls := [];
    }

    /**
     * A plan's button. A signed-out visitor is sent to sign in and nothing else happens.
     * Otherwise the order is created for the plan's coins and price; with an approval URL the
     * tab opens and the plan's button stays disabled, and on every failure the button is
     * enabled again.
     */
    method HandlePurchase(isAuthenticated: bool, plan: Plan, reply: Reply<OrderData>)
      requires Valid() && plan in Plans
      modifies this
      ensures Valid()
      ensures !isAuthenticated ==>
        && navigations == old(navigations) + [LoginRedirect(Routes.PurchasePage)]
        && calls == old(calls) && tabs == old(tabs) && loadingPlanId == old(loadingPlanId)
      ensures isAuthenticated ==>
        && navigations == old(navigations)
        && calls == old(calls) + [CreateCoinPurchaseOrderAction(plan.amount, plan.price)]
      ensures isAuthenticated && Approval(reply).Some? ==>
        && tabs == old(tabs) + [ApprovalTargetAsWritten(Approval(reply).value.approvalUrl, Approval(reply).value.orderId)]
        && loadingPlanId == Some(plan.id)
      ensures isAuthenticated && Approval(reply).None? ==> tabs == old(tabs) && loadingPlanId == None
    {
      if !isAuthenticated {
        navigations := navigations + [LoginRedirect(Routes.PurchasePage)];
        return;
      }
      loadingPlanId := Some(plan.id);
      calls := calls + [CreateCoinPurchaseOrderAction(plan.amount, plan.price)];
      // A throw, an error result, or a result without data or approval URL all end the spinner.
      var approval := Approval(reply);
      if approval.Some? {
        tabs := tabs + [ApprovalTargetAsWritten(approval.value.approvalUrl, approval.value.orderId)];
      } else {
        loadingPlanId := None;
      }
    }
  }

  // ---------------------------------------------------------------------------------------
  // The return page
  // ---------------------------------------------------------------------------------------

  /** What the verify action returns, as far as the page reads it. */
  datatype PaymentData = PaymentData(success: bool)

  /** `result.success && result.data?.success` */
  predicate Paid(reply: Reply<PaymentData>) {
    reply.Returned? && reply.result.Ok? && reply.result.data.Some? && reply.result.data.value.success
  }

  class PaymentSuccessPage {
    /** `searchParams.get("token")` */
    const token: Option<string>
    var verifying: bool
    var verified: bool
    /** Router pushes made at once, in order. */
    var navigations: seq<string>
    /** Router pushes scheduled with a three-second timer. */
    var scheduled: seq<string>
    /** Server actions called, in order. */
    var calls: seq<Action>

    constructor(query: string)
      ensures token == Get(Parse(query), TokenKey)
      ensures verifying && !verified && navigations == [] && scheduled == [] && calls == []
    {
      token := Get(Parse(query), TokenKey);
      verifying := true;
      verified := false;
      navigations := [];
      scheduled := [];
      calls := [];
    }

    /**
     * The verification effect. Without a token it goes back to the shop and leaves the spinner
     * on. Otherwise it verifies the token as the order id and ends the spinner. A first
     * confirmed payment marks the page verified, refreshes the session and schedules the way
     * back; a payment confirmed again changes nothing; every other outcome goes back at once.
     */
    method Verify(reply: Reply<PaymentData>, auth: AuthProvider, refresh: Outcome<User>)
      modifies this, auth, auth.storage
      ensures old(verified) ==> verified
      ensures token.None? || token.value == "" ==>
        && navigations == old(navigations) + [Routes.PurchasePage]
        && verifying == old(verifying) && verified == old(verified)
        && calls == old(calls) && scheduled == old(scheduled)
        && auth.user == old(auth.user) && auth.calls == old(auth.calls)
        && auth.storage.entries == old(auth.storage.entries)
      ensures token.Some? && token.value != "" ==>
        calls == old(calls) + [VerifyPaymentAction(token.value)] && !verifying
      ensures token.Some? && token.value != "" && Paid(reply) && !old(verified) ==>
        && verified && navigations == old(navigations)
        && scheduled == old(scheduled) + [Routes.PurchasePage]
        && auth.user == Confirmed(Execute(refresh)) && auth.Mirrored()
        && auth.calls == old(auth.calls) + [GetCurrentUser]
        && auth.storage.entries == Adopted(old(auth.storage.entries), auth.storage.hasWindow, Execute(refresh))
      ensures token.Some? && token.value != "" && Paid(reply) && old(verified) ==>
        && navigations == old(navigations) && scheduled == old(scheduled)
        && auth.user == old(auth.user) && auth.calls == old(auth.calls)
        && auth.storage.entries == old(auth.storage.entries)
      ensures token.Some? && token.value != "" && !Paid(reply) ==>
        && navigations == old(navigations) + [Routes.PurchasePage]
        && verified == old(verified) && scheduled == old(scheduled)
        && auth.user == old(auth.user) && auth.calls == old(auth.calls)
        && auth.storage.entries == old(auth.storage.entries)
    {
      if token.None? || token.value == "" {
        navigations := navigations + [Routes.PurchasePage];
        return;
      }
      calls := calls + [VerifyPaymentAction(token.value)];
      if Paid(reply) {
        if !verified {
          verified := true;
          auth.RefreshUser(refresh);
          scheduled := scheduled + [Routes.PurchasePage];
        }
      } else {
        navigations := navigations + [Routes.PurchasePage];
      }
      verifying := false;
    }
  }
}
