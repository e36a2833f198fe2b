/** The payment-gateway adapter: whether the gateway is configured, the
    order, subscription and customer calls (a mock record when it is not
    configured, otherwise the request that would be sent), payment-signature
    verification, and the fixed membership plans. The HTTP exchange and the
    HMAC-SHA256 digest are not modelled: the request body is the result of
    a real call, and the digest is a parameter. */
module Razorpay {
  import opened Records
  import opened Strings

  /** The gateway key id and key secret from the environment (None when unset). */
  datatype GatewayConfig = GatewayConfig(keyId: Option<string>, keySecret: Option<string>)

  /** isRazorpayConfigured: both keys set and non-empty, and neither a
      placeholder containing `mock`. */
  function IsConfigured(config: GatewayConfig): (ok: bool)
    ensures ok <==>
      && config.keyId.Some? && config.keyId.value != ""
      && config.keySecret.Some? && config.keySecret.value != ""
      && !Occurs(config.keyId.value, "mock")
      && !Occurs(config.keySecret.value, "mock")
  {
    match (config.keyId, config.keySecret)
    case (Some(id), Some(secret)) =>
      id != "" && secret != "" && !Includes(id, "mock") && !Includes(secret, "mock")
    case _ => false
  }

  /** The id of a mock record: a fixed prefix and the current time in
      milliseconds. */
  function MockId(prefix: string, now: nat): (id: string)
    ensures StartsWith(id, prefix)
    ensures IsDigits(id[|prefix|..]) && |id| > |prefix|
    ensures ParseDecimal(id[|prefix|..]) == now
  {
    var id := prefix + Decimal(now);
    assert id[|prefix|..] == Decimal(now);
    assert id[..|prefix|] == prefix;
    ParseDecimalOfDecimal(now);
    id
  }

  /** Mock records made at different times have different ids. */
  lemma MockIdsDistinct(prefix: string, t1: nat, t2: nat)
    requires t1 != t2
    ensures MockId(prefix, t1) != MockId(prefix, t2)
  {
  }

  /** Rupees to paise, as sent to the gateway: a whole number of paise from
      which the rupee amount is recovered exactly. */
  function Paise(amount: int): (paise: int)
    ensures paise % 100 == 0 && paise / 100 == amount
    ensures amount > 0 ==> paise > amount
  {
    amount * 100
  }

  datatype Order = Order(id: string, amount: int, currency: string, status: string, notes: Record, isMocked: bool)
  datatype OrderRequest = OrderRequest(amount: int, currency: string, notes: Record)
  datatype OrderCall = MockOrder(order: Order) | PostOrder(request: OrderRequest)

  /** createOrder for `amount` rupees: the currency is INR unless given and
      the notes empty unless given; the gateway always gets the amount in
      paise. */
  function CreateOrder(config: GatewayConfig, amount: int, currency: Option<string>, notes: Option<Record>, now: nat): (call: OrderCall)
    ensures call.MockOrder? <==> !IsConfigured(config)
    ensures call.MockOrder? ==>
      && StartsWith(call.order.id, "order_mock_") && ParseDecimal(call.order.id[11..]) == now
      && call.order.amount == amount * 100
      && call.order.currency == (if currency.Some? then currency.value else "INR")
      && call.order.status == "created" && call.order.isMocked
    ensures call.PostOrder? ==>
      && call.request.amount == amount * 100
      && call.request.currency == (if currency.Some? then currency.value else "INR")
  {
    var cur := match currency case Some(c) => c case None => "INR";
    var n := match notes case Some(m) => m case None => map[];
    if !IsConfigured(config) then MockOrder(Order(MockId("order_mock_", now), Paise(amount), cur, "created", n, true))
    else PostOrder(OrderRequest(Paise(amount), cur, n))
  }

  /** Mock or real, an order asks for the same number of paise. */
  lemma OrderAmountIndependentOfMode(c1: GatewayConfig, c2: GatewayConfig, amount: int, currency: Option<string>, notes: Option<Record>, now: nat)
    ensures OrderPaise(CreateOrder(c1, amount, currency, notes, now)) == OrderPaise(CreateOrder(c2, amount, currency, notes, now))
  {
  }

  function OrderPaise(call: OrderCall): int {
    match call
    case MockOrder(order) => order.amount
    case PostOrder(request) => request.amount
  }

  datatype Subscription = Subscription(id: string, planId: string, customerId: string, status: string, notes: Record, isMocked: bool)
  datatype SubscriptionRequest = SubscriptionRequest(planId: string, customerId: string, totalCount: int, notes: Record)
  datatype SubscriptionCall = MockSubscription(subscription: Subscription) | PostSubscription(request: SubscriptionRequest)

  /** createSubscription: a mock echoes the plan and customer; a real
      request always asks for 12 billing cycles. */
  function CreateSubscription(config: GatewayConfig, planId: string, customerId: string, notes: Option<Record>, now: nat): (call: SubscriptionCall)
    ensures call.MockSubscription? <==> !IsConfigured(config)
    ensures call.MockSubscription? ==>
      && StartsWith(call.subscription.id, "sub_mock_") && ParseDecimal(call.subscription.id[9..]) == now
      && call.subscription.planId == planId && call.subscription.customerId == customerId
      && call.subscription.status == "created" && call.subscription.isMocked
    ensures call.PostSubscription? ==>
      call.request.planId == planId && call.request.customerId == customerId && call.request.totalCount == 12
  {
    var n := match notes case Some(m) => m case None => map[];
    if !IsConfigured(config) then MockSubscription(Subscription(MockId("sub_mock_", now), planId, customerId, "created", n, true))
    else PostSubscription(SubscriptionRequest(planId, customerId, 12, n))
  }

  datatype Customer = Customer(id: string, name: string, email: string, contact: string, isMocked: bool)
  datatype CustomerRequest = CustomerRequest(name: string, email: string, contact: string)
  datatype CustomerCall = MockCustomer(customer: Customer) | PostCustomer(request: CustomerRequest)

  /** createCustomer: the phone number becomes the customer's contact. */
  function CreateCustomer(config: GatewayConfig, name: string, email: string, phone: string, now: nat): (call: CustomerCall)
    ensures call.MockCustomer? <==> !IsConfigured(config)
    ensures call.MockCustomer? ==>
      && StartsWith(call.customer.id, "cust_mock_") && ParseDecimal(call.customer.id[10..]) == now
      && call.customer.name == name && call.customer.email == email
      && call.customer.contact == phone && call.customer.isMocked
    ensures call.PostCustomer? ==>
      call.request.name == name && call.request.email == email && call.request.contact == phone
  {
    if !IsConfigured(config) then MockCustomer(Customer(MockId("cust_mock_", now), name, email, phone, true))
    else PostCustomer(CustomerRequest(name, email, phone))
  }

  /** The message the payment signature is computed over. */
  function SignedMessage(orderId: string, paymentId: string): (message: string)
    ensures |message| == |orderId| + 1 + |paymentId|
    ensures message[|orderId|] == '|'
    ensures message[..|orderId|] == orderId && message[|orderId| + 1..] == paymentId
  {
    orderId + "|" + paymentId
  }

  /** For order ids without `|`, the message determines the order and
      payment ids. */
  lemma SignedMessageInjective(o1: string, p1: string, o2: string, p2: string)
    requires '|' !in o1 && '|' !in o2
    requires SignedMessage(o1, p1) == SignedMessage(o2, p2)
    ensures o1 == o2 && p1 == p2
  {
    var m := SignedMessage(o1, p1);
    assert forall k :: 0 <= k < |o1| ==> m[k] == o1[k] != '|';
    assert forall k :: 0 <= k < |o2| ==> m[k] == o2[k] != '|';
    assert m[|o1|] == '|' && m[|o2|] == '|';
    assert |o1| == |o2|;
  }

  /** Without that restriction two different pairs share a message, and so
      a signature. */
  lemma SignedMessageAmbiguous()
    ensures SignedMessage("a|b", "c") == SignedMessage("a", "b|c")
  {
  }

  /** verifyPaymentSignature: unconfigured, every signature passes;
      configured, exactly the hex HMAC-SHA256, under the key secret, of
      `orderId|paymentId` passes. */
  function VerifyPaymentSignature(config: GatewayConfig, hmac: (string, string) -> string, orderId: string, paymentId: string, signature: string): (ok: bool)
    ensures !IsConfigured(config) ==> ok
    ensures IsConfigured(config) ==> (ok <==> signature == hmac(config.keySecret.value, SignedMessage(orderId, paymentId)))
  {
    if !IsConfigured(config) then true
    else hmac(config.keySecret.value, SignedMessage(orderId, paymentId)) == signature
  }

  /** Configured, at most one signature passes for an order and payment. */
  lemma AtMostOneSignature(config: GatewayConfig, hmac: (string, string) -> string, orderId: string, paymentId: string, s1: string, s2: string)
    requires IsConfigured(config)
    requires VerifyPaymentSignature(config, hmac, orderId, paymentId, s1)
    requires VerifyPaymentSignature(config, hmac, orderId, paymentId, s2)
    ensures s1 == s2
  {
  }

  /** A membership plan. */
  datatype Plan = Plan(id: string, name: string, amount: int, currency: string, period: string, description: string)

  const MembershipPlans: map<string, Plan> := map[
    "basic" := Plan("plan_basic", "Basic Membership", 199, "INR", "monthly", "Support our cause with monthly contributions"),
    "core" := Plan("plan_core", "Core Membership", 499, "INR", "monthly", "Be a core supporter of our initiatives"),
    "premium" := Plan("plan_premium", "Premium Membership", 999, "INR", "monthly", "Premium support with exclusive benefits")
  ]

  /** The plan for a membership tier, if it is one of the three. */
  function LookupPlan(tier: string): (plan: Option<Plan>)
    ensures plan.Some? <==> tier == "basic" || tier == "core" || tier == "premium"
    ensures plan.Some? ==>
      && plan.value.id == "plan_" + tier
      && plan.value.currency == "INR" && plan.value.period == "monthly"
      && plan.value.amount == (if tier == "basic" then 199 else if tier == "core" then 499 else 999)
  {
    if tier in MembershipPlans then Some(MembershipPlans[tier]) else None
  }

  /** The tiers are exactly basic, core and premium, in rising price. */
  lemma PlanTable()
    ensures MembershipPlans.Keys == {"basic", "core", "premium"}
    ensures MembershipPlans["basic"].amount < MembershipPlans["core"].amount < MembershipPlans["premium"].amount
  {
  }
}
