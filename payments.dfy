/** `PaymentService`: the two calls into Stripe. The network is not modelled;
    each call takes the answer Stripe gave as a parameter and records the
    exchange, so that the model can state which requests reach the gateway
    and in what order. */
module Payments {
  import opened Wrappers

  /** What `stripe.PaymentIntent.create` returns that the backend uses. */
  datatype PaymentIntent = PaymentIntent(id: string, clientSecret: string)

  /** One exchange with Stripe: the request sent and the answer received
      (`None` when Stripe raised a `StripeError`). */
  datatype GatewayCall =
    | CustomerCreation(email: string, name: string, customerId: Option<string>)
    | IntentCreation(amountCents: int, currency: Option<string>, customer: Option<string>, intent: Option<PaymentIntent>)

  /** `int(amount * 100)`: Python's `int` truncates toward zero. Computed on
      exact reals, not on binary floating point. */
  function CentsOf(amount: real): (cents: int)
    ensures amount >= 0.0 ==> cents as real <= amount * 100.0 < cents as real + 1.0
    ensures amount < 0.0 ==> cents as real - 1.0 < amount * 100.0 <= cents as real
  {
    var x := amount * 100.0;
    if x >= 0.0 then x.Floor else -((-x).Floor)
  }

  /** An amount that `validate_amount` accepts can still reach Stripe as zero cents. */
  lemma SubCentAmount(amount: real)
    requires 0.0 < amount < 0.01
    ensures CentsOf(amount) == 0
  {
  }

  /** The Stripe client. `calls` is every exchange so far, oldest first. */
  class PaymentService {
    var calls: seq<GatewayCall>

    constructor ()
      ensures calls == []
    {
      calls := [];
    }

    /** `create_stripe_customer(user)`: registers the user's email and name;
        `answer` is the customer id Stripe returned, or `None` on a `StripeError`. */
    method CreateStripeCustomer(email: string, name: string, answer: Option<string>)
      returns (customerId: Option<string>)
      modifies this
      ensures calls == old(calls) + [CustomerCreation(email, name, answer)]
      ensures customerId == answer
    {
      calls := calls + [CustomerCreation(email, name, answer)];
      customerId := answer;
    }

    /** `create_payment_intent(amount, currency, customer_id)`: asks for a
        card payment of `int(amount * 100)` minor units, in the currency the
        request gave (`None` for a JSON null); `answer` is the intent Stripe
        returned, or `None` on a `StripeError`. */
    method CreatePaymentIntent(amount: real, currency: Option<string>, customerId: Option<string>, answer: Option<PaymentIntent>)
      returns (intent: Option<PaymentIntent>)
      modifies this
      ensures calls == old(calls) + [IntentCreation(CentsOf(amount), currency, customerId, answer)]
      ensures intent == answer
    {
      calls := calls + [IntentCreation(CentsOf(amount), currency, customerId, answer)];
      intent := answer;
    }
  }
}
