/** The two request handlers, `POST /user` and `POST /payment`. A request
    body is a record whose fields may be absent; a reply is a status code
    and a body. The email and phone validators are left uninterpreted
    (function parameters); what Stripe answers is a parameter, and the
    exchange is recorded by the `PaymentService`. A field the handler reads
    with `data.get(key)` is an `Option`, since a missing key and a JSON null
    both read as `None`; a field it reads otherwise is a `JsonField`. */
module Handlers {
  import opened Wrappers
  import opened Models
  import opened Payments
  import opened Persistence

  /** A field of a JSON body: missing, an explicit `null`, or a value. */
  datatype JsonField<+T> = Absent | Null | Present(value: T)

  /** The JSON body of `POST /user`. */
  datatype UserRequest = UserRequest(
    email: Option<string>,
    name: Option<string>,
    language: JsonField<string>,
    phoneNumber: Option<string>)

  /** The JSON body of `POST /payment`. */
  datatype PaymentRequest = PaymentRequest(
    userId: Option<int>,
    amount: Option<real>,
    currency: JsonField<string>)

  /** The JSON body of a reply. `Crashed` is `{'error': str(e)}` after a rollback. */
  datatype Body =
    | Error(message: string)
    | Crashed(cause: Cause)
    | UserCreated(userId: int, stripeCustomerId: Option<string>)
    | PaymentCreated(clientSecret: string, transactionId: int, stripePaymentIntentId: string)

  datatype Response = Response(status: int, body: Body)

  const INVALID_EMAIL: string := "Invalid email format"
  const INVALID_PHONE: string := "Invalid phone number"
  const USER_NOT_FOUND: string := "User not found"
  const INVALID_AMOUNT: string := "Invalid payment amount"
  const PAYMENT_FAILED: string := "Payment processing failed"

  /** `data.get('language', 'en')`: the default for a missing key, `None`
      for an explicit null (which the column default then replaces). */
  function LanguageOf(req: UserRequest): Option<string>
  {
    match req.language
    case Absent => Some(DEFAULT_LANGUAGE)
    case Null => None
    case Present(l) => Some(l)
  }

  /** `data['currency']` for a body that has the key: `None` for a JSON null. */
  function CurrencyOf(req: PaymentRequest): Option<string>
    requires !req.currency.Absent?
  {
    if req.currency.Present? then Some(req.currency.value) else None
  }

  /** The phone number stored: only a non-empty one is copied onto the user. */
  function PhoneOf(req: UserRequest): Option<string>
  {
    if Truthy(req.phoneNumber) then req.phoneNumber else None
  }

  /** An email was given and the validator returned a non-empty normal form. */
  predicate EmailAccepted(validateEmail: string -> Option<string>, req: UserRequest)
  {
    req.email.Some? && Truthy(validateEmail(req.email.value))
  }

  /** A non-empty phone number was given and the validator rejects it. */
  predicate PhoneRejected(validatePhone: string -> bool, req: UserRequest)
  {
    Truthy(req.phoneNumber) && !validatePhone(req.phoneNumber.value)
  }

  /** `c` is an intent creation that Stripe accepted, for the amount, the
      currency and the intent id recorded in `t`. */
  predicate AcceptedIntent(c: GatewayCall, t: Transaction)
  {
    && c.IntentCreation?
    && c.intent.Some?
    && t.stripePaymentIntentId == Some(c.intent.value.id)
    && c.amountCents == CentsOf(t.amount)
    && c.currency == Some(t.currency)
  }

  /** Every stored transaction has a positive amount, is pending, and was
      written only after Stripe accepted its payment intent. */
  ghost predicate PaymentsBacked(txs: seq<Transaction>, calls: seq<GatewayCall>)
  {
    forall i :: 0 <= i < |txs| ==>
      && txs[i].amount > 0.0
      && txs[i].status == PENDING
      && exists k :: 0 <= k < |calls| && AcceptedIntent(calls[k], txs[i])
  }

  /** An empty `transactions` table is backed by any gateway log. */
  lemma InitiallyBacked(calls: seq<GatewayCall>)
    ensures PaymentsBacked([], calls)
  {
  }

  /** Further exchanges with Stripe never unsettle the stored transactions. */
  lemma BackedAfterCall(txs: seq<Transaction>, calls: seq<GatewayCall>, c: GatewayCall)
    requires PaymentsBacked(txs, calls)
    ensures PaymentsBacked(txs, calls + [c])
  {
    forall i | 0 <= i < |txs|
      ensures txs[i].amount > 0.0 && txs[i].status == PENDING
      ensures exists k :: 0 <= k < |calls + [c]| && AcceptedIntent((calls + [c])[k], txs[i])
    {
      var k :| 0 <= k < |calls| && AcceptedIntent(calls[k], txs[i]);
      assert (calls + [c])[k] == calls[k];
    }
  }

  /** A row that matches the latest accepted intent keeps every row backed. */
  lemma BackedAfterPayment(txs: seq<Transaction>, calls: seq<GatewayCall>, t: Transaction)
    requires PaymentsBacked(txs, calls)
    requires |calls| > 0 && AcceptedIntent(calls[|calls| - 1], t)
    requires t.amount > 0.0 && t.status == PENDING
    ensures PaymentsBacked(txs + [t], calls)
  {
    forall i | 0 <= i < |txs + [t]|
      ensures exists k :: 0 <= k < |calls| && AcceptedIntent(calls[k], (txs + [t])[i])
    {
      if i == |txs| {
        assert AcceptedIntent(calls[|calls| - 1], (txs + [t])[i]);
      } else {
        assert (txs + [t])[i] == txs[i];
      }
    }
  }

  /** `create_user`: validate the email, then the phone number, commit the
      user, register it with Stripe and, if Stripe gave a customer id,
      commit that id in a second commit. A failing commit is rolled back
      and answered with 500; a failure of the second commit leaves the
      user of the first in place. */
  method CreateUser(
    db: Store, stripe: PaymentService,
    validateEmail: string -> Option<string>, validatePhone: string -> bool,
    req: UserRequest, customerAnswer: Option<string>)
    returns (resp: Response)
    requires db.Valid()
    modifies db, stripe
    ensures db.Valid()
    ensures db.transactions == old(db.transactions) && db.nextTransactionId == old(db.nextTransactionId)
    ensures PaymentsBacked(old(db.transactions), old(stripe.calls)) ==> PaymentsBacked(db.transactions, stripe.calls)
    // no email: the validator raises an error `User.validate_email` does not catch
    ensures req.email.None? ==>
              resp == Response(500, Crashed(NotAString("email"))) && unchanged(db) && unchanged(stripe)
    // an email the validator rejects: nothing is stored and Stripe is not called
    ensures req.email.Some? && !Truthy(validateEmail(req.email.value)) ==>
              resp == Response(400, Error(INVALID_EMAIL)) && unchanged(db) && unchanged(stripe)
    // a non-empty phone number the validator rejects: likewise, before any add
    ensures EmailAccepted(validateEmail, req) && PhoneRejected(validatePhone, req) ==>
              resp == Response(400, Error(INVALID_PHONE)) && unchanged(db) && unchanged(stripe)
    // the first commit fails: rolled back, Stripe is not called
    ensures EmailAccepted(validateEmail, req) && !PhoneRejected(validatePhone, req) && req.name.None? ==>
              resp == Response(500, Crashed(NotNullViolation("users.name"))) && unchanged(db) && unchanged(stripe)
    ensures EmailAccepted(validateEmail, req) && !PhoneRejected(validatePhone, req) && req.name.Some? &&
            EmailTaken(old(db.users), validateEmail(req.email.value).value) ==>
              resp == Response(500, Crashed(UniqueViolation("users.email"))) && unchanged(db) && unchanged(stripe)
    // the first commit succeeds: exactly one new user, then one call to Stripe with its email and name
    ensures EmailAccepted(validateEmail, req) && !PhoneRejected(validatePhone, req) && req.name.Some? &&
            !EmailTaken(old(db.users), validateEmail(req.email.value).value) ==>
              var id := old(db.nextUserId);
              var email := validateEmail(req.email.value).value;
              var user := User(id, email, req.name.value, PhoneOf(req), StoredLanguage(LanguageOf(req)), None);
              && db.nextUserId == id + 1
              && id in db.users
              && db.users[id].language == (if req.language.Present? then req.language.value else DEFAULT_LANGUAGE)
              && stripe.calls == old(stripe.calls) + [CustomerCreation(email, req.name.value, customerAnswer)]
              && (!Truthy(customerAnswer) ==>
                    resp == Response(201, UserCreated(id, customerAnswer)) &&
                    db.users == old(db.users)[id := user])
              && (Truthy(customerAnswer) && CustomerIdHeldByOther(old(db.users), id, customerAnswer.value) ==>
                    resp == Response(500, Crashed(UniqueViolation("users.stripe_customer_id"))) &&
                    db.users == old(db.users)[id := user])
              && (Truthy(customerAnswer) && !CustomerIdHeldByOther(old(db.users), id, customerAnswer.value) ==>
                    resp == Response(201, UserCreated(id, customerAnswer)) &&
                    db.users == old(db.users)[id := user.(stripeCustomerId := customerAnswer)])
  {
    if req.email.None? {
      return Response(500, Crashed(NotAString("email")));
    }
    var email := validateEmail(req.email.value);
    if !Truthy(email) {
      return Response(400, Error(INVALID_EMAIL));
    }
    var phoneNumber: Option<string> := None;
    if Truthy(req.phoneNumber) {
      if !validatePhone(req.phoneNumber.value) {
        return Response(400, Error(INVALID_PHONE));
      }
      phoneNumber := req.phoneNumber;
    }
    var language := LanguageOf(req);

    var inserted := db.InsertUser(email.value, req.name, phoneNumber, language);
    if inserted.Failure? {
      return Response(500, Crashed(inserted.error));
    }
    var id := inserted.value;
    ghost var stored := db.users;

    var customerId := stripe.CreateStripeCustomer(email.value, req.name.value, customerAnswer);
    if PaymentsBacked(db.transactions, old(stripe.calls)) {
      BackedAfterCall(db.transactions, old(stripe.calls), CustomerCreation(email.value, req.name.value, customerAnswer));
    }
    if Truthy(customerId) {
      HeldByOtherIgnoresSelf(old(db.users), id, stored[id], customerId.value);
      var err := db.SetCustomerId(id, customerId.value);
      if err.Some? {
        return Response(500, Crashed(err.value));
      }
    }
    resp := Response(201, UserCreated(id, customerId));
  }

  /** The user named by a payment request exists. */
  predicate KnownUser(users: map<int, User>, req: PaymentRequest)
  {
    req.userId.Some? && req.userId.value in users
  }

  /** `process_payment`: look the user up, validate the amount, ask Stripe
      for a payment intent with the user's stored customer id and, once
      Stripe has accepted it, commit one pending transaction. */
  method ProcessPayment(db: Store, stripe: PaymentService, req: PaymentRequest, intentAnswer: Option<PaymentIntent>)
    returns (resp: Response)
    requires db.Valid()
    modifies db, stripe
    ensures db.Valid()
    ensures db.users == old(db.users) && db.nextUserId == old(db.nextUserId)
    ensures PaymentsBacked(old(db.transactions), old(stripe.calls)) ==> PaymentsBacked(db.transactions, stripe.calls)
    // unknown user: 404 before anything else
    ensures !KnownUser(old(db.users), req) ==>
              resp == Response(404, Error(USER_NOT_FOUND)) && unchanged(db) && unchanged(stripe)
    // no amount: `None > 0` raises
    ensures KnownUser(old(db.users), req) && req.amount.None? ==>
              resp == Response(500, Crashed(AmountNotComparable)) && unchanged(db) && unchanged(stripe)
    // an amount that is not positive: 400, Stripe is not called
    ensures KnownUser(old(db.users), req) && req.amount.Some? && req.amount.value <= 0.0 ==>
              resp == Response(400, Error(INVALID_AMOUNT)) && unchanged(db) && unchanged(stripe)
    // no currency key: `data['currency']` raises before Stripe is called
    ensures KnownUser(old(db.users), req) && req.amount.Some? && req.amount.value > 0.0 && req.currency.Absent? ==>
              resp == Response(500, Crashed(MissingField("currency"))) && unchanged(db) && unchanged(stripe)
    // otherwise exactly one call to Stripe, with the request's currency (`None` for a JSON null)
    // and the user's stored customer id
    ensures KnownUser(old(db.users), req) && req.amount.Some? && req.amount.value > 0.0 && !req.currency.Absent? ==>
              var user := old(db.users)[req.userId.value];
              var amount, currency := req.amount.value, CurrencyOf(req);
              && stripe.calls == old(stripe.calls) + [IntentCreation(CentsOf(amount), currency, user.stripeCustomerId, intentAnswer)]
              && (intentAnswer.None? ==>
                    resp == Response(500, Error(PAYMENT_FAILED)) && unchanged(db))
              && (intentAnswer.Some? && currency.None? ==>
                    resp == Response(500, Crashed(NotNullViolation("transactions.currency"))) &&
                    unchanged(db))
              && (intentAnswer.Some? && currency.Some? && IntentIdTaken(old(db.transactions), intentAnswer.value.id) ==>
                    resp == Response(500, Crashed(UniqueViolation("transactions.stripe_payment_intent_id"))) &&
                    unchanged(db))
              && (intentAnswer.Some? && currency.Some? && !IntentIdTaken(old(db.transactions), intentAnswer.value.id) ==>
                    var tid := old(db.nextTransactionId);
                    var t := Transaction(tid, user.id, amount, currency.value, PENDING, Some(intentAnswer.value.id));
                    && db.transactions == old(db.transactions) + [t]
                    && db.nextTransactionId == tid + 1
                    && resp == Response(200, PaymentCreated(intentAnswer.value.clientSecret, tid, intentAnswer.value.id))
                    && TransactionsOf(db.transactions, user.id) == TransactionsOf(old(db.transactions), user.id) + [t]
                    && (forall other :: other != user.id ==>
                          TransactionsOf(db.transactions, other) == TransactionsOf(old(db.transactions), other)))
  {
    var user := db.FindUser(req.userId);
    if user.None? {
      return Response(404, Error(USER_NOT_FOUND));
    }
    var valid := ValidateAmount(req.amount);
    if valid.None? {
      return Response(500, Crashed(AmountNotComparable));
    }
    if !valid.value {
      return Response(400, Error(INVALID_AMOUNT));
    }
    if req.currency.Absent? {
      return Response(500, Crashed(MissingField("currency")));
    }
    var amount, currency := req.amount.value, CurrencyOf(req);

    var intent := stripe.CreatePaymentIntent(amount, currency, user.value.stripeCustomerId, intentAnswer);
    if PaymentsBacked(db.transactions, old(stripe.calls)) {
      BackedAfterCall(db.transactions, old(stripe.calls), IntentCreation(CentsOf(amount), currency, user.value.stripeCustomerId, intentAnswer));
    }
    if intent.None? {
      return Response(500, Error(PAYMENT_FAILED));
    }

    var stored := db.InsertTransaction(user.value.id, amount, currency, PENDING, intent.value.id);
    if stored.Failure? {
      return Response(500, Crashed(stored.error));
    }
    ghost var t := Transaction(stored.value, user.value.id, amount, currency.value, PENDING, Some(intent.value.id));
    if PaymentsBacked(old(db.transactions), old(stripe.calls)) {
      BackedAfterPayment(old(db.transactions), stripe.calls, t);
    }
    forall other | true
      ensures TransactionsOf(db.transactions, other) ==
              TransactionsOf(old(db.transactions), other) + (if t.userId == other then [t] else [])
    {
      TransactionsOfAppend(old(db.transactions), t, other);
    }
    resp := Response(200, PaymentCreated(intent.value.clientSecret, stored.value, intent.value.id));
  }
}
