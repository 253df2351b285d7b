/** The two persisted entities of the payment backend, the `users` and the
    `transactions` tables, with the validators attached to them. */
module Models {
  import opened Wrappers

  /** A row of the `users` table. The id is the surrogate primary key; the
      email column is unique and not null, the name not null, the language
      defaults to `DEFAULT_LANGUAGE`, the Stripe customer id is unique and
      nullable. */
  datatype User = User(
    id: int,
    email: string,
    name: string,
    phoneNumber: Option<string>,
    language: string,
    stripeCustomerId: Option<string>)

  /** A row of the `transactions` table. `userId` is a foreign key into
      `users`; the payment intent id is unique and nullable. */
  datatype Transaction = Transaction(
    id: int,
    userId: int,
    amount: real,
    currency: string,
    status: string,
    stripePaymentIntentId: Option<string>)

  /** The column default of `users.language`. */
  const DEFAULT_LANGUAGE: string := "en"

  /** The only status this backend ever writes. */
  const PENDING: string := "pending"

  /** Python truthiness of an optional string: `None` and `""` are false. */
  predicate Truthy(s: Option<string>)
  {
    s.Some? && s.value != ""
  }

  /** `Transaction.validate_amount` applied to the request's amount. The
      amount is read with `data.get('amount')`, so it may be absent, and in
      Python 3 `None > 0` raises a TypeError: that is the `None` result. */
  function ValidateAmount(amount: Option<real>): (valid: Option<bool>)
    ensures valid.None? <==> amount.None?
    ensures valid == Some(true) <==> amount.Some? && amount.value > 0.0
  {
    match amount
    case None => None
    case Some(a) => Some(a > 0.0)
  }

  /** The unique index on `users.email`. */
  ghost predicate UniqueEmails(users: map<int, User>)
  {
    forall i, j :: i in users && j in users && users[i].email == users[j].email ==> i == j
  }

  /** The unique index on `users.stripe_customer_id`; NULLs never collide. */
  ghost predicate UniqueCustomerIds(users: map<int, User>)
  {
    forall i, j ::
      (i in users && j in users && users[i].stripeCustomerId.Some? &&
       users[i].stripeCustomerId == users[j].stripeCustomerId) ==> i == j
  }

  /** The unique index on `transactions.stripe_payment_intent_id`; NULLs never collide. */
  ghost predicate UniqueIntentIds(txs: seq<Transaction>)
  {
    forall i, j ::
      (0 <= i < j < |txs| && txs[i].stripePaymentIntentId.Some?) ==>
        txs[i].stripePaymentIntentId != txs[j].stripePaymentIntentId
  }

  /** Some stored user already has this email. */
  predicate EmailTaken(users: map<int, User>, email: string)
  {
    exists id :: id in users && users[id].email == email
  }

  /** A stored user other than `self` already has this Stripe customer id. */
  predicate CustomerIdHeldByOther(users: map<int, User>, self: int, customerId: string)
  {
    exists id :: id in users && id != self && users[id].stripeCustomerId == Some(customerId)
  }

  /** Whether another user holds a customer id does not depend on the row `self`. */
  lemma HeldByOtherIgnoresSelf(users: map<int, User>, self: int, user: User, customerId: string)
    ensures CustomerIdHeldByOther(users[self := user], self, customerId) <==>
            CustomerIdHeldByOther(users, self, customerId)
  {
    var updated := users[self := user];
    if CustomerIdHeldByOther(updated, self, customerId) {
      var id :| id in updated && id != self && updated[id].stripeCustomerId == Some(customerId);
      assert id in users && users[id] == updated[id];
    }
    if CustomerIdHeldByOther(users, self, customerId) {
      var id :| id in users && id != self && users[id].stripeCustomerId == Some(customerId);
      assert id in updated && users[id] == updated[id];
    }
  }

  /** Some stored transaction already has this payment intent id. */
  predicate IntentIdTaken(txs: seq<Transaction>, intentId: string)
  {
    exists i :: 0 <= i < |txs| && txs[i].stripePaymentIntentId == Some(intentId)
  }

  /** The `User.transactions` relationship: the rows of `txs` whose foreign
      key is `userId`, in the order in which they were stored. */
  function TransactionsOf(txs: seq<Transaction>, userId: int): seq<Transaction>
  {
    if txs == [] then []
    else (if txs[0].userId == userId then [txs[0]] else []) + TransactionsOf(txs[1..], userId)
  }

  /** The relationship holds exactly the user's rows: both directions. */
  lemma {:induction false} TransactionsOfMembers(txs: seq<Transaction>, userId: int, t: Transaction)
    ensures t in TransactionsOf(txs, userId) <==> t in txs && t.userId == userId
  {
    if txs != [] {
      TransactionsOfMembers(txs[1..], userId, t);
      assert txs == [txs[0]] + txs[1..];
    }
  }

  /** Storing one more row extends the owner's relationship by that row and
      leaves every other user's relationship as it was. */
  lemma {:induction false} TransactionsOfAppend(txs: seq<Transaction>, t: Transaction, userId: int)
    ensures TransactionsOf(txs + [t], userId) ==
            TransactionsOf(txs, userId) + (if t.userId == userId then [t] else [])
  {
    if txs == [] {
      assert [] + [t] == [t];
    } else {
      assert (txs + [t])[1..] == txs[1..] + [t];
      TransactionsOfAppend(txs[1..], t, userId);
    }
  }
}
