/** The database session: the two tables, their constraints, and the
    add-then-commit steps the handlers perform. A commit that violates a
    constraint raises an IntegrityError; the handler then rolls back, and
    since each commit holds a single change, the rollback discards exactly
    that change. */
module Persistence {
  import opened Wrappers
  import opened Models

  /** The exception a handler catches, standing for `str(e)` in its 500 reply. */
  datatype Cause =
    | NotNullViolation(column: string)
    | UniqueViolation(column: string)
    | ForeignKeyViolation(column: string)
    | AmountNotComparable        // TypeError from `None > 0`
    | MissingField(key: string)  // KeyError from `data[key]`
    | NotAString(key: string)    // AttributeError from `validate_email(None)`, not an EmailNotValidError

  /** The ORM leaves a `None` attribute out of the INSERT when its column
      has a default, so a `None` language is stored as the column default. */
  function StoredLanguage(language: Option<string>): string
  {
    if language.Some? then language.value else DEFAULT_LANGUAGE
  }

  class Store {
    /** The `users` table, keyed by primary key. */
    var users: map<int, User>
    /** The `transactions` table, in insertion order. */
    var transactions: seq<Transaction>
    /** The next value of each autoincrement primary key. */
    var nextUserId: int
    var nextTransactionId: int

    /** The constraints the database enforces, and the shape of its keys. */
    ghost predicate Valid()
      reads this
    {
      && 0 < nextUserId && 0 < nextTransactionId
      && (forall id :: id in users ==> 0 < id < nextUserId && users[id].id == id)
      && UniqueEmails(users)
      && UniqueCustomerIds(users)
      && (forall i :: 0 <= i < |transactions| ==>
            transactions[i].userId in users && 0 < transactions[i].id < nextTransactionId)
      && (forall i, j :: 0 <= i < j < |transactions| ==> transactions[i].id < transactions[j].id)
      && UniqueIntentIds(transactions)
    }

    /** `db.create_all()` on a fresh database: empty tables, keys starting at 1. */
    constructor ()
      ensures Valid()
      ensures users == map[] && transactions == []
      ensures nextUserId == 1 && nextTransactionId == 1
    {
      users := map[];
      transactions := [];
      nextUserId := 1;
      nextTransactionId := 1;
    }

    /** `User.query.get(user_id)`; a missing id (`get(None)`) finds nothing. */
    method FindUser(userId: Option<int>) returns (user: Option<User>)
      requires Valid()
      ensures user.Some? <==> userId.Some? && userId.value in users
      ensures user.Some? ==> user.value == users[userId.value] && user.value.id == userId.value
    {
      if userId.Some? && userId.value in users {
        user := Some(users[userId.value]);
      } else {
        user := None;
      }
    }

    /** `db.session.add(user); db.session.commit()` for a new user; on an
        IntegrityError nothing is stored. NOT NULL is checked before the
        unique index; an absent language takes the column default. Returns
        the new primary key. */
    method InsertUser(email: string, name: Option<string>, phoneNumber: Option<string>, language: Option<string>)
      returns (r: Result<int, Cause>)
      requires Valid()
      modifies this
      ensures Valid()
      ensures transactions == old(transactions) && nextTransactionId == old(nextTransactionId)
      ensures name.None? ==> r == Failure(NotNullViolation("users.name"))
      ensures name.Some? && EmailTaken(old(users), email) ==> r == Failure(UniqueViolation("users.email"))
      ensures r.Failure? ==> unchanged(this)
      ensures name.Some? && !EmailTaken(old(users), email) ==>
                && r == Success(old(nextUserId))
                && users == old(users)[old(nextUserId) := User(old(nextUserId), email, name.value, phoneNumber, StoredLanguage(language), None)]
                && nextUserId == old(nextUserId) + 1
    {
      if name.None? {
        return Failure(NotNullViolation("users.name"));
      }
      if EmailTaken(users, email) {
        return Failure(UniqueViolation("users.email"));
      }
      var id := nextUserId;
      users := users[id := User(id, email, name.value, phoneNumber, StoredLanguage(language), None)];
      nextUserId := nextUserId + 1;
      r := Success(id);
    }

    /** `user.stripe_customer_id = customer_id; db.session.commit()`; on an
        IntegrityError the stored row keeps its previous value. */
    method SetCustomerId(id: int, customerId: string) returns (err: Option<Cause>)
      requires Valid()
      requires id in users
      modifies this
      ensures Valid()
      ensures transactions == old(transactions)
      ensures nextUserId == old(nextUserId) && nextTransactionId == old(nextTransactionId)
      ensures err.Some? <==> CustomerIdHeldByOther(old(users), id, customerId)
      ensures err.Some? ==> err == Some(UniqueViolation("users.stripe_customer_id")) && unchanged(this)
      ensures err.None? ==> users == old(users)[id := old(users)[id].(stripeCustomerId := Some(customerId))]
    {
      if CustomerIdHeldByOther(users, id, customerId) {
        return Some(UniqueViolation("users.stripe_customer_id"));
      }
      users := users[id := users[id].(stripeCustomerId := Some(customerId))];
      err := None;
    }

    /** `db.session.add(transaction); db.session.commit()`; on an
        IntegrityError nothing is stored. NOT NULL is checked first, then the
        unique index, then the foreign key. Returns the new primary key. */
    method InsertTransaction(userId: int, amount: real, currency: Option<string>, status: string, intentId: string)
      returns (r: Result<int, Cause>)
      requires Valid()
      modifies this
      ensures Valid()
      ensures users == old(users) && nextUserId == old(nextUserId)
      ensures currency.None? ==> r == Failure(NotNullViolation("transactions.currency"))
      ensures currency.Some? && IntentIdTaken(old(transactions), intentId) ==>
                r == Failure(UniqueViolation("transactions.stripe_payment_intent_id"))
      ensures currency.Some? && !IntentIdTaken(old(transactions), intentId) && userId !in old(users) ==>
                r == Failure(ForeignKeyViolation("transactions.user_id"))
      ensures r.Failure? ==> unchanged(this)
      ensures currency.Some? && !IntentIdTaken(old(transactions), intentId) && userId in old(users) ==>
                && r == Success(old(nextTransactionId))
                && transactions == old(transactions) + [Transaction(old(nextTransactionId), userId, amount, currency.value, status, Some(intentId))]
                && nextTransactionId == old(nextTransactionId) + 1
    {
      if currency.None? {
        return Failure(NotNullViolation("transactions.currency"));
      }
      if IntentIdTaken(transactions, intentId) {
        return Failure(UniqueViolation("transactions.stripe_payment_intent_id"));
      }
      if userId !in users {
        return Failure(ForeignKeyViolation("transactions.user_id"));
      }
      var id := nextTransactionId;
      transactions := transactions + [Transaction(id, userId, amount, currency.value, status, Some(intentId))];
      nextTransactionId := nextTransactionId + 1;
      r := Success(id);
    }
  }
}
