# Student payment processor: request handlers over an explicit store

This project models the Flask backend of the student payment processor
(`student_payment_processor/src/backend/app.py`): its two request handlers,
`POST /user` (`create_user`) and `POST /payment` (`process_payment`), the
`User` and `Transaction` tables they write, and the `PaymentService` calls
into Stripe they make. It proves, for every input and every answer the
outside world can give, which replies the handlers send, which rows they
store, and which requests reach Stripe.

The model is in five modules:

- `Wrappers` (`wrappers.dfy`): `Option` and `Result`.
- `Models` (`models.dfy`): the `User` and `Transaction` rows, the amount validator,
  Python truthiness of optional strings, the uniqueness constraints, and the
  `User.transactions` relationship (`TransactionsOf`) with its lemmas.
- `Payments` (`payments.dfy`): the `PaymentService` class. It keeps a log of every
  exchange with Stripe (the request sent and the answer received). The answer
  itself is a parameter of each call, because the network is not modelled.
  `CentsOf` models `int(amount * 100)`.
- `Persistence` (`persistence.dfy`): the `Store` class. It holds:
  - the `users` table, as a map from primary key to row;
  - the `transactions` table, as a sequence;
  - the two autoincrement counters.

  Its commit steps enforce NOT NULL, UNIQUE and the foreign key. A failing commit
  leaves the store as it was, which is what the handler's `rollback` restores.
- `Handlers` (`handlers.dfy`): `CreateUser` and `ProcessPayment`.
  - Each request handler is a method over a `Store` and a `PaymentService`.
  - Each request is a record. A field read with `data.get` is optional, since a
    missing key and a JSON `null` read alike. The two fields read otherwise,
    `language` and `currency`, tell a missing key, an explicit `null` and a value apart.
  - Each reply is a status code with a body.
  - `PaymentsBacked` is the invariant that both handlers preserve. It says every
    stored transaction has a positive amount and is pending. It also says the
    transaction was written only after Stripe accepted a payment intent with the
    same amount in cents, the same currency and the same intent id.

External behaviour that comes in as parameters:

- The email validator (`email_validator`) and the phone validator (`phonenumbers`)
  are uninterpreted function parameters of `CreateUser`.
- Stripe's answers are value parameters:
  - the customer id, or `None` on a `StripeError`;
  - the payment intent, or `None`.

Three separate commits are modelled, so a late failure rolls back only its own change:

- the new user (`app.py:119`);
- the user's Stripe customer id (`app.py:125`);
- the new transaction (`app.py:166`).

The model follows the code in these places:

- A first commit that fails (duplicate email, missing name) is answered with 500.
- If the second commit of `create_user` fails (a Stripe customer id already held by
  another user), the reply is 500, but the user from the first commit stays stored
  without a customer id. Attaching the customer id is therefore not best-effort:
  the user is kept, yet the client is told the request failed.
- A missing `amount` makes `None > 0` raise a TypeError, so the reply is 500, not 400.
- A missing `currency` key makes `data['currency']` raise a KeyError before Stripe is
  called, so the reply is 500. An explicit `"currency": null` raises nothing: Stripe is
  called with no currency. If Stripe refuses, the reply is 500 "Payment processing
  failed"; if it accepts, the NOT NULL currency column fails the commit and the reply
  is 500, with the intent created at Stripe and no row stored.
- An explicit `"language": null` reads as `None`, but the ORM then leaves the column
  out of the INSERT, so the column default `en` is stored, as for a missing key.
- A missing (or null) `email` reaches `validate_email` as `None`. The library then raises
  an error that is not an `EmailNotValidError`, so `User.validate_email` does not catch it
  and the reply is 500, not 400.
- A missing `user_id` finds no user, so the reply is 404.
- The preferred language is not checked against `SUPPORTED_LANGUAGES`
  (`config/settings.py`); any string is stored.
- The currency's three-letter shape is not checked before the Stripe call.
- The repository's unit test expects 200 for a payment by user 1 on an empty
  database. The code replies 404, and so does the model.

## Model

| member | source | states |
|---|---|---|
| `Models.ValidateAmount` | student_payment_processor/src/backend/app.py:67-69 | the amount is valid iff it is present and greater than 0; an absent amount makes the comparison raise |
| `Models.TransactionsOfMembers` | student_payment_processor/src/backend/app.py:35 | a row is in a user's `transactions` relationship iff it is stored and its foreign key is that user |
| `Models.TransactionsOfAppend` | student_payment_processor/src/backend/app.py:65 | storing a row adds it to its owner's relationship, at the end, and leaves every other user's relationship unchanged |
| `Models.HeldByOtherIgnoresSelf` | student_payment_processor/src/backend/app.py:32 | whether the unique customer-id index rejects a user's new customer id does not depend on that user's own row |
| `Payments.CentsOf` | student_payment_processor/src/backend/app.py:88 | the minor-unit amount sent to Stripe is `amount * 100` truncated toward zero |
| `Payments.SubCentAmount` | student_payment_processor/src/backend/app.py:88 | a positive amount below 0.01, which `validate_amount` accepts, reaches Stripe as 0 cents |
| `Payments.PaymentService.CreateStripeCustomer` | student_payment_processor/src/backend/app.py:72-82 | exactly one customer creation with the user's email and name is added to the gateway log; the result is Stripe's id, or none on a Stripe error |
| `Payments.PaymentService.CreatePaymentIntent` | student_payment_processor/src/backend/app.py:84-96 | exactly one intent creation with the amount in cents, the currency and the customer id is added to the log; the result is Stripe's intent, or none |
| `Persistence.Store.constructor` | student_payment_processor/src/backend/app.py:179 | on a fresh database, `create_all` gives empty tables that satisfy every constraint, with keys starting at 1 |
| `Persistence.Store.FindUser` | student_payment_processor/src/backend/app.py:140 | `User.query.get` finds a user iff the id is given and stored, and then returns that row |
| `Persistence.Store.InsertUser` | student_payment_processor/src/backend/app.py:118-119 | committing a new user fails on a missing name (NOT NULL) or a taken email (UNIQUE) and then stores nothing; otherwise it stores exactly one row under the next key with no customer id and the language, or `en` when it is `None`; constraints are kept |
| `Persistence.Store.SetCustomerId` | student_payment_processor/src/backend/app.py:124-125 | committing a customer id fails iff another user holds it, and then nothing changes; otherwise only that user's customer id changes |
| `Persistence.Store.InsertTransaction` | student_payment_processor/src/backend/app.py:165-166 | committing a transaction fails on a null currency (NOT NULL), a taken intent id (UNIQUE) or an unknown user (foreign key), in that order, and then stores nothing; otherwise it appends exactly one row under the next key; users never change |
| `Handlers.InitiallyBacked` | student_payment_processor/src/backend/app.py:179 | the invariant that every stored transaction is positive, pending and backed by an accepted intent holds of the empty table |
| `Handlers.BackedAfterCall` | student_payment_processor/src/backend/app.py:148-152 | further calls to Stripe never break the invariant that every stored transaction is positive, pending and backed by an accepted intent |
| `Handlers.BackedAfterPayment` | student_payment_processor/src/backend/app.py:154-166 | a pending, positive row that matches the intent Stripe just accepted keeps every stored transaction backed |
| `Handlers.CreateUser` | student_payment_processor/src/backend/app.py:98-134 | the email is checked before anything else; a missing email: 500, store and gateway log unchanged; a rejected email or non-empty phone: 400, store and gateway log unchanged; a failed first commit: 500, both unchanged; otherwise exactly one user with the normalised email, the name, the non-empty phone and the language (`en` unless the request gives a string), then one Stripe call with that email and name; no customer id: 201 with it null and the stored id null; a customer id held by another user: 500 but the new user stays, without an id; else 201 and the stored id is Stripe's; transactions never change and the invariant is kept |
| `Handlers.ProcessPayment` | student_payment_processor/src/backend/app.py:136-176 | unknown user: 404; absent amount: 500; amount not greater than 0: 400; no currency key: 500; in each case no Stripe call and nothing stored; otherwise exactly one Stripe call with the amount in cents, the currency (none for a JSON null) and the user's stored customer id; Stripe failure: 500 and transactions unchanged; a null currency or a taken intent id: 500 and nothing stored; else exactly one new pending row with the user's id, amount, currency and intent id, whose ids the 200 reply carries, appended to that user's relationship only; users never change and the invariant is kept |

## Left out

- Flask routing, CORS, JSON parsing and `jsonify`: a request is a record and a reply a status with a body. A body that is not JSON, a non-numeric `amount` or a non-integer `user_id` is not modelled.
- The internals of `email_validator` and `phonenumbers` are foreign libraries. They are function parameters. For a given email, an exception other than `EmailNotValidError` from the email validator is not modelled.
- Stripe's network calls are foreign. Their answers are parameters. An exception other than `StripeError` from the Stripe client is not modelled.
- Payments.CentsOf: works on exact reals, not binary floating point, so it does not capture the source's one-cent undercharges: `int(19.99 * 100)` is 1998 and `int(0.29 * 100)` is 28 in Python, but 1999 and 29 here.
- Column widths (`String(120)`, `String(3)`, for example) are not modelled. PostgreSQL would reject over-long values at commit; SQLite ignores them.
- `Numeric(10,2)` rounding and overflow are not modelled. PostgreSQL rejects an amount of 10^8 or more at the transaction commit, after Stripe has accepted the intent, and the reply is then 500; the model stores the row.
- The `server_default` timestamp is database behaviour.
- Failed inserts consuming a sequence value (a PostgreSQL behaviour) are not modelled. Keys advance only on a successful insert here.
- Models.TransactionsOf: gives the rows in storage order. The relationship declares no `order_by`, so the database promises no order.
- `email_service.py` (the SendGrid receipt) is I/O only and is never called by the handlers.
- `config/settings.py` holds constants read from the environment. `SUPPORTED_LANGUAGES` is never enforced.
- Concurrency between requests, timeouts and retries, and `print` logging are not modelled.
