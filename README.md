# Depayit transaction store, modelled in Dafny

Depayit is a small escrow demo. One HTTP API serves buyer and seller, and all
state lives in one in-memory dictionary, `fake_db`, keyed by transaction id.
Three handlers use it, and a fourth only builds a record:

- `create_transaction` draws an id `TX-dddd` and a six-digit PIN and builds a
  record with status `CREATED`. It never touches `fake_db`: its insert at
  main.py:84 is unreachable.
- `get_transaction` returns the stored record, or fails with 404 Not Found.
- `simulate_payment` sets status `PAID` and stamps `paid_at`.
- `update_shipping` sets status `SHIPPED` and merges in the courier, the
  tracking number, the seller's bank details and a fixed `auto_release_at`
  text.

No handler checks the current status, so any order of calls is accepted.

The model has four modules, one file each:

- `decimal.dfy` (`Decimal`): how `f"{n}"` renders a non-negative integer, and
  the number a digit string denotes, as its inverse. This is what the generated ids and PINs are made of.
- `transactions.dfy` (`Transactions`): the record and request datatypes, the
  `CREATED`/`PAID`/`SHIPPED` status, and the three record builders.
  - Keys that later handlers add to the dictionary are `Option` fields, `None`
    while they are absent.
  - The random draws and the pydantic constraints are subset types.
- `store.dfy` (`Store`): each handler as a function from the old store to the
  new store and the response. `Handle` and `Run` serve any sequence of
  requests, and the lemmas speak about such sequences.
- `server.dfy` (`Server`): class `FakeDb`, a `var db: map` field that the
  handler methods update in place (`modifies this`). Each method is proved
  against its `Store` function. Two client sessions start from a fresh server.

`create_transaction` is modelled as the code stands: it builds the record and
returns `None`, and the store does not change. The insert and response at
main.py:84-92 sit after the `return` of `simulate_payment`, so they never run.
The model keeps that intended create separate and labels it as such
(`Store.CreateIntended`, `Server.FakeDb.CreateAndStore`, `Build.Intended`).
Line 120 holds a stray closing brace that stops the file from parsing. The
model follows the handler bodies as they are evidently meant to be read.

Facts of the code that a reader might not expect:

- `paid_at` is overwritten on every payment (main.py:80, `Store.PayTwice`).
- The generated id is exactly `TX-` and four digits (main.py:50,
  `Transactions.TxIdFor`).
- Pydantic enforces `gt=0` on the price and `min_length=3` on the product
  name (main.py:24-25); the model carries both as types.

The clock (`datetime.now().isoformat()`) is a `Timestamp` string parameter.
`random.randint` is a parameter of subset type `IdDraw` (1000..9999) or
`PinDraw` (100000..999999).

## Model

| member | source | states |
|---|---|---|
| Decimal.Show | Depayit-Project/main.py:50-52 | f"{n}" gives at least one character, all decimal digits; it starts with '0' exactly when n is 0 |
| Decimal.ValueOfShow | Depayit-Project/main.py:50-52 | reading the rendered digits back gives the same number |
| Decimal.ShowLength | Depayit-Project/main.py:50-52 | a number with k digits renders as exactly k characters |
| Decimal.ShowInjective | Depayit-Project/main.py:50-52 | two numbers render alike exactly when they are equal |
| Transactions.TxIdFor | Depayit-Project/main.py:50 | the id is "TX-" and four digits, 7 characters in all, that read back as the drawn number in 1000..9999 |
| Transactions.PinFor | Depayit-Project/main.py:52 | the PIN is always exactly six digits and reads back as the drawn number in 100000..999999 |
| Transactions.TxIdCollision | Depayit-Project/main.py:50 | two draws give the same id exactly when they are the same number, so ids collide only on a repeated draw |
| Transactions.NewTransaction | Depayit-Project/main.py:49-63 | the built record has the generated id and 6-digit PIN, copies product (at least 3 characters), amount (positive) and seller_phone, has status CREATED and created_at = now, has no paid_at or shipping keys, and drops the description |
| Transactions.MarkPaid | Depayit-Project/main.py:78-80 | status becomes PAID and paid_at the given stamp; creation fields and shipping fields are unchanged |
| Transactions.AttachShipment | Depayit-Project/main.py:101-113 | status becomes SHIPPED; courier, tracking_number and seller_bank{name, acc_name, acc_num} are the request's values verbatim; auto_release_at is the fixed placeholder; creation fields and paid_at are kept (merge semantics) |
| Store.Get | Depayit-Project/main.py:66-70 | the lookup succeeds exactly when the id is stored, and then returns the stored record; otherwise it fails with NotFound |
| Store.Pay | Depayit-Project/main.py:73-82 | an absent id gives NotFound and the same store; a present id gives PAID, the same key set, the record replaced by MarkPaid, and every other record unchanged; no condition on the prior status |
| Store.Ship | Depayit-Project/main.py:95-119 | an absent id gives NotFound and the same store; a present id gives SHIPPED, the same key set, the record replaced by AttachShipment, and every other record unchanged; no condition on the prior status |
| Store.CreateAsWritten | Depayit-Project/main.py:48-63 | as written, create leaves the store exactly as it was and answers None |
| Store.CreateIntended | Depayit-Project/main.py:84-92 | the intended create (not what the code does) stores the new CREATED record under its id, replacing any record with that id, leaves every other record, and returns that id and PIN |
| Store.Handle | Depayit-Project/main.py:66-119 | no request removes a key; as written no request adds one; a record keeps its creation fields unless an intended create replaces it |
| Store.Run | Depayit-Project/main.py:38 | one response per request |
| Store.RunAt | Depayit-Project/main.py:38 | the i-th response is what the i-th request gets from the store the earlier requests left: requests are served in order against one shared store |
| Store.RunKeys | Depayit-Project/main.py:73-113 | after any sequence of requests, no key is lost; as written, the key set is exactly the initial one |
| Store.RunKeepsOrigin | Depayit-Project/main.py:78-113 | as written, id, pin, product, amount, seller_phone and created_at of every stored record survive any sequence of requests |
| Store.HandleStatus | Depayit-Project/main.py:78-113 | one request sets the status of a record it does not replace as StepStatus says: a payment to it gives PAID, a shipment SHIPPED, whatever it was before |
| Store.RunStatus | Depayit-Project/main.py:73-113 | for a stored record nothing replaces, the final status is that of the last payment or shipment addressed to it (FinalStatus), so there is no forward-only order: shipping unpaid succeeds, and paying after shipping goes back to PAID |
| Store.AsWrittenNeverFinds | Depayit-Project/main.py:38-92 | as written, starting from the empty store, the store stays empty under any requests; every lookup, payment and shipment answers NotFound and every create answers None (a 200 response with body null) |
| Store.PayTwice | Depayit-Project/main.py:79-82 | paying twice succeeds both times with PAID; paid_at holds the second stamp, and the store is the same as after the second payment alone |
| Store.CreateCollision | Depayit-Project/main.py:50 | with the intended create, an id already in use is not rejected; its record, whatever its status, is replaced by the fresh CREATED record and the key set does not grow |
| Store.IntendedLifecycle | Depayit-Project/main.py:48-119 | with the intended create, create, get, pay, get, ship, get on any store give the receipt with the drawn id and PIN, then CREATED, the status string "PAID", PAID with paid_at, the status string "SHIPPED", SHIPPED with the courier that was sent |
| Server.FakeDb.constructor | Depayit-Project/main.py:38 | the store starts empty |
| Server.FakeDb.Get | Depayit-Project/main.py:66-70 | an absent id gives NotFound and a present id gives the stored record; the store is not modified (no modifies clause); agrees with Store.Get |
| Server.FakeDb.Pay | Depayit-Project/main.py:73-82 | an absent id gives NotFound and leaves db; otherwise the two in-place assignments leave db with the record replaced by MarkPaid and give PAID; agrees with Store.Pay |
| Server.FakeDb.Ship | Depayit-Project/main.py:95-119 | an absent id gives NotFound and leaves db; otherwise the in-place update leaves db with the record replaced by AttachShipment and gives SHIPPED; agrees with Store.Ship |
| Server.FakeDb.Create | Depayit-Project/main.py:48-63 | as written, it answers None and cannot change db; agrees with Store.CreateAsWritten |
| Server.FakeDb.CreateAndStore | Depayit-Project/main.py:84-92 | the intended create (not what the code does): db gains or overwrites the entry for the drawn id with the new record, and the id and PIN are returned; agrees with Store.CreateIntended |
| Server.AsWrittenSession | Depayit-Project/main.py:48-119 | on a fresh server as written, after a create, get, pay and ship on the drawn id all fail with NotFound |
| Server.IntendedSession | Depayit-Project/main.py:48-119 | on a fresh server with the intended create, the transaction reads back as CREATED, then PAID, then SHIPPED with the courier that was sent |

## Findings

| source | as written | input that shows it | evidently intended | confidence | as-written member | corrected member |
|---|---|---|---|---|---|---|
| Depayit-Project/main.py:48-92 | `create_transaction` ends at line 63 after building the record. It stores nothing and returns None. The insert `fake_db[tx_id] = transaction_record` and the `{message, tx_id, pin, link}` response (lines 84-92) come after `return` in `simulate_payment` and never run. | POST /api/transactions with product_name "Shoes", price 500, phone_number "0811111111"; then GET, pay or shipment on the drawn id all give 404, because `fake_db` stays `{}` forever | lines 84-92 end `create_transaction`: store the record under its id and return id and PIN | high; not executed | `Store.CreateAsWritten`, `Store.AsWrittenNeverFinds`, `Server.AsWrittenSession` | `Store.CreateIntended`, `Store.IntendedLifecycle`, `Server.IntendedSession` |

## Left out

- FastAPI app setup, routing decorators, CORS middleware and the root endpoint `read_root` (main.py:1-19, 42-44): framework wiring with no store logic.
- The `HTTPException` plumbing: a 404 becomes the `NotFound` error value. The Thai messages and detail texts, the `link` URL and the `auto_release` countdown text of the responses are cosmetic. Responses carry only the status, or the id and PIN.
- Pydantic validation (main.py:23-35) runs before the handler. The model treats it as the types `ProductName` (at least 3 characters) and `Price` (positive). A request that fails it (HTTP 422) never reaches a handler and is not modelled.
- `price` is a Python float. Here it is a Dafny `real`. It is only copied, never computed with, so float rounding does not arise.
- `random.randint` and `datetime.now().isoformat()` are parameters. The model does not capture the distribution of the draws, the probability of a collision, or the format of the ISO-8601 text.
- The 48-hour auto-release: only the fixed placeholder text is stored. Nothing is scheduled.
- Concurrency: handlers on the shared dictionary are modelled as running one after another (`Store.Run`). Interleavings within a handler are not modelled.
- FastAPI serializes the stored dictionary that `get_transaction` returns. A later update therefore cannot show through a response already sent, so the aliasing is not modelled. The response is a value copy.
- The stray closing brace at main.py:120 makes the file a syntax error. The model describes the handlers as if the file parsed.
