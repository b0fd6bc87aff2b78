# FidelEase points ledger — a Dafny model

FidelEase is a loyalty-points cash register written in Django. Staff ring up a customer's
basket at the till, and each receipt (a *facture*) earns the customer one point per 50
currency units spent. Customers spend points on gifts and get a twelve-letter redemption
code for each one. Staff scan that code to see which gift it stands for.

This project models the ledger at the centre of that system:

- the records and their database constraints (`models.dfy`). This covers the user table
  with its unique username and email columns and its non-negative `points` column, the
  product, gift, transaction, facture and code tables, and the code minting done by
  `Code.generate_unique_code` and `Code.save`. It also covers the user manager
  (`create_user`, `create_superuser`);
- the staff views (`caisse_views.dfy`):
  - `caisse` rings up a sale into a receipt and credits `total // 50` points;
  - `facture` recomputes a receipt's total;
  - `scanGiftCode` looks a code up;
- the customer views (`clients_views.dfy`):
  - `createCode` debits the gift's cost and mints a code;
  - `register` creates an account;
  - `getUserHistory` lists the requester's receipts with their lines.

The database is a `Store` class with one field per table and one auto-increment counter per
key that it assigns. `Store.Valid()` holds the integrity the database keeps:

- unique logins;
- distinct product keys and distinct receipt keys;
- every foreign key resolves;
- every counter is above the keys it has handed out.

Every state-changing operation is a method that keeps `Valid()`. Its `ensures` clauses state
the whole new state in terms of the old one, and the error paths leave the store unchanged.
The pure parts are functions, with lemmas that connect them to independent reference
definitions:

- a sale's total is the sum over the selected catalogue products;
- a receipt's recomputed total is the total accumulated at the till;
- a history entry's cost is the receipt's total.

The random letters of `secrets.choice` arrive as a parameter: a sequence of draws, each an
index into `string.ascii_letters`. The HTTP request arrives already decoded into values.
`wrappers.dfy` holds the `Option` and `Result` types.

## Model

| member | source | states |
|---|---|---|
| Models.NewUser | backend/caisseApp/models.py:29-35 | A freshly built account has 0 points, is active, and carries the given username, email and staff and superuser flags. |
| Models.FindProduct | backend/caisseApp/models.py:60 | The foreign-key lookup of a product returns a catalogue row with that key. It returns None only when no row has that key. |
| Models.FindProductAt | backend/caisseApp/models.py:60 | When product keys are distinct, looking a row up by its own key finds that row. |
| Models.WithPoints | backend/caisseApp/views.py:214-216 | Changing one user's balance changes that user's `points` and nothing else: the same keys, and every other user unchanged. |
| Models.Store.constructor | backend/caisseApp/models.py:29-90 | A database holding only a catalogue with distinct keys and gifts of existing products satisfies every constraint, with empty user, code, transaction and receipt tables. |
| Models.Store.InsertUser | backend/caisseApp/models.py:30-32 | The unique username and email columns refuse a duplicate with IntegrityError and leave the store unchanged. Otherwise the new row gets the next auto-increment key, and only the user table and its counter change. |
| Models.Store.SavePoints | backend/caisseApp/models.py:31 | The column's non-negative CHECK accepts a balance exactly when it is not below 0; its upper bound is not modelled. On acceptance only that user's points change. On refusal the user table is unchanged. |
| Models.Letter | backend/caisseApp/models.py:75 | Each of the 52 draws gives an ASCII letter: the first 26 give the lower case letters and the rest give the upper case ones. |
| Models.PickOf | backend/caisseApp/models.py:75 | Every ASCII letter is the letter of some draw, so the alphabet is all of `string.ascii_letters`. |
| Models.Candidate | backend/caisseApp/models.py:77 | Every candidate cid is exactly 12 characters long, and each character is an ASCII letter. |
| Models.CandidateOnto | backend/caisseApp/models.py:77 | Every 12-letter string is a possible candidate, so the generator can produce exactly the well-formed cids. |
| Models.FirstFree | backend/caisseApp/models.py:76-80 | The cid the retry loop settles on is well formed and not already a key of the code table. It is the first candidate with that property, because every earlier candidate was taken. It is None only when every available candidate is taken. |
| Models.CodeRecord.constructor | backend/caisseApp/models.py:69-72 | A new code row carries its gift and user and has no cid yet. |
| Models.CodeRecord.GenerateUniqueCode | backend/caisseApp/models.py:74-80 | The loop assigns `FirstFree` of the code table: the first free candidate. When the draws run out, nothing is assigned. |
| Models.CodeRecord.Save | backend/caisseApp/models.py:82-85 | A cid is generated only when none is set, and an existing cid is kept. The saved row is bound under its cid to (gift, user). If no cid could be found, nothing is written. |
| Models.CreateUser | backend/caisseApp/models.py:7-17 | An empty username or an empty email is refused with no change. A duplicate username or email is refused with no change. Otherwise exactly one user is added under the next key, with 0 points and the flags defaulting to False. |
| Models.CreateSuperuser | backend/caisseApp/models.py:19-27 | `is_staff` and `is_superuser` default to True, and either one set to False is refused before any write. After that the checks of `create_user` apply: an empty username, an empty email, or a username or email already in use is refused with no change. Otherwise exactly one user is added under the next key, with both flags True and 0 points. |
| CaisseViews.PointsFor | backend/caisseApp/views.py:214 | `total // 50` is floor division: `50 * points <= total < 50 * points + 50`. A non-negative total earns between 0 and total points, so a total below 50 earns none. |
| CaisseViews.DecimalString | backend/caisseApp/views.py:206 | `str(product.id)` is a non-empty string of decimal digits with no leading zero, so "7" selects key 7 and "07" selects nothing. |
| CaisseViews.DecimalRoundTrip | backend/caisseApp/views.py:206 | Reading back the decimal string of a key gives the key. |
| CaisseViews.SelectionIsByKey | backend/caisseApp/views.py:206 | Two keys with the same decimal string are the same key, so a submitted id selects at most one catalogue product. |
| CaisseViews.Selected | backend/caisseApp/views.py:206 | The test `str(product.id) in request.POST.getlist('products')`. It has no contract of its own; SaleLinesExact, SelectionIsByKey and UnknownIdsIgnored state what it selects. |
| CaisseViews.QuantityOf | backend/caisseApp/views.py:207 | The submitted `quantity_<id>`, or 1 when that field is absent. It has no contract of its own; SaleLinesExact states that each line carries it. |
| CaisseViews.SaleLines | backend/caisseApp/views.py:205-208 | The selected products of the catalogue, in catalogue order, each with its quantity. It has no contract of its own; SaleLinesExact, SaleLinesDistinct, SaleLinesBySelection and NothingSelected state its properties. |
| CaisseViews.LinesTotal | backend/caisseApp/views.py:203-208 | The `total` the loop accumulates. It has no contract of its own; SaleTotalIsSelectedSum equates it with the reference sum, and ReceiptMatchesSale with the receipt's total. |
| CaisseViews.Rebalanced | backend/caisseApp/views.py:214-215 | The customer's balance after `user.points += total // 50`. It has no contract of its own; Caisse states that this is the balance saved, or refused when negative. |
| CaisseViews.SaleLinesExact | backend/caisseApp/views.py:205-208 | A line is in the sale exactly when its product is a catalogue product whose id was submitted. Its quantity is the submitted `quantity_<id>`, or 1 when that field is absent. |
| CaisseViews.SaleLinesDistinct | backend/caisseApp/views.py:205-211 | No product is sold on two lines, so each selected product gets exactly one transaction. |
| CaisseViews.SaleLinesBySelection | backend/caisseApp/views.py:205-206 | The sale depends on the submitted ids only through which catalogue products they select. |
| CaisseViews.UnknownIdsIgnored | backend/caisseApp/views.py:205-206 | Submitted ids that name no catalogue product do not change the sale. |
| CaisseViews.NothingSelected | backend/caisseApp/views.py:200-216 | A form that selects nothing makes an empty sale with total 0, which earns 0 points. |
| CaisseViews.SaleTotalIsSelectedSum | backend/caisseApp/views.py:203-208 | The total accumulated by the loop equals the reference sum of `price * quantity` over the selected catalogue products. |
| CaisseViews.ReceiptTotal | backend/caisseApp/views.py:240-241 | `sum(t.productId.price * t.quantity for t in transactions)` at the live catalogue price. It has no contract of its own; ReceiptMatchesSale and EntryMatchesReceipt relate it to the sale's total and to the history. |
| CaisseViews.FindFacture | backend/caisseApp/views.py:238 | `Facture.objects.get(pk=id)` returns a receipt with that key, or None exactly when no receipt has it. |
| CaisseViews.FactureTotal | backend/caisseApp/views.py:238-241 | `facture` fails exactly when no receipt has the key. Otherwise it reports the sum of `price * quantity` over that receipt's transactions. |
| CaisseViews.ReceiptMatchesSale | backend/caisseApp/views.py:239-241 | The total that `facture` recomputes from a sale's stored transactions equals the total accumulated in `caisse`. |
| CaisseViews.ReceiptPrefixMatches | backend/caisseApp/views.py:239-241 | The same equality for the first n transactions of a sale. This is the induction behind ReceiptMatchesSale. |
| CaisseViews.SaleKeepsConsistent | backend/caisseApp/views.py:200-211 | A receipt and its new transactions for an existing customer keep every key and foreign key of the store valid. |
| CaisseViews.SaleRecordedKeepsValid | backend/caisseApp/views.py:200-211 | After the sale loop the store is valid again, and the new receipt totals to the sale's total. |
| CaisseViews.Caisse | backend/caisseApp/views.py:192-218 | An unknown customer gets UserNotFound and nothing changes. Otherwise the results are: (1) exactly one new receipt, holding exactly one new transaction per selected product with the submitted quantity; (2) `facture` reports the accumulated total for that receipt; (3) the customer's points move by exactly `total // 50` and no other user changes; (4) when that balance would be negative, the user table is unchanged and the error is PointsRejected. Only the user, receipt and transaction tables and the two counters of the latter change. |
| CaisseViews.OpenFacture | backend/caisseApp/views.py:201-202 | An empty receipt for the customer is saved under the next key. |
| CaisseViews.AddSelectedProducts | backend/caisseApp/views.py:205-211 | The loop returns the sale's total. It stores one transaction per line under consecutive fresh keys, attaches those keys to the receipt, and leaves older transactions untouched. |
| CaisseViews.SaveLine | backend/caisseApp/views.py:209-211 | A transaction is stored under the next key and attached to the receipt. |
| CaisseViews.ScanGiftCode | backend/caisseApp/views.py:266-275 | The result is a gift exactly when a code was submitted and is a key of the code table, and that gift is the code's. The lookup reads the code table only. |
| ClientsViews.CreateCode | backend/clientsApp/views.py:77-97 | A missing gift, a missing user or a balance below `pointCost` returns an error with no change. Otherwise the user's points drop by exactly `pointCost` and no other user changes. One new code bound to (gift, user) is added under a fresh well-formed cid. |
| ClientsViews.Debited | backend/clientsApp/views.py:86 | The balance after `user.points -= gift.pointCost`. It has no contract of its own; Redeemed, in the contracts of CreateCode and RedeemGift, states that this is the balance saved. |
| ClientsViews.RedeemGift | backend/clientsApp/views.py:84-93 | The redeeming branch debits exactly the gift's cost, which never makes the balance negative, and mints the first free cid. |
| ClientsViews.MintCode | backend/clientsApp/views.py:90 | `Code.objects.create` adds exactly one row, under the first free cid, and keeps the store valid. |
| ClientsViews.Register | backend/clientsApp/views.py:21-41 | An empty username, email or password, or a username already in use, returns an error and changes nothing; so does an email already in use, refused by the unique column. A success adds exactly one plain customer with the given username and email, under the next key. |
| ClientsViews.RegisteredUsernameTaken | backend/clientsApp/views.py:34-39 | A registration adds exactly one user and makes the username taken, so a second registration of that username is refused. |
| ClientsViews.LineOf | backend/clientsApp/views.py:110-116 | A history line shows the transaction's product id and quantity, and the name and price of that catalogue product. |
| ClientsViews.HistoryLines | backend/clientsApp/views.py:108-117 | An entry has one line per transaction of the receipt, in the receipt's order. |
| ClientsViews.EntryOf | backend/clientsApp/views.py:119-123 | The entry of one receipt: its key and its lines. It has no contract of its own; HistoryLines and EntryMatchesReceipt state what the lines show and cost. |
| ClientsViews.UserHistory | backend/clientsApp/views.py:101-127 | `getUserHistory`: the requester's receipts in table order, each with its lines. It has no contract of its own; HistoryExact, HistoryLength, AnonymousHistoryEmpty, HistoryStable and HistoryAfterSale state its properties. |
| ClientsViews.HistoryExact | backend/clientsApp/views.py:104-123 | An entry is in the history exactly when it shows one of the requester's receipts. |
| ClientsViews.AnonymousHistoryEmpty | backend/clientsApp/views.py:103-104 | A requester without an id owns no receipts, so their history is empty. |
| ClientsViews.HistoryLength | backend/clientsApp/views.py:104-107 | The history has one entry per receipt the requester owns. |
| ClientsViews.EntryMatchesReceipt | backend/clientsApp/views.py:110-114 | The cost of an entry's lines is the total `facture` reports for that receipt. |
| ClientsViews.LinesStable | backend/clientsApp/views.py:109-117 | Adding transactions does not change the lines of an existing receipt. |
| ClientsViews.HistoryStable | backend/clientsApp/views.py:104-123 | Adding transactions does not change anyone's history. |
| ClientsViews.HistoryAfterSale | backend/clientsApp/views.py:104-123 | A sale adds its receipt's entry at the end of its customer's history and changes no other requester's history. |

## Where the code and the intended design differ

The model follows the code in each case.

- Quantities are read with `int(...)` and never checked (backend/caisseApp/views.py:207). Zero
  and negative quantities are stored, so a sale's total can be negative. The receipt and its
  transactions are saved before `user.save()`, and that save is the one that fails on the
  negative balance. The request then ends with the receipt stored and no points credited;
  `Caisse` returns `PointsRejected` in that state.
- The sale is not wrapped in one database transaction. A failure after the receipt is saved
  keeps the receipt.
- `pointCost` is a plain IntegerField (backend/caisseApp/models.py:57). A negative cost passes
  the `points >= pointCost` test and raises the balance. The model keeps that behaviour.
- `register` calls `AppUser.objects.create` rather than `create_user`
  (backend/clientsApp/views.py:38). The email is therefore not normalised, and a duplicate
  email is refused by the unique column (`EmailInUse`) rather than by a check in the view.
- The retry loop of `generate_unique_code` has no bound (backend/caisseApp/models.py:76). It
  does not stop after a fixed number of attempts.

## Left out

- ClientsViews.CreateCode: the draws are a finite sequence, so minting can run out of
  candidates. It then answers `NoFreshCode` after the debit has been saved. The source loops
  without bound and never gives that answer. It would not terminate only if every candidate
  were taken, and with 52^12 possible codes that does not happen.
- Models.CodeRecord.GenerateUniqueCode: the loop is bounded by the draws supplied, for the same
  reason. It cannot be proved to terminate otherwise.
- Models.Store.SavePoints: integer columns are unbounded here. `points` is a
  PositiveIntegerField and `quantity` and `pointCost` are IntegerFields
  (backend/caisseApp/models.py:31, 57, 61); the database refuses values above 2147483647.
  The model does not. A credit in `caisse` or a debit of a negative cost in `createCode`
  that would pass that bound is refused by the database but accepted by the model.
- Models.CreateUser: `**extra_fields` is modelled by its `is_staff` and `is_superuser`
  entries only. Other fields passed through it, such as `is_active`, cannot be expressed, so
  a created user is always active.
- Prices are `FloatField`s; they are modelled as integers, and float rounding is not modelled.
  `total // 50` on integers is floor division, which Dafny's `/` matches for the divisor 50.
- A `userId` or `quantity_<id>` field that is not a number makes `int(...)` or
  `objects.get` raise, which ends the request with a server error. The model takes both
  already parsed.
- `request.method` dispatch, template rendering, redirects, flash messages and JSON envelopes
  are presentation only.
- `normalize_email`, `set_password` and `make_password`: the model only checks that the
  password is non-empty. The hash is not stored.
- `max_length` limits on usernames, emails and cids are not checked by the views and are not
  modelled. The cids the generator makes are exactly 12 letters.
- Receipt dates and any ordering by date are not modelled: the history lists receipts in table
  order. The `productImage` URL of a history line is not modelled, nor is the error it raises
  when a product has no image.
- Concurrency is not modelled: each request is one atomic step on the store.
- Login, logout, authentication, messaging, categories and the catalogue and gift CRUD views
  are not part of this model.
- Products and gifts are never deleted or edited here, so the cascading deletes of their
  foreign keys are not modelled.
