# shopVDS balance ledger in Dafny

shopVDS is a Telegram bot that sells virtual servers. Users top up a
dollar balance through two gateways:
- YooKassa, for roubles converted to dollars at the day's rate;
- CryptoBot, for USDT invoices.

Users spend the balance on servers from a stock list, optionally with a
percentage promo code that has a limited number of uses. Everything lives
in one SQLite database with six tables: users, products, purchases,
promo_codes, payments and crypto_payments.

This project models the part of the bot that moves money, stock and
promo codes between those tables. It also models the small parsers the
handlers rely on.

Modules:
- `Shop` (`ledger.dfy`): the tables as the fields of a class
  `Shop.Ledger`. Each table is a map keyed by its UNIQUE column;
  purchases are a sequence. Each helper or handler is a method that
  updates the fields as one atomic step. Each method is specified through
  pure functions (`Credit`, `ApplyPromo`, `ConsumePromo`, `ConfirmInvoice`,
  `SweepCredits`, `MarkPaid`), and the lemmas are proved about those
  functions.
- `Reconcile` (`reconcile.dfy`): the decisions behind reconciliation.
  It covers what `check_and_update_payment` does with a YooKassa answer,
  how the CryptoBot invoice list is searched (per invoice and in the bulk
  sweep), and how `check_payment` picks its answer.
- `Pricing` (`pricing.dfy`): the discount formulas and Python's
  `round(x, 2)` on exact reals.
- `Amounts` (`amounts.dfy`): the guards on a typed top-up amount, with
  IEEE comparisons for NaN and the infinities.
- `Callback` (`callback.dfy`): ids taken from callback data with
  `split("_")[i]`.
- `Config` (`config.dfy`): the `admin_ids` list.
- `Flags` (`flags.dfy`): the country-flag lookup.
- `Text` (`text.dfy`): the parts of Python's `str.strip`, `str.split` and
  `int` that the above use.
- `Wrappers` (`wrappers.dfy`): the `Option` and `Result` types.
- `Scenarios` (`scenarios.dfy`): concrete runs on a fresh database.

The gateways' answers and the exchange rate are parameters. Each answer
is a datatype:
- `FiatReply`: not found, request failed, or a body with an optional status;
- `InvoicesReply`: unreachable, not ok, a result object with items, or a
  result list;
- `ChargeReply`: an HTTP status and an optional id.

Python's `float()` is a function parameter.

Where the code's evident intent and what it actually does differ, the
model follows the code:
- **Promo consumed on a failed purchase.** `buy_product` applies and
  consumes the promo code before it checks the balance. A purchase refused
  for lack of funds still uses up the code (`Shop.Ledger.BuyProduct`).
- **No lower bound on balances.** `update_user_balance` adds any amount
  and never checks a minimum (`Shop.Credit`). Balances stay non-negative
  only because `buy_product` debits after its own check.
- **Status is not final.** A stored `succeeded` can be overwritten by a
  later answer, and that makes a second credit possible. See Findings.
- **Missing user.** `get_user_balance` raises for an unknown user, because
  it reads `result[0]` before testing `result`. The model returns `None`
  for that user (`Shop.Ledger.GetUserBalance`) rather than requiring the
  user to exist. `buy_product` then reports `UnknownUser` with no change.

## Model

| member | source | states |
|---|---|---|
| `Shop.Ledger.constructor` | functions/functions.py:18-86 | A fresh database has every table empty. |
| `Shop.Ledger.CreateUser` | functions/functions.py:99-111 | An absent id gets a row with balance 0 and no code. An existing id leaves every table unchanged. |
| `Shop.Ledger.GetUserBalance` | functions/functions.py:130-136 | Returns the stored balance exactly when the user has a row, and `None` otherwise (where the source raises). |
| `Shop.Credit` | functions/functions.py:138-150 | Moves exactly that user's balance by `amount`, with no lower bound and the promo code kept. Every other user is unchanged. An unknown id changes nothing. |
| `Shop.Ledger.UpdateUserBalance` | functions/functions.py:138-150 | The users table becomes `Credit(old users, id, amount)`. No other table changes. |
| `Shop.AssignedCode` | functions/functions.py:192-195 | A code read as assigned is the user's stored promo_code and never the empty string (`promo_code and promo_code[0]`). |
| `Pricing.ChargedPrice` | functions/functions.py:214 | A 0% discount keeps the price and 100% makes it 0. A discount in [0,100] keeps a non-negative price between 0 and the price. |
| `Pricing.PreviewPrice` | functions/functions.py:199 | A 0% discount keeps the price and 100% makes it 0. A discount in [0,100] keeps a non-negative price between 0 and the price. |
| `Pricing.FormulasAgree` | functions/functions.py:199-214 | The preview formula and the charge formula give the same number. |
| `Pricing.Round2` | functions/functions.py:201 | The result is a whole number of cents, at most half a cent from the input. |
| `Pricing.Round2Cents` | functions/functions.py:201 | A whole number of cents is returned unchanged. |
| `Pricing.Round2Ties` | functions/functions.py:201 | A tie goes to the even cent: 0.125 becomes 0.12 and 0.135 becomes 0.14. |
| `Pricing.PreviewWithinHalfCent` | functions/functions.py:189-214 | The rounded preview is within half a cent of the charged price. |
| `Shop.PreviewFor` | functions/functions.py:189-201 | The price shown is a whole number of cents. Without an applicable code it is the price to within half a cent. |
| `Shop.Ledger.ApplyDiscount` | functions/functions.py:189-201 | Writes nothing. Returns `PreviewFor`, which is within half a cent of what `apply_promo_code` would charge. |
| `Shop.ConsumePromo` | functions/functions.py:217-221 | usage_limit drops by exactly one. The row is deleted exactly when `usage_limit - 1 <= 0`. Other codes are untouched. All-positive limits stay all-positive. |
| `Shop.ConsumeTimesCounts` | functions/functions.py:217-221 | A code survives k consumptions exactly when k < its limit, and then has limit - k uses left. So a code discounts at most `usage_limit` purchases. |
| `Shop.ConsumeTimes` | functions/functions.py:217-221 | Repeated uses of one code leave every other code as it was, and all-positive limits stay all-positive. |
| `Shop.ApplyPromo` | functions/functions.py:203-230 | Balances never change. With an assigned, existing code: the price is `ChargedPrice`, the code is consumed once and the user's reference is cleared. Otherwise the price and both tables are unchanged, and a dangling reference stays. |
| `Shop.Ledger.ApplyPromoCode` | functions/functions.py:203-230 | The returned price, users and promo_codes are those of `ApplyPromo`. No other table changes. |
| `Shop.PreviewMatchesCharge` | functions/functions.py:189-230 | For any user and tables, the preview is within half a cent of the charge. |
| `Shop.AssignedCodeIsApplied` | functions/functions.py:206-228 | After a code is assigned, the next purchase is charged at that code's discount and consumes that code. |
| `Shop.Ledger.BuyProduct` | handlers/handlers.py:346-388 | A missing product changes nothing and reports "already bought". Otherwise the promo is applied and consumed first. If the balance covers the charged price: the balance drops by exactly that price and stays at least 0, one purchase row with the product at that price is appended, and the product row is deleted. If it does not: balance, stock and purchases are unchanged, but the code stays consumed. |
| `Shop.Ledger.ProcessPromo` | handlers/handlers.py:390-410 | Only a stripped code that exists with usage_limit > 0 is assigned to the user, overwriting any earlier code. An unknown or exhausted code, or a message without text, changes nothing. |
| `Shop.Ledger.RecordPayment` | functions/functions.py:237-302 | A zero rate, a status other than 200/201, a missing id and a duplicate id each raise (each an iff) and store nothing. Success stores exactly one 'pending' row under the gateway's id, with the amount rounded to cents. |
| `Reconcile.FiatDecision` | functions/functions.py:341-362 | Credits exactly when the answer is 'succeeded' and the row is not. Copies the answer's status exactly when it differs from the stored one and is not 'succeeded'. |
| `Shop.Ledger.CheckAndUpdatePayment` | functions/functions.py:305-365 | A 404, a failed request or an unknown id changes nothing and returns false. Otherwise, as `FiatDecision` chooses: credit `amount_usd` once and set 'succeeded' (the only true result), copy the status, or nothing. |
| `Reconcile.FiatRepeatedPollsCreditOnce` | functions/functions.py:341-365 | Polls answered 'succeeded' (or not answered) credit a payment at most once, and never if it was already 'succeeded'. |
| `Reconcile.FiatCredits` | functions/functions.py:341-365 | A sequence of answers credits at most once per answer, and not at all when no answer has a body. |
| `Reconcile.FiatDoubleCredit` | functions/functions.py:341-362 | As written, the answers 'succeeded', then a body without status, then 'succeeded' credit the same payment twice. |
| `Reconcile.GuardedFiatDecision` | functions/functions.py:341-362 | The corrected decision ignores a stored 'succeeded' and an answer without a status, and never copies a missing status. Otherwise it equals `FiatDecision`. |
| `Reconcile.GuardedNoCreditAfterSuccess` | functions/functions.py:341-353 | With the guard, a 'succeeded' payment is never credited again, whatever the answers. |
| `Reconcile.GuardedFiatCreditsAtMostOnce` | functions/functions.py:341-365 | With the guard, any sequence of answers credits a payment at most once. |
| `Shop.Ledger.ReconcilePayment` | functions/functions.py:305-365 | Like `CheckAndUpdatePayment` with the guarded decision. A 'succeeded' row is left unchanged and credits nothing. |
| `Reconcile.Classify` | handlers/handlers.py:97-135 | No row means "not in the database". Otherwise: "confirmed" exactly when the update credited, "already confirmed" for a stored 'succeeded', "cancelled" for 'canceled', and "waiting" with the stored status otherwise. |
| `Shop.Ledger.CheckPayment` | handlers/handlers.py:84-142 | Fails exactly when the data has fewer than two underscores, and then changes nothing. Otherwise piece 2 of the data is checked once: users and payments become what `check_and_update_payment` makes of them (the `FiatDecision` credit and status, or nothing for a 404, a failed request or an unknown id). The verdict is `Classify` of the credit decision and the row read back. "Confirmed" implies a row went from not 'succeeded' to 'succeeded'. |
| `Callback.Part` | handlers/handlers.py:86 | Piece i exists exactly when the data holds at least i underscores. No piece contains an underscore. |
| `Callback.IntPart` | handlers/handlers.py:320-348 | A number comes back only when piece i exists, and then it is int() of that piece. |
| `Callback.PaymentIdOf` | handlers/handlers.py:86 | `check_payment_<id>` gives back an id without underscores whole. |
| `Callback.PaymentIdCut` | handlers/handlers.py:86 | An id containing an underscore is cut at its first underscore. |
| `Callback.InvoiceIdOf` | handlers/handlers.py:198 | `check_crypto_payment_<id>` gives back an id without underscores whole. |
| `Callback.NumberOf` | handlers/handlers.py:320 | `<word>_<str(n)>` gives back n through int(). |
| `Callback.ProductIdOf` | handlers/handlers.py:320-348 | `page_<n>`, `product_<n>` and `buy_<n>` all give back n. |
| `Amounts.CommaToDot` | handlers/handlers.py:48 | Same length. Every comma becomes a dot and every other character is kept. |
| `Amounts.FiatAmountGuard` | handlers/handlers.py:42-55 | Refused as blank exactly when there is no text or it is whitespace only. Otherwise, with t the stripped text with ',' read as '.': not a number exactly when float(t) raises; an amount float(t) = a is refused when a < 2 and proceeds otherwise (NaN and +inf pass). It never crashes. |
| `Amounts.CryptoAmountGuard` | handlers/handlers.py:152-158 | Crashes exactly when the message has no text. Otherwise: not a number exactly when float of the raw text raises; an amount a is refused when a <= 0 and proceeds otherwise. |
| `Amounts.CommaAndDotAgree` | handlers/handlers.py:48-49 | "1,5" is read as "1.5". |
| `Shop.Ledger.RecordCryptoInvoice` | handlers/handlers.py:178-183 | Stores one 'pending' row exactly when the invoice id is new. A duplicate stores nothing. |
| `Reconcile.FindInvoice` | handlers/handlers.py:228-250 | Returns the first entry with the id (every earlier entry is an object with another id), or the first non-object before it, or no match when every entry is an object with another id. |
| `Shop.ConfirmInvoice` | handlers/handlers.py:232-244 | Sets the row to 'paid' and credits its amount to its owner, whatever the stored status. Other rows are unchanged. |
| `Shop.Ledger.CheckCryptoPaymentStatus` | handlers/handlers.py:210-254 | A failed request, "ok" false or a non-object result gives "error". A non-object entry before the first entry with the id gives "error". No entry with the id gives "pending". The first matching entry's status is the answer. Only a 'paid' answer for a stored invoice writes anything: exactly `ConfirmInvoice`. |
| `Shop.ConfirmTimes` | handlers/handlers.py:232-244 | Repeated confirmation keeps the record's owner and amount. |
| `Shop.ConfirmTimesCredits` | handlers/handlers.py:232-244 | As written, k checks of a paid invoice add k times its amount to the owner's balance. |
| `Shop.GuardedConfirm` | handlers/handlers.py:232-244 | The corrected confirmation leaves a 'paid' record and every balance unchanged. Otherwise it is `ConfirmInvoice`. |
| `Shop.GuardedConfirmTimes` | handlers/handlers.py:232-244 | After at least one guarded check the record is 'paid', with the same owner and amount. |
| `Shop.GuardedConfirmCreditsOnce` | handlers/handlers.py:232-244 | With the guard, any k > 0 checks credit a non-'paid' invoice exactly once, and a 'paid' one never. |
| `Shop.GuardedPaidIsFixed` | handlers/handlers.py:232-244 | With the guard, a 'paid' record is a fixed point of any number of checks. |
| `Shop.PaidLeavesPending` | handlers/handlers.py:264-286 | Marking a record 'paid' removes exactly that record from the `status = 'pending'` selection. |
| `Shop.Ledger.PendingList` | handlers/handlers.py:264-265 | The fetched list holds every pending record exactly once. |
| `Reconcile.PaidMatches` | handlers/handlers.py:280-289 | At most one per entry. Zero exactly when no entry is an object with the id and status 'paid'. |
| `Reconcile.CountPaidMatches` | handlers/handlers.py:281-289 | The inner loop visits every entry and counts exactly `PaidMatches`. |
| `Shop.Ledger.CheckCryptoPayments` | handlers/handlers.py:257-294 | As written: it stops exactly on a failed request or "ok" false. It ends with "wrong shape" exactly when the result is an object. A rollback happens only at a pending record with a paid entry. "Nothing paid" means no pending record has one. No table ever changes. |
| `Shop.SweepCreditsOwed` | handlers/handlers.py:280-289 | Over a whole sweep each user's balance moves by exactly `Owed`: for each visited record the user owns, its amount once per paid entry. |
| `Shop.OwedSoleRecord` | handlers/handlers.py:280-289 | A user owning exactly one visited record, listed once as paid, is owed that record's amount. |
| `Shop.OwedNone` | handlers/handlers.py:280-289 | Records owned by other users add nothing to what a user is owed. |
| `Shop.SweepCreditsPaidOnce` | handlers/handlers.py:264-289 | The corrected sweep credits the owner of a pending record listed once as paid with exactly its amount, when the owner has no other pending record. |
| `Shop.Ledger.SweepOne` | handlers/handlers.py:280-289 | One record credits its owner `amount` once per paid entry, and is marked 'paid' exactly when it has one. |
| `Shop.Ledger.SweepCryptoPayments` | handlers/handlers.py:257-294 | The sweep with its balance update keyed by telegram_id visits each pending record once. It credits as `SweepCredits` and marks as `MarkPaid`. No other table changes. |
| `Shop.MarkPaidStep` | handlers/handlers.py:285-286 | Sweeping one more record changes only that record's row, to 'paid' exactly when it has a paid entry. |
| `Shop.SweepCreditsNothingUnpaid` | handlers/handlers.py:264-289 | Records without a paid entry credit nothing. |
| `Shop.SweepCreditsOthers` | handlers/handlers.py:280-289 | A user who owns none of the visited records keeps the same balance. |
| `Shop.SweptLeavesNothingPaid` | handlers/handlers.py:264-289 | After a sweep, every record still pending was pending before and has no paid entry. |
| `Shop.SecondSweepCreditsNothing` | handlers/handlers.py:264-289 | A second sweep over the same list leaves every balance unchanged. |
| `Config.Kept` | config.py:28 | Never more pieces than were split, and no kept piece is empty. |
| `Config.KeptAppend` | config.py:28 | The comprehension works piece by piece: the kept pieces of a concatenation are the concatenation of the kept pieces. |
| `Config.KeptOne` | config.py:28 | One piece is kept, stripped, exactly when it is not blank. With `KeptAppend` this fixes the contents: every non-blank piece, stripped, in order. |
| `Config.KeptIdempotent` | config.py:28 | Applying the comprehension to its own result changes nothing. |
| `Config.KeptLength` | config.py:28 | As many pieces are kept as there are non-blank pieces. |
| `Config.ParseAll` | config.py:29 | Mapping a parser over the pieces succeeds exactly when it accepts every piece, giving one value per piece in order. Otherwise it names a piece the parser rejects. |
| `Config.AdminIds` | config.py:24-29 | Unset gives []. A non-blank value that parses gives one id per kept piece. A failure names a kept piece that int() rejects. |
| `Config.AdminIdsBlank` | config.py:26-27 | An unset, empty or whitespace-only value gives the empty list. |
| `Config.BlankGuardRedundant` | config.py:26-28 | The comprehension alone would also keep nothing of a blank value. |
| `Config.AdminIdsOutcome` | config.py:26-29 | A non-blank value gives an id list exactly when every kept piece is an integer literal. The list has one id per non-blank piece, in order, and each piece parses to its id. |
| `Config.AdminIdsRoundTrip` | config.py:28-29 | Ids written with str() and joined with commas read back as the same list, order and repetitions included. |
| `Config.AdminIdsExample` | config.py:28-29 | "1, ,2," gives [1, 2]. |
| `Text.Split` | config.py:28 | One more piece than separators, no piece containing the separator, and joining the pieces gives the text back. |
| `Text.SplitJoin` | config.py:28 | Splitting joined separator-free pieces gives the pieces back. |
| `Text.StripEmptyIffBlank` | config.py:26 | `strip()` gives "" exactly for whitespace-only text. |
| `Text.Strip` | config.py:26-28 | Never longer than the text. A non-empty result neither starts nor ends with whitespace. |
| `Text.ParseInt` | config.py:29 | Accepts only text whose stripped form ends in a digit, and gives a negative number only after a leading '-'. |
| `Text.ParseShowInt` | config.py:29 | int(str(n)) == n. |
| `Flags.CountryFlags` | functions/functions.py:156-171 | The table has exactly the 53 distinct keys of the literal. |
| `Flags.GetFlag` | functions/functions.py:174-175 | A listed code gets the two regional indicator symbols of its letters. |
| `Flags.GetFlagCases` | functions/functions.py:156-175 | A listed code gets the two regional indicator symbols of its letters. Any other text gets the white flag. |
| `Flags.WhiteFlagOnlyForUnknown` | functions/functions.py:174-175 | The white flag comes back exactly for a code the table lacks. |
| `Flags.GetFlagExamples` | functions/functions.py:159-175 | PL and KW, both written twice, get their flags. XX gets the white flag. |
| `Scenarios.PromoPurchase` | handlers/handlers.py:346-410 | With a balance of 10.00, a price of 8.00 and a 20% code with 3 uses: charges 6.40, leaves 3.60 and 2 uses. |
| `Scenarios.ShortOfFunds` | handlers/handlers.py:346-386 | With a balance of 5.00, a price of 10.00 and no code: refused, the balance stays 5.00 and the server stays listed. |
| `Scenarios.FiatPolledTwice` | functions/functions.py:305-365 | A pending payment polled twice with 'succeeded' is credited once and stays 'succeeded'. |
| `Scenarios.CryptoCheckedTwice` | handlers/handlers.py:210-254 | As written, a paid invoice of 5.00 checked twice credits 10.00. |
| `Scenarios.SweepAsWritten` | handlers/handlers.py:257-294 | As written, with a paid pending invoice of 5.00: a result object stops the sweep, a result list rolls it back, and the balance stays 0. |
| `Scenarios.SweepTwice` | handlers/handlers.py:257-294 | The sweep keyed by telegram_id, run twice over the same list, credits 5.00 once and leaves the invoice 'paid'. |

## Left out

- HTTP calls to YooKassa and CryptoBot, and the exchange-rate lookup: their answers and the rate are parameters. The invoice-creation request of `topup_crypto_amount` is left out; its insert is `Shop.Ledger.RecordCryptoInvoice`.
- Python's `float()`: it is a parameter of the amount guards. Money is an exact `real`, so binary floating-point error in balances, in `round` and in the discount formulas is not modelled.
- `Shop.Ledger.RecordPayment` does not model the idempotence key, the request body or the `confirmation_url` check of `process_yoo_amount`. Those only shape the request and the reply text.
- SQLite connections, commits and closes are not modelled: each helper or handler is one atomic step. The rollback in `check_crypto_payments` is modelled only by its result, that nothing changes.
- Concurrency is not modelled. The read-then-write races in `check_and_update_payment` and `buy_product` between concurrent handlers cannot be shown by a sequential model.
- Telegram and aiogram code is not modelled: messages, keyboards, FSM states, logging and printing. The text comparison in `check_payment` that avoids re-editing an unchanged message is part of this.
- Product listing, pagination and display, the admin helpers, and `main.py` are not modelled. They are outside the ledger.
- The `geo` column migration in `create_db` is not modelled, nor the autoincrement ids and timestamp columns. They are not ledger logic.
- `Text.ParseInt`: int() is modelled for ASCII digits with an optional sign and surrounding whitespace. Digit-group underscores and non-ASCII digits, which Python also accepts, are left out.
- `Text.IsSpace` is the 29 code points of Python's `str.isspace()`. Unicode data beyond them is left out.
- `Shop.Ledger.CheckPayment`: a callback without a third piece makes the source raise IndexError outside its try block. The model returns `None` for it.
- `Shop.Ledger.CheckCryptoPayments`: a database error at the first paid match raises and rolls back the whole sweep. The model reports `RolledBack` with that record's id. This is the source's behaviour on a real users table, where the `user_id` column does not exist.

## Findings

| source | as written | input that shows it | evidently intended | confidence | as-written member | corrected member |
|---|---|---|---|---|---|---|
| functions/functions.py:341-362 | Any answer whose status differs from the stored one is copied over it, including over 'succeeded'. An answer without "status" (an error body) stores NULL, and the next 'succeeded' answer credits the payment again. | stored 'pending'; answers `{"status":"succeeded"}`, `{}` (error body), `{"status":"succeeded"}` | a 'succeeded' payment is final and credited exactly once | not executed | `Reconcile.FiatDoubleCredit` | `Reconcile.GuardedFiatCreditsAtMostOnce` |
| handlers/handlers.py:232-244 | A matched 'paid' invoice is marked 'paid' and credited on every check. The stored status is never consulted. | an invoice of 5.00 stored 'pending'; getInvoices lists it as paid; the check button is pressed twice | credit only an invoice not already 'paid' | not executed | `Shop.ConfirmTimesCredits` | `Shop.GuardedConfirmCreditsOnce` |
| handlers/handlers.py:274-289 | The sweep reads `result` as a list, but CryptoBot's getInvoices returns an object with `items`. Even given a list, its `UPDATE users ... WHERE user_id = ?` names a column the users table lacks (functions/functions.py:18-25). The raised error rolls the status change back, so the sweep never confirms or credits anything. | any reply `{"ok": true, "result": {"items": [...]}}`; or a `result` list holding a paid entry for a pending record | mark each pending record with a paid entry 'paid' and credit its owner once; a second sweep credits nothing (`Shop.SecondSweepCreditsNothing`) | not executed | `Scenarios.SweepAsWritten` | `Shop.SweepCreditsPaidOnce` |
