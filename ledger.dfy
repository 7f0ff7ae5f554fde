/**
 * The shop's balance ledger: the SQLite tables of vds_shop.db
 * (functions/functions.py, create_db) and the operations that move money,
 * promo codes and stock between them (functions/functions.py and
 * handlers/handlers.py). Each table is keyed by its UNIQUE column;
 * purchases, which have no natural key, are kept in insertion order.
 * Every operation is one atomic step.
 */
module Shop {
  import opened Wrappers
  import opened Text
  import opened Pricing
  import opened Reconcile
  import Callback

  /** A row of users: balance in dollars and the assigned promo code (NULL when None). */
  datatype User = User(balance: real, promoCode: Option<string>)

  /** A row of products: the server's credentials, its specs, its geo code and its price. */
  datatype Product = Product(ip: string, login: string, password: string,
                             cores: int, ram: int, ssd: int, geo: string, price: real)

  /** A row of purchases: the buyer and the product as sold, priced at what was charged. */
  datatype Purchase = Purchase(telegramId: int, item: Product)

  /** A row of promo_codes: discount in per cent and uses left. */
  datatype Promo = Promo(discount: real, usageLimit: int)

  /** A row of payments (YooKassa). The status is NULL when a status-less reply was copied. */
  datatype Payment = Payment(telegramId: int, amountRub: real, amountUsd: real, status: Option<string>)

  /** A row of crypto_payments (CryptoBot). */
  datatype CryptoPayment = CryptoPayment(telegramId: int, amount: real, status: string)

  const Pending: string := "pending"

  /**
   * `UPDATE users SET balance = balance + amount WHERE telegram_id = id`:
   * that user's balance moves by exactly amount, with no lower bound;
   * nobody else changes, and an unknown id changes nothing.
   */
  function Credit(users: map<int, User>, id: int, amount: real): (r: map<int, User>)
    ensures r.Keys == users.Keys
    ensures id in users ==> r[id].balance == users[id].balance + amount && r[id].promoCode == users[id].promoCode
    ensures forall u :: u in users && u != id ==> r[u] == users[u]
  {
    if id in users then users[id := users[id].(balance := users[id].balance + amount)] else users
  }

  /**
   * The code apply_discount and apply_promo_code read for a user: the
   * user's row exists and its promo_code is neither NULL nor empty
   * (`promo_code and promo_code[0]`).
   */
  function AssignedCode(users: map<int, User>, id: int): (c: Option<string>)
    ensures c.Some? ==> id in users && users[id].promoCode == c && c.value != []
  {
    if id in users && users[id].promoCode.Some? && users[id].promoCode.value != [] then users[id].promoCode else None
  }

  /** A code is applied to the user's purchase: it is assigned and its row still exists. */
  predicate Applies(users: map<int, User>, promos: map<string, Promo>, id: int) {
    AssignedCode(users, id).Some? && AssignedCode(users, id).value in promos
  }

  /** Every promo code still listed has a use left. */
  predicate Live(promos: map<string, Promo>) {
    forall c :: c in promos ==> promos[c].usageLimit > 0
  }

  /**
   * One use of a code: its usage_limit goes down by exactly one, and the
   * row is deleted when `usage_limit - 1 <= 0`; other codes are untouched.
   */
  function ConsumePromo(promos: map<string, Promo>, code: string): (r: map<string, Promo>)
    requires code in promos
    ensures code in r <==> promos[code].usageLimit - 1 > 0
    ensures code in r ==> r[code] == promos[code].(usageLimit := promos[code].usageLimit - 1)
    ensures forall c :: c != code ==> (c in r <==> c in promos)
    ensures forall c :: c in promos && c != code ==> r[c] == promos[c]
    ensures Live(promos) ==> Live(r)
  {
    var left := promos[code].usageLimit - 1;
    if left <= 0 then promos - {code} else promos[code := promos[code].(usageLimit := left)]
  }

  /** The code consumed k times in a row (as long as it is still there). */
  function ConsumeTimes(promos: map<string, Promo>, code: string, k: nat): (r: map<string, Promo>)
    ensures forall c :: c != code ==> (c in r <==> c in promos)
    ensures forall c :: c in promos && c != code ==> r[c] == promos[c]
    ensures Live(promos) ==> Live(r)
  {
    if k == 0 || code !in promos then promos else ConsumeTimes(ConsumePromo(promos, code), code, k - 1)
  }

  /**
   * A code with n > 0 uses left survives exactly n - 1 consumptions, each
   * one taking one use: it can never discount more than n purchases (a
   * code stored with no use left goes at the first).
   */
  lemma {:induction false} ConsumeTimesCounts(promos: map<string, Promo>, code: string, k: nat)
    requires code in promos
    ensures code in ConsumeTimes(promos, code, k) <==> k == 0 || k < promos[code].usageLimit
    ensures code in ConsumeTimes(promos, code, k) ==>
      ConsumeTimes(promos, code, k)[code].usageLimit == promos[code].usageLimit - k
  {
    if k > 0 {
      var next := ConsumePromo(promos, code);
      if code in next {
        ConsumeTimesCounts(next, code, k - 1);
      } else {
        assert ConsumeTimes(next, code, k - 1) == next;
      }
    }
  }

  /** The price and the two tables after apply_promo_code. */
  datatype PromoEffect = PromoEffect(price: real, users: map<int, User>, promos: map<string, Promo>)

  /**
   * apply_promo_code: with an assigned code whose row exists, the price
   * is cut by the discount, the code is consumed once and the user's
   * reference is cleared; otherwise the price is returned unchanged and
   * nothing is written (a reference to a deleted code stays). Balances
   * never change.
   */
  function ApplyPromo(users: map<int, User>, promos: map<string, Promo>, id: int, price: real): (e: PromoEffect)
    ensures e.users.Keys == users.Keys
    ensures forall u :: u in users ==> e.users[u].balance == users[u].balance
    ensures forall u :: u in users && u != id ==> e.users[u] == users[u]
    ensures Applies(users, promos, id) ==>
      var code := AssignedCode(users, id).value;
      e.price == ChargedPrice(price, promos[code].discount) &&
      e.promos == ConsumePromo(promos, code) &&
      e.users[id].promoCode.None?
    ensures !Applies(users, promos, id) ==> e == PromoEffect(price, users, promos)
  {
    match AssignedCode(users, id)
    case None => PromoEffect(price, users, promos)
    case Some(code) =>
      if code !in promos then PromoEffect(price, users, promos)
      else
        PromoEffect(ChargedPrice(price, promos[code].discount),
                    users[id := users[id].(promoCode := None)],
                    ConsumePromo(promos, code))
  }

  /**
   * apply_discount: the price the user would pay, rounded to cents; the
   * discount counts exactly when apply_promo_code would apply it.
   */
  function PreviewFor(users: map<int, User>, promos: map<string, Promo>, id: int, price: real): (r: real)
    ensures IsCents(r)
    ensures !Applies(users, promos, id) ==> -0.005 <= r - price <= 0.005
  {
    if Applies(users, promos, id) then Round2(PreviewPrice(price, promos[AssignedCode(users, id).value].discount))
    else Round2(price)
  }

  /** The preview and what the purchase then charges differ by at most half a cent. */
  lemma PreviewMatchesCharge(users: map<int, User>, promos: map<string, Promo>, id: int, price: real)
    ensures -0.005 <= PreviewFor(users, promos, id, price) - ApplyPromo(users, promos, id, price).price <= 0.005
  {
    if Applies(users, promos, id) {
      PreviewWithinHalfCent(price, promos[AssignedCode(users, id).value].discount);
    }
  }

  /**
   * A code that process_promo has just assigned is the one the next
   * purchase uses: it is charged at that code's discount and consumes it.
   */
  lemma {:induction false} AssignedCodeIsApplied(users: map<int, User>, promos: map<string, Promo>, id: int, code: string, price: real)
    requires id in users && code in promos && code != []
    ensures var e := ApplyPromo(users[id := users[id].(promoCode := Some(code))], promos, id, price);
      e.price == ChargedPrice(price, promos[code].discount) && e.promos == ConsumePromo(promos, code)
  {
    var withCode := users[id := users[id].(promoCode := Some(code))];
    assert AssignedCode(withCode, id) == Some(code);
  }

  /** What buy_product ends with. */
  datatype BuyOutcome =
    | AlreadyBought          // no product row: "this item was already bought"
    | UnknownUser            // get_user_balance raises on a missing user row
    | Insufficient(price: real)
    | Bought(price: real)

  /** What process_promo answers. */
  datatype PromoOutcome =
    | NoText                 // message.text is None: .strip() raises
    | Invalid                // no such code
    | Exhausted              // usage_limit <= 0
    | Activated(discount: real)

  /** What create_payment ends with when it raises. */
  datatype PaymentError =
    | ZeroRate               // amount_rub / usd_rate with a zero rate
    | Rejected(code: int)    // YooKassa answered neither 200 nor 201
    | MissingId              // payment_data['id'] raises KeyError
    | Duplicate              // the UNIQUE payment_id rejects the insert

  /** YooKassa's answer to the charge request: HTTP status and the "id" field. */
  datatype ChargeReply = ChargeReply(statusCode: int, id: Option<string>)

  /** What the bulk sweep check_crypto_payments ends with. */
  datatype SweepOutcome =
    | Stopped                // the request raised, or "ok" is false
    | WrongShape             // "result" is not a list
    | RolledBack(id: string) // a paid match reached the failing UPDATE
    | NothingPaid            // no pending record has a paid entry

  /** The ids check_crypto_payments selects: `WHERE status = 'pending'`. */
  function PendingIds(crypto: map<string, CryptoPayment>): set<string> {
    set id | id in crypto && crypto[id].status == Pending
  }

  /** Marking a record 'paid' takes it, and only it, out of the next selection. */
  lemma PaidLeavesPending(crypto: map<string, CryptoPayment>, id: string)
    requires id in crypto
    ensures PendingIds(crypto[id := crypto[id].(status := Paid)]) == PendingIds(crypto) - {id}
  {
    var marked := crypto[id := crypto[id].(status := Paid)];
    assert marked[id].status != Pending;
  }

  /**
   * The owner's credit for one pending record in the sweep: one
   * `amount` per paid entry carrying its id (the loop does not stop at the
   * first one).
   */
  function SweepCredit(users: map<int, User>, crypto: map<string, CryptoPayment>, entries: seq<Option<Invoice>>, id: string): map<int, User>
    requires id in crypto
  {
    Credit(users, crypto[id].telegramId, Times(PaidMatches(entries, id), crypto[id].amount))
  }

  /** n equal credits of amount add up to n * amount; none adds nothing. */
  function Times(n: nat, amount: real): (r: real)
    ensures n == 0 ==> r == 0.0
    ensures n == 1 ==> r == amount
  {
    n as real * amount
  }

  /** The sweep's credits for the records in the order it visits them. */
  function SweepCredits(users: map<int, User>, crypto: map<string, CryptoPayment>, entries: seq<Option<Invoice>>, order: seq<string>): (r: map<int, User>)
    requires forall i :: 0 <= i < |order| ==> order[i] in crypto
    ensures r.Keys == users.Keys
    decreases |order|
  {
    if order == [] then users
    else SweepCredits(SweepCredit(users, crypto, entries, order[0]), crypto, entries, order[1..])
  }

  /**
   * What the sweep owes user u over the records in order: for each record
   * u owns, its amount once per paid entry carrying its id.
   */
  function Owed(crypto: map<string, CryptoPayment>, entries: seq<Option<Invoice>>, order: seq<string>, u: int): real
    requires forall i :: 0 <= i < |order| ==> order[i] in crypto
    decreases |order|
  {
    if order == [] then 0.0
    else
      var id := order[0];
      (if crypto[id].telegramId == u then Times(PaidMatches(entries, id), crypto[id].amount) else 0.0)
        + Owed(crypto, entries, order[1..], u)
  }

  /** Over a whole sweep each user's balance moves by exactly what the sweep owes them. */
  lemma {:induction false} SweepCreditsOwed(users: map<int, User>, crypto: map<string, CryptoPayment>, entries: seq<Option<Invoice>>, order: seq<string>, u: int)
    requires forall i :: 0 <= i < |order| ==> order[i] in crypto
    requires u in users
    ensures SweepCredits(users, crypto, entries, order)[u].balance == users[u].balance + Owed(crypto, entries, order, u)
    decreases |order|
  {
    if order != [] {
      var first := SweepCredit(users, crypto, entries, order[0]);
      SweepCreditsOwed(first, crypto, entries, order[1..], u);
    }
  }

  /**
   * A user who owns exactly one of the visited records, listed once as
   * paid, is owed its amount exactly once.
   */
  lemma {:induction false} OwedSoleRecord(crypto: map<string, CryptoPayment>, entries: seq<Option<Invoice>>, order: seq<string>, u: int, i: nat)
    requires forall k :: 0 <= k < |order| ==> order[k] in crypto
    requires i < |order| && crypto[order[i]].telegramId == u && PaidMatches(entries, order[i]) == 1
    requires forall k :: 0 <= k < |order| && k != i ==> crypto[order[k]].telegramId != u
    ensures Owed(crypto, entries, order, u) == crypto[order[i]].amount
    decreases |order|
  {
    if i == 0 {
      OwedNone(crypto, entries, order[1..], u);
    } else {
      OwedSoleRecord(crypto, entries, order[1..], u, i - 1);
    }
  }

  /** Records owned by others add nothing to what u is owed. */
  lemma {:induction false} OwedNone(crypto: map<string, CryptoPayment>, entries: seq<Option<Invoice>>, order: seq<string>, u: int)
    requires forall k :: 0 <= k < |order| ==> order[k] in crypto && crypto[order[k]].telegramId != u
    ensures Owed(crypto, entries, order, u) == 0.0
    decreases |order|
  {
    if order != [] {
      OwedNone(crypto, entries, order[1..], u);
    }
  }

  /**
   * The corrected sweep credits the owner of a pending record that is
   * listed once as paid with exactly its amount, when the owner has no
   * other pending record.
   */
  lemma SweepCreditsPaidOnce(users: map<int, User>, crypto: map<string, CryptoPayment>, entries: seq<Option<Invoice>>, order: seq<string>, id: string)
    requires Enumerates(order, PendingIds(crypto))
    requires id in PendingIds(crypto) && PaidMatches(entries, id) == 1 && crypto[id].telegramId in users
    requires forall other :: other in PendingIds(crypto) && other != id ==> crypto[other].telegramId != crypto[id].telegramId
    ensures var owner := crypto[id].telegramId;
      SweepCredits(users, crypto, entries, order)[owner].balance == users[owner].balance + crypto[id].amount
  {
    var owner := crypto[id].telegramId;
    var i :| 0 <= i < |order| && order[i] == id;
    SweepCreditsOwed(users, crypto, entries, order, owner);
    OwedSoleRecord(crypto, entries, order, owner, i);
  }

  /**
   * Records without a paid entry credit nothing: in particular a second
   * sweep over the same list, where every record still pending has no paid
   * entry, leaves every balance as it is.
   */
  lemma {:induction false} SweepCreditsNothingUnpaid(users: map<int, User>, crypto: map<string, CryptoPayment>, entries: seq<Option<Invoice>>, order: seq<string>)
    requires forall i :: 0 <= i < |order| ==> order[i] in crypto && PaidMatches(entries, order[i]) == 0
    ensures SweepCredits(users, crypto, entries, order) == users
    decreases |order|
  {
    if order != [] {
      var first := SweepCredit(users, crypto, entries, order[0]);
      assert first == users;
      SweepCreditsNothingUnpaid(users, crypto, entries, order[1..]);
    }
  }

  /** A user who owns none of the swept records keeps the same balance. */
  lemma {:induction false} SweepCreditsOthers(users: map<int, User>, crypto: map<string, CryptoPayment>, entries: seq<Option<Invoice>>, order: seq<string>, u: int)
    requires forall i :: 0 <= i < |order| ==> order[i] in crypto && crypto[order[i]].telegramId != u
    requires u in users
    ensures SweepCredits(users, crypto, entries, order)[u] == users[u]
    decreases |order|
  {
    if order != [] {
      SweepCreditsOthers(SweepCredit(users, crypto, entries, order[0]), crypto, entries, order[1..], u);
    }
  }

  /**
   * The status change of check_crypto_payment_status for a matched paid
   * invoice that has a row: status 'paid' and the stored amount credited
   * to the owner, whatever the row's status was.
   */
  function ConfirmInvoice(users: map<int, User>, crypto: map<string, CryptoPayment>, id: string): (r: (map<int, User>, map<string, CryptoPayment>))
    requires id in crypto
    ensures r.1.Keys == crypto.Keys && r.1[id] == crypto[id].(status := Paid)
    ensures forall other :: other in crypto && other != id ==> r.1[other] == crypto[other]
    ensures r.0 == Credit(users, crypto[id].telegramId, crypto[id].amount)
  {
    (Credit(users, crypto[id].telegramId, crypto[id].amount), crypto[id := crypto[id].(status := Paid)])
  }

  /** The same invoice confirmed k times. */
  function ConfirmTimes(users: map<int, User>, crypto: map<string, CryptoPayment>, id: string, k: nat): (r: (map<int, User>, map<string, CryptoPayment>))
    requires id in crypto
    ensures id in r.1 && r.1[id].telegramId == crypto[id].telegramId && r.1[id].amount == crypto[id].amount
  {
    if k == 0 then (users, crypto)
    else
      var once := ConfirmInvoice(users, crypto, id);
      ConfirmTimes(once.0, once.1, id, k - 1)
  }

  /**
   * As written, every check of a paid invoice credits again: k checks add
   * k times the amount to the owner's balance.
   */
  lemma {:induction false} ConfirmTimesCredits(users: map<int, User>, crypto: map<string, CryptoPayment>, id: string, k: nat)
    requires id in crypto && crypto[id].telegramId in users
    ensures var r := ConfirmTimes(users, crypto, id, k);
      crypto[id].telegramId in r.0 &&
      r.0[crypto[id].telegramId].balance == users[crypto[id].telegramId].balance + k as real * crypto[id].amount
  {
    if k > 0 {
      var once := ConfirmInvoice(users, crypto, id);
      ConfirmTimesCredits(once.0, once.1, id, k - 1);
    }
  }

  /** The corrected confirmation: an invoice already marked 'paid' is not credited again. */
  function GuardedConfirm(users: map<int, User>, crypto: map<string, CryptoPayment>, id: string): (r: (map<int, User>, map<string, CryptoPayment>))
    requires id in crypto
    ensures crypto[id].status == Paid ==> r == (users, crypto)
    ensures crypto[id].status != Paid ==> r == ConfirmInvoice(users, crypto, id)
  {
    if crypto[id].status == Paid then (users, crypto) else ConfirmInvoice(users, crypto, id)
  }

  function GuardedConfirmTimes(users: map<int, User>, crypto: map<string, CryptoPayment>, id: string, k: nat): (r: (map<int, User>, map<string, CryptoPayment>))
    requires id in crypto
    ensures id in r.1 && r.1[id].telegramId == crypto[id].telegramId && r.1[id].amount == crypto[id].amount
    ensures k > 0 ==> r.1[id].status == Paid
    ensures k == 0 ==> r.1[id].status == crypto[id].status
  {
    if k == 0 then (users, crypto)
    else
      var once := GuardedConfirm(users, crypto, id);
      GuardedConfirmTimes(once.0, once.1, id, k - 1)
  }

  /** With the guard, any number of checks of a pending paid invoice credits it once. */
  lemma {:induction false} GuardedConfirmCreditsOnce(users: map<int, User>, crypto: map<string, CryptoPayment>, id: string, k: nat)
    requires id in crypto && crypto[id].telegramId in users
    ensures var r := GuardedConfirmTimes(users, crypto, id, k);
      var owner := crypto[id].telegramId;
      owner in r.0 &&
      r.0[owner].balance == users[owner].balance + (if k > 0 && crypto[id].status != Paid then crypto[id].amount else 0.0)
  {
    if k > 0 {
      var once := GuardedConfirm(users, crypto, id);
      assert once.1[id].status == Paid;
      GuardedConfirmCreditsOnce(once.0, once.1, id, k - 1);
      if k > 1 {
        GuardedPaidIsFixed(once.0, once.1, id, k - 1);
      }
    }
  }

  /** Confirming an invoice already 'paid' changes nothing, however often. */
  lemma {:induction false} GuardedPaidIsFixed(users: map<int, User>, crypto: map<string, CryptoPayment>, id: string, k: nat)
    requires id in crypto && crypto[id].status == Paid
    ensures GuardedConfirmTimes(users, crypto, id, k) == (users, crypto)
  {
    if k > 0 {
      GuardedPaidIsFixed(users, crypto, id, k - 1);
    }
  }

  /**
   * The database behind the bot. Each method is one handler or helper of
   * the source, taken as one atomic step; the gateways' answers and the
   * exchange rate are parameters.
   */
  class Ledger {
    var users: map<int, User>
    var products: map<int, Product>
    var purchases: seq<Purchase>
    var promoCodes: map<string, Promo>
    var payments: map<string, Payment>
    var cryptoPayments: map<string, CryptoPayment>

    /** create_db on a fresh file: every table empty. */
    constructor ()
      ensures users == map[] && products == map[] && purchases == []
      ensures promoCodes == map[] && payments == map[] && cryptoPayments == map[]
    {
      users := map[];
      products := map[];
      purchases := [];
      promoCodes := map[];
      payments := map[];
      cryptoPayments := map[];
    }

    /** create_user: a new user starts with balance 0 and no code; an existing one is left alone. */
    method CreateUser(id: int)
      modifies this
      ensures id !in old(users) ==> users == old(users)[id := User(0.0, None)]
      ensures id in old(users) ==> users == old(users)
      ensures products == old(products) && purchases == old(purchases) && promoCodes == old(promoCodes)
      ensures payments == old(payments) && cryptoPayments == old(cryptoPayments)
    {
      if id !in users {
        users := users[id := User(0.0, None)];
      }
    }

    /** get_user_balance: the stored balance; None where `result[0]` raises for a missing user. */
    method GetUserBalance(id: int) returns (balance: Option<real>)
      ensures balance.Some? <==> id in users
      ensures balance.Some? ==> balance.value == users[id].balance
    {
      if id in users {
        balance := Some(users[id].balance);
      } else {
        balance := None;
      }
    }

    /** update_user_balance: add amount (possibly negative) to that user only. */
    method UpdateUserBalance(id: int, amount: real)
      modifies this
      ensures users == Credit(old(users), id, amount)
      ensures products == old(products) && purchases == old(purchases) && promoCodes == old(promoCodes)
      ensures payments == old(payments) && cryptoPayments == old(cryptoPayments)
    {
      if id in users {
        users := users[id := users[id].(balance := users[id].balance + amount)];
      }
    }

    /**
     * apply_discount: reads the user's code and its discount and returns
     * the price to show, rounded to cents; writes nothing.
     */
    method ApplyDiscount(id: int, price: real) returns (shown: real)
      ensures shown == PreviewFor(users, promoCodes, id, price)
      ensures -0.005 <= shown - ApplyPromo(users, promoCodes, id, price).price <= 0.005
    {
      var p := price;
      var code := AssignedCode(users, id);
      if code.Some? && code.value in promoCodes {
        p := PreviewPrice(p, promoCodes[code.value].discount);
      }
      shown := Round2(p);
      PreviewMatchesCharge(users, promoCodes, id, price);
    }

    /**
     * apply_promo_code: returns the price to charge; with an assigned,
     * existing code it consumes one use and clears the user's reference.
     */
    method ApplyPromoCode(id: int, price: real) returns (charged: real)
      modifies this
      ensures var e := ApplyPromo(old(users), old(promoCodes), id, price);
        charged == e.price && users == e.users && promoCodes == e.promos
      ensures products == old(products) && purchases == old(purchases)
      ensures payments == old(payments) && cryptoPayments == old(cryptoPayments)
    {
      charged := price;
      var code := AssignedCode(users, id);
      if code.Some? && code.value in promoCodes {
        var promo := promoCodes[code.value];
        charged := ChargedPrice(price, promo.discount);
        promoCodes := promoCodes[code.value := promo.(usageLimit := promo.usageLimit - 1)];
        if promo.usageLimit - 1 <= 0 {
          promoCodes := promoCodes - {code.value};
        }
        users := users[id := users[id].(promoCode := None)];
      }
    }

    /**
     * buy_product for a product id and a buyer. A missing product changes
     * nothing. Otherwise the promo code is applied (and consumed) first;
     * then the purchase goes through only if the balance covers the
     * charged price: the balance drops by exactly that price, one
     * purchase row holding the product and that price is appended and the
     * product row is deleted. If the balance falls short, balance, stock
     * and purchases stay as they were, but the consumed code stays consumed.
     */
    method BuyProduct(productId: int, userId: int) returns (outcome: BuyOutcome)
      modifies this
      ensures productId !in old(products) ==> outcome == AlreadyBought
      ensures productId in old(products) && userId !in old(users) ==> outcome == UnknownUser
      ensures outcome.AlreadyBought? || outcome.UnknownUser? ==>
        users == old(users) && products == old(products) && purchases == old(purchases) && promoCodes == old(promoCodes)
      ensures productId in old(products) && userId in old(users) ==>
        var product := old(products)[productId];
        var e := ApplyPromo(old(users), old(promoCodes), userId, product.price);
        promoCodes == e.promos &&
        if e.users[userId].balance >= e.price then
          outcome == Bought(e.price) &&
          users == Credit(e.users, userId, -e.price) &&
          purchases == old(purchases) + [Purchase(userId, product.(price := e.price))] &&
          products == old(products) - {productId}
        else
          outcome == Insufficient(e.price) &&
          users == e.users && products == old(products) && purchases == old(purchases)
      ensures outcome.Bought? ==> (userId in users && userId in old(users) &&
        users[userId].balance == old(users)[userId].balance - outcome.price && users[userId].balance >= 0.0)
      ensures outcome.Insufficient? ==> (userId in users && userId in old(users) &&
        users[userId].balance == old(users)[userId].balance < outcome.price)
      ensures payments == old(payments) && cryptoPayments == old(cryptoPayments)
    {
      if productId !in products {
        return AlreadyBought;
      }
      var product := products[productId];
      if userId !in users {
        return UnknownUser;
      }
      ghost var e := ApplyPromo(users, promoCodes, userId, product.price);
      var price := ApplyPromoCode(userId, product.price);
      var balance := GetUserBalance(userId);
      if balance.value >= price {
        UpdateUserBalance(userId, -price);
        purchases := purchases + [Purchase(userId, product.(price := price))];
        products := products - {productId};
        outcome := Bought(price);
      } else {
        outcome := Insufficient(price);
      }
    }

    /**
     * process_promo: the stripped text is assigned to the user only when
     * it names a code with a use left, replacing any earlier code; an
     * unknown or exhausted code changes nothing.
     */
    method ProcessPromo(userId: int, text: Option<string>) returns (outcome: PromoOutcome)
      modifies this
      ensures text.None? ==> outcome == NoText
      ensures text.Some? ==>
        var code := Strip(text.value);
        (code !in old(promoCodes) ==> outcome == Invalid) &&
        (code in old(promoCodes) && old(promoCodes)[code].usageLimit <= 0 ==> outcome == Exhausted) &&
        (code in old(promoCodes) && old(promoCodes)[code].usageLimit > 0 ==> outcome == Activated(old(promoCodes)[code].discount))
      ensures outcome.Activated? && userId in old(users) ==>
        users == old(users)[userId := old(users)[userId].(promoCode := Some(Strip(text.value)))]
      ensures !(outcome.Activated? && userId in old(users)) ==> users == old(users)
      ensures products == old(products) && purchases == old(purchases) && promoCodes == old(promoCodes)
      ensures payments == old(payments) && cryptoPayments == old(cryptoPayments)
    {
      if text.None? {
        return NoText;
      }
      var code := Strip(text.value);
      if code !in promoCodes {
        return Invalid;
      }
      var promo := promoCodes[code];
      if promo.usageLimit > 0 {
        if userId in users {
          users := users[userId := users[userId].(promoCode := Some(code))];
        }
        outcome := Activated(promo.discount);
      } else {
        outcome := Exhausted;
      }
    }

    /**
     * The database half of create_payment: the dollar amount is the rouble
     * amount over the rate, rounded to cents; only a 200/201 reply carrying
     * an id new to the table stores exactly one row, 'pending'. Every
     * failure raises before anything is stored.
     */
    method RecordPayment(userId: int, amountRub: real, usdRate: real, reply: ChargeReply)
      returns (r: Result<(string, real), PaymentError>)
      modifies this
      ensures r == Err(ZeroRate) <==> usdRate == 0.0
      ensures r.Err? && r.error.Rejected? <==> usdRate != 0.0 && reply.statusCode != 200 && reply.statusCode != 201
      ensures r.Err? && r.error.Rejected? ==> r.error.code == reply.statusCode
      ensures r == Err(MissingId) <==> usdRate != 0.0 && (reply.statusCode == 200 || reply.statusCode == 201) && reply.id.None?
      ensures r.Err? ==> payments == old(payments)
      ensures r.Ok? ==>
        usdRate != 0.0 && (reply.statusCode == 200 || reply.statusCode == 201) &&
        reply.id == Some(r.value.0) && r.value.0 !in old(payments) &&
        r.value.1 == Round2(amountRub / usdRate) &&
        payments == old(payments)[r.value.0 := Payment(userId, amountRub, r.value.1, Some(Pending))]
      ensures r == Err(Duplicate) <==> (usdRate != 0.0 && (reply.statusCode == 200 || reply.statusCode == 201) &&
        reply.id.Some? && reply.id.value in old(payments))
      ensures users == old(users) && products == old(products) && purchases == old(purchases)
      ensures promoCodes == old(promoCodes) && cryptoPayments == old(cryptoPayments)
    {
      if usdRate == 0.0 {
        return Err(ZeroRate);
      }
      var amountUsd := Round2(amountRub / usdRate);
      if reply.statusCode != 200 && reply.statusCode != 201 {
        return Err(Rejected(reply.statusCode));
      }
      if reply.id.None? {
        return Err(MissingId);
      }
      var paymentId := reply.id.value;
      if paymentId in payments {
        return Err(Duplicate);
      }
      payments := payments[paymentId := Payment(userId, amountRub, amountUsd, Some(Pending))];
      r := Ok((paymentId, amountUsd));
    }

    /**
     * check_and_update_payment, as written: nothing happens on a 404, a
     * failed request or an unknown id; otherwise FiatDecision chooses
     * between crediting the owner once while setting 'succeeded' (the only
     * case that returns true), copying the reply's status, or nothing.
     */
    method CheckAndUpdatePayment(paymentId: string, reply: FiatReply) returns (updated: bool)
      modifies this
      ensures !reply.Body? || paymentId !in old(payments) ==> !updated && users == old(users) && payments == old(payments)
      ensures reply.Body? && paymentId in old(payments) ==>
        var p := old(payments)[paymentId];
        var a := FiatDecision(reply, p.status);
        updated == a.CreditAndSucceed? &&
        payments == old(payments)[paymentId := p.(status := StatusAfter(p.status, a))] &&
        users == (if updated then Credit(old(users), p.telegramId, p.amountUsd) else old(users))
      ensures products == old(products) && purchases == old(purchases) && promoCodes == old(promoCodes)
      ensures cryptoPayments == old(cryptoPayments)
    {
      updated := false;
      if !reply.Body? || paymentId !in payments {
        return;
      }
      var p := payments[paymentId];
      var a := FiatDecision(reply, p.status);
      match a
      case CreditAndSucceed =>
        UpdateUserBalance(p.telegramId, p.amountUsd);
        payments := payments[paymentId := p.(status := Some(Succeeded))];
        updated := true;
      case CopyStatus(to) =>
        payments := payments[paymentId := p.(status := to)];
      case Ignore =>
        payments := payments[paymentId := p];
    }

    /**
     * The corrected reconciliation: as check_and_update_payment, but a
     * 'succeeded' row is final and a reply without a status is ignored, so
     * a payment is credited at most once (GuardedFiatCreditsAtMostOnce).
     */
    method ReconcilePayment(paymentId: string, reply: FiatReply) returns (updated: bool)
      modifies this
      ensures !reply.Body? || paymentId !in old(payments) ==> !updated && users == old(users) && payments == old(payments)
      ensures reply.Body? && paymentId in old(payments) ==>
        var p := old(payments)[paymentId];
        var a := GuardedFiatDecision(reply, p.status);
        updated == a.CreditAndSucceed? &&
        payments == old(payments)[paymentId := p.(status := StatusAfter(p.status, a))] &&
        users == (if updated then Credit(old(users), p.telegramId, p.amountUsd) else old(users))
      ensures paymentId in old(payments) && old(payments)[paymentId].status == Some(Succeeded) ==>
        !updated && users == old(users) && payments == old(payments)
      ensures products == old(products) && purchases == old(purchases) && promoCodes == old(promoCodes)
      ensures cryptoPayments == old(cryptoPayments)
    {
      updated := false;
      if !reply.Body? || paymentId !in payments {
        return;
      }
      var p := payments[paymentId];
      var a := GuardedFiatDecision(reply, p.status);
      match a
      case CreditAndSucceed =>
        UpdateUserBalance(p.telegramId, p.amountUsd);
        payments := payments[paymentId := p.(status := Some(Succeeded))];
        updated := true;
      case CopyStatus(to) =>
        payments := payments[paymentId := p.(status := to)];
      case Ignore =>
        payments := payments[paymentId := p];
    }

    /**
     * check_payment: the id is piece 2 of the callback data (None where
     * that piece is missing and the handler reports an error), the payment
     * is checked, and the verdict is chosen from the update's result and
     * the row read back.
     */
    method CheckPayment(data: string, reply: FiatReply) returns (verdict: Option<Verdict>)
      modifies this
      ensures verdict.None? <==> Occurrences(data, '_') < 2
      ensures verdict.None? ==> users == old(users) && payments == old(payments)
      ensures verdict.Some? ==>
        var id := Split(data, '_')[2];
        var row := if id in payments then Some(payments[id].status) else None;
        verdict.value == Classify(id in old(payments) && FiatDecision(reply, old(payments)[id].status).CreditAndSucceed?, row)
      ensures verdict.Some? ==>
        var id := Split(data, '_')[2];
        if reply.Body? && id in old(payments) then
          var p := old(payments)[id];
          var a := FiatDecision(reply, p.status);
          payments == old(payments)[id := p.(status := StatusAfter(p.status, a))] &&
          users == (if a.CreditAndSucceed? then Credit(old(users), p.telegramId, p.amountUsd) else old(users))
        else
          users == old(users) && payments == old(payments)
      ensures verdict == Some(Confirmed) ==> exists id :: id in old(payments) && id in payments && old(payments)[id].status != Some(Succeeded) && payments[id].status == Some(Succeeded)
      ensures products == old(products) && purchases == old(purchases) && promoCodes == old(promoCodes)
      ensures cryptoPayments == old(cryptoPayments)
    {
      var part := Callback.Part(data, 2);
      if part.None? {
        return None;
      }
      var id := part.value;
      var updated := CheckAndUpdatePayment(id, reply);
      var row := if id in payments then Some(payments[id].status) else None;
      verdict := Some(Classify(updated, row));
    }

    /**
     * The insert of topup_crypto_amount after CryptoBot created the
     * invoice: one 'pending' row; an id already stored raises
     * IntegrityError and stores nothing.
     */
    method RecordCryptoInvoice(invoiceId: string, telegramId: int, amount: real) returns (stored: bool)
      modifies this
      ensures stored <==> invoiceId !in old(cryptoPayments)
      ensures cryptoPayments == if stored then old(cryptoPayments)[invoiceId := CryptoPayment(telegramId, amount, Pending)] else old(cryptoPayments)
      ensures users == old(users) && products == old(products) && purchases == old(purchases)
      ensures promoCodes == old(promoCodes) && payments == old(payments)
    {
      stored := invoiceId !in cryptoPayments;
      if stored {
        cryptoPayments := cryptoPayments[invoiceId := CryptoPayment(telegramId, amount, Pending)];
      }
    }

    /**
     * check_crypto_payment_status, as written: "error" when the request
     * fails, "ok" is false, "result" is not an object or an entry before
     * the match is not one; "pending" when no entry has the id; otherwise
     * the matched status. A matched 'paid' invoice with a row is marked
     * 'paid' and its amount credited to the owner, whatever its stored
     * status: every such check credits again (ConfirmTimesCredits).
     */
    method CheckCryptoPaymentStatus(invoiceId: string, reply: InvoicesReply) returns (answer: Option<string>)
      modifies this
      ensures !reply.ResultObject? ==> answer == Some("error")
      ensures reply.ResultObject? && (forall j :: 0 <= j < |reply.items| ==> reply.items[j].Some? && reply.items[j].value.id != invoiceId) ==>
        answer == Some(Pending)
      ensures forall j :: (reply.ResultObject? && 0 <= j < |reply.items| && Matches(reply.items[j], invoiceId) &&
        (forall k :: 0 <= k < j ==> reply.items[k].Some? && reply.items[k].value.id != invoiceId)) ==>
        answer == reply.items[j].value.status
      ensures forall j :: (reply.ResultObject? && 0 <= j < |reply.items| && reply.items[j].None? &&
        (forall k :: 0 <= k < j ==> reply.items[k].Some? && reply.items[k].value.id != invoiceId)) ==>
        answer == Some("error")
      ensures answer != Some(Paid) || invoiceId !in old(cryptoPayments) ==>
        users == old(users) && cryptoPayments == old(cryptoPayments)
      ensures answer == Some(Paid) && invoiceId in old(cryptoPayments) ==>
        reply.ResultObject? && (exists j :: 0 <= j < |reply.items| && Matches(reply.items[j], invoiceId) && reply.items[j].value.status == Some(Paid)) &&
        (users, cryptoPayments) == ConfirmInvoice(old(users), old(cryptoPayments), invoiceId)
      ensures products == old(products) && purchases == old(purchases) && promoCodes == old(promoCodes)
      ensures payments == old(payments)
    {
      if !reply.ResultObject? {
        return Some("error");
      }
      var found := FindInvoice(reply.items, invoiceId);
      match found
      case NoMatch =>
        answer := Some(Pending);
      case Malformed(_) =>
        answer := Some("error");
      case Match(_, status) =>
        if status == Some(Paid) && invoiceId in cryptoPayments {
          var record := cryptoPayments[invoiceId];
          cryptoPayments := cryptoPayments[invoiceId := record.(status := Paid)];
          UpdateUserBalance(record.telegramId, record.amount);
        }
        answer := status;
    }

    /**
     * check_crypto_payments, as written. It stops when the request fails
     * or "ok" is false, and when "result" is not a list (CryptoBot sends
     * an object, so in practice it always stops here). Otherwise, at the
     * first pending record with a paid entry, its
     * `UPDATE users ... WHERE user_id = ?` names a column the users table
     * lacks; the raised error is caught and the connection closed without
     * commit, so the status update is rolled back. Either way no table changes.
     */
    method CheckCryptoPayments(reply: InvoicesReply) returns (outcome: SweepOutcome)
      ensures reply.Unreachable? || reply.NotOk? <==> outcome == Stopped
      ensures reply.ResultObject? <==> outcome == WrongShape
      ensures outcome.RolledBack? ==> (reply.ResultList? && outcome.id in cryptoPayments &&
        cryptoPayments[outcome.id].status == Pending && PaidMatches(reply.entries, outcome.id) > 0)
      ensures outcome == NothingPaid ==> (reply.ResultList? &&
        forall id :: id in cryptoPayments && cryptoPayments[id].status == Pending ==> PaidMatches(reply.entries, id) == 0)
    {
      if !reply.ResultObject? && !reply.ResultList? {
        return Stopped;
      }
      if reply.ResultObject? {
        return WrongShape;
      }
      var pending := PendingList();
      for i := 0 to |pending|
        invariant forall j :: 0 <= j < i ==> PaidMatches(reply.entries, pending[j]) == 0
      {
        var n := CountPaidMatches(reply.entries, pending[i]);
        if n > 0 {
          return RolledBack(pending[i]);
        }
      }
      assert forall id :: id in cryptoPayments && cryptoPayments[id].status == Pending ==> id in PendingIds(cryptoPayments);
      outcome := NothingPaid;
    }

    /**
     * The sweep as its statements intend, with the balance update keyed by
     * telegram_id and the "result" list given: every record pending at the
     * start that has a paid entry is marked 'paid' and its owner credited
     * once per such entry; nothing else changes. `order` is the order the
     * records were visited in, each pending record once.
     */
    method SweepCryptoPayments(entries: seq<Option<Invoice>>) returns (order: seq<string>)
      modifies this
      ensures Enumerates(order, PendingIds(old(cryptoPayments)))
      ensures users == SweepCredits(old(users), old(cryptoPayments), entries, order)
      ensures cryptoPayments == MarkPaid(old(cryptoPayments), entries, order)
      ensures products == old(products) && purchases == old(purchases) && promoCodes == old(promoCodes)
      ensures payments == old(payments)
    {
      ghost var crypto0 := cryptoPayments;
      ghost var users0 := users;
      order := PendingList();
      for i := 0 to |order|
        invariant users == SweepCredits(users0, crypto0, entries, order[..i])
        invariant cryptoPayments == MarkPaid(crypto0, entries, order[..i])
        invariant products == old(products) && purchases == old(purchases) && promoCodes == old(promoCodes)
        invariant payments == old(payments)
      {
        var id := order[i];
        assert order[..i + 1] == order[..i] + [id];
        assert id !in order[..i];
        assert cryptoPayments[id] == crypto0[id];
        SweepOne(id, entries);
        MarkPaidStep(crypto0, entries, order[..i], id);
        SweepCreditsSnoc(users0, crypto0, entries, order[..i], id);
      }
      assert order[..|order|] == order;
    }

    /**
     * `SELECT invoice_id ... FROM crypto_payments WHERE status = 'pending'`
     * and fetchall(): every pending record once, in some order.
     */
    method PendingList() returns (ids: seq<string>)
      ensures Enumerates(ids, PendingIds(cryptoPayments))
    {
      var pending := PendingIds(cryptoPayments);
      var todo := pending;
      ids := [];
      while todo != {}
        invariant todo <= pending
        invariant Enumerates(ids, pending - todo)
        decreases |todo|
      {
        var id :| id in todo;
        EnumeratesSnoc(ids, pending - todo, id);
        assert (pending - todo) + {id} == pending - (todo - {id});
        ids := ids + [id];
        todo := todo - {id};
      }
    }

    /** One pending record of the sweep: its paid entries counted, then both UPDATEs per entry. */
    method SweepOne(id: string, entries: seq<Option<Invoice>>)
      requires id in cryptoPayments
      modifies this
      ensures users == SweepCredit(old(users), old(cryptoPayments), entries, id)
      ensures cryptoPayments == if PaidMatches(entries, id) > 0 then old(cryptoPayments)[id := old(cryptoPayments)[id].(status := Paid)] else old(cryptoPayments)
      ensures products == old(products) && purchases == old(purchases) && promoCodes == old(promoCodes)
      ensures payments == old(payments)
    {
      var record := cryptoPayments[id];
      var n := CountPaidMatches(entries, id);
      UpdateUserBalance(record.telegramId, Times(n, record.amount));
      if n > 0 {
        cryptoPayments := cryptoPayments[id := record.(status := Paid)];
      }
    }
  }

  /**
   * The crypto_payments table after a sweep over ids: those with a paid
   * entry are 'paid', every other row as it was.
   */
  function MarkPaid(crypto: map<string, CryptoPayment>, entries: seq<Option<Invoice>>, ids: seq<string>): (r: map<string, CryptoPayment>)
    ensures r.Keys == crypto.Keys
  {
    map id | id in crypto :: if id in ids && PaidMatches(entries, id) > 0 then crypto[id].(status := Paid) else crypto[id]
  }

  /** Sweeping one more record updates only that record. */
  lemma MarkPaidStep(crypto: map<string, CryptoPayment>, entries: seq<Option<Invoice>>, ids: seq<string>, id: string)
    requires id in crypto && id !in ids
    ensures MarkPaid(crypto, entries, ids + [id]) ==
      if PaidMatches(entries, id) > 0 then MarkPaid(crypto, entries, ids)[id := crypto[id].(status := Paid)] else MarkPaid(crypto, entries, ids)
  {
    var before, after := MarkPaid(crypto, entries, ids), MarkPaid(crypto, entries, ids + [id]);
    var expected := if PaidMatches(entries, id) > 0 then before[id := crypto[id].(status := Paid)] else before;
    forall k | k in crypto
      ensures after[k] == expected[k]
    {
      assert (k in ids + [id]) == (k in ids || k == id);
    }
  }

  /**
   * After a sweep no record is left 'pending' with a paid entry in the
   * list, and the records it marked are no longer selected: a second
   * sweep over the same list credits nothing.
   */
  lemma SweptLeavesNothingPaid(crypto: map<string, CryptoPayment>, entries: seq<Option<Invoice>>, order: seq<string>)
    requires Enumerates(order, PendingIds(crypto))
    ensures var after := MarkPaid(crypto, entries, order);
      forall id :: id in PendingIds(after) ==> id in PendingIds(crypto) && PaidMatches(entries, id) == 0
  {
  }

  /** A second sweep with the same list leaves every balance as it is. */
  lemma SecondSweepCreditsNothing(users: map<int, User>, crypto: map<string, CryptoPayment>, entries: seq<Option<Invoice>>,
                                  order: seq<string>, again: seq<string>)
    requires Enumerates(order, PendingIds(crypto))
    requires Enumerates(again, PendingIds(MarkPaid(crypto, entries, order)))
    ensures SweepCredits(users, MarkPaid(crypto, entries, order), entries, again) == users
  {
    var after := MarkPaid(crypto, entries, order);
    SweptLeavesNothingPaid(crypto, entries, order);
    SweepCreditsNothingUnpaid(users, after, entries, again);
  }

  /** order lists the ids of the set, each exactly once. */
  predicate Enumerates(order: seq<string>, ids: set<string>) {
    && (forall i :: 0 <= i < |order| ==> order[i] in ids)
    && (forall id :: id in ids ==> id in order)
    && (forall i, j :: 0 <= i < j < |order| ==> order[i] != order[j])
  }

  lemma EnumeratesSnoc(order: seq<string>, ids: set<string>, id: string)
    requires Enumerates(order, ids) && id !in ids
    ensures Enumerates(order + [id], ids + {id})
  {
    var next := order + [id];
    forall i, j | 0 <= i < j < |next| ensures next[i] != next[j] {
      if j == |order| {
        assert next[i] == order[i];
      }
    }
  }

  /** Visiting one more record applies its credit last. */
  lemma {:induction false} SweepCreditsSnoc(users: map<int, User>, crypto: map<string, CryptoPayment>, entries: seq<Option<Invoice>>, order: seq<string>, id: string)
    requires forall i :: 0 <= i < |order| ==> order[i] in crypto
    requires id in crypto
    ensures SweepCredits(users, crypto, entries, order + [id]) == SweepCredit(SweepCredits(users, crypto, entries, order), crypto, entries, id)
    decreases |order|
  {
    if order == [] {
      assert ([] + [id])[1..] == [];
    } else {
      assert (order + [id])[1..] == order[1..] + [id];
      SweepCreditsSnoc(SweepCredit(users, crypto, entries, order[0]), crypto, entries, order[1..], id);
    }
  }
}
