/**
 * Concrete runs of the ledger: each method starts from a fresh database,
 * fills in the rows a scenario needs and drives the handlers.
 */
module Scenarios {
  import opened Wrappers
  import opened Reconcile
  import opened Text
  import opened Pricing
  import opened Shop

  /** A fresh database with one user holding the balance and one server for sale. */
  method OpenShop(userId: int, balance: real, productId: int, price: real) returns (l: Ledger)
    ensures fresh(l)
    ensures l.users == map[userId := User(balance, None)]
    ensures productId in l.products && l.products[productId].price == price
    ensures l.promoCodes == map[] && l.purchases == [] && l.payments == map[] && l.cryptoPayments == map[]
  {
    l := new Ledger();
    l.CreateUser(userId);
    l.UpdateUserBalance(userId, balance);
    l.products := map[productId := Product("10.0.0.1", "root", "secret", 2, 4, 40, "PL", price)];
  }

  /**
   * A balance of 10.00, a price of 8.00 and an activated 20% code: the
   * purchase charges 6.40, leaves 3.60, and the code has one use fewer.
   */
  method PromoPurchase(code: string) returns (outcome: BuyOutcome, balance: real, usesLeft: int)
    requires code == "SPRING"
    ensures outcome == Bought(6.4) && balance == 3.6 && usesLeft == 2
  {
    var l := OpenShop(7, 10.0, 1, 8.0);
    l.promoCodes := map[code := Promo(20.0, 3)];
    var activated := l.ProcessPromo(7, Some(code));
    assert Strip(code) == code by {
      StripKeeps(code);
    }
    assert activated == Activated(20.0);
    outcome := l.BuyProduct(1, 7);
    balance := l.users[7].balance;
    usesLeft := l.promoCodes[code].usageLimit;
  }

  /**
   * A balance of 5.00 against a price of 10.00 and no code: refused, the
   * balance stays 5.00 and the server stays for sale.
   */
  method ShortOfFunds() returns (outcome: BuyOutcome, balance: real, listed: bool)
    ensures outcome == Insufficient(10.0) && balance == 5.0 && listed
  {
    var l := OpenShop(7, 5.0, 1, 10.0);
    outcome := l.BuyProduct(1, 7);
    balance := l.users[7].balance;
    listed := 1 in l.products;
  }

  /**
   * A pending YooKassa payment polled twice while YooKassa answers
   * 'succeeded' both times: credited once, and 'succeeded' stays.
   */
  method FiatPolledTwice(id: string) returns (first: bool, second: bool, balance: real, status: Option<string>)
    requires id == "2d8f1c3a"
    ensures first && !second && balance == 12.5 && status == Some(Succeeded)
  {
    var l := OpenShop(7, 0.0, 1, 8.0);
    var r := l.RecordPayment(7, 1000.0, 80.0, ChargeReply(200, Some(id)));
    assert r.Ok? && r.value.1 == 12.5 by {
      assert (1000.0 / 80.0) * 100.0 == 1250.0;
      Round2Cents(12.5);
    }
    first := l.CheckAndUpdatePayment(id, Body(Some(Succeeded)));
    second := l.CheckAndUpdatePayment(id, Body(Some(Succeeded)));
    balance := l.users[7].balance;
    status := l.payments[id].status;
  }

  /**
   * A paid CryptoBot invoice checked twice: as written, the owner is
   * credited the invoice's amount twice.
   */
  method CryptoCheckedTwice(id: string) returns (balance: real)
    requires id == "4417"
    ensures balance == 10.0
  {
    var l := OpenShop(7, 0.0, 1, 8.0);
    var stored := l.RecordCryptoInvoice(id, 7, 5.0);
    var items := [Some(Invoice(id, Some(Paid)))];
    assert Matches(items[0], id);
    var a1 := l.CheckCryptoPaymentStatus(id, ResultObject(items));
    assert a1 == Some(Paid) && l.users[7].balance == 5.0;
    var a2 := l.CheckCryptoPaymentStatus(id, ResultObject(items));
    assert a2 == Some(Paid);
    balance := l.users[7].balance;
  }

  /**
   * The bulk sweep as written, with a paid pending invoice of 5.00: the
   * reply CryptoBot sends (a result object) is refused, a result list
   * reaches the failing UPDATE, and either way the balance stays 0.
   */
  method SweepAsWritten(id: string) returns (onObject: SweepOutcome, onList: SweepOutcome, balance: real)
    requires id == "4417"
    ensures onObject == WrongShape && onList == RolledBack(id) && balance == 0.0
  {
    var l := OpenShop(7, 0.0, 1, 8.0);
    var stored := l.RecordCryptoInvoice(id, 7, 5.0);
    var entries := [Some(Invoice(id, Some(Paid)))];
    assert PaidMatches(entries, id) == 1;
    onObject := l.CheckCryptoPayments(ResultObject(entries));
    onList := l.CheckCryptoPayments(ResultList(entries));
    balance := l.users[7].balance;
  }

  /**
   * The sweep with its update keyed by telegram_id, run twice over the
   * same list: the invoice is credited once and ends 'paid'.
   */
  method SweepTwice(id: string) returns (balance: real, status: string)
    requires id == "4417"
    ensures balance == 5.0 && status == Paid
  {
    var l := OpenShop(7, 0.0, 1, 8.0);
    var stored := l.RecordCryptoInvoice(id, 7, 5.0);
    var entries := [Some(Invoice(id, Some(Paid)))];
    assert PaidMatches(entries, id) == 1;
    ghost var users0, crypto0 := l.users, l.cryptoPayments;
    var order := l.SweepCryptoPayments(entries);
    assert id in PendingIds(crypto0);
    assert PendingIds(crypto0) == {id};
    assert order == [id];
    assert SweepCredits(users0, crypto0, entries, order) == SweepCredit(users0, crypto0, entries, id) by {
      assert order[1..] == [];
    }
    assert l.users[7].balance == 5.0;
    ghost var users1, crypto1 := l.users, l.cryptoPayments;
    var again := l.SweepCryptoPayments(entries);
    SecondSweepCreditsNothing(users1, crypto0, entries, order, again);
    balance := l.users[7].balance;
    status := l.cryptoPayments[id].status;
  }
}
