/**
 * Ids carried in Telegram callback data (handlers/handlers.py): the
 * handlers take `callback.data.split("_")[i]`, with i = 2 for
 * "check_payment_<id>", 3 for "check_crypto_payment_<id>" and 1, through
 * int(), for "page_<n>", "product_<n>" and "buy_<n>".
 */
module Callback {
  import opened Wrappers
  import opened Text

  /**
   * `data.split("_")[i]`, or None where Python raises IndexError: there is
   * a piece i exactly when data holds at least i underscores.
   */
  function Part(data: string, i: nat): (r: Option<string>)
    ensures r.Some? <==> i <= Occurrences(data, '_')
    ensures r.Some? ==> '_' !in r.value
  {
    var parts := Split(data, '_');
    if i < |parts| then Some(parts[i]) else None
  }

  /** `int(data.split("_")[i])`, None where Python raises. */
  function IntPart(data: string, i: nat): (r: Option<int>)
    ensures r.Some? ==> i <= Occurrences(data, '_') && ParseInt(Split(data, '_')[i]) == r
    ensures i <= Occurrences(data, '_') ==> r == ParseInt(Split(data, '_')[i])
  {
    match Part(data, i)
    case None => None
    case Some(piece) => ParseInt(piece)
  }

  /** A YooKassa payment id without underscores comes back whole from its button. */
  lemma PaymentIdOf(prefix: string, id: string)
    requires prefix == "check_payment_"
    requires '_' !in id
    ensures Part(prefix + id, 2) == Some(id)
  {
    assert prefix + id == "check" + ['_'] + ("payment" + ['_'] + id);
    SplitWhole(id, '_');
    SplitAfterPiece("payment", id, '_');
    SplitAfterPiece("check", "payment" + ['_'] + id, '_');
  }

  /**
   * An id that contains an underscore is cut at it: only the text before
   * its first underscore reaches check_and_update_payment.
   */
  lemma PaymentIdCut(prefix: string, head: string, tail: string)
    requires prefix == "check_payment_"
    requires '_' !in head
    ensures Part(prefix + head + ['_'] + tail, 2) == Some(head)
  {
    assert prefix + head + ['_'] + tail == "check" + ['_'] + ("payment" + ['_'] + (head + ['_'] + tail));
    SplitAfterPiece(head, tail, '_');
    SplitAfterPiece("payment", head + ['_'] + tail, '_');
    SplitAfterPiece("check", "payment" + ['_'] + (head + ['_'] + tail), '_');
  }

  /** A CryptoBot invoice id without underscores comes back whole from its button. */
  lemma InvoiceIdOf(prefix: string, id: string)
    requires prefix == "check_crypto_payment_"
    requires '_' !in id
    ensures Part(prefix + id, 3) == Some(id)
  {
    assert prefix == "check" + ['_'] + "crypto" + ['_'] + "payment" + ['_'];
    FourthPiece("check", "crypto", "payment", id);
  }

  /** Three underscore-free words and an id, joined by underscores: piece 3 is the id. */
  lemma FourthPiece(a: string, b: string, c: string, id: string)
    requires '_' !in a && '_' !in b && '_' !in c && '_' !in id
    ensures Part(a + ['_'] + b + ['_'] + c + ['_'] + id, 3) == Some(id)
  {
    assert a + ['_'] + b + ['_'] + c + ['_'] + id == a + ['_'] + (b + ['_'] + (c + ['_'] + id));
    SplitWhole(id, '_');
    SplitAfterPiece(c, id, '_');
    SplitAfterPiece(b, c + ['_'] + id, '_');
    SplitAfterPiece(a, b + ['_'] + (c + ['_'] + id), '_');
  }

  /** A one-word prefix and str(n): int() of piece 1 gives n back. */
  lemma NumberOf(word: string, n: int)
    requires word != [] && '_' !in word
    ensures IntPart(word + ['_'] + ShowInt(n), 1) == Some(n)
  {
    ShowIntShape(n);
    ParseShowInt(n);
    SplitWhole(ShowInt(n), '_');
    SplitAfterPiece(word, ShowInt(n), '_');
  }

  /** "buy_<n>", "product_<n>" and "page_<n>" all carry n. */
  lemma ProductIdOf(buy: string, product: string, page: string, n: int)
    requires buy == "buy" && product == "product" && page == "page"
    ensures IntPart(buy + ['_'] + ShowInt(n), 1) == Some(n)
    ensures IntPart(product + ['_'] + ShowInt(n), 1) == Some(n)
    ensures IntPart(page + ['_'] + ShowInt(n), 1) == Some(n)
  {
    NumberOf(buy, n);
    NumberOf(product, n);
    NumberOf(page, n);
  }
}
