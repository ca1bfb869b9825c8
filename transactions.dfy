/** Ledger entries (the `transactions` table) and the per-card view of the
    ledger that the history endpoint returns. */
module Transactions {

  /** The moment an entry is committed, supplied by the caller in place of `now()`. */
  type Timestamp = int

  /** Description written on a top-up entry. */
  const TopUpDescription: string := "Top-up saldo"

  /** Description written on a fare-payment entry. */
  const PaymentDescription: string := "Pembayaran tiket"

  /** One ledger entry: a signed amount, positive for a credit and negative
      for a debit, against the card with identifier `cardId`. */
  datatype Transaction = Transaction(
    cardId: string,
    amount: int,
    description: string,
    transactionDate: Timestamp)

  /** The entries of one card, in the order they were stored. */
  function History(log: seq<Transaction>, cardId: string): (h: seq<Transaction>)
    ensures |h| <= |log|
  {
    if log == [] then []
    else
      var init, last := log[..|log| - 1], log[|log| - 1];
      History(init, cardId) + if last.cardId == cardId then [last] else []
  }

  /** The history of a card holds exactly the entries that name it. */
  lemma {:induction false} HistoryMembers(log: seq<Transaction>, cardId: string)
    ensures forall t :: t in History(log, cardId) <==> t in log && t.cardId == cardId
  {
    if log != [] {
      var init, last := log[..|log| - 1], log[|log| - 1];
      assert log == init + [last];
      HistoryMembers(init, cardId);
    }
  }

  /** The sum of the amounts of a list of entries. */
  function Total(h: seq<Transaction>): int {
    if h == [] then 0 else Total(h[..|h| - 1]) + h[|h| - 1].amount
  }

  /** The history of a ledger made of two stretches is the history of the
      first followed by that of the second: stored order is kept. */
  lemma {:induction false} HistoryConcat(a: seq<Transaction>, b: seq<Transaction>, cardId: string)
    ensures History(a + b, cardId) == History(a, cardId) + History(b, cardId)
  {
    if b == [] {
      assert a + b == a;
    } else {
      var ab, init, last := a + b, b[..|b| - 1], b[|b| - 1];
      var tail := if last.cardId == cardId then [last] else [];
      assert ab[..|ab| - 1] == a + init && ab[|ab| - 1] == last;
      assert History(ab, cardId) == History(a + init, cardId) + tail;
      assert History(b, cardId) == History(init, cardId) + tail;
      HistoryConcat(a, init, cardId);
    }
  }

  lemma {:induction false} TotalConcat(a: seq<Transaction>, b: seq<Transaction>)
    ensures Total(a + b) == Total(a) + Total(b)
  {
    if b == [] {
      assert a + b == a;
    } else {
      var ab := a + b;
      assert ab[..|ab| - 1] == a + b[..|b| - 1];
      TotalConcat(a, b[..|b| - 1]);
    }
  }

  /** The net amount the ledger records for one card: the sum of the
      amounts of the entries that name it. */
  function Net(log: seq<Transaction>, cardId: string): int {
    if log == [] then 0
    else
      var last := log[|log| - 1];
      Net(log[..|log| - 1], cardId) + if last.cardId == cardId then last.amount else 0
  }

  /** The net amount of a card is the total of its history. */
  lemma {:induction false} NetIsHistoryTotal(log: seq<Transaction>, cardId: string)
    ensures Net(log, cardId) == Total(History(log, cardId))
  {
    if log != [] {
      var init, last := log[..|log| - 1], log[|log| - 1];
      NetIsHistoryTotal(init, cardId);
      var tail := if last.cardId == cardId then [last] else [];
      TotalConcat(History(init, cardId), tail);
      assert Total(tail) == if last.cardId == cardId then last.amount else 0 by {
        assert [last][..0] == [];
      }
    }
  }

  /** Appending one entry adds its amount to the net amount of its own card
      and leaves that of every other card as it was. */
  lemma AppendNet(log: seq<Transaction>, t: Transaction, cardId: string)
    ensures Net(log + [t], cardId) == Net(log, cardId) + if t.cardId == cardId then t.amount else 0
  {
  }

  /** A card that no entry names has net amount 0. */
  lemma {:induction false} NetOfUnnamed(log: seq<Transaction>, cardId: string)
    requires forall t :: t in log ==> t.cardId != cardId
    ensures Net(log, cardId) == 0
  {
    if log != [] {
      var init := log[..|log| - 1];
      assert forall t :: t in init ==> t in log;
      NetOfUnnamed(init, cardId);
    }
  }
}
