/** The card endpoints: opening a card, reading its balance and history,
    topping it up and paying a fare from it. The stored state is the table of
    cards (identifier to balance) and the ledger of entries; each endpoint
    call is one sequential step on that state. */
module Controller {
  import opened CardIds
  import opened Transactions

  datatype Option<T> = None | Some(value: T)

  /** A request field that a validation rule can reject. */
  datatype Field = CardIdField | AmountField | FareField

  /** What an endpoint answers: a value, or one of the failures it reports. */
  datatype Outcome<T> =
    | Ok(value: T)
    | InvalidFormat
    | ValidationError(failed: set<Field>)
    | NotFound
    | InsufficientFunds(currentBalance: int)

  /** Answer of the balance endpoint. */
  datatype BalanceInfo = BalanceInfo(cardId: string, balance: int)

  /** Answer of the payment endpoint: the balance left and the new entry's id. */
  datatype Payment = Payment(remainingBalance: int, transactionId: nat)

  const MinTopUp: int := 1000
  const MaxTopUp: int := 1000000
  const MinFare: int := 1000
  const MaxFare: int := 100000

  /** The rule `required|string|size:8|exists:cards,card_id`; `None` stands
      for a field that is missing or is not a string. It checks the length
      only, but on a table of issuable identifiers that is the same as the
      eight-digit format plus lookup. */
  function CardIdRule(cards: map<string, int>, cardId: Option<string>): (r: bool)
    ensures r ==> cardId.Some? && cardId.value in cards
    ensures IssuableIds(cards) ==>
      (r <==> cardId.Some? && IsCardIdFormat(cardId.value) && cardId.value in cards)
  {
    cardId.Some? && |cardId.value| == IdWidth && cardId.value in cards
  }

  /** The rule `required|numeric|min:lo|max:hi`; `None` stands for a field
      that is missing or is not numeric. */
  predicate AmountRule(amount: Option<int>, lo: int, hi: int) {
    amount.Some? && lo <= amount.value <= hi
  }

  /** The fields whose rules failed. */
  function Failures(cardIdOk: bool, amountOk: bool, amountField: Field): set<Field> {
    (if cardIdOk then {} else {CardIdField}) + (if amountOk then {} else {amountField})
  }

  /** An entry as the top-up and payment endpoints write it. */
  predicate IsRecordedEntry(t: Transaction) {
    || (t.description == TopUpDescription && MinTopUp <= t.amount <= MaxTopUp)
    || (t.description == PaymentDescription && MinFare <= -t.amount <= MaxFare)
  }

  /** Every stored card has an identifier the generator can issue. */
  ghost predicate IssuableIds(cards: map<string, int>) {
    forall id :: id in cards ==> IsIssuable(id)
  }

  /** Every stored balance is non-negative and equals the sum of the amounts
      of that card's ledger entries. */
  ghost predicate Balanced(cards: map<string, int>, log: seq<Transaction>) {
    forall id :: id in cards ==> 0 <= cards[id] == Net(log, id)
  }

  /** Every ledger entry names a stored card and is written as the top-up or
      payment endpoint writes it. */
  ghost predicate EntriesRecorded(cards: map<string, int>, log: seq<Transaction>) {
    forall t :: t in log ==> t.cardId in cards && IsRecordedEntry(t)
  }

  /** The invariant of the stored state. */
  ghost predicate Consistent(cards: map<string, int>, log: seq<Transaction>) {
    IssuableIds(cards) && Balanced(cards, log) && EntriesRecorded(cards, log)
  }

  /** Adding a new card with balance 0 keeps the state consistent. */
  lemma OpenKeepsConsistent(cards: map<string, int>, log: seq<Transaction>, id: string)
    requires Consistent(cards, log)
    requires id !in cards && IsIssuable(id)
    ensures Consistent(cards[id := 0], log)
  {
    NetOfUnnamed(log, id);
  }

  /** Changing the balance of the card that entry `t` names by the entry's
      amount, and appending `t` to the ledger, keeps every balance equal to
      its ledger sum. */
  lemma RecordKeepsBalanced(cards: map<string, int>, log: seq<Transaction>, t: Transaction)
    requires Balanced(cards, log)
    requires t.cardId in cards && 0 <= cards[t.cardId] + t.amount
    ensures Balanced(cards[t.cardId := cards[t.cardId] + t.amount], log + [t])
  {
    forall id | id in cards {
      AppendNet(log, t, id);
    }
  }

  /** Crediting a card and recording the credit keeps the state consistent. */
  lemma TopUpKeepsConsistent(cards: map<string, int>, log: seq<Transaction>, c: string, amount: int, now: Timestamp)
    requires Consistent(cards, log)
    requires c in cards && MinTopUp <= amount <= MaxTopUp
    ensures Consistent(cards[c := cards[c] + amount], log + [Transaction(c, amount, TopUpDescription, now)])
  {
    RecordKeepsBalanced(cards, log, Transaction(c, amount, TopUpDescription, now));
  }

  /** Debiting a fare the balance covers, and recording the debit, keeps the
      state consistent; in particular the balance stays non-negative. */
  lemma PayKeepsConsistent(cards: map<string, int>, log: seq<Transaction>, c: string, fare: int, now: Timestamp)
    requires Consistent(cards, log)
    requires c in cards && MinFare <= fare <= MaxFare && fare <= cards[c]
    ensures Consistent(cards[c := cards[c] - fare], log + [Transaction(c, -fare, PaymentDescription, now)])
  {
    RecordKeepsBalanced(cards, log, Transaction(c, -fare, PaymentDescription, now));
  }

  /** The top-up and payment endpoints check only the length of the
      identifier and that it is stored; the read endpoints check the
      pattern. On a table of issuable identifiers the pattern as written,
      plus lookup, accepts the same stored identifiers as the length rule. */
  lemma FormatRulesAgree(cards: map<string, int>, s: string)
    requires IssuableIds(cards)
    ensures CardIdRule(cards, Some(s)) <==> MatchesPatternAsWritten(s) && s in cards
  {
  }

  /** The stored state of the card endpoints. */
  class CardController {
    /** The `cards` table: identifier to balance. */
    var cards: map<string, int>
    /** The `transactions` table, in the order the entries were stored. */
    var transactions: seq<Transaction>

    ghost predicate Valid()
      reads this
    {
      Consistent(cards, transactions)
    }

    constructor ()
      ensures Valid()
      ensures cards == map[] && transactions == []
    {
      cards := map[];
      transactions := [];
    }

    /** Draws identifiers until one is not a stored card. The draws are
        supplied in order; if every one of them is taken the answer is
        `None`, where `generateCardId` keeps drawing. */
    method GenerateCardId(draws: seq<Draw>) returns (id: Option<string>)
      ensures id.Some? ==> IsIssuable(id.value) && id.value !in cards
      ensures id.Some? ==>
        exists k :: 0 <= k < |draws| && id.value == CardIdOf(draws[k])
          && forall j :: 0 <= j < k ==> CardIdOf(draws[j]) in cards
      ensures id.None? ==> forall j :: 0 <= j < |draws| ==> CardIdOf(draws[j]) in cards
    {
      var i := 0;
      while i < |draws|
        invariant 0 <= i <= |draws|
        invariant forall j :: 0 <= j < i ==> CardIdOf(draws[j]) in cards
      {
        var candidate := CardIdOf(draws[i]);
        if candidate !in cards {
          CardIdNeverAllZeros(draws[i]);
          return Some(candidate);
        }
        i := i + 1;
      }
      return None;
    }

    /** Opens a card with a fresh identifier and balance 0. */
    method CreateCard(draws: seq<Draw>) returns (id: Option<string>)
      requires Valid()
      modifies this
      ensures Valid()
      ensures transactions == old(transactions)
      ensures id.None? ==> cards == old(cards)
      ensures id.None? ==> forall j :: 0 <= j < |draws| ==> CardIdOf(draws[j]) in old(cards)
      ensures id.Some? ==> IsIssuable(id.value) && id.value !in old(cards)
      ensures id.Some? ==> cards == old(cards)[id.value := 0]
      ensures id.Some? ==> exists k :: 0 <= k < |draws| && id.value == CardIdOf(draws[k])
    {
      id := GenerateCardId(draws);
      if id.Some? {
        OpenKeepsConsistent(cards, transactions, id.value);
        cards := cards[id.value := 0];
      }
    }

    /** The balance endpoint: format check first, then lookup. */
    function GetBalance(cardId: string): (r: Outcome<BalanceInfo>)
      reads this
      ensures r.Ok? || r.InvalidFormat? || r.NotFound?
      ensures r.InvalidFormat? <==> !IsCardIdFormat(cardId)
      ensures r.NotFound? <==> IsCardIdFormat(cardId) && cardId !in cards
      ensures r.Ok? ==> cardId in cards && r.value == BalanceInfo(cardId, cards[cardId])
      ensures r.Ok? && Valid() ==>
        0 <= r.value.balance == Net(transactions, cardId)
    {
      if !IsCardIdFormat(cardId) then InvalidFormat
      else if cardId !in cards then NotFound
      else Ok(BalanceInfo(cardId, cards[cardId]))
    }

    /** The balance endpoint with its format check as PCRE evaluates
        `/^\d{8}$/`. On a consistent state it answers as `GetBalance` does,
        except on eight digits followed by a newline: these pass the check,
        are looked up, and are not found. */
    function GetBalanceAsWritten(cardId: string): (r: Outcome<BalanceInfo>)
      reads this
      ensures Valid() && MatchesPatternAsWritten(cardId) && !IsCardIdFormat(cardId) ==>
        r == NotFound && GetBalance(cardId) == InvalidFormat
      ensures Valid() && (IsCardIdFormat(cardId) || !MatchesPatternAsWritten(cardId)) ==>
        r == GetBalance(cardId)
    {
      if !MatchesPatternAsWritten(cardId) then InvalidFormat
      else if cardId !in cards then NotFound
      else Ok(BalanceInfo(cardId, cards[cardId]))
    }

    /** The history endpoint: format check first, then lookup, then the
        card's entries in stored order. */
    function GetTransactions(cardId: string): (r: Outcome<seq<Transaction>>)
      reads this
      ensures r.Ok? || r.InvalidFormat? || r.NotFound?
      ensures r.InvalidFormat? <==> !IsCardIdFormat(cardId)
      ensures r.NotFound? <==> IsCardIdFormat(cardId) && cardId !in cards
      ensures r.Ok? ==> cardId in cards
      ensures r.Ok? ==> r.value == History(transactions, cardId)
      ensures r.Ok? ==> forall t :: t in r.value <==> t in transactions && t.cardId == cardId
      ensures r.Ok? && Valid() ==> Total(r.value) == cards[cardId]
    {
      if !IsCardIdFormat(cardId) then InvalidFormat
      else if cardId !in cards then NotFound
      else
        HistoryMembers(transactions, cardId);
        NetIsHistoryTotal(transactions, cardId);
        Ok(History(transactions, cardId))
    }

    /** The history endpoint with its format check as PCRE evaluates
        `/^\d{8}$/`. On a consistent state it answers as `GetTransactions`
        does, except on eight digits followed by a newline: these pass the
        check, are looked up, and are not found. */
    function GetTransactionsAsWritten(cardId: string): (r: Outcome<seq<Transaction>>)
      reads this
      ensures Valid() && MatchesPatternAsWritten(cardId) && !IsCardIdFormat(cardId) ==>
        r == NotFound && GetTransactions(cardId) == InvalidFormat
      ensures Valid() && (IsCardIdFormat(cardId) || !MatchesPatternAsWritten(cardId)) ==>
        r == GetTransactions(cardId)
    {
      if !MatchesPatternAsWritten(cardId) then InvalidFormat
      else if cardId !in cards then NotFound
      else Ok(History(transactions, cardId))
    }

    /** The top-up endpoint: validate, credit the card, record the credit,
        answer the new balance. */
    method TopUp(cardId: Option<string>, amount: Option<int>, now: Timestamp) returns (r: Outcome<int>)
      requires Valid()
      modifies this
      ensures Valid()
      ensures r.Ok? || r.ValidationError?
      ensures r.ValidationError? <==>
        !(CardIdRule(old(cards), cardId) && AmountRule(amount, MinTopUp, MaxTopUp))
      ensures r.ValidationError? ==>
        && r.failed == Failures(CardIdRule(old(cards), cardId), AmountRule(amount, MinTopUp, MaxTopUp), AmountField)
        && cards == old(cards) && transactions == old(transactions)
      ensures r.Ok? ==>
        var c, a := cardId.value, amount.value;
        && cards == old(cards)[c := old(cards)[c] + a]
        && transactions == old(transactions) + [Transaction(c, a, TopUpDescription, now)]
        && r.value == cards[c]
    {
      var cardIdOk := CardIdRule(cards, cardId);
      var amountOk := AmountRule(amount, MinTopUp, MaxTopUp);
      if !(cardIdOk && amountOk) {
        return ValidationError(Failures(cardIdOk, amountOk, AmountField));
      }
      var c, a := cardId.value, amount.value;
      TopUpKeepsConsistent(cards, transactions, c, a, now);
      cards := cards[c := cards[c] + a];
      transactions := transactions + [Transaction(c, a, TopUpDescription, now)];
      r := Ok(cards[c]);
    }

    /** The payment endpoint: validate, check that the balance covers the
        fare, debit the card, record the debit, answer the remaining balance
        and the new entry's id (its 1-based position in the ledger). */
    method Pay(cardId: Option<string>, fare: Option<int>, now: Timestamp) returns (r: Outcome<Payment>)
      requires Valid()
      modifies this
      ensures Valid()
      ensures r.Ok? || r.ValidationError? || r.InsufficientFunds?
      ensures r.ValidationError? <==>
        !(CardIdRule(old(cards), cardId) && AmountRule(fare, MinFare, MaxFare))
      ensures r.ValidationError? ==>
        && r.failed == Failures(CardIdRule(old(cards), cardId), AmountRule(fare, MinFare, MaxFare), FareField)
        && cards == old(cards) && transactions == old(transactions)
      ensures r.InsufficientFunds? <==>
        && CardIdRule(old(cards), cardId) && AmountRule(fare, MinFare, MaxFare)
        && old(cards)[cardId.value] < fare.value
      ensures r.InsufficientFunds? ==>
        && r.currentBalance == old(cards)[cardId.value]
        && cards == old(cards) && transactions == old(transactions)
      ensures r.Ok? ==>
        var c, f := cardId.value, fare.value;
        && cards == old(cards)[c := old(cards)[c] - f]
        && transactions == old(transactions) + [Transaction(c, -f, PaymentDescription, now)]
        && r.value == Payment(cards[c], |transactions|)
        && cards[c] >= 0
    {
      var cardIdOk := CardIdRule(cards, cardId);
      var fareOk := AmountRule(fare, MinFare, MaxFare);
      if !(cardIdOk && fareOk) {
        return ValidationError(Failures(cardIdOk, fareOk, FareField));
      }
      var c, f := cardId.value, fare.value;
      if cards[c] < f {
        return InsufficientFunds(cards[c]);
      }
      PayKeepsConsistent(cards, transactions, c, f, now);
      cards := cards[c := cards[c] - f];
      transactions := transactions + [Transaction(c, -f, PaymentDescription, now)];
      r := Ok(Payment(cards[c], |transactions|));
    }
  }

  /** The worked example: open a card, top up 5000, pay 3000, then try to
      pay 5000 from the 2000 that are left. */
  method Example(d: Draw, now: Timestamp)
  {
    var store := new CardController();
    assert CardIdOf([d][0]) !in store.cards;
    var id := store.CreateCard([d]);
    assert id.Some?;
    var c := id.value;
    assert store.GetBalance(c) == Ok(BalanceInfo(c, 0));
    var up := store.TopUp(Some(c), Some(5000), now);
    assert up == Ok(5000);
    var paid := store.Pay(Some(c), Some(3000), now);
    assert paid == Ok(Payment(2000, 2));
    var refused := store.Pay(Some(c), Some(5000), now);
    assert refused == InsufficientFunds(2000);
    assert store.GetBalance(c) == Ok(BalanceInfo(c, 2000));
    assert |store.transactions| == 2;
    assert store.GetBalance("abc") == InvalidFormat;
  }
}
