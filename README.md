# Stored-value bus card ledger, modelled in Dafny

This project models the card endpoints of a prepaid bus-card service. A card
has an 8-digit identifier and an integer balance. Every change to a balance is
recorded in a ledger of transactions. Each entry holds the card identifier, a
signed amount, a description and a timestamp. The service has five endpoints:

- open a card, with a freshly drawn identifier and balance 0;
- read a card's balance;
- top up a card by 1000 to 1000000;
- pay a fare of 1000 to 100000 from a card, if its balance covers the fare;
- list a card's ledger entries in stored order.

The stored state is a class, `Controller.CardController`. It has two fields:
`cards`, a map from identifier to balance, and `transactions`, the ledger as a
sequence. Opening, topping up and paying are methods that update these fields
in place. Reading a balance and listing the history are functions that read
them. Each endpoint call is one sequential step.

The invariant `Controller.Consistent` holds in every reachable state:

- every stored identifier is eight digits and not all zeros;
- every balance is non-negative;
- every balance equals the net amount of that card's ledger entries;
- every entry names a stored card;
- every entry is a top-up entry or a payment entry within the amount bounds.

Every method preserves the invariant.

Files:

- `card_ids.dfy`, module `CardIds`: how an identifier is rendered from a
  random draw, zero-padded to eight digits, with the round trip back to the
  number. It also holds the identifier format check of the read endpoints.
- `transactions.dfy`, module `Transactions`: the entry datatype, a card's
  history, and the sum of amounts.
- `card_controller.dfy`, module `Controller`: the outcome datatype, the
  validation rules, the invariant, and the class with one member per endpoint.
  `Controller.Example` replays a worked example: top up 5000, pay 3000, then
  a refused payment of 5000.

Two points about the code that shape the model:

- The code takes a row lock (`CardController.php:73`, `:145`) but opens no
  database transaction, so the balance save and the ledger save are two
  separate writes. Each call is modelled as one step, and no crash atomicity
  is claimed.
- For top-up and payment, an unknown card fails the `exists` rule (`:61`,
  `:127`), so the answer is a validation error.

## Model

| member | source | states |
|---|---|---|
| `CardIds.CardIdOf` | app/Http/Controllers/CardController.php:18 | The identifier made from a draw is exactly eight ASCII digits. Read back as a number, it gives the draw. |
| `CardIds.PadLeft` | app/Http/Controllers/CardController.php:18 | `str_pad` with `STR_PAD_LEFT`: the result is the longer of the input and the width. The input is its suffix, and every character before it is the pad character. |
| `CardIds.Decimal` | app/Http/Controllers/CardController.php:18 | PHP's decimal text of a non-negative integer is at least one ASCII digit long. A positive number's text has no leading zero. |
| `CardIds.IsCardIdFormat` | app/Http/Controllers/CardController.php:44 | The intended meaning of `/^\d{8}$/`: a string that passes is all digits and denotes a number no larger than the largest draw. |
| `CardIds.MatchesPatternAsWritten` | app/Http/Controllers/CardController.php:44 | PCRE's rule for `$` without the `D` modifier: a string passes `/^\d{8}$/` exactly when, after at most one final newline is removed, it is eight ASCII digits. |
| `CardIds.DecimalValueInjective` | app/Http/Controllers/CardController.php:18 | Two digit strings of the same length that denote the same number are equal. |
| `CardIds.IssuableIsDrawn` | app/Http/Controllers/CardController.php:14-22 | A string can be generated from some draw exactly when it is eight digits and not all zeros. |
| `CardIds.DecimalRoundTrip` | app/Http/Controllers/CardController.php:18 | PHP's decimal text of a non-negative integer reads back as that integer. |
| `CardIds.ZerosPrefix` | app/Http/Controllers/CardController.php:18 | Left zero-padding does not change the number a digit string denotes. |
| `CardIds.CardIdNeverAllZeros` | app/Http/Controllers/CardController.php:18 | Draws start at 1, so the identifier is never "00000000". |
| `CardIds.CardIdInjective` | app/Http/Controllers/CardController.php:18 | Two draws give the same identifier exactly when they are equal. |
| `CardIds.AsWrittenAcceptsTrailingNewline` | app/Http/Controllers/CardController.php:44 | The pattern as written accepts any eight digits followed by a newline. Such a string is not a well-formed identifier. |
| `Transactions.HistoryMembers` | app/Http/Controllers/CardController.php:117 | A card's history holds exactly the ledger entries that name that card. |
| `Transactions.HistoryConcat` | app/Http/Controllers/CardController.php:117 | The history of a ledger made of two parts is the first part's history followed by the second's, so stored order is kept. |
| `Transactions.NetIsHistoryTotal` | app/Http/Controllers/CardController.php:117 | A card's net ledger amount equals the sum of the amounts in its history. |
| `Transactions.AppendNet` | app/Http/Controllers/CardController.php:84-89 | Appending an entry adds its amount to its own card's net amount. Every other card's net amount is unchanged. `RecordKeepsBalanced` is proved from it. |
| `Transactions.NetOfUnnamed` | app/Http/Controllers/CardController.php:29-32 | A card that no entry names has net amount 0. |
| `Controller.OpenKeepsConsistent` | app/Http/Controllers/CardController.php:27-32 | Adding an unused, issuable identifier with balance 0 keeps the invariant. |
| `Controller.RecordKeepsBalanced` | app/Http/Controllers/CardController.php:79-89 | Changing one balance by an amount and appending an entry of that amount keeps every balance equal to its ledger sum. `TopUpKeepsConsistent` and `PayKeepsConsistent` are proved from it. |
| `Controller.TopUpKeepsConsistent` | app/Http/Controllers/CardController.php:79-89 | A top-up of an in-range amount, recorded as `(c, +a, "Top-up saldo", now)`, keeps the invariant. |
| `Controller.PayKeepsConsistent` | app/Http/Controllers/CardController.php:154-171 | A fare the balance covers, recorded as `(c, -f, "Pembayaran tiket", now)`, keeps the invariant. In particular, the balance stays at least 0. |
| `Controller.CardIdRule` | app/Http/Controllers/CardController.php:61 | The `size:8` and `exists` rule fails on a missing id and on an unstored id. When every stored identifier is issuable, it passes exactly for a stored id in the eight-digit format. |
| `Controller.AmountRule` | app/Http/Controllers/CardController.php:62 | The definition of the `numeric`, `min` and `max` rule (also at :128): a present amount within the inclusive bounds. The `ValidationError` clauses of `TopUp` and `Pay` are stated with it. |
| `Controller.FormatRulesAgree` | app/Http/Controllers/CardController.php:61 | When every stored identifier is issuable, the `size:8`+`exists` rule and the pattern as written plus lookup accept the same identifiers. |
| `Controller.CardController.GenerateCardId` | app/Http/Controllers/CardController.php:14-22 | It returns the first draw whose identifier is not stored. That identifier is issuable and unused, and every earlier draw collided. It returns nothing only when every supplied draw collided. |
| `Controller.CardController.CreateCard` | app/Http/Controllers/CardController.php:25-38 | It adds exactly the generated identifier, with balance 0. No other card and no ledger entry changes. |
| `Controller.CardController.GetBalance` | app/Http/Controllers/CardController.php:41-55 | It answers `InvalidFormat` exactly when the id is not eight digits, whether or not the card exists. It answers `NotFound` exactly for a well-formed unknown id. Otherwise it answers the stored balance, which is at least 0 and equals the card's ledger sum. |
| `Controller.CardController.GetBalanceAsWritten` | app/Http/Controllers/CardController.php:41-55 | This is the balance endpoint with the format check PCRE actually runs. In a consistent state it answers `NotFound` for eight digits followed by a newline, where the intended check answers `InvalidFormat`. On every other input it answers as `GetBalance` does. |
| `Controller.CardController.GetTransactions` | app/Http/Controllers/CardController.php:104-120 | The same format and lookup outcomes as `GetBalance`. On success it answers the card's history: the ledger entries that name the card, in stored order, with repeats kept. Its members are exactly those entries, and their amounts sum to the card's balance. |
| `Controller.CardController.GetTransactionsAsWritten` | app/Http/Controllers/CardController.php:104-120 | This is the history endpoint with the format check PCRE actually runs. In a consistent state it answers `NotFound` for eight digits followed by a newline, where the intended check answers `InvalidFormat`. On every other input it answers as `GetTransactions` does. |
| `Controller.CardController.TopUp` | app/Http/Controllers/CardController.php:58-102 | A failed rule answers `ValidationError` naming the failed fields and changes nothing. Otherwise it adds the amount to the balance, appends exactly one entry `(c, +a, "Top-up saldo", now)` and answers the new balance. Other cards are unchanged. |
| `Controller.CardController.Pay` | app/Http/Controllers/CardController.php:123-187 | A failed rule answers `ValidationError` and changes nothing. A fare above the balance answers `InsufficientFunds` with the current balance and changes nothing. Otherwise it subtracts the fare, appends exactly one entry `(c, -f, "Pembayaran tiket", now)`, and answers the remaining balance (at least 0) and the new entry's id. |

## Left out

- Concurrency and the row lock (`lockForUpdate`) are not modelled: each endpoint call is one sequential step. No crash atomicity between the balance save and the ledger save is claimed, since the code opens no database transaction.
- The defensive "card not found" check after the lock is not modelled: the validator has just checked that the card exists, and in a sequential model that check cannot fail.
- The `catch (\Exception)` paths that answer status 500 are left out. They report storage failures from the persistence layer.
- HTTP routing, status codes, JSON response shapes and the human-readable error and success messages are left out. Each outcome keeps only its kind and the numbers it returns. The two ledger descriptions are kept as data.
- `Controller.CardController.GenerateCardId`: it takes a finite sequence of draws in place of `mt_rand` and answers `None` when every draw collides. The code would keep drawing, and could loop forever once all identifiers are taken. The random distribution is not modelled.
- The clock `now()` is a parameter, `now`, of the top-up and payment methods.
- Request fields are `Option` values. `None` stands for a field that is missing or has the wrong type. Amounts and fares are integers in minor units, so the non-integer numbers that the `numeric` rule admits are not modelled.
- A validation error carries the set of fields whose rules failed, not the validator's per-rule messages. Request pre-processing by framework middleware, such as trimming strings, is not part of this model.
- The new entry's id (`transaction_id`) is modelled as the entry's 1-based position in the ledger. This assumes auto-increment ids with no gaps.
- `app/Models/Card.php` and its `transactions` relation are not part of this model. The relation is taken to be keyed on `card_id`, as `Transaction::card` is, and to return entries in stored order.
- The balance column's integer width is not modelled; balances are unbounded integers.
- Identifier lookups (`exists:cards,card_id` at :61 and :127, `where('card_id', …)` at :19, :48, :73, :111 and :145) compare strings exactly; database collation is not modelled.
- The authenticated `/user` route closure is left out.

## Findings

| source | as written | input that shows it | evidently intended | confidence | as-written member | corrected member |
|---|---|---|---|---|---|---|
| app/Http/Controllers/CardController.php:44 | `preg_match('/^\d{8}$/', $card_id)` has no `D` modifier. In PCRE, `$` then also matches just before a final newline, so eight digits followed by `"\n"` pass the format check. The balance endpoint then looks the string up and answers "not found" (404) instead of "invalid format" (400). | card id `"12345678\n"` (path segment `12345678%0A`) | Accept exactly eight digits and nothing else (`IsCardIdFormat`). | medium; not executed | `Controller.CardController.GetBalanceAsWritten` | `Controller.CardController.GetBalance` |
| app/Http/Controllers/CardController.php:107 | The history endpoint runs the same `preg_match('/^\d{8}$/', $card_id)` without the `D` modifier. Eight digits followed by `"\n"` pass the check and are looked up, so the answer is "not found" (404) instead of "invalid format" (400). | card id `"12345678\n"` | Accept exactly eight digits and nothing else (`IsCardIdFormat`). | medium; not executed | `Controller.CardController.GetTransactionsAsWritten` | `Controller.CardController.GetTransactions` |
