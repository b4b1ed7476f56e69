# fin-api account book, modelled in Dafny

fin-api is a small banking demo service. It registers users by CPF, the
Brazilian taxpayer number. It keeps a statement of credit and debit
operations for each user and computes balances from that statement. All
state lives in one in-memory array, `users`. Registration reads `cpf` from
the request body and refuses a CPF that is already taken. Every other route
handler first looks the caller up by the `cpf` request header, then reads or
changes that user's record.

The model has three files:

- `wrappers.dfy`: the `Option`, `Result` and `Outcome` datatypes that carry
  the handlers' error answers.
- `ledger.dfy` (module `Ledger`): the pure accounting rules. It holds the
  `Operation` record, the balance as a left fold (`getBalance`) whose
  contract ties it to a reference definition (total credits minus
  everything else), and the statement filtered by calendar day.
- `fin_api.dfy` (module `FinApi`): the mutable account book.
  - Class `Account` has the fields `cpf`, `name`, `id` and `statement`. The
    fields `cpf` and `id` are written once.
  - Class `App` holds `users: seq<Account>` and has one method per route
    handler. `Valid()` says that CPFs are unique, and every mutating handler
    keeps it.
  - `IndexOf` specifies the first-match lookup.
  - Two client methods (`BalanceSession`, `DeleteSession`) show what a
    caller can prove from the contracts alone.

Failures are values of `Error`: `NotRegistered`, `AlreadyRegistered` and
`InsufficientFunds`. They stand for the HTTP 400 answers.

In two places the model keeps the code's surprising behaviour:

- A date query that does not parse does not fail. The code compares the
  string `"Invalid Date"` with the creation dates, and that comparison never
  matches, so the answer is an empty list. `FilterByDay` with `None`
  returns `[]`.
- Delete removes `users[0]`, whoever the caller is. The handler is
  modelled as written, and a corrected version sits beside it (see
  Findings).

## Model

| member | source | states |
|---|---|---|
| `Ledger.FoldLeft` | src/index.js:29-35 | the `reduce` is a left-to-right fold; started at any accumulator it adds every "credit" amount and subtracts the amount of every operation of any other type |
| `Ledger.Balance` | src/index.js:27-38 | `getBalance` is that fold started at 0, so it equals the sum of the credit amounts minus the sum of the other amounts; an empty statement has balance 0 |
| `Ledger.TotalsConcat` | src/index.js:27-38 | credit and debit totals of a concatenated statement are the sums of the parts' totals |
| `Ledger.BalanceConcat` | src/index.js:27-38 | the balance of two statement parts joined is the sum of their balances |
| `Ledger.BalanceAppend` | src/index.js:27-38 | appending one operation moves the balance by exactly +amount for a credit and -amount otherwise |
| `Ledger.BalancePermutation` | src/index.js:27-38 | two statements holding the same operations in any order have the same balance |
| `Ledger.FilterByDay` | src/index.js:74-79 | the day filter keeps at most as many operations as the statement has; an operation is kept iff it is on the statement and was created on the target day, with its multiplicity; an unparseable date keeps nothing |
| `Ledger.FilterSelectsExactly` | src/index.js:75-79 | the filtered statement is read off the statement at strictly increasing positions, and those positions are exactly the ones holding an operation of the target day |
| `Ledger.FilterSeparatesDays` | src/index.js:74-79 | on a statement with operations of days D and D+1, the query for D returns exactly the day-D ones and the query for D+1 exactly the others |
| `FinApi.IndexOf` | src/index.js:18 | the found position holds the CPF and no earlier position does; nothing is found iff no user has that CPF |
| `FinApi.FirstMatch` | src/index.js:18 | a position holding the CPF with no earlier one holding it is the position the lookup finds |
| `FinApi.RemoveAtKeepsOthers` | src/index.js:153-158 | removing one account leaves every other CPF registered, and it still resolves to the same account object |
| `FinApi.AsWrittenDeleteRemovesFirstAccount` | src/index.js:156 | with unique CPFs and the caller not first, deleting as written keeps the caller registered (one position earlier) and the first account is no longer found |
| `FinApi.Account.constructor` | src/index.js:51-56 | a new account carries the given cpf, name and id and an empty statement |
| `FinApi.App.constructor` | src/index.js:11 | the application starts with no users, which satisfies CPF uniqueness |
| `FinApi.App.FindUser` | src/index.js:15-24 | the lookup succeeds iff some user has that CPF, and then returns the first such user; it changes nothing |
| `FinApi.App.NewAccount` | src/index.js:42-58 | with an existing CPF it fails with AlreadyRegistered and leaves `users` unchanged; otherwise it appends exactly one fresh account with that cpf, name and id and an empty statement, keeps earlier users in place, makes the CPF resolve to it, and keeps CPFs unique |
| `FinApi.App.GetStatement` | src/index.js:62-66 | an unknown CPF gives NotRegistered; otherwise the answer is the caller's whole statement |
| `FinApi.App.GetStatementByDate` | src/index.js:70-82 | an unknown CPF gives NotRegistered; otherwise the answer is the caller's statement filtered to the target day |
| `FinApi.App.GetBalance` | src/index.js:86-92 | an unknown CPF gives NotRegistered; otherwise the answer is the caller's credits minus the rest |
| `FinApi.App.GetAccount` | src/index.js:96-100 | an unknown CPF gives NotRegistered; otherwise the answer is the caller's account object, which is in `users` and has that CPF |
| `FinApi.App.Deposit` | src/index.js:104-116 | an unknown CPF gives NotRegistered and changes nothing; otherwise exactly one credit with the given description, amount and day is appended to the caller's statement, all names and all other statements are unchanged, and the caller's balance rises by exactly the amount |
| `FinApi.App.Withdraw` | src/index.js:120-138 | an unknown CPF gives NotRegistered; a balance below the amount gives InsufficientFunds and leaves every statement unchanged; otherwise exactly one debit is appended to the caller's statement, the balance falls by exactly the amount and is not negative, and every other user is unchanged |
| `FinApi.App.UpdateAccount` | src/index.js:142-149 | an unknown CPF gives NotRegistered; otherwise only the caller's name becomes the new name; all statements and all other names are unchanged, and cpf and id are constants |
| `FinApi.App.DeleteAccountAsWritten` | src/index.js:153-159 | an unknown CPF gives NotRegistered and changes nothing; otherwise `users` loses its first element whatever the CPF, CPFs stay unique, and the answer is the remaining users |
| `FinApi.App.DeleteAccount` | src/index.js:153-159 | corrected delete: the caller's account is removed at its own position; afterwards the CPF is not registered, and every other CPF is registered exactly when it was before |

## Left out

- HTTP layer: the Express app, the JSON middleware, routing, status codes, response bodies and `app.listen` (src/index.js:1-7, 161). Each answer is reduced to the `Error` value or the data returned.
- Identifier generation: `uuidv4` is a foreign library, so the new account's `id` is a parameter of `NewAccount`. The unused `id` at src/index.js:50 is dead code and is not modelled. Nothing makes ids unique.
- Clock and date parsing: `new Date()` at deposit and withdraw time becomes a `today` parameter. Parsing `date + " 00:00"` and comparing `toDateString()` in the local time zone are not modelled. An operation keeps only its calendar day (`Day`), and the query date arrives already parsed as `Option<Day>`, with `None` standing for a string that does not parse.
- JavaScript values: amounts are modelled as unbounded integers. Floating point and string coercion of untyped request bodies (a string amount would concatenate in the fold) are not modelled. CPF, name and description are strings. A missing `cpf` header (`undefined`) and a numeric CPF in the request body, which can never equal a header string, are not modelled.
- Aliasing of `request.user`: the middleware hands the handler a reference to the live account. The model resolves the account inside each handler method, which gives the same result because nothing runs in between.
- Concurrency: withdraw's read-check-append race does not arise in this single-threaded model.
- Amount validation: the code checks nothing, so deposits may carry zero or negative amounts. A negative deposit can therefore make a balance negative. Only a successful withdraw guarantees a non-negative balance.

## Findings

| source | as written | input that shows it | evidently intended | confidence | as-written member | corrected member |
|---|---|---|---|---|---|---|
| src/index.js:156 | `users.splice(user, 1)` passes the account object as the start position; it converts to NaN, which `splice` treats as 0, so the first registered account is removed | accounts "111" then "222" registered; `DELETE /account` with cpf "222" removes "111", and "222" stays registered | remove the caller's own account | high (not executed) | `FinApi.App.DeleteAccountAsWritten`, with `FinApi.AsWrittenDeleteRemovesFirstAccount` | `FinApi.App.DeleteAccount` |
