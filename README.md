# Gold wallet mock backend in Dafny

This project models `MockBackendService`, the in-browser ledger of a digital
gold wallet. The service keeps four collections: registered users (each with a
gold balance in grams), the single current gold price in BDT per gram, one
instruction text per payment method, and the transaction ledger, newest first.
It also keeps a session that points at the logged-in user. Its operations
register and log in users, edit profiles, set the price, edit payment
instructions, open BUY and SELL requests, and let an admin approve or reject
them.

The project has four modules:
- `Types` (`types.dfy`) holds the records and enumerations of `types.ts`.
  `ApiResponse` becomes `Result`, with one `Error` constructor per kind of
  failure (the three "user not found" messages share `UserNotFound`).
- `Lookup` (`lookup.dfy`) holds the first-match search behind every
  `find`/`findIndex` call.
- `Ledger` (`ledger.dfy`) describes the whole state as a value (`Store`). Each
  operation is a function from the old store to the new store and the
  response (`Step`). `Consistent` is the store invariant:
  - the price is positive;
  - user ids are unique, and so are emails;
  - every transaction's owner is registered;
  - every balance equals what the ledger says, `Holdings`: approved BUYs
    credit their grams, pending and approved SELLs debit theirs, and
    rejected transactions count nothing.
- `LedgerProperties` (`ledger_properties.dfy`) proves what the operations
  guarantee together. Each operation keeps `Consistent`. A transaction is
  settled at most once. Creating a transaction and then settling it moves the
  owner's balance by exactly the settled effect. A SELL followed by a REJECT
  restores every balance. `getUserTransactions` returns exactly the user's
  transactions in ledger order. While no transaction carries negative grams,
  register, updateUser, createTransaction and processTransaction keep every
  balance non-negative, and a non-negative amount gives non-negative grams.
  login, logout, setGoldPrice and updatePaymentMethod leave the users and the
  ledger as they were, by their own contracts.
- `MockBackend` (`mock_backend.dfy`) is the class `MockBackendService`. Its
  fields are the collections and the session. Its methods update the fields
  step by step, as the TypeScript does. Each method is proved to perform
  exactly the step of the matching `Ledger` function and to keep `Valid()`,
  which is `Consistent` of the fields.

Gram amounts and prices are `real`, so `amountBDT / pricePerGram` is exact.
The clock and `Date.now()` ids are parameters (`now`, `newId`).

## Model

| member | source | states |
|---|---|---|
| Lookup.FindIndex | services/mockBackend.ts:101 | findIndex: the result is the first position whose key matches; None means no element has that key |
| Lookup.FindIndexIsFirst | services/mockBackend.ts:230 | any position that is the first match is the one findIndex returns |
| Lookup.FindIndexAfterUpdate | services/mockBackend.ts:105 | writing an element with the same key back into the array does not move any first match |
| Ledger.Initial | services/mockBackend.ts:12-57 | init on empty storage: the default admin (id admin-1, email admin@auro.com) with balance 0, price 9500, no transactions, no session, an entry for every payment method; the store is consistent and solvent |
| Ledger.Login | services/mockBackend.ts:61-71 | fails with "user not found" and no change exactly when no user has the email; otherwise returns the first such user and only the session changes, to that user |
| Ledger.Register | services/mockBackend.ts:73-96 | fails with no change exactly when the email is taken; otherwise appends a USER with balance 0 and the given fields, logs them in, and changes nothing else |
| Ledger.UpdateUser | services/mockBackend.ts:98-117 | fails with no change exactly when the id is unknown; otherwise only the name and phone of the first matching user change (an absent field keeps its value) |
| Ledger.CurrentUser | services/mockBackend.ts:123-132 | getCurrentUser: a user is returned only when the session holds its id and it is registered; null when there is no session or the user is gone |
| Ledger.SetGoldPrice | services/mockBackend.ts:141-151 | always succeeds; the new record carries the given price, admin, id and time, is what is returned, and only the price changes |
| Ledger.UpdatePaymentMethod | services/mockBackend.ts:160-170 | fails with "method not found" and no change exactly when there is no entry; otherwise only the details of the first entry change |
| Ledger.Outcome | services/mockBackend.ts:252-267 | the new status is never PENDING; it is SUCCESS exactly for APPROVE |
| Ledger.Settlement | services/mockBackend.ts:245-265 | the balance change of settling a pending transaction equals the change of its ledger effect: +grams for APPROVE of a BUY or REJECT of a SELL, 0 otherwise |
| Ledger.CreateTransaction | services/mockBackend.ts:174-225 | fails with no change exactly for an unknown user and for a SELL above the balance, and for no other reason; otherwise one new PENDING transaction goes in front, with the frozen price, grams = amount / price and the given fields; a BUY changes no balance; a SELL lowers only the seller's balance, by exactly the grams it had |
| Ledger.ProcessTransaction | services/mockBackend.ts:227-282 | fails with no change exactly for an unknown id, a transaction not PENDING, or a missing owner, and for no other reason; otherwise only that transaction's status changes, to Outcome(action), and only its owner's balance moves, by Settlement |
| Ledger.TransactionsOf | services/mockBackend.ts:284-288 | getUserTransactions: exactly the user's transactions, each with its multiplicity in the ledger (their order: LedgerProperties.TransactionsOfInLedgerOrder) |
| LedgerProperties.TransactionsOfInLedgerOrder | services/mockBackend.ts:287 | the filter keeps ledger order: the result is a subsequence of the ledger, newest first |
| LedgerProperties.HoldingsPrepend | services/mockBackend.ts:221 | putting a transaction in front of the ledger adds its effect to its owner's holdings only |
| LedgerProperties.HoldingsUpdate | services/mockBackend.ts:253 | replacing one transaction by one with the same owner moves that owner's holdings by the difference of effects, and nobody else's |
| LedgerProperties.HoldingsOfNonOwner | services/mockBackend.ts:87 | a user with no transactions holds 0 grams according to the ledger |
| LedgerProperties.HoldingsIsNetOfHistory | services/mockBackend.ts:284-288 | a user's holdings are the net effect of the history getUserTransactions shows |
| LedgerProperties.BalanceIsNetOfHistory | services/mockBackend.ts:186-192 | in a consistent store every balance is the net effect of that user's own transaction history |
| LedgerProperties.OwnersStayRegistered | services/mockBackend.ts:104-105 | changing a user without changing the id keeps every transaction's owner registered |
| LedgerProperties.RegisterPreservesConsistent | services/mockBackend.ts:73-96 | register with a fresh id keeps the store invariant |
| LedgerProperties.UpdateUserPreservesConsistent | services/mockBackend.ts:98-117 | updateUser keeps the store invariant |
| LedgerProperties.CreatePreservesConsistent | services/mockBackend.ts:174-225 | createTransaction keeps the store invariant: the SELL debit is exactly the new pending SELL's effect |
| LedgerProperties.ReplaceKeepsConsistent | services/mockBackend.ts:245-268 | a status change paid for by the matching balance change keeps the store invariant |
| LedgerProperties.ProcessPreservesConsistent | services/mockBackend.ts:227-282 | processTransaction keeps the store invariant |
| LedgerProperties.ProcessNeverOrphaned | services/mockBackend.ts:240-243 | in a consistent store the "user associated with transaction not found" failure never happens |
| LedgerProperties.SettledAtMostOnce | services/mockBackend.ts:236-238 | after a successful approve or reject, a second one on the same id fails as not pending and changes nothing |
| LedgerProperties.SettleHead | services/mockBackend.ts:245-279 | settling the newest transaction, as one explicit store update |
| LedgerProperties.CreatedStore | services/mockBackend.ts:186-222 | a successful createTransaction moves the owner's balance by the new transaction's effect and puts it in front |
| LedgerProperties.CreateThenSettle | services/mockBackend.ts:174-279 | create then settle succeeds; the ledger gains exactly the settled transaction, and only the owner's balance moves, by that transaction's final effect |
| LedgerProperties.SellThenRejectRestores | services/mockBackend.ts:245-257 | a SELL followed by its REJECT ends FAILED and leaves every balance as it was |
| LedgerProperties.RegisterPreservesSolvent | services/mockBackend.ts:81-91 | register keeps every balance and every transaction's grams non-negative: the new wallet holds 0 |
| LedgerProperties.UpdateUserPreservesSolvent | services/mockBackend.ts:98-105 | updateUser keeps every balance and every transaction's grams non-negative |
| LedgerProperties.CreatePreservesSolvent | services/mockBackend.ts:186-192 | createTransaction never makes a balance negative |
| LedgerProperties.CreateKeepsGramsNonNegative | services/mockBackend.ts:178 | a non-negative amount produces non-negative grams |
| LedgerProperties.ProcessPreservesSolvent | services/mockBackend.ts:245-265 | with no negative grams in the ledger, processTransaction keeps every balance non-negative |
| LedgerProperties.NegativeAmountOverdraws | services/mockBackend.ts:178-192 | the backend accepts a negative amount, and then a SELL, a SELL and a REJECT take a fresh admin wallet to -1 g |
| LedgerProperties.RegisterThenLogin | services/mockBackend.ts:73-96 | a newly registered user can log in by email and is the current user |
| LedgerProperties.PaymentMethodsStayListed | services/mockBackend.ts:160-170 | with an entry for every method, updatePaymentMethod always succeeds and keeps one for every method |
| MockBackend.MockBackendService.constructor | services/mockBackend.ts:39-57 | the fields hold Initial and the invariant holds |
| MockBackend.MockBackendService.Login | services/mockBackend.ts:61-71 | the fields and the response are those of Ledger.Login; the invariant is kept |
| MockBackend.MockBackendService.Register | services/mockBackend.ts:73-96 | the fields and the response are those of Ledger.Register; the invariant is kept |
| MockBackend.MockBackendService.UpdateUser | services/mockBackend.ts:98-117 | the fields and the response are those of Ledger.UpdateUser; the invariant is kept |
| MockBackend.MockBackendService.Logout | services/mockBackend.ts:119-121 | only the session is cleared; the invariant is kept |
| MockBackend.MockBackendService.GetCurrentUser | services/mockBackend.ts:123-132 | returns Ledger.CurrentUser of the fields |
| MockBackend.MockBackendService.GetGoldPrice | services/mockBackend.ts:136-139 | returns the current price record |
| MockBackend.MockBackendService.SetGoldPrice | services/mockBackend.ts:141-151 | the fields and the response are those of Ledger.SetGoldPrice; the invariant is kept |
| MockBackend.MockBackendService.GetPaymentMethods | services/mockBackend.ts:155-158 | returns the payment instructions |
| MockBackend.MockBackendService.UpdatePaymentMethod | services/mockBackend.ts:160-170 | the fields and the response are those of Ledger.UpdatePaymentMethod; the invariant is kept |
| MockBackend.MockBackendService.CreateTransaction | services/mockBackend.ts:174-225 | the fields and the response are those of Ledger.CreateTransaction; the invariant is kept |
| MockBackend.MockBackendService.ProcessTransaction | services/mockBackend.ts:227-282 | the fields and the response are those of Ledger.ProcessTransaction; the invariant is kept |
| MockBackend.MockBackendService.Settle | services/mockBackend.ts:245-279 | the success path: only the transaction's status becomes Outcome(action), and only its owner's balance moves, by Settlement |
| MockBackend.MockBackendService.GetUserTransactions | services/mockBackend.ts:284-288 | returns Ledger.TransactionsOf of the ledger |
| MockBackend.MockBackendService.GetAllTransactions | services/mockBackend.ts:290-293 | returns the whole ledger, newest first |

## Left out

- `localStorage` persistence and JSON (de)serialisation are not modelled; the collections live in fields. So the storage fallbacks are left out too: the `'[]'` and default-record values read from missing keys.
- `delay`, `async` and `await` are not modelled: every operation is modelled as one atomic step. The source's operations can interleave at each `await`. For example, createTransaction yields at services/mockBackend.ts:196, after the SELL debit and before the new transaction is written at line 222. Such interleavings are not modelled.
- `Date.now()` ids and `new Date().toISOString()` timestamps are parameters. Nothing about the clock is modelled.
- MockBackend.MockBackendService.Register: requires the new id to name no existing user. The source does not check this; it relies on `user-${Date.now()}` being fresh, and uniqueness of ids is part of the invariant.
- `URL.createObjectURL` is not modelled. The screenshot is an opaque `Option<string>` given by the caller.
- JavaScript floating point is modelled as exact `real` arithmetic. Rounding and division by zero are not modelled.
- MockBackend.MockBackendService.SetGoldPrice: requires a positive price. The backend accepts any number, but every later createTransaction divides by it. Ledger.CreateTransaction, and the lemmas that call it, require the same.
- The copies of the user record written into the session are not modelled. getCurrentUser re-reads the user by id, so the session is the user's id.
- updateUser's `data` argument is two optional fields. A field that is absent keeps its old value; one that is present replaces it.
- The final `return { success: false }` of processTransaction is not modelled. `Action` has only APPROVE and REJECT, so the line cannot be reached.
- The backend does not reject a non-positive amount; only the page does. The model follows the backend, so `Solvent` is proved only while no transaction carries negative grams (RegisterPreservesSolvent, UpdateUserPreservesSolvent, CreatePreservesSolvent, ProcessPreservesSolvent). NegativeAmountOverdraws shows that a negative amount can overdraw a wallet.
- The backend does not enforce "a screenshot for a BUY, payout details for a SELL"; only the page does. The model stores whatever is given.
- setGoldPrice overwrites the single price record; no history is kept.
- The backend has no locking or other concurrency control; neither does the model.
- The pages (App.tsx), the text-generation call (services/geminiService.ts) and the input component (components/ui/Input.tsx) are not part of this model.
