# Kora lending back end: loan-record state machine, custodial top-up, country list

This project models three parts of the Kora lending back end in Dafny and proves properties about them.

1. **The borrow service.** It reconciles a borrow record with the outcome of a ledger submission: `createLoan`, `agreeLoan`, and the approvals plus `fundLoan`/`payBackLoan`.
   - The record is a class (`BorrowService.BorrowRecord`). Its three methods update the record's fields in place, as the service does.
   - Each method returns the ordered list of database writes the service issues. An empty list means nothing is written. Settlement-entry creation always comes before the record is destroyed or updated.
   - A ledger answer is a `Submission`: either a confirmed receipt hash with the decoded event, or a rejection that may carry the receipt hash of a mined but reverted transaction.
   - Amounts are exact reals: the ledger integer divided by 100, because the token has two decimals.
2. **The profile controller.** Three parts are modelled:
   - the profile `PUT` diff, as an imperative method checked against a declarative specification;
   - the custodial top-up (`sendMoneyFromKora`): which legs are sent, their consecutive nonces, the token amount, and the 400 rejection. The single-leg variants are modelled too;
   - the guards in front of identity creation.

   Every external read and every submission shows up in the returned list of `Call`s, in the order it is issued.
3. **The countries service.** The country list is a filter and projection of the world table onto the countries that have an ERC20 token. The collection is that list folded into a map keyed by country code. Both library tables and the token table are parameters.

External services are parameters: the ledger, token contract, currency converter, database and logger. Their answers are passed in, and whatever the code asks of them is returned as a value.

In these places the model follows the code as written:
- A successful `createLoan` also resets the lender's `toAgree` flag, not only the guarantors' flags.
- A loan-id mismatch after `agreeLoan` is not a clean abort. It reaches the failure handler, which sets the loan back to on going and writes the record. The hash appended by the confirmed transaction is kept.
- When no guarantor matches, the error is only logged and nothing is written.
- A failed approval does not propagate. It enters the fund/payback error branch, and a settlement entry with state error is still created.
- A failed re-read of the populated record also reaches the `agreeLoan` failure handler.

## Model

| member | source | states |
|---|---|---|
| `BorrowService.BorrowRecord.SendRawCreateLoan` | api/services/BorrowService.js:9-30 | confirmed: hash appended, event loan id copied, state on going, the `Agree` flag of each present party among lender and guarantors nulled and absent ones untouched; rejected: state agreed, type request, receipt hash appended iff present; always one record update; parties, amounts and balances unchanged |
| `BorrowService.BorrowRecord.SendRawAgreeLoan` | api/services/BorrowService.js:38-88 | confirmed: hash appended before the loan-id check; mismatch or failed re-read: on going, no flag changed, no further hash, record written; match: that slot agrees and the state is agreed iff every present guarantor agreed, else on going; no match: nothing written; rejected: on going, receipt hash iff present |
| `BorrowService.BorrowRecord.SendRawLoanTransfer` | api/services/BorrowService.js:96-183 | success: hash appended, on going, balances are the event balances / 100, entry has state success and amounts / 100; any failure including an approval: fund sets agreed + loan, payback sets on going, error entry with 0 amounts, receipt hash iff present; entry keeps only the last hash; entry created first, then destroy iff the resulting `fromBalance` is 0, else update; no raw transaction and approvals confirmed: nothing changes or is written |
| `BorrowService.Lifecycle` | api/services/BorrowService.js:14-135 | across create, agree and transfer the hash list only grows: the old list is a prefix of the new one, whatever the ledger answers |
| `BorrowService.FindGuarantor` | api/services/BorrowService.js:59-66 | only present slots are searched, in order; the result is the first slot whose populated identity equals the event guarantor ignoring case; not found iff every present slot has an identity and differs; a present slot without an identity stops the search |
| `BorrowService.SettlementLegsMirror` | api/services/BorrowService.js:155-173 | the fund entry is the payback entry with the parties exchanged and the record's amounts exchanged in place of the reported values; with both raw transactions the payback entry wins; with neither there is no transfer |
| `BorrowService.TokenValue` | config/ethereum.js:35 | an event integer scaled by the exponent 2: the result times 100 is the integer, and it is zero iff the integer is |
| `Text.ToLower` | api/services/BorrowService.js:60 | lowering keeps the length and maps every character on its own |
| `Text.ToLowerIdempotent` | api/services/BorrowService.js:60 | lowering a lowered address changes nothing |
| `Text.SameAddressProperties` | api/services/BorrowService.js:60 | the case-insensitive comparison is symmetric and identifies an address with its lower-case form |
| `ProfileController.UpdateProfile` | api/controllers/ProfileController.js:31-54 | the step-by-step update yields exactly the declared proposal (allowed keys, role from agent, agent dropped, rate parsed) minus the values equal to the user's; an empty diff is "Nothing was changed" |
| `ProfileController.AgentFlag` | api/controllers/ProfileController.js:34 | the agent flag differs from plain truthiness exactly on the strings `''` (an agent) and `'false'` (not an agent) |
| `ProfileController.ChangesOnlyAllowedKeys` | api/controllers/ProfileController.js:19-42 | an update writes only `updateAttrs` keys and `role`, never `agent` |
| `ProfileController.RoleFromAgent` | api/controllers/ProfileController.js:34-48 | role is the agent role iff the agent flag is true, else smartphone, also when `agent` is absent; it is written iff it differs from the current role |
| `ProfileController.PlainAttributeChanged` | api/controllers/ProfileController.js:32-48 | any other allowed parameter is written, unchanged, iff it was sent and differs (`!==`) from the user's value |
| `ProfileController.UpdateThenNothingChanged` | api/controllers/ProfileController.js:48-54 | after writing the diff, the same request finds nothing changed unless a value is `NaN` |
| `ProfileController.SendMoneyFromKora` | api/controllers/ProfileController.js:284-349 | no owner or no identity: bad request before any call; otherwise count and both balances are read first; eth leg iff eth balance 0, token leg iff token balance 0; legs get nonces count, count+1, ... in order, so the token leg gets count+1 after an eth leg and count alone; token amount is eUSD for USD, else rate × eUSD; neither leg: 400 and nothing submitted |
| `ProfileController.SendEthFromKora` | api/controllers/ProfileController.js:215-236 | no owner: bad request, no call; non-zero balance: bad request after the read; else one ether transaction without nonce, and it is the only submission |
| `ProfileController.TransferFromKora` | api/controllers/ProfileController.js:238-282 | no identity: bad request, no call; non-zero token balance: bad request after the read; else one token transfer of eUSD (USD) or rate × eUSD, the only submission |
| `ProfileController.CreateIdentityGuardsAsWritten` | api/controllers/ProfileController.js:186-196 | the guards as written: a user with an identity is refused first; the owner is refused iff it is empty and not an address, then the recovery key likewise; the request proceeds iff no identity and each of owner and recovery key is set or an address |
| `ProfileController.CreateIdentityGuards` | api/controllers/ProfileController.js:183-196 | corrected guards: a user with an identity is refused first; the request proceeds iff owner and recovery key are both set and addresses |
| `ProfileController.GuardsAsWrittenAcceptNonAddress` | api/controllers/ProfileController.js:190-192 | the guards as written let a present non-address owner through, where the corrected guards refuse it |
| `ProfileController.GuardsCorrectedStricter` | api/controllers/ProfileController.js:186-196 | what the corrected guards accept, the guards as written accept too; both refuse an existing identity |
| `CountriesService.FlagImgInjective` | api/services/CountriesService.js:12 | distinct country codes have distinct flag paths |
| `CountriesService.Filtered` | api/services/CountriesService.js:14-15 | a country is listed iff its code is a key of the token table |
| `CountriesService.FilteredAppend` | api/services/CountriesService.js:14-15 | filtering keeps source order: it distributes over concatenation |
| `CountriesService.MakeEntry` | api/services/CountriesService.js:16-28 | an entry is built iff the first currency is in the currency table with a non-empty major-unit name |
| `CountriesService.Entries` | api/services/CountriesService.js:16-28 | the list is built iff every listed country can be projected, and then entry i is the projection of country i |
| `CountriesService.ListBuilt` | api/services/CountriesService.js:14-28 | the list exists iff every country with a token can be projected |
| `CountriesService.ListEntryFields` | api/services/CountriesService.js:16-27 | entry i comes from the i-th listed country: code, name, token `ERC20Tokens[cca2]`, first currency, full name, major-unit name with its first letter upper-cased and the rest unchanged, `+` and first calling code, `flag == FlagImg(countryCode)` |
| `CountriesService.CollectionKeys` | api/services/CountriesService.js:30-33 | the collection's keys are exactly the list's country codes |
| `CountriesService.CollectionLaterWins` | api/services/CountriesService.js:30-33 | an entry that is the last with its code is what the collection holds for that code, so a later duplicate wins |
| `CountriesService.CollectionKeyed` | api/services/CountriesService.js:30-33 | every collection value is a list entry filed under its own code |

## Left out

- api/services/EthereumService.js is not part of this model. It holds account creation (random keys, keystore encryption) and the identity contract call.
- Ledger, database and logger: their calls are parameters or returned values. A failed record write is only logged by the service, so it has no effect to model.
- Concurrency: `Promise.all` over the approvals is one value (all confirmed, or the first rejection). The balance reads are two given values. Lost updates from overlapping calls on one record are not modelled.
- `BorrowService.BorrowRecord.SendRawLoanTransfer`: the record's `fromBalance` is assumed to be a number. A `null` balance, which compares unequal to 0, is not modelled.
- Loan ids are normalised to integers before the loose `!=` comparison. A record loan id that is `null` mismatches every event. String forms such as `"05"` are not modelled.
- Floating point is not modelled:
  - `/100` is exact;
  - the conversion rate is an opaque real factor, and rounding of `rate × eUSD` is not modelled;
  - `parseFloat` is a function parameter;
  - a conversion result that lacks the currency pair, which gives `NaN`, is not modelled.
- `ProfileController.SendMoneyFromKora`, `ProfileController.SendEthFromKora`, `ProfileController.TransferFromKora`: a failed balance, count or conversion read, or a rejected submission, ends in `res.negotiate`. These paths are not modelled. `Ok` means the transactions were dispatched.
- Case mapping covers the ASCII letters only. Unicode `toLowerCase`/`toUpperCase` is not modelled. Addresses are hexadecimal, and the first letters of currency names are treated as ASCII.
- The address validator is not part of this model. Its verdicts on `owner` and `recoveryKey` are inputs. The `createIdentity` network call and the update of the user after it are left out.
- The rest of the profile controller is outside the core and left out: `GET` (returns the user), the 405 default, the avatar upload and unlink, email confirmation, forgot/restore password.
- The user model's role constants and `newUserMoney` are not among the source files. They are parameters (`Roles`, `NewUserMoney`).
- Loading `world-countries`/`world-currencies` is left out. The tables are parameters. A currency table entry without `units.major` is not modelled.
- The settlement entry has a `state` field. The `Transactions` model's other defaults are not modelled.

## Findings

| source | as written | input that shows it | evidently intended | confidence | as-written member | corrected member |
|---|---|---|---|---|---|---|
| api/controllers/ProfileController.js:190-196 | `!owner && !isAddress(owner)` (same for `recoveryKey`) rejects only a missing value | `owner = "not-an-address"`, which the validator rejects, on a user without an identity: the guard lets it through | reject when the value is missing or is not an address: the message says the parameter "must be set and must be ethereum address" | high; not executed | `ProfileController.GuardsAsWrittenAcceptNonAddress` (about `CreateIdentityGuardsAsWritten`) | `ProfileController.CreateIdentityGuards` |
