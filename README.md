# Revolut → YNAB sync, modelled in Dafny

This project models the decision logic of a tool that copies the transactions of a
Revolut account into a YNAB (You Need A Budget) budget. One sync run:

1. takes the batch of raw Revolut transactions downloaded for one configured account;
2. keeps those in a configured currency, then drops the temporary ones (states
   `DECLINED`, `FAILED`, `REVERTED`), which Revolut later replaces with permanent
   transactions under a different id;
3. asks YNAB for its budgets and resolves the configured budget name to an id;
4. asks YNAB for the accounts of that budget and resolves the configured account name to an id;
5. translates every kept transaction into a YNAB transaction on that account;
6. pushes the whole batch to YNAB in one bulk-create request.

A name that YNAB does not list aborts the run with `BudgetNotFoundError` or
`AccountNotFoundError`, whose message quotes every name YNAB does list. Nothing is
pushed then.

Everything is modelled as pure functions and lemmas, because the source is pure:
its filters, its mapping comprehensions, its single dictionary literal and its
straight-line orchestration. The YNAB side is the value `Destination`: its budget
list, plus the account list of each budget id. A run is the value `Run`: the
requests it would issue to the YNAB API, in order, and the exception it would end
with, if any.

Modules, one file each:

- `Wrappers` (`wrappers.dfy`): `Option` and `Result`.
- `Seqs` (`seqs.dfy`): the order-preserving filter that `list(filter(...))` computes. Also a
  subsequence relation and its lemmas.
- `RawData` (`raw_data.dfy`): the raw record. It is a dictionary `map<string, Value>` over
  JSON-like values: `None`, integers, strings and nested dictionaries. This module also
  holds the Python exceptions the core can raise: `KeyError`, `TypeError`, `AttributeError`.
- `Filter` (`filter.dfy`): `filter_revolut_transactions`.
- `Translator` (`translator.dfy`): `_convert_revolut_transaction_to_ynab`, and the translation
  of a whole batch.
- `NameResolver` (`name_resolver.dfy`): the name→id dictionaries and the name lookups.
- `SyncPipeline` (`sync_pipeline.dfy`): `upload_revolut_transactions_to_ynab`, `update_ynab`,
  and the text of the not-found errors.

What the code does at its edges, and the model with it:

- An empty batch still issues the bulk-create request, with zero transactions
  (`EmptyDownloadStillPushes`).
- The translation reads `id`, `description`, `createdDate`, `amount` and `fee` with `t[key]`,
  so a missing one raises KeyError. Errors come in the order in which the dictionary literal
  evaluates its entries.
- The filter raises KeyError on a record without `currency`, or on a record with an allowed
  currency but no `state`.
- The configured currencies are a list (`config["currency"]`).
- The code does not handle a failure of the bulk request itself. That outcome belongs to the
  YNAB client and is not modelled.

## Model

| member | source | states |
|---|---|---|
| `Seqs.Filter` | src/api.py:63 | the result keeps exactly the elements that satisfy the predicate, and is no longer than the input |
| `Seqs.FilterIsSubsequence` | src/api.py:73-75 | a filter pass returns an order-preserving subsequence of its input |
| `Seqs.FilterCount` | src/api.py:63 | a filter pass keeps every copy of a passing element and no copy of a failing one |
| `Filter.FilterTransactions` | src/api.py:48-79 | raises KeyError("currency") exactly when some record lacks `currency`. Raises KeyError("state") exactly when a record with an allowed currency lacks `state`. Otherwise returns an order-preserving subsequence of the batch that holds exactly the records with a configured currency and a state outside DECLINED/FAILED/REVERTED, each with its multiplicity |
| `Filter.FilterKeepsEligibleBatch` | src/api.py:62-75 | a batch whose every record is eligible is returned unchanged |
| `Filter.FilterIdempotent` | src/api.py:48-79 | filtering an already filtered batch returns it unchanged |
| `Filter.FilterScenario` | src/api.py:62-75 | of a USD record, a REVERTED record and an eligible EUR record, with EUR configured, only the last is kept |
| `Translator.Translate` | src/api.py:172-196 | succeeds exactly when id, description, createdDate, amount and fee are present, the three numbers are numbers, and any merchant is a dictionary. Otherwise raises KeyError for the first missing key in evaluation order (`amount` and `fee` after the date is converted), TypeError exactly when `createdDate` is not a number or, with both present, `amount` or `fee` is not one, or AttributeError for a merchant that is not a dictionary. On success: `id == import_id ==` the record's id, memo is the description, account_id is the given id, the amount is `(amount - fee) * 10` with the sign of `amount - fee`, `cleared` is "uncleared", approved and deleted are false, and the payee is the merchant's name, or None when the merchant or its name is absent |
| `Translator.AmountRoundTrip` | src/api.py:189 | the YNAB amount is a multiple of 10, and dividing it by 10 gives back `amount - fee` |
| `Translator.TranslateScenario` | src/api.py:183-194 | amount 1050 with fee 50 becomes a YNAB amount of 10000, with all the other fields as stated |
| `Translator.TranslateAll` | src/api.py:160-165 | succeeds exactly when every record translates. The batch is then the element-wise translation, in order. Otherwise the error is the one raised by the first record that fails |
| `NameResolver.BuildMapping` | src/api.py:199-225 | the dictionary's keys are exactly the listed names, and its key order lists each key once |
| `NameResolver.MappingLastWins` | src/api.py:209 | the id of the last entry bearing a name is the id the dictionary holds for it |
| `NameResolver.MappingValueIsLast` | src/api.py:224 | every id in the dictionary is the id of the last entry bearing its name |
| `NameResolver.MappingKeyOrder` | src/api.py:223-225 | the keys are in the order in which the names first appear in the listing |
| `NameResolver.Resolve` | src/api.py:136-143 | succeeds exactly when some entry bears the name, and then returns the id of the last such entry. Otherwise reports the dictionary's key list |
| `NameResolver.AvailableNames` | src/api.py:150-152 | on failure, each listed name is reported exactly once, in order of first appearance, and the requested name is not among them |
| `NameResolver.BuildMappingOfTwo` | src/api.py:209 | two entries with distinct names give a dictionary holding both ids, keyed in listing order |
| `NameResolver.ResolveScenario` | src/api.py:136-141 | looking up "Household" against Personal/b1 and Shared/b2 fails and reports ["Personal", "Shared"] |
| `SyncPipeline.Upload` | src/api.py:126-169 | the run starts by listing budgets. A run that raises issues no bulk request. A run that ends normally issues exactly one bulk request, as its last request |
| `SyncPipeline.UploadToBudget` | src/api.py:147-168 | after the budget resolves, the account listing comes first. A raise issues no bulk request, and a normal end issues exactly one, last |
| `SyncPipeline.UpdateYnab` | src/api.py:19-45 | a filter KeyError is raised before any YNAB request. A run that raises issues no bulk request, and a normal end issues exactly one, last |
| `SyncPipeline.UnknownBudgetAborts` | src/api.py:136-141 | an unlisted budget name raises BudgetNotFoundError with the name and every available budget name. Only the budget listing is requested: no account lookup, no translation, no push |
| `SyncPipeline.UnknownAccountAborts` | src/api.py:150-155 | an account name not listed in the resolved budget raises AccountNotFoundError with the name and every available account name. Nothing is translated or pushed |
| `SyncPipeline.ResolvedRunCommitsOnce` | src/api.py:157-168 | with both names resolved, the run ends normally exactly when every record translates. It then issues budgets, accounts and one bulk request to the resolved budget id, holding the in-order translation with the resolved account id. Otherwise it raises a translation error before any push |
| `SyncPipeline.SuccessfulSyncPushesEligible` | src/api.py:39-45 | a run that ends normally pushes, to the budget listed under the configured name, the in-order translation of a subsequence of the download that holds exactly the eligible records, each as often as it was downloaded, on the account listed under the configured name |
| `SyncPipeline.EmptyDownloadStillPushes` | src/api.py:160-168 | an empty download with both names resolved still issues one bulk request with an empty batch |
| `SyncPipeline.QuotedNamesSplit` | src/api.py:137-140 | the error message's name list for `a + b` is the list for `a`, then `, `, then the list for `b`, and a single name appears in quotes. So every available name appears, quoted, in order |

## Left out

- Revolut sign-in and download (`download_revolut_transactions`, `get_revolut_client`): network and library calls. The downloaded batch is an input of `UpdateYnab`.
- The 2-factor approval wait and retries described in the download docstring: no code for them exists in this file, and they depend on time.
- YNAB client setup (`get_ynab_client`): it changes a global value of the YNAB library. The `TransactionWrapper` and `BulkTransactions` wrappers are library types. YNAB transactions are a plain record, and the API is values in `Destination`.
- Whether the bulk request itself succeeds: the code does not handle its failure. The model records the request that would be issued.
- The CSV snapshot of the raw batch and its timestamped file name: file I/O and the wall clock.
- Logging.
- Configuration loading (src/config.py) and the configuration keys `update_ynab` reads: TOML file I/O. `AccountLink` is the result, given as input.
- `Translator.Translate`: `datetime.fromtimestamp(createdDate / 1000)` is kept as the timestamp it is derived from (`FromTimestamp`). The local-time calendar conversion and its float division are not modelled, and neither are its OverflowError and OSError on out-of-range timestamps.
- `Translator.Translate`: `int()` truncation of fractional amounts is not modelled, because raw values hold no floats. Booleans and lists are not raw values either, so Python's treatment of `True` as 1 is not modelled.
- `Filter.FilterTransactions`: the configured currencies are a list of strings. With a plain string, Python's `in` would be a substring test, which is not modelled.
- Concurrency: there is none in the core. Each run is independent.
- `SyncPipeline.Message` renders the exception texts but states no property itself. What its name list contains is stated by `QuotedNamesSplit`.
