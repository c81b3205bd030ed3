# SimpleFIN importer for Beancount — a Dafny model of its extraction core

This project models the decision logic of the `beangulp_simplefin` importer. The importer
turns one SimpleFIN account record into Beancount ledger entries and decides whether two
entries are duplicates. The model starts from an account record that is already loaded in
memory and covers:

- **date normalisation** (`_parse_date`): epoch integers, ISO strings with every `Z`
  replaced by `+00:00`, and anything else yielding no date;
- **the transaction builder** (`_extract_transaction`): the skip rules in their order,
  then a two-posting transaction with the exact amount, a counter posting chosen by sign,
  the `simplefin_id` provenance id and the "Unknown" narration default;
- **the balance builder** (`_make_balance`);
- **the extraction driver** (`extract`, after the JSON is read): account mapping,
  currency resolution, collection in source order, the optional balance, and a stable
  sort by date;
- **the duplicate comparator** (`cmp`): id-based matching with a structural fallback.

Modules: `Wrappers` (Option/Result), `Decimals` (Python `Decimal` values: sign,
coefficient, exponent, so "-5.50" and "-0.00" are kept exactly), `Dates` (dates, date
values, the normaliser), `Ledger` (amounts, postings, directives), `DateSort` (the
stable sort), `Importer` (builders and driver), `Extraction` (whole-output properties),
`Dedup` (the comparator), `Scenarios` (the documented cases).

The two library date conversions, `datetime.fromtimestamp(n).date()` and
`datetime.fromisoformat(s).date()`, are not interpreted. They are the fields of a
`DateParsers` value passed to every operation, and every result holds for any choice of
them. The first depends on the machine's local timezone. The second is foreign library
code whose `ValueError` is modelled as `None`.

JSON values reach the model as follows. Under a date key, an integer is `Epoch(n)`. A
JSON `true` or `false` is `Epoch(1)` or `Epoch(0)`, because Python's `bool` is an `int`. A
string is `IsoText(s)`. `null` or a missing key is `NullOrMissing`. A list or object is
`Composite(nonEmpty)`. Keys read with `dict.get(key, default)` (`id`, `description`) are
`Field` values that keep a missing key (the default applies) apart from an explicit `null`
(which stays `None`). `pending` is kept only as its truthiness, the one thing the code reads.

In these places the code does more than a quick reading suggests, and the model follows the code:

- every `Z` in a date string is replaced, not only a trailing one;
- any truthy `pending` skips a transaction, not only `true`;
- a balance assertion also needs `balance` to be non-null, not only a usable `balance-date`;
- a zero amount, including negative zero `-0.00`, balances against the income account;
- a `description` or `id` key holding `null` gives a `None` narration or id, not the default.

The skip result carries a `SkipReason` so the order of the checks can be seen; the code
returns `None` in all four cases.

## Model

| member | source | states |
|---|---|---|
| `Decimals.NegativeIff` | beangulp_simplefin.py:173 | `amt < 0` holds exactly for a negative sign with a non-zero coefficient, so negative zero is not negative |
| `Decimals.TrailingZerosAreEqual` | beangulp_simplefin.py:252 | decimal `==` is numeric: a trailing zero (a different exponent) does not change equality |
| `Dates.ReplaceZ` | beangulp_simplefin.py:211 | `replace("Z", "+00:00")` leaves no `Z`, grows the text by five characters per `Z`, and leaves `Z`-free text unchanged |
| `Dates.ReplaceZAppend` | beangulp_simplefin.py:211 | the replacement distributes over concatenation, so a `Z` anywhere is replaced |
| `Dates.EveryZIsReplaced` | beangulp_simplefin.py:211 | for any surrounding text, a `Z` in the middle is replaced as well as a trailing one |
| `Dates.Truthy` | beangulp_simplefin.py:121 | a date value is truthy unless it is null or missing, the integer 0, the empty string, or an empty list or object (`if not posted` at line 141 uses the same test) |
| `Dates.ParseDate` | beangulp_simplefin.py:204-215 | integers go to the epoch conversion, strings to the ISO parser after `Z` replacement, and only those two kinds can yield a date |
| `Dates.ZuluSpellingsAgree` | beangulp_simplefin.py:210-212 | a trailing `Z` and a trailing `+00:00` normalise to the same date, and so do a string and its replaced form |
| `DateSort.SortByDate` | beangulp_simplefin.py:128-129 | the result is sorted by date, is a permutation of the input, and lists each date's entries in input order (a stable sort) |
| `DateSort.SortedStableUnique` | beangulp_simplefin.py:128-129 | two sorted lists with the same entries in the same order for every date are equal |
| `DateSort.StableSortIsUnique` | beangulp_simplefin.py:128-129 | any stable sort by date of a list equals `SortByDate` of it |
| `Ledger.SameUnits` | beangulp_simplefin.py:252 | two optional amounts are equal exactly when both are absent, or both carry the same currency and numbers denoting the same rational |
| `Importer.ProvenanceId` | beangulp_simplefin.py:160 | the provenance id is `""` for a missing `id` key, stays `None` only for an explicit `null`, and is the id itself otherwise |
| `Importer.CounterAccount` | beangulp_simplefin.py:172-173 | the counter account is the expense account for a negative non-zero amount and the income account otherwise |
| `Importer.ExtractTransaction` | beangulp_simplefin.py:139-185 | skips exactly on falsy `posted`, truthy `pending`, unparseable date, missing `amount`, in that order; otherwise a dated two-posting transaction with the exact amount, the provenance id in both metadata maps, and narration defaulting to "Unknown" |
| `Importer.MakeBalance` | beangulp_simplefin.py:195-202 | a balance assertion exists iff the date parses; it holds the exact balance in the given currency on the given account, with no provenance id |
| `Importer.BuildTransactions` | beangulp_simplefin.py:110-116 | the collected entries are exactly the successfully built transactions, at most one per source transaction |
| `Importer.BuildTransactionsAppend` | beangulp_simplefin.py:110-116 | collection keeps source order: building a concatenation is concatenating the builds |
| `Importer.BalanceFor` | beangulp_simplefin.py:118-126 | a balance is added iff `balance` is non-null, `balance-date` truthy, and the date parses |
| `Importer.ResolveCurrency` | beangulp_simplefin.py:106 | the record's `currency` when present, the configured default when absent |
| `Importer.Mapped` | beangulp_simplefin.py:101-102 | a record without an id is never mapped; one with an id is mapped iff the id is a key of the account mapping |
| `Importer.Collected` | beangulp_simplefin.py:108-126 | at most one entry per source transaction plus one; only transactions and balances; a balance in it is the emitted one, and when one is emitted it is last |
| `Importer.Extract` | beangulp_simplefin.py:101-130 | an unmapped account yields `[]`; otherwise the output is sorted by date, is a permutation of the collected entries, and keeps their order within each date |
| `Extraction.ExtractMembers` | beangulp_simplefin.py:108-126 | an entry is in the output iff it is a built source transaction or the emitted balance |
| `Extraction.OnlySettledSourcesReachTheLedger` | beangulp_simplefin.py:140-157 | every output transaction comes from a posted, non-pending source with a parseable date and carries its amount exactly |
| `Extraction.ExtractAccountsAndCurrency` | beangulp_simplefin.py:101-106 | output transactions have two postings, the first on the mapped account in the record's currency (default when absent), the second on the expense or income account; balances use the same account and currency |
| `Extraction.ExtractBalance` | beangulp_simplefin.py:119-126 | a balance appears iff the account is mapped, `balance` non-null, `balance-date` truthy and parseable; it carries the exact balance and no provenance id |
| `Extraction.ExtractLength` | beangulp_simplefin.py:108-126 | the output has one entry per built transaction plus one for an emitted balance |
| `Extraction.BalanceComesLastInItsDate` | beangulp_simplefin.py:118-129 | among entries of the balance's date, the transactions come in source order and the balance comes last |
| `Extraction.ExtractIsTheStableSort` | beangulp_simplefin.py:128-129 | any sorted list that agrees with the collected entries date by date is the output |
| `Dedup.Cmp` | beangulp_simplefin.py:217-255 | only two transactions can match; with two truthy ids the result is id equality; with exactly one it is false; with none, different dates give false |
| `Dedup.CmpWithoutIdsIsFingerprintEquality` | beangulp_simplefin.py:243-255 | without ids and with postings, duplicates are exactly the transactions that agree on date, first-posting account and numeric units |
| `Dedup.CmpWithoutPostings` | beangulp_simplefin.py:247-255 | without ids, a transaction with no postings matches exactly the transactions of its date |
| `Dedup.EmptyIdIsNoId` | beangulp_simplefin.py:231-241 | an empty-string id behaves exactly like a missing one, in either argument position |
| `Dedup.CmpSymmetric` | beangulp_simplefin.py:226-255 | the comparison does not depend on argument order |
| `Dedup.CmpReflexive` | beangulp_simplefin.py:226-255 | an entry matches itself iff it is a transaction |
| `Dedup.CmpTransitive` | beangulp_simplefin.py:234-253 | among transactions that all have a first posting, the comparison is transitive |
| `Dedup.CmpNotTransitiveWithoutPostings` | beangulp_simplefin.py:248-255 | a transaction without postings matches two same-day transactions that do not match each other |
| `Dedup.BuiltTransactionsMatchById` | beangulp_simplefin.py:160-170 | two built transactions with non-empty source ids are duplicates iff the source ids are equal |
| `Dedup.BuiltWithoutIdComparesStructurally` | beangulp_simplefin.py:160-170 | two built transactions without source ids are duplicates iff their dates and amounts are numerically equal |
| `Scenarios.ExpenseWithBalance` | tests/test_beangulp_simplefin.py:139-171 | an expense and a same-day balance: two entries, the transaction first, "-5.50" kept exactly, counter on the expense account |
| `Scenarios.IncomeGoesToIncomeAccount` | tests/test_beangulp_simplefin.py:174-198 | a positive amount balances against the income account |
| `Scenarios.UnmappedAccountYieldsNothing` | tests/test_beangulp_simplefin.py:223-237 | an unmapped account yields no entries |
| `Scenarios.PendingIsSkipped` | tests/test_beangulp_simplefin.py:240-269 | a pending payment is dropped and the cleared one is kept |
| `Scenarios.IsoDateWithZulu` | tests/test_beangulp_simplefin.py:318-342 | for any `Z`-free date-time text (the test's "2024-06-15T12:00:00"), the text plus `Z` dates the entry as the text plus `+00:00` parses |
| `Scenarios.IsoDateWithOffset` | tests/test_beangulp_simplefin.py:345-366 | for any `Z`-free date-time text, the text plus a `+05:00` offset yields one entry when it parses |
| `Scenarios.MissingOrBadFieldsAreSkipped` | tests/test_beangulp_simplefin.py:272-390 | a missing `posted`, a missing `amount` or an unparseable date drops the transaction |
| `Scenarios.CurrencyResolution` | tests/test_beangulp_simplefin.py:393-444 | the record's currency wins over the default, and the default fills in when it is absent |
| `Scenarios.BalanceWithoutDateIsSkipped` | tests/test_beangulp_simplefin.py:486-502 | a balance without `balance-date` is dropped |
| `Scenarios.MetadataAndNarration` | tests/test_beangulp_simplefin.py:505-553 | the provenance id is in the entry and first-posting metadata, and a missing description reads "Unknown" |
| `Scenarios.CmpCases` | tests/test_beangulp_simplefin.py:614-668 | the comparator's cases: same id, different ids, one id (both orders), and no ids with equal or differing date, amount, account |
| `Scenarios.NegativeZeroGoesToIncome` | beangulp_simplefin.py:173 | a "-0.00" amount balances against the income account |

## Left out

- File access and JSON decoding (`identify`, `account`, and the opening lines of `extract`, beangulp_simplefin.py:63-99): I/O. The model starts from a loaded record.
- `filename` (beangulp_simplefin.py:92-94): a `path.basename` wrapper with no decision logic.
- The behaviour of `datetime.fromtimestamp` and `datetime.fromisoformat`. They depend on the local timezone and on library code, so they are parameters of the model. The model also takes the epoch conversion to be total. Out-of-range timestamps, which make Python raise, are not modelled.
- Floating-point inputs (a JSON float `posted`, `amount` or `balance`, and the `str(float)` rendering): amounts arrive as exact decimals.
- Amount text that `Decimal` rejects or reads as NaN or Infinity: `Decimal(str(amt))` raises on the first, and `amt < 0` raises on NaN. Amounts are finite decimals in the model.
- The decimal-to-text rendering (`str(units.number)`): the model keeps the decimal's sign, coefficient and exponent unchanged, which is what makes the rendering exact.
- A record `currency` key holding `null`, and account or transaction ids that are not strings. The record's currency is a string or missing, and ids are strings.
- A `transactions` key holding `null`, a number or a boolean: the `for` loop raises `TypeError` (beangulp_simplefin.py:111). An empty string or object iterates zero times, like `[]`. A non-empty string or object yields strings, which fail at `txn.get` as described in the next line. The model's transactions are always a list.
- A `transactions` element that is not a JSON object: `txn.get` raises `AttributeError` (beangulp_simplefin.py:140) and aborts the extraction. Every element is a transaction record in the model.
- A `description` that is not a string (a number, list or object): the code makes it the narration unchanged (beangulp_simplefin.py:159). The model's descriptions are strings, missing or `null`.
- Beancount internals: the metadata filename and line number, posting cost, price and flag (always `None` here), and balance tolerance and difference (always `None`). Transactions carry the constant flag `*` and empty tag and link sets.
- `Dedup.Cmp`: entries built elsewhere may carry a non-string `simplefin_id`. The model's ids are strings, so comparing ids means string equality.
