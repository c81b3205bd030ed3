/**
 * The importer's documented scenarios, stated for every choice of the date
 * parsers: account "ACT-123" mapped to "Assets:Checking", the default
 * configuration unless a case says otherwise.
 */
module Scenarios {
  import opened Wrappers
  import opened Decimals
  import opened Dates
  import opened Ledger
  import opened DateSort
  import opened Importer
  import opened Dedup

  const Checking: map<string, string> := map["ACT-123" := "Assets:Checking"]

  /** "-5.50" and "1000.00" as decimals. */
  const MinusFiveFifty: Decimal := Decimal(true, 550, -2)
  const Thousand: Decimal := Decimal(false, 100000, -2)

  function Txn(id: string, posted: DateValue, pending: bool, description: Field<string>, amount: Option<Decimal>): RawTransaction {
    RawTransaction(Present(id), posted, pending, description, amount)
  }

  function Account(id: string, currency: Option<string>, ts: seq<RawTransaction>): RawAccount {
    RawAccount(Some(id), currency, ts, None, NullOrMissing)
  }

  /**
   * An expense with a balance on the same day: the transaction comes first,
   * keeps "-5.50" exactly and balances against the expense account.
   */
  lemma ExpenseWithBalance(p: DateParsers)
    ensures var rec := RawAccount(Some("ACT-123"), Some("USD"),
                          [Txn("TRN-001", Epoch(793065600), false, Present("Coffee Shop"), Some(MinusFiveFifty))],
                          Some(Decimal(false, 1000, -1)), Epoch(793065600));
            var r := Extract(DefaultConfig(Checking), p, rec);
            && |r| == 2
            && r[0].Transaction? && r[0].narration == Some("Coffee Shop")
            && |r[0].postings| == 2
            && r[0].postings[0].account == "Assets:Checking"
            && r[0].postings[0].units == Some(Amount(MinusFiveFifty, "USD"))
            && r[0].postings[1].account == "Expenses:Uncategorized"
            && r[1].Balance?
  {
    var rec := RawAccount(Some("ACT-123"), Some("USD"),
                 [Txn("TRN-001", Epoch(793065600), false, Present("Coffee Shop"), Some(MinusFiveFifty))],
                 Some(Decimal(false, 1000, -1)), Epoch(793065600));
    NegativeIff(MinusFiveFifty);
    var c := Collected(DefaultConfig(Checking), p, rec);
    assert |c| == 2 && c[0].Transaction? && c[1].Balance?;
    assert c[0].date == c[1].date;
    assert SortByDate(c) == c by {
      assert c[1..] == [c[1]];
      assert SortByDate([c[1]]) == [c[1]];
    }
  }

  /** A positive amount balances against the income account. */
  lemma IncomeGoesToIncomeAccount(p: DateParsers)
    ensures var rec := Account("ACT-123", Some("USD"),
                          [Txn("TRN-002", Epoch(793065600), false, Present("Direct Deposit"), Some(Thousand))]);
            var r := Extract(DefaultConfig(Checking), p, rec);
            |r| == 1 && r[0].Transaction? && r[0].postings[1].account == "Income:Uncategorized"
  {
    NegativeIff(Thousand);
  }

  /** An account missing from the mapping yields nothing. */
  lemma UnmappedAccountYieldsNothing(p: DateParsers)
    ensures Extract(DefaultConfig(Checking), p,
                    Account("ACT-999", None, [Txn("TRN-001", Epoch(793065600), false, Absent, Some(Decimal(false, 100, 0)))]))
            == []
  {
  }

  /** Of a pending and a cleared payment, only the cleared one is imported. */
  lemma PendingIsSkipped(p: DateParsers)
    ensures var rec := Account("ACT-123", None,
                          [Txn("TRN-001", Epoch(793065600), true, Present("Pending Payment"), Some(Decimal(true, 5000, -2))),
                           Txn("TRN-002", Epoch(793065600), false, Present("Cleared Payment"), Some(Decimal(true, 2500, -2)))]);
            var r := Extract(DefaultConfig(Checking), p, rec);
            |r| == 1 && r[0].Transaction? && r[0].narration == Some("Cleared Payment")
  {
    var rec := Account("ACT-123", None,
                 [Txn("TRN-001", Epoch(793065600), true, Present("Pending Payment"), Some(Decimal(true, 5000, -2))),
                  Txn("TRN-002", Epoch(793065600), false, Present("Cleared Payment"), Some(Decimal(true, 2500, -2)))]);
    var cfg := DefaultConfig(Checking);
    var ts := rec.transactions;
    assert ts[1..][1..] == [];
    assert ExtractTransaction(cfg, p, ts[0], "Assets:Checking", "USD") == Failure(IsPending);
    var e := ExtractTransaction(cfg, p, ts[1], "Assets:Checking", "USD").value;
    assert BuildTransactions(cfg, p, ts[1..], "Assets:Checking", "USD") == [e];
    assert Collected(cfg, p, rec) == [e];
    assert SortByDate([e]) == [e];
  }

  /** A missing `posted`, a missing `amount` and an unparseable date each drop the transaction. */
  lemma MissingOrBadFieldsAreSkipped(p: DateParsers)
    requires p.fromIsoFormat("not-a-date") == None
    ensures Extract(DefaultConfig(Checking), p,
                    Account("ACT-123", None, [Txn("TRN-001", NullOrMissing, false, Present("No Date"), Some(Decimal(true, 5000, -2)))]))
            == []
    ensures Extract(DefaultConfig(Checking), p,
                    Account("ACT-123", None, [Txn("TRN-001", Epoch(793065600), false, Present("No Amount"), None)]))
            == []
    ensures Extract(DefaultConfig(Checking), p,
                    Account("ACT-123", None, [Txn("TRN-001", IsoText("not-a-date"), false, Present("Bad Date"), Some(Decimal(true, 1000, -2)))]))
            == []
  {
    assert 'Z' !in "not-a-date";
  }

  /** A record with one settled transaction dated by `posted` yields exactly that transaction. */
  lemma OneSettledTransaction(p: DateParsers, t: RawTransaction, d: Date)
    requires ParseDate(p, t.posted) == Some(d) && Truthy(t.posted) && !t.pending && t.amount.Some?
    ensures var r := Extract(DefaultConfig(Checking), p, Account("ACT-123", None, [t]));
            |r| == 1 && r[0].date == d
  {
    var cfg := DefaultConfig(Checking);
    var e := ExtractTransaction(cfg, p, t, "Assets:Checking", "USD").value;
    BuildOne(cfg, p, t, "Assets:Checking", "USD");
    assert Collected(cfg, p, Account("ACT-123", None, [t])) == [e];
    assert SortByDate([e]) == [e];
  }

  /**
   * A `Z`-suffixed ISO time (such as "2024-06-15T12:00:00Z") is read with
   * `+00:00` in place of the `Z`, and that reading dates the entry.
   */
  lemma IsoDateWithZulu(p: DateParsers, time: string, d: Date)
    requires 'Z' !in time
    requires p.fromIsoFormat(time + UtcOffset) == Some(d)
    ensures var r := Extract(DefaultConfig(Checking), p,
                             Account("ACT-123", None, [Txn("TRN-001", IsoText(time + "Z"), false,
                                                           Present("ISO Date Transaction"), Some(Decimal(true, 1000, -2)))]));
            |r| == 1 && r[0].date == d
  {
    ZuluSpellingsAgree(p, time);
    ReplaceZAppend(time, UtcOffset);
    assert 'Z' !in UtcOffset;
    OneSettledTransaction(p, Txn("TRN-001", IsoText(time + "Z"), false,
                                 Present("ISO Date Transaction"), Some(Decimal(true, 1000, -2))), d);
  }

  /** An ISO time with a numeric offset (such as "2024-06-15T12:00:00+05:00") that parses is imported. */
  lemma IsoDateWithOffset(p: DateParsers, time: string)
    requires 'Z' !in time
    requires p.fromIsoFormat(time + "+05:00").Some?
    ensures |Extract(DefaultConfig(Checking), p,
                     Account("ACT-123", None, [Txn("TRN-001", IsoText(time + "+05:00"), false,
                                                   Present("Timezone Transaction"), Some(Decimal(true, 1000, -2)))]))| == 1
  {
    var text := time + "+05:00";
    assert 'Z' !in text;
    OneSettledTransaction(p, Txn("TRN-001", IsoText(text), false,
                                 Present("Timezone Transaction"), Some(Decimal(true, 1000, -2))),
                          p.fromIsoFormat(text).value);
  }

  /** The record's currency wins over the default; the default fills in when it is absent. */
  lemma CurrencyResolution(p: DateParsers)
    ensures var r := Extract(DefaultConfig(Checking), p,
                             Account("ACT-123", Some("EUR"), [Txn("TRN-001", Epoch(793065600), false, Absent, Some(Decimal(true, 1000, -2)))]));
            |r| == 1 && r[0].Transaction? && r[0].postings[0].units.value.currency == "EUR"
    ensures var r := Extract(DefaultConfig(Checking).(currency := "GBP"), p,
                             Account("ACT-123", None, [Txn("TRN-001", Epoch(793065600), false, Absent, Some(Decimal(true, 1000, -2)))]));
            |r| == 1 && r[0].Transaction? && r[0].postings[0].units.value.currency == "GBP"
  {
  }

  /** A balance without `balance-date` is dropped. */
  lemma BalanceWithoutDateIsSkipped(p: DateParsers)
    ensures Extract(DefaultConfig(Checking), p, RawAccount(Some("ACT-123"), None, [], Some(Decimal(false, 1000, -1)), NullOrMissing)) == []
  {
  }

  /** The provenance id lands in both metadata maps; a missing description reads "Unknown". */
  lemma MetadataAndNarration(p: DateParsers)
    ensures var r := Extract(DefaultConfig(Checking), p,
                             Account("ACT-123", None, [Txn("TRN-unique-id", Epoch(793065600), false, Absent, Some(Decimal(true, 1000, -2)))]));
            && |r| == 1 && r[0].Transaction?
            && r[0].meta.simplefinId == Some("TRN-unique-id")
            && r[0].postings[0].meta == Some(Meta(Some("TRN-unique-id")))
            && r[0].narration == Some("Unknown")
  {
  }

  /** The test helper's transaction: one posting of `amount` USD, an id only when given. */
  function CmpTxn(id: Option<string>, date: Date, amount: Decimal, account: string): Entry {
    Transaction(Meta(id), date, FlagOkay, None, Some("Test Transaction"), {}, {},
                [Posting(account, Some(Amount(amount, "USD")), None)])
  }

  /** The comparator's documented cases. */
  lemma CmpCases()
    ensures var d15 := Date(2024, 1, 15);
            var d16 := Date(2024, 1, 16);
            var fifty := Decimal(true, 5000, -2);
            && Cmp(CmpTxn(Some("TRN-001"), d15, fifty, "Assets:Checking"), CmpTxn(Some("TRN-001"), d15, fifty, "Assets:Checking"))
            && !Cmp(CmpTxn(Some("TRN-001"), d15, fifty, "Assets:Checking"), CmpTxn(Some("TRN-002"), d15, fifty, "Assets:Checking"))
            && !Cmp(CmpTxn(Some("TRN-001"), d15, fifty, "Assets:Checking"), CmpTxn(None, d15, fifty, "Assets:Checking"))
            && !Cmp(CmpTxn(None, d15, fifty, "Assets:Checking"), CmpTxn(Some("TRN-001"), d15, fifty, "Assets:Checking"))
            && Cmp(CmpTxn(None, d15, fifty, "Assets:Checking"), CmpTxn(None, d15, fifty, "Assets:Checking"))
            && !Cmp(CmpTxn(None, d15, fifty, "Assets:Checking"), CmpTxn(None, d16, fifty, "Assets:Checking"))
            && !Cmp(CmpTxn(None, d15, fifty, "Assets:Checking"), CmpTxn(None, d15, Decimal(true, 7500, -2), "Assets:Checking"))
            && !Cmp(CmpTxn(None, d15, fifty, "Assets:Checking"), CmpTxn(None, d15, fifty, "Assets:Savings"))
  {
    NegativeIff(Decimal(true, 7500, -2));
    assert Value(Decimal(true, 5000, -2)) == -50.0;
    assert Value(Decimal(true, 7500, -2)) == -75.0;
  }

  /** Negative zero is not below zero: "-0.00" balances against the income account. */
  lemma NegativeZeroGoesToIncome(cfg: Config)
    ensures CounterAccount(cfg, Decimal(true, 0, -2)) == cfg.incomeAccount
  {
  }
}
