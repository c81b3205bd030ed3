/**
 * What `extract` promises about its whole output, proved from the contracts
 * of the builders and of the stable sort.
 */
module Extraction {
  import opened Wrappers
  import opened Decimals
  import opened Dates
  import opened Ledger
  import opened DateSort
  import opened Importer

  /** The mapped ledger account of a mapped record. */
  function AccountOf(cfg: Config, rec: RawAccount): string
    requires Mapped(cfg, rec)
  {
    cfg.accountMapping[rec.id.value]
  }

  /** The transactions of a mapped record that survive the skip rules, in source order. */
  function TransactionsOf(cfg: Config, p: DateParsers, rec: RawAccount): seq<Entry>
    requires Mapped(cfg, rec)
  {
    BuildTransactions(cfg, p, rec.transactions, AccountOf(cfg, rec), ResolveCurrency(cfg, rec))
  }

  /** Membership in the sorted output is membership in what was collected. */
  lemma InOutputIffCollected(cfg: Config, p: DateParsers, rec: RawAccount, e: Entry)
    requires Mapped(cfg, rec)
    ensures e in Extract(cfg, p, rec) <==> e in Collected(cfg, p, rec)
  {
    var r := Extract(cfg, p, rec);
    var c := Collected(cfg, p, rec);
    assert e in r <==> e in multiset(r);
    assert e in c <==> e in multiset(c);
  }

  /**
   * Every output entry is a transaction built from some source transaction
   * or the balance assertion, and every built transaction and an emitted
   * balance are in the output.
   */
  lemma ExtractMembers(cfg: Config, p: DateParsers, rec: RawAccount, e: Entry)
    requires Mapped(cfg, rec)
    ensures e in Extract(cfg, p, rec) <==>
              (exists i :: 0 <= i < |rec.transactions|
                 && ExtractTransaction(cfg, p, rec.transactions[i], AccountOf(cfg, rec), ResolveCurrency(cfg, rec)) == Success(e))
              || BalanceFor(p, rec, AccountOf(cfg, rec), ResolveCurrency(cfg, rec)) == Some(e)
  {
    InOutputIffCollected(cfg, p, rec, e);
  }

  /**
   * Every transaction in the output comes from a source transaction that
   * was posted, is not pending, has a parseable date and an amount, and
   * carries that amount decimal-for-decimal.
   */
  lemma OnlySettledSourcesReachTheLedger(cfg: Config, p: DateParsers, rec: RawAccount, e: Entry)
    requires e in Extract(cfg, p, rec) && e.Transaction?
    ensures Mapped(cfg, rec)
    ensures exists i :: 0 <= i < |rec.transactions|
              && Truthy(rec.transactions[i].posted) && !rec.transactions[i].pending
              && ParseDate(p, rec.transactions[i].posted) == Some(e.date)
              && rec.transactions[i].amount.Some?
              && |e.postings| == 2
              && e.postings[0].units == Some(Amount(rec.transactions[i].amount.value, ResolveCurrency(cfg, rec)))
  {
    InOutputIffCollected(cfg, p, rec, e);
    var account := AccountOf(cfg, rec);
    var currency := ResolveCurrency(cfg, rec);
    if e in TransactionsOf(cfg, p, rec) {
      var i :| 0 <= i < |rec.transactions|
               && ExtractTransaction(cfg, p, rec.transactions[i], account, currency) == Success(e);
      assert Built(cfg, p, rec.transactions[i], account, currency, e);
    }
  }

  /**
   * Every output transaction has exactly two postings, the first on the
   * mapped account in the record's currency (the configured default when the
   * record has none) and the second on the expense or income account; every
   * output balance is on the mapped account in that currency; nothing else
   * is produced.
   */
  lemma ExtractAccountsAndCurrency(cfg: Config, p: DateParsers, rec: RawAccount, e: Entry)
    requires e in Extract(cfg, p, rec)
    ensures Mapped(cfg, rec)
    ensures e.Transaction? || e.Balance?
    ensures e.Transaction? ==>
              && |e.postings| == 2
              && e.postings[0].account == cfg.accountMapping[rec.id.value]
              && e.postings[0].units.Some?
              && (rec.currency.Some? ==> e.postings[0].units.value.currency == rec.currency.value)
              && (rec.currency.None? ==> e.postings[0].units.value.currency == cfg.currency)
              && (e.postings[1].account == cfg.expenseAccount || e.postings[1].account == cfg.incomeAccount)
    ensures e.Balance? ==>
              && e.account == cfg.accountMapping[rec.id.value]
              && (rec.currency.Some? ==> e.amount.currency == rec.currency.value)
              && (rec.currency.None? ==> e.amount.currency == cfg.currency)
  {
    InOutputIffCollected(cfg, p, rec, e);
    var account := AccountOf(cfg, rec);
    var currency := ResolveCurrency(cfg, rec);
    if e in TransactionsOf(cfg, p, rec) {
      var i :| 0 <= i < |rec.transactions|
               && ExtractTransaction(cfg, p, rec.transactions[i], account, currency) == Success(e);
      assert Built(cfg, p, rec.transactions[i], account, currency, e);
    } else {
      assert BalanceFor(p, rec, account, currency) == Some(e);
    }
  }

  /**
   * A balance assertion is in the output exactly when the account is
   * mapped, `balance` is not null, `balance-date` is truthy and parses; it
   * carries the exact balance decimal and no provenance id.
   */
  lemma ExtractBalance(cfg: Config, p: DateParsers, rec: RawAccount)
    ensures (exists e :: e in Extract(cfg, p, rec) && e.Balance?) <==>
              Mapped(cfg, rec) && rec.balance.Some? && Truthy(rec.balanceDate) && ParseDate(p, rec.balanceDate).Some?
    ensures forall e :: e in Extract(cfg, p, rec) && e.Balance? ==>
              && e.amount.number == rec.balance.value
              && e.date == ParseDate(p, rec.balanceDate).value
              && e.meta.simplefinId == None
  {
    if Mapped(cfg, rec) {
      var account := AccountOf(cfg, rec);
      var currency := ResolveCurrency(cfg, rec);
      var b := BalanceFor(p, rec, account, currency);
      forall e | e in Extract(cfg, p, rec)
        ensures e.Balance? <==> b == Some(e)
      {
        InOutputIffCollected(cfg, p, rec, e);
        if e in TransactionsOf(cfg, p, rec) {
          var i :| 0 <= i < |rec.transactions|
                   && ExtractTransaction(cfg, p, rec.transactions[i], account, currency) == Success(e);
        }
      }
      if b.Some? {
        InOutputIffCollected(cfg, p, rec, b.value);
      }
    }
  }

  /** The output holds one entry per built transaction, plus one for an emitted balance. */
  lemma ExtractLength(cfg: Config, p: DateParsers, rec: RawAccount)
    requires Mapped(cfg, rec)
    ensures |Extract(cfg, p, rec)| ==
              |TransactionsOf(cfg, p, rec)|
              + (if BalanceFor(p, rec, AccountOf(cfg, rec), ResolveCurrency(cfg, rec)).Some? then 1 else 0)
  {
    var r := Extract(cfg, p, rec);
    assert |multiset(r)| == |multiset(Collected(cfg, p, rec))|;
  }

  /**
   * Entries of one date come out in source order, and the balance assertion
   * comes after every transaction of its date.
   */
  lemma BalanceComesLastInItsDate(cfg: Config, p: DateParsers, rec: RawAccount, b: Entry)
    requires Mapped(cfg, rec)
    requires BalanceFor(p, rec, AccountOf(cfg, rec), ResolveCurrency(cfg, rec)) == Some(b)
    ensures WithDate(Extract(cfg, p, rec), b.date) == WithDate(TransactionsOf(cfg, p, rec), b.date) + [b]
  {
    var ts := TransactionsOf(cfg, p, rec);
    WithDateAppend(ts, [b], b.date);
    assert [b][1..] == [];
  }

  /**
   * Whatever stable sort by date Python applies, the result is this one:
   * a sorted list agreeing with the collected entries date by date is the output.
   */
  lemma ExtractIsTheStableSort(cfg: Config, p: DateParsers, rec: RawAccount, t: seq<Entry>)
    requires Mapped(cfg, rec)
    requires Sorted(t)
    requires forall d :: WithDate(t, d) == WithDate(Collected(cfg, p, rec), d)
    ensures t == Extract(cfg, p, rec)
  {
    StableSortIsUnique(Collected(cfg, p, rec), t);
  }
}
