/**
 * The SimpleFIN importer's extraction logic, starting from an account record
 * that is already loaded in memory: building one transaction
 * (`_extract_transaction`), building the balance assertion (`_make_balance`)
 * and the driver that maps the account, resolves the currency, collects the
 * entries and sorts them by date (`extract`, after the JSON is read).
 */
module Importer {
  import opened Wrappers
  import opened Decimals
  import opened Dates
  import opened Ledger
  import opened DateSort

  /**
   * A JSON object key read with `dict.get(key, default)`: the key is
   * missing, holds `null`, or holds a value.
   */
  datatype Field<T> = Absent | Null | Present(value: T) {

    /** `get(key, default)`: the default replaces a missing key only; `null` stays `None`. */
    function Get(default: T): Option<T> {
      match this
      case Absent => Some(default)
      case Null => None
      case Present(v) => Some(v)
    }
  }

  /** The importer's configuration (its constructor arguments). */
  datatype Config = Config(
    accountMapping: map<string, string>,
    currency: string,
    expenseAccount: string,
    incomeAccount: string)

  /** The constructor's defaults for everything but the account mapping. */
  function DefaultConfig(accountMapping: map<string, string>): Config {
    Config(accountMapping, "USD", "Expenses:Uncategorized", "Income:Uncategorized")
  }

  /**
   * One element of the record's `transactions` list. `pending` is the
   * truthiness of the `pending` key (missing counts as false); `amount` is
   * the exact decimal of the `amount` key, `None` when missing or null.
   */
  datatype RawTransaction = RawTransaction(
    id: Field<string>,
    posted: DateValue,
    pending: bool,
    description: Field<string>,
    amount: Option<Decimal>)

  /**
   * A loaded account record. `id` and `currency` are `None` when missing;
   * a missing `transactions` key is the empty list; `balance` is `None`
   * when missing or null; a missing `balance-date` is `NullOrMissing`.
   */
  datatype RawAccount = RawAccount(
    id: Option<string>,
    currency: Option<string>,
    transactions: seq<RawTransaction>,
    balance: Option<Decimal>,
    balanceDate: DateValue)

  /** Why `_extract_transaction` produced nothing, in the order the checks run. */
  datatype SkipReason = NotPosted | IsPending | UnparseableDate | MissingAmount

  const UnknownNarration: string := "Unknown"

  /** The provenance id a transaction is tagged with: its `id`, `""` when missing. */
  function ProvenanceId(t: RawTransaction): (r: Option<string>)
    ensures t.id.Absent? ==> r == Some("")
    ensures r.None? <==> t.id.Null?
    ensures t.id.Present? ==> r == Some(t.id.value)
  {
    t.id.Get("")
  }

  /** The account that receives the other side of an amount. */
  function CounterAccount(cfg: Config, amt: Decimal): (r: string)
    ensures r == cfg.expenseAccount || r == cfg.incomeAccount
    ensures amt.negative && amt.coefficient > 0 ==> r == cfg.expenseAccount
    ensures !amt.negative || amt.coefficient == 0 ==> r == cfg.incomeAccount
  {
    NegativeIff(amt);
    if IsNegative(amt) then cfg.expenseAccount else cfg.incomeAccount
  }

  /**
   * `_extract_transaction`: the skip rules in order (falsy `posted`, truthy
   * `pending`, unparseable date, missing `amount`), then a transaction whose
   * first posting carries the exact amount on the mapped account and whose
   * second posting is left for the ledger to balance.
   */
  function ExtractTransaction(cfg: Config, p: DateParsers, t: RawTransaction, account: string, currency: string)
    : (r: Result<Entry, SkipReason>)
    ensures r.Success? <==> Truthy(t.posted) && !t.pending && ParseDate(p, t.posted).Some? && t.amount.Some?
    ensures !Truthy(t.posted) ==> r == Failure(NotPosted)
    ensures Truthy(t.posted) && t.pending ==> r == Failure(IsPending)
    ensures Truthy(t.posted) && !t.pending && ParseDate(p, t.posted).None? ==> r == Failure(UnparseableDate)
    ensures Truthy(t.posted) && !t.pending && ParseDate(p, t.posted).Some? && t.amount.None? ==>
              r == Failure(MissingAmount)
    ensures r.Success? ==> r.value.Transaction? && Built(cfg, p, t, account, currency, r.value)
  {
    if !Truthy(t.posted) then Failure(NotPosted)
    else if t.pending then Failure(IsPending)
    else match ParseDate(p, t.posted)
      case None => Failure(UnparseableDate)
      case Some(date) =>
        match t.amount
        case None => Failure(MissingAmount)
        case Some(amt) =>
          var meta := Meta(ProvenanceId(t));
          var primary := Posting(account, Some(Amount(amt, currency)), Some(meta));
          var counter := Posting(CounterAccount(cfg, amt), None, None);
          Success(Transaction(meta, date, FlagOkay, None, t.description.Get(UnknownNarration), {}, {}, [primary, counter]))
  }

  /**
   * What a built transaction looks like: dated by `posted`, narration from
   * `description` (default "Unknown"), the provenance id in the entry's
   * metadata and in the first posting's, exactly two postings, the first
   * holding the source amount decimal-for-decimal in the resolved currency,
   * the second on the expense account for a negative amount and on the
   * income account otherwise, with neither units nor metadata.
   */
  predicate Built(cfg: Config, p: DateParsers, t: RawTransaction, account: string, currency: string, e: Entry)
    requires e.Transaction?
  {
    && ParseDate(p, t.posted).Some? && t.amount.Some?
    && e.date == ParseDate(p, t.posted).value
    && e.flag == FlagOkay && e.payee == None
    && e.narration == t.description.Get(UnknownNarration)
    && e.tags == {} && e.links == {}
    && e.meta == Meta(ProvenanceId(t))
    && |e.postings| == 2
    && e.postings[0] == Posting(account, Some(Amount(t.amount.value, currency)), Some(Meta(ProvenanceId(t))))
    && e.postings[1].units == None && e.postings[1].meta == None
    && (IsNegative(t.amount.value) ==> e.postings[1].account == cfg.expenseAccount)
    && (!IsNegative(t.amount.value) ==> e.postings[1].account == cfg.incomeAccount)
  }

  /**
   * `_make_balance`: a balance assertion of the exact decimal on the mapped
   * account, with no provenance id; nothing when the date does not parse.
   */
  function MakeBalance(p: DateParsers, account: string, balance: Decimal, balanceDate: DateValue, currency: string)
    : (r: Option<Entry>)
    ensures r.Some? <==> ParseDate(p, balanceDate).Some?
    ensures r.Some? ==> r.value.Balance? && r.value.date == ParseDate(p, balanceDate).value
    ensures r.Some? ==> r.value.account == account && r.value.amount == Amount(balance, currency)
    ensures r.Some? ==> r.value.meta.simplefinId == None
  {
    match ParseDate(p, balanceDate)
    case None => None
    case Some(date) => Some(Balance(Meta(None), date, account, Amount(balance, currency)))
  }

  /** The entries built from `ts`, in source order, skipped ones left out. */
  function BuildTransactions(cfg: Config, p: DateParsers, ts: seq<RawTransaction>, account: string, currency: string)
    : (r: seq<Entry>)
    ensures |r| <= |ts|
    ensures forall e :: e in r ==> exists i :: 0 <= i < |ts| && ExtractTransaction(cfg, p, ts[i], account, currency) == Success(e)
    ensures forall i :: 0 <= i < |ts| && ExtractTransaction(cfg, p, ts[i], account, currency).Success? ==>
              ExtractTransaction(cfg, p, ts[i], account, currency).value in r
  {
    if ts == [] then []
    else
      var rest := BuildTransactions(cfg, p, ts[1..], account, currency);
      assert forall i :: 1 <= i < |ts| ==> ts[i] == ts[1..][i - 1];
      match ExtractTransaction(cfg, p, ts[0], account, currency)
      case Success(e) => [e] + rest
      case Failure(_) => rest
  }

  /**
   * Building is done transaction by transaction: the entries of a list are
   * those of its first part followed by those of the rest, so source order
   * is kept.
   */
  lemma {:induction false} BuildTransactionsAppend(
    cfg: Config, p: DateParsers, ts: seq<RawTransaction>, us: seq<RawTransaction>, account: string, currency: string)
    ensures BuildTransactions(cfg, p, ts + us, account, currency)
            == BuildTransactions(cfg, p, ts, account, currency) + BuildTransactions(cfg, p, us, account, currency)
  {
    if ts == [] {
      assert ts + us == us;
    } else {
      assert (ts + us)[0] == ts[0];
      assert (ts + us)[1..] == ts[1..] + us;
      BuildTransactionsAppend(cfg, p, ts[1..], us, account, currency);
    }
  }

  /** A single transaction contributes its built entry, or nothing when it is skipped. */
  lemma BuildOne(cfg: Config, p: DateParsers, t: RawTransaction, account: string, currency: string)
    ensures BuildTransactions(cfg, p, [t], account, currency)
            == match ExtractTransaction(cfg, p, t, account, currency) { case Success(e) => [e] case Failure(_) => [] }
  {
    assert [t][1..] == [];
  }

  /** The balance assertion `extract` adds, if `balance` is not null, `balance-date` truthy and parseable. */
  function BalanceFor(p: DateParsers, rec: RawAccount, account: string, currency: string): (r: Option<Entry>)
    ensures r.Some? <==> rec.balance.Some? && Truthy(rec.balanceDate) && ParseDate(p, rec.balanceDate).Some?
  {
    if rec.balance.Some? && Truthy(rec.balanceDate) then
      MakeBalance(p, account, rec.balance.value, rec.balanceDate, currency)
    else None
  }

  /** The record's `currency`, or the configured default when the record has none. */
  function ResolveCurrency(cfg: Config, rec: RawAccount): (r: string)
    ensures rec.currency.Some? ==> r == rec.currency.value
    ensures rec.currency.None? ==> r == cfg.currency
  {
    rec.currency.GetOr(cfg.currency)
  }

  /** The record's account id is a key of the account mapping. */
  predicate Mapped(cfg: Config, rec: RawAccount)
    ensures rec.id.None? ==> !Mapped(cfg, rec)
    ensures rec.id.Some? ==> (Mapped(cfg, rec) <==> rec.id.value in cfg.accountMapping.Keys)
  {
    rec.id.Some? && rec.id.value in cfg.accountMapping
  }

  /** The entries `extract` collects before sorting: transactions in source order, then the balance. */
  function Collected(cfg: Config, p: DateParsers, rec: RawAccount): (r: seq<Entry>)
    requires Mapped(cfg, rec)
    ensures |r| <= |rec.transactions| + 1
    ensures forall e :: e in r && e.Balance? ==>
              Some(e) == BalanceFor(p, rec, cfg.accountMapping[rec.id.value], ResolveCurrency(cfg, rec))
    ensures forall e :: e in r ==> e.Transaction? || e.Balance?
    ensures BalanceFor(p, rec, cfg.accountMapping[rec.id.value], ResolveCurrency(cfg, rec)).Some? ==>
              r != [] && Some(r[|r| - 1]) == BalanceFor(p, rec, cfg.accountMapping[rec.id.value], ResolveCurrency(cfg, rec))
  {
    var account := cfg.accountMapping[rec.id.value];
    var currency := ResolveCurrency(cfg, rec);
    BuildTransactions(cfg, p, rec.transactions, account, currency)
      + match BalanceFor(p, rec, account, currency) { case Some(b) => [b] case None => [] }
  }

  /**
   * `extract` after the record is loaded: nothing for an unmapped account;
   * otherwise the collected entries, stably sorted by date.
   */
  function Extract(cfg: Config, p: DateParsers, rec: RawAccount): (r: seq<Entry>)
    ensures !Mapped(cfg, rec) ==> r == []
    ensures Sorted(r)
    ensures Mapped(cfg, rec) ==> multiset(r) == multiset(Collected(cfg, p, rec))
    ensures Mapped(cfg, rec) ==> forall d :: WithDate(r, d) == WithDate(Collected(cfg, p, rec), d)
  {
    if !Mapped(cfg, rec) then [] else SortByDate(Collected(cfg, p, rec))
  }
}
