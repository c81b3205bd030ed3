/**
 * The ledger shapes the importer produces and the deduplicator compares:
 * amounts, postings and directives, reduced to the fields the importer sets
 * or reads. Cost, price and posting flag are always `None` in what the
 * importer builds and are not represented; entry metadata keeps only the
 * `simplefin_id` key (the source filename and line number are constants).
 */
module Ledger {
  import opened Wrappers
  import opened Decimals
  import opened Dates

  /** A number together with its currency (beancount's `Amount`). */
  datatype Amount = Amount(number: Decimal, currency: string)

  /**
   * Entry or posting metadata. `simplefinId` is `None` when the key is
   * absent or holds `null`; `meta.get("simplefin_id")` does not tell these apart.
   */
  datatype Meta = Meta(simplefinId: Option<string>)

  /** One leg of a transaction; `units == None` leaves the amount to be inferred. */
  datatype Posting = Posting(account: string, units: Option<Amount>, meta: Option<Meta>)

  /** The flag of a completed transaction (beancount's `FLAG_OKAY`). */
  const FlagOkay: char := '*'

  /**
   * A ledger directive. Every kind other than a transaction or a balance
   * assertion (open, close, note, ...) is an `OtherDirective`.
   */
  datatype Entry =
    | Transaction(meta: Meta, date: Date, flag: char, payee: Option<string>, narration: Option<string>,
                  tags: set<string>, links: set<string>, postings: seq<Posting>)
    | Balance(meta: Meta, date: Date, account: string, amount: Amount)
    | OtherDirective(meta: Meta, date: Date)

  /** The number and currency of optional units, with the number as the rational it denotes. */
  function UnitsKey(u: Option<Amount>): Option<(real, string)> {
    match u
    case None => None
    case Some(a) => Some((Value(a.number), a.currency))
  }

  /**
   * Python's `==` on two optional amounts (namedtuple equality, numeric on
   * the number): equal exactly when both are absent, or both present with
   * the same currency and numbers that denote the same rational.
   */
  predicate SameUnits(u: Option<Amount>, v: Option<Amount>)
    ensures SameUnits(u, v) <==> UnitsKey(u) == UnitsKey(v)
  {
    match (u, v)
    case (None, None) => true
    case (Some(a), Some(b)) => NumEq(a.number, b.number) && a.currency == b.currency
    case _ => false
  }
}
