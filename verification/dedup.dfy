/**
 * The importer's duplicate comparator (`cmp`): provenance ids decide when
 * both entries carry one; an entry with an id never matches one without;
 * otherwise date and first posting are compared.
 */
module Dedup {
  import opened Wrappers
  import opened Decimals
  import opened Dates
  import opened Ledger
  import opened Importer

  /** `meta.get("simplefin_id")`. */
  function IdOf(e: Entry): Option<string> {
    e.meta.simplefinId
  }

  /** The entry's provenance id is truthy: present and not the empty string. */
  predicate HasId(e: Entry) {
    IdOf(e).Some? && IdOf(e).value != ""
  }

  /** The first-posting comparison of the structural fallback. */
  predicate SameFirstPosting(a: Entry, b: Entry)
    requires a.Transaction? && b.Transaction?
  {
    a.postings == [] || b.postings == []
    || (a.postings[0].account == b.postings[0].account
        && SameUnits(a.postings[0].units, b.postings[0].units))
  }

  /** `cmp(entry1, entry2)`: whether the two entries are the same real-world event. */
  function Cmp(a: Entry, b: Entry): (r: bool)
    ensures r ==> a.Transaction? && b.Transaction?
    ensures a.Transaction? && b.Transaction? && HasId(a) && HasId(b) ==> (r <==> IdOf(a) == IdOf(b))
    ensures HasId(a) != HasId(b) ==> !r
    ensures !HasId(a) && !HasId(b) && a.date != b.date ==> !r
  {
    if !a.Transaction? || !b.Transaction? then false
    else if HasId(a) && HasId(b) then IdOf(a).value == IdOf(b).value
    else if HasId(a) || HasId(b) then false
    else if a.date != b.date then false
    else SameFirstPosting(a, b)
  }

  /**
   * The facts the structural fallback looks at: the date and, when there is
   * one, the first posting's account and units.
   */
  function Fingerprint(e: Entry): (Date, Option<(string, Option<(real, string)>)>)
    requires e.Transaction?
  {
    (e.date, if e.postings == [] then None else Some((e.postings[0].account, UnitsKey(e.postings[0].units))))
  }

  /**
   * Between two transactions without ids and with postings, `cmp` holds
   * exactly when their fingerprints agree: narration, the counter posting
   * and every other field are ignored.
   */
  lemma CmpWithoutIdsIsFingerprintEquality(a: Entry, b: Entry)
    requires a.Transaction? && b.Transaction? && !HasId(a) && !HasId(b)
    requires a.postings != [] && b.postings != []
    ensures Cmp(a, b) <==> Fingerprint(a) == Fingerprint(b)
  {
  }

  /** Without ids, a transaction with no postings matches every transaction of its date without an id. */
  lemma CmpWithoutPostings(a: Entry, b: Entry)
    requires a.Transaction? && b.Transaction? && !HasId(a) && !HasId(b)
    requires a.postings == [] || b.postings == []
    ensures Cmp(a, b) <==> a.date == b.date
  {
  }

  /** An empty id counts as no id at all: clearing it changes no comparison. */
  lemma EmptyIdIsNoId(a: Entry, b: Entry)
    requires IdOf(a) == Some("")
    ensures Cmp(a, b) == Cmp(a.(meta := Meta(None)), b)
    ensures Cmp(b, a) == Cmp(b, a.(meta := Meta(None)))
  {
  }

  /** `cmp` does not depend on argument order. */
  lemma CmpSymmetric(a: Entry, b: Entry)
    ensures Cmp(a, b) == Cmp(b, a)
  {
  }

  /** Every transaction is a duplicate of itself, so re-importing a file finds every entry. */
  lemma CmpReflexive(a: Entry)
    ensures Cmp(a, a) <==> a.Transaction?
  {
  }

  /**
   * Among transactions that all have a first posting, `cmp` is transitive,
   * so it partitions them into duplicate classes.
   */
  lemma CmpTransitive(a: Entry, b: Entry, c: Entry)
    requires a.Transaction? && b.Transaction? && c.Transaction?
    requires a.postings != [] && b.postings != [] && c.postings != []
    requires Cmp(a, b) && Cmp(b, c)
    ensures Cmp(a, c)
  {
    if !HasId(a) {
      CmpWithoutIdsIsFingerprintEquality(a, b);
      CmpWithoutIdsIsFingerprintEquality(b, c);
      CmpWithoutIdsIsFingerprintEquality(a, c);
    }
  }

  /**
   * Transitivity fails once a transaction without postings is involved:
   * it matches two transactions of its date that do not match each other.
   */
  lemma CmpNotTransitiveWithoutPostings(d: Date, x: Amount, y: Amount)
    requires !NumEq(x.number, y.number)
    ensures var a := Transaction(Meta(None), d, FlagOkay, None, None, {}, {}, [Posting("Assets:Cash", Some(x), None)]);
            var b := Transaction(Meta(None), d, FlagOkay, None, None, {}, {}, []);
            var c := Transaction(Meta(None), d, FlagOkay, None, None, {}, {}, [Posting("Assets:Cash", Some(y), None)]);
            Cmp(a, b) && Cmp(b, c) && !Cmp(a, c)
  {
  }

  /**
   * Two transactions built by the importer from sources with non-empty ids
   * are duplicates exactly when the source ids are equal, whatever else differs.
   */
  lemma BuiltTransactionsMatchById(
    cfg: Config, p: DateParsers, t1: RawTransaction, t2: RawTransaction,
    account1: string, account2: string, currency1: string, currency2: string)
    requires ExtractTransaction(cfg, p, t1, account1, currency1).Success?
    requires ExtractTransaction(cfg, p, t2, account2, currency2).Success?
    requires t1.id.Present? && t1.id.value != "" && t2.id.Present? && t2.id.value != ""
    ensures Cmp(ExtractTransaction(cfg, p, t1, account1, currency1).value,
                ExtractTransaction(cfg, p, t2, account2, currency2).value)
            <==> t1.id == t2.id
  {
  }

  /**
   * A built transaction whose source has no id carries the empty id; it is
   * compared with another id-less transaction on date, account and amount.
   */
  lemma BuiltWithoutIdComparesStructurally(
    cfg: Config, p: DateParsers, t1: RawTransaction, t2: RawTransaction, account: string, currency: string)
    requires ExtractTransaction(cfg, p, t1, account, currency).Success?
    requires ExtractTransaction(cfg, p, t2, account, currency).Success?
    requires t1.id.Absent? && t2.id.Absent?
    ensures Cmp(ExtractTransaction(cfg, p, t1, account, currency).value,
                ExtractTransaction(cfg, p, t2, account, currency).value)
            <==> ParseDate(p, t1.posted) == ParseDate(p, t2.posted) && NumEq(t1.amount.value, t2.amount.value)
  {
  }
}
