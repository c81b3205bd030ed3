/**
 * Calendar dates and the importer's date normaliser (`_parse_date`).
 *
 * The two library conversions it relies on are kept uninterpreted: they are
 * the fields of a `DateParsers` value, and every result below holds for any
 * choice of them. `fromTimestamp` stands for `datetime.fromtimestamp(n).date()`
 * (which depends on the machine's local timezone) and `fromIsoFormat` for
 * `datetime.fromisoformat(s).date()`, with `None` standing for its ValueError.
 */
module Dates {
  import opened Wrappers

  /** A calendar date, ordered as Python orders `datetime.date` values. */
  datatype Date = Date(year: int, month: int, day: int)

  /** `a <= b` on dates: lexicographic on (year, month, day). */
  predicate Le(a: Date, b: Date) {
    a.year < b.year
    || (a.year == b.year && a.month < b.month)
    || (a.year == b.year && a.month == b.month && a.day <= b.day)
  }

  /** `Le` is a total order. */
  lemma LeIsTotalOrder(a: Date, b: Date, c: Date)
    ensures Le(a, a)
    ensures Le(a, b) || Le(b, a)
    ensures Le(a, b) && Le(b, a) ==> a == b
    ensures Le(a, b) && Le(b, c) ==> Le(a, c)
  {
  }

  /**
   * The JSON value found under a date key, as far as the importer can tell
   * values apart: an integer (Python's `bool` is an `int`, so `true` and
   * `false` arrive here as 1 and 0), a string, `null` or a missing key (`NullOrMissing`), or a
   * list or object (truthy when non-empty).
   */
  datatype DateValue =
    | Epoch(seconds: int)
    | IsoText(text: string)
    | NullOrMissing
    | Composite(nonEmpty: bool)

  /** Python truthiness of a date value (`if not posted`, `and balance_date`). */
  predicate Truthy(v: DateValue)
    ensures Truthy(v) <==> v !in {NullOrMissing, Epoch(0), IsoText(""), Composite(false)}
  {
    match v
    case Epoch(n) => n != 0
    case IsoText(s) => s != ""
    case NullOrMissing => false
    case Composite(nonEmpty) => nonEmpty
  }

  /** The library conversions the normaliser delegates to. */
  datatype DateParsers = DateParsers(fromTimestamp: int -> Date, fromIsoFormat: string -> Option<Date>)

  /** The UTC offset that replaces each `Z`. */
  const UtcOffset: string := "+00:00"

  /** Number of `Z` characters in a string. */
  function CountZ(s: string): nat {
    if s == [] then 0 else (if s[0] == 'Z' then 1 else 0) + CountZ(s[1..])
  }

  /** Python's `s.replace("Z", "+00:00")`: every `Z`, not only a trailing one. */
  function ReplaceZ(s: string): (r: string)
    ensures 'Z' !in r
    ensures |r| == |s| + 5 * CountZ(s)
    ensures 'Z' !in s ==> r == s
  {
    if s == [] then []
    else (if s[0] == 'Z' then UtcOffset else [s[0]]) + ReplaceZ(s[1..])
  }

  /** Replacement works piecewise: it distributes over concatenation. */
  lemma {:induction false} ReplaceZAppend(a: string, b: string)
    ensures ReplaceZ(a + b) == ReplaceZ(a) + ReplaceZ(b)
  {
    if a == [] {
      assert a + b == b;
    } else {
      assert (a + b)[0] == a[0];
      assert (a + b)[1..] == a[1..] + b;
      ReplaceZAppend(a[1..], b);
    }
  }

  /** Replacing twice is replacing once. */
  lemma ReplaceZIdempotent(s: string)
    ensures ReplaceZ(ReplaceZ(s)) == ReplaceZ(s)
  {
  }

  /**
   * `_parse_date`: integers go to the epoch conversion, strings go to the
   * ISO parser after every `Z` is replaced by `+00:00`, and anything else is
   * not a date. It is total: a parse failure is `None`, never an error.
   */
  function ParseDate(p: DateParsers, v: DateValue): (r: Option<Date>)
    ensures v.Epoch? ==> r == Some(p.fromTimestamp(v.seconds))
    ensures v.IsoText? ==> r == p.fromIsoFormat(ReplaceZ(v.text))
    ensures r.Some? ==> v.Epoch? || v.IsoText?
  {
    match v
    case Epoch(n) => Some(p.fromTimestamp(n))
    case IsoText(s) => p.fromIsoFormat(ReplaceZ(s))
    case NullOrMissing => None
    case Composite(_) => None
  }

  /**
   * A string and its `Z`-replaced form normalise to the same date, so the
   * `Z` suffix and the `+00:00` suffix are interchangeable.
   */
  lemma ZuluSpellingsAgree(p: DateParsers, prefix: string)
    ensures ParseDate(p, IsoText(prefix + "Z")) == ParseDate(p, IsoText(prefix + UtcOffset))
    ensures ParseDate(p, IsoText(prefix)) == ParseDate(p, IsoText(ReplaceZ(prefix)))
  {
    ReplaceZAppend(prefix, "Z");
    ReplaceZAppend(prefix, UtcOffset);
    assert ReplaceZ("Z") == UtcOffset;
    ReplaceZIdempotent(prefix);
  }

  /** A `Z` in the middle is replaced as well as a trailing one. */
  lemma EveryZIsReplaced(a: string, b: string)
    ensures ReplaceZ(a + "Z" + b + "Z") == ReplaceZ(a) + UtcOffset + ReplaceZ(b) + UtcOffset
  {
    var zulu := "Z";
    ReplaceZOne(zulu);
    ReplaceZAppend(a, zulu);
    ReplaceZAppend(a + zulu, b);
    ReplaceZAppend(a + zulu + b, zulu);
  }

  /** On a one-character string the replacement maps `Z` to the offset and keeps anything else. */
  lemma ReplaceZOne(s: string)
    requires |s| == 1
    ensures ReplaceZ(s) == if s[0] == 'Z' then UtcOffset else s
  {
    assert s[1..] == [];
  }
}
