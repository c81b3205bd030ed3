/**
 * The final step of `extract`: `entries.sort(key=lambda e: e.date)`.
 * Python's list sort is stable, so the result is ordered by date and entries
 * that share a date keep their relative order. `SortByDate` is an insertion
 * sort with that contract, and `SortedStableUnique` shows the contract pins
 * the result down completely: every stable sort by date gives the same list.
 */
module DateSort {
  import opened Dates
  import opened Ledger

  /** Dates never decrease along the sequence. */
  predicate Sorted(s: seq<Entry>) {
    forall i, j :: 0 <= i < j < |s| ==> Le(s[i].date, s[j].date)
  }

  /** The entries of `s` dated `d`, in their order in `s`. */
  function WithDate(s: seq<Entry>, d: Date): seq<Entry> {
    if s == [] then [] else (if s[0].date == d then [s[0]] else []) + WithDate(s[1..], d)
  }

  /** The entries kept by `WithDate` are exactly those of `s` dated `d`. */
  lemma {:induction false} WithDateMembers(s: seq<Entry>, d: Date, e: Entry)
    ensures e in WithDate(s, d) <==> e in s && e.date == d
  {
    if s != [] {
      WithDateMembers(s[1..], d, e);
      assert s == [s[0]] + s[1..];
    }
  }

  /** Filtering by date distributes over concatenation. */
  lemma {:induction false} WithDateAppend(a: seq<Entry>, b: seq<Entry>, d: Date)
    ensures WithDate(a + b, d) == WithDate(a, d) + WithDate(b, d)
  {
    if a == [] {
      assert a + b == b;
    } else {
      assert (a + b)[0] == a[0];
      assert (a + b)[1..] == a[1..] + b;
      WithDateAppend(a[1..], b, d);
    }
  }

  /** Places `e` before the first entry of `s` dated on or after it. */
  function Insert(e: Entry, s: seq<Entry>): seq<Entry> {
    if s == [] || Le(e.date, s[0].date) then [e] + s
    else [s[0]] + Insert(e, s[1..])
  }

  lemma {:induction false} InsertMultiset(e: Entry, s: seq<Entry>)
    ensures multiset(Insert(e, s)) == multiset(s) + multiset{e}
  {
    if s != [] && !Le(e.date, s[0].date) {
      InsertMultiset(e, s[1..]);
      assert s == [s[0]] + s[1..];
    }
  }

  lemma {:induction false} InsertSorted(e: Entry, s: seq<Entry>)
    requires Sorted(s)
    ensures Sorted(Insert(e, s))
  {
    if s != [] && !Le(e.date, s[0].date) {
      var rest := Insert(e, s[1..]);
      InsertSorted(e, s[1..]);
      InsertMultiset(e, s[1..]);
      forall j | 0 <= j < |rest|
        ensures Le(s[0].date, rest[j].date)
      {
        assert rest[j] in multiset(rest);
        assert rest[j] in multiset(s[1..]) || rest[j] == e;
        if rest[j] != e {
          assert rest[j] in s[1..];
        }
      }
    }
  }

  /** Inserting `e` adds it at the front of its date's group and nowhere else. */
  lemma {:induction false} InsertWithDate(e: Entry, s: seq<Entry>, d: Date)
    ensures WithDate(Insert(e, s), d) == if e.date == d then [e] + WithDate(s, d) else WithDate(s, d)
  {
    if s == [] || Le(e.date, s[0].date) {
      assert ([e] + s)[1..] == s;
    } else {
      InsertWithDate(e, s[1..], d);
      assert ([s[0]] + Insert(e, s[1..]))[1..] == Insert(e, s[1..]);
    }
  }

  lemma InsertWithDateAll(e: Entry, s: seq<Entry>)
    ensures forall d :: WithDate(Insert(e, s), d) == if e.date == d then [e] + WithDate(s, d) else WithDate(s, d)
  {
    forall d {
      InsertWithDate(e, s, d);
    }
  }

  /**
   * A stable sort by date: the result is sorted, is a permutation of the
   * input, and lists the entries of each date in their input order.
   */
  function SortByDate(s: seq<Entry>): (r: seq<Entry>)
    ensures Sorted(r)
    ensures multiset(r) == multiset(s)
    ensures forall d :: WithDate(r, d) == WithDate(s, d)
  {
    if s == [] then []
    else
      var rest := SortByDate(s[1..]);
      InsertSorted(s[0], rest);
      InsertMultiset(s[0], rest);
      InsertWithDateAll(s[0], rest);
      assert s == [s[0]] + s[1..];
      Insert(s[0], rest)
  }

  /** Every entry of a non-empty sorted sequence is dated no earlier than its head. */
  lemma HeadIsEarliest(s: seq<Entry>, e: Entry)
    requires Sorted(s) && e in s
    ensures Le(s[0].date, e.date)
  {
    var k :| 0 <= k < |s| && s[k] == e;
    if k > 0 {
      assert Le(s[0].date, s[k].date);
    }
  }

  /**
   * Sortedness plus per-date order determine the sequence: two sorted
   * sequences that list the same entries for every date are equal.
   */
  lemma {:induction false} SortedStableUnique(a: seq<Entry>, b: seq<Entry>)
    requires Sorted(a) && Sorted(b)
    requires forall d :: WithDate(a, d) == WithDate(b, d)
    ensures a == b
  {
    if a == [] {
      if b != [] {
        WithDateMembers(b, b[0].date, b[0]);
      }
    } else {
      var da := a[0].date;
      WithDateMembers(a, da, a[0]);
      assert WithDate(b, da) != [];
      assert b != [];
      var db := b[0].date;
      WithDateMembers(b, db, b[0]);
      WithDateMembers(a, db, b[0]);
      WithDateMembers(b, da, a[0]);
      HeadIsEarliest(a, b[0]);
      HeadIsEarliest(b, a[0]);
      LeIsTotalOrder(da, db, da);
      assert da == db;
      assert WithDate(a, da)[0] == a[0];
      assert WithDate(b, da)[0] == b[0];
      assert a[0] == b[0];
      forall d
        ensures WithDate(a[1..], d) == WithDate(b[1..], d)
      {
        var head := if a[0].date == d then [a[0]] else [];
        assert WithDate(a, d) == head + WithDate(a[1..], d);
        assert WithDate(b, d) == head + WithDate(b[1..], d);
        assert WithDate(a[1..], d) == WithDate(a, d)[|head|..];
        assert WithDate(b[1..], d) == WithDate(b, d)[|head|..];
      }
      SortedTail(a);
      SortedTail(b);
      SortedStableUnique(a[1..], b[1..]);
      assert a == [a[0]] + a[1..];
      assert b == [b[0]] + b[1..];
    }
  }

  lemma SortedTail(s: seq<Entry>)
    requires Sorted(s) && s != []
    ensures Sorted(s[1..])
  {
  }

  /** Any sequence that is a stable sort of `s` by date is `SortByDate(s)`. */
  lemma StableSortIsUnique(s: seq<Entry>, t: seq<Entry>)
    requires Sorted(t)
    requires forall d :: WithDate(t, d) == WithDate(s, d)
    ensures t == SortByDate(s)
  {
    SortedStableUnique(t, SortByDate(s));
  }
}
