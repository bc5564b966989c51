/** The jurisdiction matcher: the countries whose legal limit is at or above the
    estimate, highest limit first, ties in table order (a stable sort). */
module Matcher {

  datatype CountryLimit = CountryLimit(country: string, limit: real)

  /** The limit value the country table uses for "no legal limit". */
  const NoLimit: real := 100.0

  /** The entries of `s` whose limit is exactly `l`, in order. */
  function WithLimit(s: seq<CountryLimit>, l: real): (r: seq<CountryLimit>)
    ensures forall c :: c in r <==> c in s && c.limit == l
    ensures (forall i :: 0 <= i < |s| ==> s[i].limit != l) ==> r == []
  {
    if |s| == 0 then []
    else (if s[0].limit == l then [s[0]] else []) + WithLimit(s[1..], l)
  }

  lemma WithLimitCons(h: CountryLimit, s: seq<CountryLimit>, l: real)
    ensures WithLimit([h] + s, l) == (if h.limit == l then [h] else []) + WithLimit(s, l)
  {
    assert ([h] + s)[1..] == s;
  }

  /** Ordered by limit, highest first. */
  predicate SortedDesc(s: seq<CountryLimit>) {
    forall i, j :: 0 <= i < j < |s| ==> s[i].limit >= s[j].limit
  }

  /** `table.filter(c => c.limit >= bac)`. */
  function AtLeast(table: seq<CountryLimit>, bac: real): (r: seq<CountryLimit>)
    ensures forall c :: c in r <==> c in table && c.limit >= bac
    ensures forall c :: multiset(r)[c] == if c.limit >= bac then multiset(table)[c] else 0
  {
    if |table| == 0 then []
    else
      var rest := AtLeast(table[1..], bac);
      assert table == [table[0]] + table[1..];
      assert multiset(table) == multiset{table[0]} + multiset(table[1..]);
      if table[0].limit >= bac then [table[0]] + rest else rest
  }

  /** Filtering keeps, for each limit at or above `bac`, all entries with that limit in table order. */
  lemma {:induction false} AtLeastWithLimit(table: seq<CountryLimit>, bac: real, l: real)
    ensures WithLimit(AtLeast(table, bac), l) == if l >= bac then WithLimit(table, l) else []
  {
    if |table| > 0 {
      AtLeastWithLimit(table[1..], bac, l);
      var rest := AtLeast(table[1..], bac);
      if table[0].limit >= bac {
        assert ([table[0]] + rest)[1..] == rest;
      }
    }
  }

  /** The head of a sequence sorted by limit carries the highest limit. */
  lemma HeadIsHighest(s: seq<CountryLimit>, c: CountryLimit)
    requires SortedDesc(s) && c in s
    ensures c.limit <= s[0].limit
  {
    var j :| 0 <= j < |s| && s[j] == c;
  }

  /** Prepending an entry whose limit is at least every other limit keeps the order. */
  lemma ConsSorted(h: CountryLimit, rest: seq<CountryLimit>)
    requires SortedDesc(rest)
    requires forall c :: c in rest ==> c.limit <= h.limit
    ensures SortedDesc([h] + rest)
  {
    var r := [h] + rest;
    forall i, j | 0 <= i < j < |r| ensures r[i].limit >= r[j].limit {
      if i == 0 {
        assert r[j] in rest;
      } else {
        assert r[i] == rest[i - 1] && r[j] == rest[j - 1];
      }
    }
  }

  lemma SortedTail(s: seq<CountryLimit>)
    requires |s| > 0 && SortedDesc(s)
    ensures SortedDesc(s[1..])
    ensures forall c :: c in s[1..] ==> c.limit <= s[0].limit
  {
    forall c | c in s[1..] ensures c.limit <= s[0].limit {
      var j :| 0 <= j < |s[1..]| && s[1..][j] == c;
      assert s[j + 1] == c;
    }
  }

  /** Put `x` in front of the first entry whose limit does not exceed its own,
      so that `x` precedes the entries of `t` with an equal limit. */
  function Insert(x: CountryLimit, t: seq<CountryLimit>): (r: seq<CountryLimit>)
    requires SortedDesc(t)
    ensures SortedDesc(r)
    ensures multiset(r) == multiset(t) + multiset{x}
    ensures forall c :: c in r <==> c == x || c in t
  {
    if |t| == 0 || x.limit >= t[0].limit then
      var r := [x] + t;
      assert SortedDesc(r) by {
        forall c | c in t ensures c.limit <= x.limit {
          HeadIsHighest(t, c);
        }
        ConsSorted(x, t);
      }
      r
    else
      SortedTail(t);
      var rest := Insert(x, t[1..]);
      ConsSorted(t[0], rest);
      assert t == [t[0]] + t[1..];
      [t[0]] + rest
  }

  /** Stable sort by limit, highest first (insertion from the back of the table). */
  function SortDesc(s: seq<CountryLimit>): (r: seq<CountryLimit>)
    ensures SortedDesc(r)
    ensures multiset(r) == multiset(s)
  {
    if |s| == 0 then []
    else
      assert s == [s[0]] + s[1..];
      Insert(s[0], SortDesc(s[1..]))
  }

  /** Past the insertion point, insertion keeps the head and inserts into the tail. */
  lemma InsertUnfold(x: CountryLimit, t: seq<CountryLimit>)
    requires SortedDesc(t) && |t| > 0 && x.limit < t[0].limit
    ensures SortedDesc(t[1..])
    ensures Insert(x, t) == [t[0]] + Insert(x, t[1..])
  {
    SortedTail(t);
  }

  /** Two blocks of which at least one is empty commute. */
  lemma SwapEmpty<T>(a: seq<T>, b: seq<T>, c: seq<T>)
    requires a == [] || b == []
    ensures a + (b + c) == b + (a + c)
  {
  }

  /** Insertion puts `x` ahead of every entry of `t` that has the same limit. */
  lemma {:induction false} InsertWithLimit(x: CountryLimit, t: seq<CountryLimit>, l: real)
    requires SortedDesc(t)
    ensures WithLimit(Insert(x, t), l) == (if x.limit == l then [x] else []) + WithLimit(t, l)
  {
    if |t| == 0 || x.limit >= t[0].limit {
      WithLimitCons(x, t, l);
    } else {
      InsertUnfold(x, t);
      InsertWithLimit(x, t[1..], l);
      WithLimitCons(t[0], Insert(x, t[1..]), l);
      SwapEmpty(if t[0].limit == l then [t[0]] else [], if x.limit == l then [x] else [], WithLimit(t[1..], l));
    }
  }

  /** The sort is stable: for every limit, the entries with that limit keep their order. */
  lemma {:induction false} SortDescWithLimit(s: seq<CountryLimit>, l: real)
    ensures WithLimit(SortDesc(s), l) == WithLimit(s, l)
  {
    if |s| > 0 {
      SortDescWithLimit(s[1..], l);
      InsertWithLimit(s[0], SortDesc(s[1..]), l);
    }
  }

  /** A non-empty sequence has at least one entry with its head's limit. */
  lemma HeadHasItsLimit(s: seq<CountryLimit>)
    ensures |s| > 0 ==> WithLimit(s, s[0].limit) != []
  {
  }

  /** Only the empty sequence has the per-limit subsequences of the empty sequence. */
  lemma EmptyPerLimit(a: seq<CountryLimit>, b: seq<CountryLimit>)
    requires |a| == 0
    requires forall l :: WithLimit(b, l) == WithLimit(a, l)
    ensures b == []
  {
    HeadHasItsLimit(b);
  }

  /** Two non-empty sequences sorted by limit with the same per-limit subsequences
      start with the same entry, and their tails again agree per limit. */
  lemma SameHead(a: seq<CountryLimit>, b: seq<CountryLimit>)
    requires |a| > 0 && |b| > 0 && SortedDesc(a) && SortedDesc(b)
    requires forall l :: WithLimit(a, l) == WithLimit(b, l)
    ensures a[0] == b[0]
    ensures forall l :: WithLimit(a[1..], l) == WithLimit(b[1..], l)
  {
    assert a[0] in WithLimit(b, a[0].limit);
    assert b[0] in WithLimit(a, b[0].limit);
    HeadIsHighest(b, a[0]);
    HeadIsHighest(a, b[0]);
    var l := a[0].limit;
    var wa, wb := WithLimit(a[1..], l), WithLimit(b[1..], l);
    assert WithLimit(a, l) == [a[0]] + wa;
    assert WithLimit(b, l) == [b[0]] + wb;
    assert ([a[0]] + wa)[0] == a[0] && ([a[0]] + wa)[1..] == wa;
    assert ([b[0]] + wb)[0] == b[0] && ([b[0]] + wb)[1..] == wb;
    forall l' ensures WithLimit(a[1..], l') == WithLimit(b[1..], l') {
      if l' != l {
        assert WithLimit(a, l') == WithLimit(a[1..], l');
        assert WithLimit(b, l') == WithLimit(b[1..], l');
      }
    }
  }

  lemma SameHeadSameTail(a: seq<CountryLimit>, b: seq<CountryLimit>)
    requires |a| > 0 && |b| > 0 && a[0] == b[0] && a[1..] == b[1..]
    ensures a == b
  {
    assert a == [a[0]] + a[1..] && b == [b[0]] + b[1..];
  }

  /** A sequence sorted by limit, highest first, is determined by its per-limit
      subsequences: every stable sort by descending limit gives the same result. */
  lemma {:induction false} StableSortUnique(a: seq<CountryLimit>, b: seq<CountryLimit>)
    requires SortedDesc(a) && SortedDesc(b)
    requires forall l :: WithLimit(a, l) == WithLimit(b, l)
    ensures a == b
    decreases |a|
  {
    if |a| == 0 {
      EmptyPerLimit(a, b);
    } else if |b| == 0 {
      EmptyPerLimit(b, a);
    } else {
      SameHead(a, b);
      SortedTail(a);
      SortedTail(b);
      StableSortUnique(a[1..], b[1..]);
      SameHeadSameTail(a, b);
    }
  }

  /** `getCountriesForBAC`: filter by `limit >= bac`, then sort by limit, highest first. */
  function CountriesForBac(table: seq<CountryLimit>, bac: real): (r: seq<CountryLimit>)
    ensures forall c :: c in r <==> c in table && c.limit >= bac
    ensures forall c :: multiset(r)[c] == if c.limit >= bac then multiset(table)[c] else 0
    ensures SortedDesc(r)
    ensures forall l :: WithLimit(r, l) == if l >= bac then WithLimit(table, l) else []
  {
    var r := SortDesc(AtLeast(table, bac));
    forall l ensures WithLimit(r, l) == if l >= bac then WithLimit(table, l) else [] {
      AtLeastWithLimit(table, bac, l);
      SortDescWithLimit(AtLeast(table, bac), l);
    }
    r
  }

  /** The matcher's result is the only sequence with its order and contents: any
      sequence sorted by limit, highest first, holding the table's entries with
      limit at or above `bac` in table order within each limit, equals it. */
  lemma CountriesForBacCharacterized(table: seq<CountryLimit>, bac: real, s: seq<CountryLimit>)
    requires SortedDesc(s)
    requires forall l :: WithLimit(s, l) == if l >= bac then WithLimit(table, l) else []
    ensures CountriesForBac(table, bac) == s
  {
    StableSortUnique(CountriesForBac(table, bac), s);
  }

  /** At BAC 0 every entry with a non-negative limit is kept: the whole table, sorted. */
  lemma ZeroBacKeepsTable(table: seq<CountryLimit>)
    requires forall i :: 0 <= i < |table| ==> table[i].limit >= 0.0
    ensures CountriesForBac(table, 0.0) == SortDesc(table)
    ensures multiset(CountriesForBac(table, 0.0)) == multiset(table)
  {
    var r := CountriesForBac(table, 0.0);
    forall l ensures WithLimit(r, l) == WithLimit(SortDesc(table), l) {
      SortDescWithLimit(table, l);
      if l < 0.0 {
        assert forall i :: 0 <= i < |table| ==> table[i].limit != l;
      }
    }
    StableSortUnique(r, SortDesc(table));
  }

  /** A table with a no-limit entry always matches an estimate up to the sentinel,
      and the first entry shown then carries the highest limit. */
  lemma SentinelAlwaysMatches(table: seq<CountryLimit>, bac: real, i: int)
    requires 0 <= i < |table| && table[i].limit == NoLimit && bac <= NoLimit
    ensures |CountriesForBac(table, bac)| > 0
    ensures CountriesForBac(table, bac)[0].limit >= NoLimit
  {
    var r := CountriesForBac(table, bac);
    assert table[i] in r;
  }
}
