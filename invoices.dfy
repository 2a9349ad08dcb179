/** The pure list transforms of the invoice listing: turning the API's
    records into invoices, sorting them by date, filtering them by category,
    removing a deleted id, and the two reductions (the displayed total and
    the per-category totals pushed to the chart). */
module Invoices {

  import opened Outcomes
  import opened Strings
  import opened Dates

  /** A record as `getInvoices` returns it; a missing `Category` is None. */
  datatype RawInvoice = RawInvoice(
    invoiceId: string,
    date: Date,
    category: Option<string>,
    description: string,
    value: int,
    imgLink: string,
    userName: string)

  /** An invoice as the listing keeps it; `date` is the displayed dd/mm/yyyy
      text and `imageUrl` doubles as the storage key of the uploaded file. */
  datatype Invoice = Invoice(
    id: string,
    date: string,
    category: string,
    description: string,
    value: int,
    imageUrl: string,
    userName: string)

  const DefaultCategory := "Sin Categoría"

  /** `invoice.Category || "Sin Categoría"`: a missing or empty category
      (both falsy) is replaced by the default. */
  function CategoryOrDefault(c: Option<string>): (r: string)
    ensures r != ""
    ensures c.Some? && c.value != "" ==> r == c.value
    ensures c.None? || c.value == "" ==> r == DefaultCategory
  {
    if c.Some? && c.value != "" then c.value else DefaultCategory
  }

  /** The mapping callback of the fetch: the record's fields under the
      listing's names, a category that is never empty, and the date as
      the browser displays it. */
  function ToInvoice(r: RawInvoice): (inv: Invoice)
    ensures inv.id == r.invoiceId && inv.value == r.value
    ensures inv.category != "" && (r.category.Some? && r.category.value != "" ==> inv.category == r.category.value)
    ensures Split(inv.date, '/') == [Pad2(r.date.day), Pad2(r.date.month), Digits(r.date.year)]
  {
    Invoice(r.invoiceId, Display(r.date), CategoryOrDefault(r.category),
            r.description, r.value, r.imgLink, r.userName)
  }

  /** `data.map(...)`: one invoice per record, in the same order. */
  function Transform(raws: seq<RawInvoice>): (t: seq<Invoice>)
    ensures |t| == |raws|
    ensures forall i | 0 <= i < |raws| :: t[i].id == raws[i].invoiceId && t[i].category != ""
  {
    seq(|raws|, i requires 0 <= i < |raws| => ToInvoice(raws[i]))
  }

  /** Each record gives exactly one invoice at the same position, with its
      fields copied, its date displayed as dd/mm/yyyy, and a missing or
      empty category replaced by "Sin Categoría". */
  lemma TransformCopiesRecords(raws: seq<RawInvoice>)
    ensures |Transform(raws)| == |raws|
    ensures forall i | 0 <= i < |raws| ::
      var inv := Transform(raws)[i];
      && inv.id == raws[i].invoiceId
      && inv.date == Display(raws[i].date)
      && inv.description == raws[i].description
      && inv.value == raws[i].value
      && inv.imageUrl == raws[i].imgLink
      && inv.userName == raws[i].userName
      && inv.category == CategoryOrDefault(raws[i].category)
  {
  }

  // ---------------------------------------------------------------------
  // Sorting by date

  /** What the comparator reads for an invoice: the time of its reversed
      date key (None stands for NaN). */
  function Time(inv: Invoice): (t: Option<int>)
    ensures var f := Split(inv.date, '/');
      t.Some? <==> |f| == 3 && ParseDigits(f[0]).Some? && ParseDigits(f[1]).Some? && ParseDigits(f[2]).Some?
    ensures var f := Split(inv.date, '/');
      t.Some? ==> t.value == ParseDigits(f[2]).value * 10000 + ParseDigits(f[1]).value * 100 + ParseDigits(f[0]).value
  {
    KeyTime(SortKey(inv.date))
  }

  /** The comparator's time as the number it subtracts. Every transformed
      invoice has a time (TransformIsKeyed), so the NaN fallback is never
      reached on the lists that are sorted. */
  function SortTime(inv: Invoice): int {
    match Time(inv)
    case Some(v) => v
    case None => 0
  }

  predicate SortedBy<T>(xs: seq<T>, key: T -> int) {
    forall i, j | 0 <= i < j < |xs| :: key(xs[i]) <= key(xs[j])
  }

  /** Insert `x` before the first element whose key is not below its own. */
  function Insert<T>(x: T, s: seq<T>, key: T -> int): (r: seq<T>)
    ensures multiset(r) == multiset(s) + multiset{x}
    ensures r[0] == x || (|s| > 0 && r[0] == s[0])
    decreases |s|
  {
    if s == [] then [x]
    else if key(x) <= key(s[0]) then [x] + s
    else
      assert s == [s[0]] + s[1..];
      [s[0]] + Insert(x, s[1..], key)
  }

  /** Inserting into a sorted list keeps it sorted. */
  lemma {:induction false} InsertSorted<T>(x: T, s: seq<T>, key: T -> int)
    requires SortedBy(s, key)
    ensures SortedBy(Insert(x, s, key), key)
    decreases |s|
  {
    if s != [] && key(x) > key(s[0]) {
      InsertSorted(x, s[1..], key);
      var rest := Insert(x, s[1..], key);
      assert key(s[0]) <= key(rest[0]);
      var r := [s[0]] + rest;
      forall i, j | 0 <= i < j < |r|
        ensures key(r[i]) <= key(r[j])
      {
        if i > 0 {
          assert r[i] == rest[i - 1] && r[j] == rest[j - 1];
        } else {
          assert r[j] == rest[j - 1];
        }
      }
    }
  }

  /** `Array.prototype.sort` with a comparator that subtracts keys: a stable
      sort, ascending by key. */
  function SortBy<T>(xs: seq<T>, key: T -> int): (r: seq<T>)
    ensures SortedBy(r, key)
    ensures multiset(r) == multiset(xs)
    decreases |xs|
  {
    if xs == [] then []
    else
      assert xs == [xs[0]] + xs[1..];
      var rest := SortBy(xs[1..], key);
      InsertSorted(xs[0], rest, key);
      Insert(xs[0], rest, key)
  }

  /** `[y]` when `y`'s key is `t`, otherwise nothing. */
  function Keep<T>(y: T, key: T -> int, t: int): seq<T> {
    if key(y) == t then [y] else []
  }

  /** The elements whose key is `t`, in list order. */
  function WithKey<T>(xs: seq<T>, key: T -> int, t: int): seq<T>
    decreases |xs|
  {
    if xs == [] then [] else Keep(xs[0], key, t) + WithKey(xs[1..], key, t)
  }

  lemma WithKeyCons<T>(y: T, s: seq<T>, key: T -> int, t: int)
    ensures WithKey([y] + s, key, t) == Keep(y, key, t) + WithKey(s, key, t)
  {
    assert ([y] + s)[0] == y && ([y] + s)[1..] == s;
  }

  lemma {:induction false} InsertWithKey<T>(x: T, s: seq<T>, key: T -> int, t: int)
    ensures WithKey(Insert(x, s, key), key, t) == Keep(x, key, t) + WithKey(s, key, t)
    decreases |s|
  {
    if s == [] {
      WithKeyCons(x, [], key, t);
      assert [x] + [] == [x];
    } else if key(x) <= key(s[0]) {
      WithKeyCons(x, s, key, t);
    } else {
      InsertWithKey(x, s[1..], key, t);
      InsertPastHead(x, s, key, t);
    }
  }

  /** The step of InsertWithKey where `x` goes past the head of the list. */
  lemma InsertPastHead<T>(x: T, s: seq<T>, key: T -> int, t: int)
    requires s != [] && key(x) > key(s[0])
    requires WithKey(Insert(x, s[1..], key), key, t) == Keep(x, key, t) + WithKey(s[1..], key, t)
    ensures WithKey(Insert(x, s, key), key, t) == Keep(x, key, t) + WithKey(s, key, t)
  {
    var rest := Insert(x, s[1..], key);
    assert Insert(x, s, key) == [s[0]] + rest;
    WithKeyCons(s[0], rest, key, t);
    WithKeyCons(s[0], s[1..], key, t);
    assert [s[0]] + s[1..] == s;
    // x's key is above s[0]'s, so at most one of them has key t
    SwapEmpty(Keep(s[0], key, t), Keep(x, key, t), WithKey(s[1..], key, t));
  }

  lemma SwapEmpty<T>(a: seq<T>, b: seq<T>, w: seq<T>)
    requires a == [] || b == []
    ensures a + (b + w) == b + (a + w)
  {
    if a == [] {
      assert [] + (b + w) == b + w == b + ([] + w);
    } else {
      assert a + ([] + w) == a + w == [] + (a + w);
    }
  }

  /** The sort is stable: elements with equal keys keep their relative order. */
  lemma {:induction false} SortIsStable<T>(xs: seq<T>, key: T -> int, t: int)
    ensures WithKey(SortBy(xs, key), key, t) == WithKey(xs, key, t)
    decreases |xs|
  {
    if xs != [] {
      SortIsStable(xs[1..], key, t);
      InsertWithKey(xs[0], SortBy(xs[1..], key), key, t);
    }
  }

  /** Every transformed invoice has a readable date key: its record's date
      ordinal. */
  lemma TransformIsKeyed(raws: seq<RawInvoice>)
    ensures forall i | 0 <= i < |raws| :: Time(Transform(raws)[i]) == Some(Ordinal(raws[i].date))
  {
    forall i | 0 <= i < |raws|
      ensures Time(Transform(raws)[i]) == Some(Ordinal(raws[i].date))
    {
      DisplayKey(raws[i].date);
    }
  }

  /** The fetch's map-then-sort: the month list that is stored in `invoices`. */
  function PrepareMonth(raws: seq<RawInvoice>): (r: seq<Invoice>)
    ensures |r| == |raws|
    ensures multiset(r) == multiset(Transform(raws))
  {
    var t := Transform(raws);
    var r := SortBy(t, SortTime);
    assert |r| == |multiset(r)| == |multiset(t)| == |t|;
    r
  }

  /** The month list is ascending by the comparator's time, and invoices
      with the same date keep the order in which the records came. */
  lemma PrepareMonthIsSorted(raws: seq<RawInvoice>)
    ensures SortedBy(PrepareMonth(raws), SortTime)
    ensures forall t :: WithKey(PrepareMonth(raws), SortTime, t) == WithKey(Transform(raws), SortTime, t)
  {
    forall t ensures WithKey(PrepareMonth(raws), SortTime, t) == WithKey(Transform(raws), SortTime, t) {
      SortIsStable(Transform(raws), SortTime, t);
    }
  }

  /** In the month list, an invoice that comes before another one was issued
      on the same day or earlier (for valid calendar dates). */
  lemma PrepareMonthIsChronological(raws: seq<RawInvoice>, i: nat, j: nat, a: RawInvoice, b: RawInvoice)
    requires i < j < |raws|
    requires PrepareMonth(raws)[i] == ToInvoice(a) && PrepareMonth(raws)[j] == ToInvoice(b)
    requires ValidDate(a.date) && ValidDate(b.date)
    ensures NotAfter(a.date, b.date)
  {
    var r := PrepareMonth(raws);
    PrepareMonthIsSorted(raws);
    DisplayKey(a.date);
    DisplayKey(b.date);
    assert SortTime(r[i]) <= SortTime(r[j]);
    OrdinalIsChronological(a.date, b.date);
  }

  /** Every invoice of the month list comes from one of the records. */
  lemma PrepareMonthComesFromRecords(raws: seq<RawInvoice>, i: nat)
    requires i < |raws|
    ensures exists k | 0 <= k < |raws| :: PrepareMonth(raws)[i] == ToInvoice(raws[k])
  {
    var r := PrepareMonth(raws);
    assert r[i] in multiset(Transform(raws));
    var k :| 0 <= k < |raws| && Transform(raws)[k] == r[i];
  }

  // ---------------------------------------------------------------------
  // Filtering

  /** `invoices.filter(invoice => invoice.category === c)`. */
  function OfCategory(xs: seq<Invoice>, c: string): (r: seq<Invoice>)
    ensures |r| <= |xs|
    ensures forall i | 0 <= i < |r| :: r[i].category == c
    decreases |xs|
  {
    if xs == [] then []
    else
      assert xs == [xs[0]] + xs[1..];
      (if xs[0].category == c then [xs[0]] else []) + OfCategory(xs[1..], c)
  }

  /** Filtering keeps every invoice of the category, as often as it occurs,
      and nothing else. */
  lemma {:induction false} OfCategoryCounts(xs: seq<Invoice>, c: string)
    ensures forall x :: multiset(OfCategory(xs, c))[x] == if x.category == c then multiset(xs)[x] else 0
    decreases |xs|
  {
    if xs != [] {
      OfCategoryCounts(xs[1..], c);
      assert xs == [xs[0]] + xs[1..];
    }
  }

  /** Filtering keeps the order: it distributes over concatenation. */
  lemma {:induction false} OfCategoryAppend(a: seq<Invoice>, b: seq<Invoice>, c: string)
    ensures OfCategory(a + b, c) == OfCategory(a, c) + OfCategory(b, c)
    decreases |a|
  {
    if a == [] {
      assert a + b == b;
    } else {
      assert (a + b)[0] == a[0] && (a + b)[1..] == a[1..] + b;
      OfCategoryAppend(a[1..], b, c);
    }
  }

  /** `filterInvoices(list, category)`: the empty category means "all". */
  function FilterByCategory(xs: seq<Invoice>, category: string): (r: seq<Invoice>)
    ensures category == "" ==> r == xs
    ensures category != "" ==> forall i | 0 <= i < |r| :: r[i].category == category
  {
    if category != "" then OfCategory(xs, category) else xs
  }

  /** `filteredInvoices.filter(invoice => invoice.id !== id)`. */
  function WithoutId(xs: seq<Invoice>, id: string): (r: seq<Invoice>)
    ensures |r| <= |xs|
    ensures forall i | 0 <= i < |r| :: r[i].id != id
    decreases |xs|
  {
    if xs == [] then []
    else
      assert xs == [xs[0]] + xs[1..];
      (if xs[0].id != id then [xs[0]] else []) + WithoutId(xs[1..], id)
  }

  /** Removal drops every invoice with the id and keeps every other one, as
      often as it occurs. */
  lemma {:induction false} WithoutIdCounts(xs: seq<Invoice>, id: string)
    ensures forall x :: multiset(WithoutId(xs, id))[x] == if x.id == id then 0 else multiset(xs)[x]
    decreases |xs|
  {
    if xs != [] {
      WithoutIdCounts(xs[1..], id);
      assert xs == [xs[0]] + xs[1..];
    }
  }

  /** Removal keeps the order of the others: it distributes over concatenation. */
  lemma {:induction false} WithoutIdAppend(a: seq<Invoice>, b: seq<Invoice>, id: string)
    ensures WithoutId(a + b, id) == WithoutId(a, id) + WithoutId(b, id)
    decreases |a|
  {
    if a == [] {
      assert a + b == b;
    } else {
      assert (a + b)[0] == a[0] && (a + b)[1..] == a[1..] + b;
      WithoutIdAppend(a[1..], b, id);
    }
  }

  /** Removing an id that is not in the list changes nothing. */
  lemma {:induction false} WithoutAbsentId(xs: seq<Invoice>, id: string)
    requires forall i | 0 <= i < |xs| :: xs[i].id != id
    ensures WithoutId(xs, id) == xs
    decreases |xs|
  {
    if xs != [] {
      WithoutAbsentId(xs[1..], id);
      assert xs == [xs[0]] + xs[1..];
    }
  }

  // ---------------------------------------------------------------------
  // Reductions

  /** `xs.reduce((acc, inv) => acc + inv.value, 0)`, a left fold: a single
      invoice totals its value, and invoices without negative values never
      total below zero. */
  function Total(xs: seq<Invoice>): (t: int)
    ensures |xs| == 1 ==> t == xs[0].value
    ensures (forall i | 0 <= i < |xs| :: xs[i].value >= 0) ==> t >= 0
    decreases |xs|
  {
    if xs == [] then 0 else Total(xs[..|xs| - 1]) + xs[|xs| - 1].value
  }

  /** The total of two lists one after the other is the sum of their totals. */
  lemma {:induction false} TotalAppend(a: seq<Invoice>, b: seq<Invoice>)
    ensures Total(a + b) == Total(a) + Total(b)
    decreases |b|
  {
    if b == [] {
      assert a + b == a;
    } else {
      var b' := b[..|b| - 1];
      assert (a + b)[..|a + b| - 1] == a + b';
      TotalAppend(a, b');
    }
  }

  /** The total is the sum of the category's total and the others' total. */
  lemma {:induction false} TotalSplitsByCategory(xs: seq<Invoice>, c: string)
    ensures Total(xs) == Total(OfCategory(xs, c)) + Total(OtherCategories(xs, c))
    decreases |xs|
  {
    if xs != [] {
      var x, rest := xs[0], xs[1..];
      TotalSplitsByCategory(rest, c);
      assert xs == [x] + rest;
      TotalAppend([x], rest);
      TotalAppend(if x.category == c then [x] else [], OfCategory(rest, c));
      TotalAppend(if x.category != c then [x] else [], OtherCategories(rest, c));
      assert Total([x]) == x.value by { assert [x][..0] == []; }
    }
  }

  /** The invoices not in category `c`. */
  function OtherCategories(xs: seq<Invoice>, c: string): seq<Invoice>
    decreases |xs|
  {
    if xs == [] then []
    else (if xs[0].category != c then [xs[0]] else []) + OtherCategories(xs[1..], c)
  }

  /** The category-total reduce: `acc[c] = (acc[c] || 0) + value`, left to right. */
  function CategoryTotals(xs: seq<Invoice>): (m: map<string, int>)
    ensures m.Keys == set i | 0 <= i < |xs| :: xs[i].category
    decreases |xs|
  {
    if xs == [] then map[]
    else
      var acc := CategoryTotals(xs[..|xs| - 1]);
      var x := xs[|xs| - 1];
      var c := x.category;
      assert xs == xs[..|xs| - 1] + [x];
      acc[c := (if c in acc then acc[c] else 0) + x.value]
  }

  /** A category that no invoice has filters to nothing. */
  lemma OfAbsentCategory(xs: seq<Invoice>, c: string)
    requires forall i | 0 <= i < |xs| :: xs[i].category != c
    ensures OfCategory(xs, c) == []
  {
  }

  /** Each key of the category-total map is bound to the total of the
      invoices in that category. */
  lemma {:induction false} CategoryTotalsAreCategorySums(xs: seq<Invoice>)
    ensures forall k | k in CategoryTotals(xs) :: CategoryTotals(xs)[k] == Total(OfCategory(xs, k))
    decreases |xs|
  {
    if xs != [] {
      var init, x := xs[..|xs| - 1], xs[|xs| - 1];
      CategoryTotalsAreCategorySums(init);
      assert xs == init + [x];
      var acc := CategoryTotals(init);
      forall k | k in CategoryTotals(xs)
        ensures CategoryTotals(xs)[k] == Total(OfCategory(xs, k))
      {
        OfCategoryAppend(init, [x], k);
        assert OfCategory([x], k) == if x.category == k then [x] else [] by {
          assert [x][1..] == [];
        }
        TotalAppend(OfCategory(init, k), OfCategory([x], k));
        assert Total([x]) == x.value by { assert [x][..0] == []; }
        if k == x.category && k !in acc {
          OfAbsentCategory(init, k);
        }
      }
    }
  }
}
