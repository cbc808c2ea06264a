/** The pagination arithmetic of the booking listing: the page and page size
    taken from the query, the number of documents skipped, and the page
    count reported beside the total. Query parameters arrive through
    `Number(..)`, so they are JavaScript numbers, possibly NaN. */
module BookingListing {
  import opened JsValues

  const DefaultPage: real := 1.0
  const DefaultLimit: real := 12.0
  const MaxLimit: real := 100.0

  /** `Math.ceil` */
  function Ceil(x: real): (c: int)
    ensures x <= c as real < x + 1.0
  {
    -((-x).Floor)
  }

  /** `Number(req.query.page) || 1` */
  function PageNumber(raw: JsNumber): (p: real)
    ensures p != 0.0
    ensures NumberTruthy(raw) ==> p == raw.v
    ensures !NumberTruthy(raw) ==> p == DefaultPage
  {
    if NumberTruthy(raw) then raw.v else DefaultPage
  }

  /** `Math.min(Number(req.query.limit) || 12, 100)` */
  function PageLimit(raw: JsNumber): (l: real)
    ensures l != 0.0 && l <= MaxLimit
    ensures !NumberTruthy(raw) ==> l == DefaultLimit
    ensures NumberTruthy(raw) && raw.v <= MaxLimit ==> l == raw.v
    ensures NumberTruthy(raw) && raw.v > MaxLimit ==> l == MaxLimit
  {
    var asked := if NumberTruthy(raw) then raw.v else DefaultLimit;
    if asked < MaxLimit then asked else MaxLimit
  }

  /** What a listing reply reports, and the window it reads. */
  datatype PageInfo = PageInfo(page: real, limit: real, skip: real, pages: int, total: nat)

  /** The arithmetic of `getBookings` for `total` matching documents. */
  function Paginate(total: nat, rawPage: JsNumber, rawLimit: JsNumber): (r: PageInfo)
    ensures r.total == total
    ensures r.page == PageNumber(rawPage) && r.limit == PageLimit(rawLimit)
    ensures r.skip == (r.page - 1.0) * r.limit
    ensures r.pages as real >= total as real / r.limit
    ensures (r.pages - 1) as real < total as real / r.limit
  {
    var page := PageNumber(rawPage);
    var limit := PageLimit(rawLimit);
    PageInfo(page, limit, (page - 1.0) * limit, Ceil(total as real / limit), total)
  }

  /** Document number `i` of the sorted result (from 0) is in the window of
      a reply. */
  predicate OnPage(r: PageInfo, i: nat) {
    i < r.total && r.skip <= i as real < r.skip + r.limit
  }

  lemma MulNonnegative(a: real, b: real)
    requires a >= 0.0 && b >= 0.0
    ensures a * b >= 0.0
  {
  }

  lemma MulPositive(a: real, b: real)
    requires a > 0.0 && b > 0.0
    ensures a * b > 0.0
  {
  }

  lemma ProductAsReal(a: int, b: int)
    ensures (a * b) as real == (a as real) * (b as real)
  {
  }

  lemma MulCancelLess(a: int, b: int, s: int)
    requires s > 0 && a * s < b * s
    ensures a < b
  {
  }

  /** Scaling the bounds `q <= c < q + 1` by a positive `s`. */
  lemma {:induction false} ScaleBounds(c: int, q: real, s: int)
    requires q <= c as real < q + 1.0 && s > 0
    ensures (c as real) * (s as real) >= q * (s as real)
    ensures ((c - 1) as real) * (s as real) < q * (s as real)
  {
    MulNonnegative(c as real - q, s as real);
    MulPositive(q - (c - 1) as real, s as real);
  }

  /** A whole `c` at or above the exact quotient `t / s` has `c * s >= t`. */
  lemma UpperMultiple(c: int, s: int, t: int, q: real)
    requires s > 0 && q * (s as real) == t as real
    requires q <= c as real < q + 1.0
    ensures c * s >= t
  {
    ScaleBounds(c, q, s);
    ProductAsReal(c, s);
  }

  /** A whole `c` less than one above the exact quotient `t / s` has
      `(c - 1) * s < t`. */
  lemma LowerMultiple(c: int, s: int, t: int, q: real)
    requires s > 0 && q * (s as real) == t as real
    requires q <= c as real < q + 1.0
    ensures (c - 1) * s < t
  {
    ScaleBounds(c, q, s);
    ProductAsReal(c - 1, s);
  }

  /** `Math.ceil(t / s)` for whole `t` and `s`: the least `c` with `c * s >= t`. */
  lemma {:induction false} CeilOfQuotient(t: nat, s: int)
    requires s > 0
    ensures var c := Ceil(t as real / s as real);
      c >= 0 && c * s >= t && (c - 1) * s < t
  {
    var q := t as real / s as real;
    UpperMultiple(Ceil(q), s, t, q);
    LowerMultiple(Ceil(q), s, t, q);
  }

  /** With a whole page size, the reported page count is the least number of
      windows that holds every document. */
  lemma {:induction false} PagesCoverTotal(total: nat, rawPage: JsNumber, rawLimit: JsNumber, size: int)
    requires PageLimit(rawLimit) == size as real && size > 0
    ensures var r := Paginate(total, rawPage, rawLimit);
      r.pages >= 0 && r.pages * size >= total && (r.pages - 1) * size < total
  {
    CeilOfQuotient(total, size);
  }

  /** The window of whole page `n` with whole page size `size`. */
  lemma {:induction false} WindowOfPage(total: nat, rawPage: JsNumber, rawLimit: JsNumber, size: int, n: int, i: nat)
    requires PageLimit(rawLimit) == size as real && size > 0
    requires PageNumber(rawPage) == n as real
    ensures OnPage(Paginate(total, rawPage, rawLimit), i) <==> i < total && (n - 1) * size <= i < n * size
  {
    ProductAsReal(n - 1, size);
    assert Paginate(total, rawPage, rawLimit).skip == ((n - 1) * size) as real;
  }

  lemma QuotientWindow(i: nat, size: int)
    requires size > 0
    ensures (i / size) * size <= i < (i / size + 1) * size
  {
    assert (i / size) * size + i % size == i;
  }

  /** With a whole page size, document `i` is shown on page `i / size + 1`,
      which is within the reported page count. */
  lemma {:induction false} EachDocumentOnOnePage(total: nat, rawLimit: JsNumber, size: int, i: nat, rawPage: JsNumber)
    requires PageLimit(rawLimit) == size as real && size > 0
    requires i < total
    requires NumberTruthy(rawPage) && rawPage.v == ((i / size + 1) as real)
    ensures var r := Paginate(total, rawPage, rawLimit);
      OnPage(r, i) && 1 <= i / size + 1 <= r.pages
  {
    var r := Paginate(total, rawPage, rawLimit);
    var n := i / size + 1;
    assert (n - 1) * size <= i < n * size by {
      QuotientWindow(i, size);
    }
    assert OnPage(r, i) by {
      WindowOfPage(total, rawPage, rawLimit, size, n, i);
    }
    assert n <= r.pages by {
      PagesCoverTotal(total, rawPage, rawLimit, size);
      PageWithinCount(i, size, total, r.pages);
    }
  }

  /** A document before `total` falls on a page no later than the last one. */
  lemma PageWithinCount(i: nat, size: int, total: nat, pages: int)
    requires size > 0 && i < total && pages * size >= total
    ensures i / size + 1 <= pages
  {
    QuotientWindow(i, size);
    MulCancelLess(i / size, pages, size);
  }

  /** Two different whole pages never show the same document. */
  lemma {:induction false} PagesAreDisjoint(total: nat, rawLimit: JsNumber, size: int, i: nat, page1: JsNumber, page2: JsNumber, n1: int, n2: int)
    requires PageLimit(rawLimit) == size as real && size > 0
    requires PageNumber(page1) == n1 as real && PageNumber(page2) == n2 as real
    requires OnPage(Paginate(total, page1, rawLimit), i) && OnPage(Paginate(total, page2, rawLimit), i)
    ensures n1 == n2
  {
    WindowOfPage(total, page1, rawLimit, size, n1, i);
    WindowOfPage(total, page2, rawLimit, size, n2, i);
    MulCancelLess(n1 - 1, n2, size);
    MulCancelLess(n2 - 1, n1, size);
  }

  /** A missing or unusable page and page size give the first twelve
      documents; an oversized page size is capped at a hundred. */
  lemma DefaultWindow(total: nat)
    ensures var r := Paginate(total, NaN, NaN);
      r.page == 1.0 && r.limit == 12.0 && r.skip == 0.0
    ensures var r := Paginate(total, Num(0.0), Num(500.0));
      r.page == 1.0 && r.limit == 100.0 && r.skip == 0.0
  {
  }
}
