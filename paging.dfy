/**
 * Skip/limit pagination as the list endpoints and the transaction history
 * apply it: `skip = (page - 1) * limit`, the page is the slice
 * `[skip, skip + limit)` of the sorted results, and the reported page count
 * is `ceil(total / limit)`.
 */
module Paging {

  function Min(a: int, b: int): int {
    if a <= b then a else b
  }

  /** How many results the query skips for a 1-based page. */
  function Skip(page: nat, limit: nat): nat
    requires page >= 1
  {
    (page - 1) * limit
  }

  /**
   * `.skip(skip).limit(limit)` on a cursor, and equally `slice(skip, skip + limit)`
   * on an array: a skip past the end gives an empty page, never an error.
   */
  function Slice<T>(s: seq<T>, skip: nat, limit: nat): (r: seq<T>)
    ensures |r| == if skip >= |s| then 0 else Min(limit, |s| - skip)
    ensures forall k :: 0 <= k < |r| ==> r[k] == s[skip + k]
  {
    if skip >= |s| then [] else s[skip..Min(skip + limit, |s|)]
  }

  /** `Math.ceil(total / limit)`: the fewest pages of `limit` items that hold `total` items. */
  function PageCount(total: nat, limit: nat): (pages: nat)
    requires limit >= 1
    ensures pages * limit >= total
    ensures total > 0 ==> (pages - 1) * limit < total
    ensures total == 0 <==> pages == 0
  {
    var pages := (total + limit - 1) / limit;
    DivBounds(total + limit - 1, limit);
    pages
  }

  lemma DivBounds(n: nat, d: nat)
    requires d >= 1
    ensures (n / d) * d <= n < (n / d) * d + d
  {
  }

  /** Every page after the last one is empty. */
  lemma {:induction false} PageBeyondEndIsEmpty<T>(s: seq<T>, page: nat, limit: nat)
    requires page >= 1 && limit >= 1
    requires page > PageCount(|s|, limit)
    ensures Slice(s, Skip(page, limit), limit) == []
  {
    var pages := PageCount(|s|, limit);
    assert page - 1 >= pages;
    MulMonotone(pages, page - 1, limit);
  }

  lemma MulMonotone(a: nat, b: nat, c: nat)
    requires a <= b
    ensures a * c <= b * c
  {
    assert b * c == a * c + (b - a) * c;
  }

  /**
   * The item at position `k` of the sorted results is item `k % limit` of
   * page `k / limit + 1`, and that page is within the reported page count:
   * walking the pages 1..pages visits every result.
   */
  lemma {:induction false} PageHolds<T>(s: seq<T>, k: nat, limit: nat)
    requires limit >= 1 && k < |s|
    ensures 1 <= k / limit + 1 <= PageCount(|s|, limit)
    ensures var page := Slice(s, Skip(k / limit + 1, limit), limit);
            k % limit < |page| && page[k % limit] == s[k]
  {
    var q, r := k / limit, k % limit;
    DivMod(k, limit);
    var skip := Skip(q + 1, limit);
    assert skip == q * limit;
    var pages := PageCount(|s|, limit);
    if pages <= q {
      MulMonotone(pages, q, limit);
      assert false;
    }
    assert skip + r == k && skip < |s|;
  }

  /**
   * Result `skip + slot` of the sorted results is item `slot` of the page,
   * and a page that starts before the end is within the reported page count.
   */
  lemma {:induction false} PageAt<T>(s: seq<T>, page: nat, slot: nat, limit: nat)
    requires page >= 1 && limit >= 1 && slot < limit
    requires Skip(page, limit) + slot < |s|
    ensures page <= PageCount(|s|, limit)
    ensures var items := Slice(s, Skip(page, limit), limit);
            slot < |items| && items[slot] == s[Skip(page, limit) + slot]
  {
    var pages := PageCount(|s|, limit);
    if pages < page {
      MulMonotone(pages, page - 1, limit);
      assert false;
    }
  }

  lemma DivMod(k: nat, d: nat)
    requires d >= 1
    ensures k == (k / d) * d + k % d && 0 <= k % d < d
  {
  }
}
