/** The catalog: one keyset page, and a walk along the cursors while the catalog may change. */
module Catalog {
  import opened Prelude
  import opened Model

  type Products = map<string, Product>

  datatype Page = Page(items: seq<string>, nextCursor: string, limit: nat)

  function Clamp(limit: int): (n: nat)
    ensures 1 <= n <= 100
    ensures 1 <= limit <= 100 ==> n == limit
    ensures limit <= 0 ==> n == 50
    ensures limit > 100 ==> n == 100
  {
    if limit <= 0 then 50 else if limit > 100 then 100 else limit
  }

  /** `WHERE active = TRUE AND sku > $1`; an empty cursor filters nothing. */
  function Rest(c: Products, after: string): set<string> {
    set s | s in c && c[s].active && (after == "" || Less(after, s))
  }

  ghost predicate Ascending(items: seq<string>) {
    forall i, j :: 0 <= i < j < |items| ==> Less(items[i], items[j])
  }

  /** A page holds the first SKUs after the cursor; its own cursor says whether there are more. */
  ghost predicate PageOk(c: Products, limit: nat, after: string, page: Page) {
    && Ascending(page.items)
    && (forall s :: s in page.items ==> s in Rest(c, after))
    && (forall s :: s in Rest(c, after) && s !in page.items ==> forall x :: x in page.items ==> Less(x, s))
    && (if |Rest(c, after)| > limit
        then |page.items| == limit && page.items != [] && page.nextCursor == page.items[limit - 1]
        else |page.items| == |Rest(c, after)| && page.nextCursor == "")
  }

  lemma LessEmpty(s: string)
    ensures !Less(s, "")
    ensures s != "" ==> Less("", s)
  {
  }

  // ----- one page -----

  method Least(s: set<string>) returns (m: string)
    requires s != {}
    ensures m in s && forall x :: x in s && x != m ==> Less(m, x)
  {
    m :| m in s;
    var rest := s - {m};
    while rest != {}
      invariant rest <= s - {m} && m in s
      invariant forall x :: x in s && x != m && x !in rest ==> Less(m, x)
      decreases rest
    {
      var x :| x in rest;
      rest := rest - {x};
      if Less(x, m) {
        forall y | y in s && y != m && y !in rest
          ensures y == x || Less(x, y)
        {
          if y != x {
            LessTransitive(x, m, y);
          }
        }
        m := x;
      } else {
        LessConnected(m, x);
      }
    }
  }

  lemma SetOfAscending(items: seq<string>, s: set<string>)
    requires Ascending(items) && forall x :: x in items <==> x in s
    ensures |items| == |s|
  {
    if items == [] {
      assert s == {};
    } else {
      var front, last := items[..|items| - 1], items[|items| - 1];
      assert items == front + [last];
      forall x
        ensures x in front <==> x in s - {last}
      {
        if x in front {
          LessIrreflexive(last);
        }
      }
      SetOfAscending(front, s - {last});
    }
  }

  /** Selects one row more than the page holds, and keeps the last one back. */
  method List(c: Products, requested: int, after: string) returns (page: Page)
    ensures page.limit == Clamp(requested) && PageOk(c, page.limit, after, page)
  {
    var limit := Clamp(requested);
    var items: seq<string> := [];
    var rest := Rest(c, after);
    while |items| < limit + 1 && rest != {}
      invariant |items| <= limit + 1
      invariant rest <= Rest(c, after)
      invariant forall x :: x in items <==> x in Rest(c, after) && x !in rest
      invariant forall x, y :: x in items && y in rest ==> Less(x, y)
      invariant Ascending(items)
      decreases rest
    {
      var m := Least(rest);
      items := items + [m];
      rest := rest - {m};
    }
    SetOfAscending(items, Rest(c, after) - rest);
    assert |Rest(c, after)| == |Rest(c, after) - rest| + |rest|;
    page := Page(items, "", limit);
    if |items| > limit {
      page := Page(items[..limit], items[limit - 1], limit);
      assert items == items[..limit] + [items[limit]];
    }
  }

  /**
   * The cursor lies exactly in one case: the only item of the page is an empty SKU, so that the
   * cursor of a page with more behind it reads as "no more".
   */
  lemma CursorLiesExactly(c: Products, limit: nat, after: string, page: Page)
    requires PageOk(c, limit, after, page) && limit >= 1
    ensures (page.nextCursor == "" && |Rest(c, after)| > limit)
            <==> (limit == 1 && "" in Rest(c, after) && |Rest(c, after)| > 1)
  {
    if |Rest(c, after)| > limit {
      var last := page.items[limit - 1];
      assert last in page.items;
      LessEmpty(page.items[0]);
      LessEmpty(last);
      if limit > 1 {
        assert Less(page.items[0], last);
      } else {
        assert page.items == [last];
      }
    }
  }

  // ----- a walk -----

  /** Page k was read from catalog k with limit k, starting at the cursor of the page before it. */
  ghost predicate IsWalk(cats: seq<Products>, limits: seq<nat>, cursor: string, pages: seq<Page>)
    decreases pages
  {
    && |cats| == |limits| == |pages| && pages != []
    && limits[0] >= 1 && PageOk(cats[0], limits[0], cursor, pages[0])
    && (|pages| > 1 ==>
          pages[0].nextCursor != "" && IsWalk(cats[1..], limits[1..], pages[0].nextCursor, pages[1..]))
  }

  function Items(pages: seq<Page>): seq<string> {
    if pages == [] then [] else pages[0].items + Items(pages[1..])
  }

  /** Whatever happens to the catalog between the pages, SKUs strictly increase along a walk. */
  lemma {:induction false} WalkAscends(cats: seq<Products>, limits: seq<nat>, cursor: string, pages: seq<Page>)
    requires IsWalk(cats, limits, cursor, pages)
    ensures Ascending(Items(pages))
    ensures forall s :: s in Items(pages) ==> cursor == "" || Less(cursor, s)
    decreases pages
  {
    if |pages| == 1 {
      assert pages[1..] == [] && Items(pages) == pages[0].items + [];
      assert pages[0].items + [] == pages[0].items;
    } else {
      var head, tail := pages[0].items, Items(pages[1..]);
      var next := pages[0].nextCursor;
      WalkAscends(cats[1..], limits[1..], next, pages[1..]);
      assert next == head[|head| - 1];
      forall i, j | 0 <= i < j < |Items(pages)|
        ensures Less(Items(pages)[i], Items(pages)[j])
      {
        if j >= |head| {
          assert Items(pages)[j] == tail[j - |head|];
          assert tail[j - |head|] in tail;
          if i >= |head| {
            assert Items(pages)[i] == tail[i - |head|];
          } else if i < |head| - 1 {
            LessTransitive(head[i], next, tail[j - |head|]);
          }
        }
      }
      forall s | s in Items(pages)
        ensures cursor == "" || Less(cursor, s)
      {
        if s !in head && cursor != "" {
          assert next in head;
          LessTransitive(cursor, next, s);
        }
      }
    }
  }

  ghost predicate ActiveThroughout(cats: seq<Products>, s: string) {
    forall k :: 0 <= k < |cats| ==> s in cats[k] && cats[k][s].active
  }

  /** Pages of one item, an active product with an empty SKU, and others behind it. */
  predicate Truncated(c: Products, limit: nat) {
    limit == 1 && "" in Rest(c, "") && |Rest(c, "")| > 1
  }

  lemma TruncatedPage(c: Products, limit: nat, cursor: string, page: Page)
    requires PageOk(c, limit, cursor, page) && limit >= 1
    ensures (page.nextCursor == "" && |Rest(c, cursor)| > limit) <==> (cursor == "" && Truncated(c, limit))
  {
    CursorLiesExactly(c, limit, cursor, page);
    LessEmpty(cursor);
  }

  /** On a completed walk every product that was active throughout appears. */
  lemma {:induction false} WalkMissesNothing(
    cats: seq<Products>, limits: seq<nat>, cursor: string, pages: seq<Page>, s: string)
    requires IsWalk(cats, limits, cursor, pages)
    requires cursor == "" ==> !Truncated(cats[0], limits[0])
    requires pages[|pages| - 1].nextCursor == ""
    requires ActiveThroughout(cats, s) && (cursor == "" || Less(cursor, s))
    ensures s in Items(pages)
    decreases pages
  {
    assert s in Rest(cats[0], cursor);
    if s !in pages[0].items {
      if |pages| == 1 {
        TruncatedPage(cats[0], limits[0], cursor, pages[0]);
        AllOnPage(cats[0], limits[0], cursor, pages[0], s);
      } else {
        var next := pages[0].nextCursor;
        assert next in pages[0].items;
        assert pages[1..][|pages| - 2] == pages[|pages| - 1];
        WalkMissesNothing(cats[1..], limits[1..], next, pages[1..], s);
      }
    }
  }

  lemma TruncatedItems(c: Products, limit: nat, page: Page)
    requires PageOk(c, limit, "", page) && Truncated(c, limit)
    ensures page.nextCursor == "" && page.items == [""]
  {
    TruncatedPage(c, limit, "", page);
  }

  /** In the one exceptional case a walk stops after its first item. */
  lemma TruncatedWalk(cats: seq<Products>, limits: seq<nat>, pages: seq<Page>)
    requires IsWalk(cats, limits, "", pages) && Truncated(cats[0], limits[0])
    ensures Items(pages) == [""]
  {
    TruncatedItems(cats[0], limits[0], pages[0]);
    assert pages[1..] == [] && Items(pages) == pages[0].items + [];
  }

  /** A page that is not full holds everything after the cursor. */
  lemma AllOnPage(c: Products, limit: nat, after: string, page: Page, s: string)
    requires PageOk(c, limit, after, page) && |Rest(c, after)| <= limit && s in Rest(c, after)
    ensures s in page.items
  {
    var shown := set x | x in page.items;
    SetOfAscending(page.items, shown);
    if s !in page.items {
      assert shown <= Rest(c, after) - {s};
      SubsetSize(shown, Rest(c, after) - {s});
      assert false;
    }
  }

  /** In an ascending list nothing appears twice. */
  lemma AscendingOnce(items: seq<string>, i: nat, j: nat)
    requires Ascending(items) && i < |items| && j < |items| && items[i] == items[j]
    ensures i == j
  {
    LessIrreflexive(items[i]);
  }

  ghost predicate OnlyAt(items: seq<string>, i: nat, s: string)
    requires i < |items|
  {
    items[i] == s && forall j :: 0 <= j < |items| && items[j] == s ==> j == i
  }

  /**
   * Exactly once: on a completed walk over a changing catalog, with any page sizes, every product
   * that was active throughout appears at exactly one place, unless the walk was truncated.
   */
  lemma ExactlyOnce(cats: seq<Products>, limits: seq<nat>, pages: seq<Page>, s: string)
    requires IsWalk(cats, limits, "", pages)
    requires pages[|pages| - 1].nextCursor == "" && ActiveThroughout(cats, s)
    ensures (exists i :: 0 <= i < |Items(pages)| && OnlyAt(Items(pages), i, s))
            <==> (!Truncated(cats[0], limits[0]) || s == "")
  {
    WalkAscends(cats, limits, "", pages);
    if Truncated(cats[0], limits[0]) {
      TruncatedWalk(cats, limits, pages);
      if s == "" {
        assert OnlyAt(Items(pages), 0, s);
      }
    } else {
      WalkMissesNothing(cats, limits, "", pages, s);
      var i :| 0 <= i < |Items(pages)| && Items(pages)[i] == s;
      forall j | 0 <= j < |Items(pages)| && Items(pages)[j] == s
        ensures j == i
      {
        AscendingOnce(Items(pages), i, j);
      }
      assert OnlyAt(Items(pages), i, s);
    }
  }

  /**
   * Following the cursors on a fixed catalog ends, whatever limit each request asks for, and lists the
   * active products in order: all of them, unless the walk was truncated.
   */
  method WalkAll(c: Products, requests: nat -> int) returns (items: seq<string>)
    ensures Ascending(items)
    ensures Truncated(c, Clamp(requests(0))) ==> items == [""]
    ensures !Truncated(c, Clamp(requests(0))) ==> forall s :: s in items <==> s in c && c[s].active
  {
    ghost var first := Clamp(requests(0));
    var page := List(c, requests(0), "");
    items := page.items;
    var cursor, k := page.nextCursor, 1;
    FirstPage(c, first, page);
    while cursor != ""
      invariant if Truncated(c, first) then cursor == "" && items == [""] else UpTo(c, items, cursor)
      decreases cursor != "", |Rest(c, cursor)|
    {
      page := List(c, requests(k), cursor);
      PageExtends(c, page.limit, cursor, page, items);
      items := items + page.items;
      cursor, k := page.nextCursor, k + 1;
    }
  }

  /** `items` are the active SKUs up to the cursor, or all of them if there is no cursor. */
  ghost predicate UpTo(c: Products, items: seq<string>, cursor: string) {
    && Ascending(items)
    && (forall s :: s in items ==> s in Rest(c, ""))
    && (cursor != "" ==> cursor in Rest(c, "") && forall s :: s in items ==> s == cursor || Less(s, cursor))
    && (forall s :: s in Rest(c, "") && s !in items ==> cursor != "" && Less(cursor, s))
  }

  lemma FirstPage(c: Products, limit: nat, page: Page)
    requires PageOk(c, limit, "", page) && limit >= 1
    ensures if Truncated(c, limit) then page.nextCursor == "" && page.items == [""]
            else UpTo(c, page.items, page.nextCursor)
  {
    if Truncated(c, limit) {
      TruncatedItems(c, limit, page);
    } else {
      PageExtends(c, limit, "", page, []);
      assert UpTo(c, page.items, page.nextCursor) by { assert [] + page.items == page.items; }
    }
  }

  lemma RestShrinks(c: Products, cursor: string, next: string)
    requires next != "" && next in Rest(c, cursor)
    ensures |Rest(c, next)| < |Rest(c, cursor)|
  {
    LessIrreflexive(next);
    forall s | s in Rest(c, next)
      ensures s in Rest(c, cursor)
    {
      if cursor != "" {
        LessTransitive(cursor, next, s);
      }
    }
    SubsetSize(Rest(c, next), Rest(c, cursor) - {next});
  }

  lemma PageFollows(c: Products, limit: nat, cursor: string, page: Page, items: seq<string>)
    requires PageOk(c, limit, cursor, page)
    requires if cursor == "" then items == [] else UpTo(c, items, cursor)
    ensures Ascending(items + page.items)
    ensures forall s :: s in items + page.items ==> s in Rest(c, "")
  {
    forall x, y | x in items && y in page.items
      ensures Less(x, y)
    {
      assert y in Rest(c, cursor);
      if x != cursor {
        LessTransitive(x, cursor, y);
      }
    }
  }

  lemma PageReaches(c: Products, limit: nat, cursor: string, page: Page, items: seq<string>)
    requires PageOk(c, limit, cursor, page) && page.nextCursor != ""
    requires Ascending(items + page.items)
    ensures forall s :: s in items + page.items ==> s == page.nextCursor || Less(s, page.nextCursor)
    ensures page.nextCursor in Rest(c, cursor) && page.nextCursor in Rest(c, "")
  {
    var all := items + page.items;
    assert page.nextCursor == all[|all| - 1] && page.nextCursor in page.items;
    forall s | s in all
      ensures s == page.nextCursor || Less(s, page.nextCursor)
    {
      var i :| 0 <= i < |all| && all[i] == s;
    }
  }

  lemma PageOmits(c: Products, limit: nat, cursor: string, page: Page, items: seq<string>, s: string)
    requires PageOk(c, limit, cursor, page) && limit >= 1 && (cursor == "" ==> !Truncated(c, limit))
    requires if cursor == "" then items == [] else UpTo(c, items, cursor)
    requires s in Rest(c, "") && s !in items && s !in page.items
    ensures page.nextCursor != "" && Less(page.nextCursor, s)
  {
    assert s in Rest(c, cursor);
    TruncatedPage(c, limit, cursor, page);
    if |Rest(c, cursor)| <= limit {
      AllOnPage(c, limit, cursor, page, s);
      assert false;
    }
    assert page.nextCursor in page.items;
  }

  /** A page read at the cursor continues what has been read up to the cursor. */
  lemma PageExtends(c: Products, limit: nat, cursor: string, page: Page, items: seq<string>)
    requires PageOk(c, limit, cursor, page) && limit >= 1 && (cursor == "" ==> !Truncated(c, limit))
    requires if cursor == "" then items == [] else UpTo(c, items, cursor)
    ensures UpTo(c, items + page.items, page.nextCursor)
    ensures page.nextCursor != "" ==> |Rest(c, page.nextCursor)| < |Rest(c, cursor)|
  {
    PageFollows(c, limit, cursor, page, items);
    if page.nextCursor != "" {
      PageReaches(c, limit, cursor, page, items);
      RestShrinks(c, cursor, page.nextCursor);
    }
    forall s | s in Rest(c, "") && s !in items + page.items
      ensures page.nextCursor != "" && Less(page.nextCursor, s)
    {
      PageOmits(c, limit, cursor, page, items, s);
    }
  }
}
