/**
 * The Pagination control (src/components/Pagination.tsx): a pure function of
 * (page, totalPages) deciding which controls appear, which are disabled and
 * which page number each one hands to `onPageChange`.
 */
module Pagination {
  import opened Types

  /** A Previous or Next button: whether it is disabled and the page it emits. */
  datatype Arrow = Arrow(disabled: bool, emits: int)

  /** One entry of the page list, keyed by the page number it stands for. */
  datatype Item =
    | PageButton(number: int, emits: int, active: bool)
    | Ellipsis(position: int)

  datatype View = View(previous: Arrow, items: seq<Item>, next: Arrow)

  function Position(item: Item): int
  {
    match item
    case PageButton(number, _, _) => number
    case Ellipsis(position) => position
  }

  /** The button the control draws for page n. */
  function NumberButton(n: int, page: int): Item
  {
    PageButton(n, n, n == page)
  }

  function Distance(a: int, b: int): nat
  {
    if a <= b then b - a else a - b
  }

  /** Page n gets a button when it is next to the current page or is the first or last page. */
  predicate Shown(n: int, page: int, totalPages: int)
  {
    Distance(n, page) <= 1 || n == 1 || n == totalPages
  }

  /** A hidden page n leaves an ellipsis only in the second or second-to-last slot. */
  predicate EllipsisSlot(n: int, page: int, totalPages: int)
  {
    !Shown(n, page, totalPages) && (n == 2 || n == totalPages - 1)
  }

  /** What the `map` callback returns for page n (None is the `null` that renders nothing). */
  function ItemFor(n: int, page: int, totalPages: int): (r: Option<Item>)
    ensures r == Some(NumberButton(n, page)) <==> Shown(n, page, totalPages)
    ensures r == Some(Ellipsis(n)) <==> EllipsisSlot(n, page, totalPages)
    ensures r.None? <==> !Shown(n, page, totalPages) && !EllipsisSlot(n, page, totalPages)
  {
    if !Shown(n, page, totalPages) then
      if n == 2 || n == totalPages - 1 then Some(Ellipsis(n)) else None
    else
      Some(NumberButton(n, page))
  }

  /** The entries for pages n..totalPages, in page order. */
  function ItemsFrom(n: int, page: int, totalPages: int): (r: seq<Item>)
    ensures |r| <= if n <= totalPages then totalPages - n + 1 else 0
    decreases totalPages - n
  {
    if n > totalPages then []
    else
      var rest := ItemsFrom(n + 1, page, totalPages);
      match ItemFor(n, page, totalPages)
      case None => rest
      case Some(item) => [item] + rest
  }

  /** Each entry stands for a page in lo..hi, and the entries ascend strictly. */
  predicate AscendingWithin(r: seq<Item>, lo: int, hi: int)
  {
    && (forall i :: 0 <= i < |r| ==> lo <= Position(r[i]) <= hi)
    && (forall i, j :: 0 <= i < j < |r| ==> Position(r[i]) < Position(r[j]))
  }

  /** Each button is one the source shows, and each ellipsis sits in an ellipsis slot. */
  predicate EntriesAllowed(r: seq<Item>, page: int, totalPages: int)
  {
    && (forall i :: 0 <= i < |r| && r[i].PageButton? ==>
          r[i] == NumberButton(r[i].number, page) && Shown(r[i].number, page, totalPages))
    && (forall i :: 0 <= i < |r| && r[i].Ellipsis? ==> EllipsisSlot(r[i].position, page, totalPages))
  }

  /** The entries for pages n..totalPages lie in that range and ascend strictly. */
  lemma {:induction false} ItemsFromAscending(n: int, page: int, totalPages: int)
    requires n >= 1
    decreases totalPages - n
    ensures AscendingWithin(ItemsFrom(n, page, totalPages), n, totalPages)
  {
    if n <= totalPages {
      var rest := ItemsFrom(n + 1, page, totalPages);
      ItemsFromAscending(n + 1, page, totalPages);
      match ItemFor(n, page, totalPages)
      case None =>
        assert ItemsFrom(n, page, totalPages) == rest;
      case Some(item) =>
        assert ItemsFrom(n, page, totalPages) == [item] + rest;
        assert Position(item) == n;
        ConsAscending(item, rest, n, totalPages);
    }
  }

  /** An entry for page lo in front of ascending entries for lo+1..hi ascends within lo..hi. */
  lemma ConsAscending(item: Item, rest: seq<Item>, lo: int, hi: int)
    requires lo <= hi && Position(item) == lo
    requires AscendingWithin(rest, lo + 1, hi)
    ensures AscendingWithin([item] + rest, lo, hi)
  {
    var r := [item] + rest;
    assert forall i :: 1 <= i < |r| ==> r[i] == rest[i - 1];
  }

  /** The entries for pages n..totalPages are all allowed. */
  lemma {:induction false} ItemsFromAllowed(n: int, page: int, totalPages: int)
    decreases totalPages - n
    ensures EntriesAllowed(ItemsFrom(n, page, totalPages), page, totalPages)
  {
    if n <= totalPages {
      var rest := ItemsFrom(n + 1, page, totalPages);
      ItemsFromAllowed(n + 1, page, totalPages);
      match ItemFor(n, page, totalPages)
      case None =>
        assert ItemsFrom(n, page, totalPages) == rest;
      case Some(item) =>
        assert ItemsFrom(n, page, totalPages) == [item] + rest;
    }
  }

  /** Every shown page and every ellipsis slot in n..totalPages has its entry. */
  lemma {:induction false} ItemsFromComplete(n: int, page: int, totalPages: int)
    requires n >= 1
    decreases totalPages - n
    ensures var r := ItemsFrom(n, page, totalPages);
      && (forall m :: n <= m <= totalPages && Shown(m, page, totalPages) ==> NumberButton(m, page) in r)
      && (forall m :: n <= m <= totalPages && EllipsisSlot(m, page, totalPages) ==> Ellipsis(m) in r)
  {
    if n <= totalPages {
      var rest := ItemsFrom(n + 1, page, totalPages);
      ItemsFromComplete(n + 1, page, totalPages);
      match ItemFor(n, page, totalPages)
      case None =>
        assert ItemsFrom(n, page, totalPages) == rest;
      case Some(item) =>
        assert ItemsFrom(n, page, totalPages) == [item] + rest;
    }
  }

  /** The entries for the whole range 1..totalPages. */
  lemma ItemsFacts(page: int, totalPages: int)
    ensures var r := ItemsFrom(1, page, totalPages);
      && AscendingWithin(r, 1, totalPages)
      && EntriesAllowed(r, page, totalPages)
      && (forall m :: 1 <= m <= totalPages && Shown(m, page, totalPages) ==> NumberButton(m, page) in r)
      && (forall m :: 1 <= m <= totalPages && EllipsisSlot(m, page, totalPages) ==> Ellipsis(m) in r)
  {
    ItemsFromAscending(1, page, totalPages);
    ItemsFromAllowed(1, page, totalPages);
    ItemsFromComplete(1, page, totalPages);
  }

  /** The whole control; None when there is at most one page. */
  function Render(page: int, totalPages: int): (r: Option<View>)
    ensures r.None? <==> totalPages <= 1
    ensures r.Some? ==> (r.value.previous.disabled <==> page == 1)
    ensures r.Some? ==> (r.value.next.disabled <==> page == totalPages)
    ensures r.Some? ==> r.value.previous.emits == page - 1 && r.value.next.emits == page + 1
    ensures r.Some? ==> forall n :: NumberButton(n, page) in r.value.items <==>
      1 <= n <= totalPages && Shown(n, page, totalPages)
    ensures r.Some? ==> forall n :: Ellipsis(n) in r.value.items <==>
      1 <= n <= totalPages && EllipsisSlot(n, page, totalPages)
  {
    if totalPages <= 1 then None
    else
      var items := ItemsFrom(1, page, totalPages);
      ItemsFacts(page, totalPages);
      assert forall n :: NumberButton(n, page) in items ==> 1 <= n <= totalPages && Shown(n, page, totalPages) by {
        forall n | NumberButton(n, page) in items ensures 1 <= n <= totalPages && Shown(n, page, totalPages) {
          var i :| 0 <= i < |items| && items[i] == NumberButton(n, page);
          assert Position(items[i]) == n;
        }
      }
      assert forall n :: Ellipsis(n) in items ==> 1 <= n <= totalPages && EllipsisSlot(n, page, totalPages) by {
        forall n | Ellipsis(n) in items ensures 1 <= n <= totalPages && EllipsisSlot(n, page, totalPages) {
          var i :| 0 <= i < |items| && items[i] == Ellipsis(n);
          assert Position(items[i]) == n;
        }
      }
      Some(View(Arrow(page == 1, page - 1), items, Arrow(page == totalPages, page + 1)))
  }

  /** The entries come in strictly ascending page order and every button emits its own number. */
  lemma ItemsAscending(page: int, totalPages: int)
    requires totalPages > 1
    ensures var items := Render(page, totalPages).value.items;
      && (forall i, j :: 0 <= i < j < |items| ==> Position(items[i]) < Position(items[j]))
      && (forall i :: 0 <= i < |items| && items[i].PageButton? ==> items[i].emits == items[i].number)
  {
    ItemsFacts(page, totalPages);
  }

  /** There are never more than two ellipses. */
  lemma AtMostTwoEllipses(page: int, totalPages: int)
    requires totalPages > 1
    ensures var items := Render(page, totalPages).value.items;
      forall i, j, k :: 0 <= i < j < k < |items| ==>
        !(items[i].Ellipsis? && items[j].Ellipsis? && items[k].Ellipsis?)
  {
    var items := Render(page, totalPages).value.items;
    ItemsFacts(page, totalPages);
    forall i, j, k | 0 <= i < j < k < |items| && items[i].Ellipsis? && items[j].Ellipsis?
      ensures !items[k].Ellipsis?
    {
      assert Position(items[i]) < Position(items[j]) < Position(items[k]);
    }
  }

  /** From a page inside 1..totalPages, an enabled arrow never emits a page outside it. */
  lemma EnabledArrowsStayInRange(page: int, totalPages: int)
    requires 1 <= page <= totalPages && totalPages > 1
    ensures var v := Render(page, totalPages).value;
      && (!v.previous.disabled ==> 1 <= v.previous.emits <= totalPages)
      && (!v.next.disabled ==> 1 <= v.next.emits <= totalPages)
  {
  }

  /** Three pages: all three numbers, no ellipsis, Previous disabled on page 1. */
  lemma ThreePagesExample()
    ensures Render(1, 3) == Some(View(
      Arrow(true, 0),
      [PageButton(1, 1, true), PageButton(2, 2, false), PageButton(3, 3, false)],
      Arrow(false, 2)))
  {
    assert ItemsFrom(4, 1, 3) == [];
    assert ItemsFrom(3, 1, 3) == [PageButton(3, 3, false)];
    assert ItemsFrom(2, 1, 3) == [PageButton(2, 2, false), PageButton(3, 3, false)];
    assert ItemsFrom(1, 1, 3) == [PageButton(1, 1, true), PageButton(2, 2, false), PageButton(3, 3, false)];
  }

  /** Ten pages on page 5: both ellipses, with 1 and 10 still shown. */
  lemma TenPagesExample()
    ensures Render(5, 10).value.items == [
      PageButton(1, 1, false), Ellipsis(2),
      PageButton(4, 4, false), PageButton(5, 5, true), PageButton(6, 6, false),
      Ellipsis(9), PageButton(10, 10, false)]
  {
    var B1, E2, B4, B5, B6, E9, B10 := NumberButton(1, 5), Ellipsis(2), NumberButton(4, 5),
      NumberButton(5, 5), NumberButton(6, 5), Ellipsis(9), NumberButton(10, 5);
    assert ItemsFrom(11, 5, 10) == [];
    assert ItemsFrom(10, 5, 10) == [B10];
    assert ItemsFrom(9, 5, 10) == [E9, B10];
    assert ItemsFrom(8, 5, 10) == [E9, B10];
    assert ItemsFrom(7, 5, 10) == [E9, B10];
    assert ItemsFrom(6, 5, 10) == [B6, E9, B10];
    assert ItemsFrom(5, 5, 10) == [B5, B6, E9, B10];
    assert ItemsFrom(4, 5, 10) == [B4, B5, B6, E9, B10];
    assert ItemsFrom(3, 5, 10) == [B4, B5, B6, E9, B10];
    assert ItemsFrom(2, 5, 10) == [E2, B4, B5, B6, E9, B10];
    assert ItemsFrom(1, 5, 10) == [B1, E2, B4, B5, B6, E9, B10];
  }
}
