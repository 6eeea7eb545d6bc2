/**
 * The pagination bar of the leads table: which page buttons it lists, and
 * what its Previous, Next and page buttons ask for when clicked.
 */
module Pagination {
  import opened Wrappers

  /** A button of the bar: a page number, or the disabled `'...'` filler. */
  datatype PageItem = Page(n: int) | Ellipsis

  /**
   * The buttons listed for `current` of `total` pages: every page when there
   * are at most seven, otherwise seven entries keeping the first page, the
   * last page and the neighbourhood of the current one.
   */
  function PageNumbers(current: int, total: int): seq<PageItem> {
    if total <= 7 then
      seq(if total < 0 then 0 else total, i => Page(i + 1))
    else if current <= 4 then
      [Page(1), Page(2), Page(3), Page(4), Page(5), Ellipsis, Page(total)]
    else if current >= total - 3 then
      [Page(1), Ellipsis, Page(total - 4), Page(total - 3), Page(total - 2), Page(total - 1), Page(total)]
    else
      [Page(1), Ellipsis, Page(current - 1), Page(current), Page(current + 1), Ellipsis, Page(total)]
  }

  /** `getPageNumbers`: builds the list by pushing one entry after another. */
  method GetPageNumbers(current: int, total: int) returns (pages: seq<PageItem>)
    ensures pages == PageNumbers(current, total)
  {
    pages := [];
    if total <= 7 {
      var i := 1;
      while i <= total
        invariant 1 <= i <= (if total < 0 then 1 else total + 1)
        invariant pages == seq(i - 1, k => Page(k + 1))
      {
        pages := pages + [Page(i)];
        i := i + 1;
      }
    } else if current <= 4 {
      pages := pages + [Page(1), Page(2), Page(3), Page(4), Page(5), Ellipsis, Page(total)];
    } else if current >= total - 3 {
      pages := pages + [Page(1), Ellipsis, Page(total - 4), Page(total - 3), Page(total - 2), Page(total - 1), Page(total)];
    } else {
      pages := pages + [Page(1), Ellipsis, Page(current - 1), Page(current), Page(current + 1), Ellipsis, Page(total)];
    }
  }

  /** With more than seven pages the bar always has seven entries, starting at page 1 and ending at the last page. */
  lemma SevenEntriesWhenLong(current: int, total: int)
    requires total > 7
    ensures var r := PageNumbers(current, total);
      |r| == 7 && r[0] == Page(1) && r[6] == Page(total)
  {
  }

  /** The page numbers listed, left to right, strictly increase. */
  predicate Increasing(r: seq<PageItem>) {
    forall i, j :: 0 <= i < j < |r| && r[i].Page? && r[j].Page? ==> r[i].n < r[j].n
  }

  lemma NumbersIncrease(current: int, total: int)
    ensures Increasing(PageNumbers(current, total))
  {
    var r := PageNumbers(current, total);
    if total > 7 {
      forall i, j | 0 <= i < j < 7 && r[i].Page? && r[j].Page? ensures r[i].n < r[j].n {
      }
    }
  }

  /** Every listed page number is a page that exists. */
  lemma NumbersInRange(current: int, total: int)
    requires 1 <= current <= total
    ensures forall i :: 0 <= i < |PageNumbers(current, total)| && PageNumbers(current, total)[i].Page? ==>
      1 <= PageNumbers(current, total)[i].n <= total
  {
  }

  /** The current page is always listed, and exactly once. */
  lemma CurrentListedOnce(current: int, total: int)
    requires 1 <= current <= total
    ensures Page(current) in PageNumbers(current, total)
    ensures forall i, j :: 0 <= i < j < |PageNumbers(current, total)| ==>
      !(PageNumbers(current, total)[i] == Page(current) && PageNumbers(current, total)[j] == Page(current))
  {
    var r := PageNumbers(current, total);
    NumbersIncrease(current, total);
    if total <= 7 {
      assert r[current - 1] == Page(current);
    } else if current <= 4 {
      assert r[current - 1] == Page(current);
    } else if current >= total - 3 {
      assert r[current - total + 6] == Page(current);
    } else {
      assert r[3] == Page(current);
    }
  }

  /** The bar is drawn only when there is more than one page. */
  predicate Rendered(total: int) {
    total > 1
  }

  /** The controls of the bar. */
  datatype Control = Previous | Next | Button(item: PageItem)

  /** The page a click on `control` asks for; none when the control is disabled. */
  function Clicked(current: int, total: int, control: Control): (r: Option<int>)
    ensures control == Previous ==> (r.None? <==> current == 1)
    ensures control == Next ==> (r.None? <==> current == total)
    ensures control.Button? ==> (r.None? <==> control.item == Ellipsis)
  {
    match control
    case Previous => if current == 1 then None else Some(current - 1)
    case Next => if current == total then None else Some(current + 1)
    case Button(item) => if item.Page? then Some(item.n) else None
  }

  /** A control the bar shows. */
  predicate Shown(current: int, total: int, control: Control) {
    control.Button? ==> control.item in PageNumbers(current, total)
  }

  /**
   * On a drawn bar whose current page exists, every enabled control asks for
   * an existing page, and Previous and Next are never both disabled.
   */
  lemma ClicksStayInRange(current: int, total: int, control: Control)
    requires Rendered(total) && 1 <= current <= total
    requires Shown(current, total, control)
    ensures var r := Clicked(current, total, control);
      r.Some? ==> 1 <= r.value <= total
    ensures Clicked(current, total, Previous).Some? || Clicked(current, total, Next).Some?
  {
    if control.Button? {
      NumbersInRange(current, total);
    }
  }
}
