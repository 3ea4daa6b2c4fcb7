/** The spread navigator of the flat viewer: `current_page` together with the
    document's page count and whether a document is open, and the pure effect of
    the Previous, Next and Swap Pages buttons and of a click in full-screen mode.
    The class in module Viewer applies these to its fields. */
module Navigation {

  /** What the navigation buttons read and write. */
  datatype Position = Position(loaded: bool, pageCount: nat, current: int)

  datatype Side = Left | Right

  /** The positions navigation reaches from a freshly opened document when only
      Previous and Next are used: an even page, at most one past the last page. */
  predicate Aligned(n: Position) {
    n.current % 2 == 0 && 0 <= n.current <= n.pageCount
  }

  /** `previous_page`: back one spread when a document is open and the current
      page is past 0; there is no clamp, so page 1 goes to -1. */
  function PreviousPage(n: Position): (r: Position)
    ensures r.loaded == n.loaded && r.pageCount == n.pageCount
    ensures r != n <==> n.loaded && n.current > 0
    ensures r != n ==> r.current == n.current - 2 && r.current >= -1
    ensures Aligned(n) ==> Aligned(r)
  {
    if n.loaded && n.current > 0 then n.(current := n.current - 2) else n
  }

  /** `next_page`: forward one spread while the page after the current one
      exists; this can land exactly one past the last page. */
  function NextPage(n: Position): (r: Position)
    ensures r.loaded == n.loaded && r.pageCount == n.pageCount
    ensures r != n <==> n.loaded && n.current + 1 < n.pageCount
    ensures r != n ==> r.current == n.current + 2 && r.current <= n.pageCount
    ensures Aligned(n) ==> Aligned(r)
  {
    if n.loaded && n.current + 1 < n.pageCount then n.(current := n.current + 2) else n
  }

  /** `swap_pages`: re-pair the spread by moving to the adjacent page of the
      other parity, when that page is not past the end (from an even page) or not
      below 0 (from an odd page). */
  function SwapPages(n: Position): (r: Position)
    ensures r.loaded == n.loaded && r.pageCount == n.pageCount
    ensures r != n <==>
      n.loaded && ((n.current % 2 == 0 && n.current + 1 < n.pageCount) || (n.current % 2 == 1 && n.current >= 1))
    ensures r != n ==> r.current == if n.current % 2 == 0 then n.current + 1 else n.current - 1
    ensures r != n && 0 <= n.current < n.pageCount ==> 0 <= r.current < n.pageCount
  {
    if !n.loaded then n
    else if n.current % 2 == 0 && n.current + 1 < n.pageCount then n.(current := n.current + 1)
    else if n.current % 2 != 0 && n.current - 1 >= 0 then n.(current := n.current - 1)
    else n
  }

  /** Swapping twice returns to the page one started on whenever the first swap
      moved from a page that can be shown. */
  lemma SwapTwiceRestores(n: Position)
    requires n.loaded && 0 <= n.current < n.pageCount
    requires n.current % 2 == 1 || n.current + 1 < n.pageCount
    ensures SwapPages(SwapPages(n)) == n
  {
  }

  datatype Command = Previous | Next

  /** The position after pressing the buttons in `cmds`, in order. */
  function Navigate(n: Position, cmds: seq<Command>): Position
    decreases |cmds|
  {
    if cmds == [] then n
    else
      var m := if cmds[0] == Next then NextPage(n) else PreviousPage(n);
      Navigate(m, cmds[1..])
  }

  /** Previous and Next never change the document and keep an aligned
      position aligned, whatever the order of presses. */
  lemma {:induction false} NavigateKeepsAligned(n: Position, cmds: seq<Command>)
    requires Aligned(n)
    ensures Aligned(Navigate(n, cmds))
    ensures Navigate(n, cmds).loaded == n.loaded && Navigate(n, cmds).pageCount == n.pageCount
    decreases |cmds|
  {
    if cmds != [] {
      var m := if cmds[0] == Next then NextPage(n) else PreviousPage(n);
      NavigateKeepsAligned(m, cmds[1..]);
    }
  }

  /** After opening a document (current page reset to 0), Previous and Next
      keep the current page even and within [0, page count]. */
  lemma OpenedThenNavigated(pageCount: nat, cmds: seq<Command>)
    ensures var n := Navigate(Position(true, pageCount, 0), cmds);
      n.current % 2 == 0 && 0 <= n.current <= pageCount
  {
    NavigateKeepsAligned(Position(true, pageCount, 0), cmds);
  }

  /** With an even page count, Next from the last spread moves one past the last
      page (4 pages: from 2 to 4). */
  lemma NextReachesPageCount(pageCount: nat)
    requires pageCount >= 2 && pageCount % 2 == 0
    ensures NextPage(Position(true, pageCount, pageCount - 2)).current == pageCount
  {
  }

  /** From page 1 (reachable with Swap Pages) Previous goes to -1. */
  lemma PreviousFromOneIsNegative(pageCount: nat)
    ensures PreviousPage(Position(true, pageCount, 1)).current == -1
  {
  }

  /** `handle_mouse_click`'s routing in full-screen mode: a click left of half the
      image width (`x < width / 2` in real division) goes back, any other forward. */
  function FlatClickSide(x: int, width: int): (s: Side)
    ensures s == Left <==> (x as real) < (width as real) / 2.0
  {
    if 2 * x < width then Left else Right
  }
}
