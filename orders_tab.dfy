/** The admin orders list's pagination (frontend/src/components/admin/OrdersTab.tsx). */
module OrdersTab {
  import opened Wrappers

  /** The parts of a loaded page the controls read. */
  datatype PageInfo = PageInfo(contentLength: nat, totalPages: int)

  /** The controls render when a non-empty page is loaded and there is more than one page. */
  predicate ShowPagination(loading: bool, orders: Option<PageInfo>) {
    !loading && orders.Some? && orders.value.contentLength > 0 && orders.value.totalPages > 1
  }

  predicate PreviousDisabled(currentPage: int, loading: bool) {
    currentPage == 0 || loading
  }

  predicate NextDisabled(currentPage: int, totalPages: int, loading: bool) {
    currentPage >= totalPages - 1 || loading
  }

  /** The page Previous moves to: `Math.max(0, currentPage - 1)`. */
  function PreviousPage(currentPage: int): (p: int)
    ensures p >= 0
    ensures currentPage >= 1 ==> p == currentPage - 1
    ensures currentPage <= 0 ==> p == 0
  {
    if currentPage - 1 < 0 then 0 else currentPage - 1
  }

  /** The page Next moves to: `Math.min(totalPages - 1, currentPage + 1)`. */
  function NextPage(currentPage: int, totalPages: int): (p: int)
    ensures p <= totalPages - 1
    ensures currentPage < totalPages - 1 ==> p == currentPage + 1
    ensures currentPage >= totalPages - 1 ==> p == totalPages - 1
  {
    if totalPages - 1 < currentPage + 1 then totalPages - 1 else currentPage + 1
  }

  /** Clicking an enabled button from a page in range keeps the page in range. */
  lemma EnabledMovesStayInRange(currentPage: int, totalPages: int)
    requires 0 <= currentPage < totalPages
    ensures !PreviousDisabled(currentPage, false) ==> 0 <= PreviousPage(currentPage) < totalPages
    ensures !PreviousDisabled(currentPage, false) ==> PreviousPage(currentPage) == currentPage - 1
    ensures !NextDisabled(currentPage, totalPages, false) ==> 0 <= NextPage(currentPage, totalPages) < totalPages
    ensures !NextDisabled(currentPage, totalPages, false) ==> NextPage(currentPage, totalPages) == currentPage + 1
  {
  }

  /** Previous then Next from an inner page returns to where it started. */
  lemma PreviousThenNext(currentPage: int, totalPages: int)
    requires 1 <= currentPage < totalPages
    ensures NextPage(PreviousPage(currentPage), totalPages) == currentPage
  {
  }

  /** While a load is running both buttons are disabled. */
  lemma LoadingDisablesBoth(currentPage: int, totalPages: int)
    ensures PreviousDisabled(currentPage, true) && NextDisabled(currentPage, totalPages, true)
  {
  }

  /** The controls only render when no load is running, so a visible button is
      disabled by the page position alone. */
  lemma VisibleButtonsFollowPage(loading: bool, orders: Option<PageInfo>, currentPage: int)
    requires ShowPagination(loading, orders)
    ensures PreviousDisabled(currentPage, loading) <==> currentPage == 0
    ensures NextDisabled(currentPage, orders.value.totalPages, loading) <==> currentPage >= orders.value.totalPages - 1
  {
  }
}
