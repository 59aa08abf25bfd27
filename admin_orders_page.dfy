/** The administrator's order table: search and status filter, the status
    dialog and the status update. The page's state is replaced as a whole
    by each handler. */
module AdminOrdersPage {
  import opened Wrappers
  import Js
  import OrderAdminRoutes

  /** A row of the table. */
  datatype PageOrder = PageOrder(id: string, customer: string, date: string, amount: int, status: string)

  /** The page's state. */
  datatype Page = Page(
    orders: seq<PageOrder>, searchTerm: string, statusFilter: string,
    selected: Option<PageOrder>, showStatusModal: bool, newStatus: string)

  /** The statuses the page offers, in lower case. */
  const PageStatuses: seq<string> := ["processing", "shipped", "delivered", "cancelled"]

  /** Whether a row is shown: its id or customer contains the search term,
      ignoring case, and the status filter is "all" or equals its status. */
  predicate Shown(o: PageOrder, searchTerm: string, statusFilter: string) {
    (Js.IncludesIgnoringCase(o.id, searchTerm) || Js.IncludesIgnoringCase(o.customer, searchTerm)) &&
    (statusFilter == "all" || o.status == statusFilter)
  }

  /** The rows shown, in table order. */
  function Filtered(orders: seq<PageOrder>, searchTerm: string, statusFilter: string): (r: seq<PageOrder>)
    ensures |r| <= |orders|
    ensures forall o :: o in r <==> o in orders && Shown(o, searchTerm, statusFilter)
  {
    if |orders| == 0 then []
    else
      var rest := Filtered(orders[1..], searchTerm, statusFilter);
      assert forall o :: o in orders <==> o == orders[0] || o in orders[1..];
      if Shown(orders[0], searchTerm, statusFilter) then [orders[0]] + rest else rest
  }

  /** `filter(s => s !== current)`: the statuses other than `current`, in
      their order. */
  function Without(ss: seq<string>, current: string): (r: seq<string>)
    ensures forall s :: s in r <==> s in ss && s != current
  {
    if |ss| == 0 then []
    else
      assert forall s :: s in ss <==> s == ss[0] || s in ss[1..];
      (if ss[0] == current then [] else [ss[0]]) + Without(ss[1..], current)
  }

  /** Filtering out a status that is not there keeps the list. */
  lemma {:induction false} WithoutAbsent(ss: seq<string>, current: string)
    requires current !in ss
    ensures Without(ss, current) == ss
  {
    if |ss| > 0 {
      assert ss[0] != current;
      assert current !in ss[1..] by { assert forall s :: s in ss[1..] ==> s in ss; }
      WithoutAbsent(ss[1..], current);
      assert ss == [ss[0]] + ss[1..];
    }
  }

  /** The statuses before the first `current` pass the filter unchanged. */
  lemma {:induction false} WithoutCutsOut(ss: seq<string>, current: string, k: nat)
    requires k < |ss| && ss[k] == current && current !in ss[..k]
    ensures Without(ss, current) == ss[..k] + Without(ss[k + 1..], current)
  {
    if k > 0 {
      assert ss[0] == ss[..k][0];
      assert ss[1..][..k - 1] == ss[1..k];
      assert current !in ss[1..][..k - 1] by { assert forall s :: s in ss[1..k] ==> s in ss[..k]; }
      WithoutCutsOut(ss[1..], current, k - 1);
      assert ss[1..][k..] == ss[k + 1..];
      assert ss[..k] == [ss[0]] + ss[1..k];
    }
  }

  /** A status that occurs once is cut out where it stands; a status that
      does not occur leaves the list as it is. */
  lemma WithoutOrder(ss: seq<string>, current: string)
    ensures current !in ss ==> Without(ss, current) == ss
    ensures forall k :: 0 <= k < |ss| && ss[k] == current && current !in ss[..k] && current !in ss[k + 1..] ==>
              Without(ss, current) == ss[..k] + ss[k + 1..]
  {
    if current !in ss {
      WithoutAbsent(ss, current);
    }
    forall k | 0 <= k < |ss| && ss[k] == current && current !in ss[..k] && current !in ss[k + 1..]
      ensures Without(ss, current) == ss[..k] + ss[k + 1..]
    {
      WithoutCutsOut(ss, current, k);
      WithoutAbsent(ss[k + 1..], current);
    }
  }

  /** The statuses offered in the dialog: the four statuses without the
      current one, in their fixed order; the current one is cut out where
      it stands. */
  function StatusOptions(current: string): (r: seq<string>)
    ensures forall s :: s in r <==> s in PageStatuses && s != current
    ensures |r| == if current in PageStatuses then 3 else 4
    ensures current !in PageStatuses ==> r == PageStatuses
    ensures forall k :: 0 <= k < |PageStatuses| && PageStatuses[k] == current ==>
              r == PageStatuses[..k] + PageStatuses[k + 1..]
  {
    WithoutOrder(PageStatuses, current);
    Without(PageStatuses, current)
  }

  /** The page's statuses are written in lower case and the order handler
      accepts only capitalised ones: none of them would be accepted. */
  lemma PageStatusesRejectedByServer(current: string)
    ensures forall s :: s in StatusOptions(current) ==> s !in OrderAdminRoutes.ValidStatuses
  {
  }

  /** Opening the dialog for a row: that row is selected and its status is
      preselected. The button exists only on rows of the table. */
  function OpenStatusDialog(page: Page, orderId: string): (r: Page)
    requires exists o :: o in page.orders && o.id == orderId
    ensures r.selected.Some? && r.selected.value in page.orders && r.selected.value.id == orderId
    ensures r.newStatus == r.selected.value.status && r.showStatusModal
    ensures r.orders == page.orders
  {
    var i := FirstWithId(page.orders, orderId);
    page.(selected := Some(page.orders[i]), newStatus := page.orders[i].status, showStatusModal := true)
  }

  /** `orders.find(o => o.id === id)`, as an index. */
  function FirstWithId(orders: seq<PageOrder>, id: string): (i: nat)
    requires exists o :: o in orders && o.id == id
    ensures i < |orders| && orders[i].id == id
    ensures forall j :: 0 <= j < i ==> orders[j].id != id
  {
    if orders[0].id == id then 0
    else
      assert exists o :: o in orders[1..] && o.id == id by {
        var o :| o in orders && o.id == id;
        assert o in orders[1..];
      }
      1 + FirstWithId(orders[1..], id)
  }

  /** Confirming the dialog: without a selection or a status nothing
      happens; otherwise every row with the selected id takes the new
      status, and the dialog closes and forgets its selection. */
  function UpdateOrderStatus(page: Page): Page {
    if page.selected.None? || page.newStatus == "" then page
    else
      var id := page.selected.value.id;
      var orders := seq(|page.orders|, j requires 0 <= j < |page.orders| =>
                          if page.orders[j].id == id then page.orders[j].(status := page.newStatus) else page.orders[j]);
      page.(orders := orders, showStatusModal := false, selected := None, newStatus := "")
  }

  /** What confirming the dialog does to the rows and to the dialog. */
  lemma UpdateOrderStatusEffect(page: Page)
    ensures var r := UpdateOrderStatus(page);
            (page.selected.None? || page.newStatus == "" ==> r == page) &&
            (page.selected.Some? && page.newStatus != "" ==>
               |r.orders| == |page.orders| && r.selected.None? && !r.showStatusModal && r.newStatus == "" &&
               r.searchTerm == page.searchTerm && r.statusFilter == page.statusFilter &&
               forall j :: 0 <= j < |r.orders| ==>
                 r.orders[j] == if page.orders[j].id == page.selected.value.id
                                then page.orders[j].(status := page.newStatus) else page.orders[j])
  {
  }

  /** Opening the dialog on a row and confirming without touching the
      choice leaves every row as it was. */
  lemma ConfirmPreselectedIsNoChange(page: Page, orderId: string)
    requires exists o :: o in page.orders && o.id == orderId
    requires forall i, j :: 0 <= i < j < |page.orders| ==> page.orders[i].id != page.orders[j].id
    ensures UpdateOrderStatus(OpenStatusDialog(page, orderId)).orders == page.orders
  {
    var dialog := OpenStatusDialog(page, orderId);
    var k := FirstWithId(page.orders, orderId);
    if dialog.newStatus != "" {
      var r := UpdateOrderStatus(dialog);
      assert forall j :: 0 <= j < |page.orders| ==> r.orders[j] == page.orders[j];
    }
  }
}
