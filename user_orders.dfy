/** The "My Orders" page (src/pages/userPage/UserOrderPage.tsx): the status filter and
    the search over orders, the status badge, the download button and the labels. */
module UserOrders {
  import opened Base
  import opened Text
  import opened Seqs

  /** An order as the page reads it; absent optional fields are None. */
  datatype Order = Order(id: string, orderNumber: Option<string>, eventTitle: Option<string>,
                         venueName: Option<string>, paymentStatus: string)

  /** `field?.toLowerCase().includes(lower)`: false when the field is absent. */
  predicate FieldMatches(field: Option<string>, lower: string) {
    field.Some? && Contains(Lower(field.value), lower)
  }

  /** The callback of `orders.filter`. */
  predicate Keep(o: Order, filter: string, searchTerm: string) {
    if filter != "all" && o.paymentStatus != filter then false
    else if searchTerm != "" then
      var lower := Lower(searchTerm);
      FieldMatches(o.orderNumber, lower) || FieldMatches(o.eventTitle, lower) || FieldMatches(o.venueName, lower)
    else true
  }

  /** `filteredOrders`. */
  function FilteredOrders(orders: seq<Order>, filter: string, searchTerm: string): seq<Order> {
    Filter(orders, (o: Order) => Keep(o, filter, searchTerm))
  }

  /** The filtered list keeps the fetched order and keeps an order exactly when it
      passes both the status filter and the search. */
  lemma FilteredOrdersSpec(orders: seq<Order>, filter: string, searchTerm: string)
    ensures IsSubsequence(FilteredOrders(orders, filter, searchTerm), orders)
    ensures forall o :: o in FilteredOrders(orders, filter, searchTerm) <==> o in orders && Keep(o, filter, searchTerm)
  {
    FilterIsSubsequence(orders, (o: Order) => Keep(o, filter, searchTerm));
  }

  /** With the filter on "all" and no search, every order is listed. */
  lemma AllAndNoSearchKeepsAll(orders: seq<Order>)
    ensures FilteredOrders(orders, "all", "") == orders
  {
    FilterKeepsAll(orders, (o: Order) => Keep(o, "all", ""));
  }

  /** Every listed order has the chosen status (unless "all"), and with a search term
      one of its three texts contains the lower-cased term. */
  lemma KeptOrdersMatch(orders: seq<Order>, filter: string, searchTerm: string)
    ensures forall o :: o in FilteredOrders(orders, filter, searchTerm) && filter != "all" ==>
              o.paymentStatus == filter
    ensures forall o :: o in FilteredOrders(orders, filter, searchTerm) && searchTerm != "" ==>
              FieldMatches(o.orderNumber, Lower(searchTerm)) || FieldMatches(o.eventTitle, Lower(searchTerm))
              || FieldMatches(o.venueName, Lower(searchTerm))
  {
  }

  /** A search matches regardless of the letter case of the term. */
  lemma SearchIgnoresCase(o: Order, filter: string, searchTerm: string)
    ensures Keep(o, filter, searchTerm) <==> Keep(o, filter, Lower(searchTerm))
  {
    LowerHasNoUpper(searchTerm);
    LowerOfLowerCase(Lower(searchTerm));
    if searchTerm != "" {
      assert Lower(searchTerm) != "";
    } else {
      assert Lower(searchTerm) == "";
    }
  }

  datatype Badge = Badge(text: string, color: string)

  /** `config[status] || config.pending`. */
  function StatusBadge(status: string): Badge {
    if status == "paid" then Badge("Paid", "bg-green-100 text-green-800")
    else if status == "failed" then Badge("Failed", "bg-red-100 text-red-800")
    else Badge("Pending", "bg-yellow-100 text-yellow-800")
  }

  /** Only "paid" and "failed" have badges of their own; every other status, such as
      "cancelled" or "refunded", shows as Pending. */
  lemma StatusBadgeFallback(status: string)
    ensures StatusBadge(status).text == "Paid" <==> status == "paid"
    ensures StatusBadge(status).text == "Failed" <==> status == "failed"
    ensures status != "paid" && status != "failed" ==> StatusBadge(status) == StatusBadge("pending")
  {
  }

  /** The "Download Tickets" button is rendered. */
  predicate ShowsDownload(o: Order) { o.paymentStatus == "paid" }

  /** The download button appears exactly for orders whose badge reads Paid. */
  lemma DownloadOnlyWhenPaid(o: Order)
    ensures ShowsDownload(o) <==> StatusBadge(o.paymentStatus).text == "Paid"
  {
  }

  /** The text after '#': `order.orderNumber || order._id.slice(-8)`. */
  function OrderLabel(o: Order): (shown: string)
    ensures o.orderNumber.Some? && o.orderNumber.value != "" ==> shown == o.orderNumber.value
    ensures !(o.orderNumber.Some? && o.orderNumber.value != "") ==>
              |shown| == (if |o.id| < 8 then |o.id| else 8) && shown == o.id[|o.id| - |shown|..]
  {
    if o.orderNumber.Some? && o.orderNumber.value != "" then o.orderNumber.value else SliceLast(o.id, 8)
  }

  /** `order.event?.title || 'Unknown Event'`. */
  function TitleLabel(o: Order): (shown: string)
    ensures shown != ""
    ensures shown != "Unknown Event" ==> o.eventTitle == Some(shown)
    ensures o.eventTitle.Some? && o.eventTitle.value != "" ==> shown == o.eventTitle.value
  {
    if o.eventTitle.Some? && o.eventTitle.value != "" then o.eventTitle.value else "Unknown Event"
  }

  class UserOrdersPage {
    var orders: seq<Order>
    var loading: bool
    var filter: string
    var searchTerm: string

    constructor ()
      ensures orders == [] && loading && filter == "all" && searchTerm == ""
    {
      orders := [];
      loading := true;
      filter := "all";
      searchTerm := "";
    }

    /** The mount effect, with `resp` the answer of `getUserOrders`: the body becomes
        the list; a failure leaves it as it was. */
    method FetchOrders(resp: Response<seq<Order>>)
      modifies this
      ensures resp.Ok? ==> orders == resp.body
      ensures resp.Fail? ==> orders == old(orders)
      ensures !loading && filter == old(filter) && searchTerm == old(searchTerm)
    {
      loading := true;
      if resp.Ok? {
        orders := resp.body;
      }
      loading := false;
    }

    method SetFilter(value: string)
      modifies this
      ensures filter == value
      ensures orders == old(orders) && loading == old(loading) && searchTerm == old(searchTerm)
    {
      filter := value;
    }

    method SetSearchTerm(value: string)
      modifies this
      ensures searchTerm == value
      ensures orders == old(orders) && loading == old(loading) && filter == old(filter)
    {
      searchTerm := value;
    }

    /** `downloadAllTickets(orderId)`, with `resp` the answer of
        `downloadOrderTickets`: returns the order asked for and the alert shown. */
    method DownloadAllTickets(orderId: string, resp: Response<bool>) returns (asked: string, alert: Option<string>)
      ensures asked == orderId
      ensures alert.Some? <==> resp.Fail?
      ensures alert.Some? ==> alert.value == "Download failed"
    {
      asked := orderId;
      alert := if resp.Fail? then Some("Download failed") else None;
    }

    /** The rows shown. */
    function Shown(): seq<Order>
      reads this
    {
      FilteredOrders(orders, filter, searchTerm)
    }
  }
}
