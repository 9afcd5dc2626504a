/** The admin order list of src/components/admin/OrderManager.tsx: the mock
    orders, the case-insensitive search over order id and customer, the
    status badge, and the details dialog. The component's state is a value
    that its handlers replace. */
module OrderManager {
  import opened Base
  import Seqs
  import Text

  /** An order row; the total is in rupees. */
  datatype Order = Order(
    id: string, customer: string, date: string, total: int, status: string, paymentMethod: string
  )

  const O1 := Order("#ORD-001", "Rahul Sharma", "2023-04-07", 24500, "Processing", "Credit Card")
  const O2 := Order("#ORD-002", "Priya Patel", "2023-04-06", 18200, "Shipped", "UPI")
  const O3 := Order("#ORD-003", "Amit Singh", "2023-04-05", 35000, "Delivered", "Credit Card")
  const O4 := Order("#ORD-004", "Neha Gupta", "2023-04-04", 42600, "Processing", "Bank Transfer")
  const O5 := Order("#ORD-005", "Vikram Khanna", "2023-04-03", 2800, "Cancelled", "UPI")

  const MockOrders: seq<Order> := [O1, O2, O3, O4, O5]

  /** The four state fields of the component. */
  datatype OrderPage = OrderPage(
    orders: seq<Order>, searchTerm: string, selectedOrder: Option<Order>, isOrderDetailsOpen: bool
  )

  const Initial := OrderPage(MockOrders, "", None, false)

  /** The search predicate of lines 24-27. */
  function SearchKeep(term: string): Order -> bool {
    (o: Order) => Text.MatchesEither(term, o.id, o.customer)
  }

  /** `filteredOrders`. */
  function FilteredOrders(orders: seq<Order>, searchTerm: string): seq<Order> {
    Seqs.Filter(orders, SearchKeep(searchTerm))
  }

  /** An order is listed exactly when the lower-cased term occurs in its
      lower-cased id or customer, as often as it occurs and in list order; the
      empty term lists every order. */
  lemma SearchFacts(orders: seq<Order>, more: seq<Order>, searchTerm: string)
    ensures forall o: Order :: o in FilteredOrders(orders, searchTerm) <==>
              o in orders && Text.MatchesEither(searchTerm, o.id, o.customer)
    ensures forall o: Order :: Text.MatchesEither(searchTerm, o.id, o.customer) ==>
              multiset(FilteredOrders(orders, searchTerm))[o] == multiset(orders)[o]
    ensures FilteredOrders(orders + more, searchTerm)
            == FilteredOrders(orders, searchTerm) + FilteredOrders(more, searchTerm)
    ensures FilteredOrders(orders, "") == orders
  {
    Seqs.FilterFacts(orders, SearchKeep(searchTerm));
    Seqs.FilterConcat(orders, more, SearchKeep(searchTerm));
    forall o | o in orders
      ensures SearchKeep("")(o)
    {
      Text.EmptyTermMatches(o.id, o.customer);
    }
    Seqs.FilterAll(orders, SearchKeep(""));
  }

  /** The search box's `onChange`: only the term changes. */
  function SetSearchTerm(s: OrderPage, searchTerm: string): (r: OrderPage)
    ensures r.searchTerm == searchTerm
    ensures r.orders == s.orders && r.selectedOrder == s.selectedOrder
    ensures r.isOrderDetailsOpen == s.isOrderDetailsOpen
  {
    s.(searchTerm := searchTerm)
  }

  /** The table shows the orders that match the current term. */
  function ShownOrders(s: OrderPage): seq<Order> {
    FilteredOrders(s.orders, s.searchTerm)
  }

  /** Searching never touches the order list: any sequence of terms leaves
      it as it was, and clearing the term shows every order again. */
  lemma SearchKeepsOrders(s: OrderPage, term: string, next: string)
    ensures SetSearchTerm(SetSearchTerm(s, term), next).orders == s.orders
    ensures ShownOrders(SetSearchTerm(SetSearchTerm(s, term), "")) == s.orders
    ensures forall o :: o in ShownOrders(SetSearchTerm(s, term)) ==> o in s.orders
  {
    SearchFacts(s.orders, [], "");
    SearchFacts(s.orders, [], term);
  }

  /** The colour of the status badge. */
  datatype Badge = Blue | Amber | Green | Red

  /** The class chain of lines 76-79. */
  function StatusBadge(status: string): (b: Badge)
    ensures b == Blue <==> status == "Processing"
    ensures b == Amber <==> status == "Shipped"
    ensures b == Green <==> status == "Delivered"
    ensures b == Red <==> status !in {"Processing", "Shipped", "Delivered"}
  {
    if status == "Processing" then Blue
    else if status == "Shipped" then Amber
    else if status == "Delivered" then Green
    else Red
  }

  /** Among the mock orders the two processing ones are blue and the
      cancelled one is red. */
  lemma MockBadges()
    ensures StatusBadge(O1.status) == Blue && StatusBadge(O4.status) == Blue
    ensures StatusBadge(O2.status) == Amber && StatusBadge(O3.status) == Green
    ensures StatusBadge(O5.status) == Red
  {
  }

  /** `viewOrderDetails`: the clicked order is selected and the dialog opens. */
  function ViewOrderDetails(s: OrderPage, order: Order): (r: OrderPage)
    ensures r.selectedOrder == Some(order) && r.isOrderDetailsOpen
    ensures r.orders == s.orders && r.searchTerm == s.searchTerm
  {
    s.(selectedOrder := Some(order), isOrderDetailsOpen := true)
  }

  /** Opening a row's details changes neither the list nor the rows shown,
      and the dialog shows that row whatever was selected before. */
  lemma ViewKeepsTable(s: OrderPage, t: OrderPage, order: Order)
    requires order in ShownOrders(s)
    ensures ShownOrders(ViewOrderDetails(s, order)) == ShownOrders(s)
    ensures ViewOrderDetails(s, order).selectedOrder.value in s.orders
    ensures ViewOrderDetails(s, order).selectedOrder == ViewOrderDetails(t, order).selectedOrder
  {
    SearchFacts(s.orders, [], s.searchTerm);
  }

  /** "patel" finds Priya Patel's order #ORD-002 and nothing else. */
  lemma PatelSearch()
    ensures FilteredOrders(MockOrders, "patel") == [O2]
  {
    PatelKept();
    PatelDropped();
    KeepSecondOnly(O1, O2, O3, O4, O5, SearchKeep("patel"));
  }

  lemma KeepSecondOnly(a: Order, b: Order, c: Order, d: Order, e: Order, keep: Order -> bool)
    requires !keep(a) && keep(b) && !keep(c) && !keep(d) && !keep(e)
    ensures Seqs.Filter([a, b, c, d, e], keep) == [b]
  {
    Seqs.FilterFive(a, b, c, d, e, keep, false, true, false, false, false);
  }

  lemma PatelKept()
    ensures SearchKeep("patel")(O2)
  {
    Text.MatchedAt("patel", O2.customer, O2.id, 6);
    Text.MatchesEitherSwap("patel", O2.customer, O2.id);
  }

  lemma PatelDropped()
    ensures !SearchKeep("patel")(O1) && !SearchKeep("patel")(O3)
    ensures !SearchKeep("patel")(O4) && !SearchKeep("patel")(O5)
  {
    NoPatelRahul();
    NoPatelAmit();
    NoPatelNeha();
    NoPatelVikram();
  }

  /** Neither "#ORD-001" nor "Rahul Sharma" has a 'p'. */
  lemma NoPatelRahul()
    ensures !Text.MatchesEither("patel", "#ORD-001", "Rahul Sharma")
  {
    Text.ExcludedByLetter("patel", "#ORD-001", "Rahul Sharma", 'p');
  }

  /** Neither "#ORD-003" nor "Amit Singh" has a 'p'. */
  lemma NoPatelAmit()
    ensures !Text.MatchesEither("patel", "#ORD-003", "Amit Singh")
  {
    Text.ExcludedByLetter("patel", "#ORD-003", "Amit Singh", 'p');
  }

  /** Neither "#ORD-004" nor "Neha Gupta" has an 'l'. */
  lemma NoPatelNeha()
    ensures !Text.MatchesEither("patel", "#ORD-004", "Neha Gupta")
  {
    Text.ExcludedByLetter("patel", "#ORD-004", "Neha Gupta", 'l');
  }

  /** Neither "#ORD-005" nor "Vikram Khanna" has a 'p'. */
  lemma NoPatelVikram()
    ensures !Text.MatchesEither("patel", "#ORD-005", "Vikram Khanna")
  {
    Text.ExcludedByLetter("patel", "#ORD-005", "Vikram Khanna", 'p');
  }
}
