/** The admin panel's page logic (public/admin.js): the product, order and
    user filters, the status and role labels, the "recent orders" list, and
    the two checks that stand in front of the save-product and the
    order-status requests. Every helper is a pure function of the page state
    and of the form values it reads. */
module AdminPanel {
  import opened Common
  import opened Records
  import StaffConsole

  // ------------------------------------------------------------- filters

  /** `state.filters`: the search text, category, order status, date and
      role chosen on the panel; "" is a filter that is not set. */
  datatype Filters = Filters(search: string, category: string, status: string, date: string, role: string)

  /** The filters as the panel starts: none set. */
  const NoFilters := Filters("", "", "", "", "")

  /** `filterProducts`' test: the search text occurs in the name or in the
      category, ignoring case, and the category is the chosen one. */
  predicate ProductListed(p: Product, f: Filters)
  {
    (f.search == "" || Contains(Lower(p.name), Lower(f.search)) || Contains(Lower(p.category), Lower(f.search)))
    && (f.category == "" || p.category == f.category)
  }

  function ProductListedBy(f: Filters): Product -> bool
  {
    (p: Product) => ProductListed(p, f)
  }

  /** `filterProducts`: the products passing the test, in stored order. */
  function FilterProducts(products: seq<Product>, f: Filters): (r: seq<Product>)
    ensures IsSubseq(r, products)
    ensures forall p :: p in r <==> p in products && ProductListed(p, f)
    ensures f.category != "" ==> forall i :: 0 <= i < |r| ==> r[i].category == f.category
    ensures forall p :: multiset(r)[p] == if ProductListed(p, f) then multiset(products)[p] else 0
  {
    var keep := ProductListedBy(f);
    FilterIsSubseq(products, keep);
    FilterCountsAll(products, keep);
    Filter(products, keep)
  }

  /** `filterOrders`' test: the search text occurs in the id (case counts)
      or in a non-empty customer name (ignoring case); the status is the
      chosen one; the order was placed on the chosen day, as `sameDay` says. */
  predicate OrderListed(o: Order, f: Filters, sameDay: (int, string) -> bool)
  {
    (f.search == "" || Contains(o.id, f.search)
       || (o.customerName != "" && Contains(Lower(o.customerName), Lower(f.search))))
    && (f.status == "" || o.status == f.status)
    && (f.date == "" || sameDay(o.createdAt, f.date))
  }

  function OrderListedBy(f: Filters, sameDay: (int, string) -> bool): Order -> bool
  {
    (o: Order) => OrderListed(o, f, sameDay)
  }

  /** `filterOrders`: the orders passing the test, in stored order. */
  function FilterOrders(orders: seq<Order>, f: Filters, sameDay: (int, string) -> bool): (r: seq<Order>)
    ensures IsSubseq(r, orders)
    ensures forall o :: o in r <==> o in orders && OrderListed(o, f, sameDay)
    ensures f.status != "" ==> forall i :: 0 <= i < |r| ==> r[i].status == f.status
    ensures forall o :: multiset(r)[o] == if OrderListed(o, f, sameDay) then multiset(orders)[o] else 0
  {
    var keep := OrderListedBy(f, sameDay);
    FilterIsSubseq(orders, keep);
    FilterCountsAll(orders, keep);
    Filter(orders, keep)
  }

  /** `filterUsers`' test: the search text occurs in the name or the e-mail,
      ignoring case, and the role is the chosen one. */
  predicate UserListed(u: UserView, f: Filters)
  {
    (f.search == "" || Contains(Lower(u.name), Lower(f.search)) || Contains(Lower(u.email), Lower(f.search)))
    && (f.role == "" || u.role == f.role)
  }

  function UserListedBy(f: Filters): UserView -> bool
  {
    (u: UserView) => UserListed(u, f)
  }

  /** `filterUsers`: the users passing the test, in the order listed. */
  function FilterUsers(users: seq<UserView>, f: Filters): (r: seq<UserView>)
    ensures IsSubseq(r, users)
    ensures forall u :: u in r <==> u in users && UserListed(u, f)
    ensures f.role != "" ==> forall i :: 0 <= i < |r| ==> r[i].role == f.role
    ensures forall u :: multiset(r)[u] == if UserListed(u, f) then multiset(users)[u] else 0
  {
    var keep := UserListedBy(f);
    FilterIsSubseq(users, keep);
    FilterCountsAll(users, keep);
    Filter(users, keep)
  }

  /** With no filter set the three tables list everything, in order. */
  lemma NoFiltersListAll(products: seq<Product>, orders: seq<Order>, users: seq<UserView>,
                         sameDay: (int, string) -> bool)
    ensures FilterProducts(products, NoFilters) == products
    ensures FilterOrders(orders, NoFilters, sameDay) == orders
    ensures FilterUsers(users, NoFilters) == users
  {
    FilterKeepsAll(products, ProductListedBy(NoFilters));
    FilterKeepsAll(orders, OrderListedBy(NoFilters, sameDay));
    FilterKeepsAll(users, UserListedBy(NoFilters));
  }

  lemma LowerIdempotent(s: string)
    ensures Lower(Lower(s)) == Lower(s)
  {
  }

  /** The product and user searches ignore case: typing the search text in
      lower case lists the same rows. */
  lemma SearchIgnoresCase(products: seq<Product>, users: seq<UserView>, f: Filters)
    ensures FilterProducts(products, f.(search := Lower(f.search))) == FilterProducts(products, f)
    ensures FilterUsers(users, f.(search := Lower(f.search))) == FilterUsers(users, f)
  {
    var g := f.(search := Lower(f.search));
    LowerIdempotent(f.search);
    assert g.search == "" <==> f.search == "";
    FilterExtensional(products, ProductListedBy(g), ProductListedBy(f));
    FilterExtensional(users, UserListedBy(g), UserListedBy(f));
  }

  /** Searching for an order's exact id lists that order, whatever the
      customer is called. */
  lemma IdSearchListsOrder(orders: seq<Order>, i: nat, sameDay: (int, string) -> bool)
    requires i < |orders|
    ensures orders[i] in FilterOrders(orders, NoFilters.(search := orders[i].id), sameDay)
  {
    assert IsPrefix(orders[i].id, orders[i].id);
  }

  /** Searching for a user's exact e-mail lists that user. */
  lemma EmailSearchListsUser(users: seq<UserView>, i: nat)
    requires i < |users|
    ensures users[i] in FilterUsers(users, NoFilters.(search := users[i].email))
  {
    var e := Lower(users[i].email);
    assert IsPrefix(e, e);
  }

  // -------------------------------------------------------------- labels

  /** The six statuses `getStatusText` has a label for: the four order
      statuses and the two product statuses. */
  predicate Labelled(status: string)
  {
    StaffConsole.KnownStatus(status) || status == "active" || status == "inactive"
  }

  /** `getStatusText`: the Vietnamese label of a status, any other text
      shown as it is. */
  function StatusText(status: string): (r: string)
    ensures !Labelled(status) ==> r == status
    ensures Labelled(status) ==> r != "" && !Labelled(r)
  {
    if status == Pending then "Chờ xử lý"
    else if status == Processing then "Đang xử lý"
    else if status == Completed then "Hoàn thành"
    else if status == Cancelled then "Đã hủy"
    else if status == "active" then "Hoạt động"
    else if status == "inactive" then "Tạm ngưng"
    else status
  }

  /** The panel and the staff console label the four order statuses alike. */
  lemma OrderLabelsAgree(status: string)
    ensures StaffConsole.KnownStatus(status) ==> StatusText(status) == StaffConsole.StatusText(status)
    ensures !Labelled(status) ==> StatusText(status) == StaffConsole.StatusText(status)
  {
  }

  /** The status a label stands for: `getStatusText` read backwards. */
  function LabelStatus(text: string): string
  {
    if text == "Chờ xử lý" then Pending
    else if text == "Đang xử lý" then Processing
    else if text == "Hoàn thành" then Completed
    else if text == "Đã hủy" then Cancelled
    else if text == "Hoạt động" then "active"
    else if text == "Tạm ngưng" then "inactive"
    else text
  }

  /** Every label leads back to its status, so different labelled statuses
      get different labels. */
  lemma StatusTextInjective(a: string, b: string)
    requires Labelled(a) && Labelled(b)
    ensures LabelStatus(StatusText(a)) == a
    ensures a != b ==> StatusText(a) != StatusText(b)
  {
    assert LabelStatus(StatusText(b)) == b;
  }

  /** The three roles `getRoleText` has a label for. */
  predicate KnownRole(role: string)
  {
    role == "admin" || role == "staff" || role == "user"
  }

  /** `getRoleText`: the Vietnamese name of a role, any other text shown as
      it is. */
  function RoleText(role: string): (r: string)
    ensures !KnownRole(role) ==> r == role
    ensures KnownRole(role) ==> r != "" && !KnownRole(r)
  {
    if role == "admin" then "Quản trị viên"
    else if role == "staff" then "Nhân viên"
    else if role == "user" then "Người dùng"
    else role
  }

  /** Different roles get different names. */
  lemma RoleTextInjective(a: string, b: string)
    requires KnownRole(a) && KnownRole(b) && a != b
    ensures RoleText(a) != RoleText(b)
  {
    assert RoleText(a)[0] != RoleText(b)[0] || RoleText(a)[1] != RoleText(b)[1];
  }

  // ------------------------------------------------------- recent orders

  /** How many orders the dashboard lists. */
  const RecentCount := 5

  /** `renderRecentOrders`: the first five orders as the server lists them
      (all of them when there are fewer). */
  function RecentOrders(orders: seq<Order>): (r: seq<Order>)
    ensures |r| == if |orders| < RecentCount then |orders| else RecentCount
    ensures forall i :: 0 <= i < |r| ==> r[i] == orders[i]
  {
    if |orders| < RecentCount then orders else orders[..RecentCount]
  }

  /** The server appends each new order, so once five orders exist a new one
      never reaches the dashboard's "recent orders": the list shows the five
      oldest. */
  lemma NewOrderNotRecent(orders: seq<Order>, o: Order)
    requires |orders| >= RecentCount
    ensures RecentOrders(orders + [o]) == RecentOrders(orders)
    ensures o !in orders[..RecentCount] ==> o !in RecentOrders(orders + [o])
  {
    assert (orders + [o])[..RecentCount] == orders[..RecentCount];
  }

  // -------------------------------------------------------- save product

  predicate AllDigits(s: string)
  {
    forall i :: 0 <= i < |s| ==> IsDigit(s[i])
  }

  function DigitValue(c: char): (d: nat)
    requires IsDigit(c)
    ensures d < 10
  {
    c as int - '0' as int
  }

  /** The number a string of decimal digits denotes. */
  function DigitsValue(s: string): nat
    requires AllDigits(s)
  {
    if s == [] then 0 else DigitsValue(s[..|s| - 1]) * 10 + DigitValue(s[|s| - 1])
  }

  /** The price field read as a whole number: a non-empty run of decimal
      digits, and nothing else. */
  function ParsePrice(s: string): (r: Option<nat>)
    ensures r.Some? <==> s != [] && AllDigits(s)
  {
    if s != [] && AllDigits(s) then Some(DigitsValue(s)) else None
  }

  lemma DigitValueOfChar(d: nat)
    requires d < 10
    ensures DigitValue(DigitChar(d)) == d
  {
  }

  lemma DivMod10(n: nat)
    ensures n == (n / 10) * 10 + n % 10
  {
  }

  /** Reading back a price written in decimal gives the price. */
  lemma {:induction false} ParsePriceOfString(n: nat)
    ensures ParsePrice(NatToString(n)) == Some(n)
  {
    var s := NatToString(n);
    assert AllDigits(s);
    if n < 10 {
      DigitValueOfChar(n);
      assert s[..|s| - 1] == [];
      assert DigitsValue(s) == DigitsValue([]) * 10 + DigitValue(s[0]);
    } else {
      ParsePriceOfString(n / 10);
      DigitValueOfChar(n % 10);
      assert s[..|s| - 1] == NatToString(n / 10);
      DivMod10(n);
    }
  }

  /** A run of digits has no white space to trim. */
  lemma TrimDigits(s: string)
    requires AllDigits(s)
    ensures Trim(s) == s
  {
    if s != [] {
      assert IsDigit(s[0]) && IsDigit(s[|s| - 1]);
    }
    TrimNoWhitespace(s);
  }

  /** The JSON body of a product save. */
  datatype ProductPayload = ProductPayload(name: string, category: string, price: nat, status: string,
                                           description: string)

  /** What `handleSaveProduct` does with the form: show an error and send
      nothing, or send the payload with the given HTTP method to the given URL. */
  datatype SaveOutcome =
    | Rejected(message: string)
    | Send(verb: string, url: string, payload: ProductPayload)

  const MissingName := "Vui lòng nhập tên sản phẩm"
  const MissingCategory := "Vui lòng chọn danh mục"
  const BadPrice := "Vui lòng nhập giá hợp lệ"

  /** A trimmed price field the form accepts: digits denoting more than 0. */
  predicate PriceAccepted(price: string)
  {
    ParsePrice(price).Some? && ParsePrice(price).value > 0
  }

  /** `handleSaveProduct`, from the form fields (`id` empty for a new
      product) to the request. The checks run in order: name, category,
      price. */
  function SaveProductRequest(id: string, name: string, category: string, price: string, status: string,
                              description: string): (r: SaveOutcome)
    ensures Trim(name) == "" ==> r == Rejected(MissingName)
    ensures Trim(name) != "" && Trim(category) == "" ==> r == Rejected(MissingCategory)
    ensures Trim(name) != "" && Trim(category) != "" && !PriceAccepted(Trim(price)) ==> r == Rejected(BadPrice)
    ensures r.Send? <==> Trim(name) != "" && Trim(category) != "" && PriceAccepted(Trim(price))
    ensures r.Send? ==> r.payload.name != "" && r.payload.category != "" && r.payload.price > 0
                        && r.payload.status != ""
    ensures r.Send? ==> r.payload.name == Trim(name) && r.payload.category == Trim(category)
                        && Some(r.payload.price) == ParsePrice(Trim(price))
                        && r.payload.description == Trim(description)
    ensures r.Send? ==> r.payload.status == (if status != "" then status else "active")
    ensures r.Send? ==> (r.verb == "PUT" <==> id != "") && (r.verb == "POST" <==> id == "")
    ensures r.Send? && id != "" ==> r.url == "/api/products/" + id
    ensures r.Send? && id == "" ==> r.url == "/api/products"
  {
    var n := Trim(name);
    var c := Trim(category);
    var p := ParsePrice(Trim(price));
    if n == "" then Rejected(MissingName)
    else if c == "" then Rejected(MissingCategory)
    else if p.None? || p.value == 0 then Rejected(BadPrice)
    else
      var payload := ProductPayload(n, c, p.value, if status != "" then status else "active", Trim(description));
      if id != "" then Send("PUT", "/api/products/" + id, payload) else Send("POST", "/api/products", payload)
  }

  /** A name, a category and a positive price typed in decimal are sent,
      with that price. */
  lemma WrittenPriceIsSent(id: string, name: string, category: string, n: nat, status: string,
                           description: string)
    requires Trim(name) != "" && Trim(category) != "" && n > 0
    ensures var r := SaveProductRequest(id, name, category, NatToString(n), status, description);
            r.Send? && r.payload.price == n
  {
    ParsePriceOfString(n);
    TrimDigits(NatToString(n));
    assert PriceAccepted(Trim(NatToString(n)));
  }

  // ------------------------------------------------------- order status

  function HasOrderId(id: string): Order -> bool
  {
    (o: Order) => o.id == id
  }

  /** `handleUpdateOrderStatus`: for the order with the row's id, the status
      the admin typed into the prompt ("" when they cancel it) is sent only
      when it is non-empty and differs from the order's status. */
  function StatusUpdateRequest(orders: seq<Order>, orderId: string, entered: string): (r: Option<StaffConsole.StatusRequest>)
    ensures r.Some? <==> entered != "" && FirstIndex(orders, HasOrderId(orderId)).Some?
                         && orders[FirstIndex(orders, HasOrderId(orderId)).value].status != entered
    ensures r.Some? ==> r.value == StaffConsole.StatusRequest(orderId, entered)
  {
    match FirstIndex(orders, HasOrderId(orderId))
    case None => None
    case Some(i) =>
      if entered != "" && entered != orders[i].status then Some(StaffConsole.StatusRequest(orderId, entered))
      else None
  }

  /** Once the server has stored a requested status, entering the same
      status again sends nothing. */
  lemma RepeatedUpdateSendsNothing(orders: seq<Order>, orderId: string, entered: string, now: int)
    requires StatusUpdateRequest(orders, orderId, entered).Some?
    ensures var i := FirstIndex(orders, HasOrderId(orderId)).value;
            var stored := orders[i := orders[i].(status := entered, updatedAt := Some(now))];
            StatusUpdateRequest(stored, orderId, entered).None?
  {
    var i := FirstIndex(orders, HasOrderId(orderId)).value;
    var stored := orders[i := orders[i].(status := entered, updatedAt := Some(now))];
    FirstIndexSameMatches(orders, stored, HasOrderId(orderId));
  }
}
