/** The staff console script public/staff.js: the order statistics, the
    actions offered on each order and the status each action requests, the
    order filters and the status labels. */
module StaffConsole {
  import opened Common
  import opened Records

  const Accept := "accept"
  const Complete := "complete"
  const Cancel := "cancel"

  const DayMs := 24 * 60 * 60 * 1000

  // ----------------------------------------------------------- statistics

  /** `state.stats`. */
  datatype Stats = Stats(pending: nat, processing: nat, completed: nat, total: nat)

  function HasStatus(status: string): Order -> bool
  {
    (o: Order) => o.status == status
  }

  /** `orders.filter(o => o.status === status).length`. */
  function CountStatus(orders: seq<Order>, status: string): (n: nat)
    ensures n <= |orders|
    ensures n == |orders| <==> forall i :: 0 <= i < |orders| ==> orders[i].status == status
  {
    |Filter(orders, HasStatus(status))|
  }

  predicate KnownStatus(status: string)
  {
    status == Pending || status == Processing || status == Completed || status == Cancelled
  }

  /** Counting a status over a non-empty list: the first order, then the rest. */
  lemma CountStep(orders: seq<Order>, status: string)
    requires orders != []
    ensures CountStatus(orders, status) == CountStatus(orders[1..], status) + (if orders[0].status == status then 1 else 0)
  {
    assert HasStatus(status)(orders[0]) == (orders[0].status == status);
  }

  /** Every order has at most one status: the per-status counts add up to at
      most the total. */
  lemma {:induction false} StatusCounts(orders: seq<Order>)
    ensures CountStatus(orders, Pending) + CountStatus(orders, Processing) + CountStatus(orders, Completed)
            + CountStatus(orders, Cancelled) <= |orders|
  {
    if orders != [] {
      StatusCounts(orders[1..]);
      CountStep(orders, Pending);
      CountStep(orders, Processing);
      CountStep(orders, Completed);
      CountStep(orders, Cancelled);
      OneStatus(orders[0].status);
    }
  }

  /** When every status is one of the four known ones, the per-status counts
      add up to exactly the total. */
  lemma {:induction false} KnownStatusCounts(orders: seq<Order>)
    requires forall i :: 0 <= i < |orders| ==> KnownStatus(orders[i].status)
    ensures CountStatus(orders, Pending) + CountStatus(orders, Processing) + CountStatus(orders, Completed)
            + CountStatus(orders, Cancelled) == |orders|
  {
    if orders != [] {
      var rest := orders[1..];
      assert forall i :: 0 <= i < |rest| ==> KnownStatus(rest[i].status) by {
        forall i | 0 <= i < |rest| ensures KnownStatus(rest[i].status) {
          assert rest[i] == orders[i + 1];
        }
      }
      KnownStatusCounts(rest);
      CountStep(orders, Pending);
      CountStep(orders, Processing);
      CountStep(orders, Completed);
      CountStep(orders, Cancelled);
      OneStatus(orders[0].status);
    }
  }

  /** A status is at most one of the four, and exactly one when known. */
  lemma OneStatus(status: string)
    ensures var n := (if status == Pending then 1 else 0) + (if status == Processing then 1 else 0)
                     + (if status == Completed then 1 else 0) + (if status == Cancelled then 1 else 0);
            n <= 1 && (KnownStatus(status) ==> n == 1)
  {
  }

  // ------------------------------------------------------------- actions

  /** The status each action button requests (`handleOrderAction`'s
      switch); any other action requests nothing. */
  function ActionTarget(action: string): (r: Option<string>)
    ensures r.Some? <==> action == Accept || action == Complete || action == Cancel
    ensures r.Some? ==> KnownStatus(r.value) && r.value != Pending
    ensures action == Accept ==> r == Some(Processing)
    ensures action == Complete ==> r == Some(Completed)
    ensures action == Cancel ==> r == Some(Cancelled)
  {
    if action == Accept then Some(Processing)
    else if action == Complete then Some(Completed)
    else if action == Cancel then Some(Cancelled)
    else None
  }

  /** The moves the console lets staff make. */
  predicate ConsoleMove(from: string, to: string)
  {
    (from == Pending && (to == Processing || to == Cancelled)) || (from == Processing && to == Completed)
  }

  /** The order life cycle: a pending order is taken into processing, a
      processing order is completed, and an order is cancelled while it is
      pending or being processed; completed and cancelled orders stay. The
      console's moves are these less cancelling a processing order. */
  predicate LifeCycleMove(from: string, to: string)
  {
    ConsoleMove(from, to) || (from == Processing && to == Cancelled)
  }

  const AllActions := [Accept, Complete, Cancel]

  /** The buttons `getOrderActions` renders for an order in `status`. */
  function OfferedActions(status: string): (r: seq<string>)
    ensures forall a :: a in r <==> a in AllActions && ConsoleMove(status, ActionTarget(a).value)
    ensures status != Pending && status != Processing ==> r == []
  {
    if status == Pending then [Accept, Cancel]
    else if status == Processing then [Complete]
    else []
  }

  /** `getOrderActions`: build the list of buttons one push at a time. */
  method GetOrderActions(order: Order) returns (actions: seq<string>)
    ensures actions == OfferedActions(order.status)
    ensures forall a :: a in actions ==> ActionTarget(a).Some? && ConsoleMove(order.status, ActionTarget(a).value)
  {
    actions := [];
    if order.status == Pending {
      actions := actions + [Accept];
      actions := actions + [Cancel];
    } else if order.status == Processing {
      actions := actions + [Complete];
    }
  }

  /** Every move the console offers is a life-cycle move; cancelling an
      order that is being processed is never offered. */
  lemma ConsoleWithinLifeCycle(status: string, action: string)
    requires action in OfferedActions(status)
    ensures LifeCycleMove(status, ActionTarget(action).value)
    ensures !(status == Processing && ActionTarget(action).value == Cancelled)
  {
  }

  /** The request `handleOrderAction` sends: the order id and new status. */
  datatype StatusRequest = StatusRequest(orderId: string, status: string)

  /** `handleOrderAction`: nothing for an order not in the list, for an
      unknown action or when the confirmation is declined. */
  function OrderActionRequest(orders: seq<Order>, orderId: string, action: string, confirmed: bool): (r: Option<StatusRequest>)
    ensures r.Some? <==> (exists i :: 0 <= i < |orders| && orders[i].id == orderId)
                         && ActionTarget(action).Some? && confirmed
    ensures r.Some? ==> r.value == StatusRequest(orderId, ActionTarget(action).value)
  {
    var order := Find(orders, (o: Order) => o.id == orderId);
    if order.None? then None
    else match ActionTarget(action)
      case None => None
      case Some(status) => if confirmed then Some(StatusRequest(orderId, status)) else None
  }

  /** The buttons of a listed order's card, clicked and confirmed, request:
      accept and cancel on a pending order, processing and cancelled; complete
      on a processing order, completed. */
  lemma ButtonsRequestTheirStatus(orders: seq<Order>, i: nat)
    requires i < |orders|
    ensures orders[i].status == Pending ==>
              OrderActionRequest(orders, orders[i].id, Accept, true) == Some(StatusRequest(orders[i].id, Processing))
              && OrderActionRequest(orders, orders[i].id, Cancel, true) == Some(StatusRequest(orders[i].id, Cancelled))
    ensures orders[i].status == Processing ==>
              OrderActionRequest(orders, orders[i].id, Complete, true) == Some(StatusRequest(orders[i].id, Completed))
  {
  }

  /** Clicking an offered button for a listed order requests a console move. */
  lemma OfferedActionRequestsMove(orders: seq<Order>, i: nat, action: string)
    requires i < |orders| && action in OfferedActions(orders[i].status)
    ensures var r := OrderActionRequest(orders, orders[i].id, action, true);
            r.Some? && ConsoleMove(orders[i].status, r.value.status)
  {
  }

  /** The status after clicking, in turn, each of `actions` on an order's
      card, where only the buttons on the card have an effect. */
  function AfterClicks(status: string, actions: seq<string>): string
    decreases |actions|
  {
    if actions == [] then status
    else
      var next := if actions[0] in OfferedActions(status) then ActionTarget(actions[0]).value else status;
      AfterClicks(next, actions[1..])
  }

  /** How far along the life cycle a status is. */
  function Stage(status: string): nat
  {
    if status == Pending then 0 else if status == Processing then 1 else 2
  }

  /** Completed and cancelled are terminal: no clicks change them. */
  lemma {:induction false} TerminalStays(status: string, actions: seq<string>)
    requires status == Completed || status == Cancelled
    ensures AfterClicks(status, actions) == status
    decreases |actions|
  {
    if actions != [] {
      TerminalStays(status, actions[1..]);
    }
  }

  /** Clicks never move an order back, and a known status stays known. */
  lemma {:induction false} ClicksMoveForward(status: string, actions: seq<string>)
    ensures Stage(AfterClicks(status, actions)) >= Stage(status)
    ensures KnownStatus(status) ==> KnownStatus(AfterClicks(status, actions))
    decreases |actions|
  {
    if actions != [] {
      var next := if actions[0] in OfferedActions(status) then ActionTarget(actions[0]).value else status;
      ClicksMoveForward(next, actions[1..]);
    }
  }

  // ------------------------------------------------------------- filters

  /** `matchesTimeFilter`; `sameDay` stands for comparing the two instants'
      calendar days in the browser's time zone. */
  function MatchesTimeFilter(createdAt: int, timeFilter: string, now: int, sameDay: (int, int) -> bool): (b: bool)
    ensures timeFilter == "week" ==> (b <==> createdAt >= now - 604800000)
    ensures timeFilter == "month" ==> (b <==> createdAt >= now - 2592000000)
    ensures timeFilter != "today" && timeFilter != "week" && timeFilter != "month" ==> b
  {
    if timeFilter == "today" then sameDay(createdAt, now)
    else if timeFilter == "week" then createdAt >= now - 7 * DayMs
    else if timeFilter == "month" then createdAt >= now - 30 * DayMs
    else true
  }

  /** An order placed within the week is placed within the month. */
  lemma WeekWithinMonth(createdAt: int, now: int, sameDay: (int, int) -> bool)
    requires MatchesTimeFilter(createdAt, "week", now, sameDay)
    ensures MatchesTimeFilter(createdAt, "month", now, sameDay)
  {
  }

  predicate Listed(o: Order, statusFilter: string, timeFilter: string, now: int, sameDay: (int, int) -> bool)
  {
    (statusFilter == "" || o.status == statusFilter)
    && (timeFilter == "" || MatchesTimeFilter(o.createdAt, timeFilter, now, sameDay))
  }

  function ListedBy(statusFilter: string, timeFilter: string, now: int, sameDay: (int, int) -> bool): Order -> bool
  {
    (o: Order) => Listed(o, statusFilter, timeFilter, now, sameDay)
  }

  /** `filterOrders`. */
  function FilterOrders(orders: seq<Order>, statusFilter: string, timeFilter: string, now: int, sameDay: (int, int) -> bool): (r: seq<Order>)
    ensures IsSubseq(r, orders)
    ensures forall o :: o in r <==> o in orders && Listed(o, statusFilter, timeFilter, now, sameDay)
    ensures forall o :: multiset(r)[o] == if Listed(o, statusFilter, timeFilter, now, sameDay) then multiset(orders)[o] else 0
  {
    var keep := ListedBy(statusFilter, timeFilter, now, sameDay);
    FilterIsSubseq(orders, keep);
    FilterCountsAll(orders, keep);
    Filter(orders, keep)
  }

  /** With no filter set every order is listed, in order. */
  lemma NoFilterListsAll(orders: seq<Order>, now: int, sameDay: (int, int) -> bool)
    ensures FilterOrders(orders, "", "", now, sameDay) == orders
  {
    FilterKeepsAll(orders, ListedBy("", "", now, sameDay));
  }

  /** With only a status filter the list is exactly that status's orders,
      in their original order, as many as the statistics count. */
  lemma StatusFilterListsStatus(orders: seq<Order>, status: string, now: int, sameDay: (int, int) -> bool)
    requires status != ""
    ensures FilterOrders(orders, status, "", now, sameDay) == Filter(orders, HasStatus(status))
    ensures |FilterOrders(orders, status, "", now, sameDay)| == CountStatus(orders, status)
  {
    FilterExtensional(orders, ListedBy(status, "", now, sameDay), HasStatus(status));
  }

  // -------------------------------------------------------------- labels

  /** `getStatusText`: the Vietnamese label of a status, any other text
      shown as it is. */
  function StatusText(status: string): (r: string)
    ensures !KnownStatus(status) ==> r == status
    ensures KnownStatus(status) ==> r != "" && !KnownStatus(r)
  {
    if status == Pending then "Chờ xử lý"
    else if status == Processing then "Đang xử lý"
    else if status == Completed then "Hoàn thành"
    else if status == Cancelled then "Đã hủy"
    else status
  }

  /** Different known statuses get different labels. */
  lemma StatusTextInjective(a: string, b: string)
    requires KnownStatus(a) && KnownStatus(b) && a != b
    ensures StatusText(a) != StatusText(b)
  {
    assert StatusText(a)[0] != StatusText(b)[0] || StatusText(a)[1] != StatusText(b)[1];
  }

  // ------------------------------------------------------------- console

  /** The console's page state. */
  class Console {
    var orders: seq<Order>
    var stats: Stats
    var statusFilter: string
    var timeFilter: string

    /** The initial state: no orders, zero statistics, no filters. */
    constructor ()
      ensures orders == [] && stats == Stats(0, 0, 0, 0) && statusFilter == "" && timeFilter == ""
    {
      orders, stats, statusFilter, timeFilter := [], Stats(0, 0, 0, 0), "", "";
    }

    /** `loadOrders`: store the fetched list (`data.orders || []`) and
        recompute the statistics. */
    method LoadOrders(fetched: seq<Order>)
      modifies this
      ensures orders == fetched && statusFilter == old(statusFilter) && timeFilter == old(timeFilter)
      ensures stats == Stats(CountStatus(fetched, Pending), CountStatus(fetched, Processing),
                             CountStatus(fetched, Completed), |fetched|)
    {
      orders := fetched;
      CalculateStats();
    }

    /** `calculateStats`. */
    method CalculateStats()
      modifies this
      ensures orders == old(orders) && statusFilter == old(statusFilter) && timeFilter == old(timeFilter)
      ensures stats == Stats(CountStatus(orders, Pending), CountStatus(orders, Processing),
                             CountStatus(orders, Completed), |orders|)
      ensures stats.pending + stats.processing + stats.completed <= stats.total
    {
      StatusCounts(orders);
      stats := Stats(CountStatus(orders, Pending), CountStatus(orders, Processing),
                     CountStatus(orders, Completed), |orders|);
    }
  }
}
