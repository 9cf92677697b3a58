/**
 * The live order list of the hosted-database dashboard: rows inserted into
 * `orders` arrive as change events and are put at the top of the list when
 * they belong to the dashboard's restaurant; "mark as completed" rewrites the
 * status of the matching rows once the remote update has succeeded.
 */
module RealtimeOrders {

  /** One ordered item as the list shows it. */
  datatype ItemRow = ItemRow(name: string, quantity: int)

  /** A row of the `orders` table as the dashboard keeps it. */
  datatype RealtimeOrder = RealtimeOrder(
    id: string, restaurantId: string, items: seq<ItemRow>, status: string, createdAt: string)

  /** The restaurant whose orders the dashboard shows. */
  const DashboardRestaurant := "demo-restaurant-123"

  /** Every listed order belongs to the dashboard's restaurant. */
  ghost predicate AllForDashboard(orders: seq<RealtimeOrder>) {
    forall i :: 0 <= i < |orders| ==> orders[i].restaurantId == DashboardRestaurant
  }

  /** The INSERT handler: the new row goes first when it is the dashboard's; otherwise nothing changes. */
  function OnInsert(orders: seq<RealtimeOrder>, o: RealtimeOrder): (r: seq<RealtimeOrder>)
    ensures o.restaurantId == DashboardRestaurant ==> |r| == |orders| + 1 && r[0] == o && r[1..] == orders
    ensures o.restaurantId != DashboardRestaurant ==> r == orders
  {
    if o.restaurantId == DashboardRestaurant then [o] + orders else orders
  }

  /** Inserts keep the list to the dashboard's restaurant. */
  lemma OnInsertKeepsRestaurant(orders: seq<RealtimeOrder>, o: RealtimeOrder)
    requires AllForDashboard(orders)
    ensures AllForDashboard(OnInsert(orders, o))
  {
    var r := OnInsert(orders, o);
    if o.restaurantId == DashboardRestaurant {
      forall i | 0 <= i < |r|
        ensures r[i].restaurantId == DashboardRestaurant
      {
        if i > 0 {
          assert r[i] == orders[i - 1];
        }
      }
    }
  }

  /**
   * `markAsCompleted(id)` after the remote update: when the update failed the
   * list is kept; otherwise the rows with that id get status "completed" and
   * every other row, the length and the order are kept.
   */
  function MarkCompleted(orders: seq<RealtimeOrder>, id: string, failed: bool): (r: seq<RealtimeOrder>)
    ensures failed ==> r == orders
    ensures |r| == |orders|
    ensures !failed ==> forall i :: 0 <= i < |orders| && orders[i].id == id ==>
      r[i] == orders[i].(status := "completed")
    ensures forall i :: 0 <= i < |orders| && orders[i].id != id ==> r[i] == orders[i]
  {
    if failed then orders
    else
      seq(|orders|, i requires 0 <= i < |orders| =>
        if orders[i].id == id then orders[i].(status := "completed") else orders[i])
  }

  /** Marking the same order twice is the same as marking it once. */
  lemma MarkCompletedIdempotent(orders: seq<RealtimeOrder>, id: string, failed: bool)
    ensures MarkCompleted(MarkCompleted(orders, id, false), id, failed) == MarkCompleted(orders, id, false)
  {
    var once := MarkCompleted(orders, id, false);
    var twice := MarkCompleted(once, id, failed);
    assert forall i :: 0 <= i < |orders| ==> twice[i] == once[i];
  }

  /** Marking keeps the list to the dashboard's restaurant. */
  lemma MarkCompletedKeepsRestaurant(orders: seq<RealtimeOrder>, id: string, failed: bool)
    requires AllForDashboard(orders)
    ensures AllForDashboard(MarkCompleted(orders, id, failed))
  {
    var r := MarkCompleted(orders, id, failed);
    assert forall i :: 0 <= i < |r| ==> r[i].restaurantId == orders[i].restaurantId;
  }

  /** An order that just arrived and is then marked shows as completed at the top. */
  lemma InsertThenComplete(orders: seq<RealtimeOrder>, o: RealtimeOrder)
    requires o.restaurantId == DashboardRestaurant
    ensures MarkCompleted(OnInsert(orders, o), o.id, false)[0] == o.(status := "completed")
  {
  }
}
