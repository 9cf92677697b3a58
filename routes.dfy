/**
 * The server side of the real-time order fan-out (the `/ws` endpoint and
 * `broadcastToRestaurant`) and the request handlers around it: the order
 * routes that broadcast after a successful write, the super-admin gate, the
 * ownership check and the role-based listings. The authenticated caller is a
 * parameter: token verification and password hashing are not modelled.
 */
module Routes {
  import opened Common
  import opened Seqs
  import opened Schema
  import opened Protocol
  import opened Registry
  import OM = OrderedMap
  import Storage

  /** The WebSocket server's state. */
  class OrderHub {
    /** `restaurantClients`. */
    var clients: Clients
    /** Each connection's `restaurantId` variable, for the connections that have subscribed. */
    var subscription: map<ConnId, string>
    /** The connections whose `readyState` is OPEN: accepted and not yet closed. */
    var open: set<ConnId>
    /** What has been sent on each accepted connection, oldest first. */
    var outbox: map<ConnId, seq<Frame>>
    /** The identity the next accepted connection gets. */
    var nextConn: ConnId

    ghost predicate Valid()
      reads this
    {
      && NoEmptySets(clients)
      && (forall c: ConnId :: c in outbox <==> c < nextConn)
      && (forall r :: r in clients ==> clients[r] <= outbox.Keys)
      && open <= outbox.Keys
      && subscription.Keys <= outbox.Keys
      // a connection that is still open is in the set of the restaurant it last subscribed to
      && (forall c :: c in subscription && c in open ==> c in Members(clients, subscription[c]))
    }

    constructor ()
      ensures Valid()
      ensures clients == map[] && subscription == map[] && open == {} && outbox == map[]
    {
      clients := map[];
      subscription := map[];
      open := {};
      outbox := map[];
      nextConn := 0;
    }

    /** A `connection` event: a new, open connection with nothing sent and no subscription. */
    method Accept() returns (c: ConnId)
      requires Valid()
      modifies this
      ensures Valid()
      ensures c !in old(outbox) && c !in old(open) && c !in old(subscription)
      ensures forall r :: c !in Members(clients, r)
      ensures open == old(open) + {c} && outbox == old(outbox)[c := []]
      ensures clients == old(clients) && subscription == old(subscription)
    {
      c := nextConn;
      open := open + {c};
      outbox := outbox[c := []];
      nextConn := nextConn + 1;
    }

    /**
     * A `message` event on an open connection. A subscription (it parses, its
     * type is `subscribe`, its restaurant id is truthy) records the restaurant
     * in the connection's variable, adds the connection to that restaurant's
     * set, and acknowledges on this connection only. Anything else, including
     * text that does not parse, changes nothing and sends nothing.
     */
    method OnMessage(c: ConnId, f: Frame)
      requires Valid() && c in open
      modifies this
      ensures Valid()
      ensures open == old(open) && nextConn == old(nextConn)
      ensures IsSubscribe(f) ==>
        var r := f.value.restaurantId.value;
        && clients == Add(old(clients), r, c)
        && subscription == old(subscription)[c := r]
        && outbox == old(outbox)[c := old(outbox)[c] + [Serialize(SubscribedMessage(r))]]
      ensures !IsSubscribe(f) ==>
        clients == old(clients) && subscription == old(subscription) && outbox == old(outbox)
    {
      var data := Parse(f);
      if data.Some? && data.value.kind == Some("subscribe") && Truthy(data.value.restaurantId) {
        var r := data.value.restaurantId.value;
        subscription := subscription[c := r];
        clients := Add(clients, r, c);
        outbox := outbox[c := outbox[c] + [Serialize(SubscribedMessage(r))]];
      }
    }

    /**
     * A `close` event: the connection leaves the set of the restaurant its
     * variable names (its latest subscription only), and that set's entry goes
     * when it becomes empty. The connection is no longer OPEN.
     */
    method OnClose(c: ConnId)
      requires Valid() && c in outbox
      modifies this
      ensures Valid()
      ensures c in old(subscription) ==> clients == Remove(old(clients), old(subscription)[c], c)
      ensures c !in old(subscription) ==> clients == old(clients)
      ensures open == old(open) - {c}
      ensures subscription == old(subscription) && outbox == old(outbox) && nextConn == old(nextConn)
    {
      if c in subscription {
        clients := Remove(clients, subscription[c], c);
      }
      open := open - {c};
    }

    /**
     * `broadcastToRestaurant`: one serialisation of `e`, sent to every member
     * of `r`'s set that is OPEN; the registry itself is not touched.
     */
    method Broadcast(r: string, e: Envelope)
      requires Valid()
      modifies this`outbox
      ensures Valid()
      ensures outbox == Deliver(old(outbox), Targets(clients, open, r), Serialize(e))
    {
      var message := Serialize(e);
      var members := Members(clients, r);
      var todo := members;
      ghost var done: set<ConnId> := {};
      while todo != {}
        invariant todo <= members && done == members - todo
        invariant outbox.Keys == old(outbox).Keys
        invariant outbox == Deliver(old(outbox), done * open, message)
        decreases |todo|
      {
        var c :| c in todo;
        assert c in old(outbox);
        DeliverVisit(old(outbox), done, open, c, message);
        if c in open {
          outbox := outbox[c := outbox[c] + [message]];
        }
        todo := todo - {c};
        done := done + {c};
      }
      assert done * open == Targets(clients, open, r);
    }
  }

  /** `requireSuperAdmin`: only a super admin gets past it. */
  predicate RequireSuperAdmin(caller: User) {
    caller.role == SuperAdmin
  }

  /** The check before an order update: a super admin, or the owner of the order's restaurant. */
  function MayUpdateOrder(caller: User, o: Order): (allowed: bool)
  {
    !(caller.role != SuperAdmin && caller.restaurantId != Some(o.restaurantId))
  }

  /** A restaurant owner may update an order only of its own restaurant; one without a restaurant, none. */
  lemma OwnerConfined(caller: User, o: Order)
    ensures MayUpdateOrder(caller, o) <==> caller.role == SuperAdmin || caller.restaurantId == Some(o.restaurantId)
    ensures caller.role == RestaurantOwner && caller.restaurantId.None? ==> !MayUpdateOrder(caller, o)
  {
  }

  /** The public menu's filter: the dishes whose `isAvailable` is true (null counts as false). */
  function AvailableDishes(ds: seq<Dish>): (r: seq<Dish>)
    ensures forall i :: 0 <= i < |r| ==> r[i] in ds && r[i].isAvailable == Some(true)
    ensures forall i :: 0 <= i < |ds| && ds[i].isAvailable == Some(true) ==> ds[i] in r
    ensures IsSubsequence(r, ds)
  {
    Filter(ds, (d: Dish) => d.isAvailable == Some(true))
  }

  /** `GET /api/dishes/restaurant/:restaurantId`: exactly the stored dishes of that restaurant that are available. */
  function PublicMenu(store: Storage.MemStorage, restaurantId: string): (r: seq<Dish>)
    reads store
    requires store.Valid()
    ensures forall i :: 0 <= i < |r| ==>
      r[i].restaurantId == restaurantId && r[i].isAvailable == Some(true) && r[i] in store.dishes.entries.Values
    ensures forall k :: (k in store.dishes.entries && store.dishes.entries[k].restaurantId == restaurantId &&
      store.dishes.entries[k].isAvailable == Some(true)) ==> store.dishes.entries[k] in r
    ensures IsSubsequence(r, OM.Values(store.dishes))
  {
    var all := store.GetDishesByRestaurant(restaurantId);
    var r := AvailableDishes(all);
    SubsequenceTrans(r, all, OM.Values(store.dishes));
    assert forall k :: (k in store.dishes.entries && store.dishes.entries[k].restaurantId == restaurantId &&
      store.dishes.entries[k].isAvailable == Some(true)) ==> store.dishes.entries[k] in r by {
      forall k | k in store.dishes.entries && store.dishes.entries[k].restaurantId == restaurantId &&
        store.dishes.entries[k].isAvailable == Some(true)
        ensures store.dishes.entries[k] in r
      {
        var i :| 0 <= i < |all| && all[i] == store.dishes.entries[k];
      }
    }
    r
  }

  /** `r` holds exactly the stored orders of restaurant `rid`, in insertion order. */
  ghost predicate ExactlyOrdersOf(store: Storage.MemStorage, rid: string, r: seq<Order>)
    reads store
    requires store.Valid()
  {
    && (forall i :: 0 <= i < |r| ==> r[i].restaurantId == rid && r[i] in store.orders.entries.Values)
    && (forall k :: k in store.orders.entries && store.orders.entries[k].restaurantId == rid ==> store.orders.entries[k] in r)
    && IsSubsequence(r, OM.Values(store.orders))
  }

  /** `r` holds exactly the stored dishes of restaurant `rid`, in insertion order. */
  ghost predicate ExactlyDishesOf(store: Storage.MemStorage, rid: string, r: seq<Dish>)
    reads store
    requires store.Valid()
  {
    && (forall i :: 0 <= i < |r| ==> r[i].restaurantId == rid && r[i] in store.dishes.entries.Values)
    && (forall k :: k in store.dishes.entries && store.dishes.entries[k].restaurantId == rid ==> store.dishes.entries[k] in r)
    && IsSubsequence(r, OM.Values(store.dishes))
  }

  /** `GET /api/orders`: a super admin sees every order, an owner its restaurant's, anyone else nothing. */
  function ListOrders(store: Storage.MemStorage, caller: User): (r: seq<Order>)
    reads store
    requires store.Valid()
    ensures caller.role == SuperAdmin ==> r == OM.Values(store.orders)
    ensures caller.role != SuperAdmin && Truthy(caller.restaurantId) ==>
      ExactlyOrdersOf(store, caller.restaurantId.value, r)
    ensures caller.role != SuperAdmin && !Truthy(caller.restaurantId) ==> r == []
  {
    if caller.role == SuperAdmin then store.GetAllOrders()
    else if Truthy(caller.restaurantId) then store.GetOrdersByRestaurant(caller.restaurantId.value)
    else []
  }

  /** `GET /api/restaurants`: a super admin sees all; an owner its own, if it is stored; anyone else nothing. */
  function ListRestaurants(store: Storage.MemStorage, caller: User): (r: seq<Restaurant>)
    reads store
    requires store.Valid()
    ensures caller.role == SuperAdmin ==> r == OM.Values(store.restaurants)
    ensures caller.role != SuperAdmin && Truthy(caller.restaurantId) && caller.restaurantId.value in store.restaurants.entries ==>
      r == [store.restaurants.entries[caller.restaurantId.value]]
    ensures caller.role != SuperAdmin && Truthy(caller.restaurantId) && caller.restaurantId.value !in store.restaurants.entries ==>
      r == []
    ensures caller.role != SuperAdmin && !Truthy(caller.restaurantId) ==> r == []
  {
    if caller.role == SuperAdmin then store.GetAllRestaurants()
    else if Truthy(caller.restaurantId) then
      match store.GetRestaurant(caller.restaurantId.value)
      case Some(x) => [x]
      case None => []
    else []
  }

  /**
   * `GET /api/dishes`: a truthy `restaurantId` query selects that restaurant's
   * dishes whatever the caller's role; otherwise by role as for orders.
   */
  function ListDishes(store: Storage.MemStorage, caller: User, query: Option<string>): (r: seq<Dish>)
    reads store
    requires store.Valid()
    ensures Truthy(query) ==> ExactlyDishesOf(store, query.value, r)
    ensures !Truthy(query) && caller.role == SuperAdmin ==> r == OM.Values(store.dishes)
    ensures !Truthy(query) && caller.role != SuperAdmin && Truthy(caller.restaurantId) ==>
      ExactlyDishesOf(store, caller.restaurantId.value, r)
    ensures !Truthy(query) && caller.role != SuperAdmin && !Truthy(caller.restaurantId) ==> r == []
  {
    if Truthy(query) then store.GetDishesByRestaurant(query.value)
    else if caller.role == SuperAdmin then store.GetAllDishes()
    else if Truthy(caller.restaurantId) then store.GetDishesByRestaurant(caller.restaurantId.value)
    else []
  }

  /** What an order or restaurant route answers. */
  datatype Reply<T> = Created(value: T) | Updated(value: T) | ValidationError | NotFound | Forbidden

  /**
   * `POST /api/orders`, public. `body` is the validated request, `None` when
   * validation rejects it: then nothing is stored and nothing broadcast. Otherwise
   * the order is created, and only then is `new_order` broadcast to its restaurant.
   */
  method PostOrder(hub: OrderHub, store: Storage.MemStorage, body: Option<InsertOrder>, id: string, now: int)
    returns (reply: Reply<Order>)
    requires hub.Valid() && store.Valid()
    modifies hub`outbox, store`orders
    ensures hub.Valid() && store.Valid()
    ensures body.None? ==> reply == ValidationError && store.orders == old(store.orders) && hub.outbox == old(hub.outbox)
    ensures body.Some? ==>
      var o := Storage.NewOrder(body.value, id, now);
      && reply == Created(o)
      && store.orders == OM.Put(old(store.orders), id, o)
      && hub.outbox == Deliver(old(hub.outbox), Targets(hub.clients, hub.open, o.restaurantId), Serialize(NewOrderMessage(o)))
  {
    if body.None? {
      return ValidationError;
    }
    var o := store.CreateOrder(body.value, id, now);
    hub.Broadcast(o.restaurantId, NewOrderMessage(o));
    reply := Created(o);
  }

  /**
   * `PATCH /api/orders/:id`. A missing order answers not-found, a caller who may
   * not update it forbidden; either way nothing changes. Otherwise the order is
   * merged with the patch and `order_updated` is broadcast to the restaurant the
   * UPDATED order names (a patch may move it).
   */
  method PatchOrder(hub: OrderHub, store: Storage.MemStorage, caller: User, id: string, p: OrderPatch, now: int)
    returns (reply: Reply<Order>)
    requires hub.Valid() && store.Valid()
    modifies hub`outbox, store`orders
    ensures hub.Valid() && store.Valid()
    ensures id !in old(store.orders.entries) ==>
      reply == NotFound && store.orders == old(store.orders) && hub.outbox == old(hub.outbox)
    ensures id in old(store.orders.entries) && !MayUpdateOrder(caller, old(store.orders.entries[id])) ==>
      reply == Forbidden && store.orders == old(store.orders) && hub.outbox == old(hub.outbox)
    ensures id in old(store.orders.entries) && MayUpdateOrder(caller, old(store.orders.entries[id])) ==>
      var o := Storage.MergeOrder(old(store.orders.entries[id]), p, now);
      && reply == Updated(o)
      && store.orders == OM.Put(old(store.orders), id, o)
      && hub.outbox == Deliver(old(hub.outbox), Targets(hub.clients, hub.open, o.restaurantId), Serialize(OrderUpdatedMessage(o)))
  {
    var existing := store.GetOrder(id);
    if existing.None? {
      return NotFound;
    }
    if !MayUpdateOrder(caller, existing.value) {
      return Forbidden;
    }
    var updated := store.UpdateOrder(id, p, now);
    if updated.None? {
      return NotFound;
    }
    hub.Broadcast(updated.value.restaurantId, OrderUpdatedMessage(updated.value));
    reply := Updated(updated.value);
  }

  /** `POST /api/restaurants`, behind `requireSuperAdmin`. */
  method PostRestaurant(store: Storage.MemStorage, caller: User, body: Option<InsertRestaurant>, id: string, qrSuffix: string, now: int)
    returns (reply: Reply<Restaurant>)
    requires store.Valid()
    modifies store`restaurants
    ensures store.Valid()
    ensures caller.role != SuperAdmin ==> reply == Forbidden && store.restaurants == old(store.restaurants)
    ensures caller.role == SuperAdmin && body.None? ==> reply == ValidationError && store.restaurants == old(store.restaurants)
    ensures caller.role == SuperAdmin && body.Some? ==>
      var x := Storage.NewRestaurant(body.value, id, qrSuffix, now);
      reply == Created(x) && store.restaurants == OM.Put(old(store.restaurants), id, x)
  {
    if !RequireSuperAdmin(caller) {
      return Forbidden;
    }
    if body.None? {
      return ValidationError;
    }
    var x := store.CreateRestaurant(body.value, id, qrSuffix, now);
    reply := Created(x);
  }

  /** A fresh server with one connection that subscribed to `a`, then to `b`, then closed. */
  method SubscribeTwiceThenClose(a: string, b: string) returns (hub: OrderHub, c: ConnId)
    requires a != b && a != "" && b != ""
    ensures fresh(hub) && hub.Valid()
    ensures c in Members(hub.clients, a) && c !in Members(hub.clients, b) && c !in hub.open
    ensures c in hub.outbox && hub.outbox[c] == [Serialize(SubscribedMessage(a)), Serialize(SubscribedMessage(b))]
  {
    hub := new OrderHub();
    c := hub.Accept();
    assert IsSubscribe(Serialize(SubscribeMessage(a))) && IsSubscribe(Serialize(SubscribeMessage(b)));
    hub.OnMessage(c, Serialize(SubscribeMessage(a)));
    assert hub.outbox[c] == [Serialize(SubscribedMessage(a))];
    hub.OnMessage(c, Serialize(SubscribeMessage(b)));
    assert hub.outbox[c] == [Serialize(SubscribedMessage(a)), Serialize(SubscribedMessage(b))];
    assert hub.subscription[c] == b;
    ResubscribeLeavesFirst(map[], a, b, c);
    hub.OnClose(c);
  }

  /**
   * A connection subscribes to `a`, then to `b`, then closes: it has left
   * `b`'s set but is still in `a`'s, and it received exactly the two
   * acknowledgements; a later broadcast to `a` skips it because it is closed.
   */
  method ResubscribeThenClose(a: string, b: string, o: Order)
    returns (inA: bool, inB: bool, received: seq<Frame>)
    requires a != b && a != "" && b != ""
    ensures inA && !inB
    ensures received == [Serialize(SubscribedMessage(a)), Serialize(SubscribedMessage(b))]
  {
    var hub, c := SubscribeTwiceThenClose(a, b);
    ghost var before := hub.outbox;
    hub.Broadcast(a, NewOrderMessage(o));
    assert c !in Targets(hub.clients, hub.open, a);
    assert hub.outbox[c] == before[c];
    inA := c in Members(hub.clients, a);
    inB := c in Members(hub.clients, b);
    received := hub.outbox[c];
  }

  /** A fresh server with two open connections, `c` subscribed to `r` and `d` to `s`. */
  method TwoSubscribers(r: string, s: string) returns (hub: OrderHub, c: ConnId, d: ConnId)
    requires r != s && r != "" && s != ""
    ensures fresh(hub) && hub.Valid()
    ensures Targets(hub.clients, hub.open, r) == {c} && c != d
    ensures c in hub.outbox && d in hub.outbox
    ensures hub.outbox[c] == [Serialize(SubscribedMessage(r))] && hub.outbox[d] == [Serialize(SubscribedMessage(s))]
  {
    hub := new OrderHub();
    c := hub.Accept();
    d := hub.Accept();
    assert IsSubscribe(Serialize(SubscribeMessage(r))) && IsSubscribe(Serialize(SubscribeMessage(s)));
    hub.OnMessage(c, Serialize(SubscribeMessage(r)));
    assert Members(hub.clients, r) == {c};
    hub.OnMessage(d, Serialize(SubscribeMessage(s)));
    assert Members(hub.clients, r) == {c};
  }

  /**
   * Two open connections subscribed to different restaurants; an order placed
   * for the first reaches the first connection only, after its acknowledgement.
   */
  method FanOut(r: string, s: string, body: InsertOrder, id: string, now: int)
    returns (first: seq<Frame>, second: seq<Frame>)
    requires r != s && r != "" && s != "" && body.restaurantId == r
    ensures first == [Serialize(SubscribedMessage(r)), Serialize(NewOrderMessage(Storage.NewOrder(body, id, now)))]
    ensures second == [Serialize(SubscribedMessage(s))]
  {
    var hub, c, d := TwoSubscribers(r, s);
    var store := new Storage.MemStorage();
    ghost var before := hub.outbox;
    ghost var o := Storage.NewOrder(body, id, now);
    assert o.restaurantId == r;
    var reply := PostOrder(hub, store, Some(body), id, now);
    assert hub.outbox == Deliver(before, {c}, Serialize(NewOrderMessage(o)));
    assert hub.outbox[c] == before[c] + [Serialize(NewOrderMessage(o))];
    first := hub.outbox[c];
    second := hub.outbox[d];
  }

  /**
   * Text that does not parse, a subscription without restaurant id and a
   * message of another type, one after another, leave the connection's frames
   * empty and the restaurant without subscribers.
   */
  method IgnoredMessages(r: string) returns (received: seq<Frame>, subscribers: set<ConnId>)
    ensures received == [] && subscribers == {}
  {
    var hub := new OrderHub();
    var c := hub.Accept();
    hub.OnMessage(c, Unparseable);
    hub.OnMessage(c, Serialize(Envelope(Some("subscribe"), None, None)));
    hub.OnMessage(c, Serialize(Envelope(Some("subscribe"), Some(""), None)));
    hub.OnMessage(c, Serialize(SubscribedMessage(r)));
    received := hub.outbox[c];
    subscribers := Members(hub.clients, r);
  }
}
