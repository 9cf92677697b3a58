/**
 * The in-memory store behind the HTTP API: four id-keyed maps (users,
 * restaurants, dishes, orders) with create, get, merge-update and delete,
 * and the queries that list a restaurant's dishes and orders.
 *
 * Fresh ids (`randomUUID`), the current time (`new Date()`) and password
 * hashing (`bcrypt.hash`) are supplied by the caller.
 */
module Storage {
  import opened Common
  import opened Text
  import opened Seqs
  import opened Schema
  import OM = OrderedMap

  /** The `qrCode` of a new restaurant: its lower-cased name with whitespace runs as `-`, then `-` and a fresh id. */
  function QrSlug(name: string, suffix: string): (q: string)
    ensures |q| == |DashRuns(Lower(name))| + 1 + |suffix|
    ensures q[..|DashRuns(Lower(name))|] == DashRuns(Lower(name)) && q[|DashRuns(Lower(name))|] == '-'
    ensures q[|DashRuns(Lower(name))| + 1..] == suffix
    ensures NoSpace(suffix) ==> NoSpace(q)
  {
    DashRuns(Lower(name)) + "-" + suffix
  }

  /** A slug never contains upper-case ASCII letters from the name. */
  lemma QrSlugLowerCase(name: string, suffix: string, i: int)
    requires 0 <= i < |DashRuns(Lower(name))|
    ensures !('A' <= QrSlug(name, suffix)[i] <= 'Z')
  {
    DashRunsKeepsLower(Lower(name));
  }

  lemma {:induction false} DashRunsKeepsLower(s: string)
    requires forall i :: 0 <= i < |s| ==> !('A' <= s[i] <= 'Z')
    ensures forall i :: 0 <= i < |DashRuns(s)| ==> !('A' <= DashRuns(s)[i] <= 'Z')
    decreases |s|
  {
    if s != [] {
      if IsSpace(s[0]) {
        DashRunsKeepsLower(s[LeadingSpaces(s)..]);
      } else {
        DashRunsKeepsLower(s[1..]);
      }
    }
  }

  /** The record `createUser` stores. */
  function NewUser(u: InsertUser, id: string, hashedPassword: string, now: int): (x: User)
    ensures x.id == id && x.username == u.username && x.email == u.email && x.role == u.role
    ensures x.password == hashedPassword && x.restaurantId == u.restaurantId && x.createdAt == now
  {
    User(id, u.username, hashedPassword, u.email, u.role, u.restaurantId, now)
  }

  /** The record `createRestaurant` stores: omitted optional fields become null, `isEnabled` defaults to true. */
  function NewRestaurant(r: InsertRestaurant, id: string, qrSuffix: string, now: int): (x: Restaurant)
    ensures x.id == id && x.name == r.name && x.createdAt == now
    ensures x.description == r.description && x.cuisine == r.cuisine && x.image == r.image && x.ownerId == r.ownerId
    ensures x.isEnabled == Some(r.isEnabled != Some(false))
    ensures x.qrCode == Some(QrSlug(r.name, qrSuffix))
  {
    Restaurant(id, r.name, r.description, r.cuisine, r.image, Some(if r.isEnabled.Some? then r.isEnabled.value else true),
      Some(QrSlug(r.name, qrSuffix)), r.ownerId, now)
  }

  /** The record `createDish` stores: omitted optional fields become null, `isAvailable` defaults to true. */
  function NewDish(d: InsertDish, id: string, now: int): (x: Dish)
    ensures x.id == id && x.name == d.name && x.price == d.price && x.restaurantId == d.restaurantId
    ensures x.description == d.description && x.image == d.image && x.glbModel == d.glbModel
    ensures x.usdzModel == d.usdzModel && x.ingredients == d.ingredients && x.createdAt == now
    ensures x.isAvailable == Some(d.isAvailable != Some(false))
  {
    Dish(id, d.name, d.description, d.price, d.image, d.glbModel, d.usdzModel, d.ingredients,
      d.restaurantId, Some(if d.isAvailable.Some? then d.isAvailable.value else true), now)
  }

  /** The record `createOrder` stores: `status` defaults to pending, both timestamps are the creation time. */
  function NewOrder(o: InsertOrder, id: string, now: int): (x: Order)
    ensures x.id == id && x.restaurantId == o.restaurantId && x.tableNumber == o.tableNumber
    ensures x.items == o.items && x.totalAmount == o.totalAmount
    ensures x.specialInstructions == o.specialInstructions
    ensures x.status.Some? && (o.status.None? ==> x.status == Some(Pending))
    ensures o.status.Some? ==> x.status == o.status
    ensures x.createdAt == now && x.updatedAt == now
  {
    Order(id, o.restaurantId, o.tableNumber, o.items, o.totalAmount, Some(o.status.GetOr(Pending)),
      o.specialInstructions, now, now)
  }

  /** `{ ...existing, ...updates }` for a restaurant: present fields replace, absent ones are kept. */
  function MergeRestaurant(r: Restaurant, p: RestaurantPatch): (x: Restaurant)
    ensures x.createdAt == r.createdAt
    ensures p.id.None? ==> x.id == r.id
    ensures p.id.Some? ==> x.id == p.id.value
    ensures p.name.None? ==> x.name == r.name
    ensures p.name.Some? ==> x.name == p.name.value
    ensures p.description.None? ==> x.description == r.description
    ensures p.description.Some? ==> x.description == p.description.value
    ensures p.cuisine.None? ==> x.cuisine == r.cuisine
    ensures p.cuisine.Some? ==> x.cuisine == p.cuisine.value
    ensures p.image.None? ==> x.image == r.image
    ensures p.image.Some? ==> x.image == p.image.value
    ensures p.isEnabled.None? ==> x.isEnabled == r.isEnabled
    ensures p.isEnabled.Some? ==> x.isEnabled == p.isEnabled.value
    ensures p.qrCode.None? ==> x.qrCode == r.qrCode
    ensures p.qrCode.Some? ==> x.qrCode == p.qrCode.value
    ensures p.ownerId.None? ==> x.ownerId == r.ownerId
    ensures p.ownerId.Some? ==> x.ownerId == p.ownerId.value
    ensures p == NoRestaurantChange ==> x == r
  {
    Restaurant(p.id.GetOr(r.id), p.name.GetOr(r.name), p.description.GetOr(r.description),
      p.cuisine.GetOr(r.cuisine), p.image.GetOr(r.image), p.isEnabled.GetOr(r.isEnabled),
      p.qrCode.GetOr(r.qrCode), p.ownerId.GetOr(r.ownerId), r.createdAt)
  }

  /** `{ ...existing, ...updates }` for a dish. */
  function MergeDish(d: Dish, p: DishPatch): (x: Dish)
    ensures x.createdAt == d.createdAt
    ensures p.id.None? ==> x.id == d.id
    ensures p.id.Some? ==> x.id == p.id.value
    ensures p.name.None? ==> x.name == d.name
    ensures p.name.Some? ==> x.name == p.name.value
    ensures p.description.None? ==> x.description == d.description
    ensures p.description.Some? ==> x.description == p.description.value
    ensures p.price.None? ==> x.price == d.price
    ensures p.price.Some? ==> x.price == p.price.value
    ensures p.image.None? ==> x.image == d.image
    ensures p.image.Some? ==> x.image == p.image.value
    ensures p.glbModel.None? ==> x.glbModel == d.glbModel
    ensures p.glbModel.Some? ==> x.glbModel == p.glbModel.value
    ensures p.usdzModel.None? ==> x.usdzModel == d.usdzModel
    ensures p.usdzModel.Some? ==> x.usdzModel == p.usdzModel.value
    ensures p.ingredients.None? ==> x.ingredients == d.ingredients
    ensures p.ingredients.Some? ==> x.ingredients == p.ingredients.value
    ensures p.restaurantId.None? ==> x.restaurantId == d.restaurantId
    ensures p.restaurantId.Some? ==> x.restaurantId == p.restaurantId.value
    ensures p.isAvailable.None? ==> x.isAvailable == d.isAvailable
    ensures p.isAvailable.Some? ==> x.isAvailable == p.isAvailable.value
    ensures p == NoDishChange ==> x == d
  {
    Dish(p.id.GetOr(d.id), p.name.GetOr(d.name), p.description.GetOr(d.description),
      p.price.GetOr(d.price), p.image.GetOr(d.image), p.glbModel.GetOr(d.glbModel),
      p.usdzModel.GetOr(d.usdzModel), p.ingredients.GetOr(d.ingredients),
      p.restaurantId.GetOr(d.restaurantId), p.isAvailable.GetOr(d.isAvailable), d.createdAt)
  }

  /** `{ ...existing, ...updates, updatedAt: new Date() }` for an order. */
  function MergeOrder(o: Order, p: OrderPatch, now: int): (x: Order)
    ensures x.createdAt == o.createdAt && x.updatedAt == now
    ensures p.id.None? ==> x.id == o.id
    ensures p.id.Some? ==> x.id == p.id.value
    ensures p.restaurantId.None? ==> x.restaurantId == o.restaurantId
    ensures p.restaurantId.Some? ==> x.restaurantId == p.restaurantId.value
    ensures p.tableNumber.None? ==> x.tableNumber == o.tableNumber
    ensures p.tableNumber.Some? ==> x.tableNumber == p.tableNumber.value
    ensures p.items.None? ==> x.items == o.items
    ensures p.items.Some? ==> x.items == p.items.value
    ensures p.totalAmount.None? ==> x.totalAmount == o.totalAmount
    ensures p.totalAmount.Some? ==> x.totalAmount == p.totalAmount.value
    ensures p.status.None? ==> x.status == o.status
    ensures p.status.Some? ==> x.status == p.status.value
    ensures p.specialInstructions.None? ==> x.specialInstructions == o.specialInstructions
    ensures p.specialInstructions.Some? ==> x.specialInstructions == p.specialInstructions.value
    ensures p == NoOrderChange ==> x == o.(updatedAt := now)
  {
    Order(p.id.GetOr(o.id), p.restaurantId.GetOr(o.restaurantId), p.tableNumber.GetOr(o.tableNumber),
      p.items.GetOr(o.items), p.totalAmount.GetOr(o.totalAmount), p.status.GetOr(o.status),
      p.specialInstructions.GetOr(o.specialInstructions), o.createdAt, now)
  }

  /** Merging the same partial record twice is merging it once. */
  lemma MergeIdempotent(r: Restaurant, p: RestaurantPatch, d: Dish, q: DishPatch, o: Order, s: OrderPatch, t: int, t': int)
    ensures MergeRestaurant(MergeRestaurant(r, p), p) == MergeRestaurant(r, p)
    ensures MergeDish(MergeDish(d, q), q) == MergeDish(d, q)
    ensures MergeOrder(MergeOrder(o, s, t), s, t') == MergeOrder(o, s, t')
  {
  }

  function HasUsername(username: string): User -> bool {
    (u: User) => u.username == username
  }

  function OfRestaurantDish(restaurantId: string): Dish -> bool {
    (d: Dish) => d.restaurantId == restaurantId
  }

  function OfRestaurantOrder(restaurantId: string): Order -> bool {
    (o: Order) => o.restaurantId == restaurantId
  }

  class MemStorage {
    var users: OM.OMap<User>
    var restaurants: OM.OMap<Restaurant>
    var dishes: OM.OMap<Dish>
    var orders: OM.OMap<Order>

    /** Each map keeps its insertion order; users (never updated) are stored under their own id. */
    ghost predicate Valid()
      reads this
    {
      && OM.Valid(users) && OM.Valid(restaurants) && OM.Valid(dishes) && OM.Valid(orders)
      && forall k :: k in users.entries ==> users.entries[k].id == k
    }

    /** An empty store; the seed records are not part of this model. */
    constructor ()
      ensures Valid()
      ensures users == OM.Empty() && restaurants == OM.Empty() && dishes == OM.Empty() && orders == OM.Empty()
    {
      users := OM.Empty();
      restaurants := OM.Empty();
      dishes := OM.Empty();
      orders := OM.Empty();
    }

    function GetUser(id: string): Option<User>
      reads this
    {
      OM.Get(users, id)
    }

    /** The first user, in insertion order, whose username is exactly `username`. */
    function GetUserByUsername(username: string): (r: Option<User>)
      reads this
      requires Valid()
      ensures r.None? <==> forall k :: k in users.entries ==> users.entries[k].username != username
      ensures r.Some? ==> r.value.username == username && GetUser(r.value.id) == r
      ensures r.Some? ==> forall j :: 0 <= j < |users.keys| && users.entries[users.keys[j]] == r.value ==>
                forall i :: 0 <= i < j ==> users.entries[users.keys[i]].username != username
    {
      var vs := OM.Values(users);
      var k := FindIndex(vs, HasUsername(username));
      if k < |vs| then
        assert users.keys[k] in users.entries;
        Some(vs[k])
      else
        assert forall k :: k in users.entries ==> users.entries[k].username != username by {
          forall k | k in users.entries ensures users.entries[k].username != username {
            OM.ValueListed(users, k);
          }
        }
        None
    }

    method CreateUser(u: InsertUser, id: string, hashedPassword: string, now: int) returns (user: User)
      requires Valid()
      modifies this`users
      ensures Valid()
      ensures user == NewUser(u, id, hashedPassword, now)
      ensures users == OM.Put(old(users), id, user)
      ensures GetUser(id) == Some(user)
    {
      user := NewUser(u, id, hashedPassword, now);
      users := OM.Put(users, id, user);
    }

    function GetRestaurant(id: string): Option<Restaurant>
      reads this
    {
      OM.Get(restaurants, id)
    }

    function GetAllRestaurants(): seq<Restaurant>
      reads this
      requires Valid()
    {
      OM.Values(restaurants)
    }

    method CreateRestaurant(r: InsertRestaurant, id: string, qrSuffix: string, now: int) returns (x: Restaurant)
      requires Valid()
      modifies this`restaurants
      ensures Valid()
      ensures x == NewRestaurant(r, id, qrSuffix, now)
      ensures restaurants == OM.Put(old(restaurants), id, x)
      ensures GetRestaurant(id) == Some(x)
    {
      x := NewRestaurant(r, id, qrSuffix, now);
      restaurants := OM.Put(restaurants, id, x);
    }

    /** Merges `p` into the restaurant stored under `id`; a missing id changes nothing and yields `None`. */
    method UpdateRestaurant(id: string, p: RestaurantPatch) returns (x: Option<Restaurant>)
      requires Valid()
      modifies this`restaurants
      ensures Valid()
      ensures x.None? <==> id !in old(restaurants.entries)
      ensures x.None? ==> restaurants == old(restaurants)
      ensures x.Some? ==> x.value == MergeRestaurant(old(restaurants.entries[id]), p)
                          && restaurants == OM.Put(old(restaurants), id, x.value)
    {
      var existing := OM.Get(restaurants, id);
      if existing.None? {
        return None;
      }
      var updated := MergeRestaurant(existing.value, p);
      restaurants := OM.Put(restaurants, id, updated);
      x := Some(updated);
    }

    method DeleteRestaurant(id: string) returns (deleted: bool)
      requires Valid()
      modifies this`restaurants
      ensures Valid()
      ensures deleted <==> id in old(restaurants.entries)
      ensures restaurants == OM.Delete(old(restaurants), id).0
      ensures GetRestaurant(id) == None
    {
      var r := OM.Delete(restaurants, id);
      restaurants, deleted := r.0, r.1;
    }

    function GetDish(id: string): Option<Dish>
      reads this
    {
      OM.Get(dishes, id)
    }

    function GetAllDishes(): seq<Dish>
      reads this
      requires Valid()
    {
      OM.Values(dishes)
    }

    /** The dishes whose `restaurantId` is `restaurantId`, in insertion order. */
    function GetDishesByRestaurant(restaurantId: string): (r: seq<Dish>)
      reads this
      requires Valid()
      ensures forall i :: 0 <= i < |r| ==> r[i].restaurantId == restaurantId && r[i] in dishes.entries.Values
      ensures forall k :: k in dishes.entries && dishes.entries[k].restaurantId == restaurantId ==> dishes.entries[k] in r
      ensures IsSubsequence(r, OM.Values(dishes))
    {
      var vs := OM.Values(dishes);
      var r := Filter(vs, OfRestaurantDish(restaurantId));
      assert forall k :: k in dishes.entries && dishes.entries[k].restaurantId == restaurantId ==> dishes.entries[k] in r by {
        forall k | k in dishes.entries && dishes.entries[k].restaurantId == restaurantId
          ensures dishes.entries[k] in r
        {
          OM.ValueListed(dishes, k);
        }
      }
      r
    }

    method CreateDish(d: InsertDish, id: string, now: int) returns (x: Dish)
      requires Valid()
      modifies this`dishes
      ensures Valid()
      ensures x == NewDish(d, id, now)
      ensures dishes == OM.Put(old(dishes), id, x)
      ensures GetDish(id) == Some(x)
    {
      x := NewDish(d, id, now);
      dishes := OM.Put(dishes, id, x);
    }

    method UpdateDish(id: string, p: DishPatch) returns (x: Option<Dish>)
      requires Valid()
      modifies this`dishes
      ensures Valid()
      ensures x.None? <==> id !in old(dishes.entries)
      ensures x.None? ==> dishes == old(dishes)
      ensures x.Some? ==> x.value == MergeDish(old(dishes.entries[id]), p)
                          && dishes == OM.Put(old(dishes), id, x.value)
    {
      var existing := OM.Get(dishes, id);
      if existing.None? {
        return None;
      }
      var updated := MergeDish(existing.value, p);
      dishes := OM.Put(dishes, id, updated);
      x := Some(updated);
    }

    method DeleteDish(id: string) returns (deleted: bool)
      requires Valid()
      modifies this`dishes
      ensures Valid()
      ensures deleted <==> id in old(dishes.entries)
      ensures dishes == OM.Delete(old(dishes), id).0
      ensures GetDish(id) == None
    {
      var r := OM.Delete(dishes, id);
      dishes, deleted := r.0, r.1;
    }

    function GetOrder(id: string): Option<Order>
      reads this
    {
      OM.Get(orders, id)
    }

    function GetAllOrders(): seq<Order>
      reads this
      requires Valid()
    {
      OM.Values(orders)
    }

    /** The orders whose `restaurantId` is `restaurantId`, in insertion order. */
    function GetOrdersByRestaurant(restaurantId: string): (r: seq<Order>)
      reads this
      requires Valid()
      ensures forall i :: 0 <= i < |r| ==> r[i].restaurantId == restaurantId && r[i] in orders.entries.Values
      ensures forall k :: k in orders.entries && orders.entries[k].restaurantId == restaurantId ==> orders.entries[k] in r
      ensures IsSubsequence(r, OM.Values(orders))
    {
      var vs := OM.Values(orders);
      var r := Filter(vs, OfRestaurantOrder(restaurantId));
      assert forall k :: k in orders.entries && orders.entries[k].restaurantId == restaurantId ==> orders.entries[k] in r by {
        forall k | k in orders.entries && orders.entries[k].restaurantId == restaurantId
          ensures orders.entries[k] in r
        {
          OM.ValueListed(orders, k);
        }
      }
      r
    }

    method CreateOrder(o: InsertOrder, id: string, now: int) returns (x: Order)
      requires Valid()
      modifies this`orders
      ensures Valid()
      ensures x == NewOrder(o, id, now)
      ensures orders == OM.Put(old(orders), id, x)
      ensures GetOrder(id) == Some(x)
    {
      x := NewOrder(o, id, now);
      orders := OM.Put(orders, id, x);
    }

    method UpdateOrder(id: string, p: OrderPatch, now: int) returns (x: Option<Order>)
      requires Valid()
      modifies this`orders
      ensures Valid()
      ensures x.None? <==> id !in old(orders.entries)
      ensures x.None? ==> orders == old(orders)
      ensures x.Some? ==> x.value == MergeOrder(old(orders.entries[id]), p, now)
                          && orders == OM.Put(old(orders), id, x.value)
    {
      var existing := OM.Get(orders, id);
      if existing.None? {
        return None;
      }
      var updated := MergeOrder(existing.value, p, now);
      orders := OM.Put(orders, id, updated);
      x := Some(updated);
    }
  }
}
