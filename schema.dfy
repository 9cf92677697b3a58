/**
 * The persisted records (users, restaurants, dishes, orders), the shapes a
 * create call receives, and the partial records an update call merges in.
 * Nullable columns are `Option`s; timestamps are plain integers (milliseconds);
 * decimal money columns stay the strings the server stores.
 */
module Schema {
  import opened Common

  datatype Role = SuperAdmin | RestaurantOwner

  datatype Status = Pending | Accepted | Rejected | Completed

  datatype User = User(
    id: string, username: string, password: string, email: string,
    role: Role, restaurantId: Option<string>, createdAt: int)

  datatype Restaurant = Restaurant(
    id: string, name: string, description: Option<string>, cuisine: Option<string>,
    image: Option<string>, isEnabled: Option<bool>, qrCode: Option<string>,
    ownerId: Option<string>, createdAt: int)

  datatype Dish = Dish(
    id: string, name: string, description: Option<string>, price: string,
    image: Option<string>, glbModel: Option<string>, usdzModel: Option<string>,
    ingredients: Option<seq<string>>, restaurantId: string, isAvailable: Option<bool>,
    createdAt: int)

  datatype OrderItem = OrderItem(
    dishId: string, dishName: string, quantity: int, price: string,
    specialInstructions: Option<string>)

  datatype Order = Order(
    id: string, restaurantId: string, tableNumber: string, items: Option<seq<OrderItem>>,
    totalAmount: string, status: Option<Status>, specialInstructions: Option<string>,
    createdAt: int, updatedAt: int)

  /** What the create calls receive: the record without id and timestamps; absent optional fields are `None`. */
  datatype InsertUser = InsertUser(
    username: string, password: string, email: string, role: Role, restaurantId: Option<string>)

  datatype InsertRestaurant = InsertRestaurant(
    name: string, description: Option<string>, cuisine: Option<string>, image: Option<string>,
    isEnabled: Option<bool>, ownerId: Option<string>)

  datatype InsertDish = InsertDish(
    name: string, description: Option<string>, price: string, image: Option<string>,
    glbModel: Option<string>, usdzModel: Option<string>, ingredients: Option<seq<string>>,
    restaurantId: string, isAvailable: Option<bool>)

  datatype InsertOrder = InsertOrder(
    restaurantId: string, tableNumber: string, items: Option<seq<OrderItem>>,
    totalAmount: string, status: Option<Status>, specialInstructions: Option<string>)

  /**
   * `Partial<Restaurant>`: each field is either absent (`None`) or present with
   * its new value (`Some(v)`; for a nullable column `v` may itself be `None`, JSON null).
   */
  datatype RestaurantPatch = RestaurantPatch(
    id: Option<string>, name: Option<string>, description: Option<Option<string>>,
    cuisine: Option<Option<string>>, image: Option<Option<string>>,
    isEnabled: Option<Option<bool>>, qrCode: Option<Option<string>>,
    ownerId: Option<Option<string>>)

  datatype DishPatch = DishPatch(
    id: Option<string>, name: Option<string>, description: Option<Option<string>>,
    price: Option<string>, image: Option<Option<string>>, glbModel: Option<Option<string>>,
    usdzModel: Option<Option<string>>, ingredients: Option<Option<seq<string>>>,
    restaurantId: Option<string>, isAvailable: Option<Option<bool>>)

  datatype OrderPatch = OrderPatch(
    id: Option<string>, restaurantId: Option<string>, tableNumber: Option<string>,
    items: Option<Option<seq<OrderItem>>>, totalAmount: Option<string>,
    status: Option<Option<Status>>, specialInstructions: Option<Option<string>>)

  /** The empty partial record `{}`. */
  const NoRestaurantChange := RestaurantPatch(None, None, None, None, None, None, None, None)
  const NoDishChange := DishPatch(None, None, None, None, None, None, None, None, None, None)
  const NoOrderChange := OrderPatch(None, None, None, None, None, None, None)

  /** `{ status }`, the body the owner dashboard sends. */
  function StatusPatch(s: Status): OrderPatch {
    NoOrderChange.(status := Some(Some(s)))
  }
}
