/** Entities shared by several parts of the marketplace: orders and their
    items, users, free-form JSON metadata, clock arithmetic, and the shape of
    an HTTP reply. The orders and users tables are objects that several
    controllers and services update in place. */
module Market {
  import opened Wrappers

  /** Instants are integers counting seconds. A calendar month is modelled as
      a fixed positive offset. */
  const DAY: int := 86400
  const MONTH: int := 30 * DAY

  function AddDays(t: int, days: nat): int { t + days * DAY }
  function AddMonths(t: int, months: nat): int { t + months * MONTH }

  /** A JSON value as stored in the metadata and address columns. */
  datatype Value = Null | Str(s: string) | Num(n: int) | Dec(d: real) | Obj(fields: map<string, Value>)
  type Metadata = map<string, Value>

  /** The HTTP outcome of a controller action: a body, or a refusal with its status code. */
  datatype Reply<+T> = Ok(body: T) | Refused(code: int, message: string)

  /** The message of a 422 reply from a failed request validation. */
  const INVALID := "The given data was invalid."
  /** The message of a 500 reply: a write broke a unique index and its
      transaction was rolled back. */
  const SERVER_ERROR := "Server Error"
  /** The message of a 404 reply when a route's model is not stored. */
  const NOT_FOUND := "Not found."

  /** Positions of the rows a predicate selects, newest row first (rows are
      created in position order, so creation time descending is position
      descending). */
  function NewestFirst<T>(rows: seq<T>, mine: T -> bool): (r: seq<nat>)
    ensures forall k | 0 <= k < |r| :: r[k] < |rows| && mine(rows[r[k]])
    ensures forall j | 0 <= j < |rows| && mine(rows[j]) :: j in r
    ensures forall k, l | 0 <= k < l < |r| :: r[k] > r[l]
    decreases |rows|
  {
    if rows == [] then []
    else
      var rest := NewestFirst(rows[..|rows| - 1], mine);
      if mine(rows[|rows| - 1]) then [|rows| - 1] + rest else rest
  }

  /** The first position whose row satisfies a condition, as a query's
      `first()` returns it. */
  function FirstWhere<T>(rows: seq<T>, p: T -> bool): (r: Option<nat>)
    ensures r.Some? ==> r.value < |rows| && p(rows[r.value])
    ensures r.Some? ==> forall j | 0 <= j < r.value :: !p(rows[j])
    ensures r.None? ==> forall j | 0 <= j < |rows| :: !p(rows[j])
  {
    if rows == [] then None
    else if p(rows[0]) then Some(0)
    else
      var rest := FirstWhere(rows[1..], p);
      if rest.Some? then Some(rest.value + 1) else None
  }

  datatype OrderStatus = Pending | Paid | Processing | Shipped | Completed | Cancelled | Refunded

  function StatusName(s: OrderStatus): string
  {
    match s
    case Pending => "pending"
    case Paid => "paid"
    case Processing => "processing"
    case Shipped => "shipped"
    case Completed => "completed"
    case Cancelled => "cancelled"
    case Refunded => "refunded"
  }

  /** The column's enumeration, read from its text. */
  function ParseStatus(name: string): (r: Option<OrderStatus>)
    ensures r.Some? ==> StatusName(r.value) == name
  {
    if name == "pending" then Some(Pending)
    else if name == "paid" then Some(Paid)
    else if name == "processing" then Some(Processing)
    else if name == "shipped" then Some(Shipped)
    else if name == "completed" then Some(Completed)
    else if name == "cancelled" then Some(Cancelled)
    else if name == "refunded" then Some(Refunded)
    else None
  }

  lemma ParseStatusName(s: OrderStatus)
    ensures ParseStatus(StatusName(s)) == Some(s)
  {
  }

  datatype Order = Order(
    userId: string,
    sellerId: Option<string>,
    orderNumber: string,
    status: OrderStatus,
    subtotal: nat,
    taxTotal: nat,
    shippingTotal: nat,
    discountTotal: nat,
    grandTotal: nat,
    shippingAddress: Option<map<string, Value>>,
    billingAddress: Option<map<string, Value>>,
    metadata: Metadata,
    placedAt: Option<int>,
    deliveryDate: Option<int>,
    deliveryTime: Option<string>,
    payoutEligible: bool,
    payoutEligibleAt: Option<int>,
    returnWindowEndsAt: Option<int>)

  datatype OrderItem = OrderItem(
    orderId: string,
    productId: string,
    quantity: Option<nat>,
    unitPrice: Option<nat>,
    lineTotal: nat,
    snapshot: map<string, Value>)

  /** The orders and order_items tables. */
  class OrderBook {
    var orders: map<string, Order>
    var items: seq<OrderItem>

    constructor (orders: map<string, Order>, items: seq<OrderItem>)
      ensures this.orders == orders && this.items == items
    {
      this.orders := orders;
      this.items := items;
    }

    /** Stores an order row under its id and appends its items. */
    method Place(orderId: string, o: Order, rows: seq<OrderItem>)
      modifies this
      ensures orders == old(orders)[orderId := o]
      ensures items == old(items) + rows
    {
      orders := orders[orderId := o];
      items := items + rows;
    }
  }

  /** Some stored order carries the number. */
  predicate NumberUsed(orders: map<string, Order>, n: string)
  {
    exists id | id in orders :: orders[id].orderNumber == n
  }

  /** No two orders share a number, as the column's unique index demands. */
  predicate NumbersUnique(orders: map<string, Order>)
  {
    forall a, b | a in orders && b in orders && a != b :: orders[a].orderNumber != orders[b].orderNumber
  }

  /** Storing a new order under a number no order has keeps numbers unique. */
  lemma StoreKeepsNumbersUnique(orders: map<string, Order>, orderId: string, o: Order)
    requires NumbersUnique(orders) && orderId !in orders && !NumberUsed(orders, o.orderNumber)
    ensures NumbersUnique(orders[orderId := o])
  {
    var m := orders[orderId := o];
    forall a, b | a in m && b in m && a != b
      ensures m[a].orderNumber != m[b].orderNumber
    {
      if a == orderId {
        assert orders[b].orderNumber != o.orderNumber;
      } else if b == orderId {
        assert orders[a].orderNumber != o.orderNumber;
      }
    }
  }

  datatype Role = Customer | Seller | Admin

  /** A seller's payout destination: an opaque JSON object. */
  type Details = map<string, string>

  datatype User = User(
    name: string,
    role: Role,
    referralCode: Option<string>,
    referredBy: Option<string>,
    payoutMethod: Option<string>,
    payoutDetails: Option<Details>,
    payoutVerified: bool,
    payoutThreshold: nat)

  /** The users table. */
  class UserDirectory {
    var users: map<string, User>

    constructor (users: map<string, User>)
      ensures this.users == users
    {
      this.users := users;
    }
  }
}
