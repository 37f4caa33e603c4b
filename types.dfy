/** The records of the point-of-sale application. Money and ratings are exact reals,
    instants are integer milliseconds since the epoch, and an optional field is an
    `Option`. Roles stay strings where the source compares them with arbitrary
    strings (the email-derived `guest`, the notification target `all`); the seven
    roles that choose a table are the `Role` datatype. */
module Types {

  import opened Wrappers

  datatype Category = NonAlcoholic | Alcoholic | Food

  datatype Subcategory = Shots | Glass | Pitcher | Bottled

  /** A sellable item on the menu. */
  datatype MenuItem = MenuItem(
    id: string,
    name: string,
    price: real,
    category: Category,
    subcategory: Option<Subcategory>,
    isAvailable: bool)

  /** A stock-keeping item of the inventory. */
  datatype InventoryItem = InventoryItem(
    id: string,
    name: string,
    category: string,
    unit: string,
    purchasePrice: real,
    currentStock: real,
    minStock: real,
    maxStock: real,
    supplier: Option<string>)

  datatype OrderStatus =
    | New | Cooking | Prepared | InProgress | Ready | Claimed | OnWay | Served
  {
    /** The status as the string the source stores. */
    function Name(): string
    {
      match this
      case New => "new"
      case Cooking => "cooking"
      case Prepared => "prepared"
      case InProgress => "in-progress"
      case Ready => "ready"
      case Claimed => "claimed"
      case OnWay => "on-way"
      case Served => "served"
    }
  }

  datatype CustomerType = WalkIn | AtTable

  /** One line of an order. */
  datatype OrderItem = OrderItem(menuItemId: string, name: string, price: real, quantity: int)

  datatype Order = Order(
    id: string,
    items: seq<OrderItem>,
    tableNumber: Option<string>,
    customerType: CustomerType,
    status: OrderStatus,
    total: real,
    createdAt: int,
    updatedAt: int,
    staffId: string,
    staffName: string)

  datatype TableStatus = Vacant | Occupied | Reserved

  datatype Table = Table(
    id: string,
    number: string,
    capacity: int,
    status: TableStatus,
    guests: Option<int>)

  datatype ReservationStatus = Confirmed | Seated | Cancelled | NoShow

  datatype Reservation = Reservation(
    id: string,
    customerName: string,
    customerPhone: string,
    date: int,
    time: string,
    guests: int,
    tableId: string,
    status: ReservationStatus,
    isPaid: bool,
    createdAt: int)

  /** The seven staff roles. */
  datatype Role = Owner | Manager | Bartender | Kitchen | Waiter | Security | Developer
  {
    /** The role as the string the source stores. */
    function Name(): string
    {
      match this
      case Owner => "owner"
      case Manager => "manager"
      case Bartender => "bartender"
      case Kitchen => "kitchen"
      case Waiter => "waiter"
      case Security => "security"
      case Developer => "developer"
    }
  }

  /** The role a string names, if any. */
  function ParseRole(s: string): (r: Option<Role>)
    ensures r.Some? ==> r.value.Name() == s
  {
    if s == "owner" then Some(Owner)
    else if s == "manager" then Some(Manager)
    else if s == "bartender" then Some(Bartender)
    else if s == "kitchen" then Some(Kitchen)
    else if s == "waiter" then Some(Waiter)
    else if s == "security" then Some(Security)
    else if s == "developer" then Some(Developer)
    else None
  }

  /** Every role's name parses back to that role, so the seven names are distinct. */
  lemma ParseRoleName(r: Role)
    ensures ParseRole(r.Name()) == Some(r)
  {
  }

  /** A staff account; the role is one of the seven role names. */
  datatype User = User(
    id: string,
    username: string,
    email: string,
    role: string,
    isFirstLogin: bool,
    createdAt: int,
    isActive: bool)

  /** The optional measurements of one staff member's day. */
  datatype Metrics = Metrics(
    ordersProcessed: Option<real>,
    averageServiceTime: Option<real>,
    totalSales: Option<real>,
    customersServed: Option<real>,
    ticketsScanned: Option<real>,
    incidentsLogged: Option<real>,
    wastageReported: Option<real>)

  /** One day's recorded performance of one staff member. */
  datatype PerformanceMetrics = PerformanceMetrics(
    userId: string,
    date: int,
    role: string,
    metrics: Metrics,
    rating: real)

  datatype NotificationType = OrderAlert | InventoryAlert | StaffAlert | SystemAlert | ReservationAlert | VoucherAlert

  datatype Priority = Low | Medium | High | Urgent

  /** An in-app notification addressed to a set of roles (or to `all`). */
  datatype Notification = Notification(
    id: string,
    kind: NotificationType,
    title: string,
    message: string,
    priority: Priority,
    targetRoles: seq<string>,
    isRead: bool,
    createdAt: int,
    actionRequired: bool,
    orderId: Option<string>,
    tableId: Option<string>)

  /** JavaScript truthiness of an optional string: present and not empty. */
  predicate Truthy(s: Option<string>)
  {
    s.Some? && s.value != ""
  }
}
