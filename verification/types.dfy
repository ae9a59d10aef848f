/** The records and enumerations the canteen application stores and passes
    around (src/types/types.ts). Money is an exact `real` in rupees; dates
    and times the application keeps as text stay `string`s. */
module Types {
  import opened Wrappers

  datatype UserRole = Student | Staff | Admin | KitchenStaff | Cashier

  datatype OrderStatus = Pending | Confirmed | Preparing | Ready | Completed | Cancelled

  datatype PaymentMethod = Card | Wallet | CashOnPickup

  datatype SessionType = Breakfast | Lunch | Snacks | Dinner

  datatype DayOfWeek = Monday | Tuesday | Wednesday | Thursday | Friday | Saturday | Sunday

  type Money = real

  /** Opaque per-line customisations of a cart entry or order item. */
  type Customizations = map<string, string>

  /** The status as stored in the database and compared by the pages. */
  function StatusName(s: OrderStatus): string {
    match s
    case Pending => "pending"
    case Confirmed => "confirmed"
    case Preparing => "preparing"
    case Ready => "ready"
    case Completed => "completed"
    case Cancelled => "cancelled"
  }

  /** The status a stored string names, if it names one. */
  function ParseStatus(t: string): (r: Option<OrderStatus>)
    ensures r.Some? ==> StatusName(r.value) == t
  {
    if t == "pending" then Some(Pending)
    else if t == "confirmed" then Some(Confirmed)
    else if t == "preparing" then Some(Preparing)
    else if t == "ready" then Some(Ready)
    else if t == "completed" then Some(Completed)
    else if t == "cancelled" then Some(Cancelled)
    else None
  }

  /** Status names and their parse are inverse: a string is recognised exactly
      when it is the stored name of a status. */
  lemma StatusNameRoundTrip(s: OrderStatus, t: string)
    ensures ParseStatus(StatusName(s)) == Some(s)
    ensures ParseStatus(t) == Some(s) <==> t == StatusName(s)
  {
  }

  /** The lower-case weekday name stored in `available_days`. */
  function DayName(d: DayOfWeek): string {
    match d
    case Monday => "monday"
    case Tuesday => "tuesday"
    case Wednesday => "wednesday"
    case Thursday => "thursday"
    case Friday => "friday"
    case Saturday => "saturday"
    case Sunday => "sunday"
  }

  /** The stored name of a menu session type. */
  function SessionName(t: SessionType): string {
    match t
    case Breakfast => "breakfast"
    case Lunch => "lunch"
    case Snacks => "snacks"
    case Dinner => "dinner"
  }

  /** The seven weekdays in calendar order, as the admin form lists them. */
  const AllDays: seq<DayOfWeek> := [Monday, Tuesday, Wednesday, Thursday, Friday, Saturday, Sunday]

  datatype Profile = Profile(
    id: string,
    email: string,
    fullName: Option<string>,
    phone: Option<string>,
    role: UserRole,
    isVerified: bool)

  /** A menu item joined with its session; `session` is the joined session's
      type (`menu_sessions?.session_type`). */
  datatype MenuItem = MenuItem(
    id: string,
    name: string,
    description: Option<string>,
    price: Money,
    imageUrl: Option<string>,
    category: string,
    sessionId: Option<string>,
    session: Option<SessionType>,
    availableDays: seq<DayOfWeek>,
    isAvailable: bool,
    stock: int)

  datatype Order = Order(
    id: string,
    userId: string,
    totalAmount: Money,
    status: OrderStatus,
    pickupDate: string,
    pickupTime: string,
    pickupSlot: string,
    paymentMethod: PaymentMethod,
    paymentToken: Option<string>,
    paymentCompleted: bool,
    qrCode: Option<string>,
    tokenUsed: bool,
    specialInstructions: Option<string>,
    cancellationReason: Option<string>,
    refundAmount: Option<Money>,
    refundStatus: Option<string>,
    cancelledAt: Option<string>,
    createdAt: string,
    updatedAt: string)

  datatype CartItem = CartItem(menuItem: MenuItem, quantity: int, customizations: Option<Customizations>)

  datatype PickupSlot = PickupSlot(
    id: string,
    date: string,
    timeSlot: string,
    maxCapacity: int,
    currentBookings: int,
    isAvailable: bool,
    createdAt: string,
    updatedAt: string)

  /** One row of the slot-availability remote procedure. */
  datatype SlotAvailability = SlotAvailability(availableSlots: int, maxCapacity: int, isAvailable: bool)

  datatype Inventory = Inventory(id: string, itemName: string, quantity: int, lowStockThreshold: int)
}
