/** The model classes of `models.py`: records built from database rows with
    their defaults, and the display helpers computed from their fields. */
module Models {
  import opened Text
  import opened Numbers
  import opened Py
  import opened Query
  import opened Wrappers
  import Maps
  import Utils

  // ---------------------------------------------------------------------------
  // Records and their defaults

  /** A database row or request body as the constructors receive it. */
  type Row = map<string, PyValue>

  datatype User = User(id: PyValue, username: PyValue, email: PyValue, fullName: PyValue, phone: PyValue,
                       profilePic: PyValue, location: PyValue, isActive: PyValue, role: PyValue,
                       createdAt: PyValue, lastLogin: PyValue, totalOrders: PyValue, totalSpent: PyValue)

  /** `User(user_data)`: an active plain user with no orders unless the row
      says otherwise. */
  function UserOf(row: Row): (u: User)
    ensures "is_active" !in row ==> u.isActive == PyBool(true)
    ensures "role" !in row ==> u.role == PyStr("user")
    ensures "total_orders" !in row ==> u.totalOrders == PyInt(0)
    ensures "total_spent" !in row ==> u.totalSpent == PyInt(0)
    ensures "role" in row ==> u.role == row["role"]
    ensures "profile_pic" in row ==> u.profilePic == row["profile_pic"]
    ensures "profile_pic" !in row ==> u.profilePic == PyNone
  {
    User(DictGet(row, "id", PyNone), DictGet(row, "username", PyNone), DictGet(row, "email", PyNone),
         DictGet(row, "full_name", PyNone), DictGet(row, "phone", PyNone), DictGet(row, "profile_pic", PyNone),
         DictGet(row, "location", PyNone), DictGet(row, "is_active", PyBool(true)),
         DictGet(row, "role", PyStr("user")), DictGet(row, "created_at", PyNone),
         DictGet(row, "last_login", PyNone), DictGet(row, "total_orders", PyInt(0)),
         DictGet(row, "total_spent", PyInt(0)))
  }

  datatype Order = Order(orderId: PyValue, userId: PyValue, userName: PyValue, userPhone: PyValue,
                         userEmail: PyValue, userAddress: PyValue, items: PyValue, totalAmount: PyValue,
                         paymentMode: PyValue, deliveryLocation: PyValue, status: PyValue, orderDate: PyValue,
                         deliveryDate: PyValue, notes: PyValue, itemCount: PyValue, paymentStatus: PyValue,
                         paymentModeDetail: PyValue)

  /** `Order(order_data)`: a pending cash-on-delivery order with no items
      unless the row says otherwise. `payment_mode_detail` reads the same key
      as `payment_mode` but without its default. */
  function OrderOf(row: Row): (o: Order)
    ensures "items" !in row ==> o.items == PyStr("[]")
    ensures "total_amount" !in row ==> o.totalAmount == PyInt(0)
    ensures "payment_mode" !in row ==> o.paymentMode == PyStr("COD") && o.paymentModeDetail == PyNone
    ensures "payment_mode" in row ==> o.paymentMode == row["payment_mode"] == o.paymentModeDetail
    ensures "status" !in row ==> o.status == PyStr("pending")
    ensures "status" in row ==> o.status == row["status"]
    ensures "item_count" !in row ==> o.itemCount == PyInt(0)
  {
    Order(DictGet(row, "order_id", PyNone), DictGet(row, "user_id", PyNone), DictGet(row, "user_name", PyNone),
          DictGet(row, "user_phone", PyNone), DictGet(row, "user_email", PyNone),
          DictGet(row, "user_address", PyNone), DictGet(row, "items", PyStr("[]")),
          DictGet(row, "total_amount", PyInt(0)), DictGet(row, "payment_mode", PyStr("COD")),
          DictGet(row, "delivery_location", PyNone), DictGet(row, "status", PyStr("pending")),
          DictGet(row, "order_date", PyNone), DictGet(row, "delivery_date", PyNone),
          DictGet(row, "notes", PyNone), DictGet(row, "item_count", PyInt(0)),
          DictGet(row, "payment_status", PyNone), DictGet(row, "payment_mode", PyNone))
  }

  datatype OrderItem = OrderItem(orderItemId: PyValue, orderId: PyValue, itemType: PyValue, itemId: PyValue,
                                 itemName: PyValue, itemPhoto: PyValue, itemDescription: PyValue,
                                 quantity: PyValue, price: PyValue, total: PyValue)

  /** `OrderItem(item_data)`: one item at no cost unless the row says
      otherwise. */
  function OrderItemOf(row: Row): (i: OrderItem)
    ensures "quantity" !in row ==> i.quantity == PyInt(1)
    ensures "price" !in row ==> i.price == PyInt(0)
    ensures "total" !in row ==> i.total == PyInt(0)
    ensures "item_type" in row ==> i.itemType == row["item_type"]
    ensures "item_photo" in row ==> i.itemPhoto == row["item_photo"]
  {
    OrderItem(DictGet(row, "order_item_id", PyNone), DictGet(row, "order_id", PyNone),
              DictGet(row, "item_type", PyNone), DictGet(row, "item_id", PyNone),
              DictGet(row, "item_name", PyNone), DictGet(row, "item_photo", PyNone),
              DictGet(row, "item_description", PyNone), DictGet(row, "quantity", PyInt(1)),
              DictGet(row, "price", PyInt(0)), DictGet(row, "total", PyInt(0)))
  }

  datatype Payment = Payment(paymentId: PyValue, orderId: PyValue, userId: PyValue, amount: PyValue,
                             paymentMode: PyValue, transactionId: PyValue, paymentStatus: PyValue,
                             paymentDate: PyValue, razorpayOrderId: PyValue, razorpayPaymentId: PyValue,
                             razorpaySignature: PyValue)

  /** `Payment(payment_data)`: a pending payment of nothing unless the row
      says otherwise. */
  function PaymentOf(row: Row): (p: Payment)
    ensures "amount" !in row ==> p.amount == PyInt(0)
    ensures "payment_status" !in row ==> p.paymentStatus == PyStr("pending")
    ensures "payment_status" in row ==> p.paymentStatus == row["payment_status"]
  {
    Payment(DictGet(row, "payment_id", PyNone), DictGet(row, "order_id", PyNone), DictGet(row, "user_id", PyNone),
            DictGet(row, "amount", PyInt(0)), DictGet(row, "payment_mode", PyNone),
            DictGet(row, "transaction_id", PyNone), DictGet(row, "payment_status", PyStr("pending")),
            DictGet(row, "payment_date", PyNone), DictGet(row, "razorpay_order_id", PyNone),
            DictGet(row, "razorpay_payment_id", PyNone), DictGet(row, "razorpay_signature", PyNone))
  }

  datatype Address = Address(addressId: PyValue, userId: PyValue, fullName: PyValue, phone: PyValue,
                             addressLine1: PyValue, addressLine2: PyValue, landmark: PyValue, city: PyValue,
                             state: PyValue, pincode: PyValue, latitude: PyValue, longitude: PyValue,
                             isDefault: PyValue, createdAt: PyValue)

  /** `Address(address_data)`: not the default address unless the row says
      otherwise. */
  function AddressOf(row: Row): (a: Address)
    ensures "is_default" !in row ==> a.isDefault == PyBool(false)
    ensures "latitude" in row ==> a.latitude == row["latitude"]
    ensures "longitude" in row ==> a.longitude == row["longitude"]
  {
    Address(DictGet(row, "address_id", PyNone), DictGet(row, "user_id", PyNone), DictGet(row, "full_name", PyNone),
            DictGet(row, "phone", PyNone), DictGet(row, "address_line1", PyNone),
            DictGet(row, "address_line2", PyNone), DictGet(row, "landmark", PyNone), DictGet(row, "city", PyNone),
            DictGet(row, "state", PyNone), DictGet(row, "pincode", PyNone), DictGet(row, "latitude", PyNone),
            DictGet(row, "longitude", PyNone), DictGet(row, "is_default", PyBool(false)),
            DictGet(row, "created_at", PyNone))
  }

  datatype Statistics = Statistics(totalOrders: PyValue, totalRevenue: PyValue, totalCustomers: PyValue,
                                   avgOrderValue: PyValue, pendingOrders: PyValue, completedOrders: PyValue,
                                   cancelledOrders: PyValue, todayOrders: PyValue, todayRevenue: PyValue)

  /** `Statistics(stats_data)`: every figure is 0 unless the row gives it. */
  function StatisticsOf(row: Row): (s: Statistics)
    ensures row == map[] ==> s == Statistics(PyInt(0), PyInt(0), PyInt(0), PyInt(0), PyInt(0), PyInt(0),
                                             PyInt(0), PyInt(0), PyInt(0))
    ensures "total_orders" in row ==> s.totalOrders == row["total_orders"]
  {
    Statistics(DictGet(row, "total_orders", PyInt(0)), DictGet(row, "total_revenue", PyInt(0)),
               DictGet(row, "total_customers", PyInt(0)), DictGet(row, "avg_order_value", PyInt(0)),
               DictGet(row, "pending_orders", PyInt(0)), DictGet(row, "completed_orders", PyInt(0)),
               DictGet(row, "cancelled_orders", PyInt(0)), DictGet(row, "today_orders", PyInt(0)),
               DictGet(row, "today_revenue", PyInt(0)))
  }

  /** A key that is present keeps its value even when the value is None:
      `dict.get` falls back to the default only for a missing key. */
  lemma {:induction false} StoredNoneKept(row: Row)
    requires "status" in row && row["status"] == PyNone
    ensures OrderOf(row).status == PyNone && OrderOf(row).status != PyStr("pending")
    ensures Utils.StatusBadgeClass(OrderOf(row).status) == "secondary"
  {
  }

  // ---------------------------------------------------------------------------
  // Text helpers

  /** Python's `s[:n]`: a negative `n` counts from the end, and the slice
      never runs past either end. */
  function SliceTo(s: string, n: int): (r: string)
    ensures |r| <= |s| && r == s[..|r|]
    ensures n >= 0 ==> |r| == if n < |s| then n else |s|
    ensures n < 0 ==> |r| == if |s| + n > 0 then |s| + n else 0
  {
    if n >= |s| then s
    else if n >= 0 then s[..n]
    else if |s| + n > 0 then s[..|s| + n]
    else []
  }

  /** `BaseModel.truncate_text(text, max_length)`: falsy text gives "",
      text within the limit comes back whole, and a longer text is cut to a
      prefix followed by "...". The prefix is `max_length` characters long
      for a limit of at least 0; a negative limit drops that many characters
      from the end, as a Python slice does. */
  function TruncateText(text: PyValue, maxLength: int): (r: string)
    requires text.PyStr? || !Truthy(text)
    ensures !Truthy(text) ==> r == ""
    ensures Truthy(text) && |text.s| <= maxLength ==> r == text.s
    ensures Truthy(text) && |text.s| > maxLength ==>
              |r| - 3 == (if maxLength >= 0 then maxLength
                          else if |text.s| + maxLength > 0 then |text.s| + maxLength else 0)
              && r[|r| - 3..] == "..." && r[..|r| - 3] == text.s[..|r| - 3]
  {
    if !Truthy(text) then ""
    else if |text.s| <= maxLength then text.s
    else
      var cut := SliceTo(text.s, maxLength);
      assert (cut + "...")[..|cut|] == cut;
      cut + "..."
  }

  // ---------------------------------------------------------------------------
  // Address text and map link

  /** The address fields the formatted address joins directly are strings
      or falsy (`", ".join` accepts nothing else). */
  predicate TextFields(a: Address)
  {
    (a.addressLine1.PyStr? || !Truthy(a.addressLine1)) && (a.addressLine2.PyStr? || !Truthy(a.addressLine2))
    && (a.city.PyStr? || !Truthy(a.city)) && (a.state.PyStr? || !Truthy(a.state))
  }

  /** One candidate of the parts list: a present text, or nothing. */
  function Kept(o: Option<string>): (r: seq<string>)
    ensures |r| <= 1 && (r == [] <==> o.None?)
  {
    if o.Some? then [o.value] else []
  }

  /** The parts of the formatted address: the six labelled fields in order,
      each one left out when it is falsy. */
  function AddressParts(a: Address, floatRepr: Number -> string): seq<string>
    requires TextFields(a)
  {
    Kept(if Truthy(a.addressLine1) then Some(a.addressLine1.s) else None)
    + Kept(if Truthy(a.addressLine2) then Some(a.addressLine2.s) else None)
    + Kept(if Truthy(a.landmark) then Some("Near " + Str(a.landmark, floatRepr)) else None)
    + Kept(if Truthy(a.city) then Some(a.city.s) else None)
    + Kept(if Truthy(a.state) then Some(a.state.s) else None)
    + Kept(if Truthy(a.pincode) then Some("Pincode: " + Str(a.pincode, floatRepr)) else None)
  }

  /** `Address.get_formatted_address()`: the parts list grows one field at
      a time and is joined with ", ". */
  method FormattedAddress(a: Address, floatRepr: Number -> string) returns (s: string)
    requires TextFields(a)
    ensures s == Join(AddressParts(a, floatRepr), ", ")
  {
    ghost var k1 := Kept(if Truthy(a.addressLine1) then Some(a.addressLine1.s) else None);
    ghost var k2 := Kept(if Truthy(a.addressLine2) then Some(a.addressLine2.s) else None);
    ghost var k3 := Kept(if Truthy(a.landmark) then Some("Near " + Str(a.landmark, floatRepr)) else None);
    ghost var k4 := Kept(if Truthy(a.city) then Some(a.city.s) else None);
    ghost var k5 := Kept(if Truthy(a.state) then Some(a.state.s) else None);
    var parts: seq<string> := [];
    if Truthy(a.addressLine1) {
      parts := parts + [a.addressLine1.s];
    }
    assert parts == k1;
    if Truthy(a.addressLine2) {
      parts := parts + [a.addressLine2.s];
    }
    assert parts == k1 + k2;
    if Truthy(a.landmark) {
      parts := parts + ["Near " + Str(a.landmark, floatRepr)];
    }
    assert parts == k1 + k2 + k3;
    if Truthy(a.city) {
      parts := parts + [a.city.s];
    }
    assert parts == k1 + k2 + k3 + k4;
    if Truthy(a.state) {
      parts := parts + [a.state.s];
    }
    assert parts == k1 + k2 + k3 + k4 + k5;
    if Truthy(a.pincode) {
      parts := parts + ["Pincode: " + Str(a.pincode, floatRepr)];
    }
    assert parts == k1 + k2 + k3 + k4 + k5
                    + Kept(if Truthy(a.pincode) then Some("Pincode: " + Str(a.pincode, floatRepr)) else None);
    s := Join(parts, ", ");
  }

  /** An address with none of the six fields formats as the empty string. */
  lemma {:induction false} FormattedAddressEmpty(a: Address, floatRepr: Number -> string)
    requires !Truthy(a.addressLine1) && !Truthy(a.addressLine2) && !Truthy(a.landmark)
    requires !Truthy(a.city) && !Truthy(a.state) && !Truthy(a.pincode)
    ensures AddressParts(a, floatRepr) == [] && Join(AddressParts(a, floatRepr), ", ") == ""
  {
  }

  /** The parts come back out of the formatted text by splitting on ", "
      when none of them holds a comma. */
  lemma {:induction false} FormattedAddressSplits(a: Address, floatRepr: Number -> string)
    requires TextFields(a)
    requires var ps := AddressParts(a, floatRepr);
             ps != [] && forall i :: 0 <= i < |ps| ==> Free(ps[i], ',')
    ensures var ps := AddressParts(a, floatRepr);
            Split(Join(ps, ", "), ", ") == ps
  {
    assert FirstAt(", ", 0, ',');
    SplitJoin(AddressParts(a, floatRepr), ", ", 0, ',');
  }

  /** `Address.get_map_link()`: a link only when both coordinates are
      truthy, with the point as `str` prints it and no zoom level. */
  function AddressMapLink(a: Address, floatRepr: Number -> string): (r: Option<string>)
    ensures r.Some? <==> Truthy(a.latitude) && Truthy(a.longitude)
    ensures r.Some? ==> r.value == Maps.MapsBase
                                   + QueryString([Param("q", Str(a.latitude, floatRepr) + "," + Str(a.longitude, floatRepr))])
  {
    if Truthy(a.latitude) && Truthy(a.longitude) then
      var pair := Str(a.latitude, floatRepr) + "," + Str(a.longitude, floatRepr);
      Maps.FirstParam(Maps.MapsBase, Param("q", pair));
      Some(Maps.MapsBase + "q=" + pair)
    else None
  }

  /** A coordinate of 0 gives no link at all, and a link, read back, holds
      the point and no zoom level. */
  lemma {:induction false} AddressMapLinkQuery(a: Address, floatRepr: Number -> string)
    ensures (a.latitude == PyInt(0) || a.longitude == PyInt(0) || a.latitude == PyFloat(Finite(0.0))
             || a.longitude == PyFloat(Finite(0.0))) ==> AddressMapLink(a, floatRepr).None?
    ensures var pair := Str(a.latitude, floatRepr) + "," + Str(a.longitude, floatRepr);
            Plain(pair) ==> ParseQuery(QueryString([Param("q", pair)])) == [Param("q", pair)]
                            && Get([Param("q", pair)], "z") == None
  {
    var pair := Str(a.latitude, floatRepr) + "," + Str(a.longitude, floatRepr);
    if Plain(pair) {
      assert PlainParams([Param("q", pair)]) by {
        Maps.LiteralsPlain();
      }
      ParseQueryString([Param("q", pair)]);
    }
  }

  // ---------------------------------------------------------------------------
  // Image links

  const DefaultAvatar: string := "https://res.cloudinary.com/demo/image/upload/v1633427556/default-avatar.png"
  const SampleService: string := "https://res.cloudinary.com/demo/image/upload/v1633427556/sample_service.jpg"
  const SampleFood: string := "https://res.cloudinary.com/demo/image/upload/v1633427556/sample_food.jpg"

  /** The precedence shared by the profile picture and the item photo: a
      stored link that starts with "http", else a truthy `default_url`, else
      the fixed image. */
  function PreferredUrl(photo: PyValue, defaultUrl: PyValue, fallback: string): (r: PyValue)
    requires photo.PyStr? || !Truthy(photo)
    ensures r == photo || r == defaultUrl || r == PyStr(fallback)
    ensures fallback != "" ==> Truthy(r)
    ensures r == photo && r != defaultUrl && r != PyStr(fallback) ==> Truthy(photo) && StartsWith(photo.s, "http")
    ensures Truthy(photo) && StartsWith(photo.s, "http") ==> r == photo
    ensures !(Truthy(photo) && StartsWith(photo.s, "http")) && Truthy(defaultUrl) ==> r == defaultUrl
    ensures !(Truthy(photo) && StartsWith(photo.s, "http")) && !Truthy(defaultUrl) ==> r == PyStr(fallback)
  {
    if Truthy(photo) && StartsWith(photo.s, "http") then photo
    else if Truthy(defaultUrl) then defaultUrl
    else PyStr(fallback)
  }

  /** `User.get_profile_pic_url(default_url)`. */
  function ProfilePicUrl(u: User, defaultUrl: PyValue): (r: PyValue)
    requires u.profilePic.PyStr? || !Truthy(u.profilePic)
    ensures Truthy(r)
    ensures !Truthy(u.profilePic) && !Truthy(defaultUrl) ==> r == PyStr(DefaultAvatar)
  {
    PreferredUrl(u.profilePic, defaultUrl, DefaultAvatar)
  }

  /** The fixed image for an item type: services get the service sample,
      everything else the food sample. */
  function SampleImage(itemType: PyValue): (url: string)
    ensures url == SampleService <==> itemType == PyStr("service")
    ensures url == SampleService || url == SampleFood
  {
    if itemType == PyStr("service") then SampleService else SampleFood
  }

  /** `OrderItem.get_item_photo_url(default_url)`. */
  function ItemPhotoUrl(i: OrderItem, defaultUrl: PyValue): (r: PyValue)
    requires i.itemPhoto.PyStr? || !Truthy(i.itemPhoto)
    ensures Truthy(r)
    ensures !Truthy(i.itemPhoto) && !Truthy(defaultUrl) ==> r == PyStr(SampleImage(i.itemType))
  {
    PreferredUrl(i.itemPhoto, defaultUrl, SampleImage(i.itemType))
  }

  // ---------------------------------------------------------------------------
  // Order status display

  const StatusIconTable: map<string, string> :=
    map["pending" := "clock", "processing" := "cogs", "completed" := "check-circle",
        "cancelled" := "times-circle", "delivered" := "truck"]

  /** `Order.get_status_badge_class()`: the same table as the helper in
      `utils.py`. */
  function OrderBadgeClass(o: Order): (r: string)
    ensures r == Utils.StatusBadgeClass(o.status)
    ensures r == "secondary" <==> !(o.status.PyStr? && o.status.s in Utils.StatusBadgeTable)
  {
    TableGet(Utils.StatusBadgeTable, o.status, "secondary")
  }

  /** `Order.get_status_icon()`. */
  function OrderStatusIcon(o: Order): (r: string)
    ensures r == "question-circle" <==> !(o.status.PyStr? && o.status.s in StatusIconTable)
    ensures o.status.PyStr? && o.status.s in StatusIconTable ==> r == StatusIconTable[o.status.s]
  {
    TableGet(StatusIconTable, o.status, "question-circle")
  }

  /** The icon and the badge know the same five statuses: the fallback icon
      shows exactly when the fallback badge does. */
  lemma {:induction false} IconAndBadgeAgree(o: Order)
    ensures OrderStatusIcon(o) == "question-circle" <==> OrderBadgeClass(o) == "secondary"
  {
    assert StatusIconTable.Keys == Utils.StatusBadgeTable.Keys;
  }

  /** `Payment.get_status_badge_class()`: the same table as the payment
      helper in `utils.py`. */
  function PaymentBadgeClass(p: Payment): (r: string)
    ensures r == Utils.PaymentBadgeClass(p.paymentStatus)
  {
    TableGet(Utils.PaymentBadgeTable, p.paymentStatus, "secondary")
  }

  // ---------------------------------------------------------------------------
  // Completion rate

  /** Python's `round(y)`: the nearest integer, the even one on a tie. */
  function RoundHalfEven(y: real): (n: int)
    ensures -0.5 <= n as real - y <= 0.5
    ensures n as real - y == 0.5 || n as real - y == -0.5 ==> n % 2 == 0
  {
    var f := y.Floor;
    var frac := y - f as real;
    if frac < 0.5 then f
    else if frac > 0.5 then f + 1
    else if f % 2 == 0 then f else f + 1
  }

  /** The completed share of all orders, in percent: Python's
      `(completed / total) * 100` over exact reals. */
  function Percent(total: int, completed: int): real
    requires total != 0
  {
    (completed as real / total as real) * 100.0
  }

  /** `Statistics.get_completion_rate()` over whole counts: the int 0 when
      there are no orders, otherwise the percentage rounded to one decimal. */
  function CompletionRate(total: int, completed: int): (r: PyValue)
    ensures total == 0 ==> r == PyInt(0)
    ensures total != 0 ==> r.PyFloat? && r.x.Finite?
                           && -0.05 <= r.x.value - Percent(total, completed) <= 0.05
  {
    if total == 0 then PyInt(0)
    else
      var p := Percent(total, completed);
      var n := RoundHalfEven(p * 10.0);
      assert n as real / 10.0 - p == (n as real - p * 10.0) / 10.0;
      PyFloat(Finite(n as real / 10.0))
  }

  /** The rate lies between 0 and 100 when the completed orders are among
      all the orders, and is exactly 100 or 0 when all or none are completed. */
  lemma {:induction false} CompletionRateBounds(total: int, completed: int)
    requires total != 0
    ensures var x := CompletionRate(total, completed).x.value;
            (0 <= completed <= total ==> 0.0 <= x <= 100.0)
            && (completed == total ==> x == 100.0)
            && (completed == 0 ==> x == 0.0)
  {
    if 0 <= completed <= total {
      ShareBounds(total, completed);
    }
    if completed == total {
      WholeShare(total);
    }
  }

  lemma {:induction false} ShareBounds(total: int, completed: int)
    requires 0 <= completed <= total && total != 0
    ensures 0.0 <= Percent(total, completed) <= 100.0
  {
    var t, c := total as real, completed as real;
    var q := c / t;
    assert q * t == c;
    assert q <= 1.0;
  }

  lemma {:induction false} WholeShare(total: int)
    requires total != 0
    ensures Percent(total, total) == 100.0
  {
    var t := total as real;
    assert (t / t) * t == t;
  }
}
