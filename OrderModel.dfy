/**
 * The order document of models/orderModel.js: its fields, the status enum,
 * the two defaults and the required paths, and how the schema turns the
 * fields handed to `Order.create` into a stored document or a validation
 * error.
 */
module OrderModel {
  import opened Wrappers

  type UserId = nat
  type ProductId = nat
  type OrderId = nat

  /** The status enum, `['Pending', 'Shipped', 'Delivered']`. */
  datatype Status = Pending | Shipped | Delivered {
    /** The string the document stores for this status. */
    function Name(): string {
      match this
      case Pending => "Pending"
      case Shipped => "Shipped"
      case Delivered => "Delivered"
    }
  }

  const DefaultStatus: Status := Pending
  const DefaultQuantity: nat := 1

  /** The enum validator: the status a string names, if it names one. */
  function ParseStatus(s: string): (r: Option<Status>)
    ensures r.Some? ==> r.value.Name() == s
    ensures forall t: Status :: t.Name() == s ==> r == Some(t)
  {
    if s == "Pending" then Some(Pending)
    else if s == "Shipped" then Some(Shipped)
    else if s == "Delivered" then Some(Delivered)
    else None
  }

  /** A stored order. Every required path is present by construction. */
  datatype Order = Order(
    id: OrderId,
    user: UserId,
    product: ProductId,
    quantity: nat,
    totalPrice: nat,
    status: Status)

  /** What `Order.create` may be handed: any path may be absent. */
  datatype OrderFields = OrderFields(
    user: Option<UserId>,
    product: Option<ProductId>,
    quantity: Option<nat>,
    totalPrice: Option<nat>,
    status: Option<string>)

  /** The paths the schema reports as invalid: required paths that are absent
      after defaults are applied, and a status outside the enum. */
  function Problems(f: OrderFields): (errs: set<string>)
    ensures "user" in errs <==> f.user.None?
    ensures "product" in errs <==> f.product.None?
    ensures "totalPrice" in errs <==> f.totalPrice.None?
    ensures "status" in errs <==> f.status.Some? && ParseStatus(f.status.value).None?
    ensures "quantity" !in errs
    ensures forall p :: p in errs ==> p in {"user", "product", "totalPrice", "status"}
  {
    (if f.user.None? then {"user"} else {})
    + (if f.product.None? then {"product"} else {})
    + (if f.totalPrice.None? then {"totalPrice"} else {})
    + (if f.status.Some? && ParseStatus(f.status.value).None? then {"status"} else {})
  }

  /** Schema validation on create: fill the defaults, then either store the
      document under `id` or fail with the set of offending paths. */
  function Cast(id: OrderId, f: OrderFields): (r: Result<Order, set<string>>)
    ensures r.Success? <==> (f.user.Some? && f.product.Some? && f.totalPrice.Some?
                             && (f.status.None? || ParseStatus(f.status.value).Some?))
    ensures r.Success? ==>
              && r.value.id == id
              && Some(r.value.user) == f.user
              && Some(r.value.product) == f.product
              && Some(r.value.totalPrice) == f.totalPrice
              && (f.quantity.Some? ==> Some(r.value.quantity) == f.quantity)
              && (f.quantity.None? ==> r.value.quantity == DefaultQuantity)
              && (f.status.Some? ==> r.value.status.Name() == f.status.value)
              && (f.status.None? ==> r.value.status == DefaultStatus)
    ensures r.Failure? ==> r.error == Problems(f) && r.error != {}
  {
    var errs := Problems(f);
    if errs != {} then Failure(errs)
    else
      var status := if f.status.Some? then ParseStatus(f.status.value).value else DefaultStatus;
      Success(Order(id, f.user.value, f.product.value, f.quantity.GetOr(DefaultQuantity),
                    f.totalPrice.value, status))
  }

  /** The fields of a stored document, every path present. */
  function FieldsOf(o: Order): OrderFields {
    OrderFields(Some(o.user), Some(o.product), Some(o.quantity), Some(o.totalPrice), Some(o.status.Name()))
  }

  /** Reading a stored document back through the schema gives the same document. */
  lemma {:induction false} CastFieldsOf(o: Order)
    ensures Cast(o.id, FieldsOf(o)) == Success(o)
  {
    var r := Cast(o.id, FieldsOf(o));
    assert ParseStatus(o.status.Name()) == Some(o.status);
    assert r.Success?;
    assert r.value.status.Name() == o.status.Name();
    match o.status
    case Pending =>
    case Shipped =>
    case Delivered =>
  }

  /** A create without quantity or status gets quantity 1 and status Pending. */
  lemma DefaultsApplied(id: OrderId, u: UserId, p: ProductId, total: nat)
    ensures Cast(id, OrderFields(Some(u), Some(p), None, Some(total), None))
            == Success(Order(id, u, p, 1, total, Pending))
  {
  }

  /** A document missing any of user, product and totalPrice is never stored. */
  lemma {:induction false} RequiredPaths(id: OrderId, f: OrderFields)
    requires f.user.None? || f.product.None? || f.totalPrice.None?
    ensures Cast(id, f).Failure?
    ensures f.user.None? ==> "user" in Cast(id, f).error
    ensures f.product.None? ==> "product" in Cast(id, f).error
    ensures f.totalPrice.None? ==> "totalPrice" in Cast(id, f).error
  {
  }
}
