/** The entity records (package entity) and, per entity, what its `*_query.go` file fixes:
    the columns of its four statements and the messages of its "no rows affected" errors.
    Each entity also gets the equality predicates the query builder makes of its
    business fields: one per field that is not Go's zero value. */
module Entities {
  import opened Errors
  import opened Store

  datatype Cart = Cart(userId: int, productId: int, quantity: int)
  datatype Category = Category(name: string)
  datatype Location = Location(lat: string, long: string, distance: int, secret: string)
  datatype OrderItem = OrderItem(orderId: int, productId: int, quantity: int, price: real)
  datatype Order = Order(userId: int, totalPrice: real, status: string)
  datatype Payment = Payment(orderId: int, paymentMethod: string, paymentStatus: string, transactionId: string)
  datatype Product = Product(
    categoryId: int,
    name: string,
    description: string,
    price: real,
    discountPrice: real,
    stock: int,
    imageUrl: string)
  datatype Refund = Refund(userId: int, orderId: int, reason: string)
  datatype Review = Review(userId: int, productId: int, rating: int, comment: string)
  datatype Role = Role(name: string)
  datatype User = User(
    username: string,
    email: string,
    password: string,
    pincode: string,
    roleId: int,
    isActive: int)

  /** The claims of a dashboard token. */
  datatype Claims = Claims(uid: string, email: string, roleId: string, issuedAt: Time, expiresAt: Time)

  // ----- filter semantics of the business fields -----

  predicate CartMatch(p: Cart, r: Cart)
  {
    && (p.userId != 0 ==> r.userId == p.userId)
    && (p.productId != 0 ==> r.productId == p.productId)
    && (p.quantity != 0 ==> r.quantity == p.quantity)
  }

  predicate CategoryMatch(p: Category, r: Category)
  {
    p.name != "" ==> r.name == p.name
  }

  predicate LocationMatch(p: Location, r: Location)
  {
    && (p.lat != "" ==> r.lat == p.lat)
    && (p.long != "" ==> r.long == p.long)
    && (p.distance != 0 ==> r.distance == p.distance)
    && (p.secret != "" ==> r.secret == p.secret)
  }

  predicate OrderItemMatch(p: OrderItem, r: OrderItem)
  {
    && (p.orderId != 0 ==> r.orderId == p.orderId)
    && (p.productId != 0 ==> r.productId == p.productId)
    && (p.quantity != 0 ==> r.quantity == p.quantity)
    && (p.price != 0.0 ==> r.price == p.price)
  }

  predicate OrderMatch(p: Order, r: Order)
  {
    && (p.userId != 0 ==> r.userId == p.userId)
    && (p.totalPrice != 0.0 ==> r.totalPrice == p.totalPrice)
    && (p.status != "" ==> r.status == p.status)
  }

  predicate PaymentMatch(p: Payment, r: Payment)
  {
    && (p.orderId != 0 ==> r.orderId == p.orderId)
    && (p.paymentMethod != "" ==> r.paymentMethod == p.paymentMethod)
    && (p.paymentStatus != "" ==> r.paymentStatus == p.paymentStatus)
    && (p.transactionId != "" ==> r.transactionId == p.transactionId)
  }

  predicate ProductMatch(p: Product, r: Product)
  {
    && (p.categoryId != 0 ==> r.categoryId == p.categoryId)
    && (p.name != "" ==> r.name == p.name)
    && (p.description != "" ==> r.description == p.description)
    && (p.price != 0.0 ==> r.price == p.price)
    && (p.discountPrice != 0.0 ==> r.discountPrice == p.discountPrice)
    && (p.stock != 0 ==> r.stock == p.stock)
    && (p.imageUrl != "" ==> r.imageUrl == p.imageUrl)
  }

  predicate RefundMatch(p: Refund, r: Refund)
  {
    && (p.userId != 0 ==> r.userId == p.userId)
    && (p.orderId != 0 ==> r.orderId == p.orderId)
    && (p.reason != "" ==> r.reason == p.reason)
  }

  predicate ReviewMatch(p: Review, r: Review)
  {
    && (p.userId != 0 ==> r.userId == p.userId)
    && (p.productId != 0 ==> r.productId == p.productId)
    && (p.rating != 0 ==> r.rating == p.rating)
    && (p.comment != "" ==> r.comment == p.comment)
  }

  predicate RoleMatch(p: Role, r: Role)
  {
    p.name != "" ==> r.name == p.name
  }

  predicate UserMatch(p: User, r: User)
  {
    && (p.username != "" ==> r.username == p.username)
    && (p.email != "" ==> r.email == p.email)
    && (p.password != "" ==> r.password == p.password)
    && (p.pincode != "" ==> r.pincode == p.pincode)
    && (p.roleId != 0 ==> r.roleId == p.roleId)
    && (p.isActive != 0 ==> r.isActive == p.isActive)
  }

  /** The role record whose only non-zero field is its id. */
  function RoleById(id: int): Record<Role>
  {
    Record(id, Role(""), 0, ZeroTime, "", ZeroTime, "", ZeroTime, "")
  }

  // ----- statement columns -----

  const AuditColumns: set<string> :=
    {"id", "is_deleted", "created_at", "created_by", "updated_at", "updated_by", "deleted_at", "deleted_by"}
  const CreateAudit: set<string> := {"created_at", "created_by", "is_deleted"}
  const UpdateAudit: set<string> := {"updated_at", "updated_by", "is_deleted", "id"}
  const DeleteColumns: set<string> := {"is_deleted", "deleted_at", "deleted_by", "id"}

  /** The shape every query file follows: the struct has the business columns and the
      audit columns; the read selects all of them; the insert binds the business columns
      and the creation audit columns; the update binds the business columns, the update
      audit columns and the id; the delete binds the deletion columns and the id. */
  function Standard(columns: set<string>, noun: string): (s: Schema)
    ensures s.readColumns <= s.fields
    ensures s.createBinds <= s.fields && s.updateBinds <= s.fields && s.deleteBinds <= s.fields
  {
    Schema(
      AuditColumns + columns,
      AuditColumns + columns,
      columns + CreateAudit,
      columns + UpdateAudit,
      DeleteColumns,
      "no " + noun + " created",
      "no " + noun + " updated",
      "no " + noun + " deleted")
  }

  const CartSchema: Schema := Standard({"user_id", "product_id", "quantity"}, "cart")

  const CategoriesSchema: Schema := Standard({"name"}, "categories")

  /** The location read selects no creation audit columns. */
  const LocationSchema: Schema :=
    var s := Standard({"lat", "long", "distance", "secret"}, "location");
    s.(readColumns := s.readColumns - {"created_at", "created_by"})

  const OrderItemsSchema: Schema := Standard({"order_id", "product_id", "quantity", "price"}, "order items")

  /** The orders insert binds `:total_prices`, a name the struct does not have. */
  const OrdersSchema: Schema :=
    Standard({"user_id", "total_price", "status"}, "orders").(
      createBinds := {"user_id", "total_prices", "status"} + CreateAudit)

  const PaymentsSchema: Schema :=
    Standard({"order_id", "payment_method", "payment_status", "transaction_id"}, "payments")

  /** The products delete reports "no users deleted". */
  const ProductsSchema: Schema :=
    Standard({"category_id", "name", "description", "discount_price", "price", "stock", "image_url"}, "products").(
      noneDeleted := "no users deleted")

  /** The refund statements read and write a `status` column the struct has no field for. */
  const RefundSchema: Schema :=
    var s := Standard({"user_id", "order_id", "reason", "status"}, "refund");
    s.(fields := AuditColumns + {"user_id", "order_id", "reason"})

  const ReviewsSchema: Schema := Standard({"user_id", "product_id", "rating", "comment"}, "reviews")

  const RoleSchema: Schema := Standard({"name"}, "role")

  const UsersSchema: Schema :=
    Standard({"username", "email", "password", "pincode", "role_id", "is_active"}, "users")

  // ----- the tables -----

  /** A table of one entity: well formed, with the statements of the entity's query file
      and the builder's equality predicates on its business fields. */
  ghost predicate Table<B(!new)>(db: Db<B>, schema: Schema, m: (B, B) -> bool)
  {
    && Dense(db)
    && db.schema == schema
    && forall p, r :: db.engine.bizMatch(p, r) == m(p, r)
  }

  /** Every statement of these entities binds and reads only columns its struct has, so
      none of their reads or writes fails for a missing name. */
  lemma ConsistentSchemas()
    ensures forall s :: s in {CartSchema, CategoriesSchema, LocationSchema, OrderItemsSchema,
                              PaymentsSchema, ProductsSchema, ReviewsSchema, RoleSchema, UsersSchema} ==>
              && s.readColumns <= s.fields
              && BindError(s.createBinds, s.fields).None?
              && BindError(s.updateBinds, s.fields).None?
              && BindError(s.deleteBinds, s.fields).None?
  {
  }

  /** Every orders insert fails at the exec stage and leaves the table as it was; the
      orders update and delete bind normally. */
  lemma OrdersCreateNeverCommits(db: Db<Order>, p: Record<Order>, f: WriteFaults)
    requires Table(db, OrdersSchema, OrderMatch)
    ensures CreateIn(db, p, f).db == db
    ensures f.begin.None? ==> CreateIn(db, p, f).result.Fail? && CreateIn(db, p, f).result.error.code == SQLTxExec
    ensures BindError(OrdersSchema.updateBinds, OrdersSchema.fields).None?
    ensures BindError(OrdersSchema.deleteBinds, OrdersSchema.fields).None?
  {
    assert "total_prices" in OrdersSchema.createBinds;
    assert "total_prices" !in OrdersSchema.fields;
  }

  /** Every refund insert and update fails at the exec stage, and a refund list or detail
      read that finds a row fails at the scan; only the refund delete can succeed. */
  lemma RefundStatusBreaksStatements(
    db: Db<Refund>, p: Record<Refund>, f: WriteFaults, q: Record<Refund>, opts: seq<PredicateOption>, g: ReadFaults)
    requires Table(db, RefundSchema, RefundMatch)
    ensures CreateIn(db, p, f).db == db && UpdateIn(db, p, f).db == db
    ensures f.begin.None? ==> CreateIn(db, p, f).result.error.code == SQLTxExec
    ensures f.begin.None? ==> UpdateIn(db, p, f).result.error.code == SQLTxExec
    ensures ListOf(db, q, opts, g).Ok? ==> ListOf(db, q, opts, g).value == []
    ensures DetailOf(db, q, opts, g).Fail?
    ensures BindError(RefundSchema.deleteBinds, RefundSchema.fields).None?
  {
    assert "status" in RefundSchema.createBinds && "status" in RefundSchema.updateBinds;
    assert "status" in RefundSchema.readColumns && "status" !in RefundSchema.fields;
    assert ScanError(RefundSchema, g).Some?;
  }
}
